/** Chains of held edges walked backwards from a marker. */
module Chains {
  import opened Rail
  import opened LayoutModel
  import opened World
  import opened Clearance
  import opened Standoff

  /** The marker before the i-th edge of a chain walked backwards from a start. */
  function At(start: Marker, chain: seq<EdgeRef>, i: nat): Marker
    requires i <= |chain|
  {
    if i == 0 then start else chain[i - 1].from
  }

  function Reached(start: Marker, chain: seq<EdgeRef>): set<Marker> {
    {start} + set e | e in chain :: e.from
  }

  /** Of the held edges that end at the marker and are not excluded, the k-th was acquired first. */
  ghost predicate IsFirstInto(held: seq<Held>, m: Marker, except: set<EdgeRef>, k: nat) {
    && k < |held| && held[k].edge.to == m && held[k].edge !in except
    && forall j :: 0 <= j < k ==> held[j].edge.to != m || held[j].edge in except
  }

  /** A step back from a marker is over the held edge into it that was acquired first. */
  lemma {:induction false} FirstInto(held: seq<Held>, m: Marker, except: set<EdgeRef>, e: EdgeRef)
    ensures FindInto(held, m, except) == Some(e)
            <==> exists k: nat :: IsFirstInto(held, m, except, k) && held[k].edge == e
  {
    if held == [] {
    } else if held[0].edge.to == m && held[0].edge !in except {
      assert IsFirstInto(held, m, except, 0);
    } else {
      FirstInto(held[1..], m, except, e);
      if k: nat :| IsFirstInto(held[1..], m, except, k) && held[1..][k].edge == e {
        assert forall j :: 0 < j <= k ==> held[j] == held[1..][j - 1];
        assert IsFirstInto(held, m, except, k + 1) && held[k + 1].edge == e;
      }
      if k: nat :| IsFirstInto(held, m, except, k) && held[k].edge == e {
        assert IsFirstInto(held[1..], m, except, k - 1) && held[1..][k - 1].edge == e;
      }
    }
  }

  /** Each edge is the held one that ends where the one before it starts. */
  ghost predicate Backwards(held: seq<Held>, except: set<EdgeRef>, start: Marker, chain: seq<EdgeRef>) {
    forall i {:trigger At(start, chain, i)} :: 0 <= i < |chain|
      ==> FindInto(held, At(start, chain, i), except) == Some(chain[i])
  }

  /** The chain never comes back to a marker. */
  ghost predicate Apart(start: Marker, chain: seq<EdgeRef>) {
    && (forall i :: 0 <= i < |chain| ==> chain[i].from != start)
    && (forall i, j :: 0 <= i < j < |chain| ==> chain[i].from != chain[j].from)
  }

  lemma OnlyStart(start: Marker)
    ensures Reached(start, []) == {start}
  {
  }

  lemma Linked(held: seq<Held>, except: set<EdgeRef>, start: Marker, chain: seq<EdgeRef>, k: nat)
    requires Backwards(held, except, start, chain) && k < |chain|
    ensures FindInto(held, At(start, chain[..k], k), except) == Some(chain[k])
    ensures chain[..k] + [chain[k]] == chain[..k + 1] && At(start, chain[..k + 1], k + 1) == chain[k].from
  {
    hide FindInto;
    assert At(start, chain[..k], k) == At(start, chain, k);
  }

  lemma Longer(held: seq<Held>, except: set<EdgeRef>, start: Marker, chain: seq<EdgeRef>, e: EdgeRef)
    requires Backwards(held, except, start, chain) && FindInto(held, At(start, chain, |chain|), except) == Some(e)
    ensures Backwards(held, except, start, chain + [e])
  {
    hide FindInto;
    forall i | 0 <= i <= |chain| ensures FindInto(held, At(start, chain + [e], i), except) == Some((chain + [e])[i]) {
      assert At(start, chain + [e], i) == At(start, chain, i);
    }
    assert (chain + [e])[|chain|] == e;
  }

  lemma ReachedMore(start: Marker, chain: seq<EdgeRef>, e: EdgeRef)
    ensures Reached(start, chain + [e]) == Reached(start, chain) + {e.from}
    ensures At(start, chain + [e], |chain| + 1) == e.from && (chain + [e])[..|chain|] == chain
  {
    var more := chain + [e];
    forall m | m in Reached(start, chain) + {e.from} ensures m in Reached(start, more) {
      if m != start && m != e.from {
        var x :| x in chain && x.from == m;
        assert x in more;
      }
    }
    assert e in more;
  }

  lemma ApartMore(start: Marker, chain: seq<EdgeRef>, e: EdgeRef)
    ensures Apart(start, chain + [e]) <==> Apart(start, chain) && e.from !in Reached(start, chain)
  {
    var more := chain + [e];
    if Apart(start, more) {
      forall i | 0 <= i < |chain| ensures chain[i].from != e.from && chain[i].from != start {
        assert more[i] == chain[i] && more[|chain|] == e;
      }
      assert more[|chain|] == e;
      forall i, j | 0 <= i < j < |chain| ensures chain[i].from != chain[j].from {
        assert more[i] == chain[i] && more[j] == chain[j];
      }
    }
  }

  lemma ApartEdges(start: Marker, chain: seq<EdgeRef>)
    requires Apart(start, chain)
    ensures Distinct(chain)
  {
  }

  /** Edges that end at different markers are different, wherever the last one starts. */
  lemma LastEdgeApart(held: seq<Held>, except: set<EdgeRef>, start: Marker, chain: seq<EdgeRef>, e: EdgeRef)
    requires Apart(start, chain) && Backwards(held, except, start, chain + [e])
    ensures Distinct(chain + [e])
  {
    hide FindInto;
    var more := chain + [e];
    forall i, j | 0 <= i < j < |more| ensures more[i] != more[j] {
      assert more[i].to == At(start, more, i) && more[j].to == At(start, more, j);
    }
  }

  lemma {:induction false} EdgesOfHeld(held: seq<Held>, s: set<EdgeRef>)
    requires forall e <- s :: HoldsEdge(held, e)
    ensures |s| <= |held|
  {
    if held == [] {
      assert s == {};
    } else {
      var s' := s - {held[0].edge};
      forall e | e in s' ensures HoldsEdge(held[1..], e) {
        var h :| h in held && h.edge == e;
        assert h in held[1..];
      }
      EdgesOfHeld(held[1..], s');
      assert s <= s' + {held[0].edge};
      SubsetSize(s, s' + {held[0].edge});
    }
  }

  /** A chain of distinct held edges is no longer than the held list. */
  lemma ChainFits(held: seq<Held>, except: set<EdgeRef>, start: Marker, chain: seq<EdgeRef>)
    requires Distinct(chain) && Backwards(held, except, start, chain)
    ensures |chain| <= |held|
  {
    forall e | e in chain ensures HoldsEdge(held, e) {
      var i :| 0 <= i < |chain| && chain[i] == e;
      assert FindInto(held, At(start, chain, i), except) == Some(e);
    }
    DistinctSize(chain);
    EdgesOfHeld(held, set e | e in chain);
  }

  function Span(l: Layout, chain: seq<EdgeRef>): real {
    if chain == [] then 0.0
    else
      var known := LengthOf(l, chain[|chain| - 1]);
      Span(l, chain[..|chain| - 1]) + if known.Some? then known.value else 0.0
  }

  ghost predicate Measured(l: Layout, chain: seq<EdgeRef>) {
    forall e <- chain :: LengthOf(l, e).Some?
  }
}
