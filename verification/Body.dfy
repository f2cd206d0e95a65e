/** The body of a train stays in held blocks (ADR-012): what a status report releases, and what it never does. */
module Body {
  import opened Rail
  import opened LayoutModel
  import opened World
  import opened Clearance
  import opened Standoff
  import opened Handlers
  import opened Chains

  // ---------- closed form ----------

  /**
   * A chain of held edges back from the current block, none of them ahead of the train, never meeting a boundary
   * twice and measured up to its last edge, whose end lies at least a train length behind the head.
   */
  ghost predicate OnTail(l: Layout, held: seq<Held>, forward: set<EdgeRef>, length: Length, start: Marker,
                         distance: real, chain: seq<EdgeRef>) {
    && chain != [] && Backwards(held, forward, start, chain)
    && var before := chain[..|chain| - 1];
    && Apart(start, before) && Measured(l, before) && distance + Span(l, before) >= length
  }

  ghost predicate ClearOfTail(l: Layout, held: seq<Held>, forward: set<EdgeRef>, length: Length, start: Marker,
                              distance: real, e: EdgeRef) {
    exists chain :: OnTail(l, held, forward, length, start, distance, chain) && chain[|chain| - 1] == e
  }

  /** The boundaries walked before the one the chain ends at. */
  function Passed(start: Marker, chain: seq<EdgeRef>): set<Marker> {
    if chain == [] then {} else Reached(start, chain[..|chain| - 1])
  }

  lemma PassedMore(start: Marker, chain: seq<EdgeRef>)
    ensures Passed(start, chain) + {At(start, chain, |chain|)} == Reached(start, chain)
  {
    hide Reached;
    assert Reached(start, []) == {start} by {
      OnlyStart(start);
    }
    if chain != [] {
      var front, e := chain[..|chain| - 1], chain[|chain| - 1];
      assert chain == front + [e];
      ReachedMore(start, front, e);
    }
  }

  lemma PassedApart(start: Marker, chain: seq<EdgeRef>)
    requires chain == [] || Apart(start, chain[..|chain| - 1])
    ensures Apart(start, chain) <==> At(start, chain, |chain|) !in Passed(start, chain)
  {
    if chain != [] {
      var front, e := chain[..|chain| - 1], chain[|chain| - 1];
      assert chain == front + [e];
      hide Apart, Reached;
      ApartMore(start, front, e);
    }
  }

  lemma {:induction false} TailSound(l: Layout, held: seq<Held>, forward: set<EdgeRef>, length: Length, start: Marker,
                                     distance: real,
                                     done: seq<EdgeRef>, steps: nat)
    requires Backwards(held, forward, start, done) && Measured(l, done)
             && (done == [] || Apart(start, done[..|done| - 1]))
    ensures forall e <- TailReleases(l, held, forward, length, At(start, done, |done|), distance + Span(l, done),
                                     Passed(start, done), steps) ::
              ClearOfTail(l, held, forward, length, start, distance, e)
    decreases steps
  {
    hide FindInto, LengthOf, Apart, Backwards, Reached, Passed, At, ClearOfTail, TailReleases, Span;
    var boundary, offset := At(start, done, |done|), distance + Span(l, done);
    var found := FindInto(held, boundary, forward);
    if steps > 0 && boundary !in Passed(start, done) && found.Some? {
      var e := found.value;
      var chain := done + [e];
      WalkBackHop(l, held, forward, length, boundary, offset, Passed(start, done), steps, e);
      PassedApart(start, done);
      Longer(held, forward, start, done, e);
      OneOnTail(l, held, forward, length, start, distance, done, e);
      if LengthOf(l, e).Some? {
        ReachedMore(start, done, e);
        PassedMore(start, done);
        PassedSnoc(start, done, e);
        SpanSnoc(l, done, e);
        TailSound(l, held, forward, length, start, distance, chain, steps - 1);
      }
    } else {
      WalkBackEnds(l, held, forward, length, boundary, offset, Passed(start, done), steps);
    }
  }

  lemma SpanSnoc(l: Layout, done: seq<EdgeRef>, e: EdgeRef)
    requires LengthOf(l, e).Some?
    ensures Span(l, done + [e]) == Span(l, done) + LengthOf(l, e).value
  {
    hide LengthOf;
    assert (done + [e])[..|done|] == done;
  }

  lemma {:induction false} WalkBackEnds(l: Layout, held: seq<Held>, forward: set<EdgeRef>, length: Length,
                                        boundary: Marker, offset: real,
                    visited: set<Marker>, steps: nat)
    requires steps == 0 || boundary in visited || FindInto(held, boundary, forward).None?
    ensures TailReleases(l, held, forward, length, boundary, offset, visited, steps) == []
  {
    hide FindInto, LengthOf;
  }

  lemma PassedSnoc(start: Marker, done: seq<EdgeRef>, e: EdgeRef)
    ensures Passed(start, done + [e]) == Reached(start, done)
  {
    hide Reached;
    assert (done + [e])[..|done|] == done;
  }

  lemma OneOnTail(l: Layout, held: seq<Held>, forward: set<EdgeRef>, length: Length, start: Marker, distance: real,
                  done: seq<EdgeRef>, e: EdgeRef)
    requires Backwards(held, forward, start, done + [e]) && Apart(start, done) && Measured(l, done)
    ensures distance + Span(l, done) >= length ==> ClearOfTail(l, held, forward, length, start, distance, e)
  {
    hide Backwards, Apart, Measured, Span;
    assert (done + [e])[..|done|] == done;
    if distance + Span(l, done) >= length {
      assert OnTail(l, held, forward, length, start, distance, done + [e]);
    }
  }

  lemma {:induction false} TailComplete(l: Layout, held: seq<Held>, forward: set<EdgeRef>, length: Length,
                                        start: Marker, distance: real,
                                        full: seq<EdgeRef>, k: nat, steps: nat)
    requires OnTail(l, held, forward, length, start, distance, full) && k < |full| <= k + steps
    ensures var done := full[..k];
            full[|full| - 1] in TailReleases(l, held, forward, length, At(start, done, k), distance + Span(l, done),
                                             Passed(start, done), steps)
    decreases steps
  {
    hide FindInto, LengthOf, Reached, Passed, At, TailReleases, OnTail;
    TailHop(l, held, forward, length, start, distance, full, k);
    WalkBackHop(l, held, forward, length, At(start, full[..k], k), distance + Span(l, full[..k]),
                Passed(start, full[..k]), steps, full[k]);
    if k + 1 < |full| {
      TailComplete(l, held, forward, length, start, distance, full, k + 1, steps - 1);
    }
  }

  /** The next edge of such a chain, as the walk sees it. */
  lemma TailHop(l: Layout, held: seq<Held>, forward: set<EdgeRef>, length: Length, start: Marker, distance: real,
                full: seq<EdgeRef>, k: nat)
    requires OnTail(l, held, forward, length, start, distance, full) && k < |full|
    ensures var done, more, e := full[..k], full[..k + 1], full[k];
            && FindInto(held, At(start, done, k), forward) == Some(e) && At(start, done, k) !in Passed(start, done)
            && (k + 1 == |full| ==> distance + Span(l, done) >= length)
            && (k + 1 < |full| ==>
                  && LengthOf(l, e).Some? && At(start, more, k + 1) == e.from
                  && Passed(start, more) == Passed(start, done) + {At(start, done, k)}
                  && Span(l, more) == Span(l, done) + LengthOf(l, e).value)
  {
    hide FindInto, LengthOf, Reached, Passed;
    var done, more, e := full[..k], full[..k + 1], full[k];
    var before := full[..|full| - 1];
    assert before[..k] == done;
    Linked(held, forward, start, full, k);
    ApartPart(start, before, k);
    if k > 0 {
      ApartPart(start, done, k - 1);
    }
    PassedApart(start, done);
    PassedMore(start, done);
    PassedSnoc(start, done, e);
    if k + 1 < |full| {
      assert before[k] == e && e in before;
      assert more[..k] == done;
    }
  }

  lemma ApartPart(start: Marker, chain: seq<EdgeRef>, k: nat)
    requires Apart(start, chain) && k <= |chain|
    ensures Apart(start, chain[..k])
  {
  }

  lemma {:induction false} WalkBackHop(l: Layout, held: seq<Held>, forward: set<EdgeRef>, length: Length,
                                       boundary: Marker, offset: real,
                    visited: set<Marker>, steps: nat, e: EdgeRef)
    requires steps > 0 && boundary !in visited && FindInto(held, boundary, forward) == Some(e)
    ensures TailReleases(l, held, forward, length, boundary, offset, visited, steps)
            == (if offset >= length then [e] else [])
               + (if LengthOf(l, e).None? then []
                  else TailReleases(l, held, forward, length, e.from, offset + LengthOf(l, e).value,
                                    visited + {boundary}, steps - 1))
  {
    hide FindInto, LengthOf;
  }

  /** The walk from the current block releases exactly such edges; the step bound never cuts it short. */
  lemma TailIff(l: Layout, held: seq<Held>, forward: set<EdgeRef>, length: Length, start: Marker, distance: real,
                e: EdgeRef)
    ensures e in TailReleases(l, held, forward, length, start, distance, {}, |held|) <==>
              ClearOfTail(l, held, forward, length, start, distance, e)
  {
    hide FindInto, LengthOf, TailReleases, Apart, Backwards;
    NothingYet(l, held, forward, start);
    TailSound(l, held, forward, length, start, distance, [], |held|);
    if chain :| OnTail(l, held, forward, length, start, distance, chain) && chain[|chain| - 1] == e {
      var front := chain[..|chain| - 1];
      assert chain == front + [e];
      LastEdgeApart(held, forward, start, front, e);
      ChainFits(held, forward, start, chain);
      assert chain[..0] == [];
      TailComplete(l, held, forward, length, start, distance, chain, 0, |held|);
    }
  }

  lemma NothingYet(l: Layout, held: seq<Held>, forward: set<EdgeRef>, start: Marker)
    ensures Backwards(held, forward, start, []) && Measured(l, []) && At(start, [], 0) == start
    ensures Span(l, []) == 0.0 && Passed(start, []) == {}
  {
  }

  /** The edge the train reports itself on, or one of its route from its progress on. */
  predicate IsAhead(t: Train, on: EdgeRef, e: EdgeRef) {
    e == on || (t.transit.Some? && t.transit.value.progress <= |t.transit.value.edges|
                && e in t.transit.value.edges[t.transit.value.progress..])
  }

  lemma ForwardIs(t: Train, on: EdgeRef, e: EdgeRef)
    ensures e in ForwardKeys(t, on) <==> IsAhead(t, on, e)
  {
    if t.transit.Some? {
      var tr := t.transit.value;
      if tr.progress <= |tr.edges| && e in tr.edges[tr.progress..] {
        var i :| 0 <= i < |tr.edges[tr.progress..]| && tr.edges[tr.progress..][i] == e;
        assert tr.edges[tr.progress + i] == e;
      }
      if i: nat :| tr.progress <= i < |tr.edges| && tr.edges[i] == e {
        assert tr.edges[tr.progress..][i - tr.progress] == e;
      }
    }
  }

  /**
   * A status report releases exactly the edges whose end lies a train length or more behind the head, walking back over
   * held edges that are not ahead of the train.
   */
  lemma ReleasedIff(l: Layout, t: Train, on: EdgeRef, distance: real, ahead: set<EdgeRef>, e: EdgeRef)
    requires forall x :: x in ahead <==> IsAhead(t, on, x)
    ensures e in ClearedByTail(l, t, on, distance) <==>
              ClearOfTail(l, t.held, ahead, if t.length.Some? then t.length.value else 0.0, on.from, distance, e)
  {
    hide TailReleases, ClearOfTail, ForwardKeys, IsAhead;
    forall x ensures x in ahead <==> x in ForwardKeys(t, on) {
      ForwardIs(t, on, x);
    }
    assert ahead == ForwardKeys(t, on);
    TailIff(l, t.held, ahead, if t.length.Some? then t.length.value else 0.0, on.from, distance, e);
  }
}
