/** What the layout graph keeps through loading, discovery, confirmation and pruning. */
module LayoutGraph {
  import opened Rail
  import opened LayoutModel

  /** The edges of a list that join two given markers, in order. */
  function Between(edges: seq<LayoutEdge>, from: Marker, to: Marker): (r: seq<LayoutEdge>)
    ensures forall e :: e in r <==> e in edges && e.from == from && e.to == to
  {
    if edges == [] then []
    else (if edges[0].from == from && edges[0].to == to then [edges[0]] else []) + Between(edges[1..], from, to)
  }

  // ---------- the invariant ----------

  /** Markers and both indexes share one key set. */
  ghost predicate KeysAgree(l: Layout) {
    l.markers.Keys == l.out.Keys && l.markers.Keys == l.inc.Keys
  }

  ghost predicate LeavesFor(markers: set<Marker>, m: Marker, edges: seq<LayoutEdge>) {
    forall e <- edges :: e.from == m && e.to in markers
  }

  ghost predicate ComesFrom(markers: set<Marker>, m: Marker, edges: seq<LayoutEdge>) {
    forall e <- edges :: e.to == m && e.from in markers
  }

  /** Every edge is listed under its own ends, and both are markers. */
  ghost predicate EndsKnown(markers: set<Marker>, out: Index, inc: Index) {
    && (forall m :: m in out ==> LeavesFor(markers, m, out[m]))
    && (forall m :: m in inc ==> ComesFrom(markers, m, inc[m]))
  }

  ghost predicate MirrorAt(out: Index, inc: Index, a: Marker, b: Marker) {
    a in out && b in inc ==> Between(out[a], a, b) == Between(inc[b], a, b)
  }

  /** Outgoing and incoming lists hold the same edges, and parallel ones in the same order. */
  ghost predicate Mirrored(out: Index, inc: Index) {
    forall a, b :: MirrorAt(out, inc, a, b)
  }

  ghost predicate GraphOk(l: Layout) {
    KeysAgree(l) && EndsKnown(l.markers.Keys, l.out, l.inc) && Mirrored(l.out, l.inc)
  }

  /** Of several edges of a list that end at the same marker, only the first may be inferred. */
  ghost predicate CopiesConfirmed(edges: seq<LayoutEdge>) {
    forall i, j :: 0 <= i < j < |edges| && edges[i].to == edges[j].to ==> !edges[j].inferred
  }

  ghost predicate AllCopiesConfirmed(out: Index) {
    forall m :: m in out ==> CopiesConfirmed(out[m])
  }

  ghost predicate BelowThreshold(counts: map<EdgeRef, nat>, threshold: int, edges: seq<LayoutEdge>) {
    forall e <- edges :: e.inferred ==> Count(counts, e.Ref()) < threshold
  }

  ghost predicate Known(out: Index, r: EdgeRef) { r.from in out && FindTo(out[r.from], r.to).Some? }

  /** An inferred edge has not been traversed often enough to be confirmed, and only known edges have been traversed. */
  ghost predicate Unconfirmed(out: Index, counts: map<EdgeRef, nat>, threshold: int) {
    && (forall m :: m in out ==> BelowThreshold(counts, threshold, out[m]))
    && (forall r :: r in counts ==> Known(out, r))
  }

  ghost predicate Discovered(l: Layout) {
    AllCopiesConfirmed(l.out) && Unconfirmed(l.out, l.counts, l.threshold) && l.threshold >= 1
  }

  // ---------- lists ----------

  lemma {:induction false} BetweenAppend(a: seq<LayoutEdge>, b: seq<LayoutEdge>, from: Marker, to: Marker)
    ensures Between(a + b, from, to) == Between(a, from, to) + Between(b, from, to)
  {
    if a == [] {
      assert a + b == b;
    } else {
      assert (a + b)[0] == a[0] && (a + b)[1..] == a[1..] + b;
      BetweenAppend(a[1..], b, from, to);
    }
  }

  lemma BetweenFirst(x: LayoutEdge, rest: seq<LayoutEdge>, a: Marker, b: Marker)
    ensures Between([x] + rest, a, b) == (if x.from == a && x.to == b then [x] else []) + Between(rest, a, b)
  {
    assert ([x] + rest)[1..] == rest;
  }

  lemma PromoteFirst(x: LayoutEdge, rest: seq<LayoutEdge>, from: Marker, to: Marker)
    ensures Promote([x] + rest, from, to)
            == if x.from == from && x.to == to then [x.(inferred := false)] + rest else [x] + Promote(rest, from, to)
  {
    assert ([x] + rest)[1..] == rest;
  }

  /** Promotion clears the flag of the first edge between the two markers and touches nothing else. */
  lemma {:induction false} PromoteBetween(edges: seq<LayoutEdge>, from: Marker, to: Marker, a: Marker, b: Marker)
    ensures Between(Promote(edges, from, to), a, b)
            == if a == from && b == to then Promote(Between(edges, from, to), from, to) else Between(edges, a, b)
  {
    if edges == [] {
    } else {
      hide Between, Promote;
      var x, rest := edges[0], edges[1..];
      assert edges == [x] + rest;
      PromoteBetween(rest, from, to, a, b);
      PromoteFirst(x, rest, from, to);
      BetweenFirst(x, rest, a, b);
      if x.from == from && x.to == to {
        BetweenFirst(x.(inferred := false), rest, a, b);
        PromoteFirst(x, Between(rest, from, to), from, to);
      } else {
        BetweenFirst(x, Promote(rest, from, to), a, b);
        assert [] + Between(rest, a, b) == Between(rest, a, b);
        assert [] + Between(Promote(rest, from, to), a, b) == Between(Promote(rest, from, to), a, b);
      }
    }
  }

  lemma {:induction false} PromoteMembers(edges: seq<LayoutEdge>, from: Marker, to: Marker)
    ensures forall i :: 0 <= i < |edges| ==>
              var e := Promote(edges, from, to)[i];
              e == edges[i] || (edges[i].from == from && edges[i].to == to && e == edges[i].(inferred := false))
  {
    if edges != [] && !(edges[0].from == from && edges[0].to == to) {
      PromoteMembers(edges[1..], from, to);
    }
  }

  // ---------- each operation keeps the graph ----------

  lemma AddKeeps(l: Layout, e: LayoutEdge)
    requires GraphOk(l) && CanAdd(l, e)
    ensures GraphOk(AddEdge(l, e))
  {
    hide MirrorAt, Between;
    var l' := AddEdge(l, e);
    forall a, b ensures MirrorAt(l'.out, l'.inc, a, b) {
      AddMirrors(l, e, a, b);
    }
  }

  lemma AddMirrors(l: Layout, e: LayoutEdge, a: Marker, b: Marker)
    requires CanAdd(l, e) && MirrorAt(l.out, l.inc, a, b)
    ensures MirrorAt(AddEdge(l, e).out, AddEdge(l, e).inc, a, b)
  {
    hide Between;
    if a in l.out && b in l.inc {
      BetweenAppend(l.out[a], [e], a, b);
      BetweenAppend(l.inc[b], [e], a, b);
      BetweenOne(e, a, b);
      assert Between(l.out[a], a, b) + [] == Between(l.out[a], a, b);
    }
  }

  lemma BetweenOne(e: LayoutEdge, a: Marker, b: Marker)
    ensures Between([e], a, b) == if e.from == a && e.to == b then [e] else []
  {
  }

  lemma {:induction false} NothingBetween(edges: seq<LayoutEdge>, a: Marker, b: Marker)
    requires forall e <- edges :: e.from != a || e.to != b
    ensures Between(edges, a, b) == []
  {
    if edges == [] {
    } else {
      NothingBetween(edges[1..], a, b);
    }
  }

  lemma UpsertKeeps(l: Layout, id: Marker, kind: Kind)
    requires GraphOk(l)
    ensures GraphOk(UpsertMarker(l, id, kind))
  {
    hide MirrorAt, Between;
    if id !in l.markers {
      var l' := UpsertMarker(l, id, kind);
      forall a, b ensures MirrorAt(l'.out, l'.inc, a, b) {
        UpsertMirrors(l, id, a, b);
      }
    }
  }

  lemma UpsertMirrors(l: Layout, id: Marker, a: Marker, b: Marker)
    requires GraphOk(l) && id !in l.markers
    ensures MirrorAt(l.out[id := []], l.inc[id := []], a, b)
  {
    hide Between;
    var out, inc := l.out[id := []], l.inc[id := []];
    assert MirrorAt(l.out, l.inc, a, b);
    if a in out && b in inc && (a == id || b == id) {
      assert a != id ==> LeavesFor(l.markers.Keys, a, l.out[a]);
      assert b != id ==> ComesFrom(l.markers.Keys, b, l.inc[b]);
      NothingBetween(out[a], a, b);
      NothingBetween(inc[b], a, b);
    }
  }

  /** An edge's ends are no orphans. */
  lemma EndsHaveEdges(l: Layout, e: LayoutEdge)
    requires GraphOk(l) && e.from in l.out && e in l.out[e.from]
    ensures e.to in l.inc && e in l.inc[e.to]
  {
    hide Between;
    assert LeavesFor(l.markers.Keys, e.from, l.out[e.from]);
    assert MirrorAt(l.out, l.inc, e.from, e.to);
    assert e in Between(l.out[e.from], e.from, e.to) <==> e in Between(l.inc[e.to], e.from, e.to);
  }

  lemma PruneKeeps(l: Layout)
    requires GraphOk(l)
    ensures GraphOk(Prune(l))
  {
    hide MirrorAt, Between;
    var l' := Prune(l);
    forall a, b ensures MirrorAt(l'.out, l'.inc, a, b) {
      PruneMirrors(l, a, b);
    }
    forall m | m in l'.out ensures LeavesFor(l'.markers.Keys, m, l'.out[m]) {
      PruneLeaves(l, m);
    }
    forall m | m in l'.inc ensures ComesFrom(l'.markers.Keys, m, l'.inc[m]) {
      PruneComes(l, m);
    }
  }

  /** A known marker no edge leaves or comes into. */
  ghost predicate Loose(l: Layout, m: Marker) {
    m in l.markers && (m in l.out ==> l.out[m] == []) && (m in l.inc ==> l.inc[m] == [])
  }

  /** Pruning takes away loose markers, with what is known of their switches, and nothing else. */
  lemma PruneExact(l: Layout, m: Marker)
    ensures var l' := Prune(l);
            && l' == l.(markers := l'.markers, out := l'.out, inc := l'.inc, switches := l'.switches,
                        switchDevice := l'.switchDevice)
            && Look(l'.markers, m) == (if Loose(l, m) then None else Look(l.markers, m))
            && Look(l'.out, m) == (if Loose(l, m) then None else Look(l.out, m))
            && Look(l'.inc, m) == (if Loose(l, m) then None else Look(l.inc, m))
            && Look(l'.switches, m) == (if Loose(l, m) then None else Look(l.switches, m))
            && Look(l'.switchDevice, m) == (if Loose(l, m) then None else Look(l.switchDevice, m))
  {
    LooseIs(l, m);
    hide IsOrphan, Loose;
  }

  lemma LooseIs(l: Layout, m: Marker)
    ensures m in Orphans(l) <==> Loose(l, m)
  {
  }

  lemma PruneMirrors(l: Layout, a: Marker, b: Marker)
    requires GraphOk(l)
    ensures MirrorAt(Prune(l).out, Prune(l).inc, a, b)
  {
    assert MirrorAt(l.out, l.inc, a, b);
  }

  lemma PruneLeaves(l: Layout, m: Marker)
    requires GraphOk(l) && m in Prune(l).out
    ensures LeavesFor(Prune(l).markers.Keys, m, Prune(l).out[m])
  {
    hide Mirrored;
    assert LeavesFor(l.markers.Keys, m, l.out[m]);
    forall e | e in l.out[m] ensures e.to !in Orphans(l) {
      EndsHaveEdges(l, e);
    }
  }

  lemma PruneComes(l: Layout, m: Marker)
    requires GraphOk(l) && m in Prune(l).inc
    ensures ComesFrom(Prune(l).markers.Keys, m, Prune(l).inc[m])
  {
    hide Mirrored;
    assert ComesFrom(l.markers.Keys, m, l.inc[m]);
    forall e | e in l.inc[m] ensures e.from !in Orphans(l) {
      IncomingHasEdges(l, e);
    }
  }

  lemma IncomingHasEdges(l: Layout, e: LayoutEdge)
    requires GraphOk(l) && e.to in l.inc && e in l.inc[e.to]
    ensures e.from in l.out && e in l.out[e.from]
  {
    hide Between;
    assert ComesFrom(l.markers.Keys, e.to, l.inc[e.to]);
    assert MirrorAt(l.out, l.inc, e.from, e.to);
    assert e in Between(l.out[e.from], e.from, e.to) <==> e in Between(l.inc[e.to], e.from, e.to);
  }

  lemma ConfirmKeeps(l: Layout, from: Marker, to: Marker)
    requires GraphOk(l)
    ensures GraphOk(ConfirmEdge(l, from, to))
  {
    hide MirrorAt, Between, LeavesFor, ComesFrom, Promote;
    var l' := ConfirmEdge(l, from, to);
    forall a, b ensures MirrorAt(l'.out, l'.inc, a, b) {
      ConfirmMirrors(l, from, to, a, b);
    }
    forall m | m in l'.out ensures LeavesFor(l'.markers.Keys, m, l'.out[m]) {
      PromoteEnds(l.markers.Keys, m, l.out[m], from, to);
    }
    forall m | m in l'.inc ensures ComesFrom(l'.markers.Keys, m, l'.inc[m]) {
      PromoteEnds(l.markers.Keys, m, l.inc[m], from, to);
    }
  }

  lemma ConfirmMirrors(l: Layout, from: Marker, to: Marker, a: Marker, b: Marker)
    requires MirrorAt(l.out, l.inc, a, b)
    ensures MirrorAt(ConfirmEdge(l, from, to).out, ConfirmEdge(l, from, to).inc, a, b)
  {
    hide Between, Promote;
    if a in l.out && b in l.inc {
      PromoteBetween(l.out[a], from, to, a, b);
      PromoteBetween(l.inc[b], from, to, a, b);
    }
  }

  lemma PromoteEnds(markers: set<Marker>, m: Marker, edges: seq<LayoutEdge>, from: Marker, to: Marker)
    ensures LeavesFor(markers, m, edges) ==> LeavesFor(markers, m, Promote(edges, from, to))
    ensures ComesFrom(markers, m, edges) ==> ComesFrom(markers, m, Promote(edges, from, to))
  {
    hide Promote;
    PromoteMembers(edges, from, to);
  }

  // ---------- discovery ----------

  lemma {:induction false} FoundAt(edges: seq<LayoutEdge>, i: nat)
    requires i < |edges| && CopiesConfirmed(edges) && edges[i].inferred
    ensures FindTo(edges, edges[i].to) == Some(edges[i])
  {
    if i == 0 {
    } else {
      FoundAt(edges[1..], i - 1);
    }
  }

  lemma {:induction false} FindPromoted(edges: seq<LayoutEdge>, from: Marker, to: Marker, b: Marker)
    ensures FindTo(Promote(edges, from, to), b).Some? <==> FindTo(edges, b).Some?
  {
    if edges == [] {
    } else {
      FindPromoted(edges[1..], from, to, b);
    }
  }

  lemma {:induction false} FindAppended(edges: seq<LayoutEdge>, e: LayoutEdge, b: Marker)
    ensures FindTo(edges + [e], b) == if FindTo(edges, b).Some? then FindTo(edges, b) else if e.to == b then Some(e)
                                                                                           else None
  {
    if edges == [] {
    } else {
      assert (edges + [e])[0] == edges[0] && (edges + [e])[1..] == edges[1..] + [e];
      FindAppended(edges[1..], e, b);
    }
  }

  /** A new edge where there was none: nothing has been traversed there. */
  lemma InferKeeps(l: Layout, from: Marker, to: Marker)
    requires GraphOk(l) && Discovered(l)
    ensures GraphOk(AddInferredEdge(l, from, to)) && Discovered(AddInferredEdge(l, from, to))
  {
    hide Mirrored, EndsKnown, FindTo, CopiesConfirmed, BelowThreshold, Known;
    var e := Inferred(from, to);
    if AddInferredEdge(l, from, to) != l {
      AddKeeps(l, e);
      AddSingle(l.out[from], e);
      assert !Known(l.out, e.Ref()) by {
        NotKnown(l.out, from, to);
      }
      AddBelow(l.counts, l.threshold, l.out[from], e);
      forall r | r in l.counts ensures Known(AddEdge(l, e).out, r) {
        AddKnown(l.out, e, r);
      }
    }
  }

  lemma NotKnown(out: Index, from: Marker, to: Marker)
    requires from in out && FindTo(out[from], to).None?
    ensures !Known(out, EdgeRef(from, to))
  {
  }

  lemma AddSingle(edges: seq<LayoutEdge>, e: LayoutEdge)
    requires CopiesConfirmed(edges) && (FindTo(edges, e.to).None? || !e.inferred)
    ensures CopiesConfirmed(edges + [e])
  {
    hide FindTo;
  }

  lemma AddBelow(counts: map<EdgeRef, nat>, threshold: int, edges: seq<LayoutEdge>, e: LayoutEdge)
    requires BelowThreshold(counts, threshold, edges) && e.Ref() !in counts && threshold >= 1
    ensures BelowThreshold(counts, threshold, edges + [e])
  {
  }

  lemma AddKnown(out: Index, e: LayoutEdge, r: EdgeRef)
    requires Known(out, r) && e.from in out
    ensures Known(out[e.from := out[e.from] + [e]], r)
  {
    FindAppended(out[e.from], e, r.to);
  }

  lemma EmptyList(counts: map<EdgeRef, nat>, threshold: int)
    ensures CopiesConfirmed([]) && BelowThreshold(counts, threshold, [])
    ensures forall m :: FindTo([], m).None?
  {
  }

  lemma UpsertDiscovers(l: Layout, id: Marker, kind: Kind)
    requires GraphOk(l) && Discovered(l)
    ensures GraphOk(UpsertMarker(l, id, kind)) && Discovered(UpsertMarker(l, id, kind))
  {
    hide Mirrored, EndsKnown, FindTo, CopiesConfirmed, BelowThreshold, Known;
    UpsertKeeps(l, id, kind);
    EmptyList(l.counts, l.threshold);
    if id !in l.markers {
      forall r | r in l.counts ensures Known(l.out[id := []], r) {
        KnownElsewhere(l.out, id, r);
      }
    }
  }

  lemma KnownElsewhere(out: Index, id: Marker, r: EdgeRef)
    requires Known(out, r) && id !in out
    ensures Known(out[id := []], r)
  {
  }

  lemma PruneDiscovers(l: Layout)
    requires GraphOk(l) && Discovered(l)
    ensures GraphOk(Prune(l)) && Discovered(Prune(l))
  {
    hide Mirrored, EndsKnown, FindTo, CopiesConfirmed, BelowThreshold, Known;
    PruneKeeps(l);
    var l' := Prune(l);
    forall r | r in l'.counts ensures Known(l'.out, r) {
      PruneKnows(l, r);
    }
  }

  lemma PruneKnows(l: Layout, r: EdgeRef)
    requires Known(l.out, r)
    ensures Known(Prune(l).out, r)
  {
    EmptyList(l.counts, l.threshold);
    assert l.out[r.from] != [];
  }

  lemma PromoteSingle(edges: seq<LayoutEdge>, from: Marker, to: Marker)
    requires CopiesConfirmed(edges)
    ensures CopiesConfirmed(Promote(edges, from, to))
  {
    hide Promote;
    PromoteMembers(edges, from, to);
    var p := Promote(edges, from, to);
    forall i, j | 0 <= i < j < |p| && p[i].to == p[j].to ensures !p[j].inferred {
      assert p[i].to == edges[i].to && p[j].to == edges[j].to;
    }
  }

  lemma {:induction false} PromotedIsConfirmed(edges: seq<LayoutEdge>, from: Marker, to: Marker)
    requires CopiesConfirmed(edges) && forall e <- edges :: e.from == from
    ensures forall e <- Promote(edges, from, to) :: (e.to == to ==> !e.inferred) && (e.to != to ==> e in edges)
  {
    if edges == [] {
    } else {
      PromotedIsConfirmed(edges[1..], from, to);
      assert edges == [edges[0]] + edges[1..];
      if edges[0].to == to {
        forall e | e in edges[1..] && e.to == to ensures !e.inferred {
          var k :| 0 <= k < |edges[1..]| && edges[1..][k] == e;
          assert edges[k + 1] == e;
        }
      }
    }
  }

  /** A list whose own markers are counted elsewhere is not affected. */
  lemma CountElsewhere(counts: map<EdgeRef, nat>, threshold: int, edges: seq<LayoutEdge>, key: EdgeRef, n: nat)
    requires BelowThreshold(counts, threshold, edges) && forall e <- edges :: e.Ref() != key
    ensures BelowThreshold(counts[key := n], threshold, edges)
  {
  }

  lemma CountConfirmed(counts: map<EdgeRef, nat>, threshold: int, edges: seq<LayoutEdge>, from: Marker, to: Marker,
                       n: nat)
    requires BelowThreshold(counts, threshold, edges) && CopiesConfirmed(edges) && forall e <- edges :: e.from == from
    ensures BelowThreshold(counts[EdgeRef(from, to) := n], threshold, Promote(edges, from, to))
  {
    PromotedIsConfirmed(edges, from, to);
    hide Promote;
  }

  /** Below the threshold, or confirmed already: counting once more leaves every inferred edge unconfirmed. */
  lemma CountUnconfirmed(counts: map<EdgeRef, nat>, threshold: int, edges: seq<LayoutEdge>, from: Marker, to: Marker,
                         n: nat)
    requires BelowThreshold(counts, threshold, edges) && CopiesConfirmed(edges) && FindTo(edges, to).Some?
    requires !(FindTo(edges, to).value.inferred && n >= threshold)
    ensures BelowThreshold(counts[EdgeRef(from, to) := n], threshold, edges)
  {
    hide FindTo;
    var counts' := counts[EdgeRef(from, to) := n];
    forall e | e in edges && e.inferred ensures Count(counts', e.Ref()) < threshold {
      var i :| 0 <= i < |edges| && edges[i] == e;
      FoundAt(edges, i);
    }
  }

  function Counted(l: Layout, from: Marker, to: Marker): Layout {
    l.(counts := l.counts[EdgeRef(from, to) := Count(l.counts, EdgeRef(from, to)) + 1])
  }

  predicate Confirms(l: Layout, from: Marker, to: Marker) {
    var l2 := Counted(l, from, to);
    FindEdge(l2, from, to).Some? && FindEdge(l2, from, to).value.inferred
      && Count(l.counts, EdgeRef(from, to)) + 1 >= l.threshold
  }

  /** Counting a traversal of a known edge, and confirming it when the threshold is reached. */
  lemma CountKeeps(l: Layout, from: Marker, to: Marker)
    requires GraphOk(l) && Discovered(l) && FindEdge(l, from, to).Some?
    ensures var l2 := Counted(l, from, to);
            var l3 := if Confirms(l, from, to) then ConfirmEdge(l2, from, to) else l2;
            GraphOk(l3) && Discovered(l3)
  {
    hide Mirrored, EndsKnown, Promote, FindTo, CopiesConfirmed, BelowThreshold, Known;
    var key := EdgeRef(from, to);
    var l2 := Counted(l, from, to);
    FoundIsKnown(l, from, to);
    ListedUnder(l, from);
    assert GraphOk(l2);
    forall m | m in l.out && m != from ensures BelowThreshold(l2.counts, l.threshold, l.out[m]) {
      ListedUnder(l, m);
      CountElsewhere(l.counts, l.threshold, l.out[m], key, l2.counts[key]);
    }
    if Confirms(l, from, to) {
      ConfirmKeeps(l2, from, to);
      PromoteSingle(l.out[from], from, to);
      CountConfirmed(l.counts, l.threshold, l.out[from], from, to, l2.counts[key]);
      forall r | r in l2.counts ensures Known(PromoteIn(l.out, from, from, to), r) {
        PromoteKnown(l.out, from, to, r);
      }
    } else {
      CountUnconfirmed(l.counts, l.threshold, l.out[from], from, to, l2.counts[key]);
    }
  }

  lemma FoundIsKnown(l: Layout, from: Marker, to: Marker)
    requires FindEdge(l, from, to).Some?
    ensures from in l.out && Known(l.out, EdgeRef(from, to)) && FindEdge(l, from, to) == FindTo(l.out[from], to)
  {
  }

  lemma PromoteKnown(out: Index, from: Marker, to: Marker, r: EdgeRef)
    requires Known(out, r)
    ensures Known(PromoteIn(out, from, from, to), r)
  {
    FindPromoted(out[r.from], from, to, r.to);
  }

  lemma ListedUnder(l: Layout, m: Marker)
    requires GraphOk(l) && m in l.out
    ensures forall e <- l.out[m] :: e.from == m && e.Ref().from == m
  {
    hide Mirrored;
    assert LeavesFor(l.markers.Keys, m, l.out[m]);
  }

  /** Times and timestamps are no part of the graph. */
  ghost predicate SameGraph(l: Layout, l': Layout) {
    l'.markers == l.markers && l'.out == l.out && l'.inc == l.inc && l'.counts == l.counts
      && l'.threshold == l.threshold
  }

  lemma LearningKeeps(l: Layout, l': Layout)
    requires GraphOk(l) && Discovered(l) && SameGraph(l, l')
    ensures GraphOk(l') && Discovered(l')
  {
    hide Mirrored, EndsKnown, AllCopiesConfirmed, Unconfirmed;
  }

  /** What a recorded traversal does to the graph, apart from times. */
  lemma RecordGraph(l: Layout, from: Marker, to: Marker, train: Option<Id>, now: real)
    requires from in l.markers && to in l.markers
    ensures var l1 := AddInferredEdge(l, from, to);
            var l2 := Counted(l1, from, to);
            SameGraph(if Confirms(l1, from, to) then ConfirmEdge(l2, from, to) else l2,
                      RecordTraversal(l, from, to, train, now).layout)
  {
    hide ConfirmEdge, FindEdge, Blend;
  }

  lemma RecordKeeps(l: Layout, from: Marker, to: Marker, train: Option<Id>, now: real)
    requires GraphOk(l) && Discovered(l)
    ensures GraphOk(RecordTraversal(l, from, to, train, now).layout)
            && Discovered(RecordTraversal(l, from, to, train, now).layout)
  {
    if from in l.markers && to in l.markers {
      var l1 := AddInferredEdge(l, from, to);
      InferKeeps(l, from, to);
      InferFinds(l, from, to);
      RecordGraph(l, from, to, train, now);
      hide GraphOk, Discovered, ConfirmEdge, AddInferredEdge, FindEdge, Counted, Confirms, RecordTraversal, SameGraph;
      CountKeeps(l1, from, to);
      var l2 := Counted(l1, from, to);
      LearningKeeps(if Confirms(l1, from, to) then ConfirmEdge(l2, from, to) else l2,
                    RecordTraversal(l, from, to, train, now).layout);
    }
  }

  lemma InferFinds(l: Layout, from: Marker, to: Marker)
    requires GraphOk(l) && from in l.markers && to in l.markers
    ensures FindEdge(AddInferredEdge(l, from, to), from, to).Some?
  {
    hide Mirrored, EndsKnown;
    FindAppended(l.out[from], Inferred(from, to), to);
  }

  // ---------- loading ----------

  ghost predicate AllEmpty(l: Layout) {
    && KeysAgree(l) && (forall m :: m in l.out ==> l.out[m] == []) && (forall m :: m in l.inc ==> l.inc[m] == [])
    && l.counts == map[]
  }

  lemma {:induction false} MarkersEmpty(l: Layout, ms: seq<(Marker, Kind)>)
    requires AllEmpty(l)
    ensures AllEmpty(PutMarkers(l, ms)) && PutMarkers(l, ms).threshold == l.threshold
    decreases |ms|
  {
    if ms == [] {
    } else {
      MarkersEmpty(PutMarker(l, ms[0].0, ms[0].1), ms[1..]);
    }
  }

  lemma EmptyGraph(l: Layout)
    requires AllEmpty(l)
    ensures GraphOk(l) && (l.threshold >= 1 ==> Discovered(l))
  {
    forall a, b ensures MirrorAt(l.out, l.inc, a, b) {
      if a in l.out && b in l.inc {
        assert Between(l.out[a], a, b) == [];
        assert Between(l.inc[b], a, b) == [];
      }
    }
  }

  /** An edge declared again, between the same markers in the same direction, is declared as confirmed. */
  ghost predicate LateCopiesConfirmed(es: seq<LayoutEdge>) {
    forall i, j :: 0 <= i < j < |es| && es[i].Ref() == es[j].Ref() ==> !es[j].inferred
  }

  /** None of the inferred edges is in the graph yet. */
  ghost predicate InferredAreNew(out: Index, es: seq<LayoutEdge>) {
    forall e <- es :: e.inferred ==> !Known(out, e.Ref())
  }

  lemma {:induction false} EdgesKeep(l: Layout, es: seq<LayoutEdge>)
    requires GraphOk(l) && PutEdges(l, es).Some?
    ensures GraphOk(PutEdges(l, es).value)
    decreases |es|
  {
    if es == [] {
    } else {
      hide GraphOk;
      AddKeeps(l, es[0]);
      EdgesKeep(AddEdge(l, es[0]), es[1..]);
    }
  }

  lemma {:induction false} EdgesDiscover(l: Layout, es: seq<LayoutEdge>)
    requires AllCopiesConfirmed(l.out) && l.counts == map[] && l.threshold >= 1 && LateCopiesConfirmed(es)
             && InferredAreNew(l.out, es)
    requires PutEdges(l, es).Some?
    ensures Discovered(PutEdges(l, es).value)
    decreases |es|
  {
    hide CopiesConfirmed, Known, FindTo;
    if es == [] {
      forall m | m in l.out ensures BelowThreshold(l.counts, l.threshold, l.out[m]) {
      }
    } else {
      var e := es[0];
      var l' := AddEdge(l, e);
      if e.inferred {
        NotThere(l.out, e);
      }
      AddSingle(l.out[e.from], e);
      forall x | x in es[1..] && x.inferred ensures !Known(l'.out, x.Ref()) {
        var k :| 0 <= k < |es| - 1 && es[1..][k] == x;
        assert es[k + 1] == x && x.Ref() != e.Ref();
        StillNew(l.out, e, x.Ref());
      }
      EdgesDiscover(l', es[1..]);
    }
  }

  lemma NotThere(out: Index, e: LayoutEdge)
    requires e.from in out && !Known(out, e.Ref())
    ensures FindTo(out[e.from], e.to).None?
  {
  }

  lemma StillNew(out: Index, e: LayoutEdge, r: EdgeRef)
    requires e.from in out && !Known(out, r) && r != e.Ref()
    ensures !Known(out[e.from := out[e.from] + [e]], r)
  {
    FindAppended(out[e.from], e, r.to);
  }

  lemma {:induction false} JunctionsKeep(l: Layout, js: seq<(Marker, Option<string>)>)
    ensures SameGraph(l, PutJunctions(l, js))
    decreases |js|
  {
    if js == [] {
    } else {
      var initial := js[0].1;
      var next := if initial.Some? && initial.value != "" then l.(switches := l.switches[js[0].0 := initial.value])
                  else l;
      JunctionsKeep(next, js[1..]);
    }
  }

  lemma EmptyKnowsNothing(l: Layout, es: seq<LayoutEdge>)
    requires AllEmpty(l)
    ensures AllCopiesConfirmed(l.out) && InferredAreNew(l.out, es)
  {
    EmptyList(l.counts, l.threshold);
  }

  /** A declared layout that loads at all has the invariant, and nothing in it is due for confirmation. */
  lemma LoadedIsOk(document: Document, threshold: int)
    requires Load(document, threshold).Some? && LateCopiesConfirmed(document.edges) && threshold >= 1
    ensures GraphOk(Load(document, threshold).value) && Discovered(Load(document, threshold).value)
  {
    hide GraphOk, Discovered, AllEmpty, AllCopiesConfirmed, InferredAreNew, LateCopiesConfirmed, PutJunctions, PutEdges,
         PutMarkers;
    var l0 := Empty(document, threshold);
    assert AllEmpty(l0) by {
      NothingIsEmpty(document, threshold);
    }
    MarkersEmpty(l0, document.markers);
    var l1 := PutMarkers(l0, document.markers);
    EmptyGraph(l1);
    EmptyKnowsNothing(l1, document.edges);
    EmptyCounts(l1);
    var l2 := PutEdges(l1, document.edges).value;
    EdgesKeep(l1, document.edges);
    EdgesDiscover(l1, document.edges);
    JunctionsKeep(l2, document.junctions);
    LearningKeeps(l2, PutJunctions(l2, document.junctions));
  }

  lemma NothingIsEmpty(document: Document, threshold: int)
    ensures AllEmpty(Empty(document, threshold))
  {
  }

  lemma EmptyCounts(l: Layout)
    requires AllEmpty(l)
    ensures l.counts == map[]
  {
  }

  // ---------- runs ----------

  /** What is done to a layout over its life. */
  datatype Op =
    | Upsert(id: Marker, kind: Kind)
    | Infer(from: Marker, to: Marker)
    | Record(begin: Marker, end: Marker, train: Option<Id>, now: real)
    | PruneOrphans
    | SetSwitches(switches: map<Marker, string>)
    | SetPairings(pairings: map<Marker, Id>)
    | Reload

  function Apply(l: Layout, op: Op): Layout {
    match op
    case Upsert(id, kind) => UpsertMarker(l, id, kind)
    case Infer(from, to) => AddInferredEdge(l, from, to)
    case Record(from, to, train, now) => RecordTraversal(l, from, to, train, now).layout
    case PruneOrphans => Prune(l)
    case SetSwitches(s) => l.(switches := s)
    case SetPairings(p) => l.(switchDevice := p)
    case Reload =>
      if Load(l.document, l.threshold).Some? then Load(l.document, l.threshold).value
      else Empty(l.document, l.threshold)
  }

  function ApplyAll(l: Layout, ops: seq<Op>): Layout {
    if ops == [] then l else Apply(ApplyAll(l, ops[..|ops| - 1]), ops[|ops| - 1])
  }

  /** The invariant, with what reloading needs. */
  ghost predicate Sound(l: Layout) {
    GraphOk(l) && Discovered(l) && LateCopiesConfirmed(l.document.edges)
  }

  lemma KeepsDocument(l: Layout, op: Op)
    ensures Apply(l, op).document == l.document && Apply(l, op).threshold == l.threshold
  {
    hide RecordTraversal, AddInferredEdge, Load;
    if op.Reload? {
      LoadDocument(l.document, l.threshold);
    } else if op.Record? {
      RecordDocument(l, op.begin, op.end, op.train, op.now);
    } else if op.Infer? {
      InferDocument(l, op.from, op.to);
    }
  }

  lemma RecordDocument(l: Layout, from: Marker, to: Marker, train: Option<Id>, now: real)
    ensures var l' := RecordTraversal(l, from, to, train, now).layout;
            l'.document == l.document && l'.threshold == l.threshold
  {
    hide FindEdge, ConfirmEdge, AddInferredEdge, Blend;
    InferDocument(l, from, to);
    var l1 := AddInferredEdge(l, from, to);
    ConfirmDocument(l1.(counts := l1.counts[EdgeRef(from, to) := Count(l.counts, EdgeRef(from, to)) + 1]), from, to);
  }

  lemma InferDocument(l: Layout, from: Marker, to: Marker)
    ensures AddInferredEdge(l, from, to).document == l.document && AddInferredEdge(l, from, to).threshold == l.threshold
  {
  }

  lemma ConfirmDocument(l: Layout, from: Marker, to: Marker)
    ensures ConfirmEdge(l, from, to).document == l.document && ConfirmEdge(l, from, to).threshold == l.threshold
  {
  }

  lemma {:induction false} MarkersDocument(l: Layout, ms: seq<(Marker, Kind)>)
    ensures PutMarkers(l, ms).document == l.document && PutMarkers(l, ms).threshold == l.threshold
    decreases |ms|
  {
    if ms == [] {
    } else {
      MarkersDocument(PutMarker(l, ms[0].0, ms[0].1), ms[1..]);
    }
  }

  lemma {:induction false} EdgesDocument(l: Layout, es: seq<LayoutEdge>)
    ensures PutEdges(l, es).Some?
            ==> PutEdges(l, es).value.document == l.document && PutEdges(l, es).value.threshold == l.threshold
    decreases |es|
  {
    if es != [] && CanAdd(l, es[0]) {
      EdgesDocument(AddEdge(l, es[0]), es[1..]);
    }
  }

  lemma {:induction false} JunctionsDocument(l: Layout, js: seq<(Marker, Option<string>)>)
    ensures PutJunctions(l, js).document == l.document && PutJunctions(l, js).threshold == l.threshold
    decreases |js|
  {
    if js == [] {
    } else {
      var initial := js[0].1;
      var next := if initial.Some? && initial.value != "" then l.(switches := l.switches[js[0].0 := initial.value])
                  else l;
      JunctionsDocument(next, js[1..]);
    }
  }

  lemma LoadDocument(document: Document, threshold: int)
    ensures var l := Load(document, threshold);
            l.Some? ==> l.value.document == document && l.value.threshold == threshold
  {
    hide PutJunctions, PutEdges, PutMarkers;
    var l1 := PutMarkers(Empty(document, threshold), document.markers);
    MarkersDocument(Empty(document, threshold), document.markers);
    EdgesDocument(l1, document.edges);
    if PutEdges(l1, document.edges).Some? {
      JunctionsDocument(PutEdges(l1, document.edges).value, document.junctions);
    }
  }

  lemma ApplyKeeps(l: Layout, op: Op)
    requires Sound(l)
    ensures Sound(Apply(l, op))
  {
    hide GraphOk, Discovered, LateCopiesConfirmed, RecordTraversal, AddInferredEdge, UpsertMarker, Prune, Load;
    KeepsDocument(l, op);
    match op
    case Upsert(id, kind) => UpsertDiscovers(l, id, kind);
    case Infer(from, to) => InferKeeps(l, from, to);
    case Record(from, to, train, now) => RecordKeeps(l, from, to, train, now);
    case PruneOrphans => PruneDiscovers(l);
    case SetSwitches(s) => LearningKeeps(l, l.(switches := s));
    case SetPairings(p) => LearningKeeps(l, l.(switchDevice := p));
    case Reload =>
      ThresholdAtLeastOne(l);
      if Load(l.document, l.threshold).Some? {
        LoadedIsOk(l.document, l.threshold);
      } else {
        NothingIsEmpty(l.document, l.threshold);
        EmptyGraph(Empty(l.document, l.threshold));
      }
  }

  lemma ThresholdAtLeastOne(l: Layout)
    requires Discovered(l)
    ensures l.threshold >= 1
  {
  }

  /** Over every run: one key set, mirror-image lists, known ends, and inferred edges below the threshold. */
  lemma {:induction false} RunKeepsGraph(document: Document, threshold: int, ops: seq<Op>)
    requires Load(document, threshold).Some? && LateCopiesConfirmed(document.edges) && threshold >= 1
    ensures Sound(ApplyAll(Load(document, threshold).value, ops))
    decreases |ops|
  {
    hide GraphOk, Discovered, LateCopiesConfirmed, Apply;
    var l := Load(document, threshold).value;
    LoadedIsOk(document, threshold);
    LoadDocument(document, threshold);
    if ops == [] {
    } else {
      RunKeepsGraph(document, threshold, ops[..|ops| - 1]);
      ApplyKeeps(ApplyAll(l, ops[..|ops| - 1]), ops[|ops| - 1]);
    }
  }

  // ---------- why later copies must be confirmed ----------

  /** No inferred edge has been traversed as often as confirms one. */
  ghost predicate InferredBelow(l: Layout) {
    forall m, e :: m in l.out && e in l.out[m] && e.inferred ==> Count(l.counts, e.Ref()) < l.threshold
  }

  /** A second copy of an edge, still inferred, stands behind another one. */
  ghost predicate HasLateCopy(edges: seq<LayoutEdge>, from: Marker, to: Marker) {
    exists p, q :: 0 <= p < q < |edges| && edges[p].Ref() == EdgeRef(from, to) == edges[q].Ref() && edges[q].inferred
  }

  lemma {:induction false} PromoteSparesLater(edges: seq<LayoutEdge>, from: Marker, to: Marker, p: nat, q: nat)
    requires p < q < |edges| && edges[p].Ref() == EdgeRef(from, to)
    ensures Promote(edges, from, to)[q] == edges[q]
  {
    if edges[0].Ref() == EdgeRef(from, to) {
    } else {
      PromoteSparesLater(edges[1..], from, to, p - 1, q - 1);
    }
  }

  lemma PromoteKeepsLateCopy(edges: seq<LayoutEdge>, from: Marker, to: Marker)
    requires HasLateCopy(edges, from, to)
    ensures HasLateCopy(Promote(edges, from, to), from, to)
  {
    var p, q :| 0 <= p < q < |edges| && edges[p].Ref() == EdgeRef(from, to) == edges[q].Ref() && edges[q].inferred;
    PromoteSparesLater(edges, from, to, p, q);
    PromoteMembers(edges, from, to);
    hide Promote;
    var after := Promote(edges, from, to);
    assert after[p].Ref() == edges[p].Ref() && after[q] == edges[q];
  }

  ghost predicate Stuck(l: Layout, from: Marker, to: Marker) {
    from in l.markers && to in l.markers && from in l.out && HasLateCopy(l.out[from], from, to)
  }

  lemma StuckStays(l: Layout, from: Marker, to: Marker, now: real)
    requires Stuck(l, from, to)
    ensures var l' := RecordTraversal(l, from, to, None, now).layout;
            && Stuck(l', from, to) && l'.threshold == l.threshold
            && Count(l'.counts, EdgeRef(from, to)) == Count(l.counts, EdgeRef(from, to)) + 1
  {
    hide FindTo, Promote, Blend, HasLateCopy;
    LateCopyIsFound(l.out[from], from, to);
    PromoteKeepsLateCopy(l.out[from], from, to);
  }

  lemma LateCopyIsFound(edges: seq<LayoutEdge>, from: Marker, to: Marker)
    requires HasLateCopy(edges, from, to)
    ensures FindTo(edges, to).Some?
  {
  }

  /** The same traversal, recorded n times. */
  function Recorded(from: Marker, to: Marker, n: nat): seq<Op> {
    if n == 0 then [] else Recorded(from, to, n - 1) + [Record(from, to, None, 0.0)]
  }

  lemma {:induction false} StuckRun(l: Layout, from: Marker, to: Marker, n: nat)
    requires Stuck(l, from, to)
    ensures var l' := ApplyAll(l, Recorded(from, to, n));
            && Stuck(l', from, to) && l'.threshold == l.threshold
            && Count(l'.counts, EdgeRef(from, to)) == Count(l.counts, EdgeRef(from, to)) + n
  {
    hide Stuck, RecordTraversal;
    if n == 0 {
    } else {
      var ops := Recorded(from, to, n);
      assert ops[..|ops| - 1] == Recorded(from, to, n - 1);
      StuckRun(l, from, to, n - 1);
      StuckStays(ApplyAll(l, Recorded(from, to, n - 1)), from, to, 0.0);
    }
  }

  lemma StuckIsOver(l: Layout, from: Marker, to: Marker)
    requires Stuck(l, from, to) && Count(l.counts, EdgeRef(from, to)) >= l.threshold
    ensures !InferredBelow(l)
  {
    var p, q :| 0 <= p < q < |l.out[from]| && l.out[from][p].Ref() == EdgeRef(from, to) == l.out[from][q].Ref()
      && l.out[from][q].inferred;
    var e := l.out[from][q];
    assert e in l.out[from];
  }

  /** The declared edges that leave a marker, in order. */
  function Leaving(es: seq<LayoutEdge>, m: Marker): seq<LayoutEdge> {
    if es == [] then [] else (if es[0].from == m then [es[0]] else []) + Leaving(es[1..], m)
  }

  lemma {:induction false} EdgesListed(l: Layout, es: seq<LayoutEdge>, m: Marker)
    requires PutEdges(l, es).Some? && m in l.out
    ensures m in PutEdges(l, es).value.out && PutEdges(l, es).value.out[m] == l.out[m] + Leaving(es, m)
    decreases |es|
  {
    if es == [] {
    } else {
      var l' := AddEdge(l, es[0]);
      EdgesListed(l', es[1..], m);
      var first := if es[0].from == m then [es[0]] else [];
      assert l'.out[m] == l.out[m] + first;
      assert (l.out[m] + first) + Leaving(es[1..], m) == l.out[m] + (first + Leaving(es[1..], m));
    }
  }

  lemma {:induction false} LeavingHas(es: seq<LayoutEdge>, j: nat) returns (q: nat)
    requires j < |es|
    ensures q < |Leaving(es, es[j].from)| && Leaving(es, es[j].from)[q] == es[j]
    decreases |es|
  {
    if j == 0 {
      q := 0;
    } else {
      q := LeavingHas(es[1..], j - 1);
      if es[0].from == es[j].from {
        q := q + 1;
      }
    }
  }

  lemma {:induction false} LeavingLate(es: seq<LayoutEdge>, i: nat, j: nat)
    requires i < j < |es| && es[i].Ref() == es[j].Ref() && es[j].inferred
    ensures HasLateCopy(Leaving(es, es[i].from), es[i].from, es[i].to)
    decreases |es|
  {
    var from, to := es[i].from, es[i].to;
    var all, rest := Leaving(es, from), Leaving(es[1..], from);
    if i == 0 {
      var q := LeavingHas(es[1..], j - 1);
      assert all[0] == es[0] && all[q + 1] == rest[q] == es[j];
    } else {
      LeavingLate(es[1..], i - 1, j - 1);
      var p, q :| 0 <= p < q < |rest| && rest[p].Ref() == EdgeRef(from, to) == rest[q].Ref() && rest[q].inferred;
      if es[0].from == from {
        assert all[p + 1] == rest[p] && all[q + 1] == rest[q];
      } else {
        assert all == rest;
      }
    }
  }

  lemma {:induction false} DeclaredEnds(l: Layout, es: seq<LayoutEdge>, j: nat)
    requires PutEdges(l, es).Some? && j < |es| && KeysAgree(l)
    ensures es[j].from in l.out && es[j].to in l.markers
    ensures PutEdges(l, es).value.markers == l.markers && PutEdges(l, es).value.counts == l.counts
    decreases |es|
  {
    if j == 0 {
      EdgesMarkers(l, es);
    } else {
      DeclaredEnds(AddEdge(l, es[0]), es[1..], j - 1);
    }
  }

  lemma {:induction false} EdgesMarkers(l: Layout, es: seq<LayoutEdge>)
    requires PutEdges(l, es).Some?
    ensures PutEdges(l, es).value.markers == l.markers && PutEdges(l, es).value.counts == l.counts
    decreases |es|
  {
    if es == [] {
    } else {
      EdgesMarkers(AddEdge(l, es[0]), es[1..]);
    }
  }

  lemma {:induction false} MarkersKnown(l: Layout, ms: seq<(Marker, Kind)>, m: Marker)
    ensures m in PutMarkers(l, ms).markers <==> m in l.markers || exists k :: 0 <= k < |ms| && ms[k].0 == m
    decreases |ms|
  {
    if ms == [] {
    } else {
      MarkersKnown(PutMarker(l, ms[0].0, ms[0].1), ms[1..], m);
      if k :| 0 <= k < |ms| && ms[k].0 == m {
        assert k > 0 ==> ms[1..][k - 1] == ms[k];
      }
    }
  }

  lemma {:induction false} EdgesLoad(l: Layout, es: seq<LayoutEdge>)
    requires forall e <- es :: CanAdd(l, e)
    ensures PutEdges(l, es).Some?
    decreases |es|
  {
    if es == [] {
    } else {
      var l' := AddEdge(l, es[0]);
      forall e | e in es[1..] ensures CanAdd(l', e) {
        assert CanAdd(l, e);
      }
      EdgesLoad(l', es[1..]);
    }
  }

  /** The list of edges out of a marker, one declared edge at a time. */
  lemma LeavingAt(es: seq<LayoutEdge>, k: nat, m: Marker)
    requires k < |es|
    ensures Leaving(es[k..], m) == (if es[k].from == m then [es[k]] else []) + Leaving(es[k + 1..], m)
  {
    assert es[k..][1..] == es[k + 1..];
  }

  lemma LeavingEnds(es: seq<LayoutEdge>, m: Marker)
    ensures Leaving(es[|es|..], m) == [] && es[0..] == es
  {
  }

  ghost predicate Declares(d: Document, m: Marker) {
    exists k :: 0 <= k < |d.markers| && d.markers[k].0 == m
  }

  /** A document whose edges join declared markers loads, into the declared markers, each with its declared edges. */
  lemma LoadLists(d: Document, threshold: int)
    requires forall e <- d.edges :: Declares(d, e.from) && Declares(d, e.to)
    ensures Load(d, threshold).Some?
    ensures var l := Load(d, threshold).value;
            && (forall m :: m in l.markers <==> Declares(d, m)) && l.out.Keys == l.markers.Keys
            && forall m <- l.out :: l.out[m] == Leaving(d.edges, m)
  {
    hide PutMarkers, PutEdges, PutJunctions, Leaving;
    var l0 := Empty(d, threshold);
    var l1 := PutMarkers(l0, d.markers);
    NothingIsEmpty(d, threshold);
    MarkersEmpty(l0, d.markers);
    forall m ensures m in l1.markers <==> Declares(d, m) {
      MarkersKnown(l0, d.markers, m);
    }
    EdgesLoad(l1, d.edges);
    var l2 := PutEdges(l1, d.edges).value;
    EdgesMarkers(l1, d.edges);
    JunctionsKeep(l2, d.junctions);
    EdgesKeys(l1, d.edges);
    forall m | m in l1.out ensures l2.out[m] == Leaving(d.edges, m) {
      EdgesListed(l1, d.edges, m);
      assert [] + Leaving(d.edges, m) == Leaving(d.edges, m);
    }
  }

  lemma {:induction false} EdgesKeys(l: Layout, es: seq<LayoutEdge>)
    requires PutEdges(l, es).Some?
    ensures PutEdges(l, es).value.out.Keys == l.out.Keys
    decreases |es|
  {
    if es == [] {
    } else {
      var l' := AddEdge(l, es[0]);
      assert l'.out.Keys == l.out.Keys;
      EdgesKeys(l', es[1..]);
    }
  }

  lemma LoadedStuck(document: Document, threshold: int, i: nat, j: nat)
    requires Load(document, threshold).Some?
    requires var es := document.edges; i < j < |es| && es[i].Ref() == es[j].Ref() && es[j].inferred
    ensures var l := Load(document, threshold).value;
            Stuck(l, document.edges[i].from, document.edges[i].to) && l.counts == map[] && l.threshold == threshold
  {
    hide PutEdges, PutMarkers, PutJunctions, HasLateCopy;
    var es := document.edges;
    var from, to := es[i].from, es[i].to;
    var l0 := Empty(document, threshold);
    NothingIsEmpty(document, threshold);
    MarkersEmpty(l0, document.markers);
    var l1 := PutMarkers(l0, document.markers);
    DeclaredEnds(l1, es, j);
    EdgesListed(l1, es, from);
    LeavingLate(es, i, j);
    assert l1.out[from] + Leaving(es, from) == Leaving(es, from);
    JunctionsKeep(PutEdges(l1, es).value, document.junctions);
    LoadDocument(document, threshold);
  }

  lemma SoundIsBelow(l: Layout)
    requires Sound(l)
    ensures InferredBelow(l)
  {
    hide GraphOk, Known, LateCopiesConfirmed;
    forall m, e | m in l.out && e in l.out[m] && e.inferred ensures Count(l.counts, e.Ref()) < l.threshold {
      assert BelowThreshold(l.counts, l.threshold, l.out[m]);
    }
  }

  ghost predicate AlwaysBelow(l: Layout) {
    forall ops :: InferredBelow(ApplyAll(l, ops))
  }

  /**
   * Exactly the documents that declare every later copy of an edge as confirmed keep inferred edges below the
   * threshold in every run: confirmation promotes the first copy alone, so an inferred later one outlives it.
   */
  lemma InferredStayBelowIff(document: Document, threshold: int)
    requires Load(document, threshold).Some? && threshold >= 1
    ensures AlwaysBelow(Load(document, threshold).value) <==> LateCopiesConfirmed(document.edges)
  {
    hide Load, ApplyAll, InferredBelow, Sound, Stuck;
    var l := Load(document, threshold).value;
    if LateCopiesConfirmed(document.edges) {
      forall ops ensures InferredBelow(ApplyAll(l, ops)) {
        RunKeepsGraph(document, threshold, ops);
        SoundIsBelow(ApplyAll(l, ops));
      }
    } else {
      var es := document.edges;
      var i, j :| 0 <= i < j < |es| && es[i].Ref() == es[j].Ref() && es[j].inferred;
      var ops := Recorded(es[i].from, es[i].to, threshold);
      LoadedStuck(document, threshold, i, j);
      StuckRun(l, es[i].from, es[i].to, threshold);
      StuckIsOver(ApplyAll(l, ops), es[i].from, es[i].to);
      assert !InferredBelow(ApplyAll(l, ops));
    }
  }

  function Doubled(): Document {
    Document([("A", Unspecified), ("B", Unspecified)], [Inferred("A", "B"), Inferred("A", "B")], [])
  }

  lemma DoubledLoads()
    ensures Load(Doubled(), 1).Some? && Load(Doubled(), 1).value.out["A"] == [Inferred("A", "B"), Inferred("A", "B")]
  {
    var e := Inferred("A", "B");
    var a, b := ("A", Unspecified), ("B", Unspecified);
    assert [a, b][1..] == [b] && [b][1..] == [] && [e, e][1..] == [e] && [e][1..] == [];
    var l0 := Empty(Doubled(), 1);
    var l1 := PutMarker(l0, "A", Unspecified);
    var l2 := PutMarker(l1, "B", Unspecified);
    assert PutMarkers(l0, [a, b]) == PutMarkers(l1, [b]) == PutMarkers(l2, []) == l2;
    var l3 := AddEdge(l2, e);
    var l4 := AddEdge(l3, e);
    assert PutEdges(l2, [e, e]) == PutEdges(l3, [e]) == PutEdges(l4, []) == Some(l4);
    assert l4.out["A"] == [] + [e] + [e];
  }

  /** The shortest such run: two inferred copies, one traversal, and the second copy is inferred for good. */
  lemma ParallelsStayInferred(now: real)
    ensures Load(Doubled(), 1).Some?
            && var l := RecordTraversal(Load(Doubled(), 1).value, "A", "B", None, now).layout;
            !InferredBelow(l) && !LateCopiesConfirmed(Doubled().edges)
  {
    hide Load, RecordTraversal, InferredBelow, Stuck;
    var es := Doubled().edges;
    assert es[0].Ref() == es[1].Ref() && es[1].inferred;
    DoubledLoads();
    LoadedStuck(Doubled(), 1, 0, 1);
    StuckStays(Load(Doubled(), 1).value, "A", "B", now);
    StuckIsOver(RecordTraversal(Load(Doubled(), 1).value, "A", "B", None, now).layout, "A", "B");
  }
}
