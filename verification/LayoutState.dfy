/**
 * The layout object: maps of lists, counters and timestamps changed in place, each operation equal to its
 * specification.
 */
module LayoutStates {
  import opened Rail
  import opened LayoutModel

  /** How the host's locale orders names: may the first come before, or along with, the second? */
  type Collation = (Marker, Marker) -> bool

  ghost predicate IsCollation(leq: Collation) {
    (forall a, b :: leq(a, b) || leq(b, a)) && (forall a, b, c :: leq(a, b) && leq(b, c) ==> leq(a, c))
  }

  ghost predicate Collated(leq: Collation, s: seq<Marker>) {
    forall i, j :: 0 <= i < j < |s| ==> leq(s[i], s[j])
  }

  function Place(leq: Collation, m: Marker, s: seq<Marker>): (r: seq<Marker>)
    ensures forall x :: x in r <==> x == m || x in s
  {
    if s == [] then [m] else if leq(m, s[0]) then [m] + s else [s[0]] + Place(leq, m, s[1..])
  }

  function Collate(leq: Collation, s: seq<Marker>): (r: seq<Marker>)
    ensures forall x :: x in r <==> x in s
  {
    if s == [] then [] else Place(leq, s[0], Collate(leq, s[1..]))
  }

  /** One more name in front of those that come after it. */
  lemma InFront(leq: Collation, m: Marker, s: seq<Marker>)
    requires Collated(leq, s) && Distinct(s) && forall x <- s :: leq(m, x) && x != m
    ensures Collated(leq, [m] + s) && Distinct([m] + s)
  {
  }

  lemma Follows(leq: Collation, s: seq<Marker>)
    requires Collated(leq, s) && Distinct(s) && s != []
    ensures Collated(leq, s[1..]) && Distinct(s[1..]) && forall x <- s[1..] :: leq(s[0], x) && x != s[0]
  {
  }

  lemma {:induction false} PlaceSorts(leq: Collation, m: Marker, s: seq<Marker>)
    requires IsCollation(leq) && Collated(leq, s) && Distinct(s) && m !in s
    ensures Collated(leq, Place(leq, m, s)) && Distinct(Place(leq, m, s))
  {
    hide Collated, Distinct;
    if s == [] {
      OneSorted(leq, m);
    } else {
      Follows(leq, s);
      assert forall x <- s :: x == s[0] || x in s[1..];
      if leq(m, s[0]) {
        InFront(leq, m, s);
      } else {
        PlaceSorts(leq, m, s[1..]);
        InFront(leq, s[0], Place(leq, m, s[1..]));
      }
    }
  }

  lemma OneSorted(leq: Collation, m: Marker)
    ensures Collated(leq, [m]) && Distinct([m])
  {
  }

  lemma {:induction false} CollateSorts(leq: Collation, s: seq<Marker>)
    requires IsCollation(leq) && Distinct(s)
    ensures Collated(leq, Collate(leq, s)) && Distinct(Collate(leq, s))
  {
    if s == [] {
    } else {
      CollateSorts(leq, s[1..]);
      PlaceSorts(leq, s[0], Collate(leq, s[1..]));
    }
  }

  class LayoutState {
    const document: Document
    const threshold: int
    var markers: map<Marker, Kind>
    var outgoing: Index
    var incoming: Index
    var switches: map<Marker, string>
    var switchDevice: map<Marker, Id>
    var counts: map<EdgeRef, nat>
    var lastAt: Option<real>
    var learned: map<EdgeRef, real>
    var lastAtBy: map<Id, real>
    var learnedBy: map<Id, map<EdgeRef, real>>

    function Value(): Layout
      reads this
    {
      Layout(document, threshold, markers, outgoing, incoming, switches, switchDevice, counts, lastAt, learned,
             lastAtBy, learnedBy)
    }

    constructor Unloaded(document: Document, threshold: int)
      ensures Value() == Empty(document, threshold)
    {
      this.document := document;
      this.threshold := threshold;
      markers, outgoing, incoming := map[], map[], map[];
      switches, switchDevice, counts := map[], map[], map[];
      lastAt, learned, lastAtBy, learnedBy := None, map[], map[], map[];
    }

    /** The layout of a document, or no object at all when the document joins undeclared markers. */
    static method Create(document: Document, threshold: int) returns (state: LayoutState?)
      ensures state != null <==> Load(document, threshold).Some?
      ensures state != null ==> fresh(state) && state.Value() == Load(document, threshold).value
    {
      state := new LayoutState.Unloaded(document, threshold);
      var ok := state.LoadFromDocument();
      if !ok {
        return null;
      }
    }

    method AddMarkers(ms: seq<(Marker, Kind)>)
      modifies this
      ensures Value() == PutMarkers(old(Value()), ms)
    {
      for i := 0 to |ms|
        invariant PutMarkers(Value(), ms[i..]) == PutMarkers(old(Value()), ms)
      {
        markers := markers[ms[i].0 := ms[i].1];
        outgoing := outgoing[ms[i].0 := []];
        incoming := incoming[ms[i].0 := []];
        assert ms[i..][1..] == ms[i + 1..];
      }
    }

    method AddEdges(es: seq<LayoutEdge>) returns (ok: bool)
      modifies this
      ensures ok <==> PutEdges(old(Value()), es).Some?
      ensures ok ==> Value() == PutEdges(old(Value()), es).value
    {
      for i := 0 to |es|
        invariant PutEdges(Value(), es[i..]) == PutEdges(old(Value()), es)
      {
        var added := AddEdgeInternal(es[i]);
        assert es[i..][1..] == es[i + 1..];
        if !added {
          return false;
        }
      }
      return true;
    }

    method AddJunctions(js: seq<(Marker, Option<string>)>)
      modifies this
      ensures Value() == PutJunctions(old(Value()), js)
    {
      for i := 0 to |js|
        invariant PutJunctions(Value(), js[i..]) == PutJunctions(old(Value()), js)
      {
        if js[i].1.Some? && js[i].1.value != "" {
          switches := switches[js[i].0 := js[i].1.value];
        }
        assert js[i..][1..] == js[i + 1..];
      }
    }

    /** Fails on an edge that names an undeclared marker. */
    method LoadFromDocument() returns (ok: bool)
      requires Value() == Empty(document, threshold)
      modifies this
      ensures ok <==> Load(document, threshold).Some?
      ensures ok ==> Value() == Load(document, threshold).value
    {
      hide PutMarkers, PutEdges, PutJunctions;
      AddMarkers(document.markers);
      ok := AddEdges(document.edges);
      if ok {
        AddJunctions(document.junctions);
      }
    }

    method Reset() returns (ok: bool)
      modifies this
      ensures ok <==> Load(document, threshold).Some?
      ensures ok ==> Value() == Load(document, threshold).value
    {
      markers, outgoing, incoming := map[], map[], map[];
      switches, switchDevice, counts := map[], map[], map[];
      lastAt, learned, lastAtBy, learnedBy := None, map[], map[], map[];
      ok := LoadFromDocument();
    }

    method AddEdgeInternal(e: LayoutEdge) returns (ok: bool)
      modifies this
      ensures ok == old(CanAdd(Value(), e))
      ensures Value() == if ok then AddEdge(old(Value()), e) else old(Value())
    {
      if e.from !in outgoing || e.to !in incoming {
        return false;
      }
      outgoing := outgoing[e.from := outgoing[e.from] + [e]];
      incoming := incoming[e.to := incoming[e.to] + [e]];
      return true;
    }

    method FindEdgeBetween(from: Marker, to: Marker) returns (found: Option<LayoutEdge>)
      ensures found == FindEdge(Value(), from, to)
    {
      if from !in outgoing {
        return None;
      }
      var edges := outgoing[from];
      for i := 0 to |edges|
        invariant FindTo(edges[i..], to) == FindTo(edges, to)
      {
        if edges[i].to == to {
          return Some(edges[i]);
        }
        assert edges[i..][1..] == edges[i + 1..];
      }
      return None;
    }

    method SetSwitchPosition(junction: Marker, position: string)
      modifies this
      ensures Value() == old(Value()).(switches := old(switches)[junction := position])
    {
      switches := switches[junction := position];
    }

    method RecordSwitchPairing(device: Id, junction: Marker)
      modifies this
      ensures Value() == old(Value()).(switchDevice := old(switchDevice)[junction := device])
    {
      switchDevice := switchDevice[junction := device];
    }

    method AddInferred(from: Marker, to: Marker)
      modifies this
      ensures Value() == AddInferredEdge(old(Value()), from, to)
    {
      var found := FindEdgeBetween(from, to);
      if found.Some? || from !in markers || to !in markers {
        return;
      }
      var _ := AddEdgeInternal(Inferred(from, to));
    }

    method Upsert(id: Marker, kind: Kind) returns (added: bool)
      modifies this
      ensures added == (id !in old(markers))
      ensures Value() == UpsertMarker(old(Value()), id, kind)
    {
      if id in markers {
        return false;
      }
      markers := markers[id := kind];
      outgoing := outgoing[id := []];
      incoming := incoming[id := []];
      return true;
    }

    /** Removes every marker no edge touches, one by one, and names each once, in the order of the host's collation. */
    method PruneOrphanMarkers(leq: Collation) returns (removed: seq<Marker>)
      requires IsCollation(leq)
      modifies this
      ensures Collated(leq, removed) && Distinct(removed) && (forall m :: m in removed <==> m in old(Orphans(Value())))
      ensures Value() == Prune(old(Value()))
    {
      hide IsOrphan, Without, Prune, IsCollation, Collated;
      ghost var l := Value();
      var gone: seq<Marker> := [];
      var left := markers.Keys;
      NothingWithout(l);
      while left != {}
        invariant left <= l.markers.Keys && Distinct(gone)
        invariant forall m :: m in gone <==> m in l.markers && m !in left && IsOrphan(l, m)
        invariant Value() == Without(l, Members(gone))
        decreases |left|
      {
        var id :| id in left;
        StillOrphan(l, Members(gone), id);
        var orphan := PruneOne(id);
        if orphan {
          WithoutOneMore(l, Members(gone), id);
          assert Members(gone + [id]) == Members(gone) + {id};
          gone := gone + [id];
        }
        left := left - {id};
      }
      assert Members(gone) == Orphans(l);
      PruneIsWithout(l);
      removed := Collate(leq, gone);
      CollateSorts(leq, gone);
    }

    method PruneOne(id: Marker) returns (gone: bool)
      requires id in markers
      modifies this
      ensures gone == old(IsOrphan(Value(), id))
      ensures Value() == if gone then Without(old(Value()), {id}) else old(Value())
    {
      var out := if id in outgoing then |outgoing[id]| else 0;
      var inc := if id in incoming then |incoming[id]| else 0;
      gone := out == 0 && inc == 0;
      if gone {
        markers, outgoing, incoming := markers - {id}, outgoing - {id}, incoming - {id};
        switches, switchDevice := switches - {id}, switchDevice - {id};
      }
    }

    /** Clears the inferred flag on the first copy in each index. */
    method Confirm(from: Marker, to: Marker)
      modifies this
      ensures Value() == ConfirmEdge(old(Value()), from, to)
    {
      if from in outgoing {
        var list := ReplaceIn(outgoing[from], from, to);
        outgoing := outgoing[from := list];
      }
      if to in incoming {
        var list := ReplaceIn(incoming[to], from, to);
        incoming := incoming[to := list];
      }
    }

    method Record(from: Marker, to: Marker, train: Option<Id>, now: real) returns (added: bool, confirmed: bool)
      modifies this
      ensures Traversal(Value(), added, confirmed) == RecordTraversal(old(Value()), from, to, train, now)
    {
      hide FindEdge, ConfirmEdge, AddInferredEdge, LearnShared, LearnForTrain;
      if from !in markers || to !in markers {
        return false, false;
      }
      added := AddIfUnknown(from, to);
      var key := EdgeRef(from, to);
      var count := (if key in counts then counts[key] else 0) + 1;
      counts := counts[key := count];
      var edge := FindEdgeBetween(from, to);
      confirmed := edge.Some? && edge.value.inferred && count >= threshold;
      if confirmed {
        Confirm(from, to);
      }
      UpdateShared(key, now);
      if train.Some? {
        UpdatePerTrain(train.value, key, now);
      }
    }

    method AddIfUnknown(from: Marker, to: Marker) returns (added: bool)
      requires from in markers && to in markers
      modifies this
      ensures added == old(FindEdge(Value(), from, to)).None?
      ensures Value() == AddInferredEdge(old(Value()), from, to) && counts == old(counts)
    {
      var found := FindEdgeBetween(from, to);
      added := found.None?;
      if added {
        var _ := AddEdgeInternal(Inferred(from, to));
      }
    }

    method UpdateShared(key: EdgeRef, now: real)
      modifies this
      ensures Value() == LearnShared(old(Value()), key, now)
    {
      if lastAt.Some? {
        var delta := now - lastAt.value;
        learned := learned[key := if key in learned then learned[key] * 0.7 + delta * 0.3 else delta];
      }
      lastAt := Some(now);
    }

    method UpdatePerTrain(train: Id, key: EdgeRef, now: real)
      modifies this
      ensures Value() == LearnForTrain(old(Value()), key, train, now)
    {
      if train in lastAtBy {
        var delta := now - lastAtBy[train];
        var mine := if train in learnedBy then learnedBy[train] else map[];
        learnedBy := learnedBy[train := mine[key := if key in mine then mine[key] * 0.7 + delta * 0.3 else delta]];
      }
      lastAtBy := lastAtBy[train := now];
    }
  }

  lemma PromoteHits(list: seq<LayoutEdge>, i: nat, from: Marker, to: Marker)
    requires i < |list| && list[i].from == from && list[i].to == to
    ensures list[..i] + Promote(list[i..], from, to) == list[i := list[i].(inferred := false)]
  {
    assert Promote(list[i..], from, to) == [list[i].(inferred := false)] + list[i + 1..];
  }

  lemma PromoteGoesOn(list: seq<LayoutEdge>, i: nat, from: Marker, to: Marker)
    requires i < |list| && !(list[i].from == from && list[i].to == to)
    ensures list[..i] + Promote(list[i..], from, to) == list[..i + 1] + Promote(list[i + 1..], from, to)
  {
    assert list[i..][1..] == list[i + 1..];
    assert Promote(list[i..], from, to) == [list[i]] + Promote(list[i + 1..], from, to);
    assert list[..i] + [list[i]] == list[..i + 1];
  }

  /** Promotes the first copy in one list. */
  method ReplaceIn(list: seq<LayoutEdge>, from: Marker, to: Marker) returns (r: seq<LayoutEdge>)
    ensures r == Promote(list, from, to)
  {
    hide Promote;
    assert list[..0] + Promote(list[0..], from, to) == Promote(list, from, to);
    for i := 0 to |list|
      invariant Promote(list, from, to) == list[..i] + Promote(list[i..], from, to)
    {
      if list[i].from == from && list[i].to == to {
        PromoteHits(list, i, from, to);
        return list[i := list[i].(inferred := false)];
      }
      PromoteGoesOn(list, i, from, to);
    }
    NothingPromoted(from, to);
    assert list[|list|..] == [] && list[..|list|] == list;
    return list;
  }

  lemma NothingPromoted(from: Marker, to: Marker)
    ensures Promote([], from, to) == []
  {
  }

  function Members(s: seq<Marker>): set<Marker> { set m | m in s }

  lemma NothingWithout(l: Layout)
    ensures Without(l, Members([])) == l
  {
    assert Members([]) == {};
  }

  /** Taking other orphans away leaves a marker in, with the edges it had. */
  lemma StillOrphan(l: Layout, gone: set<Marker>, id: Marker)
    requires id in l.markers && id !in gone
    ensures id in Without(l, gone).markers && (IsOrphan(Without(l, gone), id) <==> IsOrphan(l, id))
  {
  }

  lemma PruneIsWithout(l: Layout)
    ensures Prune(l) == Without(l, Orphans(l))
  {
  }

  ghost function Without(l: Layout, gone: set<Marker>): Layout {
    l.(markers := l.markers - gone, out := l.out - gone, inc := l.inc - gone,
       switches := l.switches - gone, switchDevice := l.switchDevice - gone)
  }

  lemma MapLessOne<V>(m: map<Marker, V>, gone: set<Marker>, id: Marker)
    ensures m - gone - {id} == m - (gone + {id})
  {
  }

  lemma WithoutOneMore(l: Layout, gone: set<Marker>, id: Marker)
    ensures Without(Without(l, gone), {id}) == Without(l, gone + {id})
  {
    MapLessOne(l.markers, gone, id);
    MapLessOne(l.out, gone, id);
    MapLessOne(l.inc, gone, id);
    MapLessOne(l.switches, gone, id);
    MapLessOne(l.switchDevice, gone, id);
  }
}
