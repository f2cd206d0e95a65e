/** The loops behind detection, yield, reverse and tail release, each equal to its specification. */
module StandoffSearch {
  import opened Rail
  import opened LayoutModel
  import opened World
  import opened Ranking
  import opened Cycles
  import opened Clearance
  import opened Standoff
  import opened Handlers
  import Body

  // ---------- cycle search ----------

  method DfsForCycleBackToStart(start: Id, g: Graph) returns (cycle: Option<seq<Id>>)
    ensures cycle == CycleThrough(start, g)
  {
    hide Expand;
    var stack := [Frame(start, [start])];
    var visited: set<Id> := {};
    while stack != []
      invariant visited <= Targets(g)
      invariant Dfs(start, g, stack, visited) == CycleThrough(start, g)
      decreases |Targets(g) - visited|, |stack|
    {
      var f := stack[|stack| - 1];
      var rest := stack[..|stack| - 1];
      SuccessorsAreTargets(g, f.node);
      var r := PushSuccessors(start, f, Successors(g, f.node), rest, visited);
      if r.Found? {
        return Some(r.path);
      }
      SmallerComplement(Targets(g), visited, r.visited);
      stack, visited := r.stack, r.visited;
    }
    return None;
  }

  method PushSuccessors(start: Id, f: Frame, succs: seq<Id>, stack0: seq<Frame>,
                        visited0: set<Id>) returns (r: Expansion)
    ensures r == Expand(start, f, succs, stack0, visited0)
  {
    var stack, visited := stack0, visited0;
    for i := 0 to |succs|
      invariant Expand(start, f, succs[i..], stack, visited) == Expand(start, f, succs, stack0, visited0)
    {
      var next := succs[i];
      assert succs[i..][1..] == succs[i + 1..];
      if next == start && |f.path| >= 2 {
        return Found(f.path);
      }
      if next !in visited {
        visited := visited + {next};
        stack := stack + [Frame(next, f.path + [next])];
      }
    }
    return More(stack, visited);
  }

  method FindCycleStartingFromAny(starts: seq<Id>, g: Graph) returns (cycle: Option<seq<Id>>)
    ensures cycle == CycleFromAny(starts, g)
  {
    hide CycleThrough;
    for i := 0 to |starts|
      invariant CycleFromAny(starts[i..], g) == CycleFromAny(starts, g)
    {
      cycle := DfsForCycleBackToStart(starts[i], g);
      assert starts[i..][1..] == starts[i + 1..];
      if cycle.Some? {
        return;
      }
    }
    return None;
  }

  lemma {:induction false} WaitingMore(a: seq<Id>, x: Id, ts: Trains)
    ensures Waiting(a + [x], ts) == Waiting(a, ts) + if x in ts && Wanted(ts[x]).Some? then [x] else []
  {
    hide Wanted;
    if a == [] {
      assert [] + [x] == [x] && [x][1..] == [];
    } else {
      assert (a + [x])[0] == a[0] && (a + [x])[1..] == a[1..] + [x];
      WaitingMore(a[1..], x, ts);
    }
  }

  lemma NobodyWaits(ts: Trains)
    ensures Waiting([], ts) == []
  {
  }

  method CollectWaitingTrains(order: seq<Id>, ts: Trains) returns (waiting: seq<Id>)
    ensures waiting == Waiting(order, ts)
  {
    hide Wanted, Waiting;
    waiting := [];
    assert Waiting([], ts) == [] && order[..0] == [] by {
      NobodyWaits(ts);
    }
    for i := 0 to |order|
      invariant waiting == Waiting(order[..i], ts)
    {
      assert order[..i + 1] == order[..i] + [order[i]];
      WaitingMore(order[..i], order[i], ts);
      if order[i] in ts && Wanted(ts[order[i]]).Some? {
        waiting := waiting + [order[i]];
      }
    }
    assert order[..|order|] == order;
  }

  lemma {:induction false} BlockersMore(a: seq<Id>, x: Id, ts: Trains, id: Id, wanted: EdgeRef)
    ensures Blockers(a + [x], ts, id, wanted)
            == Blockers(a, ts, id, wanted) + if x in ts && x != id && TouchesAny(ts[x].held, wanted) then [x] else []
  {
    hide TouchesAny;
    if a == [] {
      assert [] + [x] == [x] && [x][1..] == [];
    } else {
      assert (a + [x])[0] == a[0] && (a + [x])[1..] == a[1..] + [x];
      BlockersMore(a[1..], x, ts, id, wanted);
    }
  }

  method CollectBlockers(order: seq<Id>, ts: Trains, id: Id, wanted: EdgeRef) returns (blockers: seq<Id>)
    ensures blockers == Blockers(order, ts, id, wanted)
  {
    hide TouchesAny;
    blockers := [];
    for i := 0 to |order|
      invariant blockers == Blockers(order[..i], ts, id, wanted)
    {
      var o := order[i];
      assert order[..i + 1] == order[..i] + [o];
      BlockersMore(order[..i], o, ts, id, wanted);
      if o in ts && o != id && TouchesAny(ts[o].held, wanted) {
        blockers := blockers + [o];
      }
    }
    assert order[..|order|] == order;
  }

  method BuildWaitsForGraph(order: seq<Id>, ts: Trains, waiting: seq<Id>) returns (g: Graph)
    requires waiting == Waiting(order, ts)
    ensures g == WaitsFor(order, ts)
  {
    hide Wanted, Blockers, Waiting, WaitsFor;
    g := map[];
    for i := 0 to |waiting|
      invariant forall id :: id in g <==> id in waiting[..i]
      invariant forall id :: id in g
                  ==> id in ts && Wanted(ts[id]).Some? && g[id] == Blockers(order, ts, id, Wanted(ts[id]).value)
    {
      var id := waiting[i];
      var blockers := CollectBlockers(order, ts, id, Wanted(ts[id]).value);
      g := g[id := blockers];
    }
    assert waiting[..|waiting|] == waiting;
    IsWaitsFor(order, ts, g);
  }

  lemma IsWaitsFor(order: seq<Id>, ts: Trains, g: Graph)
    requires forall id :: id in g <==> id in Waiting(order, ts)
    requires forall id :: id in g
               ==> id in ts && Wanted(ts[id]).Some? && g[id] == Blockers(order, ts, id, Wanted(ts[id]).value)
    ensures g == WaitsFor(order, ts)
  {
    hide Wanted, Blockers;
  }

  method DetectWaitsForCycle(order: seq<Id>, ts: Trains) returns (cycle: Option<seq<Id>>)
    ensures cycle == Detect(order, ts)
  {
    var waiting := CollectWaitingTrains(order, ts);
    if |waiting| < 2 {
      return None;
    }
    var g := BuildWaitsForGraph(order, ts, waiting);
    cycle := FindCycleStartingFromAny(waiting, g);
  }

  // ---------- choosing ----------

  method LowestRankedInCycle(ts: Trains, cycle: seq<Id>) returns (worst: Option<Id>)
    ensures worst == LowestOf(ts, cycle, None)
  {
    hide Before;
    worst := None;
    for i := 0 to |cycle|
      invariant worst.Some? ==> worst.value in ts
      invariant LowestOf(ts, cycle[i..], worst) == LowestOf(ts, cycle, None)
    {
      var id := cycle[i];
      assert cycle[i..][1..] == cycle[i + 1..];
      if id in ts && (worst.None? || Before(ts, worst.value, id)) {
        worst := Some(id);
      }
    }
  }

  method PeerWantedEdgeBlockedByVictim(ts: Trains, cycle: seq<Id>, victim: Id) returns (wanted: Option<EdgeRef>)
    requires victim in ts
    ensures wanted == PeerWanted(ts, cycle, victim)
  {
    hide TouchesAny, Wanted;
    for i := 0 to |cycle|
      invariant PeerWanted(ts, cycle[i..], victim) == PeerWanted(ts, cycle, victim)
    {
      var id := cycle[i];
      assert cycle[i..][1..] == cycle[i + 1..];
      if id in ts && id != victim {
        wanted := Wanted(ts[id]);
        if wanted.Some? && TouchesAny(ts[victim].held, wanted.value) {
          return;
        }
      }
    }
    return None;
  }

  // ---------- backing up ----------

  method ReverseBodyCoveredByHeldTail(l: Layout, t: Train, target: Marker, retained: seq<Held>) returns (covered: bool)
    ensures covered == BodyHeld(l, t, target, retained)
  {
    hide FindInto, LengthOf;
    if t.length.None? || t.length.value <= 0.0 {
      return true;
    }
    var length := t.length.value;
    var boundary, sum, visited, step := target, 0.0, {target}, 0;
    while step < |retained| && sum < length
      invariant step <= |retained|
      invariant BodyCovered(l, length, retained, boundary, sum, visited, |retained| - step)
                == BodyHeld(l, t, target, retained)
      decreases |retained| - step
    {
      var tail := FindInto(retained, boundary, {});
      if tail.None? {
        return false;
      }
      var known := LengthOf(l, tail.value);
      if known.None? {
        return false;
      }
      sum := sum + known.value;
      if tail.value.from in visited {
        return sum >= length;
      }
      visited := visited + {tail.value.from};
      boundary := tail.value.from;
      step := step + 1;
    }
    return sum >= length;
  }

  method ComputeReverseTarget(w: World, id: Id, wanted: EdgeRef) returns (plan: Option<Plan>)
    requires id in w.trains
    ensures plan == ReverseTarget(w, id, wanted)
  {
    hide FindInto, HeldByAnother, BodyHeld, TouchesAny;
    var t := w.trains[id];
    if t.last.None? {
      return None;
    }
    var released: seq<EdgeRef>, visited, boundary, step := [], {t.last.value}, t.last.value, 0;
    while step < |t.held|
      invariant step <= |t.held|
      invariant ReverseWalk(w, id, wanted, released, visited, boundary, |t.held| - step) == ReverseTarget(w, id, wanted)
      decreases |t.held| - step
    {
      var block := FindInto(t.held, boundary, {});
      if block.None? {
        return None;
      }
      var next := block.value.from;
      if next in visited || HeldByAnother(w.trains, id, next) {
        return None;
      }
      released := released + [block.value];
      visited := visited + {next};
      boundary := next;
      var remaining := Release(t.held, HeldSet(released));
      if !TouchesAny(remaining, wanted) {
        var safe := ReverseBodyCoveredByHeldTail(w.layout, t, boundary, remaining);
        return if safe then Some(Plan(boundary, released)) else None;
      }
      step := step + 1;
    }
    return None;
  }

  /** The walk behind a status report. */
  method CollectTailReleases(l: Layout, t: Train, on: EdgeRef, distance: real) returns (result: seq<EdgeRef>)
    ensures result == ClearedByTail(l, t, on, distance)
  {
    hide FindInto, LengthOf, ForwardKeys, TailReleases;
    var length: Length := if t.length.Some? then t.length.value else 0.0;
    var forward := ForwardKeys(t, on);
    var visited: set<Marker>, boundary, cumulative, depth := {}, on.from, distance, 0;
    result := [];
    while depth < |t.held| && boundary !in visited
      invariant depth <= |t.held|
      invariant result + TailReleases(l, t.held, forward, length, boundary, cumulative, visited, |t.held| - depth)
                == ClearedByTail(l, t, on, distance)
      decreases |t.held| - depth
    {
      var chainEdge := FindInto(t.held, boundary, forward);
      if chainEdge.None? {
        Body.WalkBackEnds(l, t.held, forward, length, boundary, cumulative, visited, |t.held| - depth);
        return;
      }
      Body.WalkBackHop(l, t.held, forward, length, boundary, cumulative, visited, |t.held| - depth, chainEdge.value);
      visited := visited + {boundary};
      if cumulative >= length {
        result := result + [chainEdge.value];
      }
      var known := LengthOf(l, chainEdge.value);
      if known.None? {
        return;
      }
      cumulative := cumulative + known.value;
      boundary := chainEdge.value.from;
      depth := depth + 1;
    }
    Body.WalkBackEnds(l, t.held, forward, length, boundary, cumulative, visited, |t.held| - depth);
  }
}
