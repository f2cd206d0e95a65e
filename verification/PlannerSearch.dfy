/** The planner as it runs: loops over a frontier list and two maps, each equal to its specification in Planner. */
module PlannerSearch {
  import opened Rail
  import opened LayoutModel
  import opened Planner

  /** Linear scan and removal; an empty frontier yields nothing. */
  method PopLowestCost(frontier: seq<Entry>) returns (popped: Option<Entry>, rest: seq<Entry>)
    ensures frontier == [] ==> popped == None && rest == []
    ensures frontier != []
            ==> popped == Some(frontier[Cheapest(frontier)]) && rest == Without(frontier, Cheapest(frontier))
  {
    if frontier == [] {
      return None, [];
    }
    var bestIdx := 0;
    for i := 1 to |frontier|
      invariant bestIdx < i
      invariant forall j :: 0 <= j < i ==> frontier[bestIdx].cost <= frontier[j].cost
                                           && (j < bestIdx ==> frontier[bestIdx].cost < frontier[j].cost)
      invariant CheapestFrom(frontier, i, bestIdx) == Cheapest(frontier)
    {
      if frontier[i].cost < frontier[bestIdx].cost {
        bestIdx := i;
      }
    }
    return Some(frontier[bestIdx]), frontier[..bestIdx] + frontier[bestIdx + 1..];
  }

  method RelaxNeighbours(q: Query, cur: Entry, start: Search) returns (s: Search)
    ensures s == Relax(q, cur, ArrivedFrom(q, start.came, cur.marker), EdgesFrom(q.layout, cur.marker), start)
  {
    var best, came, frontier := start.best, start.came, start.frontier;
    var arrivedFrom := if cur.marker in came then Some(came[cur.marker].from) else q.arrived;
    var edges := EdgesFrom(q.layout, cur.marker);
    for i := 0 to |edges|
      invariant Relax(q, cur, arrivedFrom, edges[i..], Search(best, came, frontier))
                == Relax(q, cur, arrivedFrom, edges, start)
    {
      var edge := edges[i];
      ghost var before := Search(best, came, frontier);
      if q.forbid != Some(edge.Ref()) && !IsLegToLegMove(q.layout, cur.marker, arrivedFrom, edge.to) {
        var nextCost := cur.cost + StepCost(edge);
        if edge.to !in best || nextCost < best[edge.to] {
          best := best[edge.to := nextCost];
          came := came[edge.to := Hop(cur.marker, edge.Ref())];
          frontier := frontier + [Entry(edge.to, nextCost)];
        }
      }
      assert Search(best, came, frontier) == RelaxOne(q, cur, arrivedFrom, edge, before);
      assert edges[i..][1..] == edges[i + 1..];
    }
    return Search(best, came, frontier);
  }

  /** The trace depends on the predecessors alone, not on the order of settling that shows it ends. */
  lemma {:induction false} TraceSame(q: Query, came: map<Marker, Hop>, a: seq<Marker>, b: seq<Marker>, m: Marker)
    requires Chained(q, came, a) && Chained(q, came, b) && (m == q.source || m in came)
    ensures Trace(q, came, a, m) == Trace(q, came, b, m)
    decreases Rank(a, m)
  {
    if m != q.source {
      PredecessorEarlier(q, came, a, m);
      PredecessorEarlier(q, came, b, m);
      TraceSame(q, came, a, b, came[m].from);
    }
  }

  /** Walks the recorded predecessors back from the target; one is never missing. */
  method ReconstructTransit(q: Query, came: map<Marker, Hop>) returns (transit: seq<EdgeRef>)
    requires q.target == q.source || q.target in came
    requires exists done :: Chained(q, came, done)
    ensures forall done :: Chained(q, came, done) ==> transit == Trace(q, came, done, q.target)
  {
    ghost var done :| Chained(q, came, done);
    forall other | Chained(q, came, other) ensures Trace(q, came, other, q.target) == Trace(q, came, done, q.target) {
      TraceSame(q, came, other, done, q.target);
    }
    var reversed: seq<EdgeRef> := [];
    var cursor := q.target;
    while cursor != q.source
      invariant cursor == q.source || cursor in came
      invariant Trace(q, came, done, cursor) + Reversed(reversed) == Trace(q, came, done, q.target)
      decreases Rank(done, cursor)
    {
      PredecessorEarlier(q, came, done, cursor);
      var step := came[cursor];
      ghost var was := Reversed(reversed);
      reversed := reversed + [step.edge];
      assert Reversed(reversed) == [step.edge] + was;
      cursor := step.from;
    }
    return Reversed(reversed);
  }

  method RunDijkstra(q: Query) returns (route: Option<seq<EdgeRef>>)
    ensures route == Dijkstra(q)
  {
    if q.source == q.target {
      return Some([]);
    }
    var s := Search(map[q.source := 0.0], map[], [Entry(q.source, 0.0)]);
    ghost var done: seq<Marker> := [];
    assert s == Initial(q);
    while |s.frontier| > 0
      invariant Inv(q, s, done)
      invariant Loop(q, s, done) == Dijkstra(q)
      decreases |Nodes(q)| - |done|, |s.frontier|
    {
      var current, rest := PopLowestCost(s.frontier);
      var cur := current.value;
      ghost var k := Cheapest(s.frontier);
      var popped := s.(frontier := rest);
      if IsStale(cur, s.best) {
        DropStale(q, s, done, k);
        s := popped;
      } else {
        Settle(q, s, done);
        if cur.marker == q.target {
          var transit := ReconstructTransit(q, s.came);
          return Some(transit);
        }
        ExpandKeeps(q, s, done);
        SettledBounded(q, Expand(q, s), done + [cur.marker]);
        s := RelaxNeighbours(q, cur, popped);
        done := done + [cur.marker];
      }
    }
    return None;
  }

  method PlanRoute(l: Layout, from: Marker, target: Marker,
                   current: Option<EdgeRef>) returns (route: Option<seq<EdgeRef>>)
    ensures route == PlanTransit(l, from, target, current)
  {
    if from !in l.markers || target !in l.markers {
      return None;
    }
    if from == target {
      return Some([]);
    }
    if current.Some? && current.value.from == from && current.value.to != from {
      var next := current.value.to;
      if next == target {
        return Some([EdgeRef(from, next)]);
      }
      if next !in l.markers {
        return None;
      }
      var rest := RunDijkstra(Query(l, next, target, Some(EdgeRef(next, from)), Some(from)));
      return if rest.None? then None else Some([EdgeRef(from, next)] + rest.value);
    }
    if current.Some? && current.value.to == from && current.value.from != from {
      route := RunDijkstra(Query(l, from, target, Some(EdgeRef(from, current.value.from)), Some(current.value.from)));
    } else {
      route := RunDijkstra(Query(l, from, target, None, None));
    }
  }
}
