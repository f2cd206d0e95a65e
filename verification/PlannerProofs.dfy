/** What the route search guarantees: legal routes on every layout, least-cost routes where legs cannot clash. */
module PlannerProofs {
  import opened Rail
  import opened LayoutModel
  import opened Planner

  /** Edges are filed under the marker they leave. */
  ghost predicate WellKeyed(l: Layout) {
    forall m, e :: m in l.out && e in l.out[m] ==> e.from == m
  }

  // ---------- legality ----------

  /** A connected chain of edges between two markers. */
  ghost predicate IsChain(p: seq<EdgeRef>, a: Marker, b: Marker) {
    if p == [] then a == b
    else p[0].from == a && p[|p| - 1].to == b && forall i :: 0 < i < |p| ==> p[i - 1].to == p[i].from
  }

  /** No marker is left twice and none is entered after having been left. */
  ghost predicate IsSimple(p: seq<EdgeRef>) {
    forall i, j :: 0 <= i < |p| && i <= j < |p| ==> p[i].from != p[j].to && (i < j ==> p[i].from != p[j].from)
  }

  ghost predicate InLayout(l: Layout, r: EdgeRef) {
    exists e :: e in EdgesFrom(l, r.from) && e.Ref() == r
  }

  /** The marker the train comes from when it takes step i. */
  ghost function Behind(p: seq<EdgeRef>, arrived: Option<Marker>, i: nat): Option<Marker>
    requires i < |p|
  {
    if i == 0 then arrived else Some(p[i - 1].from)
  }

  ghost predicate StepsLegal(l: Layout, p: seq<EdgeRef>, forbid: Option<EdgeRef>, arrived: Option<Marker>) {
    forall i :: 0 <= i < |p| ==>
      && InLayout(l, p[i]) && forbid != Some(p[i])
      && !IsLegToLegMove(l, p[i].from, Behind(p, arrived, i), p[i].to)
  }

  /** Everything a searched route promises. */
  ghost predicate LegalSearch(q: Query, p: seq<EdgeRef>) {
    IsChain(p, q.source, q.target) && IsSimple(p) && StepsLegal(q.layout, p, q.forbid, q.arrived)
  }

  lemma Hop0(q: Query, best: Prices, came: Hops, m: Marker)
    requires WellKeyed(q.layout) && HopsOk(q, best, came) && m in came
    ensures came[m].edge == EdgeRef(came[m].from, m) && InLayout(q.layout, came[m].edge)
    ensures q.forbid != Some(came[m].edge)
    ensures !IsLegToLegMove(q.layout, came[m].from, ArrivedFrom(q, came, came[m].from), m)
  {
    assert HopOk(q, best, came, m);
    var e :| IsHop(q, best, came, m, e);
  }

  lemma {:induction false} TraceIsChain(q: Query, came: Hops, done: seq<Marker>, m: Marker, best: Prices)
    requires Chained(q, came, done) && (m == q.source || m in came)
    requires WellKeyed(q.layout) && HopsOk(q, best, came)
    ensures IsChain(Trace(q, came, done, m), q.source, m)
    ensures m != q.source
            ==> Trace(q, came, done, m) != [] && Trace(q, came, done, m)[|Trace(q, came, done, m)| - 1] == came[m].edge
    decreases Rank(done, m)
  {
    if m != q.source {
      var p := came[m].from;
      PredecessorEarlier(q, came, done, m);
      TraceIsChain(q, came, done, p, best);
      Hop0(q, best, came, m);
      Hop0OrSource(q, best, came, p);
    }
  }

  lemma Hop0OrSource(q: Query, best: Prices, came: Hops, m: Marker)
    requires WellKeyed(q.layout) && HopsOk(q, best, came)
    ensures m in came ==> came[m].edge == EdgeRef(came[m].from, m)
  {
    if m in came {
      Hop0(q, best, came, m);
    }
  }

  /** Markers are left in the order they were settled. */
  ghost predicate Rising(done: seq<Marker>, p: seq<EdgeRef>, m: Marker) {
    && (forall i :: 0 <= i < |p| ==> Rank(done, p[i].from) < Rank(done, p[i].to) <= Rank(done, m))
    && (forall i, j :: 0 <= i < j < |p| ==> Rank(done, p[i].from) < Rank(done, p[j].from))
  }

  lemma {:induction false} TraceRises(q: Query, came: Hops, done: seq<Marker>, m: Marker, best: Prices)
    requires Chained(q, came, done) && (m == q.source || m in came)
    requires WellKeyed(q.layout) && HopsOk(q, best, came)
    ensures Rising(done, Trace(q, came, done, m), m)
    decreases Rank(done, m)
  {
    if m != q.source {
      PredecessorEarlier(q, came, done, m);
      var y := came[m].from;
      TraceRises(q, came, done, y, best);
      Hop0(q, best, came, m);
      hide Chained, HopsOk, WellKeyed, Rising;
      RisingMore(done, Trace(q, came, done, y), y, m);
    }
  }

  lemma RisingMore(done: seq<Marker>, p: seq<EdgeRef>, y: Marker, m: Marker)
    requires Rising(done, p, y) && Rank(done, y) < Rank(done, m)
    ensures Rising(done, p + [EdgeRef(y, m)], m)
  {
    hide Rank;
    var more := p + [EdgeRef(y, m)];
    forall i | 0 <= i < |more|
      ensures Rank(done, more[i].from) < Rank(done, more[i].to) <= Rank(done, m)
    {
      assert i < |p| ==> more[i] == p[i];
    }
    forall i, j | 0 <= i < j < |more| ensures Rank(done, more[i].from) < Rank(done, more[j].from) {
      assert more[i] == p[i] && (j < |p| ==> more[j] == p[j]);
    }
  }

  lemma RisingIsSimple(done: seq<Marker>, p: seq<EdgeRef>, m: Marker)
    requires Rising(done, p, m)
    ensures IsSimple(p)
  {
    forall i, j | 0 <= i < |p| && i <= j < |p| ensures p[i].from != p[j].to && (i < j ==> p[i].from != p[j].from) {
      assert Rank(done, p[j].from) < Rank(done, p[j].to);
    }
  }

  lemma {:induction false} TraceStepsLegal(q: Query, came: Hops, done: seq<Marker>, m: Marker, best: Prices)
    requires Chained(q, came, done) && (m == q.source || m in came)
    requires WellKeyed(q.layout) && HopsOk(q, best, came)
    ensures StepsLegal(q.layout, Trace(q, came, done, m), q.forbid, q.arrived)
    decreases Rank(done, m)
  {
    if m != q.source {
      var from := came[m].from;
      PredecessorEarlier(q, came, done, m);
      TraceStepsLegal(q, came, done, from, best);
      TraceIsChain(q, came, done, from, best);
      Hop0(q, best, came, m);
      Hop0OrSource(q, best, came, from);
      var front := Trace(q, came, done, from);
      var p := Trace(q, came, done, m);
      assert p == front + [came[m].edge];
      forall i | 0 <= i < |p|
        ensures InLayout(q.layout, p[i]) && q.forbid != Some(p[i])
        ensures !IsLegToLegMove(q.layout, p[i].from, Behind(p, q.arrived, i), p[i].to)
      {
        if i < |front| {
          assert p[i] == front[i] && Behind(p, q.arrived, i) == Behind(front, q.arrived, i);
        } else {
          assert Behind(p, q.arrived, i) == ArrivedFrom(q, came, from);
        }
      }
    }
  }

  lemma TraceLegal(q: Query, s: Search, done: seq<Marker>)
    requires Core(q, s, done) && WellKeyed(q.layout) && q.target in s.best
    ensures LegalSearch(q, Trace(q, s.came, done, q.target))
  {
    TraceIsChain(q, s.came, done, q.target, s.best);
    TraceRises(q, s.came, done, q.target, s.best);
    RisingIsSimple(done, Trace(q, s.came, done, q.target), q.target);
    TraceStepsLegal(q, s.came, done, q.target, s.best);
  }

  // ---------- optimality ----------

  /** A walk over layout edges that never takes the forbidden edge. */
  ghost predicate IsWalk(q: Query, w: seq<LayoutEdge>, a: Marker, b: Marker) {
    if w == [] then a == b
    else
      var e := w[|w| - 1];
      e in EdgesFrom(q.layout, e.from) && e.to == b && q.forbid != Some(e.Ref()) && IsWalk(q, w[..|w| - 1], a, e.from)
  }

  /** The summed lengths of the measured edges of a walk. */
  ghost function Measured(w: seq<LayoutEdge>): (m: real)
    ensures m >= 0.0
  {
    if w == [] then 0.0
    else
      var last := w[|w| - 1].length;
      Measured(w[..|w| - 1]) + if last.Some? then last.value else 0.0
  }

  /** How many of its edges have no known length. */
  ghost function Unmeasured(w: seq<LayoutEdge>): nat {
    |(set i | 0 <= i < |w| && w[i].length.None?)|
  }

  /** What a walk costs: its measured length, and one for every edge nobody has measured. */
  ghost function Cost(w: seq<LayoutEdge>): (c: real)
    ensures c >= 0.0
  {
    Measured(w) + Unmeasured(w) as real
  }

  lemma CostStep(w: seq<LayoutEdge>)
    requires w != []
    ensures Cost(w) == Cost(w[..|w| - 1]) + StepCost(w[|w| - 1])
  {
    var n := |w| - 1;
    var front := set i | 0 <= i < n && w[..n][i].length.None?;
    var all := set i | 0 <= i < |w| && w[i].length.None?;
    if w[n].length.None? {
      assert all == front + {n};
    } else {
      assert all == front;
    }
  }

  ghost function Refs(w: seq<LayoutEdge>): seq<EdgeRef> { seq(|w|, i requires 0 <= i < |w| => w[i].Ref()) }

  /** A walk from the source whose last edge comes into m from a. */
  ghost predicate EntersFrom(q: Query, w: seq<LayoutEdge>, m: Marker, a: Marker) {
    IsWalk(q, w, q.source, m) && w != [] && w[|w| - 1].from == a
  }

  /** The marker, or the target already, is reached for less. */
  ghost predicate Beaten(q: Query, m: Marker, cost: real) {
    exists v :: (IsWalk(q, v, q.source, m) || IsWalk(q, v, q.source, q.target)) && Cost(v) < cost
  }

  /** The train itself does not come into the source over one of several legs. */
  ghost predicate HeadingApart(q: Query) {
    q.arrived.Some? && IsSwitchedLeg(q.layout, q.source, q.arrived.value)
    ==> forall b :: IsSwitchedLeg(q.layout, q.source, b) ==> b == q.arrived.value
  }

  /** No cheapest way into a marker with several legs, of those nearer than the target, is over one of them. */
  ghost predicate LegsApart(q: Query) {
    && HeadingApart(q)
    && (forall m, a, b, w ::
          IsSwitchedLeg(q.layout, m, a) && IsSwitchedLeg(q.layout, m, b) && a != b && EntersFrom(q, w, m, a)
          ==> Beaten(q, m, Cost(w)))
  }

  /** That is so for every query without such a heading if no edge at all enters over one of several legs. */
  lemma NoEntryOverLegs(q: Query)
    requires HeadingApart(q)
    requires forall m, a, b :: IsSwitchedLeg(q.layout, m, a) && IsSwitchedLeg(q.layout, m, b) && Leads(q.layout, a, m)
               ==> a == b
    ensures LegsApart(q)
  {
    hide HeadingApart, IsSwitchedLeg, Beaten;
    forall m, a, w | EntersFrom(q, w, m, a) ensures Leads(q.layout, a, m) {
      assert w[|w| - 1] in EdgesFrom(q.layout, a);
    }
  }

  /** A heading into the source bars exactly the way back. */
  ghost predicate HeadingBarred(q: Query) {
    q.arrived.Some? ==> q.forbid == Some(EdgeRef(q.source, q.arrived.value))
  }

  /** No settled marker could have been reached, nor the target, for less. */
  ghost predicate Least(q: Query, best: Prices, done: seq<Marker>) {
    forall m, v :: m in done && m in best && (IsWalk(q, v, q.source, m) || IsWalk(q, v, q.source, q.target))
      ==> best[m] <= Cost(v)
  }

  /** What the bounds below rest on. */
  ghost predicate Sharp(q: Query, s: Search, done: seq<Marker>) {
    Inv(q, s, done) && WellKeyed(q.layout) && LegsApart(q) && HeadingBarred(q) && Least(q, s.best, done)
  }

  /** Along any walk, either its end is settled at no more than the walk's cost, or the walk costs at least c. */
  lemma {:induction false} WalkBound(q: Query, s: Search, done: seq<Marker>, w: seq<LayoutEdge>, x: Marker, c: real)
    requires Sharp(q, s, done) && IsWalk(q, w, q.source, x)
    requires forall i :: 0 <= i < |s.frontier| ==> c <= s.frontier[i].cost
    ensures (x in done && x in s.best && s.best[x] <= Cost(w)) || c <= Cost(w)
    decreases |w|
  {
    hide LegsApart, Least, HeadingBarred, Measured, Unmeasured;
    if w == [] {
      OpenBound(q, s, done, x, c);
    } else {
      var e := w[|w| - 1];
      var y := e.from;
      WalkBound(q, s, done, w[..|w| - 1], y, c);
      CostStep(w);
      if y in done && s.best[y] <= Cost(w[..|w| - 1]) {
        StepBound(q, s, done, e);
        OpenBound(q, s, done, x, c);
      }
    }
  }

  lemma OpenBound(q: Query, s: Search, done: seq<Marker>, x: Marker, c: real)
    requires Core(q, s, done)
    requires forall i :: 0 <= i < |s.frontier| ==> c <= s.frontier[i].cost
    ensures q.source in s.best && s.best[q.source] == 0.0
    ensures x in s.best && x !in done ==> c <= s.best[x]
  {
    if x in s.best && x !in done {
      assert Entry(x, s.best[x]) in s.frontier;
    }
  }

  /** A settled marker is left towards its predecessor only, when it was reached over a leg. */
  lemma BarredIsBack(q: Query, s: Search, done: seq<Marker>, e: LayoutEdge)
    requires Sharp(q, s, done)
    requires e.from in done && q.forbid != Some(e.Ref()) && Barred(q, e.from, ArrivedFrom(q, s.came, e.from), e)
    ensures e.from in s.came && s.came[e.from].from == e.to && IsHopInto(q, s, e.from)
  {
    hide IsSwitchedLeg, IsWalk, Queued, WellKeyed, AllRelaxed, Beaten, Least;
    var y := e.from;
    var arrived := ArrivedFrom(q, s.came, y);
    assert IsSwitchedLeg(q.layout, y, arrived.value) && IsSwitchedLeg(q.layout, y, e.to);
    if y in s.came {
      assert HopOk(q, s.best, s.came, y);
      var w := SettledWalk(q, s, done, y);
      NotBeaten(q, s.best, done, y);
    } else {
      UnreachedIsSource(q, s.came, done, y);
    }
  }

  lemma NotBeaten(q: Query, best: Prices, done: seq<Marker>, m: Marker)
    requires Least(q, best, done) && m in done && m in best
    ensures !Beaten(q, m, best[m])
  {
  }

  /** The walk a marker was settled by comes in from its predecessor. */
  lemma SettledWalk(q: Query, s: Search, done: seq<Marker>, m: Marker) returns (w: seq<LayoutEdge>)
    requires Core(q, s, done) && WellKeyed(q.layout) && m in s.came && m in s.best
    ensures EntersFrom(q, w, m, s.came[m].from) && Cost(w) == s.best[m]
  {
    hide Queued, HopsOk, WellKeyed;
    var e := HopEdge(q, s, done, m);
    var front := TraceCost(q, s, done, e.from);
    WalkMore(q, front, q.source, e);
    w := front + [e];
  }

  lemma UnreachedIsSource(q: Query, came: Hops, done: seq<Marker>, m: Marker)
    requires Chained(q, came, done) && m in done && m !in came
    ensures m == q.source
  {
    var i :| 0 <= i < |done| && done[i] == m;
    assert Linked(q, came, done, i);
  }

  ghost predicate IsHopInto(q: Query, s: Search, m: Marker)
    requires m in s.came
  {
    exists d :: IsHop(q, s.best, s.came, m, d)
  }

  /** One permitted edge out of a settled marker reaches a marker whose price it bounds. */
  lemma StepBound(q: Query, s: Search, done: seq<Marker>, e: LayoutEdge)
    requires Sharp(q, s, done) && e.from in done && e in EdgesFrom(q.layout, e.from) && q.forbid != Some(e.Ref())
    ensures e.from in s.best && e.to in s.best && s.best[e.to] <= s.best[e.from] + StepCost(e)
  {
    hide LegsApart, HeadingBarred, WellKeyed, Core, EdgesFrom, Least;
    var y := e.from;
    assert Relaxed(q, s.best, s.came, y, EdgesFrom(q.layout, y));
    if Barred(q, y, ArrivedFrom(q, s.came, y), e) {
      BarredIsBack(q, s, done, e);
      var d :| IsHop(q, s.best, s.came, y, d);
    }
  }

  lemma WalkMore(q: Query, w: seq<LayoutEdge>, a: Marker, e: LayoutEdge)
    requires IsWalk(q, w, a, e.from) && e in EdgesFrom(q.layout, e.from) && q.forbid != Some(e.Ref())
    ensures IsWalk(q, w + [e], a, e.to) && Cost(w + [e]) == Cost(w) + StepCost(e)
            && Refs(w + [e]) == Refs(w) + [e.Ref()]
  {
    hide EdgesFrom, Cost;
    assert (w + [e])[..|w|] == w;
    CostStep(w + [e]);
  }

  /** The hops into a marker are a walk of layout edges that costs exactly its price. */
  lemma {:induction false} TraceCost(q: Query, s: Search, done: seq<Marker>, m: Marker) returns (w: seq<LayoutEdge>)
    requires Core(q, s, done) && WellKeyed(q.layout) && m in s.best
    ensures IsWalk(q, w, q.source, m) && Cost(w) == s.best[m]
    ensures Refs(w) == Trace(q, s.came, done, m)
    decreases Rank(done, m)
  {
    if m == q.source {
      w := [];
      assert Refs(w) == [];
    } else {
      var e := HopEdge(q, s, done, m);
      PredecessorEarlier(q, s.came, done, m);
      var front := TraceCost(q, s, done, s.came[m].from);
      hide IsWalk, Cost, Refs, Queued, HopsOk, WellKeyed;
      WalkMore(q, front, q.source, e);
      w := front + [e];
    }
  }

  lemma HopEdge(q: Query, s: Search, done: seq<Marker>, m: Marker) returns (e: LayoutEdge)
    requires Core(q, s, done) && WellKeyed(q.layout) && m in s.best && m != q.source
    ensures m in s.came && s.came[m].from in s.best && e.from == s.came[m].from && e.to == m
            && s.came[m].edge == e.Ref()
    ensures e in EdgesFrom(q.layout, e.from) && q.forbid != Some(e.Ref()) && s.best[m] == s.best[e.from] + StepCost(e)
  {
    assert HopOk(q, s.best, s.came, m);
    e :| IsHop(q, s.best, s.came, m, e);
  }

  ghost predicate IsLeastCost(q: Query, p: seq<EdgeRef>) {
    exists w :: IsWalk(q, w, q.source, q.target) && Refs(w) == p
      && forall v :: IsWalk(q, v, q.source, q.target) ==> Cost(w) <= Cost(v)
  }

  ghost predicate Unreachable(q: Query) {
    forall v :: !IsWalk(q, v, q.source, q.target)
  }

  /** What one search promises about the route it answers with. */
  ghost predicate Answers(q: Query, r: Option<seq<EdgeRef>>) {
    && (r.Some? ==> LegalSearch(q, r.value))
    && (LegsApart(q) && HeadingBarred(q) ==> if r.Some? then IsLeastCost(q, r.value) else Unreachable(q))
  }

  /**
   * The cheapest entry, when not stale, prices its marker below every walk to it, and below every walk to the target.
   */
  lemma SettledLeast(q: Query, s: Search, done: seq<Marker>)
    requires Sharp(q, s, done) && s.frontier != [] && !IsStale(s.frontier[Cheapest(s.frontier)], s.best)
             && q.target !in done
    ensures var cur := s.frontier[Cheapest(s.frontier)];
            && cur.marker in s.best && cur.cost == s.best[cur.marker]
            && forall v :: IsWalk(q, v, q.source, cur.marker) || IsWalk(q, v, q.source, q.target)
                 ==> cur.cost <= Cost(v)
  {
    hide IsWalk, Cost, LegsApart, Least, HeadingBarred, WellKeyed;
    var cur := s.frontier[Cheapest(s.frontier)];
    CheapestIsOpen(s.best, s.frontier, done);
    forall v | IsWalk(q, v, q.source, cur.marker) || IsWalk(q, v, q.source, q.target) ensures cur.cost <= Cost(v) {
      WalkBound(q, s, done, v, if IsWalk(q, v, q.source, cur.marker) then cur.marker else q.target, cur.cost);
    }
  }

  /** Expanding leaves the prices of what is settled, the marker settled last included. */
  lemma ExpandStays(q: Query, s: Search, done: seq<Marker>)
    requires Inv(q, s, done) && s.frontier != [] && !IsStale(s.frontier[Cheapest(s.frontier)], s.best)
    ensures var settled := done + [s.frontier[Cheapest(s.frontier)].marker];
            forall m <- settled :: m in s.best && m in Expand(q, s).best && Expand(q, s).best[m] == s.best[m]
  {
    hide Relax, Relaxed, Core, Current;
    var k := Cheapest(s.frontier);
    var cur := s.frontier[k];
    Settle(q, s, done);
    CurrentAfter(q, s, done);
    RelaxKeeps(q, cur, EdgesFrom(q.layout, cur.marker), s.(frontier := Without(s.frontier, k)), done + [cur.marker]);
  }

  lemma LeastAfter(q: Query, s: Search, done: seq<Marker>)
    requires Sharp(q, s, done) && s.frontier != [] && !IsStale(s.frontier[Cheapest(s.frontier)], s.best)
             && q.target !in done
    ensures Least(q, Expand(q, s).best, done + [s.frontier[Cheapest(s.frontier)].marker])
  {
    hide IsWalk, Cost, LegsApart, HeadingBarred, WellKeyed, Inv, Expand, IsStale, Cheapest;
    var cur := s.frontier[Cheapest(s.frontier)];
    SettledLeast(q, s, done);
    ExpandStays(q, s, done);
    forall m, v | m in done + [cur.marker] && (IsWalk(q, v, q.source, m) || IsWalk(q, v, q.source, q.target))
      ensures m in Expand(q, s).best && Expand(q, s).best[m] <= Cost(v)
    {
      if m in done {
        assert s.best[m] <= Cost(v);
      }
    }
  }

  lemma FoundTarget(q: Query, s: Search, done: seq<Marker>)
    requires Inv(q, s, done) && WellKeyed(q.layout) && s.frontier != []
    requires var cur := s.frontier[Cheapest(s.frontier)]; !IsStale(cur, s.best) && cur.marker == q.target
    requires q.target !in done && (LegsApart(q) && HeadingBarred(q) ==> Least(q, s.best, done))
    ensures q.target in s.best && Answers(q, Some(Trace(q, s.came, done, q.target)))
  {
    hide LegsApart, HeadingBarred, Least;
    CheapestIsOpen(s.best, s.frontier, done);
    TraceLegal(q, s, done);
    if LegsApart(q) && HeadingBarred(q) {
      var w := TraceCost(q, s, done, q.target);
      SettledLeast(q, s, done);
    }
  }

  lemma Exhausted(q: Query, s: Search, done: seq<Marker>)
    requires Inv(q, s, done) && WellKeyed(q.layout) && s.frontier == [] && q.target !in done
    requires LegsApart(q) && HeadingBarred(q) ==> Least(q, s.best, done)
    ensures Answers(q, None)
  {
    hide LegsApart, HeadingBarred, Least;
    if LegsApart(q) && HeadingBarred(q) {
      forall v ensures !IsWalk(q, v, q.source, q.target) {
        if IsWalk(q, v, q.source, q.target) {
          WalkBound(q, s, done, v, q.target, Cost(v) + 1.0);
        }
      }
    }
  }

  lemma {:induction false} LoopAnswers(q: Query, s: Search, done: seq<Marker>)
    requires Inv(q, s, done) && WellKeyed(q.layout) && q.target !in done
    requires LegsApart(q) && HeadingBarred(q) ==> Least(q, s.best, done)
    ensures Answers(q, Loop(q, s, done))
    decreases |Nodes(q)| - |done|, |s.frontier|
  {
    hide Inv, Answers, Nodes, LegsApart, HeadingBarred, Least, WellKeyed;
    if s.frontier == [] {
      Exhausted(q, s, done);
    } else {
      var k := Cheapest(s.frontier);
      var cur := s.frontier[k];
      if IsStale(cur, s.best) {
        DropStale(q, s, done, k);
        LoopAnswers(q, s.(frontier := Without(s.frontier, k)), done);
      } else if cur.marker == q.target {
        Settle(q, s, done);
        FoundTarget(q, s, done);
      } else {
        Settle(q, s, done);
        ExpandKeeps(q, s, done);
        InvCore(q, Expand(q, s), done + [cur.marker]);
        SettledBounded(q, Expand(q, s), done + [cur.marker]);
        if LegsApart(q) && HeadingBarred(q) {
          LeastAfter(q, s, done);
        }
        LoopAnswers(q, Expand(q, s), done + [cur.marker]);
      }
    }
  }

  lemma InvCore(q: Query, s: Search, done: seq<Marker>)
    requires Inv(q, s, done)
    ensures Core(q, s, done)
  {
  }

  /** Every search: legal on any layout, least-cost and complete where legs are apart. */
  lemma DijkstraAnswers(q: Query)
    requires WellKeyed(q.layout)
    ensures Answers(q, Dijkstra(q))
  {
    if q.source == q.target {
      assert IsWalk(q, [], q.source, q.target) && Refs([]) == [];
      assert IsLeastCost(q, []);
    } else {
      LoopAnswers(q, Initial(q), []);
    }
  }

  // ---------- the planner's entry points ----------

  /** The way a train with this heading came into a marker. */
  ghost function Heading(from: Marker, current: Option<EdgeRef>): Option<Marker> {
    if current.Some? && current.value.to == from && current.value.from != from then Some(current.value.from) else None
  }

  ghost predicate MidEdge(from: Marker, current: Option<EdgeRef>) {
    current.Some? && current.value.from == from && current.value.to != from
  }

  /** The current edge joins the train's marker to another one. */
  ghost predicate IsHeading(from: Marker, current: Option<EdgeRef>) {
    current.Some? && current.value.from != current.value.to && (current.value.from == from || current.value.to == from)
  }

  /** Everything the planner promises about a route, whatever the layout. */
  ghost predicate LegalRoute(l: Layout, from: Marker, target: Marker, current: Option<EdgeRef>, p: seq<EdgeRef>) {
    && IsChain(p, from, target) && Distinct(p)
    && (IsHeading(from, current) ==> EdgeRef(current.value.to, current.value.from) !in p)
    && (MidEdge(from, current) && p != [] ==> p[0] == current.value)
    && (forall i :: 0 <= i < |p| ==>
          && (InLayout(l, p[i]) || (i == 0 && MidEdge(from, current)))
          && ((i == 0 && MidEdge(from, current))
                || !IsLegToLegMove(l, p[i].from, Behind(p, Heading(from, current), i), p[i].to)))
  }

  lemma SimpleDistinct(p: seq<EdgeRef>)
    requires IsSimple(p)
    ensures Distinct(p)
  {
  }

  lemma ContinuingLegal(l: Layout, e: EdgeRef, target: Marker)
    requires WellKeyed(l) && e.from != e.to && e.from != target
    ensures PlanContinuing(l, e.from, e.to, target).Some?
            ==> LegalRoute(l, e.from, target, Some(e), PlanContinuing(l, e.from, e.to, target).value)
  {
    if e.to != target && e.to in l.markers {
      var q := Query(l, e.to, target, Some(EdgeRef(e.to, e.from)), Some(e.from));
      DijkstraAnswers(q);
      if Dijkstra(q).Some? {
        ContinuedRoute(q, e, Dijkstra(q).value);
      }
    }
  }

  /** Going on from the edge the train is on, that edge and its reverse stay out of the rest. */
  lemma ContinuedApart(q: Query, e: EdgeRef, rest: seq<EdgeRef>)
    requires e.from != e.to && q.source == e.to && rest != [] && q.forbid == Some(EdgeRef(e.to, e.from))
             && LegalSearch(q, rest)
    ensures Distinct([e] + rest) && EdgeRef(e.to, e.from) !in [e] + rest
  {
    hide IsLegToLegMove, InLayout;
    SimpleDistinct(rest);
    var p := [e] + rest;
    forall i | 0 <= i < |rest| ensures rest[i] != e && rest[i] != EdgeRef(e.to, e.from) {
      assert rest[0].from != rest[i].to;
    }
  }

  lemma ContinuedRoute(q: Query, e: EdgeRef, rest: seq<EdgeRef>)
    requires e.from != e.to && q.source == e.to && q.source != q.target && e.from != q.target
    requires q.forbid == Some(EdgeRef(e.to, e.from)) && q.arrived == Some(e.from)
    requires LegalSearch(q, rest)
    ensures LegalRoute(q.layout, e.from, q.target, Some(e), [e] + rest)
  {
    hide IsLegToLegMove, InLayout, IsSimple, Distinct, StepsLegal;
    var p := [e] + rest;
    assert rest != [];
    ContinuedApart(q, e, rest);
    ContinuedSteps(q, e, rest);
  }

  lemma ContinuedSteps(q: Query, e: EdgeRef, rest: seq<EdgeRef>)
    requires q.source == e.to && q.arrived == Some(e.from) && rest != []
    requires IsChain(rest, q.source, q.target) && StepsLegal(q.layout, rest, q.forbid, q.arrived)
    ensures var p := [e] + rest;
            IsChain(p, e.from, q.target)
            && forall i :: 0 < i < |p|
                 ==> InLayout(q.layout, p[i]) && !IsLegToLegMove(q.layout, p[i].from, Behind(p, None, i), p[i].to)
  {
    var p := [e] + rest;
    forall i | 0 < i < |p|
      ensures InLayout(q.layout, p[i]) && p[i - 1].to == p[i].from
      ensures !IsLegToLegMove(q.layout, p[i].from, Behind(p, None, i), p[i].to)
    {
      assert p[i] == rest[i - 1] && Behind(p, None, i) == Behind(rest, q.arrived, i - 1);
    }
  }

  /** Any layout: a route, when there is one, is legal, and empty exactly when the train is at its target already. */
  lemma PlanIsLegal(l: Layout, from: Marker, target: Marker, current: Option<EdgeRef>)
    requires WellKeyed(l)
    ensures PlanTransit(l, from, target, current).Some?
            ==> LegalRoute(l, from, target, current, PlanTransit(l, from, target, current).value)
    ensures PlanTransit(l, from, target, current) == Some([]) <==> from == target && from in l.markers
  {
    if from in l.markers && target in l.markers && from != target {
      if MidEdge(from, current) {
        ContinuingLegal(l, current.value, target);
      } else {
        var h := Heading(from, current);
        var q := Query(l, from, target, if h.Some? then Some(EdgeRef(from, h.value)) else None, h);
        DijkstraAnswers(q);
        if Dijkstra(q).Some? {
          SimpleDistinct(Dijkstra(q).value);
        }
      }
    }
  }

  /** The search the planner runs: from the train's marker, or from the far end of the edge it is on. */
  ghost function SearchFor(l: Layout, from: Marker, target: Marker, current: Option<EdgeRef>): Query {
    if MidEdge(from, current) then
      Query(l, current.value.to, target, Some(EdgeRef(current.value.to, from)), Some(from))
    else
      var h := Heading(from, current);
      Query(l, from, target, if h.Some? then Some(EdgeRef(from, h.value)) else None, h)
  }

  /** Where legs are apart, the route is the cheapest there is, and no answer means no way. */
  lemma PlanIsLeastCost(l: Layout, from: Marker, target: Marker, current: Option<EdgeRef>)
    requires WellKeyed(l) && LegsApart(SearchFor(l, from, target, current)) && from in l.markers && target in l.markers
             && from != target
    requires MidEdge(from, current) ==> current.value.to in l.markers
    ensures var q := SearchFor(l, from, target, current);
            var head := if MidEdge(from, current) then [current.value] else [];
            match PlanTransit(l, from, target, current)
            case Some(p) => head <= p && IsLeastCost(q, p[|head|..])
            case None => Unreachable(q)
  {
    var q := SearchFor(l, from, target, current);
    DijkstraAnswers(q);
    if MidEdge(from, current) && Dijkstra(q).Some? {
      assert ([current.value] + Dijkstra(q).value)[1..] == Dijkstra(q).value;
    }
  }

  // ---------- a way without alternatives ----------

  /** Along the way, every marker left offers the way's next edge and no other. */
  ghost predicate NoChoice(l: Layout, p: seq<EdgeRef>) {
    forall k {:trigger p[k]} :: 0 <= k < |p|
      ==> EdgesFrom(l, p[k].from) != [] && forall e <- EdgesFrom(l, p[k].from) :: e.Ref() == p[k]
  }

  ghost predicate NoSwitches(l: Layout) {
    forall m, e :: e in EdgesFrom(l, m) ==> e.needs.None?
  }

  /** A chain that starts like the way follows it step by step. */
  lemma {:induction false} FollowsWay(l: Layout, way: seq<EdgeRef>, p: seq<EdgeRef>, a: Marker, b: Marker, c: Marker,
                                      k: nat)
    requires NoChoice(l, way) && IsChain(way, a, b) && IsChain(p, a, c) && StepsLegal(l, p, None, None)
    requires k < |way| && k < |p|
    ensures p[k] == way[k]
  {
    hide IsLegToLegMove, EdgesFrom;
    if k == 0 {
    } else {
      FollowsWay(l, way, p, a, b, c, k - 1);
    }
    assert InLayout(l, p[k]) && way[k] == way[k];
  }

  /** A simple chain comes to its end once. */
  lemma EndsOnce(p: seq<EdgeRef>, a: Marker, b: Marker, k: nat)
    requires IsChain(p, a, b) && IsSimple(p) && 0 < k <= |p| && p[k - 1].to == b
    ensures k == |p|
  {
    assert k < |p| ==> p[k].from == b;
  }

  /** Two simple chains between the same ends, one following the other, are the same. */
  lemma SameWay(way: seq<EdgeRef>, p: seq<EdgeRef>, a: Marker, b: Marker)
    requires a != b && IsChain(way, a, b) && IsChain(p, a, b) && IsSimple(way) && IsSimple(p)
    requires forall k :: 0 <= k < |way| && k < |p| ==> p[k] == way[k]
    ensures p == way
  {
    EndsOnce(if |p| < |way| then way else p, a, b, if |p| < |way| then |p| else |way|);
  }

  lemma {:induction false} WayIsWalk(q: Query, way: seq<EdgeRef>, b: Marker) returns (w: seq<LayoutEdge>)
    requires NoChoice(q.layout, way) && IsChain(way, q.source, b) && q.forbid == None && WellKeyed(q.layout)
    ensures IsWalk(q, w, q.source, b)
    decreases |way|
  {
    if way == [] {
      w := [];
    } else {
      var n := |way| - 1;
      var front := WayIsWalk(q, way[..n], way[n].from);
      var e := EdgesFrom(q.layout, way[n].from)[0];
      assert e in EdgesFrom(q.layout, way[n].from) && e.Ref() == way[n];
      hide EdgesFrom, IsWalk, NoChoice;
      WalkMore(q, front, q.source, e);
      w := front + [e];
    }
  }

  lemma NoLegsApart(q: Query)
    requires NoSwitches(q.layout)
    ensures LegsApart(q)
  {
  }

  /** Where the layout offers one way and no switched edge, the planner's route is that way. */
  lemma ForcedRoute(l: Layout, way: seq<EdgeRef>, from: Marker, target: Marker)
    requires WellKeyed(l) && NoSwitches(l) && NoChoice(l, way) && IsChain(way, from, target) && IsSimple(way)
    requires from in l.markers && target in l.markers && from != target
    ensures PlanTransit(l, from, target, None) == Some(way)
  {
    hide WellKeyed, NoSwitches, NoChoice, IsChain, IsSimple, StepsLegal, LegsApart, IsWalk, Dijkstra;
    var q := Query(l, from, target, None, None);
    DijkstraAnswers(q);
    NoLegsApart(q);
    var w := WayIsWalk(q, way, target);
    var p := Dijkstra(q).value;
    forall k | 0 <= k < |way| && k < |p| ensures p[k] == way[k] {
      FollowsWay(l, way, p, from, target, target, k);
    }
    SameWay(way, p, from, target);
  }
}
