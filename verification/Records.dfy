/**
 * A train's own record after its own reports: where it is, how far along its route, how long it dwells, what it holds.
 */
module Records {
  import opened Rail
  import opened LayoutModel
  import opened World
  import opened Clearance
  import opened Standoff
  import opened Handlers
  import opened Frames
  import opened Deadlock
  import opened Yielding
  import opened GivingWay
  import opened LayoutRuns
  import opened Standing
  import opened Reports
  import opened Learning
  import LayoutGraph
  import Ranking
  import Retreats

  // ---------- a report that is passed on ----------

  /** The reported marker ends the edge the train is on. */
  predicate FinishesEdge(t: Train, m: Marker) {
    t.transit.Some? && var tr := t.transit.value; tr.progress < |tr.edges| && tr.edges[tr.progress].to == m
  }

  /** That edge is the last of its route, and the marker the stop it is scheduled for. */
  predicate ReachesStop(t: Train, m: Marker) {
    && FinishesEdge(t, m) && t.transit.value.progress + 1 == |t.transit.value.edges|
    && t.schedule.Some? && t.schedule.value.stops[t.schedule.value.index] == m
  }

  /** A train whose length is not known to be more than nothing. */
  predicate Point(t: Train) { t.length.None? || t.length.value == 0.0 }

  /** The record a report leads to, before grants: on to the next edge of the route, or dwelling at the stop reached. */
  ghost predicate Arrived(t: Train, r: Train, m: Marker, now: real) {
    && r == t.(last := Some(m), zoneEntry := None, transit := r.transit, current := r.current,
               dwellUntil := r.dwellUntil, held := r.held)
    && (!FinishesEdge(t, m) ==> r.transit == t.transit && r.current == t.current)
    && (FinishesEdge(t, m) ==>
          var tr := t.transit.value;
          && r.transit == Some(Transit(tr.edges, tr.progress + 1))
          && r.current == if tr.progress + 1 < |tr.edges| then Some(tr.edges[tr.progress + 1]) else None)
    && (r.dwellUntil == if ReachesStop(t, m) then Some(now + 2500.0) else t.dwellUntil)
    && (Point(t) ==> forall h :: h in r.held <==> h in t.held && h.edge.to != m)
    && (!Point(t) ==> r.held == t.held)
  }

  lemma EndingAtMember(held: seq<Held>, m: Marker, h: Held)
    requires h in held
    ensures h.edge in EndingAt(held, m) <==> h.edge.to == m
  {
  }

  lemma ArriveArrives(t: Train, m: Marker, now: real)
    ensures Arrived(t, Arrive(t, m, now), m, now)
  {
    hide Release, EndingAt;
    forall h | h in t.held ensures h.edge in EndingAt(t.held, m) <==> h.edge.to == m {
      EndingAtMember(t.held, m, h);
    }
  }

  /** The report neither takes the train off the map nor into a zone, nor finds it in one. */
  predicate GoesOn(w: World, i: Input) {
    && IsReport(w, i) && i.device in w.trains && w.trains[i.device].inZone.None?
    && var t, m := w.trains[i.device], w.tags[i.tag].target;
    !OffTheMap(w.layout, t, m) && !AtThroat(w, t, m)
  }

  lemma GoesOnPasses(w: World, i: Input)
    requires GoesOn(w, i)
    ensures Step(w, i) == Pass(w, i.device, w.tags[i.tag].target, i.now)
  {
    hide Pass, Leads, FindEdge;
    OffTheMapIff(w, i.device, w.tags[i.tag].target);
  }

  /**
   * Passed on, a report leads to that record, and from there only passes move the train: it is granted more, or it is
   * told.
   */
  lemma ReportRecord(w: World, i: Input) returns (r: Train)
    requires GoesOn(w, i)
    ensures Arrived(w.trains[i.device], r, w.tags[i.tag].target, i.now)
    ensures i.device in Step(w, i).w.trains && Moved(r, Step(w, i).w.trains[i.device])
    ensures Grew(r, Step(w, i).w.trains[i.device]) || GaveWay(i.device, Step(w, i).fx)
  {
    hide Step, Pass, Arrive, OnlyConcerns, Moved, Grew, GaveWay, GoesOn;
    GoesOnIs(w, i);
    var id, m, now := i.device, w.tags[i.tag].target, i.now;
    GoesOnPasses(w, i);
    r := Arrive(w.trains[id], m, now);
    ArriveArrives(w.trains[id], m, now);
    PassConcerns(w, id, m, now);
    PassOwn(w, id, m, now);
  }

  lemma GoesOnIs(w: World, i: Input)
    requires GoesOn(w, i)
    ensures i.TagObserved? && i.device in w.trains && i.tag in w.tags && w.tags[i.tag].ToMarker?
  {
  }

  /** The grants and the pass that follow a report. */
  function GoesAhead(w: World, id: Id): Out
    requires id in w.trains
  {
    Then(Extend(w, id), Retry(Extend(w, id).w, None))
  }

  lemma GoingAheadSpares(w: World, id: Id)
    requires id in w.trains
    ensures var o := GoesAhead(w, id); id in o.w.trains && (Grew(w.trains[id], o.w.trains[id]) || GaveWay(id, o.fx))
  {
    hide Spared, Retry, Extend, Grew, GaveWay;
    ExtendSpares(id, w, id);
    HasIt(id, w, Extend(w, id));
    RetrySpares(Extend(w, id).w, id);
    ThenSpared(id, w, Extend(w, id), Retry(Extend(w, id).w, None));
    SparedIs(id, w, GoesAhead(w, id));
  }

  lemma PassGoesAhead(w: World, id: Id, m: Marker, now: real) returns (before: World, told: seq<Effect>)
    requires id in w.trains
    ensures id in before.trains && before.trains[id] == Arrive(w.trains[id], m, now)
    ensures Pass(w, id, m, now) == Out(GoesAhead(before, id).w, told + GoesAhead(before, id).fx)
  {
    hide Retry, Extend, Discover, Arrive, Discovering, ClearanceOf, Completed;
    var t := w.trains[id];
    var t' := Arrive(t, m, now);
    var released := Out(Put(w, id, t'), if |t'.held| != |t.held| then [ClearanceOf(id, t')] else []);
    var e := Completed(t.last, m);
    var learned := Discover(released.w, e, id, now);
    DiscoverTrains(released.w, e, id, now);
    before := learned.w;
    var said := [Publish(MarkerTraversed(id, m, Discovering(learned.w.layout, e), e))];
    told := (released.fx + learned.fx) + said;
    var granted := Extend(before, id);
    var rest := Retry(granted.w, None);
    assert ((told + granted.fx) + rest.fx) == told + (granted.fx + rest.fx);
  }

  lemma PassOwn(w: World, id: Id, m: Marker, now: real)
    requires id in w.trains
    ensures var o := Pass(w, id, m, now);
            id in o.w.trains
            && (Grew(Arrive(w.trains[id], m, now), o.w.trains[id]) || GaveWay(id, o.fx))
  {
    hide GoesAhead, Pass, Arrive, Grew, GaveWay;
    var before, told := PassGoesAhead(w, id, m, now);
    GoingAheadSpares(before, id);
    TellsTogether(id, told, GoesAhead(before, id).fx);
  }

  lemma DiscoverTrains(w: World, e: Option<EdgeRef>, id: Id, now: real)
    ensures Discover(w, e, id, now).w.trains == w.trains
  {
    hide RecordTraversal;
  }

  lemma SparedIs(id: Id, w: World, o: Out)
    requires Spared(id, w, o)
    ensures id in w.trains && id in o.w.trains && (Grew(w.trains[id], o.w.trains[id]) || GaveWay(id, o.fx))
  {
  }

  /**
   * The notice of a report: where the train is, the edge since its last report if any, and whether that is new track.
   */
  ghost predicate Notified(w: World, i: Input, l: Layout, x: Effect) {
    && IsReport(w, i) && i.device in w.trains
    && var t, m := w.trains[i.device], w.tags[i.tag].target;
    var since := if t.last.Some? && t.last.value !in {"", m} then Some(EdgeRef(t.last.value, m)) else None;
    x.Publish? && x.notice.MarkerTraversed? && x.notice.train == i.device && x.notice.marker == m
      && x.notice.completed == since
      && (x.notice.discovering <==>
            since.Some? && Leads(l, since.value.from, m) && FindEdge(l, since.value.from, m).value.inferred)
  }

  lemma ReportNotice(w: World, i: Input) returns (x: Effect)
    requires GoesOn(w, i)
    ensures x in Step(w, i).fx && Notified(w, i, Step(w, i).w.layout, x)
  {
    hide Step, Pass, GoesOn, FindEdge, Leads;
    GoesOnIs(w, i);
    var id, m := i.device, w.tags[i.tag].target;
    GoesOnPasses(w, i);
    x := PassNotifies(w, id, m, i.now);
    FindsJoin(Step(w, i).w.layout, if w.trains[id].last.Some? then w.trains[id].last.value else "", m);
    ReportIs(w, i);
  }

  lemma ReportIs(w: World, i: Input)
    requires GoesOn(w, i)
    ensures IsReport(w, i)
  {
  }

  lemma PassNotifies(w: World, id: Id, m: Marker, now: real) returns (x: Effect)
    requires id in w.trains
    ensures var e, l := Completed(w.trains[id].last, m), Pass(w, id, m, now).w.layout;
            x in Pass(w, id, m, now).fx && x == Publish(MarkerTraversed(id, m, Discovering(l, e), e))
  {
    hide Retry, Extend, Discover, Arrive, Discovering, ClearanceOf, Completed;
    var t := w.trains[id];
    var t' := Arrive(t, m, now);
    var released := Out(Put(w, id, t'), if |t'.held| != |t.held| then [ClearanceOf(id, t')] else []);
    var e := Completed(t.last, m);
    var learned := Discover(released.w, e, id, now);
    DiscoverTrains(released.w, e, id, now);
    x := Publish(MarkerTraversed(id, m, Discovering(learned.w.layout, e), e));
    ExtendLayout(learned.w, id);
    RetryLayout(Extend(learned.w, id).w, None);
    assert x in ((released.fx + learned.fx) + [x]);
  }

  // ---------- a report at the throat of a zone ----------

  /** A train without a route is passed over. */
  lemma {:induction false} PassLeavesFree(w: World, ids: seq<Id>, skip: set<Id>, id: Id)
    requires (forall i <- ids :: i in w.trains) && id in w.trains && w.trains[id].transit.None?
    ensures id in RetryEach(w, ids, skip).w.trains && RetryEach(w, ids, skip).w.trains[id] == w.trains[id]
    decreases |ids|
  {
    hide Walk;
    if ids == [] {
    } else if ids[0] in skip {
      PassLeavesFree(w, ids[1..], skip, id);
    } else {
      ExtendLeavesFree(w, ids[0], id);
      PassLeavesFree(Extend(w, ids[0]).w, ids[1..], skip, id);
    }
  }

  lemma ExtendLeavesFree(w: World, o: Id, id: Id)
    requires o in w.trains && id in w.trains && w.trains[id].transit.None?
    ensures id in Extend(w, o).w.trains && Extend(w, o).w.trains[id] == w.trains[id]
  {
    hide Walk;
    if o != id {
      ExtendGrows(w, o, {id});
    }
  }

  lemma RetryLeavesFree(w: World, id: Id)
    requires Rostered(w) && id in w.trains && w.trains[id].transit.None?
    ensures id in Retry(w, None).w.trains && Retry(w, None).w.trains[id] == w.trains[id]
  {
    hide RetryEach, Resolve, Ordered, GaveWay;
    PassLeavesFree(w, Ordered(w), {}, id);
    var pass := RetryEach(w, Ordered(w), {});
    RetryEachGrows(w, Ordered(w), {});
    MovedRosters0(w, pass.w);
    ResolveLeavesFree(pass.w, id);
  }

  lemma MovedRosters0(w: World, w': World)
    requires GrewAll(w, w', {}) && Rostered(w)
    ensures Rostered(w')
  {
  }

  lemma ResolveLeavesFree(w: World, id: Id)
    requires Rostered(w) && id in w.trains && w.trains[id].transit.None?
    ensures id in Resolve(w, None).w.trains && Resolve(w, None).w.trains[id] == w.trains[id]
  {
    hide Detect, YieldStep, ReverseStep, EmitDeadlock, OneGives, Regrant, IsStandoff, Ring;
    var cycle := Detect(w.order, w.trains);
    DetectExact(w.order, w.trains);
    EmitLeaves(w, cycle);
    if cycle.Some? {
      if YieldStep(w, cycle.value).Some? {
        YieldTells(w, cycle.value);
        ChosenHasRoute(w, cycle.value, YieldStep(w, cycle.value).value.0, true);
        RegrantLeavesFree(w, YieldStep(w, cycle.value).value.0, YieldStep(w, cycle.value).value.1, id);
      } else if ReverseStep(w, cycle.value).Some? {
        ReverseTells(w, cycle.value);
        ChosenHasRoute(w, cycle.value, ReverseStep(w, cycle.value).value.0, false);
        RegrantLeavesFree(w, ReverseStep(w, cycle.value).value.0, ReverseStep(w, cycle.value).value.1, id);
      }
    }
  }

  lemma EmitLeaves(w: World, cycle: Option<seq<Id>>)
    ensures EmitDeadlock(w, cycle).w.trains == w.trains
  {
    hide Ranking.SortText;
  }

  /** Whoever is chosen in a standoff waits along a route. */
  lemma ChosenHasRoute(w: World, cycle: seq<Id>, chosen: Id, forward: bool)
    requires IsStandoff(w.trains, cycle)
    requires forward ==> YieldStep(w, cycle).Some? && chosen == YieldStep(w, cycle).value.0
    requires !forward ==> ReverseStep(w, cycle).Some? && chosen == ReverseStep(w, cycle).value.0
    ensures chosen in w.trains && w.trains[chosen].transit.Some?
  {
    hide IsStandoff, IsLowest, PeerWanted, ReverseFirst, Candidates, LowestOf, Yieldable;
    if forward {
      LowestFound(w.trains, cycle);
      LowestMember(w.trains, cycle, chosen);
    } else {
      Retreats.StandoffIsDistinct(w.trains, cycle);
      Retreats.LowestRetreats(w, cycle);
    }
    MembersWait(w.trains, cycle, chosen);
  }

  lemma LowestMember(ts: Ranking.Trains, cycle: seq<Id>, id: Id)
    requires IsLowest(ts, cycle, id)
    ensures id in cycle
  {
  }

  lemma RegrantLeavesFree(w: World, chosen: Id, gave: Out, id: Id)
    requires OneGives(w, chosen, gave) && id in w.trains && id != chosen && w.trains[id].transit.None?
    ensures id in Regrant(chosen, gave).w.trains && Regrant(chosen, gave).w.trains[id] == w.trains[id]
  {
    hide RetryEach, Ordered, Retry, GaveWay;
    PassLeavesFree(gave.w, Ordered(gave.w), {chosen}, id);
    SkippingEnds(gave.w, chosen);
  }

  lemma SkippingEnds(w: World, left: Id)
    ensures Retry(w, Some({left})).w.trains == RetryEach(w, Ordered(w), {left}).w.trains
  {
    hide RetryEach, Ordered, EmitDeadlock, Detect;
    var pass := RetryEach(w, Ordered(w), {left}).w;
    assert Resolve(pass, Some({left})) == EmitDeadlock(pass, Detect(pass.order, pass.trains));
    EmitLeaves(pass, Detect(pass.order, pass.trains));
  }

  /** The report of the throat at the end of the route. */
  predicate EntersAt(w: World, i: Input) {
    && IsReport(w, i) && i.device in w.trains && w.trains[i.device].inZone.None?
    && var t, m := w.trains[i.device], w.tags[i.tag].target;
    !OffTheMap(w.layout, t, m) && AtThroat(w, t, m)
  }

  lemma EntersIs(w: World, i: Input)
    requires EntersAt(w, i)
    ensures i.TagObserved? && i.device in w.trains && i.tag in w.tags && w.tags[i.tag].ToMarker?
    ensures var id, m := i.device, w.tags[i.tag].target;
            Step(w, i) == EnterZone(Put(w, id, w.trains[id].(last := Some(m), zoneEntry := None)), id, m)
  {
    hide EnterZone, Leads, FindEdge, Pass;
    OffTheMapIff(w, i.device, w.tags[i.tag].target);
  }

  /** At the throat of a zone a train gives up everything, keeps in mind how it came in, and is suspended there. */
  lemma ZoneRecord(w: World, i: Input)
    requires Rostered(w) && EntersAt(w, i)
    ensures var t, m := w.trains[i.device], w.tags[i.tag].target;
            && i.device in Step(w, i).w.trains
            && Step(w, i).w.trains[i.device]
               == t.(last := Some(m), inZone := Some(m), limit := Some(m), held := [], transit := None, current := None,
                     zoneEntry := t.current)
  {
    hide Step, Retry, EntersAt, Rostered;
    EntersIs(w, i);
    var id, m := i.device, w.tags[i.tag].target;
    var t := w.trains[id];
    var parked := Put(Put(w, id, t.(last := Some(m), zoneEntry := None)), id, Suspended(t, m));
    PutRosters(w, id, t.(last := Some(m), zoneEntry := None));
    PutRosters(Put(w, id, t.(last := Some(m), zoneEntry := None)), id, Suspended(t, m));
    RetryLeavesFree(parked, id);
  }

  lemma PutRosters(w: World, id: Id, t: Train)
    requires Rostered(w) && id in w.trains
    ensures Rostered(Put(w, id, t))
  {
  }

  // ---------- a report off the map ----------

  /** Some edge begins or ends at the marker. */
  ghost predicate OnTrack(l: Layout, m: Marker) {
    exists a, e :: (a in l.out && e in l.out[a] && e.from == m) || (a in l.inc && e in l.inc[a] && e.to == m)
  }

  lemma IncidentIs(l: Layout, m: Marker)
    requires LayoutGraph.GraphOk(l)
    ensures HasIncidentEdges(l, m) <==> OnTrack(l, m)
  {
    hide LayoutGraph.Mirrored;
    if |Listed(l.out, m)| > 0 {
      assert l.out[m][0] in l.out[m] && LayoutGraph.LeavesFor(l.markers.Keys, m, l.out[m]);
    }
    if |Listed(l.inc, m)| > 0 {
      assert l.inc[m][0] in l.inc[m] && LayoutGraph.ComesFrom(l.markers.Keys, m, l.inc[m]);
    }
    if a, e :| a in l.out && e in l.out[a] && e.from == m {
      assert LayoutGraph.LeavesFor(l.markers.Keys, a, l.out[a]);
    }
    if a, e :| a in l.inc && e in l.inc[a] && e.to == m {
      assert LayoutGraph.ComesFrom(l.markers.Keys, a, l.inc[a]);
    }
  }

  /**
   * Off the map a train is stopped where it was last certain, keeps what it holds and the span it may be on, and is
   * told.
   */
  lemma HoldRecord(w: World, i: Input)
    requires IsReport(w, i) && i.device in w.trains && OffTheMap(w.layout, w.trains[i.device], w.tags[i.tag].target)
    requires LayoutGraph.GraphOk(w.layout)
    ensures var id, m := i.device, w.tags[i.tag].target;
            var t, o := w.trains[id], Step(w, i);
            var span := EdgeRef(t.last.value, m);
            var held := if exists h <- t.held :: h.edge == span then t.held else t.held + [Held(span, true, w.clock)];
            && id in o.w.trains
            && o.w.trains[id] == t.(limit := t.last, blocked := true, held := held)
            && o.w == w.(trains := w.trains[id := o.w.trains[id]], clock := o.w.clock)
            && |o.fx| == 3 && o.fx[0] == Send(id, RevokeClearance(UnknownTopology))
            && o.fx[1] == Publish(TopologyViolated(id, t.last.value, m, OnTrack(w.layout, m), i.now))
            && o.fx[2] == Show(Clearance(id, Edges(held), true))
  {
    hide Leads, FindEdge, HasIncidentEdges, Edges, LayoutGraph.GraphOk;
    OffTheMapIff(w, i.device, w.tags[i.tag].target);
    IncidentIs(w.layout, w.tags[i.tag].target);
  }
}
