/**
 * What subscribers are told besides clearances, commands and schedules: every notice and snapshot, and when it comes.
 */
module News {
  import opened Rail
  import opened LayoutModel
  import opened World
  import opened Clearance
  import opened Standoff
  import opened Handlers
  import opened LayoutGraph
  import opened LayoutRuns
  import opened Standing
  import opened Announced
  import opened Enrolment
  import opened Reports
  import opened Learning
  import opened Records
  import Planner
  import Ranking
  import Replanning

  /** What passes and plans emit: commands, clearances, deadlocks, schedules, and legs that cannot be planned. */
  predicate Traffic(x: Effect) {
    || x.Send?
    || (x.Show? && (x.snapshot.Clearance? || x.snapshot.Deadlock? || x.snapshot.ScheduleOf?))
    || (x.Publish? && x.notice.Raised? && (x.notice.anomaly.NoPath? || x.notice.anomaly.CannotReverse?))
  }

  ghost predicate AllTraffic(fx: seq<Effect>) {
    forall x <- fx :: Traffic(x)
  }

  lemma BothTraffic(a: seq<Effect>, b: seq<Effect>)
    requires AllTraffic(a) && AllTraffic(b)
    ensures AllTraffic(a + b)
  {
  }

  lemma NoTraffic()
    ensures AllTraffic([])
  {
  }

  lemma TryGrantTraffic(w: World, id: Id, e: EdgeRef)
    requires id in w.trains
    ensures AllTraffic(TryGrant(w, id, e).fx)
  {
    hide Conflicts, SwitchMismatch, Denied, Required, Edges;
  }

  lemma {:induction false} WalkTraffic(w: World, id: Id, edges: seq<EdgeRef>, i: nat, granted: nat, ms: real)
    requires id in w.trains
    ensures AllTraffic(Walk(w, id, edges, i, granted, ms).fx)
    decreases |edges| - i
  {
    hide TryGrant, HasGrant, EdgeMs, HoldsEdge, AllTraffic;
    NoTraffic();
    if i < |edges| && !HorizonSatisfied(granted, ms) {
      var e := edges[i];
      var more := ms + EdgeMs(w.layout, id, e);
      if HoldsEdge(w.trains[id].held, e) {
        WalkTraffic(w, id, edges, i + 1, granted + 1, more);
      } else {
        TryGrantTraffic(w, id, e);
        var g := TryGrant(w, id, e);
        if HasGrant(g.fx) {
          WalkTraffic(g.w, id, edges, i + 1, granted + 1, more);
          BothTraffic(g.fx, Walk(g.w, id, edges, i + 1, granted + 1, more).fx);
        }
      }
    }
  }

  lemma ExtendTraffic(w: World, id: Id)
    requires id in w.trains
    ensures AllTraffic(Extend(w, id).fx)
  {
    hide Walk, AllTraffic;
    NoTraffic();
    var transit := w.trains[id].transit;
    if transit.Some? {
      WalkTraffic(w, id, transit.value.edges, transit.value.progress, 0, 0.0);
    }
  }

  lemma {:induction false} PassTraffic(w: World, ids: seq<Id>, skip: set<Id>)
    requires forall i <- ids :: i in w.trains
    ensures AllTraffic(RetryEach(w, ids, skip).fx)
    decreases |ids|
  {
    hide Extend, AllTraffic;
    NoTraffic();
    if ids == [] {
    } else if ids[0] in skip {
      PassTraffic(w, ids[1..], skip);
    } else {
      var first := Extend(w, ids[0]);
      ExtendTraffic(w, ids[0]);
      PassTraffic(first.w, ids[1..], skip);
      BothTraffic(first.fx, RetryEach(first.w, ids[1..], skip).fx);
    }
  }

  lemma EmitTraffic(w: World, cycle: Option<seq<Id>>)
    ensures AllTraffic(EmitDeadlock(w, cycle).fx)
  {
    hide Ranking.SortText;
  }

  lemma YieldTraffic(w: World, cycle: seq<Id>)
    ensures YieldStep(w, cycle).Some? ==> AllTraffic(YieldStep(w, cycle).value.1.fx)
    ensures ReverseStep(w, cycle).Some? ==> AllTraffic(ReverseStep(w, cycle).value.1.fx)
  {
    hide LowestOf, PeerWanted, Yieldable, TouchesAny, ReverseFirst, Candidates;
  }

  lemma {:induction false} RetryTraffic(w: World, skip: Option<set<Id>>)
    ensures AllTraffic(Retry(w, skip).fx)
    decreases Level(skip), 2
  {
    hide RetryEach, Resolve, Ordered, AllTraffic;
    var left := if skip.Some? then skip.value else {};
    var pass := RetryEach(w, Ordered(w), left);
    PassTraffic(w, Ordered(w), left);
    ResolveTraffic(pass.w, skip);
    BothTraffic(pass.fx, Resolve(pass.w, skip).fx);
  }

  lemma {:induction false} ResolveTraffic(w: World, skip: Option<set<Id>>)
    ensures AllTraffic(Resolve(w, skip).fx)
    decreases Level(skip), 1
  {
    hide Detect, YieldStep, ReverseStep, EmitDeadlock, AllTraffic, Retry;
    var cycle := Detect(w.order, w.trains);
    EmitTraffic(w, cycle);
    if cycle.Some? && skip.None? {
      YieldTraffic(w, cycle.value);
      if YieldStep(w, cycle.value).Some? {
        var (id, gave) := YieldStep(w, cycle.value).value;
        RetryTraffic(gave.w, Some({id}));
        BothTraffic(gave.fx, Retry(gave.w, Some({id})).fx);
      } else if ReverseStep(w, cycle.value).Some? {
        var (id, gave) := ReverseStep(w, cycle.value).value;
        RetryTraffic(gave.w, Some({id}));
        BothTraffic(gave.fx, Retry(gave.w, Some({id})).fx);
      }
    }
  }

  // ---------- plans ----------

  lemma DepartTraffic(w: World, id: Id, edges: seq<EdgeRef>)
    requires id in w.trains && w.trains[id].schedule.Some? && edges != []
    ensures AllTraffic(Depart(w, id, edges).fx)
  {
    hide Extend, Retry, AllTraffic;
    var t := w.trains[id];
    var placed := Put(w, id, t.(transit := Some(Transit(edges, 0)), limit := Some(edges[0].from)));
    var granted := Extend(placed, id);
    ExtendTraffic(placed, id);
    RetryTraffic(granted.w, None);
    var order := [Send(id, AssignRoute(t.schedule.value.route, edges))];
    assert AllTraffic(order) by {
      OneTraffic(order[0]);
    }
    BothTraffic(order, granted.fx);
    BothTraffic(order + granted.fx, Retry(granted.w, None).fx);
  }

  lemma OneTraffic(x: Effect)
    requires Traffic(x)
    ensures AllTraffic([x])
  {
  }

  lemma RouteTraffic(w: World, id: Id, target: Marker)
    requires id in w.trains && w.trains[id].last.Some? && w.trains[id].schedule.Some?
    ensures AllTraffic(Route(w, id, target).fx)
  {
    hide Depart, Planner.PlanTransit, AllTraffic, CanReverseTrain;
    NoTraffic();
    var t := w.trains[id];
    OneTraffic(Publish(Raised(NoPath(id, t.last.value, target))));
    OneTraffic(Publish(Raised(CannotReverse(id, target))));
    var plan := Planner.PlanTransit(w.layout, t.last.value, target, HeadingOf(t));
    if plan.Some? && plan.value != [] {
      DepartTraffic(w, id, plan.value);
    }
  }

  lemma {:induction false} PlanTraffic(w: World, id: Id, budget: nat)
    requires id in w.trains
    ensures AllTraffic(Settled(PlanAndExecute(w, id, budget)).fx)
    decreases budget, 1
  {
    hide Route, AllTraffic;
    NoTraffic();
    var t := w.trains[id];
    if t.schedule.Some? && t.last.Some? {
      if t.last.value != StopOf(t.schedule.value) {
        RouteTraffic(w, id, StopOf(t.schedule.value));
      } else if |t.schedule.value.stops| > 1 {
        AdvanceTraffic(w, id, budget);
      }
    }
  }

  lemma {:induction false} AdvanceTraffic(w: World, id: Id, budget: nat)
    requires id in w.trains
    ensures AllTraffic(Settled(AdvanceAndReplan(w, id, budget)).fx)
    decreases budget, 0
  {
    hide PlanAndExecute, AllTraffic;
    NoTraffic();
    var t := w.trains[id];
    if t.schedule.Some? && budget > 0 {
      var s := Next(t.schedule.value);
      var moved := Put(w, id, t.(schedule := Some(s)));
      PlanTraffic(moved, id, budget - 1);
      OneTraffic(Show(ScheduleOf(id, Some(s))));
      PrefixTraffic([Show(ScheduleOf(id, Some(s)))], PlanAndExecute(moved, id, budget - 1));
    }
  }

  lemma PrefixTraffic(fx: seq<Effect>, a: Attempt)
    requires AllTraffic(fx) && AllTraffic(Settled(a).fx)
    ensures AllTraffic(Settled(Prefixed(fx, a)).fx)
  {
    hide AllTraffic;
    match a
    case Returned(o) => BothTraffic(fx, o.fx);
    case Threw(_) => NoTraffic();
  }

  lemma ResumeTraffic(w: World, id: Id)
    requires id in w.trains
    ensures AllTraffic(Settled(Resume(w, id)).fx)
  {
    hide PlanAndExecute, Retry, AllTraffic;
    NoTraffic();
    RetryTraffic(w, None);
    PlanTraffic(w, id, w.stack);
    var a := PlanAndExecute(w, id, w.stack);
    if a.Returned? {
      RetryTraffic(a.out.w, None);
      BothTraffic(a.out.fx, Retry(a.out.w, None).fx);
    }
  }

  // ---------- news ----------

  /** Something told that is not traffic. */
  ghost predicate Told(x: Effect, o: Out) { x in o.fx && !Traffic(x) }

  lemma ToldThen(fx: seq<Effect>, o: Out, w: World)
    requires AllTraffic(o.fx)
    ensures forall x :: Told(x, Out(w, fx + o.fx)) <==> x in fx && !Traffic(x)
  {
  }

  function LayoutShown(l: Layout): Effect { Show(LayoutOf(l.markers, l.out)) }

  /** The news of a registration. */
  ghost predicate RegistrationNews(w: World, d: Id, r: Registration, w': World, x: Effect) {
    if !Accepted(r) then x == Publish(Raised(UnknownCapabilities(d, UnknownOnes(r.caps))))
    else
      || x == Show(DeviceOf(d, r.caps, if r.length.Some? && r.length.value > 0.0 then r.length else None))
      || SettingUpNews(w, d, r, w', x)
  }

  /** The news of a device going. */
  ghost predicate FarewellNews(w: World, d: Id, x: Effect) {
    d in w.devices
    && (|| x == Show(DeviceGone(d))
        || (GatesClearance in w.devices[d].caps && x == Publish(Raised(GateDropped(d))))
        || (GatesZone in w.devices[d].caps && x == Publish(Raised(ZoneDropped(d)))))
  }

  lemma {:induction false} UnknownMembers(caps: seq<Capability>)
    ensures forall c :: c in UnknownOnes(caps) <==> c in caps && c.Unknown?
  {
    if caps == [] {
    } else {
      UnknownMembers(caps[1..]);
      assert caps == [caps[0]] + caps[1..];
    }
  }

  lemma RegistrationTold(w: World, d: Id, r: Registration, x: Effect)
    ensures Told(x, Register(w, d, r)) <==> RegistrationNews(w, d, r, Register(w, d, r).w, x)
  {
    hide UnknownOnes, OwnMarkers, InitTrain, PairSwitch, SettingUpNews;
    UnknownIff(r.caps);
    if Accepted(r) {
      var w1 := w.(devices := w.devices[d := Device(r.caps, [], [])]);
      var w2 := if ControlsMotion in r.caps then InitTrain(w1, d, r) else w1;
      InitTables(w1, d, r);
      SettingUpTold(w, w2, d, r, x);
    }
  }

  /** What enrolling the zones and the switch tells. */
  ghost predicate SettingUpNews(w: World, d: Id, r: Registration, w': World, x: Effect) {
    || (GatesZone in r.caps
        && exists m <- r.owned :: (ZoneOfAnother(w, d, m) || SwitchOfAnother(w, d, m))
                                  && x == Publish(Raised(MarkerOwned(d, m, OwnerOf(w, m)))))
    || (ControlsSwitch in r.caps && r.controls.Some? && ZoneOfAnother(w', d, r.controls.value)
        && x == Publish(Raised(ControlRefused(d, r.controls.value, w'.zoneOwned[r.controls.value]))))
  }

  lemma SettingUpTold(w: World, w2: World, d: Id, r: Registration, x: Effect)
    requires w2.zoneOwned == w.zoneOwned && w2.layout == w.layout
    ensures var zones := if GatesZone in r.caps then OwnMarkers(w2, d, r.owned) else Out(w2, []);
            var switches := if ControlsSwitch in r.caps then PairSwitch(zones.w, d, r.controls) else Out(zones.w, []);
            && (x in zones.fx + switches.fx <==> SettingUpNews(w, d, r, switches.w, x))
            && (x in zones.fx + switches.fx ==> !Traffic(x))
  {
    hide OwnMarkers, Owns;
    OwnMarkersOwns(w2, d, r.owned);
    OwnersTold(w, w2, d, r.owned, x);
    var zones := if GatesZone in r.caps then OwnMarkers(w2, d, r.owned) else Out(w2, []);
    PairingTold(zones.w, d, r.controls, x);
    hide PairSwitch;
  }

  lemma PairingTold(w: World, d: Id, controls: Option<Marker>, x: Effect)
    ensures var o := PairSwitch(w, d, controls);
            && o.w.zoneOwned == w.zoneOwned
            && (x in o.fx <==> controls.Some? && ZoneOfAnother(w, d, controls.value)
                               && x == Publish(Raised(ControlRefused(d, controls.value, w.zoneOwned[controls.value]))))
  {
  }

  lemma OwnersTold(w: World, w2: World, d: Id, owned: seq<Marker>, x: Effect)
    requires w2.zoneOwned == w.zoneOwned && w2.layout == w.layout && Owns(w2, d, owned, OwnMarkers(w2, d, owned))
    ensures x in OwnMarkers(w2, d, owned).fx
            <==> exists m <- owned :: (ZoneOfAnother(w, d, m) || SwitchOfAnother(w, d, m))
                                      && x == Publish(Raised(MarkerOwned(d, m, OwnerOf(w, m))))
    ensures x in OwnMarkers(w2, d, owned).fx ==> !Traffic(x)
  {
    hide OwnMarkers;
    assert forall m :: ZoneOfAnother(w2, d, m) == ZoneOfAnother(w, d, m)
                       && SwitchOfAnother(w2, d, m) == SwitchOfAnother(w, d, m);
  }

  lemma {:induction false} NoticesTold(d: Id, caps: seq<Capability>, x: Effect)
    ensures x in DropNotices(d, caps)
            <==> (GatesClearance in caps && x == Publish(Raised(GateDropped(d))))
                 || (GatesZone in caps && x == Publish(Raised(ZoneDropped(d))))
  {
    if caps == [] {
    } else {
      NoticesTold(d, caps[1..], x);
      assert caps == [caps[0]] + caps[1..];
    }
  }

  lemma FarewellTold(w: World, d: Id, x: Effect)
    ensures Told(x, ForgetDevice(w, d)) <==> FarewellNews(w, d, x)
  {
    hide Retry, DropNotices, RemoveTrain, AllTraffic;
    if d in w.devices {
      var w1 := w.(devices := w.devices - {d});
      RetryTraffic(w1, None);
      RetryTraffic(RemoveTrain(w1, d), None);
      NoticesTold(d, w.devices[d].caps, x);
      ToldApart(w, d, x);
    }
  }

  lemma ToldApart(w: World, d: Id, x: Effect)
    requires d in w.devices
    requires var w1 := w.(devices := w.devices - {d});
             AllTraffic(Retry(w1, None).fx) && AllTraffic(Retry(RemoveTrain(w1, d), None).fx)
    ensures Told(x, ForgetDevice(w, d))
            <==> !Traffic(x) && x in DropNotices(d, w.devices[d].caps) + [Show(DeviceGone(d))]
  {
    hide Retry, DropNotices, RemoveTrain;
  }

  // ---------- the layout is shown when it changes ----------

  lemma {:induction false} PromoteChanges(edges: seq<LayoutEdge>, from: Marker, to: Marker)
    requires FindTo(edges, to).Some? && FindTo(edges, to).value.inferred && forall e <- edges :: e.from == from
    ensures Promote(edges, from, to) != edges
  {
    if edges[0].to == to {
      assert Promote(edges, from, to)[0] != edges[0];
    } else {
      PromoteChanges(edges[1..], from, to);
      assert Promote(edges, from, to)[1..] == Promote(edges[1..], from, to);
    }
  }

  lemma AddedChanges(l: Layout, from: Marker, to: Marker)
    requires GraphOk(l) && from in l.markers && to in l.markers
    ensures FindEdge(l, from, to).None?
            ==> from in l.out && from in AddInferredEdge(l, from, to).out
                && |AddInferredEdge(l, from, to).out[from]| == |l.out[from]| + 1
    ensures FindEdge(l, from, to).Some? ==> AddInferredEdge(l, from, to) == l
  {
    hide Mirrored, EndsKnown;
  }

  /** The edges a marker has, from first to last. */
  lemma OwnEdges(l: Layout, from: Marker)
    requires GraphOk(l)
    ensures forall e <- Listed(l.out, from) :: e.from == from
  {
    hide Mirrored;
    if from in l.out {
      assert LeavesFor(l.markers.Keys, from, l.out[from]);
    }
  }

  /** A recorded traversal says it added or confirmed an edge exactly when the lists of edges have changed. */
  lemma RecordTells(l: Layout, from: Marker, to: Marker, train: Option<Id>, now: real)
    requires GraphOk(l)
    ensures var r := RecordTraversal(l, from, to, train, now);
            (r.added || r.confirmed <==> r.layout.out != l.out) && r.layout.markers == l.markers
  {
    hide GraphOk, FindTo, LearnShared, LearnForTrain, Promote;
    if from in l.markers && to in l.markers {
      var key := EdgeRef(from, to);
      var l1 := AddInferredEdge(l, from, to);
      var l2 := l1.(counts := l1.counts[key := Count(l.counts, key) + 1]);
      AddedChanges(l, from, to);
      OwnEdges(l, from);
      LearningGraph(l2, key, train, now);
      LearningGraph(ConfirmEdge(l2, from, to), key, train, now);
      LearningMarkers(l2, key, train, now);
      LearningMarkers(ConfirmEdge(l2, from, to), key, train, now);
      var edge := FindEdge(l, from, to);
      if edge.Some? && edge.value.inferred {
        PromoteChanges(l.out[from], from, to);
      }
    }
  }

  lemma LearningMarkers(l: Layout, e: EdgeRef, train: Option<Id>, now: real)
    ensures LearnShared(l, e, now).markers == l.markers
    ensures train.Some? ==> LearnForTrain(LearnShared(l, e, now), e, train.value, now).markers == l.markers
  {
  }

  // ---------- reports ----------

  /** The news of a marker report. */
  ghost predicate ReportNews(w: World, i: Input, w': World, x: Effect) {
    && IsReport(w, i) && i.device in w.trains && w.trains[i.device].inZone.None?
    && var d, t, m := i.device, w.trains[i.device], w.tags[i.tag].target;
    if OffTheMap(w.layout, t, m) then
      x == Publish(TopologyViolated(d, t.last.value, m, OnTrack(w.layout, m), i.now))
    else !AtThroat(w, t, m)
         && (Notified(w, i, w'.layout, x) || (x == LayoutShown(w'.layout) && w'.layout.out != w.layout.out))
  }

  lemma HoldTold(w: World, i: Input, x: Effect)
    requires GraphOk(w.layout) && IsReport(w, i) && i.device in w.trains
             && OffTheMap(w.layout, w.trains[i.device], w.tags[i.tag].target)
    ensures Told(x, Step(w, i)) <==> ReportNews(w, i, Step(w, i).w, x)
  {
    hide Step, GraphOk, OnTrack, Leads, Notified, AtThroat;
    HoldRecord(w, i);
    var o := Step(w, i);
    assert o.fx == [o.fx[0], o.fx[1], o.fx[2]];
  }

  lemma EnterTold(w: World, i: Input, x: Effect)
    requires EntersAt(w, i)
    ensures !Told(x, Step(w, i))
  {
    hide Step, Retry, EntersAt, Edges;
    EntersIs(w, i);
    var id, m := i.device, w.tags[i.tag].target;
    var t := w.trains[id].(last := Some(m), zoneEntry := None);
    RetryTraffic(Put(Put(w, id, t), id, Suspended(t, m)), None);
    EnteringTraffic(Put(w, id, t), id, m);
  }

  lemma EnteringTraffic(w: World, id: Id, m: Marker)
    requires id in w.trains
    ensures AllTraffic(EnterZone(w, id, m).fx)
  {
    hide Retry, Edges;
    var t := w.trains[id];
    RetryTraffic(Put(w, id, t.(inZone := Some(m), transit := None, zoneEntry := t.current, current := None,
                               limit := Some(m), held := [])), None);
  }

  lemma DiscoverTells(w: World, e: Option<EdgeRef>, id: Id, now: real)
    requires GraphOk(w.layout)
    ensures var o := Discover(w, e, id, now);
            o.fx == if o.w.layout.out != w.layout.out then [LayoutShown(o.w.layout)] else []
  {
    hide GraphOk, RecordTraversal;
    if e.Some? {
      RecordTells(w.layout, e.value.from, e.value.to, Some(id), now);
    }
  }

  lemma PassTold(w: World, id: Id, m: Marker, now: real, x: Effect)
    requires id in w.trains && GraphOk(w.layout)
    ensures var e, o := Completed(w.trains[id].last, m), Pass(w, id, m, now);
            Told(x, o) <==> x == Publish(MarkerTraversed(id, m, Discovering(o.w.layout, e), e))
                            || (x == LayoutShown(o.w.layout) && o.w.layout.out != w.layout.out)
  {
    hide Retry, Extend, Discover, Arrive, Discovering, Completed, GraphOk, Edges;
    var t := w.trains[id];
    var t' := Arrive(t, m, now);
    var released := Out(Put(w, id, t'), if |t'.held| != |t.held| then [ClearanceOf(id, t')] else []);
    var e := Completed(t.last, m);
    var learned := Discover(released.w, e, id, now);
    DiscoverTells(released.w, e, id, now);
    DiscoverTrains(released.w, e, id, now);
    ExtendLayout(learned.w, id);
    RetryLayout(Extend(learned.w, id).w, None);
    ExtendTraffic(learned.w, id);
    RetryTraffic(Extend(learned.w, id).w, None);
    var said := [Publish(MarkerTraversed(id, m, Discovering(learned.w.layout, e), e))];
    assert Pass(w, id, m, now).fx
        == (((released.fx + learned.fx) + said) + Extend(learned.w, id).fx) + Retry(Extend(learned.w, id).w, None).fx;
  }

  lemma GoingOnTold(w: World, i: Input, x: Effect)
    requires GraphOk(w.layout) && GoesOn(w, i)
    ensures Told(x, Step(w, i)) <==> ReportNews(w, i, Step(w, i).w, x)
  {
    hide Step, GraphOk, OnTrack, Leads, AtThroat, OffTheMap, Pass, FindEdge;
    var id, m := i.device, w.tags[i.tag].target;
    GoesOnPasses(w, i);
    PassTold(w, id, m, i.now, x);
    FindsJoin(Step(w, i).w.layout, if w.trains[id].last.Some? then w.trains[id].last.value else "", m);
  }

  lemma ReportTold(w: World, i: Input, x: Effect)
    requires GraphOk(w.layout) && IsReport(w, i)
    ensures Told(x, Step(w, i)) <==> ReportNews(w, i, Step(w, i).w, x)
  {
    hide Step, GraphOk, OnTrack, Leads, AtThroat, OffTheMap, Notified;
    if i.device !in w.trains || w.trains[i.device].inZone.Some? {
      UnheardReport(w, i);
    } else if OffTheMap(w.layout, w.trains[i.device], w.tags[i.tag].target) {
      HoldTold(w, i, x);
    } else if AtThroat(w, w.trains[i.device], w.tags[i.tag].target) {
      EnterTold(w, i, x);
    } else {
      GoingOnTold(w, i, x);
    }
  }

  lemma UnheardReport(w: World, i: Input)
    requires IsReport(w, i) && (i.device !in w.trains || w.trains[i.device].inZone.Some?)
    ensures Step(w, i) == Out(w, [])
  {
    hide Pass, EnterZone, Violates;
  }

  // ---------- every input ----------

  /** Everything an input tells that is not traffic. */
  ghost predicate IsNews(w: World, i: Input, w': World, x: Effect) {
    match i
    case DeviceRegistered(d, r) => RegistrationNews(w, d, r, w', x)
    case DeviceDisconnected(d) => FarewellNews(w, d, x)
    case Forget(d) => FarewellNews(w, d, x)
    case TagObserved(d, tag, now) =>
      if tag !in w.tags then x == Publish(Raised(UnknownTag(tag)))
      else if w.tags[tag].ToVehicle? then d in w.devices && x == Publish(VehicleIdentified(w.tags[tag].vehicle, d))
      else ReportNews(w, i, w', x)
    case TagAssigned(d, tag, b, kind) =>
      if !(d in w.devices && AssignsTags in w.devices[d].caps) then x == Publish(Raised(NotTagAssigner(d)))
      else x == Show(TagOf(tag, b)) || (b.ToMarker? && b.target !in w.layout.markers && x == LayoutShown(w'.layout))
    case ClearanceRequested(id, e) =>
      var missing := Missing(w.layout, [e.from, e.to], {});
      missing != [] && x == Publish(Raised(UnknownMarkers(id, missing)))
    case SwitchChanged(j, p, confirmed) =>
      x == if j in w.layout.markers then Show(SwitchOf(j, p, confirmed)) else Publish(Raised(UnknownJunction(j)))
    case LengthChanged(d, id, length) =>
      if !(d in w.devices && ReportsLength in w.devices[d].caps) then x == Publish(Raised(NotLengthReporter(d)))
      else id in w.trains
           && x == Show(DeviceOf(id, if id in w.devices then w.devices[id].caps else [], Some(length)))
    case ZoneReleased(d, zone, id) =>
      !(zone in w.zoneBounds && w.zoneBounds[zone] == d) && x == Publish(Raised(NotZoneOwner(d, zone)))
    case AssignSchedule(id, route, stops) =>
      var unknown := UnknownStopsOf(w.layout, stops);
      id in w.trains && unknown != [] && x == Publish(Raised(UnknownStops(id, unknown)))
    case ConfirmNewTrack(id) =>
      ConfirmsTrack(w, i) && x == LayoutShown(w'.layout)
      && !Replanning.Fails(Recovered(w.trains[id], Uncertain(w.layout, w.trains[id].held).value.to), w.stack)
    case _ => false
  }

  lemma TagTold(w: World, d: Id, tag: string, b: Binding, kind: Kind, x: Effect)
    ensures Told(x, AssignTag(w, d, tag, b, kind))
            <==> IsNews(w, TagAssigned(d, tag, b, kind), AssignTag(w, d, tag, b, kind).w, x)
  {
    hide UpsertMarker;
  }

  lemma MissingMembers(l: Layout, a: Marker, b: Marker)
    ensures forall m :: m in Missing(l, [a, b], {}) <==> m in {a, b} && m !in l.markers
  {
    assert [a, b][1..] == [b] && [b][1..] == [];
    assert Missing(l, [b], {} + {a})
           == (if b != a && b !in l.markers then [b] else []) + Missing(l, [], {} + {a} + {b});
  }

  lemma {:induction false} UnknownStopsMembers(l: Layout, stops: seq<Marker>)
    ensures forall m :: m in UnknownStopsOf(l, stops) <==> m in stops && m !in l.markers
  {
    if stops == [] {
    } else {
      UnknownStopsMembers(l, stops[1..]);
      assert stops == [stops[0]] + stops[1..];
    }
  }

  lemma RequestTold(w: World, id: Id, e: EdgeRef, x: Effect)
    ensures Told(x, RequestClearance(w, id, e))
            <==> IsNews(w, ClearanceRequested(id, e), RequestClearance(w, id, e).w, x)
  {
    hide TryGrant, Missing;
    if id in w.trains {
      TryGrantTraffic(w, id, e);
    }
  }

  lemma StatusTold(w: World, id: Id, on: Option<EdgeRef>, distance: Option<real>, now: real, x: Effect)
    ensures !Told(x, Status(w, id, on, distance, now))
  {
    hide AdvanceAndReplan, Retry, ClearedByTail, Edges;
    if id in w.trains {
      var t := Seeded(w.trains[id], on);
      var w1 := Put(w, id, t);
      AdvanceTraffic(Put(w1, id, t.(dwellUntil := None)), id, w.stack);
      if on.Some? && distance.Some? {
        RetryTraffic(Put(w1, id, t.(held := Release(t.held, HeldSet(ClearedByTail(w1.layout, t, on.value,
                                                                                   distance.value))))), None);
      }
    }
  }

  lemma ReleaseTold(w: World, d: Id, zone: Marker, id: Id, x: Effect)
    ensures Told(x, ReleaseFromZone(w, d, zone, id))
            <==> IsNews(w, ZoneReleased(d, zone, id), ReleaseFromZone(w, d, zone, id).w, x)
  {
    hide AdvanceAndReplan, Retry;
    if id in w.trains {
      var w1 := Put(w, id, w.trains[id].(inZone := None));
      AdvanceTraffic(w1, id, w.stack);
      RetryTraffic(w1, None);
    }
  }

  lemma AssignTold(w: World, id: Id, route: string, stops: seq<Marker>, x: Effect)
    ensures Told(x, Assign(w, id, route, stops))
            <==> IsNews(w, AssignSchedule(id, route, stops), Assign(w, id, route, stops).w, x)
  {
    hide PlanAndExecute, UnknownStopsOf;
    if stops == [] {
      NoStops(w.layout, stops);
    } else if id in w.trains {
      var t := Assigned(w.trains[id], route, stops);
      PlanTraffic(Put(w, id, t), id, w.stack);
      OneTraffic(Show(ScheduleOf(id, t.schedule)));
      PrefixTraffic([Show(ScheduleOf(id, t.schedule))], PlanAndExecute(Put(w, id, t), id, w.stack));
    }
  }

  lemma NoStops(l: Layout, stops: seq<Marker>)
    requires stops == []
    ensures UnknownStopsOf(l, stops) == []
  {
  }

  lemma ConfirmTold(w: World, id: Id, x: Effect)
    ensures Told(x, ConfirmTrack(w, id)) <==> IsNews(w, ConfirmNewTrack(id), ConfirmTrack(w, id).w, x)
  {
    hide Resume, AddInferredEdge, Uncertain, Edges, Replanning.Fails;
    if ConfirmsTrack(w, ConfirmNewTrack(id)) {
      var e := Uncertain(w.layout, w.trains[id].held).value;
      var l := AddInferredEdge(w.layout, e.from, e.to);
      var t := Recovered(w.trains[id], e.to);
      var w1 := Put(w.(layout := l), id, t);
      ResumeTraffic(w1, id);
      ResumeLayout(w1, id);
      Replanning.ResumeFailsIff(w1, id);
    }
  }

  lemma ReanchorTold(w: World, id: Id, m: Marker, x: Effect)
    ensures !Told(x, ReanchorAt(w, id, m))
  {
    hide Resume, Edges;
    if id in w.trains {
      var t := Recovered(w.trains[id], m);
      ResumeTraffic(Put(w, id, t), id);
      OneTraffic(ClearanceOf(id, t));
      PrefixTraffic([ClearanceOf(id, t)], Resume(Put(w, id, t), id));
    }
  }

  lemma RevokeTold(w: World, id: Id, x: Effect)
    ensures !Told(x, RevokeTrain(w, id))
  {
    hide Retry, Edges;
    if id in w.trains {
      var t := w.trains[id];
      var t' := t.(held := [], limit := if t.last.Some? then t.last else t.limit, blocked := false);
      RetryTraffic(Put(w, id, t'), Some({id}));
    }
  }

  lemma HooksTold(w: World, i: Input, x: Effect)
    requires i.GateChanged? || i.ZoneChanged? || i.OtherEvent?
    ensures !Told(x, Step(w, i))
  {
    hide Retry, GateHooks, ZoneHooks;
    forall v ensures AllTraffic(Retry(v, None).fx) {
      RetryTraffic(v, None);
    }
  }

  lemma SwitchTold(w: World, j: Marker, p: string, confirmed: bool, x: Effect)
    ensures Told(x, ChangeSwitch(w, j, p, confirmed))
            <==> IsNews(w, SwitchChanged(j, p, confirmed), ChangeSwitch(w, j, p, confirmed).w, x)
  {
    hide Retry;
    RetryTraffic(Confirm(w, j, p), None);
  }

  lemma LengthTold(w: World, d: Id, id: Id, length: Length, x: Effect)
    ensures Told(x, ChangeLength(w, d, id, length))
            <==> IsNews(w, LengthChanged(d, id, length), ChangeLength(w, d, id, length).w, x)
  {
  }

  lemma TagReadTold(w: World, d: Id, tag: string, now: real, x: Effect)
    requires GraphOk(w.layout)
    ensures Told(x, Step(w, TagObserved(d, tag, now)))
            <==> IsNews(w, TagObserved(d, tag, now), Step(w, TagObserved(d, tag, now)).w, x)
  {
    hide AtMarker, ReportNews, GraphOk;
    var i := TagObserved(d, tag, now);
    if IsReport(w, i) {
      ReportTold(w, i, x);
    } else {
      NoReportNews(w, i, x);
    }
  }

  lemma NoReportNews(w: World, i: Input, x: Effect)
    requires !IsReport(w, i)
    ensures forall w' :: !ReportNews(w, i, w', x)
  {
  }

  lemma DeviceTold(w: World, i: Input, x: Effect)
    requires i.DeviceRegistered? || i.DeviceDisconnected? || i.Forget? || i.TagAssigned? || i.LengthChanged?
    ensures Told(x, Step(w, i)) <==> IsNews(w, i, Step(w, i).w, x)
  {
    hide Register, ForgetDevice, AssignTag, ChangeLength, RegistrationNews, FarewellNews, Traffic;
    match i
    case DeviceRegistered(d, r) => RegistrationTold(w, d, r, x);
    case DeviceDisconnected(d) => FarewellTold(w, d, x);
    case Forget(d) => FarewellTold(w, d, x);
    case TagAssigned(d, tag, b, kind) => TagTold(w, d, tag, b, kind, x);
    case LengthChanged(d, id, length) => LengthTold(w, d, id, length, x);
  }

  lemma OperatorTold(w: World, i: Input, x: Effect)
    requires i.AssignSchedule? || i.Revoke? || i.Reanchor? || i.ConfirmNewTrack? || i.Reset?
    ensures Told(x, Step(w, i)) <==> IsNews(w, i, Step(w, i).w, x)
  {
    hide Assign, RevokeTrain, ReanchorAt, ConfirmTrack, Load, Replanning.Fails, ConfirmsTrack, UnknownStopsOf, Traffic;
    match i
    case AssignSchedule(id, route, stops) => AssignTold(w, id, route, stops, x);
    case Revoke(id) => RevokeTold(w, id, x);
    case Reanchor(id, m) => ReanchorTold(w, id, m, x);
    case ConfirmNewTrack(id) => ConfirmTold(w, id, x);
    case Reset =>
  }

  lemma TrainTold(w: World, i: Input, x: Effect)
    requires i.ClearanceRequested? || i.SwitchChanged? || i.TrainStatus? || i.ZoneReleased?
    ensures Told(x, Step(w, i)) <==> IsNews(w, i, Step(w, i).w, x)
  {
    hide RequestClearance, ChangeSwitch, Status, ReleaseFromZone, Missing, Traffic;
    match i
    case ClearanceRequested(id, e) => RequestTold(w, id, e, x);
    case SwitchChanged(j, p, confirmed) => SwitchTold(w, j, p, confirmed, x);
    case TrainStatus(id, on, distance, now) => StatusTold(w, id, on, distance, now, x);
    case ZoneReleased(d, zone, id) => ReleaseTold(w, d, zone, id, x);
  }

  /**
   * Besides its traffic, an input tells exactly its news: refusals and unknowns, devices and lengths, reports and
   * violations, tags and switches, and the layout when its edges or markers have changed.
   */
  lemma NewsIff(w: World, i: Input, x: Effect)
    requires GraphOk(w.layout)
    ensures Told(x, Step(w, i)) <==> IsNews(w, i, Step(w, i).w, x)
  {
    hide Step, Told, IsNews, GraphOk;
    if i.TagObserved? {
      TagReadTold(w, i.device, i.tag, i.now, x);
    } else if i.GateChanged? || i.ZoneChanged? || i.OtherEvent? {
      HooksTold(w, i, x);
      HooksNews(w, i, x);
    } else if i.ClearanceRequested? || i.SwitchChanged? || i.TrainStatus? || i.ZoneReleased? {
      TrainTold(w, i, x);
    } else if i.AssignSchedule? || i.Revoke? || i.Reanchor? || i.ConfirmNewTrack? || i.Reset? {
      OperatorTold(w, i, x);
    } else {
      DeviceTold(w, i, x);
    }
  }

  lemma HooksNews(w: World, i: Input, x: Effect)
    requires i.GateChanged? || i.ZoneChanged? || i.OtherEvent?
    ensures forall w' :: !IsNews(w, i, w', x)
  {
  }
}
