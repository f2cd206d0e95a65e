/** Who is served first and who gives way, by what the trains themselves announced, wherever in a run a pass begins. */
module Choosing {
  import opened Rail
  import opened LayoutModel
  import opened World
  import opened Ranking
  import opened Clearance
  import opened Standoff
  import opened Frames
  import opened Handlers
  import opened Deadlock
  import opened Priority
  import opened Yielding
  import opened Reversing
  import opened Retreats
  import opened GivingWay
  import opened Standing
  import opened Announced
  import Planner
  import LayoutRuns

  // ---------- service ----------

  lemma AgreesRosters(inputs: seq<Input>, w: World)
    requires Agrees(inputs, w)
    ensures Rostered(w)
  {
    hide JoinedAt;
    forall i, j | 0 <= i < j < |w.order| ensures w.order[i] != w.order[j] {
      assert PlacedBefore(inputs, w, w.order[i], w.order[j]);
    }
    forall id ensures id in w.order <==> id in w.trains {
      assert OnRoster(inputs, w, id);
    }
  }

  /**
   * A pass serves every train, those of higher announced priority first, and among equals those that joined earlier.
   */
  lemma ServedByAnnouncement(inputs: seq<Input>, w: World, i: nat, k: nat)
    requires Agrees(inputs, w) && i < k < |Ordered(w)|
    ensures Outranks(inputs, Ordered(w)[i], Ordered(w)[k])
  {
    hide Agrees, Outranks, Before, Ordered;
    AgreesRosters(inputs, w);
    OrderedByRank(w, i, k);
    BeforeIsOutranks(inputs, w, Ordered(w)[i], Ordered(w)[k]);
  }

  /**
   * In every run, wherever an input begins a pass: once a train has been served, whatever conflicts with what it wants
   * was held before the pass, or is held by a train that announced a higher priority, or the same and joined earlier.
   */
  lemma NoInversionInEveryRun(l: Layout, stack: nat, inputs: seq<Input>, w: World, skip: set<Id>, k: nat, e: EdgeRef,
                              o: Id, h: Held)
    requires AllMoved(w, Run(Fresh(l, stack), inputs).w) && k < |Ordered(w)|
    requires InTheWayOf(Served(w, skip, k), Ordered(w)[k], e, o, h)
    ensures InTheWayOf(w, Ordered(w)[k], e, o, h) || Outranks(inputs, o, Ordered(w)[k])
  {
    hide Agrees, DevicesAgree, Outranks, Before, Ordered, InTheWayOf, Served, Run, AllMoved, NotBelow;
    RunAgrees(l, stack, inputs);
    AgreesBefore(inputs, w, Run(Fresh(l, stack), inputs).w);
    AgreesRosters(inputs, w);
    NoPriorityInversion(w, skip, k, e, o, h);
    if !InTheWayOf(w, Ordered(w)[k], e, o, h) {
      BeforeIsOutranks(inputs, w, o, Ordered(w)[k]);
    }
  }

  // ---------- who gives way in one pass ----------

  /**
   * A command to give way that is due. A yield is due to the member of a standoff that comes after all others in the
   * order; a reverse, when that one cannot yield, to a member with a safe retreat when nobody after it has one.
   */
  ghost predicate Due(w: World, cycle: seq<Id>, id: Id, c: Command) {
    && IsStandoff(w.trains, cycle) && id in cycle && id in w.trains
    && (c == RevokeClearance(DeadlockYield) || c.GrantReverse?)
    && (c.RevokeClearance? ==> forall o <- cycle :: o != id && o in w.trains ==> Before(w.trains, o, id))
    && (c.GrantReverse? ==>
          && YieldStep(w, cycle).None? && CanRetreat(w, cycle, id, Plan(c.limit, c.edges))
          && forall o, plan :: o in cycle && o in w.trains && Before(w.trains, id, o)
               ==> !CanRetreat(w, cycle, o, plan))
  }

  /** The command was due in a state from which only passes led to the one reached. */
  ghost predicate WasDue(w': World, id: Id, c: Command) {
    exists w, cycle :: AllMoved(w, w') && Due(w, cycle, id, c)
  }

  /** Every command that takes clearance back was due. */
  ghost predicate Rightly(o: Out) {
    Rostered(o.w) ==> forall x :: x in o.fx && TakesBack(x) ==> WasDue(o.w, x.device, x.command)
  }

  lemma YieldIsDue(w: World, cycle: seq<Id>, x: Effect)
    requires IsStandoff(w.trains, cycle) && YieldStep(w, cycle).Some?
    requires x in YieldStep(w, cycle).value.1.fx && TakesBack(x)
    ensures Due(w, cycle, x.device, x.command)
  {
    hide LowestOf, PeerWanted, Yieldable, TouchesAny, IsStandoff, Before;
    LowestFound(w.trains, cycle);
  }

  lemma ReverseIsDue(w: World, cycle: seq<Id>, x: Effect)
    requires IsStandoff(w.trains, cycle) && YieldStep(w, cycle).None? && ReverseStep(w, cycle).Some?
    requires x in ReverseStep(w, cycle).value.1.fx && TakesBack(x)
    ensures Due(w, cycle, x.device, x.command)
  {
    hide ReverseFirst, Candidates, IsStandoff, Before, YieldStep, CanRetreat;
    StandoffIsDistinct(w.trains, cycle);
    LowestRetreats(w, cycle);
    var found := ReverseFirst(w, cycle, Candidates(w.trains, cycle)).value;
    assert x.command == GrantReverse(found.1.target, found.1.released)
           && found.1 == Plan(found.1.target, found.1.released);
  }

  lemma SkippingAddsNone(gave: Out, id: Id, x: Effect)
    requires x in Regrant(id, gave).fx && TakesBack(x)
    ensures x in gave.fx
  {
    hide Retry, NobodyYields;
    SkippingPassYieldsNothing(gave.w, {id});
    NotAmong(Retry(gave.w, Some({id})).fx, x);
  }

  lemma NotAmong(fx: seq<Effect>, x: Effect)
    requires NobodyYields(fx) && TakesBack(x)
    ensures x !in fx
  {
  }

  lemma ResolveIsDue(w: World, x: Effect)
    requires Rostered(w) && x in Resolve(w, None).fx && TakesBack(x)
    ensures exists cycle :: Due(w, cycle, x.device, x.command)
  {
    hide Detect, YieldStep, ReverseStep, EmitDeadlock, Regrant, Due, IsStandoff, Ring, TakesBack;
    DetectExact(w.order, w.trains);
    var cycle := Detect(w.order, w.trains);
    EmitYieldsNothing(w, cycle);
    if x in EmitDeadlock(w, cycle).fx {
      NotAmong(EmitDeadlock(w, cycle).fx, x);
    }
    if cycle.Some? {
      if YieldStep(w, cycle.value).Some? {
        SkippingAddsNone(YieldStep(w, cycle.value).value.1, YieldStep(w, cycle.value).value.0, x);
        YieldIsDue(w, cycle.value, x);
      } else if ReverseStep(w, cycle.value).Some? {
        SkippingAddsNone(ReverseStep(w, cycle.value).value.1, ReverseStep(w, cycle.value).value.0, x);
        ReverseIsDue(w, cycle.value, x);
      }
    }
  }

  lemma MovedRosters(w: World, w': World)
    requires AllMoved(w, w') && Rostered(w')
    ensures Rostered(w)
  {
  }

  lemma RetryRightly(w: World)
    ensures Rightly(Retry(w, None))
  {
    hide RetryEach, Resolve, Ordered, AllMoved, GrewAll, Due, NobodyYields, Rostered;
    var pass := RetryEach(w, Ordered(w), {});
    var end := Resolve(pass.w, None);
    PassYieldsNothing(w, Ordered(w), {});
    ResolveMoves(pass.w, None);
    forall x | Rostered(end.w) && x in pass.fx + end.fx && TakesBack(x) ensures WasDue(end.w, x.device, x.command) {
      if x in pass.fx {
        NotAmong(pass.fx, x);
      }
      MovedRosters(pass.w, end.w);
      ResolveIsDue(pass.w, x);
    }
  }

  // ---------- and in every input ----------

  lemma QuietIsRight(w: World, fx: seq<Effect>)
    requires NobodyYields(fx)
    ensures Rightly(Out(w, fx))
  {
    hide WasDue, Rostered;
  }

  lemma QuietThen(fx: seq<Effect>, o: Out)
    requires NobodyYields(fx) && Rightly(o)
    ensures Rightly(Out(o.w, fx + o.fx))
  {
    hide WasDue, Rostered;
    forall x | Rostered(o.w) && x in fx + o.fx && TakesBack(x) ensures WasDue(o.w, x.device, x.command) {
      if x in fx {
        NotAmong(fx, x);
      }
    }
  }

  lemma DueLater(a: World, b: World, id: Id, c: Command)
    requires WasDue(a, id, c) && AllMoved(a, b)
    ensures WasDue(b, id, c)
  {
    hide AllMoved, Due;
    var w, cycle :| AllMoved(w, a) && Due(w, cycle, id, c);
    MovedTwice(w, a, b);
  }

  lemma RightlyThen(a: Out, b: Out)
    requires Rightly(a) && Rightly(b) && AllMoved(a.w, b.w)
    ensures Rightly(Out(b.w, a.fx + b.fx))
  {
    hide WasDue, AllMoved, Rostered;
    forall x | Rostered(b.w) && x in a.fx + b.fx && TakesBack(x) ensures WasDue(b.w, x.device, x.command) {
      if x in a.fx {
        MovedRosters(a.w, b.w);
        DueLater(a.w, b.w, x.device, x.command);
      }
    }
  }

  /** Some commands that make nobody give way, and then a retry pass. */
  lemma ThenRetryRightly(fx: seq<Effect>, w: World)
    requires NobodyYields(fx)
    ensures Rightly(Out(Retry(w, None).w, fx + Retry(w, None).fx))
  {
    hide Retry, Rightly, NobodyYields;
    RetryRightly(w);
    QuietThen(fx, Retry(w, None));
  }

  lemma DepartRightly(w: World, id: Id, edges: seq<EdgeRef>)
    requires id in w.trains && w.trains[id].schedule.Some? && edges != []
    ensures Rightly(Depart(w, id, edges))
  {
    hide Extend, Retry, Rightly;
    var t := w.trains[id];
    var placed := Put(w, id, t.(transit := Some(Transit(edges, 0)), limit := Some(edges[0].from)));
    var granted := Extend(placed, id);
    ExtendYieldsNothing(placed, id);
    ThenRetryRightly([Send(id, AssignRoute(t.schedule.value.route, edges))] + granted.fx, granted.w);
  }

  lemma {:induction false} PlanRightly(w: World, id: Id, budget: nat)
    requires id in w.trains
    ensures Rightly(Settled(PlanAndExecute(w, id, budget)))
    decreases budget, 1
  {
    hide Depart, Planner.PlanTransit, Rightly, CanReverseTrain;
    QuietIsRight(w, []);
    var t := w.trains[id];
    if t.schedule.Some? && t.last.Some? {
      var s := t.schedule.value;
      if t.last.value != StopOf(s) {
        RouteRightly(w, id, StopOf(s));
      } else if |s.stops| > 1 {
        AdvanceRightly(w, id, budget);
      } else {
        QuietIsRight(Put(w, id, t.(transit := None, limit := t.last)), []);
      }
    }
  }

  lemma RouteRightly(w: World, id: Id, target: Marker)
    requires id in w.trains && w.trains[id].last.Some? && w.trains[id].schedule.Some?
    ensures Rightly(Route(w, id, target))
  {
    hide Depart, Planner.PlanTransit, Rightly, CanReverseTrain;
    var t := w.trains[id];
    QuietIsRight(w, []);
    QuietIsRight(w, [Publish(Raised(NoPath(id, t.last.value, target)))]);
    QuietIsRight(w, [Publish(Raised(CannotReverse(id, target)))]);
    var plan := Planner.PlanTransit(w.layout, t.last.value, target, HeadingOf(t));
    if plan.Some? && plan.value != [] {
      DepartRightly(w, id, plan.value);
    }
  }

  lemma {:induction false} AdvanceRightly(w: World, id: Id, budget: nat)
    requires id in w.trains
    ensures Rightly(Settled(AdvanceAndReplan(w, id, budget)))
    decreases budget, 0
  {
    hide PlanAndExecute, Rightly;
    QuietIsRight(w, []);
    var t := w.trains[id];
    if t.schedule.Some? {
      var s := Next(t.schedule.value);
      var moved := Put(w, id, t.(schedule := Some(s)));
      QuietIsRight(moved, []);
      if budget > 0 {
        PlanRightly(moved, id, budget - 1);
        PrefixRightly([Show(ScheduleOf(id, Some(s)))], PlanAndExecute(moved, id, budget - 1));
      }
    }
  }

  lemma PrefixRightly(fx: seq<Effect>, a: Attempt)
    requires NobodyYields(fx) && Rightly(Settled(a))
    ensures Rightly(Settled(Prefixed(fx, a)))
  {
    hide Rightly, NobodyYields;
    match a
    case Returned(o) => QuietThen(fx, o);
    case Threw(_) =>
  }

  lemma ResumeRightly(w: World, id: Id)
    requires id in w.trains
    ensures Rightly(Settled(Resume(w, id)))
  {
    hide PlanAndExecute, Retry, Rightly, AllMoved;
    RetryRightly(w);
    PlanRightly(w, id, w.stack);
    var a := PlanAndExecute(w, id, w.stack);
    if a.Returned? {
      RetryRightly(a.out.w);
      RetryMoves(a.out.w, None);
      RightlyThen(a.out, Retry(a.out.w, None));
    }
  }

  lemma PassRightly(w: World, id: Id, m: Marker, now: real)
    requires id in w.trains
    ensures Rightly(Pass(w, id, m, now))
  {
    hide Extend, Retry, Discovering, Arrive, Rightly, Completed, RecordTraversal;
    var t, t' := w.trains[id], Arrive(w.trains[id], m, now);
    var released := Out(Put(w, id, t'), if |t'.held| != |t.held| then [ClearanceOf(id, t')] else []);
    var e := Completed(t.last, m);
    var learned := Discover(released.w, e, id, now);
    var told := Out(learned.w, [Publish(MarkerTraversed(id, m, Discovering(learned.w.layout, e), e))]);
    var granted := Extend(told.w, id);
    ExtendYieldsNothing(told.w, id);
    ThenRetryRightly(((released.fx + learned.fx) + told.fx) + granted.fx, granted.w);
  }

  lemma EnterRightly(w: World, id: Id, m: Marker)
    requires id in w.trains
    ensures Rightly(EnterZone(w, id, m))
  {
    hide Retry, Rightly;
    var t := w.trains[id];
    var t' := t.(inZone := Some(m), transit := None, zoneEntry := t.current, current := None, limit := Some(m),
                 held := []);
    ThenRetryRightly(if |t.held| > 0 then [ClearanceOf(id, t')] else [], Put(w, id, t'));
  }

  lemma MarkerRightly(w: World, id: Id, m: Marker, now: real)
    requires !HoldsUp(w, id, m)
    ensures Rightly(AtMarker(w, id, m, now))
  {
    hide Violates, EntersZone, EnterZone, Pass, Rightly, HasIncidentEdges, HoldsEdge, Edges;
    QuietIsRight(w, []);
    if id in w.trains && w.trains[id].inZone.None? {
      EnterRightly(Put(w, id, w.trains[id].(last := Some(m), zoneEntry := None)), id, m);
      PassRightly(w, id, m, now);
    }
  }

  lemma StatusRightly(w: World, id: Id, on: Option<EdgeRef>, distance: Option<real>, now: real)
    ensures Rightly(Status(w, id, on, distance, now))
  {
    hide AdvanceAndReplan, Retry, ClearedByTail, Rightly;
    QuietIsRight(w, []);
    if id in w.trains {
      var t := Seeded(w.trains[id], on);
      var w1 := Put(w, id, t);
      QuietIsRight(w1, []);
      AdvanceRightly(Put(w1, id, t.(dwellUntil := None)), id, w.stack);
      if on.Some? && distance.Some? {
        var t' := t.(held := Release(t.held, HeldSet(ClearedByTail(w.layout, t, on.value, distance.value))));
        ThenRetryRightly([ClearanceOf(id, t')], Put(w1, id, t'));
      }
    }
  }

  lemma ReleaseRightly(w: World, d: Id, zone: Marker, id: Id)
    ensures Rightly(ReleaseFromZone(w, d, zone, id))
  {
    hide AdvanceAndReplan, Retry, Rightly;
    QuietIsRight(w, []);
    QuietIsRight(w, [Publish(Raised(NotZoneOwner(d, zone)))]);
    if id in w.trains {
      var t := w.trains[id].(inZone := None);
      AdvanceRightly(Put(w, id, t), id, w.stack);
      RetryRightly(Put(w, id, t));
    }
  }

  lemma AssignRightly(w: World, id: Id, route: string, stops: seq<Marker>)
    ensures Rightly(Assign(w, id, route, stops))
  {
    hide PlanAndExecute, UnknownStopsOf, Rightly;
    QuietIsRight(w, []);
    QuietIsRight(w, [Publish(Raised(UnknownStops(id, UnknownStopsOf(w.layout, stops))))]);
    if id in w.trains && stops != [] {
      var t := Assigned(w.trains[id], route, stops);
      PlanRightly(Put(w, id, t), id, w.stack);
      PrefixRightly([Show(ScheduleOf(id, t.schedule))], PlanAndExecute(Put(w, id, t), id, w.stack));
    }
  }

  /** Besides the operator's own command, a revocation takes nothing back. */
  lemma RevokeRightly(w: World, id: Id)
    ensures forall x <- RevokeTrain(w, id).fx :: TakesBack(x) ==> x == Send(id, RevokeClearance(Admin))
  {
    hide Retry;
    if id in w.trains {
      var t := w.trains[id];
      var t' := t.(held := [], limit := if t.last.Some? then t.last else t.limit, blocked := false);
      SkippingPassYieldsNothing(Put(w, id, t'), {id});
    }
  }

  lemma RecoveryRightly(w: World, fx: seq<Effect>, id: Id)
    requires id in w.trains && NobodyYields(fx)
    ensures Rightly(Settled(Prefixed(fx, Resume(w, id))))
  {
    hide Resume, Rightly;
    ResumeRightly(w, id);
    PrefixRightly(fx, Resume(w, id));
  }

  lemma RecoveriesRightly(w: World, i: Input)
    requires i.Reanchor? || i.ConfirmNewTrack?
    ensures Rightly(Step(w, i))
  {
    hide Resume, Rightly, Uncertain, AddInferredEdge;
    QuietIsRight(w, []);
    if i.train in w.trains {
      if i.Reanchor? {
        var t := Recovered(w.trains[i.train], i.marker);
        RecoveryRightly(Put(w, i.train, t), [ClearanceOf(i.train, t)], i.train);
      } else if Uncertain(w.layout, w.trains[i.train].held).Some? {
        var e := Uncertain(w.layout, w.trains[i.train].held).value;
        var l := AddInferredEdge(w.layout, e.from, e.to);
        var t := Recovered(w.trains[i.train], e.to);
        RecoveryRightly(Put(w.(layout := l), i.train, t), [ShowLayout(l), ClearanceOf(i.train, t)], i.train);
      }
    }
  }

  lemma HooksRightly(w: World, i: Input)
    requires i.GateChanged? || i.ZoneChanged? || i.OtherEvent? || i.SwitchChanged?
    ensures Rightly(Step(w, i))
  {
    hide Retry, Rightly, GateHooks, ZoneHooks;
    forall v ensures Rightly(Retry(v, None)) {
      RetryRightly(v);
    }
    match i
    case SwitchChanged(j, p, confirmed) =>
      QuietIsRight(w, [Publish(Raised(UnknownJunction(j)))]);
      QuietIsRight(w, [Show(SwitchOf(j, p, confirmed))]);
      ThenRetryRightly([Show(SwitchOf(j, p, confirmed))], Confirm(w, j, p));
    case ZoneChanged(d, z) => QuietIsRight(w.(zoneBounds := w.zoneBounds[z.marker := d]), []);
    case _ => QuietIsRight(w, []);
  }

  lemma {:induction false} NoticesYieldNothing(d: Id, caps: seq<Capability>)
    ensures NobodyYields(DropNotices(d, caps))
  {
    if caps == [] {
    } else {
      NoticesYieldNothing(d, caps[1..]);
    }
  }

  lemma ForgetRightly(w: World, d: Id)
    ensures Rightly(ForgetDevice(w, d))
  {
    hide Retry, Rightly, DropNotices, RemoveTrain;
    QuietIsRight(w, []);
    if d in w.devices {
      var w1 := w.(devices := w.devices - {d});
      var told := DropNotices(d, w.devices[d].caps) + [Show(DeviceGone(d))];
      NoticesYieldNothing(d, w.devices[d].caps);
      ThenRetryRightly(told + [], w1);
      ThenRetryRightly(told + [Show(Clearance(d, [], false)), Show(ScheduleOf(d, None))], RemoveTrain(w1, d));
    }
  }

  lemma {:induction false} OwningYieldsNothing(w: World, d: Id, owned: seq<Marker>)
    ensures NobodyYields(OwnMarkers(w, d, owned).fx)
    decreases |owned|
  {
    if owned == [] {
    } else {
      OwningYieldsNothing(w, d, owned[1..]);
      OwningYieldsNothing(w.(zoneOwned := w.zoneOwned[owned[0] := d]), d, owned[1..]);
    }
  }

  lemma RegisterRightly(w: World, d: Id, r: Registration)
    ensures Rightly(Register(w, d, r))
  {
    hide OwnMarkers, InitTrain, UnknownOnes, Rightly;
    var w1 := w.(devices := w.devices[d := Device(r.caps, [], [])]);
    var w2 := if ControlsMotion in r.caps then InitTrain(w1, d, r) else w1;
    OwningYieldsNothing(w2, d, r.owned);
    var o := Register(w, d, r);
    QuietIsRight(o.w, o.fx);
  }

  lemma QuietRightly(w: World, i: Input)
    requires (i.TagAssigned? || i.LengthChanged? || i.ClearanceRequested? || i.TagObserved?) && !HoldingReport(w, i)
    ensures Rightly(Step(w, i))
  {
    hide TryGrant, Missing, UpsertMarker, AtMarker, Rightly;
    var o := Step(w, i);
    match i
    case TagObserved(d, tag, now) =>
      if LayoutRuns.IsReport(w, i) {
        MarkerRightly(w, d, w.tags[tag].target, now);
      } else {
        QuietIsRight(o.w, o.fx);
      }
    case ClearanceRequested(id, e) =>
      if id in w.trains {
        TryGrantYieldsNothing(w, id, e);
      }
      QuietIsRight(o.w, o.fx);
    case _ => QuietIsRight(o.w, o.fx);
  }

  /** Whatever happens, apart from topology holds and the operator's own command, only trains for which it is due. */
  lemma StepRightly(w: World, i: Input)
    requires !HoldingReport(w, i) && !i.Revoke?
    ensures Rightly(Step(w, i))
  {
    hide Step, Rightly, HoldingReport;
    if i.TagAssigned? || i.LengthChanged? || i.ClearanceRequested? || i.TagObserved? {
      QuietRightly(w, i);
    } else if i.GateChanged? || i.ZoneChanged? || i.OtherEvent? || i.SwitchChanged? {
      HooksRightly(w, i);
    } else if i.Reanchor? || i.ConfirmNewTrack? {
      RecoveriesRightly(w, i);
    } else {
      RestRightly(w, i);
    }
  }

  /** The two commands that take clearance back without a standoff. */
  predicate ByHoldOrOperator(w: World, i: Input, x: Effect) {
    || (HoldingReport(w, i) && x == Send(i.device, RevokeClearance(UnknownTopology)))
    || (i.Revoke? && x == Send(i.train, RevokeClearance(Admin)))
  }

  lemma StepTakesBack(w: World, i: Input, x: Effect)
    requires Rostered(Step(w, i).w) && x in Step(w, i).fx && TakesBack(x)
    ensures ByHoldOrOperator(w, i, x) || WasDue(Step(w, i).w, x.device, x.command)
  {
    hide Step, Rightly, Rostered, HoldsUp;
    if i.Revoke? {
      OperatorTakesBack(w, i, x);
    } else if HoldingReport(w, i) {
      HoldTakesBack(w, i, x);
    } else {
      StepRightly(w, i);
      RightlyMeans(Step(w, i), x);
    }
  }

  lemma OperatorTakesBack(w: World, i: Input, x: Effect)
    requires i.Revoke? && x in Step(w, i).fx && TakesBack(x)
    ensures ByHoldOrOperator(w, i, x)
  {
    hide RevokeTrain, HoldingReport;
    RevokeRightly(w, i.train);
  }

  lemma HoldTakesBack(w: World, i: Input, x: Effect)
    requires HoldingReport(w, i) && x in Step(w, i).fx && TakesBack(x)
    ensures ByHoldOrOperator(w, i, x)
  {
    hide Violates, HasIncidentEdges, HoldsEdge, Edges;
    ViolatesHasLast(w, w.trains[i.device], w.tags[i.tag].target);
  }

  lemma RestRightly(w: World, i: Input)
    requires i.DeviceRegistered? || i.DeviceDisconnected? || i.TrainStatus? || i.ZoneReleased? || i.AssignSchedule?
             || i.Forget? || i.Reset?
    ensures Rightly(Step(w, i))
  {
    hide Rightly, Register, ForgetDevice, Status, ReleaseFromZone, Assign, ResetAll;
    match i
    case DeviceRegistered(d, r) => RegisterRightly(w, d, r);
    case DeviceDisconnected(d) => ForgetRightly(w, d);
    case TrainStatus(id, on, distance, now) => StatusRightly(w, id, on, distance, now);
    case ZoneReleased(d, zone, id) => ReleaseRightly(w, d, zone, id);
    case AssignSchedule(id, route, stops) => AssignRightly(w, id, route, stops);
    case Forget(d) => ForgetRightly(w, d);
    case Reset => ResetRightly(w);
  }

  lemma ResetRightly(w: World)
    ensures Rightly(ResetAll(w))
  {
    hide Rightly, Load;
    QuietIsRight(ResetAll(w).w, []);
  }

  // ---------- over whole runs ----------

  /** A command to give way that is due by what the trains announced. */
  ghost predicate DueBy(inputs: seq<Input>, w: World, cycle: seq<Id>, id: Id, c: Command) {
    && IsStandoff(w.trains, cycle) && id in cycle && (c == RevokeClearance(DeadlockYield) || c.GrantReverse?)
    && (c.RevokeClearance? ==> forall o <- cycle :: o != id ==> Outranks(inputs, o, id))
    && (c.GrantReverse? ==>
          && YieldStep(w, cycle).None? && CanRetreat(w, cycle, id, Plan(c.limit, c.edges))
          && forall o, plan :: o in cycle && Outranks(inputs, id, o) ==> !CanRetreat(w, cycle, o, plan))
  }

  lemma DueByAnnouncement(inputs: seq<Input>, w: World, cycle: seq<Id>, id: Id, c: Command)
    requires Agrees(inputs, w) && Due(w, cycle, id, c)
    ensures DueBy(inputs, w, cycle, id, c)
  {
    hide Agrees, Outranks, Before, IsStandoff, CanRetreat, YieldStep;
    forall o | o in cycle
      ensures o in w.trains && (Before(w.trains, o, id) <==> Outranks(inputs, o, id))
              && (Before(w.trains, id, o) <==> Outranks(inputs, id, o))
    {
      MembersWait(w.trains, cycle, o);
      BeforeIsOutranks(inputs, w, o, id);
      BeforeIsOutranks(inputs, w, id, o);
    }
  }

  /**
   * In every run, clearance is taken back only by a topology hold, by the operator, or where it is due: a train is told
   * to yield only in a standoff whose other members all announced a higher priority, or the same and joined earlier;
   * and to reverse only if that train could not yield, along a safe retreat, when no member it outranks had one.
   * Between that standoff and the end of the input only passes moved trains.
   */
  lemma GivingWayInEveryRun(l: Layout, stack: nat, inputs: seq<Input>, i: Input, x: Effect)
    requires x in Step(Run(Fresh(l, stack), inputs).w, i).fx && TakesBack(x)
    ensures var w := Run(Fresh(l, stack), inputs).w;
            || ByHoldOrOperator(w, i, x)
            || exists v, cycle :: AllMoved(v, Step(w, i).w) && DueBy(inputs + [i], v, cycle, x.device, x.command)
  {
    hide Step, Agrees, DevicesAgree, AllMoved, Due, DueBy, Run, Rostered, ByHoldOrOperator;
    var w := Run(Fresh(l, stack), inputs).w;
    RunAgrees(l, stack, inputs);
    StepAgrees(inputs, w, i);
    AgreesRosters(inputs + [i], Step(w, i).w);
    StepTakesBack(w, i, x);
    if !ByHoldOrOperator(w, i, x) {
      var v, cycle :| AllMoved(v, Step(w, i).w) && Due(v, cycle, x.device, x.command);
      AgreesBefore(inputs + [i], v, Step(w, i).w);
      DueByAnnouncement(inputs + [i], v, cycle, x.device, x.command);
    }
  }

  lemma RightlyMeans(o: Out, x: Effect)
    requires Rightly(o) && Rostered(o.w) && x in o.fx && TakesBack(x)
    ensures WasDue(o.w, x.device, x.command)
  {
  }
}
