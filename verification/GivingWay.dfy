/**
 * What one input may do to a train it is not about: grant it more, or make it give way in a standoff. Which of
 * the two it was can be read off the commands sent.
 */
module GivingWay {
  import opened Rail
  import opened LayoutModel
  import opened World
  import opened Clearance
  import opened Ranking
  import opened Standoff
  import opened Handlers
  import opened Frames
  import Planner
  import HandlerPlays

  /** A command that takes clearance back in a standoff. */
  predicate Yields(x: Effect, id: Id) {
    x.Send? && x.device == id && (x.command == RevokeClearance(DeadlockYield) || x.command.GrantReverse?)
  }

  /** The train was told to yield or to reverse. */
  predicate GaveWay(id: Id, fx: seq<Effect>) {
    exists x <- fx :: Yields(x, id)
  }

  // ---------- who gives way in one pass ----------

  /** The train a detected standoff makes give way, if there is one. */
  function Chosen(w: World): Option<Id> {
    var cycle := Detect(w.order, w.trains);
    if cycle.None? then None
    else
      var yielded := YieldStep(w, cycle.value);
      if yielded.Some? then Some(yielded.value.0)
      else
        var reversed := ReverseStep(w, cycle.value);
        if reversed.Some? then Some(reversed.value.0) else None
  }

  /** A command that takes clearance back, or turns the train round. */
  predicate TakesBack(x: Effect) {
    x.Send? && (x.command.RevokeClearance? || x.command.GrantReverse?)
  }

  /** No train has clearance taken back. */
  ghost predicate NobodyYields(fx: seq<Effect>) {
    forall x <- fx :: !TakesBack(x)
  }

  lemma {:induction false} WalkYieldsNothing(w: World, id: Id, edges: seq<EdgeRef>, i: nat, granted: nat, ms: real)
    requires id in w.trains
    ensures NobodyYields(Walk(w, id, edges, i, granted, ms).fx)
    decreases |edges| - i
  {
    hide Conflicts, SwitchMismatch, Denied, HasGrant, EdgeMs, HoldsEdge, Required, Edges;
    if i < |edges| && !HorizonSatisfied(granted, ms) {
      var e := edges[i];
      var more := ms + EdgeMs(w.layout, id, e);
      if HoldsEdge(w.trains[id].held, e) {
        WalkYieldsNothing(w, id, edges, i + 1, granted + 1, more);
      } else {
        TryGrantYieldsNothing(w, id, e);
        hide TryGrant;
        var g := TryGrant(w, id, e);
        if HasGrant(g.fx) {
          WalkYieldsNothing(g.w, id, edges, i + 1, granted + 1, more);
        }
      }
    }
  }

  lemma TryGrantYieldsNothing(w: World, id: Id, e: EdgeRef)
    requires id in w.trains
    ensures NobodyYields(TryGrant(w, id, e).fx)
  {
    hide Conflicts, SwitchMismatch, Denied, Required, Edges;
  }

  lemma ExtendYieldsNothing(w: World, id: Id)
    requires id in w.trains
    ensures NobodyYields(Extend(w, id).fx)
  {
    hide Walk, NobodyYields;
    var transit := w.trains[id].transit;
    NothingYields();
    if transit.Some? {
      WalkYieldsNothing(w, id, transit.value.edges, transit.value.progress, 0, 0.0);
    }
  }

  lemma NothingYields()
    ensures NobodyYields([])
  {
  }

  lemma BothYieldNothing(a: seq<Effect>, b: seq<Effect>)
    requires NobodyYields(a) && NobodyYields(b)
    ensures NobodyYields(a + b)
  {
  }

  lemma {:induction false} PassYieldsNothing(w: World, ids: seq<Id>, skip: set<Id>)
    requires forall i <- ids :: i in w.trains
    ensures NobodyYields(RetryEach(w, ids, skip).fx)
    decreases |ids|
  {
    hide Extend, NobodyYields;
    NothingYields();
    if ids == [] {
    } else if ids[0] in skip {
      PassYieldsNothing(w, ids[1..], skip);
    } else {
      var first := Extend(w, ids[0]);
      ExtendYieldsNothing(w, ids[0]);
      PassYieldsNothing(first.w, ids[1..], skip);
      BothYieldNothing(first.fx, RetryEach(first.w, ids[1..], skip).fx);
    }
  }

  lemma EmitYieldsNothing(w: World, cycle: Option<seq<Id>>)
    ensures NobodyYields(EmitDeadlock(w, cycle).fx)
  {
    hide SortText;
  }

  lemma SkippingPassYieldsNothing(w: World, skip: set<Id>)
    ensures NobodyYields(Retry(w, Some(skip)).fx)
  {
    hide RetryEach, NobodyYields, EmitDeadlock, Detect;
    var pass := RetryEach(w, Ordered(w), skip);
    PassYieldsNothing(w, Ordered(w), skip);
    EmitYieldsNothing(pass.w, Detect(pass.w.order, pass.w.trains));
    BothYieldNothing(pass.fx, Resolve(pass.w, Some(skip)).fx);
  }

  /** The first step of giving way: one command, to the train whose record changes. */
  ghost predicate OneGives(w: World, id: Id, gave: Out) {
    && id in w.trains && id in gave.w.trains && gave.w.trains == w.trains[id := gave.w.trains[id]]
    && forall o :: GaveWay(o, gave.fx) <==> o == id
  }

  lemma YieldTells(w: World, cycle: seq<Id>)
    requires YieldStep(w, cycle).Some?
    ensures OneGives(w, YieldStep(w, cycle).value.0, YieldStep(w, cycle).value.1)
  {
    hide LowestOf, PeerWanted, Yieldable, TouchesAny;
    var (id, gave) := YieldStep(w, cycle).value;
    assert Yields(gave.fx[0], id);
  }

  lemma ReverseTells(w: World, cycle: seq<Id>)
    requires ReverseStep(w, cycle).Some?
    ensures OneGives(w, ReverseStep(w, cycle).value.0, ReverseStep(w, cycle).value.1)
  {
    hide ReverseFirst, Candidates;
    var (id, gave) := ReverseStep(w, cycle).value;
    assert Yields(gave.fx[0], id);
  }

  lemma RegrantTells(w: World, id: Id, gave: Out)
    requires OneGives(w, id, gave)
    ensures forall o :: GaveWay(o, Regrant(id, gave).fx) <==> o == id
    ensures forall o :: o in w.trains && o != id
              ==> o in Regrant(id, gave).w.trains && Grew(w.trains[o], Regrant(id, gave).w.trains[o])
  {
    hide Retry, GrewAll;
    SkippingPassYieldsNothing(gave.w, {id});
    SkippingPassGrows(gave.w, {id});
    var again := Retry(gave.w, Some({id}));
    forall o ensures GaveWay(o, gave.fx + again.fx) <==> GaveWay(o, gave.fx) {
      TellsTogether(o, gave.fx, again.fx);
    }
    OthersGrew(w, id, gave.w, again.w);
  }

  lemma OthersGrew(w: World, id: Id, gave: World, w': World)
    requires id in gave.trains && gave.trains == w.trains[id := gave.trains[id]] && GrewAll(gave, w', {id})
    ensures forall o :: o in w.trains && o != id ==> o in w'.trains && Grew(w.trains[o], w'.trains[o])
  {
    hide Grew;
  }

  lemma TellsTogether(id: Id, a: seq<Effect>, b: seq<Effect>)
    ensures GaveWay(id, a + b) <==> GaveWay(id, a) || GaveWay(id, b)
  {
    if x :| x in a && Yields(x, id) {
      assert x in a + b;
    }
    if x :| x in b && Yields(x, id) {
      assert x in a + b;
    }
  }

  /** A train went through a stretch of handling with at most more held than before, or was told to give way. */
  ghost predicate Spared(id: Id, w: World, o: Out) {
    && id in w.trains && id in o.w.trains
    && (Grew(w.trains[id], o.w.trains[id]) || GaveWay(id, o.fx))
  }

  lemma ResolveTells(w: World, id: Id)
    requires id in w.trains
    ensures Spared(id, w, Resolve(w, None)) && (GaveWay(id, Resolve(w, None).fx) <==> Chosen(w) == Some(id))
  {
    hide Detect, YieldStep, ReverseStep, EmitDeadlock, OneGives, Regrant, Grew, GaveWay;
    var cycle := Detect(w.order, w.trains);
    EmitSpares(w, cycle, id);
    if cycle.Some? {
      if YieldStep(w, cycle.value).Some? {
        YieldTells(w, cycle.value);
        RegrantSpares(w, YieldStep(w, cycle.value).value.0, YieldStep(w, cycle.value).value.1, id);
      } else if ReverseStep(w, cycle.value).Some? {
        ReverseTells(w, cycle.value);
        RegrantSpares(w, ReverseStep(w, cycle.value).value.0, ReverseStep(w, cycle.value).value.1, id);
      }
    }
  }

  lemma EmitSpares(w: World, cycle: Option<seq<Id>>, id: Id)
    requires id in w.trains
    ensures Spared(id, w, EmitDeadlock(w, cycle)) && !GaveWay(id, EmitDeadlock(w, cycle).fx)
  {
    hide SortText;
    EmitYieldsNothing(w, cycle);
  }

  lemma RegrantSpares(w: World, chosen: Id, gave: Out, id: Id)
    requires OneGives(w, chosen, gave) && id in w.trains
    ensures Spared(id, w, Regrant(chosen, gave)) && (GaveWay(id, Regrant(chosen, gave).fx) <==> chosen == id)
  {
    hide Regrant, Grew, GaveWay;
    RegrantTells(w, chosen, gave);
    assert id == chosen ==> id in Regrant(chosen, gave).w.trains by {
      RegrantHasAll(gave, chosen);
    }
  }

  lemma RegrantHasAll(gave: Out, id: Id)
    ensures Regrant(id, gave).w.trains.Keys == gave.w.trains.Keys
  {
    hide Retry, Grew;
    SkippingPassGrows(gave.w, {id});
  }

  /** In a retry pass a train only gains, unless it is the one chosen to give way; and then it is told so. */
  lemma RetrySpares(w: World, id: Id)
    requires id in w.trains
    ensures Spared(id, w, Retry(w, None)) && (GaveWay(id, Retry(w, None).fx) <==> Chosen(ServedAll(w)) == Some(id))
  {
    hide RetryEach, Resolve, Grew, GaveWay, Chosen, Ordered;
    var pass := RetryEach(w, Ordered(w), {});
    PassSpares(w, id);
    ResolveTells(pass.w, id);
    TellsTogether(id, pass.fx, Resolve(pass.w, None).fx);
    ThenSpared(id, w, pass, Resolve(pass.w, None));
  }

  lemma PassSpares(w: World, id: Id)
    requires id in w.trains
    ensures var pass := RetryEach(w, Ordered(w), {});
            id in pass.w.trains && Grew(w.trains[id], pass.w.trains[id]) && !GaveWay(id, pass.fx)
  {
    hide RetryEach, Grew, Ordered;
    RetryEachGrows(w, Ordered(w), {});
    PassYieldsNothing(w, Ordered(w), {});
  }

  lemma ThenSpared(id: Id, w: World, a: Out, b: Out)
    requires Spared(id, w, a) && Spared(id, a.w, b)
    ensures Spared(id, w, Then(a, b))
  {
    hide Grew, GaveWay;
    TellsTogether(id, a.fx, b.fx);
    if Grew(w.trains[id], a.w.trains[id]) && Grew(a.w.trains[id], b.w.trains[id]) {
      GrewTwice(w.trains[id], a.w.trains[id], b.w.trains[id]);
    }
  }

  lemma SameSpared(id: Id, w: World, o: Out)
    requires id in w.trains && id in o.w.trains && o.w.trains[id] == w.trains[id]
    ensures Spared(id, w, o)
  {
  }

  /** A change that leaves the train's record alone, and then a retry pass. */
  lemma ThenRetrySpared(id: Id, w: World, first: Out)
    requires id in w.trains && id in first.w.trains && first.w.trains[id] == w.trains[id]
    ensures Spared(id, w, Then(first, Retry(first.w, None))) && Spared(id, w, Retry(first.w, None))
  {
    hide Retry, Grew, GaveWay;
    SameSpared(id, w, first);
    RetrySpares(first.w, id);
    ThenSpared(id, w, first, Retry(first.w, None));
  }

  lemma ExtendSpares(id: Id, w: World, o: Id)
    requires id in w.trains && o in w.trains
    ensures Spared(id, w, Extend(w, o)) && Grew(w.trains[id], Extend(w, o).w.trains[id])
  {
    hide Extend, Grew;
    ExtendGrows(w, o, {});
  }

  // ---------- planning for another train ----------

  lemma DepartSpares(id: Id, w: World, o: Id, edges: seq<EdgeRef>)
    requires id in w.trains && o in w.trains && o != id && w.trains[o].schedule.Some? && edges != []
    ensures Spared(id, w, Depart(w, o, edges))
  {
    hide Extend, Retry, Grew, GaveWay;
    var t := w.trains[o];
    var placed := Put(w, o, t.(transit := Some(Transit(edges, 0)), limit := Some(edges[0].from)));
    var first := Out(placed, [Send(o, AssignRoute(t.schedule.value.route, edges))]);
    SameSpared(id, w, first);
    ExtendSpares(id, placed, o);
    ThenSpared(id, w, first, Extend(placed, o));
    RetrySpares(Extend(placed, o).w, id);
    ThenSpared(id, w, Then(first, Extend(placed, o)), Retry(Extend(placed, o).w, None));
  }

  lemma RouteSpares(id: Id, w: World, o: Id, target: Marker)
    requires id in w.trains && o in w.trains && o != id && w.trains[o].last.Some? && w.trains[o].schedule.Some?
    ensures Spared(id, w, Route(w, o, target))
  {
    hide Depart, Planner.PlanTransit, Spared;
    var plan := Planner.PlanTransit(w.layout, w.trains[o].last.value, target, HeadingOf(w.trains[o]));
    if plan.Some? && plan.value != [] && !(target in w.zoneBounds && !CanReverseTrain(w, o)) {
      DepartSpares(id, w, o, plan.value);
    } else {
      SameSpared(id, w, Route(w, o, target));
    }
  }

  lemma PrefixSpares(id: Id, w: World, first: Out, a: Attempt)
    requires id in w.trains && id in first.w.trains && first.w.trains[id] == w.trains[id]
             && Spared(id, first.w, Settled(a))
    ensures Spared(id, w, Settled(Prefixed(first.fx, a)))
  {
    hide Grew, GaveWay;
    SameSpared(id, w, first);
    ThenSpared(id, w, first, Settled(a));
  }

  lemma {:induction false} PlanSpares(id: Id, w: World, o: Id, budget: nat)
    requires id in w.trains && o in w.trains && o != id
    ensures Spared(id, w, Settled(PlanAndExecute(w, o, budget)))
    decreases budget, 1
  {
    hide Route, Spared;
    SameSpared(id, w, Out(w, []));
    var t := w.trains[o];
    if t.schedule.Some? && t.last.Some? {
      if t.last.value != StopOf(t.schedule.value) {
        RouteSpares(id, w, o, StopOf(t.schedule.value));
      } else if |t.schedule.value.stops| == 1 {
        SameSpared(id, w, Out(Put(w, o, t.(transit := None, limit := t.last)), []));
      } else {
        AdvanceSpares(id, w, o, budget);
      }
    }
  }

  lemma {:induction false} AdvanceSpares(id: Id, w: World, o: Id, budget: nat)
    requires id in w.trains && o in w.trains && o != id
    ensures Spared(id, w, Settled(AdvanceAndReplan(w, o, budget)))
    decreases budget, 0
  {
    hide PlanAndExecute, Spared;
    SameSpared(id, w, Out(w, []));
    var t := w.trains[o];
    if t.schedule.Some? {
      var s := Next(t.schedule.value);
      var moved := Put(w, o, t.(schedule := Some(s)));
      SameSpared(id, w, Out(moved, []));
      if budget > 0 {
        PlanSpares(id, moved, o, budget - 1);
        PrefixSpares(id, w, Out(moved, [Show(ScheduleOf(o, Some(s)))]), PlanAndExecute(moved, o, budget - 1));
      }
    }
  }

  /** Planning after a change that leaves the train's record alone. */
  lemma ThenAdvanceSpared(id: Id, w: World, w1: World, o: Id)
    requires id in w.trains && id in w1.trains && w1.trains[id] == w.trains[id] && o in w1.trains && o != id
    ensures Spared(id, w, Settled(AdvanceAndReplan(w1, o, w.stack)))
  {
    hide AdvanceAndReplan, Spared;
    AdvanceSpares(id, w1, o, w.stack);
    Carried(id, w, w1, Settled(AdvanceAndReplan(w1, o, w.stack)));
  }

  lemma Carried(id: Id, w: World, w1: World, o: Out)
    requires id in w.trains && id in w1.trains && w1.trains[id] == w.trains[id] && Spared(id, w1, o)
    ensures Spared(id, w, o)
  {
  }

  lemma ResumeSpares(id: Id, w: World, o: Id)
    requires id in w.trains && o in w.trains && o != id
    ensures Spared(id, w, Settled(Resume(w, o)))
  {
    hide PlanAndExecute, Retry, Spared;
    ThenRetrySpared(id, w, Out(w, []));
    if w.trains[o].schedule.Some? {
      PlanSpares(id, w, o, w.stack);
      var a := PlanAndExecute(w, o, w.stack);
      if a.Returned? {
        HasIt(id, w, a.out);
        RetrySpares(a.out.w, id);
        ThenSpared(id, w, a.out, Retry(a.out.w, None));
      }
    }
  }

  lemma HasIt(id: Id, w: World, o: Out)
    requires Spared(id, w, o)
    ensures id in w.trains && id in o.w.trains
  {
  }

  // ---------- every input about somebody else ----------

  /** The input is about this train: it reports of it, commands it, or registers or removes it. */
  predicate About(i: Input, id: Id) {
    match i
    case DeviceRegistered(d, _) => d == id
    case DeviceDisconnected(d) => d == id
    case TagObserved(d, _, _) => d == id
    case TrainStatus(train, _, _, _) => train == id
    case LengthChanged(_, train, _) => train == id
    case ZoneReleased(_, _, train) => train == id
    case AssignSchedule(train, _, _) => train == id
    case Revoke(train) => train == id
    case Reanchor(train, _) => train == id
    case ConfirmNewTrack(train) => train == id
    case Forget(d) => d == id
    case Reset => true
    case _ => false
  }

  lemma EnlistingSpares(id: Id, w: World, d: Id, priority: real)
    requires id in w.trains && d != id
    ensures var w' := Enlist(w, d, priority); d in w'.trains && id in w'.trains && w'.trains[id] == w.trains[id]
  {
  }

  lemma EnrollingSpares(id: Id, w: World, d: Id, r: Registration)
    requires id in w.trains && d != id
    ensures id in InitTrain(w, d, r).trains && InitTrain(w, d, r).trains[id] == w.trains[id]
  {
    hide Enlist;
    EnlistingSpares(id, w, d, if r.priority.Some? then r.priority.value else 0.0);
  }

  lemma OwningSpares(w: World, d: Id, owned: seq<Marker>, controls: Option<Marker>)
    ensures OwnMarkers(w, d, owned).w.trains == w.trains && PairSwitch(w, d, controls).w.trains == w.trains
  {
    HandlerPlays.OwnMarkersQuiet(w, d, owned);
  }

  lemma RegisterSpares(id: Id, w: World, d: Id, r: Registration)
    requires id in w.trains && d != id
    ensures Spared(id, w, Register(w, d, r))
  {
    hide UnknownOnes, OwnMarkers, PairSwitch, InitTrain, Spared;
    if UnknownOnes(r.caps) == [] {
      var w1 := w.(devices := w.devices[d := Device(r.caps, [], [])]);
      EnrollingSpares(id, w1, d, r);
      var w2 := if ControlsMotion in r.caps then InitTrain(w1, d, r) else w1;
      OwningSpares(w2, d, r.owned, r.controls);
      OwningSpares(if GatesZone in r.caps then OwnMarkers(w2, d, r.owned).w else w2, d, r.owned, r.controls);
    }
    SameSpared(id, w, Register(w, d, r));
  }

  lemma ForgetSpares(id: Id, w: World, d: Id)
    requires id in w.trains && d != id
    ensures Spared(id, w, ForgetDevice(w, d))
  {
    hide Spared, Retry, DropNotices, RemoveId;
    if d !in w.devices {
      SameSpared(id, w, Out(w, []));
    } else {
      var caps := w.devices[d].caps;
      var w1 := w.(devices := w.devices - {d});
      var gone := Out(w1, DropNotices(d, caps) + [Show(DeviceGone(d))]);
      var left :=
        if ControlsMotion in caps
        then Out(RemoveTrain(w1, d), [Show(Clearance(d, [], false)), Show(ScheduleOf(d, None))])
        else Out(w1, []);
      ThenRetrySpared(id, w, Then(gone, left));
    }
  }

  lemma HooksSpare(id: Id, w: World, i: Input)
    requires id in w.trains && (i.GateChanged? || i.ZoneChanged? || i.OtherEvent? || i.SwitchChanged?)
    ensures Spared(id, w, Step(w, i))
  {
    hide Spared, Retry, GateHooks, ZoneHooks;
    SameSpared(id, w, Out(w, []));
    match i
    case GateChanged(d, m, withholding, reason) =>
      if d in w.devices {
        var dev := GateHooks(w.devices[d], w.devices[d].caps, m, withholding, reason);
        ThenRetrySpared(id, w, Out(w.(devices := w.devices[d := dev]), []));
      }
    case ZoneChanged(d, z) =>
      var w1 := w.(zoneBounds := w.zoneBounds[z.marker := d]);
      SameSpared(id, w, Out(w1, []));
      if d in w1.devices {
        ThenRetrySpared(id, w,
                        Out(w1.(devices := w1.devices[d := ZoneHooks(w1.devices[d], w1.devices[d].caps, z)]), []));
      }
    case OtherEvent(d) => ThenRetrySpared(id, w, Out(w, []));
    case SwitchChanged(m, p, confirmed) =>
      SameSpared(id, w, ChangeSwitch(w, m, p, false));
      ThenRetrySpared(id, w, Out(Confirm(w, m, p), [Show(SwitchOf(m, p, true))]));
  }

  lemma PassingSpares(id: Id, w: World, o: Id, m: Marker, now: real)
    requires id in w.trains && o in w.trains && o != id
    ensures Spared(id, w, Pass(w, o, m, now))
  {
    hide Spared, Retry, Extend, Discover, Arrive, Discovering, ClearanceOf;
    var t := w.trains[o];
    var t' := Arrive(t, m, now);
    var released := Out(Put(w, o, t'), if |t'.held| != |t.held| then [ClearanceOf(o, t')] else []);
    var e := Completed(t.last, m);
    var learned := Discover(released.w, e, o, now);
    HandlerPlays.DiscoverQuiet(released.w, e, o, now);
    var told := Out(learned.w, [Publish(MarkerTraversed(o, m, Discovering(learned.w.layout, e), e))]);
    var first := Then(Then(released, learned), told);
    SameSpared(id, w, first);
    ExtendSpares(id, told.w, o);
    ThenSpared(id, w, first, Extend(told.w, o));
    HasIt(id, w, Then(first, Extend(told.w, o)));
    RetrySpares(Extend(told.w, o).w, id);
    ThenSpared(id, w, Then(first, Extend(told.w, o)), Retry(Extend(told.w, o).w, None));
  }

  lemma EnteringSpares(id: Id, w: World, o: Id, m: Marker)
    requires id in w.trains && o in w.trains && o != id
    ensures Spared(id, w, EnterZone(w, o, m))
  {
    hide Spared, Retry, ClearanceOf;
    var t := w.trains[o];
    var t' := t.(inZone := Some(m), transit := None, zoneEntry := t.current, current := None, limit := Some(m),
                 held := []);
    ThenRetrySpared(id, w, Out(Put(w, o, t'), if |t.held| > 0 then [ClearanceOf(o, t')] else []));
  }

  lemma MarkerSpares(id: Id, w: World, o: Id, m: Marker, now: real)
    requires id in w.trains && o != id
    ensures Spared(id, w, AtMarker(w, o, m, now))
  {
    hide Spared, Pass, EnterZone, Violates, EntersZone;
    SameSpared(id, w, Out(w, []));
    if o in w.trains && w.trains[o].inZone.None? {
      var t' := w.trains[o].(last := Some(m), zoneEntry := None);
      if Violates(w, w.trains[o], m) {
        HoldSpares(id, w, o, m, now);
      } else if EntersZone(w, t', m) {
        EnteringSpares(id, Put(w, o, t'), o, m);
        Carried(id, w, Put(w, o, t'), EnterZone(Put(w, o, t'), o, m));
      } else {
        PassingSpares(id, w, o, m, now);
      }
    }
  }

  lemma HoldSpares(id: Id, w: World, o: Id, m: Marker, now: real)
    requires id in w.trains && o in w.trains && o != id && Violates(w, w.trains[o], m)
    ensures Spared(id, w, HoldAt(w, o, m, now))
  {
    hide Spared, HoldsEdge, HasIncidentEdges, ClearanceOf;
    SameSpared(id, w, HoldAt(w, o, m, now));
  }

  lemma StatusSpares(id: Id, w: World, o: Id, on: Option<EdgeRef>, distance: Option<real>, now: real)
    requires id in w.trains && o != id
    ensures Spared(id, w, Status(w, o, on, distance, now))
  {
    hide Spared, Retry, AdvanceAndReplan, ClearedByTail, ClearanceOf;
    SameSpared(id, w, Out(w, []));
    if o in w.trains {
      var t := Seeded(w.trains[o], on);
      var w1 := Put(w, o, t);
      SameSpared(id, w, Out(w1, []));
      ThenAdvanceSpared(id, w, Put(w1, o, t.(dwellUntil := None)), o);
      if on.Some? && distance.Some? {
        var t' := t.(held := Release(t.held, HeldSet(ClearedByTail(w1.layout, t, on.value, distance.value))));
        ThenRetrySpared(id, w, Out(Put(w1, o, t'), [ClearanceOf(o, t')]));
      }
    }
  }

  lemma ReleasingSpares(id: Id, w: World, d: Id, zone: Marker, o: Id)
    requires id in w.trains && o != id
    ensures Spared(id, w, ReleaseFromZone(w, d, zone, o))
  {
    hide Spared, Retry, AdvanceAndReplan;
    SameSpared(id, w, Out(w, []));
    SameSpared(id, w, Out(w, [Publish(Raised(NotZoneOwner(d, zone)))]));
    if o in w.trains {
      var w1 := Put(w, o, w.trains[o].(inZone := None));
      ThenAdvanceSpared(id, w, w1, o);
      ThenRetrySpared(id, w, Out(w1, []));
    }
  }

  lemma AssignSpares(id: Id, w: World, o: Id, route: string, stops: seq<Marker>)
    requires id in w.trains && o != id
    ensures Spared(id, w, Assign(w, o, route, stops))
  {
    hide Spared, PlanAndExecute, UnknownStopsOf, Assigned;
    SameSpared(id, w, Out(w, []));
    SameSpared(id, w, Out(w, [Publish(Raised(UnknownStops(o, UnknownStopsOf(w.layout, stops))))]));
    if o in w.trains && stops != [] {
      var t := Assigned(w.trains[o], route, stops);
      var first := Out(Put(w, o, t), [Show(ScheduleOf(o, t.schedule))]);
      PlanSpares(id, first.w, o, w.stack);
      PrefixSpares(id, w, first, PlanAndExecute(first.w, o, w.stack));
    }
  }

  lemma RevokeSpares(id: Id, w: World, o: Id)
    requires id in w.trains && o != id
    ensures Spared(id, w, RevokeTrain(w, o))
  {
    hide Spared, Retry, ClearanceOf, GrewAll;
    SameSpared(id, w, Out(w, []));
    if o in w.trains {
      var t := w.trains[o];
      var t' := t.(held := [], limit := if t.last.Some? then t.last else t.limit, blocked := false);
      var freed := Out(Put(w, o, t'), [Send(o, RevokeClearance(Admin)), ClearanceOf(o, t')]);
      SameSpared(id, w, freed);
      SkippingPassGrows(freed.w, {o});
      GrewSpares(id, freed.w, Retry(freed.w, Some({o})), {o});
      ThenSpared(id, w, freed, Retry(freed.w, Some({o})));
    }
  }

  lemma GrewSpares(id: Id, w: World, o: Out, except: set<Id>)
    requires id in w.trains && GrewAll(w, o.w, except)
    ensures Spared(id, w, o)
  {
    hide Grew;
  }

  lemma RecoverySpares(id: Id, w: World, o: Id, first: Out)
    requires id in w.trains && id in first.w.trains && first.w.trains[id] == w.trains[id] && o in first.w.trains
             && o != id
    ensures Spared(id, w, Settled(Prefixed(first.fx, Resume(first.w, o))))
  {
    hide Spared, Resume;
    ResumeSpares(id, first.w, o);
    PrefixSpares(id, w, first, Resume(first.w, o));
  }

  lemma ReanchorSpares(id: Id, w: World, o: Id, m: Marker)
    requires id in w.trains && o != id
    ensures Spared(id, w, ReanchorAt(w, o, m))
  {
    hide Spared, Resume, ClearanceOf, Recovered;
    SameSpared(id, w, Out(w, []));
    if o in w.trains {
      var t := Recovered(w.trains[o], m);
      RecoverySpares(id, w, o, Out(Put(w, o, t), [ClearanceOf(o, t)]));
    }
  }

  lemma TrackSpares(id: Id, w: World, o: Id)
    requires id in w.trains && o != id
    ensures Spared(id, w, ConfirmTrack(w, o))
  {
    hide Spared, Resume, Uncertain, ClearanceOf, AddInferredEdge, Recovered;
    SameSpared(id, w, Out(w, []));
    if o in w.trains {
      var e := Uncertain(w.layout, w.trains[o].held);
      if e.Some? {
        var l := AddInferredEdge(w.layout, e.value.from, e.value.to);
        var t := Recovered(w.trains[o], e.value.to);
        RecoverySpares(id, w, o, Out(Put(w.(layout := l), o, t), [ShowLayout(l), ClearanceOf(o, t)]));
      }
    }
  }

  lemma RecoveriesSpare(id: Id, w: World, i: Input)
    requires id in w.trains && (i.Reanchor? || i.ConfirmNewTrack?) && i.train != id
    ensures Spared(id, w, Step(w, i))
  {
    hide Spared, ReanchorAt, ConfirmTrack;
    match i
    case Reanchor(o, m) => ReanchorSpares(id, w, o, m);
    case ConfirmNewTrack(o) => TrackSpares(id, w, o);
  }

  lemma QuietSpares(id: Id, w: World, i: Input)
    requires id in w.trains && (i.TagAssigned? || i.LengthChanged? || i.ClearanceRequested?) && !About(i, id)
    ensures Spared(id, w, Step(w, i))
  {
    hide Spared, TryGrant, Missing, GrewAll, UpsertMarker;
    match i
    case TagAssigned(d, tag, b, kind) => SameSpared(id, w, Step(w, i));
    case LengthChanged(_, _, _) => SameSpared(id, w, Step(w, i));
    case ClearanceRequested(o, e) =>
      if o in w.trains && Missing(w.layout, [e.from, e.to], {}) == [] {
        TryGrantGrows(w, o, e, {});
        GrewSpares(id, w, TryGrant(w, o, e), {});
      } else {
        SameSpared(id, w, Step(w, i));
      }
  }

  lemma TagSpares(id: Id, w: World, d: Id, tag: string, now: real)
    requires id in w.trains && d != id
    ensures Spared(id, w, ObserveTag(w, d, tag, now))
  {
    hide Spared, AtMarker;
    SameSpared(id, w, Out(w, ObserveTag(w, d, tag, now).fx));
    if tag in w.tags && w.tags[tag].ToMarker? {
      MarkerSpares(id, w, d, w.tags[tag].target, now);
    }
  }

  lemma OperatorSpares(id: Id, w: World, i: Input)
    requires id in w.trains && !About(i, id) && (i.AssignSchedule? || i.Revoke? || i.Forget? || i.ZoneReleased?)
    ensures Spared(id, w, Step(w, i))
  {
    hide Spared, Assign, RevokeTrain, ForgetDevice, ReleaseFromZone;
    match i
    case AssignSchedule(o, route, stops) => AssignSpares(id, w, o, route, stops);
    case Revoke(o) => RevokeSpares(id, w, o);
    case Forget(d) => ForgetSpares(id, w, d);
    case ZoneReleased(d, zone, o) => ReleasingSpares(id, w, d, zone, o);
  }

  lemma EventSpares(id: Id, w: World, i: Input)
    requires id in w.trains && !About(i, id)
             && (i.DeviceRegistered? || i.DeviceDisconnected? || i.TagObserved? || i.TrainStatus?)
    ensures Spared(id, w, Step(w, i))
  {
    hide Spared, Register, ForgetDevice, ObserveTag, Status;
    match i
    case DeviceRegistered(d, r) => RegisterSpares(id, w, d, r);
    case DeviceDisconnected(d) => ForgetSpares(id, w, d);
    case TagObserved(d, tag, now) => TagSpares(id, w, d, tag, now);
    case TrainStatus(o, on, distance, now) => StatusSpares(id, w, o, on, distance, now);
  }

  /** Whatever happens around a train, its own record only gains clearance, unless it is told to yield or reverse. */
  lemma OthersSpare(id: Id, w: World, i: Input)
    requires id in w.trains && !About(i, id)
    ensures Spared(id, w, Step(w, i))
  {
    hide Spared, Step;
    if i.GateChanged? || i.ZoneChanged? || i.OtherEvent? || i.SwitchChanged? {
      HooksSpare(id, w, i);
    } else if i.Reanchor? || i.ConfirmNewTrack? {
      RecoveriesSpare(id, w, i);
    } else if i.TagAssigned? || i.LengthChanged? || i.ClearanceRequested? {
      QuietSpares(id, w, i);
    } else if i.AssignSchedule? || i.Revoke? || i.Forget? || i.ZoneReleased? {
      OperatorSpares(id, w, i);
    } else {
      EventSpares(id, w, i);
    }
  }
}
