/** Every handler and operator call except reset is a play, judged by the devices, layout and routes it ends with. */
module HandlerPlays {
  import opened Rail
  import opened LayoutModel
  import opened Gates
  import opened World
  import opened Clearance
  import opened Standoff
  import opened Handlers
  import opened Plays
  import Planner
  import Replanning

  /** A step, then a retry pass, which leaves alone what grants are judged by. */
  lemma ThenRetry(w: World, first: Out, skip: Option<set<Id>>)
    requires Steps(By(first.w), w, first)
    ensures var o := Then(first, Retry(first.w, skip));
            Steps(By(o.w), w, o) && By(o.w) == By(first.w) && o.w.devices == first.w.devices
  {
    RetrySteps(first.w, skip);
    hide Steps, Retry;
    Chain(By(first.w), w, first, Retry(first.w, skip));
  }

  lemma JustRetry(w: World, skip: Option<set<Id>>)
    ensures Steps(By(Retry(w, skip).w), w, Retry(w, skip)) && Retry(w, skip).w.devices == w.devices
  {
    hide Steps, Retry;
    RetrySteps(w, skip);
  }

  /** A change no clearance depends on, without effects, and then more. */
  lemma QuietlyFirst(j: Judge, w: World, w1: World, o: Out)
    requires Quiet(w, [], w1) && Steps(j, w1, o)
    ensures Steps(j, w, o)
  {
    QuietStep(j, w, Out(w1, []));
    Chain(j, w, Out(w1, []), o);
    assert [] + o.fx == o.fx;
  }

  // ---------- devices ----------

  lemma {:induction false} OwnMarkersQuiet(w: World, d: Id, owned: seq<Marker>)
    ensures var o := OwnMarkers(w, d, owned);
            Quiet(w, o.fx, o.w) && o.w.devices == w.devices && o.w.trains == w.trains
    decreases |owned|
  {
    if owned == [] {
    } else {
      OwnMarkersQuiet(w, d, owned[1..]);
      OwnMarkersQuiet(w.(zoneOwned := w.zoneOwned[owned[0] := d]), d, owned[1..]);
    }
  }

  lemma SilentPut(w: World, id: Id, t: Train, fx: seq<Effect>)
    requires id in w.trains && SameHeld(w.trains[id], t) && Harmless(fx)
    ensures Quiet(w, fx, Put(w, id, t))
  {
  }

  /** One train's record changes, but neither what it holds nor its hold. */
  lemma PutQuiet(j: Judge, w: World, id: Id, t: Train, fx: seq<Effect>)
    requires id in w.trains && SameHeld(w.trains[id], t) && Harmless(fx)
    ensures Quiet(w, fx, Put(w, id, t)) && Steps(j, w, Out(Put(w, id, t), fx))
  {
    hide Steps, Quiet, Harmless;
    SilentPut(w, id, t, fx);
    QuietStep(j, w, Out(Put(w, id, t), fx));
  }

  /** One train's record changes, it holds no more than before, and its snapshot says so. */
  lemma PutDrops(j: Judge, w: World, id: Id, t: Train, fx: seq<Effect>)
    requires id in w.trains && (forall h <- t.held :: h in w.trains[id].held) && OnlyShows(fx, ClearanceOf(id, t))
    ensures Steps(j, w, Out(Put(w, id, t), fx))
  {
    assert Drops(w, fx, Put(w, id, t), id) by {
      hide OnlyShows, ClearanceOf;
    }
    hide Steps, Drops;
    DropStep(j, w, Out(Put(w, id, t), fx), id);
  }

  lemma ShowsOnly(x: Effect)
    requires x.Show? && x.snapshot.Clearance?
    ensures OnlyShows([x], x)
  {
  }

  lemma EnlistSteps(j: Judge, w: World, d: Id, priority: real)
    requires d !in w.trains
    ensures Steps(j, w, Out(Enlist(w, d, priority), []))
    ensures d in Enlist(w, d, priority).trains && Enlist(w, d, priority).devices == w.devices
  {
    var o := Out(Enlist(w, d, priority), []);
    assert Joins(w, o.fx, o.w, d);
    hide Steps, Joins;
    One(j, w, o);
  }

  lemma InitTrainSteps(j: Judge, w: World, d: Id, r: Registration)
    ensures Steps(j, w, Out(InitTrain(w, d, r), [])) && InitTrain(w, d, r).devices == w.devices
  {
    hide Steps, Enlist, Quiet;
    var priority := if r.priority.Some? then r.priority.value else 0.0;
    var w' := if d in w.trains then w else Enlist(w, d, priority);
    Stay(j, w);
    if d !in w.trains {
      EnlistSteps(j, w, d, priority);
    }
    if r.length.Some? && r.length.value > 0.0 {
      PutQuiet(j, w', d, w'.trains[d].(length := r.length), []);
      Chain(j, w, Out(w', []), Out(InitTrain(w, d, r), []));
      var none: seq<Effect> := [];
      assert none + none == none;
    }
  }

  lemma QuietSelf(w: World)
    ensures Quiet(w, [], w)
  {
  }

  lemma ThenQuiet(j: Judge, w: World, a: Out, b: Out)
    requires Steps(j, w, a) && Quiet(a.w, b.fx, b.w)
    ensures Steps(j, w, Then(a, b))
  {
    QuietStep(j, a.w, b);
    Chain(j, w, a, b);
  }

  lemma RegisterSteps(w: World, d: Id, r: Registration)
    ensures Steps(By(Register(w, d, r).w), w, Register(w, d, r))
    ensures Register(w, d, r).w.devices == if UnknownOnes(r.caps) == [] then w.devices[d := Device(r.caps, [], [])]
                                           else w.devices
  {
    hide Steps, By, PairSwitch, OwnMarkers, InitTrain, UnknownOnes;
    var o := Register(w, d, r);
    var j := By(o.w);
    if UnknownOnes(r.caps) != [] {
      QuietStep(j, w, o);
    } else {
      var w1 := w.(devices := w.devices[d := Device(r.caps, [], [])]);
      var w2 := if ControlsMotion in r.caps then InitTrain(w1, d, r) else w1;
      EnrolSteps(j, w, w1, d, r);
      var zones := if GatesZone in r.caps then OwnMarkers(w2, d, r.owned) else Out(w2, []);
      OwnMarkersQuiet(w2, d, r.owned);
      RegisterEnds(j, w, w2, zones, d, r);
    }
  }

  lemma EnrolSteps(j: Judge, w: World, w1: World, d: Id, r: Registration)
    requires w1 == w.(devices := w.devices[d := Device(r.caps, [], [])])
    ensures var w2 := if ControlsMotion in r.caps then InitTrain(w1, d, r) else w1;
            Steps(j, w, Out(w2, [])) && w2.devices == w1.devices
  {
    assert Quiet(w, [], w1);
    hide Steps, Quiet, InitTrain;
    QuietStep(j, w, Out(w1, []));
    if ControlsMotion in r.caps {
      InitTrainSteps(j, w1, d, r);
      QuietlyFirst(j, w, w1, Out(InitTrain(w1, d, r), []));
    }
  }

  lemma RegisterEnds(j: Judge, w: World, w2: World, zones: Out, d: Id, r: Registration)
    requires Steps(j, w, Out(w2, [])) && Quiet(w2, zones.fx, zones.w)
    ensures var switches := if ControlsSwitch in r.caps then PairSwitch(zones.w, d, r.controls) else Out(zones.w, []);
            var length := if r.length.Some? && r.length.value > 0.0 then r.length else None;
            var o := Out(switches.w, zones.fx + switches.fx + [Show(DeviceOf(d, r.caps, length))]);
            Steps(j, w, o) && o.w.devices == zones.w.devices
  {
    hide Steps, Quiet, PairSwitch;
    var switches := if ControlsSwitch in r.caps then PairSwitch(zones.w, d, r.controls) else Out(zones.w, []);
    var length := if r.length.Some? && r.length.value > 0.0 then r.length else None;
    var shown := Out(switches.w, [Show(DeviceOf(d, r.caps, length))]);
    PairQuiet(zones.w, d, r.controls);
    QuietSelf(zones.w);
    ShownQuiet(switches.w, shown.fx[0]);
    ThenQuiet(j, w, Out(w2, []), zones);
    ThenQuiet(j, w, Then(Out(w2, []), zones), switches);
    ThenQuiet(j, w, Then(Then(Out(w2, []), zones), switches), shown);
    assert [] + zones.fx == zones.fx;
  }

  lemma PairQuiet(w: World, d: Id, controls: Option<Marker>)
    ensures var o := PairSwitch(w, d, controls); Quiet(w, o.fx, o.w) && o.w.devices == w.devices
  {
  }

  lemma ShownQuiet(w: World, x: Effect)
    requires !Critical(x)
    ensures Quiet(w, [x], w)
  {
  }

  lemma {:induction false} NoticesHarmless(d: Id, caps: seq<Capability>)
    ensures Harmless(DropNotices(d, caps))
  {
    if caps == [] {
    } else {
      NoticesHarmless(d, caps[1..]);
    }
  }

  lemma DroppedSteps(j: Judge, w: World, d: Id, caps: seq<Capability>)
    ensures Steps(j, w, Out(w.(devices := w.devices - {d}), DropNotices(d, caps) + [Show(DeviceGone(d))]))
  {
    hide Steps;
    NoticesHarmless(d, caps);
    QuietStep(j, w, Out(w.(devices := w.devices - {d}), DropNotices(d, caps) + [Show(DeviceGone(d))]));
  }

  lemma LeaveSteps(j: Judge, w: World, d: Id)
    ensures Steps(j, w, Out(RemoveTrain(w, d), [Show(Clearance(d, [], false)), Show(ScheduleOf(d, None))]))
  {
    var o := Out(RemoveTrain(w, d), [Show(Clearance(d, [], false)), Show(ScheduleOf(d, None))]);
    assert Leaves(w, o.fx, o.w, d);
    hide Steps, Leaves;
    One(j, w, o);
  }

  lemma ForgetSteps(w: World, d: Id)
    ensures Steps(By(ForgetDevice(w, d).w), w, ForgetDevice(w, d)) && ForgetDevice(w, d).w.devices == w.devices - {d}
  {
    if d !in w.devices {
      Stay(By(w), w);
    } else {
      var caps := w.devices[d].caps;
      var w1 := w.(devices := w.devices - {d});
      var gone := Out(w1, DropNotices(d, caps) + [Show(DeviceGone(d))]);
      var left :=
        if ControlsMotion in caps
        then Out(RemoveTrain(w1, d), [Show(Clearance(d, [], false)), Show(ScheduleOf(d, None))])
        else Out(w1, []);
      hide Steps, By;
      var j := By(left.w);
      DroppedSteps(j, w, d, caps);
      LeaveSteps(j, w1, d);
      Stay(j, w1);
      Chain(j, w, gone, left);
      ThenRetry(w, Then(gone, left), None);
    }
  }

  lemma DispatchSteps(w: World, w1: World)
    requires Quiet(w, [], w1)
    ensures Steps(By(Retry(w1, None).w), w, Retry(w1, None)) && Retry(w1, None).w.devices == w1.devices
  {
    hide Steps, Quiet, By, Retry;
    JustRetry(w1, None);
    QuietlyFirst(By(Retry(w1, None).w), w, w1, Retry(w1, None));
  }

  lemma DispatchGateSteps(w: World, d: Id, m: Marker, withholding: bool, reason: string)
    ensures Steps(By(DispatchGate(w, d, m, withholding, reason).w), w, DispatchGate(w, d, m, withholding, reason))
    ensures DispatchGate(w, d, m, withholding, reason).w.devices
            == if d in w.devices then w.devices[d := GateHooks(w.devices[d], w.devices[d].caps, m, withholding, reason)]
               else w.devices
  {
    if d !in w.devices {
      Stay(By(w), w);
    } else {
      DispatchSteps(w,
                    w.(devices := w.devices[d := GateHooks(w.devices[d], w.devices[d].caps, m, withholding, reason)]));
    }
  }

  lemma DispatchZoneSteps(w: World, d: Id, z: Zone)
    ensures Steps(By(DispatchZone(w, d, z).w), w, DispatchZone(w, d, z))
    ensures DispatchZone(w, d, z).w.devices
            == if d in w.devices then w.devices[d := ZoneHooks(w.devices[d], w.devices[d].caps, z)] else w.devices
  {
    var w1 := w.(zoneBounds := w.zoneBounds[z.marker := d]);
    if d !in w1.devices {
      QuietStep(By(w1), w, Out(w1, []));
    } else {
      DispatchSteps(w, w1.(devices := w1.devices[d := ZoneHooks(w1.devices[d], w1.devices[d].caps, z)]));
    }
  }

  // ---------- a train at a marker ----------

  lemma EnterZoneSteps(w: World, id: Id, m: Marker)
    requires id in w.trains
    ensures Steps(By(EnterZone(w, id, m).w), w, EnterZone(w, id, m)) && EnterZone(w, id, m).w.devices == w.devices
  {
    var t := w.trains[id];
    var t' := t.(inZone := Some(m), transit := None, zoneEntry := t.current, current := None, limit := Some(m),
                 held := []);
    var parked := Out(Put(w, id, t'), if |t.held| > 0 then [ClearanceOf(id, t')] else []);
    hide Steps, Quiet, OnlyShows, By;
    if |t.held| > 0 {
      ShowsOnly(ClearanceOf(id, t'));
      PutDrops(By(parked.w), w, id, t', [ClearanceOf(id, t')]);
    } else {
      PutQuiet(By(parked.w), w, id, t', []);
    }
    ThenRetry(w, parked, None);
  }

  lemma {:induction false} ReleaseLength(held: seq<Held>, gone: set<EdgeRef>)
    ensures |Release(held, gone)| <= |held|
    ensures |Release(held, gone)| == |held| ==> Release(held, gone) == held
  {
    if held == [] {
    } else {
      var r := Release(held[1..], gone);
      ReleaseLength(held[1..], gone);
      if held[0].edge !in gone && r == held[1..] {
        assert Release(held, gone) == [held[0]] + held[1..] == held;
      }
    }
  }

  lemma ArrivedSteps(j: Judge, w: World, id: Id, m: Marker, now: real)
    requires id in w.trains
    ensures var t := w.trains[id];
            var t' := Arrive(t, m, now);
            Steps(j, w, Out(Put(w, id, t'), if |t'.held| != |t.held| then [ClearanceOf(id, t')] else []))
  {
    var t := w.trains[id];
    var t' := Arrive(t, m, now);
    var o := Out(Put(w, id, t'), if |t'.held| != |t.held| then [ClearanceOf(id, t')] else []);
    var moved := AdvanceTransit(t.(last := Some(m), zoneEntry := None), m, now);
    assert moved.held == t.held && moved.blocked == t.blocked;
    ReleaseLength(t.held, EndingAt(t.held, m));
    hide Steps, Quiet, OnlyShows;
    if |t'.held| != |t.held| {
      ShowsOnly(ClearanceOf(id, t'));
      PutDrops(j, w, id, t', [ClearanceOf(id, t')]);
    } else {
      PutQuiet(j, w, id, t', []);
    }
  }

  lemma RecordKeepsSwitches(l: Layout, from: Marker, to: Marker, id: Option<Id>, now: real)
    ensures RecordTraversal(l, from, to, id, now).layout.switches == l.switches
  {
  }

  lemma DiscoverQuiet(w: World, e: Option<EdgeRef>, id: Id, now: real)
    ensures Quiet(w, Discover(w, e, id, now).fx, Discover(w, e, id, now).w)
    ensures Discover(w, e, id, now).w.devices == w.devices
    ensures Discover(w, e, id, now).w.trains == w.trains
  {
    hide RecordTraversal;
    if e.Some? {
      RecordKeepsSwitches(w.layout, e.value.from, e.value.to, Some(id), now);
    }
  }

  lemma PassSteps(w: World, id: Id, m: Marker, now: real)
    requires id in w.trains
    ensures Steps(By(Pass(w, id, m, now).w), w, Pass(w, id, m, now)) && Pass(w, id, m, now).w.devices == w.devices
  {
    hide Steps, Quiet, Discover, Arrive, Discovering, ClearanceOf, Extend, Retry, RecordTraversal;
    var t := w.trains[id];
    var t' := Arrive(t, m, now);
    var released := Out(Put(w, id, t'), if |t'.held| != |t.held| then [ClearanceOf(id, t')] else []);
    var e := Completed(t.last, m);
    var learned := Discover(released.w, e, id, now);
    DiscoverQuiet(released.w, e, id, now);
    var told := Out(learned.w, [Publish(MarkerTraversed(id, m, Discovering(learned.w.layout, e), e))]);
    var j := By(told.w);
    ArrivedSteps(j, w, id, m, now);
    ThenQuiet(j, w, released, learned);
    ToldQuiet(learned.w, told);
    ThenQuiet(j, w, Then(released, learned), told);
    ThenExtend(w, Then(Then(released, learned), told), id);
    ThenRetry(w, Then(Then(Then(released, learned), told), Extend(told.w, id)), None);
  }

  /** A step, then a walk of the horizon. */
  lemma ThenExtend(w: World, first: Out, id: Id)
    requires Steps(By(first.w), w, first) && id in first.w.trains
    ensures var o := Then(first, Extend(first.w, id));
            Steps(By(o.w), w, o) && By(o.w) == By(first.w) && o.w.devices == first.w.devices
  {
    ExtendSteps(first.w, id);
    hide Steps, Extend;
    Chain(By(first.w), w, first, Extend(first.w, id));
  }

  lemma ToldQuiet(w: World, o: Out)
    requires o.w == w && forall x <- o.fx :: x.Publish?
    ensures Quiet(w, o.fx, o.w)
  {
  }

  lemma AtMarkerSteps(w: World, id: Id, m: Marker, now: real)
    ensures Steps(By(AtMarker(w, id, m, now).w), w, AtMarker(w, id, m, now))
            && AtMarker(w, id, m, now).w.devices == w.devices
  {
    hide Steps, Pass, EnterZone, HoldAt, By;
    Stay(By(w), w);
    if id in w.trains && w.trains[id].inZone.None? {
      var t := w.trains[id];
      var w1 := Put(w, id, t.(last := Some(m), zoneEntry := None));
      if Violates(w, t, m) {
        HoldAtSteps(w, id, m, now);
      } else {
        PassSteps(w, id, m, now);
        EnterZoneSteps(w1, id, m);
        assert Quiet(w, [], w1);
        QuietlyFirst(By(EnterZone(w1, id, m).w), w, w1, EnterZone(w1, id, m));
      }
    }
  }

  lemma HoldAtSteps(w: World, id: Id, m: Marker, now: real)
    requires id in w.trains && Violates(w, w.trains[id], m)
    ensures Steps(By(HoldAt(w, id, m, now).w), w, HoldAt(w, id, m, now)) && HoldAt(w, id, m, now).w.devices == w.devices
  {
    var o := HoldAt(w, id, m, now);
    assert Guards(w, o.fx, o.w, id, m, now);
    One(By(o.w), w, o);
  }

  lemma ObserveTagSteps(w: World, d: Id, tag: string, now: real)
    ensures Steps(By(ObserveTag(w, d, tag, now).w), w, ObserveTag(w, d, tag, now))
            && ObserveTag(w, d, tag, now).w.devices == w.devices
  {
    hide Steps, AtMarker, By;
    Stay(By(w), w);
    if tag in w.tags && d in w.devices && w.tags[tag].ToMarker? {
      AtMarkerSteps(w, d, w.tags[tag].target, now);
    } else {
      ToldQuiet(w, ObserveTag(w, d, tag, now));
      QuietStep(By(w), w, ObserveTag(w, d, tag, now));
    }
  }

  // ---------- requests, switches, planning ----------

  /** A request is judged with the edge asked for at hand. */
  lemma RequestSteps(w: World, id: Id, e: EdgeRef)
    ensures var o := RequestClearance(w, id, e);
            Steps(By(o.w).(request := Some((id, e))), w, o) && o.w.devices == w.devices
  {
    var o := RequestClearance(w, id, e);
    var j := By(w).(request := Some((id, e)));
    if Missing(w.layout, [e.from, e.to], {}) == [] && id in w.trains {
      assert Demanded(j, id, e);
      hide Steps, TryGrant, Demanded;
      TryGrantSteps(j, w, id, e);
    } else {
      ToldQuiet(w, o);
      hide Steps, Quiet;
      QuietStep(j, w, o);
    }
  }

  lemma ChangeSwitchSteps(w: World, m: Marker, p: string, confirmed: bool)
    ensures Steps(By(ChangeSwitch(w, m, p, confirmed).w), w, ChangeSwitch(w, m, p, confirmed))
    ensures ChangeSwitch(w, m, p, confirmed).w.devices == w.devices
  {
    hide Steps, Retry;
    var shown := [Show(SwitchOf(m, p, confirmed))];
    if m in w.layout.markers && confirmed {
      var o := Out(Confirm(w, m, p), shown);
      assert Confirms(w, o.fx, o.w, m, p);
      One(By(o.w), w, o);
      ThenRetry(w, o, None);
    } else {
      QuietStep(By(w), w, ChangeSwitch(w, m, p, confirmed));
    }
  }

  lemma DepartSteps(w: World, id: Id, edges: seq<EdgeRef>)
    requires id in w.trains && w.trains[id].schedule.Some? && edges != []
    ensures Steps(By(Depart(w, id, edges).w), w, Depart(w, id, edges)) && Depart(w, id, edges).w.devices == w.devices
  {
    var t := w.trains[id];
    var placed := Put(w, id, t.(transit := Some(Transit(edges, 0)), limit := Some(edges[0].from)));
    var first := Out(placed, [Send(id, AssignRoute(t.schedule.value.route, edges))]);
    QuietStep(By(placed), w, first);
    hide Steps, Quiet, Extend, Retry;
    ThenExtend(w, first, id);
    ThenRetry(w, Then(first, Extend(placed, id)), None);
  }

  lemma RouteSteps(w: World, id: Id, target: Marker)
    requires id in w.trains && w.trains[id].last.Some? && w.trains[id].schedule.Some?
    ensures Steps(By(Route(w, id, target).w), w, Route(w, id, target)) && Route(w, id, target).w.devices == w.devices
  {
    hide Depart, Planner.PlanTransit, Steps;
    var t := w.trains[id];
    var plan := Planner.PlanTransit(w.layout, t.last.value, target, HeadingOf(t));
    if plan.Some? && plan.value != [] && !(target in w.zoneBounds && !CanReverseTrain(w, id)) {
      DepartSteps(w, id, plan.value);
    } else {
      ToldQuiet(w, Route(w, id, target));
      QuietStep(By(w), w, Route(w, id, target));
    }
  }

  /** An attempt is a sequence of steps if it returned, and changed nobody's clearance if it failed. */
  ghost predicate Fares(w: World, a: Attempt) {
    match a
    case Returned(o) => Steps(By(o.w), w, o) && o.w.devices == w.devices
    case Threw(left) => Quiet(w, [], left) && left.devices == w.devices
  }

  lemma QuietThen(w: World, fx: seq<Effect>, w1: World, w2: World)
    requires Quiet(w, fx, w1) && Quiet(w1, [], w2)
    ensures Quiet(w, [], w2)
  {
  }

  lemma PrefixFares(w: World, first: Out, a: Attempt)
    requires Quiet(w, first.fx, first.w) && first.w.devices == w.devices && Fares(first.w, a)
    ensures Fares(w, Prefixed(first.fx, a))
  {
    hide Steps, Quiet, By;
    match a
    case Returned(o) =>
      QuietStep(By(o.w), w, first);
      Chain(By(o.w), w, first, o);
    case Threw(left) => QuietThen(w, first.fx, first.w, left);
  }

  lemma SettledSteps(w: World, a: Attempt)
    requires Fares(w, a)
    ensures Steps(By(Settled(a).w), w, Settled(a)) && Settled(a).w.devices == w.devices
  {
    hide Steps, Quiet, By;
    if a.Threw? {
      QuietStep(By(a.left), w, Out(a.left, []));
    }
  }

  lemma {:induction false} PlanFares(w: World, id: Id, budget: nat)
    requires id in w.trains
    ensures Fares(w, PlanAndExecute(w, id, budget))
    decreases budget, 1
  {
    hide Steps, Route, Quiet, By;
    Stay(By(w), w);
    var t := w.trains[id];
    if t.schedule.Some? && t.last.Some? {
      var s := t.schedule.value;
      var target := StopOf(s);
      if t.last.value != target {
        RouteSteps(w, id, target);
      } else if |s.stops| == 1 {
        ParkQuiet(w, id);
        var parked := Put(w, id, t.(transit := None, limit := t.last));
        QuietStep(By(parked), w, Out(parked, []));
      } else {
        AdvanceFares(w, id, budget);
      }
    }
  }

  lemma ParkQuiet(w: World, id: Id)
    requires id in w.trains
    ensures Quiet(w, [], Put(w, id, w.trains[id].(transit := None, limit := w.trains[id].last)))
  {
  }

  lemma MoveQuiet(w: World, id: Id, s: Option<Schedule>)
    requires id in w.trains
    ensures var moved := Put(w, id, w.trains[id].(schedule := s));
            Quiet(w, [], moved) && Quiet(w, [Show(ScheduleOf(id, s))], moved)
  {
  }

  lemma {:induction false} AdvanceFares(w: World, id: Id, budget: nat)
    requires id in w.trains
    ensures Fares(w, AdvanceAndReplan(w, id, budget))
    decreases budget, 0
  {
    hide Steps, PlanAndExecute, Quiet, By;
    Stay(By(w), w);
    var t := w.trains[id];
    if t.schedule.Some? {
      var s := Next(t.schedule.value);
      var moved := Put(w, id, t.(schedule := Some(s)));
      MoveQuiet(w, id, Some(s));
      if budget > 0 {
        PlanFares(moved, id, budget - 1);
        PrefixFares(w, Out(moved, [Show(ScheduleOf(id, Some(s)))]), PlanAndExecute(moved, id, budget - 1));
      }
    }
  }

  /** Advancing the schedule after a change no clearance depends on. */
  lemma AdvanceSteps(w: World, w1: World, id: Id)
    requires id in w1.trains && Quiet(w, [], w1) && w1.devices == w.devices
    ensures var o := Settled(AdvanceAndReplan(w1, id, w.stack)); Steps(By(o.w), w, o) && o.w.devices == w.devices
  {
    hide Steps, Quiet, By, AdvanceAndReplan;
    var a := AdvanceAndReplan(w1, id, w.stack);
    AdvanceFares(w1, id, w.stack);
    SettledSteps(w1, a);
    QuietlyFirst(By(Settled(a).w), w, w1, Settled(a));
  }

  // ---------- train status and zones ----------

  lemma HarmlessNone()
    ensures Harmless([])
  {
  }

  lemma StatusSteps(w: World, id: Id, on: Option<EdgeRef>, distance: Option<real>, now: real)
    ensures Steps(By(Status(w, id, on, distance, now).w), w, Status(w, id, on, distance, now))
    ensures Status(w, id, on, distance, now).w.devices == w.devices
  {
    hide Steps, Quiet, AdvanceAndReplan, ClearedByTail, Retry, By;
    Stay(By(w), w);
    if id in w.trains {
      var t := Seeded(w.trains[id], on);
      var w1 := Put(w, id, t);
      HarmlessNone();
      PutQuiet(By(w1), w, id, t, []);
      if t.dwellUntil.Some? && now >= t.dwellUntil.value {
        DwellSteps(w, id, t);
      } else if !IsPoint(t) && on.Some? && distance.Some? {
        var gone := ClearedByTail(w1.layout, t, on.value, distance.value);
        if gone != [] {
          TailFreedSteps(w, w1, id, t, gone);
        }
      }
    }
  }

  lemma DwellSteps(w: World, id: Id, t: Train)
    requires id in w.trains && SameHeld(w.trains[id], t)
    ensures var o := Settled(AdvanceAndReplan(Put(Put(w, id, t), id, t.(dwellUntil := None)), id, w.stack));
            Steps(By(o.w), w, o) && o.w.devices == w.devices
  {
    hide Steps, Quiet, AdvanceAndReplan, By;
    var w2 := Put(Put(w, id, t), id, t.(dwellUntil := None));
    assert w2 == Put(w, id, t.(dwellUntil := None));
    HarmlessNone();
    PutQuiet(By(w2), w, id, t.(dwellUntil := None), []);
    AdvanceSteps(w, w2, id);
  }

  lemma TailFreedSteps(w: World, w1: World, id: Id, t: Train, gone: seq<EdgeRef>)
    requires id in w.trains && w1 == Put(w, id, t) && SameHeld(w.trains[id], t)
    ensures var t' := t.(held := Release(t.held, HeldSet(gone)));
            var freed := Out(Put(w1, id, t'), [ClearanceOf(id, t')]);
            var o := Then(freed, Retry(freed.w, None));
            Steps(By(o.w), w, o) && o.w.devices == w.devices
  {
    var t' := t.(held := Release(t.held, HeldSet(gone)));
    var freed := Out(Put(w1, id, t'), [ClearanceOf(id, t')]);
    hide Steps, Quiet, OnlyShows, By;
    ShowsOnly(ClearanceOf(id, t'));
    assert freed.w == Put(w, id, t');
    PutDrops(By(freed.w), w, id, t', freed.fx);
    ThenRetry(w, freed, None);
  }

  lemma ReleaseFromZoneSteps(w: World, d: Id, zone: Marker, id: Id)
    ensures Steps(By(ReleaseFromZone(w, d, zone, id).w), w, ReleaseFromZone(w, d, zone, id))
    ensures ReleaseFromZone(w, d, zone, id).w.devices == w.devices
  {
    hide Steps, Quiet, AdvanceAndReplan, Retry, By;
    if zone in w.zoneBounds && w.zoneBounds[zone] == d && id in w.trains && w.trains[id].inZone == Some(zone) {
      var w1 := Put(w, id, w.trains[id].(inZone := None));
      HarmlessNone();
      PutQuiet(By(w1), w, id, w1.trains[id], []);
      AdvanceSteps(w, w1, id);
      DispatchSteps(w, w1);
    } else {
      ToldQuiet(w, ReleaseFromZone(w, d, zone, id));
      QuietStep(By(w), w, ReleaseFromZone(w, d, zone, id));
    }
  }

  // ---------- operator calls ----------

  /**
   * The train whose held list this input empties without telling anyone, if there is one: an accepted assignment
   * emits no snapshot of its own, and a recovery whose replanning fails loses the one it had gathered.
   */
  function Silenced(w: World, i: Input): (r: Option<Id>)
    ensures r.Some? ==> !i.Reset? && r.value in w.trains
  {
    match i
    case AssignSchedule(id, _, stops) =>
      if id in w.trains && stops != [] && UnknownStopsOf(w.layout, stops) == [] then Some(id) else None
    case Reanchor(id, m) =>
      if id in w.trains && w.trains[id].blocked && m in w.layout.markers
        && Replanning.Fails(Recovered(w.trains[id], m), w.stack)
      then Some(id) else None
    case ConfirmNewTrack(id) =>
      if id !in w.trains || !w.trains[id].blocked then None
      else
        var e := Uncertain(w.layout, w.trains[id].held);
        if e.Some? && Replanning.Fails(Recovered(w.trains[id], e.value.to), w.stack) then Some(id) else None
    case _ => None
  }

  /** The state after confirmed track is added and its train let go. */
  function LearnedTrack(w: World, id: Id, e: EdgeRef): World
    requires id in w.trains
  {
    Put(w.(layout := AddInferredEdge(w.layout, e.from, e.to)), id, Recovered(w.trains[id], e.to))
  }

  function Emptied(t: Train): Train { t.(held := [], blocked := false) }

  /** The state from which the input's steps are taken: a silenced train has already lost what it held. */
  function Start(w: World, i: Input): World {
    var s := Silenced(w, i);
    if s.Some? then Put(w, s.value, Emptied(w.trains[s.value])) else w
  }

  lemma AssignSteps(w: World, id: Id, route: string, stops: seq<Marker>)
    ensures var o := Assign(w, id, route, stops);
            Steps(By(o.w), Start(w, AssignSchedule(id, route, stops)), o) && o.w.devices == w.devices
  {
    hide PlanAndExecute, Steps, UnknownStopsOf, By, Quiet;
    if id in w.trains && stops != [] && UnknownStopsOf(w.layout, stops) == [] {
      AcceptedSteps(w, id, Assigned(w.trains[id], route, stops));
    } else {
      ToldQuiet(w, Assign(w, id, route, stops));
      QuietStep(By(w), w, Assign(w, id, route, stops));
    }
  }

  lemma AcceptedQuiet(w: World, id: Id, t: Train, fx: seq<Effect>)
    requires id in w.trains && SameHeld(t, Emptied(w.trains[id])) && Harmless(fx)
    ensures Quiet(Put(w, id, Emptied(w.trains[id])), fx, Put(w, id, t))
  {
  }

  lemma AcceptedSteps(w: World, id: Id, t: Train)
    requires id in w.trains && SameHeld(t, Emptied(w.trains[id]))
    ensures var o := Settled(Prefixed([Show(ScheduleOf(id, t.schedule))], PlanAndExecute(Put(w, id, t), id, w.stack)));
            Steps(By(o.w), Put(w, id, Emptied(w.trains[id])), o) && o.w.devices == w.devices
  {
    hide PlanAndExecute, Steps, By, Quiet, Fares, Prefixed, Settled, SameHeld, Emptied;
    var start, w1 := Put(w, id, Emptied(w.trains[id])), Put(w, id, t);
    var first := Out(w1, [Show(ScheduleOf(id, t.schedule))]);
    AcceptedQuiet(w, id, t, first.fx);
    PlanFares(w1, id, w.stack);
    PrefixFares(start, first, PlanAndExecute(w1, id, w.stack));
    SettledSteps(start, Prefixed(first.fx, PlanAndExecute(w1, id, w.stack)));
  }

  lemma RevokeShows(id: Id, x: Effect)
    requires x.Show? && x.snapshot.Clearance?
    ensures OnlyShows([Send(id, RevokeClearance(Admin)), x], x)
  {
  }

  lemma RevokeSteps(w: World, id: Id)
    ensures Steps(By(RevokeTrain(w, id).w), w, RevokeTrain(w, id)) && RevokeTrain(w, id).w.devices == w.devices
  {
    hide Steps, OnlyShows, By;
    Stay(By(w), w);
    if id in w.trains {
      var t := w.trains[id];
      var t' := t.(held := [], limit := if t.last.Some? then t.last else t.limit, blocked := false);
      var freed := Out(Put(w, id, t'), [Send(id, RevokeClearance(Admin)), ClearanceOf(id, t')]);
      RevokeShows(id, ClearanceOf(id, t'));
      PutDrops(By(freed.w), w, id, t', freed.fx);
      ThenRetry(w, freed, Some({id}));
    }
  }

  lemma ResumeFares(w: World, id: Id)
    requires id in w.trains
    ensures Fares(w, Resume(w, id))
  {
    hide Steps, PlanAndExecute, Retry, By, Quiet;
    JustRetry(w, None);
    if w.trains[id].schedule.Some? {
      PlanFares(w, id, w.stack);
      if PlanAndExecute(w, id, w.stack).Returned? {
        ThenRetry(w, PlanAndExecute(w, id, w.stack).out, None);
      }
    }
  }

  /** A recovered train: its list is emptied with a snapshot, or, when replanning fails, without one. */
  lemma RecoverySteps(w: World, w1: World, first: Out, id: Id)
    requires id in w.trains && id in w1.trains && first.w == w1 && w1.devices == w.devices
    requires forall j :: Steps(j, w, first)
    requires Quiet(Put(w, id, Emptied(w.trains[id])), [], w1)
    ensures var a := Resume(w1, id);
            var start := if a.Threw? then Put(w, id, Emptied(w.trains[id])) else w;
            var o := Settled(Prefixed(first.fx, a));
            Steps(By(o.w), start, o) && o.w.devices == w.devices
  {
    hide Resume, Steps, Quiet, By;
    var a := Resume(w1, id);
    ResumeFares(w1, id);
    match a
    case Returned(o) => Chain(By(o.w), w, first, o);
    case Threw(left) =>
      var start := Put(w, id, Emptied(w.trains[id]));
      QuietThen(start, [], w1, left);
      QuietStep(By(left), start, Out(left, []));
  }

  lemma ReanchorSteps(w: World, id: Id, m: Marker)
    ensures var o := ReanchorAt(w, id, m);
            Steps(By(o.w), Start(w, Reanchor(id, m)), o) && o.w.devices == w.devices
  {
    hide Resume, Steps, OnlyShows, By, Replanning.Fails;
    Stay(By(w), w);
    if id in w.trains && w.trains[id].blocked && m in w.layout.markers {
      var t := Recovered(w.trains[id], m);
      var first := Out(Put(w, id, t), [ClearanceOf(id, t)]);
      ShowsOnly(ClearanceOf(id, t));
      forall j ensures Steps(j, w, first) {
        PutDrops(j, w, id, t, first.fx);
      }
      Replanning.ResumeFailsIff(first.w, id);
      RecoverySteps(w, first.w, first, id);
    }
  }

  lemma GrownSteps(j: Judge, w: World, l: Layout)
    requires l.switches == w.layout.switches
    ensures Steps(j, w, Out(w.(layout := l), [ShowLayout(l)]))
  {
    var o := Out(w.(layout := l), [ShowLayout(l)]);
    assert Quiet(w, o.fx, o.w);
    hide Steps, Quiet;
    QuietStep(j, w, o);
  }

  lemma TrackDrops(j: Judge, w: World, id: Id, e: EdgeRef)
    requires id in w.trains
    ensures var w1 := LearnedTrack(w, id, e);
            Steps(j, w, Out(w1, [ShowLayout(w1.layout), ClearanceOf(id, w1.trains[id])]))
  {
    hide Steps, OnlyShows;
    var l := AddInferredEdge(w.layout, e.from, e.to);
    var t := Recovered(w.trains[id], e.to);
    var grown := Out(w.(layout := l), [ShowLayout(l)]);
    var last := Out(LearnedTrack(w, id, e), [ClearanceOf(id, t)]);
    GrownSteps(j, w, l);
    ShowsOnly(ClearanceOf(id, t));
    PutDrops(j, grown.w, id, t, last.fx);
    Chain(j, w, grown, last);
    assert grown.fx + last.fx == [ShowLayout(l), ClearanceOf(id, t)];
  }

  lemma TrackSteps(w: World, id: Id, e: EdgeRef)
    requires id in w.trains
    ensures var w1 := LearnedTrack(w, id, e);
            var start := if Resume(w1, id).Threw? then Put(w, id, Emptied(w.trains[id])) else w;
            var o := Settled(Prefixed([ShowLayout(w1.layout), ClearanceOf(id, w1.trains[id])], Resume(w1, id)));
            Steps(By(o.w), start, o) && o.w.devices == w.devices
  {
    hide Resume, Steps, By, ClearanceOf, AddInferredEdge, SameSwitches;
    var w1 := LearnedTrack(w, id, e);
    var first := Out(w1, [ShowLayout(w1.layout), ClearanceOf(id, w1.trains[id])]);
    forall j ensures Steps(j, w, first) {
      TrackDrops(j, w, id, e);
    }
    TrackQuiet(w, id, e);
    hide Quiet;
    RecoverySteps(w, w1, first, id);
  }

  lemma TrackQuiet(w: World, id: Id, e: EdgeRef)
    requires id in w.trains
    ensures Quiet(Put(w, id, Emptied(w.trains[id])), [], LearnedTrack(w, id, e))
  {
  }

  lemma ConfirmTrackSteps(w: World, id: Id)
    ensures var o := ConfirmTrack(w, id);
            Steps(By(o.w), Start(w, ConfirmNewTrack(id)), o) && o.w.devices == w.devices
  {
    hide Resume, Steps, By, Uncertain, ClearanceOf, AddInferredEdge, Settled, Prefixed, Replanning.Fails;
    Stay(By(w), w);
    if id in w.trains && w.trains[id].blocked {
      var e := Uncertain(w.layout, w.trains[id].held);
      if e.Some? {
        Replanning.ResumeFailsIff(LearnedTrack(w, id, e.value), id);
        TrackSteps(w, id, e.value);
      } else {
        assert Start(w, ConfirmNewTrack(id)) == w;
      }
    }
  }

  lemma AssignTagSteps(w: World, d: Id, tag: string, b: Binding, kind: Kind)
    ensures Steps(By(AssignTag(w, d, tag, b, kind).w), w, AssignTag(w, d, tag, b, kind))
    ensures AssignTag(w, d, tag, b, kind).w.devices == w.devices
  {
    var o := AssignTag(w, d, tag, b, kind);
    assert Quiet(w, o.fx, o.w);
    hide Steps, Quiet;
    QuietStep(By(o.w), w, o);
  }

  lemma ChangeLengthSteps(w: World, d: Id, id: Id, length: Length)
    ensures Steps(By(ChangeLength(w, d, id, length).w), w, ChangeLength(w, d, id, length))
    ensures ChangeLength(w, d, id, length).w.devices == w.devices
  {
    hide Steps, Quiet;
    Stay(By(w), w);
    ToldQuiet(w, Out(w, [Publish(Raised(NotLengthReporter(d)))]));
    QuietStep(By(w), w, Out(w, [Publish(Raised(NotLengthReporter(d)))]));
    if id in w.trains {
      var caps := if id in w.devices then w.devices[id].caps else [];
      var t := w.trains[id].(length := Some(length));
      PutQuiet(By(Put(w, id, t)), w, id, t, [Show(DeviceOf(id, caps, Some(length)))]);
    }
  }

  /**
   * What one input's steps are judged by: the devices, layout and routes it leaves behind, and the request it carries.
   */
  function JudgeOf(w: World, i: Input): Judge {
    By(Step(w, i).w).(request := if i.ClearanceRequested? then Some((i.train, i.edge)) else None)
  }

  lemma EventIsPlay(w: World, i: Input)
    requires i.DeviceRegistered? || i.DeviceDisconnected? || i.ClearanceRequested? || i.SwitchChanged?
    ensures Steps(JudgeOf(w, i), Start(w, i), Step(w, i))
  {
    hide Steps, By, Start, Register, ForgetDevice, RequestClearance, ChangeSwitch;
    NotSilenced(w, i);
    if !i.ClearanceRequested? {
      NoRequest(w, i);
    }
    match i
    case DeviceRegistered(d, r) => RegisterSteps(w, d, r);
    case DeviceDisconnected(d) => ForgetSteps(w, d);
    case ClearanceRequested(id, e) => RequestSteps(w, id, e);
    case SwitchChanged(m, p, confirmed) => ChangeSwitchSteps(w, m, p, confirmed);
  }

  lemma TrainEventIsPlay(w: World, i: Input)
    requires i.TagObserved? || i.TagAssigned? || i.TrainStatus? || i.LengthChanged?
    ensures Steps(JudgeOf(w, i), Start(w, i), Step(w, i))
  {
    hide Steps, By, Start, JudgeOf, ObserveTag, AssignTag, Status, ChangeLength;
    NotSilenced(w, i);
    NoRequest(w, i);
    match i
    case TagObserved(d, tag, now) => ObserveTagSteps(w, d, tag, now);
    case TagAssigned(d, tag, b, kind) => AssignTagSteps(w, d, tag, b, kind);
    case TrainStatus(id, on, distance, now) => StatusSteps(w, id, on, distance, now);
    case LengthChanged(d, id, length) => ChangeLengthSteps(w, d, id, length);
  }

  lemma OtherDispatchSteps(w: World, d: Id)
    ensures Steps(By(DispatchOther(w, d).w), w, DispatchOther(w, d)) && DispatchOther(w, d).w.devices == w.devices
  {
    hide Steps, By, Retry;
    Stay(By(w), w);
    JustRetry(w, None);
  }

  lemma NoRequest(w: World, i: Input)
    requires !i.ClearanceRequested?
    ensures JudgeOf(w, i) == By(Step(w, i).w)
  {
    hide Step;
  }

  lemma RecoveryIsPlay(w: World, i: Input)
    requires i.Reanchor? || i.ConfirmNewTrack?
    ensures Steps(JudgeOf(w, i), Start(w, i), Step(w, i))
  {
    hide Steps, Start, JudgeOf, By, ReanchorAt, ConfirmTrack;
    NoRequest(w, i);
    match i
    case Reanchor(id, m) => ReanchorSteps(w, id, m);
    case ConfirmNewTrack(id) => ConfirmTrackSteps(w, id);
  }

  lemma OperatorIsPlay(w: World, i: Input)
    requires i.AssignSchedule? || i.Revoke? || i.Forget?
    ensures Steps(JudgeOf(w, i), Start(w, i), Step(w, i))
  {
    hide Steps, Start, JudgeOf, By, ForgetDevice, Assign, RevokeTrain;
    NoRequest(w, i);
    match i
    case AssignSchedule(id, route, stops) => AssignSteps(w, id, route, stops);
    case Revoke(id) =>
      RevokeSteps(w, id);
      NotSilenced(w, i);
    case Forget(d) =>
      ForgetSteps(w, d);
      NotSilenced(w, i);
  }

  lemma HookIsPlay(w: World, i: Input)
    requires i.GateChanged? || i.ZoneChanged?
    ensures Steps(JudgeOf(w, i), Start(w, i), Step(w, i))
  {
    hide Steps, Start, JudgeOf, By, DispatchGate, DispatchZone;
    NoRequest(w, i);
    NotSilenced(w, i);
    match i
    case GateChanged(d, m, withholding, reason) => DispatchGateSteps(w, d, m, withholding, reason);
    case ZoneChanged(d, z) => DispatchZoneSteps(w, d, z);
  }

  lemma DispatchIsPlay(w: World, i: Input)
    requires i.ZoneReleased? || i.OtherEvent?
    ensures Steps(JudgeOf(w, i), Start(w, i), Step(w, i))
  {
    hide Steps, Start, JudgeOf, By, DispatchOther, ReleaseFromZone;
    NoRequest(w, i);
    NotSilenced(w, i);
    match i
    case ZoneReleased(d, zone, id) => ReleaseFromZoneSteps(w, d, zone, id);
    case OtherEvent(d) => OtherDispatchSteps(w, d);
  }

  /** Every input but a reset is a play, judged by what it leaves behind. */
  lemma StepIsPlay(w: World, i: Input)
    requires !i.Reset?
    ensures Steps(JudgeOf(w, i), Start(w, i), Step(w, i))
  {
    hide Steps, Start, JudgeOf, Step;
    if i.AssignSchedule? || i.Revoke? || i.Forget? {
      OperatorIsPlay(w, i);
    } else if i.Reanchor? || i.ConfirmNewTrack? {
      RecoveryIsPlay(w, i);
    } else if i.GateChanged? || i.ZoneChanged? {
      HookIsPlay(w, i);
    } else if i.ZoneReleased? || i.OtherEvent? {
      DispatchIsPlay(w, i);
    } else if i.TrainStatus? || i.LengthChanged? || i.TagObserved? || i.TagAssigned? {
      TrainEventIsPlay(w, i);
    } else {
      EventIsPlay(w, i);
    }
  }

  lemma NotSilenced(w: World, i: Input)
    requires !i.AssignSchedule? && !i.Reanchor? && !i.ConfirmNewTrack?
    ensures Start(w, i) == w
  {
    hide Resume, UnknownStopsOf, Uncertain;
  }
}
