/**
 * The scheduler object: its fields are updated in place, one input at a time, and every method leaves exactly the
 * state and emits exactly the effects its specification says.
 */
module Scheduling {
  import opened Rail
  import opened LayoutModel
  import opened LayoutStates
  import opened Gates
  import opened World
  import opened Ranking
  import opened Clearance
  import opened Standoff
  import opened StandoffSearch
  import opened Handlers
  import Planner
  import PlannerSearch

  class Scheduler {
    const layout: LayoutState
    const stack: nat // how many nested replans the host's call stack admits
    var trains: map<Id, Train>
    var order: seq<Id>
    var devices: map<Id, Device>
    var requested: map<Marker, string>
    var zoneBounds: map<Marker, Id>
    var zoneOwned: map<Marker, Id>
    var tags: map<string, Binding>
    var deadlock: seq<Id>
    var nextRank: nat
    var clock: nat

    function State(): World
      reads this, layout
    {
      World(trains, order, devices, layout.Value(), requested, zoneBounds, zoneOwned, tags, deadlock, nextRank, clock,
            stack)
    }

    constructor (layout: LayoutState, stack: nat)
      ensures this.layout == layout && State() == Fresh(layout.Value(), stack)
    {
      this.layout, this.stack := layout, stack;
      trains, order, devices := map[], [], map[];
      requested, zoneBounds, zoneOwned, tags := map[], map[], map[], map[];
      deadlock, nextRank, clock := [], 0, 0;
    }

    method SetTrain(id: Id, t: Train)
      modifies this`trains
      ensures State() == Put(old(State()), id, t)
    {
      trains := trains[id := t];
    }

    // ---------- granting ----------

    method EdgeConflictsWithAnotherTrain(id: Id, e: EdgeRef) returns (conflict: bool)
      ensures conflict == Conflicts(State(), id, e)
    {
      hide TouchesAny;
      var left := trains.Keys;
      while left != {}
        invariant left <= trains.Keys
        invariant forall o :: o in trains && o !in left && o != id ==> !TouchesAny(trains[o].held, e)
        decreases |left|
      {
        var o :| o in left;
        if o != id && TouchesAny(trains[o].held, e) {
          return true;
        }
        left := left - {o};
      }
      return false;
    }

    method RequiredPosition(e: EdgeRef) returns (position: Option<string>)
      ensures position == Required(layout.Value(), e)
    {
      var found := layout.FindEdgeBetween(e.from, e.to);
      if found.Some? && found.value.needs.Some? && found.value.needs.value != "" {
        return found.value.needs;
      }
      return None;
    }

    method EdgeRequiresMismatchedSwitch(e: EdgeRef) returns (mismatch: bool)
      ensures mismatch == SwitchMismatch(layout.Value(), e)
    {
      var required := RequiredPosition(e);
      return required.Some? && !(e.from in layout.switches && layout.switches[e.from] == required.value);
    }

    method AnyCapabilityDeniesClearance(limit: Marker) returns (denied: bool)
      ensures denied == Denied(devices, limit)
    {
      hide DeviceDenies;
      var left := devices.Keys;
      while left != {}
        invariant left <= devices.Keys
        invariant forall d :: d in devices && d !in left ==> !DeviceDenies(devices[d], limit)
        decreases |left|
      {
        var d :| d in left;
        if DeviceDenies(devices[d], limit) {
          return true;
        }
        left := left - {d};
      }
      return false;
    }

    method MaybeActuateSwitch(id: Id, e: EdgeRef) returns (fx: seq<Effect>)
      modifies this
      ensures Out(State(), fx) == Actuate(old(State()), id, e)
    {
      hide Required;
      var required := RequiredPosition(e);
      if required.None? || e.from !in layout.switchDevice {
        return [];
      }
      if e.from in requested && requested[e.from] == required.value {
        return [];
      }
      requested := requested[e.from := required.value];
      return [Send(layout.switchDevice[e.from], SetSwitch(e.from, required.value, id, e))];
    }

    method GrantClearanceTo(id: Id, e: EdgeRef) returns (fx: seq<Effect>)
      requires id in trains
      modifies this
      ensures Out(State(), fx) == Grant(old(State()), id, e)
    {
      var t := trains[id].(limit := Some(e.to), held := trains[id].held + [Held(e, false, clock)]);
      trains := trains[id := t];
      clock := clock + 1;
      return [Send(id, GrantClearance(e.to, [e])), ClearanceOf(id, t)];
    }

    method TryGrantClearance(id: Id, e: EdgeRef) returns (fx: seq<Effect>)
      requires id in trains
      modifies this
      ensures Out(State(), fx) == TryGrant(old(State()), id, e)
    {
      hide Conflicts, SwitchMismatch, Denied, Actuate, Grant;
      var conflict := EdgeConflictsWithAnotherTrain(id, e);
      if conflict {
        return [];
      }
      var mismatch := EdgeRequiresMismatchedSwitch(e);
      if mismatch {
        fx := MaybeActuateSwitch(id, e);
        return;
      }
      var denied := AnyCapabilityDeniesClearance(e.to);
      if denied {
        return [];
      }
      fx := GrantClearanceTo(id, e);
    }

    method ExtendClearanceHorizon(id: Id) returns (fx: seq<Effect>)
      requires id in trains
      modifies this
      ensures Out(State(), fx) == Extend(old(State()), id)
    {
      hide Walk, TryGrant, HasGrant, HoldsEdge, EdgeMs;
      fx := [];
      if trains[id].transit.None? {
        return;
      }
      var edges := trains[id].transit.value.edges;
      var i, granted, ms := trains[id].transit.value.progress, 0, 0.0;
      ghost var goal := Extend(State(), id);
      ThenNothing(goal);
      while i < |edges| && !HorizonSatisfied(granted, ms)
        invariant id in trains
        invariant goal == Then(Out(State(), fx), Walk(State(), id, edges, i, granted, ms))
        decreases |edges| - i
      {
        var e := edges[i];
        var more := ms + EdgeMs(layout.Value(), id, e);
        WalkOne(State(), id, edges, i, granted, ms);
        if !HoldsEdge(trains[id].held, e) {
          ghost var was := Out(State(), fx);
          var g := TryGrantClearance(id, e);
          if !HasGrant(g) {
            return fx + g;
          }
          ThenThen(was, Out(State(), g), Walk(State(), id, edges, i + 1, granted + 1, more));
          fx := fx + g;
        }
        i, granted, ms := i + 1, granted + 1, more;
      }
      WalkEnds(State(), id, edges, i, granted, ms);
    }

    // ---------- the retry pass ----------

    method EmitDeadlockState(cycle: Option<seq<Id>>) returns (fx: seq<Effect>)
      modifies this`deadlock
      ensures Out(State(), fx) == EmitDeadlock(old(State()), cycle)
    {
      hide SortText;
      var sorted := if cycle.Some? then SortText(cycle.value) else [];
      if sorted == deadlock {
        return [];
      }
      deadlock := sorted;
      return [Show(Deadlock(sorted))];
    }

    /** The yield without its follow-on pass. */
    method TryYieldLowestRanked(cycle: seq<Id>) returns (yielded: Option<(Id, seq<Effect>)>)
      modifies this`trains
      ensures match YieldStep(old(State()), cycle)
              case None => yielded == None && State() == old(State())
              case Some(step) => yielded == Some((step.0, step.1.fx)) && State() == step.1.w
    {
      hide LowestOf, PeerWanted, TouchesAny, Release, Yieldable;
      var victim := LowestRankedInCycle(trains, cycle);
      if victim.None? {
        return None;
      }
      var id := victim.value;
      var wanted := PeerWantedEdgeBlockedByVictim(trains, cycle, id);
      if wanted.None? {
        return None;
      }
      var t := trains[id];
      var releasable := Yieldable(t, wanted.value);
      var remaining := Release(t.held, releasable);
      if releasable == {} || TouchesAny(remaining, wanted.value) {
        return None;
      }
      t := t.(held := remaining, limit := if t.last.Some? then t.last else t.limit);
      SetTrain(id, t);
      return Some((id, [Send(id, RevokeClearance(DeadlockYield)), ClearanceOf(id, t)]));
    }

    /** The reverse without its follow-on pass. */
    method TryReverseToBreakStandoff(cycle: seq<Id>) returns (reversed: Option<(Id, seq<Effect>)>)
      modifies this`trains
      ensures match ReverseStep(old(State()), cycle)
              case None => reversed == None && State() == old(State())
              case Some(step) => reversed == Some((step.0, step.1.fx)) && State() == step.1.w
    {
      hide ReverseTarget, PeerWanted, Candidates, Enact;
      var candidates := Candidates(trains, cycle);
      ghost var w := State();
      for k := 0 to |candidates|
        invariant State() == w
        invariant ReverseFirst(w, cycle, candidates[k..]) == ReverseFirst(w, cycle, candidates)
      {
        var id := candidates[k];
        assert candidates[k..][1..] == candidates[k + 1..];
        var wanted := PeerWantedEdgeBlockedByVictim(trains, cycle, id);
        if wanted.Some? {
          var plan := ComputeReverseTarget(State(), id, wanted.value);
          if plan.Some? {
            var fx := EnactReverse(id, plan.value);
            return Some((id, fx));
          }
        }
      }
      return None;
    }

    method EnactReverse(id: Id, plan: Plan) returns (fx: seq<Effect>)
      requires id in trains
      modifies this`trains
      ensures Out(State(), fx) == Enact(old(State()), id, plan)
    {
      var t := trains[id].(held := Release(trains[id].held, HeldSet(plan.released)), last := Some(plan.target),
                           limit := Some(plan.target));
      SetTrain(id, t);
      return [Send(id, GrantReverse(plan.target, plan.released)), ClearanceOf(id, t)];
    }

    method RetryBlockedClearances(skip: Option<set<Id>>) returns (fx: seq<Effect>)
      modifies this
      ensures Out(State(), fx) == Retry(old(State()), skip)
      decreases Level(skip), 2
    {
      hide Extend, Resolve, Ordered;
      var ids := Ordered(State());
      var left := if skip.Some? then skip.value else {};
      ghost var pass := RetryEach(State(), ids, left);
      fx := [];
      for k := 0 to |ids|
        invariant forall i <- ids :: i in trains
        invariant pass == Then(Out(State(), fx), RetryEach(State(), ids[k..], left))
      {
        assert ids[k..][1..] == ids[k + 1..];
        if ids[k] !in left {
          ghost var was := fx;
          var more := ExtendClearanceHorizon(ids[k]);
          fx := fx + more;
          ghost var after := RetryEach(State(), ids[k + 1..], left);
          assert was + (more + after.fx) == (was + more) + after.fx;
        }
      }
      assert pass == Out(State(), fx);
      var more := ResolveDeadlockOrEmitState(skip);
      fx := fx + more;
    }

    method ResolveDeadlockOrEmitState(skip: Option<set<Id>>) returns (fx: seq<Effect>)
      modifies this
      ensures Out(State(), fx) == Resolve(old(State()), skip)
      decreases Level(skip), 1
    {
      hide Detect, YieldStep, ReverseStep, EmitDeadlock, Retry;
      var cycle := DetectWaitsForCycle(order, trains);
      if cycle.Some? && skip.None? {
        var yielded := TryYieldLowestRanked(cycle.value);
        if yielded.Some? {
          var more := RetryBlockedClearances(Some({yielded.value.0}));
          return yielded.value.1 + more;
        }
        var reversed := TryReverseToBreakStandoff(cycle.value);
        if reversed.Some? {
          var more := RetryBlockedClearances(Some({reversed.value.0}));
          return reversed.value.1 + more;
        }
      }
      fx := EmitDeadlockState(cycle);
    }

    // ---------- devices ----------

    method InitTrainState(d: Id, r: Registration)
      modifies this`trains, this`order, this`nextRank
      ensures State() == InitTrain(old(State()), d, r)
    {
      if d !in trains {
        trains := trains[d := NewTrain(nextRank, if r.priority.Some? then r.priority.value else 0.0)];
        order := order + [d];
        nextRank := nextRank + 1;
      }
      if r.length.Some? && r.length.value > 0.0 {
        trains := trains[d := trains[d].(length := r.length)];
      }
    }

    method RecordZoneOwnership(d: Id, owned: seq<Marker>) returns (fx: seq<Effect>)
      modifies this`zoneOwned
      ensures Out(State(), fx) == OwnMarkers(old(State()), d, owned)
    {
      hide OwnMarkers;
      fx := [];
      ghost var goal := OwnMarkers(State(), d, owned);
      ThenNothing(goal);
      for k := 0 to |owned|
        invariant goal == Then(Out(State(), fx), OwnMarkers(State(), d, owned[k..]))
      {
        var m := owned[k];
        OwnOne(State(), d, owned[k..]);
        assert owned[k..][1..] == owned[k + 1..];
        var zoneOwner := if m in zoneOwned then Some(zoneOwned[m]) else None;
        var switchOwner := if m in layout.switchDevice then Some(layout.switchDevice[m]) else None;
        if (zoneOwner.Some? && zoneOwner.value != d) || (switchOwner.Some? && switchOwner.value != d) {
          var refused := Publish(Raised(MarkerOwned(d, m,
                                                    if zoneOwner.Some? then zoneOwner.value else switchOwner.value)));
          ThenThen(Out(State(), fx), Out(State(), [refused]), OwnMarkers(State(), d, owned[k + 1..]));
          fx := fx + [refused];
        } else {
          zoneOwned := zoneOwned[m := d];
        }
      }
      OwnNone(State(), d);
    }

    method MaybeRecordSwitchPairing(d: Id, controls: Option<Marker>) returns (fx: seq<Effect>)
      modifies this, layout
      ensures Out(State(), fx) == PairSwitch(old(State()), d, controls)
    {
      if controls.None? {
        return [];
      }
      var m := controls.value;
      if m in zoneOwned && zoneOwned[m] != d {
        return [Publish(Raised(ControlRefused(d, m, zoneOwned[m])))];
      }
      layout.RecordSwitchPairing(d, m);
      return [];
    }

    method HandleDeviceRegistered(d: Id, r: Registration) returns (fx: seq<Effect>)
      modifies this, layout
      ensures Out(State(), fx) == Register(old(State()), d, r)
    {
      hide UnknownOnes, InitTrain, OwnMarkers, PairSwitch;
      var unknown := UnknownOnes(r.caps);
      if unknown != [] {
        return [Publish(Raised(UnknownCapabilities(d, unknown)))];
      }
      devices := devices[d := Device(r.caps, [], [])];
      if ControlsMotion in r.caps {
        InitTrainState(d, r);
      }
      fx := [];
      if GatesZone in r.caps {
        fx := RecordZoneOwnership(d, r.owned);
      }
      var paired: seq<Effect> := [];
      if ControlsSwitch in r.caps {
        paired := MaybeRecordSwitchPairing(d, r.controls);
      }
      var length := if r.length.Some? && r.length.value > 0.0 then r.length else None;
      return fx + paired + [Show(DeviceOf(d, r.caps, length))];
    }

    /** Disconnecting and forgetting do the same. */
    method ForgetKnownDevice(d: Id) returns (fx: seq<Effect>)
      modifies this
      ensures Out(State(), fx) == ForgetDevice(old(State()), d)
    {
      hide Retry;
      if d !in devices {
        return [];
      }
      var caps := devices[d].caps;
      devices := devices - {d};
      fx := DropNotices(d, caps) + [Show(DeviceGone(d))];
      if ControlsMotion in caps {
        trains := trains - {d};
        order := RemoveId(order, d);
        fx := fx + [Show(Clearance(d, [], false)), Show(ScheduleOf(d, None))];
      }
      ghost var was := fx;
      var more := RetryBlockedClearances(None);
      fx := fx + more;
      assert ControlsMotion !in caps ==> was + [] == was;
    }

    // ---------- capability dispatch ----------

    method HandleGateStateChanged(d: Id, m: Marker, withholding: bool, reason: string) returns (fx: seq<Effect>)
      modifies this
      ensures Out(State(), fx) == DispatchGate(old(State()), d, m, withholding, reason)
    {
      hide Retry, GateOnEvent;
      if d !in devices {
        return [];
      }
      var caps, dev := devices[d].caps, devices[d];
      for k := 0 to |caps|
        invariant GateHooks(dev, caps[k..], m, withholding, reason)
                  == GateHooks(devices[d], caps, m, withholding, reason)
      {
        assert caps[k..][1..] == caps[k + 1..];
        if caps[k].GatesClearance? {
          dev := dev.(withheld := GateOnEvent(dev.withheld, m, withholding, reason));
        }
      }
      devices := devices[d := dev];
      fx := RetryBlockedClearances(None);
    }

    method HandleZoneStateChanged(d: Id, z: Zone) returns (fx: seq<Effect>)
      modifies this
      ensures Out(State(), fx) == DispatchZone(old(State()), d, z)
    {
      hide Retry, ZoneOnEvent;
      zoneBounds := zoneBounds[z.marker := d];
      if d !in devices {
        return [];
      }
      var caps, dev := devices[d].caps, devices[d];
      for k := 0 to |caps|
        invariant ZoneHooks(dev, caps[k..], z) == ZoneHooks(devices[d], caps, z)
      {
        assert caps[k..][1..] == caps[k + 1..];
        if caps[k].GatesZone? {
          dev := dev.(zones := ZoneOnEvent(dev.zones, z));
        }
      }
      devices := devices[d := dev];
      fx := RetryBlockedClearances(None);
    }

    method DispatchToCapabilities(d: Id) returns (fx: seq<Effect>)
      modifies this
      ensures Out(State(), fx) == DispatchOther(old(State()), d)
    {
      hide Retry;
      if d !in devices {
        return [];
      }
      fx := RetryBlockedClearances(None);
    }

    // ---------- tags and lengths ----------

    method HandleTagAssignment(d: Id, tag: string, b: Binding, kind: Kind) returns (fx: seq<Effect>)
      modifies this, layout
      ensures Out(State(), fx) == AssignTag(old(State()), d, tag, b, kind)
    {
      if !(d in devices && AssignsTags in devices[d].caps) {
        return [Publish(Raised(NotTagAssigner(d)))];
      }
      fx := [];
      if b.ToMarker? {
        var added := layout.Upsert(b.target, kind);
        if added {
          fx := [ShowLayout(layout.Value())];
        }
      }
      tags := tags[tag := b];
      fx := fx + [Show(TagOf(tag, b))];
    }

    method HandleTrainLengthChanged(d: Id, id: Id, length: Length) returns (fx: seq<Effect>)
      modifies this
      ensures Out(State(), fx) == ChangeLength(old(State()), d, id, length)
    {
      if !(d in devices && ReportsLength in devices[d].caps) {
        return [Publish(Raised(NotLengthReporter(d)))];
      }
      if id !in trains {
        return [];
      }
      trains := trains[id := trains[id].(length := Some(length))];
      return [Show(DeviceOf(id, if id in devices then devices[id].caps else [], Some(length)))];
    }

    // ---------- a train at a marker ----------

    method HandleTopologyViolation(id: Id, m: Marker, now: real) returns (fx: seq<Effect>)
      requires id in trains && trains[id].last.Some?
      modifies this
      ensures Out(State(), fx) == HoldAt(old(State()), id, m, now)
    {
      hide HoldsEdge, HasIncidentEdges;
      var t := trains[id];
      var p := t.last.value;
      var span := EdgeRef(p, m);
      var held := t.held;
      if !HoldsEdge(held, span) {
        held := held + [Held(span, true, clock)];
        clock := clock + 1;
      }
      t := t.(held := held, limit := Some(p), blocked := true);
      trains := trains[id := t];
      return [Send(id, RevokeClearance(UnknownTopology)),
              Publish(TopologyViolated(id, p, m, HasIncidentEdges(layout.Value(), m), now)),
              ClearanceOf(id, t)];
    }

    method EnterZoneAt(id: Id, m: Marker) returns (fx: seq<Effect>)
      requires id in trains
      modifies this
      ensures Out(State(), fx) == EnterZone(old(State()), id, m)
    {
      hide Retry;
      var t := trains[id];
      var hadHeld := |t.held| > 0;
      t := t.(inZone := Some(m), transit := None, zoneEntry := t.current, current := None, limit := Some(m),
              held := []);
      SetTrain(id, t);
      fx := if hadHeld then [ClearanceOf(id, t)] else [];
      var more := RetryBlockedClearances(None);
      fx := fx + more;
    }

    method RecordMarkerTraversal(id: Id, e: Option<EdgeRef>, now: real) returns (fx: seq<Effect>)
      modifies layout
      ensures Out(State(), fx) == Discover(old(State()), e, id, now)
    {
      hide RecordTraversal;
      if e.None? {
        return [];
      }
      var added, confirmed := layout.Record(e.value.from, e.value.to, Some(id), now);
      return if added || confirmed then [ShowLayout(layout.Value())] else [];
    }

    method AcceptMarker(id: Id, m: Marker, now: real) returns (fx: seq<Effect>)
      requires id in trains
      modifies this, layout
      ensures Out(State(), fx) == Pass(old(State()), id, m, now)
    {
      hide Retry, Extend, Arrive, Discover, Discovering;
      var t := trains[id];
      var arrived := Arrive(t, m, now);
      SetTrain(id, arrived);
      fx := if |arrived.held| != |t.held| then [ClearanceOf(id, arrived)] else [];
      var e := Completed(t.last, m);
      DiscoverKeepsTrains(State(), e, id, now);
      var more := RecordMarkerTraversal(id, e, now);
      fx := fx + more;
      fx := fx + [Publish(MarkerTraversed(id, m, Discovering(layout.Value(), e), e))];
      more := ExtendClearanceHorizon(id);
      fx := fx + more;
      more := RetryBlockedClearances(None);
      fx := fx + more;
    }

    method HandleTrainAtMarker(id: Id, m: Marker, now: real) returns (fx: seq<Effect>)
      modifies this, layout
      ensures Out(State(), fx) == AtMarker(old(State()), id, m, now)
    {
      hide Violates, EntersZone, HoldAt, EnterZone, Pass;
      if id !in trains || trains[id].inZone.Some? {
        return [];
      }
      var t := trains[id];
      if Violates(State(), t, m) {
        ViolationHasLast(State(), t, m);
        fx := HandleTopologyViolation(id, m, now);
        return;
      }
      var moved := t.(last := Some(m), zoneEntry := None);
      if EntersZone(State(), moved, m) {
        SetTrain(id, moved);
        fx := EnterZoneAt(id, m);
        return;
      }
      fx := AcceptMarker(id, m, now);
    }

    method HandleTagObserved(d: Id, tag: string, now: real) returns (fx: seq<Effect>)
      modifies this, layout
      ensures Out(State(), fx) == ObserveTag(old(State()), d, tag, now)
    {
      hide AtMarker;
      if tag !in tags {
        return [Publish(Raised(UnknownTag(tag)))];
      }
      if d !in devices {
        return [];
      }
      match tags[tag]
      case ToMarker(m) =>
        if ControlsMotion in devices[d].caps {
          fx := HandleTrainAtMarker(d, m, now);
        } else {
          fx := [];
        }
      case ToVehicle(v) => return [Publish(VehicleIdentified(v, d))];
    }

    // ---------- requests and switches ----------

    method HandleClearanceRequest(id: Id, e: EdgeRef) returns (fx: seq<Effect>)
      modifies this
      ensures Out(State(), fx) == RequestClearance(old(State()), id, e)
    {
      hide Missing, TryGrant;
      var missing := Missing(layout.Value(), [e.from, e.to], {});
      if missing != [] {
        return [Publish(Raised(UnknownMarkers(id, missing)))];
      }
      if id !in trains {
        return [];
      }
      fx := TryGrantClearance(id, e);
    }

    method HandleSwitchStateChanged(j: Marker, position: string, confirmed: bool) returns (fx: seq<Effect>)
      modifies this, layout
      ensures Out(State(), fx) == ChangeSwitch(old(State()), j, position, confirmed)
    {
      hide Retry;
      if j !in layout.markers {
        return [Publish(Raised(UnknownJunction(j)))];
      }
      fx := [Show(SwitchOf(j, position, confirmed))];
      if confirmed {
        layout.SetSwitchPosition(j, position);
        requested := requested[j := position];
        var more := RetryBlockedClearances(None);
        fx := fx + more;
      }
    }

    // ---------- planning ----------

    method PlanAndExecuteCurrentTransit(id: Id, budget: nat) returns (ok: bool, fx: seq<Effect>)
      requires id in trains
      modifies this
      ensures Attempted(State(), ok, fx) == PlanAndExecute(old(State()), id, budget)
      decreases budget, 1
    {
      hide Route;
      var t := trains[id];
      if t.schedule.None? || t.last.None? {
        return true, [];
      }
      var s := t.schedule.value;
      if t.last.value == StopOf(s) {
        if |s.stops| == 1 {
          SetTrain(id, t.(transit := None, limit := t.last));
          return true, [];
        }
        ok, fx := AdvanceScheduleAndReplan(id, budget);
        return;
      }
      fx := RouteTo(id, StopOf(s));
      ok := true;
    }

    method AdvanceScheduleAndReplan(id: Id, budget: nat) returns (ok: bool, fx: seq<Effect>)
      requires id in trains
      modifies this
      ensures Attempted(State(), ok, fx) == AdvanceAndReplan(old(State()), id, budget)
      decreases budget, 0
    {
      hide PlanAndExecute;
      var t := trains[id];
      if t.schedule.None? {
        return true, [];
      }
      var s := Next(t.schedule.value);
      SetTrain(id, t.(schedule := Some(s)));
      if budget == 0 {
        return false, [];
      }
      ok, fx := PlanAndExecuteCurrentTransit(id, budget - 1);
      fx := [Show(ScheduleOf(id, Some(s)))] + fx;
    }

    /** The replanning of one handler; if it fails, the handler fails with it and emits nothing. */
    method Replan(id: Id) returns (fx: seq<Effect>)
      requires id in trains
      modifies this
      ensures Out(State(), fx) == Settled(AdvanceAndReplan(old(State()), id, stack))
    {
      hide AdvanceAndReplan;
      var ok;
      ok, fx := AdvanceScheduleAndReplan(id, stack);
      if !ok {
        fx := [];
      }
    }

    method RouteTo(id: Id, target: Marker) returns (fx: seq<Effect>)
      requires id in trains && trains[id].last.Some? && trains[id].schedule.Some?
      modifies this
      ensures Out(State(), fx) == Route(old(State()), id, target)
    {
      hide Depart, Planner.PlanTransit;
      var t := trains[id];
      var from := t.last.value;
      var plan := PlannerSearch.PlanRoute(layout.Value(), from, target, HeadingOf(t));
      if plan.None? {
        return [Publish(Raised(NoPath(id, from, target)))];
      }
      if plan.value == [] {
        return [];
      }
      if target in zoneBounds && !(id in devices && CanReverse in devices[id].caps) {
        return [Publish(Raised(CannotReverse(id, target)))];
      }
      fx := DepartOn(id, plan.value);
    }

    method DepartOn(id: Id, edges: seq<EdgeRef>) returns (fx: seq<Effect>)
      requires id in trains && trains[id].schedule.Some? && edges != []
      modifies this
      ensures Out(State(), fx) == Depart(old(State()), id, edges)
    {
      hide Extend, Retry;
      var t := trains[id];
      SetTrain(id, t.(transit := Some(Transit(edges, 0)), limit := Some(edges[0].from)));
      fx := [Send(id, AssignRoute(t.schedule.value.route, edges))];
      var more := ExtendClearanceHorizon(id);
      fx := fx + more;
      more := RetryBlockedClearances(None);
      fx := fx + more;
    }

    // ---------- train status and zones ----------

    method HandleTrainStatus(id: Id, on: Option<EdgeRef>, distance: Option<real>, now: real) returns (fx: seq<Effect>)
      modifies this
      ensures Out(State(), fx) == Status(old(State()), id, on, distance, now)
    {
      hide Retry, AdvanceAndReplan, ClearedByTail;
      if id !in trains {
        return [];
      }
      var t := Seeded(trains[id], on);
      SetTrain(id, t);
      if t.dwellUntil.Some? && now >= t.dwellUntil.value {
        SetTrain(id, t.(dwellUntil := None));
        fx := Replan(id);
        return;
      }
      if IsPoint(t) || on.None? || distance.None? {
        return [];
      }
      var gone := CollectTailReleases(layout.Value(), t, on.value, distance.value);
      if gone == [] {
        return [];
      }
      t := t.(held := Release(t.held, HeldSet(gone)));
      SetTrain(id, t);
      var more := RetryBlockedClearances(None);
      return [ClearanceOf(id, t)] + more;
    }

    method HandleZoneTrainReleased(d: Id, zone: Marker, id: Id) returns (fx: seq<Effect>)
      modifies this
      ensures Out(State(), fx) == ReleaseFromZone(old(State()), d, zone, id)
    {
      hide Retry, AdvanceAndReplan;
      if !(zone in zoneBounds && zoneBounds[zone] == d) {
        return [Publish(Raised(NotZoneOwner(d, zone)))];
      }
      if id !in trains || trains[id].inZone != Some(zone) {
        return [];
      }
      var t := trains[id].(inZone := None);
      SetTrain(id, t);
      if t.schedule.Some? && StopOf(t.schedule.value) == zone {
        fx := Replan(id);
        return;
      }
      fx := RetryBlockedClearances(None);
    }

    // ---------- operator calls ----------

    method AssignScheduleTo(id: Id, route: string, stops: seq<Marker>) returns (fx: seq<Effect>)
      modifies this
      ensures Out(State(), fx) == Assign(old(State()), id, route, stops)
    {
      hide PlanAndExecute, UnknownStopsOf;
      if id !in trains || stops == [] {
        return [];
      }
      var unknown := UnknownStopsOf(layout.Value(), stops);
      if unknown != [] {
        return [Publish(Raised(UnknownStops(id, unknown)))];
      }
      var t := Assigned(trains[id], route, stops);
      SetTrain(id, t);
      var ok, more := PlanAndExecuteCurrentTransit(id, stack);
      return if ok then [Show(ScheduleOf(id, t.schedule))] + more else [];
    }

    method RevokeClearanceOf(id: Id) returns (fx: seq<Effect>)
      modifies this
      ensures Out(State(), fx) == RevokeTrain(old(State()), id)
    {
      hide Retry;
      if id !in trains {
        return [];
      }
      var t := trains[id];
      t := t.(held := [], limit := if t.last.Some? then t.last else t.limit, blocked := false);
      SetTrain(id, t);
      var more := RetryBlockedClearances(Some({id}));
      return [Send(id, RevokeClearance(Admin)), ClearanceOf(id, t)] + more;
    }

    method ResumeAfterRecovery(id: Id) returns (ok: bool, fx: seq<Effect>)
      requires id in trains
      modifies this
      ensures Attempted(State(), ok, fx) == Resume(old(State()), id)
    {
      hide Retry, PlanAndExecute;
      ok, fx := true, [];
      if trains[id].schedule.Some? {
        ok, fx := PlanAndExecuteCurrentTransit(id, stack);
        if !ok {
          return;
        }
      }
      var more := RetryBlockedClearances(None);
      fx := fx + more;
    }

    method ReanchorTrain(id: Id, m: Marker) returns (fx: seq<Effect>)
      modifies this
      ensures Out(State(), fx) == ReanchorAt(old(State()), id, m)
    {
      hide Resume;
      if id !in trains || !trains[id].blocked || m !in layout.markers {
        return [];
      }
      var t := Recovered(trains[id], m);
      SetTrain(id, t);
      var ok, more := ResumeAfterRecovery(id);
      return if ok then [ClearanceOf(id, t)] + more else [];
    }

    method ConfirmTrackFor(id: Id) returns (fx: seq<Effect>)
      modifies this, layout
      ensures Out(State(), fx) == ConfirmTrack(old(State()), id)
    {
      hide Resume, Uncertain, AddInferredEdge;
      if id !in trains || !trains[id].blocked {
        return [];
      }
      var e := Uncertain(layout.Value(), trains[id].held);
      if e.None? {
        return [];
      }
      layout.AddInferred(e.value.from, e.value.to);
      var t := Recovered(trains[id], e.value.to);
      SetTrain(id, t);
      var shown := [ShowLayout(layout.Value()), ClearanceOf(id, t)];
      var ok, more := ResumeAfterRecovery(id);
      return if ok then shown + more else [];
    }

    /** The layout was loaded from its document once already. */
    predicate Loaded() { Load(layout.document, layout.threshold).Some? }

    method ClearTrains()
      modifies this
      ensures State()
              == old(State()).(trains := map[], order := [], devices := map[], deadlock := [], nextRank := 0,
                               clock := 0)
    {
      trains, order, devices := map[], [], map[];
      deadlock, nextRank, clock := [], 0, 0;
    }

    method ClearTables()
      modifies this
      ensures State() == old(State()).(requested := map[], zoneBounds := map[], zoneOwned := map[], tags := map[])
    {
      requested, zoneBounds, zoneOwned, tags := map[], map[], map[], map[];
    }

    method Clear()
      requires Loaded()
      modifies this, layout
      ensures Out(State(), []) == ResetAll(old(State()))
    {
      hide Load;
      ClearTrains();
      ClearTables();
      var ok := layout.Reset();
    }

    /** Events about devices, tags and switches. */
    method HandleDeviceEvent(i: Input) returns (fx: seq<Effect>)
      requires i.DeviceRegistered? || i.DeviceDisconnected? || i.TagAssigned? || i.SwitchChanged? || i.GateChanged?
               || i.ZoneChanged?
               || i.OtherEvent?
      modifies this, layout
      ensures Out(State(), fx) == Step(old(State()), i)
    {
      hide Step, Register, ForgetDevice, AssignTag, ChangeSwitch, DispatchGate, DispatchZone, DispatchOther;
      DeviceSteps(State(), i);
      match i
      case DeviceRegistered(d, r) => fx := HandleDeviceRegistered(d, r);
      case DeviceDisconnected(d) => fx := ForgetKnownDevice(d);
      case TagAssigned(d, tag, b, kind) => fx := HandleTagAssignment(d, tag, b, kind);
      case SwitchChanged(j, p, confirmed) => fx := HandleSwitchStateChanged(j, p, confirmed);
      case GateChanged(d, m, withholding, reason) => fx := HandleGateStateChanged(d, m, withholding, reason);
      case ZoneChanged(d, z) => fx := HandleZoneStateChanged(d, z);
      case OtherEvent(d) => fx := DispatchToCapabilities(d);
    }

    /** Events about trains. */
    method HandleTrainEvent(i: Input) returns (fx: seq<Effect>)
      requires i.TagObserved? || i.ClearanceRequested? || i.TrainStatus? || i.LengthChanged? || i.ZoneReleased?
      modifies this, layout
      ensures Out(State(), fx) == Step(old(State()), i)
    {
      hide Step, ObserveTag, RequestClearance, Status, ChangeLength, ReleaseFromZone;
      TrainSteps(State(), i);
      match i
      case TagObserved(d, tag, now) => fx := HandleTagObserved(d, tag, now);
      case ClearanceRequested(id, e) => fx := HandleClearanceRequest(id, e);
      case TrainStatus(id, on, distance, now) => fx := HandleTrainStatus(id, on, distance, now);
      case LengthChanged(d, id, length) => fx := HandleTrainLengthChanged(d, id, length);
      case ZoneReleased(d, zone, id) => fx := HandleZoneTrainReleased(d, zone, id);
    }

    /** The events that arrive from devices. */
    method HandleEvent(i: Input) returns (fx: seq<Effect>)
      requires !IsOperatorCall(i)
      modifies this, layout
      ensures Out(State(), fx) == Step(old(State()), i)
    {
      hide Step;
      if i.TagObserved? || i.ClearanceRequested? || i.TrainStatus? || i.LengthChanged? || i.ZoneReleased? {
        fx := HandleTrainEvent(i);
      } else {
        fx := HandleDeviceEvent(i);
      }
    }

    /** The calls an operator makes, all but the reset. */
    method Operate(i: Input) returns (fx: seq<Effect>)
      requires IsOperatorCall(i) && !i.Reset?
      modifies this, layout
      ensures Out(State(), fx) == Step(old(State()), i)
    {
      hide Step, ForgetDevice, Assign, RevokeTrain, ReanchorAt, ConfirmTrack;
      OperatorSteps(State(), i);
      match i
      case AssignSchedule(id, route, stops) => fx := AssignScheduleTo(id, route, stops);
      case Revoke(id) => fx := RevokeClearanceOf(id);
      case Reanchor(id, m) => fx := ReanchorTrain(id, m);
      case ConfirmNewTrack(id) => fx := ConfirmTrackFor(id);
      case Forget(d) => fx := ForgetKnownDevice(d);
    }
  }

  // ---------- what each input calls for ----------

  lemma DeviceSteps(w: World, i: Input)
    ensures i.DeviceRegistered? ==> Step(w, i) == Register(w, i.device, i.registration)
    ensures i.DeviceDisconnected? ==> Step(w, i) == ForgetDevice(w, i.device)
    ensures i.TagAssigned? ==> Step(w, i) == AssignTag(w, i.device, i.tag, i.binding, i.kind)
    ensures i.SwitchChanged? ==> Step(w, i) == ChangeSwitch(w, i.junction, i.position, i.confirmed)
    ensures i.GateChanged? ==> Step(w, i) == DispatchGate(w, i.device, i.marker, i.withholding, i.reason)
    ensures i.ZoneChanged? ==> Step(w, i) == DispatchZone(w, i.device, i.report)
    ensures i.OtherEvent? ==> Step(w, i) == DispatchOther(w, i.device)
  {
    hide Register, ForgetDevice, AssignTag, ChangeSwitch, DispatchGate, DispatchZone, DispatchOther;
  }

  lemma TrainSteps(w: World, i: Input)
    ensures i.TagObserved? ==> Step(w, i) == ObserveTag(w, i.device, i.tag, i.now)
    ensures i.ClearanceRequested? ==> Step(w, i) == RequestClearance(w, i.train, i.edge)
    ensures i.TrainStatus? ==> Step(w, i) == Status(w, i.train, i.on, i.distance, i.now)
    ensures i.LengthChanged? ==> Step(w, i) == ChangeLength(w, i.device, i.train, i.length)
    ensures i.ZoneReleased? ==> Step(w, i) == ReleaseFromZone(w, i.device, i.zone, i.train)
  {
    hide ObserveTag, RequestClearance, Status, ChangeLength, ReleaseFromZone;
  }

  lemma OperatorSteps(w: World, i: Input)
    ensures i.AssignSchedule? ==> Step(w, i) == Assign(w, i.train, i.route, i.stops)
    ensures i.Revoke? ==> Step(w, i) == RevokeTrain(w, i.train)
    ensures i.Reanchor? ==> Step(w, i) == ReanchorAt(w, i.train, i.marker)
    ensures i.ConfirmNewTrack? ==> Step(w, i) == ConfirmTrack(w, i.train)
    ensures i.Forget? ==> Step(w, i) == ForgetDevice(w, i.device)
    ensures i.Reset? ==> Step(w, i) == ResetAll(w)
  {
    hide Assign, RevokeTrain, ReanchorAt, ConfirmTrack, ForgetDevice, ResetAll;
  }

  /** How a replanning method ended. */
  function Attempted(w: World, ok: bool, fx: seq<Effect>): Attempt {
    if ok then Returned(Out(w, fx)) else Threw(w)
  }

  lemma ThenNothing(o: Out)
    ensures forall w :: Then(Out(w, []), o) == o
  {
    assert [] + o.fx == o.fx;
  }

  lemma ThenThen(a: Out, b: Out, c: Out)
    ensures Then(a, Then(b, c)) == Then(Then(a, b), c)
  {
    assert a.fx + (b.fx + c.fx) == (a.fx + b.fx) + c.fx;
  }

  /** One step of the grant walk. */
  lemma WalkOne(w: World, id: Id, edges: seq<EdgeRef>, i: nat, granted: nat, ms: real)
    requires id in w.trains && i < |edges| && !HorizonSatisfied(granted, ms)
    ensures var e := edges[i];
            var more := ms + EdgeMs(w.layout, id, e);
            var g := TryGrant(w, id, e);
            Walk(w, id, edges, i, granted, ms)
            == if HoldsEdge(w.trains[id].held, e) then Walk(w, id, edges, i + 1, granted + 1, more)
               else if !HasGrant(g.fx) then g
               else Then(g, Walk(g.w, id, edges, i + 1, granted + 1, more))
  {
    hide TryGrant, HasGrant, HoldsEdge, EdgeMs;
  }

  lemma WalkEnds(w: World, id: Id, edges: seq<EdgeRef>, i: nat, granted: nat, ms: real)
    requires id in w.trains && (i >= |edges| || HorizonSatisfied(granted, ms))
    ensures Walk(w, id, edges, i, granted, ms) == Out(w, [])
  {
  }

  /** One marker of a list claimed by a zone device. */
  lemma OwnOne(w: World, d: Id, owned: seq<Marker>)
    requires owned != []
    ensures var m := owned[0];
            var zoneOwner := if m in w.zoneOwned then Some(w.zoneOwned[m]) else None;
            var switchOwner := if m in w.layout.switchDevice then Some(w.layout.switchDevice[m]) else None;
            OwnMarkers(w, d, owned)
            == if (zoneOwner.Some? && zoneOwner.value != d) || (switchOwner.Some? && switchOwner.value != d)
               then Then(Out(w,
                             [Publish(Raised(MarkerOwned(d, m,
                                                         if zoneOwner.Some? then zoneOwner.value
                                                         else switchOwner.value)))]),
                         OwnMarkers(w, d, owned[1..]))
               else OwnMarkers(w.(zoneOwned := w.zoneOwned[m := d]), d, owned[1..])
  {
  }

  lemma OwnNone(w: World, d: Id)
    ensures OwnMarkers(w, d, []) == Out(w, [])
  {
  }

  predicate IsOperatorCall(i: Input) {
    i.AssignSchedule? || i.Revoke? || i.Reanchor? || i.ConfirmNewTrack? || i.Forget? || i.Reset?
  }

  lemma DiscoverKeepsTrains(w: World, e: Option<EdgeRef>, id: Id, now: real)
    ensures Discover(w, e, id, now).w.trains == w.trains
  {
  }

  lemma ViolationHasLast(w: World, t: Train, m: Marker)
    requires Violates(w, t, m)
    ensures t.last.Some?
  {
  }
}
