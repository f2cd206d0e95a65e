/**
 * What the scheduler's inputs do to the layout: at most one layout operation each, and edges come only from discovery.
 */
module LayoutRuns {
  import opened Rail
  import opened LayoutModel
  import opened LayoutGraph
  import opened Gates
  import opened World
  import opened Clearance
  import opened Standoff
  import opened Frames
  import opened Handlers
  import Planner
  import PlannerProofs
  import Plays
  import HandlerPlays
  import Horizon
  import Vetoes

  // ---------- grants, retries and plans leave the layout alone ----------

  lemma RetryLayout(w: World, skip: Option<set<Id>>)
    ensures Retry(w, skip).w.layout == w.layout
  {
    hide Retry;
    Plays.RetrySteps(w, skip);
  }

  lemma ExtendLayout(w: World, id: Id)
    requires id in w.trains
    ensures Extend(w, id).w.layout == w.layout
  {
    hide Grew, Extend;
    ExtendGrows(w, id, {});
  }

  lemma DepartLayout(w: World, id: Id, edges: seq<EdgeRef>)
    requires id in w.trains && w.trains[id].schedule.Some? && edges != []
    ensures Depart(w, id, edges).w.layout == w.layout
  {
    hide Extend, Retry;
    var t := w.trains[id];
    var placed := Put(w, id, t.(transit := Some(Transit(edges, 0)), limit := Some(edges[0].from)));
    ExtendLayout(placed, id);
    RetryLayout(Extend(placed, id).w, None);
  }

  lemma {:induction false} PlanLayout(w: World, id: Id, budget: nat)
    requires id in w.trains
    ensures Settled(PlanAndExecute(w, id, budget)).w.layout == w.layout
    decreases budget, 1
  {
    hide Depart, Planner.PlanTransit;
    var t := w.trains[id];
    if t.schedule.Some? && t.last.Some? {
      var s := t.schedule.value;
      if t.last.value != StopOf(s) {
        var plan := Planner.PlanTransit(w.layout, t.last.value, StopOf(s), HeadingOf(t));
        if plan.Some? && plan.value != [] {
          DepartLayout(w, id, plan.value);
        }
      } else if |s.stops| > 1 {
        AdvanceLayout(w, id, budget);
      }
    }
  }

  lemma {:induction false} AdvanceLayout(w: World, id: Id, budget: nat)
    requires id in w.trains
    ensures Settled(AdvanceAndReplan(w, id, budget)).w.layout == w.layout
    decreases budget, 0
  {
    hide PlanAndExecute;
    var t := w.trains[id];
    if t.schedule.Some? && budget > 0 {
      PlanLayout(Put(w, id, t.(schedule := Some(Next(t.schedule.value)))), id, budget - 1);
    }
  }

  lemma ResumeLayout(w: World, id: Id)
    requires id in w.trains
    ensures Settled(Resume(w, id)).w.layout == w.layout
  {
    hide PlanAndExecute, Retry;
    RetryLayout(w, None);
    PlanLayout(w, id, w.stack);
    RetryLayout(Settled(PlanAndExecute(w, id, w.stack)).w, None);
  }

  // ---------- the layout operation of each input ----------

  /** The report is accepted and does not enter a zone. */
  predicate Passes(w: World, id: Id, m: Marker) {
    && id in w.trains && w.trains[id].inZone.None? && !Violates(w, w.trains[id], m)
    && !EntersZone(w, w.trains[id].(last := Some(m), zoneEntry := None), m)
  }

  function ReportOps(w: World, id: Id, m: Marker, now: real): seq<Op> {
    if !Passes(w, id, m) then []
    else
      var e := Completed(w.trains[id].last, m);
      if e.None? then [] else [Record(e.value.from, e.value.to, Some(id), now)]
  }

  predicate IsReport(w: World, i: Input) {
    && i.TagObserved? && i.tag in w.tags && i.device in w.devices && w.tags[i.tag].ToMarker?
    && ControlsMotion in w.devices[i.device].caps
  }

  predicate ConfirmsTrack(w: World, i: Input) {
    i.ConfirmNewTrack? && i.train in w.trains && w.trains[i.train].blocked
      && Uncertain(w.layout, w.trains[i.train].held).Some?
  }

  function OpsOf(w: World, i: Input): seq<Op> {
    if IsReport(w, i) then ReportOps(w, i.device, w.tags[i.tag].target, i.now)
    else if ConfirmsTrack(w, i) then
      var e := Uncertain(w.layout, w.trains[i.train].held).value;
      [Infer(e.from, e.to)]
    else match i
      case DeviceRegistered(d, r) => [SetPairings(Register(w, d, r).w.layout.switchDevice)]
      case TagAssigned(d, tag, b, kind) =>
        if d in w.devices && AssignsTags in w.devices[d].caps && b.ToMarker? && b.target !in w.layout.markers
        then [Upsert(b.target, kind)] else []
      case SwitchChanged(j, p, confirmed) =>
        if j in w.layout.markers && confirmed then [SetSwitches(w.layout.switches[j := p])] else []
      case Reset => [Reload]
      case _ => []
  }

  lemma AtMarkerLayout(w: World, id: Id, m: Marker, now: real)
    ensures AtMarker(w, id, m, now).w.layout == ApplyAll(w.layout, ReportOps(w, id, m, now))
  {
    hide Retry, Extend, Arrive, RecordTraversal, Violates, EntersZone, FindEdge;
    if Passes(w, id, m) {
      PassLayout(w, id, m, now);
    } else if id in w.trains && w.trains[id].inZone.None? && !Violates(w, w.trains[id], m) {
      EnterLayout(Put(w, id, w.trains[id].(last := Some(m), zoneEntry := None)), id, m);
    }
  }

  lemma PassLayout(w: World, id: Id, m: Marker, now: real)
    requires id in w.trains
    ensures var e := Completed(w.trains[id].last, m);
            Pass(w, id, m, now).w.layout == if e.None? then w.layout
                                            else RecordTraversal(w.layout, e.value.from, e.value.to, Some(id),
                                                                 now).layout
  {
    hide Retry, Extend, Arrive, RecordTraversal, Discovering;
    var t := w.trains[id];
    var learned := Discover(Put(w, id, Arrive(t, m, now)), Completed(t.last, m), id, now);
    ExtendLayout(learned.w, id);
    RetryLayout(Extend(learned.w, id).w, None);
  }

  lemma EnterLayout(w: World, id: Id, m: Marker)
    requires id in w.trains
    ensures EnterZone(w, id, m).w.layout == w.layout
  {
    hide Retry;
    var t := w.trains[id];
    var t' := t.(inZone := Some(m), transit := None, zoneEntry := t.current, current := None, limit := Some(m),
                 held := []);
    RetryLayout(Put(w, id, t'), None);
  }

  lemma {:induction false} OwnMarkersLayout(w: World, d: Id, owned: seq<Marker>)
    ensures OwnMarkers(w, d, owned).w.layout == w.layout
    decreases |owned|
  {
    if owned == [] {
    } else {
      OwnMarkersLayout(w, d, owned[1..]);
      OwnMarkersLayout(w.(zoneOwned := w.zoneOwned[owned[0] := d]), d, owned[1..]);
    }
  }

  lemma RegisterLayout(w: World, d: Id, r: Registration)
    ensures Register(w, d, r).w.layout == w.layout.(switchDevice := Register(w, d, r).w.layout.switchDevice)
  {
    hide OwnMarkers, InitTrain, PairSwitch, UnknownOnes;
    var w1 := w.(devices := w.devices[d := Device(r.caps, [], [])]);
    var w2 := if ControlsMotion in r.caps then InitTrain(w1, d, r) else w1;
    InitTrainLayout(w1, d, r);
    OwnMarkersLayout(w2, d, r.owned);
    var zones := if GatesZone in r.caps then OwnMarkers(w2, d, r.owned) else Out(w2, []);
    PairSwitchLayout(zones.w, d, r.controls);
  }

  lemma InitTrainLayout(w: World, d: Id, r: Registration)
    ensures InitTrain(w, d, r).layout == w.layout
  {
  }

  lemma PairSwitchLayout(w: World, d: Id, controls: Option<Marker>)
    ensures PairSwitch(w, d, controls).w.layout
            == w.layout.(switchDevice := PairSwitch(w, d, controls).w.layout.switchDevice)
  {
  }

  lemma StatusLayout(w: World, id: Id, on: Option<EdgeRef>, distance: Option<real>, now: real)
    ensures Status(w, id, on, distance, now).w.layout == w.layout
  {
    hide AdvanceAndReplan, Retry, ClearedByTail;
    if id in w.trains {
      var t := Seeded(w.trains[id], on);
      AdvanceLayout(Put(Put(w, id, t), id, t.(dwellUntil := None)), id, w.stack);
      if on.Some? && distance.Some? {
        var gone := ClearedByTail(w.layout, t, on.value, distance.value);
        RetryLayout(Put(Put(w, id, t), id, t.(held := Release(t.held, HeldSet(gone)))), None);
      }
    }
  }

  lemma ReleaseLayout(w: World, d: Id, zone: Marker, id: Id)
    ensures ReleaseFromZone(w, d, zone, id).w.layout == w.layout
  {
    hide AdvanceAndReplan, Retry;
    if id in w.trains {
      var w1 := Put(w, id, w.trains[id].(inZone := None));
      AdvanceLayout(w1, id, w.stack);
      RetryLayout(w1, None);
    }
  }

  lemma AssignLayout(w: World, id: Id, route: string, stops: seq<Marker>)
    ensures Assign(w, id, route, stops).w.layout == w.layout
  {
    hide PlanAndExecute, UnknownStopsOf;
    if id in w.trains && stops != [] {
      PlanLayout(Put(w, id, Assigned(w.trains[id], route, stops)), id, w.stack);
    }
  }

  lemma RevokeLayout(w: World, id: Id)
    ensures RevokeTrain(w, id).w.layout == w.layout
  {
    hide Retry;
    if id in w.trains {
      var t := w.trains[id];
      RetryLayout(Put(w, id, t.(held := [], limit := if t.last.Some? then t.last else t.limit, blocked := false)),
                  Some({id}));
    }
  }

  lemma ReanchorLayout(w: World, id: Id, m: Marker)
    ensures ReanchorAt(w, id, m).w.layout == w.layout
  {
    hide Resume;
    if id in w.trains {
      ResumeLayout(Put(w, id, Recovered(w.trains[id], m)), id);
    }
  }

  lemma ForgetLayout(w: World, d: Id)
    ensures ForgetDevice(w, d).w.layout == w.layout
  {
    hide Retry, DropNotices;
    if d in w.devices {
      var w1 := w.(devices := w.devices - {d});
      RetryLayout(w1, None);
      RetryLayout(RemoveTrain(w1, d), None);
    }
  }

  lemma GateLayout(w: World, d: Id, m: Marker, withholding: bool, reason: string)
    ensures DispatchGate(w, d, m, withholding, reason).w.layout == w.layout
  {
    hide Retry, GateHooks;
    if d in w.devices {
      RetryLayout(w.(devices := w.devices[d := GateHooks(w.devices[d], w.devices[d].caps, m, withholding, reason)]),
                  None);
    }
  }

  lemma ZoneLayout(w: World, d: Id, z: Zone)
    ensures DispatchZone(w, d, z).w.layout == w.layout
  {
    hide Retry, ZoneHooks;
    var w1 := w.(zoneBounds := w.zoneBounds[z.marker := d]);
    if d in w.devices {
      RetryLayout(w1.(devices := w1.devices[d := ZoneHooks(w1.devices[d], w1.devices[d].caps, z)]), None);
    }
  }

  lemma SwitchLayout(w: World, j: Marker, p: string, confirmed: bool)
    ensures ChangeSwitch(w, j, p, confirmed).w.layout
            == if j in w.layout.markers && confirmed then w.layout.(switches := w.layout.switches[j := p]) else w.layout
  {
    hide Retry;
    RetryLayout(Confirm(w, j, p), None);
  }

  lemma LearnTrackLayout(w: World, id: Id)
    ensures ConfirmTrack(w, id).w.layout
            == if id in w.trains && w.trains[id].blocked && Uncertain(w.layout, w.trains[id].held).Some?
               then var e := Uncertain(w.layout, w.trains[id].held).value; AddInferredEdge(w.layout, e.from, e.to)
               else w.layout
  {
    hide Resume, AddInferredEdge, Uncertain;
    if id in w.trains && w.trains[id].blocked && Uncertain(w.layout, w.trains[id].held).Some? {
      var e := Uncertain(w.layout, w.trains[id].held).value;
      var l := AddInferredEdge(w.layout, e.from, e.to);
      ResumeLayout(Put(w.(layout := l), id, Recovered(w.trains[id], e.to)), id);
    }
  }

  lemma OneOp(l: Layout, op: Op)
    ensures ApplyAll(l, [op]) == Apply(l, op) && ApplyAll(l, []) == l
  {
    hide Apply;
    assert [op][..0] == [];
  }

  /** Inputs with an operation of their own. */
  predicate Touching(i: Input) {
    i.DeviceRegistered? || i.TagObserved? || i.TagAssigned? || i.SwitchChanged? || i.ConfirmNewTrack? || i.Reset?
  }

  lemma ReportingLayout(w: World, i: Input)
    requires i.DeviceRegistered? || i.TagObserved? || i.TagAssigned?
    ensures Step(w, i).w.layout == ApplyAll(w.layout, OpsOf(w, i))
  {
    hide Register, AtMarker, AssignTag, Passes;
    match i
    case DeviceRegistered(d, r) =>
      RegisterLayout(w, d, r);
      OneOp(w.layout, SetPairings(Register(w, d, r).w.layout.switchDevice));
    case TagObserved(d, tag, now) =>
      if IsReport(w, i) {
        AtMarkerLayout(w, d, w.tags[tag].target, now);
      }
    case TagAssigned(d, tag, b, kind) => AssignTagLayout(w, d, tag, b, kind);
  }

  lemma SwitchingLayout(w: World, i: Input)
    requires i.SwitchChanged?
    ensures Step(w, i).w.layout == ApplyAll(w.layout, OpsOf(w, i))
  {
    hide ChangeSwitch, ApplyAll;
    SwitchLayout(w, i.junction, i.position, i.confirmed);
    OneOp(w.layout, SetSwitches(w.layout.switches[i.junction := i.position]));
  }

  lemma ResettingLayout(w: World)
    ensures Step(w, Reset).w.layout == ApplyAll(w.layout, OpsOf(w, Reset))
  {
    hide Load, ApplyAll;
    OneOp(w.layout, Reload);
  }

  lemma TrackLayout(w: World, i: Input)
    requires i.ConfirmNewTrack?
    ensures Step(w, i).w.layout == ApplyAll(w.layout, OpsOf(w, i))
  {
    hide ConfirmTrack, AddInferredEdge, Uncertain, ApplyAll;
    LearnTrackLayout(w, i.train);
    OneOp(w.layout, Reload);
    if ConfirmsTrack(w, i) {
      var e := Uncertain(w.layout, w.trains[i.train].held).value;
      OneOp(w.layout, Infer(e.from, e.to));
    }
  }

  lemma RecoveringLayout(w: World, i: Input)
    requires i.AssignSchedule? || i.Reanchor?
    ensures Step(w, i).w.layout == w.layout
  {
    hide Assign, ReanchorAt;
    match i
    case AssignSchedule(id, route, stops) => AssignLayout(w, id, route, stops);
    case Reanchor(id, m) => ReanchorLayout(w, id, m);
  }

  lemma OperatorLayout(w: World, i: Input)
    requires i.ZoneReleased? || i.Revoke? || i.Forget?
    ensures Step(w, i).w.layout == w.layout
  {
    hide ReleaseFromZone, RevokeTrain, ForgetDevice;
    match i
    case ZoneReleased(d, zone, id) => ReleaseLayout(w, d, zone, id);
    case Revoke(id) => RevokeLayout(w, id);
    case Forget(d) => ForgetLayout(w, d);
  }

  lemma EventLayout(w: World, i: Input)
    requires i.DeviceDisconnected? || i.ClearanceRequested? || i.TrainStatus? || i.LengthChanged?
    ensures Step(w, i).w.layout == w.layout
  {
    hide ForgetDevice, RequestClearance, Status, ChangeLength;
    match i
    case DeviceDisconnected(d) => ForgetLayout(w, d);
    case ClearanceRequested(id, e) => RequestLayout(w, id, e);
    case TrainStatus(id, on, distance, now) => StatusLayout(w, id, on, distance, now);
    case LengthChanged(d, id, length) => LengthLayout(w, d, id, length);
  }

  lemma HookLayout(w: World, i: Input)
    requires i.GateChanged? || i.ZoneChanged? || i.OtherEvent?
    ensures Step(w, i).w.layout == w.layout
  {
    hide DispatchGate, DispatchZone, Retry;
    match i
    case GateChanged(d, m, withholding, reason) => GateLayout(w, d, m, withholding, reason);
    case ZoneChanged(d, z) => ZoneLayout(w, d, z);
    case OtherEvent(d) => RetryLayout(w, None);
  }

  lemma NoOps(w: World, i: Input)
    requires !Touching(i)
    ensures OpsOf(w, i) == []
  {
  }

  /** Every input applies at most one operation to the layout, and this is it. */
  lemma StepLayout(w: World, i: Input)
    ensures Step(w, i).w.layout == ApplyAll(w.layout, OpsOf(w, i))
  {
    hide Step, OpsOf;
    if i.DeviceRegistered? || i.TagObserved? || i.TagAssigned? {
      ReportingLayout(w, i);
    } else if i.SwitchChanged? {
      SwitchingLayout(w, i);
    } else if i.Reset? {
      ResettingLayout(w);
    } else if i.ConfirmNewTrack? {
      TrackLayout(w, i);
    } else {
      NoOps(w, i);
      OneOp(w.layout, Reload);
      if i.ZoneReleased? || i.Revoke? || i.Forget? {
        OperatorLayout(w, i);
      } else if i.AssignSchedule? || i.Reanchor? {
        RecoveringLayout(w, i);
      } else if i.GateChanged? || i.ZoneChanged? || i.OtherEvent? {
        HookLayout(w, i);
      } else {
        EventLayout(w, i);
      }
    }
  }

  lemma AssignTagLayout(w: World, d: Id, tag: string, b: Binding, kind: Kind)
    ensures AssignTag(w, d, tag, b, kind).w.layout == ApplyAll(w.layout, OpsOf(w, TagAssigned(d, tag, b, kind)))
  {
  }

  lemma RequestLayout(w: World, id: Id, e: EdgeRef)
    ensures RequestClearance(w, id, e).w.layout == w.layout
  {
    hide Missing, TryGrant;
    if id in w.trains {
      TryGrantGrows(w, id, e, {});
    }
  }

  lemma LengthLayout(w: World, d: Id, id: Id, length: Length)
    ensures ChangeLength(w, d, id, length).w.layout == w.layout
  {
  }

  // ---------- over whole runs ----------

  lemma OpsKeep(l: Layout, ops: seq<Op>)
    requires Sound(l) && |ops| <= 1
    ensures Sound(ApplyAll(l, ops))
  {
    hide Sound, Apply;
    if ops != [] {
      assert ops[..|ops| - 1] == [];
      assert ApplyAll(l, []) == l;
      ApplyKeeps(l, ops[0]);
    }
  }

  /** Whatever the inputs, the scheduler's layout keeps the graph invariant. */
  lemma {:induction false} RunKeepsLayout(w: World, inputs: seq<Input>)
    requires Sound(w.layout)
    ensures Sound(Run(w, inputs).w.layout)
    decreases |inputs|
  {
    hide Sound, Step, ApplyAll, OpsOf;
    if inputs == [] {
    } else {
      var before := Run(w, inputs[..|inputs| - 1]).w;
      var i := inputs[|inputs| - 1];
      RunKeepsLayout(w, inputs[..|inputs| - 1]);
      StepLayout(before, i);
      AtMostOne(before, i);
      OpsKeep(before.layout, OpsOf(before, i));
    }
  }

  lemma AtMostOne(w: World, i: Input)
    ensures |OpsOf(w, i)| <= 1
  {
    hide Register, Passes, IsReport, ConfirmsTrack;
  }

  ghost predicate HasEdge(out: Index, r: EdgeRef) {
    exists m, e :: m in out && e in out[m] && e.Ref() == r
  }

  lemma PromoteRefs(out: Index, key: Marker, from: Marker, to: Marker, r: EdgeRef)
    ensures HasEdge(PromoteIn(out, key, from, to), r) ==> HasEdge(out, r)
  {
    hide Promote;
    var out' := PromoteIn(out, key, from, to);
    if m: Marker, e: LayoutEdge :| m in out' && e in out'[m] && e.Ref() == r {
      PromoteMembers(out[m], from, to);
      var i :| 0 <= i < |out'[m]| && out'[m][i] == e;
      assert out[m][i] in out[m] && out[m][i].Ref() == r;
    }
  }

  lemma AddRefs(l: Layout, from: Marker, to: Marker, r: EdgeRef)
    ensures HasEdge(AddInferredEdge(l, from, to).out, r)
            ==> HasEdge(l.out, r) || (r == EdgeRef(from, to) && FindEdge(l, from, to).None?)
  {
    hide FindEdge;
    var out' := AddInferredEdge(l, from, to).out;
    if m: Marker, e: LayoutEdge :| m in out' && e in out'[m] && e.Ref() == r {
      assert m in l.out && (e in l.out[m] || e == Inferred(from, to));
    }
  }

  /** Only an inference or a recorded traversal of an unknown edge adds an edge, and adds just that one. */
  lemma OnlyDiscoveryAdds(l: Layout, op: Op, r: EdgeRef)
    requires !op.Reload? && HasEdge(Apply(l, op).out, r) && !HasEdge(l.out, r)
    ensures || (op.Infer? && r == EdgeRef(op.from, op.to))
            || (op.Record? && r == EdgeRef(op.begin, op.end) && FindEdge(l, op.begin, op.end).None?)
  {
    hide HasEdge, AddInferredEdge, RecordTraversal, FindEdge;
    match op
    case Infer(from, to) => AddRefs(l, from, to, r);
    case Record(from, to, train, now) => RecordRefs(l, from, to, train, now, r);
    case Upsert(id, kind) => UpsertRefs(l, id, kind, r);
    case PruneOrphans => PruneRefs(l, r);
    case SetSwitches(_) =>
    case SetPairings(_) =>
  }

  lemma UpsertRefs(l: Layout, id: Marker, kind: Kind, r: EdgeRef)
    ensures HasEdge(UpsertMarker(l, id, kind).out, r) ==> HasEdge(l.out, r)
  {
    var out' := UpsertMarker(l, id, kind).out;
    if m: Marker, e: LayoutEdge :| m in out' && e in out'[m] && e.Ref() == r {
      assert m in l.out && e in l.out[m];
    }
  }

  lemma PruneRefs(l: Layout, r: EdgeRef)
    ensures HasEdge(Prune(l).out, r) ==> HasEdge(l.out, r)
  {
    hide Orphans;
    var out' := Prune(l).out;
    if m: Marker, e: LayoutEdge :| m in out' && e in out'[m] && e.Ref() == r {
      assert m in l.out && e in l.out[m];
    }
  }

  lemma RecordRefs(l: Layout, from: Marker, to: Marker, train: Option<Id>, now: real, r: EdgeRef)
    ensures HasEdge(RecordTraversal(l, from, to, train, now).layout.out, r) ==>
              HasEdge(l.out, r) || (r == EdgeRef(from, to) && FindEdge(l, from, to).None?)
  {
    hide HasEdge, FindEdge, AddInferredEdge, Blend;
    AddRefs(l, from, to, r);
    PromoteRefs(AddInferredEdge(l, from, to).out, from, from, to, r);
  }

  /** The input is the report of a train without a route that has just come along the edge. */
  ghost predicate FreeReport(w: World, i: Input, r: EdgeRef) {
    && IsReport(w, i) && i.device in w.trains && w.trains[i.device].transit.None? && w.trains[i.device].last.Some?
    && r == EdgeRef(w.trains[i.device].last.value, w.tags[i.tag].target)
  }

  /** An edge is added only by the report of a train with no route, or by the operator confirming new track. */
  lemma EdgesComeFromDiscovery(w: World, i: Input, r: EdgeRef)
    requires !i.Reset? && HasEdge(Step(w, i).w.layout.out, r) && !HasEdge(w.layout.out, r)
    ensures FreeReport(w, i, r) || (ConfirmsTrack(w, i) && Uncertain(w.layout, w.trains[i.train].held) == Some(r))
  {
    hide Step, HasEdge, FindEdge, Apply, Register;
    StepLayout(w, i);
    AtMostOne(w, i);
    var ops := OpsOf(w, i);
    assert ops != [] ==> ops[..|ops| - 1] == [] && ApplyAll(w.layout, ops) == Apply(w.layout, ops[0]);
    assert ops != [];
    OnlyDiscoveryAdds(w.layout, ops[0], r);
  }

  lemma SoundIsKeyed(l: Layout)
    requires Sound(l)
    ensures PlannerProofs.WellKeyed(l)
  {
    hide Mirrored, Discovered, LateCopiesConfirmed;
    forall m, e | m in l.out && e in l.out[m] ensures e.from == m {
      assert LeavesFor(l.markers.Keys, m, l.out[m]);
    }
  }

  /** So in every run every planned route is legal. */
  lemma RunRoutesAreLegal(w: World, inputs: seq<Input>, from: Marker, target: Marker, current: Option<EdgeRef>)
    requires Sound(w.layout)
    ensures var l := Run(w, inputs).w.layout;
            var p := Planner.PlanTransit(l, from, target, current);
            p.Some? ==> PlannerProofs.LegalRoute(l, from, target, current, p.value)
  {
    hide Sound, Run, Planner.PlanTransit, PlannerProofs.LegalRoute;
    RunKeepsLayout(w, inputs);
    SoundIsKeyed(Run(w, inputs).w.layout);
    PlannerProofs.PlanIsLegal(Run(w, inputs).w.layout, from, target, current);
  }

  // ---------- switch positions ----------

  function Position(switches: map<Marker, string>, m: Marker): Option<string> {
    if m in switches then Some(switches[m]) else None
  }

  /** The latest confirmed report about a known junction, or the position declared for it before any. */
  function Confirmed(w: World, inputs: seq<Input>, m: Marker): Option<string> {
    if inputs == [] then Position(w.layout.switches, m)
    else
      var front, i := inputs[..|inputs| - 1], inputs[|inputs| - 1];
      if i.Reset? then Position(Step(Run(w, front).w, i).w.layout.switches, m)
      else if i.SwitchChanged? && i.confirmed && i.junction == m && m in Run(w, front).w.layout.markers
           then Some(i.position)
      else Confirmed(w, front, m)
  }

  lemma OpSwitches(l: Layout, op: Op)
    requires op.Upsert? || op.Infer? || op.Record? || op.SetPairings?
    ensures Apply(l, op).switches == l.switches
  {
    hide RecordTraversal;
    if op.Record? {
      HandlerPlays.RecordKeepsSwitches(l, op.begin, op.end, op.train, op.now);
    }
  }

  lemma OpKinds(w: World, i: Input)
    requires !i.Reset? && !i.SwitchChanged?
    ensures OpsOf(w, i) != [] ==> var op := OpsOf(w, i)[0]; op.Upsert? || op.Infer? || op.Record? || op.SetPairings?
  {
    hide Register, Passes;
  }

  lemma StepSwitches(w: World, i: Input, m: Marker)
    requires !i.Reset?
    ensures Position(Step(w, i).w.layout.switches, m)
            == if i.SwitchChanged? && i.confirmed && i.junction == m && m in w.layout.markers then Some(i.position)
               else Position(w.layout.switches, m)
  {
    if i.SwitchChanged? {
      hide ChangeSwitch;
      SwitchLayout(w, i.junction, i.position, i.confirmed);
    } else {
      OtherSwitches(w, i);
    }
  }

  lemma OtherSwitches(w: World, i: Input)
    requires !i.Reset? && !i.SwitchChanged?
    ensures Step(w, i).w.layout.switches == w.layout.switches
  {
    hide Step, OpsOf, Apply;
    var ops := OpsOf(w, i);
    StepLayout(w, i);
    AtMostOne(w, i);
    OpKinds(w, i);
    if ops == [] {
      OneOp(w.layout, Reload);
    } else {
      assert ops == [ops[0]];
      OneOp(w.layout, ops[0]);
      OpSwitches(w.layout, ops[0]);
    }
  }

  /** Over every run, each recorded position is the latest confirmed report. */
  lemma {:induction false} RunSwitches(w: World, inputs: seq<Input>, m: Marker)
    ensures Position(Run(w, inputs).w.layout.switches, m) == Confirmed(w, inputs, m)
    decreases |inputs|
  {
    hide Step, Position;
    if inputs == [] {
    } else {
      var front, i := inputs[..|inputs| - 1], inputs[|inputs| - 1];
      RunSwitches(w, front, m);
      if !i.Reset? {
        StepSwitches(Run(w, front).w, i, m);
      }
    }
  }

  /** In every run, an edge that requires a switch position is granted only if the latest confirmed report says so. */
  lemma GrantsFollowReports(w: World, inputs: seq<Input>, i: Input, x: Effect, e: EdgeRef)
    requires !i.Reset?
    requires x in Step(Run(w, inputs).w, i).fx && x.Send? && x.command.GrantClearance? && e in x.command.edges
    ensures var l := Step(Run(w, inputs).w, i).w.layout;
            Required(l, e).Some? ==> Confirmed(w, inputs + [i], e.from) == Required(l, e)
  {
    hide Step, Required, Confirmed, Denied;
    var v := Run(w, inputs).w;
    Vetoes.GrantsFit(v, i, x);
    RunSwitches(w, inputs + [i], e.from);
    assert (inputs + [i])[..|inputs|] == inputs;
    assert Run(w, inputs + [i]).w == Step(v, i).w;
  }

  // ---------- learned times ----------

  /** No timestamp lies ahead of the clock, and no learned time is negative. */
  ghost predicate TimesOk(l: Layout, clock: real) {
    && (l.lastAt.Some? ==> l.lastAt.value <= clock) && (forall t :: t in l.lastAtBy ==> l.lastAtBy[t] <= clock)
    && (forall e :: e in l.learned ==> l.learned[e] >= 0.0)
    && (forall t, e :: t in l.learnedBy && e in l.learnedBy[t] ==> l.learnedBy[t][e] >= 0.0)
  }

  lemma BlendStays(prior: map<EdgeRef, real>, e: EdgeRef, delta: real)
    requires delta >= 0.0 && forall x :: x in prior ==> prior[x] >= 0.0
    ensures forall x :: x in Blend(prior, e, delta) ==> Blend(prior, e, delta)[x] >= 0.0
  {
  }

  lemma SharedStays(l: Layout, e: EdgeRef, clock: real, now: real)
    requires TimesOk(l, clock) && clock <= now
    ensures TimesOk(LearnShared(l, e, now), now)
  {
    hide Blend;
    if l.lastAt.Some? {
      BlendStays(l.learned, e, now - l.lastAt.value);
    }
  }

  lemma PerTrainStays(l: Layout, e: EdgeRef, train: Id, clock: real, now: real)
    requires TimesOk(l, clock) && clock <= now
    ensures TimesOk(LearnForTrain(l, e, train, now), now)
  {
    hide Blend;
    var mine := if train in l.learnedBy then l.learnedBy[train] else map[];
    var l' := LearnForTrain(l, e, train, now);
    if train in l.lastAtBy {
      BlendStays(mine, e, now - l.lastAtBy[train]);
      var blended := Blend(mine, e, now - l.lastAtBy[train]);
      assert l'.learnedBy == l.learnedBy[train := blended];
      forall t, x | t in l'.learnedBy && x in l'.learnedBy[t] ensures l'.learnedBy[t][x] >= 0.0 {
        if t == train {
          assert x in blended;
        }
      }
    } else {
      assert l'.learnedBy == l.learnedBy;
    }
  }

  ghost predicate SameTimes(l: Layout, l': Layout) {
    l'.lastAt == l.lastAt && l'.lastAtBy == l.lastAtBy && l'.learned == l.learned && l'.learnedBy == l.learnedBy
  }

  /** With a clock that does not run backwards, every recorded traversal keeps learned times non-negative. */
  lemma RecordStays(l: Layout, from: Marker, to: Marker, train: Option<Id>, clock: real, now: real)
    requires TimesOk(l, clock) && clock <= now
    ensures TimesOk(RecordTraversal(l, from, to, train, now).layout, now)
  {
    hide TimesOk, LearnShared, LearnForTrain, ConfirmEdge, AddInferredEdge, FindEdge;
    var key := EdgeRef(from, to);
    var l1 := AddInferredEdge(l, from, to);
    var l2 := l1.(counts := l1.counts[key := Count(l.counts, key) + 1]);
    InferTimes(l, from, to);
    ConfirmTimes(l2, from, to);
    TimesCarry(l, l, clock, now);
    TimesCarry(l, l2, clock, clock);
    TimesCarry(l, ConfirmEdge(l2, from, to), clock, clock);
    SharedStays(l2, key, clock, now);
    SharedStays(ConfirmEdge(l2, from, to), key, clock, now);
    if train.Some? {
      PerTrainStays(LearnShared(l2, key, now), key, train.value, now, now);
      PerTrainStays(LearnShared(ConfirmEdge(l2, from, to), key, now), key, train.value, now, now);
    }
  }

  lemma InferTimes(l: Layout, from: Marker, to: Marker)
    ensures SameTimes(l, AddInferredEdge(l, from, to))
  {
  }

  lemma ConfirmTimes(l: Layout, from: Marker, to: Marker)
    ensures SameTimes(l, ConfirmEdge(l, from, to))
  {
  }

  lemma TimesCarry(l: Layout, l': Layout, clock: real, now: real)
    requires TimesOk(l, clock) && SameTimes(l, l') && clock <= now
    ensures TimesOk(l', now)
  {
  }

  // ---------- learned times over whole runs ----------

  lemma {:induction false} MarkersTimes(l: Layout, ms: seq<(Marker, Kind)>)
    ensures SameTimes(l, PutMarkers(l, ms))
    decreases |ms|
  {
    if ms == [] {
    } else {
      MarkersTimes(PutMarker(l, ms[0].0, ms[0].1), ms[1..]);
    }
  }

  lemma {:induction false} EdgesTimes(l: Layout, es: seq<LayoutEdge>)
    ensures PutEdges(l, es).Some? ==> SameTimes(l, PutEdges(l, es).value)
    decreases |es|
  {
    if es == [] {
    } else if CanAdd(l, es[0]) {
      EdgesTimes(AddEdge(l, es[0]), es[1..]);
    }
  }

  lemma {:induction false} JunctionsTimes(l: Layout, js: seq<(Marker, Option<string>)>)
    ensures SameTimes(l, PutJunctions(l, js))
    decreases |js|
  {
    if js == [] {
    } else {
      var initial := js[0].1;
      var next := if initial.Some? && initial.value != "" then l.(switches := l.switches[js[0].0 := initial.value])
                  else l;
      JunctionsTimes(next, js[1..]);
    }
  }

  /** A layout as loaded has learned nothing. */
  lemma LoadedTimes(document: Document, threshold: int, clock: real)
    ensures TimesOk(Empty(document, threshold), clock)
    ensures Load(document, threshold).Some? ==> TimesOk(Load(document, threshold).value, clock)
  {
    hide PutMarkers, PutEdges, PutJunctions;
    var l0 := Empty(document, threshold);
    var l1 := PutMarkers(l0, document.markers);
    MarkersTimes(l0, document.markers);
    EdgesTimes(l1, document.edges);
    if PutEdges(l1, document.edges).Some? {
      JunctionsTimes(PutEdges(l1, document.edges).value, document.junctions);
    }
  }

  lemma OpTimes(l: Layout, op: Op, clock: real, now: real)
    requires TimesOk(l, clock) && clock <= now && (op.Record? ==> op.now == now)
    ensures TimesOk(Apply(l, op), now)
  {
    hide TimesOk, Load, AddInferredEdge, RecordTraversal, Prune, Orphans;
    match op
    case Upsert(id, kind) => TimesCarry(l, UpsertMarker(l, id, kind), clock, now);
    case Infer(from, to) =>
      InferTimes(l, from, to);
      TimesCarry(l, AddInferredEdge(l, from, to), clock, now);
    case Record(from, to, train, _) => RecordStays(l, from, to, train, clock, now);
    case PruneOrphans =>
      PruneTimes(l);
      TimesCarry(l, Prune(l), clock, now);
    case SetSwitches(s) => TimesCarry(l, l.(switches := s), clock, now);
    case SetPairings(p) => TimesCarry(l, l.(switchDevice := p), clock, now);
    case Reload => LoadedTimes(l.document, l.threshold, now);
  }

  lemma PruneTimes(l: Layout)
    ensures SameTimes(l, Prune(l))
  {
  }

  predicate Reads(i: Input) { i.TagObserved? || i.TrainStatus? }

  /** The last clock reading of a run that began at the given one. */
  function Clock(start: real, inputs: seq<Input>): real {
    if inputs == [] then start
    else if Reads(inputs[|inputs| - 1]) then inputs[|inputs| - 1].now
    else Clock(start, inputs[..|inputs| - 1])
  }

  /** No reading lies before the one before it. */
  predicate RunsForward(start: real, inputs: seq<Input>) {
    inputs == []
    || (var front, last := inputs[..|inputs| - 1], inputs[|inputs| - 1];
        RunsForward(start, front) && (Reads(last) ==> Clock(start, front) <= last.now))
  }

  lemma RecordsNow(w: World, i: Input)
    requires OpsOf(w, i) != [] && OpsOf(w, i)[0].Record?
    ensures Reads(i) && OpsOf(w, i)[0].now == i.now
  {
    hide Register, Passes;
  }

  lemma StepTimes(w: World, i: Input, clock: real)
    requires TimesOk(w.layout, clock) && (Reads(i) ==> clock <= i.now)
    ensures TimesOk(Step(w, i).w.layout, if Reads(i) then i.now else clock)
  {
    hide TimesOk, Step, OpsOf, Apply;
    var ops, now := OpsOf(w, i), if Reads(i) then i.now else clock;
    StepLayout(w, i);
    AtMostOne(w, i);
    TimesCarry(w.layout, w.layout, clock, now);
    if ops == [] {
      OneOp(w.layout, Reload);
    } else {
      assert ops == [ops[0]];
      OneOp(w.layout, ops[0]);
      if ops[0].Record? {
        RecordsNow(w, i);
      }
      OpTimes(w.layout, ops[0], clock, now);
    }
  }

  /** In every run whose clock does not run backwards no learned time is ever negative. */
  lemma {:induction false} RunTimes(w: World, inputs: seq<Input>, start: real)
    requires TimesOk(w.layout, start) && RunsForward(start, inputs)
    ensures TimesOk(Run(w, inputs).w.layout, Clock(start, inputs))
    decreases |inputs|
  {
    hide TimesOk, Step;
    if inputs == [] {
    } else {
      var front := inputs[..|inputs| - 1];
      RunTimes(w, front, start);
      StepTimes(Run(w, front).w, inputs[|inputs| - 1], Clock(start, front));
    }
  }

  lemma TimesCount(l: Layout, clock: real, id: Id)
    requires TimesOk(l, clock)
    ensures Horizon.TimesNonNegative(l, id)
  {
  }

  /** So in every such run an extension nobody refuses reaches exactly as far as the closed form says. */
  lemma HorizonInEveryRun(w: World, inputs: seq<Input>, start: real, id: Id, n: nat, k: nat)
    requires TimesOk(w.layout, start) && RunsForward(start, inputs)
    requires var v := Run(w, inputs).w;
             && Horizon.Reach(v, id, n) && Horizon.LeastCovering(v.layout, id, v.trains[id], k)
             && var tr := v.trains[id].transit.value;
             (tr.progress + n < |tr.edges| ==> !Horizon.Refused(Extend(v, id).w, id, tr.edges[tr.progress + n]))
    ensures var v := Run(w, inputs).w;
            n == Horizon.Min(Horizon.Ahead(v.trains[id]), Horizon.Max(3, Horizon.Min(6, k)))
  {
    hide TimesOk, Run, Extend, Horizon.Refused, Horizon.Reach, Horizon.LeastCovering;
    var v := Run(w, inputs).w;
    RunTimes(w, inputs, start);
    TimesCount(v.layout, Clock(start, inputs), id);
    Horizon.HorizonClosedForm(v, id, n, k);
  }
}
