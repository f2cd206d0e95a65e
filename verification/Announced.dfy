/** The roster read off the inputs: who joined when, with which priority, and what order that gives in every run. */
module Announced {
  import opened Rail
  import opened LayoutModel
  import opened World
  import opened Ranking
  import opened Handlers
  import opened Standing
  import Clearance
  import Standoff
  import LayoutRuns
  import Vetoes

  // ---------- what the inputs say ----------

  /** A registration naming a capability nobody knows is turned away. */
  predicate Accepted(r: Registration) {
    forall c <- r.caps :: !c.Unknown?
  }

  /** The capabilities a device last registered with, unless it was forgotten since. */
  function CapsOf(inputs: seq<Input>, d: Id): Option<seq<Capability>> {
    if inputs == [] then None
    else
      var front, i := inputs[..|inputs| - 1], inputs[|inputs| - 1];
      if i.Reset? || ((i.DeviceDisconnected? || i.Forget?) && i.device == d) then None
      else if i.DeviceRegistered? && i.device == d && Accepted(i.registration) then Some(i.registration.caps)
      else CapsOf(front, d)
  }

  predicate JoinsWith(i: Input, id: Id) {
    i.DeviceRegistered? && i.device == id && Accepted(i.registration) && ControlsMotion in i.registration.caps
  }

  predicate LeavesBy(inputs: seq<Input>, i: Input, id: Id) {
    || i.Reset?
    || ((i.DeviceDisconnected? || i.Forget?) && i.device == id
        && CapsOf(inputs, id).Some? && ControlsMotion in CapsOf(inputs, id).value)
  }

  /** The first accepted registration that made the device a train, counted since it last left. */
  function JoinedAt(inputs: seq<Input>, id: Id): (r: Option<nat>)
    ensures r.Some? ==> r.value < |inputs| && JoinsWith(inputs[r.value], id)
  {
    if inputs == [] then None
    else
      var front, i := inputs[..|inputs| - 1], inputs[|inputs| - 1];
      if LeavesBy(front, i, id) then None
      else if JoinedAt(front, id).None? && JoinsWith(i, id) then Some(|front|)
      else JoinedAt(front, id)
  }

  /** The priority a train announced when it joined; none announced counts as zero. */
  function PriorityOf(inputs: seq<Input>, id: Id): real
    requires JoinedAt(inputs, id).Some?
  {
    var r := inputs[JoinedAt(inputs, id).value].registration;
    if r.priority.Some? then r.priority.value else 0.0
  }

  /** The one announced a higher priority, or the same and joined earlier. */
  predicate Outranks(inputs: seq<Input>, a: Id, b: Id) {
    && JoinedAt(inputs, a).Some? && JoinedAt(inputs, b).Some?
    && (PriorityOf(inputs, a) > PriorityOf(inputs, b)
        || (PriorityOf(inputs, a) == PriorityOf(inputs, b)
            && JoinedAt(inputs, a).value < JoinedAt(inputs, b).value))
  }

  // ---------- the state of a run agrees ----------

  ghost predicate OnRoster(inputs: seq<Input>, w: World, id: Id) {
    && (id in w.trains <==> JoinedAt(inputs, id).Some?)
    && (id in w.order <==> JoinedAt(inputs, id).Some?)
    && (id in w.trains && JoinedAt(inputs, id).Some? ==>
          w.trains[id].priority == PriorityOf(inputs, id) && w.trains[id].rank < w.nextRank)
  }

  /** Of two trains the one that joined earlier stands earlier in the table and has the smaller rank. */
  ghost predicate InOrder(inputs: seq<Input>, w: World) {
    forall i, j :: 0 <= i < j < |w.order| ==> PlacedBefore(inputs, w, w.order[i], w.order[j])
  }

  ghost predicate PlacedBefore(inputs: seq<Input>, w: World, a: Id, b: Id) {
    && a in w.trains && b in w.trains && w.trains[a].rank < w.trains[b].rank
    && JoinedAt(inputs, a).Some? && JoinedAt(inputs, b).Some?
    && JoinedAt(inputs, a).value < JoinedAt(inputs, b).value
  }

  ghost predicate DevicesAgree(inputs: seq<Input>, w: World) {
    forall d :: (d in w.devices <==> CapsOf(inputs, d).Some?)
                && (d in w.devices && CapsOf(inputs, d).Some? ==> w.devices[d].caps == CapsOf(inputs, d).value)
  }

  ghost predicate Agrees(inputs: seq<Input>, w: World) {
    (forall id :: OnRoster(inputs, w, id)) && InOrder(inputs, w)
  }

  /** Roster, ranks and priorities are as they were. */
  ghost predicate SameStanding(w: World, w': World) {
    && w'.order == w.order && w'.nextRank == w.nextRank && w'.trains.Keys == w.trains.Keys
    && forall id :: id in w.trains && id in w'.trains ==> Stands(w.trains[id], w'.trains[id])
  }

  /** Nobody else owns a zone or reports one, and no tag means anything else. */
  predicate SameTables(w: World, w': World) {
    w'.zoneOwned == w.zoneOwned && w'.zoneBounds == w.zoneBounds && w'.tags == w.tags
  }

  /** The tables as they were, but for the one an input of this kind writes to. */
  predicate TablesBut(i: Input, w: World, w': World) {
    && w'.zoneOwned == w.zoneOwned && (!i.ZoneChanged? ==> w'.zoneBounds == w.zoneBounds)
    && (!i.TagAssigned? ==> w'.tags == w.tags)
  }

  lemma ConcernsStanding(w: World, w': World, id: Id)
    requires OnlyConcerns(w, w', id)
    ensures SameStanding(w, w') && SameTables(w, w')
  {
    forall o | o in w.trains && o in w'.trains ensures Stands(w.trains[o], w'.trains[o]) {
      if o != id {
        assert Moved(w.trains[o], w'.trains[o]);
      }
    }
  }

  lemma MovedStanding(w: World, w': World)
    requires AllMoved(w, w')
    ensures SameStanding(w, w') && SameTables(w, w')
  {
    MovedConcerns(w, w', "");
    ConcernsStanding(w, w', "");
  }

  lemma StandingTwice(a: World, b: World, c: World)
    requires SameStanding(a, b) && SameStanding(b, c)
    ensures SameStanding(a, c)
  {
    forall o | o in a.trains && o in c.trains ensures Stands(a.trains[o], c.trains[o]) {
      assert Stands(a.trains[o], b.trains[o]) && Stands(b.trains[o], c.trains[o]);
    }
  }

  // ---------- inputs that change no standing ----------

  /** The inputs that may make a device a train or take a train out. */
  predicate ChangesRoster(i: Input) {
    i.DeviceRegistered? || i.DeviceDisconnected? || i.Forget? || i.Reset?
  }

  /** The tag report holds up the train that makes it. */
  predicate HoldingReport(w: World, i: Input) {
    LayoutRuns.IsReport(w, i) && HoldsUp(w, i.device, w.tags[i.tag].target)
  }

  /** The state an input leaves, without the hold it may put on the reporting train. */
  function Apart(w: World, i: Input): World {
    var w' := Step(w, i).w;
    if HoldingReport(w, i) && i.device in w'.trains then Unheld(w', i.device) else w'
  }

  lemma ObservedStanding(w: World, i: Input)
    requires i.TagObserved?
    ensures SameStanding(w, Apart(w, i)) && TablesBut(i, w, Apart(w, i))
    ensures HoldingReport(w, i) ==> i.device in Step(w, i).w.trains && Step(w, i).w.trains[i.device].blocked
  {
    hide AtMarker, OnlyConcerns, SameStanding, HoldsUp;
    var d := i.device;
    SameConcerns(w, w, d);
    ConcernsStanding(w, w, d);
    if LayoutRuns.IsReport(w, i) {
      MarkerConcerns(w, d, w.tags[i.tag].target, i.now);
      ConcernsStanding(w, Apart(w, i), d);
    }
  }

  lemma ReportStanding(w: World, i: Input)
    requires i.TagAssigned? || i.ClearanceRequested? || i.SwitchChanged? || i.TrainStatus? || i.LengthChanged?
    ensures SameStanding(w, Step(w, i).w) && TablesBut(i, w, Step(w, i).w)
  {
    hide OnlyConcerns, SameStanding, RequestClearance, ChangeSwitch, Status, ChangeLength, AssignTag;
    match i
    case TagAssigned(d, tag, b, kind) => TagAssignedStanding(w, d, tag, b, kind);
    case ClearanceRequested(id, e) =>
      RequestConcerns(w, id, e);
      ConcernsStanding(w, Step(w, i).w, id);
    case SwitchChanged(j, p, confirmed) =>
      SwitchConcerns(w, j, p, confirmed);
      ConcernsStanding(w, Step(w, i).w, "");
    case TrainStatus(id, on, distance, now) =>
      StatusConcerns(w, id, on, distance, now);
      ConcernsStanding(w, Step(w, i).w, id);
    case LengthChanged(d, id, length) =>
      LengthConcerns(w, d, id, length);
      ConcernsStanding(w, Step(w, i).w, id);
  }

  lemma TagAssignedStanding(w: World, d: Id, tag: string, b: Binding, kind: Kind)
    ensures SameStanding(w, AssignTag(w, d, tag, b, kind).w)
    ensures AssignTag(w, d, tag, b, kind).w.zoneOwned == w.zoneOwned
            && AssignTag(w, d, tag, b, kind).w.zoneBounds == w.zoneBounds
  {
    hide UpsertMarker;
  }

  lemma HookStanding(w: World, i: Input)
    requires i.GateChanged? || i.ZoneChanged? || i.ZoneReleased? || i.OtherEvent?
    ensures SameStanding(w, Step(w, i).w) && TablesBut(i, w, Step(w, i).w)
  {
    hide OnlyConcerns, SameStanding, DispatchGate, DispatchZone, ReleaseFromZone, Standoff.Retry, AllMoved;
    match i
    case GateChanged(d, m, withholding, reason) =>
      GateConcerns(w, d, m, withholding, reason);
      ConcernsStanding(w, Step(w, i).w, "");
    case ZoneChanged(d, z) =>
      var w1 := w.(zoneBounds := w.zoneBounds[z.marker := d]);
      ZoneConcerns(w, d, z);
      ConcernsStanding(w1, Step(w, i).w, "");
      SameTrains(w, w1);
      StandingTwice(w, w1, Step(w, i).w);
    case ZoneReleased(d, zone, id) =>
      ReleaseConcerns(w, d, zone, id);
      ConcernsStanding(w, Step(w, i).w, id);
    case OtherEvent(d) =>
      SameTrains(w, w);
      RetryMoves(w, None);
      MovedStanding(w, Standoff.Retry(w, None).w);
  }

  lemma SameTrains(w: World, w': World)
    requires w'.trains == w.trains && w'.order == w.order && w'.nextRank == w.nextRank
    ensures SameStanding(w, w')
  {
  }

  lemma OperatorStanding(w: World, i: Input)
    requires i.AssignSchedule? || i.Revoke? || i.Reanchor? || i.ConfirmNewTrack?
    ensures SameStanding(w, Step(w, i).w) && TablesBut(i, w, Step(w, i).w)
  {
    hide OnlyConcerns, SameStanding, Assign, RevokeTrain, ReanchorAt, ConfirmTrack;
    match i
    case AssignSchedule(id, route, stops) =>
      AssignConcerns(w, id, route, stops);
      ConcernsStanding(w, Step(w, i).w, id);
    case Revoke(id) =>
      RevokeConcerns(w, id);
      ConcernsStanding(w, Step(w, i).w, id);
    case Reanchor(id, m) =>
      ReanchorConcerns(w, id, m);
      ConcernsStanding(w, Step(w, i).w, id);
    case ConfirmNewTrack(id) =>
      ConfirmConcerns(w, id);
      ConcernsStanding(w, Step(w, i).w, id);
  }

  /**
   * Nothing but registering, forgetting and resetting ever changes who is a train, its rank or its priority; and
   * nothing but a train's own report of a marker no edge leads to puts a hold on it.
   */
  lemma StandingKept(w: World, i: Input)
    requires !ChangesRoster(i)
    ensures SameStanding(w, Apart(w, i)) && TablesBut(i, w, Apart(w, i))
    ensures HoldingReport(w, i) ==> i.device in Step(w, i).w.trains && Step(w, i).w.trains[i.device].blocked
  {
    hide Step, SameStanding;
    if i.TagObserved? {
      ObservedStanding(w, i);
    } else if i.GateChanged? || i.ZoneChanged? || i.ZoneReleased? || i.OtherEvent? {
      HookStanding(w, i);
    } else if i.AssignSchedule? || i.Revoke? || i.Reanchor? || i.ConfirmNewTrack? {
      OperatorStanding(w, i);
    } else {
      ReportStanding(w, i);
    }
  }

  // ---------- the inputs that do ----------

  lemma {:induction false} UnknownIff(caps: seq<Capability>)
    ensures UnknownOnes(caps) == [] <==> forall c <- caps :: !c.Unknown?
  {
    if caps == [] {
    } else {
      UnknownIff(caps[1..]);
      assert caps == [caps[0]] + caps[1..];
    }
  }

  /** A device that announces itself as a train for the first time goes to the end of the roster. */
  ghost predicate HasJoined(w: World, w': World, d: Id, r: Registration) {
    && w'.order == w.order + [d] && w'.nextRank == w.nextRank + 1 && w'.trains.Keys == w.trains.Keys + {d}
    && d in w'.trains && w'.trains[d].rank == w.nextRank
    && w'.trains[d].priority == (if r.priority.Some? then r.priority.value else 0.0)
    && forall id :: id in w.trains && id in w'.trains && id != d ==> Stands(w.trains[id], w'.trains[id])
  }

  lemma EnlistJoins(w: World, d: Id, r: Registration)
    requires d !in w.trains
    ensures HasJoined(w, Enlist(w, d, if r.priority.Some? then r.priority.value else 0.0), d, r)
  {
  }

  lemma LengthStanding(w: World, d: Id, length: Option<Length>)
    requires d in w.trains
    ensures SameStanding(w, Clearance.Put(w, d, w.trains[d].(length := length)))
  {
  }

  lemma JoinedThen(a: World, b: World, c: World, d: Id, r: Registration)
    requires HasJoined(a, b, d, r) && SameStanding(b, c)
    ensures HasJoined(a, c, d, r)
  {
    assert Stands(b.trains[d], c.trains[d]);
    forall id | id in a.trains && id in c.trains && id != d ensures Stands(a.trains[id], c.trains[id]) {
      assert Stands(a.trains[id], b.trains[id]) && Stands(b.trains[id], c.trains[id]);
    }
  }

  lemma InitStanding(w: World, d: Id, r: Registration)
    ensures if d in w.trains then SameStanding(w, InitTrain(w, d, r)) else HasJoined(w, InitTrain(w, d, r), d, r)
  {
    hide HasJoined, SameStanding;
    SameTrains(w, w);
    if d in w.trains {
      LengthStanding(w, d, r.length);
    } else {
      EnlistJoins(w, d, r);
      var w' := Enlist(w, d, if r.priority.Some? then r.priority.value else 0.0);
      JoinedIsIn(w, w', d, r);
      LengthStanding(w', d, r.length);
      JoinedThen(w, w', Clearance.Put(w', d, w'.trains[d].(length := r.length)), d, r);
    }
  }

  lemma SameJoining(w: World, w1: World, w': World, d: Id, r: Registration)
    requires HasJoined(w1, w', d, r) && w1 == w.(devices := w1.devices)
    ensures HasJoined(w, w', d, r)
  {
  }

  lemma JoinedIsIn(w: World, w': World, d: Id, r: Registration)
    requires HasJoined(w, w', d, r)
    ensures d in w'.trains
  {
  }

  lemma {:induction false} OwnStanding(w: World, d: Id, owned: seq<Marker>)
    ensures var o := OwnMarkers(w, d, owned);
            o.w.trains == w.trains && o.w.order == w.order && o.w.nextRank == w.nextRank
    decreases |owned|
  {
    if owned == [] {
    } else {
      OwnStanding(w, d, owned[1..]);
      OwnStanding(w.(zoneOwned := w.zoneOwned[owned[0] := d]), d, owned[1..]);
    }
  }

  /** What registering does to the roster. */
  lemma RegisterStanding(w: World, d: Id, r: Registration)
    ensures var w' := Register(w, d, r).w;
            if Accepted(r) && ControlsMotion in r.caps && d !in w.trains then HasJoined(w, w', d, r)
            else SameStanding(w, w')
  {
    hide UnknownOnes, OwnMarkers, InitTrain, SameStanding, HasJoined, PairSwitch;
    UnknownIff(r.caps);
    SameTrains(w, w);
    if Accepted(r) {
      var w1 := w.(devices := w.devices[d := Device(r.caps, [], [])]);
      var w2 := if ControlsMotion in r.caps then InitTrain(w1, d, r) else w1;
      SameTrains(w, w1);
      InitStanding(w1, d, r);
      SettingUpStanding(w2, d, r);
      SameTrains(w1, w1);
      if ControlsMotion in r.caps && d !in w.trains {
        JoinedThen(w1, w2, Register(w, d, r).w, d, r);
        SameJoining(w, w1, Register(w, d, r).w, d, r);
      } else {
        StandingTwice(w1, w2, Register(w, d, r).w);
        StandingTwice(w, w1, Register(w, d, r).w);
      }
    }
  }

  /** The rest of a registration leaves the roster alone. */
  lemma SettingUpStanding(w: World, d: Id, r: Registration)
    ensures var zones := if GatesZone in r.caps then OwnMarkers(w, d, r.owned) else Out(w, []);
            var switches := if ControlsSwitch in r.caps then PairSwitch(zones.w, d, r.controls) else Out(zones.w, []);
            SameStanding(w, switches.w)
  {
    hide OwnMarkers, SameStanding;
    OwnStanding(w, d, r.owned);
    var zones := if GatesZone in r.caps then OwnMarkers(w, d, r.owned) else Out(w, []);
    SameTrains(w, zones.w);
    SameTrains(w, PairSwitch(zones.w, d, r.controls).w);
  }

  lemma {:induction false} RemoveKeepsOrder(order: seq<Id>, d: Id, i: nat, j: nat)
    requires i < j < |RemoveId(order, d)|
    ensures exists a, b ::
              0 <= a < b < |order| && order[a] == RemoveId(order, d)[i] && order[b] == RemoveId(order, d)[j]
  {
    var r := RemoveId(order, d);
    if order == [] {
    } else if order[0] == d {
      RemoveKeepsOrder(order[1..], d, i, j);
      var a, b :| 0 <= a < b < |order[1..]| && order[1..][a] == r[i] && order[1..][b] == r[j];
      assert order[a + 1] == r[i] && order[b + 1] == r[j];
    } else {
      var rest := RemoveId(order[1..], d);
      assert r == [order[0]] + rest;
      if i > 0 {
        RemoveKeepsOrder(order[1..], d, i - 1, j - 1);
        var a, b :| 0 <= a < b < |order[1..]| && order[1..][a] == rest[i - 1] && order[1..][b] == rest[j - 1];
        assert order[a + 1] == r[i] && order[b + 1] == r[j];
      } else {
        assert r[j] == rest[j - 1] && r[j] in rest;
        var b :| 0 <= b < |order[1..]| && order[1..][b] == r[j];
        assert order[0] == r[i] && order[b + 1] == r[j];
      }
    }
  }

  /** The device has left the roster and nobody else's place in it has changed. */
  ghost predicate HasLeft(w: World, w': World, d: Id) {
    && w'.order == RemoveId(w.order, d) && w'.nextRank == w.nextRank && w'.trains.Keys == w.trains.Keys - {d}
    && forall id :: id in w.trains && id in w'.trains ==> Stands(w.trains[id], w'.trains[id])
  }

  lemma RetryStanding(w: World)
    ensures SameStanding(w, Standoff.Retry(w, None).w)
  {
    hide Standoff.Retry, AllMoved, SameStanding;
    RetryMoves(w, None);
    MovedStanding(w, Standoff.Retry(w, None).w);
  }

  /** What forgetting does to the roster. */
  lemma ForgetStanding(w: World, d: Id)
    ensures var w' := ForgetDevice(w, d).w;
            if d in w.devices && ControlsMotion in w.devices[d].caps then HasLeft(w, w', d) else SameStanding(w, w')
  {
    hide Standoff.Retry, DropNotices, RemoveId;
    if d in w.devices {
      var w1 := w.(devices := w.devices - {d});
      RetryStanding(RemoveTrain(w1, d));
      RetryStanding(w1);
    }
  }

  // ---------- the invariant, one input at a time ----------

  lemma StandingAgrees(inputs: seq<Input>, w: World, w': World, i: Input)
    requires Agrees(inputs, w) && SameStanding(w, w')
    requires forall id :: JoinedAt(inputs + [i], id) == JoinedAt(inputs, id)
    ensures Agrees(inputs + [i], w')
  {
    hide JoinedAt, JoinsWith;
    forall id ensures OnRoster(inputs + [i], w', id) {
      assert OnRoster(inputs, w, id);
      assert id in w.trains <==> id in w'.trains;
    }
  }

  lemma JoinAfter(inputs: seq<Input>, i: Input, id: Id)
    ensures JoinedAt(inputs + [i], id) == if LeavesBy(inputs, i, id) then None
                                          else if JoinedAt(inputs, id).None? && JoinsWith(i, id) then Some(|inputs|)
                                          else JoinedAt(inputs, id)
  {
    assert (inputs + [i])[..|inputs + [i]| - 1] == inputs;
  }

  lemma SamePriority(inputs: seq<Input>, i: Input, id: Id)
    requires JoinedAt(inputs, id).Some? && JoinedAt(inputs + [i], id) == JoinedAt(inputs, id)
    ensures PriorityOf(inputs + [i], id) == PriorityOf(inputs, id)
  {
    hide JoinedAt;
    assert (inputs + [i])[JoinedAt(inputs, id).value] == inputs[JoinedAt(inputs, id).value];
  }

  lemma JoinAgrees(inputs: seq<Input>, w: World, w': World, i: Input)
    requires Agrees(inputs, w) && i.DeviceRegistered? && HasJoined(w, w', i.device, i.registration)
    requires JoinsWith(i, i.device) && i.device !in w.trains
    ensures Agrees(inputs + [i], w')
  {
    hide JoinedAt, JoinsWith, LeavesBy;
    var d := i.device;
    forall id ensures JoinedAt(inputs + [i], id) == if id == d then Some(|inputs|) else JoinedAt(inputs, id) {
      JoinAfter(inputs, i, id);
      OnlyItself(inputs, i, id);
      assert OnRoster(inputs, w, id);
    }
    forall id ensures OnRoster(inputs + [i], w', id) {
      assert OnRoster(inputs, w, id);
      assert id in w'.trains <==> id in w.trains || id == d;
      if id != d && JoinedAt(inputs, id).Some? {
        SamePriority(inputs, i, id);
      }
    }
    forall a | 0 <= a < |w.order| ensures OnRoster(inputs, w, w.order[a]) {
    }
  }

  lemma OnlyItself(inputs: seq<Input>, i: Input, id: Id)
    requires i.DeviceRegistered?
    ensures !LeavesBy(inputs, i, id) && (JoinsWith(i, id) ==> id == i.device)
  {
  }

  lemma LeaveAgrees(inputs: seq<Input>, w: World, w': World, i: Input)
    requires Agrees(inputs, w) && (i.DeviceDisconnected? || i.Forget?) && HasLeft(w, w', i.device)
    requires LeavesBy(inputs, i, i.device)
    ensures Agrees(inputs + [i], w')
  {
    hide JoinedAt, JoinsWith, RemoveId;
    var d := i.device;
    forall id ensures JoinedAt(inputs + [i], id) == if id == d then None else JoinedAt(inputs, id) {
      JoinAfter(inputs, i, id);
      NobodyJoins(i, id);
    }
    forall id ensures OnRoster(inputs + [i], w', id) {
      assert OnRoster(inputs, w, id);
      assert id in w'.trains <==> id in w.trains && id != d;
      if id != d && JoinedAt(inputs, id).Some? {
        SamePriority(inputs, i, id);
      }
    }
    LeftInOrder(inputs, w, w', i, d);
  }

  lemma LeftInOrder(inputs: seq<Input>, w: World, w': World, i: Input, d: Id)
    requires InOrder(inputs, w) && HasLeft(w, w', d) && (forall id :: OnRoster(inputs + [i], w', id))
    requires forall id <- w'.order :: JoinedAt(inputs + [i], id) == JoinedAt(inputs, id)
    ensures InOrder(inputs + [i], w')
  {
    hide JoinedAt, RemoveId, Stands;
    forall a, b | 0 <= a < b < |w'.order|
      ensures PlacedBefore(inputs + [i], w', w'.order[a], w'.order[b])
    {
      RemoveKeepsOrder(w.order, d, a, b);
      var x, y :| 0 <= x < y < |w.order| && w.order[x] == w'.order[a] && w.order[y] == w'.order[b];
      assert OnRoster(inputs + [i], w', w.order[x]) && OnRoster(inputs + [i], w', w.order[y]);
      PlaceKept(inputs, w, inputs + [i], w', w.order[x], w.order[y]);
    }
  }

  lemma PlaceKept(inputs: seq<Input>, w: World, inputs': seq<Input>, w': World, a: Id, b: Id)
    requires PlacedBefore(inputs, w, a, b) && a in w'.trains && b in w'.trains
    requires Stands(w.trains[a], w'.trains[a]) && Stands(w.trains[b], w'.trains[b])
    requires JoinedAt(inputs', a) == JoinedAt(inputs, a) && JoinedAt(inputs', b) == JoinedAt(inputs, b)
    ensures PlacedBefore(inputs', w', a, b)
  {
    hide JoinedAt;
  }

  lemma NobodyJoins(i: Input, id: Id)
    requires i.DeviceDisconnected? || i.Forget?
    ensures !JoinsWith(i, id)
  {
  }

  lemma RegisterAgrees(inputs: seq<Input>, w: World, i: Input)
    requires Agrees(inputs, w) && i.DeviceRegistered?
    ensures Agrees(inputs + [i], Step(w, i).w)
  {
    hide JoinedAt, Register, Agrees, HasJoined, SameStanding;
    var d, r := i.device, i.registration;
    RegisterStanding(w, d, r);
    InTable(inputs, w, d);
    if JoinsWith(i, d) && d !in w.trains {
      JoinAgrees(inputs, w, Step(w, i).w, i);
    } else {
      forall id ensures JoinedAt(inputs + [i], id) == JoinedAt(inputs, id) {
        JoinAfter(inputs, i, id);
        OnlyItself(inputs, i, id);
      }
      StandingAgrees(inputs, w, Step(w, i).w, i);
    }
  }

  lemma InTable(inputs: seq<Input>, w: World, id: Id)
    requires Agrees(inputs, w)
    ensures id in w.trains <==> JoinedAt(inputs, id).Some?
  {
    assert OnRoster(inputs, w, id);
  }

  lemma ForgetAgrees(inputs: seq<Input>, w: World, i: Input)
    requires Agrees(inputs, w) && DevicesAgree(inputs, w) && (i.DeviceDisconnected? || i.Forget?)
    ensures Agrees(inputs + [i], Step(w, i).w)
  {
    hide JoinedAt, ForgetDevice, Agrees, HasLeft, SameStanding, CapsOf;
    var d := i.device;
    ForgetStanding(w, d);
    if d in w.devices && ControlsMotion in w.devices[d].caps {
      LeaveAgrees(inputs, w, Step(w, i).w, i);
    } else {
      forall id ensures JoinedAt(inputs + [i], id) == JoinedAt(inputs, id) {
        JoinAfter(inputs, i, id);
        NobodyJoins(i, id);
      }
      StandingAgrees(inputs, w, Step(w, i).w, i);
    }
  }

  lemma ResetAgrees(inputs: seq<Input>, w: World)
    ensures Agrees(inputs + [Reset], Step(w, Reset).w)
  {
    hide JoinedAt;
    forall id ensures JoinedAt(inputs + [Reset], id).None? {
      JoinAfter(inputs, Reset, id);
    }
  }

  lemma OtherAgrees(inputs: seq<Input>, w: World, i: Input)
    requires Agrees(inputs, w) && !ChangesRoster(i)
    ensures Agrees(inputs + [i], Step(w, i).w)
  {
    hide JoinedAt, Agrees, Step, SameStanding, Unheld, HoldsUp;
    StandingKept(w, i);
    forall id ensures JoinedAt(inputs + [i], id) == JoinedAt(inputs, id) {
      JoinAfter(inputs, i, id);
    }
    StandingAgrees(inputs, w, Apart(w, i), i);
    if Apart(w, i) != Step(w, i).w {
      HeldAgrees(inputs + [i], Step(w, i).w, i.device);
    }
  }

  lemma HeldAgrees(inputs: seq<Input>, w: World, id: Id)
    requires id in w.trains && Agrees(inputs, Unheld(w, id))
    ensures Agrees(inputs, w)
  {
    hide JoinedAt;
    var w' := Unheld(w, id);
    forall o ensures OnRoster(inputs, w, o) {
      assert OnRoster(inputs, w', o);
    }
    forall i, j | 0 <= i < j < |w.order| ensures PlacedBefore(inputs, w, w.order[i], w.order[j]) {
      assert PlacedBefore(inputs, w', w'.order[i], w'.order[j]);
    }
  }

  lemma StepAgrees(inputs: seq<Input>, w: World, i: Input)
    requires Agrees(inputs, w) && DevicesAgree(inputs, w)
    ensures Agrees(inputs + [i], Step(w, i).w)
  {
    hide Step, Agrees, DevicesAgree;
    if i.DeviceRegistered? {
      RegisterAgrees(inputs, w, i);
    } else if i.DeviceDisconnected? || i.Forget? {
      ForgetAgrees(inputs, w, i);
    } else if i.Reset? {
      ResetAgrees(inputs, w);
    } else {
      OtherAgrees(inputs, w, i);
    }
  }

  lemma StepDevicesAgree(inputs: seq<Input>, w: World, i: Input)
    requires DevicesAgree(inputs, w)
    ensures DevicesAgree(inputs + [i], Step(w, i).w)
  {
    hide Step, GateHooks, ZoneHooks, UnknownOnes;
    Vetoes.StepDevices(w, i);
    assert (inputs + [i])[..|inputs + [i]| - 1] == inputs;
    if i.DeviceRegistered? {
      UnknownIff(i.registration.caps);
    } else if i.GateChanged? && i.device in w.devices {
      Vetoes.GateHooksEffect(w.devices[i.device], w.devices[i.device].caps, i.marker, i.withholding, i.reason);
    } else if i.ZoneChanged? && i.device in w.devices {
      Vetoes.ZoneHooksEffect(w.devices[i.device], w.devices[i.device].caps, i.report);
    }
  }

  /** In every run: who is a train, in which order, with which priority, and what each device registered as. */
  lemma {:induction false} RunAgrees(l: Layout, stack: nat, inputs: seq<Input>)
    ensures Agrees(inputs, Run(Fresh(l, stack), inputs).w) && DevicesAgree(inputs, Run(Fresh(l, stack), inputs).w)
    decreases |inputs|
  {
    hide Step, Agrees, DevicesAgree;
    if inputs == [] {
      FreshAgrees(l, stack);
    } else {
      var front, i := inputs[..|inputs| - 1], inputs[|inputs| - 1];
      RunAgrees(l, stack, front);
      StepAgrees(front, Run(Fresh(l, stack), front).w, i);
      StepDevicesAgree(front, Run(Fresh(l, stack), front).w, i);
      assert inputs == front + [i];
    }
  }

  lemma FreshAgrees(l: Layout, stack: nat)
    ensures Agrees([], Fresh(l, stack)) && DevicesAgree([], Fresh(l, stack))
  {
  }

  // ---------- the order ----------

  lemma RanksByJoining(inputs: seq<Input>, w: World, a: Id, b: Id)
    requires Agrees(inputs, w) && a in w.trains && b in w.trains && a != b
    ensures JoinedAt(inputs, a).Some? && JoinedAt(inputs, b).Some?
    ensures w.trains[a].rank != w.trains[b].rank
    ensures w.trains[a].rank < w.trains[b].rank <==> JoinedAt(inputs, a).value < JoinedAt(inputs, b).value
  {
    hide JoinedAt;
    assert OnRoster(inputs, w, a) && OnRoster(inputs, w, b);
    var i :| 0 <= i < |w.order| && w.order[i] == a;
    var j :| 0 <= j < |w.order| && w.order[j] == b;
    assert i < j || j < i;
  }

  /** The order the scheduler goes by is the announced one. */
  lemma BeforeIsOutranks(inputs: seq<Input>, w: World, a: Id, b: Id)
    requires Agrees(inputs, w) && a in w.trains && b in w.trains
    ensures Before(w.trains, a, b) <==> Outranks(inputs, a, b)
  {
    hide JoinedAt;
    assert OnRoster(inputs, w, a) && OnRoster(inputs, w, b);
    if a == b {
      RankTotal(w.trains, a, a);
    } else {
      RanksByJoining(inputs, w, a, b);
    }
  }

  /** Grants, yields and reverses change nobody's place, so the order agrees wherever in an input a pass begins. */
  lemma AgreesBefore(inputs: seq<Input>, w: World, w': World)
    requires AllMoved(w, w') && Agrees(inputs, w')
    ensures Agrees(inputs, w)
  {
    hide JoinedAt;
    MovedStanding(w, w');
    forall id ensures OnRoster(inputs, w, id) {
      assert OnRoster(inputs, w', id);
      assert id in w.trains <==> id in w'.trains;
    }
    forall i, j | 0 <= i < j < |w.order| ensures PlacedBefore(inputs, w, w.order[i], w.order[j]) {
      assert PlacedBefore(inputs, w', w.order[i], w.order[j]);
      assert Stands(w.trains[w.order[i]], w'.trains[w.order[i]]) && Stands(w.trains[w.order[j]], w'.trains[w.order[j]]);
    }
  }
}
