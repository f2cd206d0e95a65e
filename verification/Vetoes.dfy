/** Every grant and switch command is safe when issued; device vetoes are the devices' latest reports. */
module Vetoes {
  import opened Rail
  import opened LayoutModel
  import opened Gates
  import opened World
  import opened Clearance
  import opened Handlers
  import opened Plays
  import opened HandlerPlays
  import opened Published

  // ---------- every grant and every switch command, at the moment it is issued ----------

  /** What is published at the moment shows no other train on an edge that touches this one. */
  ghost predicate Untouched(seen: map<Id, Shown>, id: Id, e: EdgeRef) {
    forall o, h :: o in seen && o != id && h in seen[o].edges ==> !Touches(h, e)
  }

  /** One demanded edge up to the limit, clear of every other train, its switch set, its limit vetoed by no device. */
  ghost predicate GrantIsSafe(j: Judge, seen: map<Id, Shown>, id: Id, limit: Marker, es: seq<EdgeRef>) {
    && |es| == 1 && limit == es[0].to && Demanded(j, id, es[0]) && Untouched(seen, id, es[0])
    && !SwitchMismatch(j.layout, es[0]) && !Denied(j.devices, limit)
  }

  /** The position some train's demanded edge requires of the junction it leaves, no other train being on or at it. */
  ghost predicate AskIsSafe(j: Judge, seen: map<Id, Shown>, device: Id, m: Marker, position: string, asker: Id,
                            e: EdgeRef) {
    && e.from == m && Demanded(j, asker, e) && Untouched(seen, asker, e)
    && Required(j.layout, e) == Some(position) && SwitchMismatch(j.layout, e)
    && m in j.layout.switchDevice && j.layout.switchDevice[m] == device
  }

  ghost predicate EffectIsSafe(j: Judge, seen: map<Id, Shown>, x: Effect) {
    x.Send? ==>
      match x.command
      case GrantClearance(limit, es) => GrantIsSafe(j, seen, x.device, limit, es)
      case SetSwitch(m, position, asker, e) => AskIsSafe(j, seen, x.device, m, position, asker, e)
      case _ => true
  }

  lemma NoConflictIsSeen(seen: map<Id, Shown>, w: World, id: Id, e: EdgeRef)
    requires Mirrors(seen, {}, w) && !Conflicts(w, id, e)
    ensures Untouched(seen, id, e)
  {
    forall o, h | o in seen && o != id && h in seen[o].edges ensures !Touches(h, e) {
      assert Seen(seen, o) == Actual(w, o);
      assert !TouchesAny(w.trains[o].held, e);
      var n :| 0 <= n < |w.trains[o].held| && Edges(w.trains[o].held)[n] == h;
      assert w.trains[o].held[n] in w.trains[o].held;
    }
  }

  lemma AskSafe(j: Judge, seen: map<Id, Shown>, w: World, fx: seq<Effect>, w': World, id: Id, e: EdgeRef)
    requires Mirrors(seen, {}, w) && Asks(j, w, fx, w', id, e)
    ensures |fx| == 1 && EffectIsSafe(j, seen, fx[0])
  {
    NoConflictIsSeen(seen, w, id, e);
    hide Mirrors, Conflicts, Untouched, Demanded, SwitchMismatch;
    assert Required(j.layout, e).Some?;
  }

  lemma GrantSafe(j: Judge, seen: map<Id, Shown>, w: World, fx: seq<Effect>, w': World, id: Id, e: EdgeRef)
    requires Mirrors(seen, {}, w) && Grants(j, w, fx, w', id, e)
    ensures |fx| == 2 && EffectIsSafe(j, seen, fx[0]) && !fx[1].Send?
  {
    NoConflictIsSeen(seen, w, id, e);
    hide Mirrors, Conflicts, Untouched, Demanded, SwitchMismatch, Denied, Edges;
    assert [e][0] == e;
  }

  lemma OthersSend(j: Judge, w: World, fx: seq<Effect>, w': World)
    requires Link(j, w, fx, w')
    requires forall id, e :: !Grants(j, w, fx, w', id, e) && !Asks(j, w, fx, w', id, e)
    ensures forall x <- fx :: x.Send? ==> !x.command.GrantClearance? && !x.command.SetSwitch?
  {
    hide Grants, Asks, Violates, Edges;
  }

  lemma LinkSafe(j: Judge, seen: map<Id, Shown>, w: World, fx: seq<Effect>, w': World, k: nat)
    requires Link(j, w, fx, w') && Mirrors(seen, {}, w) && k < |fx|
    ensures EffectIsSafe(j, Replay(seen, fx[..k]), fx[k])
  {
    hide Link, Grants, Asks, Mirrors, GrantIsSafe, AskIsSafe;
    assert Replay(seen, []) == seen;
    if id, e :| Asks(j, w, fx, w', id, e) {
      AskSafe(j, seen, w, fx, w', id, e);
      assert fx[..0] == [];
    } else if id, e :| Grants(j, w, fx, w', id, e) {
      GrantSafe(j, seen, w, fx, w', id, e);
      assert fx[..0] == [];
    } else {
      OthersSend(j, w, fx, w');
      assert fx[k] in fx;
    }
  }

  lemma {:induction false} PlaySafe(j: Judge, seen: map<Id, Shown>, p: Play, k: nat)
    requires Legal(j, p) && Mirrors(seen, {}, p.at) && k < |Emitted(p)|
    ensures EffectIsSafe(j, Replay(seen, Emitted(p)[..k]), Emitted(p)[k])
    decreases p
  {
    hide Link, Mirrors, EffectIsSafe, Replay;
    var n := |p.fx|;
    if k < n {
      assert Emitted(p)[..k] == p.fx[..k];
      LinkSafe(j, seen, p.at, p.fx, p.rest.at, k);
    } else {
      LinkMirrors(j, seen, {}, p.at, p.fx, p.rest.at);
      assert {} - Told(p.fx) == {};
      PlaySafe(j, Replay(seen, p.fx), p.rest, k - n);
      ReplayAppend(seen, p.fx, Emitted(p.rest)[..k - n]);
      assert Emitted(p)[..k] == p.fx + Emitted(p.rest)[..k - n];
    }
  }

  /** The truth about who holds what, as snapshots would show it. */
  function Actuals(w: World): map<Id, Shown> {
    map id | id in w.trains :: Actual(w, id)
  }

  /**
   * Every command any input issues is safe at its moment. What a grant or a switch command is judged by are the
   * devices, layout and routes the input leaves behind; who holds what is the state the input's steps start from,
   * brought up to date by the snapshots the input has emitted so far.
   */
  lemma StepIsSafe(w: World, i: Input, k: nat)
    requires !i.Reset? && k < |Step(w, i).fx|
    ensures EffectIsSafe(JudgeOf(w, i), Replay(Actuals(Start(w, i)), Step(w, i).fx[..k]), Step(w, i).fx[k])
  {
    hide Step, Start, JudgeOf, EffectIsSafe, Replay;
    StepIsPlay(w, i);
    var seen := Actuals(Start(w, i));
    assert Mirrors(seen, {}, Start(w, i));
    var p :| IsPlay(JudgeOf(w, i), p, Start(w, i), Step(w, i));
    PlaySafe(JudgeOf(w, i), seen, p, k);
  }

  lemma SafeGrantFits(j: Judge, seen: map<Id, Shown>, x: Effect)
    requires EffectIsSafe(j, seen, x) && x.Send? && x.command.GrantClearance?
    ensures !Denied(j.devices, x.command.limit)
    ensures forall e <- x.command.edges :: e.to == x.command.limit && !SwitchMismatch(j.layout, e)
  {
    hide Denied, SwitchMismatch, Demanded, Untouched;
  }

  lemma JudgedByEnd(w: World, i: Input)
    ensures JudgeOf(w, i).devices == Step(w, i).w.devices && JudgeOf(w, i).layout == Step(w, i).w.layout
  {
    hide Step;
  }

  /** In the state an input leaves behind no device vetoes a limit it granted, and no switch is set against an edge. */
  lemma GrantsFit(w: World, i: Input, x: Effect)
    requires !i.Reset? && x in Step(w, i).fx && x.Send? && x.command.GrantClearance?
    ensures var w' := Step(w, i).w;
            !Denied(w'.devices, x.command.limit) && forall e <- x.command.edges ::
                                                      e.to == x.command.limit && !SwitchMismatch(w'.layout, e)
  {
    hide Step, Start, Replay, Denied, SwitchMismatch, EffectIsSafe, JudgeOf;
    var k :| 0 <= k < |Step(w, i).fx| && Step(w, i).fx[k] == x;
    StepIsSafe(w, i, k);
    JudgedByEnd(w, i);
    SafeGrantFits(JudgeOf(w, i), Replay(Actuals(Start(w, i)), Step(w, i).fx[..k]), x);
  }

  // ---------- what each device last reported ----------

  /** The input starts the device's reports over. */
  predicate Restarts(i: Input, d: Id) {
    i.Reset?
    || (i.DeviceRegistered? && i.device == d && UnknownOnes(i.registration.caps) == [])
    || ((i.DeviceDisconnected? || i.Forget?) && i.device == d)
  }

  /** The device's latest gate report for m since it registered is withholding. */
  function Withholding(inputs: seq<Input>, d: Id, m: Marker): bool {
    if inputs == [] then false
    else
      var i, front := inputs[|inputs| - 1], inputs[..|inputs| - 1];
      if Restarts(i, d) then false
      else if i.GateChanged? && i.device == d && i.marker == m then i.withholding
      else Withholding(front, d, m)
  }

  /** The device's latest report about the zone at m since it registered. */
  function Reported(inputs: seq<Input>, d: Id, m: Marker): Option<Zone> {
    if inputs == [] then None
    else
      var i, front := inputs[|inputs| - 1], inputs[..|inputs| - 1];
      if Restarts(i, d) then None
      else if i.ZoneChanged? && i.device == d && i.report.marker == m then Some(i.report)
      else Reported(front, d, m)
  }

  ghost predicate NoDuplicates(dev: Device) {
    && (forall a, b :: 0 <= a < b < |dev.withheld| ==> dev.withheld[a].marker != dev.withheld[b].marker)
    && (forall a, b :: 0 <= a < b < |dev.zones| ==> dev.zones[a].marker != dev.zones[b].marker)
  }

  lemma {:induction false} LiftEffect(s: seq<Withheld>, m: Marker)
    ensures forall w <- Lift(s, m) :: w in s && w.marker != m
    ensures forall n :: n != m ==> (GateDenies(Lift(s, m), n) <==> GateDenies(s, n))
    ensures (forall a, b :: 0 <= a < b < |s| ==> s[a].marker != s[b].marker)
            ==> forall a, b :: 0 <= a < b < |Lift(s, m)| ==> Lift(s, m)[a].marker != Lift(s, m)[b].marker
  {
    if s == [] {
    } else {
      LiftEffect(s[1..], m);
      assert s == [s[0]] + s[1..];
      assert forall n :: GateDenies(s, n) <==> s[0].marker == n || GateDenies(s[1..], n);
      var r := Lift(s[1..], m);
      assert forall n :: GateDenies([s[0]] + r, n) <==> s[0].marker == n || GateDenies(r, n);
    }
  }

  lemma GateEffect(s: seq<Withheld>, m: Marker, withholding: bool, reason: string)
    ensures var r := GateOnEvent(s, m, withholding, reason);
            && (GateDenies(r, m) <==> withholding)
            && (forall n :: n != m ==> (GateDenies(r, n) <==> GateDenies(s, n)))
            && ((forall a, b :: 0 <= a < b < |s| ==> s[a].marker != s[b].marker)
                  ==> forall a, b :: 0 <= a < b < |r| ==> r[a].marker != r[b].marker)
  {
    LiftEffect(s, m);
    var added := s + [Withheld(m, reason)];
    assert added[|s|].marker == m;
    forall n | n != m ensures GateDenies(added, n) <==> GateDenies(s, n) {
      if GateDenies(s, n) {
        var w :| w in s && w.marker == n;
        assert w in added;
      }
    }
  }

  lemma {:induction false} OthersEffect(s: seq<Zone>, m: Marker)
    ensures forall z <- Others(s, m) :: z in s && z.marker != m
    ensures forall n :: FindZone(Others(s, m), n) == if n == m then None else FindZone(s, n)
    ensures (forall a, b :: 0 <= a < b < |s| ==> s[a].marker != s[b].marker)
            ==> forall a, b :: 0 <= a < b < |Others(s, m)| ==> Others(s, m)[a].marker != Others(s, m)[b].marker
  {
    if s == [] {
    } else {
      OthersEffect(s[1..], m);
      var r := Others(s[1..], m);
      var kept := [s[0]] + r;
      assert kept[1..] == r && kept[0] == s[0] && Others(s, m) == if s[0].marker == m then r else kept;
      forall n ensures FindZone(Others(s, m), n) == if n == m then None else FindZone(s, n) {
        assert FindZone(kept, n) == if s[0].marker == n then Some(s[0]) else FindZone(r, n);
      }
    }
  }

  lemma {:induction false} FindAppended(s: seq<Zone>, z: Zone, n: Marker)
    ensures FindZone(s + [z], n) == if FindZone(s, n).Some? then FindZone(s, n) else if z.marker == n then Some(z)
                                                                                     else None
  {
    if s == [] {
    } else {
      FindAppended(s[1..], z, n);
      assert (s + [z])[1..] == s[1..] + [z];
    }
  }

  lemma ZoneEffect(s: seq<Zone>, z: Zone)
    ensures var r := ZoneOnEvent(s, z);
            && (forall n :: FindZone(r, n) == if n == z.marker then Some(z) else FindZone(s, n))
            && ((forall a, b :: 0 <= a < b < |s| ==> s[a].marker != s[b].marker)
                  ==> forall a, b :: 0 <= a < b < |r| ==> r[a].marker != r[b].marker)
  {
    OthersEffect(s, z.marker);
    forall n ensures FindZone(ZoneOnEvent(s, z), n) == if n == z.marker then Some(z) else FindZone(s, n) {
      FindAppended(Others(s, z.marker), z, n);
    }
  }

  lemma {:induction false} GateHooksEffect(dev: Device, caps: seq<Capability>, m: Marker, withholding: bool,
                                           reason: string)
    ensures var r := GateHooks(dev, caps, m, withholding, reason);
            && r.caps == dev.caps && r.zones == dev.zones && (NoDuplicates(dev) ==> NoDuplicates(r))
            && (forall n :: GateDenies(r.withheld, n) <==> if n == m && GatesClearance in caps then withholding
                                                           else GateDenies(dev.withheld, n))
    decreases |caps|
  {
    if caps == [] {
    } else {
      var next := dev.(withheld := GateOnEvent(dev.withheld, m, withholding, reason));
      GateEffect(dev.withheld, m, withholding, reason);
      GateHooksEffect(if caps[0].GatesClearance? then next else dev, caps[1..], m, withholding, reason);
    }
  }

  lemma {:induction false} ZoneHooksEffect(dev: Device, caps: seq<Capability>, z: Zone)
    ensures var r := ZoneHooks(dev, caps, z);
            && r.caps == dev.caps && r.withheld == dev.withheld && (NoDuplicates(dev) ==> NoDuplicates(r))
            && (forall n :: FindZone(r.zones, n) == if n == z.marker && GatesZone in caps then Some(z)
                                                    else FindZone(dev.zones, n))
    decreases |caps|
  {
    if caps == [] {
    } else {
      var next := dev.(zones := ZoneOnEvent(dev.zones, z));
      ZoneEffect(dev.zones, z);
      ZoneHooksEffect(if caps[0].GatesZone? then next else dev, caps[1..], z);
    }
  }

  /** A registered device's lists are free of duplicates and say exactly what it last reported. */
  ghost predicate Faithful(inputs: seq<Input>, d: Id, dev: Device) {
    && NoDuplicates(dev)
    && (GatesClearance in dev.caps ==> forall m :: GateDenies(dev.withheld, m) <==> Withholding(inputs, d, m))
    && (GatesZone in dev.caps ==> forall m :: FindZone(dev.zones, m) == Reported(inputs, d, m))
  }

  ghost predicate AllFaithful(inputs: seq<Input>, devices: map<Id, Device>) {
    forall d <- devices :: Faithful(inputs, d, devices[d])
  }

  function DevicesAfter(devices: map<Id, Device>, i: Input): map<Id, Device> {
    match i
    case DeviceRegistered(d, r) => if UnknownOnes(r.caps) == [] then devices[d := Device(r.caps, [], [])] else devices
    case DeviceDisconnected(d) => devices - {d}
    case Forget(d) => devices - {d}
    case GateChanged(d, m, withholding, reason) =>
      if d in devices then devices[d := GateHooks(devices[d], devices[d].caps, m, withholding, reason)] else devices
    case ZoneChanged(d, z) => if d in devices then devices[d := ZoneHooks(devices[d], devices[d].caps, z)] else devices
    case Reset => map[]
    case _ => devices
  }

  lemma EventDevices(w: World, i: Input)
    requires i.DeviceRegistered? || i.DeviceDisconnected? || i.ClearanceRequested? || i.SwitchChanged?
    ensures Step(w, i).w.devices == DevicesAfter(w.devices, i)
  {
    hide Steps, By, Register, ForgetDevice, RequestClearance, ChangeSwitch, UnknownOnes;
    match i
    case DeviceRegistered(d, r) => RegisterSteps(w, d, r);
    case DeviceDisconnected(d) => ForgetSteps(w, d);
    case ClearanceRequested(id, e) => RequestSteps(w, id, e);
    case SwitchChanged(j, p, confirmed) => ChangeSwitchSteps(w, j, p, confirmed);
  }

  lemma TrainEventDevices(w: World, i: Input)
    requires i.TagObserved? || i.TagAssigned? || i.TrainStatus? || i.LengthChanged?
    ensures Step(w, i).w.devices == DevicesAfter(w.devices, i)
  {
    hide Steps, By, ObserveTag, AssignTag, Status, ChangeLength;
    match i
    case TagObserved(d, tag, now) => ObserveTagSteps(w, d, tag, now);
    case TagAssigned(d, tag, b, kind) => AssignTagSteps(w, d, tag, b, kind);
    case TrainStatus(id, on, distance, now) => StatusSteps(w, id, on, distance, now);
    case LengthChanged(d, id, length) => ChangeLengthSteps(w, d, id, length);
  }

  lemma RecoveryDevices(w: World, i: Input)
    requires i.AssignSchedule? || i.Reanchor? || i.ConfirmNewTrack?
    ensures Step(w, i).w.devices == DevicesAfter(w.devices, i)
  {
    hide Steps, By, Start, Assign, ReanchorAt, ConfirmTrack;
    match i
    case AssignSchedule(id, route, stops) => AssignSteps(w, id, route, stops);
    case Reanchor(id, m) => ReanchorSteps(w, id, m);
    case ConfirmNewTrack(id) => ConfirmTrackSteps(w, id);
  }

  lemma OperatorDevices(w: World, i: Input)
    requires i.Revoke? || i.Forget? || i.Reset?
    ensures Step(w, i).w.devices == DevicesAfter(w.devices, i)
  {
    hide Steps, By, ForgetDevice, RevokeTrain;
    match i
    case Revoke(id) => RevokeSteps(w, id);
    case Forget(d) => ForgetSteps(w, d);
    case Reset =>
  }

  lemma HookDevices(w: World, i: Input)
    requires i.GateChanged? || i.ZoneChanged? || i.ZoneReleased? || i.OtherEvent?
    ensures Step(w, i).w.devices == DevicesAfter(w.devices, i)
  {
    hide Steps, By, DispatchGate, DispatchZone, DispatchOther, ReleaseFromZone, GateHooks, ZoneHooks;
    match i
    case GateChanged(d, m, withholding, reason) => DispatchGateSteps(w, d, m, withholding, reason);
    case ZoneChanged(d, z) => DispatchZoneSteps(w, d, z);
    case ZoneReleased(d, zone, id) => ReleaseFromZoneSteps(w, d, zone, id);
    case OtherEvent(d) => OtherDispatchSteps(w, d);
  }

  /** Every input changes the device table as said, and no other way. */
  lemma StepDevices(w: World, i: Input)
    ensures Step(w, i).w.devices == DevicesAfter(w.devices, i)
  {
    hide Step, DevicesAfter;
    if i.GateChanged? || i.ZoneChanged? || i.ZoneReleased? || i.OtherEvent? {
      HookDevices(w, i);
    } else if i.Revoke? || i.Forget? || i.Reset? {
      OperatorDevices(w, i);
    } else if i.AssignSchedule? || i.Reanchor? || i.ConfirmNewTrack? {
      RecoveryDevices(w, i);
    } else if i.TagObserved? || i.TagAssigned? || i.TrainStatus? || i.LengthChanged? {
      TrainEventDevices(w, i);
    } else {
      EventDevices(w, i);
    }
  }

  /** A device an input does not speak of keeps its reports and its lists. */
  lemma FaithfulOther(inputs: seq<Input>, i: Input, d: Id, dev: Device)
    requires Faithful(inputs, d, dev) && !Restarts(i, d) && !(i.GateChanged? && i.device == d)
             && !(i.ZoneChanged? && i.device == d)
    ensures Faithful(inputs + [i], d, dev)
  {
    hide NoDuplicates, GateDenies, FindZone;
    LatestReports(inputs, i, d);
  }

  lemma FaithfulGate(inputs: seq<Input>, i: Input, dev: Device)
    requires i.GateChanged? && Faithful(inputs, i.device, dev)
    ensures Faithful(inputs + [i], i.device, GateHooks(dev, dev.caps, i.marker, i.withholding, i.reason))
  {
    hide NoDuplicates, GateDenies, FindZone, GateHooks;
    GateHooksEffect(dev, dev.caps, i.marker, i.withholding, i.reason);
    LatestReports(inputs, i, i.device);
  }

  lemma FaithfulZone(inputs: seq<Input>, i: Input, dev: Device)
    requires i.ZoneChanged? && Faithful(inputs, i.device, dev)
    ensures Faithful(inputs + [i], i.device, ZoneHooks(dev, dev.caps, i.report))
  {
    hide NoDuplicates, GateDenies, FindZone, ZoneHooks;
    ZoneHooksEffect(dev, dev.caps, i.report);
    LatestReports(inputs, i, i.device);
  }

  lemma FaithfulNew(inputs: seq<Input>, i: Input)
    requires i.DeviceRegistered? && UnknownOnes(i.registration.caps) == []
    ensures Faithful(inputs + [i], i.device, Device(i.registration.caps, [], []))
  {
    hide UnknownOnes;
    LatestReports(inputs, i, i.device);
  }

  lemma FaithfulAfter(devices: map<Id, Device>, inputs: seq<Input>, i: Input)
    requires AllFaithful(inputs, devices)
    ensures AllFaithful(inputs + [i], DevicesAfter(devices, i))
  {
    hide GateHooks, ZoneHooks, UnknownOnes, Faithful;
    forall d | d in DevicesAfter(devices, i) ensures Faithful(inputs + [i], d, DevicesAfter(devices, i)[d]) {
      if Restarts(i, d) {
        FaithfulNew(inputs, i);
      } else if i.GateChanged? && i.device == d {
        FaithfulGate(inputs, i, devices[d]);
      } else if i.ZoneChanged? && i.device == d {
        FaithfulZone(inputs, i, devices[d]);
      } else {
        FaithfulOther(inputs, i, d, devices[d]);
      }
    }
  }

  /** The latest reports after one more input, spelled out. */
  lemma LatestReports(inputs: seq<Input>, i: Input, d: Id)
    ensures forall m :: Withholding(inputs + [i], d, m)
                        == if Restarts(i, d) then false
                           else if i.GateChanged? && i.device == d && i.marker == m then i.withholding
                           else Withholding(inputs, d, m)
    ensures forall m :: Reported(inputs + [i], d, m)
                        == if Restarts(i, d) then None
                           else if i.ZoneChanged? && i.device == d && i.report.marker == m then Some(i.report)
                           else Reported(inputs, d, m)
  {
    assert (inputs + [i])[..|inputs + [i]| - 1] == inputs;
  }

  lemma {:induction false} RunFaithful(l: Layout, stack: nat, inputs: seq<Input>)
    ensures AllFaithful(inputs, Run(Fresh(l, stack), inputs).w.devices)
    decreases |inputs|
  {
    if inputs == [] {
    } else {
      var front, last := inputs[..|inputs| - 1], inputs[|inputs| - 1];
      RunFaithful(l, stack, front);
      var w := Run(Fresh(l, stack), front).w;
      assert Run(Fresh(l, stack), inputs).w == Step(w, last).w;
      hide Step, AllFaithful, Run, DevicesAfter;
      StepDevices(w, last);
      FaithfulAfter(w.devices, front, last);
      assert inputs == front + [last];
    }
  }

  ghost predicate Vetoed(inputs: seq<Input>, devices: map<Id, Device>, m: Marker) {
    exists d <- devices ::
      || (GatesClearance in devices[d].caps && Withholding(inputs, d, m))
      || (GatesZone in devices[d].caps && Reported(inputs, d, m).Some?
            && Reported(inputs, d, m).value.occupancy >= Reported(inputs, d, m).value.capacity)
  }

  lemma VetoedIsDenied(inputs: seq<Input>, devices: map<Id, Device>, m: Marker)
    requires AllFaithful(inputs, devices)
    ensures Vetoed(inputs, devices, m) <==> Denied(devices, m)
  {
    forall d | d in devices
      ensures DeviceDenies(devices[d], m) <==>
              || (GatesClearance in devices[d].caps && Withholding(inputs, d, m))
              || (GatesZone in devices[d].caps && Reported(inputs, d, m).Some?
                    && Reported(inputs, d, m).value.occupancy >= Reported(inputs, d, m).value.capacity)
    {
      assert Faithful(inputs, d, devices[d]);
    }
  }

  /** In every run, no grant to a limit is issued while a registered device's latest report vetoes it. */
  lemma VetoesHaveTheLastWord(l: Layout, stack: nat, inputs: seq<Input>, i: Input, x: Effect)
    requires !i.Reset?
    requires var o := Step(Run(Fresh(l, stack), inputs).w, i); x in o.fx && x.Send? && x.command.GrantClearance?
    ensures !Vetoed(inputs + [i], Step(Run(Fresh(l, stack), inputs).w, i).w.devices, x.command.limit)
  {
    var w := Run(Fresh(l, stack), inputs).w;
    GrantsFit(w, i, x);
    RunFaithful(l, stack, inputs);
    StepDevices(w, i);
    hide Step, AllFaithful, Vetoed, Denied;
    FaithfulAfter(w.devices, inputs, i);
    VetoedIsDenied(inputs + [i], Step(w, i).w.devices, x.command.limit);
  }
}
