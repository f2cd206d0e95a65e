/** Who owns, switches and reports what: the tables registrations and reports build, over whole runs. */
module Enrolment {
  import opened Rail
  import opened LayoutModel
  import opened Gates
  import opened World
  import opened Handlers
  import opened Standing
  import opened Announced
  import LayoutRuns
  import LayoutGraph
  import Standoff

  // ---------- one registration ----------

  /** Another device owns the marker's zone. */
  predicate ZoneOfAnother(w: World, d: Id, m: Marker) { m in w.zoneOwned && w.zoneOwned[m] != d }

  /** Another device moves the marker's switch. */
  predicate SwitchOfAnother(w: World, d: Id, m: Marker) {
    m in w.layout.switchDevice && w.layout.switchDevice[m] != d
  }

  /** The device gets every marker it names that no other device owns or switches; the others keep their owners. */
  ghost predicate Owns(w: World, d: Id, owned: seq<Marker>, o: Out) {
    && o.w == w.(zoneOwned := o.w.zoneOwned)
    && (forall m :: Look(o.w.zoneOwned, m)
                    == if m in owned && !ZoneOfAnother(w, d, m) && !SwitchOfAnother(w, d, m) then Some(d)
                       else Look(w.zoneOwned, m))
    && (forall x :: x in o.fx <==>
          exists m <- owned :: (ZoneOfAnother(w, d, m) || SwitchOfAnother(w, d, m))
                               && x == Publish(Raised(MarkerOwned(d, m, OwnerOf(w, m)))))
  }

  /** The owner told of in the refusal: the zone's, or else the switch's. */
  function OwnerOf(w: World, m: Marker): Id
    requires m in w.zoneOwned || m in w.layout.switchDevice
  {
    if m in w.zoneOwned then w.zoneOwned[m] else w.layout.switchDevice[m]
  }

  lemma {:induction false} OwnMarkersOwns(w: World, d: Id, owned: seq<Marker>)
    ensures Owns(w, d, owned, OwnMarkers(w, d, owned))
    decreases |owned|
  {
    if owned == [] {
    } else {
      var m := owned[0];
      assert owned == [m] + owned[1..];
      if ZoneOfAnother(w, d, m) || SwitchOfAnother(w, d, m) {
        OwnMarkersOwns(w, d, owned[1..]);
        RefusedFirst(w, d, owned, OwnMarkers(w, d, owned[1..]));
      } else {
        var w1 := w.(zoneOwned := w.zoneOwned[m := d]);
        OwnMarkersOwns(w1, d, owned[1..]);
        OwnedFirst(w, d, owned, OwnMarkers(w1, d, owned[1..]));
      }
    }
  }

  lemma RefusedFirst(w: World, d: Id, owned: seq<Marker>, rest: Out)
    requires owned != [] && Owns(w, d, owned[1..], rest)
    requires ZoneOfAnother(w, d, owned[0]) || SwitchOfAnother(w, d, owned[0])
    ensures Owns(w, d, owned, Out(rest.w, [Publish(Raised(MarkerOwned(d, owned[0], OwnerOf(w, owned[0]))))] + rest.fx))
  {
    assert forall x :: x in owned <==> x == owned[0] || x in owned[1..];
  }

  lemma OwnedFirst(w: World, d: Id, owned: seq<Marker>, rest: Out)
    requires owned != [] && !ZoneOfAnother(w, d, owned[0]) && !SwitchOfAnother(w, d, owned[0])
    requires Owns(w.(zoneOwned := w.zoneOwned[owned[0] := d]), d, owned[1..], rest)
    ensures Owns(w, d, owned, rest)
  {
    var w1 := w.(zoneOwned := w.zoneOwned[owned[0] := d]);
    assert forall x :: x in owned <==> x == owned[0] || x in owned[1..];
    assert forall m :: ZoneOfAnother(w1, d, m) || SwitchOfAnother(w1, d, m)
                       <==> (ZoneOfAnother(w, d, m) || SwitchOfAnother(w, d, m)) && m != owned[0];
    forall m | (ZoneOfAnother(w, d, m) || SwitchOfAnother(w, d, m)) && m != owned[0]
      ensures OwnerOf(w1, m) == OwnerOf(w, m)
    {
    }
  }

  /** The zones a registration leaves owned, and the switches paired. */
  ghost predicate Enrolled(w: World, d: Id, r: Registration, w': World) {
    && (forall m :: Look(w'.zoneOwned, m)
                    == if Accepted(r) && GatesZone in r.caps && m in r.owned && !ZoneOfAnother(w, d, m)
                          && !SwitchOfAnother(w, d, m) then Some(d)
                       else Look(w.zoneOwned, m))
    && (forall m :: Look(w'.layout.switchDevice, m)
                    == if Accepted(r) && ControlsSwitch in r.caps && r.controls == Some(m) && !ZoneOfAnother(w', d, m)
                       then Some(d)
                       else Look(w.layout.switchDevice, m))
    && w'.zoneBounds == w.zoneBounds && w'.tags == w.tags
  }

  lemma InitTables(w: World, d: Id, r: Registration)
    ensures InitTrain(w, d, r)
            == w.(trains := InitTrain(w, d, r).trains, order := InitTrain(w, d, r).order,
                  nextRank := InitTrain(w, d, r).nextRank)
  {
  }

  /** What registering does to the tables. */
  lemma RegisterEnrols(w: World, d: Id, r: Registration)
    ensures Enrolled(w, d, r, Register(w, d, r).w)
  {
    hide UnknownOnes, OwnMarkers, InitTrain, Enrolled, PairSwitch;
    UnknownIff(r.caps);
    if Accepted(r) {
      var w1 := w.(devices := w.devices[d := Device(r.caps, [], [])]);
      var w2 := if ControlsMotion in r.caps then InitTrain(w1, d, r) else w1;
      InitTables(w1, d, r);
      SettingUpEnrols(w, w2, d, r);
    } else {
      NothingEnrolled(w, d, r);
    }
  }

  lemma NothingEnrolled(w: World, d: Id, r: Registration)
    requires !Accepted(r)
    ensures Enrolled(w, d, r, w)
  {
  }

  lemma SettingUpEnrols(w: World, w2: World, d: Id, r: Registration)
    requires Accepted(r) && w2.zoneOwned == w.zoneOwned && w2.layout == w.layout && SameTables(w, w2)
    ensures var zones := if GatesZone in r.caps then OwnMarkers(w2, d, r.owned) else Out(w2, []);
            var switches := if ControlsSwitch in r.caps then PairSwitch(zones.w, d, r.controls) else Out(zones.w, []);
            Enrolled(w, d, r, switches.w)
  {
    hide OwnMarkers, Accepted, PairSwitch;
    OwnMarkersOwns(w2, d, r.owned);
    var zones := if GatesZone in r.caps then OwnMarkers(w2, d, r.owned) else Out(w2, []);
    assert forall m :: ZoneOfAnother(w2, d, m) == ZoneOfAnother(w, d, m)
                       && SwitchOfAnother(w2, d, m) == SwitchOfAnother(w, d, m);
    Pairs(zones.w, d, r.controls);
  }

  lemma Pairs(w: World, d: Id, controls: Option<Marker>)
    ensures var w' := PairSwitch(w, d, controls).w;
            && SameTables(w, w')
            && forall m :: Look(w'.layout.switchDevice, m) == if controls == Some(m) && !ZoneOfAnother(w, d, m)
                                                              then Some(d)
                                                              else Look(w.layout.switchDevice, m)
  {
    var w' := PairSwitch(w, d, controls).w;
    if controls.Some? && !ZoneOfAnother(w, d, controls.value) {
      assert w'.layout.switchDevice == w.layout.switchDevice[controls.value := d];
    } else {
      assert w' == w;
    }
  }

  // ---------- over whole runs ----------

  /** No marker is in the zone of one device and the switch of another. */
  ghost predicate OneOwner(w: World) {
    forall m :: m in w.zoneOwned && m in w.layout.switchDevice ==> w.zoneOwned[m] == w.layout.switchDevice[m]
  }

  lemma EnrolledKeeps(w: World, d: Id, r: Registration, w': World)
    requires OneOwner(w) && Enrolled(w, d, r, w')
    ensures OneOwner(w')
  {
    forall m | m in w'.zoneOwned && m in w'.layout.switchDevice
      ensures w'.zoneOwned[m] == w'.layout.switchDevice[m]
    {
      assert Look(w'.zoneOwned, m).Some? && Look(w'.layout.switchDevice, m).Some?;
    }
  }

  /** An input that is no registration and no reset changes neither who owns a zone nor who moves a switch. */
  lemma OwnersKept(w: World, i: Input)
    requires !i.DeviceRegistered? && !i.Reset?
    ensures Step(w, i).w.zoneOwned == w.zoneOwned && Step(w, i).w.layout.switchDevice == w.layout.switchDevice
    ensures TablesBut(i, w, Step(w, i).w)
  {
    hide Step;
    PairingsKept(w, i);
    if i.DeviceDisconnected? || i.Forget? {
      ForgetTables(w, i);
    } else {
      hide SameStanding, HoldingReport;
      StandingKept(w, i);
      SameApart(w, i);
    }
  }

  lemma SameApart(w: World, i: Input)
    ensures var w', v := Step(w, i).w, Apart(w, i);
            w'.zoneOwned == v.zoneOwned && w'.zoneBounds == v.zoneBounds && w'.tags == v.tags
  {
    hide Step, HoldingReport;
  }

  lemma ForgetTables(w: World, i: Input)
    requires i.DeviceDisconnected? || i.Forget?
    ensures SameTables(w, Step(w, i).w)
  {
    hide ForgetDevice;
    ForgettingTables(w, i.device);
  }

  lemma ForgettingTables(w: World, d: Id)
    ensures SameTables(w, ForgetDevice(w, d).w)
  {
    hide Standoff.Retry, AllMoved, RemoveId, DropNotices;
    if d in w.devices {
      var w1 := w.(devices := w.devices - {d});
      RetryMoves(w1, None);
      RetryMoves(RemoveTrain(w1, d), None);
      MovedStanding(w1, Standoff.Retry(w1, None).w);
      MovedStanding(RemoveTrain(w1, d), Standoff.Retry(RemoveTrain(w1, d), None).w);
    }
  }

  lemma PairingsKept(w: World, i: Input)
    requires !i.DeviceRegistered? && !i.Reset?
    ensures Step(w, i).w.layout.switchDevice == w.layout.switchDevice
  {
    hide Step, LayoutGraph.Apply, LayoutRuns.OpsOf;
    LayoutRuns.StepLayout(w, i);
    LayoutRuns.AtMostOne(w, i);
    var ops := LayoutRuns.OpsOf(w, i);
    if ops == [] {
      LayoutRuns.OneOp(w.layout, LayoutGraph.Reload);
    } else {
      assert ops == [ops[0]];
      LayoutRuns.OneOp(w.layout, ops[0]);
      OpsPair(w, i);
      OpPairings(w.layout, ops[0]);
    }
  }

  lemma OpsPair(w: World, i: Input)
    requires !i.DeviceRegistered? && !i.Reset? && LayoutRuns.OpsOf(w, i) != []
    ensures var op := LayoutRuns.OpsOf(w, i)[0];
            op.Upsert? || op.Infer? || op.Record? || op.SetSwitches?
  {
    hide LayoutRuns.Passes;
  }

  lemma OpPairings(l: Layout, op: LayoutGraph.Op)
    requires op.Upsert? || op.Infer? || op.Record? || op.SetSwitches?
    ensures LayoutGraph.Apply(l, op).switchDevice == l.switchDevice
  {
    hide FindEdge, LearnShared, LearnForTrain, PromoteIn;
    if op.Record? {
      RecordPairings(l, op.begin, op.end, op.train, op.now);
    }
  }

  lemma RecordPairings(l: Layout, from: Marker, to: Marker, train: Option<Id>, now: real)
    ensures RecordTraversal(l, from, to, train, now).layout.switchDevice == l.switchDevice
  {
    hide FindEdge, PromoteIn, Blend;
  }

  lemma ResetOwns(w: World)
    ensures Step(w, Reset).w.zoneOwned == map[]
  {
    hide Load;
  }

  /** In every run a marker's zone and its switch belong to one device. */
  lemma {:induction false} RunOwners(l: Layout, stack: nat, inputs: seq<Input>)
    ensures OneOwner(Run(Fresh(l, stack), inputs).w)
    decreases |inputs|
  {
    hide Step, OneOwner;
    if inputs == [] {
      FreshOwners(l, stack);
    } else {
      var w, i := Run(Fresh(l, stack), inputs[..|inputs| - 1]).w, inputs[|inputs| - 1];
      RunOwners(l, stack, inputs[..|inputs| - 1]);
      StepOwners(w, i);
    }
  }

  lemma FreshOwners(l: Layout, stack: nat)
    ensures OneOwner(Fresh(l, stack))
  {
  }

  lemma StepOwners(w: World, i: Input)
    requires OneOwner(w)
    ensures OneOwner(Step(w, i).w)
  {
    hide Step;
    if i.DeviceRegistered? {
      hide Enrolled, OneOwner;
      RegisteringEnrols(w, i);
      EnrolledKeeps(w, i.device, i.registration, Step(w, i).w);
    } else if i.Reset? {
      ResetOwns(w);
    } else {
      OwnersKept(w, i);
    }
  }

  lemma RegisteringEnrols(w: World, i: Input)
    requires i.DeviceRegistered?
    ensures Enrolled(w, i.device, i.registration, Step(w, i).w)
  {
    hide Register, Enrolled;
    RegisterEnrols(w, i.device, i.registration);
  }

  /** Once a device owns a zone, no other device ever does, short of a reset. */
  lemma OwnerStays(w: World, i: Input, m: Marker)
    requires !i.Reset? && m in w.zoneOwned
    ensures m in Step(w, i).w.zoneOwned && Step(w, i).w.zoneOwned[m] == w.zoneOwned[m]
  {
    hide Step;
    if i.DeviceRegistered? {
      RegisteringEnrols(w, i);
      assert Look(Step(w, i).w.zoneOwned, m) == Look(w.zoneOwned, m);
    } else {
      OwnersKept(w, i);
    }
  }

  // ---------- zones and tags, read off the inputs ----------

  /** The device that last reported a zone's state, since the last reset. */
  function ReporterOf(inputs: seq<Input>, m: Marker): Option<Id> {
    if inputs == [] then None
    else
      var i := inputs[|inputs| - 1];
      if i.Reset? then None
      else if i.ZoneChanged? && i.report.marker == m then Some(i.device)
      else ReporterOf(inputs[..|inputs| - 1], m)
  }

  /** What a tag was last bound to by a device registered to assign tags. */
  function BindingOf(inputs: seq<Input>, tag: string): Option<Binding> {
    if inputs == [] then None
    else
      var front, i := inputs[..|inputs| - 1], inputs[|inputs| - 1];
      if i.Reset? then None
      else if i.TagAssigned? && i.tag == tag && CapsOf(front, i.device).Some?
              && AssignsTags in CapsOf(front, i.device).value then Some(i.binding)
      else BindingOf(front, tag)
  }

  ghost predicate Recorded(inputs: seq<Input>, w: World) {
    && (forall m :: Look(w.zoneBounds, m) == ReporterOf(inputs, m))
    && (forall tag :: Look(w.tags, tag) == BindingOf(inputs, tag))
  }

  lemma ZoneReporter(w: World, d: Id, z: Zone)
    ensures DispatchZone(w, d, z).w.zoneBounds == w.zoneBounds[z.marker := d]
  {
    hide Standoff.Retry, ZoneHooks, OnlyConcerns;
    ZoneConcerns(w, d, z);
    ConcernsStanding(w.(zoneBounds := w.zoneBounds[z.marker := d]), DispatchZone(w, d, z).w, "");
  }

  lemma TagBound(w: World, d: Id, tag: string, b: Binding, kind: Kind)
    ensures AssignTag(w, d, tag, b, kind).w.tags
            == if d in w.devices && AssignsTags in w.devices[d].caps then w.tags[tag := b] else w.tags
  {
    hide UpsertMarker;
  }

  lemma RecordsSame(inputs: seq<Input>, w: World, w': World, i: Input)
    requires Recorded(inputs, w) && TablesBut(i, w, w') && !i.Reset? && !i.ZoneChanged? && !i.TagAssigned?
    ensures Recorded(inputs + [i], w')
  {
    assert (inputs + [i])[..|inputs + [i]| - 1] == inputs;
  }

  lemma RecordsZone(inputs: seq<Input>, w: World, w': World, i: Input)
    requires Recorded(inputs, w) && i.ZoneChanged? && TablesBut(i, w, w')
    requires w'.zoneBounds == w.zoneBounds[i.report.marker := i.device]
    ensures Recorded(inputs + [i], w')
  {
    assert (inputs + [i])[..|inputs + [i]| - 1] == inputs;
  }

  lemma RecordsTag(inputs: seq<Input>, w: World, w': World, i: Input)
    requires Recorded(inputs, w) && DevicesAgree(inputs, w) && i.TagAssigned? && TablesBut(i, w, w')
    requires w'.tags == if i.device in w.devices && AssignsTags in w.devices[i.device].caps
                        then w.tags[i.tag := i.binding] else w.tags
    ensures Recorded(inputs + [i], w')
  {
    hide CapsOf, DevicesAgree, Recorded;
    Authorised(inputs, w, i.device);
    var more := inputs + [i];
    assert more[..|more| - 1] == inputs;
    RecordedEach(inputs, w);
    forall tag ensures Look(w'.tags, tag) == BindingOf(more, tag) {
      assert BindingOf(more, tag) == if i.tag == tag && CapsOf(inputs, i.device).Some?
                                        && AssignsTags in CapsOf(inputs, i.device).value then Some(i.binding)
                                     else BindingOf(inputs, tag);
    }
    forall m ensures Look(w'.zoneBounds, m) == ReporterOf(more, m) {
    }
    EachRecorded(more, w');
  }

  lemma RecordedEach(inputs: seq<Input>, w: World)
    requires Recorded(inputs, w)
    ensures forall m :: Look(w.zoneBounds, m) == ReporterOf(inputs, m)
    ensures forall tag :: Look(w.tags, tag) == BindingOf(inputs, tag)
  {
  }

  lemma EachRecorded(inputs: seq<Input>, w: World)
    requires forall m :: Look(w.zoneBounds, m) == ReporterOf(inputs, m)
    requires forall tag :: Look(w.tags, tag) == BindingOf(inputs, tag)
    ensures Recorded(inputs, w)
  {
  }

  lemma StepRecords(inputs: seq<Input>, w: World, i: Input)
    requires Recorded(inputs, w) && DevicesAgree(inputs, w)
    ensures Recorded(inputs + [i], Step(w, i).w)
  {
    hide Step, CapsOf, Recorded, DevicesAgree;
    if i.DeviceRegistered? {
      RegisteringEnrols(w, i);
      EnrolledRecords(inputs, w, Step(w, i).w, i);
    } else if i.Reset? {
      ResetRecords(w);
      NothingRecorded(inputs, Step(w, i).w);
    } else {
      OwnersKept(w, i);
      if i.ZoneChanged? {
        StepReporter(w, i);
        RecordsZone(inputs, w, Step(w, i).w, i);
      } else if i.TagAssigned? {
        StepBinding(w, i);
        RecordsTag(inputs, w, Step(w, i).w, i);
      } else {
        RecordsSame(inputs, w, Step(w, i).w, i);
      }
    }
  }

  lemma EnrolledRecords(inputs: seq<Input>, w: World, w': World, i: Input)
    requires Recorded(inputs, w) && i.DeviceRegistered? && Enrolled(w, i.device, i.registration, w')
    ensures Recorded(inputs + [i], w')
  {
    assert (inputs + [i])[..|inputs + [i]| - 1] == inputs;
  }

  lemma NothingRecorded(inputs: seq<Input>, w: World)
    requires w.zoneBounds == map[] && w.tags == map[]
    ensures Recorded(inputs + [Reset], w)
  {
  }

  lemma Authorised(inputs: seq<Input>, w: World, d: Id)
    requires DevicesAgree(inputs, w)
    ensures d in w.devices && AssignsTags in w.devices[d].caps
            <==> CapsOf(inputs, d).Some? && AssignsTags in CapsOf(inputs, d).value
  {
    assert d in w.devices <==> CapsOf(inputs, d).Some?;
  }

  lemma StepReporter(w: World, i: Input)
    requires i.ZoneChanged?
    ensures Step(w, i).w.zoneBounds == w.zoneBounds[i.report.marker := i.device]
  {
    hide DispatchZone;
    ZoneReporter(w, i.device, i.report);
  }

  lemma StepBinding(w: World, i: Input)
    requires i.TagAssigned?
    ensures Step(w, i).w.tags == if i.device in w.devices && AssignsTags in w.devices[i.device].caps
                                 then w.tags[i.tag := i.binding] else w.tags
  {
    hide AssignTag;
    TagBound(w, i.device, i.tag, i.binding, i.kind);
  }

  lemma ResetRecords(w: World)
    ensures Step(w, Reset).w.zoneBounds == map[] && Step(w, Reset).w.tags == map[]
  {
    hide Load;
  }

  /** In every run a zone answers to whoever last reported it, and a tag means what it was last assigned. */
  lemma {:induction false} RunRecords(l: Layout, stack: nat, inputs: seq<Input>)
    ensures Recorded(inputs, Run(Fresh(l, stack), inputs).w)
    decreases |inputs|
  {
    hide Step, DevicesAgree, Agrees;
    if inputs == [] {
    } else {
      hide Recorded;
      var front, i := inputs[..|inputs| - 1], inputs[|inputs| - 1];
      RunRecords(l, stack, front);
      RunAgrees(l, stack, front);
      StepRecords(front, Run(Fresh(l, stack), front).w, i);
      assert inputs == front + [i];
    }
  }

  // ---------- markers ----------

  /** A tag is bound, by a device registered to, to a marker the layout does not have. */
  predicate FindsMarker(w: World, i: Input) {
    i.TagAssigned? && i.device in w.devices && AssignsTags in w.devices[i.device].caps && i.binding.ToMarker?
      && i.binding.target !in w.layout.markers
  }

  lemma OpMarkers(l: Layout, op: LayoutGraph.Op)
    requires op.Infer? || op.Record? || op.SetSwitches? || op.SetPairings?
    ensures LayoutGraph.Apply(l, op).markers == l.markers
  {
    hide FindEdge, LearnShared, LearnForTrain, PromoteIn;
    if op.Record? {
      RecordMarkers(l, op.begin, op.end, op.train, op.now);
    }
  }

  lemma RecordMarkers(l: Layout, from: Marker, to: Marker, train: Option<Id>, now: real)
    ensures RecordTraversal(l, from, to, train, now).layout.markers == l.markers
  {
    hide FindEdge, PromoteIn, Blend;
  }

  lemma OpsMark(w: World, i: Input)
    requires !i.Reset? && !FindsMarker(w, i) && LayoutRuns.OpsOf(w, i) != []
    ensures var op := LayoutRuns.OpsOf(w, i)[0]; op.Infer? || op.Record? || op.SetSwitches? || op.SetPairings?
  {
    hide LayoutRuns.Passes, Register;
  }

  lemma FindsOps(w: World, i: Input)
    requires FindsMarker(w, i)
    ensures LayoutRuns.OpsOf(w, i) == [LayoutGraph.Upsert(i.binding.target, i.kind)]
  {
  }

  /** Markers come with the document or with a tag bound to a new one, of the kind it says, and never change or go. */
  lemma StepMarkers(w: World, i: Input)
    requires !i.Reset?
    ensures Step(w, i).w.layout.markers
            == if FindsMarker(w, i) then w.layout.markers[i.binding.target := i.kind] else w.layout.markers
  {
    hide Step, LayoutGraph.Apply, LayoutRuns.OpsOf;
    LayoutRuns.StepLayout(w, i);
    LayoutRuns.AtMostOne(w, i);
    var ops := LayoutRuns.OpsOf(w, i);
    if FindsMarker(w, i) {
      FindsOps(w, i);
      LayoutRuns.OneOp(w.layout, ops[0]);
      Upserted(w.layout, i.binding.target, i.kind);
    } else if ops == [] {
      LayoutRuns.OneOp(w.layout, LayoutGraph.Reload);
    } else {
      assert ops == [ops[0]];
      LayoutRuns.OneOp(w.layout, ops[0]);
      OpsMark(w, i);
      OpMarkers(w.layout, ops[0]);
    }
  }

  lemma Upserted(l: Layout, m: Marker, kind: Kind)
    requires m !in l.markers
    ensures LayoutGraph.Apply(l, LayoutGraph.Upsert(m, kind)).markers == l.markers[m := kind]
  {
  }
}
