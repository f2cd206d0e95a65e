/** What a train's own marker report brings about: discovery of track, or a hold, and nothing in between. */
module Reports {
  import opened Rail
  import opened LayoutModel
  import opened World
  import opened Handlers
  import opened Deadlock
  import opened Yielding
  import opened GivingWay
  import opened LayoutGraph
  import opened LayoutRuns
  import opened Standing
  import opened Announced
  import opened Choosing
  import Retreats

  /** The train is not in a zone, follows a route, and reports a marker the layout does not join its last one to. */
  predicate OffTheMap(l: Layout, t: Train, m: Marker) {
    t.inZone.None? && t.transit.Some? && t.last.Some? && t.last.value != m && !Leads(l, t.last.value, m)
  }

  lemma OffTheMapIff(w: World, id: Id, m: Marker)
    requires id in w.trains
    ensures HoldsUp(w, id, m) <==> OffTheMap(w.layout, w.trains[id], m)
  {
  }

  /** A marker report puts a hold on the train that makes it exactly when it takes the train off the map. */
  lemma ReportHoldsIff(w: World, i: Input)
    requires IsReport(w, i) && i.device in w.trains && !w.trains[i.device].blocked
    ensures var w' := Step(w, i).w;
            i.device in w'.trains
            && (w'.trains[i.device].blocked <==> OffTheMap(w.layout, w.trains[i.device], w.tags[i.tag].target))
  {
    hide Step, OffTheMap, HoldsUp, SameStanding, Unheld;
    StandingKept(w, i);
    OffTheMapIff(w, i.device, w.tags[i.tag].target);
    if !HoldingReport(w, i) {
      StandsHas(w, Step(w, i).w, i.device);
    }
  }

  lemma StandsHas(w: World, w': World, id: Id)
    requires SameStanding(w, w') && id in w.trains
    ensures id in w'.trains && Stands(w.trains[id], w'.trains[id])
  {
  }

  /** And nothing else ever holds a train: not other trains' reports, not commands, not registering anew. */
  lemma OnlyReportsHold(w: World, i: Input, id: Id)
    requires id in w.trains && id in Step(w, i).w.trains
    requires !w.trains[id].blocked && Step(w, i).w.trains[id].blocked
    ensures IsReport(w, i) && i.device == id && OffTheMap(w.layout, w.trains[id], w.tags[i.tag].target)
  {
    hide Step, OffTheMap, HoldsUp, SameStanding;
    if ChangesRoster(i) {
      RosterHolds(w, i, id);
    } else {
      StandingKept(w, i);
      StandsHas(w, Apart(w, i), id);
      OffTheMapIff(w, id, w.tags[i.tag].target);
    }
  }

  lemma RegisterHolds(w: World, d: Id, r: Registration, id: Id)
    requires id in w.trains
    ensures var w' := Register(w, d, r).w; id in w'.trains && w'.trains[id].blocked ==> w.trains[id].blocked
  {
    hide Register;
    RegisterStanding(w, d, r);
  }

  lemma ForgetHolds(w: World, d: Id, id: Id)
    requires id in w.trains
    ensures var w' := ForgetDevice(w, d).w; id in w'.trains && w'.trains[id].blocked ==> w.trains[id].blocked
  {
    hide ForgetDevice;
    ForgetStanding(w, d);
  }

  lemma RosterHolds(w: World, i: Input, id: Id)
    requires ChangesRoster(i) && id in w.trains && id in Step(w, i).w.trains && Step(w, i).w.trains[id].blocked
    ensures w.trains[id].blocked
  {
    hide Register, ForgetDevice, Load;
    match i
    case DeviceRegistered(d, r) => RegisterHolds(w, d, r, id);
    case DeviceDisconnected(d) => ForgetHolds(w, d, id);
    case Forget(d) => ForgetHolds(w, d, id);
    case Reset =>
  }

  // ---------- discovery ----------

  lemma InferLists(l: Layout, from: Marker, to: Marker)
    requires GraphOk(l) && from in l.markers && to in l.markers
    ensures HasEdge(AddInferredEdge(l, from, to).out, EdgeRef(from, to))
  {
    hide Mirrored;
    InferFinds(l, from, to);
    var l' := AddInferredEdge(l, from, to);
    InferKeeps0(l, from, to);
    var e := FindEdge(l', from, to).value;
    assert e in l'.out[from] && e.Ref() == EdgeRef(from, to);
  }

  lemma InferKeeps0(l: Layout, from: Marker, to: Marker)
    requires GraphOk(l)
    ensures var l' := AddInferredEdge(l, from, to);
            forall m, e :: m in l'.out && e in l'.out[m] ==> e.from == m
  {
    hide Mirrored, FindEdge;
  }

  lemma PromoteLists(out: Index, key: Marker, from: Marker, to: Marker, r: EdgeRef)
    requires HasEdge(out, r)
    ensures HasEdge(PromoteIn(out, key, from, to), r)
  {
    hide Promote;
    var out': Index := PromoteIn(out, key, from, to);
    var m: Marker, e: LayoutEdge :| m in out && e in out[m] && e.Ref() == r;
    if m == key {
      PromoteMembers(out[m], from, to);
      var i :| 0 <= i < |out[m]| && out[m][i] == e;
      assert out'[m][i] in out'[m] && out'[m][i].Ref() == r;
    } else {
      assert e in out'[m];
    }
  }

  /** A recorded traversal between known markers leaves an edge between them. */
  lemma RecordLists(l: Layout, from: Marker, to: Marker, train: Option<Id>, now: real)
    requires GraphOk(l) && from in l.markers && to in l.markers
    ensures HasEdge(RecordTraversal(l, from, to, train, now).layout.out, EdgeRef(from, to))
  {
    hide GraphOk, HasEdge, AddInferredEdge, FindEdge, LearnShared, LearnForTrain, PromoteIn;
    InferLists(l, from, to);
    var l1 := AddInferredEdge(l, from, to);
    PromoteLists(l1.out, from, from, to, EdgeRef(from, to));
    var key := EdgeRef(from, to);
    var l2 := l1.(counts := l1.counts[key := Count(l.counts, key) + 1]);
    LearningGraph(l2, key, train, now);
    LearningGraph(ConfirmEdge(l2, from, to), key, train, now);
  }

  lemma LearningGraph(l: Layout, e: EdgeRef, train: Option<Id>, now: real)
    ensures LearnShared(l, e, now).out == l.out
    ensures train.Some? ==> LearnForTrain(LearnShared(l, e, now), e, train.value, now).out == l.out
  {
  }

  lemma FreePasses(w: World, i: Input, r: EdgeRef)
    requires FreeReport(w, i, r) && w.trains[i.device].inZone.None? && r.from != "" && r.from != r.to
    ensures OpsOf(w, i) == [Record(r.from, r.to, Some(i.device), i.now)] && !HoldingReport(w, i)
  {
    hide FindEdge;
  }

  lemma FreeReportLists(w: World, i: Input, r: EdgeRef)
    requires Sound(w.layout) && FreeReport(w, i, r) && w.trains[i.device].inZone.None?
    requires r.from != "" && r.from != r.to && r.from in w.layout.markers && r.to in w.layout.markers
    ensures HasEdge(Step(w, i).w.layout.out, r)
  {
    hide Step, OpsOf, HasEdge, RecordTraversal, GraphOk, Discovered, LateCopiesConfirmed;
    FreePasses(w, i, r);
    StepLayout(w, i);
    OneOp(w.layout, OpsOf(w, i)[0]);
    RecordLists(w.layout, r.from, r.to, Some(i.device), i.now);
  }

  /** A train without a route has none after its report either. */
  lemma StaysFree(w: World, i: Input)
    requires IsReport(w, i) && i.device in w.trains && w.trains[i.device].transit.None?
    requires w.trains[i.device].inZone.None?
    ensures i.device in Step(w, i).w.trains && Step(w, i).w.trains[i.device].transit.None?
  {
    hide Pass, FindEdge, OnlyConcerns;
    PassConcerns(w, i.device, w.tags[i.tag].target, i.now);
  }

  /** Nobody in a standoff is without a route, now or after a pass. */
  lemma DueHasRoute(w: World, w': World, cycle: seq<Id>, id: Id, c: Command)
    requires AllMoved(w, w') && Due(w, cycle, id, c)
    ensures id in w'.trains && w'.trains[id].transit.Some?
  {
    MembersWait(w.trains, cycle, id);
    assert Moved(w.trains[id], w'.trains[id]);
  }

  lemma FreeKeepsClearance(w: World, i: Input, x: Effect)
    requires Rostered(w) && IsReport(w, i) && i.device in w.trains && w.trains[i.device].transit.None?
    requires w.trains[i.device].inZone.None? && x in Step(w, i).fx && TakesBack(x)
    ensures x.device != i.device
  {
    hide Step, AllMoved, Due, Rostered, Violates;
    StepRosters(w, i);
    StepTakesBack(w, i, x);
    StaysFree(w, i);
    FreeIsNotHeld(w, i);
    if x.device == i.device {
      var v, cycle :| AllMoved(v, Step(w, i).w) && Due(v, cycle, x.device, x.command);
      DueHasRoute(v, Step(w, i).w, cycle, x.device, x.command);
    }
  }

  lemma FreeIsNotHeld(w: World, i: Input)
    requires IsReport(w, i) && i.device in w.trains && w.trains[i.device].transit.None?
    ensures !HoldingReport(w, i)
  {
  }

  /**
   * Track is discovered by driving over it: when a train without a route, not in a zone, reports a known marker other
   * than its last, then the layout joins the two afterwards, and no clearance is taken back from the train.
   */
  lemma FreeReportDiscovers(w: World, i: Input, r: EdgeRef)
    requires Sound(w.layout) && Rostered(w) && FreeReport(w, i, r) && w.trains[i.device].inZone.None?
    requires r.from != "" && r.from != r.to && r.from in w.layout.markers && r.to in w.layout.markers
    ensures HasEdge(Step(w, i).w.layout.out, r)
    ensures forall x <- Step(w, i).fx :: TakesBack(x) ==> x.device != i.device
    ensures i.device in Step(w, i).w.trains && (Step(w, i).w.trains[i.device].blocked ==> w.trains[i.device].blocked)
  {
    hide Step, HasEdge, Sound, Rostered;
    FreeReportLists(w, i, r);
    forall x | x in Step(w, i).fx && TakesBack(x) ensures x.device != i.device {
      FreeKeepsClearance(w, i, x);
    }
    StaysFree(w, i);
    FreeIsNotHeld(w, i);
    if !w.trains[i.device].blocked {
      ReportHoldsIff(w, i);
    }
  }

  /** So it is in every run from a sound layout. */
  lemma DiscoveryInEveryRun(l: Layout, stack: nat, inputs: seq<Input>, i: Input, r: EdgeRef)
    requires Sound(l)
    requires var w := Run(Fresh(l, stack), inputs).w;
             && FreeReport(w, i, r) && w.trains[i.device].inZone.None?
             && r.from != "" && r.from != r.to && r.from in w.layout.markers && r.to in w.layout.markers
    ensures var w := Run(Fresh(l, stack), inputs).w;
            && HasEdge(Step(w, i).w.layout.out, r)
            && (forall x <- Step(w, i).fx :: TakesBack(x) ==> x.device != i.device)
  {
    hide Step, Run, HasEdge, Sound, Rostered;
    RunKeepsLayout(Fresh(l, stack), inputs);
    Retreats.FreshIsSound(l, stack);
    RunRosters(Fresh(l, stack), inputs);
    FreeReportDiscovers(Run(Fresh(l, stack), inputs).w, i, r);
  }
}
