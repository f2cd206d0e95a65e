/** Deadlock detection is exact (ADR-017): what is published is a standoff, and nothing means there is none. */
module Deadlock {
  import opened Rail
  import opened LayoutModel
  import opened World
  import opened Ranking
  import opened Cycles
  import opened Clearance
  import opened Standoff
  import opened Handlers
  import opened Plays
  import opened HandlerPlays
  import Replanning

  // ---------- the registration order lists every train once ----------

  ghost predicate Rostered(w: World) {
    Distinct(w.order) && forall id :: id in w.order <==> id in w.trains
  }

  lemma {:induction false} RemoveKeepsDistinct(order: seq<Id>, id: Id)
    requires Distinct(order)
    ensures Distinct(RemoveId(order, id))
  {
    if order == [] {
    } else {
      RemoveKeepsDistinct(order[1..], id);
      assert order[0] !in order[1..];
    }
  }

  lemma LinkRosters(j: Judge, w: World, fx: seq<Effect>, w': World)
    requires Rostered(w) && Link(j, w, fx, w')
    ensures Rostered(w')
  {
    hide Rostered, Quiet, Grants, Asks, Guards, Confirms, Drops, Joins, Leaves;
    if id :| Drops(w, fx, w', id) || Joins(w, fx, w', id) || Leaves(w, fx, w', id) {
      RosterLinks(w, fx, w', id);
    } else if id, e :| Grants(j, w, fx, w', id, e) || Asks(j, w, fx, w', id, e) {
      GrantRosters(j, w, fx, w', id, e);
    } else if id, m, now :| Guards(w, fx, w', id, m, now) {
      GuardRosters(w, fx, w', id, m, now);
    } else if m, p :| Confirms(w, fx, w', m, p) {
      ConfirmRosters(w, fx, w', m, p);
    } else {
      QuietRosters(w, fx, w');
    }
  }

  lemma GrantRosters(j: Judge, w: World, fx: seq<Effect>, w': World, id: Id, e: EdgeRef)
    requires Rostered(w) && (Grants(j, w, fx, w', id, e) || Asks(j, w, fx, w', id, e))
    ensures Rostered(w')
  {
    hide Conflicts, SwitchMismatch, Denied, Demanded, Required;
    assert w'.order == w.order && w'.trains.Keys == w.trains.Keys;
  }

  lemma GuardRosters(w: World, fx: seq<Effect>, w': World, id: Id, m: Marker, now: real)
    requires Rostered(w) && Guards(w, fx, w', id, m, now)
    ensures Rostered(w')
  {
    hide Violates;
    assert w'.order == w.order && w'.trains.Keys == w.trains.Keys;
  }

  lemma ConfirmRosters(w: World, fx: seq<Effect>, w': World, m: Marker, p: string)
    requires Rostered(w) && Confirms(w, fx, w', m, p)
    ensures Rostered(w')
  {
  }

  lemma QuietRosters(w: World, fx: seq<Effect>, w': World)
    requires Rostered(w) && Quiet(w, fx, w')
    ensures Rostered(w')
  {
    hide SameSwitches, Harmless;
    assert w'.order == w.order && w'.trains.Keys == w.trains.Keys;
  }

  lemma RosterLinks(w: World, fx: seq<Effect>, w': World, id: Id)
    requires Rostered(w) && (Drops(w, fx, w', id) || Joins(w, fx, w', id) || Leaves(w, fx, w', id))
    ensures Rostered(w')
  {
    RemoveKeepsDistinct(w.order, id);
    hide OnlyShows, Harmless;
    assert OnlyTouches(w, w', id);
  }

  lemma {:induction false} PlayRosters(j: Judge, p: Play)
    requires Legal(j, p) && Rostered(p.at)
    ensures Rostered(End(p))
  {
    if p.Stop? {
    } else {
      hide Link, Rostered;
      LinkRosters(j, p.at, p.fx, p.rest.at);
      PlayRosters(j, p.rest);
    }
  }

  lemma StartRosters(w: World, i: Input)
    requires Rostered(w)
    ensures Rostered(Start(w, i))
  {
    hide Silenced;
    assert Start(w, i).trains.Keys == w.trains.Keys;
  }

  lemma StepRosters(w: World, i: Input)
    requires Rostered(w)
    ensures Rostered(Step(w, i).w)
  {
    if i.Reset? {
    } else {
      StepsRoster(w, i);
    }
  }

  lemma StepsRoster(w: World, i: Input)
    requires Rostered(w) && !i.Reset?
    ensures Rostered(Step(w, i).w)
  {
    hide Step, Start, Rostered;
    StepIsPlay(w, i);
    StartRosters(w, i);
    var p :| IsPlay(JudgeOf(w, i), p, Start(w, i), Step(w, i));
    PlayRosters(JudgeOf(w, i), p);
  }

  lemma {:induction false} RunRosters(w: World, inputs: seq<Input>)
    requires Rostered(w)
    ensures Rostered(Run(w, inputs).w)
  {
    if inputs == [] {
    } else {
      var front := inputs[..|inputs| - 1];
      RunRosters(w, front);
      hide Rostered, Step;
      StepRosters(Run(w, front).w, inputs[|inputs| - 1]);
    }
  }

  lemma {:induction false} RosterDistinct(order: seq<Id>, ts: Trains)
    requires Distinct(order)
    ensures Distinct(Roster(order, ts))
  {
    if order == [] {
    } else {
      RosterDistinct(order[1..], ts);
      assert order[0] !in order[1..];
    }
  }

  // ---------- waiting for one another ----------

  /** a waits for b: b holds an edge that touches the one a wants next. */
  ghost predicate WaitsOn(ts: Trains, a: Id, b: Id) {
    a in ts && b in ts && a != b && Wanted(ts[a]).Some? && TouchesAny(ts[b].held, Wanted(ts[a]).value)
  }

  /** Every train waits for the next one and the last for the first, repetitions allowed. */
  ghost predicate Ring(ts: Trains, c: seq<Id>) {
    && c != [] && (forall i {:trigger c[i]} :: 0 < i < |c| ==> WaitsOn(ts, c[i - 1], c[i]))
    && WaitsOn(ts, c[|c| - 1], c[0])
  }

  /** A standoff: at least two different trains in a ring. */
  ghost predicate IsStandoff(ts: Trains, c: seq<Id>) {
    |c| >= 2 && Distinct(c) && Ring(ts, c)
  }

  lemma GraphIsWaiting(order: seq<Id>, ts: Trains, a: Id, b: Id)
    requires forall id :: id in order <==> id in ts
    ensures Edge(WaitsFor(order, ts), a, b) <==> WaitsOn(ts, a, b)
  {
  }

  lemma RingIsWalk(order: seq<Id>, ts: Trains, c: seq<Id>)
    requires forall id :: id in order <==> id in ts
    ensures Ring(ts, c) <==> IsClosedWalk(WaitsFor(order, ts), c)
  {
    hide WaitsFor, WaitsOn, Edge;
    forall a, b ensures Edge(WaitsFor(order, ts), a, b) <==> WaitsOn(ts, a, b) {
      GraphIsWaiting(order, ts, a, b);
    }
  }

  lemma TwoMembers(s: seq<Id>, a: Id, b: Id)
    requires a in s && b in s && a != b
    ensures |s| >= 2
  {
  }

  lemma RingHasTwo(order: seq<Id>, ts: Trains, c: seq<Id>)
    requires (forall id :: id in order <==> id in ts) && Ring(ts, c)
    ensures |Waiting(order, ts)| >= 2 && c[0] in Waiting(order, ts)
  {
    var next := if |c| > 1 then c[1] else c[0];
    assert WaitsOn(ts, c[|c| - 1], c[0]);
    if |c| > 1 {
      assert WaitsOn(ts, c[0], c[1]);
      if |c| > 2 {
        assert WaitsOn(ts, c[1], c[2]);
      }
      TwoMembers(Waiting(order, ts), c[0], c[1]);
    }
  }

  /** The search answers with a standoff, or no ring of waiting trains exists. */
  lemma DetectExact(order: seq<Id>, ts: Trains)
    requires forall id :: id in order <==> id in ts
    ensures Detect(order, ts).Some? ==> IsStandoff(ts, Detect(order, ts).value)
    ensures Detect(order, ts).None? ==> forall c :: !Ring(ts, c)
  {
    var g := WaitsFor(order, ts);
    assert NoSelfLoops(g);
    CycleFromAnyExact(Waiting(order, ts), g);
    hide WaitsFor, IsClosedWalk, Ring, NoSelfLoops;
    if Detect(order, ts).Some? {
      RingIsWalk(order, ts, Detect(order, ts).value);
    } else {
      EmptyIsNoRing(ts);
      forall c ensures !Ring(ts, c) {
        if Ring(ts, c) {
          RingIsWalk(order, ts, c);
          RingHasTwo(order, ts, c);
        }
      }
    }
  }

  lemma EmptyIsNoRing(ts: Trains)
    ensures !Ring(ts, [])
  {
  }

  // ---------- what is published ----------

  /** The published list says exactly what the trains do: the members of a standoff in text order, or nothing. */
  ghost predicate Exact(deadlock: seq<Id>, ts: Trains) {
    && (deadlock == [] <==> forall c :: !Ring(ts, c))
    && (deadlock != [] ==> Ascending(deadlock) && exists c :: IsStandoff(ts, c) && multiset(c) == multiset(deadlock))
  }

  function Report(cycle: Option<seq<Id>>): seq<Id> {
    if cycle.Some? then SortText(cycle.value) else []
  }

  ghost predicate UpToDate(w: World) {
    w.deadlock == Report(Detect(w.order, w.trains))
  }

  lemma UpToDateIsExact(w: World)
    requires Rostered(w) && UpToDate(w)
    ensures Exact(w.deadlock, w.trains)
  {
    var cycle := Detect(w.order, w.trains);
    DetectExact(w.order, w.trains);
    if cycle.Some? {
      SortAscends(cycle.value);
      assert |multiset(w.deadlock)| == |multiset(cycle.value)|;
      assert w.deadlock != [];
      hide Detect;
      assert IsStandoff(w.trains, cycle.value) && Ring(w.trains, cycle.value);
    }
  }

  lemma EmitUpToDate(w: World)
    ensures UpToDate(EmitDeadlock(w, Detect(w.order, w.trains)).w)
  {
    hide SortText, Detect;
  }

  /** However a pass ends, after a yield or a reverse too, what is published fits the final state. */
  lemma {:induction false} RetryUpToDate(w: World, skip: Option<set<Id>>)
    ensures UpToDate(Retry(w, skip).w)
    decreases Level(skip), 2
  {
    ResolveUpToDate(RetryEach(w, Ordered(w), if skip.Some? then skip.value else {}).w, skip);
  }

  lemma {:induction false} ResolveUpToDate(w: World, skip: Option<set<Id>>)
    ensures UpToDate(Resolve(w, skip).w)
    decreases Level(skip), 1
  {
    hide Detect, UpToDate, EmitDeadlock, YieldStep, ReverseStep;
    EmitUpToDate(w);
    var cycle := Detect(w.order, w.trains);
    if cycle.Some? && skip.None? {
      var yielded := YieldStep(w, cycle.value);
      var reversed := ReverseStep(w, cycle.value);
      if yielded.Some? {
        RetryUpToDate(yielded.value.1.w, Some({yielded.value.0}));
      } else if reversed.Some? {
        RetryUpToDate(reversed.value.1.w, Some({reversed.value.0}));
      }
    }
  }

  /** The status report lets go of something the tail has cleared. */
  predicate Clears(w: World, id: Id, on: Option<EdgeRef>, distance: Option<real>, now: real) {
    id in w.trains && on.Some? && distance.Some?
    && var t := Seeded(w.trains[id], on);
    !(t.dwellUntil.Some? && now >= t.dwellUntil.value) && !IsPoint(t)
      && ClearedByTail(w.layout, t, on.value, distance.value) != []
  }

  /** The status report comes after the dwell, and there is a leg to leave on. */
  predicate DwellEnds(w: World, id: Id, on: Option<EdgeRef>, now: real) {
    id in w.trains
    && var t := Seeded(w.trains[id], on);
    t.dwellUntil.Some? && now >= t.dwellUntil.value
      && Replanning.LeavesNext(Put(w, id, t.(dwellUntil := None)), id, w.stack).Some?
  }

  /** The inputs whose handling ends with a retry pass. */
  predicate Retries(w: World, i: Input) {
    match i
    case DeviceDisconnected(d) => d in w.devices
    case Forget(d) => d in w.devices
    case GateChanged(d, _, _, _) => d in w.devices
    case ZoneChanged(d, _) => d in w.devices
    case OtherEvent(d) => d in w.devices
    case SwitchChanged(j, _, confirmed) => j in w.layout.markers && confirmed
    case Revoke(id) => id in w.trains
    case Reanchor(id, m) => id in w.trains && w.trains[id].blocked && m in w.layout.markers && Silenced(w, i).None?
    case ConfirmNewTrack(id) =>
      id in w.trains && w.trains[id].blocked && Uncertain(w.layout, w.trains[id].held).Some? && Silenced(w, i).None?
    case TagObserved(d, tag, _) =>
      && tag in w.tags && d in w.devices && w.tags[tag].ToMarker? && ControlsMotion in w.devices[d].caps
      && d in w.trains && w.trains[d].inZone.None? && !Violates(w, w.trains[d], w.tags[tag].target)
    case AssignSchedule(id, route, stops) =>
      && id in w.trains && stops != [] && UnknownStopsOf(w.layout, stops) == []
      && Replanning.Leaves(Put(w, id, Assigned(w.trains[id], route, stops)), id, w.stack).Some?
    case TrainStatus(id, on, distance, now) => DwellEnds(w, id, on, now) || Clears(w, id, on, distance, now)
    case ZoneReleased(d, zone, id) =>
      && zone in w.zoneBounds && w.zoneBounds[zone] == d && id in w.trains && w.trains[id].inZone == Some(zone)
      && (w.trains[id].schedule.Some? && StopOf(w.trains[id].schedule.value) == zone
          ==> Replanning.LeavesNext(Put(w, id, w.trains[id].(inZone := None)), id, w.stack).Some?)
    case _ => false
  }

  /** A pass leaves out one train at most, the one that just gave way or was told to stop. */
  ghost predicate LeavesOneOut(skip: Option<set<Id>>) {
    skip.None? || exists id :: skip.value == {id}
  }

  /** A retry pass has led to the state, and nothing since. */
  ghost predicate EndsPass(w: World) {
    exists v, skip :: LeavesOneOut(skip) && w == Retry(v, skip).w
  }

  lemma RetryEndsPass(w: World, skip: Option<set<Id>>)
    requires LeavesOneOut(skip)
    ensures EndsPass(Retry(w, skip).w)
  {
    hide Retry;
  }

  lemma EndIsUpToDate(w: World)
    requires EndsPass(w)
    ensures UpToDate(w)
  {
    hide Retry, UpToDate;
    var v, skip :| LeavesOneOut(skip) && w == Retry(v, skip).w;
    RetryUpToDate(v, skip);
  }

  // ---------- departures ----------

  lemma DepartEndsPass(w: World, id: Id, edges: seq<EdgeRef>)
    requires id in w.trains && w.trains[id].schedule.Some? && edges != []
    ensures EndsPass(Depart(w, id, edges).w)
  {
    hide EndsPass, Retry, Extend;
    var t := w.trains[id];
    var placed := Put(w, id, t.(transit := Some(Transit(edges, 0)), limit := Some(edges[0].from)));
    RetryEndsPass(Extend(placed, id).w, None);
  }

  lemma LeavingEndsPass(w: World, id: Id, s: Schedule, way: seq<EdgeRef>, o: Out)
    requires id in w.trains && way != [] && Replanning.LeavesOn(w, id, s, way, o)
    ensures EndsPass(o.w)
  {
    hide EndsPass, Depart, Replanning.Pointed;
    DepartEndsPass(Replanning.Pointed(w, id, s), id, way);
  }

  /** A plan that sends the train off ends with a retry pass. */
  lemma PlanEndsPass(w: World, id: Id)
    requires id in w.trains && Replanning.Leaves(w, id, w.stack).Some?
    ensures EndsPass(Settled(PlanAndExecute(w, id, w.stack)).w)
  {
    hide EndsPass, PlanAndExecute, Replanning.Leaves, Replanning.Turned, Replanning.LeavesOn, Replanning.StaysPut;
    Replanning.PlanForeseen(w, id, w.stack);
    LeavingEndsPass(w, id, Replanning.Turned(w.trains[id], w.stack).value, Replanning.Leaves(w, id, w.stack).value,
                    PlanAndExecute(w, id, w.stack).out);
  }

  lemma AdvanceEndsPass(w: World, id: Id)
    requires id in w.trains && Replanning.LeavesNext(w, id, w.stack).Some?
    ensures EndsPass(Settled(AdvanceAndReplan(w, id, w.stack)).w)
  {
    hide EndsPass, AdvanceAndReplan, Replanning.Leaves, Replanning.Turned, Replanning.LeavesOn, Replanning.Pointed;
    Replanning.NextForeseen(w, id, w.stack);
    var moved := Replanning.Pointed(w, id, Next(w.trains[id].schedule.value));
    LeavingEndsPass(w, id, Replanning.Turned(moved.trains[id], w.stack - 1).value,
                    Replanning.LeavesNext(w, id, w.stack).value,
                    AdvanceAndReplan(w, id, w.stack).out);
  }

  lemma AssignEndsPass(w: World, id: Id, route: string, stops: seq<Marker>)
    requires Retries(w, AssignSchedule(id, route, stops))
    ensures EndsPass(Assign(w, id, route, stops).w)
  {
    hide EndsPass, PlanAndExecute, UnknownStopsOf, Replanning.Leaves;
    PlanEndsPass(Put(w, id, Assigned(w.trains[id], route, stops)), id);
  }

  lemma StatusEndsPass(w: World, id: Id, on: Option<EdgeRef>, distance: Option<real>, now: real)
    requires DwellEnds(w, id, on, now) || Clears(w, id, on, distance, now)
    ensures EndsPass(Status(w, id, on, distance, now).w)
  {
    hide EndsPass, AdvanceAndReplan, Retry, ClearedByTail, Replanning.LeavesNext;
    var t := Seeded(w.trains[id], on);
    if DwellEnds(w, id, on, now) {
      PutTwice(w, id, t, t.(dwellUntil := None));
      AdvanceEndsPass(Put(w, id, t.(dwellUntil := None)), id);
    } else {
      var gone := ClearedByTail(w.layout, t, on.value, distance.value);
      RetryEndsPass(Put(Put(w, id, t), id, t.(held := Release(t.held, HeldSet(gone)))), None);
    }
  }

  lemma PutTwice(w: World, id: Id, t: Train, t': Train)
    requires id in w.trains
    ensures Put(Put(w, id, t), id, t') == Put(w, id, t')
  {
    assert w.trains[id := t][id := t'] == w.trains[id := t'];
  }

  lemma ReleaseEndsPass(w: World, d: Id, zone: Marker, id: Id)
    requires Retries(w, ZoneReleased(d, zone, id))
    ensures EndsPass(ReleaseFromZone(w, d, zone, id).w)
  {
    hide EndsPass, AdvanceAndReplan, Retry, Replanning.LeavesNext;
    var w1 := Put(w, id, w.trains[id].(inZone := None));
    if w.trains[id].schedule.Some? && StopOf(w.trains[id].schedule.value) == zone {
      AdvanceEndsPass(w1, id);
    } else {
      RetryEndsPass(w1, None);
    }
  }

  lemma ResumeEndsPass(w: World, id: Id)
    requires id in w.trains && !Replanning.Fails(w.trains[id], w.stack)
    ensures Resume(w, id).Returned? && EndsPass(Resume(w, id).out.w)
  {
    hide EndsPass, PlanAndExecute, Retry, Replanning.Fails;
    Replanning.ResumeFailsIff(w, id);
    RetryEndsPass(w, None);
    if PlanAndExecute(w, id, w.stack).Returned? {
      RetryEndsPass(PlanAndExecute(w, id, w.stack).out.w, None);
    }
  }

  lemma MarkerEndsPass(w: World, id: Id, m: Marker, now: real)
    requires id in w.trains && w.trains[id].inZone.None? && !Violates(w, w.trains[id], m)
    ensures EndsPass(AtMarker(w, id, m, now).w)
  {
    hide EndsPass, Retry, Extend, Arrive, Discover, Violates;
    forall v ensures EndsPass(Retry(v, None).w) {
      RetryEndsPass(v, None);
    }
  }

  lemma RecoveryEndsPass(w: World, i: Input)
    requires (i.Reanchor? || i.ConfirmNewTrack?) && Retries(w, i)
    ensures EndsPass(Step(w, i).w)
  {
    hide EndsPass, Resume, AddInferredEdge;
    if i.Reanchor? {
      ResumeEndsPass(Put(w, i.train, Recovered(w.trains[i.train], i.marker)), i.train);
    } else {
      ResumeEndsPass(LearnedTrack(w, i.train, Uncertain(w.layout, w.trains[i.train].held).value), i.train);
    }
  }

  lemma RetriesEndsPass(w: World, i: Input)
    requires Retries(w, i)
    ensures EndsPass(Step(w, i).w)
  {
    hide EndsPass, Retry, AtMarker, Assign, Status, ReleaseFromZone, ReanchorAt, ConfirmTrack, Clears, DwellEnds,
         Violates, Uncertain, UnknownStopsOf, Silenced, Replanning.Leaves, Replanning.LeavesNext;
    forall v, skip | LeavesOneOut(skip) ensures EndsPass(Retry(v, skip).w) {
      RetryEndsPass(v, skip);
    }
    match i
    case Reanchor(_, _) => RecoveryEndsPass(w, i);
    case ConfirmNewTrack(_) => RecoveryEndsPass(w, i);
    case TagObserved(d, tag, now) => MarkerEndsPass(w, d, w.tags[tag].target, now);
    case AssignSchedule(id, route, stops) => AssignEndsPass(w, id, route, stops);
    case TrainStatus(id, on, distance, now) => StatusEndsPass(w, id, on, distance, now);
    case ZoneReleased(d, zone, id) => ReleaseEndsPass(w, d, zone, id);
    case _ =>
  }

  lemma RetriesUpToDate(w: World, i: Input)
    requires Retries(w, i)
    ensures UpToDate(Step(w, i).w)
  {
    hide Step, Retries, UpToDate, EndsPass;
    RetriesEndsPass(w, i);
    EndIsUpToDate(Step(w, i).w);
  }

  /** After every input of every run that ends with a retry pass, the published deadlock is exact. */
  lemma DeadlockIsExact(l: Layout, stack: nat, inputs: seq<Input>, i: Input)
    requires Retries(Run(Fresh(l, stack), inputs).w, i)
    ensures var w := Step(Run(Fresh(l, stack), inputs).w, i).w; Exact(w.deadlock, w.trains)
  {
    var w := Run(Fresh(l, stack), inputs).w;
    assert Rostered(Fresh(l, stack));
    RunRosters(Fresh(l, stack), inputs);
    StepRosters(w, i);
    RetriesUpToDate(w, i);
    hide Step, Run, Rostered, UpToDate, Retries;
    UpToDateIsExact(Step(w, i).w);
  }
}
