/** Two trains meet on a loaded layout: runs in which giving way uncovers the body of the train that gives way. */
module Meeting {
  import opened Rail
  import opened LayoutModel
  import opened World
  import opened Ranking
  import opened Clearance
  import opened Standoff
  import opened Handlers
  import opened Deadlock
  import opened Yielding
  import opened Chains
  import opened Reversing
  import opened Retreats
  import opened Occupancy
  import opened MeetingGround
  import opened MeetingRun
  import Planner

  // ---------- face to face ----------

  /** Both trains wait, each for the other, when the later one turns to its last stop. */
  function FaceToFace(p: Plot, l: Layout, stack: nat): World {
    Scene(p, l, stack, PeerMidway(p), LaterTurned(p), 3)
  }

  lemma TurnsToLastStop(p: Plot, l: Layout, stack: nat, until: real, now: real)
    requires IsPlot(p) && OnGround(l, p) && stack >= 1 && now >= until
    ensures var o := Status(Scene(p, l, stack, PeerMidway(p), LaterAtC(p, until), 3), "later", None, None, now);
            var moved := Scene(p, l, stack, PeerMidway(p), LaterTurned(p).(transit := Some(Transit([AB, BC], 2))), 3);
            && o.w == Depart(moved, "later", [CE]).w
            && forall x <- Depart(moved, "later", [CE]).fx :: x in o.fx
  {
    hide IsPlot, OnGround, Planner.PlanTransit, Depart, Ahead;
    var a, b := PeerMidway(p), LaterAtC(p, until);
    var w := Scene(p, l, stack, a, b, 3);
    var t := b.(dwellUntil := None);
    var moved := Scene(p, l, stack, a, LaterTurned(p).(transit := Some(Transit([AB, BC], 2))), 3);
    ScenePuts(p, l, stack, a, b, 3, b);
    ScenePuts(p, l, stack, a, b, 3, t);
    ScenePuts(p, l, stack, a, t, 3, moved.trains["later"]);
    GroundRoute(l, p, [CE]);
    assert Route(moved, "later", "E") == Depart(moved, "later", [CE]);
    assert PlanAndExecute(moved, "later", stack - 1) == Returned(Route(moved, "later", "E"));
    assert AdvanceAndReplan(Scene(p, l, stack, a, t, 3), "later", stack)
        == Prefixed([Show(ScheduleOf("later", LaterTurned(p).schedule))], PlanAndExecute(moved, "later", stack - 1));
  }

  lemma BothWait(p: Plot)
    requires IsPlot(p)
    ensures Wanted(PeerMidway(p)) == Some(p.y) && Wanted(LaterTurned(p)) == Some(CE)
    ensures TouchesAny(PeerMidway(p).held, CE) && TouchesAny(LaterTurned(p).held, p.y)
  {
    hide IsPlot, HoldsEdge, TouchesAny, Ahead;
    InTheWayOf(p);
  }

  /** Turned, the later train is refused C-E, and the pass resolves what it finds. */
  lemma DepartsIntoStandoff(p: Plot, l: Layout, stack: nat)
    requires IsPlot(p)
    ensures var moved := Scene(p, l, stack, PeerMidway(p), LaterTurned(p).(transit := Some(Transit([AB, BC], 2))), 3);
            var o := Resolve(FaceToFace(p, l, stack), None);
            && Depart(moved, "later", [CE]).w == o.w
            && forall x <- o.fx :: x in Depart(moved, "later", [CE]).fx
  {
    hide IsPlot, HoldsEdge, TouchesAny, Ahead, Conflicts, Extend, Resolve;
    var a, b := PeerMidway(p), LaterTurned(p);
    var w := FaceToFace(p, l, stack);
    InTheWayOf(p);
    SceneGates(p, l, stack, a, b, 3, p.y);
    SceneGates(p, l, stack, a, b, 3, CE);
    ExtendIdle(w, "peer", 1);
    ExtendIdle(w, "later", 0);
    EachIdle(w, Ordered(w), {});
    ScenePuts(p, l, stack, a, b.(transit := Some(Transit([AB, BC], 2))), 3, b);
  }

  lemma BothOnly(ts: Trains, cycle: seq<Id>)
    requires ts.Keys == {"peer", "later"} && IsStandoff(ts, cycle)
    ensures forall id :: id in cycle <==> id == "peer" || id == "later"
  {
    hide Wanted, TouchesAny;
    forall id | id in cycle ensures id in ts {
      MembersWait(ts, cycle, id);
    }
    assert cycle[0] in ts && cycle[1] in ts && cycle[0] != cycle[1];
  }

  /** The two wait for each other, so a standoff of the two is what the pass detects. */
  lemma StandoffDetected(p: Plot, l: Layout, stack: nat) returns (cycle: seq<Id>)
    requires IsPlot(p)
    ensures var w := FaceToFace(p, l, stack);
            && Detect(w.order, w.trains) == Some(cycle) && IsStandoff(w.trains, cycle)
            && (forall id :: id in cycle <==> id == "peer" || id == "later")
  {
    hide IsPlot, Wanted, TouchesAny, Detect, PeerMidway, LaterTurned;
    var w := FaceToFace(p, l, stack);
    var ring := ["later", "peer"];
    BothWait(p);
    assert WaitsOn(w.trains, "later", "peer") && WaitsOn(w.trains, "peer", "later");
    assert Ring(w.trains, ring) by {
      assert ring[0] == "later" && ring[1] == "peer";
    }
    DetectExact(w.order, w.trains);
    cycle := Detect(w.order, w.trains).value;
    BothOnly(w.trains, cycle);
  }

  /** The later train is the lower-ranked one, and y is what it denies. */
  lemma LaterDenies(p: Plot, l: Layout, stack: nat, cycle: seq<Id>)
    requires IsPlot(p) && forall id :: id in cycle <==> id == "peer" || id == "later"
    ensures var ts := FaceToFace(p, l, stack).trains;
            && LowestOf(ts, cycle, None) == Some("later") && Before(ts, "peer", "later") && !Before(ts, "later", "peer")
            && PeerWanted(ts, cycle, "later") == Some(p.y)
  {
    hide IsPlot, LowestOf, PeerWanted, Wanted, TouchesAny;
    var w := FaceToFace(p, l, stack);
    BothWait(p);
    LowestFound(w.trains, cycle);
    assert Before(w.trains, "peer", "later");
    RankTotal(w.trains, "later", "peer");
  }

  lemma SortsTwo(ts: Trains, a: Id, b: Id)
    requires a in ts && b in ts && Before(ts, a, b) && a != b
    ensures SortByRank(ts, [a, b]) == [a, b]
  {
    RankTotal(ts, a, b);
    hide Before;
    assert [a, b][1..] == [b] && [b][1..] == [];
    assert SortByRank(ts, [b]) == Insert(ts, b, []) == [b];
    assert SortByRank(ts, [a, b]) == Insert(ts, a, [b]) == [a] + [b];
  }

  lemma SceneOrder(p: Plot, l: Layout, stack: nat, a: Train, b: Train, clock: nat)
    requires a.rank == 0 && b.rank == 1 && a.priority == b.priority
    ensures Ordered(Scene(p, l, stack, a, b, clock)) == ["peer", "later"]
  {
    hide SortByRank;
    var w := Scene(p, l, stack, a, b, clock);
    var ids := ["peer", "later"];
    assert ids[1..] == ["later"] && ["later"][1..] == [];
    assert Roster(["later"], w.trains) == ["later"] + Roster([], w.trains) == ["later"];
    assert Roster(ids, w.trains) == ["peer"] + ["later"] == ids;
    SortsTwo(w.trains, "peer", "later");
  }

  lemma OnlyFirstTried(w: World, a: Id, b: Id)
    requires a in w.trains && b in w.trains && a != b
    ensures RetryEach(w, [a, b], {b}) == Extend(w, a)
  {
    hide Extend;
    var first := Extend(w, a);
    assert [a, b][1..] == [b] && [b][1..] == [];
    assert RetryEach(first.w, [b], {b}) == Out(first.w, []);
    assert first.fx + [] == first.fx;
  }

  /** The peer once it is granted its second edge. */
  function PeerGone(p: Plot): Train {
    PeerMidway(p).(limit := Some(p.y.to), held := PeerMidway(p).held + [Held(p.y, false, 3)])
  }

  lemma PeerExtends(p: Plot, l: Layout, stack: nat, b: Train)
    requires IsPlot(p) && OnGround(l, p) && !TouchesAny(b.held, p.y)
    ensures var o := Extend(Scene(p, l, stack, PeerMidway(p), b, 3), "peer");
            o.w == Scene(p, l, stack, PeerGone(p), b, 4) && Send("peer", GrantClearance(p.y.to, [p.y])) in o.fx
  {
    hide IsPlot, OnGround, TouchesAny, HoldsEdge, Track, Walk, EdgeMs;
    InTheWayOf(p);
    GroundHas(l, p);
    PeerGranted(p, l, stack, PeerMidway(p), b, 3, [p.x, p.y], 1, 0, 0.0);
    WalkIdle(Scene(p, l, stack, PeerGone(p), b, 4), "peer", [p.x, p.y], 2, 2, 1, 0.0 + EdgeMs(l, "peer", p.y));
  }

  lemma GoneWantsNothing(p: Plot)
    ensures Wanted(PeerGone(p)).None?
  {
    assert PeerGone(p).held[1] == Held(p.y, false, 3);
  }

  /** Once the later train is out of its way, the follow-on pass grants the peer y and finds no standoff. */
  lemma PeerGetsOn(p: Plot, l: Layout, stack: nat, b: Train)
    requires IsPlot(p) && OnGround(l, p) && !TouchesAny(b.held, p.y) && b.rank == 1 && b.priority == 0.0
    ensures var o := Retry(Scene(p, l, stack, PeerMidway(p), b, 3), Some({"later"}));
            o.w == Scene(p, l, stack, PeerGone(p), b, 4) && Send("peer", GrantClearance(p.y.to, [p.y])) in o.fx
  {
    hide IsPlot, OnGround, TouchesAny, Ordered, Detect, Wanted, Extend, PeerMidway, PeerGone, RetryEach;
    var w, w' := Scene(p, l, stack, PeerMidway(p), b, 3), Scene(p, l, stack, PeerGone(p), b, 4);
    MidwayRank(p);
    SceneOrder(p, l, stack, PeerMidway(p), b, 3);
    OnlyFirstTried(w, "peer", "later");
    PeerExtends(p, l, stack, b);
    GoneWantsNothing(p);
    OneWaits(p, l, stack, PeerGone(p), b, 4);
    assert Resolve(w', Some({"later"})) == Out(w', []);
  }

  lemma MidwayRank(p: Plot)
    ensures PeerMidway(p).rank == 0 && PeerMidway(p).priority == 0.0
  {
  }

  // ---------- how the standoff is resolved ----------

  /** What the later train gives up, it gives up before the follow-on pass grants the peer y. */
  lemma GaveWayTo(p: Plot, l: Layout, stack: nat, b: Train, fx: seq<Effect>)
    requires IsPlot(p) && OnGround(l, p) && !TouchesAny(b.held, p.y) && b.rank == 1 && b.priority == 0.0
    ensures var o := Regrant("later", Out(Scene(p, l, stack, PeerMidway(p), b, 3), fx));
            && o.w == Scene(p, l, stack, PeerGone(p), b, 4) && Send("peer", GrantClearance(p.y.to, [p.y])) in o.fx
            && forall x <- fx :: x in o.fx
  {
    hide IsPlot, OnGround, TouchesAny, Retry, PeerMidway, PeerGone;
    PeerGetsOn(p, l, stack, b);
  }

  /** From the loaded document through the later train's last status report. */
  lemma StoryResolves(p: Plot, stack: nat, b: real, c: real, mid: real, now: real) returns (l: Layout)
    requires IsPlot(p) && stack >= 1 && now >= c + STATION_DWELL_MS
    ensures OnGround(l, p) && Load(Ground(p), 3).Some?
    ensures var w := Run(Fresh(Load(Ground(p), 3).value, stack), Story(p, b, c, mid)).w;
            var o, r := Step(w, TrainStatus("later", None, None, now)), Resolve(FaceToFace(p, l, stack), None);
            && w == Scene(p, l, stack, PeerMidway(p), LaterAtC(p, c + STATION_DWELL_MS), 3)
            && o.w == r.w && forall x <- r.fx :: x in o.fx
  {
    hide IsPlot, OnGround, Run, Step, Resolve, Depart, Status, Load, Ground, Story, Scene, PeerMidway, LaterAtC,
         LaterTurned;
    GroundLoads(p);
    l := StoryRuns(p, Load(Ground(p), 3).value, stack, b, c, mid);
    var w := Scene(p, l, stack, PeerMidway(p), LaterAtC(p, c + STATION_DWELL_MS), 3);
    DispatchesTrain(w, "later", "", [], None, None, now);
    TurnsToLastStop(p, l, stack, c + STATION_DWELL_MS, now);
    DepartsIntoStandoff(p, l, stack);
  }

  // ---------- the body ----------

  /** The leg the later train has come along. */
  function ComeAlong(): Leg { Leg([AB, BC], [100.0, 100.0]) }

  lemma LegBegins()
    ensures var leg := ComeAlong();
            IsLeg(leg) && Begin(leg.lengths, 0) == 0.0 && Begin(leg.lengths, 1) == 100.0
              && Begin(leg.lengths, 2) == 200.0
  {
    var leg := ComeAlong();
    assert Begin(leg.lengths, 1) == Begin(leg.lengths, 0) + leg.lengths[0];
    assert Begin(leg.lengths, 2) == Begin(leg.lengths, 1) + leg.lengths[1];
  }

  /** At C the body is in held edges, and on B-C in any case. */
  lemma BodyAtC(p: Plot, until: real)
    requires IsPlot(p)
    ensures BodyIsHeld(ComeAlong(), p.length, Ride(LaterAtC(p, until), 200.0))
    ensures Overlaps(ComeAlong(), p.length, 200.0, 1)
            && (p.length > 100.0 ==> Overlaps(ComeAlong(), p.length, 200.0, 0))
  {
    hide HoldsEdge;
    LegBegins();
    InTheWayOf(p);
    var edges := ComeAlong().edges;
    assert edges[0] == AB && edges[1] == BC;
  }

  // ---------- a yield that uncovers the body ----------

  /**
   * The peer comes from E over D and wants to go on to A, on the way there touching the edge the long train's tail is
   * on.
   */
  function Round(): Plot { Plot(EdgeRef("E", "D"), EdgeRef("D", "A"), 150.0) }

  function Yielded(): Train { LaterTurned(Round()).(held := [Held(BC, false, 1)]) }

  lemma YieldedHolds()
    ensures Release(Ahead(), {AB}) == [Held(BC, false, 1)] && Yieldable(LaterTurned(Round()), EdgeRef("D", "A")) == {AB}
    ensures !TouchesAny(Yielded().held, EdgeRef("D", "A"))
  {
    var h := Ahead();
    assert h[0] == Held(AB, false, 0) && h[1] == Held(BC, false, 1) && h[1..] == [Held(BC, false, 1)];
    assert [Held(BC, false, 1)][1..] == [];
    assert Release(h[1..], {AB}) == [Held(BC, false, 1)] + Release([], {AB});
    assert [Held(BC, false, 1)][0].edge == BC;
    assert h[0] in h;
  }

  lemma LaterYields(l: Layout, stack: nat, cycle: seq<Id>)
    requires forall id :: id in cycle <==> id == "peer" || id == "later"
    ensures var w := FaceToFace(Round(), l, stack);
            YieldStep(w, cycle)
            == Some(("later", Out(Scene(Round(), l, stack, PeerMidway(Round()), Yielded(), 3),
                                  [Send("later", RevokeClearance(DeadlockYield)), ClearanceOf("later", Yielded())])))
  {
    hide LowestOf, PeerWanted, Wanted, TouchesAny, Yieldable, Release, Ahead, Before, PeerMidway;
    var p := Round();
    LaterDenies(p, l, stack, cycle);
    YieldedHolds();
    ScenePuts(p, l, stack, PeerMidway(p), LaterTurned(p), 3, Yielded());
  }

  /**
   * On a loaded layout two trains meet, and the pass after a status report makes the later one yield: of the two
   * edges its body is on it keeps one, and the other is touched by what the peer is granted in the same call.
   */
  lemma YieldUncoversBody(stack: nat, b: real, c: real, mid: real, now: real)
    requires stack >= 1 && now >= c + STATION_DWELL_MS
    ensures Load(Ground(Round()), 3).Some?
    ensures var w := Run(Fresh(Load(Ground(Round()), 3).value, stack), Story(Round(), b, c, mid)).w;
            var o := Step(w, TrainStatus("later", None, None, now));
            && "later" in w.trains && BodyIsHeld(ComeAlong(), 150.0, Ride(w.trains["later"], 200.0))
            && Send("later", RevokeClearance(DeadlockYield)) in o.fx
            && Send("peer", GrantClearance("A", [EdgeRef("D", "A")])) in o.fx
            && "later" in o.w.trains && o.w.trains["later"].held == [Held(BC, false, 1)]
            && Overlaps(ComeAlong(), 150.0, 200.0, 0)
            && !BodyIsHeld(ComeAlong(), 150.0, Ride(o.w.trains["later"], 200.0))
  {
    hide Run, Step, Load, Ground, Story, OnGround, Resolve, Regrant, Detect, YieldStep, TouchesAny, Overlaps,
         PeerMidway, PeerGone;
    var p := Round();
    var l := StoryResolves(p, stack, b, c, mid, now);
    var cycle := StandoffDetected(p, l, stack);
    LaterYields(l, stack, cycle);
    YieldedHolds();
    var gave := YieldStep(FaceToFace(p, l, stack), cycle).value.1;
    ResolvesByYield(FaceToFace(p, l, stack), cycle);
    GaveWayTo(p, l, stack, Yielded(), gave.fx);
    assert gave.fx[0] == Send("later", RevokeClearance(DeadlockYield));
    BodyAtC(p, c + STATION_DWELL_MS);
    assert ComeAlong().edges[0] == AB && !HoldsEdge([Held(BC, false, 1)], AB);
  }

  lemma ResolvesByYield(w: World, cycle: seq<Id>)
    requires Detect(w.order, w.trains) == Some(cycle) && YieldStep(w, cycle).Some?
    ensures Resolve(w, None) == Regrant(YieldStep(w, cycle).value.0, YieldStep(w, cycle).value.1)
  {
    hide Detect, YieldStep, Regrant;
  }

  // ---------- a reverse that uncovers the body ----------

  /** The peer comes from D over E and wants to go on to C, where the other train stands. */
  function Through(): Plot { Plot(EdgeRef("D", "E"), EdgeRef("E", "C"), 50.0) }

  function BackToB(): Plan { Plan("B", [BC]) }

  function BackedOff(): Train {
    LaterTurned(Through()).(held := [Held(AB, false, 0)], last := Some("B"), limit := Some("B"))
  }

  lemma BackedOffHolds()
    ensures Left(Ahead(), [BC]) == [Held(AB, false, 0)] && FindInto(Ahead(), "C", {}) == Some(BC)
    ensures TouchesAny(Ahead(), EdgeRef("E", "C")) && !TouchesAny([Held(AB, false, 0)], EdgeRef("E", "C"))
    ensures !NothingUnderfootInTheWay(LaterTurned(Through()), EdgeRef("E", "C"))
  {
    var h := Ahead();
    assert h[0] == Held(AB, false, 0) && h[1] == Held(BC, false, 1) && h[1..] == [Held(BC, false, 1)];
    assert [Held(BC, false, 1)][1..] == [] && [Held(BC, false, 1)][0].edge == BC;
    assert HeldSet([BC]) == {BC};
    assert Release(h[1..], {BC}) == [] + Release([], {BC});
    assert FindInto(h, "C", {}) == FindInto(h[1..], "C", {});
    assert h[1] in h;
  }

  lemma RoomAtB(l: Layout, p: Plot, t: Train)
    requires IsPlot(p) && OnGround(l, p) && t.length == Some(50.0)
    ensures BodyHeld(l, t, "B", [Held(AB, false, 0)])
  {
    hide OnGround, IsPlot;
    GroundHas(l, p);
    GroundFinds(l, p, AB);
    var h := [Held(AB, false, 0)];
    assert FindInto(h, "B", {}) == Some(AB);
    assert BodyCovered(l, 50.0, h, "A", 100.0, {"B"} + {"A"}, 0);
  }

  lemma RetreatsToB(l: Layout, stack: nat)
    requires OnGround(l, Through())
    ensures IsRetreat(FaceToFace(Through(), l, stack), "later", EdgeRef("E", "C"), BackToB())
  {
    hide OnGround, FindInto, TouchesAny, BodyHeld, Left, Ahead;
    var w := FaceToFace(Through(), l, stack);
    BackedOffHolds();
    RoomAtB(l, Through(), w.trains["later"]);
    assert w.trains["peer"].held == [Held(EdgeRef("D", "E"), false, 2)];
    assert !Taken(w.trains, "later", "B");
    assert At("C", [BC], 0) == "C";
  }

  lemma LaterReverses(l: Layout, stack: nat, cycle: seq<Id>)
    requires OnGround(l, Through()) && Distinct(cycle) && forall id :: id in cycle <==> id == "peer" || id == "later"
    ensures var w := FaceToFace(Through(), l, stack);
            YieldStep(w, cycle).None? && ReverseStep(w, cycle) == Some(("later", Enact(w, "later", BackToB())))
  {
    hide OnGround, IsRetreat, Enact, LowestOf, PeerWanted, Before, NothingUnderfootInTheWay, ReverseFirst, Candidates,
         LaterTurned,
         PeerMidway, YieldStep;
    var p := Through();
    var w := FaceToFace(p, l, stack);
    LaterDenies(p, l, stack, cycle);
    BackedOffHolds();
    YieldsIff(w, cycle);
    RetreatsToB(l, stack);
    LowestRetreats(w, cycle);
    assert CanRetreat(w, cycle, "later", BackToB());
    var found := ReverseFirst(w, cycle, Candidates(w.trains, cycle)).value;
    ReverseTargetIff(w, "later", p.y, BackToB());
    ReverseTargetIff(w, "later", p.y, found.1);
  }

  lemma ResolvesByReverse(w: World, cycle: seq<Id>)
    requires Detect(w.order, w.trains) == Some(cycle) && YieldStep(w, cycle).None? && ReverseStep(w, cycle).Some?
    ensures Resolve(w, None) == Regrant(ReverseStep(w, cycle).value.0, ReverseStep(w, cycle).value.1)
  {
    hide Detect, YieldStep, ReverseStep, Regrant;
  }

  lemma EnactedAtB(l: Layout, stack: nat)
    ensures var p := Through();
            var gave := Enact(FaceToFace(p, l, stack), "later", BackToB());
            gave.w == Scene(p, l, stack, PeerMidway(p), BackedOff(), 3)
              && Send("later", GrantReverse("B", [BC])) in gave.fx
  {
    hide PeerMidway, Ahead;
    var p := Through();
    BackedOffHolds();
    ScenePuts(p, l, stack, PeerMidway(p), LaterTurned(p), 3, BackedOff());
    assert Enact(FaceToFace(p, l, stack), "later", BackToB()).fx[0] == Send("later", GrantReverse("B", [BC]));
  }

  /**
   * On another loaded layout the later train is sent back over the edge its whole body is on, and before it has moved
   * the follow-on grants of the same call give the peer an edge that touches it.
   */
  lemma ReverseUncoversBody(stack: nat, b: real, c: real, mid: real, now: real)
    requires stack >= 1 && now >= c + STATION_DWELL_MS
    ensures Load(Ground(Through()), 3).Some?
    ensures var w := Run(Fresh(Load(Ground(Through()), 3).value, stack), Story(Through(), b, c, mid)).w;
            var o := Step(w, TrainStatus("later", None, None, now));
            && "later" in w.trains && BodyIsHeld(ComeAlong(), 50.0, Ride(w.trains["later"], 200.0))
            && Send("later", GrantReverse("B", [BC])) in o.fx
            && Send("peer", GrantClearance("C", [EdgeRef("E", "C")])) in o.fx
            && "later" in o.w.trains && o.w.trains["later"].held == [Held(AB, false, 0)]
            && Overlaps(ComeAlong(), 50.0, 200.0, 1) && !BodyIsHeld(ComeAlong(), 50.0, Ride(o.w.trains["later"], 200.0))
  {
    hide Run, Step, Load, Ground, Story, OnGround, Resolve, Regrant, Detect, YieldStep, ReverseStep, TouchesAny,
         Overlaps, PeerMidway,
         PeerGone, Enact;
    var p := Through();
    var l := StoryResolves(p, stack, b, c, mid, now);
    var cycle := StandoffDetected(p, l, stack);
    LaterReverses(l, stack, cycle);
    ResolvesByReverse(FaceToFace(p, l, stack), cycle);
    EnactedAtB(l, stack);
    BackedOffHolds();
    var gave := Enact(FaceToFace(p, l, stack), "later", BackToB());
    GaveWayTo(p, l, stack, BackedOff(), gave.fx);
    BodyAtC(p, c + STATION_DWELL_MS);
    assert ComeAlong().edges[1] == BC && !HoldsEdge([Held(AB, false, 0)], BC);
  }
}
