/** The run that brings two trains face to face, from a fresh scheduler on the loaded layout. */
module MeetingRun {
  import opened Rail
  import opened LayoutModel
  import opened World
  import opened Clearance
  import opened Standoff
  import opened Handlers
  import opened MeetingGround
  import Planner

  // ---------- the scene ----------

  function Crew(): map<Id, Device> {
    map["peer" := Device([ControlsMotion], [], []), "later" := Device([ControlsMotion], [], []),
        "tags" := Device([AssignsTags], [], [])]
  }

  /** A tag under the marker the peer's first edge leads to, and under B and C. */
  function Tags(p: Plot): map<string, Binding> {
    map["B" := ToMarker("B"), "C" := ToMarker("C"), p.x.to := ToMarker(p.x.to)]
  }

  /** The two trains, peer a and later train b, with everything else as the set-up leaves it. */
  function Scene(p: Plot, l: Layout, stack: nat, a: Train, b: Train, clock: nat): World {
    World(map["peer" := a, "later" := b], ["peer", "later"], Crew(), l, map[], map[], map[], Tags(p), [], 2, clock,
          stack)
  }

  lemma ScenePuts(p: Plot, l: Layout, stack: nat, a: Train, b: Train, clock: nat, t: Train)
    ensures Put(Scene(p, l, stack, a, b, clock), "peer", t) == Scene(p, l, stack, t, b, clock)
    ensures Put(Scene(p, l, stack, a, b, clock), "later", t) == Scene(p, l, stack, a, t, clock)
  {
    assert map["peer" := a, "later" := b]["peer" := t] == map["peer" := t, "later" := b];
    assert map["peer" := a, "later" := b]["later" := t] == map["peer" := a, "later" := t];
  }

  lemma SceneGates(p: Plot, l: Layout, stack: nat, a: Train, b: Train, clock: nat, e: EdgeRef)
    ensures var w := Scene(p, l, stack, a, b, clock);
            && (Conflicts(w, "peer", e) <==> TouchesAny(b.held, e))
            && (Conflicts(w, "later", e) <==> TouchesAny(a.held, e))
            && !Denied(w.devices, e.to)
  {
    hide TouchesAny;
    var w := Scene(p, l, stack, a, b, clock);
    assert "peer" in w.trains && "later" in w.trains;
  }

  // ---------- extending ----------

  /** A train with its route held up to an edge another train is in the way of is granted nothing. */
  lemma {:induction false} WalkIdle(w: World, id: Id, edges: seq<EdgeRef>, i: nat, n: nat, granted: nat, ms: real)
    requires id in w.trains && i <= n <= |edges|
    requires forall k :: i <= k < n ==> HoldsEdge(w.trains[id].held, edges[k])
    requires n < |edges| ==> !HoldsEdge(w.trains[id].held, edges[n]) && Conflicts(w, id, edges[n])
    ensures Walk(w, id, edges, i, granted, ms) == Out(w, [])
    decreases n - i
  {
    hide HoldsEdge, Conflicts, SwitchMismatch, Denied, Grant, Actuate, EdgeMs;
    if i < n {
      WalkIdle(w, id, edges, i + 1, n, granted + 1, ms + EdgeMs(w.layout, id, edges[i]));
    }
  }

  /** One grant of the walk. */
  lemma WalkGrants(w: World, id: Id, edges: seq<EdgeRef>, i: nat, granted: nat, ms: real)
    requires id in w.trains && i < |edges| && granted < HORIZON_EDGES && !HoldsEdge(w.trains[id].held, edges[i])
    requires !Conflicts(w, id, edges[i]) && !SwitchMismatch(w.layout, edges[i]) && !Denied(w.devices, edges[i].to)
    ensures var g := Grant(w, id, edges[i]);
            Walk(w, id, edges, i, granted, ms)
            == Then(g, Walk(g.w, id, edges, i + 1, granted + 1, ms + EdgeMs(w.layout, id, edges[i])))
  {
    hide HoldsEdge, Conflicts, SwitchMismatch, Denied, EdgeMs;
    assert Grant(w, id, edges[i]).fx[0] == Send(id, GrantClearance(edges[i].to, [edges[i]]));
    assert HasGrant(Grant(w, id, edges[i]).fx);
  }

  lemma SceneGrants(p: Plot, l: Layout, stack: nat, a: Train, b: Train, clock: nat, e: EdgeRef)
    ensures var a', b' := a.(limit := Some(e.to), held := a.held + [Held(e, false, clock)]),
                          b.(limit := Some(e.to), held := b.held + [Held(e, false, clock)]);
            && Grant(Scene(p, l, stack, a, b, clock), "peer", e).w == Scene(p, l, stack, a', b, clock + 1)
            && Grant(Scene(p, l, stack, a, b, clock), "later", e).w == Scene(p, l, stack, a, b', clock + 1)
            && Send("peer", GrantClearance(e.to, [e])) in Grant(Scene(p, l, stack, a, b, clock), "peer", e).fx
  {
    var w := Scene(p, l, stack, a, b, clock);
    ScenePuts(p, l, stack, a, b, clock, a.(limit := Some(e.to), held := a.held + [Held(e, false, clock)]));
    ScenePuts(p, l, stack, a, b, clock, b.(limit := Some(e.to), held := b.held + [Held(e, false, clock)]));
    assert Grant(w, "peer", e).fx[0] == Send("peer", GrantClearance(e.to, [e]));
  }

  // ---------- the retry pass ----------

  lemma {:induction false} EachIdle(w: World, ids: seq<Id>, skip: set<Id>)
    requires forall i <- ids :: i in w.trains && Extend(w, i) == Out(w, [])
    ensures RetryEach(w, ids, skip) == Out(w, [])
    decreases |ids|
  {
    hide Extend;
    if ids == [] {
    } else {
      EachIdle(w, ids[1..], skip);
    }
  }

  /** Fewer than two trains wait, so nothing is detected. */
  lemma OneWaits(p: Plot, l: Layout, stack: nat, a: Train, b: Train, clock: nat)
    requires Wanted(a).None? || Wanted(b).None?
    ensures var w := Scene(p, l, stack, a, b, clock); Detect(w.order, w.trains) == None
  {
    hide Wanted, WaitsFor;
    var w := Scene(p, l, stack, a, b, clock);
    assert w.order[1..] == ["later"] && ["later"][1..] == [];
    assert Waiting(["later"], w.trains) == (if Wanted(b).Some? then ["later"] else []) + Waiting([], w.trains);
    assert Waiting(w.order, w.trains) == (if Wanted(a).Some? then ["peer"] else []) + Waiting(["later"], w.trains);
  }

  /** A pass in which nobody gets on and at most one waits does nothing. */
  lemma SceneIdles(p: Plot, l: Layout, stack: nat, a: Train, b: Train, clock: nat)
    requires var w := Scene(p, l, stack, a, b, clock);
             Extend(w, "peer") == Out(w, []) && Extend(w, "later") == Out(w, [])
    requires Wanted(a).None? || Wanted(b).None?
    ensures var w := Scene(p, l, stack, a, b, clock); Retry(w, None) == Out(w, [])
  {
    hide Extend, Wanted, Detect, Ordered;
    var w := Scene(p, l, stack, a, b, clock);
    OneWaits(p, l, stack, a, b, clock);
    EachIdle(w, Ordered(w), {});
  }

  // ---------- the trains on their way ----------

  function Car(rank: nat, length: Length): Train { NewTrain(rank, 0.0).(length := Some(length)) }

  function Ahead(): seq<Held> { [Held(AB, false, 0), Held(BC, false, 1)] }

  function LaterAtA(p: Plot): Train {
    Car(1, p.length).(last := Some("A"), schedule := Some(ScheduleRecord("later", ["A", "C", "E"], 1)),
                      transit := Some(Transit([AB, BC], 0)), limit := Some("C"), held := Ahead())
  }

  function LaterAtB(p: Plot): Train {
    LaterAtA(p).(last := Some("B"), transit := Some(Transit([AB, BC], 1)), current := Some(BC))
  }

  function LaterAtC(p: Plot, until: real): Train {
    LaterAtA(p).(last := Some("C"), transit := Some(Transit([AB, BC], 2)), current := None, dwellUntil := Some(until))
  }

  /** Turned to its last stop, with C-E to cross and nothing of it granted. */
  function LaterTurned(p: Plot): Train {
    LaterAtA(p).(last := Some("C"), schedule := Some(ScheduleRecord("later", ["A", "C", "E"], 2)),
                 transit := Some(Transit([CE], 0)))
  }

  function PeerOut(p: Plot): Train {
    Car(0, 50.0).(last := Some(p.x.from), schedule := Some(ScheduleRecord("peer", [p.x.from, p.y.to], 1)),
                  transit := Some(Transit([p.x, p.y], 0)), limit := Some(p.x.to), held := [Held(p.x, false, 2)])
  }

  function PeerMidway(p: Plot): Train {
    PeerOut(p).(last := Some(p.x.to), transit := Some(Transit([p.x, p.y], 1)), current := Some(p.y))
  }

  /** Who holds what is in whose way. */
  lemma InTheWayOf(p: Plot)
    requires IsPlot(p)
    ensures !TouchesAny(Ahead(), p.x) && TouchesAny(Ahead(), p.y) && TouchesAny([Held(p.x, false, 2)], CE)
    ensures HoldsEdge(Ahead(), AB) && HoldsEdge(Ahead(), BC) && !HoldsEdge(Ahead(), CE)
    ensures HoldsEdge([Held(p.x, false, 2)], p.x) && !HoldsEdge([Held(p.x, false, 2)], p.y)
  {
    var h := Ahead();
    assert h[0] == Held(AB, false, 0) && h[1] == Held(BC, false, 1) && [Held(p.x, false, 2)][0] == Held(p.x, false, 2);
  }

  lemma ExtendIdle(w: World, id: Id, n: nat)
    requires id in w.trains && w.trains[id].transit.Some?
    requires var t := w.trains[id]; t.transit.value.progress <= n <= |t.transit.value.edges|
    requires forall k :: w.trains[id].transit.value.progress <= k < n
               ==> HoldsEdge(w.trains[id].held, w.trains[id].transit.value.edges[k])
    requires n < |w.trains[id].transit.value.edges|
             ==> !HoldsEdge(w.trains[id].held, w.trains[id].transit.value.edges[n])
                 && Conflicts(w, id, w.trains[id].transit.value.edges[n])
    ensures Extend(w, id) == Out(w, [])
  {
    hide HoldsEdge, Conflicts, Walk;
    var tr := w.trains[id].transit.value;
    WalkIdle(w, id, tr.edges, tr.progress, n, 0, 0.0);
  }

  /** A train without a place, given a round trip with a way to its second stop, departs on it. */
  lemma AssignDeparts(w: World, id: Id, route: string, stops: seq<Marker>, way: seq<EdgeRef>)
    requires id in w.trains && w.trains[id].last.None? && HeadingOf(w.trains[id]).None? && w.zoneBounds == map[]
    requires |stops| > 1 && stops[0] != stops[1] && UnknownStopsOf(w.layout, stops) == []
    requires Planner.PlanTransit(w.layout, stops[0], stops[1], None) == Some(way) && way != []
    ensures var w1 := Put(w, id, Assigned(w.trains[id], route, stops));
            w1.trains[id].schedule.Some? && Assign(w, id, route, stops).w == Depart(w1, id, way).w
  {
    hide UnknownStopsOf, Planner.PlanTransit, Depart;
    var w1 := Put(w, id, Assigned(w.trains[id], route, stops));
    assert PlanAndExecute(w1, id, w.stack) == Returned(Route(w1, id, stops[1]));
  }

  lemma KnownStops(l: Layout, stops: seq<Marker>)
    requires forall m <- stops :: m in l.markers
    ensures UnknownStopsOf(l, stops) == []
    decreases |stops|
  {
    if stops == [] {
    } else {
      KnownStops(l, stops[1..]);
    }
  }

  /** With nobody on the track the later train is granted both edges at once. */
  lemma DepartsFreely(p: Plot, l: Layout, stack: nat, b: Train)
    requires IsPlot(p) && OnGround(l, p) && b.held == [] && b.schedule.Some? && b.length.Some?
    ensures var b' := b.(transit := Some(Transit([AB, BC], 0)), limit := Some("C"), held := Ahead());
            Depart(Scene(p, l, stack, Car(0, 50.0), b, 0), "later", [AB, BC]).w
              == Scene(p, l, stack, Car(0, 50.0), b', 2)
  {
    hide IsPlot, OnGround, HoldsEdge, TouchesAny, Extend, Retry, Wanted;
    var a := Car(0, 50.0);
    var b0 := b.(transit := Some(Transit([AB, BC], 0)), limit := Some("A"));
    var b2 := b.(transit := Some(Transit([AB, BC], 0)), limit := Some("C"), held := Ahead());
    ScenePuts(p, l, stack, a, b, 0, b0);
    GrantedBoth(p, l, stack, b0);
    RouteHeldIdles(p, l, stack, b2, 0);
  }

  /** One grant to the later train. */
  lemma LaterGranted(p: Plot, l: Layout, stack: nat, a: Train, b: Train, clock: nat, edges: seq<EdgeRef>, i: nat,
                     granted: nat, ms: real)
    requires IsPlot(p) && OnGround(l, p) && i < |edges| && edges[i] in Track(p) && granted < HORIZON_EDGES
    requires !HoldsEdge(b.held, edges[i]) && !TouchesAny(a.held, edges[i])
    ensures var e := edges[i];
            var b' := b.(limit := Some(e.to), held := b.held + [Held(e, false, clock)]);
            Walk(Scene(p, l, stack, a, b, clock), "later", edges, i, granted, ms).w
            == Walk(Scene(p, l, stack, a, b', clock + 1), "later", edges, i + 1, granted + 1,
                    ms + EdgeMs(l, "later", e)).w
  {
    hide IsPlot, OnGround, Track, HoldsEdge, TouchesAny, Conflicts, SwitchMismatch, Denied, Grant, Walk, EdgeMs;
    SceneGates(p, l, stack, a, b, clock, edges[i]);
    GroundHas(l, p);
    SceneGrants(p, l, stack, a, b, clock, edges[i]);
    WalkGrants(Scene(p, l, stack, a, b, clock), "later", edges, i, granted, ms);
  }

  lemma GrantedBoth(p: Plot, l: Layout, stack: nat, b: Train)
    requires IsPlot(p) && OnGround(l, p) && b.held == [] && b.transit == Some(Transit([AB, BC], 0))
    ensures Extend(Scene(p, l, stack, Car(0, 50.0), b, 0), "later").w
            == Scene(p, l, stack, Car(0, 50.0), b.(limit := Some("C"), held := Ahead()), 2)
  {
    hide IsPlot, OnGround, Conflicts, SwitchMismatch, Denied, Grant, Walk, EdgeMs, Track;
    var a := Car(0, 50.0);
    var h := [Held(AB, false, 0)];
    assert [] + h == h && h + [Held(BC, false, 1)] == Ahead() && h[0] == Held(AB, false, 0);
    var b1 := b.(limit := Some("B"), held := h);
    GroundHas(l, p);
    LaterGranted(p, l, stack, a, b, 0, [AB, BC], 0, 0, 0.0);
    var ms := 0.0 + EdgeMs(l, "later", AB);
    LaterGranted(p, l, stack, a, b1, 1, [AB, BC], 1, 1, ms);
    var b2 := b.(limit := Some("C"), held := Ahead());
    WalkIdle(Scene(p, l, stack, a, b2, 2), "later", [AB, BC], 2, 2, 2, ms + EdgeMs(l, "later", BC));
  }

  lemma LaterSetsOut(p: Plot, l: Layout, stack: nat)
    requires IsPlot(p) && OnGround(l, p)
    ensures Assign(Scene(p, l, stack, Car(0, 50.0), Car(1, p.length), 0), "later", "later", ["A", "C", "E"]).w
            == Scene(p, l, stack, Car(0, 50.0), LaterAtA(p), 2)
  {
    hide IsPlot, OnGround, UnknownStopsOf, Planner.PlanTransit, Depart, Assign;
    var a, stops := Car(0, 50.0), ["A", "C", "E"];
    var w := Scene(p, l, stack, a, Car(1, p.length), 0);
    GroundRoute(l, p, [AB, BC]);
    GroundStops(l, p, stops);
    AssignDeparts(w, "later", "later", stops, [AB, BC]);
    var b := Assigned(Car(1, p.length), "later", stops);
    ScenePuts(p, l, stack, a, Car(1, p.length), 0, b);
    DepartsFreely(p, l, stack, b);
  }

  lemma GroundStops(l: Layout, p: Plot, stops: seq<Marker>)
    requires OnGround(l, p) && forall m <- stops :: m in Places()
    ensures UnknownStopsOf(l, stops) == []
  {
    KnownStops(l, stops);
  }

  /** Setting out behind the later train the peer is granted its first edge only. */
  lemma PeerSetsOut(p: Plot, l: Layout, stack: nat, until: real)
    requires IsPlot(p) && OnGround(l, p)
    ensures Assign(Scene(p, l, stack, Car(0, 50.0), LaterAtC(p, until), 2), "peer", "peer", [p.x.from, p.y.to]).w
            == Scene(p, l, stack, PeerOut(p), LaterAtC(p, until), 3)
  {
    hide OnGround, UnknownStopsOf, Planner.PlanTransit, Depart, Assign;
    var b, stops := LaterAtC(p, until), [p.x.from, p.y.to];
    var w := Scene(p, l, stack, Car(0, 50.0), b, 2);
    GroundRoute(l, p, [p.x, p.y]);
    GroundStops(l, p, stops);
    AssignDeparts(w, "peer", "peer", stops, [p.x, p.y]);
    var a := Assigned(Car(0, 50.0), "peer", stops);
    ScenePuts(p, l, stack, Car(0, 50.0), b, 2, a);
    PeerDeparts(p, l, stack, a, b);
  }

  lemma PeerDeparts(p: Plot, l: Layout, stack: nat, a: Train, b: Train)
    requires IsPlot(p) && OnGround(l, p) && a.held == [] && a.schedule.Some?
    requires b.held == Ahead() && b.transit == Some(Transit([AB, BC], 2))
    ensures var a' := a.(transit := Some(Transit([p.x, p.y], 0)), limit := Some(p.x.to), held := [Held(p.x, false, 2)]);
            Depart(Scene(p, l, stack, a, b, 2), "peer", [p.x, p.y]).w == Scene(p, l, stack, a', b, 3)
  {
    hide IsPlot, OnGround, HoldsEdge, TouchesAny, Extend, Retry, Wanted;
    var a0 := a.(transit := Some(Transit([p.x, p.y], 0)), limit := Some(p.x.from));
    var a1 := a.(transit := Some(Transit([p.x, p.y], 0)), limit := Some(p.x.to), held := [Held(p.x, false, 2)]);
    ScenePuts(p, l, stack, a, b, 2, a0);
    PeerGrantedOne(p, l, stack, a0, b);
    MeetingIdles(p, l, stack, a1, b, 0);
  }

  /** One grant to the peer. */
  lemma PeerGranted(p: Plot, l: Layout, stack: nat, a: Train, b: Train, clock: nat, edges: seq<EdgeRef>, i: nat,
                    granted: nat, ms: real)
    requires IsPlot(p) && OnGround(l, p) && i < |edges| && edges[i] in Track(p) && granted < HORIZON_EDGES
    requires !HoldsEdge(a.held, edges[i]) && !TouchesAny(b.held, edges[i])
    ensures var e := edges[i];
            var a' := a.(limit := Some(e.to), held := a.held + [Held(e, false, clock)]);
            var o := Walk(Scene(p, l, stack, a, b, clock), "peer", edges, i, granted, ms);
            && o.w == Walk(Scene(p, l, stack, a', b, clock + 1), "peer", edges, i + 1, granted + 1,
                           ms + EdgeMs(l, "peer", e)).w
            && Send("peer", GrantClearance(e.to, [e])) in o.fx
  {
    hide IsPlot, OnGround, Track, HoldsEdge, TouchesAny, Conflicts, SwitchMismatch, Denied, Grant, Walk, EdgeMs;
    SceneGates(p, l, stack, a, b, clock, edges[i]);
    GroundHas(l, p);
    SceneGrants(p, l, stack, a, b, clock, edges[i]);
    WalkGrants(Scene(p, l, stack, a, b, clock), "peer", edges, i, granted, ms);
  }

  lemma PeerGrantedOne(p: Plot, l: Layout, stack: nat, a: Train, b: Train)
    requires IsPlot(p) && OnGround(l, p) && a.held == [] && a.transit == Some(Transit([p.x, p.y], 0))
             && b.held == Ahead()
    ensures Extend(Scene(p, l, stack, a, b, 2), "peer").w
            == Scene(p, l, stack, a.(limit := Some(p.x.to), held := [Held(p.x, false, 2)]), b, 3)
  {
    hide IsPlot, OnGround, Conflicts, TouchesAny, SwitchMismatch, Denied, Grant, Walk, EdgeMs, Track, Ahead;
    var h := [Held(p.x, false, 2)];
    assert [] + h == h;
    var a1 := a.(limit := Some(p.x.to), held := h);
    InTheWayOf(p);
    GroundHas(l, p);
    PeerGranted(p, l, stack, a, b, 2, [p.x, p.y], 0, 0, 0.0);
    SceneGates(p, l, stack, a1, b, 3, p.y);
    WalkIdle(Scene(p, l, stack, a1, b, 3), "peer", [p.x, p.y], 1, 1, 1, 0.0 + EdgeMs(l, "peer", p.x));
  }

  /** While the later train stands at C at the end of its route, and the peer before y, a pass does nothing. */
  lemma MeetingIdles(p: Plot, l: Layout, stack: nat, a: Train, b: Train, progress: nat)
    requires IsPlot(p) && progress <= 1 && a.transit == Some(Transit([p.x, p.y], progress))
             && a.held == [Held(p.x, false, 2)]
    requires b.held == Ahead() && b.transit == Some(Transit([AB, BC], 2))
    ensures var w := Scene(p, l, stack, a, b, 3); Extend(w, "peer") == Out(w, []) && Retry(w, None) == Out(w, [])
  {
    hide IsPlot, HoldsEdge, TouchesAny, Ahead, Conflicts;
    var w := Scene(p, l, stack, a, b, 3);
    InTheWayOf(p);
    SceneGates(p, l, stack, a, b, 3, p.y);
    ExtendIdle(w, "peer", 1);
    ExtendIdle(w, "later", 2);
    SceneIdles(p, l, stack, a, b, 3);
  }

  // ---------- marker reports ----------

  /** The record and the layout after a report that ends the train's current edge. */
  function Onward(w: World, id: Id, e: EdgeRef, now: real): World
    requires id in w.trains
  {
    Put(w, id,
        Arrive(w.trains[id], e.to, now)).(layout := RecordTraversal(w.layout, e.from, e.to, Some(id), now).layout)
  }

  ghost predicate Expected(w: World, id: Id, e: EdgeRef) {
    && id in w.trains && id in w.devices && ControlsMotion in w.devices[id].caps && w.zoneBounds == map[]
    && e.to in w.tags && w.tags[e.to] == ToMarker(e.to) && w.trains[id].inZone.None? && !IsPoint(w.trains[id])
    && w.trains[id].last == Some(e.from) && e.from != "" && e.from != e.to && FindEdge(w.layout, e.from, e.to).Some?
  }

  /** A report after which nobody gets on only moves the train and records the edge. */
  lemma ReportMoves(w: World, id: Id, e: EdgeRef, now: real)
    requires Expected(w, id, e)
    requires var w1 := Onward(w, id, e, now); Extend(w1, id) == Out(w1, []) && Retry(w1, None) == Out(w1, [])
    ensures ObserveTag(w, id, e.to, now).w == Onward(w, id, e, now)
  {
    hide Extend, Retry, RecordTraversal, FindEdge, EntersZone, AdvanceTransit;
    assert !EntersZone(w, w.trains[id].(last := Some(e.to), zoneEntry := None), e.to) by {
      NoZones(w, w.trains[id].(last := Some(e.to), zoneEntry := None), e.to);
    }
    assert AtMarker(w, id, e.to, now) == Pass(w, id, e.to, now);
  }

  lemma NoZones(w: World, t: Train, m: Marker)
    requires w.zoneBounds == map[]
    ensures !EntersZone(w, t, m)
  {
  }

  /** With its whole route held, and the peer not out yet, nothing is left to grant. */
  lemma RouteHeldIdles(p: Plot, l: Layout, stack: nat, b: Train, progress: nat)
    requires IsPlot(p) && b.held == Ahead() && progress <= 2 && b.transit == Some(Transit([AB, BC], progress))
    ensures var w := Scene(p, l, stack, Car(0, 50.0), b, 2);
            Extend(w, "later") == Out(w, []) && Retry(w, None) == Out(w, [])
  {
    hide IsPlot, HoldsEdge, TouchesAny, Ahead;
    var w := Scene(p, l, stack, Car(0, 50.0), b, 2);
    InTheWayOf(p);
    ExtendIdle(w, "later", 2);
    SceneIdles(p, l, stack, Car(0, 50.0), b, 2);
  }

  /** What each report makes of the train that sends it. */
  lemma Arrivals(p: Plot, now: real)
    requires IsPlot(p)
    ensures Arrive(LaterAtA(p), "B", now) == LaterAtB(p)
    ensures Arrive(LaterAtB(p), "C", now) == LaterAtC(p, now + STATION_DWELL_MS)
    ensures Arrive(PeerOut(p), p.x.to, now) == PeerMidway(p)
  {
    hide Ahead;
  }

  lemma LaterExpected(p: Plot, l: Layout, stack: nat, b: Train, e: EdgeRef)
    requires IsPlot(p) && OnGround(l, p) && e in {AB, BC} && b.last == Some(e.from) && b.length == Some(p.length)
             && b.inZone.None?
    ensures Expected(Scene(p, l, stack, Car(0, 50.0), b, 2), "later", e)
  {
    hide OnGround, FindEdge;
    GroundHas(l, p);
    GroundFinds(l, p, e);
  }

  /** A report of the later train with its route held. */
  lemma LaterReports(p: Plot, l: Layout, stack: nat, b: Train, e: EdgeRef, b': Train, now: real)
    requires IsPlot(p) && OnGround(l, p) && e in {AB, BC} && b.last == Some(e.from) && b.length == Some(p.length)
             && b.inZone.None?
    requires b' == Arrive(b, e.to, now) && b'.held == Ahead()
    requires b'.transit.Some? && b'.transit.value.edges == [AB, BC] && b'.transit.value.progress <= 2
    ensures var r := RecordTraversal(l, e.from, e.to, Some("later"), now).layout;
            && ObserveTag(Scene(p, l, stack, Car(0, 50.0), b, 2), "later", e.to, now).w
               == Scene(p, r, stack, Car(0, 50.0), b', 2)
            && OnGround(r, p)
  {
    hide OnGround, Extend, Retry, RecordTraversal, Ahead, Arrive, ObserveTag, Expected, IsPlot;
    var w := Scene(p, l, stack, Car(0, 50.0), b, 2);
    var r := RecordTraversal(l, e.from, e.to, Some("later"), now).layout;
    GroundHas(l, p);
    GroundStays(l, p, e, "later", now);
    LaterExpected(p, l, stack, b, e);
    ScenePuts(p, l, stack, Car(0, 50.0), b, 2, b');
    assert Onward(w, "later", e, now) == Scene(p, r, stack, Car(0, 50.0), b', 2);
    RouteHeldIdles(p, r, stack, b', b'.transit.value.progress);
    ReportMoves(w, "later", e, now);
  }

  lemma LaterReportsB(p: Plot, l: Layout, stack: nat, now: real)
    requires IsPlot(p) && OnGround(l, p)
    ensures var r := RecordTraversal(l, "A", "B", Some("later"), now).layout;
            && ObserveTag(Scene(p, l, stack, Car(0, 50.0), LaterAtA(p), 2), "later", "B", now).w
               == Scene(p, r, stack, Car(0, 50.0), LaterAtB(p), 2)
            && OnGround(r, p)
  {
    hide OnGround, IsPlot, RecordTraversal, ObserveTag, Scene, Arrive;
    Arrivals(p, now);
    LaterReports(p, l, stack, LaterAtA(p), AB, LaterAtB(p), now);
  }

  lemma LaterReportsC(p: Plot, l: Layout, stack: nat, now: real)
    requires IsPlot(p) && OnGround(l, p)
    ensures var r, b := RecordTraversal(l, "B", "C", Some("later"), now).layout, LaterAtC(p, now + STATION_DWELL_MS);
            && ObserveTag(Scene(p, l, stack, Car(0, 50.0), LaterAtB(p), 2), "later", "C", now).w
               == Scene(p, r, stack, Car(0, 50.0), b, 2)
            && OnGround(r, p)
  {
    hide OnGround, IsPlot, RecordTraversal, ObserveTag, Scene, Arrive;
    Arrivals(p, now);
    LaterReports(p, l, stack, LaterAtB(p), BC, LaterAtC(p, now + STATION_DWELL_MS), now);
  }

  lemma PeerExpected(p: Plot, l: Layout, stack: nat, b: Train)
    requires IsPlot(p) && OnGround(l, p)
    ensures Expected(Scene(p, l, stack, PeerOut(p), b, 3), "peer", p.x)
  {
    hide OnGround, FindEdge;
    GroundHas(l, p);
    GroundFinds(l, p, p.x);
  }

  lemma PeerReports(p: Plot, l: Layout, stack: nat, until: real, now: real)
    requires IsPlot(p) && OnGround(l, p)
    ensures var r := RecordTraversal(l, p.x.from, p.x.to, Some("peer"), now).layout;
            && ObserveTag(Scene(p, l, stack, PeerOut(p), LaterAtC(p, until), 3), "peer", p.x.to, now).w
               == Scene(p, r, stack, PeerMidway(p), LaterAtC(p, until), 3)
            && OnGround(r, p)
  {
    hide OnGround, Extend, Retry, RecordTraversal, Ahead, Arrive, ObserveTag, Expected, IsPlot;
    var w, b := Scene(p, l, stack, PeerOut(p), LaterAtC(p, until), 3), LaterAtC(p, until);
    var r := RecordTraversal(l, p.x.from, p.x.to, Some("peer"), now).layout;
    GroundHas(l, p);
    GroundStays(l, p, p.x, "peer", now);
    PeerExpected(p, l, stack, b);
    Arrivals(p, now);
    ScenePuts(p, l, stack, PeerOut(p), b, 3, PeerMidway(p));
    assert Onward(w, "peer", p.x, now) == Scene(p, r, stack, PeerMidway(p), b, 3);
    MeetingIdles(p, r, stack, PeerMidway(p), b, 1);
    ReportMoves(w, "peer", p.x, now);
  }

  // ---------- the set-up ----------

  function Enrols(id: Id, length: Length): Input {
    DeviceRegistered(id, Registration([ControlsMotion], Some(length), None, [], None))
  }

  function Assigner(): Input { DeviceRegistered("tags", Registration([AssignsTags], None, None, [], None)) }

  function Binds(m: Marker): Input { TagAssigned("tags", m, ToMarker(m), BlockBoundary) }

  lemma Dispatches(w: World, d: Id, r: Registration, tag: string, b: Binding, k: Kind, now: real)
    ensures Step(w, DeviceRegistered(d, r)) == Register(w, d, r)
    ensures Step(w, TagAssigned(d, tag, b, k)) == AssignTag(w, d, tag, b, k)
    ensures Step(w, TagObserved(d, tag, now)) == ObserveTag(w, d, tag, now)
  {
    hide Register, AssignTag, ObserveTag, Assign, Status, ForgetDevice, RequestClearance, ChangeSwitch, ChangeLength,
         DispatchGate,
         DispatchZone, DispatchOther, ReleaseFromZone, RevokeTrain, ReanchorAt, ConfirmTrack, ResetAll;
  }

  lemma DispatchesTrain(w: World, id: Id, route: string, stops: seq<Marker>, on: Option<EdgeRef>,
                        distance: Option<real>, now: real)
    ensures Step(w, AssignSchedule(id, route, stops)) == Assign(w, id, route, stops)
    ensures Step(w, TrainStatus(id, on, distance, now)) == Status(w, id, on, distance, now)
  {
    hide Register, AssignTag, ObserveTag, Assign, Status, ForgetDevice, RequestClearance, ChangeSwitch, ChangeLength,
         DispatchGate,
         DispatchZone, DispatchOther, ReleaseFromZone, RevokeTrain, ReanchorAt, ConfirmTrack, ResetAll;
  }

  /** A train enrols under the next rank. */
  lemma TrainEnrols(w: World, id: Id, length: Length)
    requires id !in w.trains && length > 0.0
    ensures Step(w, Enrols(id, length)).w
            == w.(devices := w.devices[id := Device([ControlsMotion], [], [])],
                  trains := w.trains[id := Car(w.nextRank, length)],
                  order := w.order + [id], nextRank := w.nextRank + 1)
  {
    hide Step;
    var r := Registration([ControlsMotion], Some(length), None, [], None);
    Dispatches(w, id, r, "", ToMarker(""), Junction, 0.0);
    assert [ControlsMotion][1..] == [] && UnknownOnes([ControlsMotion]) == [];
    var t := NewTrain(w.nextRank, 0.0);
    assert w.trains[id := t][id := t.(length := Some(length))] == w.trains[id := t.(length := Some(length))];
  }

  lemma AssignerEnrols(w: World)
    ensures Step(w, Assigner()).w == w.(devices := w.devices["tags" := Device([AssignsTags], [], [])])
  {
    hide Step;
    Dispatches(w, "tags", Registration([AssignsTags], None, None, [], None), "", ToMarker(""), Junction, 0.0);
    assert [AssignsTags][1..] == [] && UnknownOnes([AssignsTags]) == [];
  }

  lemma TagBinds(w: World, m: Marker)
    requires w.devices == Crew() && m in w.layout.markers
    ensures Step(w, Binds(m)).w == w.(tags := w.tags[m := ToMarker(m)])
  {
    hide Step;
    Dispatches(w, "tags", Registration([], None, None, [], None), m, ToMarker(m), BlockBoundary, 0.0);
  }

  /** Everything up to the last report. */
  function Story(p: Plot, b: real, c: real, mid: real): seq<Input> {
    [Enrols("peer", 50.0), Enrols("later", p.length), Assigner(), Binds("B"), Binds("C"), Binds(p.x.to),
     AssignSchedule("later", "later", ["A", "C", "E"]), TagObserved("later", "B", b), TagObserved("later", "C", c),
     AssignSchedule("peer", "peer", [p.x.from, p.y.to]), TagObserved("peer", p.x.to, mid)]
  }

  lemma RunNext(w: World, inputs: seq<Input>, k: nat)
    requires k < |inputs|
    ensures Run(w, inputs[..k + 1]).w == Step(Run(w, inputs[..k]).w, inputs[k]).w
  {
    hide Step;
    assert inputs[..k + 1][..k] == inputs[..k];
  }

  lemma CrewEnrols(p: Plot, l: Layout, stack: nat, b: real, c: real, mid: real)
    requires IsPlot(p)
    ensures Run(Fresh(l, stack), Story(p, b, c, mid)[..3]).w
            == Scene(p, l, stack, Car(0, 50.0), Car(1, p.length), 0).(tags := map[])
  {
    hide Step, Run, Car;
    var s, w := Story(p, b, c, mid), Fresh(l, stack);
    RunNothing(w, s);
    RunNext(w, s, 0);
    TrainEnrols(w, "peer", 50.0);
    RunNext(w, s, 1);
    TrainEnrols(Run(w, s[..1]).w, "later", p.length);
    RunNext(w, s, 2);
    AssignerEnrols(Run(w, s[..2]).w);
    assert [] + ["peer"] + ["later"] == ["peer", "later"];
  }

  lemma SetUpRuns(p: Plot, l: Layout, stack: nat, b: real, c: real, mid: real)
    requires IsPlot(p) && OnGround(l, p)
    ensures Run(Fresh(l, stack), Story(p, b, c, mid)[..6]).w == Scene(p, l, stack, Car(0, 50.0), Car(1, p.length), 0)
  {
    hide Step, Run, OnGround, Car, Crew;
    var s, w := Story(p, b, c, mid), Fresh(l, stack);
    GroundPlaces(l, p);
    CrewEnrols(p, l, stack, b, c, mid);
    RunNext(w, s, 3);
    TagBinds(Run(w, s[..3]).w, "B");
    RunNext(w, s, 4);
    TagBinds(Run(w, s[..4]).w, "C");
    RunNext(w, s, 5);
    TagBinds(Run(w, s[..5]).w, p.x.to);
  }

  lemma RunNothing(w: World, s: seq<Input>)
    ensures Run(w, s[..0]).w == w
  {
    assert s[..0] == [];
  }

  /** The later train's part: its body ends up over A-B-C, all of it held. */
  lemma LaterRuns(p: Plot, l: Layout, stack: nat, b: real, c: real, mid: real) returns (l2: Layout)
    requires IsPlot(p) && OnGround(l, p)
    ensures OnGround(l2, p)
    ensures Run(Fresh(l, stack), Story(p, b, c, mid)[..9]).w
            == Scene(p, l2, stack, Car(0, 50.0), LaterAtC(p, c + STATION_DWELL_MS), 2)
  {
    hide Step, Run, OnGround, IsPlot, Scene, Assign, ObserveTag, RecordTraversal;
    var s, w := Story(p, b, c, mid), Fresh(l, stack);
    var none := Registration([], None, None, [], None);
    SetUpRuns(p, l, stack, b, c, mid);
    RunNext(w, s, 6);
    DispatchesTrain(Run(w, s[..6]).w, "later", "later", ["A", "C", "E"], None, None, 0.0);
    LaterSetsOut(p, l, stack);
    RunNext(w, s, 7);
    Dispatches(Run(w, s[..7]).w, "later", none, "B", ToMarker("B"), Junction, b);
    LaterReportsB(p, l, stack, b);
    var l1 := RecordTraversal(l, "A", "B", Some("later"), b).layout;
    RunNext(w, s, 8);
    Dispatches(Run(w, s[..8]).w, "later", none, "C", ToMarker("C"), Junction, c);
    LaterReportsC(p, l1, stack, c);
    l2 := RecordTraversal(l1, "B", "C", Some("later"), c).layout;
  }

  /** The run brings the two trains face to face. */
  lemma StoryRuns(p: Plot, l: Layout, stack: nat, b: real, c: real, mid: real) returns (l': Layout)
    requires IsPlot(p) && OnGround(l, p)
    ensures OnGround(l', p)
    ensures Run(Fresh(l, stack), Story(p, b, c, mid)).w
            == Scene(p, l', stack, PeerMidway(p), LaterAtC(p, c + STATION_DWELL_MS), 3)
  {
    hide Step, Run, OnGround, IsPlot, Scene, Assign, ObserveTag, RecordTraversal;
    var s, w := Story(p, b, c, mid), Fresh(l, stack);
    var l2 := LaterRuns(p, l, stack, b, c, mid);
    RunNext(w, s, 9);
    DispatchesTrain(Run(w, s[..9]).w, "peer", "peer", [p.x.from, p.y.to], None, None, 0.0);
    PeerSetsOut(p, l2, stack, c + STATION_DWELL_MS);
    RunNext(w, s, 10);
    Dispatches(Run(w, s[..10]).w, "peer", Registration([], None, None, [], None), p.x.to, ToMarker(p.x.to), Junction,
               mid);
    PeerReports(p, l2, stack, c + STATION_DWELL_MS, mid);
    l' := RecordTraversal(l2, p.x.from, p.x.to, Some("peer"), mid).layout;
    assert s[..11] == s;
  }
}
