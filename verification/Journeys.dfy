/** A train's own record after commands, status reports and planning: what is set anew, and what is never touched. */
module Journeys {
  import opened Rail
  import opened LayoutModel
  import opened World
  import opened Clearance
  import opened Standoff
  import opened Handlers
  import opened Frames
  import opened GivingWay
  import opened Yielding
  import opened LayoutRuns
  import opened Standing
  import opened Records
  import opened Replanning
  import Planner

  // ---------- planning ----------

  /**
   * Planning may turn the schedule to another of its stops and set the train off; place and heading, dwell, zone, hold,
   * length and standing stay, but for a reverse it may be told to make at the end of the pass.
   */
  ghost predicate Planned(t: Train, t': Train) {
    && t' == t.(schedule := t'.schedule, transit := t'.transit, limit := t'.limit, held := t'.held, last := t'.last)
    && (t.schedule.None? <==> t'.schedule.None?)
    && (t.schedule.Some? && t'.schedule.Some? ==>
          t'.schedule.value.route == t.schedule.value.route && t'.schedule.value.stops == t.schedule.value.stops)
  }

  lemma MovedPlanned(t: Train, t': Train)
    requires Moved(t, t')
    ensures Planned(t, t')
  {
  }

  lemma PlannedTwice(a: Train, b: Train, c: Train)
    requires Planned(a, b) && Planned(b, c)
    ensures Planned(a, c)
  {
  }

  ghost predicate PlannedIn(w: World, id: Id, w': World) {
    id in w.trains && id in w'.trains && Planned(w.trains[id], w'.trains[id])
  }

  lemma ThenMovedPlanned(w: World, id: Id, v: World, w': World)
    requires PlannedIn(w, id, v) && AllMoved(v, w')
    ensures PlannedIn(w, id, w')
  {
    OneMoved(v, w', id);
    MovedPlanned(v.trains[id], w'.trains[id]);
    PlannedTwice(w.trains[id], v.trains[id], w'.trains[id]);
  }

  lemma DepartOwn(w: World, id: Id, edges: seq<EdgeRef>)
    requires id in w.trains && w.trains[id].schedule.Some? && edges != []
    ensures PlannedIn(w, id, Depart(w, id, edges).w)
    ensures Depart(w, id, edges).w.trains[id].transit == Some(Transit(edges, 0))
    ensures Depart(w, id, edges).fx != []
            && Depart(w, id, edges).fx[0] == Send(id, AssignRoute(w.trains[id].schedule.value.route, edges))
  {
    hide Extend, Retry, AllMoved;
    var t := w.trains[id];
    var t' := t.(transit := Some(Transit(edges, 0)), limit := Some(edges[0].from));
    var granted := Extend(Put(w, id, t'), id).w;
    ExtendMoves(Put(w, id, t'), id);
    RetryMoves(granted, None);
    MovedTwice(Put(w, id, t'), granted, Retry(granted, None).w);
    OneMoved(Put(w, id, t'), Retry(granted, None).w, id);
  }

  /**
   * A departing train is cleared to where it stands, and from there as far as it is granted edges, or gives way at
   * once.
   */
  lemma DepartGrows(w: World, id: Id, edges: seq<EdgeRef>)
    requires id in w.trains && w.trains[id].schedule.Some? && edges != []
    ensures var o := Depart(w, id, edges);
            var r := w.trains[id].(transit := Some(Transit(edges, 0)), limit := Some(edges[0].from));
            id in o.w.trains && (Grew(r, o.w.trains[id]) || GaveWay(id, o.fx))
  {
    hide Extend, Retry, Grew, GaveWay;
    var t := w.trains[id];
    var placed := Put(w, id, t.(transit := Some(Transit(edges, 0)), limit := Some(edges[0].from)));
    GoingAheadSpares(placed, id);
    var order := [Send(id, AssignRoute(t.schedule.value.route, edges))];
    var granted := Extend(placed, id);
    assert (order + granted.fx) + Retry(granted.w, None).fx == order + GoesAhead(placed, id).fx;
    TellsTogether(id, order, GoesAhead(placed, id).fx);
  }

  /** The way a train faces: the edge it is on, or else the one it came into a zone by. */
  function Facing(t: Train): Option<EdgeRef> {
    match t.current
    case Some(e) => Some(e)
    case None => t.zoneEntry
  }

  /** A stop inside a zone is only for trains whose device is registered as able to reverse. */
  predicate Admitted(w: World, id: Id, stop: Marker) {
    stop in w.zoneBounds ==> id in w.devices && CanReverse in w.devices[id].caps
  }

  /**
   * One leg: the planned way from where the train is, facing as it does, is sent and taken up from its beginning; no
   * way, or a stop it is not admitted to, is told and changes nothing.
   */
  lemma LegRecord(w: World, id: Id, target: Marker)
    requires id in w.trains && w.trains[id].last.Some? && w.trains[id].schedule.Some?
    ensures var o, t := Route(w, id, target), w.trains[id];
            match Planner.PlanTransit(w.layout, t.last.value, target, Facing(t))
            case None => o == Out(w, [Publish(Raised(NoPath(id, t.last.value, target)))])
            case Some(way) =>
              if way == [] then o == Out(w, [])
              else if !Admitted(w, id, target) then o == Out(w, [Publish(Raised(CannotReverse(id, target)))])
              else PlannedIn(w, id, o.w) && o.w.trains[id].transit == Some(Transit(way, 0)) && o.fx != []
                   && o.fx[0] == Send(id, AssignRoute(t.schedule.value.route, way))
  {
    hide Depart, Planner.PlanTransit;
    var t := w.trains[id];
    var plan := Planner.PlanTransit(w.layout, t.last.value, target, Facing(t));
    if plan.Some? && plan.value != [] {
      DepartOwn(w, id, plan.value);
    }
  }

  lemma {:induction false} PlanOwn(w: World, id: Id, budget: nat)
    requires id in w.trains
    ensures PlannedIn(w, id, Settled(PlanAndExecute(w, id, budget)).w)
    decreases budget, 1
  {
    hide Depart, Planner.PlanTransit, CanReverseTrain;
    var t := w.trains[id];
    if t.schedule.Some? && t.last.Some? {
      var s := t.schedule.value;
      if t.last.value != StopOf(s) {
        var plan := Planner.PlanTransit(w.layout, t.last.value, StopOf(s), HeadingOf(t));
        if plan.Some? && plan.value != [] {
          DepartOwn(w, id, plan.value);
        }
      } else if |s.stops| > 1 {
        AdvanceOwn(w, id, budget);
      }
    }
  }

  lemma {:induction false} AdvanceOwn(w: World, id: Id, budget: nat)
    requires id in w.trains
    ensures PlannedIn(w, id, Settled(AdvanceAndReplan(w, id, budget)).w)
    decreases budget, 0
  {
    hide PlanAndExecute;
    var t := w.trains[id];
    if t.schedule.Some? && budget > 0 {
      var moved := Put(w, id, t.(schedule := Some(Next(t.schedule.value))));
      PlanOwn(moved, id, budget - 1);
      PlannedTwice(t, moved.trains[id], Settled(PlanAndExecute(moved, id, budget - 1)).w.trains[id]);
    }
  }

  lemma ResumeOwn(w: World, id: Id)
    requires id in w.trains
    ensures PlannedIn(w, id, Settled(Resume(w, id)).w)
  {
    hide PlanAndExecute, Retry, AllMoved, PlannedIn;
    SamePlanned(w, id);
    RetryMoves(w, None);
    ThenMovedPlanned(w, id, w, Retry(w, None).w);
    PlanOwn(w, id, w.stack);
    var planned := Settled(PlanAndExecute(w, id, w.stack)).w;
    RetryMoves(planned, None);
    ThenMovedPlanned(w, id, planned, Retry(planned, None).w);
  }

  lemma SamePlanned(w: World, id: Id)
    requires id in w.trains
    ensures PlannedIn(w, id, w)
  {
  }

  // ---------- where it is ----------

  /** The train is where it was, unless it has been told to give way. */
  ghost predicate Placed(w: World, id: Id, o: Out) {
    && id in w.trains && id in o.w.trains
    && (o.w.trains[id].last == w.trains[id].last || GaveWay(id, o.fx))
  }

  lemma SparedPlaced(id: Id, w: World, o: Out)
    requires Spared(id, w, o)
    ensures Placed(w, id, o)
  {
    hide GaveWay;
  }

  lemma PlacedThen(w: World, id: Id, a: Out, b: Out)
    requires Placed(w, id, a) && Placed(a.w, id, b)
    ensures Placed(w, id, Then(a, b))
  {
    hide GaveWay;
    TellsTogether(id, a.fx, b.fx);
  }

  lemma DepartPlaced(w: World, id: Id, edges: seq<EdgeRef>)
    requires id in w.trains && w.trains[id].schedule.Some? && edges != []
    ensures Placed(w, id, Depart(w, id, edges))
  {
    hide Depart, GaveWay;
    DepartGrows(w, id, edges);
  }

  lemma {:induction false} PlanPlaced(w: World, id: Id, budget: nat)
    requires id in w.trains
    ensures Placed(w, id, Settled(PlanAndExecute(w, id, budget)))
    decreases budget, 1
  {
    hide Depart, Planner.PlanTransit, CanReverseTrain, GaveWay;
    var t := w.trains[id];
    if t.schedule.Some? && t.last.Some? {
      var s := t.schedule.value;
      if t.last.value != StopOf(s) {
        var plan := Planner.PlanTransit(w.layout, t.last.value, StopOf(s), HeadingOf(t));
        if plan.Some? && plan.value != [] {
          DepartPlaced(w, id, plan.value);
        }
      } else if |s.stops| > 1 {
        AdvancePlaced(w, id, budget);
      }
    }
  }

  lemma {:induction false} AdvancePlaced(w: World, id: Id, budget: nat)
    requires id in w.trains
    ensures Placed(w, id, Settled(AdvanceAndReplan(w, id, budget)))
    decreases budget, 0
  {
    hide PlanAndExecute, GaveWay;
    var t := w.trains[id];
    if t.schedule.Some? && budget > 0 {
      var s := Next(t.schedule.value);
      var moved := Put(w, id, t.(schedule := Some(s)));
      PlanPlaced(moved, id, budget - 1);
      PrefixPlaced(w, id, Out(moved, [Show(ScheduleOf(id, Some(s)))]), PlanAndExecute(moved, id, budget - 1));
    }
  }

  /** Effects already gathered do not matter, nor does losing them when the attempt fails: then nobody gave way. */
  lemma PrefixPlaced(w: World, id: Id, first: Out, a: Attempt)
    requires id in w.trains && id in first.w.trains && first.w.trains[id].last == w.trains[id].last
    requires Placed(first.w, id, Settled(a))
    ensures Placed(w, id, Settled(Prefixed(first.fx, a)))
  {
    hide GaveWay;
    match a
    case Returned(o) => TellsTogether(id, first.fx, o.fx);
    case Threw(_) =>
      assert !GaveWay(id, []) by {
        NobodyTold(id);
      }
  }

  lemma NobodyTold(id: Id)
    ensures !GaveWay(id, [])
  {
  }

  lemma RetryPlaced(w: World, id: Id)
    requires id in w.trains
    ensures Placed(w, id, Retry(w, None))
  {
    hide Retry, Spared, Placed, GaveWay;
    RetrySpares(w, id);
    SparedPlaced(id, w, Retry(w, None));
  }

  lemma ResumePlaced(w: World, id: Id)
    requires id in w.trains
    ensures Placed(w, id, Settled(Resume(w, id)))
  {
    hide PlanAndExecute, Retry, Placed;
    RetryPlaced(w, id);
    PlanPlaced(w, id, w.stack);
    var a := PlanAndExecute(w, id, w.stack);
    if a.Returned? {
      IsPlaced(w, id, a.out);
      RetryPlaced(a.out.w, id);
      PlacedThen(w, id, a.out, Retry(a.out.w, None));
    }
  }

  lemma IsPlaced(w: World, id: Id, o: Out)
    requires Placed(w, id, o)
    ensures id in o.w.trains && (o.w.trains[id].last == w.trains[id].last || GaveWay(id, o.fx))
  {
  }

  /** Planning to a stop elsewhere leaves the schedule as it is. */
  lemma PlanKeepsStop(w: World, id: Id, budget: nat)
    requires id in w.trains && w.trains[id].schedule.Some? && w.trains[id].last.Some?
    requires StopOf(w.trains[id].schedule.value) != w.trains[id].last.value
    ensures var o := Settled(PlanAndExecute(w, id, budget));
            id in o.w.trains && o.w.trains[id].schedule == w.trains[id].schedule
  {
    hide Route;
    RouteKeepsSchedule(w, id, StopOf(w.trains[id].schedule.value));
  }

  // ---------- operator calls ----------

  /** The record a new schedule begins with: from where the train is, or else the first stop, holding nothing. */
  function Outset(t: Train, route: string, stops: seq<Marker>): Train
    requires stops != []
  {
    var start := if t.last.Some? then t.last.value else stops[0];
    t.(last := Some(start), held := [], transit := None, blocked := false,
       schedule := Some(ScheduleRecord(route, stops, if |stops| > 1 && stops[0] == start then 1 else 0)))
  }

  predicate AllKnown(l: Layout, stops: seq<Marker>) {
    forall m <- stops :: m in l.markers
  }

  lemma {:induction false} KnownIff(l: Layout, stops: seq<Marker>)
    ensures UnknownStopsOf(l, stops) == [] <==> AllKnown(l, stops)
  {
    if stops == [] {
    } else {
      KnownIff(l, stops[1..]);
      assert stops == [stops[0]] + stops[1..];
    }
  }

  /**
   * An assignment to known stops starts the train over on the new schedule, and then plans: the train is where it was,
   * or else at the first stop, and a schedule whose stop is elsewhere stays at that stop.
   */
  lemma AssignRecord(w: World, id: Id, route: string, stops: seq<Marker>)
    requires id in w.trains && stops != []
    ensures var o, r := Assign(w, id, route, stops), Outset(w.trains[id], route, stops);
            id in o.w.trains
            && if AllKnown(w.layout, stops) then
                 && Planned(r, o.w.trains[id]) && (o.w.trains[id].last == r.last || GaveWay(id, o.fx))
                 && (Some(StopOf(r.schedule.value)) != r.last ==> o.w.trains[id].schedule == r.schedule)
               else o.w == w
  {
    hide PlanAndExecute, UnknownStopsOf, GaveWay, PlannedIn, Placed;
    KnownIff(w.layout, stops);
    if AllKnown(w.layout, stops) {
      var w1 := Put(w, id, Assigned(w.trains[id], route, stops));
      PlanOwn(w1, id, w.stack);
      PlannedMeans(w1, id, Settled(PlanAndExecute(w1, id, w.stack)).w);
      PlanPlaced(w1, id, w.stack);
      PrefixPlaced(w1, id, Out(w1, [Show(ScheduleOf(id, w1.trains[id].schedule))]), PlanAndExecute(w1, id, w.stack));
      IsPlaced(w1, id, Assign(w, id, route, stops));
      if StopOf(w1.trains[id].schedule.value) != w1.trains[id].last.value {
        PlanKeepsStop(w1, id, w.stack);
      }
    }
  }

  /** A revocation leaves the train holding nothing where it stands, free of any hold, and grants it nothing. */
  lemma RevokeRecord(w: World, id: Id)
    requires id in w.trains
    ensures var o, t := RevokeTrain(w, id), w.trains[id];
            id in o.w.trains && o.w.trains[id] == t.(held := [], limit := StandsAt(t), blocked := false)
  {
    hide Retry;
    var t := w.trains[id];
    var freed := Put(w, id, t.(held := [], limit := StandsAt(t), blocked := false));
    SkippingPassGrows(freed, {id});
  }

  /** A recovery puts the train at a certain marker, holding nothing, its hold lifted and its route forgotten. */
  function Restored(t: Train, m: Marker): Train {
    t.(last := Some(m), limit := Some(m), held := [], blocked := false, transit := None)
  }

  lemma ReanchorRecord(w: World, id: Id, m: Marker)
    requires id in w.trains
    ensures var o := ReanchorAt(w, id, m);
            id in o.w.trains
            && if w.trains[id].blocked && m in w.layout.markers then
                 Planned(Restored(w.trains[id], m), o.w.trains[id])
                 && (o.w.trains[id].last == Some(m) || GaveWay(id, o.fx))
               else o == Out(w, [])
  {
    hide Resume, Edges, GaveWay, Placed;
    if w.trains[id].blocked && m in w.layout.markers {
      var w1 := Put(w, id, Restored(w.trains[id], m));
      ResumeOwn(w1, id);
      ResumePlaced(w1, id);
      PrefixPlaced(w1, id, Out(w1, [ClearanceOf(id, w1.trains[id])]), Resume(w1, id));
      IsPlaced(w1, id, ReanchorAt(w, id, m));
    }
  }

  /** The operator confirms the first held edge the layout has not: it is learned, and the train is at its end. */
  lemma ConfirmRecord(w: World, id: Id, k: nat)
    requires id in w.trains && w.trains[id].blocked && k < |w.trains[id].held|
    requires var held := w.trains[id].held;
             && !Leads(w.layout, held[k].edge.from, held[k].edge.to)
             && (forall j :: 0 <= j < k ==> Leads(w.layout, held[j].edge.from, held[j].edge.to))
    ensures var o := ConfirmTrack(w, id);
            id in o.w.trains && Planned(Restored(w.trains[id], w.trains[id].held[k].edge.to), o.w.trains[id])
            && (o.w.trains[id].last == Some(w.trains[id].held[k].edge.to) || GaveWay(id, o.fx))
    ensures ConfirmTrack(w, id).w.layout
            == AddInferredEdge(w.layout, w.trains[id].held[k].edge.from, w.trains[id].held[k].edge.to)
  {
    hide Resume, Edges, AddInferredEdge, Leads, Uncertain, FindEdge, GaveWay, Placed;
    UncertainFirst(w.layout, w.trains[id].held, k);
    var e := w.trains[id].held[k].edge;
    var l := AddInferredEdge(w.layout, e.from, e.to);
    var w1 := Put(w.(layout := l), id, Restored(w.trains[id], e.to));
    ResumeOwn(w1, id);
    ResumeLayout(w1, id);
    ResumePlaced(w1, id);
    PrefixPlaced(w1, id, Out(w1, [ShowLayout(l), ClearanceOf(id, w1.trains[id])]), Resume(w1, id));
    IsPlaced(w1, id, ConfirmTrack(w, id));
  }

  lemma {:induction false} UncertainFirst(l: Layout, held: seq<Held>, k: nat)
    requires k < |held| && !Leads(l, held[k].edge.from, held[k].edge.to)
    requires forall j :: 0 <= j < k ==> Leads(l, held[j].edge.from, held[j].edge.to)
    ensures Uncertain(l, held) == Some(held[k].edge)
  {
    hide FindTo;
    if k == 0 {
    } else {
      assert Leads(l, held[0].edge.from, held[0].edge.to);
      UncertainFirst(l, held[1..], k - 1);
    }
  }

  // ---------- zone releases and status reports ----------

  /** Released by the zone's reporter, the train is in no zone, and goes on with its schedule or its wait. */
  lemma ReleaseRecord(w: World, d: Id, zone: Marker, id: Id)
    requires id in w.trains
    ensures var o := ReleaseFromZone(w, d, zone, id);
            id in o.w.trains
            && if zone in w.zoneBounds && w.zoneBounds[zone] == d && w.trains[id].inZone == Some(zone)
               then Planned(w.trains[id].(inZone := None), o.w.trains[id])
               else o.w == w
  {
    hide AdvanceAndReplan, Retry, AllMoved, PlannedIn;
    var w1 := Put(w, id, w.trains[id].(inZone := None));
    SamePlanned(w1, id);
    RetryMoves(w1, None);
    ThenMovedPlanned(w1, id, w1, Retry(w1, None).w);
    AdvanceOwn(w1, id, w.stack);
    PlannedMeans(w1, id, Retry(w1, None).w);
    PlannedMeans(w1, id, Settled(AdvanceAndReplan(w1, id, w.stack)).w);
  }

  lemma PlannedMeans(w: World, id: Id, w': World)
    ensures PlannedIn(w, id, w') ==> id in w.trains && id in w'.trains && Planned(w.trains[id], w'.trains[id])
  {
  }

  /** A train with no heading of its own, nor one kept from a zone, takes the edge it reports. */
  function Headed(t: Train, on: Option<EdgeRef>): Train {
    if on.Some? && t.current.None? && t.zoneEntry.None? then t.(current := on) else t
  }

  predicate DwellOver(t: Train, now: real) { t.dwellUntil.Some? && t.dwellUntil.value <= now }

  /**
   * A status report gives a heading. The first after the dwell ends it and turns to the next stop; before that, or
   * without one, a train whose length or position is not known is otherwise left as it is, and any other lets go of
   * what its tail has cleared.
   */
  lemma StatusRecord(w: World, id: Id, on: Option<EdgeRef>, distance: Option<real>, now: real)
    requires id in w.trains
    ensures var o, t := Status(w, id, on, distance, now), Headed(w.trains[id], on);
            id in o.w.trains
            && if DwellOver(t, now) then Planned(t.(dwellUntil := None), o.w.trains[id])
               else if Point(t) || on.None? || distance.None? then o == Out(Put(w, id, t), [])
               else Moved(t, o.w.trains[id])
  {
    hide AdvanceAndReplan, Retry, ClearedByTail, AllMoved, PlannedIn;
    var t := Headed(w.trains[id], on);
    var w1 := Put(Put(w, id, t), id, t.(dwellUntil := None));
    AdvanceOwn(w1, id, w.stack);
    PlannedMeans(w1, id, Settled(AdvanceAndReplan(w1, id, w.stack)).w);
    if on.Some? && distance.Some? {
      var w2 := Put(Put(w, id, t), id, t.(held := Release(t.held, HeldSet(ClearedByTail(w.layout, t, on.value,
                                                                                         distance.value)))));
      RetryMoves(w2, None);
      OneMoved(w2, Retry(w2, None).w, id);
    }
  }

  /** After the dwell the schedule is turned on by at least one stop, as far as the call stack allows. */
  lemma DwellTurns(w: World, id: Id, on: Option<EdgeRef>, distance: Option<real>, now: real) returns (k: nat)
    requires id in w.trains && DwellOver(Headed(w.trains[id], on), now) && w.trains[id].schedule.Some?
    ensures var o := Status(w, id, on, distance, now);
            id in o.w.trains && o.w.trains[id].dwellUntil.None?
            && o.w.trains[id].schedule == Some(Forward(w.trains[id].schedule.value, k)) && 0 < k <= w.stack + 1
  {
    hide AdvanceAndReplan, PlannedIn, Forward;
    var t := Headed(w.trains[id], on);
    var w1 := Put(Put(w, id, t), id, t.(dwellUntil := None));
    AdvanceOwn(w1, id, w.stack);
    PlannedMeans(w1, id, Settled(AdvanceAndReplan(w1, id, w.stack)).w);
    k := AdvanceTurns(w1, id, w.stack);
  }

  lemma {:induction false} AdvanceTurns(w: World, id: Id, budget: nat) returns (k: nat)
    requires id in w.trains && w.trains[id].schedule.Some?
    ensures id in Settled(AdvanceAndReplan(w, id, budget)).w.trains
    ensures 0 < k <= budget + 1
            && Settled(AdvanceAndReplan(w, id, budget)).w.trains[id].schedule
               == Some(Forward(w.trains[id].schedule.value, k))
    decreases budget, 0
  {
    hide PlanAndExecute, PlannedIn, Next;
    var s := w.trains[id].schedule.value;
    var moved := Put(w, id, w.trains[id].(schedule := Some(Next(s))));
    if budget == 0 {
      k := 1;
      assert Forward(s, 1) == Forward(Next(s), 0);
    } else {
      PlanOwn(moved, id, budget - 1);
      PlannedMeans(moved, id, Settled(PlanAndExecute(moved, id, budget - 1)).w);
      k := PlanTurns(moved, id, budget - 1);
      k := k + 1;
    }
  }

  lemma {:induction false} PlanTurns(w: World, id: Id, budget: nat) returns (k: nat)
    requires id in w.trains && w.trains[id].schedule.Some?
    ensures id in Settled(PlanAndExecute(w, id, budget)).w.trains
    ensures k <= budget + 1
            && Settled(PlanAndExecute(w, id, budget)).w.trains[id].schedule
               == Some(Forward(w.trains[id].schedule.value, k))
    decreases budget, 1
  {
    hide Route, AdvanceAndReplan, PlannedIn;
    var t := w.trains[id];
    var s := t.schedule.value;
    if t.last.Some? && t.last.value == StopOf(s) && |s.stops| > 1 {
      k := AdvanceTurns(w, id, budget);
    } else {
      k := 0;
      if t.last.Some? && t.last.value != StopOf(s) {
        RouteKeepsSchedule(w, id, StopOf(s));
      }
    }
  }

  lemma RouteKeepsSchedule(w: World, id: Id, target: Marker)
    requires id in w.trains && w.trains[id].last.Some? && w.trains[id].schedule.Some?
    ensures id in Route(w, id, target).w.trains && Route(w, id, target).w.trains[id].schedule == w.trains[id].schedule
  {
    hide Extend, Retry, Planner.PlanTransit, CanReverseTrain, AllMoved;
    var t := w.trains[id];
    var plan := Planner.PlanTransit(w.layout, t.last.value, target, HeadingOf(t));
    if plan.Some? && plan.value != [] {
      var t' := t.(transit := Some(Transit(plan.value, 0)), limit := Some(plan.value[0].from));
      var granted := Extend(Put(w, id, t'), id).w;
      ExtendMoves(Put(w, id, t'), id);
      RetryMoves(granted, None);
      MovedTwice(Put(w, id, t'), granted, Retry(granted, None).w);
      OneMoved(Put(w, id, t'), Retry(granted, None).w, id);
    }
  }
}
