/** Whether an input that empties a train's list silently goes on to show the train again, told beforehand. */
module Silence {
  import opened Rail
  import opened World
  import opened Clearance
  import opened Standoff
  import opened Handlers
  import opened HandlerPlays
  import opened Frames
  import opened Published
  import Replanning

  /** One of the three gates is closed to an edge; none of them looks at the train's own record. */
  predicate Refused(w: World, id: Id, e: EdgeRef) {
    Conflicts(w, id, e) || SwitchMismatch(w.layout, e) || Denied(w.devices, e.to)
  }

  predicate ShownIn(fx: seq<Effect>, id: Id) {
    exists x <- fx :: ShowsTrain(x, id)
  }

  /** A detected standoff nobody can resolve, or none. */
  predicate NobodyGivesWay(w: World) {
    var cycle := Detect(w.order, w.trains);
    cycle.None? || (YieldStep(w, cycle.value).None? && ReverseStep(w, cycle.value).None?)
  }

  // ---------- who is shown ----------

  lemma {:induction false} WalkShows(w: World, o: Id, edges: seq<EdgeRef>, i: nat, granted: nat, ms: real, id: Id)
    requires o in w.trains && o != id
    ensures !ShownIn(Walk(w, o, edges, i, granted, ms).fx, id)
    decreases |edges| - i
  {
    hide Conflicts, SwitchMismatch, Denied, EdgeMs, HoldsEdge, HasGrant;
    if i < |edges| && !HorizonSatisfied(granted, ms) {
      var more := ms + EdgeMs(w.layout, o, edges[i]);
      if HoldsEdge(w.trains[o].held, edges[i]) {
        WalkShows(w, o, edges, i + 1, granted + 1, more, id);
      } else {
        var g := TryGrant(w, o, edges[i]);
        WalkShows(g.w, o, edges, i + 1, granted + 1, more, id);
      }
    }
  }

  /** The next edge of a train's route, when it does not hold it. */
  ghost predicate Seeks(t: Train, e: EdgeRef) {
    && t.transit.Some? && t.transit.value.progress < |t.transit.value.edges|
    && t.transit.value.edges[t.transit.value.progress] == e && !HoldsEdge(t.held, e)
  }

  lemma ExtendsAsGranted(w: World, id: Id, e: EdgeRef)
    requires id in w.trains && Seeks(w.trains[id], e)
    ensures Refused(w, id, e) ==> var o := Extend(w, id); !ShownIn(o.fx, id) && o.w.trains == w.trains
    ensures !Refused(w, id, e) ==> ShownIn(Extend(w, id).fx, id)
  {
    hide Conflicts, SwitchMismatch, Denied, EdgeMs, HoldsEdge;
    var tr := w.trains[id].transit.value;
    var g := TryGrant(w, id, e);
    if Refused(w, id, e) {
      assert !HasGrant(g.fx);
    } else {
      assert g.fx[0] == Send(id, GrantClearance(e.to, [e])) && HasGrant(g.fx);
      assert ShowsTrain(g.fx[1], id);
      assert g.fx[1] in Extend(w, id).fx;
    }
  }

  lemma StillRefused(w: World, w': World, id: Id, e: EdgeRef, except: set<Id>)
    requires Refused(w, id, e) && GrewAll(w, w', except)
    ensures Refused(w', id, e)
  {
    hide SwitchMismatch, Denied, TouchesAny;
    if o :| o in w.trains && o != id && TouchesAny(w.trains[o].held, e) {
      assert Grew(w.trains[o], w'.trains[o]);
      HeldStays(w.trains[o].held, w'.trains[o].held, e);
    }
  }

  lemma HeldStays(a: seq<Held>, b: seq<Held>, e: EdgeRef)
    requires a <= b && TouchesAny(a, e)
    ensures TouchesAny(b, e)
  {
    var h :| h in a && Touches(h.edge, e);
    assert h in b;
  }

  lemma ExtendShows(w: World, o: Id, id: Id)
    requires o in w.trains && o != id
    ensures !ShownIn(Extend(w, o).fx, id)
  {
    var transit := w.trains[o].transit;
    if transit.Some? {
      WalkShows(w, o, transit.value.edges, transit.value.progress, 0, 0.0, id);
    }
  }

  /** One train's turn in a pass, whichever train it is, leaves a refused one refused and unshown. */
  lemma TurnPasses(w: World, o: Id, id: Id, e: EdgeRef)
    requires o in w.trains && id in w.trains && Seeks(w.trains[id], e) && Refused(w, id, e)
    ensures var first := Extend(w, o);
            && id in first.w.trains && first.w.trains.Keys == w.trains.Keys
            && Seeks(first.w.trains[id], e) && Refused(first.w, id, e) && !ShownIn(first.fx, id)
  {
    hide Refused, Extend, Seeks, ShownIn, Grew;
    if o == id {
      ExtendGrows(w, o, {});
      StillRefused(w, Extend(w, o).w, id, e, {});
      ExtendsAsGranted(w, id, e);
    } else {
      ExtendGrows(w, o, {id});
      StillRefused(w, Extend(w, o).w, id, e, {id});
      ExtendShows(w, o, id);
    }
  }

  /** A pass does not show a train whose next edge is refused. */
  lemma {:induction false} PassOver(w: World, ids: seq<Id>, id: Id, e: EdgeRef)
    requires id in w.trains && Seeks(w.trains[id], e) && Refused(w, id, e) && forall i <- ids :: i in w.trains
    ensures !ShownIn(RetryEach(w, ids, {}).fx, id)
    decreases |ids|
  {
    hide Refused, Extend, Seeks, ShowsTrain;
    if ids == [] {
    } else {
      TurnPasses(w, ids[0], id, e);
      PassOver(Extend(w, ids[0]).w, ids[1..], id, e);
    }
  }

  /** Nor does the whole pass, unless somebody gives way at its end. */
  lemma RetryPassesOver(w: World, id: Id, e: EdgeRef)
    requires id in w.trains && Seeks(w.trains[id], e) && Refused(w, id, e) && NobodyGivesWay(ServedAll(w))
    ensures !ShownIn(Retry(w, None).fx, id)
  {
    hide Refused, Seeks, Detect, YieldStep, ReverseStep, RetryEach, Ordered;
    PassOver(w, Ordered(w), id, e);
    assert Resolve(ServedAll(w), None) == EmitDeadlock(ServedAll(w), Detect(ServedAll(w).order, ServedAll(w).trains));
  }

  // ---------- departures ----------

  /** The train put on its leg, before anything is granted. */
  function Placed(w: World, id: Id, way: seq<EdgeRef>): World
    requires id in w.trains && way != []
  {
    Put(w, id, w.trains[id].(transit := Some(Transit(way, 0)), limit := Some(way[0].from)))
  }

  /** A train that departs holding nothing is shown exactly when the first edge of its leg is not refused. */
  lemma DepartShowsIff(w: World, id: Id, way: seq<EdgeRef>)
    requires id in w.trains && w.trains[id].schedule.Some? && way != [] && w.trains[id].held == []
    requires NobodyGivesWay(ServedAll(Extend(Placed(w, id, way), id).w))
    ensures ShownIn(Depart(w, id, way).fx, id) <==> !Refused(w, id, way[0])
  {
    hide Extend, Retry, ServedAll, Refused, NobodyGivesWay;
    var placed := Placed(w, id, way);
    var granted := Extend(placed, id);
    RefusedAlike(w, placed, id, way[0]);
    assert Seeks(placed.trains[id], way[0]);
    ExtendsAsGranted(placed, id, way[0]);
    if Refused(w, id, way[0]) {
      ExtendGrows(placed, id, {});
      StillRefused(placed, granted.w, id, way[0], {});
      RetryPassesOver(granted.w, id, way[0]);
    }
  }

  lemma RefusedAlike(w: World, w': World, id: Id, e: EdgeRef)
    requires w'.layout == w.layout && w'.devices == w.devices && w'.trains.Keys == w.trains.Keys
    requires forall o <- w.trains :: o != id && o in w'.trains ==> w'.trains[o] == w.trains[o]
    ensures Refused(w, id, e) <==> Refused(w', id, e)
  {
    hide SwitchMismatch, Denied, TouchesAny;
  }

  // ---------- the silent inputs ----------

  /** The state in which an accepted assignment starts to plan. */
  function Accepted(w: World, id: Id, route: string, stops: seq<Marker>): (r: World)
    requires id in w.trains && stops != []
    ensures id in r.trains && r.trains[id].held == []
  {
    Put(w, id, Assigned(w.trains[id], route, stops))
  }

  /** Where the grant loop of a departure leaves everybody, before a standoff is looked for. */
  function Tried(w: World, id: Id): World
    requires id in w.trains
  {
    var way := Replanning.Leaves(w, id, w.stack);
    if way.None? then w
    else ServedAll(Extend(Placed(Replanning.Pointed(w, id, Replanning.Turned(w.trains[id], w.stack).value), id,
                                 way.value), id).w)
  }

  /** A plan that may leave shows the train when the first edge is free, and only then unless somebody gives way. */
  lemma PlanShows(w: World, id: Id)
    requires id in w.trains && w.trains[id].held == []
    ensures var way, fx := Replanning.Leaves(w, id, w.stack), Settled(PlanAndExecute(w, id, w.stack)).fx;
            if way.None? then !ShownIn(fx, id)
            else if Refused(w, id, way.value[0]) then NobodyGivesWay(Tried(w, id)) ==> !ShownIn(fx, id)
            else ShownIn(fx, id)
  {
    hide PlanAndExecute, Replanning.Leaves, Replanning.Turned, Replanning.Pointed, Depart, Refused, NobodyGivesWay,
         ServedAll, Extend;
    Replanning.PlanForeseen(w, id, w.stack);
    var way := Replanning.Leaves(w, id, w.stack);
    var a := PlanAndExecute(w, id, w.stack);
    if a.Returned? && way.Some? {
      var s := Replanning.Turned(w.trains[id], w.stack).value;
      var w1 := Replanning.Pointed(w, id, s);
      var fx :| Replanning.OnlyTells(fx) && a.out == Then(Out(w1, fx), Depart(w1, id, way.value));
      PointedAlike(w, id, s);
      RefusedAlike(w, w1, id, way.value[0]);
      FreeIsShown(w1, id, way.value);
      if NobodyGivesWay(Tried(w, id)) {
        DepartShowsIff(w1, id, way.value);
      }
      assert ShownIn(a.out.fx, id) <==> ShownIn(Depart(w1, id, way.value).fx, id);
    }
  }

  lemma PointedAlike(w: World, id: Id, s: Schedule)
    requires id in w.trains
    ensures var w1 := Replanning.Pointed(w, id, s);
            && w1.layout == w.layout && w1.devices == w.devices && w1.trains.Keys == w.trains.Keys
            && (forall o <- w.trains :: o != id && o in w1.trains ==> w1.trains[o] == w.trains[o])
            && w1.trains[id].schedule.Some? && w1.trains[id].held == w.trains[id].held
  {
  }

  lemma FreeIsShown(w: World, id: Id, way: seq<EdgeRef>)
    requires id in w.trains && w.trains[id].schedule.Some? && way != [] && w.trains[id].held == []
    ensures !Refused(w, id, way[0]) ==> ShownIn(Depart(w, id, way).fx, id)
  {
    hide Extend, Retry, Refused;
    var placed := Placed(w, id, way);
    RefusedAlike(w, placed, id, way[0]);
    assert Seeks(placed.trains[id], way[0]);
    ExtendsAsGranted(placed, id, way[0]);
  }

  /** What an input that empties a train silently goes on to show of it, told beforehand. */
  ghost predicate ShownAsForeseen(w: World, i: Input, id: Id, fx: seq<Effect>)
    requires id in w.trains && (i.AssignSchedule? ==> i.stops != [])
  {
    if !i.AssignSchedule? then !ShownIn(fx, id)
    else
      var w1 := Accepted(w, id, i.route, i.stops);
      var way := Replanning.Leaves(w1, id, w.stack);
      if way.None? then !ShownIn(fx, id)
      else if Refused(w, id, way.value[0]) then NobodyGivesWay(Tried(w1, id)) ==> !ShownIn(fx, id)
      else ShownIn(fx, id)
  }

  lemma AssignForeseen(w: World, id: Id, route: string, stops: seq<Marker>)
    requires id in w.trains && stops != [] && UnknownStopsOf(w.layout, stops) == []
    ensures ShownAsForeseen(w, AssignSchedule(id, route, stops), id, Assign(w, id, route, stops).fx)
  {
    hide PlanAndExecute, Replanning.Leaves, Refused, NobodyGivesWay, Tried, UnknownStopsOf;
    var w1 := Accepted(w, id, route, stops);
    var way := Replanning.Leaves(w1, id, w.stack);
    PlanShows(w1, id);
    if way.Some? {
      RefusedAlike(w, w1, id, way.value[0]);
    }
    var shown := Show(ScheduleOf(id, w1.trains[id].schedule));
    assert !ShowsTrain(shown, id);
    FirstUnshown(shown, PlanAndExecute(w1, id, w.stack), id);
  }

  lemma FirstUnshown(x: Effect, a: Attempt, id: Id)
    requires !ShowsTrain(x, id)
    ensures ShownIn(Settled(Prefixed([x], a)).fx, id) <==> ShownIn(Settled(a).fx, id)
  {
    hide ShowsTrain;
    if a.Returned? {
      assert forall y :: y in [x] + a.out.fx <==> y == x || y in a.out.fx;
    }
  }

  /** A recovery that fails shows nothing. */
  lemma RecoveryShowsNothing(w: World, i: Input, id: Id)
    requires Silenced(w, i) == Some(id) && (i.Reanchor? || i.ConfirmNewTrack?)
    ensures Step(w, i).fx == [] && w.trains[id].blocked
  {
    hide Resume, Replanning.Fails, Uncertain;
    if i.Reanchor? {
      Replanning.ResumeFailsIff(Put(w, id, Recovered(w.trains[id], i.marker)), id);
    } else {
      Replanning.ResumeFailsIff(LearnedTrack(w, id, Uncertain(w.layout, w.trains[id].held).value), id);
    }
  }

  lemma SilentIsForeseen(w: World, i: Input, id: Id)
    requires Silenced(w, i) == Some(id)
    ensures i.AssignSchedule? ==> i.stops != []
    ensures ShownAsForeseen(w, i, id, Step(w, i).fx)
    ensures !i.AssignSchedule? ==> w.trains[id].blocked
  {
    hide ShownAsForeseen, Assign;
    if i.AssignSchedule? {
      AssignForeseen(w, id, i.route, i.stops);
    } else {
      RecoveryShowsNothing(w, i, id);
      NothingForeseen(w, i, id);
    }
  }

  lemma NothingForeseen(w: World, i: Input, id: Id)
    requires id in w.trains && !i.AssignSchedule?
    ensures ShownAsForeseen(w, i, id, [])
  {
  }

  /**
   * What is published of a silently emptied train afterwards, told from the state before: it is wrong after every
   * recovery that fails; after an assignment it is right if the train held nothing and was not blocked, or the leg
   * it leaves on begins with an edge no gate refuses it; and otherwise it is wrong, unless a standoff the departure
   * runs into makes somebody give way.
   */
  lemma SilenceForeseen(w: World, i: Input, seen: map<Id, Shown>, stale: set<Id>, id: Id)
    requires Mirrors(seen, stale, w) && Seen(seen, id) == Actual(w, id) && Silenced(w, i) == Some(id)
    ensures var o := Step(w, i);
            var right := Seen(Replay(seen, o.fx), id) == Actual(o.w, id);
            var idle := w.trains[id].held == [] && !w.trains[id].blocked;
            if !i.AssignSchedule? then !right
            else
              && i.stops != []
              && var w1 := Accepted(w, id, i.route, i.stops);
                 var way := Replanning.Leaves(w1, id, w.stack);
                 var granted := way.Some? && !Refused(w, id, way.value[0]);
                 && (idle || granted ==> right)
                 && (way.None? || NobodyGivesWay(Tried(w1, id)) ==> right ==> idle || granted)
  {
    hide Step, Silenced, Mirrors, Replay, Refused, NobodyGivesWay, Tried, Accepted, ShowsTrain, Replanning.Leaves;
    SilenceIff(w, i, seen, stale, id);
    SilentIsForeseen(w, i, id);
  }
}
