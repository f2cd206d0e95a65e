/** What a train brings along, its priority and its place in the roster, through every input and over whole runs. */
module Standing {
  import opened Rail
  import opened LayoutModel
  import opened Gates
  import opened World
  import opened Ranking
  import opened Clearance
  import opened Standoff
  import opened Handlers
  import opened Frames
  import Planner

  // ---------- what a pass may do to a train ----------

  /** What a train holds, where its head is taken to be and its limit may have changed; nothing else has. */
  ghost predicate Moved(t: Train, t': Train) {
    t' == t.(held := t'.held, last := t'.last, limit := t'.limit)
  }

  /** Nothing but that has happened to trains, and no table but the requests and the published deadlock has changed. */
  ghost predicate AllMoved(w: World, w': World) {
    && w'.trains.Keys == w.trains.Keys
    && w' == w.(trains := w'.trains, requested := w'.requested, deadlock := w'.deadlock, clock := w'.clock)
    && (forall o :: o in w.trains && o in w'.trains ==> Moved(w.trains[o], w'.trains[o]))
  }

  lemma GrewMoved(w: World, w': World, except: set<Id>)
    requires GrewAll(w, w', except)
    ensures AllMoved(w, w')
  {
    forall o | o in w.trains && o in w'.trains ensures Moved(w.trains[o], w'.trains[o]) {
      assert Grew(w.trains[o], w'.trains[o]);
    }
  }

  lemma MovedTwice(a: World, b: World, c: World)
    requires AllMoved(a, b) && AllMoved(b, c)
    ensures AllMoved(a, c)
  {
    forall o | o in a.trains && o in c.trains ensures Moved(a.trains[o], c.trains[o]) {
      assert o in b.trains && Moved(a.trains[o], b.trains[o]) && Moved(b.trains[o], c.trains[o]);
    }
  }

  lemma ExtendMoves(w: World, id: Id)
    requires id in w.trains
    ensures AllMoved(w, Extend(w, id).w)
  {
    hide Extend, GrewAll, AllMoved;
    ExtendGrows(w, id, {});
    GrewMoved(w, Extend(w, id).w, {});
  }

  lemma YieldMoves(w: World, cycle: seq<Id>)
    requires YieldStep(w, cycle).Some?
    ensures AllMoved(w, YieldStep(w, cycle).value.1.w)
  {
    hide LowestOf, PeerWanted, Yieldable, TouchesAny;
  }

  lemma ReverseMoves(w: World, cycle: seq<Id>)
    requires ReverseStep(w, cycle).Some?
    ensures AllMoved(w, ReverseStep(w, cycle).value.1.w)
  {
    hide ReverseFirst, Candidates;
  }

  lemma RegrantMoves(w: World, id: Id, gave: Out)
    requires AllMoved(w, gave.w)
    ensures AllMoved(w, Regrant(id, gave).w)
  {
    hide Retry, GrewAll, AllMoved;
    SkippingPassGrows(gave.w, {id});
    GrewMoved(gave.w, Retry(gave.w, Some({id})).w, {id});
    MovedTwice(w, gave.w, Retry(gave.w, Some({id})).w);
  }

  lemma EmitMoves(w: World, cycle: Option<seq<Id>>)
    ensures AllMoved(w, EmitDeadlock(w, cycle).w)
  {
    hide SortText;
  }

  lemma ResolveMoves(w: World, skip: Option<set<Id>>)
    ensures AllMoved(w, Resolve(w, skip).w)
  {
    hide Detect, YieldStep, ReverseStep, EmitDeadlock, Regrant, AllMoved;
    var cycle := Detect(w.order, w.trains);
    EmitMoves(w, cycle);
    if cycle.Some? && skip.None? {
      if YieldStep(w, cycle.value).Some? {
        YieldMoves(w, cycle.value);
        RegrantMoves(w, YieldStep(w, cycle.value).value.0, YieldStep(w, cycle.value).value.1);
      } else if ReverseStep(w, cycle.value).Some? {
        ReverseMoves(w, cycle.value);
        RegrantMoves(w, ReverseStep(w, cycle.value).value.0, ReverseStep(w, cycle.value).value.1);
      }
    }
  }

  /** A retry pass moves trains and limits and grants or takes back edges; it changes nothing else about any train. */
  lemma RetryMoves(w: World, skip: Option<set<Id>>)
    ensures AllMoved(w, Retry(w, skip).w)
  {
    hide RetryEach, Resolve, Ordered, GrewAll, AllMoved;
    var left := if skip.Some? then skip.value else {};
    var pass := RetryEach(w, Ordered(w), left);
    RetryEachGrows(w, Ordered(w), left);
    GrewMoved(w, pass.w, left);
    ResolveMoves(pass.w, skip);
    MovedTwice(w, pass.w, Resolve(pass.w, skip).w);
  }

  // ---------- what an input about one train does to the others ----------

  /** The train has kept its rank and its priority, and no topology hold has been put on it. */
  ghost predicate Stands(t: Train, t': Train) {
    t'.rank == t.rank && t'.priority == t.priority && (t'.blocked ==> t.blocked)
  }

  /** The roster is as it was, the train stands where it stood, and the others were at most moved. */
  ghost predicate OnlyConcerns(w: World, w': World, id: Id) {
    && w'.trains.Keys == w.trains.Keys
    && w' == w.(trains := w'.trains, layout := w'.layout, devices := w'.devices, requested := w'.requested,
                deadlock := w'.deadlock, clock := w'.clock)
    && (forall o :: o in w.trains && o in w'.trains && o != id ==> Moved(w.trains[o], w'.trains[o]))
    && (id in w.trains && id in w'.trains ==> Stands(w.trains[id], w'.trains[id]))
  }

  lemma SameConcerns(w: World, w': World, id: Id)
    requires w'.trains == w.trains
    requires w' == w.(layout := w'.layout, devices := w'.devices, requested := w'.requested, deadlock := w'.deadlock,
                      clock := w'.clock)
    ensures OnlyConcerns(w, w', id)
  {
  }

  lemma PutConcerns(w: World, id: Id, t: Train)
    requires id in w.trains && Stands(w.trains[id], t)
    ensures OnlyConcerns(w, Put(w, id, t), id)
  {
  }

  lemma ConcernsTwice(a: World, b: World, c: World, id: Id)
    requires OnlyConcerns(a, b, id) && OnlyConcerns(b, c, id)
    ensures OnlyConcerns(a, c, id)
  {
    forall o | o in a.trains && o in c.trains && o != id ensures Moved(a.trains[o], c.trains[o]) {
      assert o in b.trains && Moved(a.trains[o], b.trains[o]) && Moved(b.trains[o], c.trains[o]);
    }
  }

  lemma ThenMoves(a: World, b: World, c: World, id: Id)
    requires OnlyConcerns(a, b, id) && AllMoved(b, c)
    ensures OnlyConcerns(a, c, id)
  {
    MovedConcerns(b, c, id);
    hide OnlyConcerns, AllMoved;
    ConcernsTwice(a, b, c, id);
  }

  lemma MovedConcerns(w: World, w': World, id: Id)
    requires AllMoved(w, w')
    ensures OnlyConcerns(w, w', id)
  {
  }

  lemma ThenRetryConcerns(a: World, b: World, skip: Option<set<Id>>, id: Id)
    requires OnlyConcerns(a, b, id)
    ensures OnlyConcerns(a, Retry(b, skip).w, id)
  {
    hide Retry, OnlyConcerns, AllMoved;
    RetryMoves(b, skip);
    ThenMoves(a, b, Retry(b, skip).w, id);
  }

  // ---------- planning ----------

  lemma DepartConcerns(w: World, id: Id, edges: seq<EdgeRef>)
    requires id in w.trains && w.trains[id].schedule.Some? && edges != []
    ensures OnlyConcerns(w, Depart(w, id, edges).w, id)
  {
    hide Extend, Retry, OnlyConcerns, AllMoved;
    var t := w.trains[id];
    var t' := t.(transit := Some(Transit(edges, 0)), limit := Some(edges[0].from));
    PutConcerns(w, id, t');
    ExtendMoves(Put(w, id, t'), id);
    ThenMoves(w, Put(w, id, t'), Extend(Put(w, id, t'), id).w, id);
    ThenRetryConcerns(w, Extend(Put(w, id, t'), id).w, None, id);
  }

  lemma {:induction false} PlanConcerns(w: World, id: Id, budget: nat)
    requires id in w.trains
    ensures OnlyConcerns(w, Settled(PlanAndExecute(w, id, budget)).w, id)
    decreases budget, 1
  {
    hide Depart, Planner.PlanTransit, OnlyConcerns;
    SameConcerns(w, w, id);
    var t := w.trains[id];
    if t.schedule.Some? && t.last.Some? {
      var s := t.schedule.value;
      if t.last.value != StopOf(s) {
        var plan := Planner.PlanTransit(w.layout, t.last.value, StopOf(s), HeadingOf(t));
        if plan.Some? && plan.value != [] {
          DepartConcerns(w, id, plan.value);
        }
      } else if |s.stops| > 1 {
        AdvanceConcerns(w, id, budget);
      } else {
        PutConcerns(w, id, t.(transit := None, limit := t.last));
      }
    }
  }

  lemma {:induction false} AdvanceConcerns(w: World, id: Id, budget: nat)
    requires id in w.trains
    ensures OnlyConcerns(w, Settled(AdvanceAndReplan(w, id, budget)).w, id)
    decreases budget, 0
  {
    hide PlanAndExecute, OnlyConcerns;
    SameConcerns(w, w, id);
    var t := w.trains[id];
    if t.schedule.Some? {
      var moved := Put(w, id, t.(schedule := Some(Next(t.schedule.value))));
      PutConcerns(w, id, moved.trains[id]);
      if budget > 0 {
        PlanConcerns(moved, id, budget - 1);
        ConcernsTwice(w, moved, Settled(PlanAndExecute(moved, id, budget - 1)).w, id);
      }
    }
  }

  lemma ResumeConcerns(w: World, id: Id)
    requires id in w.trains
    ensures OnlyConcerns(w, Settled(Resume(w, id)).w, id)
  {
    hide PlanAndExecute, Retry, OnlyConcerns;
    SameConcerns(w, w, id);
    ThenRetryConcerns(w, w, None, id);
    PlanConcerns(w, id, w.stack);
    ThenRetryConcerns(w, Settled(PlanAndExecute(w, id, w.stack)).w, None, id);
  }

  lemma FromPut(w: World, id: Id, t: Train, w': World)
    requires id in w.trains && Stands(w.trains[id], t) && OnlyConcerns(Put(w, id, t), w', id)
    ensures OnlyConcerns(w, w', id)
  {
    hide OnlyConcerns;
    PutConcerns(w, id, t);
    ConcernsTwice(w, Put(w, id, t), w', id);
  }

  // ---------- events of one train ----------

  lemma ArriveStands(t: Train, m: Marker, now: real)
    ensures Stands(t, Arrive(t, m, now)) && Arrive(t, m, now).blocked == t.blocked
  {
  }

  lemma DiscoverConcerns(w: World, e: Option<EdgeRef>, o: Id, now: real, id: Id)
    ensures OnlyConcerns(w, Discover(w, e, o, now).w, id) && Discover(w, e, o, now).w.trains == w.trains
  {
    hide RecordTraversal;
  }

  lemma PassConcerns(w: World, id: Id, m: Marker, now: real)
    requires id in w.trains
    ensures OnlyConcerns(w, Pass(w, id, m, now).w, id)
    ensures id in Pass(w, id, m, now).w.trains && Moved(Arrive(w.trains[id], m, now), Pass(w, id, m, now).w.trains[id])
  {
    hide Extend, Retry, Discover, Discovering, Arrive, OnlyConcerns, AllMoved, Completed;
    var t, t' := w.trains[id], Arrive(w.trains[id], m, now);
    ArriveStands(t, m, now);
    var learned := Discover(Put(w, id, t'), Completed(t.last, m), id, now).w;
    DiscoverConcerns(Put(w, id, t'), Completed(t.last, m), id, now, id);
    FromPut(w, id, t', learned);
    var granted := Extend(learned, id).w;
    ExtendMoves(learned, id);
    RetryMoves(granted, None);
    MovedTwice(learned, granted, Retry(granted, None).w);
    ThenMoves(w, learned, Retry(granted, None).w, id);
    OneMoved(learned, Retry(granted, None).w, id);
  }

  lemma OneMoved(w: World, w': World, id: Id)
    requires AllMoved(w, w') && id in w.trains
    ensures id in w'.trains && Moved(w.trains[id], w'.trains[id])
  {
  }

  /** A train as a zone's throat suspends it. */
  function Suspended(t: Train, m: Marker): Train {
    t.(last := Some(m), inZone := Some(m), transit := None, zoneEntry := t.current, current := None, limit := Some(m),
       held := [])
  }

  lemma EnterConcerns(w: World, id: Id, m: Marker)
    requires id in w.trains
    ensures var w' := EnterZone(Put(w, id, w.trains[id].(last := Some(m), zoneEntry := None)), id, m).w;
            OnlyConcerns(w, w', id) && id in w'.trains && Moved(Suspended(w.trains[id], m), w'.trains[id])
  {
    hide Retry, OnlyConcerns, AllMoved;
    var t := w.trains[id];
    var parked := Put(Put(w, id, t.(last := Some(m), zoneEntry := None)), id, Suspended(t, m));
    assert parked == Put(w, id, Suspended(t, m)) by {
      assert w.trains[id := t.(last := Some(m), zoneEntry := None)][id := Suspended(t, m)]
          == w.trains[id := Suspended(t, m)];
    }
    PutConcerns(w, id, Suspended(t, m));
    ThenRetryConcerns(w, parked, None, id);
    RetryMoves(parked, None);
    OneMoved(parked, Retry(parked, None).w, id);
  }

  /** The same state without the hold on one train. */
  function Unheld(w: World, id: Id): World
    requires id in w.trains
  {
    Put(w, id, w.trains[id].(blocked := false))
  }

  /** A hold changes, besides the train's hold itself, only what an input about it may. */
  lemma HoldConcerns(w: World, id: Id, m: Marker, now: real)
    requires id in w.trains && w.trains[id].last.Some?
    ensures var w' := HoldAt(w, id, m, now).w;
            id in w'.trains && w'.trains[id].blocked && OnlyConcerns(w, Unheld(w', id), id)
  {
    hide HasIncidentEdges, HoldsEdge;
  }

  /** The report that holds a train. */
  predicate HoldsUp(w: World, id: Id, m: Marker) {
    id in w.trains && w.trains[id].inZone.None? && Violates(w, w.trains[id], m)
  }

  lemma MarkerConcerns(w: World, id: Id, m: Marker, now: real)
    ensures var w' := AtMarker(w, id, m, now).w;
            if HoldsUp(w, id, m) then id in w'.trains && w'.trains[id].blocked && OnlyConcerns(w, Unheld(w', id), id)
            else OnlyConcerns(w, w', id)
  {
    hide Violates, EntersZone, HoldAt, EnterZone, Pass, OnlyConcerns, AllMoved, Unheld;
    SameConcerns(w, w, id);
    if id in w.trains && w.trains[id].inZone.None? {
      if Violates(w, w.trains[id], m) {
        ViolatesHasLast(w, w.trains[id], m);
        HoldConcerns(w, id, m, now);
      } else {
        EnterConcerns(w, id, m);
        PassConcerns(w, id, m, now);
      }
    }
  }

  lemma ViolatesHasLast(w: World, t: Train, m: Marker)
    requires Violates(w, t, m)
    ensures t.last.Some?
  {
  }

  lemma StatusConcerns(w: World, id: Id, on: Option<EdgeRef>, distance: Option<real>, now: real)
    ensures OnlyConcerns(w, Status(w, id, on, distance, now).w, id)
  {
    hide AdvanceAndReplan, Retry, ClearedByTail, OnlyConcerns;
    SameConcerns(w, w, id);
    if id in w.trains {
      var t := Seeded(w.trains[id], on);
      var w1 := Put(w, id, t);
      PutConcerns(w, id, t);
      var rested := t.(dwellUntil := None);
      PutConcerns(w1, id, rested);
      ConcernsTwice(w, w1, Put(w1, id, rested), id);
      AdvanceConcerns(Put(w1, id, rested), id, w.stack);
      ConcernsTwice(w, Put(w1, id, rested), Settled(AdvanceAndReplan(Put(w1, id, rested), id, w.stack)).w, id);
      if on.Some? && distance.Some? {
        var t' := t.(held := Release(t.held, HeldSet(ClearedByTail(w.layout, t, on.value, distance.value))));
        PutConcerns(w1, id, t');
        ConcernsTwice(w, w1, Put(w1, id, t'), id);
        ThenRetryConcerns(w, Put(w1, id, t'), None, id);
      }
    }
  }

  lemma ReleaseConcerns(w: World, d: Id, zone: Marker, id: Id)
    ensures OnlyConcerns(w, ReleaseFromZone(w, d, zone, id).w, id)
  {
    hide AdvanceAndReplan, Retry, OnlyConcerns;
    SameConcerns(w, w, id);
    if id in w.trains {
      var t := w.trains[id].(inZone := None);
      PutConcerns(w, id, t);
      AdvanceConcerns(Put(w, id, t), id, w.stack);
      FromPut(w, id, t, Settled(AdvanceAndReplan(Put(w, id, t), id, w.stack)).w);
      ThenRetryConcerns(w, Put(w, id, t), None, id);
    }
  }

  lemma AssignConcerns(w: World, id: Id, route: string, stops: seq<Marker>)
    ensures OnlyConcerns(w, Assign(w, id, route, stops).w, id)
  {
    hide PlanAndExecute, UnknownStopsOf, OnlyConcerns;
    SameConcerns(w, w, id);
    if id in w.trains && stops != [] {
      var t := Assigned(w.trains[id], route, stops);
      PlanConcerns(Put(w, id, t), id, w.stack);
      FromPut(w, id, t, Settled(PlanAndExecute(Put(w, id, t), id, w.stack)).w);
    }
  }

  lemma RevokeConcerns(w: World, id: Id)
    ensures OnlyConcerns(w, RevokeTrain(w, id).w, id)
  {
    hide Retry, OnlyConcerns;
    SameConcerns(w, w, id);
    if id in w.trains {
      var t := w.trains[id];
      var t' := t.(held := [], limit := if t.last.Some? then t.last else t.limit, blocked := false);
      PutConcerns(w, id, t');
      ThenRetryConcerns(w, Put(w, id, t'), Some({id}), id);
    }
  }

  lemma ReanchorConcerns(w: World, id: Id, m: Marker)
    ensures OnlyConcerns(w, ReanchorAt(w, id, m).w, id)
  {
    hide Resume, OnlyConcerns;
    SameConcerns(w, w, id);
    if id in w.trains {
      var t := Recovered(w.trains[id], m);
      ResumeConcerns(Put(w, id, t), id);
      FromPut(w, id, t, Settled(Resume(Put(w, id, t), id)).w);
    }
  }

  lemma ConfirmConcerns(w: World, id: Id)
    ensures OnlyConcerns(w, ConfirmTrack(w, id).w, id)
  {
    hide Resume, OnlyConcerns, Uncertain, AddInferredEdge;
    SameConcerns(w, w, id);
    if id in w.trains && Uncertain(w.layout, w.trains[id].held).Some? {
      var e := Uncertain(w.layout, w.trains[id].held).value;
      var learned := w.(layout := AddInferredEdge(w.layout, e.from, e.to));
      var t := Recovered(w.trains[id], e.to);
      SameConcerns(w, learned, id);
      ResumeConcerns(Put(learned, id, t), id);
      FromPut(learned, id, t, Settled(Resume(Put(learned, id, t), id)).w);
      ConcernsTwice(w, learned, Settled(Resume(Put(learned, id, t), id)).w, id);
    }
  }

  lemma RequestConcerns(w: World, id: Id, e: EdgeRef)
    ensures OnlyConcerns(w, RequestClearance(w, id, e).w, id)
  {
    hide Missing, TryGrant, OnlyConcerns, AllMoved, GrewAll;
    SameConcerns(w, w, id);
    if id in w.trains {
      TryGrantGrows(w, id, e, {});
      GrewMoved(w, TryGrant(w, id, e).w, {});
      MovedConcerns(w, TryGrant(w, id, e).w, id);
    }
  }

  lemma LengthConcerns(w: World, d: Id, train: Id, length: Length)
    ensures OnlyConcerns(w, ChangeLength(w, d, train, length).w, train)
  {
  }

  lemma SwitchConcerns(w: World, j: Marker, p: string, confirmed: bool)
    ensures OnlyConcerns(w, ChangeSwitch(w, j, p, confirmed).w, "")
  {
    hide Retry, OnlyConcerns;
    SameConcerns(w, w, "");
    SameConcerns(w, Confirm(w, j, p), "");
    ThenRetryConcerns(w, Confirm(w, j, p), None, "");
  }

  lemma GateConcerns(w: World, d: Id, m: Marker, withholding: bool, reason: string)
    ensures OnlyConcerns(w, DispatchGate(w, d, m, withholding, reason).w, "")
  {
    hide Retry, OnlyConcerns, GateHooks;
    SameConcerns(w, w, "");
    if d in w.devices {
      var w1 := w.(devices := w.devices[d := GateHooks(w.devices[d], w.devices[d].caps, m, withholding, reason)]);
      SameConcerns(w, w1, "");
      ThenRetryConcerns(w, w1, None, "");
    }
  }

  /** A zone report also records who reports the zone. */
  lemma ZoneConcerns(w: World, d: Id, z: Zone)
    ensures OnlyConcerns(w.(zoneBounds := w.zoneBounds[z.marker := d]), DispatchZone(w, d, z).w, "")
  {
    hide Retry, OnlyConcerns, ZoneHooks;
    var w1 := w.(zoneBounds := w.zoneBounds[z.marker := d]);
    SameConcerns(w1, w1, "");
    if d in w1.devices {
      var w2 := w1.(devices := w1.devices[d := ZoneHooks(w1.devices[d], w1.devices[d].caps, z)]);
      SameConcerns(w1, w2, "");
      ThenRetryConcerns(w1, w2, None, "");
    }
  }
}
