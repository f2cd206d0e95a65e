/** Replanning (ADR-013): the schedule turns to the first stop the train does not stand at, if there is one. */
module Replanning {
  import opened Rail
  import opened World
  import opened Clearance
  import opened Handlers
  import Planner

  /** The schedule after k advances. */
  function Forward(s: Schedule, k: nat): (r: Schedule)
    ensures r.stops == s.stops && r.route == s.route
    decreases k
  {
    if k == 0 then s else Forward(Next(s), k - 1)
  }

  /** k advances lead to the cyclically first stop that is not m. */
  ghost predicate FirstElsewhere(s: Schedule, m: Marker, k: nat) {
    k < |s.stops| && StopOf(Forward(s, k)) != m && forall j :: 0 <= j < k ==> StopOf(Forward(s, j)) == m
  }

  /** Every stop is the given marker. */
  ghost predicate AllAt(s: Schedule, m: Marker) {
    forall i :: 0 <= i < |s.stops| ==> s.stops[i] == m
  }

  lemma NextIndex(n: nat, i: nat)
    requires i < n
    ensures (i + 1) % n == if i + 1 == n then 0 else i + 1
  {
  }

  /** Advancing passes every stop of the cycle. */
  lemma {:induction false} Passes(s: Schedule, j: nat) returns (k: nat)
    requires j < |s.stops|
    ensures k == (if s.index <= j then j - s.index else |s.stops| - s.index + j) && k < |s.stops|
            && Forward(s, k).index == j
    decreases if s.index <= j then j - s.index else |s.stops| - s.index + j
  {
    if s.index == j {
      k := 0;
    } else {
      NextIndex(|s.stops|, s.index);
      k := Passes(Next(s), j);
      k := k + 1;
    }
  }

  lemma {:induction false} FirstUpTo(s: Schedule, m: Marker, n: nat) returns (k: nat)
    requires n < |s.stops| && StopOf(Forward(s, n)) != m
    ensures k <= n && FirstElsewhere(s, m, k)
  {
    hide Forward;
    if j :| 0 <= j < n && StopOf(Forward(s, j)) != m {
      k := FirstUpTo(s, m, j);
    } else {
      k := n;
    }
  }

  /** A first stop elsewhere exists exactly when some stop is elsewhere. */
  lemma FirstElsewhereIff(s: Schedule, m: Marker)
    ensures (exists k :: FirstElsewhere(s, m, k)) <==> !AllAt(s, m)
  {
    if !AllAt(s, m) {
      var j :| 0 <= j < |s.stops| && s.stops[j] != m;
      var n := Passes(s, j);
      assert StopOf(Forward(s, n)) == s.stops[j];
      var k := FirstUpTo(s, m, n);
    }
    if k :| FirstElsewhere(s, m, k) {
      assert s.stops[Forward(s, k).index] != m;
    }
  }

  /** One published stop index per advance. */
  function Shows(id: Id, s: Schedule, k: nat): seq<Effect>
    decreases k
  {
    if k == 0 then [] else [Show(ScheduleOf(id, Some(Next(s))))] + Shows(id, Next(s), k - 1)
  }

  function Pointed(w: World, id: Id, s: Schedule): (r: World)
    requires id in w.trains
    ensures id in r.trains && r.trains[id] == w.trains[id].(schedule := Some(s))
  {
    Put(w, id, w.trains[id].(schedule := Some(s)))
  }

  lemma PointedTwice(w: World, id: Id, a: Schedule, b: Schedule)
    requires id in w.trains
    ensures Pointed(Pointed(w, id, a), id, b) == Pointed(w, id, b)
  {
    var w1 := Pointed(w, id, a);
    assert w1.trains[id := w1.trains[id].(schedule := Some(b))] == w.trains[id := w.trains[id].(schedule := Some(b))];
  }

  lemma PointedSame(w: World, id: Id, s: Schedule)
    requires id in w.trains && w.trains[id].schedule == Some(s)
    ensures Pointed(w, id, s) == w
  {
    assert w.trains[id := w.trains[id].(schedule := Some(s))] == w.trains;
  }

  /** The train has a schedule of several stops and a place. */
  predicate Travels(w: World, id: Id) {
    id in w.trains && w.trains[id].schedule.Some? && w.trains[id].last.Some? && |w.trains[id].schedule.value.stops| >= 2
  }

  /** Standing at its current stop, a train advances by one and tries again, or has no call left to do so. */
  lemma OneAdvance(w: World, id: Id, budget: nat)
    requires Travels(w, id) && StopOf(w.trains[id].schedule.value) == w.trains[id].last.value
    ensures var s := w.trains[id].schedule.value;
            var moved := Pointed(w, id, Next(s));
            && Travels(moved, id) && moved.trains[id].last == w.trains[id].last
            && moved.trains[id].schedule == Some(Next(s))
            && PlanAndExecute(w, id, budget)
               == if budget == 0 then Threw(moved)
                  else Prefixed([Show(ScheduleOf(id, Some(Next(s))))], PlanAndExecute(moved, id, budget - 1))
  {
    hide Route;
    assert PlanAndExecute(w, id, budget) == AdvanceAndReplan(w, id, budget);
  }

  /** What planning does when the first stop elsewhere is k advances away. */
  function Reached(w: World, id: Id, k: nat): Out
    requires Travels(w, id)
  {
    var s := w.trains[id].schedule.value;
    var w' := Pointed(w, id, Forward(s, k));
    Then(Out(w', Shows(id, s, k)), Route(w', id, StopOf(Forward(s, k))))
  }

  /** The state left behind when the stack is exhausted, which takes one more advance than the budget has calls. */
  function Exhausted(w: World, id: Id, budget: nat): World
    requires Travels(w, id)
  {
    Pointed(w, id, Forward(w.trains[id].schedule.value, budget + 1))
  }

  lemma ReachedLater(w: World, id: Id, k: nat)
    requires Travels(w, id) && k > 0 && Travels(Pointed(w, id, Next(w.trains[id].schedule.value)), id)
    ensures var s := w.trains[id].schedule.value;
            Prefixed([Show(ScheduleOf(id, Some(Next(s))))], Returned(Reached(Pointed(w, id, Next(s)), id, k - 1)))
            == Returned(Reached(w, id, k))
  {
    hide Route;
    var s := w.trains[id].schedule.value;
    PointedTwice(w, id, Next(s), Forward(s, k));
    var shown := Show(ScheduleOf(id, Some(Next(s))));
    var fx := Route(Pointed(w, id, Forward(s, k)), id, StopOf(Forward(s, k))).fx;
    assert [shown] + (Shows(id, Next(s), k - 1) + fx) == ([shown] + Shows(id, Next(s), k - 1)) + fx;
  }

  lemma LaterElsewhere(s: Schedule, m: Marker, k: nat)
    requires FirstElsewhere(s, m, k) && k > 0
    ensures FirstElsewhere(Next(s), m, k - 1) && StopOf(s) == m
  {
    assert StopOf(Forward(s, 0)) == m;
    forall j | 0 <= j < k - 1 ensures StopOf(Forward(Next(s), j)) == m {
      assert Forward(s, j + 1) == Forward(Next(s), j);
    }
  }

  /**
   * Planning settles at the cyclically first stop elsewhere, publishing each advance, and routes there, if the
   * stack has a call for each advance; otherwise it fails with the schedule moved on and nothing published.
   */
  lemma {:induction false} PlanSettles(w: World, id: Id, k: nat, budget: nat)
    requires Travels(w, id) && FirstElsewhere(w.trains[id].schedule.value, w.trains[id].last.value, k)
    ensures PlanAndExecute(w, id, budget) == if k <= budget then Returned(Reached(w, id, k))
                                             else Threw(Exhausted(w, id, budget))
    decreases k
  {
    hide Route, Pointed;
    var s, m := w.trains[id].schedule.value, w.trains[id].last.value;
    if k == 0 {
      PointedSame(w, id, s);
      var o := Route(w, id, StopOf(s));
      assert [] + o.fx == o.fx;
    } else {
      LaterElsewhere(s, m, k);
      OneAdvance(w, id, budget);
      var moved := Pointed(w, id, Next(s));
      ReachedLater(w, id, k);
      if budget > 0 {
        PlanSettles(moved, id, k - 1, budget - 1);
        PointedTwice(w, id, Next(s), Forward(s, budget + 1));
      }
    }
  }

  /** A schedule of several stops, all where the train stands, exhausts any stack. */
  lemma {:induction false} NeverSettles(w: World, id: Id, budget: nat)
    requires Travels(w, id) && AllAt(w.trains[id].schedule.value, w.trains[id].last.value)
    ensures PlanAndExecute(w, id, budget) == Threw(Exhausted(w, id, budget))
    decreases budget
  {
    hide Route, Pointed;
    var s := w.trains[id].schedule.value;
    OneAdvance(w, id, budget);
    if budget == 0 {
    } else {
      NeverSettles(Pointed(w, id, Next(s)), id, budget - 1);
      PointedTwice(w, id, Next(s), Forward(s, budget + 1));
    }
  }

  /** Nothing keeps planning from returning but a round of stops that are all where the train stands. */
  ghost predicate CanSettle(t: Train) {
    t.schedule.None? || t.last.None? || |t.schedule.value.stops| == 1 || !AllAt(t.schedule.value, t.last.value)
  }

  /** Planning returns, on a deep enough stack, exactly when the schedule lets it settle. */
  lemma PlanReturnsIff(w: World, id: Id)
    requires id in w.trains
    ensures (exists budget :: PlanAndExecute(w, id, budget).Returned?) <==> CanSettle(w.trains[id])
  {
    hide Route, AllAt;
    var t := w.trains[id];
    if !Travels(w, id) {
      assert PlanAndExecute(w, id, 0).Returned?;
    } else if CanSettle(t) {
      FirstElsewhereIff(t.schedule.value, t.last.value);
      var k :| FirstElsewhere(t.schedule.value, t.last.value, k);
      PlanSettles(w, id, k, k);
    } else {
      forall budget: nat ensures PlanAndExecute(w, id, budget).Threw? {
        NeverSettles(w, id, budget);
      }
    }
  }

  /** So does turning to the next stop and planning. */
  lemma AdvanceReturnsIff(w: World, id: Id)
    requires id in w.trains
    ensures (exists budget :: AdvanceAndReplan(w, id, budget).Returned?) <==> CanSettle(w.trains[id])
  {
    hide PlanAndExecute, AllAt;
    var t := w.trains[id];
    if t.schedule.None? {
      assert AdvanceAndReplan(w, id, 0).Returned?;
    } else {
      var moved := Pointed(w, id, Next(t.schedule.value));
      SameStops(t.schedule.value, t.last);
      PlanReturnsIff(moved, id);
      assert CanSettle(moved.trains[id]) <==> CanSettle(t);
      if CanSettle(t) {
        var budget: nat :| PlanAndExecute(moved, id, budget).Returned?;
        assert AdvanceAndReplan(w, id, budget + 1).Returned?;
      } else {
        forall budget: nat ensures AdvanceAndReplan(w, id, budget).Threw? {
          if budget > 0 {
            assert PlanAndExecute(moved, id, budget - 1).Threw?;
          }
        }
      }
    }
  }

  lemma SameStops(s: Schedule, last: Option<Marker>)
    ensures last.Some? ==> (AllAt(s, last.value) <==> AllAt(Next(s), last.value))
  {
  }

  /** Stops at two different markers settle from wherever the train stands, with a call for every stop. */
  lemma TravellingSettles(w: World, id: Id, i: nat, j: nat, budget: nat)
    requires id in w.trains && w.trains[id].schedule.Some?
    requires var stops := w.trains[id].schedule.value.stops;
             i < j < |stops| && stops[i] != stops[j] && budget >= |stops| - 1
    ensures PlanAndExecute(w, id, budget).Returned?
  {
    hide Route, AllAt;
    var t := w.trains[id];
    if t.last.Some? {
      var s, m := t.schedule.value, t.last.value;
      assert !AllAt(s, m) by {
        NotBothAt(s, m, i, j);
      }
      FirstElsewhereIff(s, m);
      var k :| FirstElsewhere(s, m, k);
      PlanSettles(w, id, k, budget);
    }
  }

  lemma NotBothAt(s: Schedule, m: Marker, i: nat, j: nat)
    requires i < j < |s.stops| && s.stops[i] != s.stops[j]
    ensures !AllAt(s, m)
  {
  }

  /**
   * The assignment that never settles: a round trip from a marker to itself, given to a train that stands there or
   * nowhere yet. On any stack it fails, and the train has silently lost what it held.
   */
  lemma RoundTripFails(w: World, id: Id, route: string, m: Marker)
    requires id in w.trains && m in w.layout.markers && w.trains[id].last in {None, Some(m)}
    ensures var o := Assign(w, id, route, [m, m]);
            && o.fx == [] && id in o.w.trains && o.w.trains[id].held == [] && !o.w.trains[id].blocked
            && o.w.trains[id].transit.None? && o.w.trains[id].schedule.Some?
  {
    hide PlanAndExecute, Prefixed, Pointed;
    var stops := [m, m];
    assert stops[1..] == [m] && [m][1..] == [];
    assert UnknownStopsOf(w.layout, [m]) == [] + UnknownStopsOf(w.layout, []);
    assert UnknownStopsOf(w.layout, stops) == [] + UnknownStopsOf(w.layout, [m]) == [];
    var t := Assigned(w.trains[id], route, stops);
    var w1 := Put(w, id, t);
    NeverSettles(w1, id, w.stack);
    FailsSilently([Show(ScheduleOf(id, t.schedule))], Exhausted(w1, id, w.stack));
  }

  lemma FailsSilently(fx: seq<Effect>, left: World)
    ensures Settled(Prefixed(fx, Threw(left))) == Out(left, [])
  {
  }

  // ---------- what planning will do, told beforehand ----------

  /** The schedule turned to its first stop elsewhere, if that takes no more advances than the stack has calls. */
  function FirstStop(s: Schedule, m: Marker, budget: nat): Option<Schedule>
    decreases budget
  {
    if StopOf(s) != m then Some(s) else if budget == 0 then None else FirstStop(Next(s), m, budget - 1)
  }

  /** The schedule as planning leaves it when it has a stop to go to; a single stop is never advanced over. */
  function Turned(t: Train, budget: nat): Option<Schedule> {
    if t.schedule.None? || t.last.None? then None
    else FirstStop(t.schedule.value, t.last.value, if |t.schedule.value.stops| == 1 then 0 else budget)
  }

  /** Planning exhausts the call stack: there are several stops and none is elsewhere within its reach. */
  predicate Fails(t: Train, budget: nat) {
    t.schedule.Some? && t.last.Some? && |t.schedule.value.stops| > 1 && Turned(t, budget).None?
  }

  /** The leg to a stop, if one is planned, leads anywhere, and is admitted there. */
  function Departure(w: World, id: Id, target: Marker): (r: Option<seq<EdgeRef>>)
    requires id in w.trains && w.trains[id].last.Some?
    ensures r.Some? ==> r.value != []
  {
    var t := w.trains[id];
    var plan := Planner.PlanTransit(w.layout, t.last.value, target, HeadingOf(t));
    if plan == Some([]) || (target in w.zoneBounds && !CanReverseTrain(w, id)) then None else plan
  }

  /** The leg planning sends the train off on, if any. */
  function Leaves(w: World, id: Id, budget: nat): (r: Option<seq<EdgeRef>>)
    requires id in w.trains
    ensures r.Some? ==> r.value != [] && Turned(w.trains[id], budget).Some?
  {
    var s := Turned(w.trains[id], budget);
    if s.None? then None else Departure(w, id, StopOf(s.value))
  }

  /** Likewise after turning to the next stop. */
  function LeavesNext(w: World, id: Id, budget: nat): Option<seq<EdgeRef>>
    requires id in w.trains
  {
    var s := w.trains[id].schedule;
    if s.None? || budget == 0 then None else Leaves(Pointed(w, id, Next(s.value)), id, budget - 1)
  }

  /** Effects that tell what stop the train turns to, or why it does not leave. */
  predicate OnlyTells(fx: seq<Effect>) {
    forall x <- fx :: x.Publish? || (x.Show? && x.snapshot.ScheduleOf?)
  }

  /** Notices, and then a departure on the given leg. */
  ghost predicate LeavesOn(w: World, id: Id, s: Schedule, way: seq<EdgeRef>, o: Out)
    requires id in w.trains && way != []
  {
    exists fx :: OnlyTells(fx) && o == Then(Out(Pointed(w, id, s), fx), Depart(Pointed(w, id, s), id, way))
  }

  /** Nothing but notices, the train holding what it held. */
  ghost predicate StaysPut(w: World, id: Id, o: Out)
    requires id in w.trains
  {
    OnlyTells(o.fx) && id in o.w.trains && o.w.trains[id].held == w.trains[id].held
      && o.w.trains[id].blocked == w.trains[id].blocked
  }

  ghost predicate AsForeseen(w: World, id: Id, budget: nat, o: Out)
    requires id in w.trains
  {
    var way := Leaves(w, id, budget);
    if way.Some? then LeavesOn(w, id, Turned(w.trains[id], budget).value, way.value, o) else StaysPut(w, id, o)
  }

  lemma RouteForeseen(w: World, id: Id)
    requires id in w.trains && w.trains[id].last.Some? && w.trains[id].schedule.Some?
    ensures var s := w.trains[id].schedule.value;
            var way, o := Departure(w, id, StopOf(s)), Route(w, id, StopOf(s));
            if way.Some? then LeavesOn(w, id, s, way.value, o) else StaysPut(w, id, o)
  {
    hide Depart, Planner.PlanTransit, Pointed;
    var t := w.trains[id];
    PointedSame(w, id, t.schedule.value);
    var way := Departure(w, id, StopOf(t.schedule.value));
    if way.Some? {
      var o := Route(w, id, StopOf(t.schedule.value));
      assert [] + o.fx == o.fx;
      assert OnlyTells([]) && o == Then(Out(w, []), Depart(w, id, way.value));
    }
  }

  /** The leg does not depend on the stop the schedule points to. */
  lemma SameDeparture(w: World, id: Id, s: Schedule, target: Marker)
    requires id in w.trains && w.trains[id].last.Some?
    ensures Departure(Pointed(w, id, s), id, target) == Departure(w, id, target)
  {
    hide Planner.PlanTransit;
  }

  lemma LeavesLater(w: World, id: Id, s: Schedule, s': Schedule, way: seq<EdgeRef>, o: Out)
    requires id in w.trains && way != [] && LeavesOn(Pointed(w, id, s), id, s', way, o)
    ensures LeavesOn(w, id, s', way, Out(o.w, [Show(ScheduleOf(id, Some(s)))] + o.fx))
  {
    hide Depart, Pointed;
    var shown := Show(ScheduleOf(id, Some(s)));
    PointedTwice(w, id, s, s');
    var d := Depart(Pointed(w, id, s'), id, way);
    var fx :| OnlyTells(fx) && o == Then(Out(Pointed(w, id, s'), fx), d);
    assert [shown] + (fx + d.fx) == ([shown] + fx) + d.fx;
    assert OnlyTells([shown] + fx);
  }

  /** Planning fails, departs or stays exactly as foreseen. */
  lemma {:induction false} PlanForeseen(w: World, id: Id, budget: nat)
    requires id in w.trains
    ensures var a := PlanAndExecute(w, id, budget);
            (a.Threw? <==> Fails(w.trains[id], budget)) && (a.Returned? ==> AsForeseen(w, id, budget, a.out))
            && (a.Threw? ==> Leaves(w, id, budget).None?)
    decreases budget
  {
    hide Departure, Route, Pointed, LeavesOn, StaysPut;
    var t := w.trains[id];
    if t.schedule.None? || t.last.None? || (StopOf(t.schedule.value) == t.last.value && |t.schedule.value.stops| == 1) {
      NoLegStays(w, id, budget);
    } else if StopOf(t.schedule.value) != t.last.value {
      RouteForeseen(w, id);
    } else {
      var s := Next(t.schedule.value);
      OneAdvance(w, id, budget);
      if budget > 0 {
        PlanForeseen(Pointed(w, id, s), id, budget - 1);
        AdvanceForeseen(w, id, budget, s);
      }
    }
  }

  lemma NoLegStays(w: World, id: Id, budget: nat)
    requires id in w.trains
    requires var t := w.trains[id]; Turned(t, budget).None? && !Fails(t, budget)
    ensures PlanAndExecute(w, id, budget).Returned? && StaysPut(w, id, PlanAndExecute(w, id, budget).out)
  {
  }

  lemma AdvanceForeseen(w: World, id: Id, budget: nat, s: Schedule)
    requires Travels(w, id) && StopOf(w.trains[id].schedule.value) == w.trains[id].last.value && budget > 0
    requires s == Next(w.trains[id].schedule.value)
    requires PlanAndExecute(w, id, budget)
             == Prefixed([Show(ScheduleOf(id, Some(s)))], PlanAndExecute(Pointed(w, id, s), id, budget - 1))
    requires var a := PlanAndExecute(Pointed(w, id, s), id, budget - 1);
             a.Returned? ==> AsForeseen(Pointed(w, id, s), id, budget - 1, a.out)
    ensures Turned(w.trains[id], budget) == Turned(Pointed(w, id, s).trains[id], budget - 1)
    ensures Leaves(w, id, budget) == Leaves(Pointed(w, id, s), id, budget - 1)
    ensures var a := PlanAndExecute(w, id, budget); a.Returned? ==> AsForeseen(w, id, budget, a.out)
  {
    hide Departure, PlanAndExecute, Pointed, LeavesOn;
    var a := PlanAndExecute(Pointed(w, id, s), id, budget - 1);
    var next := Turned(w.trains[id], budget);
    assert next == Turned(Pointed(w, id, s).trains[id], budget - 1);
    if next.Some? {
      SameDeparture(w, id, s, StopOf(next.value));
    }
    var way := Leaves(w, id, budget);
    if a.Returned? && way.Some? {
      LeavesLater(w, id, s, next.value, way.value, a.out);
    }
  }

  /** A recovery fails exactly when its replanning does. */
  lemma ResumeFailsIff(w: World, id: Id)
    requires id in w.trains
    ensures Resume(w, id).Threw? <==> Fails(w.trains[id], w.stack)
  {
    hide PlanAndExecute, AsForeseen;
    PlanForeseen(w, id, w.stack);
  }

  /** Turning to the next stop first, planning departs as foreseen too. */
  lemma NextForeseen(w: World, id: Id, budget: nat)
    requires id in w.trains && LeavesNext(w, id, budget).Some?
    ensures var a := AdvanceAndReplan(w, id, budget);
            var moved := Pointed(w, id, Next(w.trains[id].schedule.value));
            && a.Returned? && Turned(moved.trains[id], budget - 1).Some?
            && LeavesOn(w, id, Turned(moved.trains[id], budget - 1).value, LeavesNext(w, id, budget).value, a.out)
  {
    hide PlanAndExecute, Leaves, LeavesOn, Pointed, StaysPut;
    var s := Next(w.trains[id].schedule.value);
    var moved := Pointed(w, id, s);
    PointedIsPut(w, id, s);
    PlanForeseen(moved, id, budget - 1);
    LeavesLater(w, id, s, Turned(moved.trains[id], budget - 1).value, LeavesNext(w, id, budget).value,
                PlanAndExecute(moved, id, budget - 1).out);
  }

  lemma PointedIsPut(w: World, id: Id, s: Schedule)
    requires id in w.trains
    ensures Pointed(w, id, s) == Put(w, id, w.trains[id].(schedule := Some(s)))
  {
  }
}
