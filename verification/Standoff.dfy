/** The retry pass: waits-for detection, the forward yield, the reverse, and the published deadlock. */
module Standoff {
  import opened Rail
  import opened LayoutModel
  import opened World
  import opened Ranking
  import opened Cycles
  import opened Clearance

  /** Train ids in registration order. */
  function Roster(order: seq<Id>, ts: Trains): (r: seq<Id>)
    ensures forall i :: i in r <==> i in order && i in ts
  {
    if order == [] then []
    else (if order[0] in ts then [order[0]] else []) + Roster(order[1..], ts)
  }

  function Ordered(w: World): (r: seq<Id>)
    ensures forall i :: i in r <==> i in w.order && i in w.trains
  {
    SortByRank(w.trains, Roster(w.order, w.trains))
  }

  // ---------- waiting ----------

  /** The next edge of a train that waits for clearance; a topology-held train waits for its operator instead. */
  function Wanted(t: Train): Option<EdgeRef> {
    if t.blocked || t.transit.None? then None
    else if t.transit.value.progress >= |t.transit.value.edges| then None
    else
      var next := t.transit.value.edges[t.transit.value.progress];
      if HoldsEdge(t.held, next) then None else Some(next)
  }

  function Waiting(ids: seq<Id>, ts: Trains): (r: seq<Id>)
    ensures forall i :: i in r <==> i in ids && i in ts && Wanted(ts[i]).Some?
  {
    if ids == [] then []
    else (if ids[0] in ts && Wanted(ts[ids[0]]).Some? then [ids[0]] else []) + Waiting(ids[1..], ts)
  }

  /** Trains other than id that hold an edge touching the wanted one, in registration order. */
  function Blockers(ids: seq<Id>, ts: Trains, id: Id, wanted: EdgeRef): (r: seq<Id>)
    ensures forall o :: o in r <==> o in ids && o in ts && o != id && TouchesAny(ts[o].held, wanted)
  {
    if ids == [] then []
    else (if ids[0] in ts && ids[0] != id && TouchesAny(ts[ids[0]].held, wanted) then [ids[0]] else [])
         + Blockers(ids[1..], ts, id, wanted)
  }

  function WaitsFor(order: seq<Id>, ts: Trains): Graph {
    map id | id in ts && id in order && Wanted(ts[id]).Some? :: Blockers(order, ts, id, Wanted(ts[id]).value)
  }

  function Detect(order: seq<Id>, ts: Trains): Option<seq<Id>> {
    var waiting := Waiting(order, ts);
    if |waiting| < 2 then None else CycleFromAny(waiting, WaitsFor(order, ts))
  }

  // ---------- publishing ----------

  function EmitDeadlock(w: World, cycle: Option<seq<Id>>): Out {
    var sorted := if cycle.Some? then SortText(cycle.value) else [];
    if sorted == w.deadlock then Out(w, []) else Out(w.(deadlock := sorted), [Show(Deadlock(sorted))])
  }

  // ---------- choosing who gives way ----------

  function LowestOf(ts: Trains, cycle: seq<Id>, worst: Option<Id>): (r: Option<Id>)
    requires worst.Some? ==> worst.value in ts
    ensures r.Some? ==> r.value in ts && (r.value in cycle || r == worst)
    ensures r.None? ==> worst.None? && forall i <- cycle :: i !in ts
    decreases |cycle|
  {
    if cycle == [] then worst
    else
      var id := cycle[0];
      LowestOf(ts, cycle[1..], if id in ts && (worst.None? || Before(ts, worst.value, id)) then Some(id) else worst)
  }

  /** The wanted edge of the first cycle member that the victim's held edges deny. */
  function PeerWanted(ts: Trains, cycle: seq<Id>, victim: Id): (r: Option<EdgeRef>)
    requires victim in ts
    ensures r.Some?
            ==> exists p <- cycle ::
                  p in ts && p != victim && Wanted(ts[p]) == r && TouchesAny(ts[victim].held, r.value)
    ensures r.None?
            ==> forall p <- cycle ::
                  p !in ts || p == victim || Wanted(ts[p]).None? || !TouchesAny(ts[victim].held, Wanted(ts[p]).value)
    decreases |cycle|
  {
    if cycle == [] then None
    else
      var id := cycle[0];
      if id in ts && id != victim && Wanted(ts[id]).Some? && TouchesAny(ts[victim].held, Wanted(ts[id]).value)
      then Wanted(ts[id])
      else PeerWanted(ts, cycle[1..], victim)
  }

  // ---------- the forward yield ----------

  /** Held edges in the peer's way, except those ending where the train stands. */
  function Yieldable(t: Train, wanted: EdgeRef): set<EdgeRef> {
    set h | h in t.held && Touches(h.edge, wanted) && Some(h.edge.to) != t.last :: h.edge
  }

  /** The yield, before the grant loop runs again; None when it would not free the peer. */
  function YieldStep(w: World, cycle: seq<Id>): Option<(Id, Out)> {
    var victim := LowestOf(w.trains, cycle, None);
    if victim.None? then None
    else
      var id := victim.value;
      var t := w.trains[id];
      var wanted := PeerWanted(w.trains, cycle, id);
      if wanted.None? then None
      else
        var gone := Yieldable(t, wanted.value);
        var remaining := Release(t.held, gone);
        if gone == {} || TouchesAny(remaining, wanted.value) then None
        else
          var t' := t.(held := remaining, limit := if t.last.Some? then t.last else t.limit);
          Some((id, Out(Put(w, id, t'), [Send(id, RevokeClearance(DeadlockYield)), ClearanceOf(id, t')])))
  }

  // ---------- the reverse ----------

  datatype Plan = Plan(target: Marker, released: seq<EdgeRef>)

  function HeldSet(es: seq<EdgeRef>): set<EdgeRef> { set e | e in es }

  predicate HeldByAnother(ts: Trains, id: Id, m: Marker) {
    exists o, h :: o in ts && o != id && h in ts[o].held && (h.edge.from == m || h.edge.to == m)
  }

  function LengthOf(l: Layout, e: EdgeRef): Option<Length> {
    var found := FindEdge(l, e.from, e.to);
    if found.None? then None else found.value.length
  }

  /** Does the chain of retained edges behind the boundary reach back a whole train length? */
  function BodyCovered(l: Layout, length: Length, retained: seq<Held>, boundary: Marker, covered: real,
                       visited: set<Marker>, steps: nat): bool
    decreases steps
  {
    if steps == 0 || covered >= length then covered >= length
    else
      var tail := FindInto(retained, boundary, {});
      if tail.None? then false
      else
        var known := LengthOf(l, tail.value);
        if known.None? then false
        else if tail.value.from in visited then covered + known.value >= length
        else BodyCovered(l, length, retained, tail.value.from, covered + known.value, visited + {tail.value.from},
                         steps - 1)
  }

  function BodyHeld(l: Layout, t: Train, target: Marker, retained: seq<Held>): bool {
    t.length.None? || t.length.value <= 0.0
    || BodyCovered(l, t.length.value, retained, target, 0.0, {target}, |retained|)
  }

  function ReverseWalk(w: World, id: Id, wanted: EdgeRef, released: seq<EdgeRef>, visited: set<Marker>,
                       boundary: Marker, steps: nat): Option<Plan>
    requires id in w.trains
    decreases steps
  {
    var t := w.trains[id];
    var block := FindInto(t.held, boundary, {});
    if steps == 0 || block.None? then None
    else
      var next := block.value.from;
      if next in visited || HeldByAnother(w.trains, id, next) then None
      else
        var released' := released + [block.value];
        var remaining := Release(t.held, HeldSet(released'));
        if !TouchesAny(remaining, wanted) then
          if BodyHeld(w.layout, t, next, remaining) then Some(Plan(next, released')) else None
        else ReverseWalk(w, id, wanted, released', visited + {next}, next, steps - 1)
  }

  function ReverseTarget(w: World, id: Id, wanted: EdgeRef): Option<Plan>
    requires id in w.trains
  {
    var last := w.trains[id].last;
    if last.None? then None
    else ReverseWalk(w, id, wanted, [], {last.value}, last.value, |w.trains[id].held|)
  }

  function Enact(w: World, id: Id, plan: Plan): Out
    requires id in w.trains
  {
    var t := w.trains[id];
    var t' := t.(held := Release(t.held, HeldSet(plan.released)), last := Some(plan.target),
                 limit := Some(plan.target));
    Out(Put(w, id, t'), [Send(id, GrantReverse(plan.target, plan.released)), ClearanceOf(id, t')])
  }

  /** The first candidate, lowest-ranked first, that has a safe retreat. */
  function ReverseFirst(w: World, cycle: seq<Id>, candidates: seq<Id>): Option<(Id, Plan)>
    requires forall i <- candidates :: i in w.trains
    decreases |candidates|
  {
    if candidates == [] then None
    else
      var id := candidates[0];
      var wanted := PeerWanted(w.trains, cycle, id);
      var plan := if wanted.None? then None else ReverseTarget(w, id, wanted.value);
      if plan.Some? then Some((id, plan.value)) else ReverseFirst(w, cycle, candidates[1..])
  }

  function Candidates(ts: Trains, cycle: seq<Id>): (r: seq<Id>)
    ensures forall i :: i in r <==> i in cycle && i in ts
  {
    Reversed(SortByRank(ts, Roster(cycle, ts)))
  }

  function ReverseStep(w: World, cycle: seq<Id>): Option<(Id, Out)> {
    var found := ReverseFirst(w, cycle, Candidates(w.trains, cycle));
    if found.None? || found.value.0 !in w.trains then None
    else Some((found.value.0, Enact(w, found.value.0, found.value.1)))
  }

  // ---------- the retry pass ----------

  function RetryEach(w: World, ids: seq<Id>, skip: set<Id>): (r: Out)
    requires forall i <- ids :: i in w.trains
    ensures r.w.trains.Keys == w.trains.Keys
    decreases |ids|
  {
    if ids == [] then Out(w, [])
    else if ids[0] in skip then RetryEach(w, ids[1..], skip)
    else
      var first := Extend(w, ids[0]);
      var rest := RetryEach(first.w, ids[1..], skip);
      Out(rest.w, first.fx + rest.fx)
  }

  function Level(skip: Option<set<Id>>): nat { if skip.None? then 1 else 0 }

  /** One pass; a pass told to skip someone never yields or reverses, so it re-enters itself at most once. */
  function Retry(w: World, skip: Option<set<Id>>): Out
    decreases Level(skip), 2
  {
    var pass := RetryEach(w, Ordered(w), if skip.Some? then skip.value else {});
    var end := Resolve(pass.w, skip);
    Out(end.w, pass.fx + end.fx)
  }

  function Resolve(w: World, skip: Option<set<Id>>): Out
    decreases Level(skip), 1
  {
    var cycle := Detect(w.order, w.trains);
    if cycle.Some? && skip.None? then
      var yielded := YieldStep(w, cycle.value);
      if yielded.Some? then Regrant(yielded.value.0, yielded.value.1)
      else
        var reversed := ReverseStep(w, cycle.value);
        if reversed.Some? then Regrant(reversed.value.0, reversed.value.1)
        else EmitDeadlock(w, cycle)
    else EmitDeadlock(w, cycle)
  }

  /** Runs the grant loop again without the train that just gave way. */
  function Regrant(id: Id, gave: Out): Out
    decreases 1, 0
  {
    var again := Retry(gave.w, Some({id}));
    Out(again.w, gave.fx + again.fx)
  }
}
