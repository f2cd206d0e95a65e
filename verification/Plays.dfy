/**
 * The scheduler's handlers as sequences of atomic steps. Each step changes at most one train's clearance or
 * one junction, under the guard that makes it safe; what holds along every such sequence holds along every run.
 */
module Plays {
  import opened Rail
  import opened LayoutModel
  import opened World
  import opened Ranking
  import opened Clearance
  import opened Standoff
  import opened Handlers

  /** Effects that speak about clearance or switches. */
  predicate Critical(x: Effect) {
    || (x.Send? && (x.command.GrantClearance? || x.command.SetSwitch?))
    || (x.Show? && (x.snapshot.Clearance? || (x.snapshot.SwitchOf? && x.snapshot.confirmed)))
  }

  ghost predicate Harmless(fx: seq<Effect>) {
    forall x <- fx :: !Critical(x)
  }

  /** The only critical effect is the given one, and it is there. */
  ghost predicate OnlyShows(fx: seq<Effect>, shown: Effect) {
    shown in fx && forall x <- fx :: Critical(x) ==> x == shown
  }

  ghost predicate SameHeld(t: Train, t': Train) { t.held == t'.held && t.blocked == t'.blocked }

  ghost predicate SameSwitches(w: World, w': World) {
    w.requested == w'.requested && w.layout.switches == w'.layout.switches
  }

  /** Nobody else's clearance changes, nor any switch. */
  ghost predicate OnlyTouches(w: World, w': World, id: Id) {
    && (forall o :: o != id ==> (o in w.trains <==> o in w'.trains))
    && (forall o :: o != id && o in w.trains && o in w'.trains ==> SameHeld(w.trains[o], w'.trains[o]))
    && SameSwitches(w, w')
  }

  ghost predicate Quiet(w: World, fx: seq<Effect>, w': World) {
    && w.trains.Keys == w'.trains.Keys && w.order == w'.order && w.clock == w'.clock && SameSwitches(w, w')
    && Harmless(fx)
    && (forall o :: o in w.trains && o in w'.trains ==> SameHeld(w.trains[o], w'.trains[o]))
  }

  function Routes(ts: map<Id, Train>): map<Id, Option<Transit>> {
    map id | id in ts :: ts[id].transit
  }

  /**
   * What a sequence of steps is judged by: the device table, the layout and the routes grants and switch commands
   * must have been decided on, and the edge a train asked for, if one did.
   */
  datatype Judge = Judge(devices: map<Id, Device>, layout: Layout, routes: map<Id, Option<Transit>>,
                         request: Option<(Id, EdgeRef)>)

  function By(w: World): Judge { Judge(w.devices, w.layout, Routes(w.trains), None) }

  /** The train asked for the edge, or has it on its route at or past its progress. */
  ghost predicate Demanded(j: Judge, id: Id, e: EdgeRef) {
    && id in j.routes
    && (|| j.request == Some((id, e))
        || (j.routes[id].Some?
            && exists k ::
                 j.routes[id].value.progress <= k < |j.routes[id].value.edges| && j.routes[id].value.edges[k] == e))
  }

  /** A grant: demanded, no conflict with another train, the switch confirmed as required, no device vetoing. */
  ghost predicate Grants(j: Judge, w: World, fx: seq<Effect>, w': World, id: Id, e: EdgeRef) {
    && id in w.trains && Demanded(j, id, e) && !Conflicts(w, id, e) && !SwitchMismatch(j.layout, e)
    && !Denied(j.devices, e.to)
    && Out(w', fx) == Grant(w, id, e)
  }

  /** A switch command on behalf of a train that demands the edge and that no other train conflicts with. */
  ghost predicate Asks(j: Judge, w: World, fx: seq<Effect>, w': World, id: Id, e: EdgeRef) {
    && id in w.trains && Demanded(j, id, e) && !Conflicts(w, id, e) && w.layout == j.layout
    && SwitchMismatch(j.layout, e)
    && fx != [] && Out(w', fx) == Actuate(w, id, e)
  }

  ghost predicate Drops(w: World, fx: seq<Effect>, w': World, id: Id) {
    && id in w.trains && id in w'.trains && OnlyTouches(w, w', id) && w.clock == w'.clock && w.order == w'.order
    && (forall h <- w'.trains[id].held :: h in w.trains[id].held)
    && OnlyShows(fx, ClearanceOf(id, w'.trains[id]))
  }

  ghost predicate Guards(w: World, fx: seq<Effect>, w': World, id: Id, m: Marker, now: real) {
    id in w.trains && Violates(w, w.trains[id], m) && Out(w', fx) == HoldAt(w, id, m, now)
  }

  ghost predicate Joins(w: World, fx: seq<Effect>, w': World, id: Id) {
    && id !in w.trains && id in w'.trains && OnlyTouches(w, w', id) && w.clock == w'.clock && w'.order == w.order + [id]
    && w'.trains[id].held == [] && !w'.trains[id].blocked && Harmless(fx)
  }

  ghost predicate Leaves(w: World, fx: seq<Effect>, w': World, id: Id) {
    && id !in w'.trains && OnlyTouches(w, w', id) && w.clock == w'.clock && w'.order == RemoveId(w.order, id)
    && OnlyShows(fx, Show(Clearance(id, [], false)))
  }

  ghost predicate Confirms(w: World, fx: seq<Effect>, w': World, j: Marker, p: string) {
    w' == Confirm(w, j, p) && fx == [Show(SwitchOf(j, p, true))]
  }

  /** One atomic step. */
  ghost predicate Link(j: Judge, w: World, fx: seq<Effect>, w': World) {
    || Quiet(w, fx, w')
    || (exists id, e :: Grants(j, w, fx, w', id, e))
    || (exists id, e :: Asks(j, w, fx, w', id, e))
    || (exists id :: Drops(w, fx, w', id))
    || (exists id, m, now :: Guards(w, fx, w', id, m, now))
    || (exists id :: Joins(w, fx, w', id))
    || (exists id :: Leaves(w, fx, w', id))
    || (exists m, p :: Confirms(w, fx, w', m, p))
  }

  // ---------- sequences of steps ----------

  datatype Play = Stop(at: World) | Go(at: World, fx: seq<Effect>, rest: Play)

  ghost function End(p: Play): World { if p.Stop? then p.at else End(p.rest) }

  ghost function Emitted(p: Play): seq<Effect> { if p.Stop? then [] else p.fx + Emitted(p.rest) }

  ghost predicate Legal(j: Judge, p: Play) {
    p.Go? ==> Link(j, p.at, p.fx, p.rest.at) && Legal(j, p.rest)
  }

  ghost function Join(p: Play, q: Play): Play {
    if p.Stop? then q else Go(p.at, p.fx, Join(p.rest, q))
  }

  lemma {:induction false} JoinPlays(j: Judge, p: Play, q: Play)
    requires Legal(j, p) && Legal(j, q) && End(p) == q.at
    ensures var r := Join(p, q);
            Legal(j, r) && r.at == p.at && End(r) == End(q) && Emitted(r) == Emitted(p) + Emitted(q)
  {
    if p.Stop? {
    } else {
      JoinPlays(j, p.rest, q);
    }
  }

  ghost predicate IsPlay(j: Judge, p: Play, w: World, o: Out) {
    Legal(j, p) && p.at == w && End(p) == o.w && Emitted(p) == o.fx
  }

  /** From w, atomic steps lead to the outcome, emitting exactly its effects. */
  ghost predicate Steps(j: Judge, w: World, o: Out) {
    exists p :: IsPlay(j, p, w, o)
  }

  lemma Stay(j: Judge, w: World)
    ensures Steps(j, w, Out(w, []))
  {
    assert IsPlay(j, Stop(w), w, Out(w, []));
  }

  lemma One(j: Judge, w: World, o: Out)
    requires Link(j, w, o.fx, o.w)
    ensures Steps(j, w, o)
  {
    var stop := Stop(o.w);
    var p := Go(w, o.fx, stop);
    assert Emitted(stop) == [] && End(stop) == o.w && Legal(j, stop);
    assert Emitted(p) == o.fx + Emitted(p.rest) && End(p) == End(p.rest);
    assert IsPlay(j, p, w, o);
  }

  lemma Chain(j: Judge, w: World, a: Out, b: Out)
    requires Steps(j, w, a) && Steps(j, a.w, b)
    ensures Steps(j, w, Then(a, b))
  {
    var p :| IsPlay(j, p, w, a);
    var q :| IsPlay(j, q, a.w, b);
    JoinPlays(j, p, q);
    assert IsPlay(j, Join(p, q), w, Then(a, b));
  }

  lemma QuietStep(j: Judge, w: World, o: Out)
    requires Quiet(w, o.fx, o.w)
    ensures Steps(j, w, o)
  {
    One(j, w, o);
  }

  lemma DropStep(j: Judge, w: World, o: Out, id: Id)
    requires Drops(w, o.fx, o.w, id)
    ensures Steps(j, w, o)
  {
    One(j, w, o);
  }

  // ---------- granting and retrying ----------

  /** What grants are judged by does not depend on what is held. */
  lemma SameGround(w: World, id: Id, t: Train)
    requires id in w.trains && t.transit == w.trains[id].transit
    ensures By(Put(w, id, t)) == By(w)
  {
    assert Routes(w.trains[id := t]) == Routes(w.trains);
  }

  lemma GrantGround(w: World, id: Id, e: EdgeRef)
    requires id in w.trains
    ensures By(Grant(w, id, e).w) == By(w)
  {
    SameGround(w, id, w.trains[id].(limit := Some(e.to), held := w.trains[id].held + [Held(e, false, w.clock)]));
  }

  lemma TryGrantSteps(j: Judge, w: World, id: Id, e: EdgeRef)
    requires id in w.trains && w.devices == j.devices && w.layout == j.layout && Demanded(j, id, e)
    ensures Steps(j, w, TryGrant(w, id, e)) && By(TryGrant(w, id, e).w) == By(w)
  {
    hide Steps, Grants, Asks, Conflicts, SwitchMismatch, Denied, Grant, Demanded;
    var o := TryGrant(w, id, e);
    Stay(j, w);
    if Conflicts(w, id, e) || (!SwitchMismatch(w.layout, e) && Denied(w.devices, e.to)) {
    } else if SwitchMismatch(w.layout, e) {
      AskStep(j, w, id, e);
    } else {
      GrantGround(w, id, e);
      GrantStep(j, w, id, e);
    }
  }

  lemma GrantStep(j: Judge, w: World, id: Id, e: EdgeRef)
    requires id in w.trains && Demanded(j, id, e) && !Conflicts(w, id, e) && !SwitchMismatch(j.layout, e)
             && !Denied(j.devices, e.to)
    ensures Steps(j, w, Grant(w, id, e))
  {
    hide Steps, Conflicts, SwitchMismatch, Denied, Grant, Demanded;
    var o := Grant(w, id, e);
    assert Grants(j, w, o.fx, o.w, id, e);
    One(j, w, o);
  }

  lemma AskStep(j: Judge, w: World, id: Id, e: EdgeRef)
    requires id in w.trains && w.layout == j.layout && Demanded(j, id, e) && !Conflicts(w, id, e)
             && SwitchMismatch(w.layout, e)
    ensures Steps(j, w, Actuate(w, id, e)) && By(Actuate(w, id, e).w) == By(w)
  {
    hide Steps, Conflicts, SwitchMismatch, Demanded, Required;
    var o := Actuate(w, id, e);
    Stay(j, w);
    if o.fx != [] {
      assert Asks(j, w, o.fx, o.w, id, e);
      One(j, w, o);
    }
  }

  lemma OnRoute(j: Judge, id: Id, t: Transit, i: nat)
    requires id in j.routes && j.routes[id] == Some(t) && t.progress <= i < |t.edges|
    ensures Demanded(j, id, t.edges[i])
  {
  }

  lemma {:induction false} WalkSteps(w: World, id: Id, t: Transit, i: nat, granted: nat, ms: real)
    requires id in w.trains && id in By(w).routes && By(w).routes[id] == Some(t) && t.progress <= i
    ensures var o := Walk(w, id, t.edges, i, granted, ms); Steps(By(w), w, o) && By(o.w) == By(w)
    decreases |t.edges| - i
  {
    hide Steps, TryGrant, HasGrant, EdgeMs, HoldsEdge, By;
    if i >= |t.edges| || HorizonSatisfied(granted, ms) {
      Stay(By(w), w);
    } else {
      var e := t.edges[i];
      var more := ms + EdgeMs(w.layout, id, e);
      if HoldsEdge(w.trains[id].held, e) {
        WalkSteps(w, id, t, i + 1, granted + 1, more);
      } else {
        var g := TryGrant(w, id, e);
        OnRoute(By(w), id, t, i);
        TryGrantByOwn(w, id, e);
        if HasGrant(g.fx) {
          WalkSteps(g.w, id, t, i + 1, granted + 1, more);
          Chain(By(w), w, g, Walk(g.w, id, t.edges, i + 1, granted + 1, more));
        }
      }
    }
  }

  lemma TryGrantByOwn(w: World, id: Id, e: EdgeRef)
    requires id in w.trains && Demanded(By(w), id, e)
    ensures Steps(By(w), w, TryGrant(w, id, e)) && By(TryGrant(w, id, e).w) == By(w)
  {
    hide Steps, TryGrant, Demanded;
    TryGrantSteps(By(w), w, id, e);
  }

  lemma ExtendSteps(w: World, id: Id)
    requires id in w.trains
    ensures Steps(By(w), w, Extend(w, id)) && By(Extend(w, id).w) == By(w)
  {
    hide Steps, Walk;
    Stay(By(w), w);
    var transit := w.trains[id].transit;
    if transit.Some? {
      WalkSteps(w, id, transit.value, transit.value.progress, 0, 0.0);
    }
  }

  lemma {:induction false} RetryEachSteps(w: World, ids: seq<Id>, skip: set<Id>)
    requires forall i <- ids :: i in w.trains
    ensures Steps(By(w), w, RetryEach(w, ids, skip)) && By(RetryEach(w, ids, skip).w) == By(w)
    decreases |ids|
  {
    hide Steps, By, Extend;
    if ids == [] {
      Stay(By(w), w);
    } else if ids[0] in skip {
      RetryEachSteps(w, ids[1..], skip);
    } else {
      ExtendSteps(w, ids[0]);
      var first := Extend(w, ids[0]);
      RetryEachSteps(first.w, ids[1..], skip);
      Chain(By(w), w, first, RetryEach(first.w, ids[1..], skip));
    }
  }

  lemma EmitQuiet(w: World, cycle: Option<seq<Id>>)
    ensures Quiet(w, EmitDeadlock(w, cycle).fx, EmitDeadlock(w, cycle).w) && By(EmitDeadlock(w, cycle).w) == By(w)
  {
    hide SortText;
  }

  lemma EmitSteps(w: World, cycle: Option<seq<Id>>)
    ensures Steps(By(w), w, EmitDeadlock(w, cycle)) && By(EmitDeadlock(w, cycle).w) == By(w)
  {
    hide Steps, Quiet, EmitDeadlock, By;
    EmitQuiet(w, cycle);
    QuietStep(By(w), w, EmitDeadlock(w, cycle));
  }

  lemma YieldSteps(w: World, cycle: seq<Id>)
    requires YieldStep(w, cycle).Some?
    ensures var o := YieldStep(w, cycle).value.1; Steps(By(w), w, o) && By(o.w) == By(w)
  {
    hide Steps, LowestOf, PeerWanted, TouchesAny, Yieldable;
    var id := YieldStep(w, cycle).value.0;
    SameGround(w, id, YieldStep(w, cycle).value.1.w.trains[id]);
    DropStep(By(w), w, YieldStep(w, cycle).value.1, id);
  }

  lemma EnactSteps(w: World, id: Id, plan: Plan)
    requires id in w.trains
    ensures Steps(By(w), w, Enact(w, id, plan)) && By(Enact(w, id, plan).w) == By(w)
  {
    hide Steps;
    SameGround(w, id, Enact(w, id, plan).w.trains[id]);
    DropStep(By(w), w, Enact(w, id, plan), id);
  }

  lemma ReverseSteps(w: World, cycle: seq<Id>)
    requires ReverseStep(w, cycle).Some?
    ensures var o := ReverseStep(w, cycle).value.1; Steps(By(w), w, o) && By(o.w) == By(w)
  {
    hide Enact, Steps, By, ReverseFirst, Candidates;
    var found := ReverseFirst(w, cycle, Candidates(w.trains, cycle));
    EnactSteps(w, found.value.0, found.value.1);
  }

  lemma {:induction false} RetrySteps(w: World, skip: Option<set<Id>>)
    ensures Steps(By(w), w, Retry(w, skip)) && By(Retry(w, skip).w) == By(w)
    decreases Level(skip), 2
  {
    hide Steps, By, RetryEach, Resolve;
    var ids := Ordered(w);
    var pass := RetryEach(w, ids, if skip.Some? then skip.value else {});
    RetryEachSteps(w, ids, if skip.Some? then skip.value else {});
    ResolveSteps(pass.w, skip);
    Chain(By(w), w, pass, Resolve(pass.w, skip));
  }

  lemma {:induction false} ResolveSteps(w: World, skip: Option<set<Id>>)
    ensures Steps(By(w), w, Resolve(w, skip)) && By(Resolve(w, skip).w) == By(w)
    decreases Level(skip), 1
  {
    hide Steps, By, Detect, YieldStep, ReverseStep, EmitDeadlock;
    var cycle := Detect(w.order, w.trains);
    EmitSteps(w, cycle);
    if cycle.Some? && skip.None? {
      var yielded := YieldStep(w, cycle.value);
      var reversed := ReverseStep(w, cycle.value);
      if yielded.Some? {
        YieldSteps(w, cycle.value);
        RegrantSteps(w, yielded.value.0, yielded.value.1);
      } else if reversed.Some? {
        ReverseSteps(w, cycle.value);
        RegrantSteps(w, reversed.value.0, reversed.value.1);
      }
    }
  }

  lemma {:induction false} RegrantSteps(w: World, id: Id, gave: Out)
    requires Steps(By(w), w, gave) && By(gave.w) == By(w)
    ensures Steps(By(w), w, Regrant(id, gave)) && By(Regrant(id, gave).w) == By(w)
    decreases 1, 0
  {
    hide Steps, By, Retry;
    RetrySteps(gave.w, Some({id}));
    Chain(By(w), w, gave, Retry(gave.w, Some({id})));
  }
}
