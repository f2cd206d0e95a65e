/** Block exclusivity over whole runs (ADR-011), with the spans topology violations retain set apart. */
module Exclusivity {
  import opened Rail
  import opened LayoutModel
  import opened World
  import opened Clearance
  import opened Handlers
  import opened Plays
  import opened HandlerPlays

  /** Two edges held by different trains: if they touch, the later acquisition is a guard. */
  ghost predicate Compatible(x: Held, y: Held) {
    && x.at != y.at
    && (Touches(x.edge, y.edge) && x.at < y.at ==> y.guard)
    && (Touches(x.edge, y.edge) && y.at < x.at ==> x.guard)
  }

  ghost predicate Stamped(w: World) {
    forall a, x :: a in w.trains && x in w.trains[a].held ==> x.at < w.clock
  }

  ghost predicate Exclusive(w: World) {
    && Stamped(w)
    && (forall a, b, x, y :: a in w.trains && b in w.trains && a != b && x in w.trains[a].held && y in w.trains[b].held
          ==> Compatible(x, y))
  }

  /** Every train holds at most what it held before. */
  ghost predicate OnlyLoses(w: World, w': World) {
    && w.clock <= w'.clock
    && (forall a :: a in w'.trains && w'.trains[a].held != [] ==> a in w.trains)
    && (forall a, x :: a in w'.trains && a in w.trains && x in w'.trains[a].held ==> x in w.trains[a].held)
  }

  lemma LosingKeeps(w: World, w': World)
    requires Exclusive(w) && OnlyLoses(w, w')
    ensures Exclusive(w')
  {
  }

  /** One train gained one edge, stamped now. */
  ghost predicate Gains(w: World, w': World, id: Id, h: Held) {
    && id in w.trains && id in w'.trains && w'.clock == w.clock + 1 && h.at == w.clock
    && w'.trains[id].held == w.trains[id].held + [h]
    && (forall o :: o != id ==> (o in w.trains <==> o in w'.trains))
    && (forall o :: o != id && o in w.trains && o in w'.trains ==> w'.trains[o].held == w.trains[o].held)
  }

  lemma GainingKeeps(w: World, w': World, id: Id, h: Held)
    requires Exclusive(w) && Gains(w, w', id, h)
    requires h.guard || !Conflicts(w, id, h.edge)
    ensures Exclusive(w')
  {
    forall o, x | o in w.trains && o != id && x in w.trains[o].held ensures Compatible(x, h) && Compatible(h, x) {
      assert Touches(x.edge, h.edge) ==> TouchesAny(w.trains[o].held, h.edge);
    }
    assert forall a, x :: a in w'.trains && x in w'.trains[a].held
             ==> (a == id && x == h) || (a in w.trains && x in w.trains[a].held);
  }

  lemma HoldingKeeps(w: World, id: Id, m: Marker, now: real)
    requires Exclusive(w) && id in w.trains && w.trains[id].last.Some?
    ensures Exclusive(HoldAt(w, id, m, now).w)
  {
    var span := EdgeRef(w.trains[id].last.value, m);
    var w' := HoldAt(w, id, m, now).w;
    if HoldsEdge(w.trains[id].held, span) {
      LosingKeeps(w, w');
    } else {
      GainingKeeps(w, w', id, Held(span, true, w.clock));
    }
  }

  lemma LinkKeeps(j: Judge, w: World, fx: seq<Effect>, w': World)
    requires Exclusive(w) && Link(j, w, fx, w')
    ensures Exclusive(w')
  {
    hide Exclusive, Denied, SwitchMismatch, Violates, Demanded;
    if id, e :| Grants(j, w, fx, w', id, e) {
      GainingKeeps(w, w', id, Held(e, false, w.clock));
    } else if id, m, now :| Guards(w, fx, w', id, m, now) {
      GuardKeeps(w, fx, w', id, m, now);
    } else {
      OtherLinksLose(j, w, fx, w');
      LosingKeeps(w, w');
    }
  }

  lemma GuardKeeps(w: World, fx: seq<Effect>, w': World, id: Id, m: Marker, now: real)
    requires Exclusive(w) && Guards(w, fx, w', id, m, now)
    ensures Exclusive(w')
  {
    hide Exclusive;
    HoldingKeeps(w, id, m, now);
  }

  lemma OtherLinksLose(j: Judge, w: World, fx: seq<Effect>, w': World)
    requires Link(j, w, fx, w')
    requires forall id, e :: !Grants(j, w, fx, w', id, e)
    requires forall id, m, now :: !Guards(w, fx, w', id, m, now)
    ensures OnlyLoses(w, w')
  {
    hide SwitchMismatch, Conflicts, Actuate, Demanded;
    if id, e :| Asks(j, w, fx, w', id, e) {
      AskLoses(w, id, e);
    }
  }

  lemma AskLoses(w: World, id: Id, e: EdgeRef)
    ensures OnlyLoses(w, Actuate(w, id, e).w)
  {
    hide Required;
  }

  lemma {:induction false} PlayKeeps(j: Judge, p: Play)
    requires Legal(j, p) && Exclusive(p.at)
    ensures Exclusive(End(p))
  {
    hide Exclusive, Link;
    if p.Stop? {
    } else {
      LinkKeeps(j, p.at, p.fx, p.rest.at);
      PlayKeeps(j, p.rest);
    }
  }

  lemma StartKeeps(w: World, i: Input)
    requires Exclusive(w)
    ensures Exclusive(Start(w, i))
  {
    hide Silenced, Exclusive;
    LosingKeeps(w, Start(w, i));
  }

  lemma StepKeeps(w: World, i: Input)
    requires Exclusive(w)
    ensures Exclusive(Step(w, i).w)
  {
    if i.Reset? {
    } else {
      StepsKeepExclusive(w, i);
    }
  }

  lemma StepsKeepExclusive(w: World, i: Input)
    requires Exclusive(w) && !i.Reset?
    ensures Exclusive(Step(w, i).w)
  {
    hide Exclusive, Step, Start;
    StepIsPlay(w, i);
    StartKeeps(w, i);
    var p :| IsPlay(JudgeOf(w, i), p, Start(w, i), Step(w, i));
    PlayKeeps(JudgeOf(w, i), p);
  }

  /**
   * Every event and operator call keeps exclusivity: grants inside retries, yields, reverses and recoveries included.
   */
  lemma {:induction false} RunKeepsExclusive(w: World, inputs: seq<Input>)
    requires Exclusive(w)
    ensures Exclusive(Run(w, inputs).w)
  {
    if inputs == [] {
    } else {
      var front := inputs[..|inputs| - 1];
      RunKeepsExclusive(w, front);
      hide Exclusive, Step;
      StepKeeps(Run(w, front).w, inputs[|inputs| - 1]);
    }
  }

  /** Over every run of a fresh scheduler, edges granted to different trains share no marker. */
  lemma GrantedEdgesNeverTouch(l: Layout, stack: nat, inputs: seq<Input>, a: Id, b: Id, x: Held, y: Held)
    requires var w := Run(Fresh(l, stack), inputs).w;
             a in w.trains && b in w.trains && a != b && x in w.trains[a].held && y in w.trains[b].held
    ensures !x.guard && !y.guard ==> !Touches(x.edge, y.edge)
    ensures Touches(x.edge, y.edge) ==> x.at != y.at && (if x.at < y.at then y.guard else x.guard)
  {
    assert Exclusive(Fresh(l, stack));
    RunKeepsExclusive(Fresh(l, stack), inputs);
    hide Run;
    assert Compatible(x, y);
  }
}
