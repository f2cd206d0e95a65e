/** What subscribers and switch devices see: replaying the effects of a run gives the scheduler's own state. */
module Published {
  import opened Rail
  import opened LayoutModel
  import opened World
  import opened Clearance
  import opened Handlers
  import opened Plays
  import opened HandlerPlays

  predicate NoReset(inputs: seq<Input>) {
    forall i <- inputs :: !i.Reset?
  }

  // ---------- retained clearance snapshots ----------

  datatype Shown = Shown(edges: seq<EdgeRef>, blocked: bool)

  /** The retained clearance state after a stream of effects. */
  function Replay(seen: map<Id, Shown>, fx: seq<Effect>): map<Id, Shown>
    decreases |fx|
  {
    if fx == [] then seen
    else
      var x := fx[0];
      Replay(if x.Show? && x.snapshot.Clearance?
             then seen[x.snapshot.train := Shown(x.snapshot.edges, x.snapshot.blocked)] else seen,
             fx[1..])
  }

  function Seen(seen: map<Id, Shown>, id: Id): Shown {
    if id in seen then seen[id] else Shown([], false)
  }

  function Actual(w: World, id: Id): Shown {
    if id in w.trains then Shown(Edges(w.trains[id].held), w.trains[id].blocked) else Shown([], false)
  }

  /** The snapshots are right for every train, save those emptied silently, which hold nothing. */
  ghost predicate Mirrors(seen: map<Id, Shown>, stale: set<Id>, w: World) {
    && (forall id :: id !in stale ==> Seen(seen, id) == Actual(w, id))
    && (forall id <- stale :: Actual(w, id) == Shown([], false))
  }

  predicate ShowsTrain(x: Effect, id: Id) {
    x.Show? && x.snapshot.Clearance? && x.snapshot.train == id
  }

  /** The trains some clearance snapshot is about. */
  function Told(fx: seq<Effect>): set<Id> {
    set x | x in fx && x.Show? && x.snapshot.Clearance? :: x.snapshot.train
  }

  lemma {:induction false} ReplayAppend(seen: map<Id, Shown>, a: seq<Effect>, b: seq<Effect>)
    ensures Replay(seen, a + b) == Replay(Replay(seen, a), b)
    decreases |a|
  {
    if a == [] {
      assert a + b == b;
    } else {
      assert (a + b)[1..] == a[1..] + b && (a + b)[0] == a[0];
      var x := a[0];
      var next := if x.Show? && x.snapshot.Clearance?
                  then seen[x.snapshot.train := Shown(x.snapshot.edges, x.snapshot.blocked)] else seen;
      ReplayAppend(next, a[1..], b);
    }
  }

  lemma {:induction false} ReplayHarmless(seen: map<Id, Shown>, fx: seq<Effect>)
    requires Harmless(fx)
    ensures Replay(seen, fx) == seen
    decreases |fx|
  {
    if fx == [] {
    } else {
      assert !Critical(fx[0]);
      ReplayHarmless(seen, fx[1..]);
    }
  }

  /** Effects whose only clearance snapshot is a given one leave exactly that on record. */
  lemma {:induction false} ReplayOnly(seen: map<Id, Shown>, fx: seq<Effect>, id: Id, s: Shown)
    requires OnlyShows(fx, Show(Clearance(id, s.edges, s.blocked)))
    ensures Replay(seen, fx) == seen[id := s]
    decreases |fx|
  {
    var shown := Show(Clearance(id, s.edges, s.blocked));
    if shown in fx[1..] {
      ReplayOnly(seen, fx[1..], id, s);
      assert fx[0] == shown || !Critical(fx[0]);
      if fx[0] == shown {
        ReplayOnly(seen[id := s], fx[1..], id, s);
      }
    } else {
      assert fx[0] == shown && Harmless(fx[1..]);
      ReplayHarmless(seen[id := s], fx[1..]);
    }
  }

  /** A snapshot of a train ends its being out of date, and nothing else changes who is. */
  ghost predicate MirrorStep(seen: map<Id, Shown>, stale: set<Id>, fx: seq<Effect>, w': World) {
    Mirrors(Replay(seen, fx), stale - Told(fx), w')
  }

  lemma ToldOnly(fx: seq<Effect>, id: Id, s: Shown)
    requires OnlyShows(fx, Show(Clearance(id, s.edges, s.blocked)))
    ensures Told(fx) == {id}
  {
    forall x | x in fx && x.Show? && x.snapshot.Clearance? ensures x.snapshot.train == id {
      assert Critical(x);
    }
  }

  lemma ToldHarmless(fx: seq<Effect>)
    requires Harmless(fx)
    ensures Told(fx) == {}
  {
    forall x | x in fx ensures !(x.Show? && x.snapshot.Clearance?) {
      assert !Critical(x);
    }
  }

  lemma ToldAppend(a: seq<Effect>, b: seq<Effect>)
    ensures Told(a + b) == Told(a) + Told(b)
  {
    forall id ensures id in Told(a + b) <==> id in Told(a) + Told(b) {
      assert forall x :: x in a + b <==> x in a || x in b;
    }
  }

  lemma GrantMirrors(j: Judge, seen: map<Id, Shown>, stale: set<Id>, w: World, fx: seq<Effect>, w': World, id: Id,
                     e: EdgeRef)
    requires Mirrors(seen, stale, w) && Grants(j, w, fx, w', id, e)
    ensures MirrorStep(seen, stale, fx, w')
  {
    hide Demanded, Conflicts, SwitchMismatch, Denied;
    var s := Actual(w', id);
    assert fx == [Send(id, GrantClearance(e.to, [e])), Show(Clearance(id, s.edges, s.blocked))];
    var rest := fx[1..];
    assert rest == [Show(Clearance(id, s.edges, s.blocked))] && rest[1..] == [];
    assert Replay(seen, fx) == Replay(seen, rest) == Replay(seen[id := s], []);
    assert Told(fx) == {id} by {
      assert fx[1] in fx && forall x <- fx :: x.Show? && x.snapshot.Clearance? ==> x == fx[1];
    }
  }

  /** A step that shows one train and changes nobody else. */
  lemma ShownMirrors(seen: map<Id, Shown>, stale: set<Id>, w: World, fx: seq<Effect>, w': World, id: Id)
    requires Mirrors(seen, stale, w)
    requires OnlyShows(fx, Show(Clearance(id, Actual(w', id).edges, Actual(w', id).blocked)))
    requires forall o :: o != id ==> Actual(w', o) == Actual(w, o)
    ensures MirrorStep(seen, stale, fx, w')
  {
    hide Told, Actual, OnlyShows, Replay;
    ReplayOnly(seen, fx, id, Actual(w', id));
    ToldOnly(fx, id, Actual(w', id));
  }

  lemma GuardMirrors(seen: map<Id, Shown>, stale: set<Id>, w: World, fx: seq<Effect>, w': World, id: Id, m: Marker,
                     now: real)
    requires Mirrors(seen, stale, w) && Guards(w, fx, w', id, m, now)
    ensures MirrorStep(seen, stale, fx, w')
  {
    hide Mirrors, MirrorStep, Violates, HasIncidentEdges, HoldsEdge, Edges;
    assert fx[2] in fx;
    ShownMirrors(seen, stale, w, fx, w', id);
  }

  lemma DropMirrors(seen: map<Id, Shown>, stale: set<Id>, w: World, fx: seq<Effect>, w': World, id: Id)
    requires Mirrors(seen, stale, w) && (Drops(w, fx, w', id) || Leaves(w, fx, w', id))
    ensures MirrorStep(seen, stale, fx, w')
  {
    hide Mirrors, MirrorStep, OnlyShows, Edges, SameSwitches;
    ShownMirrors(seen, stale, w, fx, w', id);
  }

  lemma SameMirrors(seen: map<Id, Shown>, stale: set<Id>, w: World, fx: seq<Effect>, w': World)
    requires Mirrors(seen, stale, w) && Replay(seen, fx) == seen && Told(fx) == {}
    requires forall id :: Actual(w, id) == Actual(w', id)
    ensures MirrorStep(seen, stale, fx, w')
  {
    assert stale - {} == stale;
  }

  lemma OtherSame(j: Judge, seen: map<Id, Shown>, w: World, fx: seq<Effect>, w': World)
    requires Quiet(w, fx, w') || (exists id, e :: Asks(j, w, fx, w', id, e)) || (exists id :: Joins(w, fx, w', id))
             || (exists m, p :: Confirms(w, fx, w', m, p))
    ensures Replay(seen, fx) == seen && Told(fx) == {} && forall id :: Actual(w, id) == Actual(w', id)
  {
    hide Asks, Confirms, Told;
    if id, e :| Asks(j, w, fx, w', id, e) {
      AskShowsNothing(j, seen, w, fx, w', id, e);
    } else if m, p :| Confirms(w, fx, w', m, p) {
      ConfirmShowsNothing(seen, w, fx, w', m, p);
    } else {
      ReplayHarmless(seen, fx);
      ToldHarmless(fx);
    }
  }

  lemma AskShowsNothing(j: Judge, seen: map<Id, Shown>, w: World, fx: seq<Effect>, w': World, id: Id, e: EdgeRef)
    requires Asks(j, w, fx, w', id, e)
    ensures Replay(seen, fx) == seen && Told(fx) == {} && w'.trains == w.trains
  {
    hide Demanded, Conflicts, SwitchMismatch, Required;
    assert |fx| == 1 && fx[0].Send? && fx[1..] == [];
  }

  lemma ConfirmShowsNothing(seen: map<Id, Shown>, w: World, fx: seq<Effect>, w': World, m: Marker, p: string)
    requires Confirms(w, fx, w', m, p)
    ensures Replay(seen, fx) == seen && Told(fx) == {} && w'.trains == w.trains
  {
    assert |fx| == 1 && fx[1..] == [];
  }

  lemma LinkMirrors(j: Judge, seen: map<Id, Shown>, stale: set<Id>, w: World, fx: seq<Effect>, w': World)
    requires Mirrors(seen, stale, w) && Link(j, w, fx, w')
    ensures MirrorStep(seen, stale, fx, w')
  {
    hide Mirrors, MirrorStep, Grants, Asks, Drops, Guards, Joins, Leaves, Confirms, Quiet, Told;
    if id, e :| Grants(j, w, fx, w', id, e) {
      GrantMirrors(j, seen, stale, w, fx, w', id, e);
    } else if id, m, now :| Guards(w, fx, w', id, m, now) {
      GuardMirrors(seen, stale, w, fx, w', id, m, now);
    } else if id :| Drops(w, fx, w', id) || Leaves(w, fx, w', id) {
      DropMirrors(seen, stale, w, fx, w', id);
    } else {
      OtherSame(j, seen, w, fx, w');
      SameMirrors(seen, stale, w, fx, w');
    }
  }

  lemma {:induction false} PlayMirrors(j: Judge, seen: map<Id, Shown>, stale: set<Id>, p: Play)
    requires Mirrors(seen, stale, p.at) && Legal(j, p)
    ensures MirrorStep(seen, stale, Emitted(p), End(p))
    decreases p
  {
    hide Mirrors, Link, Told;
    if p.Stop? {
      NothingTold(seen, stale);
    } else {
      LinkMirrors(j, seen, stale, p.at, p.fx, p.rest.at);
      PlayMirrors(j, Replay(seen, p.fx), stale - Told(p.fx), p.rest);
      ReplayAppend(seen, p.fx, Emitted(p.rest));
      ToldAppend(p.fx, Emitted(p.rest));
      assert stale - Told(p.fx) - Told(Emitted(p.rest)) == stale - (Told(p.fx) + Told(Emitted(p.rest)));
    }
  }

  lemma NothingTold(seen: map<Id, Shown>, stale: set<Id>)
    ensures Replay(seen, []) == seen && stale - Told([]) == stale
  {
    assert Told([]) == {};
  }

  // ---------- whole runs ----------

  function SilencedSet(w: World, i: Input): set<Id> {
    if Silenced(w, i).Some? then {Silenced(w, i).value} else {}
  }

  lemma StartMirrors(w: World, i: Input, seen: map<Id, Shown>, stale: set<Id>)
    requires Mirrors(seen, stale, w)
    ensures Mirrors(seen, stale + SilencedSet(w, i), Start(w, i))
  {
    hide Silenced;
    var s := Silenced(w, i);
    forall id ensures Actual(Start(w, i), id) == if s == Some(id) then Shown([], false) else Actual(w, id) {
    }
  }

  /** One input: exactly the train it empties silently may become wrong, and every snapshot puts its train right. */
  lemma StepMirrors(w: World, i: Input, seen: map<Id, Shown>, stale: set<Id>)
    requires Mirrors(seen, stale, w) && !i.Reset?
    ensures MirrorStep(seen, stale + SilencedSet(w, i), Step(w, i).fx, Step(w, i).w)
  {
    hide Step, Mirrors, MirrorStep, Start, SilencedSet;
    StepIsPlay(w, i);
    StartMirrors(w, i, seen, stale);
    var p :| IsPlay(JudgeOf(w, i), p, Start(w, i), Step(w, i));
    PlayMirrors(JudgeOf(w, i), seen, stale + SilencedSet(w, i), p);
  }

  lemma {:induction false} ReplayUntold(seen: map<Id, Shown>, fx: seq<Effect>, id: Id)
    requires id !in Told(fx)
    ensures Seen(Replay(seen, fx), id) == Seen(seen, id)
    decreases |fx|
  {
    if fx == [] {
    } else {
      var x := fx[0];
      assert !ShowsTrain(x, id);
      assert id !in Told(fx[1..]);
      ReplayUntold(if x.Show? && x.snapshot.Clearance?
                   then seen[x.snapshot.train := Shown(x.snapshot.edges, x.snapshot.blocked)] else seen,
                   fx[1..], id);
    }
  }

  /**
   * An accepted assignment, or a recovery whose replanning fails, empties a train's list without a snapshot of its
   * own: what is published of that train is right afterwards exactly if it held nothing and was not blocked, or a
   * later grant of the same call showed it.
   */
  lemma SilenceIff(w: World, i: Input, seen: map<Id, Shown>, stale: set<Id>, id: Id)
    requires Mirrors(seen, stale, w) && Seen(seen, id) == Actual(w, id) && Silenced(w, i) == Some(id)
    ensures var o := Step(w, i);
            Seen(Replay(seen, o.fx), id) == Actual(o.w, id)
            <==> (w.trains[id].held == [] && !w.trains[id].blocked) || exists x <- o.fx :: ShowsTrain(x, id)
  {
    var o := Step(w, i);
    hide Step, Silenced;
    StepMirrors(w, i, seen, stale);
    assert id in Told(o.fx) <==> exists x <- o.fx :: ShowsTrain(x, id);
    if id !in Told(o.fx) {
      ReplayUntold(seen, o.fx, id);
      assert Edges(w.trains[id].held) == [] <==> w.trains[id].held == [];
    }
  }

  /** The retained snapshots after a run; a reset clears every retained topic. */
  function Retained(seen: map<Id, Shown>, w: World, inputs: seq<Input>): map<Id, Shown> {
    if inputs == [] then seen
    else
      var front, last := inputs[..|inputs| - 1], inputs[|inputs| - 1];
      if last.Reset? then map[] else Replay(Retained(seen, w, front), Step(Run(w, front).w, last).fx)
  }

  /** The trains emptied silently since their last snapshot. */
  function Stale(w: World, inputs: seq<Input>): set<Id> {
    if inputs == [] then {}
    else
      var front, last := inputs[..|inputs| - 1], inputs[|inputs| - 1];
      var before := Run(w, front).w;
      if last.Reset? then {} else Stale(w, front) + SilencedSet(before, last) - Told(Step(before, last).fx)
  }

  lemma RunUnrolls(w: World, inputs: seq<Input>)
    ensures Run(w, inputs) == if inputs == [] then Out(w, [])
                              else
                                var before := Run(w, inputs[..|inputs| - 1]);
                                Then(before, Step(before.w, inputs[|inputs| - 1]))
  {
    hide Step;
  }

  lemma ResetMirrors(w: World)
    ensures Mirrors(map[], {}, Step(w, Reset).w)
  {
  }

  /**
   * Over every run, resets included, the retained snapshots give each train's held edges and block reason, except
   * for a train emptied silently since its last snapshot, which holds nothing.
   */
  lemma {:induction false} RunMirrors(w: World, inputs: seq<Input>, seen: map<Id, Shown>)
    requires Mirrors(seen, {}, w)
    ensures Mirrors(Retained(seen, w, inputs), Stale(w, inputs), Run(w, inputs).w)
    decreases |inputs|
  {
    hide Step, Mirrors, Run, Replay, SilencedSet, Told;
    RunUnrolls(w, inputs);
    if inputs == [] {
    } else {
      var front, last := inputs[..|inputs| - 1], inputs[|inputs| - 1];
      var before := Run(w, front).w;
      RunMirrors(w, front, seen);
      if last.Reset? {
        ResetMirrors(before);
      } else {
        StepMirrors(before, last, Retained(seen, w, front), Stale(w, front));
      }
    }
  }

  // ---------- switch commands ----------

  /** The position last asked for or confirmed at each junction. */
  function Asked(req: map<Marker, string>, x: Effect): map<Marker, string> {
    if x.Send? && x.command.SetSwitch? then req[x.command.junction := x.command.position]
    else if x.Show? && x.snapshot.SwitchOf? && x.snapshot.confirmed then req[x.snapshot.junction := x.snapshot.position]
    else req
  }

  function AskedAll(req: map<Marker, string>, fx: seq<Effect>): map<Marker, string> {
    if fx == [] then req else Asked(AskedAll(req, fx[..|fx| - 1]), fx[|fx| - 1])
  }

  /** No command asks for the position last asked for or confirmed. */
  ghost predicate NeverRepeats(req: map<Marker, string>, fx: seq<Effect>) {
    forall k :: 0 <= k < |fx| && fx[k].Send? && fx[k].command.SetSwitch?
      ==> var now := AskedAll(req, fx[..k]);
          !(fx[k].command.junction in now && now[fx[k].command.junction] == fx[k].command.position)
  }

  lemma {:induction false} AskedAppend(req: map<Marker, string>, a: seq<Effect>, b: seq<Effect>)
    ensures AskedAll(req, a + b) == AskedAll(AskedAll(req, a), b)
    decreases |b|
  {
    if b == [] {
      assert a + b == a;
    } else {
      assert (a + b)[..|a + b| - 1] == a + b[..|b| - 1];
      AskedAppend(req, a, b[..|b| - 1]);
    }
  }

  lemma RepeatsAppend(req: map<Marker, string>, a: seq<Effect>, b: seq<Effect>)
    requires NeverRepeats(req, a) && NeverRepeats(AskedAll(req, a), b)
    ensures NeverRepeats(req, a + b)
  {
    var fx := a + b;
    forall k | 0 <= k < |fx| && fx[k].Send? && fx[k].command.SetSwitch?
      ensures var now := AskedAll(req, fx[..k]);
              !(fx[k].command.junction in now && now[fx[k].command.junction] == fx[k].command.position)
    {
      if k < |a| {
        assert fx[..k] == a[..k];
      } else {
        assert fx[..k] == a + b[..k - |a|] && fx[k] == b[k - |a|];
        AskedAppend(req, a, b[..k - |a|]);
      }
    }
  }

  predicate SpeaksOfSwitch(x: Effect) {
    (x.Send? && x.command.SetSwitch?) || (x.Show? && x.snapshot.SwitchOf? && x.snapshot.confirmed)
  }

  lemma {:induction false} SilentAsks(req: map<Marker, string>, fx: seq<Effect>)
    requires forall x <- fx :: !SpeaksOfSwitch(x)
    ensures AskedAll(req, fx) == req && NeverRepeats(req, fx)
  {
    if fx == [] {
    } else {
      var front := fx[..|fx| - 1];
      assert fx[|fx| - 1] in fx && forall x <- front :: x in fx;
      SilentAsks(req, front);
    }
    assert forall k :: 0 <= k < |fx| ==> fx[k] in fx;
  }

  lemma LinkAsks(j: Judge, w: World, fx: seq<Effect>, w': World)
    requires Link(j, w, fx, w')
    ensures AskedAll(w.requested, fx) == w'.requested && NeverRepeats(w.requested, fx)
  {
    hide Link, Asks, Confirms, NeverRepeats;
    if id, e :| Asks(j, w, fx, w', id, e) {
      AskLink(j, w, fx, w', id, e);
    } else if m, p :| Confirms(w, fx, w', m, p) {
      ConfirmLink(w, fx, w', m, p);
    } else {
      LinkSilent(j, w, fx, w');
      SilentAsks(w.requested, fx);
    }
  }

  lemma ConfirmLink(w: World, fx: seq<Effect>, w': World, m: Marker, p: string)
    requires Confirms(w, fx, w', m, p)
    ensures AskedAll(w.requested, fx) == w'.requested && NeverRepeats(w.requested, fx)
  {
    assert fx[..0] == [] && AskedAll(w.requested, []) == w.requested;
  }

  lemma AskLink(j: Judge, w: World, fx: seq<Effect>, w': World, id: Id, e: EdgeRef)
    requires Asks(j, w, fx, w', id, e)
    ensures AskedAll(w.requested, fx) == w'.requested && NeverRepeats(w.requested, fx)
  {
    hide Conflicts, SwitchMismatch;
    assert fx[..0] == [] && AskedAll(w.requested, []) == w.requested;
  }

  lemma LinkSilent(j: Judge, w: World, fx: seq<Effect>, w': World)
    requires Link(j, w, fx, w')
    requires forall id, e :: !Asks(j, w, fx, w', id, e)
    requires forall m, p :: !Confirms(w, fx, w', m, p)
    ensures w'.requested == w.requested && forall x <- fx :: !SpeaksOfSwitch(x)
  {
    hide Grants, Asks, Drops, Guards, Joins, Leaves, Confirms, Quiet;
    if id, e :| Grants(j, w, fx, w', id, e) {
      GrantSilent(j, w, fx, w', id, e);
    } else if id, m, now :| Guards(w, fx, w', id, m, now) {
      GuardSilent(w, fx, w', id, m, now);
    } else if id :| Drops(w, fx, w', id) || Leaves(w, fx, w', id) {
      DropSilent(w, fx, w', id);
    } else {
      RestSilent(w, fx, w');
    }
  }

  lemma GrantSilent(j: Judge, w: World, fx: seq<Effect>, w': World, id: Id, e: EdgeRef)
    requires Grants(j, w, fx, w', id, e)
    ensures w'.requested == w.requested && forall x <- fx :: !SpeaksOfSwitch(x)
  {
    hide Conflicts, SwitchMismatch, Denied, Edges;
  }

  lemma GuardSilent(w: World, fx: seq<Effect>, w': World, id: Id, m: Marker, now: real)
    requires Guards(w, fx, w', id, m, now)
    ensures w'.requested == w.requested && forall x <- fx :: !SpeaksOfSwitch(x)
  {
    hide Violates, Edges;
  }

  lemma DropSilent(w: World, fx: seq<Effect>, w': World, id: Id)
    requires Drops(w, fx, w', id) || Leaves(w, fx, w', id)
    ensures w'.requested == w.requested && forall x <- fx :: !SpeaksOfSwitch(x)
  {
    hide Edges;
  }

  lemma RestSilent(w: World, fx: seq<Effect>, w': World)
    requires Quiet(w, fx, w') || (exists id :: Joins(w, fx, w', id))
    ensures w'.requested == w.requested && forall x <- fx :: !SpeaksOfSwitch(x)
  {
    assert SameSwitches(w, w') && Harmless(fx);
  }

  lemma {:induction false} PlayAsks(j: Judge, p: Play)
    requires Legal(j, p)
    ensures AskedAll(p.at.requested, Emitted(p)) == End(p).requested && NeverRepeats(p.at.requested, Emitted(p))
    decreases p
  {
    if p.Stop? {
      assert Emitted(p) == [];
    } else {
      hide Link, NeverRepeats;
      LinkAsks(j, p.at, p.fx, p.rest.at);
      PlayAsks(j, p.rest);
      AskedAppend(p.at.requested, p.fx, Emitted(p.rest));
      RepeatsAppend(p.at.requested, p.fx, Emitted(p.rest));
    }
  }

  lemma StepAsks(w: World, i: Input)
    requires !i.Reset?
    ensures AskedAll(w.requested, Step(w, i).fx) == Step(w, i).w.requested && NeverRepeats(w.requested, Step(w, i).fx)
  {
    hide Step, NeverRepeats, Silenced;
    StepIsPlay(w, i);
    var p :| IsPlay(JudgeOf(w, i), p, Start(w, i), Step(w, i));
    PlayAsks(JudgeOf(w, i), p);
  }

  lemma {:induction false} RunAsks(w: World, inputs: seq<Input>)
    requires NoReset(inputs)
    ensures AskedAll(w.requested, Run(w, inputs).fx) == Run(w, inputs).w.requested
            && NeverRepeats(w.requested, Run(w, inputs).fx)
    decreases |inputs|
  {
    if inputs == [] {
    } else {
      var front, last := inputs[..|inputs| - 1], inputs[|inputs| - 1];
      RunAsks(w, front);
      hide Step, NeverRepeats;
      StepAsks(Run(w, front).w, last);
      AskedAppend(w.requested, Run(w, front).fx, Step(Run(w, front).w, last).fx);
      RepeatsAppend(w.requested, Run(w, front).fx, Step(Run(w, front).w, last).fx);
    }
  }

  predicate IsCommandFor(x: Effect, m: Marker, p: string) {
    x.Send? && x.command.SetSwitch? && x.command.junction == m && x.command.position == p
  }

  predicate SpeaksOf(x: Effect, m: Marker) {
    (x.Send? && x.command.SetSwitch? && x.command.junction == m)
    || (x.Show? && x.snapshot.SwitchOf? && x.snapshot.confirmed && x.snapshot.junction == m)
  }

  lemma {:induction false} AskRemembered(req: map<Marker, string>, fx: seq<Effect>, i: nat, k: nat, m: Marker,
                                         p: string)
    requires i < k <= |fx| && IsCommandFor(fx[i], m, p)
    requires forall n :: i < n < k ==> !SpeaksOf(fx[n], m)
    ensures m in AskedAll(req, fx[..k]) && AskedAll(req, fx[..k])[m] == p
    decreases k
  {
    assert fx[..k][..k - 1] == fx[..k - 1] && fx[..k][k - 1] == fx[k - 1];
    if k > i + 1 {
      AskRemembered(req, fx, i, k - 1, m, p);
    }
  }

  /** Between two equal commands to one junction there is another command to it, or a confirmed report of it. */
  lemma RepeatNeedsNews(w: World, inputs: seq<Input>, i: nat, k: nat, m: Marker, p: string)
    requires NoReset(inputs)
    requires var fx := Run(w, inputs).fx; i < k < |fx| && IsCommandFor(fx[i], m, p) && IsCommandFor(fx[k], m, p)
    ensures exists n :: i < n < k && SpeaksOf(Run(w, inputs).fx[n], m)
  {
    var fx := Run(w, inputs).fx;
    RunAsks(w, inputs);
    if forall n :: i < n < k ==> !SpeaksOf(fx[n], m) {
      AskRemembered(w.requested, fx, i, k, m, p);
      assert false;
    }
  }
}
