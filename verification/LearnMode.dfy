/** Track learning (ADR-015): the local completion check implies that everything reachable has been covered. */
module LearnModes {
  import opened Rail
  import opened LayoutModel

  datatype Status = WaitingForTrain | Driving | PausedTerminus | Complete

  datatype Session = Session(
    train: Id, // empty while no train has been chosen
    start: Option<Marker>,
    last: Option<Marker>,
    visitedEdges: set<EdgeRef>,
    visitedMarkers: set<Marker>,
    exploring: bool,
    status: Status)

  function NewSession(train: Id, status: Status): Session { Session(train, None, None, {}, {}, false, status) }

  /** What the mode reads when it acts: the layout, the registered trains and where each was last seen. */
  datatype Ports = Ports(layout: Layout, registered: seq<Id>, lastSeen: map<Id, Marker>)

  datatype Effect =
    | BeginExploration(train: Id)
    | Release(train: Id)
    | Publish(snapshot: Option<Session>) // idle when there is no session

  /** A session and what was emitted. */
  datatype Out = Out(session: Option<Session>, fx: seq<Effect>)

  // ---------- one review of progress ----------

  /** The session after a report, before any decision. */
  function Noted(s: Session, m: Marker): Session {
    s.(visitedMarkers := s.visitedMarkers + {m},
       start := if s.start.None? then Some(m) else s.start,
       visitedEdges := if s.last.Some? && s.last.value != m then s.visitedEdges + {EdgeRef(s.last.value, m)}
                       else s.visitedEdges,
       last := Some(m))
  }

  predicate IsTerminus(l: Layout, m: Marker) { m in l.markers && l.markers[m] == Terminus }

  /** Every edge out of the marker has been traversed. */
  predicate Exhausted(l: Layout, s: Session, m: Marker) {
    forall e <- EdgesFrom(l, m) :: e.Ref() in s.visitedEdges
  }

  /** Back at the start after moving, with every edge out of every visited marker traversed. */
  predicate FullyTraversed(l: Layout, s: Session, m: Marker) {
    Some(m) == s.start && s.visitedEdges != {} && forall v <- s.visitedMarkers :: Exhausted(l, s, v)
  }

  function Review(p: Ports, s: Session): Out {
    if s.train !in p.lastSeen then Out(Some(s), [])
    else
      var m := p.lastSeen[s.train];
      var n := Noted(s, m);
      if IsTerminus(p.layout, m) then
        var r := n.(exploring := false, status := PausedTerminus);
        Out(Some(r), [Release(n.train), Publish(Some(r))])
      else if FullyTraversed(p.layout, n, m) then
        var r := n.(exploring := false, status := Complete);
        Out(Some(r), [Release(n.train), Publish(Some(r))])
      else
        var r := n.(exploring := true);
        Out(Some(r), (if n.exploring then [] else [BeginExploration(n.train)]) + [Publish(Some(r))])
  }

  // ---------- commands and events ----------

  function Start(p: Ports, requested: Option<Id>): Out {
    if requested.None? && p.registered == [] then
      var s := NewSession("", WaitingForTrain);
      Out(Some(s), [Publish(Some(s))])
    else
      var train := if requested.Some? then requested.value else p.registered[0];
      if train in p.lastSeen then Review(p, NewSession(train, Driving))
      else
        var s := NewSession(train, WaitingForTrain);
        Out(Some(s), [Publish(Some(s))])
  }

  function Stop(session: Option<Session>): Out {
    if session.None? then Out(None, [])
    else Out(None, (if session.value.exploring then [Release(session.value.train)] else []) + [Publish(None)])
  }

  /** A tag observed by a device; a waiting session takes it, or else the first registered train. */
  function TagSeen(p: Ports, session: Option<Session>, device: Id): Out {
    if session.None? then Out(session, [])
    else
      var s := session.value;
      if s.status == WaitingForTrain && p.registered == [] then Out(session, [])
      else
        var taken := if s.status != WaitingForTrain then s
                     else s.(train := if device in p.registered then device else p.registered[0], status := Driving);
        if device != taken.train then Out(Some(taken), []) else Review(p, taken)
  }

  datatype Input = Begin(requested: Option<Id>) | End | Tag(device: Id)

  function Step(p: Ports, session: Option<Session>, i: Input): Out {
    match i
    case Begin(requested) => Start(p, requested)
    case End => Stop(session)
    case Tag(device) => TagSeen(p, session, device)
  }

  /** What happens over a run, the ports read anew each time. */
  datatype Turn = Turn(ports: Ports, input: Input)

  function Run(session: Option<Session>, turns: seq<Turn>): Option<Session> {
    if turns == [] then session
    else
      var before := Run(session, turns[..|turns| - 1]);
      Step(turns[|turns| - 1].ports, before, turns[|turns| - 1].input).session
  }

  // ---------- completion ----------

  /** Visited edges join visited markers, and the start and the last marker are visited. */
  ghost predicate Joined(s: Session) {
    && (forall e <- s.visitedEdges :: e.from in s.visitedMarkers && e.to in s.visitedMarkers)
    && (s.start.Some? ==> s.start.value in s.visitedMarkers)
    && (s.last.Some? ==> s.last.value in s.visitedMarkers)
  }

  ghost predicate SessionOk(session: Option<Session>) { session.Some? ==> Joined(session.value) }

  lemma NotedJoins(s: Session, m: Marker)
    requires Joined(s)
    ensures Joined(Noted(s, m))
  {
  }

  lemma ReviewJoins(p: Ports, s: Session)
    requires Joined(s)
    ensures SessionOk(Review(p, s).session)
  {
    hide FullyTraversed, IsTerminus;
    if s.train in p.lastSeen {
      NotedJoins(s, p.lastSeen[s.train]);
    }
  }

  lemma StepJoins(p: Ports, session: Option<Session>, i: Input)
    requires SessionOk(session)
    ensures SessionOk(Step(p, session, i).session)
  {
    hide Review;
    match i
    case Begin(requested) =>
      var train := if requested.Some? then requested.value else if p.registered != [] then p.registered[0] else "";
      ReviewJoins(p, NewSession(train, Driving));
    case End =>
    case Tag(device) =>
      if session.Some? {
        var s := session.value;
        ReviewJoins(p, s);
        ReviewJoins(p, s.(train := device, status := Driving));
        if p.registered != [] {
          ReviewJoins(p, s.(train := p.registered[0], status := Driving));
        }
      }
  }

  lemma {:induction false} RunJoins(turns: seq<Turn>)
    ensures SessionOk(Run(None, turns))
    decreases |turns|
  {
    hide SessionOk, Step;
    if turns == [] {
      NothingJoins();
    } else {
      RunJoins(turns[..|turns| - 1]);
      StepJoins(turns[|turns| - 1].ports, Run(None, turns[..|turns| - 1]), turns[|turns| - 1].input);
    }
  }

  lemma NothingJoins()
    ensures SessionOk(None)
  {
  }

  function WalkEnd(w: seq<LayoutEdge>, from: Marker): Marker { if w == [] then from else w[|w| - 1].to }

  /** A walk along the layout's edges. */
  ghost predicate IsWalk(l: Layout, w: seq<LayoutEdge>, from: Marker) {
    w != [] ==>
      IsWalk(l, w[..|w| - 1], from) && w[|w| - 1] in EdgesFrom(l, WalkEnd(w[..|w| - 1], from))
  }

  ghost predicate Reachable(l: Layout, from: Marker, m: Marker) {
    exists w :: IsWalk(l, w, from) && WalkEnd(w, from) == m
  }

  /** Everything reachable from the start has been visited, and every edge out of it traversed. */
  ghost predicate Covered(l: Layout, s: Session) {
    s.start.Some? && forall m :: Reachable(l, s.start.value, m) ==> m in s.visitedMarkers && Exhausted(l, s, m)
  }

  lemma {:induction false} WalkStaysVisited(l: Layout, s: Session, m: Marker, w: seq<LayoutEdge>, from: Marker)
    requires Joined(s) && FullyTraversed(l, s, m) && from in s.visitedMarkers && IsWalk(l, w, from)
    ensures WalkEnd(w, from) in s.visitedMarkers
    decreases |w|
  {
    if w == [] {
    } else {
      var front := w[..|w| - 1];
      WalkStaysVisited(l, s, m, front, from);
      var at := WalkEnd(front, from);
      assert w[|w| - 1] in EdgesFrom(l, at);
      assert Exhausted(l, s, at);
      assert w[|w| - 1].Ref() in s.visitedEdges;
    }
  }

  /** The local check is enough. */
  lemma TraversedCovers(l: Layout, s: Session, m: Marker)
    requires Joined(s) && FullyTraversed(l, s, m)
    ensures Covered(l, s)
  {
    hide Exhausted;
    forall x | Reachable(l, s.start.value, x) ensures x in s.visitedMarkers && Exhausted(l, s, x) {
      var w :| IsWalk(l, w, s.start.value) && WalkEnd(w, s.start.value) == x;
      WalkStaysVisited(l, s, m, w, s.start.value);
    }
  }

  predicate IsComplete(session: Option<Session>) { session.Some? && session.value.status == Complete }

  /** Every edge out of anything reachable from anything visited has been traversed. */
  ghost predicate NothingLeft(l: Layout, s: Session) {
    forall v, x :: v in s.visitedMarkers && Reachable(l, v, x) ==> Exhausted(l, s, x)
  }

  lemma NothingLeftIff(l: Layout, s: Session, m: Marker)
    requires Joined(s)
    ensures FullyTraversed(l, s, m) <==> s.start == Some(m) && s.visitedEdges != {} && NothingLeft(l, s)
  {
    hide Exhausted;
    if FullyTraversed(l, s, m) {
      forall v, x | v in s.visitedMarkers && Reachable(l, v, x) ensures Exhausted(l, s, x) {
        var w :| IsWalk(l, w, v) && WalkEnd(w, v) == x;
        WalkStaysVisited(l, s, m, w, v);
      }
    }
    forall v ensures Reachable(l, v, v) {
      assert IsWalk(l, [], v) && WalkEnd([], v) == v;
    }
  }

  /**
   * A report completes a session exactly when the train is back at the start, off a terminus, after moving, and
   * nothing reachable from anywhere it has been is left to traverse.
   */
  lemma CompletesIff(p: Ports, session: Option<Session>, device: Id)
    requires session.Some? && session.value.status in {Driving, PausedTerminus} && SessionOk(session)
    requires session.value.train == device && device in p.lastSeen
    ensures var m := p.lastSeen[device];
            var n := Noted(session.value, m);
            IsComplete(TagSeen(p, session, device).session) <==>
              !IsTerminus(p.layout, m) && n.start == Some(m) && n.visitedEdges != {} && NothingLeft(p.layout, n)
  {
    hide FullyTraversed, IsTerminus, NothingLeft, Joined;
    var m := p.lastSeen[device];
    NotedJoins(session.value, m);
    NothingLeftIff(p.layout, Noted(session.value, m), m);
  }

  lemma ReviewCompletes(p: Ports, s: Session)
    requires Joined(s) && s.status != Complete && IsComplete(Review(p, s).session)
    ensures Covered(p.layout, Review(p, s).session.value)
  {
    var m := p.lastSeen[s.train];
    var n := Noted(s, m);
    NotedJoins(s, m);
    hide Covered, FullyTraversed, Joined;
    TraversedCovers(p.layout, n, m);
    SameCovers(p.layout, n, Review(p, s).session.value);
  }

  lemma SameCovers(l: Layout, s: Session, s': Session)
    requires Covered(l, s) && s'.start == s.start && s'.visitedEdges == s.visitedEdges
             && s'.visitedMarkers == s.visitedMarkers
    ensures Covered(l, s')
  {
    hide Reachable;
    forall m | Reachable(l, s.start.value, m) ensures m in s'.visitedMarkers && Exhausted(l, s', m) {
      assert Exhausted(l, s, m);
    }
  }

  /**
   * Over every run: when a step makes the session complete, every marker reachable from the start in the layout of
   * that moment has been visited and every edge out of a reachable marker traversed.
   */
  lemma CompletionCovers(turns: seq<Turn>, p: Ports, i: Input)
    requires var before := Run(None, turns);
             !IsComplete(before) && IsComplete(Step(p, before, i).session)
    ensures Covered(p.layout, Step(p, Run(None, turns), i).session.value)
  {
    RunJoins(turns);
    hide Covered, Review, Run;
    var before := Run(None, turns);
    match i
    case Begin(requested) =>
      var train := if requested.Some? then requested.value else if p.registered != [] then p.registered[0] else "";
      if IsComplete(Review(p, NewSession(train, Driving)).session) {
        ReviewCompletes(p, NewSession(train, Driving));
      }
    case End =>
    case Tag(device) =>
      var s := before.value;
      var next := if device in p.registered then device else if p.registered != [] then p.registered[0] else device;
      var taken := if s.status != WaitingForTrain then s else s.(train := next, status := Driving);
      if IsComplete(Review(p, taken).session) {
        ReviewCompletes(p, taken);
      }
  }

  // ---------- the object ----------

  class LearnMode {
    var session: Option<Session>

    constructor ()
      ensures session == None
    {
      session := None;
    }

    method ReachableGraphFullyTraversed(l: Layout, m: Marker) returns (done: bool)
      requires session.Some?
      ensures done == FullyTraversed(l, session.value, m)
    {
      var s := session.value;
      if Some(m) != s.start || s.visitedEdges == {} {
        return false;
      }
      var left := s.visitedMarkers;
      while left != {}
        invariant left <= s.visitedMarkers
        invariant forall v :: v in s.visitedMarkers && v !in left ==> Exhausted(l, s, v)
        decreases |left|
      {
        var v :| v in left;
        var edges := EdgesFrom(l, v);
        for k := 0 to |edges|
          invariant forall e <- edges[..k] :: e.Ref() in s.visitedEdges
        {
          if edges[k].Ref() !in s.visitedEdges {
            assert edges[k] in EdgesFrom(l, v);
            return false;
          }
        }
        assert edges[..|edges|] == edges;
        left := left - {v};
      }
      return true;
    }

    method ReviewProgress(p: Ports) returns (fx: seq<Effect>)
      requires session.Some?
      modifies this
      ensures Out(session, fx) == Review(p, old(session).value)
    {
      hide FullyTraversed, IsTerminus;
      var s := session.value;
      if s.train !in p.lastSeen {
        return [];
      }
      var m := p.lastSeen[s.train];
      s := s.(visitedMarkers := s.visitedMarkers + {m});
      if s.start.None? {
        s := s.(start := Some(m));
      }
      if s.last.Some? && s.last.value != m {
        s := s.(visitedEdges := s.visitedEdges + {EdgeRef(s.last.value, m)});
      }
      s := s.(last := Some(m));
      session := Some(s);
      if IsTerminus(p.layout, m) {
        session := Some(s.(exploring := false, status := PausedTerminus));
        return [Release(s.train), Publish(session)];
      }
      var done := ReachableGraphFullyTraversed(p.layout, m);
      if done {
        session := Some(s.(exploring := false, status := Complete));
        return [Release(s.train), Publish(session)];
      }
      fx := if s.exploring then [] else [BeginExploration(s.train)];
      session := Some(s.(exploring := true));
      fx := fx + [Publish(session)];
    }

    method StartLearning(p: Ports, requested: Option<Id>) returns (fx: seq<Effect>)
      modifies this
      ensures Out(session, fx) == Start(p, requested)
    {
      hide Review;
      session := None;
      if requested.None? && p.registered == [] {
        session := Some(NewSession("", WaitingForTrain));
        return [Publish(session)];
      }
      var train := if requested.Some? then requested.value else p.registered[0];
      if train in p.lastSeen {
        session := Some(NewSession(train, Driving));
        fx := ReviewProgress(p);
      } else {
        session := Some(NewSession(train, WaitingForTrain));
        fx := [Publish(session)];
      }
    }

    method StopLearning() returns (fx: seq<Effect>)
      modifies this
      ensures Out(session, fx) == Stop(old(session))
    {
      if session.None? {
        return [];
      }
      fx := if session.value.exploring then [Release(session.value.train)] else [];
      session := None;
      fx := fx + [Publish(None)];
    }

    method OnTagObserved(p: Ports, device: Id) returns (fx: seq<Effect>)
      modifies this
      ensures Out(session, fx) == TagSeen(p, old(session), device)
    {
      hide Review;
      if session.None? {
        return [];
      }
      if session.value.status == WaitingForTrain {
        if p.registered == [] {
          return [];
        }
        var next := if device in p.registered then device else p.registered[0];
        session := Some(session.value.(train := next, status := Driving));
      }
      if device != session.value.train {
        return [];
      }
      fx := ReviewProgress(p);
    }
  }
}
