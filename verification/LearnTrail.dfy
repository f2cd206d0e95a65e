/** What a learning session knows and has sent, read off the places its train has reported over the whole session. */
module LearnTrails {
  import opened Rail
  import opened LayoutModel
  import opened LearnModes

  // ---------- the trail ----------

  /** The train a new session is for: the one asked for, or else the first registered. */
  function Candidate(p: Ports, requested: Option<Id>): Option<Id> {
    if requested.Some? then requested else if p.registered == [] then None else Some(p.registered[0])
  }

  /**
   * The train a session follows once a device has seen a tag: a waiting one takes the device, or the first registered.
   */
  function Followed(p: Ports, s: Session, device: Id): Option<Id> {
    if s.status != WaitingForTrain then Some(s.train)
    else if p.registered == [] then None
    else if device in p.registered then Some(device)
    else Some(p.registered[0])
  }

  /** Where the input finds the session's train, if it makes the session look. */
  function Sighting(p: Ports, session: Option<Session>, i: Input): Option<Marker> {
    match i
    case Begin(requested) =>
      var train := Candidate(p, requested);
      if train.Some? then Look(p.lastSeen, train.value) else None
    case End => None
    case Tag(device) =>
      if session.Some? && Followed(p, session.value, device) == Some(device) then Look(p.lastSeen, device) else None
  }

  /** The markers at which the session has found its train, in order. */
  function Trail(turns: seq<Turn>): seq<Marker> {
    if turns == [] then []
    else
      var front, turn := turns[..|turns| - 1], turns[|turns| - 1];
      var seen := Sighting(turn.ports, Run(None, front), turn.input);
      (if turn.input.Tag? then Trail(front) else []) + if seen.Some? then [seen.value] else []
  }

  /** What the trail has covered. */
  ghost predicate Traces(s: Session, trail: seq<Marker>) {
    && (forall m :: m in s.visitedMarkers <==> m in trail)
    && (forall e :: e in s.visitedEdges
          <==> exists k :: 0 < k < |trail| && trail[k - 1] != trail[k] && e == EdgeRef(trail[k - 1], trail[k]))
    && s.start == (if trail == [] then None else Some(trail[0]))
    && s.last == (if trail == [] then None else Some(trail[|trail| - 1]))
  }

  lemma NotedTraces(s: Session, trail: seq<Marker>, m: Marker)
    requires Traces(s, trail)
    ensures Traces(Noted(s, m), trail + [m])
  {
    var n, more := Noted(s, m), trail + [m];
    forall e ensures e in n.visitedEdges
                     <==> exists k :: 0 < k < |more| && more[k - 1] != more[k] && e == EdgeRef(more[k - 1], more[k])
    {
      if k :| 0 < k < |more| && more[k - 1] != more[k] && e == EdgeRef(more[k - 1], more[k]) {
        if k < |trail| {
          assert trail[k - 1] != trail[k] && e == EdgeRef(trail[k - 1], trail[k]);
        }
      }
      if e in n.visitedEdges {
        if e in s.visitedEdges {
          var k :| 0 < k < |trail| && trail[k - 1] != trail[k] && e == EdgeRef(trail[k - 1], trail[k]);
          assert more[k - 1] != more[k] && e == EdgeRef(more[k - 1], more[k]);
        } else {
          assert more[|trail| - 1] != more[|trail|] && e == EdgeRef(more[|trail| - 1], more[|trail|]);
        }
      }
    }
  }

  lemma SameTraces(s: Session, s': Session, trail: seq<Marker>)
    requires Traces(s, trail) && s'.visitedMarkers == s.visitedMarkers && s'.visitedEdges == s.visitedEdges
             && s'.start == s.start && s'.last == s.last
    ensures Traces(s', trail)
  {
  }

  lemma NewTraces(train: Id, status: Status)
    ensures Traces(NewSession(train, status), [])
  {
  }

  /** A review adds the place it finds the train at, and nothing when it finds none. */
  lemma ReviewTraces(p: Ports, s: Session, trail: seq<Marker>)
    requires Traces(s, trail)
    ensures var r := Review(p, s).session;
            r.Some? && Traces(r.value, trail + if s.train in p.lastSeen then [p.lastSeen[s.train]] else [])
  {
    hide FullyTraversed, IsTerminus, Traces, Noted;
    assert trail + [] == trail;
    if s.train in p.lastSeen {
      var m := p.lastSeen[s.train];
      NotedTraces(s, trail, m);
      SameTraces(Noted(s, m), Review(p, s).session.value, trail + [m]);
    }
  }

  lemma TagTraces(p: Ports, s: Session, device: Id, trail: seq<Marker>)
    requires Traces(s, trail)
    ensures var r := TagSeen(p, Some(s), device).session;
            var seen := Sighting(p, Some(s), Tag(device));
            r.Some? && Traces(r.value, trail + if seen.Some? then [seen.value] else [])
  {
    hide Review, Traces;
    assert trail + [] == trail;
    var who := Followed(p, s, device);
    if who.Some? {
      var taken := if s.status == WaitingForTrain then s.(train := who.value, status := Driving) else s;
      SameTraces(s, taken, trail);
      ReviewTraces(p, taken, trail);
    }
  }

  lemma StartTraces(p: Ports, requested: Option<Id>)
    ensures var r := Start(p, requested).session;
            var seen := Sighting(p, None, Begin(requested));
            r.Some? && Traces(r.value, if seen.Some? then [seen.value] else [])
  {
    hide Review, Traces;
    NewTraces("", WaitingForTrain);
    var train := Candidate(p, requested);
    if train.Some? {
      NewTraces(train.value, WaitingForTrain);
      NewTraces(train.value, Driving);
      ReviewTraces(p, NewSession(train.value, Driving), []);
      if train.value in p.lastSeen {
        assert [] + [p.lastSeen[train.value]] == [p.lastSeen[train.value]];
      }
    }
  }

  /** In every run a session knows exactly what its trail has covered. */
  lemma {:induction false} RunTraces(turns: seq<Turn>)
    ensures Run(None, turns).Some? ==> Traces(Run(None, turns).value, Trail(turns))
    decreases |turns|
  {
    hide Start, TagSeen, Traces, Sighting;
    if turns == [] {
    } else {
      var front, turn := turns[..|turns| - 1], turns[|turns| - 1];
      var session := Run(None, front);
      RunTraces(front);
      match turn.input
      case Begin(requested) =>
        StartTraces(turn.ports, requested);
        StartSights(turn.ports, session, requested);
        assert forall s: seq<Marker> :: [] + s == s;
      case End =>
      case Tag(device) =>
        if session.Some? {
          TagTraces(turn.ports, session.value, device, Trail(front));
        } else {
          assert Step(turn.ports, session, turn.input).session == None by {
            NothingTagged(turn.ports, device);
          }
        }
    }
  }

  lemma StartSights(p: Ports, session: Option<Session>, requested: Option<Id>)
    ensures Sighting(p, session, Begin(requested)) == Sighting(p, None, Begin(requested))
  {
  }

  lemma NothingTagged(p: Ports, device: Id)
    ensures TagSeen(p, None, device).session == None
  {
  }

  // ---------- commands ----------

  /** Whether the train is left exploring by these commands: told to begin, and not released since. */
  function LeftExploring(fx: seq<Effect>): bool {
    fx != []
    && match fx[|fx| - 1]
       case BeginExploration(_) => true
       case Release(_) => false
       case Publish(_) => LeftExploring(fx[..|fx| - 1])
  }

  /** All commands are for the one train, and it is told to begin only when it is not exploring. */
  ghost predicate InOrder(fx: seq<Effect>, train: Id) {
    forall k :: 0 <= k < |fx| ==>
      && (fx[k].BeginExploration? ==> fx[k].train == train && !LeftExploring(fx[..k]))
      && (fx[k].Release? ==> fx[k].train == train)
  }

  /** What the session has sent since it began. */
  function Sent(turns: seq<Turn>): seq<Effect> {
    if turns == [] then []
    else
      var front, turn := turns[..|turns| - 1], turns[|turns| - 1];
      (if turn.input.Tag? then Sent(front) else []) + Step(turn.ports, Run(None, front), turn.input).fx
  }

  ghost predicate Obeyed(s: Session, fx: seq<Effect>) {
    (s.exploring <==> LeftExploring(fx)) && InOrder(fx, s.train) && (s.status == WaitingForTrain ==> NoCommands(fx))
  }

  ghost predicate NoCommands(fx: seq<Effect>) {
    forall x <- fx :: x.Publish?
  }

  lemma {:induction false} NoneExplores(fx: seq<Effect>)
    requires NoCommands(fx)
    ensures !LeftExploring(fx)
  {
    if fx == [] {
    } else {
      assert fx[|fx| - 1] in fx && forall x <- fx[..|fx| - 1] :: x in fx;
      NoneExplores(fx[..|fx| - 1]);
    }
  }

  lemma OneMore(fx: seq<Effect>, x: Effect, train: Id)
    requires InOrder(fx, train) && (x.BeginExploration? ==> x.train == train && !LeftExploring(fx))
    requires x.Release? ==> x.train == train
    ensures InOrder(fx + [x], train)
    ensures LeftExploring(fx + [x]) == if x.Publish? then LeftExploring(fx) else x.BeginExploration?
  {
    assert (fx + [x])[..|fx|] == fx;
    forall k | 0 <= k < |fx| ensures (fx + [x])[..k] == fx[..k] && (fx + [x])[k] == fx[k] {
    }
  }

  lemma ReviewObeys(p: Ports, s: Session, fx: seq<Effect>)
    requires Obeyed(s, fx) && s.status != WaitingForTrain
    ensures var o := Review(p, s);
            o.session.Some? && o.session.value.train == s.train && o.session.value.status != WaitingForTrain
            && Obeyed(o.session.value, fx + o.fx)
  {
    hide FullyTraversed, IsTerminus, InOrder, LeftExploring;
    assert fx + [] == fx;
    if s.train in p.lastSeen {
      var o := Review(p, s);
      var r := o.session.value;
      if o.fx == [Publish(Some(r))] {
        OneMore(fx, o.fx[0], s.train);
      } else {
        OneMore(fx, o.fx[0], s.train);
        OneMore(fx + [o.fx[0]], o.fx[1], s.train);
        assert fx + o.fx == fx + [o.fx[0]] + [o.fx[1]];
      }
    }
  }

  lemma TakenObeys(s: Session, taken: Session, fx: seq<Effect>)
    requires Obeyed(s, fx) && s.status == WaitingForTrain && taken == s.(train := taken.train, status := Driving)
    ensures Obeyed(taken, fx)
  {
    forall k | 0 <= k < |fx| ensures fx[k].Publish? {
      assert fx[k] in fx;
    }
  }

  lemma TagObeys(p: Ports, s: Session, device: Id, fx: seq<Effect>)
    requires Obeyed(s, fx)
    ensures var o := TagSeen(p, Some(s), device); o.session.Some? && Obeyed(o.session.value, fx + o.fx)
  {
    hide Review, Obeyed;
    assert fx + [] == fx;
    var who := Followed(p, s, device);
    if who.Some? {
      var taken := if s.status == WaitingForTrain then s.(train := who.value, status := Driving) else s;
      if s.status == WaitingForTrain {
        TakenObeys(s, taken, fx);
      }
      ReviewObeys(p, taken, fx);
    }
  }

  lemma NewObeys(train: Id, status: Status)
    ensures Obeyed(NewSession(train, status), [])
    ensures var s := NewSession(train, WaitingForTrain); Obeyed(s, [Publish(Some(s))])
  {
    NoneExplores([Publish(Some(NewSession(train, WaitingForTrain)))]);
  }

  lemma StartObeys(p: Ports, requested: Option<Id>)
    ensures var o := Start(p, requested); o.session.Some? && Obeyed(o.session.value, o.fx)
  {
    hide Review, Obeyed;
    NewObeys("", WaitingForTrain);
    var train := Candidate(p, requested);
    if train.Some? {
      NewObeys(train.value, Driving);
      ReviewObeys(p, NewSession(train.value, Driving), []);
      assert [] + Review(p, NewSession(train.value, Driving)).fx == Review(p, NewSession(train.value, Driving)).fx;
    }
  }

  /**
   * In every run a session counts its train as exploring exactly when the last command it sent was to begin; it sends
   * commands to that train only, none while it waits for one, and never tells it to begin twice without a release.
   */
  lemma {:induction false} RunObeys(turns: seq<Turn>)
    ensures Run(None, turns).Some? ==> Obeyed(Run(None, turns).value, Sent(turns))
    decreases |turns|
  {
    hide Start, TagSeen, Obeyed;
    if turns == [] {
    } else {
      var front, turn := turns[..|turns| - 1], turns[|turns| - 1];
      var session := Run(None, front);
      RunObeys(front);
      match turn.input
      case Begin(requested) =>
        StartObeys(turn.ports, requested);
        assert [] + Start(turn.ports, requested).fx == Start(turn.ports, requested).fx;
      case End =>
      case Tag(device) =>
        if session.Some? {
          TagObeys(turn.ports, session.value, device, Sent(front));
        } else {
          NothingTagged(turn.ports, device);
        }
    }
  }

  // ---------- one turn ----------

  /** What a sighting leads to: a pause at a terminus, the end when all is covered, or else driving on. */
  ghost predicate Judged(p: Ports, m: Marker, trail: seq<Marker>, before: bool, status: Status, o: Out) {
    && o.session.Some? && o.fx != [] && o.fx[|o.fx| - 1] == Publish(o.session)
    && var s := o.session.value;
    var dead := m in p.layout.markers && p.layout.markers[m] == Terminus;
    var done := trail != [] && trail[0] == m && s.visitedEdges != {}
                && forall v, e :: v in trail && e in EdgesFrom(p.layout, v) ==> e.Ref() in s.visitedEdges;
    if dead || done then
      !s.exploring && |o.fx| == 2 && o.fx[0] == Release(s.train) && s.status == if dead then PausedTerminus
                                                                                else Complete
    else
      s.exploring && s.status == status && if before then |o.fx| == 1
                                           else |o.fx| == 2 && o.fx[0] == BeginExploration(s.train)
  }

  lemma ReviewJudges(p: Ports, s: Session, trail: seq<Marker>)
    requires Traces(s, trail) && s.train in p.lastSeen
    ensures var m := p.lastSeen[s.train]; Judged(p, m, trail + [m], s.exploring, s.status, Review(p, s))
    ensures Review(p, s).session.Some? && Review(p, s).session.value.train == s.train
  {
    hide Traces, Noted;
    var m := p.lastSeen[s.train];
    NotedTraces(s, trail, m);
    NotedKeeps(s, m);
    TracesStart(Noted(s, m), trail + [m]);
  }

  lemma NotedKeeps(s: Session, m: Marker)
    ensures var n := Noted(s, m); n.train == s.train && n.exploring == s.exploring && n.status == s.status
  {
  }

  lemma TracesStart(s: Session, trail: seq<Marker>)
    requires Traces(s, trail) && trail != []
    ensures s.start == Some(trail[0])
    ensures forall v :: v in s.visitedMarkers <==> v in trail
  {
  }

  /** A session that waited is driving once it has a train. */
  function Under(s: Session): Status { if s.status == WaitingForTrain then Driving else s.status }

  /**
   * Every tag a device sees in every run: the session takes the device if it was waiting; if the train it follows has
   * been seen it is judged by the trail it has left; otherwise nothing more happens.
   */
  lemma TagJudged(turns: seq<Turn>, p: Ports, device: Id)
    requires Run(None, turns).Some?
    ensures var s := Run(None, turns).value;
            var o := TagSeen(p, Some(s), device);
            match Followed(p, s, device)
            case None => o == Out(Some(s), [])
            case Some(who) =>
              && o.session.Some? && o.session.value.train == who
              && if who == device && device in p.lastSeen
                 then Judged(p, p.lastSeen[device], Trail(turns) + [p.lastSeen[device]], s.exploring, Under(s), o)
                 else o == Out(Some(s.(train := who, status := Under(s))), [])
  {
    hide Review, Traces, Judged, Run, Trail;
    RunTraces(turns);
    var s := Run(None, turns).value;
    var who := Followed(p, s, device);
    if who.Some? {
      var taken := if s.status == WaitingForTrain then s.(train := who.value, status := Driving) else s;
      SameTraces(s, taken, Trail(turns));
      if who.value == device && device in p.lastSeen {
        ReviewJudges(p, taken, Trail(turns));
      } else if who.value == device {
        UnseenReview(p, taken);
      }
    }
  }

  lemma UnseenReview(p: Ports, s: Session)
    requires s.train !in p.lastSeen
    ensures Review(p, s) == Out(Some(s), [])
  {
  }

  /** A start is judged at once if its train has been seen, and otherwise waits; either is published. */
  lemma StartJudged(p: Ports, requested: Option<Id>)
    ensures var o, train := Start(p, requested), Candidate(p, requested);
            o.session.Some?
            && if train.Some? && train.value in p.lastSeen
               then o.session.value.train == train.value
                    && Judged(p, p.lastSeen[train.value], [p.lastSeen[train.value]], false, Driving, o)
               else o.session == Some(NewSession(if train.Some? then train.value else "", WaitingForTrain))
                    && o.fx == [Publish(o.session)]
  {
    hide Review, Traces, Judged;
    var train := Candidate(p, requested);
    if train.Some? && train.value in p.lastSeen {
      NewTraces(train.value, Driving);
      ReviewJudges(p, NewSession(train.value, Driving), []);
      assert [] + [p.lastSeen[train.value]] == [p.lastSeen[train.value]];
    }
  }

  /**
   * Stopping a session releases its train exactly when the commands sent have left it exploring, and tells it is idle.
   */
  lemma StopReleases(turns: seq<Turn>)
    requires Run(None, turns).Some?
    ensures var s := Run(None, turns).value;
            Stop(Some(s))
              == Out(None, (if LeftExploring(Sent(turns)) then [Release(s.train)] else []) + [Publish(None)])
  {
    hide Run, Sent, LeftExploring, InOrder;
    RunObeys(turns);
  }
}
