/** Along one leg, through every run of the scheduler, whatever the train's body overlaps stays held. */
module Occupancy {
  import opened Rail
  import opened LayoutModel
  import opened World
  import opened Clearance
  import opened Standoff
  import opened Handlers
  import opened Frames
  import opened GivingWay
  import opened Body

  /** Real track has some extent. */
  type Extent = r: real | r > 0.0 witness 1.0

  /** A planned leg and the true lengths of its edges. */
  datatype Leg = Leg(edges: seq<EdgeRef>, lengths: seq<Extent>)

  ghost predicate IsLeg(leg: Leg) {
    && |leg.edges| == |leg.lengths| && Distinct(leg.edges)
    && (forall i :: 0 < i < |leg.edges| ==> leg.edges[i - 1].to == leg.edges[i].from)
  }

  /** How far along the leg edge i begins. */
  function Begin(lengths: seq<Extent>, i: nat): real
    requires i <= |lengths|
  {
    if i == 0 then 0.0 else Begin(lengths, i - 1) + lengths[i - 1]
  }

  lemma {:induction false} BeginGrows(lengths: seq<Extent>, i: nat, j: nat)
    requires i <= j <= |lengths|
    ensures Begin(lengths, i) <= Begin(lengths, j) && (i < j ==> Begin(lengths, i) < Begin(lengths, j))
    decreases j
  {
    if i < j {
      BeginGrows(lengths, i, j - 1);
    }
  }

  /** The train's record, and where along the leg its head really is. */
  datatype Ride = Ride(train: Train, head: real)

  /** The body, from a train length behind the head up to it, overlaps edge j. */
  predicate Overlaps(leg: Leg, length: Length, head: real, j: nat)
    requires j < |leg.edges| == |leg.lengths|
  {
    Begin(leg.lengths, j) < head && Begin(leg.lengths, j + 1) > head - length
  }

  ghost predicate BodyIsHeld(leg: Leg, length: Length, r: Ride)
    requires |leg.edges| == |leg.lengths|
  {
    forall j :: 0 <= j < |leg.edges| && Overlaps(leg, length, r.head, j) ==> HoldsEdge(r.train.held, leg.edges[j])
  }

  ghost predicate OnLeg(leg: Leg, length: Length, t: Train) {
    && t.length == Some(length) && length > 0.0 && t.transit.Some?
    && t.transit.value.edges == leg.edges && t.transit.value.progress <= |leg.edges|
  }

  // ---------- what may happen on the way ----------

  /** The head only moves on, and only onto edges it holds. */
  ghost predicate WithinAuthority(leg: Leg, r: Ride, head: real)
    requires |leg.edges| == |leg.lengths|
  {
    && r.head <= head
    && (forall j :: 0 <= j < |leg.edges| && r.head <= Begin(leg.lengths, j) < head
          ==> HoldsEdge(r.train.held, leg.edges[j]))
  }

  /** Where the layout knows an edge's length, it is the true one. */
  ghost predicate HonestLengths(l: Layout, leg: Leg)
    requires |leg.edges| == |leg.lengths|
  {
    forall j :: 0 <= j < |leg.edges| && LengthOf(l, leg.edges[j]).Some?
      ==> LengthOf(l, leg.edges[j]).value == leg.lengths[j]
  }

  /** Of the held edges that are not ahead, only the leg's own end where its first q edges end. */
  ghost predicate OnlyLegBehind(leg: Leg, q: nat, held: seq<Held>, forward: set<EdgeRef>) {
    forall h, k :: h in held && h.edge !in forward && 0 <= k < q && k < |leg.edges| && h.edge.to == leg.edges[k].to
      ==> h.edge == leg.edges[k]
  }

  /** A status report gives the head's true place on an edge the train has reached. */
  ghost predicate TruePlace(leg: Leg, l: Layout, t: Train, on: EdgeRef, distance: real, head: real, q: nat)
    requires IsLeg(leg)
  {
    && q < |leg.edges| && on == leg.edges[q] && t.transit.Some? && q <= t.transit.value.progress
    && 0.0 <= distance <= leg.lengths[q] && head == Begin(leg.lengths, q) + distance
    && HonestLengths(l, leg) && OnlyLegBehind(leg, q, t.held, ForwardKeys(Seeded(t, Some(on)), on))
  }

  function AfterStatus(l: Layout, t: Train, on: EdgeRef, distance: real): Train {
    var t1 := Seeded(t, Some(on));
    t1.(held := Release(t1.held, HeldSet(ClearedByTail(l, t1, on, distance))))
  }

  // ---------- a status report spares the body ----------

  /** What the walk releases ends at boundaries it had not passed. */
  lemma {:induction false} ReleasesNewBoundaries(l: Layout, held: seq<Held>, forward: set<EdgeRef>, length: Length,
                                                 boundary: Marker, offset: real, visited: set<Marker>, steps: nat)
    ensures forall e <- TailReleases(l, held, forward, length, boundary, offset, visited, steps) ::
              e.to !in visited && e !in forward
    decreases steps
  {
    hide FindInto, LengthOf;
    if steps > 0 && boundary !in visited && FindInto(held, boundary, forward).Some? {
      var e := FindInto(held, boundary, forward).value;
      if LengthOf(l, e).Some? {
        ReleasesNewBoundaries(l, held, forward, length, e.from, offset + LengthOf(l, e).value, visited + {boundary},
                              steps - 1);
      }
    }
  }

  /** Walking back from the start of edge k, the walk meets the overlapped edges first, in order, and spares them. */
  lemma {:induction false} WalkSparesBody(l: Layout, leg: Leg, held: seq<Held>, forward: set<EdgeRef>, length: Length,
                                          head: real, k: nat, visited: set<Marker>, steps: nat, j: nat)
    requires IsLeg(leg) && HonestLengths(l, leg) && OnlyLegBehind(leg, k, held, forward)
    requires j < k < |leg.edges| && Overlaps(leg, length, head, j) && Begin(leg.lengths, k) <= head
    requires forall i :: 0 <= i < k ==> leg.edges[i] !in forward
    requires forall i :: 0 <= i < k && Overlaps(leg, length, head, i) ==> HoldsEdge(held, leg.edges[i])
    ensures leg.edges[j] !in TailReleases(l, held, forward, length, leg.edges[k].from, head - Begin(leg.lengths, k),
                                          visited, steps)
    decreases k
  {
    hide FindInto, LengthOf, TailReleases, HoldsEdge;
    var boundary, offset := leg.edges[k].from, head - Begin(leg.lengths, k);
    var e := leg.edges[k - 1];
    OverlapReachesBack(leg, length, head, k, j);
    FoundBehind(leg, held, forward, k);
    if steps == 0 || boundary in visited {
      WalkBackEnds(l, held, forward, length, boundary, offset, visited, steps);
    } else {
      WalkBackHop(l, held, forward, length, boundary, offset, visited, steps, e);
      if LengthOf(l, e).Some? {
        if j == k - 1 {
          ReleasesNewBoundaries(l, held, forward, length, e.from, head - Begin(leg.lengths, k - 1),
                                visited + {boundary}, steps - 1);
        } else {
          WalkSparesBody(l, leg, held, forward, length, head, k - 1, visited + {boundary}, steps - 1, j);
        }
      }
    }
  }

  /** If the body reaches back over edge j it also overlaps the edge just behind k, whose end it has not cleared. */
  lemma OverlapReachesBack(leg: Leg, length: Length, head: real, k: nat, j: nat)
    requires IsLeg(leg) && j < k < |leg.edges| && Overlaps(leg, length, head, j) && Begin(leg.lengths, k) <= head
    ensures Overlaps(leg, length, head, k - 1) && head - Begin(leg.lengths, k) < length
            && Begin(leg.lengths, k - 1) < head
  {
    BeginGrows(leg.lengths, j + 1, k);
    BeginGrows(leg.lengths, k - 1, k);
  }

  lemma FoundBehind(leg: Leg, held: seq<Held>, forward: set<EdgeRef>, k: nat)
    requires IsLeg(leg) && 0 < k < |leg.edges| && OnlyLegBehind(leg, k, held, forward)
    requires leg.edges[k - 1] !in forward && HoldsEdge(held, leg.edges[k - 1])
    ensures FindInto(held, leg.edges[k].from, forward) == Some(leg.edges[k - 1])
  {
    hide FindInto;
    var found := FindInto(held, leg.edges[k].from, forward);
    var h :| h in held && h.edge == leg.edges[k - 1];
    var g :| g in held && g.edge == found.value;
    assert leg.edges[k - 1].to == leg.edges[k].from;
  }

  lemma StatusSparesBody(leg: Leg, length: Length, t: Train, l: Layout, on: EdgeRef, distance: real, head: real, q: nat)
    requires IsLeg(leg) && OnLeg(leg, length, t) && BodyIsHeld(leg, length, Ride(t, head))
             && TruePlace(leg, l, t, on, distance, head, q)
    ensures BodyIsHeld(leg, length, Ride(AfterStatus(l, t, on, distance), head))
            && OnLeg(leg, length, AfterStatus(l, t, on, distance))
  {
    hide FindInto, LengthOf, TailReleases, OnlyLegBehind, HonestLengths, ForwardKeys, HoldsEdge;
    var t1 := Seeded(t, Some(on));
    var forward := ForwardKeys(t1, on);
    var gone := ClearedByTail(l, t1, on, distance);
    forall j | 0 <= j < |leg.edges| && Overlaps(leg, length, head, j)
      ensures HoldsEdge(Release(t1.held, HeldSet(gone)), leg.edges[j]) {
      if j < q {
        BehindIsNotAhead(leg, length, t1, q);
        WalkSparesBody(l, leg, t1.held, forward, length, head, q, {}, |t1.held|, j);
      } else {
        OnIsAhead(leg, length, q, distance, j);
        ReleasesNewBoundaries(l, t1.held, forward, length, on.from, distance, {}, |t1.held|);
        OnIsForward(t1, on);
      }
      assert leg.edges[j] !in gone;
      StillHeld(t1.held, HeldSet(gone), leg.edges[j]);
    }
  }

  lemma StillHeld(held: seq<Held>, gone: set<EdgeRef>, e: EdgeRef)
    requires HoldsEdge(held, e) && e !in gone
    ensures HoldsEdge(Release(held, gone), e)
  {
    var h :| h in held && h.edge == e;
    assert h in Release(held, gone);
  }

  lemma OnIsForward(t: Train, on: EdgeRef)
    ensures on in ForwardKeys(t, on)
  {
  }

  /** An overlapped edge that is not behind the current one is the current one. */
  lemma OnIsAhead(leg: Leg, length: Length, q: nat, distance: real, j: nat)
    requires IsLeg(leg) && q <= j < |leg.edges| && distance <= leg.lengths[q]
    requires Overlaps(leg, length, Begin(leg.lengths, q) + distance, j)
    ensures j == q
  {
    if q < j {
      BeginGrows(leg.lengths, q + 1, j);
    }
  }

  lemma BehindIsNotAhead(leg: Leg, length: Length, t: Train, q: nat)
    requires IsLeg(leg) && OnLeg(leg, length, t) && q < |leg.edges| && q <= t.transit.value.progress
    ensures forall i :: 0 <= i < q ==> leg.edges[i] !in ForwardKeys(t, leg.edges[q])
  {
  }

  // ---------- moving on, arriving, being granted more ----------

  /** What the body overlaps after moving on, it overlapped before or has just entered. */
  lemma MovingKeeps(leg: Leg, length: Length, t: Train, head: real, head': real)
    requires IsLeg(leg) && BodyIsHeld(leg, length, Ride(t, head)) && WithinAuthority(leg, Ride(t, head), head')
    ensures BodyIsHeld(leg, length, Ride(t, head'))
  {
    hide HoldsEdge;
    forall j | 0 <= j < |leg.edges| && Overlaps(leg, length, head', j) ensures HoldsEdge(t.held, leg.edges[j]) {
      assert Begin(leg.lengths, j) < head ==> Overlaps(leg, length, head, j);
    }
  }

  lemma GrowingKeeps(leg: Leg, length: Length, t: Train, t': Train, head: real)
    requires IsLeg(leg) && OnLeg(leg, length, t) && BodyIsHeld(leg, length, Ride(t, head)) && Grew(t, t')
    ensures OnLeg(leg, length, t') && BodyIsHeld(leg, length, Ride(t', head))
  {
    forall j | 0 <= j < |leg.edges| && Overlaps(leg, length, head, j) ensures HoldsEdge(t'.held, leg.edges[j]) {
      var h :| h in t.held && h.edge == leg.edges[j];
      assert h in t'.held;
    }
  }

  lemma ArrivingKeeps(leg: Leg, length: Length, t: Train, m: Marker, now: real, head: real)
    requires IsLeg(leg) && OnLeg(leg, length, t) && BodyIsHeld(leg, length, Ride(t, head))
    ensures OnLeg(leg, length, Arrive(t, m, now)) && BodyIsHeld(leg, length, Ride(Arrive(t, m, now), head))
  {
    hide HoldsEdge;
    assert Arrive(t, m, now).held == t.held;
  }

  // ---------- the scheduler's own handlers ----------

  lemma {:induction false} ReleaseNothing(held: seq<Held>)
    ensures Release(held, {}) == held
  {
    if held == [] {
    } else {
      ReleaseNothing(held[1..]);
      assert held == [held[0]] + held[1..];
    }
  }

  lemma PutTwice(w: World, id: Id, t: Train, t': Train)
    ensures Put(Put(w, id, t), id, t') == Put(w, id, t')
  {
    assert w.trains[id := t][id := t'] == w.trains[id := t'];
  }

  /**
   * A status report whose dwell has not run out releases what the tail has cleared, and then only grants to the
   * train, unless the pass that follows makes this very train give way in the standoff it finds.
   */
  lemma StatusIsStated(w: World, id: Id, on: EdgeRef, distance: real, now: real)
    requires id in w.trains && !IsPoint(w.trains[id])
    requires w.trains[id].dwellUntil.Some? ==> now < w.trains[id].dwellUntil.value
    ensures var w1 := Put(w, id, AfterStatus(w.layout, w.trains[id], on, distance));
            var o := Status(w, id, Some(on), Some(distance), now);
            Spared(id, w1, o) && (GaveWay(id, o.fx) ==> Chosen(ServedAll(w1)) == Some(id))
  {
    hide Retry, ClearedByTail, AdvanceAndReplan, Edges, Chosen, ServedAll, Grew;
    var t := Seeded(w.trains[id], Some(on));
    var gone := ClearedByTail(w.layout, t, on, distance);
    var t' := AfterStatus(w.layout, w.trains[id], on, distance);
    var w1 := Put(w, id, t');
    if gone == [] {
      ReleaseNothing(t.held);
      assert HeldSet(gone) == {};
      assert Status(w, id, Some(on), Some(distance), now) == Out(w1, []);
      SameSpared(id, w1, Out(w1, []));
    } else {
      PutTwice(w, id, t, t');
      var shown := [ClearanceOf(id, t')];
      ShowingTells(id, shown[0], Retry(w1, None).fx);
      RetrySpares(w1, id);
      assert Status(w, id, Some(on), Some(distance), now) == Then(Out(w1, shown), Retry(w1, None));
    }
  }

  lemma ShowingTells(id: Id, x: Effect, fx: seq<Effect>)
    requires !x.Send?
    ensures GaveWay(id, [x] + fx) <==> GaveWay(id, fx)
  {
    TellsTogether(id, [x], fx);
  }

  /** The state in which the pass that ends an accepted report begins. */
  function BeforePass(w: World, id: Id, m: Marker, now: real): World
    requires id in w.trains
  {
    Extend(Discover(Put(w, id, Arrive(w.trains[id], m, now)), Completed(w.trains[id].last, m), id, now).w, id).w
  }

  /**
   * An accepted report does what arriving does, and then only grants to the train, unless the pass makes it give way.
   */
  lemma PassIsReported(w: World, id: Id, m: Marker, now: real)
    requires id in w.trains
    ensures var w1 := Put(w, id, Arrive(w.trains[id], m, now));
            var o := Pass(w, id, m, now);
            Spared(id, w1, o) && (GaveWay(id, o.fx) <==> Chosen(ServedAll(BeforePass(w, id, m, now))) == Some(id))
  {
    hide Retry, Extend, Discover, Arrive, Discovering, Edges, Grew, Chosen, ServedAll, GaveWay;
    var t := w.trains[id];
    var t' := Arrive(t, m, now);
    var w1 := Put(w, id, t');
    var released := Out(w1, if |t'.held| != |t.held| then [ClearanceOf(id, t')] else []);
    var e := Completed(t.last, m);
    var learned := Discover(released.w, e, id, now);
    DiscoverTouchesNone(released.w, e, id, now);
    var told := Out(learned.w, [Publish(MarkerTraversed(id, m, Discovering(learned.w.layout, e), e))]);
    var granted := Extend(told.w, id);
    ExtendSpares(id, told.w, id);
    ExtendYieldsNothing(told.w, id);
    RetrySpares(granted.w, id);
    var first := released.fx + learned.fx + told.fx + granted.fx;
    NotTold(id, released.fx, learned.fx, told.fx, granted.fx);
    TellsTogether(id, first, Retry(granted.w, None).fx);
    if Grew(granted.w.trains[id], Retry(granted.w, None).w.trains[id]) {
      GrewTwice(t', granted.w.trains[id], Retry(granted.w, None).w.trains[id]);
    }
    assert Pass(w, id, m, now) == Out(Retry(granted.w, None).w, first + Retry(granted.w, None).fx);
  }

  lemma NotTold(id: Id, a: seq<Effect>, b: seq<Effect>, c: seq<Effect>, d: seq<Effect>)
    requires (forall x :: x in a || x in b || x in c ==> !x.Send?) && NobodyYields(d)
    ensures !GaveWay(id, a + b + c + d)
  {
    forall x | x in a + b + c + d ensures !Yields(x, id) {
      assert x in a || x in b || x in c || x in d;
    }
  }

  lemma DiscoverTouchesNone(w: World, e: Option<EdgeRef>, id: Id, now: real)
    ensures var o := Discover(w, e, id, now); o.w.trains == w.trains && forall x <- o.fx :: !x.Send?
  {
    hide RecordTraversal;
  }

  // ---------- the whole leg ----------

  /** The train is on its leg, and holds what its body overlaps. */
  ghost predicate Underway(leg: Leg, length: Length, id: Id, w: World, head: real)
    requires IsLeg(leg)
  {
    id in w.trains && OnLeg(leg, length, w.trains[id]) && BodyIsHeld(leg, length, Ride(w.trains[id], head))
  }

  /** A report that does not take the train into a zone. */
  predicate StaysOnLine(w: World, id: Id, tag: string) {
    tag in w.tags && w.tags[tag].ToMarker? && id in w.trains ==> !EntersZone(w, w.trains[id], w.tags[tag].target)
  }

  /**
   * One input while the train is on its leg: the head has moved within its authority, the train is not told to give
   * way, and what is reported of it is true; a dwell has not run out, no zone is entered, and nobody reassigns,
   * revokes, recovers or re-registers the train. Anything at all may happen to the others.
   */
  ghost predicate Rides(leg: Leg, id: Id, w: World, i: Input, head: real, head': real)
    requires IsLeg(leg)
  {
    && id in w.trains && WithinAuthority(leg, Ride(w.trains[id], head), head') && !GaveWay(id, Step(w, i).fx)
    && match i
       case TagObserved(d, tag, _) => d == id ==> StaysOnLine(w, id, tag)
       case TrainStatus(train, on, distance, now) =>
         train == id ==>
           && (w.trains[id].dwellUntil.Some? ==> now < w.trains[id].dwellUntil.value)
           && (on.Some? && distance.Some?
               ==> exists q :: TruePlace(leg, w.layout, w.trains[id], on.value, distance.value, head', q))
       case _ => !About(i, id)
  }

  lemma HoldKeepsBody(leg: Leg, length: Length, id: Id, w: World, m: Marker, now: real, head: real)
    requires IsLeg(leg) && Underway(leg, length, id, w, head) && Violates(w, w.trains[id], m)
    ensures Underway(leg, length, id, HoldAt(w, id, m, now).w, head)
  {
    var t, t' := w.trains[id], HoldAt(w, id, m, now).w.trains[id];
    assert t.held <= t'.held;
    forall j | 0 <= j < |leg.edges| && Overlaps(leg, length, head, j) ensures HoldsEdge(t'.held, leg.edges[j]) {
      var h :| h in t.held && h.edge == leg.edges[j];
      assert h in t'.held;
    }
  }

  lemma SparedKeepsBody(leg: Leg, length: Length, id: Id, w: World, o: Out, head: real)
    requires IsLeg(leg) && Underway(leg, length, id, w, head) && Spared(id, w, o) && !GaveWay(id, o.fx)
    ensures Underway(leg, length, id, o.w, head)
  {
    hide Grew, GaveWay, OnLeg, BodyIsHeld;
    GrowingKeeps(leg, length, w.trains[id], o.w.trains[id], head);
  }

  lemma MarkerKeepsBody(leg: Leg, length: Length, id: Id, w: World, m: Marker, now: real, head: real)
    requires IsLeg(leg) && Underway(leg, length, id, w, head) && !EntersZone(w, w.trains[id], m)
    requires !GaveWay(id, AtMarker(w, id, m, now).fx)
    ensures Underway(leg, length, id, AtMarker(w, id, m, now).w, head)
  {
    hide Violates, HoldAt, Pass, BodyIsHeld, OnLeg, GaveWay, Spared, Arrive, Chosen;
    var t := w.trains[id];
    if t.inZone.Some? {
    } else if Violates(w, t, m) {
      HoldKeepsBody(leg, length, id, w, m, now, head);
    } else {
      ArrivingKeeps(leg, length, t, m, now, head);
      PassIsReported(w, id, m, now);
      SparedKeepsBody(leg, length, id, Put(w, id, Arrive(t, m, now)), Pass(w, id, m, now), head);
    }
  }

  lemma StatusKeepsBody(leg: Leg, length: Length, id: Id, w: World, on: Option<EdgeRef>, distance: Option<real>,
                        now: real, head: real)
    requires IsLeg(leg) && Underway(leg, length, id, w, head)
    requires w.trains[id].dwellUntil.Some? ==> now < w.trains[id].dwellUntil.value
    requires on.Some? && distance.Some?
             ==> exists q :: TruePlace(leg, w.layout, w.trains[id], on.value, distance.value, head, q)
    requires !GaveWay(id, Status(w, id, on, distance, now).fx)
    ensures Underway(leg, length, id, Status(w, id, on, distance, now).w, head)
  {
    hide TruePlace, BodyIsHeld, GaveWay, Spared, AfterStatus, ClearedByTail, AdvanceAndReplan, Retry, Chosen;
    var t := w.trains[id];
    if on.Some? && distance.Some? {
      var q :| TruePlace(leg, w.layout, t, on.value, distance.value, head, q);
      StatusSparesBody(leg, length, t, w.layout, on.value, distance.value, head, q);
      StatusIsStated(w, id, on.value, distance.value, now);
      var w1 := Put(w, id, AfterStatus(w.layout, t, on.value, distance.value));
      hide Status;
      SparedKeepsBody(leg, length, id, w1, Status(w, id, on, distance, now), head);
    } else {
      SeedingKeeps(leg, length, t, on, head);
    }
  }

  lemma SeedingKeeps(leg: Leg, length: Length, t: Train, on: Option<EdgeRef>, head: real)
    requires IsLeg(leg) && OnLeg(leg, length, t) && BodyIsHeld(leg, length, Ride(t, head))
    ensures OnLeg(leg, length, Seeded(t, on)) && BodyIsHeld(leg, length, Ride(Seeded(t, on), head))
  {
    hide HoldsEdge;
  }

  /** One input of the scheduler keeps the body in held edges. */
  lemma StepKeepsBody(leg: Leg, length: Length, id: Id, w: World, i: Input, head: real, head': real)
    requires IsLeg(leg) && Underway(leg, length, id, w, head) && Rides(leg, id, w, i, head, head')
    ensures Underway(leg, length, id, Step(w, i).w, head')
  {
    hide BodyIsHeld, OnLeg, GaveWay, WithinAuthority, AtMarker, Status, TruePlace, Spared, EntersZone, Grew;
    MovingKeeps(leg, length, w.trains[id], head, head');
    if i.TagObserved? && i.device == id {
      TagKeepsBody(leg, length, id, w, i.tag, i.now, head');
    } else if i.TrainStatus? && i.train == id {
      StatusKeepsBody(leg, length, id, w, i.on, i.distance, i.now, head');
    } else {
      hide Step;
      OthersSpare(id, w, i);
      SparedKeepsBody(leg, length, id, w, Step(w, i), head');
    }
  }

  lemma TagKeepsBody(leg: Leg, length: Length, id: Id, w: World, tag: string, now: real, head: real)
    requires IsLeg(leg) && Underway(leg, length, id, w, head) && StaysOnLine(w, id, tag)
             && !GaveWay(id, ObserveTag(w, id, tag, now).fx)
    ensures Underway(leg, length, id, ObserveTag(w, id, tag, now).w, head)
  {
    hide BodyIsHeld, OnLeg, GaveWay, AtMarker, EntersZone;
    if tag in w.tags && id in w.devices && w.tags[tag].ToMarker? && ControlsMotion in w.devices[id].caps {
      MarkerKeepsBody(leg, length, id, w, w.tags[tag].target, now, head);
    }
  }

  /** A run along the leg: after each input the head stands where the next entry says. */
  ghost predicate RidesThrough(leg: Leg, id: Id, w: World, inputs: seq<Input>, heads: seq<real>)
    requires IsLeg(leg)
  {
    && |heads| == |inputs| + 1
    && forall k {:trigger inputs[k]} :: 0 <= k < |inputs|
         ==> Rides(leg, id, Run(w, inputs[..k]).w, inputs[k], heads[k], heads[k + 1])
  }

  /**
   * From any state of the scheduler in which a train is on its leg with its body in held edges, and over every run
   * of inputs that lets it ride on, the body stays in held edges after each of them.
   */
  lemma {:induction false} BodyStaysHeld(leg: Leg, length: Length, id: Id, w: World, inputs: seq<Input>,
                                         heads: seq<real>)
    requires IsLeg(leg) && RidesThrough(leg, id, w, inputs, heads) && Underway(leg, length, id, w, heads[0])
    ensures Underway(leg, length, id, Run(w, inputs).w, heads[|inputs|])
    decreases |inputs|
  {
    hide Rides, Underway, Step;
    if inputs == [] {
    } else {
      var n := |inputs| - 1;
      var front, before := inputs[..n], heads[..n + 1];
      forall k | 0 <= k < n ensures Rides(leg, id, Run(w, front[..k]).w, front[k], before[k], before[k + 1]) {
        assert front[..k] == inputs[..k] && inputs[k] == front[k];
      }
      BodyStaysHeld(leg, length, id, w, front, before);
      assert Rides(leg, id, Run(w, inputs[..n]).w, inputs[n], heads[n], heads[n + 1]);
      StepKeepsBody(leg, length, id, Run(w, front).w, inputs[n], heads[n], heads[n + 1]);
    }
  }
}
