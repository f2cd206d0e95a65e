/** The forward yield: who gives way, what it gives up, and what the follow-on grants may do to it. */
module Yielding {
  import opened Rail
  import opened World
  import opened Ranking
  import opened Clearance
  import opened Standoff
  import opened Frames
  import opened Deadlock

  // ---------- the victim ----------

  lemma {:induction false} LowestIsLast(ts: Trains, cycle: seq<Id>, worst: Option<Id>)
    requires worst.Some? ==> worst.value in ts
    ensures var r := LowestOf(ts, cycle, worst);
            forall o :: (o in cycle || Some(o) == worst) && o in ts && Some(o) != r
              ==> r.Some? && Before(ts, o, r.value)
    decreases |cycle|
  {
    if cycle == [] {
    } else {
      var id := cycle[0];
      var next := if id in ts && (worst.None? || Before(ts, worst.value, id)) then Some(id) else worst;
      LowestIsLast(ts, cycle[1..], next);
      var r := LowestOf(ts, cycle[1..], next);
      forall o | (o in cycle || Some(o) == worst) && o in ts && Some(o) != r ensures r.Some? && Before(ts, o, r.value) {
        assert o in cycle ==> o == id || o in cycle[1..];
        if id in ts {
          RankTotal(ts, o, id);
        }
        if Some(o) != next && o !in cycle[1..] {
          RankTotal(ts, next.value, o);
          if Some(next.value) != r {
            RankTransitive(ts, o, next.value, r.value);
          }
        }
      }
    }
  }

  /** Whoever the cycle, its lowest-ranked member is found. */
  ghost predicate IsLowest(ts: Trains, cycle: seq<Id>, id: Id) {
    id in cycle && id in ts && forall o <- cycle :: o != id && o in ts ==> Before(ts, o, id)
  }

  lemma LowestFound(ts: Trains, cycle: seq<Id>)
    ensures var r := LowestOf(ts, cycle, None);
            if r.Some? then IsLowest(ts, cycle, r.value) else forall o <- cycle :: o !in ts
  {
    LowestIsLast(ts, cycle, None);
  }

  // ---------- what it gives up ----------

  /** The victim gives up everything in the way of the edge a peer wants, and nothing else. */
  ghost predicate ClearsFor(t: Train, t': Train, wanted: EdgeRef) {
    && TouchesAny(t.held, wanted) && !TouchesAny(t'.held, wanted)
    && (forall h :: h in t'.held <==> h in t.held && !Touches(h.edge, wanted))
  }

  /** It keeps every edge that ends where it stands. */
  ghost predicate KeepsGround(t: Train, t': Train) {
    forall h <- t.held :: Some(h.edge.to) == t.last ==> h in t'.held
  }

  ghost predicate NobodyElseLoses(w: World, w': World, id: Id) {
    && w'.trains.Keys == w.trains.Keys
    && (forall o :: o in w.trains && o in w'.trains && o != id ==> Grew(w.trains[o], w'.trains[o]))
  }

  ghost predicate PeerFreed(w: World, cycle: seq<Id>, id: Id, t': Train) {
    exists p <- cycle :: id in w.trains && p in w.trains && p != id && Wanted(w.trains[p]).Some?
                         && ClearsFor(w.trains[id], t', Wanted(w.trains[p]).value)
  }

  /** Its limit is drawn back to where it stands. */
  function StandsAt(t: Train): Option<Marker> { if t.last.Some? then t.last else t.limit }

  /** One yield, and then grants to the others. */
  ghost predicate HonestYield(w: World, cycle: seq<Id>, id: Id, w': World) {
    && IsLowest(w.trains, cycle, id) && !w.trains[id].blocked
    && id in w'.trains && NobodyElseLoses(w, w', id)
    && PeerFreed(w, cycle, id, w'.trains[id]) && KeepsGround(w.trains[id], w'.trains[id])
    && w'.trains[id] == w.trains[id].(held := w'.trains[id].held, limit := StandsAt(w.trains[id]))
  }

  ghost predicate NothingUnderfootInTheWay(t: Train, wanted: EdgeRef) {
    forall h <- t.held :: Touches(h.edge, wanted) ==> Some(h.edge.to) != t.last
  }

  lemma GivingUpClears(t: Train, wanted: EdgeRef)
    requires TouchesAny(t.held, wanted)
    ensures var remaining := Release(t.held, Yieldable(t, wanted));
            !(Yieldable(t, wanted) == {} || TouchesAny(remaining, wanted)) <==> NothingUnderfootInTheWay(t, wanted)
    ensures NothingUnderfootInTheWay(t, wanted) ==>
              var t' := t.(held := Release(t.held, Yieldable(t, wanted)));
              ClearsFor(t, t', wanted) && KeepsGround(t, t')
  {
    var gone := Yieldable(t, wanted);
    var remaining := Release(t.held, gone);
    forall h | h in t.held ensures h in remaining <==> !(Touches(h.edge, wanted) && Some(h.edge.to) != t.last) {
      if h.edge in gone {
        var g :| g in t.held && Touches(g.edge, wanted) && Some(g.edge.to) != t.last && g.edge == h.edge;
      }
    }
    var h :| h in t.held && Touches(h.edge, wanted);
    if NothingUnderfootInTheWay(t, wanted) {
      assert h.edge in gone;
    } else {
      var g :| g in t.held && Touches(g.edge, wanted) && Some(g.edge.to) == t.last;
      assert g in remaining;
    }
  }

  /** The lowest-ranked train yields exactly when it denies a peer and nothing that ends where it stands does. */
  lemma YieldsIff(w: World, cycle: seq<Id>)
    ensures var victim := LowestOf(w.trains, cycle, None);
            YieldStep(w, cycle).Some? <==>
              victim.Some? && PeerWanted(w.trains, cycle, victim.value).Some?
              && NothingUnderfootInTheWay(w.trains[victim.value], PeerWanted(w.trains, cycle, victim.value).value)
  {
    hide LowestOf, PeerWanted, Yieldable, NothingUnderfootInTheWay, Before;
    var victim := LowestOf(w.trains, cycle, None);
    if victim.Some? {
      var wanted := PeerWanted(w.trains, cycle, victim.value);
      if wanted.Some? {
        GivingUpClears(w.trains[victim.value], wanted.value);
      }
    }
  }

  /** The yield itself, before the follow-on grants. */
  ghost predicate GivesWay(w: World, cycle: seq<Id>, id: Id, gave: World) {
    && IsLowest(w.trains, cycle, id) && id in gave.trains && gave.trains == w.trains[id := gave.trains[id]]
    && PeerFreed(w, cycle, id, gave.trains[id]) && KeepsGround(w.trains[id], gave.trains[id])
    && gave.trains[id] == w.trains[id].(held := gave.trains[id].held, limit := StandsAt(w.trains[id]))
  }

  lemma YieldGives(w: World, cycle: seq<Id>)
    requires YieldStep(w, cycle).Some?
    ensures GivesWay(w, cycle, YieldStep(w, cycle).value.0, YieldStep(w, cycle).value.1.w)
  {
    LowestFound(w.trains, cycle);
    hide LowestOf, Yieldable, ClearsFor, KeepsGround, Before, IsLowest, Wanted, NothingUnderfootInTheWay, PeerFreed;
    var id := LowestOf(w.trains, cycle, None).value;
    var t := w.trains[id];
    var wanted := PeerWanted(w.trains, cycle, id).value;
    GivingUpClears(t, wanted);
    var t' := YieldStep(w, cycle).value.1.w.trains[id];
    assert t'.held == Release(t.held, Yieldable(t, wanted));
    SameClearing(t, t.(held := t'.held), t', wanted);
    FreedFor(w, cycle, id, t', wanted);
  }

  lemma SameClearing(t: Train, a: Train, b: Train, wanted: EdgeRef)
    requires a.held == b.held && ClearsFor(t, a, wanted) && KeepsGround(t, a)
    ensures ClearsFor(t, b, wanted) && KeepsGround(t, b)
  {
  }

  lemma FreedFor(w: World, cycle: seq<Id>, id: Id, t': Train, wanted: EdgeRef)
    requires id in w.trains && PeerWanted(w.trains, cycle, id) == Some(wanted) && ClearsFor(w.trains[id], t', wanted)
    ensures PeerFreed(w, cycle, id, t')
  {
    hide ClearsFor, Wanted;
  }

  /** A standoff member is not topology-held: it would not be waiting for clearance. */
  lemma MembersWait(ts: Trains, cycle: seq<Id>, id: Id)
    requires IsStandoff(ts, cycle) && id in cycle
    ensures id in ts && Wanted(ts[id]).Some? && !ts[id].blocked
  {
    var i :| 0 <= i < |cycle| && cycle[i] == id;
    if i + 1 < |cycle| {
      assert WaitsOn(ts, cycle[i], cycle[i + 1]);
    }
  }

  /** A yield is honest to the end of the whole call, follow-on grants included. */
  lemma YieldIsHonest(w: World, cycle: seq<Id>)
    requires IsStandoff(w.trains, cycle) && YieldStep(w, cycle).Some?
    ensures var (id, gave) := YieldStep(w, cycle).value;
            HonestYield(w, cycle, id, Regrant(id, gave).w)
  {
    var (id, gave) := YieldStep(w, cycle).value;
    YieldGives(w, cycle);
    hide YieldStep, GivesWay, IsStandoff, GrewAll, Retry;
    GaveLowest(w, cycle, id, gave.w);
    MembersWait(w.trains, cycle, id);
    SkippingPassGrows(gave.w, {id});
    StaysHonest(w, cycle, id, gave.w, Regrant(id, gave).w);
  }

  lemma GaveLowest(w: World, cycle: seq<Id>, id: Id, gave: World)
    requires GivesWay(w, cycle, id, gave)
    ensures id in cycle && id in w.trains
  {
  }

  lemma StaysHonest(w: World, cycle: seq<Id>, id: Id, gave: World, w': World)
    requires GivesWay(w, cycle, id, gave) && GrewAll(gave, w', {id}) && !w.trains[id].blocked
    ensures HonestYield(w, cycle, id, w')
  {
    hide Before, PeerFreed, KeepsGround;
    assert w'.trains[id] == gave.trains[id];
    forall o | o in w.trains && o != id ensures Grew(w.trains[o], w'.trains[o]) {
      assert Grew(gave.trains[o], w'.trains[o]);
    }
  }
}
