/** No priority inversion in a retry pass: a train is only ever kept out by what was held before, or by its betters. */
module Priority {
  import opened Rail
  import opened World
  import opened Ranking
  import opened Clearance
  import opened Standoff
  import opened Frames
  import opened Deadlock

  /** The pass splits at any train. */
  lemma {:induction false} PassSplits(w: World, a: seq<Id>, b: seq<Id>, skip: set<Id>)
    requires forall i :: i in a || i in b ==> i in w.trains
    ensures var first := RetryEach(w, a, skip);
            var rest := RetryEach(first.w, b, skip);
            RetryEach(w, a + b, skip) == Out(rest.w, first.fx + rest.fx)
    decreases |a|
  {
    hide Extend;
    if a == [] {
      assert a + b == b;
      var rest := RetryEach(w, b, skip);
      assert [] + rest.fx == rest.fx;
    } else {
      assert (a + b)[0] == a[0] && (a + b)[1..] == a[1..] + b;
      if a[0] in skip {
        PassSplits(w, a[1..], b, skip);
      } else {
        var first := Extend(w, a[0]);
        PassSplits(first.w, a[1..], b, skip);
        var mid := RetryEach(first.w, a[1..], skip);
        var rest := RetryEach(mid.w, b, skip);
        assert first.fx + (mid.fx + rest.fx) == (first.fx + mid.fx) + rest.fx;
      }
    }
  }

  /** Trains the pass has not come to yet are untouched. */
  lemma {:induction false} NotReachedYet(w: World, ids: seq<Id>, skip: set<Id>, except: set<Id>)
    requires forall i <- ids :: i in w.trains && (i in skip || i !in except)
    ensures GrewAll(w, RetryEach(w, ids, skip).w, except)
    decreases |ids|
  {
    hide GrewAll, Extend;
    GrewRefl(w, except);
    if ids == [] {
    } else {
      if ids[0] in skip {
        NotReachedYet(w, ids[1..], skip, except);
      } else {
        var first := Extend(w, ids[0]);
        ExtendGrows(w, ids[0], except);
        NotReachedYet(first.w, ids[1..], skip, except);
        GrewTrans(w, first.w, RetryEach(first.w, ids[1..], skip).w, except);
      }
    }
  }

  /** The state in which the k-th train of the pass has just been served. */
  function Served(w: World, skip: set<Id>, k: nat): World
    requires k < |Ordered(w)|
  {
    var before := RetryEach(w, Ordered(w)[..k], skip).w;
    Extend(before, Ordered(w)[k]).w
  }

  /** Serving the k-th train happens exactly there in the pass. */
  lemma ServedInPass(w: World, skip: set<Id>, k: nat)
    requires k < |Ordered(w)| && Ordered(w)[k] !in skip
    ensures RetryEach(w, Ordered(w), skip).w == RetryEach(Served(w, skip, k), Ordered(w)[k + 1..], skip).w
  {
    hide Extend, Ordered;
    var ids := Ordered(w);
    assert ids == ids[..k] + ids[k..] && ids[k..][1..] == ids[k + 1..] && ids[k..][0] == ids[k];
    PassSplits(w, ids[..k], ids[k..], skip);
  }

  lemma OrderedByRank(w: World, i: nat, k: nat)
    requires Rostered(w) && i < k < |Ordered(w)|
    ensures var ids := Ordered(w); ids[i] in w.trains && ids[k] in w.trains && Before(w.trains, ids[i], ids[k])
  {
    RosterDistinct(w.order, w.trains);
    SortRanked(w.trains, Roster(w.order, w.trains));
    hide Before, Roster, SortByRank;
  }

  /** An edge in the way, and whose it is. */
  ghost predicate InTheWayOf(w: World, id: Id, e: EdgeRef, o: Id, h: Held) {
    o in w.trains && o != id && h in w.trains[o].held && Touches(h.edge, e)
  }

  /**
   * When a train has been served, any edge that conflicts with what it wants was held before the pass began, or
   * belongs to a train of higher priority, or of the same priority and no later place in the roster.
   */
  lemma NoPriorityInversion(w: World, skip: set<Id>, k: nat, e: EdgeRef, o: Id, h: Held)
    requires Rostered(w) && k < |Ordered(w)|
    requires InTheWayOf(Served(w, skip, k), Ordered(w)[k], e, o, h)
    ensures InTheWayOf(w, Ordered(w)[k], e, o, h)
            || (o in w.trains && Before(w.trains, o, Ordered(w)[k])
                && NotBelow(w.trains[o], w.trains[Ordered(w)[k]]))
  {
    hide Extend, Ordered, Before, Touches, GrewAll, NotBelow;
    var ids := Ordered(w);
    var id := ids[k];
    var before := RetryEach(w, ids[..k], skip).w;
    if o in ids[..k] {
      var i :| 0 <= i < k && ids[i] == o;
      OrderedByRank(w, i, k);
      RankTotal(w.trains, o, id);
    } else {
      NotReachedYet(w, ids[..k], skip, {o});
      ExtendUntouched(w, before, id, o);
    }
  }

  lemma ExtendUntouched(w: World, before: World, id: Id, o: Id)
    requires id in before.trains && GrewAll(w, before, {o}) && o != id
    ensures var after := Extend(before, id).w;
            (o in after.trains <==> o in w.trains) && (o in w.trains ==> after.trains[o] == w.trains[o])
  {
    hide Extend;
    ExtendGrows(before, id, {o});
  }
}
