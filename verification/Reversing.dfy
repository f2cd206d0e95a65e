/** The reverse (ADR-022): it is enacted exactly when a provably safe retreat exists, and then it is that retreat. */
module Reversing {
  import opened Rail
  import opened LayoutModel
  import opened World
  import opened Clearance
  import opened Standoff
  import opened Chains

  // ---------- room for the body ----------

  /** Distinct retained edges that chain back from a marker over at least the train's length, all measured. */
  ghost predicate Carries(l: Layout, length: Length, retained: seq<Held>, start: Marker, chain: seq<EdgeRef>) {
    Backwards(retained, {}, start, chain) && Distinct(chain) && Measured(l, chain) && Span(l, chain) >= length
  }

  lemma {:induction false} BodySound(l: Layout, length: Length, retained: seq<Held>, start: Marker, chain: seq<EdgeRef>,
                                     steps: nat)
      returns (full: seq<EdgeRef>)
    requires Backwards(retained, {}, start, chain) && Apart(start, chain) && Measured(l, chain)
    requires BodyCovered(l, length, retained, At(start, chain, |chain|), Span(l, chain), Reached(start, chain), steps)
    ensures Carries(l, length, retained, start, full)
    decreases steps
  {
    hide FindInto, LengthOf, Apart, Backwards, Reached;
    ApartEdges(start, chain);
    if steps == 0 || Span(l, chain) >= length {
      full := chain;
    } else {
      var tail := FindInto(retained, At(start, chain, |chain|), {}).value;
      var more := chain + [tail];
      ReachedMore(start, chain, tail);
      Longer(retained, {}, start, chain, tail);
      ApartMore(start, chain, tail);
      if tail.from in Reached(start, chain) {
        full := more;
        LastEdgeApart(retained, {}, start, chain, tail);
      } else {
        full := BodySound(l, length, retained, start, more, steps - 1);
      }
    }
  }

  /** A chain that meets one of its own markers again could only go on by repeating an edge. */
  lemma MeetingEnds(held: seq<Held>, start: Marker, full: seq<EdgeRef>, k: nat)
    requires Backwards(held, {}, start, full) && Distinct(full) && k < |full|
    requires full[k].from in Reached(start, full[..k])
    ensures k + 1 == |full|
  {
    hide FindInto;
    assert exists j :: 0 <= j <= k && At(start, full, j) == full[k].from by {
      if full[k].from != start {
        var e :| e in full[..k] && e.from == full[k].from;
        var j :| 0 <= j < k && full[j] == e;
        assert At(start, full, j + 1) == full[k].from;
      } else {
        assert At(start, full, 0) == start;
      }
    }
    var met := full[k].from;
    var j :| 0 <= j <= k && At(start, full, j) == met;
    assert k + 1 < |full| ==> At(start, full, k + 1) == met;
  }

  lemma {:induction false} BodyComplete(l: Layout, length: Length, retained: seq<Held>, start: Marker,
                                        full: seq<EdgeRef>, k: nat, steps: nat)
    requires Carries(l, length, retained, start, full) && k <= |full| && |full| - k <= steps
    ensures BodyCovered(l, length, retained, At(start, full[..k], k), Span(l, full[..k]), Reached(start, full[..k]),
                        steps)
    decreases |full| - k
  {
    hide FindInto, Backwards, Reached, Distinct;
    var chain := full[..k];
    if k == |full| {
      assert chain == full;
    } else if Span(l, chain) < length {
      var tail := full[k];
      Linked(retained, {}, start, full, k);
      ReachedMore(start, chain, tail);
      assert tail in full && LengthOf(l, tail).Some?;
      if tail.from in Reached(start, chain) {
        MeetingEnds(retained, start, full, k);
        assert full[..k + 1] == full;
      } else {
        BodyComplete(l, length, retained, start, full, k + 1, steps - 1);
      }
      assert (chain + [tail])[..|chain|] == chain;
      assert Span(l, chain + [tail]) == Span(l, chain) + LengthOf(l, tail).value;
    }
  }

  /** The walk accepts exactly when such a chain exists; the step bound never cuts it short. */
  lemma BodyHeldIff(l: Layout, t: Train, target: Marker, retained: seq<Held>)
    ensures BodyHeld(l, t, target, retained) <==>
              t.length.None? || t.length.value <= 0.0
                || exists chain :: Carries(l, t.length.value, retained, target, chain)
  {
    if t.length.Some? && t.length.value > 0.0 {
      OnlyStart(target);
      if BodyHeld(l, t, target, retained) {
        var chain := BodySound(l, t.length.value, retained, target, [], |retained|);
      }
      if chain :| Carries(l, t.length.value, retained, target, chain) {
        ChainFits(retained, {}, target, chain);
        assert chain[..0] == [];
        BodyComplete(l, t.length.value, retained, target, chain, 0, |retained|);
      }
    }
  }

  // ---------- the retreat ----------

  function Left(held: seq<Held>, released: seq<EdgeRef>): seq<Held> { Release(held, HeldSet(released)) }

  /** Another train holds an edge that begins or ends at the marker. */
  ghost predicate Taken(ts: map<Id, Train>, id: Id, m: Marker) {
    exists o, h :: o in ts && o != id && h in ts[o].held && m in {h.edge.from, h.edge.to}
  }

  lemma TakenIs(ts: map<Id, Train>, id: Id, m: Marker)
    ensures HeldByAnother(ts, id, m) <==> Taken(ts, id, m)
  {
    if o, h :| o in ts && o != id && h in ts[o].held && m in {h.edge.from, h.edge.to} {
      assert h.edge.from == m || h.edge.to == m;
    }
  }

  /** The retreat runs over held blocks, backwards from the head, onto new markers no other train's edges touch. */
  ghost predicate BackedOver(ts: map<Id, Train>, id: Id, head: Marker, released: seq<EdgeRef>) {
    && id in ts && Backwards(ts[id].held, {}, head, released) && Apart(head, released)
    && (forall e <- released :: !Taken(ts, id, e.from))
  }

  /** The first n retreats would leave the train in the peer's way. */
  ghost predicate InTheWay(held: seq<Held>, released: seq<EdgeRef>, wanted: EdgeRef, n: nat)
    requires n <= |released|
  {
    forall k {:trigger released[..k]} :: 0 < k <= n ==> TouchesAny(Left(held, released[..k]), wanted)
  }

  /** The nearest safe retreat out of the peer's way. */
  ghost predicate IsRetreat(w: World, id: Id, wanted: EdgeRef, plan: Plan) {
    && id in w.trains && w.trains[id].last.Some? && plan.released != []
    && BackedOver(w.trains, id, w.trains[id].last.value, plan.released)
    && plan.target == plan.released[|plan.released| - 1].from
    && InTheWay(w.trains[id].held, plan.released, wanted, |plan.released| - 1)
    && !TouchesAny(Left(w.trains[id].held, plan.released), wanted)
    && BodyHeld(w.layout, w.trains[id], plan.target, Left(w.trains[id].held, plan.released))
  }

  lemma InTheWayMore(held: seq<Held>, released: seq<EdgeRef>, e: EdgeRef, wanted: EdgeRef)
    requires InTheWay(held, released, wanted, |released|)
    ensures InTheWay(held, released + [e], wanted, |released|)
    ensures TouchesAny(Left(held, released + [e]), wanted) ==> InTheWay(held, released + [e], wanted, |released| + 1)
  {
    hide TouchesAny, Left;
    var more := released + [e];
    forall k | 0 < k <= |released| ensures TouchesAny(Left(held, more[..k]), wanted) {
      assert more[..k] == released[..k];
    }
    assert more[..|more|] == more;
  }

  lemma BackedMore(ts: map<Id, Train>, id: Id, head: Marker, released: seq<EdgeRef>, e: EdgeRef)
    requires BackedOver(ts, id, head, released) && FindInto(ts[id].held, At(head, released, |released|), {}) == Some(e)
    requires e.from !in Reached(head, released) && !HeldByAnother(ts, id, e.from)
    ensures BackedOver(ts, id, head, released + [e])
  {
    hide HeldByAnother, Taken, FindInto, Reached;
    TakenIs(ts, id, e.from);
    Longer(ts[id].held, {}, head, released, e);
    ApartMore(head, released, e);
  }

  lemma {:induction false} RetreatSound(w: World, id: Id, wanted: EdgeRef, released: seq<EdgeRef>, steps: nat)
    requires id in w.trains && w.trains[id].last.Some?
    requires BackedOver(w.trains, id, w.trains[id].last.value, released)
    requires InTheWay(w.trains[id].held, released, wanted, |released|)
    ensures var head := w.trains[id].last.value;
            var r := ReverseWalk(w, id, wanted, released, Reached(head, released), At(head, released, |released|),
                                 steps);
            r.Some? ==> IsRetreat(w, id, wanted, r.value)
    decreases steps
  {
    hide HeldByAnother, Taken, BodyHeld, TouchesAny, Reached, InTheWay, BackedOver, FindInto, IsRetreat;
    var t := w.trains[id];
    var head := t.last.value;
    var block := FindInto(t.held, At(head, released, |released|), {});
    if steps > 0 && block.Some? {
      var next := block.value.from;
      if !(next in Reached(head, released) || HeldByAnother(w.trains, id, next)) {
        var more := released + [block.value];
        ReachedMore(head, released, block.value);
        BackedMore(w.trains, id, head, released, block.value);
        InTheWayMore(t.held, released, block.value, wanted);
        if TouchesAny(Left(t.held, more), wanted) {
          RetreatSound(w, id, wanted, more, steps - 1);
        } else if BodyHeld(w.layout, t, next, Left(t.held, more)) {
          RetreatFound(w, id, wanted, more);
        }
      }
    }
  }

  /** A walk that has just left the peer's way, with room for the body, is a retreat. */
  lemma RetreatFound(w: World, id: Id, wanted: EdgeRef, released: seq<EdgeRef>)
    requires id in w.trains && w.trains[id].last.Some? && released != []
    requires BackedOver(w.trains, id, w.trains[id].last.value, released)
    requires InTheWay(w.trains[id].held, released, wanted, |released| - 1)
    requires var target := released[|released| - 1].from;
             !TouchesAny(Left(w.trains[id].held, released), wanted)
             && BodyHeld(w.layout, w.trains[id], target, Left(w.trains[id].held, released))
    ensures IsRetreat(w, id, wanted, Plan(released[|released| - 1].from, released))
  {
    hide BodyHeld, TouchesAny, InTheWay, BackedOver, Left;
  }

  lemma {:induction false} ApartPrefix(start: Marker, chain: seq<EdgeRef>, k: nat)
    requires Apart(start, chain) && k < |chain|
    ensures chain[k].from !in Reached(start, chain[..k])
  {
  }

  lemma {:induction false} RetreatComplete(w: World, id: Id, wanted: EdgeRef, plan: Plan, k: nat, steps: nat)
    requires id in w.trains && w.trains[id].last.Some? && IsRetreat(w, id, wanted, plan)
             && k < |plan.released| <= k + steps
    ensures var head := w.trains[id].last.value;
            var done := plan.released[..k];
            ReverseWalk(w, id, wanted, done, Reached(head, done), At(head, done, k), steps) == Some(plan)
    decreases steps
  {
    hide IsRetreat, FindInto, HeldByAnother, BodyHeld, TouchesAny, Reached, At, Left, ReverseWalk;
    var head := w.trains[id].last.value;
    var done := plan.released[..k];
    RetreatHop(w, id, wanted, plan, k);
    WalkHop(w, id, wanted, done, Reached(head, done), At(head, done, k), steps, plan.released[k]);
    if k + 1 < |plan.released| {
      RetreatComplete(w, id, wanted, plan, k + 1, steps - 1);
    }
  }

  /** One step of the walk. */
  lemma WalkHop(w: World, id: Id, wanted: EdgeRef, released: seq<EdgeRef>, visited: set<Marker>, boundary: Marker,
                steps: nat, e: EdgeRef)
    requires id in w.trains && steps > 0 && FindInto(w.trains[id].held, boundary, {}) == Some(e)
    requires e.from !in visited && !HeldByAnother(w.trains, id, e.from)
    ensures ReverseWalk(w, id, wanted, released, visited, boundary, steps)
            == if TouchesAny(Left(w.trains[id].held, released + [e]), wanted)
               then ReverseWalk(w, id, wanted, released + [e], visited + {e.from}, e.from, steps - 1)
               else if BodyHeld(w.layout, w.trains[id], e.from, Left(w.trains[id].held, released + [e]))
               then Some(Plan(e.from, released + [e])) else None
  {
    hide FindInto, HeldByAnother, BodyHeld, TouchesAny;
  }

  /** The walk's next step along a retreat. */
  lemma RetreatHop(w: World, id: Id, wanted: EdgeRef, plan: Plan, k: nat)
    requires IsRetreat(w, id, wanted, plan) && k < |plan.released|
    ensures var t, all, done := w.trains[id], plan.released, plan.released[..k];
            var head, more := t.last.value, all[..k + 1];
            && FindInto(t.held, At(head, done, k), {}) == Some(all[k])
            && all[k].from !in Reached(head, done) && !HeldByAnother(w.trains, id, all[k].from)
            && done + [all[k]] == more && At(head, more, k + 1) == all[k].from
            && Reached(head, more) == Reached(head, done) + {all[k].from}
            && if k + 1 < |all| then TouchesAny(Left(t.held, more), wanted)
               else more == all && !TouchesAny(Left(t.held, all), wanted) && plan.target == all[k].from
                    && BodyHeld(w.layout, t, plan.target, Left(t.held, all))
  {
    hide FindInto, HeldByAnother, Taken, BodyHeld, TouchesAny, Reached, Backwards, Apart, Left;
    TakenIs(w.trains, id, plan.released[k].from);
    var t := w.trains[id];
    var head := t.last.value;
    var all := plan.released;
    Linked(t.held, {}, head, all, k);
    ApartPrefix(head, all, k);
    assert all[k] in all;
    assert k + 1 < |all| ==> TouchesAny(Left(t.held, all[..k + 1]), wanted);
    assert k + 1 == |all| ==> all[..k + 1] == all;
    ReachedMore(head, all[..k], all[k]);
  }

  /** The computed target is the safe retreat, and there is none when nothing is computed. */
  lemma ReverseTargetIff(w: World, id: Id, wanted: EdgeRef, plan: Plan)
    requires id in w.trains
    ensures ReverseTarget(w, id, wanted) == Some(plan) <==> IsRetreat(w, id, wanted, plan)
  {
    hide FindInto, HeldByAnother, BodyHeld, TouchesAny, Reached;
    var t := w.trains[id];
    if t.last.Some? {
      var head := t.last.value;
      OnlyStart(head);
      if ReverseTarget(w, id, wanted) == Some(plan) {
        RetreatSound(w, id, wanted, [], |t.held|);
      }
      if IsRetreat(w, id, wanted, plan) {
        ApartEdges(head, plan.released);
        ChainFits(t.held, {}, head, plan.released);
        assert plan.released[..0] == [];
        RetreatComplete(w, id, wanted, plan, 0, |t.held|);
      }
    }
  }
}
