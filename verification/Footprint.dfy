/** What giving way does to the body of the train that gives way. */
module Footprint {
  import opened Rail
  import opened LayoutModel
  import opened World
  import opened Ranking
  import opened Clearance
  import opened Standoff
  import opened Frames
  import opened Yielding
  import opened Chains
  import opened Reversing
  import opened Retreats
  import opened Occupancy

  // ---------- the yield ----------

  lemma YieldClears(w: World, cycle: seq<Id>)
    requires YieldStep(w, cycle).Some?
    ensures var (id, gave) := YieldStep(w, cycle).value;
            && id in w.trains && id in gave.w.trains && PeerWanted(w.trains, cycle, id).Some?
            && ClearsFor(w.trains[id], gave.w.trains[id], PeerWanted(w.trains, cycle, id).value)
  {
    hide LowestOf, PeerWanted, Yieldable, ClearsFor, KeepsGround, NothingUnderfootInTheWay, Wanted;
    var id := LowestOf(w.trains, cycle, None).value;
    var t := w.trains[id];
    var wanted := PeerWanted(w.trains, cycle, id).value;
    assert TouchesAny(t.held, wanted);
    GivingUpClears(t, wanted);
    var t' := YieldStep(w, cycle).value.1.w.trains[id];
    SameClearing(t, t.(held := t'.held), t', wanted);
  }

  lemma RegrantLeaves(id: Id, gave: Out)
    requires id in gave.w.trains
    ensures id in Regrant(id, gave).w.trains && Regrant(id, gave).w.trains[id] == gave.w.trains[id]
  {
    hide Retry, Grew;
    SkippingPassGrows(gave.w, {id});
  }

  lemma ClearedHolds(t: Train, t': Train, wanted: EdgeRef, e: EdgeRef)
    requires ClearsFor(t, t', wanted)
    ensures HoldsEdge(t'.held, e) <==> HoldsEdge(t.held, e) && !Touches(e, wanted)
  {
    hide Touches;
    if HoldsEdge(t.held, e) && !Touches(e, wanted) {
      var h :| h in t.held && h.edge == e;
      assert h in t'.held;
    }
  }

  /** The peer's wanted edge touches nothing the body overlaps. */
  ghost predicate BodyApart(leg: Leg, length: Length, head: real, wanted: EdgeRef)
    requires |leg.edges| == |leg.lengths|
  {
    forall j :: 0 <= j < |leg.edges| && Overlaps(leg, length, head, j) ==> !Touches(leg.edges[j], wanted)
  }

  /**
   * A yield keeps the body of the train that yields in held edges exactly when the peer's edge touches none of them.
   */
  lemma YieldKeepsBodyIff(w: World, cycle: seq<Id>, leg: Leg, length: Length, head: real)
    requires YieldStep(w, cycle).Some? && IsLeg(leg)
    requires var id := YieldStep(w, cycle).value.0; id in w.trains && BodyIsHeld(leg, length, Ride(w.trains[id], head))
    ensures var (id, gave) := YieldStep(w, cycle).value;
            && id in Regrant(id, gave).w.trains && PeerWanted(w.trains, cycle, id).Some?
            && (BodyIsHeld(leg, length, Ride(Regrant(id, gave).w.trains[id], head))
                <==> BodyApart(leg, length, head, PeerWanted(w.trains, cycle, id).value))
  {
    hide YieldStep, PeerWanted, ClearsFor, Touches, HoldsEdge, Regrant, Overlaps;
    var (id, gave) := YieldStep(w, cycle).value;
    YieldClears(w, cycle);
    RegrantLeaves(id, gave);
    var t, t' := w.trains[id], gave.w.trains[id];
    var wanted := PeerWanted(w.trains, cycle, id).value;
    forall e ensures HoldsEdge(t'.held, e) <==> HoldsEdge(t.held, e) && !Touches(e, wanted) {
      ClearedHolds(t, t', wanted, e);
    }
  }

  // ---------- the reverse ----------

  /** A chain of held edges back from where the leg's first n edges end runs along the leg. */
  lemma {:induction false} ChainIsLeg(leg: Leg, n: nat, held: seq<Held>, start: Marker, chain: seq<EdgeRef>, i: nat)
    requires IsLeg(leg) && n <= |leg.edges| && OnlyLegBehind(leg, n, held, {}) && Backwards(held, {}, start, chain)
    requires i < |chain| && i < n && leg.edges[n - 1].to == start
    ensures chain[i] == leg.edges[n - 1 - i]
    decreases i
  {
    hide FindInto;
    var m := At(start, chain, i);
    assert FindInto(held, m, {}) == Some(chain[i]);
    if i == 0 {
    } else {
      ChainIsLeg(leg, n, held, start, chain, i - 1);
      assert leg.edges[n - i - 1].to == leg.edges[n - i].from;
    }
    var h :| h in held && h.edge == chain[i];
    assert h.edge.to == leg.edges[n - 1 - i].to;
  }

  lemma {:induction false} ChainSpan(l: Layout, leg: Leg, n: nat, held: seq<Held>, start: Marker, chain: seq<EdgeRef>,
                                     i: nat)
    requires IsLeg(leg) && n <= |leg.edges| && OnlyLegBehind(leg, n, held, {}) && Backwards(held, {}, start, chain)
    requires HonestLengths(l, leg) && Measured(l, chain) && i <= |chain| && i <= n
             && (n > 0 ==> leg.edges[n - 1].to == start)
    ensures Span(l, chain[..i]) == Begin(leg.lengths, n) - Begin(leg.lengths, n - i)
    decreases i
  {
    if i == 0 {
    } else {
      hide Backwards, OnlyLegBehind, LengthOf;
      ChainSpan(l, leg, n, held, start, chain, i - 1);
      ChainIsLeg(leg, n, held, start, chain, i - 1);
      assert chain[..i][..i - 1] == chain[..i - 1] && chain[i - 1] in chain;
    }
  }

  /** Room for the body behind where the leg's first m edges end: what the body overlaps there is retained. */
  lemma RoomHoldsBody(l: Layout, leg: Leg, m: nat, length: Length, retained: seq<Held>, start: Marker,
                      chain: seq<EdgeRef>, j: nat)
    requires IsLeg(leg) && m <= |leg.edges| && OnlyLegBehind(leg, m, retained, {})
             && (m > 0 ==> leg.edges[m - 1].to == start)
    requires HonestLengths(l, leg) && Carries(l, length, retained, start, chain)
    requires j < m && Begin(leg.lengths, j + 1) > Begin(leg.lengths, m) - length
    ensures HoldsEdge(retained, leg.edges[j])
  {
    hide OnlyLegBehind, HonestLengths, FindInto;
    var i := m - 1 - j;
    if i >= |chain| {
      ChainSpan(l, leg, m, retained, start, chain, |chain|);
      assert chain[..|chain|] == chain;
      BeginGrows(leg.lengths, j + 1, m - |chain|);
      assert false;
    } else {
      ChainIsLeg(leg, m, retained, start, chain, i);
      assert FindInto(retained, At(start, chain, i), {}) == Some(chain[i]);
    }
  }

  /** The train's head stands where the leg's first n edges end, and nothing else it holds ends along them. */
  ghost predicate StandsAt(leg: Leg, n: nat, t: Train) {
    0 < n <= |leg.edges| && t.last == Some(leg.edges[n - 1].to) && OnlyLegBehind(leg, n, t.held, {})
  }

  /**
   * Backing over r edges of the leg, every edge the body overlaps is either still held or one it was sent back over.
   */
  ghost predicate BodyCoveredBack(leg: Leg, length: Length, n: nat, r: nat, held: seq<Held>, released: seq<EdgeRef>)
    requires r <= n <= |leg.edges| == |leg.lengths|
  {
    forall head, j :: Begin(leg.lengths, n - r) <= head <= Begin(leg.lengths, n) && 0 <= j < n
      && Overlaps(leg, length, head, j)
      ==> HoldsEdge(held, leg.edges[j]) || (j >= n - r && leg.edges[j] in released)
  }

  lemma LeftOnlyLeg(leg: Leg, n: nat, m: nat, held: seq<Held>, released: seq<EdgeRef>)
    requires OnlyLegBehind(leg, n, held, {}) && m <= n
    ensures OnlyLegBehind(leg, m, Left(held, released), {})
  {
  }

  /** A retreat within the leg covers the body all the way back. */
  lemma RetreatCoversBody(w: World, id: Id, wanted: EdgeRef, plan: Plan, leg: Leg, length: Length, n: nat)
    requires IsRetreat(w, id, wanted, plan) && IsLeg(leg) && StandsAt(leg, n, w.trains[id]) && |plan.released| <= n
    requires HonestLengths(w.layout, leg) && w.trains[id].length == Some(length) && length > 0.0
    ensures plan.target == leg.edges[n - |plan.released|].from
    ensures BodyCoveredBack(leg, length, n, |plan.released|, Left(w.trains[id].held, plan.released), plan.released)
  {
    hide FindInto, Taken, TouchesAny, BodyHeld, Left, OnlyLegBehind, HonestLengths, InTheWay;
    var t, r := w.trains[id], |plan.released|;
    var m := n - r;
    var left := Left(t.held, plan.released);
    BodyHeldIff(w.layout, t, plan.target, left);
    var chain :| Carries(w.layout, length, left, plan.target, chain);
    ChainIsLeg(leg, n, t.held, t.last.value, plan.released, r - 1);
    LeftOnlyLeg(leg, n, m, t.held, plan.released);
    assert m > 0 ==> leg.edges[m - 1].to == leg.edges[m].from;
    hide Carries;
    forall head, j | Begin(leg.lengths, m) <= head <= Begin(leg.lengths, n) && 0 <= j < n
      && Overlaps(leg, length, head, j)
      ensures HoldsEdge(left, leg.edges[j]) || (j >= m && leg.edges[j] in plan.released)
    {
      if j >= m {
        ChainIsLeg(leg, n, t.held, t.last.value, plan.released, n - 1 - j);
      } else {
        RoomHoldsBody(w.layout, leg, m, length, left, plan.target, chain, j);
      }
    }
  }

  lemma RetreatMoves(w: World, id: Id, wanted: EdgeRef, plan: Plan)
    requires IsRetreat(w, id, wanted, plan)
    ensures id in w.trains && plan.released != []
  {
  }

  /** Where along the leg the retreat over r of its first n edges ends. */
  function Turn(n: nat, r: nat): nat { if r <= n then n - r else 0 }

  /** An edge of the leg the retreat runs over is no longer held. */
  lemma LetGo(leg: Leg, n: nat, w: World, id: Id, wanted: EdgeRef, plan: Plan, j: nat)
    requires IsRetreat(w, id, wanted, plan) && IsLeg(leg) && StandsAt(leg, n, w.trains[id])
    requires Turn(n, |plan.released|) <= j < n
    ensures !HoldsEdge(Left(w.trains[id].held, plan.released), leg.edges[j])
  {
    hide FindInto, Taken, TouchesAny, BodyHeld, OnlyLegBehind, InTheWay;
    ChainIsLeg(leg, n, w.trains[id].held, w.trains[id].last.value, plan.released, n - 1 - j);
  }

  lemma EnactLeaves(w: World, id: Id, plan: Plan)
    requires id in w.trains
    ensures id in Regrant(id, Enact(w, id, plan)).w.trains
    ensures Regrant(id, Enact(w, id, plan)).w.trains[id].held == Left(w.trains[id].held, plan.released)
  {
    hide Regrant;
    RegrantLeaves(id, Enact(w, id, plan));
  }

  /**
   * As soon as a reverse is issued, with its follow-on grants made, and before the train has moved, its body is
   * over an edge it no longer holds: true of every retreat along the leg it stands at the end of.
   */
  lemma ReverseUncovers(w: World, id: Id, wanted: EdgeRef, plan: Plan, leg: Leg, length: Length, n: nat)
    requires IsRetreat(w, id, wanted, plan) && IsLeg(leg) && StandsAt(leg, n, w.trains[id]) && length > 0.0
    ensures id in Regrant(id, Enact(w, id, plan)).w.trains
    ensures !BodyIsHeld(leg, length, Ride(Regrant(id, Enact(w, id, plan)).w.trains[id], Begin(leg.lengths, n)))
  {
    hide IsRetreat, Enact, Regrant, HoldsEdge, Left, OnlyLegBehind;
    RetreatMoves(w, id, wanted, plan);
    EnactLeaves(w, id, plan);
    LetGo(leg, n, w, id, wanted, plan, n - 1);
    assert Overlaps(leg, length, Begin(leg.lengths, n), n - 1);
  }

  /** The last edge that begins behind the head. */
  lemma {:induction false} EdgeUnderHead(lengths: seq<Extent>, m: nat, n: nat, head: real) returns (j: nat)
    requires m <= n <= |lengths| && Begin(lengths, m) < head <= Begin(lengths, n)
    ensures m <= j < n && Begin(lengths, j) < head <= Begin(lengths, j + 1)
    decreases n
  {
    if head > Begin(lengths, n - 1) {
      j := n - 1;
    } else {
      j := EdgeUnderHead(lengths, m, n - 1, head);
    }
  }

  /** On the way back the body is wholly over held edges again only when the head has come to the target itself. */
  lemma CoveredAgainIff(w: World, id: Id, wanted: EdgeRef, plan: Plan, leg: Leg, length: Length, n: nat, head: real)
    requires IsRetreat(w, id, wanted, plan) && IsLeg(leg) && StandsAt(leg, n, w.trains[id])
    requires HonestLengths(w.layout, leg) && w.trains[id].length == Some(length) && length > 0.0
    requires Begin(leg.lengths, Turn(n, |plan.released|)) <= head <= Begin(leg.lengths, n)
    ensures id in Regrant(id, Enact(w, id, plan)).w.trains
    ensures BodyIsHeld(leg, length, Ride(Regrant(id, Enact(w, id, plan)).w.trains[id], head))
            <==> head == Begin(leg.lengths, Turn(n, |plan.released|))
  {
    hide IsRetreat, Enact, Regrant, HoldsEdge, Left, OnlyLegBehind, HonestLengths;
    var m := Turn(n, |plan.released|);
    RetreatMoves(w, id, wanted, plan);
    EnactLeaves(w, id, plan);
    if head > Begin(leg.lengths, m) {
      var j := EdgeUnderHead(leg.lengths, m, n, head);
      LetGo(leg, n, w, id, wanted, plan, j);
      assert Overlaps(leg, length, head, j);
    } else {
      CoveredAtTarget(w, id, wanted, plan, leg, length, n);
    }
  }

  lemma CoveredAtTarget(w: World, id: Id, wanted: EdgeRef, plan: Plan, leg: Leg, length: Length, n: nat)
    requires IsRetreat(w, id, wanted, plan) && IsLeg(leg) && StandsAt(leg, n, w.trains[id])
    requires HonestLengths(w.layout, leg) && w.trains[id].length == Some(length) && length > 0.0
    ensures var m := Turn(n, |plan.released|);
            forall j :: 0 <= j < |leg.edges| && Overlaps(leg, length, Begin(leg.lengths, m), j)
              ==> HoldsEdge(Left(w.trains[id].held, plan.released), leg.edges[j])
  {
    hide IsRetreat, HoldsEdge, Left, OnlyLegBehind, HonestLengths;
    var m := Turn(n, |plan.released|);
    RetreatMoves(w, id, wanted, plan);
    forall j | 0 <= j < |leg.edges| && Overlaps(leg, length, Begin(leg.lengths, m), j)
      ensures HoldsEdge(Left(w.trains[id].held, plan.released), leg.edges[j])
    {
      StartsBefore(leg, m, j);
      BeginGrows(leg.lengths, m, n);
      RetreatCoversBody(w, id, wanted, plan, leg, length, n);
    }
  }

  /** An edge that begins before another is an earlier one. */
  lemma StartsBefore(leg: Leg, m: nat, j: nat)
    requires IsLeg(leg) && m <= |leg.edges| && j < |leg.edges| && Begin(leg.lengths, j) < Begin(leg.lengths, m)
    ensures j < m
  {
    if m <= j {
      BeginGrows(leg.lengths, m, j);
    }
  }

  /**
   * An enacted reverse, follow-on grants included: wherever on the way back its head is, the train holds or was told
   * to leave all its body is on; what it was told to leave it holds no longer, so its body starts out uncovered.
   */
  lemma ReverseCoversBody(w: World, cycle: seq<Id>, leg: Leg, length: Length, n: nat) returns (plan: Plan)
    requires Distinct(cycle) && ReverseStep(w, cycle).Some? && IsLeg(leg)
    requires var id := ReverseStep(w, cycle).value.0;
             && id in w.trains && StandsAt(leg, n, w.trains[id]) && HonestLengths(w.layout, leg)
             && w.trains[id].length == Some(length) && length > 0.0
    ensures var (id, gave) := ReverseStep(w, cycle).value;
            var w' := Regrant(id, gave).w;
            && id in w'.trains && w'.trains[id].last == Some(plan.target) && plan.released != []
            && Send(id, GrantReverse(plan.target, plan.released)) in gave.fx
            && (forall e <- plan.released :: !HoldsEdge(w'.trains[id].held, e))
            && !BodyIsHeld(leg, length, Ride(w'.trains[id], Begin(leg.lengths, n)))
            && (|plan.released| <= n ==>
                  && plan.target == leg.edges[n - |plan.released|].from
                  && BodyCoveredBack(leg, length, n, |plan.released|, w'.trains[id].held, plan.released))
  {
    hide IsRetreat, ReverseFirst, Candidates, PeerWanted, Before, Regrant, StandsAt, HonestLengths, BodyCoveredBack,
         BodyIsHeld;
    LowestRetreats(w, cycle);
    var found := ReverseFirst(w, cycle, Candidates(w.trains, cycle)).value;
    var id := found.0;
    plan := found.1;
    RetreatMoves(w, id, PeerWanted(w.trains, cycle, id).value, plan);
    var gave := Enact(w, id, plan);
    assert gave.fx[0] == Send(id, GrantReverse(plan.target, plan.released));
    RegrantLeaves(id, gave);
    ReverseUncovers(w, id, PeerWanted(w.trains, cycle, id).value, plan, leg, length, n);
    if |plan.released| <= n {
      RetreatCoversBody(w, id, PeerWanted(w.trains, cycle, id).value, plan, leg, length, n);
    }
  }
}
