/** How far one grant walk reaches, and who may stop it (ADR-018, ADR-017). */
module Horizon {
  import opened Rail
  import opened LayoutModel
  import opened World
  import opened Clearance

  // ---------- what one walk does ----------

  /** Summed traversal time of n edges from index i. */
  function Time(l: Layout, id: Id, edges: seq<EdgeRef>, i: nat, n: nat): real
    requires i + n <= |edges|
  {
    if n == 0 then 0.0 else Time(l, id, edges, i, n - 1) + EdgeMs(l, id, edges[i + n - 1])
  }

  lemma {:induction false} TimeFirst(l: Layout, id: Id, edges: seq<EdgeRef>, i: nat, n: nat)
    requires 0 < n && i + n <= |edges|
    ensures Time(l, id, edges, i, n) == EdgeMs(l, id, edges[i]) + Time(l, id, edges, i + 1, n - 1)
  {
    hide EdgeMs;
    if n > 1 {
      TimeFirst(l, id, edges, i, n - 1);
    }
  }

  /** The edges of a stretch that are not held yet, in order. */
  function Unheld(have: set<EdgeRef>, es: seq<EdgeRef>): seq<EdgeRef>
    decreases |es|
  {
    if es == [] then []
    else if es[0] in have then Unheld(have, es[1..])
    else [es[0]] + Unheld(have + {es[0]}, es[1..])
  }

  function EdgeSet(held: seq<Held>): set<EdgeRef> { set h | h in held :: h.edge }

  ghost predicate Refused(w: World, id: Id, e: EdgeRef) {
    Conflicts(w, id, e) || SwitchMismatch(w.layout, e) || Denied(w.devices, e.to)
  }

  /** Counting from the given start, the horizon is satisfied before edge m. */
  predicate Enough(l: Layout, id: Id, edges: seq<EdgeRef>, i: nat, granted: nat, ms: real, m: nat)
    requires i <= m <= |edges|
  {
    HorizonSatisfied(granted + m - i, ms + Time(l, id, edges, i, m - i))
  }

  /** A walk from index i that counts what it passes from the given start stops at n. */
  ghost predicate StopsAt(w: World, id: Id, edges: seq<EdgeRef>, i: nat, granted: nat, ms: real, n: nat, w': World) {
    && i <= n <= |edges|
    && (forall m :: i <= m < n ==> !Enough(w.layout, id, edges, i, granted, ms, m))
    && (|| n == |edges|
        || Enough(w.layout, id, edges, i, granted, ms, n)
        || (id in w'.trains && !HoldsEdge(w'.trains[id].held, edges[n]) && Refused(w', id, edges[n])))
  }

  /** It grants exactly the edges up to there that were not held, in order. */
  ghost predicate HoldsUpTo(t: Train, t': Train, edges: seq<EdgeRef>, i: nat, n: nat)
    requires i <= n <= |edges|
  {
    Edges(t'.held) == Edges(t.held) + Unheld(EdgeSet(t.held), edges[i..n])
  }

  lemma GrantOrRefuse(w: World, id: Id, e: EdgeRef)
    requires id in w.trains
    ensures HasGrant(TryGrant(w, id, e).fx) <==> !Refused(w, id, e)
    ensures Refused(w, id, e) ==> Refused(TryGrant(w, id, e).w, id, e) && TryGrant(w, id, e).w.trains == w.trains
    ensures !Refused(w, id, e) ==>
              TryGrant(w, id, e).w.trains[id].held == w.trains[id].held + [Held(e, false, w.clock)]
              && TryGrant(w, id, e).w.layout == w.layout
  {
    hide SwitchMismatch, Denied, Required, Edges;
    var g := Grant(w, id, e);
    assert g.fx[0] == Send(id, GrantClearance(e.to, [e])) && g.fx[0] in g.fx;
  }

  lemma EdgesAppend(a: seq<Held>, h: Held)
    ensures Edges(a + [h]) == Edges(a) + [h.edge]
    ensures EdgeSet(a + [h]) == EdgeSet(a) + {h.edge}
  {
  }

  lemma HoldsIsMember(held: seq<Held>, e: EdgeRef)
    ensures HoldsEdge(held, e) <==> e in EdgeSet(held)
  {
  }

  lemma HeldAlready(t: Train, t': Train, edges: seq<EdgeRef>, i: nat, n: nat)
    requires i < n <= |edges| && edges[i] in EdgeSet(t.held) && HoldsUpTo(t, t', edges, i + 1, n)
    ensures HoldsUpTo(t, t', edges, i, n)
  {
    hide EdgeSet, Edges;
    assert edges[i..n][1..] == edges[i + 1..n];
  }

  lemma GrantedNow(t: Train, mid: Train, t': Train, edges: seq<EdgeRef>, i: nat, n: nat, h: Held)
    requires i < n <= |edges| && edges[i] !in EdgeSet(t.held) && h.edge == edges[i]
    requires mid.held == t.held + [h] && HoldsUpTo(mid, t', edges, i + 1, n)
    ensures HoldsUpTo(t, t', edges, i, n)
  {
    hide EdgeSet, Edges;
    EdgesAppend(t.held, h);
    assert edges[i..n][1..] == edges[i + 1..n];
  }

  /** Stopping at once: the horizon is satisfied, the route ends, or its next edge is refused. */
  lemma StopsHere(w: World, id: Id, edges: seq<EdgeRef>, i: nat, granted: nat, ms: real, w': World)
    requires id in w.trains && i <= |edges| && w'.trains == w.trains
    requires i == |edges| || HorizonSatisfied(granted, ms)
             || (!HoldsEdge(w.trains[id].held, edges[i]) && Refused(w', id, edges[i]))
    ensures StopsAt(w, id, edges, i, granted, ms, i, w') && HoldsUpTo(w.trains[id], w'.trains[id], edges, i, i)
  {
    hide Refused, HoldsEdge, HorizonSatisfied;
    assert edges[i..i] == [];
  }

  lemma {:induction false} WalkReaches(w: World, id: Id, edges: seq<EdgeRef>, i: nat, granted: nat,
                                       ms: real) returns (n: nat)
    requires id in w.trains && i <= |edges|
    ensures i <= n <= |edges|
    ensures var w' := Walk(w, id, edges, i, granted, ms).w;
            StopsAt(w, id, edges, i, granted, ms, n, w') && HoldsUpTo(w.trains[id], w'.trains[id], edges, i, n)
    decreases |edges| - i
  {
    hide TryGrant, HasGrant, EdgeMs, HoldsEdge, Refused, EdgeSet, HorizonSatisfied, Enough, HoldsUpTo, StopsAt;
    n := i;
    if i < |edges| && !HorizonSatisfied(granted, ms) {
      var e := edges[i];
      var more := ms + EdgeMs(w.layout, id, e);
      HoldsIsMember(w.trains[id].held, e);
      if HoldsEdge(w.trains[id].held, e) {
        n := WalkReaches(w, id, edges, i + 1, granted + 1, more);
        var w' := Walk(w, id, edges, i + 1, granted + 1, more).w;
        PassedOn(w, id, edges, i, granted, ms, n, w, w');
        HeldAlready(w.trains[id], w'.trains[id], edges, i, n);
      } else {
        GrantOrRefuse(w, id, e);
        var g := TryGrant(w, id, e);
        if HasGrant(g.fx) {
          n := WalkReaches(g.w, id, edges, i + 1, granted + 1, more);
          var w' := Walk(g.w, id, edges, i + 1, granted + 1, more).w;
          PassedOn(w, id, edges, i, granted, ms, n, g.w, w');
          GrantedNow(w.trains[id], g.w.trains[id], w'.trains[id], edges, i, n, Held(e, false, w.clock));
        } else {
          StopsHere(w, id, edges, i, granted, ms, g.w);
        }
      }
    } else {
      StopsHere(w, id, edges, i, granted, ms, w);
    }
  }

  /** A walk that passed its first edge stops where the rest of it does. */
  lemma PassedOn(w: World, id: Id, edges: seq<EdgeRef>, i: nat, granted: nat, ms: real, n: nat, next: World, w': World)
    requires i < |edges| && !HorizonSatisfied(granted, ms) && next.layout == w.layout
    requires StopsAt(next, id, edges, i + 1, granted + 1, ms + EdgeMs(w.layout, id, edges[i]), n, w')
    ensures StopsAt(w, id, edges, i, granted, ms, n, w')
  {
    hide EdgeMs, Refused, HorizonSatisfied, HoldsEdge, Enough;
    forall m | i < m <= n {
      EnoughShift(w.layout, id, edges, i, granted, ms, m);
    }
    assert !Enough(w.layout, id, edges, i, granted, ms, i) by {
      EnoughNow(w.layout, id, edges, i, granted, ms);
    }
  }

  lemma EnoughNow(l: Layout, id: Id, edges: seq<EdgeRef>, i: nat, granted: nat, ms: real)
    requires i <= |edges|
    ensures Enough(l, id, edges, i, granted, ms, i) <==> HorizonSatisfied(granted, ms)
  {
  }

  lemma EnoughShift(l: Layout, id: Id, edges: seq<EdgeRef>, i: nat, granted: nat, ms: real, m: nat)
    requires i < m <= |edges|
    ensures Enough(l, id, edges, i, granted, ms, m)
            <==> Enough(l, id, edges, i + 1, granted + 1, ms + EdgeMs(l, id, edges[i]), m)
  {
    hide EdgeMs;
    TimeFirst(l, id, edges, i, m - i);
  }

  // ---------- closed form ----------

  /** How many edges a walk has from where the train's progress stands. */
  function Ahead(t: Train): int
    requires t.transit.Some?
  {
    |t.transit.value.edges| - t.transit.value.progress
  }

  /** Where one extension stops, counted from the progress index. */
  ghost predicate Reach(w: World, id: Id, n: nat) {
    && id in w.trains && w.trains[id].transit.Some?
    && var tr := w.trains[id].transit.value;
    && tr.progress + n <= |tr.edges|
    && StopsAt(w, id, tr.edges, tr.progress, 0, 0.0, tr.progress + n, Extend(w, id).w)
    && HoldsUpTo(w.trains[id], Extend(w, id).w.trains[id], tr.edges, tr.progress, tr.progress + n)
  }

  lemma ExtendReaches(w: World, id: Id) returns (n: nat)
    requires id in w.trains && w.trains[id].transit.Some? && Ahead(w.trains[id]) >= 0
    ensures Reach(w, id, n)
  {
    hide Walk, StopsAt, HoldsUpTo;
    var tr := w.trains[id].transit.value;
    var stop := WalkReaches(w, id, tr.edges, tr.progress, 0, 0.0);
    n := stop - tr.progress;
  }

  /** Never past six edges ahead, whatever the times. */
  lemma NeverPastTheCap(w: World, id: Id, n: nat)
    requires Reach(w, id, n)
    ensures n <= 6
  {
    hide HoldsUpTo, Extend, Refused;
    var tr := w.trains[id].transit.value;
    assert n > 6 ==> !Enough(w.layout, id, tr.edges, tr.progress, 0, 0.0, tr.progress + 6);
  }

  function Min(a: int, b: int): int { if a < b then a else b }
  function Max(a: int, b: int): int { if a < b then b else a }

  /** k is the least number of edges ahead whose summed time covers six seconds; one too many if none does. */
  ghost predicate LeastCovering(l: Layout, id: Id, t: Train, k: nat)
    requires t.transit.Some?
  {
    var tr := t.transit.value;
    && k <= Ahead(t) + 1 && tr.progress <= |tr.edges|
    && (forall j :: 0 <= j < k && j <= Ahead(t) ==> Time(l, id, tr.edges, tr.progress, j) < 6000.0)
    && (k <= Ahead(t) ==> Time(l, id, tr.edges, tr.progress, k) >= 6000.0)
  }

  ghost predicate TimesNonNegative(l: Layout, id: Id) {
    forall e :: EdgeMs(l, id, e) >= 0.0
  }

  lemma {:induction false} TimeGrows(l: Layout, id: Id, edges: seq<EdgeRef>, i: nat, a: nat, b: nat)
    requires TimesNonNegative(l, id) && a <= b && i + b <= |edges|
    ensures Time(l, id, edges, i, a) <= Time(l, id, edges, i, b)
    decreases b
  {
    if a < b {
      TimeGrows(l, id, edges, i, a, b - 1);
    }
  }

  /**
   * An extension nobody refuses reaches three edges, or as many as six seconds take up to six, or the route's end.
   */
  lemma HorizonClosedForm(w: World, id: Id, n: nat, k: nat)
    requires Reach(w, id, n) && TimesNonNegative(w.layout, id) && LeastCovering(w.layout, id, w.trains[id], k)
    requires var tr := w.trains[id].transit.value;
             tr.progress + n < |tr.edges| ==> !Refused(Extend(w, id).w, id, tr.edges[tr.progress + n])
    ensures n == Min(Ahead(w.trains[id]), Max(3, Min(6, k)))
  {
    hide HoldsUpTo, Extend, Refused, EdgeMs, HoldsEdge, TimesNonNegative;
    var t := w.trains[id];
    var tr := t.transit.value;
    var goal := Min(Ahead(t), Max(3, Min(6, k)));
    assert n > goal ==> !Enough(w.layout, id, tr.edges, tr.progress, 0, 0.0, tr.progress + goal);
    if k <= goal {
      TimeGrows(w.layout, id, tr.edges, tr.progress, k, goal);
    }
  }

  /** With nothing learned, an extension nobody refuses reaches three edges, or the route's end. */
  lemma UnlearnedHorizon(w: World, id: Id, n: nat)
    requires Reach(w, id, n) && forall e :: LearnedMs(w.layout, e, id).None?
    requires var tr := w.trains[id].transit.value;
             tr.progress + n < |tr.edges| ==> !Refused(Extend(w, id).w, id, tr.edges[tr.progress + n])
    ensures n == Min(Ahead(w.trains[id]), 3)
  {
    hide Reach, Extend, Refused;
    ReachInRoute(w, id, n);
    OneCovers(w, id);
    HorizonClosedForm(w, id, n, 1);
  }

  lemma ReachInRoute(w: World, id: Id, n: nat)
    requires Reach(w, id, n)
    ensures id in w.trains && w.trains[id].transit.Some? && Ahead(w.trains[id]) >= 0
  {
  }

  /** An unmeasured edge covers the whole lead time. */
  lemma OneCovers(w: World, id: Id)
    requires id in w.trains && w.trains[id].transit.Some? && Ahead(w.trains[id]) >= 0
    requires forall e :: LearnedMs(w.layout, e, id).None?
    ensures LeastCovering(w.layout, id, w.trains[id], 1) && TimesNonNegative(w.layout, id)
  {
    var tr := w.trains[id].transit.value;
    assert Time(w.layout, id, tr.edges, tr.progress, 0) == 0.0;
    if Ahead(w.trains[id]) >= 1 {
      assert Time(w.layout, id, tr.edges, tr.progress, 1) == 0.0 + EdgeMs(w.layout, id, tr.edges[tr.progress]);
    }
  }

  // ---------- in order ----------

  /** Each newly held edge comes after everything before it on the route is held. */
  lemma {:induction false} UnheldInOrder(have: set<EdgeRef>, es: seq<EdgeRef>, x: nat) returns (j: nat)
    requires x < |Unheld(have, es)|
    ensures j < |es| && es[j] == Unheld(have, es)[x]
    ensures forall m :: 0 <= m < j ==> es[m] in have || es[m] in Unheld(have, es)[..x]
    decreases |es|
  {
    if es[0] in have {
      j := UnheldInOrder(have, es[1..], x);
      j := j + 1;
      assert forall m :: 0 < m < j ==> es[m] == es[1..][m - 1];
    } else if x == 0 {
      j := 0;
    } else {
      var rest := Unheld(have + {es[0]}, es[1..]);
      j := UnheldInOrder(have + {es[0]}, es[1..], x - 1);
      j := j + 1;
      assert Unheld(have, es)[..x] == [es[0]] + rest[..x - 1];
      forall m | 0 <= m < j ensures es[m] in have || es[m] in Unheld(have, es)[..x] {
        assert m > 0 ==> es[m] == es[1..][m - 1];
      }
    }
  }

  lemma NewlyHeld(was: seq<Held>, held: seq<Held>, more: seq<EdgeRef>, x: nat)
    requires Edges(held) == Edges(was) + more && |was| <= x < |held|
    ensures x - |was| < |more| && held[x].edge == more[x - |was|]
  {
    assert Edges(held)[x] == more[x - |was|];
  }

  /** The edges an extension appended, and the stretch of the route they come from. */
  lemma Appended(w: World, id: Id, x: nat) returns (es: seq<EdgeRef>)
    requires id in w.trains && w.trains[id].transit.Some? && Ahead(w.trains[id]) >= 0
    requires |w.trains[id].held| <= x < |Extend(w, id).w.trains[id].held|
    ensures var tr := w.trains[id].transit.value;
            var was, held := w.trains[id].held, Extend(w, id).w.trains[id].held;
            var more := Unheld(EdgeSet(was), es);
            && |es| <= HORIZON_MAX_EDGES && tr.progress + |es| <= |tr.edges|
            && es == tr.edges[tr.progress..tr.progress + |es|]
            && Edges(held) == Edges(was) + more && x - |was| < |more| && held[x].edge == more[x - |was|]
  {
    hide Extend, StopsAt, EdgeSet, Unheld, Edges;
    var tr := w.trains[id].transit.value;
    var n := ExtendReaches(w, id);
    NeverPastTheCap(w, id, n);
    es := tr.edges[tr.progress..tr.progress + n];
    NewlyHeld(w.trains[id].held, Extend(w, id).w.trains[id].held, Unheld(EdgeSet(w.trains[id].held), es), x);
  }

  /** One call grants the edge at an index only when every route edge from the progress index up to it is held. */
  lemma GrantsInOrder(w: World, id: Id, x: nat) returns (j: nat)
    requires id in w.trains && w.trains[id].transit.Some? && Ahead(w.trains[id]) >= 0
    requires |w.trains[id].held| <= x < |Extend(w, id).w.trains[id].held|
    ensures var tr := w.trains[id].transit.value;
            var held := Extend(w, id).w.trains[id].held;
            && tr.progress <= j < |tr.edges| && j < tr.progress + HORIZON_MAX_EDGES
            && held[x].edge == tr.edges[j]
            && forall m :: tr.progress <= m < j ==> HoldsEdge(held[..x], tr.edges[m])
  {
    hide Extend, EdgeSet, HoldsEdge, Unheld, Edges;
    var tr := w.trains[id].transit.value;
    var was := w.trains[id].held;
    var held := Extend(w, id).w.trains[id].held;
    var es := Appended(w, id, x);
    var have := EdgeSet(was);
    var y := x - |was|;
    var k := UnheldInOrder(have, es, y);
    j := tr.progress + k;
    forall m | tr.progress <= m < j ensures HoldsEdge(held[..x], tr.edges[m]) {
      assert es[m - tr.progress] == tr.edges[m];
      PrefixHolds(was, held, Unheld(have, es), y, tr.edges[m]);
    }
  }

  lemma {:induction false} PrefixHolds(was: seq<Held>, held: seq<Held>, more: seq<EdgeRef>, y: nat, e: EdgeRef)
    requires Edges(held) == Edges(was) + more && y <= |more|
    requires e in EdgeSet(was) || e in more[..y]
    ensures HoldsEdge(held[..|was| + y], e)
  {
    var x := |was| + y;
    if e in EdgeSet(was) {
      var h :| h in was && h.edge == e;
      var i :| 0 <= i < |was| && was[i] == h;
      assert Edges(held)[i] == Edges(was)[i];
      assert held[..x][i].edge == e;
    } else {
      var i :| 0 <= i < y && more[i] == e;
      assert Edges(held)[|was| + i] == e;
      assert held[..x][|was| + i].edge == e;
    }
  }
}
