/**
 * Route search over the layout graph: Dijkstra with lazy deletion, a barred
 * first U-turn and the turnout rule. The search is written as the sequence of
 * states its loop passes through; its invariant is what makes it terminate.
 */
module Planner {
  import opened Rail
  import opened LayoutModel

  datatype Entry = Entry(marker: Marker, cost: real)
  datatype Hop = Hop(from: Marker, edge: EdgeRef)
  datatype Search = Search(best: map<Marker, real>, came: map<Marker, Hop>, frontier: seq<Entry>)

  /** What stays fixed during one search. */
  datatype Query = Query(layout: Layout, source: Marker, target: Marker, forbid: Option<EdgeRef>,
                         arrived: Option<Marker>)

  function StepCost(e: LayoutEdge): (c: real)
    ensures c >= 0.0
  {
    if e.length.Some? then e.length.value else 1.0
  }

  predicate IsSwitchedLeg(l: Layout, m: Marker, neighbour: Marker) {
    exists e <- EdgesFrom(l, m) :: e.to == neighbour && e.needs.Some?
  }

  predicate IsLegToLegMove(l: Layout, m: Marker, arrivedFrom: Option<Marker>, to: Marker) {
    arrivedFrom.Some? && IsSwitchedLeg(l, m, arrivedFrom.value) && IsSwitchedLeg(l, m, to)
  }

  function ArrivedFrom(q: Query, came: map<Marker, Hop>, m: Marker): Option<Marker> {
    if m in came then Some(came[m].from) else q.arrived
  }

  predicate Barred(q: Query, m: Marker, arrivedFrom: Option<Marker>, e: LayoutEdge) {
    q.forbid == Some(e.Ref()) || IsLegToLegMove(q.layout, m, arrivedFrom, e.to)
  }

  // ---------- one step of the search ----------

  /** Index of the first cheapest entry, the incumbent being b. */
  function CheapestFrom(f: seq<Entry>, i: nat, b: nat): (k: nat)
    requires b < i <= |f|
    requires forall j :: 0 <= j < i ==> f[b].cost <= f[j].cost && (j < b ==> f[b].cost < f[j].cost)
    ensures k < |f| && forall j :: 0 <= j < |f| ==> f[k].cost <= f[j].cost && (j < k ==> f[k].cost < f[j].cost)
    decreases |f| - i
  {
    if i == |f| then b
    else CheapestFrom(f, i + 1, if f[i].cost < f[b].cost then i else b)
  }

  function Cheapest(f: seq<Entry>): (k: nat)
    requires f != []
    ensures k < |f| && forall j :: 0 <= j < |f| ==> f[k].cost <= f[j].cost && (j < k ==> f[k].cost < f[j].cost)
  {
    CheapestFrom(f, 1, 0)
  }

  function Without(f: seq<Entry>, k: nat): seq<Entry>
    requires k < |f|
  {
    f[..k] + f[k + 1..]
  }

  predicate IsStale(x: Entry, best: map<Marker, real>) {
    x.marker in best && x.cost > best[x.marker]
  }

  function RelaxOne(q: Query, cur: Entry, arrivedFrom: Option<Marker>, e: LayoutEdge, s: Search): Search {
    if Barred(q, cur.marker, arrivedFrom, e) then s
    else
      var cost := cur.cost + StepCost(e);
      if e.to in s.best && cost >= s.best[e.to] then s
      else Push(s, cur.marker, e, cost)
  }

  function Push(s: Search, from: Marker, e: LayoutEdge, cost: real): Search {
    Search(s.best[e.to := cost], s.came[e.to := Hop(from, e.Ref())], s.frontier + [Entry(e.to, cost)])
  }

  function Relax(q: Query, cur: Entry, arrivedFrom: Option<Marker>, edges: seq<LayoutEdge>, s: Search): Search
    decreases |edges|
  {
    if edges == [] then s
    else Relax(q, cur, arrivedFrom, edges[1..], RelaxOne(q, cur, arrivedFrom, edges[0], s))
  }

  // ---------- the loop invariant ----------

  type Prices = map<Marker, real>
  type Hops = map<Marker, Hop>

  function Nodes(q: Query): set<Marker> {
    {q.source} + set m, i | m in q.layout.out && 0 <= i < |q.layout.out[m]| :: q.layout.out[m][i].to
  }

  /** Settled markers are pairwise distinct, and each one's predecessor was settled before it. */
  ghost predicate Chained(q: Query, came: Hops, done: seq<Marker>) {
    && Distinct(done)
    && q.source !in came
    && (forall m <- came :: came[m].from in done)
    && (forall i {:trigger Linked(q, came, done, i)} :: 0 <= i < |done| ==> Linked(q, came, done, i))
  }

  ghost predicate Linked(q: Query, came: Hops, done: seq<Marker>, i: nat)
    requires i < |done|
  {
    done[i] == q.source || (done[i] in came && came[done[i]].from in done[..i])
  }

  ghost predicate Priced(q: Query, best: Prices, came: Hops, done: seq<Marker>) {
    && best.Keys == came.Keys + {q.source} && best.Keys <= Nodes(q)
    && best[q.source] == 0.0
    && (forall m <- done :: m in best)
    && (forall m <- best :: best[m] >= 0.0)
  }

  /** Every entry is at least as dear as the best known price; one per open marker is exact. */
  ghost predicate Exact(best: Prices, f: seq<Entry>, done: seq<Marker>) {
    && (forall i :: 0 <= i < |f| ==> f[i].marker in best && f[i].cost >= best[f[i].marker])
    && (forall m <- best :: m !in done ==> Entry(m, best[m]) in f)
  }

  /** No two entries for one marker agree. */
  ghost predicate Apart(f: seq<Entry>) {
    forall i, j :: 0 <= i < j < |f| && f[i].marker == f[j].marker ==> f[i].cost != f[j].cost
  }

  /** Settled markers cost no more than any entry, and less than an entry of their own. */
  ghost predicate Settled(best: Prices, f: seq<Entry>, done: seq<Marker>) {
    forall m, i :: m in done && 0 <= i < |f| && m in best
      ==> best[m] <= f[i].cost && (f[i].marker == m ==> best[m] < f[i].cost)
  }

  ghost predicate Queued(best: Prices, f: seq<Entry>, done: seq<Marker>) {
    Exact(best, f, done) && Apart(f) && Settled(best, f, done)
  }

  /** e is the layout edge behind the hop recorded into m, allowed there, and it accounts for m's price. */
  ghost predicate IsHop(q: Query, best: Prices, came: Hops, m: Marker, e: LayoutEdge) {
    && m in came && e in EdgesFrom(q.layout, came[m].from) && e.to == m && came[m].edge == e.Ref()
    && !Barred(q, came[m].from, ArrivedFrom(q, came, came[m].from), e)
    && m in best && came[m].from in best && best[m] == best[came[m].from] + StepCost(e)
  }

  ghost predicate HopOk(q: Query, best: Prices, came: Hops, m: Marker) {
    exists e :: IsHop(q, best, came, m, e)
  }

  ghost predicate HopsOk(q: Query, best: Prices, came: Hops) {
    forall m {:trigger HopOk(q, best, came, m)} :: m in came ==> HopOk(q, best, came, m)
  }

  ghost predicate Core(q: Query, s: Search, done: seq<Marker>) {
    && Chained(q, s.came, done)
    && Priced(q, s.best, s.came, done)
    && Queued(s.best, s.frontier, done)
    && HopsOk(q, s.best, s.came)
  }

  /** Every allowed one of these edges out of a settled marker has been relaxed. */
  ghost predicate Relaxed(q: Query, best: Prices, came: Hops, m: Marker, edges: seq<LayoutEdge>) {
    && m in best
    && (forall e <- edges :: !Barred(q, m, ArrivedFrom(q, came, m), e)
          ==> e.to in best && best[e.to] <= best[m] + StepCost(e))
  }

  ghost predicate AllRelaxed(q: Query, best: Prices, came: Hops, done: seq<Marker>) {
    forall m <- done :: Relaxed(q, best, came, m, EdgesFrom(q.layout, m))
  }

  ghost predicate Inv(q: Query, s: Search, done: seq<Marker>) {
    Core(q, s, done) && AllRelaxed(q, s.best, s.came, done)
  }

  function Initial(q: Query): (s: Search)
    ensures Inv(q, s, [])
  {
    Search(map[q.source := 0.0], map[], [Entry(q.source, 0.0)])
  }

  // ---------- every step keeps the invariant ----------

  lemma WithoutMember(f: seq<Entry>, k: nat, x: Entry)
    requires k < |f| && x in f && x != f[k]
    ensures x in Without(f, k)
  {
    var i :| 0 <= i < |f| && f[i] == x;
    assert Without(f, k)[if i < k then i else i - 1] == x;
  }

  lemma WithoutAt(f: seq<Entry>, k: nat)
    requires k < |f|
    ensures |Without(f, k)| == |f| - 1
    ensures forall j :: 0 <= j < |f| - 1 ==> Without(f, k)[j] == f[if j < k then j else j + 1]
  {
  }

  /** Taking one entry out: the marker it belongs to must be settled, or the entry stale. */
  lemma DropKeeps(best: Prices, f: seq<Entry>, done: seq<Marker>, done': seq<Marker>, k: nat)
    requires Exact(best, f, done) && Apart(f) && k < |f|
    requires forall m :: m in done ==> m in done'
    requires IsStale(f[k], best) || f[k].marker in done'
    ensures Exact(best, Without(f, k), done') && Apart(Without(f, k))
  {
    WithoutAt(f, k);
    forall m | m in best && m !in done' ensures Entry(m, best[m]) in Without(f, k) {
      WithoutMember(f, k, Entry(m, best[m]));
    }
  }

  lemma DropStale(q: Query, s: Search, done: seq<Marker>, k: nat)
    requires Inv(q, s, done) && k < |s.frontier| && IsStale(s.frontier[k], s.best)
    ensures Inv(q, s.(frontier := Without(s.frontier, k)), done)
  {
    DropKeeps(s.best, s.frontier, done, done, k);
    WithoutAt(s.frontier, k);
  }

  /** The cheapest entry, when not stale, belongs to an open marker and is its exact price. */
  lemma CheapestIsOpen(best: Prices, f: seq<Entry>, done: seq<Marker>)
    requires Queued(best, f, done) && f != [] && !IsStale(f[Cheapest(f)], best)
    ensures var cur := f[Cheapest(f)];
            && cur.marker in best && cur.cost == best[cur.marker] && cur.marker !in done
            && (forall m <- done :: m in best ==> best[m] <= cur.cost)
  {
    var k := Cheapest(f);
    assert f[k].marker in best;
  }

  lemma SettledAfter(best: Prices, f: seq<Entry>, done: seq<Marker>)
    requires Queued(best, f, done) && f != [] && !IsStale(f[Cheapest(f)], best)
    ensures var cur := f[Cheapest(f)];
            var g := Without(f, Cheapest(f));
            && Settled(best, g, done + [cur.marker])
            && (forall i :: 0 <= i < |g| ==> cur.cost <= g[i].cost)
  {
    var k := Cheapest(f);
    WithoutAt(f, k);
    CheapestIsOpen(best, f, done);
    var g := Without(f, k);
    forall i | 0 <= i < |g| && g[i].marker == f[k].marker ensures f[k].cost < g[i].cost {
      var j := if i < k then i else i + 1;
      assert f[j].cost != f[k].cost;
    }
  }

  lemma ChainedAfter(q: Query, came: Hops, done: seq<Marker>, m: Marker)
    requires Chained(q, came, done) && m !in done
    requires m == q.source || m in came
    ensures Chained(q, came, done + [m])
  {
    var done' := done + [m];
    forall i | 0 <= i < |done'| ensures Linked(q, came, done', i) {
      if i < |done| {
        assert Linked(q, came, done, i) && done'[..i] == done[..i];
      } else {
        assert done'[..i] == done;
      }
    }
  }

  /** Settling the marker of the cheapest entry, which is not stale. */
  lemma Settle(q: Query, s: Search, done: seq<Marker>)
    requires Inv(q, s, done) && s.frontier != []
    requires !IsStale(s.frontier[Cheapest(s.frontier)], s.best)
    ensures var cur := s.frontier[Cheapest(s.frontier)];
            && cur.marker in s.best && cur.cost == s.best[cur.marker] && cur.marker !in done
            && Core(q, s.(frontier := Without(s.frontier, Cheapest(s.frontier))), done + [cur.marker])
  {
    var k := Cheapest(s.frontier);
    var cur := s.frontier[k];
    CheapestIsOpen(s.best, s.frontier, done);
    SettledAfter(s.best, s.frontier, done);
    DropKeeps(s.best, s.frontier, done, done + [cur.marker], k);
    ChainedAfter(q, s.came, done, cur.marker);
  }

  /** Prices only fall, and those of settled markers, with their predecessors, never change. */
  ghost predicate Improves(s: Search, t: Search, done: seq<Marker>) {
    && (forall m <- s.best :: m in t.best && t.best[m] <= s.best[m])
    && (forall m <- done :: m in s.best && t.best[m] == s.best[m]
          && (m in s.came <==> m in t.came) && (m in s.came ==> s.came[m] == t.came[m]))
  }

  lemma RelaxedStays(q: Query, s: Search, t: Search, done: seq<Marker>, m: Marker, edges: seq<LayoutEdge>)
    requires Improves(s, t, done) && m in done && Relaxed(q, s.best, s.came, m, edges)
    ensures Relaxed(q, t.best, t.came, m, edges)
  {
  }

  /** The marker being expanded: settled last, at a price no open entry undercuts. */
  ghost predicate Current(s: Search, cur: Entry, done: seq<Marker>) {
    && cur.marker in done && cur.marker in s.best && s.best[cur.marker] == cur.cost
    && (forall m <- done :: m in s.best ==> s.best[m] <= cur.cost)
    && (forall i :: 0 <= i < |s.frontier| ==> cur.cost <= s.frontier[i].cost)
  }

  lemma QueuedAfterPush(best: Prices, f: seq<Entry>, done: seq<Marker>, n: Marker, cost: real)
    requires Queued(best, f, done) && n !in done
    requires n in best ==> cost < best[n]
    requires forall m <- done :: m in best ==> best[m] <= cost
    ensures Queued(best[n := cost], f + [Entry(n, cost)], done)
  {
    var g := f + [Entry(n, cost)];
    assert g[|f|] == Entry(n, cost);
    forall m | m in best[n := cost] && m !in done ensures Entry(m, best[n := cost][m]) in g {
      if m != n {
        assert Entry(m, best[m]) in f;
      }
    }
  }

  lemma HopsAfterPush(q: Query, best: Prices, came: Hops, done: seq<Marker>, from: Marker, e: LayoutEdge, cost: real)
    requires HopsOk(q, best, came) && e.to !in done && from in done && from in best && cost == best[from] + StepCost(e)
    requires Chained(q, came, done)
    requires e in EdgesFrom(q.layout, from) && !Barred(q, from, ArrivedFrom(q, came, from), e)
    ensures HopsOk(q, best[e.to := cost], came[e.to := Hop(from, e.Ref())])
  {
    var best', came' := best[e.to := cost], came[e.to := Hop(from, e.Ref())];
    forall m | m in came' ensures HopOk(q, best', came', m) {
      if m == e.to {
        assert IsHop(q, best', came', m, e);
      } else {
        assert HopOk(q, best, came, m);
        var d :| IsHop(q, best, came, m, d);
        assert IsHop(q, best', came', m, d);
      }
    }
  }

  lemma IsNode(q: Query, from: Marker, e: LayoutEdge)
    requires e in EdgesFrom(q.layout, from)
    ensures e.to in Nodes(q)
  {
    var i :| 0 <= i < |EdgesFrom(q.layout, from)| && EdgesFrom(q.layout, from)[i] == e;
    assert q.layout.out[from][i].to == e.to;
  }

  lemma ChainedAfterPush(q: Query, came: Hops, done: seq<Marker>, n: Marker, h: Hop)
    requires Chained(q, came, done) && n !in done && n != q.source && h.from in done
    ensures Chained(q, came[n := h], done)
  {
    forall i {:trigger Linked(q, came[n := h], done, i)} | 0 <= i < |done| ensures Linked(q, came[n := h], done, i) {
      assert Linked(q, came, done, i);
    }
  }

  lemma PricedAfterPush(q: Query, best: Prices, came: Hops, done: seq<Marker>, n: Marker, h: Hop, cost: real)
    requires Priced(q, best, came, done) && n in Nodes(q) && n !in done && n != q.source
    requires h.from in done && h.from in best && best[h.from] <= cost
    ensures Priced(q, best[n := cost], came[n := h], done)
  {
  }

  lemma PushKeeps(q: Query, s: Search, cur: Entry, e: LayoutEdge, done: seq<Marker>)
    requires Core(q, s, done) && Current(s, cur, done)
    requires e in EdgesFrom(q.layout, cur.marker) && !Barred(q, cur.marker, ArrivedFrom(q, s.came, cur.marker), e)
    requires e.to !in done && e.to != q.source
    requires e.to in s.best ==> cur.cost + StepCost(e) < s.best[e.to]
    ensures Core(q, Push(s, cur.marker, e, cur.cost + StepCost(e)), done)
  {
    hide Chained, Priced, Queued, HopsOk, EdgesFrom, Barred, Nodes;
    var cost := cur.cost + StepCost(e);
    var h := Hop(cur.marker, e.Ref());
    IsNode(q, cur.marker, e);
    PricedAfterPush(q, s.best, s.came, done, e.to, h, cost);
    QueuedAfterPush(s.best, s.frontier, done, e.to, cost);
    ChainedAfterPush(q, s.came, done, e.to, h);
    HopsAfterPush(q, s.best, s.came, done, cur.marker, e, cost);
  }

  lemma PushImproves(q: Query, s: Search, cur: Entry, e: LayoutEdge, done: seq<Marker>, cost: real)
    requires Core(q, s, done) && Current(s, cur, done) && e.to !in done && cost >= cur.cost
    requires e.to in s.best ==> cost < s.best[e.to]
    ensures var t := Push(s, cur.marker, e, cost); Current(t, cur, done) && Improves(s, t, done)
  {
  }

  /** An edge that improves its target leads to an open marker. */
  lemma OpenTarget(q: Query, s: Search, cur: Entry, e: LayoutEdge, done: seq<Marker>)
    requires Core(q, s, done) && Current(s, cur, done)
    ensures Improves(s, s, done)
    ensures (e.to in s.best ==> cur.cost + StepCost(e) < s.best[e.to]) ==> e.to !in done && e.to != q.source
  {
  }

  lemma RelaxOneKeeps(q: Query, cur: Entry, e: LayoutEdge, s: Search, done: seq<Marker>)
    requires Core(q, s, done) && Current(s, cur, done)
    requires e in EdgesFrom(q.layout, cur.marker)
    ensures var t := RelaxOne(q, cur, ArrivedFrom(q, s.came, cur.marker), e, s);
            Core(q, t, done) && Current(t, cur, done) && Improves(s, t, done)
  {
    hide Core, Improves, Current, Barred, EdgesFrom;
    OpenTarget(q, s, cur, e, done);
    var cost := cur.cost + StepCost(e);
    if !Barred(q, cur.marker, ArrivedFrom(q, s.came, cur.marker), e) && (e.to in s.best ==> cost < s.best[e.to]) {
      PushImproves(q, s, cur, e, done, cost);
      PushKeeps(q, s, cur, e, done);
    }
  }

  lemma RelaxOneRelaxes(q: Query, cur: Entry, e: LayoutEdge, s: Search, t: Search, done: seq<Marker>)
    requires Current(s, cur, done) && Improves(s, t, done)
    requires t == RelaxOne(q, cur, ArrivedFrom(q, s.came, cur.marker), e, s)
    ensures ArrivedFrom(q, t.came, cur.marker) == ArrivedFrom(q, s.came, cur.marker)
    ensures Relaxed(q, t.best, t.came, cur.marker, [e])
  {
    hide Barred;
  }

  lemma IsSettled(s: Search, cur: Entry, done: seq<Marker>)
    requires Current(s, cur, done)
    ensures cur.marker in done
  {
  }

  lemma RelaxedNone(q: Query, s: Search, cur: Entry, done: seq<Marker>)
    requires Core(q, s, done) && Current(s, cur, done)
    ensures Improves(s, s, done) && Relaxed(q, s.best, s.came, cur.marker, [])
  {
  }

  lemma ImprovesTrans(a: Search, b: Search, c: Search, done: seq<Marker>)
    requires Improves(a, b, done) && Improves(b, c, done)
    ensures Improves(a, c, done)
  {
  }

  lemma {:induction false} RelaxKeeps(q: Query, cur: Entry, edges: seq<LayoutEdge>, s: Search, done: seq<Marker>)
    requires Core(q, s, done) && Current(s, cur, done)
    requires forall e <- edges :: e in EdgesFrom(q.layout, cur.marker)
    ensures var t := Relax(q, cur, ArrivedFrom(q, s.came, cur.marker), edges, s);
            Core(q, t, done) && Improves(s, t, done) && Relaxed(q, t.best, t.came, cur.marker, edges)
    decreases |edges|
  {
    hide Core, Current, Improves, Barred, EdgesFrom;
    if edges == [] {
      RelaxedNone(q, s, cur, done);
    } else {
      var arrived := ArrivedFrom(q, s.came, cur.marker);
      var mid := RelaxOne(q, cur, arrived, edges[0], s);
      RelaxOneKeeps(q, cur, edges[0], s, done);
      RelaxOneRelaxes(q, cur, edges[0], s, mid, done);
      RelaxKeeps(q, cur, edges[1..], mid, done);
      var t := Relax(q, cur, arrived, edges[1..], mid);
      IsSettled(s, cur, done);
      RelaxedStays(q, mid, t, done, cur.marker, [edges[0]]);
      ImprovesTrans(s, mid, t, done);
      assert edges == [edges[0]] + edges[1..];
    }
  }

  /** The whole body of the loop: settle the cheapest marker and relax its edges. */
  function Expand(q: Query, s: Search): Search
    requires s.frontier != []
  {
    var k := Cheapest(s.frontier);
    var cur := s.frontier[k];
    var t := s.(frontier := Without(s.frontier, k));
    Relax(q, cur, ArrivedFrom(q, t.came, cur.marker), EdgesFrom(q.layout, cur.marker), t)
  }

  lemma CurrentAfter(q: Query, s: Search, done: seq<Marker>)
    requires Inv(q, s, done) && s.frontier != []
    requires !IsStale(s.frontier[Cheapest(s.frontier)], s.best)
    ensures var k := Cheapest(s.frontier);
            var cur := s.frontier[k];
            Current(s.(frontier := Without(s.frontier, k)), cur, done + [cur.marker])
  {
    CheapestIsOpen(s.best, s.frontier, done);
    SettledAfter(s.best, s.frontier, done);
  }

  lemma ExpandKeeps(q: Query, s: Search, done: seq<Marker>)
    requires Inv(q, s, done) && s.frontier != []
    requires !IsStale(s.frontier[Cheapest(s.frontier)], s.best)
    ensures Inv(q, Expand(q, s), done + [s.frontier[Cheapest(s.frontier)].marker])
  {
    hide Core, Current, Relaxed, Improves, Relax, EdgesFrom;
    var k := Cheapest(s.frontier);
    var cur := s.frontier[k];
    var t := s.(frontier := Without(s.frontier, k));
    var done' := done + [cur.marker];
    Settle(q, s, done);
    CurrentAfter(q, s, done);
    RelaxKeeps(q, cur, EdgesFrom(q.layout, cur.marker), t, done');
    forall m | m in done' ensures Relaxed(q, Expand(q, s).best, Expand(q, s).came, m, EdgesFrom(q.layout, m)) {
      if m != cur.marker {
        assert Relaxed(q, s.best, s.came, m, EdgesFrom(q.layout, m));
        SameRelaxed(q, s, t, m);
        RelaxedStays(q, t, Expand(q, s), done', m, EdgesFrom(q.layout, m));
      }
    }
  }

  lemma SameRelaxed(q: Query, s: Search, t: Search, m: Marker)
    requires Relaxed(q, s.best, s.came, m, EdgesFrom(q.layout, m)) && t.best == s.best && t.came == s.came
    ensures Relaxed(q, t.best, t.came, m, EdgesFrom(q.layout, m))
  {
  }

  lemma SettledBounded(q: Query, s: Search, done: seq<Marker>)
    requires Core(q, s, done)
    ensures |done| <= |Nodes(q)|
  {
    var seen := set m | m in done;
    assert seen <= Nodes(q);
    DistinctSize(done);
    SubsetSize(seen, Nodes(q));
  }

  // ---------- the search itself ----------

  function Rank(done: seq<Marker>, m: Marker): (i: nat)
    ensures i <= |done| && (i < |done| <==> m in done) && (i < |done| ==> done[i] == m)
    ensures forall j :: 0 <= j < i ==> done[j] != m
  {
    if done == [] then 0 else if done[0] == m then 0 else 1 + Rank(done[1..], m)
  }

  /** The recorded hops from the source to a marker, in travel order. */
  function Trace(q: Query, came: map<Marker, Hop>, done: seq<Marker>, m: Marker): seq<EdgeRef>
    requires Chained(q, came, done) && (m == q.source || m in came)
    decreases Rank(done, m)
  {
    if m == q.source then []
    else
      PredecessorEarlier(q, came, done, m);
      Trace(q, came, done, came[m].from) + [came[m].edge]
  }

  lemma PredecessorEarlier(q: Query, came: map<Marker, Hop>, done: seq<Marker>, m: Marker)
    requires Chained(q, came, done) && m in came
    ensures Rank(done, came[m].from) < Rank(done, m)
    ensures came[m].from == q.source || came[m].from in came
  {
    var p := came[m].from;
    assert done[Rank(done, p)] == p && Linked(q, came, done, Rank(done, p));
    if m in done {
      var i := Rank(done, m);
      assert Linked(q, came, done, i);
      var j :| 0 <= j < i && done[..i][j] == p;
      assert done[j] == p;
    }
  }

  function Loop(q: Query, s: Search, done: seq<Marker>): (r: Option<seq<EdgeRef>>)
    requires Inv(q, s, done)
    decreases |Nodes(q)| - |done|, |s.frontier|
  {
    if s.frontier == [] then None
    else
      var k := Cheapest(s.frontier);
      var cur := s.frontier[k];
      if IsStale(cur, s.best) then
        DropStale(q, s, done, k);
        Loop(q, s.(frontier := Without(s.frontier, k)), done)
      else
        Settle(q, s, done);
        if cur.marker == q.target then Some(Trace(q, s.came, done, q.target))
        else
          ExpandKeeps(q, s, done);
          SettledBounded(q, Expand(q, s), done + [cur.marker]);
          Loop(q, Expand(q, s), done + [cur.marker])
  }

  function Dijkstra(q: Query): Option<seq<EdgeRef>> {
    if q.source == q.target then Some([]) else Loop(q, Initial(q), [])
  }

  // ---------- the planner's entry points ----------

  function PlanContinuing(l: Layout, from: Marker, next: Marker, target: Marker): Option<seq<EdgeRef>> {
    var head := EdgeRef(from, next);
    if next == target then Some([head])
    else if next !in l.markers then None
    else
      var rest := Dijkstra(Query(l, next, target, Some(EdgeRef(next, from)), Some(from)));
      if rest.None? then None else Some([head] + rest.value)
  }

  function PlanTransit(l: Layout, from: Marker, target: Marker, current: Option<EdgeRef>): Option<seq<EdgeRef>> {
    if from !in l.markers || target !in l.markers then None
    else if from == target then Some([])
    else if current.Some? && current.value.from == from && current.value.to != from then
      PlanContinuing(l, from, current.value.to, target)
    else if current.Some? && current.value.to == from && current.value.from != from then
      Dijkstra(Query(l, from, target, Some(EdgeRef(from, current.value.from)), Some(current.value.from)))
    else Dijkstra(Query(l, from, target, None, None))
  }
}
