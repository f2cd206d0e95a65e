/** The layout graph as a value: what LayoutState holds, and what each of its operations does to it. */
module LayoutModel {
  import opened Rail

  datatype Kind = BlockBoundary | StationStop | Junction | Terminus | YardEntry | Unspecified

  datatype LayoutEdge = LayoutEdge(from: Marker, to: Marker, length: Option<Length>, needs: Option<string>,
                                   inferred: bool)
  {
    function Ref(): EdgeRef { EdgeRef(from, to) }
  }

  /** A layout document; a junction carries its initial switch position, if any. */
  datatype Document = Document(markers: seq<(Marker, Kind)>, edges: seq<LayoutEdge>,
                               junctions: seq<(Marker, Option<string>)>)

  type Index = map<Marker, seq<LayoutEdge>>

  datatype Layout = Layout(
    document: Document,
    threshold: int,
    markers: map<Marker, Kind>,
    out: Index,
    inc: Index,
    switches: map<Marker, string>,
    switchDevice: map<Marker, Id>,
    counts: map<EdgeRef, nat>,
    lastAt: Option<real>,
    learned: map<EdgeRef, real>,
    lastAtBy: map<Id, real>,
    learnedBy: map<Id, map<EdgeRef, real>>)

  // ---------- queries ----------

  function Listed(index: Index, m: Marker): seq<LayoutEdge> {
    if m in index then index[m] else []
  }

  function EdgesFrom(l: Layout, m: Marker): seq<LayoutEdge> { Listed(l.out, m) }

  /** First edge of a list that ends at the given marker. */
  function FindTo(edges: seq<LayoutEdge>, to: Marker): (r: Option<LayoutEdge>)
    ensures r.Some? ==> r.value in edges && r.value.to == to
    ensures r.None? ==> forall e <- edges :: e.to != to
  {
    if edges == [] then None
    else if edges[0].to == to then Some(edges[0])
    else FindTo(edges[1..], to)
  }

  function FindEdge(l: Layout, from: Marker, to: Marker): Option<LayoutEdge> {
    FindTo(EdgesFrom(l, from), to)
  }

  /** Some edge leads from the one marker to the other. */
  predicate Leads(l: Layout, a: Marker, b: Marker) {
    exists e <- EdgesFrom(l, a) :: e.to == b
  }

  predicate HasIncidentEdges(l: Layout, m: Marker) {
    |Listed(l.out, m)| > 0 || |Listed(l.inc, m)| > 0
  }

  /** The per-train estimate if there is one, else the shared one. */
  function LearnedMs(l: Layout, e: EdgeRef, train: Id): Option<real> {
    if train in l.learnedBy && e in l.learnedBy[train] then Some(l.learnedBy[train][e])
    else if e in l.learned then Some(l.learned[e])
    else None
  }

  // ---------- updates ----------

  function Empty(document: Document, threshold: int): Layout {
    Layout(document, threshold, map[], map[], map[], map[], map[], map[], None, map[], map[], map[])
  }

  predicate CanAdd(l: Layout, e: LayoutEdge) { e.from in l.out && e.to in l.inc }

  function AddEdge(l: Layout, e: LayoutEdge): Layout
    requires CanAdd(l, e)
  {
    l.(out := l.out[e.from := l.out[e.from] + [e]], inc := l.inc[e.to := l.inc[e.to] + [e]])
  }

  function PutMarker(l: Layout, id: Marker, kind: Kind): Layout {
    l.(markers := l.markers[id := kind], out := l.out[id := []], inc := l.inc[id := []])
  }

  function PutMarkers(l: Layout, ms: seq<(Marker, Kind)>): (r: Layout)
    decreases |ms|
  {
    if ms == [] then l else PutMarkers(PutMarker(l, ms[0].0, ms[0].1), ms[1..])
  }

  /** Fails on an edge that names an undeclared marker. */
  function PutEdges(l: Layout, es: seq<LayoutEdge>): Option<Layout>
    decreases |es|
  {
    if es == [] then Some(l)
    else if CanAdd(l, es[0]) then PutEdges(AddEdge(l, es[0]), es[1..])
    else None
  }

  function PutJunctions(l: Layout, js: seq<(Marker, Option<string>)>): Layout
    decreases |js|
  {
    if js == [] then l
    else
      var initial := js[0].1;
      var next := if initial.Some? && initial.value != "" then l.(switches := l.switches[js[0].0 := initial.value])
                  else l;
      PutJunctions(next, js[1..])
  }

  function Load(document: Document, threshold: int): Option<Layout> {
    match PutEdges(PutMarkers(Empty(document, threshold), document.markers), document.edges)
    case None => None
    case Some(l) => Some(PutJunctions(l, document.junctions))
  }

  function Inferred(from: Marker, to: Marker): LayoutEdge { LayoutEdge(from, to, None, None, true) }

  function AddInferredEdge(l: Layout, from: Marker, to: Marker): Layout {
    if FindEdge(l, from, to).Some? then l
    else if from !in l.markers || to !in l.markers then l
    else if CanAdd(l, Inferred(from, to)) then AddEdge(l, Inferred(from, to))
    else l
  }

  function UpsertMarker(l: Layout, id: Marker, kind: Kind): Layout {
    if id in l.markers then l else PutMarker(l, id, kind)
  }

  predicate IsOrphan(l: Layout, m: Marker) {
    m in l.markers && |Listed(l.out, m)| == 0 && |Listed(l.inc, m)| == 0
  }

  function Orphans(l: Layout): set<Marker> { set m | m in l.markers && IsOrphan(l, m) }

  function Prune(l: Layout): Layout {
    var gone := Orphans(l);
    l.(markers := l.markers - gone, out := l.out - gone, inc := l.inc - gone,
       switches := l.switches - gone, switchDevice := l.switchDevice - gone)
  }

  /** Clears the inferred flag on the first edge of the list that joins the two markers. */
  function Promote(edges: seq<LayoutEdge>, from: Marker, to: Marker): (r: seq<LayoutEdge>)
    ensures |r| == |edges|
  {
    if edges == [] then []
    else if edges[0].from == from && edges[0].to == to then [edges[0].(inferred := false)] + edges[1..]
    else [edges[0]] + Promote(edges[1..], from, to)
  }

  function PromoteIn(index: Index, key: Marker, from: Marker, to: Marker): Index {
    if key in index then index[key := Promote(index[key], from, to)] else index
  }

  function ConfirmEdge(l: Layout, from: Marker, to: Marker): Layout {
    l.(out := PromoteIn(l.out, from, from, to), inc := PromoteIn(l.inc, to, from, to))
  }

  /** Exponentially weighted average: the newest delta weighs three tenths. */
  function Blend(prior: map<EdgeRef, real>, e: EdgeRef, delta: real): map<EdgeRef, real> {
    prior[e := if e in prior then prior[e] * 0.7 + delta * 0.3 else delta]
  }

  function LearnShared(l: Layout, e: EdgeRef, now: real): Layout {
    var learned := if l.lastAt.Some? then Blend(l.learned, e, now - l.lastAt.value) else l.learned;
    l.(learned := learned, lastAt := Some(now))
  }

  function LearnForTrain(l: Layout, e: EdgeRef, train: Id, now: real): Layout {
    var mine := if train in l.learnedBy then l.learnedBy[train] else map[];
    var learnedBy := if train in l.lastAtBy then l.learnedBy[train := Blend(mine, e, now - l.lastAtBy[train])]
                     else l.learnedBy;
    l.(learnedBy := learnedBy, lastAtBy := l.lastAtBy[train := now])
  }

  datatype Traversal = Traversal(layout: Layout, added: bool, confirmed: bool)

  /** How often an edge has been traversed. */
  function Count(counts: map<EdgeRef, nat>, e: EdgeRef): nat { if e in counts then counts[e] else 0 }

  function RecordTraversal(l: Layout, from: Marker, to: Marker, train: Option<Id>, now: real): Traversal {
    if from !in l.markers || to !in l.markers then Traversal(l, false, false)
    else
      var key := EdgeRef(from, to);
      var added := FindEdge(l, from, to).None?;
      var l1 := AddInferredEdge(l, from, to);
      var count := Count(l.counts, key) + 1;
      var l2 := l1.(counts := l1.counts[key := count]);
      var edge := FindEdge(l2, from, to);
      var confirmed := edge.Some? && edge.value.inferred && count >= l.threshold;
      var l3 := if confirmed then ConfirmEdge(l2, from, to) else l2;
      var l4 := LearnShared(l3, key, now);
      Traversal(if train.Some? then LearnForTrain(l4, key, train.value, now) else l4, added, confirmed)
  }
}
