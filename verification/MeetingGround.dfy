/** The layout on which two trains meet: five markers, five edges, one way from each marker. */
module MeetingGround {
  import opened Rail
  import opened LayoutModel
  import opened Clearance
  import opened PlannerProofs
  import LayoutGraph
  import Planner

  const AB := EdgeRef("A", "B")
  const BC := EdgeRef("B", "C")
  const CE := EdgeRef("C", "E")

  /** Where the peer comes from and wants to go, and how long the other train is. */
  datatype Plot = Plot(x: EdgeRef, y: EdgeRef, length: Length)

  /** The peer comes over x, apart from A-B-C but in the way of C-E, and wants y, which touches A-B or B-C. */
  ghost predicate IsPlot(p: Plot) {
    && p.length > 0.0 && p.x in {EdgeRef("D", "E"), EdgeRef("E", "D")} && p.y.from == p.x.to
    && p.y.to in {"A", "B", "C"}
  }

  function Track(p: Plot): seq<EdgeRef> { [AB, BC, CE, p.x, p.y] }

  function Places(): set<Marker> { {"A", "B", "C", "D", "E"} }

  function Plain(e: EdgeRef): LayoutEdge { LayoutEdge(e.from, e.to, Some(100.0), None, false) }

  /** Five markers and five edges of a hundred each, without switches. */
  function Ground(p: Plot): Document {
    Document([("A", StationStop), ("B", BlockBoundary), ("C", StationStop), ("D", StationStop), ("E", StationStop)],
             [Plain(AB), Plain(BC), Plain(CE), Plain(p.x), Plain(p.y)], [])
  }

  /** Each marker of the layout offers the one edge the ground has for it. */
  ghost predicate OnGround(l: Layout, p: Plot) {
    l.markers.Keys == Places() && l.out.Keys == Places() && forall e <- Track(p) ::
                                                              e.from in l.out && l.out[e.from] == [Plain(e)]
  }

  lemma GroundMarkers(p: Plot, m: Marker)
    ensures LayoutGraph.Declares(Ground(p), m) <==> m in Places()
  {
    var markers := Ground(p).markers;
    assert markers[0].0 == "A" && markers[1].0 == "B" && markers[2].0 == "C" && markers[3].0 == "D"
           && markers[4].0 == "E";
  }

  lemma GroundEdges(p: Plot, k: nat)
    requires IsPlot(p) && k < 5
    ensures LayoutGraph.Leaving(Ground(p).edges, Track(p)[k].from) == [Plain(Track(p)[k])]
  {
    hide LayoutGraph.Leaving;
    var es, m := Ground(p).edges, Track(p)[k].from;
    LayoutGraph.LeavingAt(es, 0, m);
    LayoutGraph.LeavingAt(es, 1, m);
    LayoutGraph.LeavingAt(es, 2, m);
    LayoutGraph.LeavingAt(es, 3, m);
    LayoutGraph.LeavingAt(es, 4, m);
    LayoutGraph.LeavingEnds(es, m);
  }

  lemma GroundLoads(p: Plot)
    requires IsPlot(p)
    ensures Load(Ground(p), 3).Some? && OnGround(Load(Ground(p), 3).value, p)
  {
    hide Load, LayoutGraph.Leaving, LayoutGraph.Declares;
    var d := Ground(p);
    forall m {
      GroundMarkers(p, m);
    }
    LayoutGraph.LoadLists(d, 3);
    forall e | e in Track(p) ensures LayoutGraph.Leaving(d.edges, e.from) == [Plain(e)] {
      var k :| 0 <= k < 5 && Track(p)[k] == e;
      GroundEdges(p, k);
    }
  }

  lemma OneEach(l: Layout, p: Plot, m: Marker)
    requires IsPlot(p) && OnGround(l, p) && m in l.out
    ensures exists e <- Track(p) :: e.from == m && l.out[m] == [Plain(e)]
  {
    var t := Track(p);
    assert t[0] in t && t[1] in t && t[2] in t && t[3] in t && t[4] in t;
  }

  lemma GroundIsPlain(l: Layout, p: Plot)
    requires IsPlot(p) && OnGround(l, p)
    ensures WellKeyed(l) && NoSwitches(l)
  {
    hide IsPlot, OnGround, Track;
    forall m | m in l.out ensures forall e <- l.out[m] :: e.from == m && e.needs.None? {
      OneEach(l, p, m);
    }
  }

  lemma GroundFinds(l: Layout, p: Plot, e: EdgeRef)
    requires IsPlot(p) && OnGround(l, p) && e in Track(p)
    ensures EdgesFrom(l, e.from) == [Plain(e)] && FindEdge(l, e.from, e.to) == Some(Plain(e)) && !SwitchMismatch(l, e)
    ensures e.from in l.markers && e.to in l.markers
  {
  }

  lemma WaysAreWays(p: Plot, way: seq<EdgeRef>)
    requires IsPlot(p) && way in {[AB, BC], [CE], [p.x, p.y]}
    ensures IsChain(way, way[0].from, way[|way| - 1].to) && IsSimple(way) && forall e <- way :: e in Track(p)
  {
    var t := Track(p);
    assert t[0] == AB && t[1] == BC && t[2] == CE && t[3] == p.x && t[4] == p.y;
  }

  /** The route the planner finds along the only way there is. */
  lemma GroundRoute(l: Layout, p: Plot, way: seq<EdgeRef>)
    requires IsPlot(p) && OnGround(l, p) && way in {[AB, BC], [CE], [p.x, p.y]}
    ensures Planner.PlanTransit(l, way[0].from, way[|way| - 1].to, None) == Some(way)
  {
    hide OnGround, Planner.PlanTransit, EdgesFrom, IsChain, IsSimple, Track;
    WaysAreWays(p, way);
    forall k | 0 <= k < |way| ensures EdgesFrom(l, way[k].from) == [Plain(way[k])] {
      GroundFinds(l, p, way[k]);
    }
    GroundFinds(l, p, way[0]);
    GroundFinds(l, p, way[|way| - 1]);
    GroundIsPlain(l, p);
    ForcedRoute(l, way, way[0].from, way[|way| - 1].to);
  }

  /** Recording a traversal of known track leaves the ground as it is. */
  lemma GroundStays(l: Layout, p: Plot, e: EdgeRef, id: Id, now: real)
    requires IsPlot(p) && OnGround(l, p) && e in Track(p)
    ensures var r := RecordTraversal(l, e.from, e.to, Some(id), now); OnGround(r.layout, p) && !r.added && !r.confirmed
  {
    hide OnGround, Track, IsPlot, Blend;
    GroundFinds(l, p, e);
    SameGround(l, RecordTraversal(l, e.from, e.to, Some(id), now).layout, p);
  }

  lemma SameGround(l: Layout, l': Layout, p: Plot)
    requires OnGround(l, p) && l'.markers == l.markers && l'.out == l.out
    ensures OnGround(l', p)
  {
  }

  lemma GroundHas(l: Layout, p: Plot)
    requires IsPlot(p) && OnGround(l, p)
    ensures forall e <- Track(p) :: !SwitchMismatch(l, e)
    ensures AB in Track(p) && BC in Track(p) && CE in Track(p) && p.x in Track(p) && p.y in Track(p)
  {
    var t := Track(p);
    assert t[0] == AB && t[1] == BC && t[2] == CE && t[3] == p.x && t[4] == p.y;
  }

  lemma GroundPlaces(l: Layout, p: Plot)
    requires OnGround(l, p)
    ensures forall m <- Places() :: m in l.markers
  {
  }
}
