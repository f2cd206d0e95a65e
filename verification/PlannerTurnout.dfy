/** Where the turnout rule makes the search incomplete: it remembers one way into each marker. */
module PlannerTurnout {
  import opened Rail
  import opened LayoutModel
  import opened Planner
  import opened PlannerProofs
  import LayoutGraph

  function Plain(from: Marker, to: Marker, length: Length): LayoutEdge {
    LayoutEdge(from, to, Some(length), None, false)
  }

  function Leg(from: Marker, to: Marker, position: string): LayoutEdge {
    LayoutEdge(from, to, Some(1.0), Some(position), false)
  }

  function ST(): LayoutEdge { Plain("S", "T", 5.0) }
  function TJ(): LayoutEdge { Plain("T", "J", 5.0) }
  function SL(): LayoutEdge { Plain("S", "L", 1.0) }
  function LJ(): LayoutEdge { Plain("L", "J", 1.0) }
  function JL(): LayoutEdge { Leg("J", "L", "l") }
  function JM(): LayoutEdge { Leg("J", "M", "m") }

  /** A junction J with trunk T and legs L and M; from S the short way into J is over leg L. */
  function TurnoutPlan(): Document {
    Document([("S", Unspecified), ("L", Unspecified), ("T", Unspecified), ("J", Junction), ("M", Unspecified)],
             [SL(), ST(), LJ(), TJ(), JL(), JM()],
             [("J", None)])
  }

  function Turnout(): Layout {
    var l := Load(TurnoutPlan(), 3);
    if l.Some? then l.value else Empty(TurnoutPlan(), 3)
  }

  /** The declared edges out of each marker. */
  lemma Declared(m: Marker)
    ensures LayoutGraph.Leaving(TurnoutPlan().edges, m)
            == (if m == "S" then [SL(), ST()] else if m == "L" then [LJ()] else if m == "T" then [TJ()]
                else if m == "J" then [JL(), JM()] else [])
  {
    hide LayoutGraph.Leaving;
    var es := TurnoutPlan().edges;
    LayoutGraph.LeavingAt(es, 0, m);
    LayoutGraph.LeavingAt(es, 1, m);
    LayoutGraph.LeavingAt(es, 2, m);
    LayoutGraph.LeavingAt(es, 3, m);
    LayoutGraph.LeavingAt(es, 4, m);
    LayoutGraph.LeavingAt(es, 5, m);
    LayoutGraph.LeavingEnds(es, m);
  }

  lemma TurnoutEdges()
    ensures LayoutGraph.LateCopiesConfirmed(TurnoutPlan().edges)
    ensures forall e <- TurnoutPlan().edges :: e.from in {"S", "L", "T", "J", "M"} && e.to in {"S", "L", "T", "J", "M"}
  {
    assert forall e <- TurnoutPlan().edges :: !e.inferred;
  }

  lemma DeclaredMarkers(m: Marker)
    ensures LayoutGraph.Declares(TurnoutPlan(), m) <==> m in {"S", "L", "T", "J", "M"}
  {
    var markers := TurnoutPlan().markers;
    assert markers[0].0 == "S" && markers[1].0 == "L" && markers[2].0 == "T" && markers[3].0 == "J"
           && markers[4].0 == "M";
  }

  /** The document loads, into a layout with the graph invariant and exactly these edges. */
  lemma TurnoutLoads()
    ensures Load(TurnoutPlan(), 3) == Some(Turnout()) && LayoutGraph.Sound(Turnout())
    ensures Turnout().markers.Keys == {"S", "L", "T", "J", "M"}
    ensures forall m <- Turnout().markers :: EdgesFrom(Turnout(), m) == LayoutGraph.Leaving(TurnoutPlan().edges, m)
  {
    hide Load, LayoutGraph.GraphOk, LayoutGraph.Discovered, LayoutGraph.Leaving, LayoutGraph.Declares,
         LayoutGraph.LateCopiesConfirmed;
    var plan := TurnoutPlan();
    forall m {
      DeclaredMarkers(m);
    }
    TurnoutEdges();
    LayoutGraph.LoadLists(plan, 3);
    LayoutGraph.LoadedIsOk(plan, 3);
    LayoutGraph.LoadDocument(plan, 3);
  }

  lemma EdgesOf(m: Marker)
    requires m in {"S", "L", "T", "J", "M"}
    ensures EdgesFrom(Turnout(), m)
            == (if m == "S" then [SL(), ST()] else if m == "L" then [LJ()] else if m == "T" then [TJ()]
                else if m == "J" then [JL(), JM()] else [])
  {
    hide Turnout, LayoutGraph.Leaving, EdgesFrom;
    TurnoutLoads();
    Declared(m);
  }

  function Ask(): Query { Query(Turnout(), "S", "M", None, None) }

  /** The legal way round, over the trunk. */
  function OverTrunk(): seq<LayoutEdge> { [ST(), TJ(), JM()] }

  lemma First(q: Query, s: Search, e: Entry)
    requires s.frontier != [] && s.frontier[0] == e && forall x <- s.frontier[1..] :: e.cost < x.cost
    ensures Cheapest(s.frontier) == 0
    ensures Without(s.frontier, 0) == s.frontier[1..]
  {
    forall k | 0 < k < |s.frontier| ensures e.cost < s.frontier[k].cost {
      assert s.frontier[1..][k - 1] == s.frontier[k];
    }
  }

  function S0(): Search { Initial(Ask()) }
  function S1(): Search {
    Search(map["S" := 0.0, "L" := 1.0, "T" := 5.0],
           map["L" := Hop("S", EdgeRef("S", "L")), "T" := Hop("S", EdgeRef("S", "T"))],
           [Entry("L", 1.0), Entry("T", 5.0)])
  }
  function S2(): Search {
    Search(S1().best["J" := 2.0], S1().came["J" := Hop("L", EdgeRef("L", "J"))], [Entry("T", 5.0), Entry("J", 2.0)])
  }
  function S3(): Search { S2().(frontier := [Entry("T", 5.0)]) }
  function S4(): Search { S2().(frontier := []) }

  lemma Step1()
    ensures Expand(Ask(), S0()) == S1() && S0().frontier[0].marker == "S"
  {
    hide Turnout, EdgesFrom;
    First(Ask(), S0(), Entry("S", 0.0));
    EdgesOf("S");
    var es := EdgesFrom(Turnout(), "S");
    var t := S0().(frontier := []);
    var mid := RelaxOne(Ask(), Entry("S", 0.0), None, es[0], t);
    assert mid == Search(map["S" := 0.0, "L" := 1.0], map["L" := Hop("S", EdgeRef("S", "L"))], [Entry("L", 1.0)]);
    assert RelaxOne(Ask(), Entry("S", 0.0), None, es[1], mid) == S1();
    assert Relax(Ask(), Entry("S", 0.0), None, es[1..][1..], S1()) == S1();
  }

  lemma Step2()
    ensures Expand(Ask(), S1()) == S2()
  {
    hide Turnout, EdgesFrom;
    First(Ask(), S1(), Entry("L", 1.0));
    EdgesOf("L");
    var es := EdgesFrom(Turnout(), "L");
    assert es[1..] == [];
    var t := S1().(frontier := [Entry("T", 5.0)]);
    assert RelaxOne(Ask(), Entry("L", 1.0), Some("S"), es[0], t) == S2();
    assert Relax(Ask(), Entry("L", 1.0), Some("S"), es[1..], S2()) == S2();
  }

  lemma LegsOfJ()
    ensures EdgesFrom(Turnout(), "J") == [JL(), JM()]
    ensures IsSwitchedLeg(Turnout(), "J", "L") && IsSwitchedLeg(Turnout(), "J", "M")
    ensures !IsSwitchedLeg(Turnout(), "J", "T")
  {
    hide Turnout, EdgesFrom;
    EdgesOf("J");
    assert JL() in EdgesFrom(Turnout(), "J") && JM() in EdgesFrom(Turnout(), "J");
  }

  /** Settled over leg L, the junction offers neither leg. */
  lemma Step3()
    ensures Cheapest(S2().frontier) == 1 && Expand(Ask(), S2()) == S3()
  {
    hide Turnout, EdgesFrom, IsSwitchedLeg;
    LegsOfJ();
    var es := EdgesFrom(Turnout(), "J");
    var cur := Entry("J", 2.0);
    assert RelaxOne(Ask(), cur, Some("L"), es[0], S3()) == S3() && RelaxOne(Ask(), cur, Some("L"), es[1], S3()) == S3();
    assert es[1..][1..] == [] && es[1..][0] == es[1];
    assert Relax(Ask(), cur, Some("L"), es[1..], S3()) == S3();
  }

  lemma Step4()
    ensures Expand(Ask(), S3()) == S4()
  {
    hide Turnout, EdgesFrom;
    EdgesOf("T");
    var es := EdgesFrom(Turnout(), "T");
    assert es[1..] == [];
    assert RelaxOne(Ask(), Entry("T", 5.0), Some("S"), es[0], S4()) == S4();
    assert Relax(Ask(), Entry("T", 5.0), Some("S"), es[1..], S4()) == S4();
  }

  lemma Advance(q: Query, s: Search, done: seq<Marker>)
    requires Inv(q, s, done) && s.frontier != []
    requires var cur := s.frontier[Cheapest(s.frontier)]; !IsStale(cur, s.best) && cur.marker != q.target
    ensures var cur := s.frontier[Cheapest(s.frontier)];
            Inv(q, Expand(q, s), done + [cur.marker]) && Loop(q, s, done) == Loop(q, Expand(q, s), done + [cur.marker])
  {
    ExpandKeeps(q, s, done);
  }

  /**
   * On a layout loaded from a document the walk over the trunk is legal and leads to M, yet the planner, asked for
   * a train at S without a heading, answers that there is no route: the cheapest way into J is over a leg.
   */
  lemma TrunkRouteMissed()
    ensures Load(TurnoutPlan(), 3) == Some(Turnout()) && LayoutGraph.Sound(Turnout())
    ensures IsWalk(Ask(), OverTrunk(), "S", "M") && StepsLegal(Turnout(), Refs(OverTrunk()), None, None)
    ensures PlanTransit(Turnout(), "S", "M", None) == None && !LegsApart(Ask())
  {
    hide Turnout, Dijkstra, StepsLegal, IsWalk, PlanTransit, LayoutGraph.Sound, LegsApart, WellKeyed;
    TurnoutLoads();
    TrunkIsLegal();
    SearchMisses();
    PlanIsSearch();
    TurnoutKeyed();
    DijkstraAnswers(Ask());
  }

  lemma TurnoutKeyed()
    ensures WellKeyed(Turnout())
  {
    hide Turnout, LayoutGraph.Leaving;
    TurnoutLoads();
    forall m, e | m in Turnout().out && e in Turnout().out[m] ensures e.from == m {
      LayoutGraph.ListedUnder(Turnout(), m);
    }
  }

  lemma PlanIsSearch()
    ensures PlanTransit(Turnout(), "S", "M", None) == Dijkstra(Ask())
  {
    hide Turnout, Dijkstra, LayoutGraph.Sound, EdgesFrom, LayoutGraph.Leaving;
    TurnoutLoads();
    assert "S" in Turnout().markers.Keys && "M" in Turnout().markers.Keys;
  }

  lemma SearchMisses()
    ensures Dijkstra(Ask()) == None
  {
    hide Expand, Inv, Turnout;
    Step1();
    Step2();
    Step3();
    Step4();
    Advance(Ask(), S0(), []);
    Advance(Ask(), S1(), [] + ["S"]);
    Advance(Ask(), S2(), [] + ["S"] + ["L"]);
    Advance(Ask(), S3(), [] + ["S"] + ["L"] + ["J"]);
  }

  lemma TrunkIsWalk()
    ensures IsWalk(Ask(), OverTrunk(), "S", "M") && Refs(OverTrunk()) == [ST().Ref(), TJ().Ref(), JM().Ref()]
  {
    hide Turnout, EdgesFrom;
    EdgesOf("S");
    EdgesOf("T");
    EdgesOf("J");
    assert ST() == EdgesFrom(Turnout(), "S")[1] && TJ() == EdgesFrom(Turnout(), "T")[0]
           && JM() == EdgesFrom(Turnout(), "J")[1];
    hide IsWalk, Refs, Cost;
    TrunkSteps(Ask());
  }

  lemma TrunkSteps(q: Query)
    requires q.forbid == None && q.source == "S"
    requires ST() in EdgesFrom(q.layout, "S") && TJ() in EdgesFrom(q.layout, "T") && JM() in EdgesFrom(q.layout, "J")
    ensures IsWalk(q, OverTrunk(), "S", "M") && Refs(OverTrunk()) == [ST().Ref(), TJ().Ref(), JM().Ref()]
  {
    hide EdgesFrom;
    assert Refs([]) == [];
    WalkMore(q, [], "S", ST());
    WalkMore(q, [] + [ST()], "S", TJ());
    WalkMore(q, [] + [ST()] + [TJ()], "S", JM());
    assert [] + [ST()] + [TJ()] + [JM()] == OverTrunk();
    assert [] + [ST().Ref()] + [TJ().Ref()] + [JM().Ref()] == [ST().Ref(), TJ().Ref(), JM().Ref()];
  }

  lemma TrunkIsLegal()
    ensures IsWalk(Ask(), OverTrunk(), "S", "M") && StepsLegal(Turnout(), Refs(OverTrunk()), None, None)
  {
    hide Turnout, EdgesFrom, IsWalk, Refs;
    LegsOfJ();
    EdgesOf("S");
    EdgesOf("T");
    TrunkIsWalk();
    assert ST() == EdgesFrom(Turnout(), "S")[1] && TJ() == EdgesFrom(Turnout(), "T")[0]
           && JM() == EdgesFrom(Turnout(), "J")[1];
    var p := Refs(OverTrunk());
    assert InLayout(Turnout(), p[0]) && InLayout(Turnout(), p[1]) && InLayout(Turnout(), p[2]);
    assert !IsSwitchedLeg(Turnout(), "T", "J") by {
      assert forall e <- EdgesFrom(Turnout(), "T") :: e.needs.None?;
    }
  }
}
