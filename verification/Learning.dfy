/** Learned traversal times over whole runs, read off the log of the legs trains have driven. */
module Learning {
  import opened Rail
  import opened LayoutModel
  import opened World
  import opened Handlers
  import opened LayoutGraph
  import opened LayoutRuns
  import opened Clearance
  import Horizon

  // ---------- the log ----------

  /** A train drove an edge and reported its far end at the given time. */
  datatype Leg = Leg(train: Id, edge: EdgeRef, at: real)

  /** The train is on the last edge of its route, and that ends at the reported marker, the throat of a zone. */
  predicate AtThroat(w: World, t: Train, m: Marker) {
    && m in w.zoneBounds && t.transit.Some?
    && var tr := t.transit.value; |tr.edges| == tr.progress + 1 && tr.edges[tr.progress].to == m
  }

  /**
   * A report makes a leg from the train's last marker when both are known and different, the train is in no zone nor
   * about to enter one, and, if it follows a route, the layout joins the two.
   */
  function LegOf(w: World, i: Input): Option<Leg> {
    if !IsReport(w, i) || i.device !in w.trains then None
    else
      var t, m := w.trains[i.device], w.tags[i.tag].target;
      if t.last.None? || t.last.value in {"", m} || t.last.value !in w.layout.markers || m !in w.layout.markers
      then None
      else if t.inZone.Some? || AtThroat(w, t, m) || (t.transit.Some? && !Leads(w.layout, t.last.value, m)) then None
      else Some(Leg(i.device, EdgeRef(t.last.value, m), i.now))
  }

  /** The legs driven since the last reset. */
  function LogOf(w: World, inputs: seq<Input>): seq<Leg> {
    if inputs == [] then []
    else
      var front, i := inputs[..|inputs| - 1], inputs[|inputs| - 1];
      var leg := LegOf(Run(w, front).w, i);
      if i.Reset? then [] else LogOf(w, front) + if leg.Some? then [leg.value] else []
  }

  // ---------- what the log says ----------

  function LegsBy(log: seq<Leg>, train: Id): seq<Leg> {
    if log == [] then []
    else
      var last := log[|log| - 1];
      LegsBy(log[..|log| - 1], train) + if last.train == train then [last] else []
  }

  function LatestAt(log: seq<Leg>): Option<real> {
    if log == [] then None else Some(log[|log| - 1].at)
  }

  /** The times between consecutive legs of which the second was over the edge. */
  function Intervals(log: seq<Leg>, e: EdgeRef): seq<real> {
    if |log| < 2 then []
    else
      var last := log[|log| - 1];
      Intervals(log[..|log| - 1], e) + if last.edge == e then [last.at - log[|log| - 2].at] else []
  }

  /** Moving average: the first interval counts fully, each later one three tenths against all before it. */
  function Average(ds: seq<real>): Option<real> {
    if ds == [] then None
    else
      var before := Average(ds[..|ds| - 1]);
      Some(if before.None? then ds[|ds| - 1] else before.value * 0.7 + ds[|ds| - 1] * 0.3)
  }

  /** It lies between the shortest and the longest interval. */
  lemma {:induction false} AverageBetween(ds: seq<real>, low: real, high: real)
    requires ds != [] && forall d <- ds :: low <= d <= high
    ensures Average(ds).Some? && low <= Average(ds).value <= high
  {
    if |ds| > 1 {
      var front := ds[..|ds| - 1];
      assert |front| > 0;
      forall d | d in front ensures low <= d <= high {
        assert d in ds;
      }
      AverageBetween(front, low, high);
      assert ds[|ds| - 1] in ds;
    } else {
      assert Average(ds[..0]) == None;
      assert ds[0] in ds;
    }
  }

  function Drives(log: seq<Leg>, e: EdgeRef): nat {
    if log == [] then 0 else Drives(log[..|log| - 1], e) + if log[|log| - 1].edge == e then 1 else 0
  }

  /** The train's own average when it has one, else that of all trains. */
  function Estimate(log: seq<Leg>, e: EdgeRef, train: Id): Option<real> {
    var own := Average(Intervals(LegsBy(log, train), e));
    if own.Some? then own else Average(Intervals(log, e))
  }

  // ---------- the layout agrees with it ----------

  function OwnMs(l: Layout, train: Id, e: EdgeRef): Option<real> {
    if train in l.learnedBy then Look(l.learnedBy[train], e) else None
  }

  ghost predicate LearntShared(log: seq<Leg>, l: Layout) {
    && l.lastAt == LatestAt(log)
    && (forall e :: Look(l.learned, e) == Average(Intervals(log, e)))
    && (forall e :: Count(l.counts, e) == Drives(log, e))
  }

  ghost predicate LearntOwn(log: seq<Leg>, l: Layout) {
    && (forall t :: Look(l.lastAtBy, t) == LatestAt(LegsBy(log, t)))
    && (forall t, e :: OwnMs(l, t, e) == Average(Intervals(LegsBy(log, t), e)))
  }

  ghost predicate Learnt(log: seq<Leg>, l: Layout) {
    LearntShared(log, l) && LearntOwn(log, l)
  }

  ghost predicate SameRecord(l: Layout, l': Layout) { SameTimes(l, l') && l'.counts == l.counts }

  lemma SameLearnt(log: seq<Leg>, l: Layout, l': Layout)
    requires Learnt(log, l) && SameRecord(l, l')
    ensures Learnt(log, l')
  {
  }

  lemma {:induction false} IntervalsMore(log: seq<Leg>, leg: Leg, e: EdgeRef)
    ensures Intervals(log + [leg], e)
            == Intervals(log, e) + if log != [] && leg.edge == e then [leg.at - log[|log| - 1].at] else []
  {
    assert (log + [leg])[..|log|] == log;
  }

  lemma AverageMore(ds: seq<real>, d: real)
    ensures Average(ds + [d]) == Some(if ds == [] then d else Average(ds).value * 0.7 + d * 0.3)
  {
    assert (ds + [d])[..|ds|] == ds;
  }

  lemma NoneYet(ds: seq<real>)
    ensures Average(ds).None? <==> ds == []
  {
  }

  /** What one more interval on one edge does to the averages. */
  lemma BlendAverages(prior: map<EdgeRef, real>, log: seq<Leg>, leg: Leg)
    requires log != [] && forall e :: Look(prior, e) == Average(Intervals(log, e))
    ensures var next := Blend(prior, leg.edge, leg.at - log[|log| - 1].at);
            forall e :: Look(next, e) == Average(Intervals(log + [leg], e))
  {
    hide Average, Intervals;
    var d := leg.at - log[|log| - 1].at;
    forall e ensures Look(Blend(prior, leg.edge, d), e) == Average(Intervals(log + [leg], e)) {
      assert Look(prior, e) == Average(Intervals(log, e));
      IntervalsMore(log, leg, e);
      if leg.edge == e {
        AverageMore(Intervals(log, e), d);
        NoneYet(Intervals(log, e));
      } else {
        assert Intervals(log, e) + [] == Intervals(log, e);
      }
    }
  }

  lemma CountsMore(log: seq<Leg>, counts: map<EdgeRef, nat>, leg: Leg)
    requires forall e :: Count(counts, e) == Drives(log, e)
    ensures forall e :: Count(counts[leg.edge := Count(counts, leg.edge) + 1], e) == Drives(log + [leg], e)
  {
    assert (log + [leg])[..|log|] == log;
  }

  lemma AveragesMore(log: seq<Leg>, l: Layout, leg: Leg)
    requires LearntShared(log, l)
    ensures forall e :: Look(LearnShared(l, leg.edge, leg.at).learned, e) == Average(Intervals(log + [leg], e))
  {
    hide Average, Intervals, Blend, Drives;
    var learned := LearnShared(l, leg.edge, leg.at).learned;
    if log == [] {
      forall e ensures Look(learned, e) == Average(Intervals(log + [leg], e)) {
        IntervalsMore(log, leg, e);
        assert Intervals(log, e) + [] == Intervals(log, e);
        assert Look(l.learned, e) == Average(Intervals(log, e));
      }
    } else {
      BlendAverages(l.learned, log, leg);
    }
  }

  lemma SharedLearns(log: seq<Leg>, l: Layout, leg: Leg)
    requires LearntShared(log, l)
    ensures var l' := LearnShared(l, leg.edge, leg.at).(counts := l.counts[leg.edge := Count(l.counts, leg.edge) + 1]);
            LearntShared(log + [leg], l')
  {
    hide Average, Intervals, Blend, Drives, Look, Count;
    AveragesMore(log, l, leg);
    CountsMore(log, l.counts, leg);
  }

  lemma LegsMore(log: seq<Leg>, leg: Leg, t: Id)
    ensures LegsBy(log + [leg], t) == LegsBy(log, t) + if leg.train == t then [leg] else []
  {
    assert (log + [leg])[..|log|] == log;
  }

  lemma OwnLearns(log: seq<Leg>, l: Layout, leg: Leg)
    requires LearntOwn(log, l)
    ensures LearntOwn(log + [leg], LearnForTrain(l, leg.edge, leg.train, leg.at))
  {
    hide Average, Intervals, Blend, LegsBy;
    var l' := LearnForTrain(l, leg.edge, leg.train, leg.at);
    forall t ensures Look(l'.lastAtBy, t) == LatestAt(LegsBy(log + [leg], t)) {
      assert Look(l.lastAtBy, t) == LatestAt(LegsBy(log, t));
      LegsMore(log, leg, t);
    }
    forall t, e ensures OwnMs(l', t, e) == Average(Intervals(LegsBy(log + [leg], t), e)) {
      assert OwnMs(l, t, e) == Average(Intervals(LegsBy(log, t), e));
      LegsMore(log, leg, t);
      if t == leg.train {
        OwnEdgeLearns(log, l, leg, e);
      } else {
        assert LegsBy(log, t) + [] == LegsBy(log, t);
      }
    }
  }

  lemma OwnEdgeLearns(log: seq<Leg>, l: Layout, leg: Leg, e: EdgeRef)
    requires LearntOwn(log, l)
    ensures OwnMs(LearnForTrain(l, leg.edge, leg.train, leg.at), leg.train, e)
            == Average(Intervals(LegsBy(log, leg.train) + [leg], e))
  {
    hide Average, Intervals, Blend, LegsBy, LearnForTrain, OwnMs;
    var t, mine := leg.train, LegsBy(log, leg.train);
    assert Look(l.lastAtBy, t) == LatestAt(mine);
    if mine == [] {
      FirstLeg(l, leg, e);
      IntervalsMore(mine, leg, e);
      assert Intervals(mine, e) + [] == Intervals(mine, e);
      assert OwnMs(l, t, e) == Average(Intervals(mine, e));
    } else {
      forall x ensures OwnMs(l, t, x) == Average(Intervals(mine, x)) {
      }
      NextLeg(mine, l, leg, e);
    }
  }

  lemma FirstLeg(l: Layout, leg: Leg, e: EdgeRef)
    requires leg.train !in l.lastAtBy
    ensures OwnMs(LearnForTrain(l, leg.edge, leg.train, leg.at), leg.train, e) == OwnMs(l, leg.train, e)
  {
    hide Blend;
  }

  lemma NextLeg(mine: seq<Leg>, l: Layout, leg: Leg, e: EdgeRef)
    requires mine != [] && Look(l.lastAtBy, leg.train) == Some(mine[|mine| - 1].at)
    requires forall x :: OwnMs(l, leg.train, x) == Average(Intervals(mine, x))
    ensures OwnMs(LearnForTrain(l, leg.edge, leg.train, leg.at), leg.train, e) == Average(Intervals(mine + [leg], e))
  {
    hide Average, Intervals, Blend;
    var prior := if leg.train in l.learnedBy then l.learnedBy[leg.train] else map[];
    forall x ensures Look(prior, x) == Average(Intervals(mine, x)) {
      assert OwnMs(l, leg.train, x) == Average(Intervals(mine, x));
    }
    BlendAverages(prior, mine, leg);
    var blended := Blend(prior, leg.edge, leg.at - mine[|mine| - 1].at);
    assert LearnForTrain(l, leg.edge, leg.train, leg.at).learnedBy == l.learnedBy[leg.train := blended];
  }

  /** A recorded traversal between known markers appends its leg to what has been learned. */
  lemma RecordLearns(log: seq<Leg>, l: Layout, leg: Leg)
    requires Learnt(log, l) && leg.edge.from in l.markers && leg.edge.to in l.markers
    ensures Learnt(log + [leg], RecordTraversal(l, leg.edge.from, leg.edge.to, Some(leg.train), leg.at).layout)
  {
    hide LearntShared, LearntOwn, LearnShared, LearnForTrain, ConfirmEdge, AddInferredEdge, FindEdge;
    var key := leg.edge;
    var l1 := AddInferredEdge(l, key.from, key.to);
    var l2 := l1.(counts := l1.counts[key := Count(l.counts, key) + 1]);
    InferTimes(l, key.from, key.to);
    InferCounts(l, key.from, key.to);
    ConfirmTimes(l2, key.from, key.to);
    ConfirmCounts(l2, key.from, key.to);
    BothLearn(log, l, l2, leg);
    BothLearn(log, l, ConfirmEdge(l2, key.from, key.to), leg);
  }

  lemma BothLearn(log: seq<Leg>, l: Layout, l2: Layout, leg: Leg)
    requires Learnt(log, l) && SameTimes(l, l2) && l2.counts == l.counts[leg.edge := Count(l.counts, leg.edge) + 1]
    ensures Learnt(log + [leg], LearnForTrain(LearnShared(l2, leg.edge, leg.at), leg.edge, leg.train, leg.at))
  {
    hide Average, Intervals, Blend, LegsBy, Look, Drives, Count, LearntOwn;
    var bare := l2.(counts := l.counts);
    SameLearnt(log, l, bare);
    SharedLearns(log, bare, leg);
    var l3 := LearnShared(l2, leg.edge, leg.at);
    OwnKept(log, l, l3);
    OwnLearns(log, l3, leg);
  }

  lemma OwnKept(log: seq<Leg>, l: Layout, l': Layout)
    requires LearntOwn(log, l) && l'.lastAtBy == l.lastAtBy && l'.learnedBy == l.learnedBy
    ensures LearntOwn(log, l')
  {
  }

  lemma InferCounts(l: Layout, from: Marker, to: Marker)
    ensures AddInferredEdge(l, from, to).counts == l.counts
  {
  }

  lemma ConfirmCounts(l: Layout, from: Marker, to: Marker)
    ensures ConfirmEdge(l, from, to).counts == l.counts
  {
  }

  // ---------- every input of every run ----------

  lemma LegIsRecord(w: World, i: Input)
    requires LegOf(w, i).Some?
    ensures var leg := LegOf(w, i).value;
            OpsOf(w, i) == [Record(leg.edge.from, leg.edge.to, Some(leg.train), leg.at)]
  {
    hide FindEdge;
    FindsJoin(w.layout, w.trains[i.device].last.value, w.tags[i.tag].target);
  }

  lemma FindsJoin(l: Layout, from: Marker, to: Marker)
    ensures FindEdge(l, from, to).Some? <==> Leads(l, from, to)
  {
  }

  /** Everything else that reaches the layout leaves what has been learned as it is. */
  ghost predicate Unrecorded(l: Layout, op: Op) {
    !op.Reload? && (op.Record? ==> op.begin !in l.markers || op.end !in l.markers)
  }

  lemma OtherwiseUnrecorded(w: World, i: Input)
    requires LegOf(w, i).None? && !i.Reset?
    ensures forall op <- OpsOf(w, i) :: Unrecorded(w.layout, op)
  {
    hide FindEdge, Register;
    if IsReport(w, i) && i.device in w.trains && w.trains[i.device].last.Some? {
      FindsJoin(w.layout, w.trains[i.device].last.value, w.tags[i.tag].target);
    }
  }

  lemma UnrecordedSame(l: Layout, op: Op)
    requires Unrecorded(l, op)
    ensures SameRecord(l, Apply(l, op))
  {
    hide Load, AddInferredEdge, Orphans;
    match op
    case Infer(from, to) =>
      InferTimes(l, from, to);
      InferCounts(l, from, to);
    case _ =>
  }

  lemma StepLearns(w: World, i: Input, log: seq<Leg>)
    requires Learnt(log, w.layout) && !i.Reset?
    ensures Learnt(log + (if LegOf(w, i).Some? then [LegOf(w, i).value] else []), Step(w, i).w.layout)
  {
    hide Step, OpsOf, Apply, Learnt, LegOf, Unrecorded;
    StepLayout(w, i);
    AtMostOne(w, i);
    if LegOf(w, i).Some? {
      LegIsRecord(w, i);
      OneOp(w.layout, OpsOf(w, i)[0]);
      RecordStep(log, w, i);
    } else {
      OtherwiseUnrecorded(w, i);
      assert log + [] == log;
      if OpsOf(w, i) == [] {
        OneOp(w.layout, Reload);
      } else {
        var op := OpsOf(w, i)[0];
        assert OpsOf(w, i) == [op];
        OneOp(w.layout, op);
        UnrecordedSame(w.layout, op);
        SameLearnt(log, w.layout, Apply(w.layout, op));
      }
    }
  }

  lemma RecordStep(log: seq<Leg>, w: World, i: Input)
    requires Learnt(log, w.layout) && LegOf(w, i).Some?
    ensures var leg := LegOf(w, i).value;
            Learnt(log + [leg], Apply(w.layout, Record(leg.edge.from, leg.edge.to, Some(leg.train), leg.at)))
  {
    hide Learnt, RecordTraversal, AtThroat, Leads;
    var leg := LegOf(w, i).value;
    RecordLearns(log, w.layout, leg);
  }

  // ---------- and from the start ----------

  ghost predicate Blank(l: Layout) {
    l.lastAt == None && l.learned == map[] && l.lastAtBy == map[] && l.learnedBy == map[] && l.counts == map[]
  }

  lemma BlankLearnt(l: Layout)
    requires Blank(l)
    ensures Learnt([], l)
  {
  }

  lemma {:induction false} MarkersBlank(l: Layout, ms: seq<(Marker, Kind)>)
    requires Blank(l)
    ensures Blank(PutMarkers(l, ms))
    decreases |ms|
  {
    if ms == [] {
    } else {
      MarkersBlank(PutMarker(l, ms[0].0, ms[0].1), ms[1..]);
    }
  }

  lemma {:induction false} EdgesBlank(l: Layout, es: seq<LayoutEdge>)
    requires Blank(l)
    ensures PutEdges(l, es).Some? ==> Blank(PutEdges(l, es).value)
    decreases |es|
  {
    if es == [] {
    } else if CanAdd(l, es[0]) {
      EdgesBlank(AddEdge(l, es[0]), es[1..]);
    }
  }

  lemma {:induction false} JunctionsBlank(l: Layout, js: seq<(Marker, Option<string>)>)
    requires Blank(l)
    ensures Blank(PutJunctions(l, js))
    decreases |js|
  {
    if js == [] {
    } else {
      var initial := js[0].1;
      var next := if initial.Some? && initial.value != "" then l.(switches := l.switches[js[0].0 := initial.value])
                  else l;
      JunctionsBlank(next, js[1..]);
    }
  }

  /** A layout as loaded has learned nothing. */
  lemma LoadedBlank(document: Document, threshold: int)
    ensures Blank(Empty(document, threshold))
    ensures Load(document, threshold).Some? ==> Blank(Load(document, threshold).value)
  {
    hide PutMarkers, PutEdges, PutJunctions;
    var l := PutMarkers(Empty(document, threshold), document.markers);
    MarkersBlank(Empty(document, threshold), document.markers);
    EdgesBlank(l, document.edges);
    if PutEdges(l, document.edges).Some? {
      JunctionsBlank(PutEdges(l, document.edges).value, document.junctions);
    }
  }

  lemma ResetBlank(w: World)
    ensures Blank(Step(w, Reset).w.layout)
  {
    hide Load;
    LoadedBlank(w.layout.document, w.layout.threshold);
  }

  /**
   * In every run: the shared and each train's own timestamp are those of its latest leg, the learned times are the
   * moving averages of the intervals between its legs, and an edge counts as often driven as the log says.
   */
  lemma {:induction false} RunLearns(l: Layout, stack: nat, inputs: seq<Input>)
    requires Blank(l)
    ensures Learnt(LogOf(Fresh(l, stack), inputs), Run(Fresh(l, stack), inputs).w.layout)
    decreases |inputs|
  {
    hide Step, Learnt, Blank, LegOf;
    var w := Fresh(l, stack);
    if inputs == [] {
      BlankLearnt(l);
    } else {
      var front, i := inputs[..|inputs| - 1], inputs[|inputs| - 1];
      RunLearns(l, stack, front);
      if i.Reset? {
        ResetBlank(Run(w, front).w);
        BlankLearnt(Step(Run(w, front).w, i).w.layout);
      } else {
        StepLearns(Run(w, front).w, i, LogOf(w, front));
        assert LogOf(w, front) + [] == LogOf(w, front);
      }
    }
  }

  /** So the time the horizon counts for an edge is the train's own average, or failing that the shared one. */
  lemma EstimateInEveryRun(l: Layout, stack: nat, inputs: seq<Input>, e: EdgeRef, train: Id)
    requires Blank(l)
    ensures LearnedMs(Run(Fresh(l, stack), inputs).w.layout, e, train)
            == Estimate(LogOf(Fresh(l, stack), inputs), e, train)
  {
    hide Run, LogOf, Average, Intervals, LegsBy, Blank;
    RunLearns(l, stack, inputs);
    var log, l' := LogOf(Fresh(l, stack), inputs), Run(Fresh(l, stack), inputs).w.layout;
    assert OwnMs(l', train, e) == Average(Intervals(LegsBy(log, train), e));
    assert Look(l'.learned, e) == Average(Intervals(log, e));
  }

  // ---------- how far a train is cleared ahead ----------

  /** The time the log gives n edges from index i on, an edge it says nothing of taking six seconds. */
  ghost function Takes(log: seq<Leg>, train: Id, edges: seq<EdgeRef>, i: nat, n: nat): real
    requires i + n <= |edges|
  {
    if n == 0 then 0.0
    else
      var ms := Estimate(log, edges[i + n - 1], train);
      Takes(log, train, edges, i, n - 1) + if ms.Some? then ms.value else 6000.0
  }

  /** k is the least number of edges ahead that take six seconds; one too many if all of them take less. */
  ghost predicate LeastTaking(log: seq<Leg>, train: Id, tr: Transit, k: nat) {
    && tr.progress <= |tr.edges| && k <= |tr.edges| - tr.progress + 1
    && (forall j :: 0 <= j < k && tr.progress + j <= |tr.edges|
          ==> Takes(log, train, tr.edges, tr.progress, j) < 6000.0)
    && (tr.progress + k <= |tr.edges| ==> Takes(log, train, tr.edges, tr.progress, k) >= 6000.0)
  }

  lemma {:induction false} TakesTime(l: Layout, stack: nat, inputs: seq<Input>, train: Id, edges: seq<EdgeRef>, i: nat,
                                     n: nat)
    requires Blank(l) && i + n <= |edges|
    ensures Takes(LogOf(Fresh(l, stack), inputs), train, edges, i, n)
            == Horizon.Time(Run(Fresh(l, stack), inputs).w.layout, train, edges, i, n)
    decreases n
  {
    hide Run, LogOf, Estimate, Blank, LearnedMs;
    if n == 0 {
    } else {
      TakesTime(l, stack, inputs, train, edges, i, n - 1);
      EstimateInEveryRun(l, stack, inputs, edges[i + n - 1], train);
    }
  }

  lemma BlankTimes(l: Layout, clock: real)
    requires Blank(l)
    ensures TimesOk(l, clock)
  {
  }

  lemma LeastIsCovering(l: Layout, stack: nat, inputs: seq<Input>, id: Id, k: nat)
    requires Blank(l)
    requires var v := Run(Fresh(l, stack), inputs).w;
             && id in v.trains && v.trains[id].transit.Some?
             && LeastTaking(LogOf(Fresh(l, stack), inputs), id, v.trains[id].transit.value, k)
    ensures var v := Run(Fresh(l, stack), inputs).w; Horizon.LeastCovering(v.layout, id, v.trains[id], k)
  {
    hide Run, LogOf, Blank, Takes, Horizon.Time;
    var v := Run(Fresh(l, stack), inputs).w;
    var tr := v.trains[id].transit.value;
    forall j: nat | tr.progress + j <= |tr.edges|
      ensures Takes(LogOf(Fresh(l, stack), inputs), id, tr.edges, tr.progress, j)
              == Horizon.Time(v.layout, id, tr.edges, tr.progress, j)
    {
      TakesTime(l, stack, inputs, id, tr.edges, tr.progress, j);
    }
  }

  /**
   * In every run whose clock does not run backwards, an extension nobody refuses reaches three edges ahead, or as many
   * as the log says six seconds take, up to six, or the end of the route.
   */
  lemma HorizonByLog(l: Layout, stack: nat, inputs: seq<Input>, start: real, id: Id, n: nat, k: nat)
    requires Blank(l) && RunsForward(start, inputs)
    requires var v := Run(Fresh(l, stack), inputs).w;
             && Horizon.Reach(v, id, n) && id in v.trains && v.trains[id].transit.Some?
             && var tr := v.trains[id].transit.value;
             && LeastTaking(LogOf(Fresh(l, stack), inputs), id, tr, k)
             && (tr.progress + n < |tr.edges|
                 ==> !Horizon.Refused(Extend(v, id).w, id, tr.edges[tr.progress + n]))
    ensures var v := Run(Fresh(l, stack), inputs).w;
            n == Horizon.Min(Horizon.Ahead(v.trains[id]), Horizon.Max(3, Horizon.Min(6, k)))
  {
    hide TimesOk, Run, Extend, Horizon.Refused, Horizon.Reach, Horizon.LeastCovering, LeastTaking, LogOf, Blank;
    BlankTimes(l, start);
    LeastIsCovering(l, stack, inputs, id, k);
    HorizonInEveryRun(Fresh(l, stack), inputs, start, id, n, k);
  }
}
