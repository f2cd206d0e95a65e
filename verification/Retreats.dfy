/** Reverse safety over a whole call: who reverses, where to, and what the follow-on grants leave intact. */
module Retreats {
  import opened Rail
  import opened LayoutModel
  import opened World
  import opened Ranking
  import opened Standoff
  import opened Frames
  import opened Handlers
  import opened Plays
  import opened Deadlock
  import opened Yielding
  import opened Reversing
  import opened Exclusivity

  // ---------- who reverses ----------

  /** What a train would have to give way to, and its safe retreat from it. */
  ghost predicate CanRetreat(w: World, cycle: seq<Id>, id: Id, plan: Plan) {
    && id in w.trains && PeerWanted(w.trains, cycle, id).Some?
    && IsRetreat(w, id, PeerWanted(w.trains, cycle, id).value, plan)
  }

  lemma {:induction false} FirstRetreat(w: World, cycle: seq<Id>, candidates: seq<Id>)
    requires forall i <- candidates :: i in w.trains
    ensures match ReverseFirst(w, cycle, candidates)
            case None => forall o <- candidates, plan :: !CanRetreat(w, cycle, o, plan)
            case Some(found) =>
              CanRetreat(w, cycle, found.0, found.1)
              && exists k :: 0 <= k < |candidates| && candidates[k] == found.0
                   && forall i, plan :: 0 <= i < k ==> !CanRetreat(w, cycle, candidates[i], plan)
    decreases |candidates|
  {
    hide IsRetreat, ReverseTarget, PeerWanted;
    if candidates == [] {
    } else {
      var id := candidates[0];
      forall wanted, plan | PeerWanted(w.trains, cycle, id) == Some(wanted)
        ensures ReverseTarget(w, id, wanted) == Some(plan) <==> CanRetreat(w, cycle, id, plan)
      {
        ReverseTargetIff(w, id, wanted, plan);
      }
      FirstRetreat(w, cycle, candidates[1..]);
      if ReverseFirst(w, cycle, candidates).Some?
        && ReverseFirst(w, cycle, candidates) == ReverseFirst(w, cycle, candidates[1..]) {
        var found := ReverseFirst(w, cycle, candidates).value;
        if !CanRetreat(w, cycle, id, found.1) || found.0 != id {
          var k :| 0 <= k < |candidates| - 1 && candidates[1..][k] == found.0
            && forall i, plan :: 0 <= i < k ==> !CanRetreat(w, cycle, candidates[1..][i], plan);
          assert candidates[k + 1] == found.0;
        }
      }
    }
  }

  /** Candidates come lowest-ranked first. */
  lemma CandidatesRanked(ts: Trains, cycle: seq<Id>, i: nat, k: nat)
    requires Distinct(cycle) && i < k < |Candidates(ts, cycle)|
    ensures var c := Candidates(ts, cycle); c[i] in ts && c[k] in ts && Before(ts, c[k], c[i])
  {
    RosterDistinct(cycle, ts);
    SortRanked(ts, Roster(cycle, ts));
    hide Before, Roster, SortByRank;
  }

  lemma LowerComesEarlier(ts: Trains, cycle: seq<Id>, o: Id, k: nat)
    requires Distinct(cycle) && k < |Candidates(ts, cycle)| && o in cycle && o in ts
    requires Candidates(ts, cycle)[k] in ts && Before(ts, Candidates(ts, cycle)[k], o)
    ensures exists i :: 0 <= i < k && Candidates(ts, cycle)[i] == o
  {
    hide Before, Candidates;
    var c := Candidates(ts, cycle);
    var i :| 0 <= i < |c| && c[i] == o;
    RankTotal(ts, c[k], o);
    if i > k {
      CandidatesRanked(ts, cycle, k, i);
    }
  }

  /** The lowest-ranked member of the standoff that has a safe retreat takes it; if none has one, nobody moves. */
  lemma LowestRetreats(w: World, cycle: seq<Id>)
    requires Distinct(cycle)
    ensures match ReverseFirst(w, cycle, Candidates(w.trains, cycle))
            case None => forall o, plan :: o in cycle ==> !CanRetreat(w, cycle, o, plan)
            case Some(found) =>
              && found.0 in cycle && CanRetreat(w, cycle, found.0, found.1)
              && (forall o, plan :: o in cycle && o in w.trains && Before(w.trains, found.0, o)
                    ==> !CanRetreat(w, cycle, o, plan))
  {
    FirstRetreat(w, cycle, Candidates(w.trains, cycle));
    hide IsRetreat, PeerWanted, Before, ReverseFirst, Candidates;
    var c := Candidates(w.trains, cycle);
    match ReverseFirst(w, cycle, c)
    case None =>
      forall o, plan | o in cycle ensures !CanRetreat(w, cycle, o, plan) {
        assert o in w.trains ==> o in c;
      }
    case Some(found) =>
      var k :| 0 <= k < |c| && c[k] == found.0 && forall i, plan :: 0 <= i < k ==> !CanRetreat(w, cycle, c[i], plan);
      forall o, plan | o in cycle && o in w.trains && Before(w.trains, found.0, o)
        ensures !CanRetreat(w, cycle, o, plan) {
        LowerComesEarlier(w.trains, cycle, o, k);
      }
  }

  // ---------- the whole call ----------

  /** The reverse and everything the follow-on grants may have changed. */
  ghost predicate SafeReverse(w: World, cycle: seq<Id>, id: Id, plan: Plan, w': World) {
    && id in cycle && CanRetreat(w, cycle, id, plan)
    && id in w'.trains && NobodyElseLoses(w, w', id)
    && w'.trains[id]
       == w.trains[id].(held := Left(w.trains[id].held, plan.released), last := Some(plan.target),
                        limit := Some(plan.target))
  }

  lemma RegrantKeeps(w: World, id: Id, gave: Out)
    requires Exclusive(w) && Steps(By(w), w, gave) && By(gave.w) == By(w)
    ensures Exclusive(Regrant(id, gave).w)
  {
    hide Exclusive, Steps, Regrant, By;
    RegrantSteps(w, id, gave);
    StepsKeep(w, Regrant(id, gave));
  }

  lemma EnactStays(w: World, cycle: seq<Id>, id: Id, plan: Plan, gave: World, w': World)
    requires id in cycle && CanRetreat(w, cycle, id, plan) && gave == Enact(w, id, plan).w && GrewAll(gave, w', {id})
    ensures SafeReverse(w, cycle, id, plan, w')
  {
    hide IsRetreat, PeerWanted;
    assert w'.trains[id] == gave.trains[id];
    forall o | o in w.trains && o != id ensures Grew(w.trains[o], w'.trains[o]) {
      assert Grew(gave.trains[o], w'.trains[o]);
    }
  }

  /** A reverse is safe to the end of the whole call, and exclusivity holds after the follow-on grants. */
  lemma ReverseIsSafe(w: World, cycle: seq<Id>) returns (plan: Plan)
    requires Distinct(cycle) && ReverseStep(w, cycle).Some? && Exclusive(w)
    ensures var (id, gave) := ReverseStep(w, cycle).value;
            SafeReverse(w, cycle, id, plan, Regrant(id, gave).w) && Exclusive(Regrant(id, gave).w)
  {
    LowestRetreats(w, cycle);
    ReverseSteps(w, cycle);
    hide CanRetreat, ReverseFirst, Candidates, Exclusive, Steps, By, Retry, GrewAll, Enact, SafeReverse, Before;
    var found := ReverseFirst(w, cycle, Candidates(w.trains, cycle)).value;
    plan := found.1;
    var gave := Enact(w, found.0, plan);
    RegrantKeeps(w, found.0, gave);
    SkippingPassGrows(gave.w, {found.0});
    EnactStays(w, cycle, found.0, plan, gave.w, Regrant(found.0, gave).w);
  }

  /** Under exclusivity, only the span of a topology violation can keep a train from backing over its own block. */
  lemma OnlyGuardsBlock(w: World, id: Id, h: Held)
    requires Exclusive(w) && id in w.trains && h in w.trains[id].held && Taken(w.trains, id, h.edge.from)
    ensures exists o, x :: o in w.trains && o != id && x in w.trains[o].held && Touches(x.edge, h.edge)
                           && (if x.at < h.at then h.guard else x.guard)
  {
    var o, x :| o in w.trains && o != id && x in w.trains[o].held
      && (x.edge.from == h.edge.from || x.edge.to == h.edge.from);
    assert Compatible(x, h);
  }

  lemma {:induction false} NobodyLosesTrans(a: World, b: World, c: World, id: Id)
    requires GrewAll(a, b, {}) && NobodyElseLoses(b, c, id)
    ensures NobodyElseLoses(a, c, id)
  {
    hide Grew;
    forall o | o in a.trains && o != id ensures Grew(a.trains[o], c.trains[o]) {
      GrewTwice(a.trains[o], b.trains[o], c.trains[o]);
    }
  }

  /** A retry pass takes edges from at most one train, however it resolves the standoff it finds. */
  lemma PassTakesFromOne(w: World) returns (id: Id)
    requires Rostered(w) && Exclusive(w)
    ensures NobodyElseLoses(w, Retry(w, None).w, id)
  {
    hide GrewAll, NobodyElseLoses, Exclusive, RetryEach, Resolve, Steps;
    var pass := RetryEach(w, Ordered(w), {});
    RetryEachGrows(w, Ordered(w), {});
    RetryEachSteps(w, Ordered(w), {});
    PassRosters(w, pass.w);
    StepsKeep(w, pass);
    id := ResolveTakesFromOne(pass.w);
    NobodyLosesTrans(w, pass.w, Resolve(pass.w, None).w, id);
  }

  lemma PassRosters(w: World, w': World)
    requires Rostered(w) && GrewAll(w, w', {})
    ensures Rostered(w')
  {
  }

  lemma StepsKeep(w: World, o: Out)
    requires Exclusive(w) && Steps(By(w), w, o)
    ensures Exclusive(o.w)
  {
    hide Exclusive, Legal;
    var p :| IsPlay(By(w), p, w, o);
    PlayKeeps(By(w), p);
  }

  lemma ResolveTakesFromOne(w: World) returns (id: Id)
    requires Rostered(w) && Exclusive(w)
    ensures NobodyElseLoses(w, Resolve(w, None).w, id)
  {
    hide Exclusive, NobodyElseLoses, HonestYield, SafeReverse, Detect, YieldStep, ReverseStep, Regrant, GrewAll,
         IsStandoff;
    id := "";
    var cycle := Detect(w.order, w.trains);
    DetectExact(w.order, w.trains);
    EmitGrows(w, cycle, {});
    GrewIsNoLoss(w, EmitDeadlock(w, cycle).w, id);
    if cycle.Some? {
      StandoffIsDistinct(w.trains, cycle.value);
      if YieldStep(w, cycle.value).Some? {
        id := YieldStep(w, cycle.value).value.0;
        YieldIsHonest(w, cycle.value);
        HonestIsNoLoss(w, cycle.value, id, Regrant(id, YieldStep(w, cycle.value).value.1).w);
      } else if ReverseStep(w, cycle.value).Some? {
        id := ReverseStep(w, cycle.value).value.0;
        var plan := ReverseIsSafe(w, cycle.value);
        SafeIsNoLoss(w, cycle.value, id, plan, Regrant(id, ReverseStep(w, cycle.value).value.1).w);
      }
    }
  }

  lemma StandoffIsDistinct(ts: Trains, cycle: seq<Id>)
    requires IsStandoff(ts, cycle)
    ensures Distinct(cycle)
  {
  }

  lemma GrewIsNoLoss(w: World, w': World, id: Id)
    requires GrewAll(w, w', {})
    ensures NobodyElseLoses(w, w', id)
  {
  }

  lemma HonestIsNoLoss(w: World, cycle: seq<Id>, id: Id, w': World)
    requires HonestYield(w, cycle, id, w')
    ensures NobodyElseLoses(w, w', id)
  {
  }

  lemma SafeIsNoLoss(w: World, cycle: seq<Id>, id: Id, plan: Plan, w': World)
    requires SafeReverse(w, cycle, id, plan, w')
    ensures NobodyElseLoses(w, w', id)
  {
  }

  /** Nobody in the cycle has a safe retreat. */
  ghost predicate NoRetreat(w: World, cycle: seq<Id>) {
    forall o, plan :: o in cycle ==> !CanRetreat(w, cycle, o, plan)
  }

  /** What resolution may have done about a standoff. */
  ghost predicate HonestlyResolved(w: World, cycle: seq<Id>, w': World) {
    || (exists id :: HonestYield(w, cycle, id, w'))
    || (exists id, plan :: SafeReverse(w, cycle, id, plan, w'))
    || (NoRetreat(w, cycle) && YieldStep(w, cycle).None? && w'.trains == w.trains && w'.deadlock == Report(Some(cycle)))
  }

  /** A standoff ends in an honest yield, or a safe reverse, or is reported; and exclusivity survives. */
  ghost predicate ResolvesHonestly(w: World) {
    && Exclusive(Resolve(w, None).w)
    && match Detect(w.order, w.trains)
       case None => Resolve(w, None).w.trains == w.trains && forall c :: !Ring(w.trains, c)
       case Some(cycle) => IsStandoff(w.trains, cycle) && HonestlyResolved(w, cycle, Resolve(w, None).w)
  }

  /**
   * Resolution does not make things worse: a standoff ends in an honest yield, or a safe reverse, or is reported
   * with every train as it was, because nobody can give way; and exclusivity survives.
   */
  lemma ResolutionIsHonest(w: World)
    requires Rostered(w) && Exclusive(w)
    ensures ResolvesHonestly(w)
  {
    hide Exclusive, HonestYield, SafeReverse, Detect, YieldStep, ReverseStep, Regrant, IsStandoff, NoRetreat, Steps, By,
         Report, Ring;
    DetectExact(w.order, w.trains);
    ResolveSteps(w, None);
    StepsKeep(w, Resolve(w, None));
    var cycle := Detect(w.order, w.trains);
    EmittedTrains(w, cycle);
    if cycle.Some? {
      StandoffIsDistinct(w.trains, cycle.value);
      if YieldStep(w, cycle.value).Some? {
        YieldIsHonest(w, cycle.value);
      } else if ReverseStep(w, cycle.value).Some? {
        var plan := ReverseIsSafe(w, cycle.value);
      } else {
        NobodyRetreats(w, cycle.value);
      }
    }
  }

  lemma EmittedTrains(w: World, cycle: Option<seq<Id>>)
    ensures EmitDeadlock(w, cycle).w.trains == w.trains && EmitDeadlock(w, cycle).w.deadlock == Report(cycle)
  {
    hide SortText;
  }

  lemma NobodyRetreats(w: World, cycle: seq<Id>)
    requires Distinct(cycle) && ReverseStep(w, cycle).None?
    ensures NoRetreat(w, cycle)
  {
    hide CanRetreat, ReverseFirst, Candidates, Enact;
    LowestRetreats(w, cycle);
    FoundIsTrain(w, cycle);
  }

  lemma FoundIsTrain(w: World, cycle: seq<Id>)
    requires Distinct(cycle)
    ensures var found := ReverseFirst(w, cycle, Candidates(w.trains, cycle)); found.Some? ==> found.value.0 in w.trains
  {
    hide ReverseFirst, Candidates, IsRetreat;
    LowestRetreats(w, cycle);
  }

  lemma ServedIsSound(w: World)
    requires Rostered(w) && Exclusive(w)
    ensures Rostered(ServedAll(w)) && Exclusive(ServedAll(w)) && Retry(w, None).w == Resolve(ServedAll(w), None).w
  {
    hide GrewAll, Exclusive, Rostered, RetryEach, Resolve, Steps, By, Ordered;
    RetryEachGrows(w, Ordered(w), {});
    RetryEachSteps(w, Ordered(w), {});
    PassRosters(w, RetryEach(w, Ordered(w), {}).w);
    StepsKeep(w, RetryEach(w, Ordered(w), {}));
  }

  /**
   * In the state after any run, a retry pass resolves honestly what it finds, and takes edges from one train at most.
   */
  lemma InEveryRun(l: Layout, stack: nat, inputs: seq<Input>) returns (id: Id)
    ensures var w := Run(Fresh(l, stack), inputs).w;
            && Retry(w, None).w == Resolve(ServedAll(w), None).w && ResolvesHonestly(ServedAll(w))
            && NobodyElseLoses(w, Retry(w, None).w, id)
  {
    hide Run, Rostered, Exclusive, Retry, ServedAll, ResolvesHonestly, NobodyElseLoses;
    FreshIsSound(l, stack);
    RunRosters(Fresh(l, stack), inputs);
    RunKeepsExclusive(Fresh(l, stack), inputs);
    var w := Run(Fresh(l, stack), inputs).w;
    ServedIsSound(w);
    ResolutionIsHonest(ServedAll(w));
    id := PassTakesFromOne(w);
  }

  lemma FreshIsSound(l: Layout, stack: nat)
    ensures Rostered(Fresh(l, stack)) && Exclusive(Fresh(l, stack))
  {
  }
}
