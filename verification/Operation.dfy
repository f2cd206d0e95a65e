/** The scheduler object at work: what is proved of steps and runs holds of the object that handles them. */
module Operation {
  import opened World
  import opened Clearance
  import opened Handlers
  import opened Scheduling
  import Exclusivity
  import Deadlock
  import LayoutGraph
  import LayoutRuns
  import Published
  import Vetoes

  /** A grant no device vetoes, over edges whose switches are set, in the given state. */
  ghost predicate Fits(w: World, x: Effect) {
    x.Send? && x.command.GrantClearance? ==>
      !Denied(w.devices, x.command.limit) && forall e <- x.command.edges ::
                                               e.to == x.command.limit && !SwitchMismatch(w.layout, e)
  }

  /** What one input leaves: only grants that fit, and after a retry pass an exact account of deadlocks. */
  ghost predicate StepHolds(w: World, i: Input, o: Out) {
    && (!i.Reset? ==> forall x <- o.fx :: Fits(o.w, x))
    && (Deadlock.Rostered(w) && Deadlock.Retries(w, i) ==> Deadlock.Exact(o.w.deadlock, o.w.trains))
  }

  lemma StepsHold(w: World, i: Input)
    ensures StepHolds(w, i, Step(w, i))
  {
    hide Step, Denied, SwitchMismatch, Deadlock.Retries, Deadlock.Rostered, Deadlock.Exact, Deadlock.UpToDate;
    if !i.Reset? {
      forall x | x in Step(w, i).fx ensures Fits(Step(w, i).w, x) {
        if x.Send? && x.command.GrantClearance? {
          Vetoes.GrantsFit(w, i, x);
        }
      }
    }
    if Deadlock.Rostered(w) && Deadlock.Retries(w, i) {
      Deadlock.StepRosters(w, i);
      Deadlock.RetriesUpToDate(w, i);
      Deadlock.UpToDateIsExact(Step(w, i).w);
    }
  }

  /**
   * What a run leaves: exclusive clearance, one roster, a sound graph, true snapshots, and the devices' latest reports.
   */
  ghost predicate RunHolds(w: World, inputs: seq<Input>, v: World) {
    && (Exclusivity.Exclusive(w) ==> Exclusivity.Exclusive(v))
    && (Deadlock.Rostered(w) ==> Deadlock.Rostered(v))
    && (LayoutGraph.Sound(w.layout) ==> LayoutGraph.Sound(v.layout))
    && (forall seen :: Published.Mirrors(seen, {}, w)
          ==> Published.Mirrors(Published.Retained(seen, w, inputs), Published.Stale(w, inputs), v))
    && (w == Fresh(w.layout, w.stack) ==> Vetoes.AllFaithful(inputs, v.devices))
  }

  lemma RunsHold(w: World, inputs: seq<Input>)
    ensures RunHolds(w, inputs, Run(w, inputs).w)
  {
    hide Run, Exclusivity.Exclusive, Deadlock.Rostered, LayoutGraph.Sound, Published.Mirrors, Published.Retained,
         Published.Stale,
      Vetoes.AllFaithful;
    if Exclusivity.Exclusive(w) {
      Exclusivity.RunKeepsExclusive(w, inputs);
    }
    if Deadlock.Rostered(w) {
      Deadlock.RunRosters(w, inputs);
    }
    if LayoutGraph.Sound(w.layout) {
      LayoutRuns.RunKeepsLayout(w, inputs);
    }
    forall seen | Published.Mirrors(seen, {}, w)
      ensures Published.Mirrors(Published.Retained(seen, w, inputs), Published.Stale(w, inputs), Run(w, inputs).w)
    {
      Published.RunMirrors(w, inputs, seen);
    }
    if w == Fresh(w.layout, w.stack) {
      Vetoes.RunFaithful(w.layout, w.stack, inputs);
    }
  }

  /** One input, from a device or from an operator. */
  method Handle(s: Scheduler, i: Input) returns (fx: seq<Effect>)
    requires s.Loaded()
    modifies s, s.layout
    ensures Out(s.State(), fx) == Step(old(s.State()), i)
    ensures StepHolds(old(s.State()), i, Out(s.State(), fx))
  {
    hide Step, StepHolds, ResetAll;
    if i.Reset? {
      s.Clear();
      fx := [];
      OperatorSteps(old(s.State()), i);
    } else if IsOperatorCall(i) {
      fx := s.Operate(i);
    } else {
      fx := s.HandleEvent(i);
    }
    StepsHold(old(s.State()), i);
  }

  /** Inputs one after another. */
  method HandleAll(s: Scheduler, inputs: seq<Input>) returns (fx: seq<Effect>)
    requires s.Loaded()
    modifies s, s.layout
    ensures Out(s.State(), fx) == Run(old(s.State()), inputs)
    ensures RunHolds(old(s.State()), inputs, s.State())
  {
    hide Step, StepHolds, RunHolds;
    fx := [];
    for k := 0 to |inputs|
      invariant Out(s.State(), fx) == Run(old(s.State()), inputs[..k])
    {
      var more := Handle(s, inputs[k]);
      fx := fx + more;
      assert inputs[..k + 1][..k] == inputs[..k];
    }
    assert inputs[..|inputs|] == inputs;
    RunsHold(old(s.State()), inputs);
  }
}
