/** The counters of version 3 parents: none is negative, and active steps are active claims and running operations
    together. */
module ExternalCounters {
  import opened DependencyGraph
  import opened RuntimeWorkflow
  import opened WorkflowOutcomes
  import opened WorkflowScheduling
  import opened WorkflowRuns
  import opened WorkflowBalance
  import opened ExternalOperation
  import opened ExternalWorld

  /** The external steps whose operation is under way. */
  ghost function RunningExternals(w: Workflow): set<StepId> {
    set s | s in w.steps && IsDispatch(w, s) && w.steps[s].state.StepRunning?
  }

  /** Until the workflow is over, its active steps are its active claims and its running external steps. */
  ghost predicate Counted(w: Workflow) {
    && CountersFit(w.counters)
    && w.counters.activeDispatches == |RunningExternals(w)|
    && (w.counters.activeSteps == ActiveCount(w.claims) + w.counters.activeDispatches
        || (!IsActive(w) && w.counters.activeSteps == 0))
  }

  lemma CreateCounted(plan: Plan)
    ensures Counted(Create(plan))
  {
    assert RunningExternals(Create(plan)) == {};
  }

  lemma CountCallCounted(w: Workflow, query: bool)
    requires Counted(w)
    ensures Counted(CountCall(w, query))
  {
    hide FindStep, ActiveCount;
    assert RunningExternals(CountCall(w, query)) == RunningExternals(w);
  }

  lemma OpenCounted(w: Workflow, step: StepId)
    requires Counted(w) && IsActive(w) && step in w.steps && IsDispatch(w, step) && w.steps[step].state.StepPending?
    ensures Counted(OpenExternal(w, step))
  {
    hide FindStep, ActiveCount;
    assert RunningExternals(OpenExternal(w, step)) == RunningExternals(w) + {step};
  }

  /** A claim request keeps it, and freezes the counters it leaves. */
  lemma StepCounted(w: Workflow, a: Action, ready: bool)
    requires Counted(w) && ClaimsPlanned(w)
    ensures var v := Step(w, a, ready);
      Counted(v) && (w.receipt.None? && v.receipt.Some? ==> v.receipt.value.counters == v.counters)
  {
    hide Step, FindStep, ActiveCount, Resets, RowContinues;
    var v := Step(w, a, ready);
    StepBalances(w, a, ready);
    StepContinues(w, Request(a, ready));
    assert RunningExternals(v) == RunningExternals(w);
  }

  lemma CloseCounted(w: Workflow, step: StepId, succeeded: bool)
    requires Counted(w) && IsActive(w) && step in w.steps && IsDispatch(w, step)
    ensures var v := CloseExternal(w, step, succeeded);
      && Counted(v) && IsActive(v) && v.claims == w.claims && v.plan == w.plan && v.receipt == w.receipt
      && v.counters.activeSteps == ActiveCount(v.claims) + v.counters.activeDispatches
  {
    hide FindStep, ActiveCount;
    if w.steps[step].state.StepRunning? {
      assert step in RunningExternals(w);
      assert RunningExternals(CloseExternal(w, step, succeeded)) == RunningExternals(w) - {step};
    }
  }

  lemma AdvanceCounted(w: Workflow, op: Operation, ready: bool)
    requires Counted(w) && op.who.application.step in w.steps && IsDispatch(w, op.who.application.step)
             && (w.receipt.Some? ==> !IsActive(w))
    ensures var v := AdvanceParent(w, op, ready);
      Counted(v) && (w.receipt.None? && v.receipt.Some? ==> v.receipt.value.counters == v.counters)
  {
    hide FindStep, ActiveCount, AllSucceeded, Outcomes, CloseExternal;
    if IsActive(w) && Confirmed(op.outcome) && !op.reconciliation {
      var step, succeeded := op.who.application.step, op.outcome.ConfirmedSucceeded?;
      CloseCounted(w, step, succeeded);
      var c, v := CloseExternal(w, step, succeeded), AdvanceParent(w, op, ready);
      assert v.counters == c.counters && v.claims == c.claims && v.steps == c.steps && v.plan == c.plan;
      assert RunningExternals(v) == RunningExternals(c);
    }
  }
}
