/** When a dispatch is activated, executed, stopped and recorded, in whatever state of whatever run, and as what. */
module DispatchRequests {
  import opened Wrappers
  import opened DependencyGraph
  import opened RuntimeWorkflow
  import opened Totals
  import opened WorkflowScheduling
  import opened DynamicDispatch
  import WorkflowRequests

  // ----- activation -----

  /** The policy of the step is in force, at the revision the request names, and what it governs is in order. */
  predicate Governed(w: World, step: StepId, b: Binding, g: Governance) {
    && step in w.policies && !w.policies[step].revoked && w.policies[step].revision == b.policyRevision
    && g.unexpired && g.decided && g.tooled
  }

  /** The k-th planned step is an ordinary dispatch that waits, with all it depends on, and with room for it. */
  ghost predicate Dispatchable(p: Workflow, k: nat, step: StepId) {
    && (p.state.Pending? || p.state.Running?) && WorkflowRequests.PlannedAt(p.plan, k, step)
    && p.plan.steps[k].kind.Dispatch? && p.plan.steps[k].external.None?
    && step in p.steps && p.steps[step].state.StepPending? && NoDuplicates(p.plan.steps[k].dependsOn)
    && (forall d | d in p.plan.steps[k].dependsOn :: d in p.steps && p.steps[d].state == StepDone(Succeeded))
    && p.steps[step].attempts < p.plan.steps[k].maxAttempts
    && p.counters.dispatchAttempts < p.plan.budgets.dispatchAttempts
    && p.counters.activeSteps < p.plan.budgets.concurrentSteps
  }

  /** A new activation is open on the running parent, and counted three times over. */
  ghost predicate DispatchOpened(w: World, v: World, step: StepId, key: string, b: Binding)
    requires step in w.parent.steps
  {
    var p, k := w.parent, w.parent.counters;
    && v == w.(activations := w.activations + [ActivationRow(step, key, b, Activated, false, false, None)],
               parent := v.parent)
    && v.parent == p.(state := WorkflowState.Running, counters := v.parent.counters,
                      steps := p.steps[step := StepRow(StepRunning, p.steps[step].attempts + 1)])
    && v.parent.counters == k.(dispatchAttempts := k.dispatchAttempts + 1, activeDispatches := k.activeDispatches + 1,
                               activeSteps := k.activeSteps + 1)
  }

  lemma PendingIsUnused(w: World, step: StepId)
    requires Inv(w) && step in w.parent.steps && w.parent.steps[step].state.StepPending?
    ensures forall i | 0 <= i < |w.activations| :: w.activations[i].step != step
  {
    hide Workers, Ledger, Total, IsDispatch;
    forall i | 0 <= i < |w.activations| ensures w.activations[i].step != step {
      assert RowOk(w, i);
    }
  }

  lemma DispatchableIff(p: Workflow, k: nat, step: StepId)
    requires WorkflowRequests.PlannedAt(p.plan, k, step)
    ensures FindStep(p.plan.steps, step) == Some(p.plan.steps[k])
    ensures Dispatchable(p, k, step) <==>
            var s := p.plan.steps[k];
            && s.kind.Dispatch? && s.external.None? && IsActive(p) && step in p.steps && Ready(p, s)
            && !DispatchBudgetSpent(p, s)
  {
    hide FindStep, DependenciesSucceeded;
    WorkflowRequests.FirstIsFound(p.plan, p.plan.steps, k);
    ReadinessQuery(p.steps, p.plan.steps[k].dependsOn);
  }

  /** In every reachable state an activation opens a dispatch exactly when its policy is in force at the revision named,
      its step is an ordinary dispatch ready to start, and there is room; every other changes nothing. */
  lemma DispatchOpensIff(job: string, plan: Plan, events: seq<Event>, step: StepId, key: string, b: Binding,
                         g: Governance)
    ensures var w := History(job, plan, events);
      var v := Happen(w, ActivationRequested(step, key, b, g));
      && (forall k: nat | Dispatchable(w.parent, k, step) && Governed(w, step, b, g) ::
            step in w.parent.steps && DispatchOpened(w, v, step, key, b))
      && (!(Governed(w, step, b, g) && exists k: nat :: Dispatchable(w.parent, k, step)) ==> v == w)
  {
    hide History, Inv, FindActivation, Ready, DispatchBudgetSpent, Dispatchable, FindStep;
    var w := History(job, plan, events);
    var v := Happen(w, ActivationRequested(step, key, b, g));
    forall k: nat | Dispatchable(w.parent, k, step) && Governed(w, step, b, g)
      ensures step in w.parent.steps && DispatchOpened(w, v, step, key, b)
    {
      Planned(w.parent, k, step);
      DispatchableIff(w.parent, k, step);
      PendingIsUnused(w, step);
      OpensGoverned(w, k, step, key, b, g);
    }
    if !(Governed(w, step, b, g) && exists k: nat :: Dispatchable(w.parent, k, step)) {
      if k: nat :| WorkflowRequests.PlannedAt(w.parent.plan, k, step) {
        DispatchableIff(w.parent, k, step);
        RefusesOthers(w, k, step, key, b, g);
      } else {
        WorkflowRequests.PlannedIff(w.parent.plan, step);
      }
    }
  }

  lemma Planned(p: Workflow, k: nat, step: StepId)
    requires Dispatchable(p, k, step)
    ensures WorkflowRequests.PlannedAt(p.plan, k, step) && step in p.steps && p.steps[step].state.StepPending?
  {
  }

  lemma OpensGoverned(w: World, k: nat, step: StepId, key: string, b: Binding, g: Governance)
    requires WorkflowRequests.PlannedAt(w.parent.plan, k, step) && Governed(w, step, b, g)
    requires FindStep(w.parent.plan.steps, step) == Some(w.parent.plan.steps[k])
    requires var s := w.parent.plan.steps[k];
      && s.kind.Dispatch? && s.external.None? && IsActive(w.parent) && step in w.parent.steps && Ready(w.parent, s)
      && !DispatchBudgetSpent(w.parent, s)
    requires forall i | 0 <= i < |w.activations| :: w.activations[i].step != step
    ensures DispatchOpened(w, Happen(w, ActivationRequested(step, key, b, g)), step, key, b)
  {
    hide FindStep, FindActivation, Ready, DispatchBudgetSpent;
  }

  lemma RefusesOthers(w: World, k: nat, step: StepId, key: string, b: Binding, g: Governance)
    requires WorkflowRequests.PlannedAt(w.parent.plan, k, step)
    requires FindStep(w.parent.plan.steps, step) == Some(w.parent.plan.steps[k])
    requires var s := w.parent.plan.steps[k];
      !(Governed(w, step, b, g) && s.kind.Dispatch? && s.external.None? && IsActive(w.parent) && step in w.parent.steps
        && Ready(w.parent, s) && !DispatchBudgetSpent(w.parent, s))
    ensures Happen(w, ActivationRequested(step, key, b, g)) == w
  {
    hide FindStep, FindActivation, Ready, DispatchBudgetSpent;
  }

  /** Under a policy in force, the same activation under its key finds the row it has, and any other is a conflict. */
  lemma RepeatedActivationIff(w: World, row: nat, b: Binding, g: Governance)
    requires Inv(w) && row < |w.activations| && IsActive(w.parent) && Governed(w, w.activations[row].step, b, g)
    requires FindStep(w.parent.plan.steps, w.activations[row].step).Some?
             && FindStep(w.parent.plan.steps, w.activations[row].step).value.external.None?
    ensures var a := w.activations[row];
      ActivateDispatch(w, a.step, a.key, b, g) == if a.binding == b then Ok((w, row)) else Err(IdempotencyConflict)
  {
    hide FindStep, FindActivation, Ready, DispatchBudgetSpent, Ledger, Total, Workers;
    var a := w.activations[row];
    assert RowOk(w, row);
    assert forall i | 0 <= i < |w.activations| && w.activations[i].step == a.step :: i == row;
  }

  // ----- revocation -----

  /** A revocation commits once, at the revision it names; it asks every activation of the step in flight to stop, and
      touches nothing else. */
  lemma RevocationIff(w: World, step: StepId, revision: nat, revocation: string)
    ensures var v := Happen(w, PolicyRevokedBy(step, revision, revocation));
      if step in w.policies && !w.policies[step].revoked && w.policies[step].revision == revision then
        && v == w.(policies := w.policies[step := Policy(revision + 1, true, revocation)], activations := v.activations)
        && |v.activations| == |w.activations|
        && forall i | 0 <= i < |w.activations| ::
             var a := w.activations[i];
             v.activations[i] ==
             if a.step == step && (a.phase.Activated? || a.phase.Executing?)
             then a.(cancelRequested := true, phase := CancellationRequested) else a
      else v == w
  {
  }

  // ----- execution -----

  /** The event is not one of the worker's own. */
  predicate NotOf(e: Event, worker: nat) {
    match e
    case Began(n, _) => n != worker
    case CallMade(n, _) => n != worker
    case CancellationRead(n, _) => n != worker
    case FinishTried(n) => n != worker
    case Died(n) => n != worker
    case _ => true
  }

  lemma LeavesWorker(w: World, e: Event, worker: nat)
    requires worker in w.workers && NotOf(e, worker)
    ensures worker in Happen(w, e).workers && Happen(w, e).workers[worker] == w.workers[worker]
  {
    hide FindStep, FindActivation, DispatchBudgetSpent, CloseDispatch, OpenDispatch, Ready, Step, Recordable;
  }

  lemma {:induction false} RunLeavesWorker(w: World, events: seq<Event>, worker: nat)
    requires Inv(w) && worker in w.workers && forall e | e in events :: NotOf(e, worker)
    ensures worker in Run(w, events).workers && Run(w, events).workers[worker] == w.workers[worker]
    decreases |events|
  {
    hide Inv, Happen, NotOf, Evolves;
    if events != [] {
      HappenKeeps(w, events[0]);
      LeavesWorker(w, events[0], worker);
      RunLeavesWorker(Happen(w, events[0]), events[1..], worker);
    }
  }

  /** What a worker that called its executor reports, given what the executor did and whether a stop had been asked for
      when the worker looked. */
  function ReportOf(row: nat, x: Execution, stopped: bool, readOnly: bool): Worker {
    match x
    case Unregistered => AboutToFinish(row, ExecutorFailed, false, false)
    case Raised => AboutToFinish(row, ExecutorFailed, true, false)
    case Answered(invalid) =>
      if stopped then AboutToFinish(row, ToolCancelled, true, !readOnly)
      else AboutToFinish(row, if invalid then OutputInvalid else ToolCompleted, true, false)
  }

  lemma CallEvent(w: World, worker: nat, x: Execution, row: nat)
    requires worker in w.workers && w.workers[worker] == AboutToCall(row)
    ensures var v := Happen(w, CallMade(worker, x));
      && v == w.(workers := v.workers, calls := w.calls + if x.Unregistered? then [] else [row])
      && worker in v.workers
      && v.workers[worker] ==
         if x.Answered? then Returned(row, if x.invalid then OutputInvalid else ToolCompleted)
         else ReportOf(row, x, false, false)
  {
  }

  lemma ReadEvent(w: World, worker: nat, readOnly: bool, row: nat, invalid: bool)
    requires worker in w.workers && row < |w.activations|
    requires w.workers[worker] == Returned(row, if invalid then OutputInvalid else ToolCompleted)
    ensures var v := Happen(w, CancellationRead(worker, readOnly));
      && worker in v.workers
      && v.workers[worker] == ReportOf(row, Answered(invalid), w.activations[row].cancelRequested, readOnly)
  {
  }

  /** Whatever others do between the transactions of a worker that began an activation, it calls the executor once, or
      not at all if the tool is gone; and it reports what the executor did, or that it was stopped if a stop had been
      asked for by the time it looked. */
  lemma ExecutionReports(w: World, worker: nat, row: nat, before: seq<Event>, x: Execution, between: seq<Event>,
                         readOnly: bool, later: seq<Event>)
    requires Inv(w) && worker in w.workers && w.workers[worker] == AboutToCall(row)
    requires forall e | e in before + between + later :: NotOf(e, worker)
    ensures Inv(Run(w, before)) && Inv(Happen(Run(w, before), CallMade(worker, x)))
    ensures var called := Happen(Run(w, before), CallMade(worker, x));
      && called.calls == Run(w, before).calls + (if x.Unregistered? then [] else [row])
      && var answered := Run(called, between);
        && Inv(Happen(answered, CancellationRead(worker, readOnly)))
        && row < |answered.activations|
        && var v := Run(if x.Answered? then Happen(answered, CancellationRead(worker, readOnly)) else answered, later);
           worker in v.workers
           && v.workers[worker] == ReportOf(row, x, answered.activations[row].cancelRequested, readOnly)
  {
    hide Inv, Run, Happen, NotOf, Evolves, ReportOf;
    assert (forall e | e in before :: NotOf(e, worker)) && (forall e | e in between :: NotOf(e, worker))
           && (forall e | e in later :: NotOf(e, worker));
    RunLeavesWorker(w, before, worker);
    var ready := Run(w, before);
    HappenKeeps(ready, CallMade(worker, x));
    CallEvent(ready, worker, x, row);
    var called := Happen(ready, CallMade(worker, x));
    RunLeavesWorker(called, between, worker);
    var answered := Run(called, between);
    HappenKeeps(answered, CancellationRead(worker, readOnly));
    WorkerRow(answered, worker);
    RowOfReport(row, x);
    if x.Answered? {
      ReadEvent(answered, worker, readOnly, row, x.invalid);
      RunLeavesWorker(Happen(answered, CancellationRead(worker, readOnly)), later, worker);
    } else {
      ReportOfUnanswered(row, x);
      RunLeavesWorker(answered, later, worker);
    }
  }

  lemma RowOfReport(row: nat, x: Execution)
    ensures ReportOf(row, x, false, false).row == row
  {
  }

  lemma ReportOfUnanswered(row: nat, x: Execution)
    requires !x.Answered?
    ensures forall stopped, readOnly :: ReportOf(row, x, stopped, readOnly) == ReportOf(row, x, false, false)
  {
  }

  lemma WorkerRow(w: World, worker: nat)
    requires Inv(w) && worker in w.workers
    ensures w.workers[worker].row < |w.activations|
  {
    hide Rows, Ledger, Total;
    assert WorkerOk(w, w.workers[worker]);
  }

  /** A worker begins an activation exactly when no other has, and none will: from then on it is executing. One asked to
      stop it ends without a call; one that has its receipt it leaves. */
  lemma BeginsIff(job: string, plan: Plan, events: seq<Event>, worker: nat, row: nat)
    ensures var w := History(job, plan, events);
      var v := Happen(w, Began(worker, row));
      if row >= |w.activations| || worker in w.workers then v == w
      else
        var a := w.activations[row];
        && (a.phase.Activated? ==>
            !a.started && row !in w.calls
            && v == w.(activations := w.activations[row := a.(phase := Executing, started := true)],
                       workers := w.workers[worker := AboutToCall(row)]))
        && (a.phase.CancellationRequested? ==>
            v == w.(workers := w.workers[worker := AboutToFinish(row, ToolCancelled, false, false)]))
        && (a.phase.Executing? || a.phase.Ended? ==> v == w)
  {
    hide History;
    var w := History(job, plan, events);
    hide Ledger, Total, IsDispatch;
    if row < |w.activations| {
      assert RowOk(w, row);
      assert row in w.calls ==> w.activations[row].started;
    }
  }

  // ----- the terminal receipt and the parent -----

  /** The step's ending that goes with a status. */
  function EndingOf(status: DispatchStatus): Terminal {
    match status
    case ToolCompleted => Succeeded
    case ToolCancelled => Unsuccessful(RuntimeWorkflow.Cancelled, "WORKFLOW_NOT_ACTIVE")
    case ExecutorFailed => Unsuccessful(Failed, "WORKFLOW_NOT_ACTIVE")
    case OutputInvalid => Unsuccessful(Failed, "PAYLOAD_DIGEST_INVALID")
  }

  /** What the recorded end of a dispatch makes of its parent: the step ends with it, two counters go down, and the
      parent runs on after a success, and is over after anything else. */
  ghost predicate ParentAfter(p: Workflow, v: Workflow, step: StepId, status: DispatchStatus)
    requires step in p.steps
  {
    var t, k := EndingOf(status), p.counters;
    && v == p.(steps := p.steps[step := StepRow(StepDone(t), p.steps[step].attempts)], state := v.state,
               error := v.error, receipt := v.receipt,
               counters := k.(activeDispatches := k.activeDispatches - 1, activeSteps := k.activeSteps - 1))
    && (p.receipt.Some? ==> v.receipt == p.receipt)
    && match t
       case Succeeded => v.state.Running? && v.error.None? && v.receipt == p.receipt
       case Unsuccessful(kind, code) =>
         v.state == Stopped(kind) && v.error == Some(StepFailed(code)) && v.receipt.Some?
  }

  /** A finish that writes a receipt writes the worker's report, and ends the step with it. */
  lemma FinishWrites(w: World, worker: nat)
    requires Inv(w) && worker in w.workers && w.workers[worker].AboutToFinish?
    requires var f, v := w.workers[worker], Happen(w, FinishTried(worker));
      f.row < |w.activations| && w.activations[f.row].receipt.None? && f.row < |v.activations|
      && v.activations[f.row].receipt.Some?
    ensures var f, v := w.workers[worker], Happen(w, FinishTried(worker));
      var a := w.activations[f.row];
      && a.step in w.parent.steps && ParentAfter(w.parent, v.parent, a.step, f.status)
      && v == w.(workers := w.workers - {worker}, parent := v.parent, activations := w.activations[f.row :=
                 a.(phase := Ended(f.status), receipt :=
                    Some(DispatchReceipt(f.row, f.status, f.executionOccurred, f.reconciliation)))])
  {
    hide Recordable, Outcomes, Inv;
    assert w.activations[w.workers[worker].row].step in w.parent.steps;
  }
}
