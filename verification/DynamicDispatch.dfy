/** Ordinary dispatch: one activation a step, executed by competing workers, revoked at any time, ended by one
    terminal receipt. */
module DynamicDispatch {
  import opened Wrappers
  import opened DependencyGraph
  import opened RuntimeWorkflow
  import opened Totals
  import opened WorkflowScheduling
  import opened WorkflowRuns
  import opened WorkflowBalance
  import opened WorkflowOutcomes
  import opened WorkflowPlan

  // ----- tables -----

  datatype Policy = Policy(revision: nat, revoked: bool, revocation: string)

  /** What an activation request names, with the principal that sends it; equal bindings are the same activation. */
  datatype Binding = Binding(source: string, decision: string, policyRevision: nat, principal: string)

  datatype DispatchStatus = ToolCompleted | ToolCancelled | ExecutorFailed | OutputInvalid

  datatype DispatchReceipt = DispatchReceipt(row: nat, status: DispatchStatus, executionOccurred: bool,
                                             reconciliation: bool)

  datatype Phase = Activated | Executing | CancellationRequested | Ended(status: DispatchStatus)

  /** A row of the activations table; its number stands for its generated ids. `started` says that execution was ever
      claimed. */
  datatype ActivationRow = ActivationRow(
    step: StepId, key: string, binding: Binding, phase: Phase, cancelRequested: bool, started: bool,
    receipt: Option<DispatchReceipt>)

  /** Where a worker stands between two of its transactions. */
  datatype Worker =
    | AboutToCall(row: nat)
    | Returned(row: nat, status: DispatchStatus)
    | AboutToFinish(row: nat, status: DispatchStatus, executionOccurred: bool, reconciliation: bool)

  /** One parent, under its job id, with its dispatches. `calls` is the history of executor calls, by activation row;
      `unsettled` is how many dispatches were open when a claim request last set the parent's counter of active steps
      to zero. */
  datatype World = World(
    job: string, parent: Workflow, policies: map<StepId, Policy>, activations: seq<ActivationRow>,
    workers: map<nat, Worker>, calls: seq<nat>, unsettled: int)

  datatype DispatchError =
    | PolicyNotFound
    | PolicyRevoked
    | PolicyExpired
    | DecisionMismatch
    | PolicyMismatch
    | ToolMismatch
    | WorkflowTerminal
    | NotReady
    | BudgetSpent
    | IdempotencyConflict
    | NotExecutable

  // ----- policies -----

  function RegisterPolicy(w: World, step: StepId): World {
    if step in w.policies then w else w.(policies := w.policies[step := Policy(0, false, "")])
  }

  predicate InFlight(a: ActivationRow, step: StepId) {
    a.step == step && (a.phase.Activated? || a.phase.Executing?)
  }

  function RequestCancellation(rows: seq<ActivationRow>, step: StepId): (r: seq<ActivationRow>)
    ensures |r| == |rows|
    ensures forall i | 0 <= i < |rows| ::
              r[i] == if InFlight(rows[i], step) then rows[i].(cancelRequested := true, phase := CancellationRequested)
                  else rows[i]
  {
    seq(|rows|, i requires 0 <= i < |rows| =>
      if InFlight(rows[i], step) then rows[i].(cancelRequested := true, phase := CancellationRequested) else rows[i])
  }

  /** `revoke_policy`: the policy moves to a revoked revision, and an activation in flight is asked to stop. */
  function Revoke(w: World, step: StepId, expectedRevision: nat, binding: string): Result<World, DispatchError> {
    if step !in w.policies then Err(PolicyNotFound)
    else
      var p := w.policies[step];
      if p.revoked then (if p.revocation == binding then Ok(w) else Err(PolicyMismatch))
      else if p.revision != expectedRevision then Err(PolicyMismatch)
      else Ok(w.(policies := w.policies[step := Policy(p.revision + 1, true, binding)], activations :=
                 RequestCancellation(w.activations, step)))
  }

  // ----- activation -----

  function FindActivation(rows: seq<ActivationRow>, step: StepId, key: string): (r: Option<nat>)
    ensures r.Some? ==> r.value < |rows| && rows[r.value].step == step && rows[r.value].key == key
    ensures r.None? ==> forall i | 0 <= i < |rows| :: rows[i].step != step || rows[i].key != key
  {
    if rows == [] then None
    else
      var last := |rows| - 1;
      if rows[last].step == step && rows[last].key == key then Some(last) else FindActivation(rows[..last], step, key)
  }

  predicate DispatchBudgetSpent(parent: Workflow, step: PlanStep)
    requires step.id in parent.steps
  {
    var k, b := parent.counters, parent.plan.budgets;
    k.dispatchAttempts >= b.dispatchAttempts || k.activeSteps >= b.concurrentSteps
        || parent.steps[step.id].attempts >= step.maxAttempts
  }

  function OpenDispatch(parent: Workflow, step: StepId): Workflow
    requires step in parent.steps
  {
    var k := parent.counters;
    parent.(state := Running, steps := parent.steps[step := StepRow(StepRunning, parent.steps[step].attempts + 1)],
            counters := k.(dispatchAttempts := k.dispatchAttempts + 1, activeDispatches := k.activeDispatches + 1,
                           activeSteps := k.activeSteps + 1))
  }

  /** What the clock and the stored documents say: the policy has not expired, the decision is stored and is the one
      requested, and its tool is registered as the policy froze it and takes its arguments. */
  datatype Governance = Governance(unexpired: bool, decided: bool, tooled: bool)

  /** `activate`. */
  function ActivateDispatch(w: World, step: StepId, key: string, b: Binding, g: Governance): Result<(World,
        nat), DispatchError> {
    match FindStep(w.parent.plan.steps, step)
    case None => Err(PolicyMismatch)
    case Some(planned) =>
      if !planned.kind.Dispatch? || planned.external.Some? then Err(PolicyMismatch)
      else if !IsActive(w.parent) then Err(WorkflowTerminal)
      else if step !in w.policies then Err(PolicyNotFound)
      else if w.policies[step].revoked then Err(PolicyRevoked)
      else if !g.unexpired then Err(PolicyExpired)
      else if !g.decided then Err(DecisionMismatch)
      else if b.policyRevision != w.policies[step].revision then Err(PolicyMismatch)
      else
        match FindActivation(w.activations, step, key)
        case Some(row) => if w.activations[row].binding == b then Ok((w, row)) else Err(IdempotencyConflict)
        case None =>
          if !g.tooled then Err(ToolMismatch)
          else if step !in w.parent.steps || !Ready(w.parent, planned) then Err(NotReady)
          else if DispatchBudgetSpent(w.parent, planned) then Err(BudgetSpent)
          else
            Ok((w.(activations := w.activations + [ActivationRow(step, key, b, Activated, false, false, None)],
                   parent := OpenDispatch(w.parent, step)), |w.activations|))
  }

  // ----- execution -----

  /** The first transaction of `execute_activation`: a worker claims the execution, or ends an activation asked to
      stop. */
  function Begin(w: World, worker: nat, row: nat): Result<World, DispatchError> {
    if row >= |w.activations| || worker in w.workers then Err(NotExecutable)
    else
      var a := w.activations[row];
      if a.receipt.Some? then Ok(w)
      else if a.phase.CancellationRequested? then
        Ok(w.(workers := w.workers[worker := AboutToFinish(row, ToolCancelled, false, false)]))
      else if !a.phase.Activated? then Err(NotExecutable)
      else
        Ok(w.(activations := w.activations[row := a.(phase := Executing, started := true)],
              workers := w.workers[worker := AboutToCall(row)]))
  }

  /** What the executor did, if the tool is still registered; `invalid` says that its output breaks the output
      schema. */
  datatype Execution = Unregistered | Raised | Answered(invalid: bool)

  /** The worker calls the executor, outside any transaction. */
  function Call(w: World, worker: nat, x: Execution): World {
    if worker !in w.workers || !w.workers[worker].AboutToCall? then w
    else
      var row := w.workers[worker].row;
      match x
      case Unregistered => w.(workers := w.workers[worker := AboutToFinish(row, ExecutorFailed, false, false)])
      case Raised => w.(workers := w.workers[worker := AboutToFinish(row, ExecutorFailed, true, false)], calls :=
                        w.calls + [row])
      case Answered(invalid) =>
        w.(workers := w.workers[worker := Returned(row, if invalid then OutputInvalid else ToolCompleted)], calls :=
           w.calls + [row])
  }

  /** The worker reads, after an answer, whether it was asked to stop. */
  function CheckCancellation(w: World, worker: nat, readOnly: bool): World {
    if worker !in w.workers || !w.workers[worker].Returned? || w.workers[worker].row >= |w.activations| then w
    else
      var r := w.workers[worker];
      w.(workers := w.workers[worker :=
        if w.activations[r.row].cancelRequested then AboutToFinish(r.row, ToolCancelled, true, !readOnly)
        else AboutToFinish(r.row, r.status, true, false)])
  }

  function CodeOf(status: DispatchStatus): string {
    if status.OutputInvalid? then "PAYLOAD_DIGEST_INVALID" else "WORKFLOW_NOT_ACTIVE"
  }

  /** What the end of a dispatch does to its parent, active or not. */
  function CloseDispatch(parent: Workflow, step: StepId, status: DispatchStatus): Workflow
    requires step in parent.steps
  {
    var k := parent.counters;
    var t := if status.ToolCompleted? then Succeeded
        else Unsuccessful(if status.ToolCancelled? then RuntimeWorkflow.Cancelled else Failed, CodeOf(status));
    var v := parent.(
      steps := parent.steps[step := parent.steps[step].(state := StepDone(t))],
      counters := k.(activeDispatches := k.activeDispatches - 1, activeSteps := k.activeSteps - 1),
      state := if status.ToolCompleted? then Running
          else Stopped(if status.ToolCancelled? then RuntimeWorkflow.Cancelled else Failed),
      error := if status.ToolCompleted? then None else Some(StepFailed(CodeOf(status))));
    if status.ToolCompleted? then v else Freeze(v, true)
  }

  /** The plan has an edge for what the step produces. */
  predicate HasEdge(plan: Plan, step: StepId, role: EdgeRole) {
    exists e :: e in plan.edges && e.producer == step && e.role == role
  }

  /** The version 2 receipt schema accepts the receipt. */
  predicate ParentReceiptFits(job: string, base: Receipt) {
    && ReceiptIdFits(job) && ReportsMatch(base.steps) && CountersFit(base.counters)
    && (base.error.Some? <==> !base.status.Completed?)
  }

  /** The parent's receipt, if the dispatch freezes it, passes its schema. */
  predicate Storable(job: string, parent: Workflow, v: Workflow) {
    parent.receipt.Some? || v.receipt.None? || ParentReceiptFits(job, v.receipt.value)
  }

  /** What `_finish_activation` needs to commit: a receipt that passes its schema, which lets no executor fail that was
      not run; planned edges for the receipt and for the output; and a parent that can be stored. */
  predicate Recordable(w: World, f: Worker, step: StepId)
    requires f.AboutToFinish? && step in w.parent.steps
  {
    && (f.status.ExecutorFailed? ==> f.executionOccurred)
    && HasEdge(w.parent.plan, step, ReceiptEdge)
       && (f.status.ToolCompleted? ==> HasEdge(w.parent.plan, step, OutputEdge))
    && Storable(w.job, w.parent, CloseDispatch(w.parent, step, f.status))
  }

  /** `_finish_activation`: the first worker to finish writes the terminal receipt; any later one finds it written. One
      that cannot commit is gone, and leaves everything as it was. */
  function FinishRow(w: World, worker: nat): World {
    if worker !in w.workers || !w.workers[worker].AboutToFinish? || w.workers[worker].row >= |w.activations| then w
    else
      var f := w.workers[worker];
      var a := w.activations[f.row];
      var rest := w.(workers := w.workers - {worker});
      if a.receipt.Some? || a.step !in w.parent.steps || !Recordable(w, f, a.step) then rest
      else
        rest.(activations := w.activations[f.row :=
                a.(phase := Ended(f.status),
                   receipt := Some(DispatchReceipt(f.row, f.status, f.executionOccurred, f.reconciliation)))],
              parent := CloseDispatch(w.parent, a.step, f.status))
  }

  /** A claim, cancel or reconcile request on the parent. */
  function MoveParent(w: World, action: Action): World
    requires ClaimsPlanned(w.parent)
  {
    w.(parent := Step(w.parent, action, true), unsettled :=
       if Resets(w.parent, action, true) then Total(w.activations, Open) else w.unsettled)
  }

  datatype Event =
    | PolicyRegistered(step: StepId)
    | PolicyRevokedBy(step: StepId, expectedRevision: nat, revocation: string)
    | ActivationRequested(step: StepId, key: string, binding: Binding, governance: Governance)
    | Began(worker: nat, row: nat)
    | CallMade(worker: nat, execution: Execution)
    | CancellationRead(worker: nat, readOnly: bool)
    | FinishTried(worker: nat)
    | Died(worker: nat)
    | ParentMoved(action: Action)

  /** In every reachable state the claims of the parent are planned. */
  ghost function Happen(w: World, e: Event): World {
    match e
    case PolicyRegistered(step) => RegisterPolicy(w, step)
    case PolicyRevokedBy(step, expectedRevision, revocation) =>
      var t := Revoke(w, step, expectedRevision, revocation);
      if t.Ok? then t.value else w
    case ActivationRequested(step, key, binding, governance) =>
      var t := ActivateDispatch(w, step, key, binding, governance);
      if t.Ok? then t.value.0 else w
    case Began(worker, row) =>
      var t := Begin(w, worker, row);
      if t.Ok? then t.value else w
    case CallMade(worker, execution) => Call(w, worker, execution)
    case CancellationRead(worker, readOnly) => CheckCancellation(w, worker, readOnly)
    case FinishTried(worker) => FinishRow(w, worker)
    case Died(worker) => w.(workers := w.workers - {worker})
    case ParentMoved(action) => if ClaimsPlanned(w.parent) then MoveParent(w, action) else w
  }

  // ----- what holds in every state -----

  function Open(a: ActivationRow): int {
    if a.receipt.None? then 1 else 0
  }

  /** A worker about to call stands on a started row not yet called, and whoever reports a call is right. */
  predicate WorkerOk(w: World, k: Worker) {
    && k.row < |w.activations|
    && (k.AboutToCall? ==> w.activations[k.row].started && k.row !in w.calls)
    && (k.Returned? ==> k.row in w.calls)
    && (k.AboutToFinish? && k.executionOccurred ==> k.row in w.calls)
    && (k.AboutToFinish? && !k.executionOccurred && !k.status.ExecutorFailed? ==>
        k.status.ToolCancelled? && w.activations[k.row].cancelRequested)
  }

  /** The step is a dispatch step no longer pending, the phase fits the flags, and one not asked to stop has its policy
      in force. The receipt is planned, is right about a call it reports, and reports none only if it was asked to
      stop. */
  ghost predicate RowOk(w: World, row: nat)
    requires row < |w.activations|
  {
    var a := w.activations[row];
    && a.step in w.parent.steps && IsDispatch(w.parent, a.step) && !w.parent.steps[a.step].state.StepPending?
    && (a.phase.Activated? ==> !a.started && !a.cancelRequested)
    && (a.phase.Activated? || a.phase.Executing? ==> a.step in w.policies && !w.policies[a.step].revoked)
    && (a.phase.CancellationRequested? ==> a.cancelRequested)
    && (a.phase.Ended? <==> a.receipt.Some?)
    && (a.receipt.Some? ==>
          var r := a.receipt.value;
          && r.row == row && a.phase == Ended(r.status)
          && HasEdge(w.parent.plan, a.step, ReceiptEdge)
          && (r.status.ToolCompleted? ==> HasEdge(w.parent.plan, a.step, OutputEdge))
          && (r.executionOccurred ==> row in w.calls)
          && (r.status.ToolCompleted? || r.status.OutputInvalid? || r.status.ExecutorFailed? ==> r.executionOccurred)
          && (!r.executionOccurred ==> r.status.ToolCancelled? && a.cancelRequested))
  }

  ghost predicate Rows(w: World) {
    && (forall i | 0 <= i < |w.activations| :: RowOk(w, i))
    && (forall i, j | 0 <= i < j < |w.activations| :: w.activations[i].step != w.activations[j].step)
  }

  ghost predicate Workers(w: World) {
    && (forall n | n in w.workers :: WorkerOk(w, w.workers[n]))
    && (forall m, n | m in w.workers && n in w.workers && m != n && w.workers[m].AboutToCall?
        && w.workers[n].AboutToCall? ::
          w.workers[m].row != w.workers[n].row)
    && NoDuplicates(w.calls) && (forall c | c in w.calls :: c < |w.activations| && w.activations[c].started)
  }

  /** The counter of active steps stands for the active claims and the open dispatches, less those a reset has
      forgotten; the other counters have only grown. Until there is a frozen receipt, nothing is forgotten, the parent
      is active, and its outcomes fit a receipt. */
  ghost predicate Ledger(parent: Workflow, unsettled: int) {
    && ClaimsPlanned(parent) && Spare(parent) == parent.counters.activeDispatches - unsettled
    && CountersGrow(Zero(), parent.counters) && unsettled >= 0
    && (parent.receipt.None? ==> unsettled == 0 && IsActive(parent) && OutcomesFit(parent.claims))
  }

  ghost predicate Inv(w: World) {
    && Rows(w) && Workers(w) && w.parent.counters.activeDispatches == Total(w.activations, Open)
    && Ledger(w.parent, w.unsettled)
  }

  // ----- every event keeps it -----

  lemma RevokeKeeps(w: World, step: StepId, expectedRevision: nat, revocation: string)
    requires Inv(w) && Revoke(w, step, expectedRevision, revocation).Ok?
    ensures Inv(Revoke(w, step, expectedRevision, revocation).value)
  {
    hide FindStep, Total, Ledger;
    var v := Revoke(w, step, expectedRevision, revocation).value;
    if v != w {
      assert forall i | 0 <= i < |w.activations| ::
               (v.activations[i].step == w.activations[i].step && v.activations[i].receipt == w.activations[i].receipt
                && v.activations[i].started == w.activations[i].started);
      TotalSame(v.activations, w.activations, Open);
      forall i | 0 <= i < |v.activations| ensures RowOk(v, i) {
        assert RowOk(w, i);
      }
    }
  }

  lemma ActivateKeeps(w: World, step: StepId, key: string, b: Binding, g: Governance)
    requires Inv(w) && ActivateDispatch(w, step, key, b, g).Ok?
    ensures Inv(ActivateDispatch(w, step, key, b, g).value.0)
  {
    hide FindStep, FindActivation, DependenciesSucceeded, DispatchBudgetSpent, Total, Ledger;
    var v := ActivateDispatch(w, step, key, b, g).value.0;
    if v != w {
      OpenKeepsLedger(w.parent, step, w.unsettled);
      var row := v.activations[|w.activations|];
      assert v.activations == w.activations + [row];
      TotalAppend(w.activations, row, Open);
      assert forall s ::
               PlannedStep(v.parent, s) == PlannedStep(w.parent, s)
                   && IsDispatch(v.parent, s) == IsDispatch(w.parent, s);
      assert IsDispatch(w.parent, step) && w.parent.steps[step].state.StepPending?;
      forall i | 0 <= i < |v.activations| ensures RowOk(v, i) {
        if i < |w.activations| {
          assert RowOk(w, i) && v.activations[i] == w.activations[i];
        }
      }
      forall i, j | 0 <= i < j < |v.activations| ensures v.activations[i].step != v.activations[j].step {
        assert RowOk(w, i);
      }
      assert Workers(v) by {
        assert forall i | 0 <= i < |w.activations| :: v.activations[i] == w.activations[i];
      }
    }
  }

  lemma OpenKeepsLedger(parent: Workflow, step: StepId, unsettled: int)
    requires Ledger(parent, unsettled) && step in parent.steps
    ensures Ledger(OpenDispatch(parent, step), unsettled)
  {
    hide FindStep;
    var v := OpenDispatch(parent, step);
    assert forall s :: IsDispatch(v, s) == IsDispatch(parent, s);
  }

  lemma CloseKeepsLedger(parent: Workflow, step: StepId, status: DispatchStatus, unsettled: int)
    requires Ledger(parent, unsettled) && step in parent.steps
    ensures Ledger(CloseDispatch(parent, step, status), unsettled)
  {
    hide FindStep, Outcomes;
    var v := CloseDispatch(parent, step, status);
    assert forall s :: IsDispatch(v, s) == IsDispatch(parent, s);
  }

  lemma BeginKeeps(w: World, worker: nat, row: nat)
    requires Inv(w) && Begin(w, worker, row).Ok?
    ensures Inv(Begin(w, worker, row).value)
  {
    hide FindStep, Total, Rows, Workers, Ledger;
    var v := Begin(w, worker, row).value;
    if v != w {
      BeginKeepsRows(w, worker, row);
      BeginKeepsWorkers(w, worker, row);
      if w.activations[row].phase.Activated? {
        TotalUpdate(w.activations, row, v.activations[row], Open);
        ActivatedIsOpen(w, row);
      }
    }
  }

  lemma ActivatedIsOpen(w: World, row: nat)
    requires Rows(w) && row < |w.activations| && w.activations[row].phase.Activated?
    ensures w.activations[row].receipt.None? && !w.activations[row].started
  {
    hide FindStep;
    assert RowOk(w, row);
  }

  lemma StoppedIsRequested(w: World, row: nat)
    requires Rows(w) && row < |w.activations| && w.activations[row].phase.CancellationRequested?
    ensures w.activations[row].cancelRequested
  {
    hide FindStep;
    assert RowOk(w, row);
  }

  lemma BeginKeepsRows(w: World, worker: nat, row: nat)
    requires Rows(w) && Workers(w) && Begin(w, worker, row).Ok?
    ensures Rows(Begin(w, worker, row).value)
  {
    hide FindStep, IsDispatch;
    var v := Begin(w, worker, row).value;
    if v != w {
      assert RowOk(w, row);
      forall i | 0 <= i < |v.activations| ensures RowOk(v, i) {
        assert RowOk(w, i);
        assert IsDispatch(v.parent, v.activations[i].step) == IsDispatch(w.parent, w.activations[i].step);
      }
    }
  }

  lemma BeginKeepsWorkers(w: World, worker: nat, row: nat)
    requires Rows(w) && Workers(w) && Begin(w, worker, row).Ok?
    ensures Workers(Begin(w, worker, row).value)
  {
    hide FindStep;
    var v := Begin(w, worker, row).value;
    if v != w {
      if w.activations[row].phase.Activated? {
        ActivatedIsOpen(w, row);
      } else {
        StoppedIsRequested(w, row);
      }
      assert forall i | 0 <= i < |w.activations| && i != row :: v.activations[i] == w.activations[i];
    }
  }

  lemma CallKeepsRows(w: World, worker: nat, x: Execution)
    requires Rows(w) && Workers(w)
    ensures Rows(Call(w, worker, x))
  {
    hide FindStep, IsDispatch;
    var v := Call(w, worker, x);
    if v != w {
      var row := w.workers[worker].row;
      forall i | 0 <= i < |v.activations| ensures RowOk(v, i) {
        assert RowOk(w, i);
      }
    }
  }

  lemma CallKeepsWorkers(w: World, worker: nat, x: Execution)
    requires Workers(w)
    ensures Workers(Call(w, worker, x))
  {
    var v := Call(w, worker, x);
    if v != w {
      var row := w.workers[worker].row;
      assert WorkerOk(w, w.workers[worker]);
      assert forall c :: c in v.calls ==> c in w.calls || c == row;
    }
  }

  lemma CallKeeps(w: World, worker: nat, x: Execution)
    requires Inv(w)
    ensures Inv(Call(w, worker, x))
  {
    hide Rows, Workers, Total, Ledger;
    CallKeepsRows(w, worker, x);
    CallKeepsWorkers(w, worker, x);
  }

  lemma CheckKeeps(w: World, worker: nat, readOnly: bool)
    requires Inv(w)
    ensures Inv(CheckCancellation(w, worker, readOnly))
  {
    hide FindStep, Total, Ledger;
    var v := CheckCancellation(w, worker, readOnly);
    if v != w {
      assert WorkerOk(w, w.workers[worker]);
      forall i | 0 <= i < |v.activations| ensures RowOk(v, i) {
        assert RowOk(w, i);
      }
    }
  }

  lemma LeaveKeeps(w: World, worker: nat)
    requires Inv(w)
    ensures Inv(w.(workers := w.workers - {worker}))
  {
    hide FindStep, Total, Ledger;
    var v := w.(workers := w.workers - {worker});
    forall i | 0 <= i < |v.activations| ensures RowOk(v, i) {
      assert RowOk(w, i);
    }
  }

  lemma FinishKeepsRows(w: World, worker: nat)
    requires Rows(w) && Workers(w)
    ensures Rows(FinishRow(w, worker))
  {
    hide FindStep, IsDispatch, CloseDispatch;
    var v := FinishRow(w, worker);
    if v.activations != w.activations {
      var f := w.workers[worker];
      assert WorkerOk(w, f) && RowOk(w, f.row);
      CloseShape(w.parent, w.activations[f.row].step, f.status);
    }
    forall i | 0 <= i < |v.activations| ensures RowOk(v, i) {
      assert RowOk(w, i);
    }
  }

  lemma FinishKeepsWorkers(w: World, worker: nat)
    requires Workers(w)
    ensures Workers(FinishRow(w, worker))
  {
    hide CloseDispatch;
    var v := FinishRow(w, worker);
    assert forall i | 0 <= i < |w.activations| ::
             (v.activations[i].started == w.activations[i].started
              && v.activations[i].cancelRequested == w.activations[i].cancelRequested);
  }

  /** The terminal receipt of a worker about to finish, on a row without one. */
  lemma FinishKeeps(w: World, worker: nat)
    requires Inv(w)
    ensures Inv(FinishRow(w, worker))
  {
    hide Rows, Workers, Total, CloseDispatch, FindStep, Ledger;
    FinishKeepsRows(w, worker);
    FinishKeepsWorkers(w, worker);
    var v := FinishRow(w, worker);
    if v.activations != w.activations {
      var f := w.workers[worker];
      CloseShape(w.parent, w.activations[f.row].step, f.status);
      CloseKeepsLedger(w.parent, w.activations[f.row].step, f.status, w.unsettled);
      TotalUpdate(w.activations, f.row, v.activations[f.row], Open);
    }
  }

  lemma CloseShape(parent: Workflow, step: StepId, status: DispatchStatus)
    requires step in parent.steps
    ensures var v := CloseDispatch(parent, step, status);
      && v.plan == parent.plan && v.steps.Keys == parent.steps.Keys
         && (forall s | s in parent.steps && s != step :: v.steps[s] == parent.steps[s])
      && v.steps[step].state.StepDone? && v.counters.activeDispatches == parent.counters.activeDispatches - 1
      && (forall s :: IsDispatch(v, s) == IsDispatch(parent, s))
  {
    hide Outcomes, FindStep;
  }

  lemma OpenIsNatural(rows: seq<ActivationRow>)
    ensures Total(rows, Open) >= 0
  {
    TotalBounds(rows, Open);
  }

  lemma MoveKeepsLedger(w: World, action: Action)
    requires Ledger(w.parent, w.unsettled) && w.parent.counters.activeDispatches == Total(w.activations, Open)
    ensures var v := MoveParent(w, action);
      && Ledger(v.parent, v.unsettled) && v.parent.counters.activeDispatches == w.parent.counters.activeDispatches
      && v.parent.plan == w.parent.plan && SameDispatchSteps(w.parent, v.parent)
  {
    hide Step, Resets, ClaimsPlanned, Total, OutcomesFit;
    StepBalances(w.parent, action, true);
    StepKeepsPlanned(w.parent, action, true);
    StepContinues(w.parent, Request(action, true));
    OpenIsNatural(w.activations);
    if w.parent.receipt.None? {
      StepKeepsFit(w.parent, action, true);
    }
  }

  lemma MoveKeeps(w: World, action: Action)
    requires Inv(w)
    ensures ClaimsPlanned(w.parent) && Inv(MoveParent(w, action))
  {
    hide FindStep, Total, Step, Resets, ClaimsPlanned, Workers;
    var v := MoveParent(w, action);
    MoveKeepsLedger(w, action);
    assert Workers(v) by { WorkersApart(w, v); }
    assert forall s :: IsDispatch(v.parent, s) == IsDispatch(w.parent, s);
    forall i | 0 <= i < |v.activations| ensures RowOk(v, i) {
      assert RowOk(w, i);
    }
  }

  lemma WorkersApart(w: World, v: World)
    requires Workers(w) && v.activations == w.activations && v.workers == w.workers && v.calls == w.calls
    ensures Workers(v)
  {
    forall n | n in v.workers ensures WorkerOk(v, v.workers[n]) {
      assert WorkerOk(w, w.workers[n]);
    }
  }

  lemma HappenKeeps(w: World, e: Event)
    requires Inv(w)
    ensures Inv(Happen(w, e))
  {
    hide Inv, Revoke, ActivateDispatch, Begin, Call, CheckCancellation, FinishRow, MoveParent;
    match e
    case PolicyRegistered(step) => ParentMovedKeepsPolicies(w, step);
    case PolicyRevokedBy(step, expectedRevision, revocation) =>
      if Revoke(w, step, expectedRevision, revocation).Ok? { RevokeKeeps(w, step, expectedRevision, revocation); }
    case ActivationRequested(step, key, binding, governance) =>
      if ActivateDispatch(w, step, key, binding, governance).Ok? { ActivateKeeps(w, step, key, binding, governance); }
    case Began(worker, row) => if Begin(w, worker, row).Ok? { BeginKeeps(w, worker, row); }
    case CallMade(worker, execution) => CallKeeps(w, worker, execution);
    case CancellationRead(worker, readOnly) => CheckKeeps(w, worker, readOnly);
    case FinishTried(worker) => FinishKeeps(w, worker);
    case Died(worker) => LeaveKeeps(w, worker);
    case ParentMoved(action) => MoveKeeps(w, action);
  }

  lemma ParentMovedKeepsPolicies(w: World, step: StepId)
    requires Inv(w)
    ensures Inv(RegisterPolicy(w, step))
  {
    hide FindStep, Total, Ledger;
    var v := RegisterPolicy(w, step);
    forall i | 0 <= i < |v.activations| ensures RowOk(v, i) {
      assert RowOk(w, i);
    }
  }

  // ----- over every run -----

  /** A receipt, once written, stays; a call, once made, stays made; an activation keeps its step, and the parent its
      plan. */
  ghost predicate Evolves(w: World, v: World) {
    && |w.activations| <= |v.activations| && w.calls <= v.calls && v.parent.plan == w.parent.plan && v.job == w.job
    && forall i | 0 <= i < |w.activations| ::
         v.activations[i].step == w.activations[i].step
             && (w.activations[i].receipt.Some? ==> v.activations[i].receipt == w.activations[i].receipt)
  }

  lemma HappenEvolves(w: World, e: Event)
    ensures Evolves(w, Happen(w, e))
  {
    hide FindStep, FindActivation, DispatchBudgetSpent, Ready, CloseDispatch, OpenDispatch, Step, Resets, ClaimsPlanned,
         Recordable, Freeze;
    if e.ParentMoved? && ClaimsPlanned(w.parent) {
      StepContinues(w.parent, Request(e.action, true));
    } else if e.FinishTried? && e.worker in w.workers && w.workers[e.worker].row < |w.activations|
              && w.activations[w.workers[e.worker].row].step in w.parent.steps && w.workers[e.worker].AboutToFinish? {
      CloseShape(w.parent, w.activations[w.workers[e.worker].row].step, w.workers[e.worker].status);
    } else if e.ActivationRequested? && e.step in w.parent.steps {
      OpenKeepsPlan(w.parent, e.step);
    }
  }

  lemma OpenKeepsPlan(parent: Workflow, step: StepId)
    requires step in parent.steps
    ensures OpenDispatch(parent, step).plan == parent.plan
  {
  }

  ghost function Run(w: World, events: seq<Event>): (v: World)
    requires Inv(w)
    ensures Inv(v) && Evolves(w, v)
    decreases |events|
  {
    hide Inv, Happen;
    if events == [] then w
    else
      HappenKeeps(w, events[0]);
      HappenEvolves(w, events[0]);
      Run(Happen(w, events[0]), events[1..])
  }

  /** The dispatch tables around a parent that has dispatched nothing. */
  function Start(job: string, parent: Workflow): World {
    World(job, parent, map[], [], map[], [], 0)
  }

  lemma StartHolds(job: string, plan: Plan)
    ensures Inv(Start(job, Create(plan)))
  {
    hide FindStep;
  }

  /** Every call is of an existing activation, and no two calls are of activations of the same step. */
  ghost predicate CalledOncePerStep(w: World) {
    && (forall c | c in w.calls :: c < |w.activations|)
    && (forall a, b | 0 <= a < b < |w.calls| && w.calls[a] < |w.activations| && w.calls[b] < |w.activations| ::
          w.activations[w.calls[a]].step != w.activations[w.calls[b]].step)
  }

  lemma InvCalledOnce(w: World)
    requires Inv(w)
    ensures CalledOncePerStep(w)
  {
    hide RowOk, Total, WorkerOk;
    forall a, b | 0 <= a < b < |w.calls| && w.calls[a] < |w.activations| && w.calls[b] < |w.activations|
      ensures w.activations[w.calls[a]].step != w.activations[w.calls[b]].step
    {
      var i, j := w.calls[a], w.calls[b];
      assert i != j;
      if i < j {
        assert w.activations[i].step != w.activations[j].step;
      } else {
        assert w.activations[j].step != w.activations[i].step;
      }
    }
  }

  /** However workers compete and whenever the policy is revoked: at most one activation of a step, at most one
      executor call for it, and as many active dispatches as activations without a terminal receipt. */
  lemma DispatchedAtMostOnce(w: World, events: seq<Event>)
    requires Inv(w)
    ensures var v := Run(w, events);
      && (forall i, j | 0 <= i < j < |v.activations| :: v.activations[i].step != v.activations[j].step)
      && CalledOncePerStep(v)
      && v.parent.counters.activeDispatches == Total(v.activations, Open)
  {
    hide Run, RowOk, Total, Workers, CalledOncePerStep;
    InvCalledOnce(Run(w, events));
  }

  /** A terminal receipt is written once, is right about a call it reports, and reports none only of an activation that
      was asked to stop. */
  lemma ReceiptsAreFinal(w: World, events: seq<Event>, row: nat)
    requires Inv(w) && row < |w.activations| && w.activations[row].receipt.Some?
    ensures var v := Run(w, events);
      && row < |v.activations| && v.activations[row].receipt == w.activations[row].receipt
      && var r := v.activations[row].receipt.value;
        && (r.executionOccurred ==> row in v.calls)
        && (!r.executionOccurred ==> r.status.ToolCancelled? && v.activations[row].cancelRequested)
  {
    hide Run, Total, Workers, IsDispatch;
    var v := Run(w, events);
    assert Evolves(w, v) && RowOk(v, row);
  }

  // ----- the parent's counter of active steps -----

  ghost function History(job: string, plan: Plan, events: seq<Event>): (w: World)
    ensures Inv(w) && w.parent.plan == plan
  {
    StartHolds(job, plan);
    Run(Start(job, Create(plan)), events)
  }

  /** Over every run the counter stands for the active claims and the open dispatches, less those a reset of the
      counter has forgotten; until the parent's first end, none is forgotten. */
  lemma ActiveStepsAre(job: string, plan: Plan, events: seq<Event>)
    ensures var w := History(job, plan, events);
      && w.parent.counters.activeSteps == ActiveCount(w.parent.claims) + Total(w.activations, Open) - w.unsettled
      && w.unsettled >= 0 && (w.parent.receipt.None? ==> w.unsettled == 0)
  {
    hide History, Rows, Workers, Total, ClaimsPlanned;
  }

  lemma DispatchEventApart(w: World, e: Event)
    requires !e.ParentMoved?
    ensures Happen(w, e).unsettled == w.unsettled && Happen(w, e).parent.claims == w.parent.claims
  {
    hide FindStep, FindActivation, DispatchBudgetSpent, Ready, Outcomes;
  }

  lemma {:induction false} DispatchEventsApart(w: World, events: seq<Event>)
    requires Inv(w) && forall e | e in events :: !e.ParentMoved?
    ensures Run(w, events).unsettled == w.unsettled && Run(w, events).parent.claims == w.parent.claims
    decreases |events|
  {
    hide Inv, Happen;
    if events != [] {
      HappenKeeps(w, events[0]);
      DispatchEventApart(w, events[0]);
      DispatchEventsApart(Happen(w, events[0]), events[1..]);
    }
  }

  /** After a cancel, or a budget failure, the counter is the number of dispatches open less the number that were open
      then: it is below zero exactly when more of them have finished than have been started since. */
  lemma FinishAfterCancelUndercounts(w: World, action: Action, events: seq<Event>)
    requires Inv(w) && Resets(w.parent, action, true) && forall e | e in events :: !e.ParentMoved?
    ensures Inv(Happen(w, ParentMoved(action)))
    ensures var v := Run(Happen(w, ParentMoved(action)), events);
      && v.parent.counters.activeSteps == Total(v.activations, Open) - Total(w.activations, Open)
      && (v.parent.counters.activeSteps < 0 <==> Total(v.activations, Open) < Total(w.activations, Open))
  {
    hide Rows, Workers, Total, ClaimsPlanned, Step, Resets, Run;
    HappenKeeps(w, ParentMoved(action));
    StepBalances(w.parent, action, true);
    var c := Happen(w, ParentMoved(action));
    assert c.unsettled == Total(w.activations, Open) && ActiveCount(c.parent.claims) == 0;
    DispatchEventsApart(c, events);
  }

  // ----- parents that are over -----

  /** A parent that is over runs again, under the receipt it had, exactly when a completed dispatch without a receipt
      finishes whose step has planned edges for receipt and output. */
  lemma CompletionLeavesParentRunning(w: World, e: Event)
    requires Inv(w) && !IsActive(w.parent)
    ensures IsActive(Happen(w, e).parent) <==>
            && e.FinishTried? && e.worker in w.workers
            && var k := w.workers[e.worker];
              && k.AboutToFinish? && k.status.ToolCompleted? && k.row < |w.activations|
              && var a := w.activations[k.row];
                && a.receipt.None? && HasEdge(w.parent.plan, a.step, ReceiptEdge)
                && HasEdge(w.parent.plan, a.step, OutputEdge)
    ensures w.parent.receipt.Some? && Happen(w, e).parent.receipt == w.parent.receipt
  {
    hide FindStep, FindActivation, DispatchBudgetSpent, Ready, Outcomes, Step, Total, Resets, HasEdge,
         ParentReceiptFits,
         OutcomesFit;
    if e.ParentMoved? {
      OverIgnores(w.parent, e.action, true);
    } else if e.FinishTried? && e.worker in w.workers && w.workers[e.worker].AboutToFinish? {
      assert WorkerOk(w, w.workers[e.worker]) && RowOk(w, w.workers[e.worker].row);
    }
  }

  /** No event of a dispatch completes its parent, whatever steps have succeeded by then. */
  lemma DispatchesNeverComplete(w: World, e: Event)
    requires Inv(w) && !e.ParentMoved? && Happen(w, e).parent.state.Completed?
    ensures w.parent.state.Completed?
  {
    hide FindStep, FindActivation, DispatchBudgetSpent, Ready, Outcomes, Rows, Workers, Ledger, Total;
  }

  // ----- which dispatches can end -----

  lemma OpenRowCounts(w: World, row: nat)
    requires row < |w.activations| && w.activations[row].receipt.None?
    ensures Total(w.activations, Open) >= 1
  {
    TotalBounds(w.activations, Open);
  }

  /** A parent's receipt, if a dispatch freezes it, fails its schema only by its id. */
  lemma StorableIff(w: World, row: nat, status: DispatchStatus)
    requires Inv(w) && row < |w.activations| && w.activations[row].receipt.None?
    ensures w.activations[row].step in w.parent.steps
    ensures Storable(w.job, w.parent, CloseDispatch(w.parent, w.activations[row].step, status)) <==>
            status.ToolCompleted? || w.parent.receipt.Some? || ReceiptIdFits(w.job)
  {
    hide FindStep, Total, Outcomes, ReportsMatch, OutcomesFit, ClaimsPlanned, Workers, ActiveCount;
    assert RowOk(w, row);
    OpenRowCounts(w, row);
    if w.parent.receipt.None? {
      FittingRows(w.parent.claims);
    }
  }

  /** The finish of a worker commits exactly when no executor failed unrun, edges are planned for what the dispatch
      produces, and the parent's name leaves room for its receipt's, if that is to be frozen; else nothing is
      written. */
  lemma FinishCommitsIff(w: World, worker: nat)
    requires Inv(w) && worker in w.workers && w.workers[worker].AboutToFinish?
    requires w.workers[worker].row < |w.activations| && w.activations[w.workers[worker].row].receipt.None?
    ensures var f, v := w.workers[worker], Happen(w, FinishTried(worker));
      var step := w.activations[f.row].step;
      var commits :=
        && (f.status.ExecutorFailed? ==> f.executionOccurred) && HasEdge(w.parent.plan, step, ReceiptEdge)
        && (if f.status.ToolCompleted? then HasEdge(w.parent.plan, step, OutputEdge)
            else w.parent.receipt.Some? || ReceiptIdFits(w.job));
      && |v.activations| == |w.activations| && (v.activations[f.row].receipt.Some? <==> commits)
      && (commits ==> v.activations[f.row].receipt ==
                      Some(DispatchReceipt(f.row, f.status, f.executionOccurred, f.reconciliation)))
      && (!commits ==> v == w.(workers := w.workers - {worker}))
  {
    hide FindStep, Storable, CloseDispatch, HasEdge, Inv;
    var f := w.workers[worker];
    StorableIff(w, f.row, f.status);
  }

  lemma {:induction false} Bound(numbers: set<nat>) returns (bound: nat)
    ensures forall n | n in numbers :: n < bound
  {
    if numbers == {} {
      bound := 0;
    } else {
      var n :| n in numbers;
      var rest := Bound(numbers - {n});
      bound := if rest > n then rest else n + 1;
      assert forall m | m in numbers :: m == n || m in numbers - {n};
    }
  }

  lemma RunOne(w: World, e: Event)
    requires Inv(w)
    ensures Inv(Happen(w, e)) && Run(w, [e]) == Happen(w, e)
  {
    hide Inv, Happen, Evolves;
    HappenKeeps(w, e);
    assert Run(Happen(w, e), []) == Happen(w, e);
  }

  lemma {:induction false} RunAppends(w: World, first: seq<Event>, more: seq<Event>)
    requires Inv(w)
    ensures Run(w, first + more) == Run(Run(w, first), more)
    decreases |first|
  {
    hide Inv, Happen, Evolves;
    if first == [] {
      assert first + more == more;
    } else {
      HappenKeeps(w, first[0]);
      assert (first + more)[1..] == first[1..] + more;
      RunAppends(Happen(w, first[0]), first[1..], more);
    }
  }

  lemma RunSnoc(w: World, events: seq<Event>, e: Event)
    requires Inv(w)
    ensures Run(w, events + [e]) == Happen(Run(w, events), e)
  {
    hide Inv, Happen, Evolves, Run;
    RunAppends(w, events, [e]);
    RunOne(Run(w, events), e);
  }

  /** A parent cancelled has a receipt; its dispatches go on. */
  lemma CancelFreezes(w: World, reason: string)
    requires Inv(w)
    ensures var v := Happen(w, ParentMoved(DoCancel(reason)));
      && v.parent.receipt.Some? && v.parent.plan == w.parent.plan
      && v == w.(parent := v.parent, unsettled := v.unsettled)
  {
    hide Rows, Workers, Total, ClaimsPlanned, Outcomes, OutcomesFit;
  }

  lemma StoppedEnds(w: World, n: nat, row: nat)
    requires Inv(w) && row < |w.activations| && w.activations[row].phase.CancellationRequested? && n !in w.workers
    requires w.parent.receipt.Some? && HasEdge(w.parent.plan, w.activations[row].step, ReceiptEdge)
    ensures var v := Run(w, [Began(n, row), FinishTried(n)]);
      row < |v.activations| && v.activations[row].receipt.Some?
  {
    hide Inv, Run, FinishRow, Rows, Evolves, HasEdge;
    RequestedIsOpen(w, row);
    RunOne(w, Began(n, row));
    var v := Happen(w, Began(n, row));
    assert v == w.(workers := w.workers[n := AboutToFinish(row, ToolCancelled, false, false)]);
    FinishCommitsIff(v, n);
    RunSnoc(w, [Began(n, row)], FinishTried(n));
    assert [Began(n, row)] + [FinishTried(n)] == [Began(n, row), FinishTried(n)];
  }

  lemma RequestedIsOpen(w: World, row: nat)
    requires Inv(w) && row < |w.activations| && !w.activations[row].phase.Ended?
    ensures w.activations[row].receipt.None?
  {
    hide FindStep, Workers, Total, Ledger, HasEdge;
    assert RowOk(w, row);
  }

  lemma ActivatedEnds(w: World, n: nat, row: nat)
    requires Inv(w) && row < |w.activations| && w.activations[row].phase.Activated? && n !in w.workers
    requires w.parent.receipt.Some? && HasEdge(w.parent.plan, w.activations[row].step, ReceiptEdge)
    ensures var v := Run(w, [Began(n, row), CallMade(n, Raised), FinishTried(n)]);
      row < |v.activations| && v.activations[row].receipt.Some?
  {
    hide Inv, Run, FinishRow, Rows, Evolves, HasEdge;
    RequestedIsOpen(w, row);
    RunOne(w, Began(n, row));
    var b := Happen(w, Began(n, row));
    BeganActivated(w, n, row);
    RunSnoc(w, [Began(n, row)], CallMade(n, Raised));
    var c := Happen(b, CallMade(n, Raised));
    assert c.workers[n] == AboutToFinish(row, ExecutorFailed, true, false) && c.activations == b.activations
           && c.parent == w.parent;
    HappenKeeps(b, CallMade(n, Raised));
    FinishCommitsIff(c, n);
    RunSnoc(w, [Began(n, row), CallMade(n, Raised)], FinishTried(n));
    assert [Began(n, row)] + [CallMade(n, Raised)] == [Began(n, row), CallMade(n, Raised)];
    assert [Began(n, row), CallMade(n, Raised)]
           + [FinishTried(n)] == [Began(n, row), CallMade(n, Raised), FinishTried(n)];
  }

  lemma ExecutingIsGoverned(w: World, row: nat)
    requires Inv(w) && row < |w.activations| && w.activations[row].phase.Executing?
    ensures w.activations[row].step in w.policies && !w.policies[w.activations[row].step].revoked
  {
    hide FindStep, Workers, Total, Ledger, HasEdge;
    assert RowOk(w, row);
  }

  /** With its parent over and its receipt planned, an open activation can always be ended. */
  lemma EndingRun(w: World, row: nat) returns (events: seq<Event>)
    requires Inv(w) && row < |w.activations| && w.activations[row].receipt.None?
    requires w.parent.receipt.Some? && HasEdge(w.parent.plan, w.activations[row].step, ReceiptEdge)
    ensures var v := Run(w, events); row < |v.activations| && v.activations[row].receipt.Some?
  {
    hide Inv, Run, Happen, HasEdge, Evolves;
    var n := Bound(w.workers.Keys);
    if w.activations[row].phase.Activated? {
      ActivatedEnds(w, n, row);
      events := [Began(n, row), CallMade(n, Raised), FinishTried(n)];
    } else if w.activations[row].phase.CancellationRequested? {
      StoppedEnds(w, n, row);
      events := [Began(n, row), FinishTried(n)];
    } else {
      OpenIsNotEnded(w, row);
      ExecutingIsGoverned(w, row);
      var step := w.activations[row].step;
      var revoke := PolicyRevokedBy(step, w.policies[step].revision, "");
      RevokedInFlight(w, step, row, "");
      RunOne(w, revoke);
      var v := Happen(w, revoke);
      StoppedEnds(v, n, row);
      RunAppends(w, [revoke], [Began(n, row), FinishTried(n)]);
      events := [revoke] + [Began(n, row), FinishTried(n)];
    }
  }

  lemma OpenIsNotEnded(w: World, row: nat)
    requires Inv(w) && row < |w.activations| && w.activations[row].receipt.None?
    ensures !w.activations[row].phase.Ended?
  {
    hide FindStep, Workers, Total, Ledger, HasEdge;
    assert RowOk(w, row);
  }

  /** An open activation stays open over every run exactly when its plan has no edge for its receipt. */
  lemma NeverEndsIff(w: World, row: nat)
    requires Inv(w) && row < |w.activations| && w.activations[row].receipt.None?
    ensures (forall events :: row < |Run(w, events).activations| && Run(w, events).activations[row].receipt.None?) <==>
            !HasEdge(w.parent.plan, w.activations[row].step, ReceiptEdge)
  {
    hide Inv, Happen, HasEdge, Run;
    if HasEdge(w.parent.plan, w.activations[row].step, ReceiptEdge) {
      CancelFreezes(w, "");
      RunOne(w, ParentMoved(DoCancel("")));
      var v := Happen(w, ParentMoved(DoCancel("")));
      var more := EndingRun(v, row);
      RunAppends(w, [ParentMoved(DoCancel(""))], more);
      assert Run(w, [ParentMoved(DoCancel(""))] + more).activations[row].receipt.Some?;
    } else {
      forall events ensures row < |Run(w, events).activations| && Run(w, events).activations[row].receipt.None? {
        ReceiptIsPlanned(Run(w, events), row);
      }
    }
  }

  lemma ReceiptIsPlanned(w: World, row: nat)
    requires Inv(w) && row < |w.activations|
    ensures w.activations[row].receipt.Some? ==> HasEdge(w.parent.plan, w.activations[row].step, ReceiptEdge)
  {
    hide FindStep, Workers, Total, Ledger, HasEdge;
    assert RowOk(w, row);
  }

  /** A validated plan of one step has no artifact edge, so a dispatch that is its only step never ends. */
  lemma LoneDispatchNeverEnds(job: string, plan: Plan, events: seq<Event>, row: nat)
    requires |plan.steps| == 1 && EdgesPlanned(plan) && row < |History(job, plan, events).activations|
    ensures History(job, plan, events).activations[row].receipt.None?
  {
    hide Inv, History, HasEdge, RoleFits;
    var w := History(job, plan, events);
    ReceiptIsPlanned(w, row);
    NoEdges(plan, w.activations[row].step);
  }

  lemma NoEdges(plan: Plan, step: StepId)
    requires |plan.steps| == 1 && EdgesPlanned(plan)
    ensures !HasEdge(plan, step, ReceiptEdge)
  {
    hide RoleFits;
    assert StepIds(plan.steps) == {plan.steps[0].id};
  }

  // ----- a plan of two dispatches -----

  /** Two dispatch steps that wait for nothing, each with its edges to the other, and room for both, one at a time. */
  ghost predicate Mutual(plan: Plan, first: PlanStep, second: PlanStep) {
    && plan.steps == [first, second] && first.id != second.id && Simple(first) && Simple(second)
    && plan.budgets.dispatchAttempts >= 2 && plan.budgets.concurrentSteps >= 1
    && HasEdge(plan, first.id, ReceiptEdge) && HasEdge(plan, first.id, OutputEdge)
    && HasEdge(plan, second.id, ReceiptEdge) && HasEdge(plan, second.id, OutputEdge)
  }

  predicate Simple(step: PlanStep) {
    step.kind.Dispatch? && step.external.None? && step.dependsOn == [] && step.maxAttempts >= 1
  }

  function MutualStep(id: StepId, digest: string): PlanStep {
    PlanStep(id, Dispatch, [], 1, digest, None)
  }

  function MutualPlan(a: StepId, b: StepId, digest: string, ids: seq<string>): Plan
    requires |ids| == 4
  {
    Plan(2, [MutualStep(a, digest), MutualStep(b, digest)],
         Budgets(0, 0, 2, 1, 3600, 0, 1048576, 4, 0, 0),
         [PlannedEdge(ids[0], a, b, ReceiptEdge), PlannedEdge(ids[1], a, b, OutputEdge),
          PlannedEdge(ids[2], b, a, ReceiptEdge), PlannedEdge(ids[3], b, a, OutputEdge)])
  }

  /** `validate_plan` accepts such a plan. */
  lemma MutualIsValid(a: StepId, b: StepId, digest: string, ids: seq<string>)
    requires a != b && |ids| == 4 && NoDuplicates(ids)
    ensures var plan := MutualPlan(a, b, digest, ids);
      && Mutual(plan, plan.steps[0], plan.steps[1]) && Dependable(plan) && Affordable(plan) && EdgesPlanned(plan)
  {
    hide Dependable, Affordable, EdgesPlanned;
    var plan := MutualPlan(a, b, digest, ids);
    assert plan.edges[0] in plan.edges && plan.edges[1] in plan.edges && plan.edges[2] in plan.edges
           && plan.edges[3] in plan.edges;
    MutualIsDependable(plan, a, b);
    MutualIsAffordable(plan);
    MutualEdges(plan, a, b, ids);
  }

  lemma MutualIsDependable(plan: Plan, a: StepId, b: StepId)
    requires a != b && |plan.steps| == 2 && plan.steps[0].id == a && plan.steps[1].id == b
    requires plan.steps[0].dependsOn == plan.steps[1].dependsOn == []
    ensures Dependable(plan)
  {
    var steps := plan.steps;
    var rank := map[a := 0, b := 0];
    assert forall u, v :: !IsEdge(StepIds(steps), DependencyMap(steps), u, v);
    RankedIsAcyclic(StepIds(steps), DependencyMap(steps), rank);
  }

  lemma PairTotal<T>(rows: seq<T>, f: T -> int)
    requires |rows| == 2
    ensures Total(rows, f) == f(rows[0]) + f(rows[1])
  {
    TotalAppend([], rows[0], f);
    TotalAppend([rows[0]], rows[1], f);
    assert [] + [rows[0]] == [rows[0]] && [rows[0]] + [rows[1]] == rows;
  }

  lemma MutualIsAffordable(plan: Plan)
    requires |plan.steps| == 2 && |plan.edges| <= plan.budgets.artifactEdges
    requires forall s | s in plan.steps :: s.kind.Dispatch? && s.maxAttempts == 1
    requires plan.budgets.dispatchAttempts >= 2
    ensures Affordable(plan)
  {
    hide Total;
    assert plan.steps[0] in plan.steps && plan.steps[1] in plan.steps;
    PairTotal(plan.steps, ProviderAllowance);
    PairTotal(plan.steps, CheckAllowance);
    PairTotal(plan.steps, DispatchAllowance);
  }

  lemma MutualEdges(plan: Plan, a: StepId, b: StepId, ids: seq<string>)
    requires a != b && |ids| == 4 && NoDuplicates(ids) && plan.version == 2
    requires |plan.steps| == 2 && plan.steps[0].id == a && plan.steps[1].id == b
    requires plan.steps[0].kind.Dispatch? && plan.steps[1].kind.Dispatch?
    requires |plan.edges| == 4 && forall i | 0 <= i < 4 ::
               && plan.edges[i].id == ids[i] && (plan.edges[i].role.ReceiptEdge? || plan.edges[i].role.OutputEdge?)
               && plan.edges[i].producer == (if i < 2 then a else b)
                  && plan.edges[i].consumer == (if i < 2 then b else a)
    ensures EdgesPlanned(plan)
  {
    EdgeIds(plan.edges, ids);
    DistinctCount(ids);
    BothKinds(plan.steps);
    assert plan.steps[0] in plan.steps && plan.steps[1] in plan.steps;
    forall e | e in plan.edges ensures EndsKnown(plan, e) && e.producer != e.consumer && RoleFits(plan, e) {
      var i :| 0 <= i < 4 && plan.edges[i] == e;
    }
  }

  lemma BothKinds(steps: seq<PlanStep>)
    requires |steps| == 2 && steps[0].id != steps[1].id
    ensures KindOf(steps, steps[0].id) == Some(steps[0].kind) && KindOf(steps, steps[1].id) == Some(steps[1].kind)
  {
    assert steps[..1] == [steps[0]];
  }

  lemma EdgeIds(edges: seq<PlannedEdge>, ids: seq<string>)
    requires |edges| == |ids| && forall i | 0 <= i < |ids| :: edges[i].id == ids[i]
    ensures (set e | e in edges :: e.id) == Elements(ids)
  {
    forall id | id in ids ensures exists e :: e in edges && e.id == id {
      var i :| 0 <= i < |ids| && ids[i] == id;
      assert edges[i] in edges;
    }
  }

  const GOVERNED := Governance(true, true, true)

  /** A dispatch registered, activated, claimed and executed, up to its finish. */
  function DispatchEvents(step: StepId, row: nat, key: string, b: Binding): seq<Event> {
    [PolicyRegistered(step), ActivationRequested(step, key, b, GOVERNED), Began(0, row), CallMade(0, Answered(false)),
     CancellationRead(0, true)]
  }

  /** The step can be activated, and never was. */
  ghost predicate Startable(w: World, step: PlanStep) {
    && IsActive(w.parent) && FindStep(w.parent.plan.steps, step.id) == Some(step) && Simple(step)
    && Ready(w.parent, step) && !DispatchBudgetSpent(w.parent, step)
    && step.id !in w.policies && w.workers == map[] && forall i | 0 <= i < |w.activations| ::
                                                         w.activations[i].step != step.id
  }

  /** The dispatch of the step is open, and worker 0 about to record its completion. */
  ghost predicate Executed(w: World, v: World, step: StepId)
    requires step in w.parent.steps
  {
    && v.job == w.job && v.parent == OpenDispatch(w.parent, step)
       && v.policies == w.policies[step := Policy(0, false, "")]
    && |v.activations| == |w.activations| + 1 && v.activations[..|w.activations|] == w.activations
    && v.activations[|w.activations|].step == step && v.activations[|w.activations|].receipt.None?
    && v.workers == map[0 := AboutToFinish(|w.activations|, ToolCompleted, true, false)]
    && v.unsettled == w.unsettled
  }

  lemma ActivatesStartable(w: World, step: PlanStep, key: string, b: Binding)
    requires Startable(w, step) && b.policyRevision == 0
    ensures var v := Happen(Happen(w, PolicyRegistered(step.id)), ActivationRequested(step.id, key, b, GOVERNED));
      v == w.(policies := w.policies[step.id := Policy(0, false, "")], parent := OpenDispatch(w.parent, step.id),
              activations := w.activations + [ActivationRow(step.id, key, b, Activated, false, false, None)])
  {
    hide FindStep, DispatchBudgetSpent, DependenciesSucceeded, OpenDispatch;
  }

  lemma ExecutesActivated(w: World, row: nat)
    requires row < |w.activations| && w.activations[row].phase.Activated? && w.activations[row].receipt.None?
    requires !w.activations[row].cancelRequested && w.workers == map[]
    ensures var v := Happen(Happen(Happen(w, Began(0, row)), CallMade(0, Answered(false))), CancellationRead(0, true));
      && v == w.(activations := w.activations[row := w.activations[row].(phase := Executing, started := true)],
                 calls := w.calls + [row], workers := v.workers)
      && v.workers == map[0 := AboutToFinish(row, ToolCompleted, true, false)]
  {
    var begun := Happen(w, Began(0, row));
    assert begun.workers == map[0 := AboutToCall(row)];
    var called := Happen(begun, CallMade(0, Answered(false)));
    assert called.workers == map[0 := Returned(row, ToolCompleted)];
  }

  lemma DispatchServed(w: World, step: PlanStep, key: string, b: Binding)
    requires Inv(w) && Startable(w, step) && b.policyRevision == 0
    ensures Executed(w, Run(w, DispatchEvents(step.id, |w.activations|, key, b)), step.id)
  {
    hide Inv, Happen, Run, OpenDispatch, Startable, Evolves;
    var row := |w.activations|;
    var all := DispatchEvents(step.id, row, key, b);
    assert Run(w, []) == w by { RunOfNothing(w); }
    forall i | 0 <= i < |all| ensures Run(w, all[..i + 1]) == Happen(Run(w, all[..i]), all[i]) {
      assert all[..i + 1] == all[..i] + [all[i]];
      RunSnoc(w, all[..i], all[i]);
    }
    assert all[..0] == [] && all[..5] == all;
    ActivatesStartable(w, step, key, b);
    var opened2 := Run(w, all[..2]);
    assert opened2 == Happen(Happen(w, all[0]), all[1]);
    StartableIsIdle(w, step);
    ExecutesActivated(opened2, row);
    assert Run(w, all[..5]) == Happen(Happen(Happen(opened2, all[2]), all[3]), all[4]);
  }

  lemma StartableIsIdle(w: World, step: PlanStep)
    requires Startable(w, step)
    ensures w.workers == map[] && step.id in w.parent.steps
  {
    hide FindStep, DispatchBudgetSpent;
  }

  lemma RunOfNothing(w: World)
    requires Inv(w)
    ensures Run(w, []) == w
  {
    hide Inv;
  }

  /** The worker records the completion: the step succeeds, and the parent runs on. */
  lemma CompletionRecorded(w: World, v: World, step: PlanStep)
    requires Inv(w) && Inv(v) && step.id in w.parent.steps && Executed(w, v, step.id)
    requires HasEdge(w.parent.plan, step.id, ReceiptEdge) && HasEdge(w.parent.plan, step.id, OutputEdge)
    ensures var x := Happen(v, FinishTried(0));
      && x.parent == CloseDispatch(OpenDispatch(w.parent, step.id), step.id, ToolCompleted)
      && x.workers == map[] && x.policies == v.policies && |x.activations| == |w.activations| + 1
      && forall i | 0 <= i < |x.activations| :: x.activations[i].step == v.activations[i].step
  {
    hide Inv, Freeze, HasEdge;
  }

  lemma MutualStarts(plan: Plan, first: PlanStep, second: PlanStep)
    requires Mutual(plan, first, second)
    ensures FindStep(plan.steps, first.id) == Some(first) && FindStep(plan.steps, second.id) == Some(second)
    ensures Create(plan).steps == map[first.id := StepRow(StepPending, 0), second.id := StepRow(StepPending, 0)]
  {
    hide HasEdge;
    assert plan.steps[1..] == [second];
    assert plan.steps[0] in plan.steps && plan.steps[1] in plan.steps;
  }

  lemma FirstStartable(job: string, plan: Plan, first: PlanStep, second: PlanStep)
    requires Mutual(plan, first, second)
    ensures Startable(Start(job, Create(plan)), first)
  {
    hide FindStep, HasEdge;
    MutualStarts(plan, first, second);
    assert (set d | d in first.dependsOn && d in Create(plan).steps) == {};
  }

  lemma SecondStartable(x: World, plan: Plan, first: PlanStep, second: PlanStep)
    requires Mutual(plan, first, second) && x.workers == map[] && x.policies == map[first.id := Policy(0, false, "")]
    requires first.id in Create(plan).steps
    requires x.parent == CloseDispatch(OpenDispatch(Create(plan), first.id), first.id, ToolCompleted)
    requires |x.activations| == 1 && x.activations[0].step == first.id
    ensures Startable(x, second) && x.parent.plan == plan && x.parent.receipt.None?
  {
    hide FindStep, HasEdge, Freeze;
    MutualStarts(plan, first, second);
    assert (set d | d in second.dependsOn && d in x.parent.steps) == {};
  }

  lemma BothSucceeded(p: Workflow, plan: Plan, first: PlanStep, second: PlanStep)
    requires Mutual(plan, first, second) && first.id in Create(plan).steps
    requires p == CloseDispatch(OpenDispatch(Create(plan), first.id), first.id, ToolCompleted) && second.id in p.steps
    ensures var q := CloseDispatch(OpenDispatch(p, second.id), second.id, ToolCompleted);
      AllSucceeded(q.steps) && q.state.Running? && q.receipt.None?
  {
    hide FindStep, HasEdge, Freeze;
    MutualStarts(plan, first, second);
  }

  /** A reachable end: both dispatches complete, all steps have succeeded, and the parent goes on running without a
      receipt. */
  lemma DispatchesLeaveRunning(job: string, plan: Plan, first: PlanStep, second: PlanStep, key: string, b: Binding)
    returns (events: seq<Event>)
    requires Mutual(plan, first, second) && b.policyRevision == 0
    ensures var w := History(job, plan, events);
      AllSucceeded(w.parent.steps) && w.parent.state.Running? && w.parent.receipt.None?
  {
    hide Inv, Run, Happen, Mutual, Startable, CloseDispatch, OpenDispatch, Create, AllSucceeded, HasEdge,
         DispatchEvents,
         Evolves;
    StartHolds(job, plan);
    var w := Start(job, Create(plan));
    MutualEdgesPlanned(plan, first, second);
    FirstStartable(job, plan, first, second);
    StartableIsIdle(w, first);
    var one := DispatchEvents(first.id, 0, key, b);
    DispatchServed(w, first, key, b);
    CompletionRecorded(w, Run(w, one), first);
    RunSnoc(w, one, FinishTried(0));
    var x := Run(w, one + [FinishTried(0)]);
    assert x.activations[0].step == first.id;
    SecondStartable(x, plan, first, second);
    StartableIsIdle(x, second);
    var two := DispatchEvents(second.id, 1, key, b);
    DispatchServed(x, second, key, b);
    CompletionRecorded(x, Run(x, two), second);
    RunSnoc(x, two, FinishTried(0));
    RunAppends(w, one + [FinishTried(0)], two + [FinishTried(0)]);
    BothSucceeded(x.parent, plan, first, second);
    events := one + [FinishTried(0)] + (two + [FinishTried(0)]);
  }

  lemma MutualEdgesPlanned(plan: Plan, first: PlanStep, second: PlanStep)
    requires Mutual(plan, first, second)
    ensures HasEdge(plan, first.id, ReceiptEdge) && HasEdge(plan, first.id, OutputEdge)
    ensures HasEdge(plan, second.id, ReceiptEdge) && HasEdge(plan, second.id, OutputEdge)
    ensures Create(plan).plan == plan
  {
  }

  lemma CancelledThenRecorded(w: World, v: World, step: PlanStep, reason: string)
    requires Inv(w) && Inv(v) && step.id in w.parent.steps && Executed(w, v, step.id)
    requires HasEdge(w.parent.plan, step.id, ReceiptEdge) && HasEdge(w.parent.plan, step.id, OutputEdge)
    requires w.parent.receipt.None?
    ensures var x := Happen(Happen(v, ParentMoved(DoCancel(reason))), FinishTried(0));
      && x.parent.state.Running? && x.parent.receipt.Some?
      && x.parent.receipt.value.status == Stopped(RuntimeWorkflow.Cancelled) && x.parent.counters.activeSteps == -1
  {
    hide Rows, Workers, HasEdge, Outcomes, OutcomesFit, Total, ClaimsPlanned;
  }

  /** Another: the parent was cancelled, runs again under its cancellation receipt, and counts minus one active step. */
  lemma CancelledDispatchRunsAgain(job: string, plan: Plan, first: PlanStep, second: PlanStep, key: string, b: Binding,
                                   reason: string)
    returns (events: seq<Event>)
    requires Mutual(plan, first, second) && b.policyRevision == 0
    ensures var w := History(job, plan, events);
      && w.parent.state.Running? && w.parent.receipt.Some?
      && w.parent.receipt.value.status == Stopped(RuntimeWorkflow.Cancelled)
      && w.parent.counters.activeSteps == -1
  {
    hide Inv, Run, Happen, Mutual, Startable, CloseDispatch, OpenDispatch, HasEdge, DispatchEvents, Evolves;
    StartHolds(job, plan);
    var w := Start(job, Create(plan));
    MutualEdgesPlanned(plan, first, second);
    FirstStartable(job, plan, first, second);
    StartableIsIdle(w, first);
    var one := DispatchEvents(first.id, 0, key, b);
    DispatchServed(w, first, key, b);
    CancelledThenRecorded(w, Run(w, one), first, reason);
    RunSnoc(w, one, ParentMoved(DoCancel(reason)));
    RunSnoc(w, one + [ParentMoved(DoCancel(reason))], FinishTried(0));
    events := one + [ParentMoved(DoCancel(reason))] + [FinishTried(0)];
  }

  // ----- denied calls -----

  /** A worker is about to call the executor for the activation. */
  ghost predicate Calling(w: World, row: nat) {
    exists n :: n in w.workers && w.workers[n] == AboutToCall(row)
  }

  lemma NeverCalls(w: World, e: Event, row: nat)
    requires row < |w.activations| && w.activations[row].receipt.Some? && row !in w.calls && !Calling(w, row)
    ensures var v := Happen(w, e);
      row < |v.activations| && v.activations[row].receipt.Some? && row !in v.calls && !Calling(v, row)
  {
    hide FindStep, FindActivation, DispatchBudgetSpent, CloseDispatch, OpenDispatch, Ready, Step, Resets, ClaimsPlanned;
  }

  lemma {:induction false} NeverCalled(w: World, events: seq<Event>, row: nat)
    requires Inv(w) && row < |w.activations| && w.activations[row].receipt.Some? && row !in w.calls && !Calling(w, row)
    ensures row !in Run(w, events).calls
    decreases |events|
  {
    hide Inv, Happen, Calling;
    if events != [] {
      HappenKeeps(w, events[0]);
      NeverCalls(w, events[0], row);
      NeverCalled(Happen(w, events[0]), events[1..], row);
    }
  }

  /** A receipt that denies the call is wrong, now or after some run, exactly when the call has been made or a worker
      is about to make it; an activation stopped before any worker began it is never called. */
  lemma DenialIsWrongIff(w: World, row: nat)
    requires Inv(w) && row < |w.activations| && w.activations[row].receipt.Some?
             && !w.activations[row].receipt.value.executionOccurred
    ensures (exists events :: row in Run(w, events).calls) <==> row in w.calls || Calling(w, row)
    ensures !w.activations[row].started ==> row !in w.calls && !Calling(w, row)
  {
    hide Rows, Happen, Ledger;
    if row in w.calls {
      assert row in Run(w, []).calls;
    } else if Calling(w, row) {
      var n :| n in w.workers && w.workers[n] == AboutToCall(row);
      MakesTheCall(w, n, row);
    } else {
      forall events ensures row !in Run(w, events).calls {
        NeverCalled(w, events, row);
      }
    }
  }

  lemma MakesTheCall(w: World, worker: nat, row: nat)
    requires Inv(w) && worker in w.workers && w.workers[worker] == AboutToCall(row)
    ensures row in Run(w, [CallMade(worker, Raised)]).calls
  {
    hide Inv, Evolves;
    HappenKeeps(w, CallMade(worker, Raised));
    var v := Happen(w, CallMade(worker, Raised));
    assert v.calls == w.calls + [row];
    assert Run(w, [CallMade(worker, Raised)]) == v;
  }

  lemma BeganActivated(w: World, worker: nat, row: nat)
    requires row < |w.activations| && w.activations[row].phase.Activated? && w.activations[row].receipt.None?
             && worker !in w.workers
    ensures Happen(w, Began(worker, row)) ==
      w.(activations := w.activations[row := w.activations[row].(phase := Executing, started := true)],
         workers := w.workers[worker := AboutToCall(row)])
  {
    hide CloseDispatch, FindStep;
  }

  lemma RevokedInFlight(w: World, step: StepId, row: nat, revocation: string)
    requires row < |w.activations| && InFlight(w.activations[row], step) && step in w.policies
             && !w.policies[step].revoked
    ensures var v := Happen(w, PolicyRevokedBy(step, w.policies[step].revision, revocation));
      && |v.activations| == |w.activations| && v.workers == w.workers && v.calls == w.calls && v.parent == w.parent
      && v.activations[row] == w.activations[row].(cancelRequested := true, phase := CancellationRequested)
  {
    hide CloseDispatch, FindStep;
  }

  lemma BeganStopping(w: World, worker: nat, row: nat)
    requires row < |w.activations| && w.activations[row].phase.CancellationRequested?
             && w.activations[row].receipt.None?
    requires Inv(w) && worker !in w.workers && HasEdge(w.parent.plan, w.activations[row].step, ReceiptEdge)
    requires w.parent.receipt.Some? || ReceiptIdFits(w.job)
    ensures var v := Happen(Happen(w, Began(worker, row)), FinishTried(worker));
      && |v.activations| == |w.activations| && v.calls == w.calls
      && v.activations[row].receipt == Some(DispatchReceipt(row, ToolCancelled, false, false))
      && (forall n | n in w.workers && n != worker :: n in v.workers && v.workers[n] == w.workers[n])
  {
    hide CloseDispatch, FindStep, Inv, HasEdge, FinishRow;
    var v := Happen(w, Began(worker, row));
    assert v == w.(workers := w.workers[worker := AboutToFinish(row, ToolCancelled, false, false)]);
    HappenKeeps(w, Began(worker, row));
    FinishCommitsIff(v, worker);
    FinishLeavesRest(v, worker);
  }

  lemma FinishLeavesRest(w: World, worker: nat)
    ensures var v := Happen(w, FinishTried(worker));
      v.calls == w.calls && forall n | n in w.workers && n != worker :: n in v.workers && v.workers[n] == w.workers[n]
  {
    hide CloseDispatch, Recordable;
  }

  /** A second worker may end, as not executed, an activation that a first worker is executing. */
  lemma RevokedWhileExecuting(w: World, row: nat, first: nat, second: nat, revocation: string)
    requires Inv(w) && row < |w.activations| && w.activations[row].phase.Activated? && first != second
    requires first !in w.workers && second !in w.workers
    requires w.activations[row].step in w.policies && !w.policies[w.activations[row].step].revoked
    requires HasEdge(w.parent.plan, w.activations[row].step, ReceiptEdge)
    requires w.parent.receipt.Some? || ReceiptIdFits(w.job)
    ensures var step := w.activations[row].step;
      var begun := Happen(w, Began(first, row));
      var revoked := Happen(begun, PolicyRevokedBy(step, w.policies[step].revision, revocation));
      var ended := Happen(Happen(revoked, Began(second, row)), FinishTried(second));
      var called := Happen(ended, CallMade(first, Raised));
      && row < |called.activations| && row in called.calls
      && called.activations[row].receipt == Some(DispatchReceipt(row, ToolCancelled, false, false))
  {
    hide Inv, HasEdge, FinishRow;
    var step := w.activations[row].step;
    var begun := Happen(w, Began(first, row));
    RequestedIsOpen(w, row);
    BeganActivated(w, first, row);
    HappenKeeps(w, Began(first, row));
    var revocationEvent := PolicyRevokedBy(step, w.policies[step].revision, revocation);
    var revoked := Happen(begun, revocationEvent);
    RevokedInFlight(begun, step, row, revocation);
    HappenKeeps(begun, revocationEvent);
    var ended := Happen(Happen(revoked, Began(second, row)), FinishTried(second));
    assert begun.policies == w.policies && revoked.job == w.job;
    BeganStopping(revoked, second, row);
    assert ended.workers[first] == AboutToCall(row) && first in ended.workers;
    Raises(ended, first, row);
  }

  lemma Raises(w: World, worker: nat, row: nat)
    requires worker in w.workers && w.workers[worker] == AboutToCall(row)
    ensures var v := Happen(w, CallMade(worker, Raised)); v.calls == w.calls + [row] && v.activations == w.activations
  {
  }

  /** A reachable end: the receipt says that nothing was executed, and the call was made. */
  lemma DeniedCallIsMade(job: string, plan: Plan, first: PlanStep, second: PlanStep, key: string, b: Binding,
                         revocation: string)
    returns (events: seq<Event>)
    requires Mutual(plan, first, second) && b.policyRevision == 0 && ReceiptIdFits(job)
    ensures var w := History(job, plan, events);
      && 0 < |w.activations| && w.activations[0].receipt == Some(DispatchReceipt(0, ToolCancelled, false, false))
      && 0 in w.calls
  {
    hide Inv, Run, Happen, Mutual, Startable, OpenDispatch, HasEdge, Evolves, ReceiptIdFits;
    StartHolds(job, plan);
    var w := Start(job, Create(plan));
    MutualEdgesPlanned(plan, first, second);
    FirstStartable(job, plan, first, second);
    ActivatesStartable(w, first, key, b);
    StartableIsIdle(w, first);
    OpenKeepsPlan(w.parent, first.id);
    RunOfNothing(w);
    var all := [PolicyRegistered(first.id), ActivationRequested(first.id, key, b, GOVERNED), Began(0, 0),
                PolicyRevokedBy(first.id, 0, revocation), Began(1, 0), FinishTried(1), CallMade(0, Raised)];
    forall i | 0 <= i < |all| ensures Run(w, all[..i + 1]) == Happen(Run(w, all[..i]), all[i]) {
      assert all[..i + 1] == all[..i] + [all[i]];
      RunSnoc(w, all[..i], all[i]);
    }
    assert all[..0] == [] && all[..7] == all;
    var v := Run(w, all[..2]);
    assert v == Happen(Happen(w, all[0]), all[1]);
    RevokedWhileExecuting(v, 0, 0, 1, revocation);
    assert Run(w, all[..4]) == Happen(Happen(v, all[2]), all[3]);
    assert Run(w, all[..7]) == Happen(Happen(Happen(Run(w, all[..4]), all[4]), all[5]), all[6]);
    events := all;
  }

  // ----- the service as it works -----

  class DispatchStore {
    const job: string
    var parent: Workflow
    var policies: map<StepId, Policy>
    var activations: seq<ActivationRow>
    // Workers between transactions, the history of executor calls, and the dispatches open at the last reset.
    var workers: map<nat, Worker>
    var calls: seq<nat>
    var unsettled: int

    function View(): World
      reads this
    {
      World(job, parent, policies, activations, workers, calls, unsettled)
    }

    constructor (job: string, parent: Workflow)
      ensures View() == Start(job, parent)
    {
      this.job, this.parent := job, parent;
      policies, activations, workers, calls, unsettled := map[], [], map[], [], 0;
    }

    /** `revoke_policy`. */
    method RevokePolicy(step: StepId, expectedRevision: nat, binding: string) returns (failure: Option<DispatchError>)
      modifies this
      ensures match Revoke(old(View()), step, expectedRevision, binding)
        case Ok(v) => failure.None? && View() == v
        case Err(e) => failure == Some(e) && View() == old(View())
    {
      if step !in policies {
        return Some(PolicyNotFound);
      }
      var p := policies[step];
      if p.revoked {
        return if p.revocation == binding then None else Some(PolicyMismatch);
      }
      if p.revision != expectedRevision {
        return Some(PolicyMismatch);
      }
      var before := activations;
      for n := 0 to |activations|
        invariant |activations| == |before| && activations[n..] == before[n..]
        invariant activations[..n] == RequestCancellation(before, step)[..n]
        invariant policies == old(policies) && parent == old(parent) && workers == old(workers) && calls == old(calls)
                  && unsettled == old(unsettled)
      {
        assert activations[n] == activations[n..][0] == before[n];
        if InFlight(activations[n], step) {
          activations := activations[n := activations[n].(cancelRequested := true, phase := CancellationRequested)];
        }
      }
      policies := policies[step := Policy(p.revision + 1, true, binding)];
      failure := None;
    }

    /** `activate`. */
    method ActivateStep(step: StepId, key: string, b: Binding, g: Governance) returns (r: Result<nat, DispatchError>)
      modifies this
      ensures match ActivateDispatch(old(View()), step, key, b, g)
        case Ok(v) => r == Ok(v.1) && View() == v.0
        case Err(e) => r == Err(e) && View() == old(View())
    {
      hide FindStep, FindActivation, Ready, DispatchBudgetSpent;
      var planned := FindStep(parent.plan.steps, step);
      if planned.None? || !planned.value.kind.Dispatch? || planned.value.external.Some? {
        return Err(PolicyMismatch);
      }
      if !IsActive(parent) {
        return Err(WorkflowTerminal);
      }
      if step !in policies {
        return Err(PolicyNotFound);
      }
      if policies[step].revoked {
        return Err(PolicyRevoked);
      }
      if !g.unexpired {
        return Err(PolicyExpired);
      }
      if !g.decided {
        return Err(DecisionMismatch);
      }
      if b.policyRevision != policies[step].revision {
        return Err(PolicyMismatch);
      }
      var existing := FindActivation(activations, step, key);
      if existing.Some? {
        return if activations[existing.value].binding == b then Ok(existing.value) else Err(IdempotencyConflict);
      }
      if !g.tooled {
        return Err(ToolMismatch);
      }
      if step !in parent.steps || !Ready(parent, planned.value) {
        return Err(NotReady);
      }
      if DispatchBudgetSpent(parent, planned.value) {
        return Err(BudgetSpent);
      }
      r := Ok(|activations|);
      activations := activations + [ActivationRow(step, key, b, Activated, false, false, None)];
      var k := parent.counters;
      k := k.(dispatchAttempts := k.dispatchAttempts + 1);
      k := k.(activeDispatches := k.activeDispatches + 1);
      k := k.(activeSteps := k.activeSteps + 1);
      parent := parent.(steps := parent.steps[step := StepRow(StepRunning, parent.steps[step].attempts + 1)]);
      parent := parent.(state := Running, counters := k);
    }

    /** The claiming transaction of `execute_activation`. */
    method BeginExecution(worker: nat, row: nat) returns (failure: Option<DispatchError>)
      modifies this
      ensures match Begin(old(View()), worker, row)
        case Ok(v) => failure.None? && View() == v
        case Err(e) => failure == Some(e) && View() == old(View())
    {
      if row >= |activations| || worker in workers {
        return Some(NotExecutable);
      }
      var a := activations[row];
      if a.receipt.Some? {
        return None;
      }
      if a.phase.CancellationRequested? {
        workers := workers[worker := AboutToFinish(row, ToolCancelled, false, false)];
        return None;
      }
      if !a.phase.Activated? {
        return Some(NotExecutable);
      }
      activations := activations[row := a.(phase := Executing, started := true)];
      workers := workers[worker := AboutToCall(row)];
      failure := None;
    }

    /** The executor call of `execute_activation`. */
    method CallExecutor(worker: nat, x: Execution)
      modifies this
      ensures View() == Call(old(View()), worker, x)
    {
      if worker !in workers || !workers[worker].AboutToCall? {
        return;
      }
      var row := workers[worker].row;
      if x.Unregistered? {
        workers := workers[worker := AboutToFinish(row, ExecutorFailed, false, false)];
        return;
      }
      calls := calls + [row];
      if x.Raised? {
        workers := workers[worker := AboutToFinish(row, ExecutorFailed, true, false)];
      } else {
        workers := workers[worker := Returned(row, if x.invalid then OutputInvalid else ToolCompleted)];
      }
    }

    /** The read of the cancellation request after the executor has answered. */
    method ReadCancellation(worker: nat, readOnly: bool)
      modifies this
      ensures View() == CheckCancellation(old(View()), worker, readOnly)
    {
      if worker !in workers || !workers[worker].Returned? || workers[worker].row >= |activations| {
        return;
      }
      var row, status := workers[worker].row, workers[worker].status;
      if activations[row].cancelRequested {
        workers := workers[worker := AboutToFinish(row, ToolCancelled, true, !readOnly)];
      } else {
        workers := workers[worker := AboutToFinish(row, status, true, false)];
      }
    }

    /** The search for the planned edge of what a step produces. */
    method FindEdge(step: StepId, role: EdgeRole) returns (edge: Option<PlannedEdge>)
      ensures edge.Some? ==> edge.value in parent.plan.edges && edge.value.producer == step && edge.value.role == role
      ensures edge.Some? <==> HasEdge(parent.plan, step, role)
    {
      var edges := parent.plan.edges;
      for n := 0 to |edges|
        invariant forall e | e in edges[..n] :: e.producer != step || e.role != role
      {
        if edges[n].producer == step && edges[n].role == role {
          return Some(edges[n]);
        }
      }
      assert edges[..|edges|] == edges;
      edge := None;
    }

    /** `_finish_activation`: whatever it raises before its end takes all of it back. */
    method FinishActivation(worker: nat)
      modifies this
      ensures View() == FinishRow(old(View()), worker)
    {
      hide Freeze, HasEdge, ParentReceiptFits;
      if worker !in workers || !workers[worker].AboutToFinish? || workers[worker].row >= |activations| {
        return;
      }
      var f := workers[worker];
      var a := activations[f.row];
      workers := workers - {worker};
      if a.receipt.Some? || a.step !in parent.steps {
        return;
      }
      if f.status.ExecutorFailed? && !f.executionOccurred {
        return;
      }
      var completed, cancelled := f.status.ToolCompleted?, f.status.ToolCancelled?;
      var counters := parent.counters;
      counters := counters.(activeDispatches := counters.activeDispatches - 1);
      counters := counters.(activeSteps := counters.activeSteps - 1);
      var edge := FindEdge(a.step, ReceiptEdge);
      if edge.None? {
        return;
      }
      if completed {
        edge := FindEdge(a.step, OutputEdge);
        if edge.None? {
          return;
        }
      }
      var kind := if cancelled then RuntimeWorkflow.Cancelled else Failed;
      var code := if f.status.OutputInvalid? then "PAYLOAD_DIGEST_INVALID" else "WORKFLOW_NOT_ACTIVE";
      var t := if completed then Succeeded else Unsuccessful(kind, code);
      var next := parent.(steps := parent.steps[a.step := parent.steps[a.step].(state := StepDone(t))]);
      next := next.(counters := counters);
      if completed {
        next := next.(state := Running, error := None);
      } else {
        next := Freeze(next.(state := Stopped(kind), error := Some(StepFailed(code))), true);
        if parent.receipt.None? && next.receipt.Some? && !ParentReceiptFits(job, next.receipt.value) {
          return;
        }
      }
      var receipt := DispatchReceipt(f.row, f.status, f.executionOccurred, f.reconciliation);
      activations := activations[f.row := a.(phase := Ended(f.status), receipt := Some(receipt))];
      parent := next;
    }
  }
}
