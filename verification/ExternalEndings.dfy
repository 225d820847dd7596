/** Observations and claims may end a parent: its receipt always validates but in one case, and is attached to every
    operation. */
module ExternalEndings {
  import opened Wrappers
  import opened DependencyGraph
  import opened RuntimeWorkflow
  import opened WorkflowOutcomes
  import opened Totals
  import opened WorkflowPlan
  import opened WorkflowScheduling
  import opened WorkflowLog
  import opened WorkflowRuns
  import opened ExternalOperation
  import opened ExternalReceipts
  import opened ExternalWorld
  import opened ExternalCounters
  import opened ExternalParents
  import opened ExternalInvariant
  import opened ExternalSteps

  // ----- reports -----

  /** A workflow still active has only succeeded outcomes, and those carry reports as they must. */
  lemma ActiveReportsMatch(v: Workflow)
    requires Kept(v) && IsActive(v)
    ensures ReportsMatch(Outcomes(v.claims))
  {
    hide FindStep, Outcomes, SingleUse, Contiguous, SuccessesOrdered;
    OutcomeOfClaim(v.claims);
    forall row | row in Outcomes(v.claims) ensures row.report.Some? <==> row.kind.Check? && row.terminal.Succeeded? {
      var i :| 0 <= i < |v.claims| && v.claims[i].outcome == Some(row);
      assert GoodLog(v.claims[i]);
      assert v.steps[v.claims[i].step].state == StepDone(v.claims[i].status.terminal);
    }
  }

  /** Reports are out of place exactly when a claim that did not succeed carries one. */
  lemma ReportsMatchUnless(v: Workflow)
    requires Kept(v)
    ensures ReportsMatch(Outcomes(v.claims)) <==>
            forall c | c in v.claims && c.outcome.Some? && !c.outcome.value.terminal.Succeeded? ::
              c.outcome.value.report.None?
  {
    hide FindStep, Outcomes, SingleUse, Contiguous, Scheduled, Ended;
    OutcomeOfClaim(v.claims);
    forall c | c in v.claims && c.outcome.Some? ensures c.outcome.value in Outcomes(v.claims) {
      var i :| 0 <= i < |v.claims| && v.claims[i] == c;
      assert v.claims[i].outcome == Some(c.outcome.value);
    }
    forall row | row in Outcomes(v.claims) ensures exists c :: c in v.claims && c.outcome == Some(row) {
      var i :| 0 <= i < |v.claims| && v.claims[i].outcome == Some(row);
      assert v.claims[i] in v.claims;
    }
  }

  // ----- completion needs readiness -----

  /** A version 3 parent that is not ready does not complete, and one that is ready is not blocked. */
  predicate EndsAs(state: WorkflowState, ready: bool) {
    (state.Completed? ==> ready) && (state.Blocked? ==> !ready)
  }

  lemma CompleteNeedsReadiness(w: Workflow, i: nat, r: Record, edge: Option<RecordedEdge>, ready: bool)
    requires w.plan.version == 3 && w.receipt.None? && i < |w.claims| && r.payload.Outcome?
             && w.claims[i].step in w.steps
    ensures EndsAs(Complete(w, i, r, edge, ready).state, ready)
  {
    hide Outcomes, AllSucceeded;
  }

  lemma EndIsNoCompletion(w: Workflow, budget: string, ready: bool)
    requires w.receipt.None?
    ensures EndsAs(Exhaust(w, budget, ready).state, ready)
  {
    hide Outcomes;
  }

  lemma AppendNeedsReadiness(w: Workflow, u: Update, ready: bool)
    requires w.plan.version == 3 && IsActive(w) && w.receipt.None? && u.holder.claim < |w.claims|
             && w.claims[u.holder.claim].step in w.steps
    ensures EndsAs(After(w, Append(w, u, ready)).state, ready)
  {
    hide Exhaust, Complete, FindRecord, PreflightReport;
    var c := w.claims[u.holder.claim];
    EndIsNoCompletion(w, "event byte", ready);
    EndIsNoCompletion(w.(counters := w.counters.(eventBytes := w.counters.eventBytes + u.record.payload.size)),
                      "external operation", ready);
    if u.record.payload.Outcome? {
      CompleteNeedsReadiness(w, u.holder.claim, u.record, None, ready);
      match PreflightReport(w, c, u)
      case Refused(_) =>
      case OverBudget(budget) => EndIsNoCompletion(w, budget, ready);
      case Clear(edge) =>
          CompleteNeedsReadiness(w, u.holder.claim, u.record, Some(RecordedEdge(edge, u.report, c.attempt)), ready);
    }
  }

  lemma {:induction false} ReleaseNeedsNothing(w: Workflow, from: nat, now: int, ready: bool)
    requires IsActive(w) && w.receipt.None?
    ensures var t := ReleaseExpired(w, from, now, ready); !t.Rollback? && EndsAs(t.state.state, ready)
    decreases |w.claims| - from
  {
    hide Exhaust, RuntimeExhausted;
    if from < |w.claims| {
      if !Expired(w.claims[from], now) {
        ReleaseNeedsNothing(w, from + 1, now, ready);
      } else if RuntimeExhausted(w, from, now) {
        EndIsNoCompletion(w, "runtime", ready);
      } else {
        ReleaseNeedsNothing(Release(Meter(w, from, now), from), from + 1, now, ready);
      }
    }
  }

  /** No claim request completes a version 3 parent that is not ready, nor blocks one that is. */
  lemma StepNeedsReadiness(w: Workflow, a: Action, ready: bool)
    requires w.plan.version == 3 && IsActive(w) && w.receipt.None? && ClaimsPlanned(w)
    ensures EndsAs(Step(w, a, ready).state, ready)
  {
    hide Exhaust, Append, ReleaseExpired, RuntimeExhausted, FindStep, FindKey, Ready, AttemptsExhausted, Freeze;
    match a
    case DoActivate(request, now, keys) => EndIsNoCompletion(w, "attempt", ready);
    case DoRenew(holder, leaseSeconds, now) => EndIsNoCompletion(w, "runtime", ready);
    case DoUpdate(update, now) =>
      EndIsNoCompletion(w, "runtime", ready);
      if Refusal(w, update.holder, now).None? {
        AppendNeedsReadiness(Meter(w, update.holder.claim, now), update, ready);
      }
    case DoCancel(reason) => CancelIsNoCompletion(w, reason, ready);
    case DoReconcile(now) => ReleaseNeedsNothing(w, 0, now, ready);
  }

  lemma CancelIsNoCompletion(w: Workflow, reason: string, ready: bool)
    requires IsActive(w) && w.receipt.None?
    ensures EndsAs(Cancel(w, reason, ready).state, ready)
  {
    hide Outcomes;
  }

  // ----- attaching the receipt -----

  /** What attaching a parent's receipt does to a row: nothing but the receipt and one snapshot more. */
  ghost predicate Attached(op: Operation, next: Operation, job: string, r: ParentReceipt) {
    && next.permits == op.permits && next.consumed == op.consumed && next.who == op.who
    && next.outcome == op.outcome && next.reconciliation == op.reconciliation && next.conflicts == op.conflicts
    && next.terminal == if op.who.application.job == job then Some(r) else op.terminal
  }

  lemma AttachOne(op: Operation, job: string, r: ParentReceipt, now: int)
    requires GoodOperation(op) && (op.who.application.job == job ==> op.terminal.None?)
    ensures var t := AttachTerminal(op, job, r, now);
            t.Ok? && GoodOperation(t.value) && Grows(op, t.value) && Attached(op, t.value, job, r)
  {
    hide GoodOperation, Snapshot, Grows;
    GrowsItself(op);
    if op.who.application.job == job {
      AttachGood(op, r, now);
      AttachMoves(op, r, now);
    }
  }

  /** Every operation of the parent takes the receipt; the validator refuses none of them. */
  lemma {:induction false} AttachAllGood(ops: seq<Operation>, job: string, r: ParentReceipt, now: int)
    requires forall n | 0 <= n < |ops| :: GoodOperation(ops[n])
    requires forall n | 0 <= n < |ops| && ops[n].who.application.job == job :: ops[n].terminal.None?
    ensures AttachAll(ops, job, r, now).Ok? && RowsGrow(ops, AttachAll(ops, job, r, now).value)
    ensures forall n | 0 <= n < |ops| :: Attached(ops[n], AttachAll(ops, job, r, now).value[n], job, r)
  {
    hide GoodOperation, Grows, AttachTerminal, Attached;
    if ops != [] {
      var last := |ops| - 1;
      AttachAllGood(ops[..last], job, r, now);
      AttachOne(ops[last], job, r, now);
      var all, front := AttachAll(ops, job, r, now).value, AttachAll(ops[..last], job, r, now).value;
      assert forall n | 0 <= n < last :: all[n] == front[n] && ops[..last][n] == ops[n];
    }
  }

  lemma AttachMoves(op: Operation, r: ParentReceipt, now: int)
    requires Snapshot(Attach(op, r), now).Ok?
    ensures var next := Snapshot(Attach(op, r), now).value;
      && next.permits == op.permits && next.consumed == op.consumed && next.who == op.who && next.terminal == Some(r)
      && next.outcome == op.outcome && next.reconciliation == op.reconciliation && next.conflicts == op.conflicts
  {
  }

  /** Rows that go on without calls leave a parent in order. */
  lemma RowsApart(a: seq<Operation>, b: seq<Operation>, job: string, parent: Workflow)
    requires ParentOk(a, job, parent) && RowsGrow(a, b)
    requires forall n | 0 <= n < |a| ::
               b[n].permits == a[n].permits && b[n].consumed == a[n].consumed && b[n].who == a[n].who
    ensures ParentOk(b, job, parent)
  {
    hide Kept, ParentPlan, OperationsOf, StepsTrack, Receivable, Counted, Total, RowsGrow;
    OperationsOfGrows(a, b, job, parent);
    StepsTrackGrows(a, b, job, parent);
    assert |a| == |b| by { RowsGrowLength(a, b); }
    TotalSame(b, a, CallsOf(job));
    TotalSame(b, a, QueriesOf(job));
  }

  lemma RowsGrowLength(a: seq<Operation>, b: seq<Operation>)
    requires RowsGrow(a, b)
    ensures |a| == |b|
  {
  }

  // ----- settling -----

  /** How a parent may move: its external steps and counters as they were or in step with the operations, and no
      completion unready. */
  ghost predicate Moves(ops: seq<Operation>, job: string, parent: Workflow, v: Workflow) {
    && Kept(v) && v.plan == parent.plan
    && v.counters.externalCalls == parent.counters.externalCalls
       && v.counters.recoveryQueryCalls == parent.counters.recoveryQueryCalls
    && OperationsOf(ops, job, v) && StepsTrack(ops, job, v)
    && Counted(v) && (parent.receipt.None? && v.receipt.Some? ==> v.receipt.value.counters == v.counters)
    && (parent.receipt.Some? ==> v == parent)
    && (parent.receipt.None? ==> EndsAs(v.state, CompletionReady(ops, job, v.plan)))
  }

  lemma MovedParentOk(ops: seq<Operation>, job: string, parent: Workflow, v: Workflow)
    requires ParentOk(ops, job, parent) && Moves(ops, job, parent, v) && Receivable(v)
    ensures ParentOk(ops, job, v)
  {
    hide Kept, OperationsOf, StepsTrack, Receivable, Counted, Total, ParentPlan, CompletionReady;
  }

  lemma FrozenMove(ops: seq<Operation>, job: string, parent: Workflow, v: Workflow)
    requires ParentOk(ops, job, parent) && Table(ops) && Moves(ops, job, parent, v) && parent.receipt.None?
             && v.receipt.Some?
    ensures ParentReceiptValid(v.plan, ParentReceiptOf(ops, job, v)) <==> ReceiptIdFits(job) && Receivable(v)
  {
    hide Kept, OperationsOf, StepsTrack, Receivable, Total, ParentPlan, CompletionReady, GoodOperation,
         ParentReceiptValid;
    ReceiptValidates(ops, job, v);
  }

  /** The move commits unless it ends a parent whose name leaves no room for its receipt's, or with a report out of
      place, or under a code not listed; then all of it is rolled back. */
  lemma SettleKeeps(w: World, job: string, v: Workflow, now: int)
    requires Inv(w) && job in w.parents && Moves(w.operations, job, w.parents[job], v)
    ensures var t := Settle(w, job, v, now);
      && (t.Ok? <==> w.parents[job].receipt.Some? || v.receipt.None? || (ReceiptIdFits(job) && Receivable(v)))
      && (t.Ok? ==> Inv(t.value))
  {
    hide Table, ParentOk, Authority, Workers, Moves, ReceiptOk, ParentReceiptValid, AttachAll, Receivable,
         ParentReceiptOf;
    var parent := w.parents[job];
    assert ParentOk(w.operations, job, parent) && ReceiptOk(w.operations, job, parent, w.receipts);
    if parent.receipt.Some? {
      MoveOfEnded(w.operations, job, parent, v);
      assert w.(parents := w.parents[job := v]) == w;
    } else if v.receipt.None? {
      MoveOfActive(w.operations, job, parent, v);
      SettleActive(w, job, v);
    } else {
      FrozenMove(w.operations, job, parent, v);
      if ReceiptIdFits(job) && Receivable(v) {
        SettleEnded(w, job, v, now);
      }
    }
  }

  lemma MoveOfEnded(ops: seq<Operation>, job: string, parent: Workflow, v: Workflow)
    requires Moves(ops, job, parent, v) && parent.receipt.Some?
    ensures v == parent
  {
  }

  lemma MoveOfActive(ops: seq<Operation>, job: string, parent: Workflow, v: Workflow)
    requires ParentOk(ops, job, parent) && Moves(ops, job, parent, v) && v.receipt.None?
    ensures ParentOk(ops, job, v) && Receivable(v)
  {
    hide Scheduled, Logged, OperationsOf, StepsTrack, Total, ParentPlan, CompletionReady, ReportsMatch, ListedError,
         Counted;
    ActiveReportsMatch(v);
    MovedParentOk(ops, job, parent, v);
  }

  lemma SettleActive(w: World, job: string, v: Workflow)
    requires Inv(w) && job in w.parents && ParentOk(w.operations, job, v) && w.parents[job].receipt.None?
             && v.receipt.None?
    ensures Inv(w.(parents := w.parents[job := v]))
  {
    hide Table, ParentOk, Authority, Workers, ParentReceiptValid;
    var x := w.(parents := w.parents[job := v]);
    assert ReceiptOk(w.operations, job, w.parents[job], w.receipts);
    assert Parents(x) by {
      forall j | j in x.parents
        ensures ParentOk(x.operations, j, x.parents[j]) && ReceiptOk(x.operations, j, x.parents[j], x.receipts)
      {
        assert ReceiptOk(w.operations, j, w.parents[j], w.receipts) && ParentOk(w.operations, j, w.parents[j]);
      }
    }
    PartsApart(x, x, w, w);
  }

  lemma SettleEnded(w: World, job: string, v: Workflow, now: int)
    requires Inv(w) && job in w.parents && Moves(w.operations, job, w.parents[job], v) && Receivable(v)
    requires w.parents[job].receipt.None? && v.receipt.Some?
    requires ParentReceiptValid(v.plan, ParentReceiptOf(w.operations, job, v))
    ensures Settle(w, job, v, now).Ok? && Inv(Settle(w, job, v, now).value)
  {
    hide Table, Authority, Workers, Moves, ParentReceiptValid, AttachAll, Receivable, ParentReceiptOf, ParentOk,
         ReceiptOk, RowsGrow;
    var r := ParentReceiptOf(w.operations, job, v);
    assert ParentOk(w.operations, job, w.parents[job]) && ReceiptOk(w.operations, job, w.parents[job], w.receipts);
    MovedParentOk(w.operations, job, w.parents[job], v);
    UnendedTerminals(w.operations, job, w.parents[job], w.receipts);
    TableGood(w.operations);
    AttachAllGood(w.operations, job, r, now);
    var ops := AttachAll(w.operations, job, r, now).value;
    var x := Settle(w, job, v, now).value;
    RowsGrowLength(w.operations, ops);
    TableGrows(w.operations, ops);
    forall j | j in x.parents ensures ParentOk(ops, j, x.parents[j]) && ReceiptOk(ops, j, x.parents[j], x.receipts) {
      assert ReceiptOk(w.operations, j, w.parents[j], w.receipts) && ParentOk(w.operations, j, w.parents[j]);
      RowsApart(w.operations, ops, j, x.parents[j]);
      if j == job {
        BaseIsFrozen(w.operations, job, v);
        NewReceiptOk(ops, job, v, x.receipts, r);
      } else {
        OtherReceiptOk(w.operations, ops, j, w.parents[j], w.receipts, x.receipts);
      }
    }
    RowsKeepAuthority(w, ops);
    RowsKeepWorkers(w, ops);
    PartsApart(x, x, w.(operations := ops), w.(operations := ops));
  }

  lemma BaseIsFrozen(ops: seq<Operation>, job: string, v: Workflow)
    requires v.receipt.Some?
    ensures ParentReceiptOf(ops, job, v).base == v.receipt.value && ParentReceiptOf(ops, job, v).job == job
  {
  }

  lemma UnendedTerminals(ops: seq<Operation>, job: string, parent: Workflow, receipts: map<string, ParentReceipt>)
    requires ReceiptOk(ops, job, parent, receipts) && parent.receipt.None?
    ensures forall n | 0 <= n < |ops| && ops[n].who.application.job == job :: ops[n].terminal.None?
  {
  }

  lemma TableGood(ops: seq<Operation>)
    requires Table(ops)
    ensures forall n | 0 <= n < |ops| :: GoodOperation(ops[n])
  {
  }

  lemma NewReceiptOk(ops: seq<Operation>, job: string, v: Workflow, receipts: map<string, ParentReceipt>,
                     r: ParentReceipt)
    requires v.receipt.Some? && job in receipts && receipts[job] == r && r.job == job
             && r.base == v.receipt.value && ParentReceiptValid(v.plan, r)
    requires forall n | 0 <= n < |ops| && ops[n].who.application.job == job :: ops[n].terminal == Some(r)
    ensures ReceiptOk(ops, job, v, receipts)
  {
  }

  lemma OtherReceiptOk(a: seq<Operation>, b: seq<Operation>, job: string, parent: Workflow,
                       before: map<string, ParentReceipt>, receipts: map<string, ParentReceipt>)
    requires ReceiptOk(a, job, parent, before) && |a| == |b| && (job in receipts <==> job in before)
    requires job in before ==> receipts[job] == before[job]
    requires forall n | 0 <= n < |a| ::
               b[n].who == a[n].who && (a[n].who.application.job == job ==> b[n].terminal == a[n].terminal)
    ensures ReceiptOk(b, job, parent, receipts)
  {
    hide ParentReceiptValid;
  }

  // ----- claim requests -----

  /** A claim request moves its parent as claims may. */
  lemma StepMoves(ops: seq<Operation>, job: string, parent: Workflow, action: Action)
    requires ParentOk(ops, job, parent)
    ensures ClaimsPlanned(parent)
    ensures Moves(ops, job, parent, Step(parent, action, CompletionReady(ops, job, parent.plan)))
  {
    hide Scheduled, Logged, OperationsOf, StepsTrack, Total, CompletionReady, Receivable, Counted, Step, DistinctSteps;
    var ready := CompletionReady(ops, job, parent.plan);
    KeptClaimsPlanned(parent);
    var v := Step(parent, action, ready);
    StepKept(parent, Request(action, ready));
    StepContinues(parent, Request(action, ready));
    ContinuedTracks(ops, job, parent, v);
    StepCounted(parent, action, ready);
    if parent.receipt.None? {
      StepNeedsReadiness(parent, action, ready);
    }
  }

  lemma ContinuedTracks(ops: seq<Operation>, job: string, parent: Workflow, v: Workflow)
    requires OperationsOf(ops, job, parent) && StepsTrack(ops, job, parent) && Continues(parent, v)
    ensures OperationsOf(ops, job, v) && StepsTrack(ops, job, v)
  {
    hide GoodOperation, FindStep, RowContinues;
    assert forall s :: IsDispatch(v, s) == IsDispatch(parent, s);
    forall n | 0 <= n < |ops| && ops[n].who.application.job == job ensures OperationOf(ops[n], v) {
      assert OperationOf(ops[n], parent);
    }
    forall n | 0 <= n < |ops| && ops[n].who.application.job == job
      ensures v.steps[ops[n].who.application.step] == parent.steps[ops[n].who.application.step]
    {
      assert OperationOf(ops[n], parent) && IsDispatch(parent, ops[n].who.application.step);
    }
  }

  lemma ClaimActionKeeps(w: World, job: string, action: Action, now: int)
    requires Inv(w) && ParentsPlanned(w)
    ensures Inv(OrElse(w, ClaimAction(w, job, action, now)))
  {
    hide Inv, ParentOk, Moves, Settle, Step, CompletionReady;
    if job in w.parents {
      InvParent(w, job);
      StepMoves(w.operations, job, w.parents[job], action);
      SettleKeeps(w, job, Step(w.parents[job], action, CompletionReady(w.operations, job, w.parents[job].plan)), now);
    }
  }

  lemma InvParent(w: World, job: string)
    requires Inv(w) && job in w.parents
    ensures ParentOk(w.operations, job, w.parents[job])
  {
    hide ParentOk;
  }

  lemma InvPlanned(w: World)
    requires Inv(w)
    ensures ParentsPlanned(w)
  {
    hide Scheduled, Logged, ClaimsPlanned, OperationsOf, StepsTrack, CallsTally, Receivable, Counted;
    forall job | job in w.parents ensures ClaimsPlanned(w.parents[job]) {
      assert ParentOk(w.operations, job, w.parents[job]);
      KeptClaimsPlanned(w.parents[job]);
    }
  }

  // ----- observations -----

  /** A recorded observation moves its operation's parent as external steps may. */
  lemma AdvanceMoves(ops: seq<Operation>, row: nat, parent: Workflow)
    requires row < |ops| && Table(ops) && ParentOk(ops, ops[row].who.application.job, parent)
    ensures var job := ops[row].who.application.job;
      ops[row].who.application.step in parent.steps
          && Moves(ops, job, parent, AdvanceParent(parent, ops[row], CompletionReady(ops, job, parent.plan)))
  {
    hide Scheduled, Logged, Total, CompletionReady, Receivable, Counted, FindStep, GoodOperation, Freeze, Advance,
         Table;
    var op, job := ops[row], ops[row].who.application.job;
    var step, ready := op.who.application.step, CompletionReady(ops, job, parent.plan);
    assert OperationOf(op, parent);
    assert Tracks(parent.steps[step].state, op.outcome);
    assert HasStep(op, job, step) && HasOperation(ops, job, step);
    assert IsDispatch(parent, step);
    if IsActive(parent) && parent.steps[step].state.StepDone? {
      ActiveDone(parent, step);
    }
    AdvanceParentKept(parent, op, ready);
    AdvanceCounted(parent, op, ready);
    if IsActive(parent) && Confirmed(op.outcome) && !op.reconciliation {
      TableStepsUnique(ops);
      AdvanceShape(parent, op, ready);
      TracksAfter(ops, row, parent, AdvanceParent(parent, op, ready));
    }
  }

  lemma ActiveDone(parent: Workflow, step: StepId)
    requires Kept(parent) && IsActive(parent) && step in parent.steps && parent.steps[step].state.StepDone?
    ensures parent.steps[step].state == StepDone(Succeeded)
  {
    hide Logged, Ended;
  }

  lemma TableStepsUnique(ops: seq<Operation>)
    requires Table(ops)
    ensures StepsUnique(ops)
  {
  }

  /** The rows an advance leaves alone, and the one it does not. */
  lemma AdvanceShape(parent: Workflow, op: Operation, ready: bool)
    requires op.who.application.step in parent.steps && IsActive(parent) && parent.receipt.None?
             && Confirmed(op.outcome) && !op.reconciliation
    requires !parent.steps[op.who.application.step].state.StepPending? && parent.plan.version == 3
    requires Tracks(parent.steps[op.who.application.step].state, op.outcome)
    ensures var v, step := AdvanceParent(parent, op, ready), op.who.application.step;
      && v.plan == parent.plan && v.steps.Keys == parent.steps.Keys
      && (forall s | s in parent.steps && s != step :: v.steps[s] == parent.steps[s])
      && !v.steps[step].state.StepPending? && Tracks(v.steps[step].state, op.outcome)
      && v.counters.externalCalls == parent.counters.externalCalls
         && v.counters.recoveryQueryCalls == parent.counters.recoveryQueryCalls
      && EndsAs(v.state, ready)
  {
    hide Outcomes, AllSucceeded;
  }

  lemma TracksAfter(ops: seq<Operation>, row: nat, parent: Workflow, v: Workflow)
    requires row < |ops| && StepsUnique(ops)
    requires OperationsOf(ops, ops[row].who.application.job, parent)
             && StepsTrack(ops, ops[row].who.application.job, parent)
    requires v.plan == parent.plan && v.steps.Keys == parent.steps.Keys && ops[row].who.application.step in parent.steps
    requires forall s | s in parent.steps && s != ops[row].who.application.step :: v.steps[s] == parent.steps[s]
    requires !v.steps[ops[row].who.application.step].state.StepPending?
             && !parent.steps[ops[row].who.application.step].state.StepPending?
    requires Tracks(v.steps[ops[row].who.application.step].state, ops[row].outcome)
    ensures OperationsOf(ops, ops[row].who.application.job, v) && StepsTrack(ops, ops[row].who.application.job, v)
  {
    hide FindStep, GoodOperation;
    var job, step := ops[row].who.application.job, ops[row].who.application.step;
    assert forall s :: IsDispatch(v, s) == IsDispatch(parent, s);
    forall n | 0 <= n < |ops| && ops[n].who.application.job == job ensures OperationOf(ops[n], v) {
      assert OperationOf(ops[n], parent);
    }
    forall n | 0 <= n < |ops| && ops[n].who.application.job == job
      ensures Tracks(v.steps[ops[n].who.application.step].state, ops[n].outcome)
    {
      assert OperationOf(ops[n], parent);
      assert Tracks(parent.steps[ops[n].who.application.step].state, ops[n].outcome);
      assert ops[n].who.application.step == step ==> n == row;
    }
  }

  lemma ObserveKeeps(w: World, row: nat, o: Observation, facts: Facts, through: Option<QueryClaim>, now: int)
    requires Inv(w)
    ensures Inv(OrElse(w, ObserveRow(w, row, o, facts, through, now)))
  {
    hide Inv, ParentOk, Moves, Settle, CompletionReady, GoodOperation, Grows, Observe, AdvanceParent, Table, Parents;
    if row < |w.operations| && Observe(w.operations[row], o, facts, through, now).Ok? {
      InvTable(w);
      TableRow(w.operations, row);
      ObserveGood(w.operations[row], o, facts, through, now);
      var op := Observe(w.operations[row], o, facts, through, now).value;
      if op != w.operations[row] {
        ObserveIsQuiet(w.operations[row], o, facts, through, now);
        QuietRowKeeps(w, row, op);
        var next := w.(operations := w.operations[row := op]);
        var job := op.who.application.job;
        InvTable(next);
        JobKnown(next, row);
        InvParent(next, job);
        AdvanceMoves(next.operations, row, next.parents[job]);
        SettleKeeps(next, job,
                    AdvanceParent(next.parents[job], op, CompletionReady(next.operations, job, next.parents[job].plan)),
                        now);
      }
    }
  }

  lemma JobKnown(w: World, row: nat)
    requires Inv(w) && row < |w.operations|
    ensures w.operations[row].who.application.job in w.parents
  {
    hide Table, ParentOk, ReceiptOk;
  }

  lemma ObserveIsQuiet(op: Operation, o: Observation, facts: Facts, through: Option<QueryClaim>, now: int)
    requires Observe(op, o, facts, through, now).Ok?
    ensures var next := Observe(op, o, facts, through, now).value;
      next.permits == op.permits && next.consumed.queryCalls == op.consumed.queryCalls && next.terminal == op.terminal
          && next.who == op.who
  {
    hide ObservationFault, ManualFault, FindObservation, OverEvidenceBudget, CasesAfter, ReconciliationAfter,
         ReceiptFault;
  }
}
