/** What holds in every state of the external-operation service, whoever calls, waits or dies in between. */
module ExternalInvariant {
  import opened Wrappers
  import opened DependencyGraph
  import opened RuntimeWorkflow
  import opened Totals
  import opened WorkflowScheduling
  import opened WorkflowRuns
  import opened ExternalOperation
  import opened ExternalReceipts
  import opened ExternalWorld
  import opened ExternalCounters
  import opened ExternalParents

  // ----- the operations table -----

  /** Good rows, each under its own number; a subject, an approval and a workflow step each have one operation at
      most. */
  ghost predicate Table(ops: seq<Operation>) {
    && (forall n | 0 <= n < |ops| :: ops[n].who.row == n && GoodOperation(ops[n]))
    && (forall i, j | 0 <= i < j < |ops| :: !SameSubject(ops[i], ops[j]) && !SameApproval(ops[i], ops[j]))
    && StepsUnique(ops)
  }

  predicate SameSubject(a: Operation, b: Operation) {
    HasSubject(a, b.who.application.namespace, b.who.application.subject)
  }

  predicate SameApproval(a: Operation, b: Operation) {
    HasApproval(a, b.who.application.namespace, b.who.application.approval)
  }

  // ----- a parent and its operations -----

  function CallsOf(job: string): Operation -> int {
    (op: Operation) => if op.who.application.job == job then op.permits + op.consumed.queryCalls else 0
  }

  function QueriesOf(job: string): Operation -> int {
    (op: Operation) => if op.who.application.job == job then op.consumed.queryCalls else 0
  }

  /** External calls are conserved: the counter is the sum of all permits and queries of the parent's operations. */
  ghost predicate CallsTally(ops: seq<Operation>, job: string, k: Counters, b: Budgets) {
    && k.externalCalls == Total(ops, CallsOf(job)) <= b.externalCalls
    && k.recoveryQueryCalls == Total(ops, QueriesOf(job))
  }

  ghost predicate HasOperation(ops: seq<Operation>, job: string, step: StepId) {
    exists n :: 0 <= n < |ops| && HasStep(ops[n], job, step)
  }

  /** An external step is pending exactly while it has no operation; once done, its operation is confirmed, and to
      match. */
  ghost predicate StepsTrack(ops: seq<Operation>, job: string, parent: Workflow) {
    && (forall s | s in parent.steps && IsDispatch(parent, s) ::
          parent.steps[s].state.StepPending? <==> !HasOperation(ops, job, s))
    && (forall n | 0 <= n < |ops| && ops[n].who.application.job == job && ops[n].who.application.step in parent.steps ::
          Tracks(parent.steps[ops[n].who.application.step].state, ops[n].outcome))
  }

  predicate Tracks(state: StepState, outcome: Outcome) {
    state.StepDone? ==> Confirmed(outcome) && (state == StepDone(Succeeded) <==> outcome.ConfirmedSucceeded?)
  }

  ghost predicate ParentOk(ops: seq<Operation>, job: string, parent: Workflow) {
    && Kept(parent) && ParentPlan(parent.plan)
    && OperationsOf(ops, job, parent)
    && StepsTrack(ops, job, parent)
    && CallsTally(ops, job, parent.counters, parent.plan.budgets)
    && Receivable(parent) && Counted(parent)
  }

  /** A parent's validated receipt exists exactly when the parent is over, and is attached to each of its operations. */
  ghost predicate ReceiptOk(ops: seq<Operation>, job: string, parent: Workflow, receipts: map<string, ParentReceipt>) {
    && (job in receipts <==> parent.receipt.Some?)
    && (job in receipts ==>
        && receipts[job].job == job && receipts[job].base == parent.receipt.value
        && ParentReceiptValid(parent.plan, receipts[job]))
    && (forall n | 0 <= n < |ops| && ops[n].who.application.job == job ::
          ops[n].terminal == if job in receipts then Some(receipts[job]) else None)
  }

  ghost predicate Parents(w: World) {
    && (forall n | 0 <= n < |w.operations| :: w.operations[n].who.application.job in w.parents)
    && (forall job | job in w.parents :: ParentOk(w.operations, job, w.parents[job]))
    && (forall job | job in w.parents :: ReceiptOk(w.operations, job, w.parents[job], w.receipts))
    && (forall job | job in w.receipts :: job in w.parents)
  }

  // ----- authority -----

  /** Every permit was issued under the approval of its operation, in the issuer's epoch, within both windows. */
  ghost predicate PermitOk(w: World, p: PermitRecord) {
    && p.row < |w.operations| && w.operations[p.row].permits == 1
    && var app := w.operations[p.row].who.application;
      var approval, issuer := Key(app.namespace, app.approval), Key(app.namespace, app.issuer);
      && approval in w.approvals && w.approvals[approval] == p.approval
      && p.approval.issuer == app.issuer
      && p.approval.epoch == p.issuer.epoch && p.approval.issuedAt <= p.now < p.approval.expiresAt
      && p.issuer.freshness.Some? && FreshAt(p.issuer.freshness.value, p.now)
      && issuer in w.issuers && p.issuer.epoch <= w.issuers[issuer].epoch
  }

  /** No approval is ahead of its issuer. */
  ghost predicate ApprovalsDated(w: World) {
    forall k | k in w.approvals :: w.approvals[k].epoch <= IssuerState(w, Key(k.namespace, w.approvals[k].issuer)).epoch
  }

  ghost predicate Authority(w: World) {
    && ApprovalsDated(w)
    && (forall k | 0 <= k < |w.permits| :: PermitOk(w, w.permits[k]))
    && (forall n | 0 <= n < |w.operations| && w.operations[n].permits == 1 ::
          exists k :: 0 <= k < |w.permits| && w.permits[k].row == n)
    && (forall i, j | 0 <= i < j < |w.permits| :: w.permits[i].row != w.permits[j].row)
  }

  // ----- workers and their calls -----

  predicate IssuedFence(ops: seq<Operation>, row: nat, fence: nat) {
    row < |ops| && 2 <= fence < 2 + |ops[row].issued|
  }

  /** A provider call is made once, by the worker that a permit or a query claim left behind. */
  ghost predicate Workers(w: World) {
    && NoDuplicates(w.calls)
    && (forall row | row in w.submitting ::
          row < |w.operations| && w.operations[row].permits == 1 && Submission(row) !in w.calls)
    && (forall q | q in w.querying :: IssuedFence(w.operations, q.0, q.1) && Query(q.0, q.1) !in w.calls)
    && (forall c | c in w.calls ::
          match c
          case Submission(row) => row < |w.operations| && w.operations[row].permits == 1
          case Query(row, fence) => IssuedFence(w.operations, row, fence))
  }

  ghost predicate Inv(w: World) {
    Table(w.operations) && Parents(w) && Authority(w) && Workers(w)
  }

  // ----- rows that grow -----

  /** Some operations have gone on; none has been added. */
  ghost predicate RowsGrow(a: seq<Operation>, b: seq<Operation>) {
    |a| == |b| && forall n | 0 <= n < |a| :: GoodOperation(b[n]) && Grows(a[n], b[n])
  }

  lemma TableGrows(a: seq<Operation>, b: seq<Operation>)
    requires Table(a) && RowsGrow(a, b)
    ensures Table(b)
  {
    hide GoodOperation;
    assert forall n | 0 <= n < |a| :: b[n].who == a[n].who;
  }

  lemma HasOperationGrows(a: seq<Operation>, b: seq<Operation>)
    requires RowsGrow(a, b)
    ensures forall job, s :: HasOperation(a, job, s) <==> HasOperation(b, job, s)
  {
    hide GoodOperation;
    assert forall n | 0 <= n < |a| :: b[n].who == a[n].who;
    forall job, s ensures HasOperation(a, job, s) <==> HasOperation(b, job, s) {
      if n :| 0 <= n < |a| && HasStep(a[n], job, s) { assert HasStep(b[n], job, s); }
      if n :| 0 <= n < |b| && HasStep(b[n], job, s) { assert HasStep(a[n], job, s); }
    }
  }

  lemma OperationsOfGrows(a: seq<Operation>, b: seq<Operation>, job: string, parent: Workflow)
    requires OperationsOf(a, job, parent) && RowsGrow(a, b)
    ensures OperationsOf(b, job, parent)
  {
    hide GoodOperation, FindStep;
    forall n | 0 <= n < |b| && b[n].who.application.job == job ensures OperationOf(b[n], parent) {
      assert Grows(a[n], b[n]) && OperationOf(a[n], parent);
    }
  }

  lemma StepsTrackGrows(a: seq<Operation>, b: seq<Operation>, job: string, parent: Workflow)
    requires StepsTrack(a, job, parent) && RowsGrow(a, b)
    ensures StepsTrack(b, job, parent)
  {
    hide GoodOperation, FindStep, IsDispatch;
    HasOperationGrows(a, b);
    forall n | 0 <= n < |b| && b[n].who.application.job == job && b[n].who.application.step in parent.steps
      ensures Tracks(parent.steps[b[n].who.application.step].state, b[n].outcome)
    {
      assert Grows(a[n], b[n]) && Tracks(parent.steps[a[n].who.application.step].state, a[n].outcome);
    }
  }

  /** One row goes on; the calls it makes are those of its own parent. */
  lemma TotalOfRow(ops: seq<Operation>, row: nat, op: Operation, job: string)
    requires row < |ops| && op.who == ops[row].who
    ensures Total(ops[row := op], CallsOf(job)) == Total(ops, CallsOf(job)) +
              if op.who.application.job == job then op.permits - ops[row].permits
                  + op.consumed.queryCalls - ops[row].consumed.queryCalls else 0
    ensures Total(ops[row := op], QueriesOf(job)) == Total(ops, QueriesOf(job)) +
              if op.who.application.job == job then op.consumed.queryCalls - ops[row].consumed.queryCalls else 0
  {
    TotalUpdate(ops, row, op, CallsOf(job));
    TotalUpdate(ops, row, op, QueriesOf(job));
  }

  lemma RowGrows(ops: seq<Operation>, row: nat, op: Operation)
    requires Table(ops) && row < |ops| && GoodOperation(op) && Grows(ops[row], op)
    ensures RowsGrow(ops, ops[row := op])
  {
    hide GoodOperation;
    assert forall n | 0 <= n < |ops| :: Grows(ops[n], ops[n]);
  }

  /** For a parent whose calls are unaffected, one row going on changes nothing. */
  lemma RowApart(ops: seq<Operation>, row: nat, op: Operation, job: string, parent: Workflow)
    requires Table(ops) && ParentOk(ops, job, parent) && row < |ops| && GoodOperation(op) && Grows(ops[row], op)
    requires op.who.application.job != job
             || (op.permits == ops[row].permits && op.consumed.queryCalls == ops[row].consumed.queryCalls)
    ensures ParentOk(ops[row := op], job, parent)
  {
    hide GoodOperation, Kept, ParentPlan, OperationsOf, StepsTrack, Receivable, Counted, Table, Total;
    RowGrows(ops, row, op);
    OperationsOfGrows(ops, ops[row := op], job, parent);
    StepsTrackGrows(ops, ops[row := op], job, parent);
    TotalOfRow(ops, row, op, job);
  }

  lemma ReceiptApart(ops: seq<Operation>, row: nat, op: Operation, job: string, parent: Workflow, receipts: map<string,
                     ParentReceipt>)
    requires ReceiptOk(ops, job, parent, receipts) && row < |ops| && op.who == ops[row].who
             && op.terminal == ops[row].terminal
    ensures ReceiptOk(ops[row := op], job, parent, receipts)
  {
    hide ParentReceiptValid;
    var all := ops[row := op];
    assert forall n | 0 <= n < |ops| :: all[n].who == ops[n].who && all[n].terminal == ops[n].terminal;
  }

  /** An operation that makes no call and keeps its terminal leaves every parent in order. */
  lemma QuietRowKeepsParents(w: World, row: nat, op: Operation)
    requires Table(w.operations) && Parents(w) && row < |w.operations| && GoodOperation(op)
             && Grows(w.operations[row], op)
    requires op.permits == w.operations[row].permits && op.consumed.queryCalls == w.operations[row].consumed.queryCalls
    requires op.terminal == w.operations[row].terminal
    ensures Parents(w.(operations := w.operations[row := op]))
  {
    hide GoodOperation, ParentOk, ReceiptOk, Table;
    var ops := w.operations[row := op];
    forall job | job in w.parents
      ensures ParentOk(ops, job, w.parents[job]) && ReceiptOk(ops, job, w.parents[job], w.receipts)
    {
      RowApart(w.operations, row, op, job, w.parents[job]);
      ReceiptApart(w.operations, row, op, job, w.parents[job], w.receipts);
    }
  }

  lemma RowsKeepAuthority(w: World, ops: seq<Operation>)
    requires Authority(w) && RowsGrow(w.operations, ops)
    requires forall n | 0 <= n < |ops| :: ops[n].permits == w.operations[n].permits
    ensures Authority(w.(operations := ops))
  {
    hide GoodOperation;
    var v := w.(operations := ops);
    assert forall n | 0 <= n < |ops| :: ops[n].who == w.operations[n].who;
    forall k | 0 <= k < |v.permits| ensures PermitOk(v, v.permits[k]) {
      assert PermitOk(w, w.permits[k]);
    }
  }

  lemma RowsKeepWorkers(w: World, ops: seq<Operation>)
    requires Workers(w) && RowsGrow(w.operations, ops)
    ensures Workers(w.(operations := ops))
  {
    hide GoodOperation, Coherent;
    forall row | 0 <= row < |ops| && w.operations[row].permits == 1 ensures ops[row].permits == 1 {
      assert GoodOperation(ops[row]) && Grows(w.operations[row], ops[row]);
      OnePermit(ops[row]);
    }
    forall row: nat, fence: nat | IssuedFence(w.operations, row, fence) ensures IssuedFence(ops, row, fence) {
      assert Grows(w.operations[row], ops[row]);
    }
  }

  lemma OnePermit(op: Operation)
    requires GoodOperation(op)
    ensures op.permits <= 1
  {
  }
}
