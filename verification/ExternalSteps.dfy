/** Every event of the external-operation service keeps the invariant. */
module ExternalSteps {
  import opened Wrappers
  import opened DependencyGraph
  import opened RuntimeWorkflow
  import opened WorkflowOutcomes
  import opened Totals
  import opened WorkflowScheduling
  import opened WorkflowLog
  import opened WorkflowRuns
  import opened ExternalOperation
  import opened ExternalReceipts
  import opened ExternalWorld
  import opened ExternalCounters
  import opened ExternalParents
  import opened ExternalInvariant

  // ----- registration -----

  /** Approvals stay as they are; epochs only grow. */
  ghost predicate AuthorityGrows(w: World, v: World) {
    && (forall k | k in w.approvals :: k in v.approvals && v.approvals[k] == w.approvals[k])
    && (forall k | k in w.subjects :: k in v.subjects && v.subjects[k] == w.subjects[k])
    && (forall k | k in w.issuers :: k in v.issuers && w.issuers[k].epoch <= v.issuers[k].epoch)
  }

  ghost predicate SameTables(w: World, v: World) {
    && v.parents == w.parents && v.receipts == w.receipts && v.operations == w.operations && v.permits == w.permits
    && v.submitting == w.submitting && v.querying == w.querying && v.calls == w.calls
  }

  lemma RegistryKeeps(w: World, v: World)
    requires Inv(w) && SameTables(w, v) && AuthorityGrows(w, v) && ApprovalsDated(v)
    ensures Inv(v)
  {
    hide Table, ParentOk, ReceiptOk;
    forall k | 0 <= k < |v.permits| ensures PermitOk(v, v.permits[k]) {
      assert PermitOk(w, w.permits[k]);
    }
  }

  lemma RaisedIssuerDated(w: World, key: Key, issuer: Issuer)
    requires IssuerState(w, key).epoch <= issuer.epoch
    ensures ApprovalsDated(w) ==> ApprovalsDated(w.(issuers := w.issuers[key := issuer]))
  {
  }

  lemma InvDated(w: World)
    requires Inv(w)
    ensures ApprovalsDated(w)
  {
    hide Table, Parents, Workers, ApprovalsDated;
  }

  lemma FreshnessGrows(w: World, key: Key, epoch: nat, f: Freshness, now: int)
    ensures var v := OrElse(w, AssertFreshness(w, key, epoch, f, now));
      SameTables(w, v) && AuthorityGrows(w, v) && (ApprovalsDated(w) ==> ApprovalsDated(v))
  {
    hide ApprovalsDated;
    if epoch >= IssuerState(w, key).epoch {
      RaisedIssuerDated(w, key, Issuer(epoch, Some(f)));
    }
  }

  lemma RevokeGrows(w: World, approval: Key, issuer: string, epoch: nat)
    ensures var v := OrElse(w, Revoke(w, approval, issuer, epoch));
      SameTables(w, v) && AuthorityGrows(w, v) && (ApprovalsDated(w) ==> ApprovalsDated(v))
  {
    hide ApprovalsDated;
    var key := Key(approval.namespace, issuer);
    if epoch > IssuerState(w, key).epoch {
      RaisedIssuerDated(w, key, IssuerState(w, key).(epoch := epoch));
    }
  }

  lemma SubjectGrows(w: World, key: Key, s: Subject)
    ensures var v := OrElse(w, RegisterSubject(w, key, s));
      SameTables(w, v) && AuthorityGrows(w, v) && (ApprovalsDated(w) ==> ApprovalsDated(v))
  {
  }

  lemma ApprovalGrows(w: World, key: Key, a: Approval, now: int)
    ensures var v := OrElse(w, RegisterApproval(w, key, a, now));
      SameTables(w, v) && AuthorityGrows(w, v) && (ApprovalsDated(w) ==> ApprovalsDated(v))
  {
    var t := RegisterApproval(w, key, a, now);
    if t.Ok? && t.value != w {
      assert key !in w.approvals;
    }
  }

  // ----- rows that make no call -----

  lemma QuietRowKeeps(w: World, row: nat, op: Operation)
    requires Inv(w) && row < |w.operations| && GoodOperation(op) && Grows(w.operations[row], op)
    requires op.permits == w.operations[row].permits && op.consumed.queryCalls == w.operations[row].consumed.queryCalls
    requires op.terminal == w.operations[row].terminal
    ensures Inv(w.(operations := w.operations[row := op]))
  {
    hide Table, Parents, Authority, Workers, GoodOperation, Grows;
    var ops := w.operations[row := op];
    RowGrows(w.operations, row, op);
    TableGrows(w.operations, ops);
    QuietRowKeepsParents(w, row, op);
    RowsKeepAuthority(w, ops);
    RowsKeepWorkers(w, ops);
  }

  lemma TableRow(ops: seq<Operation>, row: nat)
    requires Table(ops) && row < |ops|
    ensures GoodOperation(ops[row]) && ops[row].who.row == row
  {
  }

  lemma ManualCaseKeeps(w: World, row: nat, id: string, now: int)
    requires Inv(w)
    ensures Inv(OrElse(w, ManualCase(w, row, id, now)))
  {
    hide Table, Parents, Authority, Workers, GoodOperation, Grows, Snapshot;
    if row < |w.operations| {
      TableRow(w.operations, row);
      CaseGood(w.operations[row], id, now);
      if RegisterCase(w.operations[row], id, now).Ok? {
        CaseIsQuiet(w.operations[row], id, now);
        QuietRowKeeps(w, row, RegisterCase(w.operations[row], id, now).value);
      }
    }
  }

  lemma CaseIsQuiet(op: Operation, id: string, now: int)
    requires RegisterCase(op, id, now).Ok?
    ensures var next := RegisterCase(op, id, now).value;
      next.permits == op.permits && next.consumed == op.consumed && next.terminal == op.terminal
  {
  }

  lemma EndQueryKeeps(w: World, row: nat, fence: nat)
    requires Inv(w)
    ensures Inv(EndQuery(w, row, fence))
  {
    hide Table, Parents, Authority, Workers, GoodOperation, Grows;
    if row < |w.operations| {
      TableRow(w.operations, row);
      ClearClaimGood(w.operations[row], fence);
      QuietRowKeeps(w, row, ClearClaim(w.operations[row], fence));
    }
  }

  // ----- provider calls -----

  lemma SubmitCallKeeps(w: World, row: nat, dies: bool)
    requires Inv(w)
    ensures Inv(SubmitCall(w, row, dies))
  {
    hide Table, ParentOk, ReceiptOk;
    var v := SubmitCall(w, row, dies);
    if row in w.submitting {
      forall k | 0 <= k < |v.permits| ensures PermitOk(v, v.permits[k]) {
        assert PermitOk(w, w.permits[k]);
      }
      assert forall c :: c in v.calls <==> c in w.calls || (!dies && c == Submission(row));
    }
  }

  lemma QueryCallKeeps(w: World, row: nat, fence: nat, dies: bool)
    requires Inv(w)
    ensures Inv(QueryCall(w, row, fence, dies))
  {
    hide Table, ParentOk, ReceiptOk;
    var v := QueryCall(w, row, fence, dies);
    if (row, fence) in w.querying {
      forall k | 0 <= k < |v.permits| ensures PermitOk(v, v.permits[k]) {
        assert PermitOk(w, w.permits[k]);
      }
      assert forall c :: c in v.calls <==> c in w.calls || (!dies && c == Query(row, fence));
    }
  }

  // ----- calls counted on the parent -----

  lemma CallKeepsParent(ops: seq<Operation>, row: nat, op: Operation, parent: Workflow, query: bool)
    requires Table(ops) && ParentOk(ops, op.who.application.job, parent) && row < |ops| && GoodOperation(op)
             && Grows(ops[row], op)
    requires op.permits == ops[row].permits + (if query then 0 else 1)
    requires op.consumed.queryCalls == ops[row].consumed.queryCalls + (if query then 1 else 0) && CallsLeft(parent)
    ensures ParentOk(ops[row := op], op.who.application.job, CountCall(parent, query))
  {
    hide GoodOperation, Kept, ParentPlan, OperationsOf, StepsTrack, ReportsMatch, ListedError, Counted, Table, Total,
         Grows;
    var job, all := op.who.application.job, ops[row := op];
    RowGrows(ops, row, op);
    OperationsOfGrows(ops, all, job, parent);
    StepsTrackGrows(ops, all, job, parent);
    GrowsSameIdentity(ops[row], op);
    TotalOfRow(ops, row, op, job);
    CountCallKeeps(all, job, parent, query);
  }

  lemma GrowsSameIdentity(a: Operation, b: Operation)
    requires Grows(a, b)
    ensures b.who == a.who
  {
  }

  lemma CountCallReceipt(ops: seq<Operation>, job: string, parent: Workflow, query: bool, receipts: map<string,
                         ParentReceipt>)
    requires ReceiptOk(ops, job, parent, receipts)
    ensures ReceiptOk(ops, job, CountCall(parent, query), receipts)
  {
    hide ParentReceiptValid;
  }

  /** A row that makes one call more, counted on its parent. */
  lemma CallKeepsParents(w: World, row: nat, op: Operation, query: bool)
    requires Table(w.operations) && Parents(w) && row < |w.operations| && GoodOperation(op)
             && Grows(w.operations[row], op)
    requires op.permits == w.operations[row].permits + (if query then 0 else 1)
    requires op.consumed.queryCalls == w.operations[row].consumed.queryCalls + (if query then 1 else 0)
    requires op.terminal == w.operations[row].terminal
    requires op.who.application.job in w.parents && CallsLeft(w.parents[op.who.application.job])
    ensures var job := op.who.application.job;
      Parents(w.(operations := w.operations[row := op], parents := w.parents[job := CountCall(w.parents[job], query)]))
  {
    hide GoodOperation, ParentOk, ReceiptOk, Table, Grows, CountCall, CallsLeft;
    var job, ops := op.who.application.job, w.operations[row := op];
    GrowsSameIdentity(w.operations[row], op);
    forall j | j in w.parents
      ensures var p := if j == job then CountCall(w.parents[job], query) else w.parents[j];
              ParentOk(ops, j, p) && ReceiptOk(ops, j, p, w.receipts)
    {
      ReceiptApart(w.operations, row, op, j, w.parents[j], w.receipts);
      if j == job {
        CallKeepsParent(w.operations, row, op, w.parents[job], query);
        CountCallReceipt(ops, job, w.parents[job], query, w.receipts);
      } else {
        RowApart(w.operations, row, op, j, w.parents[j]);
      }
    }
  }

  lemma CountCallKeeps(ops: seq<Operation>, job: string, parent: Workflow, query: bool)
    requires Kept(parent) && OperationsOf(ops, job, parent) && StepsTrack(ops, job, parent) && Counted(parent)
    ensures var p := CountCall(parent, query);
            Kept(p) && OperationsOf(ops, job, p) && StepsTrack(ops, job, p) && Counted(p)
  {
    hide Kept, GoodOperation, FindStep, Counted;
    var p := CountCall(parent, query);
    CountCallCounted(parent, query);
    CountersApart(parent, p);
    assert forall s :: IsDispatch(p, s) == IsDispatch(parent, s);
    forall n | 0 <= n < |ops| && ops[n].who.application.job == job ensures OperationOf(ops[n], p) {
      assert OperationOf(ops[n], parent);
    }
  }

  // ----- submit -----

  lemma SubmitKeeps(w: World, row: nat, controller: Principal, dispatch: bool, now: int)
    requires Inv(w)
    ensures Inv(OrElse(w, Submit(w, row, controller, dispatch, now)))
  {
    hide Table, Parents, Authority, Workers, GoodOperation, Grows, Snapshot;
    if row < |w.operations| {
      var op := w.operations[row];
      TableRow(w.operations, row);
      if op.who.controller == controller && op.permits == 0 && PermitFault(w, op, controller, dispatch, now).None? {
        PermitGood(op, now);
        var next := Snapshot(Permit(op), now).value;
        PermitMoves(op, now);
        CallKeepsParents(w, row, next, false);
        RowGrows(w.operations, row, next);
        TableGrows(w.operations, w.operations[row := next]);
        SubmitKeepsAuthority(w, row, controller, dispatch, now);
        SubmitKeepsWorkers(w, row, controller, dispatch, now);
        var v, job := Submit(w, row, controller, dispatch, now).value, next.who.application.job;
        PartsApart(v, w.(operations := w.operations[row := next], parents :=
                         w.parents[job := CountCall(w.parents[job], false)]), v, v);
      }
    }
  }

  lemma PermitMoves(op: Operation, now: int)
    requires op.permits == 0 && Snapshot(Permit(op), now).Ok?
    ensures var next := Snapshot(Permit(op), now).value;
      && next.permits == 1 && next.who == op.who && next.consumed == op.consumed && next.terminal == op.terminal
         && next.issued == op.issued
  {
  }

  lemma SubmitKeepsAuthority(w: World, row: nat, controller: Principal, dispatch: bool, now: int)
    requires Authority(w) && row < |w.operations| && w.operations[row].permits == 0
             && w.operations[row].who.controller == controller
    requires PermitFault(w, w.operations[row], controller, dispatch, now).None?
             && Snapshot(Permit(w.operations[row]), now).Ok?
    ensures Authority(Submit(w, row, controller, dispatch, now).value)
  {
    hide Snapshot, PermitOk;
    var v := Submit(w, row, controller, dispatch, now).value;
    PermitMoves(w.operations[row], now);
    assert forall n | 0 <= n < |w.operations| && n != row :: v.operations[n] == w.operations[n];
    forall k | 0 <= k < |v.permits| ensures PermitOk(v, v.permits[k]) {
      if k < |w.permits| {
        OldPermitStays(w, v, row, w.permits[k]);
      } else {
        NewPermitCovered(w, row, controller, dispatch, now);
      }
    }
    forall n | 0 <= n < |v.operations| && v.operations[n].permits == 1
      ensures exists k :: 0 <= k < |v.permits| && v.permits[k].row == n
    {
      if n == row {
        assert v.permits[|w.permits|].row == n;
      } else {
        var k :| 0 <= k < |w.permits| && w.permits[k].row == n;
        assert v.permits[k].row == n;
      }
    }
    forall i | 0 <= i < |w.permits| ensures w.permits[i].row != row {
      PermitHasRow(w, w.permits[i]);
    }
  }

  lemma PermitHasRow(w: World, p: PermitRecord)
    requires PermitOk(w, p)
    ensures p.row < |w.operations| && w.operations[p.row].permits == 1
  {
  }

  lemma OldPermitStays(w: World, v: World, row: nat, p: PermitRecord)
    requires PermitOk(w, p) && row < |w.operations| && w.operations[row].permits == 0
             && |v.operations| == |w.operations|
    requires forall n | 0 <= n < |w.operations| && n != row :: v.operations[n] == w.operations[n]
    requires v.approvals == w.approvals && v.issuers == w.issuers
    ensures PermitOk(v, p)
  {
  }

  lemma NewPermitCovered(w: World, row: nat, controller: Principal, dispatch: bool, now: int)
    requires row < |w.operations| && w.operations[row].permits == 0 && w.operations[row].who.controller == controller
    requires PermitFault(w, w.operations[row], controller, dispatch, now).None?
             && Snapshot(Permit(w.operations[row]), now).Ok?
    ensures var v := Submit(w, row, controller, dispatch, now).value; PermitOk(v, v.permits[|w.permits|])
  {
    hide Snapshot, FreshAt;
    PermitMoves(w.operations[row], now);
  }

  lemma SubmitKeepsWorkers(w: World, row: nat, controller: Principal, dispatch: bool, now: int)
    requires Workers(w) && row < |w.operations| && w.operations[row].permits == 0
             && w.operations[row].who.controller == controller
    requires PermitFault(w, w.operations[row], controller, dispatch, now).None?
             && Snapshot(Permit(w.operations[row]), now).Ok?
    ensures Workers(Submit(w, row, controller, dispatch, now).value)
  {
    hide Snapshot, PermitFault;
    var v := Submit(w, row, controller, dispatch, now).value;
    PermitMoves(w.operations[row], now);
    assert forall n | 0 <= n < |w.operations| && n != row :: v.operations[n] == w.operations[n];
    forall r: nat, fence: nat | IssuedFence(w.operations, r, fence) ensures IssuedFence(v.operations, r, fence) {
    }
  }

  // ----- reconcile -----

  lemma ReserveMoves(op: Operation, timeoutSeconds: int, now: int)
    requires Allowance(op, timeoutSeconds) > 0 && Snapshot(Reserve(op, timeoutSeconds, now), now).Ok?
    ensures var next := Snapshot(Reserve(op, timeoutSeconds, now), now).value;
      && next.permits == op.permits && next.who == op.who && next.terminal == op.terminal
      && next.consumed.queryCalls == op.consumed.queryCalls + 1 && next.fence == op.fence + 1
         && |next.issued| == |op.issued| + 1
  {
    hide Allowance, Elapsed;
  }

  lemma ScheduleQueryKeeps(w: World, row: nat, next: Operation)
    requires Inv(w) && row < |w.operations| && GoodOperation(next) && Grows(w.operations[row], next)
    requires next.permits == w.operations[row].permits == 1 && next.terminal == w.operations[row].terminal
    requires next.consumed.queryCalls == w.operations[row].consumed.queryCalls + 1
    requires next.fence == w.operations[row].fence + 1 && |next.issued| == |w.operations[row].issued| + 1
    requires next.who.application.job in w.parents && CallsLeft(w.parents[next.who.application.job])
    ensures Inv(ScheduleQuery(w, row, next))
  {
    hide Table, Parents, Authority, Workers, GoodOperation, Grows;
    var ops := w.operations[row := next];
    CallKeepsParents(w, row, next, true);
    RowGrows(w.operations, row, next);
    TableGrows(w.operations, ops);
    RowsKeepAuthority(w, ops);
    RowsKeepWorkers(w, ops);
    TableRow(w.operations, row);
    FenceIsNext(w.operations[row]);
    QueryLeavesWorker(w, row, next);
    var job := next.who.application.job;
    PartsApart(ScheduleQuery(w, row, next),
               w.(operations := ops, parents := w.parents[job := CountCall(w.parents[job], true)]),
               w.(operations := ops), w.(operations := ops, querying := w.querying + {(row, next.fence)}));
  }

  lemma FenceIsNext(op: Operation)
    requires GoodOperation(op)
    ensures op.fence == op.permits + |op.issued|
  {
    hide Total;
  }

  /** The new claim's worker is the only one with its fence. */
  lemma QueryLeavesWorker(w: World, row: nat, next: Operation)
    requires row < |w.operations| && Workers(w) && Workers(w.(operations := w.operations[row := next]))
    requires next.fence == 2 + |w.operations[row].issued| && |next.issued| == |w.operations[row].issued| + 1
    ensures Workers(w.(operations := w.operations[row := next], querying := w.querying + {(row, next.fence)}))
  {
    assert !IssuedFence(w.operations, row, next.fence);
    assert Query(row, next.fence) !in w.calls;
  }

  /** Parents look at operations, parents and receipts only; permits at the registry; workers at calls. */
  lemma PartsApart(v: World, z: World, x: World, y: World)
    requires v.operations == z.operations && v.parents == z.parents && v.receipts == z.receipts && Parents(z)
    requires v.operations == x.operations && v.approvals == x.approvals && v.issuers == x.issuers
             && v.permits == x.permits && Authority(x)
    requires v.operations == y.operations && v.calls == y.calls && v.submitting == y.submitting
             && v.querying == y.querying && Workers(y)
    ensures Parents(v) && Authority(v) && Workers(v)
  {
    hide ParentOk, ReceiptOk;
    forall k | 0 <= k < |v.permits| ensures PermitOk(v, v.permits[k]) {
      assert PermitOk(x, x.permits[k]);
    }
  }

  lemma ReconcileKeeps(w: World, namespace: string, key: string, r: Recovery, supervisor: Principal, supported: bool,
                       timeoutSeconds: int, now: int)
    requires Inv(w)
    ensures Inv(OrElse(w, ReconcileRow(w, namespace, key, r, supervisor, supported, timeoutSeconds, now)))
  {
    hide Inv, GoodOperation, Grows, Snapshot, QueriesLeft, Reserve, Allowance, ScheduleQuery;
    var t := ReconcileRow(w, namespace, key, r, supervisor, supported, timeoutSeconds, now);
    KeysKeep(w);
    var noted := w.(reconciles := w.reconciles[Key(namespace, key) := ReconcileKey(r, supervisor)]);
    if t.Ok? && t.value != w && t.value != noted {
      var op := w.operations[r.row];
      assert Table(w.operations) by { InvTable(w); }
      TableRow(w.operations, r.row);
      ReserveGood(op, timeoutSeconds, now);
      ReserveMoves(op, timeoutSeconds, now);
      ScheduleQueryKeeps(noted, r.row, Snapshot(Reserve(op, timeoutSeconds, now), now).value);
    }
  }

  lemma InvTable(w: World)
    requires Inv(w)
    ensures Table(w.operations)
  {
  }

  /** The idempotency tables are no part of the invariant. */
  lemma KeysKeep(w: World)
    requires Inv(w)
    ensures forall k :: Inv(w.(reconciles := k))
    ensures forall k :: Inv(w.(activations := k))
  {
    hide Table, ParentOk, ReceiptOk;
  }

  // ----- new parents -----

  lemma CreateParentOk(ops: seq<Operation>, job: string, plan: Plan)
    requires ParentPlan(plan) && forall n | 0 <= n < |ops| :: ops[n].who.application.job != job
    ensures ParentOk(ops, job, Create(plan))
  {
    hide FindStep, Total, Scheduled, Logged, Counted;
    var p := Create(plan);
    CreateCounted(plan);
    CreateScheduled(plan);
    CreateLogged(plan);
    TotalZero(ops, CallsOf(job));
    TotalZero(ops, QueriesOf(job));
    assert forall s :: !HasOperation(ops, job, s);
  }

  lemma CreateParentKeeps(w: World, job: string, plan: Plan)
    requires Inv(w) && job !in w.parents && ParentPlan(plan)
    ensures Inv(w.(parents := w.parents[job := Create(plan)]))
  {
    hide Table, ParentOk, ReceiptOk, Create, ParentPlan;
    var v := w.(parents := w.parents[job := Create(plan)]);
    CreateParentOk(w.operations, job, plan);
    NewParentHasNoReceipt(w, job, plan);
    forall k | 0 <= k < |v.permits| ensures PermitOk(v, v.permits[k]) {
      assert PermitOk(w, w.permits[k]);
    }
  }

  lemma NewParentHasNoReceipt(w: World, job: string, plan: Plan)
    requires Parents(w) && job !in w.parents
    ensures ReceiptOk(w.operations, job, Create(plan), w.receipts)
  {
    hide ParentOk;
  }

  // ----- activation -----

  lemma ActivatedIsNew(who: Identity, now: int)
    ensures var t := Snapshot(NewOperation(who), now);
      && t.Ok? && GoodOperation(t.value) && t.value.who == who && t.value.permits == 0
         && t.value.consumed.queryCalls == 0
      && t.value.terminal.None? && t.value.outcome.Unobserved?
  {
    ActivationGood(who, now);
  }

  lemma TableAppend(ops: seq<Operation>, op: Operation)
    requires Table(ops) && GoodOperation(op) && op.who.row == |ops|
    requires forall n | 0 <= n < |ops| :: !SameSubject(ops[n], op) && !SameApproval(ops[n], op)
    requires forall n | 0 <= n < |ops| :: !HasStep(ops[n], op.who.application.job, op.who.application.step)
    ensures Table(ops + [op])
  {
    hide GoodOperation;
  }

  lemma ParentsAppend(ops: seq<Operation>, op: Operation, job: string, parent: Workflow)
    requires ParentOk(ops, job, parent) && op.who.application.job != job
    ensures ParentOk(ops + [op], job, parent)
  {
    hide FindStep, Total, Kept, GoodOperation, Receivable, Counted, IsDispatch;
    var all := ops + [op];
    TotalAppend(ops, op, CallsOf(job));
    TotalAppend(ops, op, QueriesOf(job));
    assert forall n | 0 <= n < |ops| :: all[n] == ops[n];
    forall s ensures HasOperation(ops, job, s) <==> HasOperation(all, job, s) {
      if n :| 0 <= n < |ops| && HasStep(ops[n], job, s) { assert HasStep(all[n], job, s); }
    }
  }

  /** The parent of a newly activated operation. */
  lemma ParentOpens(ops: seq<Operation>, op: Operation, parent: Workflow, step: PlanStep)
    requires ParentOk(ops, op.who.application.job, parent) && IsActive(parent)
    requires FindStep(parent.plan.steps, op.who.application.step) == Some(step) && step.kind.Dispatch?
             && step.external.Some?
    requires Binds(step.external.value, op.who.application) && step.external.value.profile == op.who.profile.digest
    requires op.who.application.planDigest == PlanDigest(parent.plan)
    requires ExternallyReady(parent, step) && GoodOperation(op) && op.permits == 0 && op.consumed.queryCalls == 0
    ensures ParentOk(ops + [op], op.who.application.job, OpenExternal(parent, step.id))
  {
    hide FindStep, Total, Kept, GoodOperation, ReportsMatch, ListedError, Counted;
    OpenCounted(parent, step.id);
    var job, all, p := op.who.application.job, ops + [op], OpenExternal(parent, step.id);
    OpenExternalKept(parent, step);
    TotalAppend(ops, op, CallsOf(job));
    TotalAppend(ops, op, QueriesOf(job));
    assert forall n | 0 <= n < |ops| :: all[n] == ops[n];
    assert forall s :: IsDispatch(p, s) == IsDispatch(parent, s);
    forall n | 0 <= n < |all| && all[n].who.application.job == job ensures OperationOf(all[n], p) {
      if n < |ops| { assert OperationOf(ops[n], parent); }
    }
    OpenTracks(ops, op, parent, step);
  }

  lemma OpenTracks(ops: seq<Operation>, op: Operation, parent: Workflow, step: PlanStep)
    requires StepsTrack(ops, op.who.application.job, parent) && step.id == op.who.application.step
             && step.id in parent.steps
    requires IsDispatch(parent, step.id) && parent.steps[step.id].state.StepPending?
    ensures StepsTrack(ops + [op], op.who.application.job, OpenExternal(parent, step.id))
  {
    hide FindStep;
    var job, all, p := op.who.application.job, ops + [op], OpenExternal(parent, step.id);
    assert forall n | 0 <= n < |ops| :: all[n] == ops[n];
    assert forall s :: IsDispatch(p, s) == IsDispatch(parent, s);
    assert HasStep(all[|ops|], job, step.id);
    forall s | s != step.id ensures HasOperation(ops, job, s) <==> HasOperation(all, job, s) {
      if n :| 0 <= n < |ops| && HasStep(ops[n], job, s) { assert HasStep(all[n], job, s); }
      if n :| 0 <= n < |all| && HasStep(all[n], job, s) { assert HasStep(ops[n], job, s); }
    }
    assert !HasOperation(ops, job, step.id);
    assert forall n | 0 <= n < |ops| :: !HasStep(ops[n], job, step.id);
  }

  lemma FreshStep(ops: seq<Operation>, job: string, parent: Workflow, step: PlanStep)
    requires StepsTrack(ops, job, parent) && step.id in parent.steps && parent.steps[step.id].state.StepPending?
             && IsDispatch(parent, step.id)
    ensures forall n | 0 <= n < |ops| :: !HasStep(ops[n], job, step.id)
  {
    assert !HasOperation(ops, job, step.id);
  }

  /** The world after a new operation. */
  lemma NewOperationKeeps(w: World, op: Operation, step: PlanStep)
    requires Inv(w) && op.who.application.job in w.parents && op.who.row == |w.operations| && GoodOperation(op)
    requires op.permits == 0 && op.consumed.queryCalls == 0 && op.terminal.None?
    requires FindBySubject(w.operations, op.who.application.namespace, op.who.application.subject).None?
    requires !exists o :: o in w.operations && HasApproval(o, op.who.application.namespace, op.who.application.approval)
    requires var parent := w.parents[op.who.application.job];
      && IsActive(parent) && ExternallyReady(parent, step)
      && FindStep(parent.plan.steps, op.who.application.step) == Some(step) && step.kind.Dispatch?
         && step.external.Some?
      && Binds(step.external.value, op.who.application) && step.external.value.profile == op.who.profile.digest
      && op.who.application.planDigest == PlanDigest(parent.plan)
    ensures var job := op.who.application.job;
      Inv(w.(operations := w.operations + [op], parents := w.parents[job := OpenExternal(w.parents[job], step.id)]))
  {
    hide Authority, Workers, ParentOk, GoodOperation, FindStep, FindBySubject, Table, OpenExternal;
    var job := op.who.application.job;
    var parent, ops := w.parents[job], w.operations + [op];
    var v := w.(operations := ops, parents := w.parents[job := OpenExternal(parent, step.id)]);
    assert ParentOk(w.operations, job, parent);
    assert IsDispatch(parent, step.id)
           && StepsTrack(w.operations, job, parent) by { ParentTracks(w.operations, job, parent); }
    FreshStep(w.operations, job, parent, step);
    TableAppend(w.operations, op);
    ParentOpens(w.operations, op, parent, step);
    forall j | j in v.parents ensures ParentOk(ops, j, v.parents[j]) && ReceiptOk(ops, j, v.parents[j], v.receipts) {
      assert ReceiptOk(w.operations, j, w.parents[j], w.receipts);
      if j != job {
        ParentsAppend(w.operations, op, j, w.parents[j]);
      } else {
        ActiveHasNoReceipt(w.operations, job, parent);
        OpenKeepsReceipt(parent, step.id);
      }
    }
    AppendKeepsAuthority(w, v, op);
    AppendKeepsWorkers(w, v, op);
  }

  lemma ParentTracks(ops: seq<Operation>, job: string, parent: Workflow)
    requires ParentOk(ops, job, parent)
    ensures StepsTrack(ops, job, parent)
  {
  }

  lemma ActiveHasNoReceipt(ops: seq<Operation>, job: string, parent: Workflow)
    requires ParentOk(ops, job, parent) && IsActive(parent)
    ensures parent.receipt.None?
  {
  }

  lemma OpenKeepsReceipt(parent: Workflow, step: StepId)
    requires step in parent.steps
    ensures OpenExternal(parent, step).receipt == parent.receipt && OpenExternal(parent, step).plan == parent.plan
  {
  }

  lemma AppendKeepsAuthority(w: World, v: World, op: Operation)
    requires Authority(w) && v.operations == w.operations + [op] && op.permits == 0
    requires v.approvals == w.approvals && v.issuers == w.issuers && v.permits == w.permits
    ensures Authority(v)
  {
    assert forall n | 0 <= n < |w.operations| :: v.operations[n] == w.operations[n];
    forall k | 0 <= k < |v.permits| ensures PermitOk(v, v.permits[k]) {
      assert PermitOk(w, w.permits[k]);
    }
  }

  lemma AppendKeepsWorkers(w: World, v: World, op: Operation)
    requires Workers(w) && v.operations == w.operations + [op]
    requires v.calls == w.calls && v.submitting == w.submitting && v.querying == w.querying
    ensures Workers(v)
  {
    assert forall n | 0 <= n < |w.operations| :: v.operations[n] == w.operations[n];
    assert forall row: nat, fence: nat | IssuedFence(w.operations, row, fence) :: IssuedFence(v.operations, row, fence);
  }

  lemma ActivationKeeps(w: World, app: Application, key: string, controller: Principal, dispatch: bool, now: int)
    requires Inv(w)
    ensures var t := ActivateOperation(w, app, key, controller, dispatch, now); t.Ok? ==> Inv(t.value.0)
  {
    hide Inv, GoodOperation, Snapshot, FindStep, FindBySubject, ApprovalFault, NoRoom, OpenExternal, NewOperation;
    KeysKeep(w);
    if FindBySubject(w.operations, app.namespace, app.subject).None?
        && ActivationFault(w, app, controller, dispatch, now).None?
       && Key(app.namespace, key) !in w.activations {
      ActivationNames(w, app, controller, dispatch, now);
      var who := Identity(|w.operations|, app, controller, w.subjects[Key(app.namespace, app.subject)].profile, now);
      ActivatedIsNew(who, now);
      var op := Snapshot(NewOperation(who), now).value;
      var step := FindStep(w.parents[app.job].plan.steps, app.step).value;
      NewOperationKeeps(w, op, step);
      KeysKeep(w.(operations := w.operations + [op], parents :=
                  w.parents[app.job := OpenExternal(w.parents[app.job], step.id)]));
    }
  }

  /** What an activation that passes has found. */
  lemma ActivationNames(w: World, app: Application, controller: Principal, dispatch: bool, now: int)
    requires ActivationFault(w, app, controller, dispatch, now).None?
    ensures app.job in w.parents && Key(app.namespace, app.subject) in w.subjects
    ensures var parent := w.parents[app.job];
      var found := FindStep(parent.plan.steps, app.step);
      && IsActive(parent) && found.Some? && found.value.id == app.step && ExternallyReady(parent, found.value)
      && found.value.kind.Dispatch? && found.value.external.Some? && Binds(found.value.external.value, app)
      && found.value.external.value.profile == w.subjects[Key(app.namespace, app.subject)].profile.digest
      && app.planDigest == PlanDigest(parent.plan)
    ensures !exists o :: o in w.operations && HasApproval(o, app.namespace, app.approval)
  {
    hide FindStep, NoRoom;
  }
}
