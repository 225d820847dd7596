/** The external-operation service as its requests work on the tables: each method is one transaction, committed or
    rolled back. */
module ExternalTables {
  import opened Wrappers
  import opened DependencyGraph
  import opened RuntimeWorkflow
  import opened ExternalOperation
  import opened ExternalReceipts
  import opened ExternalWorld
  import opened ExternalService

  class OperationTables {
    var parents: map<string, Workflow>
    var receipts: map<string, ParentReceipt>
    var issuers: map<Key, Issuer>
    var subjects: map<Key, Subject>
    var approvals: map<Key, Approval>
    var operations: seq<Operation>
    var activations: map<Key, ActivationKey>
    var reconciles: map<Key, ReconcileKey>
    // Workers between a commit and a provider call, and the histories of permits and calls.
    var submitting: set<nat>
    var querying: set<(nat, nat)>
    var permits: seq<PermitRecord>
    var calls: seq<ProviderCall>

    function View(): World
      reads this
    {
      World(parents, receipts, issuers, subjects, approvals, operations, activations, reconciles, permits, submitting,
            querying, calls)
    }

    constructor ()
      ensures View() == EMPTY
    {
      parents, receipts, issuers, subjects, approvals := map[], map[], map[], map[], map[];
      operations, activations, reconciles := [], map[], map[];
      submitting, querying, permits, calls := {}, {}, [], [];
    }

    // ----- authority -----

    /** `issuer_freshness`. */
    method AssertIssuerFreshness(key: Key, epoch: nat, f: Freshness, now: int) returns (fault: Option<OpError>)
      modifies this`issuers
      ensures match AssertFreshness(old(View()), key, epoch, f, now)
        case Ok(v) => fault.None? && View() == v
        case Err(e) => fault == Some(e) && View() == old(View())
    {
      var state := if key in issuers then issuers[key] else Issuer(0, None);
      if epoch < state.epoch {
        return Some(AuthorityForbidden);
      }
      if !FreshAt(f, now) || (state.freshness.Some? && f.observedAt < state.freshness.value.observedAt) {
        return Some(FreshnessUnavailable);
      }
      state := state.(epoch := epoch);
      state := state.(freshness := Some(f));
      issuers := issuers[key := state];
      fault := None;
    }

    /** `authorization_revoke`. */
    method RevokeAuthorization(approval: Key, issuer: string, epoch: nat) returns (fault: Option<OpError>)
      modifies this`issuers
      ensures match Revoke(old(View()), approval, issuer, epoch)
        case Ok(v) => fault.None? && View() == v
        case Err(e) => fault == Some(e) && View() == old(View())
    {
      if approval !in approvals {
        return Some(RecordNotFound);
      }
      if approvals[approval].issuer != issuer {
        return Some(AuthorityForbidden);
      }
      var key := Key(approval.namespace, issuer);
      var state := if key in issuers then issuers[key] else Issuer(0, None);
      if epoch <= state.epoch {
        return Some(AuthorizationRevoked);
      }
      issuers := issuers[key := state.(epoch := epoch)];
      fault := None;
    }

    // ----- activation and submission -----

    /** The step and counters of a parent whose external step starts. */
    method StartStep(job: string, step: StepId)
      requires job in parents && step in parents[job].steps
      modifies this`parents
      ensures parents == old(parents)[job := OpenExternal(old(parents)[job], step)]
    {
      var parent := parents[job];
      var k := parent.counters;
      k := k.(externalOperations := k.externalOperations + 1);
      k := k.(dispatchAttempts := k.dispatchAttempts + 1);
      k := k.(activeDispatches := k.activeDispatches + 1);
      k := k.(activeSteps := k.activeSteps + 1);
      parent := parent.(steps := parent.steps[step := StepRow(StepRunning, parent.steps[step].attempts + 1)]);
      parents := parents[job := parent.(state := Running, counters := k)];
    }

    /** The row of a new operation, its idempotency key, and its parent's rows. */
    method InsertOperation(app: Application, idempotency: Key, controller: Principal, now: int)
        returns (r: Result<nat, OpError>)
      requires app.job in parents && app.step in parents[app.job].steps && Key(app.namespace, app.subject) in subjects
      modifies this`operations, this`activations, this`parents
      ensures match ActivatedOperation(old(View()), app, controller, now)
        case Ok(op) =>
          && r == Ok(|old(operations)|) && operations == old(operations) + [op]
          && activations == old(activations)[idempotency := ActivationKey(app, controller, |old(operations)|)]
          && parents == old(parents)[app.job := OpenExternal(old(parents)[app.job], app.step)]
        case Err(e) => r == Err(e) && View() == old(View())
    {
      hide Snapshot, OpenExternal;
      var row := |operations|;
      var record := new OperationRecord(NewOperation(Identity(row, app, controller,
                                                              subjects[Key(app.namespace, app.subject)].profile, now)));
      var fault := record.TakeSnapshot(now);
      if fault.Some? {
        return Err(fault.value);
      }
      operations := operations + [record.View()];
      activations := activations[idempotency := ActivationKey(app, controller, row)];
      StartStep(app.job, app.step);
      r := Ok(row);
    }

    /** `activate`. */
    method Activate(app: Application, key: string, controller: Principal, dispatch: bool, now: int)
        returns (r: Result<nat, OpError>)
      modifies this
      ensures match ActivateOperation(old(View()), app, key, controller, dispatch, now)
        case Ok(v) => r == Ok(v.1) && View() == v.0
        case Err(e) => r == Err(e) && View() == old(View())
    {
      hide ActivationFault, ActivatedOperation, FindBySubject, OpenExternal;
      var idempotency := Key(app.namespace, key);
      if idempotency in activations {
        var known := activations[idempotency];
        return if known.application == app
            && known.controller == controller then Ok(known.row) else Err(IdempotencyConflict);
      }
      var bound := FindBySubject(operations, app.namespace, app.subject);
      if bound.Some? {
        var who := operations[bound.value].who;
        if who.application != app || who.controller != controller {
          return Err(SubjectAlreadyBound);
        }
        activations := activations[idempotency := ActivationKey(app, controller, bound.value)];
        return Ok(bound.value);
      }
      var fault := ActivationFault(View(), app, controller, dispatch, now);
      if fault.Some? {
        return Err(fault.value);
      }
      ActivationFinds(View(), app, controller, dispatch, now);
      r := InsertOperation(app, idempotency, controller, now);
    }

    /** One external call more, and one query if it is one. */
    method ChargeCall(job: string, query: bool)
      requires job in parents
      modifies this`parents
      ensures parents == old(parents)[job := CountCall(old(parents)[job], query)]
    {
      var k := parents[job].counters;
      k := k.(externalCalls := k.externalCalls + 1);
      if query {
        k := k.(recoveryQueryCalls := k.recoveryQueryCalls + 1);
      }
      parents := parents[job := parents[job].(counters := k)];
    }

    /** The writes of `submit`. */
    method PermitSubmission(row: nat, now: int) returns (fault: Option<OpError>)
      requires row < |operations|
      requires var app := operations[row].who.application;
        app.job in parents && Key(app.namespace, app.approval) in approvals && Key(app.namespace, app.issuer) in issuers
      modifies this
      ensures var op := old(operations)[row];
        var app := op.who.application;
        match Snapshot(Permit(op), now)
        case Err(e) => fault == Some(e) && View() == old(View())
        case Ok(next) =>
          && fault.None?
          && View() == old(View()).(
               operations := old(operations)[row := next], submitting := old(submitting) + {row},
               parents := old(parents)[app.job := CountCall(old(parents)[app.job], false)],
               permits := old(permits) + [PermitRecord(row, old(approvals)[Key(app.namespace, app.approval)],
                                                       old(issuers)[Key(app.namespace, app.issuer)], now)])
    {
      hide Snapshot, CountCall;
      var app := operations[row].who.application;
      var record := new OperationRecord(operations[row]);
      fault := record.IssuePermit(now);
      if fault.Some? {
        return;
      }
      ChargeCall(app.job, false);
      operations := operations[row := record.View()];
      permits := permits
          + [PermitRecord(row, approvals[Key(app.namespace, app.approval)], issuers[Key(app.namespace, app.issuer)],
                          now)];
      submitting := submitting + {row};
    }

    /** `submit` up to its commit; `permitted` says that this request issued the permit and goes on to call the
        provider. */
    method SubmitOperation(row: nat, controller: Principal, dispatch: bool, now: int) returns (r: Result<bool, OpError>)
      modifies this
      ensures match Submit(old(View()), row, controller, dispatch, now)
        case Ok(v) => r.Ok? && View() == v
            && (r.value <==> v.submitting != old(submitting) || v.permits != old(permits))
        case Err(e) => r == Err(e) && View() == old(View())
    {
      hide PermitFault, Snapshot, CountCall;
      if row >= |operations| {
        return Err(RecordNotFound);
      }
      var op := operations[row];
      if op.who.controller != controller {
        return Err(AuthorityForbidden);
      }
      if op.permits > 0 {
        return Ok(false);
      }
      var app := op.who.application;
      var fault := PermitFault(View(), op, controller, dispatch, now);
      if fault.Some? {
        return Err(fault.value);
      }
      PermitFinds(View(), op, controller, dispatch, now);
      fault := PermitSubmission(row, now);
      r := if fault.Some? then Err(fault.value) else Ok(true);
    }

    /** What follows the commit of `submit`: the provider call, unless the worker dies first. */
    method CallProvider(row: nat, dies: bool)
      modifies this`submitting, this`calls
      ensures View() == SubmitCall(old(View()), row, dies)
    {
      if row in submitting {
        submitting := submitting - {row};
        if !dies {
          calls := calls + [Submission(row)];
        }
      }
    }

    // ----- observation -----

    /** The rows of a resolved operation's parent, as `_advance_parent` changes them one after another. */
    method AdvanceRows(job: string, step: StepId, succeeded: bool)
      requires job in parents && step in parents[job].steps
      modifies this`parents
      ensures parents == old(parents)[job := Advance(old(parents)[job], step, succeeded)]
    {
      var parent := parents[job];
      if parent.steps[step].state.StepRunning? {
        var t := if succeeded then Succeeded else Unsuccessful(Failed, "EXTERNAL_OUTCOME_UNRESOLVED");
        var k := parent.counters;
        k := k.(activeSteps := k.activeSteps - 1);
        k := k.(activeDispatches := k.activeDispatches - 1);
        parent := parent.(steps := parent.steps[step := parent.steps[step].(state := StepDone(t))]);
        parent := parent.(counters := k, successes := parent.successes + if succeeded then [step] else []);
      }
      if !succeeded {
        parent := parent.(state := Stopped(Failed), error := Some(ExternalOutcomeUnresolved));
      } else if AllSucceeded(parent.steps) {
        parent := parent.(state := Completed, error := None);
      }
      parents := parents[job := parent];
    }

    /** The end of a parent whose receipt has just been frozen: the receipt is validated and attached, and only then
        final. */
    method SettleParent(job: string, v: Workflow, now: int) returns (fault: Option<OpError>)
      requires job in parents
      modifies this
      ensures match Settle(old(View()), job, v, now)
        case Ok(w) => fault.None? && View() == w
        case Err(e) => fault == Some(e) && View() == old(View())
    {
      hide AttachAll, ParentReceiptValid, OperationRows, UnallocatedRows;
      if parents[job].receipt.Some? || v.receipt.None? {
        parents := parents[job := v];
        return None;
      }
      var rows := ParentStepReceipts(operations, job, v);
      var r := ParentReceipt(job, v.receipt.value, rows);
      assert r == ParentReceiptOf(operations, job, v);
      var valid := ValidateParentReceipt(v.plan, r);
      if !valid {
        return Some(OperationBindingMismatch);
      }
      var attached := AttachParentTerminal(operations, job, r, now);
      if attached.Err? {
        return Some(attached.error);
      }
      operations := attached.value;
      parents, receipts := parents[job := v], receipts[job := r];
      fault := None;
    }

    /** A claim, cancel or reconcile request on a parent, and the end it may bring. */
    method ServeClaim(job: string, action: Action, now: int) returns (fault: Option<OpError>)
      requires ParentsPlanned(View())
      modifies this
      ensures match ClaimAction(old(View()), job, action, now)
        case Ok(w) => fault.None? && View() == w
        case Err(e) => fault == Some(e) && View() == old(View())
    {
      hide CompletionReady, Settle, RuntimeWorkflow.Step;
      if job !in parents {
        return Some(RecordNotFound);
      }
      var parent := parents[job];
      var ready := ParentCompletionReady(operations, job, parent.plan);
      fault := SettleParent(job, RuntimeWorkflow.Step(parent, action, ready), now);
    }

    /** `_advance_parent`, with the receipt it freezes. */
    method AdvanceAndSettle(op: Operation, now: int) returns (fault: Option<OpError>)
      requires op.who.application.job in parents && op.who.application.step in parents[op.who.application.job].steps
      modifies this
      ensures var job := op.who.application.job;
        match Settle(old(View()), job,
                     AdvanceParent(old(parents)[job], op,
                                   CompletionReady(old(operations), job, old(parents)[job].plan)), now)
        case Ok(w) => fault.None? && View() == w
        case Err(e) => fault == Some(e) && View() == old(View())
    {
      hide CompletionReady, Settle, Advance, Freeze;
      var job, step := op.who.application.job, op.who.application.step;
      var before := parents;
      var ready := ParentCompletionReady(operations, job, parents[job].plan);
      if !IsActive(parents[job]) || !Confirmed(op.outcome) || op.reconciliation {
        fault := SettleParent(job, parents[job], now);
        return;
      }
      AdvanceRows(job, step, op.outcome.ConfirmedSucceeded?);
      var v := parents[job];
      if !IsActive(v) {
        v := Freeze(v, ready);
      }
      parents := before;
      fault := SettleParent(job, v, now);
    }

    /** `observe`. */
    method ObserveOperation(row: nat, o: Observation, facts: Facts, through: Option<QueryClaim>, now: int)
        returns (fault: Option<OpError>)
      modifies this
      ensures match ObserveRow(old(View()), row, o, facts, through, now)
        case Ok(w) => fault.None? && View() == w
        case Err(e) => fault == Some(e) && View() == old(View())
    {
      hide Observe, Settle, AdvanceParent, CompletionReady;
      if row >= |operations| {
        return Some(StrayFault(o, facts));
      }
      var before := operations;
      var record := new OperationRecord(operations[row]);
      fault := record.ObserveRecord(o, facts, through, now);
      if fault.Some? {
        return;
      }
      var op := record.View();
      if op == operations[row] {
        return None;
      }
      var job := op.who.application.job;
      if job !in parents || op.who.application.step !in parents[job].steps {
        return Some(RecordNotFound);
      }
      operations := operations[row := op];
      fault := AdvanceAndSettle(op, now);
      if fault.Some? {
        operations := before;
      }
    }

    /** `register_manual_case`. */
    method RegisterManualCase(row: nat, id: string, now: int) returns (fault: Option<OpError>)
      modifies this`operations
      ensures match ManualCase(old(View()), row, id, now)
        case Ok(w) => fault.None? && View() == w
        case Err(e) => fault == Some(e) && View() == old(View())
    {
      hide Snapshot;
      if row >= |operations| {
        return Some(RecordNotFound);
      }
      var op := operations[row];
      if op.cases != [] {
        return if op.cases[0].id == id then None else Some(RecoveryBudgetExhausted);
      }
      var record := new OperationRecord(op);
      record.cases := record.cases + [Case(id, 0, 0)];
      assert record.View() == op.(cases := [Case(id, 0, 0)]);
      fault := record.TakeSnapshot(now);
      if fault.None? {
        operations := operations[row := record.View()];
      }
    }

    // ----- recovery -----

    /** The writes of `reconcile` for a query to be sent. */
    method ReserveCall(row: nat, timeoutSeconds: int, now: int) returns (fault: Option<OpError>)
      requires row < |operations| && operations[row].who.application.job in parents
               && Allowance(operations[row], timeoutSeconds) > 0
      modifies this
      ensures match Snapshot(Reserve(old(operations)[row], timeoutSeconds, now), now)
        case Err(e) => fault == Some(e) && View() == old(View())
        case Ok(next) =>
          next.who == old(operations)[row].who && fault.None? && View() == ScheduleQuery(old(View()), row, next)
    {
      hide Snapshot, CountCall;
      var op := operations[row];
      var record := new OperationRecord(op);
      fault := record.ReserveQuery(timeoutSeconds, now);
      if fault.Some? {
        return;
      }
      ReserveKeepsIdentity(op, timeoutSeconds, now);
      ChargeCall(op.who.application.job, true);
      operations := operations[row := record.View()];
      querying := querying + {(row, record.fence)};
    }

    /** `reconcile` up to its first commit; the result says whether a query is to be sent. */
    method ReconcileOperation(namespace: string, key: string, r: Recovery, supervisor: Principal, supported: bool,
                              timeoutSeconds: int, now: int)
      returns (t: Result<bool, OpError>)
      modifies this
      ensures match ReconcileRow(old(View()), namespace, key, r, supervisor, supported, timeoutSeconds, now)
        case Ok(w) => t.Ok? && View() == w && (!t.value ==> w.querying == old(querying))
        case Err(e) => t == Err(e) && View() == old(View())
    {
      hide Snapshot, QueryFault, QueriesLeft, CountCall, Allowance, Reserve;
      var idempotency := Key(namespace, key);
      var request := ReconcileKey(r, supervisor);
      if idempotency in reconciles {
        return if reconciles[idempotency] == request then Ok(false) else Err(IdempotencyConflict);
      }
      if r.row >= |operations| {
        return Err(RecordNotFound);
      }
      var op := operations[r.row];
      var app := op.who.application;
      if r.operation != app.operation || r.profile != op.who.profile.digest {
        return Err(OperationBindingMismatch);
      }
      if r.expectedSequence != op.sequence {
        return Err(StaleExecutionClaim);
      }
      if !op.who.profile.manualOnly && !QueriesLeft(op, now) {
        return Err(RecoveryBudgetExhausted);
      }
      if Confirmed(op.outcome) && !op.reconciliation {
        return Ok(false);
      }
      if op.permits != 1 {
        return Err(StaleExecutionClaim);
      }
      if op.who.profile.manualOnly {
        reconciles := reconciles[idempotency := request];
        return Ok(false);
      }
      if app.job !in parents {
        return Err(RecordNotFound);
      }
      var fault := QueryFault(op, supported, CallsLeft(parents[app.job]), timeoutSeconds, now);
      if fault.Some? {
        return Err(fault.value);
      }
      QueryAllowed(op, supported, CallsLeft(parents[app.job]), timeoutSeconds, now);
      fault := ReserveCall(r.row, timeoutSeconds, now);
      if fault.Some? {
        return Err(fault.value);
      }
      reconciles := reconciles[idempotency := request];
      t := Ok(true);
    }

    /** The last transaction of `reconcile`. */
    method ClearQuery(row: nat, fence: nat)
      modifies this`operations
      ensures View() == EndQuery(old(View()), row, fence)
    {
      if row < |operations| {
        var op := operations[row];
        if op.claim.Some? && op.claim.value.fence == fence {
          op := op.(claim := None);
        }
        operations := operations[row := op];
      }
    }
  }

  // ----- what the checks of a request have found -----

  lemma ActivationFinds(w: World, app: Application, controller: Principal, dispatch: bool, now: int)
    requires ActivationFault(w, app, controller, dispatch, now).None?
    ensures app.job in w.parents && app.step in w.parents[app.job].steps
            && Key(app.namespace, app.subject) in w.subjects
  {
    hide NoRoom, IsActive, FreshAt;
  }

  lemma PermitFinds(w: World, op: Operation, controller: Principal, dispatch: bool, now: int)
    requires PermitFault(w, op, controller, dispatch, now).None?
    ensures var app := op.who.application;
      app.job in w.parents && Key(app.namespace, app.approval) in w.approvals
          && Key(app.namespace, app.issuer) in w.issuers
  {
  }
}
