/** The external-operation service: its tables, its workers between transactions, and the parents it shares with
    claims. */
module ExternalWorld {
  import opened Wrappers
  import opened DependencyGraph
  import opened RuntimeWorkflow
  import opened WorkflowOutcomes
  import opened WorkflowPlan
  import opened WorkflowRuns
  import opened ExternalOperation

  // ----- tables -----

  /** Records, issuers and idempotency keys live in the namespace of an authority and a tenant. */
  datatype Key = Key(namespace: string, id: string)

  datatype Subject = Subject(operation: string, policy: string, profile: Profile)

  datatype Approval = Approval(
    subject: string, operation: string, issuer: string, controller: string, policy: string, epoch: nat, issuedAt: int,
        expiresAt: int)

  datatype Freshness = Freshness(observedAt: int, validUntil: int)

  datatype Issuer = Issuer(epoch: nat, freshness: Option<Freshness>)

  datatype ActivationKey = ActivationKey(application: Application, controller: Principal, row: nat)

  datatype Recovery = Recovery(row: nat, operation: string, profile: string, expectedSequence: nat)

  datatype ReconcileKey = ReconcileKey(recovery: Recovery, supervisor: Principal)

  /** What a submit permit was issued on. */
  datatype PermitRecord = PermitRecord(row: nat, approval: Approval, issuer: Issuer, now: int)

  datatype ProviderCall = Submission(row: nat) | Query(row: nat, fence: nat)

  /** `permits` and `calls` are histories; `submitting` and `querying` are the workers between a commit and a provider
      call. */
  datatype World = World(
    parents: map<string, Workflow>, receipts: map<string, ParentReceipt>,
    issuers: map<Key, Issuer>, subjects: map<Key, Subject>, approvals: map<Key, Approval>,
    operations: seq<Operation>, activations: map<Key, ActivationKey>, reconciles: map<Key, ReconcileKey>,
    permits: seq<PermitRecord>, submitting: set<nat>, querying: set<(nat, nat)>, calls: seq<ProviderCall>)

  // ----- registration -----

  const MAX_FRESHNESS := 30000

  function IssuerState(w: World, key: Key): Issuer {
    if key in w.issuers then w.issuers[key] else Issuer(0, None)
  }

  /** `issuer_freshness`: a window of at most thirty seconds around now, never older than the last. */
  function AssertFreshness(w: World, key: Key, epoch: nat, f: Freshness, now: int): Result<World, OpError> {
    var state := IssuerState(w, key);
    if epoch < state.epoch then Err(AuthorityForbidden)
    else if !(f.observedAt <= now < f.validUntil && 0 < f.validUntil - f.observedAt <= MAX_FRESHNESS)
        then Err(FreshnessUnavailable)
    else if state.freshness.Some? && f.observedAt < state.freshness.value.observedAt then Err(FreshnessUnavailable)
    else Ok(w.(issuers := w.issuers[key := Issuer(epoch, Some(f))]))
  }

  /** `authorization_revoke`: the issuer moves to a later epoch. */
  function Revoke(w: World, approval: Key, issuer: string, epoch: nat): Result<World, OpError> {
    if approval !in w.approvals then Err(RecordNotFound)
    else if w.approvals[approval].issuer != issuer then Err(AuthorityForbidden)
    else
      var key := Key(approval.namespace, issuer);
      var state := IssuerState(w, key);
      if epoch <= state.epoch then Err(AuthorizationRevoked)
      else Ok(w.(issuers := w.issuers[key := state.(epoch := epoch)]))
  }

  /** `subject_register`: records never change. */
  function RegisterSubject(w: World, key: Key, s: Subject): Result<World, OpError> {
    if key in w.subjects then (if w.subjects[key] == s then Ok(w) else Err(IdempotencyConflict))
    else Ok(w.(subjects := w.subjects[key := s]))
  }

  /** `authorization_register`. */
  function RegisterApproval(w: World, key: Key, a: Approval, now: int): Result<World, OpError> {
    var subject := Key(key.namespace, a.subject);
    if subject !in w.subjects then Err(RecordNotFound)
    else if !(a.issuedAt <= now < a.expiresAt) then Err(AuthorizationExpired)
    else if a.epoch != IssuerState(w, Key(key.namespace, a.issuer)).epoch then Err(AuthorizationRevoked)
    else if a.operation != w.subjects[subject].operation
        || a.policy != w.subjects[subject].policy then Err(OperationBindingMismatch)
    else if key in w.approvals then (if w.approvals[key] == a then Ok(w) else Err(IdempotencyConflict))
    else Ok(w.(approvals := w.approvals[key := a]))
  }

  // ----- approvals -----

  /** `_approval_context` finds all its records. */
  predicate Documented(w: World, app: Application) {
    && Key(app.namespace, app.approval) in w.approvals && Key(app.namespace, app.subject) in w.subjects
    && Key(app.namespace, app.issuer) in w.issuers
  }

  /** `engine_activation` past the idempotency checks: why an approval does not carry a request now, if it does not;
      `planned` says that the request names the plan of its parent. */
  function ApprovalFault(w: World, app: Application, controller: Principal, planned: bool, now: int): Option<OpError> {
    if !Documented(w, app) then Some(RecordNotFound)
    else
      var a, s, i := w.approvals[Key(app.namespace, app.approval)], w.subjects[Key(app.namespace, app.subject)],
          w.issuers[Key(app.namespace, app.issuer)];
      if app.subject != a.subject || app.operation != a.operation || a.operation != s.operation
          || app.issuer != a.issuer then
        Some(OperationBindingMismatch)
      else if a.controller != controller.name then Some(AuthorityForbidden)
      else if a.policy != s.policy || !planned then Some(OperationBindingMismatch)
      else if !(a.issuedAt <= now < a.expiresAt) then Some(AuthorizationExpired)
      else if a.epoch != i.epoch then Some(AuthorizationRevoked)
      else if i.freshness.None? || !FreshAt(i.freshness.value, now) then Some(FreshnessUnavailable)
      else None
  }

  predicate FreshAt(f: Freshness, now: int) {
    f.observedAt <= now < f.validUntil && 0 < f.validUntil - f.observedAt <= MAX_FRESHNESS
  }

  // ----- activation -----

  /** The rows of the operations table with a given subject, approval or step; each column is unique. */
  predicate HasSubject(op: Operation, namespace: string, subject: string) {
    op.who.application.namespace == namespace && op.who.application.subject == subject
  }

  predicate HasApproval(op: Operation, namespace: string, approval: string) {
    op.who.application.namespace == namespace && op.who.application.approval == approval
  }

  predicate HasStep(op: Operation, job: string, step: StepId) {
    op.who.application.job == job && op.who.application.step == step
  }

  function FindBySubject(ops: seq<Operation>, namespace: string, subject: string): (r: Option<nat>)
    ensures r.Some? ==> r.value < |ops| && HasSubject(ops[r.value], namespace, subject)
    ensures r.None? ==> forall n | 0 <= n < |ops| :: !HasSubject(ops[n], namespace, subject)
  {
    if ops == [] then None
    else
      var last := |ops| - 1;
      if HasSubject(ops[last], namespace, subject) then Some(last) else FindBySubject(ops[..last], namespace, subject)
  }

  function FindByStep(ops: seq<Operation>, job: string, step: StepId): (r: Option<nat>)
    ensures r.Some? ==> r.value < |ops| && HasStep(ops[r.value], job, step)
    ensures r.None? ==> forall n | 0 <= n < |ops| :: !HasStep(ops[n], job, step)
  {
    if ops == [] then None
    else
      var last := |ops| - 1;
      if HasStep(ops[last], job, step) then Some(last) else FindByStep(ops[..last], job, step)
  }

  /** The fields an application shares with the binding of its step. */
  predicate Binds(b: ExternalBinding, app: Application) {
    && b.namespace == app.namespace && b.subject == app.subject && b.operation == app.operation
    && b.approval == app.approval && b.issuer == app.issuer
  }

  /** Why an activation is refused, if it is; `dispatch` says that the frozen dispatch policy, its decision and
      payload check out. */
  function ActivationFault(w: World, app: Application, controller: Principal, dispatch: bool,
                           now: int): Option<OpError> {
    if !Documented(w, app) then Some(RecordNotFound)
    else if app.job !in w.parents || w.parents[app.job].plan.version != 3 then Some(ParentNotReady)
    else
      var parent := w.parents[app.job];
      match FindStep(parent.plan.steps, app.step)
      case None => Some(OperationBindingMismatch)
      case Some(step) =>
        if step.external.None? || !step.kind.Dispatch?
            || !Binds(step.external.value, app) then Some(OperationBindingMismatch)
        else if exists op ::
                  op in w.operations && HasApproval(op, app.namespace, app.approval) then Some(AuthorizationAlreadyUsed)
        else if !IsActive(parent) || !ExternallyReady(parent, step) then Some(ParentNotReady)
        else if ApprovalFault(w, app, controller, app.planDigest == PlanDigest(parent.plan), now).Some? then
          ApprovalFault(w, app, controller, app.planDigest == PlanDigest(parent.plan), now)
        else if !dispatch then Some(ParentNotReady)
        else if w.subjects[Key(app.namespace, app.subject)].profile.digest != step.external.value.profile
            then Some(OperationBindingMismatch)
        else if NoRoom(parent, step) then Some(RecoveryBudgetExhausted)
        else None
  }

  predicate ExternallyReady(parent: Workflow, step: PlanStep) {
    && step.id in parent.steps && parent.steps[step.id].state.StepPending?
    && forall d | d in step.dependsOn :: d in parent.steps && parent.steps[d].state == StepDone(Succeeded)
  }

  predicate NoRoom(parent: Workflow, step: PlanStep)
    requires step.id in parent.steps
  {
    var k, b := parent.counters, parent.plan.budgets;
    || k.externalOperations >= b.externalOperations || k.dispatchAttempts >= b.dispatchAttempts
    || k.activeSteps >= b.concurrentSteps || parent.steps[step.id].attempts >= step.maxAttempts
  }

  /** An activated external step, on its parent's rows. */
  function OpenExternal(parent: Workflow, step: StepId): Workflow
    requires step in parent.steps
  {
    var k := parent.counters;
    parent.(state := Running, steps := parent.steps[step := StepRow(StepRunning, parent.steps[step].attempts + 1)],
            counters := k.(externalOperations := k.externalOperations + 1, dispatchAttempts := k.dispatchAttempts + 1,
                           activeDispatches := k.activeDispatches + 1, activeSteps := k.activeSteps + 1))
  }

  /** The row a successful activation inserts; its snapshot is never refused. */
  function ActivatedOperation(w: World, app: Application, controller: Principal, now: int): Result<Operation, OpError>
    requires Key(app.namespace, app.subject) in w.subjects
  {
    Snapshot(NewOperation(Identity(|w.operations|, app, controller, w.subjects[Key(app.namespace, app.subject)].profile,
                                   now)), now)
  }

  /** `activate`; the result is the operation's row. */
  function ActivateOperation(w: World, app: Application, key: string, controller: Principal, dispatch: bool,
                             now: int): Result<(World, nat), OpError> {
    var idempotency := Key(app.namespace, key);
    if idempotency in w.activations then
      var known := w.activations[idempotency];
      if known.application == app
          && known.controller == controller then Ok((w, known.row)) else Err(IdempotencyConflict)
    else
      match FindBySubject(w.operations, app.namespace, app.subject)
      case Some(row) =>
        var who := w.operations[row].who;
        if who.application == app && who.controller == controller then
          Ok((w.(activations := w.activations[idempotency := ActivationKey(app, controller, row)]), row))
        else Err(SubjectAlreadyBound)
      case None =>
        match ActivationFault(w, app, controller, dispatch, now)
        case Some(e) => Err(e)
        case None =>
          match ActivatedOperation(w, app, controller, now)
          case Err(e) => Err(e)
          case Ok(op) =>
            var row := |w.operations|;
            Ok((w.(operations := w.operations + [op],
                   activations := w.activations[idempotency := ActivationKey(app, controller, row)],
                   parents := w.parents[app.job := OpenExternal(w.parents[app.job], app.step)]), row))
  }

  // ----- submission -----

  predicate CallsLeft(parent: Workflow) {
    parent.counters.externalCalls < parent.plan.budgets.externalCalls
  }

  /** Why no permit is issued, if none is. */
  function PermitFault(w: World, op: Operation, controller: Principal, dispatch: bool, now: int): Option<OpError> {
    var app := op.who.application;
    if ApprovalFault(w, app, controller, true, now).Some? then ApprovalFault(w, app, controller, true, now)
    else if app.job !in w.parents || !IsActive(w.parents[app.job]) then Some(ParentNotReady)
    else if !dispatch then Some(AuthorizationRevoked)
    else if !CallsLeft(w.parents[app.job]) then Some(RecoveryBudgetExhausted)
    else None
  }

  function CountCall(parent: Workflow, query: bool): Workflow {
    var k := parent.counters;
    parent.(counters :=
            k.(externalCalls := k.externalCalls + 1, recoveryQueryCalls := k.recoveryQueryCalls + if query then 1
               else 0))
  }

  /** The transaction of `submit`: it issues the one permit and leaves a worker about to call the provider. */
  function Submit(w: World, row: nat, controller: Principal, dispatch: bool, now: int): Result<World, OpError> {
    if row >= |w.operations| then Err(RecordNotFound)
    else
      var op := w.operations[row];
      if op.who.controller != controller then Err(AuthorityForbidden)
      else if op.permits > 0 then Ok(w)
      else
        match PermitFault(w, op, controller, dispatch, now)
        case Some(e) => Err(e)
        case None =>
          match Snapshot(Permit(op), now)
          case Err(e) => Err(e)
          case Ok(next) =>
            var app := op.who.application;
            Ok(w.(operations := w.operations[row := next], submitting := w.submitting + {row},
                  parents := w.parents[app.job := CountCall(w.parents[app.job], false)],
                  permits := w.permits + [PermitRecord(row, w.approvals[Key(app.namespace, app.approval)],
                                                       w.issuers[Key(app.namespace, app.issuer)], now)]))
  }

  /** A worker between its commit and its provider call makes the call, or dies. */
  function SubmitCall(w: World, row: nat, dies: bool): World {
    if row !in w.submitting then w
    else w.(submitting := w.submitting - {row}, calls := if dies then w.calls else w.calls + [Submission(row)])
  }

  function QueryCall(w: World, row: nat, fence: nat, dies: bool): World {
    if (row, fence) !in w.querying then w
    else w.(querying := w.querying - {(row, fence)}, calls := if dies then w.calls else w.calls + [Query(row, fence)])
  }

  // ----- parent endings -----

  /** `parent_completion_ready`. */
  predicate CompletionReady(ops: seq<Operation>, job: string, plan: Plan) {
    forall s | s in plan.steps && s.external.Some? ::
      var n := FindByStep(ops, job, s.id);
      n.Some? && var op := ops[n.value]; op.outcome.ConfirmedSucceeded? && !op.reconciliation && op.conflicts == []
  }

  predicate Successful(op: Operation) {
    op.outcome.ConfirmedSucceeded? && !op.reconciliation
  }

  /** `parent_step_receipts`, the operations of the job first. */
  function OperationRows(ops: seq<Operation>, job: string, steps: map<StepId, StepRow>): seq<ExternalRow> {
    if ops == [] then []
    else
      var op := ops[|ops| - 1];
      var step := op.who.application.step;
      OperationRows(ops[..|ops| - 1], job, steps) +
      if op.who.application.job == job
          && step in steps then [ExternalRow(step, steps[step].attempts, Successful(op), op.latest)] else []
  }

  /** Then the external steps no operation was allocated for. */
  function UnallocatedRows(ops: seq<Operation>, job: string, planned: seq<PlanStep>): seq<ExternalRow> {
    if planned == [] then []
    else
      var s := planned[|planned| - 1];
      UnallocatedRows(ops, job, planned[..|planned| - 1]) +
      if s.external.Some? && FindByStep(ops, job, s.id).None? then [ExternalRow(s.id, 1, false, None)] else []
  }

  function ParentReceiptOf(ops: seq<Operation>, job: string, v: Workflow): ParentReceipt
    requires v.receipt.Some?
  {
    ParentReceipt(job, v.receipt.value, OperationRows(ops, job, v.steps) + UnallocatedRows(ops, job, v.plan.steps))
  }

  function ClaimSteps(rows: seq<StepReceipt>): (r: seq<StepId>)
    ensures |r| == |rows| && forall i | 0 <= i < |rows| :: r[i] == rows[i].step
  {
    seq(|rows|, i requires 0 <= i < |rows| => rows[i].step)
  }

  function ExternalSteps(rows: seq<ExternalRow>): (r: seq<StepId>)
    ensures |r| == |rows| && forall i | 0 <= i < |rows| :: r[i] == rows[i].step
  {
    seq(|rows|, i requires 0 <= i < |rows| => rows[i].step)
  }

  predicate ExternalRowValid(plan: Plan, completed: bool, row: ExternalRow) {
    var planned := FindStep(plan.steps, row.step);
    && planned.Some? && planned.value.kind.Dispatch? && planned.value.external.Some?
    && (row.operation.None? ==> !row.succeeded)
    && (row.operation.Some? ==>
          var r, b := row.operation.value, planned.value.external.value;
          && Binds(b, r.who.application) && r.who.profile.digest == b.profile
          && (row.succeeded || completed ==> r.outcome.ConfirmedSucceeded? && !r.reconciliation))
  }

  predicate ClaimRowValid(plan: Plan, row: StepReceipt) {
    var planned := FindStep(plan.steps, row.step);
    planned.Some? && planned.value.kind == row.kind && !row.kind.Dispatch?
  }

  /** Every planned step has a row, and every row succeeded. */
  predicate CoversPlan(plan: Plan, r: ParentReceipt) {
    && (forall s | s in plan.steps :: s.id in ClaimSteps(r.base.steps) + ExternalSteps(r.external))
    && (forall row | row in r.base.steps :: row.terminal.Succeeded?)
    && (forall row | row in r.external :: row.succeeded)
  }

  /** The codes that the error schema of version 3 parents lists. */
  predicate ParentErrorCode(code: string) {
    code in {
      "ACTIVATION_AUTH_FORBIDDEN", "ACTIVATION_AUTH_REQUIRED", "ACTIVATION_BINDING_CONFLICT",
      "ACTIVATION_PRINCIPAL_MISMATCH", "ARTIFACT_EDGE_UNPLANNED", "ARTIFACT_RECORD_CONFLICT",
      "ARTIFACT_REFERENCE_UNAUTHORIZED", "AUTHORITY_FORBIDDEN", "AUTHORITY_FRESHNESS_UNAVAILABLE",
      "AUTHORIZATION_ALREADY_USED", "AUTHORIZATION_EXPIRED", "AUTHORIZATION_REVOKED", "CHECK_REPORT_REQUIRED",
      "CHECK_REPORT_UNVERIFIED", "CLAIM_STALE", "COMMUNICATION_CHANNEL_UNAUTHORIZED", "EVIDENCE_INVALID",
      "EXTERNAL_OUTCOME_UNRESOLVED", "IDEMPOTENCY_CONFLICT", "LEASE_EXPIRED", "OBSERVATION_CONFLICT",
      "OPERATION_BINDING_MISMATCH", "PARENT_NOT_READY", "PAYLOAD_DIGEST_INVALID", "POST_TERMINAL_ACTIVITY_REJECTED",
      "PROVIDER_PROFILE_UNSUPPORTED", "RECORD_NOT_FOUND", "RECOVERY_BUDGET_EXHAUSTED", "REQUEST_INVALID",
      "REQUEST_TOO_LARGE", "RESULT_ALREADY_CONFIRMED", "SEQUENCE_CONFLICT", "STALE_EXECUTION_CLAIM",
      "STEP_KIND_MISMATCH", "STEP_NOT_READY", "STORAGE_UNAVAILABLE", "SUBJECT_ALREADY_BOUND", "UNAUTHENTICATED",
      "WORKFLOW_BUDGET_EXHAUSTED", "WORKFLOW_NOT_ACTIVE", "WORKFLOW_REQUEST_TOO_LARGE"
    }
  }

  /** The code under which a workflow's error is stored. */
  function StoredCode(error: WorkflowError): string {
    match error
    case BudgetExhausted(_) => "WORKFLOW_BUDGET_EXHAUSTED"
    case CancelledBy(_) => "WORKFLOW_NOT_ACTIVE"
    case StepFailed(code) => code
    case ExternalOutcomeUnresolved => "EXTERNAL_OUTCOME_UNRESOLVED"
  }

  predicate ListedError(error: Option<WorkflowError>) {
    error.Some? ==> ParentErrorCode(StoredCode(error.value))
  }

  /** What the receipt schema says of a parent that is over: matching reports, an error exactly when it did not
      complete, under a listed code, and counters that are not negative. */
  predicate ReceiptShapeOk(base: Receipt) {
    && !base.status.Pending? && !base.status.Running? && ReportsMatch(base.steps)
    && (base.error.Some? <==> !base.status.Completed?) && ListedError(base.error) && CountersFit(base.counters)
  }

  /** `parent_receipt`. */
  ghost predicate ParentReceiptValid(plan: Plan, r: ParentReceipt) {
    && ReceiptIdFits(r.job) && ReceiptShapeOk(r.base)
    && NoDuplicates(ClaimSteps(r.base.steps) + ExternalSteps(r.external))
    && (forall row | row in r.base.steps :: ClaimRowValid(plan, row))
    && (forall row | row in r.external :: ExternalRowValid(plan, r.base.status.Completed?, row))
    && (r.base.status.Completed? ==> CoversPlan(plan, r))
  }

  /** `attach_parent_terminal` on one row. */
  function AttachTerminal(op: Operation, job: string, r: ParentReceipt, now: int): Result<Operation, OpError> {
    if op.who.application.job != job then Ok(op)
    else if op.terminal.Some? then (if op.terminal.value == r then Ok(op) else Err(OperationBindingMismatch))
    else Snapshot(Attach(op, r), now)
  }

  function AttachAll(ops: seq<Operation>, job: string, r: ParentReceipt, now: int): Result<seq<Operation>, OpError> {
    if ops == [] then Ok([])
    else
      match AttachAll(ops[..|ops| - 1], job, r, now)
      case Err(e) => Err(e)
      case Ok(front) =>
        match AttachTerminal(ops[|ops| - 1], job, r, now)
        case Err(e) => Err(e)
        case Ok(op) => Ok(front + [op])
  }

  /** A parent's next state; if that is its end, its receipt is validated and attached, or all is rolled back. */
  ghost function Settle(w: World, job: string, v: Workflow, now: int): Result<World, OpError>
    requires job in w.parents
  {
    if w.parents[job].receipt.Some? || v.receipt.None? then Ok(w.(parents := w.parents[job := v]))
    else
      var r := ParentReceiptOf(w.operations, job, v);
      if !ParentReceiptValid(v.plan, r) then Err(OperationBindingMismatch)
      else
        match AttachAll(w.operations, job, r, now)
        case Err(e) => Err(e)
        case Ok(ops) => Ok(w.(parents := w.parents[job := v], receipts := w.receipts[job := r], operations := ops))
  }

  // ----- observation and its effect on the parent -----

  /** The external step that a resolved operation stands for is over. */
  function CloseExternal(parent: Workflow, step: StepId, succeeded: bool): Workflow
    requires step in parent.steps
  {
    if !parent.steps[step].state.StepRunning? then parent
    else
      var k := parent.counters;
      var t := if succeeded then Succeeded else Unsuccessful(Failed, "EXTERNAL_OUTCOME_UNRESOLVED");
      parent.(steps := parent.steps[step := parent.steps[step].(state := StepDone(t))],
              counters := k.(activeSteps := k.activeSteps - 1, activeDispatches := k.activeDispatches - 1),
              successes := parent.successes + if succeeded then [step] else [])
  }

  /** The rows `_advance_parent` writes for a resolved operation: a failure ends the parent, as the last success
      does. */
  function Advance(parent: Workflow, step: StepId, succeeded: bool): Workflow
    requires step in parent.steps
  {
    var v := CloseExternal(parent, step, succeeded);
    if !succeeded then v.(state := Stopped(Failed), error := Some(ExternalOutcomeUnresolved))
    else if AllSucceeded(v.steps) then v.(state := Completed, error := None)
    else v
  }

  /** `_advance_parent`. */
  function AdvanceParent(parent: Workflow, op: Operation, ready: bool): Workflow
    requires op.who.application.step in parent.steps
  {
    if !IsActive(parent) || !Confirmed(op.outcome) || op.reconciliation then parent
    else
      var v := Advance(parent, op.who.application.step, op.outcome.ConfirmedSucceeded?);
      if IsActive(v) then v else Freeze(v, ready)
  }

  /** Why an observation of no operation is refused. */
  function StrayFault(o: Observation, facts: Facts): OpError {
    if !WellFormed(o) then RequestInvalid else if !facts.provenance then EvidenceInvalid else RecordNotFound
  }

  /** `observe`. */
  ghost function ObserveRow(w: World, row: nat, o: Observation, facts: Facts, through: Option<QueryClaim>,
                            now: int): Result<World, OpError> {
    if row >= |w.operations| then Err(StrayFault(o, facts))
    else
      match Observe(w.operations[row], o, facts, through, now)
      case Err(e) => Err(e)
      case Ok(op) =>
        if op == w.operations[row] then Ok(w)
        else
          var next := w.(operations := w.operations[row := op]);
          var job := op.who.application.job;
          if job !in w.parents || op.who.application.step !in w.parents[job].steps then Err(RecordNotFound)
          else Settle(next, job,
                      AdvanceParent(w.parents[job], op, CompletionReady(next.operations, job, w.parents[job].plan)),
                          now)
  }

  // ----- recovery -----

  /** The reserved claim is stored and counted, and a worker is about to query the provider. */
  function ScheduleQuery(w: World, row: nat, op: Operation): World
    requires row < |w.operations| && op.who.application.job in w.parents
  {
    var job := op.who.application.job;
    w.(operations := w.operations[row := op], querying := w.querying + {(row, op.fence)},
       parents := w.parents[job := CountCall(w.parents[job], true)])
  }

  /** `reconcile` up to its first commit: a replay, a resolved or a manual operation schedules nothing. */
  function ReconcileRow(w: World, namespace: string, key: string, r: Recovery, supervisor: Principal, supported: bool,
                        timeoutSeconds: int, now: int)
    : Result<World, OpError>
  {
    var idempotency := Key(namespace, key);
    if idempotency in w.reconciles then
      if w.reconciles[idempotency] == ReconcileKey(r, supervisor) then Ok(w) else Err(IdempotencyConflict)
    else if r.row >= |w.operations| then Err(RecordNotFound)
    else
      var op := w.operations[r.row];
      var app := op.who.application;
      if r.operation != app.operation || r.profile != op.who.profile.digest then Err(OperationBindingMismatch)
      else if r.expectedSequence != op.sequence then Err(StaleExecutionClaim)
      else if !op.who.profile.manualOnly && !QueriesLeft(op, now) then Err(RecoveryBudgetExhausted)
      else if Confirmed(op.outcome) && !op.reconciliation then Ok(w)
      else if op.permits != 1 then Err(StaleExecutionClaim)
      else
        var noted := w.(reconciles := w.reconciles[idempotency := ReconcileKey(r, supervisor)]);
        if op.who.profile.manualOnly then Ok(noted)
        else if app.job !in w.parents then Err(RecordNotFound)
        else
          match QueryFault(op, supported, CallsLeft(w.parents[app.job]), timeoutSeconds, now)
          case Some(e) => Err(e)
          case None =>
            match Snapshot(Reserve(op, timeoutSeconds, now), now)
            case Err(e) => Err(e)
            case Ok(next) =>
              Ok(ScheduleQuery(noted, r.row, next))
  }

  function ManualCase(w: World, row: nat, id: string, now: int): Result<World, OpError> {
    if row >= |w.operations| then Err(RecordNotFound)
    else
      match RegisterCase(w.operations[row], id, now)
      case Err(e) => Err(e)
      case Ok(op) => Ok(w.(operations := w.operations[row := op]))
  }

  function EndQuery(w: World, row: nat, fence: nat): World {
    if row >= |w.operations| then w else w.(operations := w.operations[row := ClearClaim(w.operations[row], fence)])
  }

  // ----- runs -----

  /** The semantic checks on a version 3 plan whose dispatch steps are all external. */
  ghost predicate ParentPlan(plan: Plan) {
    && plan.version == 3 && plan.steps != []
    && DistinctSteps(plan.steps)
    && forall s | s in plan.steps :: s.external.Some? <==> s.kind.Dispatch?
  }

  ghost predicate ParentsPlanned(w: World) {
    forall job | job in w.parents :: ClaimsPlanned(w.parents[job])
  }

  datatype Event =
    | CreateParent(job: string, plan: Plan)
    | FreshnessAsserted(issuer: Key, epoch: nat, freshness: Freshness)
    | ApprovalRevoked(approval: Key, issuerName: string, nextEpoch: nat)
    | SubjectRegistered(subjectKey: Key, subject: Subject)
    | ApprovalRegistered(approvalKey: Key, approval0: Approval)
    | Activated(application: Application, key: string, controller: Principal, dispatch: bool)
    | Submitted(row: nat, principal: Principal, permitted: bool)
    | SubmitWorker(worker: nat, dies: bool)
    | CaseRegistered(caseRow: nat, caseId: string)
    | Observed(observedRow: nat, observation: Observation, facts: Facts, through: Option<QueryClaim>)
    | Reconciled(namespace: string, reconcileKey: string, recovery: Recovery, supervisor: Principal, supported: bool,
                 timeoutSeconds: int)
    | QueryWorker(queryRow: nat, queryFence: nat, queryDies: bool)
    | QueryEnded(endedRow: nat, endedFence: nat)
    | ClaimRequest(parent: string, action: Action)

  function OrElse(w: World, r: Result<World, OpError>): World {
    if r.Ok? then r.value else w
  }

  /** One transaction, provider call or death of a worker, at any time whatever. */
  ghost function Happen(w: World, e: Event, now: int): World
    requires ParentsPlanned(w)
  {
    match e
    case CreateParent(job, plan) => if job in w.parents
        || !ParentPlan(plan) then w else w.(parents := w.parents[job := Create(plan)])
    case FreshnessAsserted(issuer, epoch, freshness) => OrElse(w, AssertFreshness(w, issuer, epoch, freshness, now))
    case ApprovalRevoked(approval, issuer, epoch) => OrElse(w, Revoke(w, approval, issuer, epoch))
    case SubjectRegistered(key, subject) => OrElse(w, RegisterSubject(w, key, subject))
    case ApprovalRegistered(key, approval) => OrElse(w, RegisterApproval(w, key, approval, now))
    case Activated(application, key, controller, dispatch) =>
      var t := ActivateOperation(w, application, key, controller, dispatch, now);
      if t.Ok? then t.value.0 else w
    case Submitted(row, principal, permitted) => OrElse(w, Submit(w, row, principal, permitted, now))
    case SubmitWorker(row, dies) => SubmitCall(w, row, dies)
    case CaseRegistered(row, id) => OrElse(w, ManualCase(w, row, id, now))
    case Observed(row, observation, facts, through) => OrElse(w, ObserveRow(w, row, observation, facts, through, now))
    case Reconciled(namespace, key, recovery, supervisor, supported, timeoutSeconds) =>
      OrElse(w, ReconcileRow(w, namespace, key, recovery, supervisor, supported, timeoutSeconds, now))
    case QueryWorker(row, fence, dies) => QueryCall(w, row, fence, dies)
    case QueryEnded(row, fence) => EndQuery(w, row, fence)
    case ClaimRequest(parent, action) => OrElse(w, ClaimAction(w, parent, action, now))
  }

  /** A claim, cancel or reconcile request on a version 3 parent. */
  ghost function ClaimAction(w: World, job: string, action: Action, now: int): Result<World, OpError>
    requires ParentsPlanned(w)
  {
    if job !in w.parents then Err(RecordNotFound)
    else
      var parent := w.parents[job];
      Settle(w, job, Step(parent, action, CompletionReady(w.operations, job, parent.plan)), now)
  }

  const EMPTY := World(map[], map[], map[], map[], map[], [], map[], map[], [], {}, {}, [])
}
