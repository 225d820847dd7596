/** The runtime-provider workflow: its rows and what each transaction does to them. */
module RuntimeWorkflow {
  import opened Wrappers
  import opened DependencyGraph

  // ----- the frozen plan -----

  datatype StepKind = Builder | Check | Reviewer | Repair | Dispatch

  /** The external operation a dispatch step of a version 3 plan stands for. */
  datatype ExternalBinding = ExternalBinding(
    namespace: string, subject: string, operation: string, profile: string, approval: string, issuer: string)

  /** `digest` is the check definition of a check step and the operation of any other. */
  datatype PlanStep = PlanStep(
    id: StepId, kind: StepKind, dependsOn: seq<StepId>, maxAttempts: nat, digest: string,
        external: Option<ExternalBinding>)

  /** What an artifact edge carries. */
  datatype EdgeRole =
    | PatchEdge | ReportEdge | ReviewEdge | RepairEdge | EvidenceEdge | DecisionEdge | ReceiptEdge | OutputEdge
    | OperationEdge

  datatype PlannedEdge = PlannedEdge(id: string, producer: StepId, consumer: StepId, role: EdgeRole)

  datatype Budgets = Budgets(
    providerAttempts: nat, checkAttempts: nat, dispatchAttempts: nat, concurrentSteps: nat, runtimeSeconds: nat,
    eventBytes: nat, artifactBytes: nat, artifactEdges: nat, externalOperations: nat, externalCalls: nat)

  datatype Plan = Plan(version: nat, steps: seq<PlanStep>, budgets: Budgets, edges: seq<PlannedEdge>)

  function FindStep(steps: seq<PlanStep>, id: StepId): (r: Option<PlanStep>)
    ensures r.Some? ==> r.value in steps && r.value.id == id
    ensures r.None? ==> forall s | s in steps :: s.id != id
  {
    if steps == [] then None
    else if steps[0].id == id then Some(steps[0])
    else FindStep(steps[1..], id)
  }

  function FindReportEdge(edges: seq<PlannedEdge>, producer: StepId): Option<PlannedEdge> {
    if edges == [] then None
    else if edges[0].producer == producer && edges[0].role.ReportEdge? then Some(edges[0])
    else FindReportEdge(edges[1..], producer)
  }

  // ----- rows -----

  datatype FailureKind = Failed | Cancelled | TimedOut | Unsupported

  datatype Terminal = Succeeded | Unsuccessful(kind: FailureKind, code: string)

  datatype StepState = StepPending | StepRunning | StepDone(terminal: Terminal)

  datatype StepRow = StepRow(state: StepState, attempts: nat)

  /** The activation request, less its request id; equal requests are the same binding. */
  datatype Activation = Activation(
    check: bool, step: StepId, key: string, invocation: Option<string>, constraints: string, workspace: string,
        leaseSeconds: nat)

  /** The key that new tokens are made with, and the others that are loaded. */
  datatype Keyring = Keyring(current: string, others: set<string>)

  predicate Loaded(keys: Keyring, id: string) {
    id == keys.current || id in keys.others
  }

  /** The keyed digest of a claim, its attempt and its binding. */
  datatype Token = Token(claim: nat, attempt: nat, binding: Activation, keyId: string)

  /** `size` is the length of the canonical payload text. */
  datatype Payload =
    | Event(toolSummary: bool, text: string, size: nat)
    | Outcome(terminal: Terminal, report: string, size: nat)

  datatype PayloadDigest = PayloadDigest(payload: Payload)

  datatype Record = Record(id: string, sequence: nat, payload: Payload, digest: PayloadDigest)

  datatype Artifact = Artifact(id: string, uri: string, size: nat)

  datatype StepReceipt = StepReceipt(
    step: StepId, kind: StepKind, attempt: nat, terminal: Terminal, constraints: string, report: Option<Artifact>)

  datatype ClaimStatus = Active | StaleRejected | CancelledClaim | Finished(terminal: Terminal)

  datatype Claim = Claim(
    step: StepId, kind: StepKind, attempt: nat, binding: Activation, digest: string, token: Token, started: int,
        accounted: nat,
    leaseExpires: int, status: ClaimStatus, records: seq<Record>, nextSequence: nat, outcome: Option<StepReceipt>)

  datatype RecordedEdge = RecordedEdge(edge: PlannedEdge, artifact: Artifact, attempt: nat)

  datatype Counters = Counters(
    providerAttempts: int, checkAttempts: int, dispatchAttempts: int, activeSteps: int, activeDispatches: int,
    repairIterations: int, runtimeSeconds: int, eventBytes: int, artifactBytes: int, artifactEdges: int,
    externalOperations: int, externalCalls: int, recoveryQueryCalls: int)

  datatype WorkflowState = Pending | Running | Completed | Blocked | Stopped(kind: FailureKind)

  datatype WorkflowError =
    | BudgetExhausted(budget: string)
    | CancelledBy(reason: string)
    | StepFailed(code: string)
    | ExternalOutcomeUnresolved

  datatype Receipt = Receipt(
    status: WorkflowState, steps: seq<StepReceipt>, edges: seq<RecordedEdge>, counters: Counters,
        error: Option<WorkflowError>)

  /** Claim ids are row numbers; `successes` is the history of steps in the order they succeeded. */
  datatype Workflow = Workflow(
    plan: Plan, state: WorkflowState, counters: Counters, steps: map<StepId, StepRow>, claims: seq<Claim>,
    edges: seq<RecordedEdge>, error: Option<WorkflowError>, receipt: Option<Receipt>, successes: seq<StepId>)

  predicate IsActive(w: Workflow) {
    w.state.Pending? || w.state.Running?
  }

  datatype ErrorCode =
    | WorkflowNotActive
    | PostTerminalActivity
    | ActivationBindingConflict
    | StepNotReady
    | StepKindMismatch
    | ClaimStale
    | LeaseExpired
    | PayloadDigestInvalid
    | SequenceConflict
    | CheckReportUnverified
    | ArtifactEdgeUnplanned
    | ArtifactRecordConflict
    | WorkflowBudgetExhausted
    | KeyUnavailable

  /** A transaction commits, commits although it raises, or raises and rolls back. */
  datatype Transaction<S, R> =
    | Commit(state: S, result: R)
    | CommitFailure(state: S, failure: ErrorCode)
    | Rollback(failure: ErrorCode)

  function After<S, R>(before: S, t: Transaction<S, R>): S {
    if t.Rollback? then before else t.state
  }

  // ----- create -----

  function Zero(): Counters {
    Counters(0, 0, 0, 0, 0, 0, 0, 0, 0, 0, 0, 0, 0)
  }

  function Create(plan: Plan): Workflow {
    Workflow(plan, Pending, Zero(), map s | s in plan.steps :: s.id := StepRow(StepPending, 0), [], [], None, None, [])
  }

  // ----- terminal receipts -----

  function Outcomes(claims: seq<Claim>): seq<StepReceipt> {
    if claims == [] then []
    else
      var last := claims[|claims| - 1];
      Outcomes(claims[..|claims| - 1]) + if last.outcome.Some? then [last.outcome.value] else []
  }

  /** `_freeze_receipt`; `ready` is the external service's answer and matters to version 3 only. */
  function Freeze(w: Workflow, ready: bool): Workflow {
    if w.receipt.Some? then w
    else
      var b := if w.plan.version == 3 && w.state.Completed? && !ready
               then w.(state := Blocked, error := Some(ExternalOutcomeUnresolved)) else w;
      b.(receipt := Some(Receipt(b.state, Outcomes(b.claims), b.edges, b.counters, b.error)))
  }

  function EndActive(claims: seq<Claim>, status: ClaimStatus): (r: seq<Claim>)
    ensures |r| == |claims|
    ensures forall i | 0 <= i < |claims| ::
              r[i] == if claims[i].status.Active? then claims[i].(status := status) else claims[i]
  {
    seq(|claims|, i requires 0 <= i < |claims| =>
        if claims[i].status.Active? then claims[i].(status := status) else claims[i])
  }

  /** No claim survives, and the workflow is about to freeze. */
  function Halt(w: Workflow, status: ClaimStatus, state: WorkflowState, error: WorkflowError): Workflow {
    w.(claims := EndActive(w.claims, status), counters := w.counters.(activeSteps := 0), state := state, error :=
       Some(error))
  }

  /** `_budget_exhausted`: the workflow fails, and the failing transaction commits. */
  function Exhaust(w: Workflow, budget: string, ready: bool): Workflow {
    Freeze(Halt(w, StaleRejected, Stopped(Failed), BudgetExhausted(budget)), ready)
  }

  // ----- activation -----

  /** The row with a given idempotency key, if any. */
  function FindKey(claims: seq<Claim>, key: string): (r: Option<nat>)
    ensures r.Some? ==> r.value < |claims| && claims[r.value].binding.key == key
    ensures r.None? ==> forall c | c in claims :: c.binding.key != key
  {
    if claims == [] then None
    else
      var last := |claims| - 1;
      assert claims == claims[..last] + [claims[last]];
      match FindKey(claims[..last], key)
      case Some(i) => Some(i)
      case None => if claims[last].binding.key == key then Some(last) else None
  }

  predicate InvocationBound(claims: seq<Claim>, invocation: Option<string>) {
    invocation.Some? && exists c :: c in claims && c.binding.invocation == invocation
  }

  /** Rows found for the dependency list equal it in number: a repeated dependency is never satisfied. */
  predicate DependenciesSucceeded(steps: map<StepId, StepRow>, dependsOn: seq<StepId>) {
    && |set d | d in dependsOn && d in steps| == |dependsOn|
    && forall d | d in dependsOn && d in steps :: steps[d].state == StepDone(Succeeded)
  }

  predicate Ready(w: Workflow, step: PlanStep) {
    && step.id in w.steps && w.steps[step.id].state.StepPending?
    && DependenciesSucceeded(w.steps, step.dependsOn)
  }

  function ActiveCount(claims: seq<Claim>): nat {
    if claims == [] then 0
    else ActiveCount(claims[..|claims| - 1]) + if claims[|claims| - 1].status.Active? then 1 else 0
  }

  predicate AttemptsExhausted(w: Workflow, step: PlanStep)
    requires step.id in w.steps
  {
    var b := w.plan.budgets;
    || (if step.kind.Check? then w.counters.checkAttempts >= b.checkAttempts
        else w.counters.providerAttempts >= b.providerAttempts)
    || ActiveCount(w.claims) >= b.concurrentSteps
    || w.steps[step.id].attempts >= step.maxAttempts
  }

  /** A new claim on a ready step: a new attempt, with all the counters it moves. */
  function OpenClaim(w: Workflow, step: PlanStep, request: Activation, now: int, keys: Keyring): Workflow
    requires step.id in w.steps
  {
    var attempt := w.steps[step.id].attempts + 1;
    var id := |w.claims|;
    var claim := Claim(step.id, step.kind, attempt, request, step.digest, Token(id, attempt, request, keys.current),
                       now, 0,
                       now + request.leaseSeconds, Active, [], 0, None);
    var c := w.counters;
    w.(state := Running,
       claims := w.claims + [claim],
       steps := w.steps[step.id := StepRow(StepRunning, attempt)],
       counters := c.(providerAttempts := c.providerAttempts + if step.kind.Check? then 0 else 1,
                      checkAttempts := c.checkAttempts + if step.kind.Check? then 1 else 0,
                      activeSteps := c.activeSteps + 1,
                      repairIterations := c.repairIterations + if step.kind.Repair? then 1 else 0))
  }

  /** `_activate`; the result is the claim's row number and token. */
  function Activate(w: Workflow, request: Activation, now: int, keys: Keyring, ready: bool): Transaction<Workflow, (nat,
        Token)> {
    if !IsActive(w) then Rollback(WorkflowNotActive)
    else
      match FindKey(w.claims, request.key)
      case Some(i) =>
        if w.claims[i].binding != request then Rollback(ActivationBindingConflict)
        else if !Loaded(keys, w.claims[i].token.keyId) then Rollback(KeyUnavailable)
        else Commit(w, (i, w.claims[i].token))
      case None =>
        if !request.check && InvocationBound(w.claims, request.invocation) then Rollback(ActivationBindingConflict)
        else
          match FindStep(w.plan.steps, request.step)
          case None => Rollback(StepNotReady)
          case Some(step) =>
            if step.kind.Dispatch? || step.kind.Check? != request.check then Rollback(StepKindMismatch)
            else if !Ready(w, step) then Rollback(StepNotReady)
            else if AttemptsExhausted(w, step) then CommitFailure(Exhaust(w, "attempt", ready), WorkflowBudgetExhausted)
            else
              var claimed := OpenClaim(w, step, request, now, keys);
              Commit(claimed, (|w.claims|, claimed.claims[|w.claims|].token))
  }

  // ----- claim holders -----

  datatype Credential = Credential(
    claim: nat, token: Token, check: bool, step: StepId, attempt: nat, constraints: string, invocation: Option<string>,
    digest: string, key: Option<string>)

  /** `_checked_claim`: the reason a claim holder is turned away, if any. */
  function Refusal(w: Workflow, holder: Credential, now: int): Option<ErrorCode> {
    if !IsActive(w) then Some(PostTerminalActivity)
    else if holder.claim >= |w.claims| || !w.claims[holder.claim].status.Active? then Some(ClaimStale)
    else
      var c := w.claims[holder.claim];
      if c.kind.Check? != holder.check || holder.token != c.token then Some(ClaimStale)
      else if c.leaseExpires < now then Some(LeaseExpired)
      else if holder.step != c.step || holder.attempt != c.attempt || holder.constraints != c.binding.constraints
              || holder.digest != c.digest || (!holder.check && holder.invocation != c.binding.invocation)
              || (holder.key.Some? && holder.key.value != c.binding.key) then Some(ClaimStale)
      else None
  }

  function Max(a: int, b: int): int {
    if a > b then a else b
  }

  /** Seconds the claim has run that are not yet accounted for. */
  function Unmetered(c: Claim, now: int): nat {
    Max(0, Max(0, now - c.started) - c.accounted)
  }

  predicate RuntimeExhausted(w: Workflow, claim: nat, now: int)
    requires claim < |w.claims|
  {
    var delta := Unmetered(w.claims[claim], now);
    delta > 0 && w.counters.runtimeSeconds + delta > w.plan.budgets.runtimeSeconds
  }

  /** `_meter_runtime` within budget. */
  function Meter(w: Workflow, claim: nat, now: int): Workflow
    requires claim < |w.claims|
  {
    var c := w.claims[claim];
    var delta := Unmetered(c, now);
    w.(claims := w.claims[claim := c.(accounted := c.accounted + delta)],
       counters := w.counters.(runtimeSeconds := w.counters.runtimeSeconds + delta))
  }

  /** A new expiry for a live lease. */
  function Extend(w: Workflow, claim: nat, expires: int): Workflow
    requires claim < |w.claims|
  {
    w.(claims := w.claims[claim := w.claims[claim].(leaseExpires := expires)])
  }

  /** `renew`. */
  function Renew(w: Workflow, holder: Credential, leaseSeconds: nat, now: int,
                 ready: bool): Transaction<Workflow, int> {
    match Refusal(w, holder, now)
    case Some(e) => Rollback(e)
    case None =>
      if RuntimeExhausted(w, holder.claim, now)
          then CommitFailure(Exhaust(w, "runtime", ready), WorkflowBudgetExhausted)
      else
        var expires := now + leaseSeconds;
        Commit(Extend(Meter(w, holder.claim, now), holder.claim, expires), expires)
  }

  // ----- records -----

  /** An update carries one record; `bound` says that a validated conformance binding came with it. */
  datatype Update = Update(holder: Credential, record: Record, report: Artifact, bound: bool)

  function FindRecord(records: seq<Record>, id: string): Option<Record> {
    if records == [] then None
    else if records[0].id == id then Some(records[0])
    else FindRecord(records[1..], id)
  }

  predicate RecordsReport(c: Claim, u: Update) {
    c.kind.Check? && u.record.payload.Outcome? && (u.record.payload.terminal.Succeeded? || u.bound)
  }

  datatype Preflight = Clear(edge: PlannedEdge) | Refused(failure: ErrorCode) | OverBudget(budget: string)

  /** `_preflight_check_artifact`. */
  function PreflightReport(w: Workflow, c: Claim, u: Update): Preflight
    requires u.record.payload.Outcome?
  {
    if u.record.payload.report != u.report.uri then Refused(CheckReportUnverified)
    else
      match FindReportEdge(w.plan.edges, c.step)
      case None => Refused(ArtifactEdgeUnplanned)
      case Some(edge) =>
        if w.counters.artifactBytes + u.report.size > w.plan.budgets.artifactBytes then OverBudget("artifact byte")
        else if w.counters.artifactEdges >= w.plan.budgets.artifactEdges then OverBudget("artifact edge")
        else if exists e ::
                  e in w.edges && e.edge.id == edge.id
                      && e.artifact.id == u.report.id then Refused(ArtifactRecordConflict)
        else Clear(edge)
  }

  function StateAfter(t: Terminal, allSucceeded: bool): WorkflowState {
    match t
    case Succeeded => if allSucceeded then Completed else Running
    case Unsuccessful(kind, _) => Stopped(if kind.Unsupported? then Failed else kind)
  }

  predicate AllSucceeded(steps: map<StepId, StepRow>) {
    forall s | s in steps :: steps[s].state == StepDone(Succeeded)
  }

  /** The rows and counters `_complete_attempt` moves, with the artifact edge the preflight cleared. */
  function Finish(w: Workflow, claim: nat, record: Record, edge: Option<RecordedEdge>): Workflow
    requires claim < |w.claims| && record.payload.Outcome? && w.claims[claim].step in w.steps
  {
    var c, t := w.claims[claim], record.payload.terminal;
    var report := if edge.Some? then Some(edge.value.artifact) else None;
    var receipt := StepReceipt(c.step, c.kind, c.attempt, t, c.binding.constraints, report);
    var finished := c.(status := Finished(t), nextSequence := c.nextSequence + 1, records := c.records + [record],
                       outcome := Some(receipt));
    var steps := w.steps[c.step := w.steps[c.step].(state := StepDone(t))];
    var k := w.counters;
    w.(claims := w.claims[claim := finished], steps := steps, state := StateAfter(t, AllSucceeded(steps)),
       edges := w.edges + (if edge.Some? then [edge.value] else []),
       counters := k.(activeSteps := k.activeSteps - 1,
                      artifactBytes := k.artifactBytes + (if edge.Some? then edge.value.artifact.size else 0),
                      artifactEdges := k.artifactEdges + (if edge.Some? then 1 else 0)),
       error := if t.Succeeded? then None else Some(StepFailed(t.code)),
       successes := w.successes + (if t.Succeeded? then [c.step] else []))
  }

  /** `_complete_attempt`. */
  function Complete(w: Workflow, claim: nat, record: Record, edge: Option<RecordedEdge>, ready: bool): Workflow
    requires claim < |w.claims| && record.payload.Outcome? && w.claims[claim].step in w.steps
  {
    var done := Finish(w, claim, record, edge);
    if done.state.Running? then done else Freeze(done, ready)
  }

  /** An accepted event. */
  function AppendEvent(w: Workflow, claim: nat, record: Record): Workflow
    requires claim < |w.claims| && record.payload.Event?
  {
    var c, k := w.claims[claim], w.counters;
    var external := !c.kind.Check? && record.payload.toolSummary;
    w.(claims := w.claims[claim := c.(records := c.records + [record], nextSequence := c.nextSequence + 1)],
       counters := k.(eventBytes := k.eventBytes + record.payload.size,
                      externalOperations := k.externalOperations + if external then 1 else 0))
  }

  /** The part of `update` that follows metering and the payload digest check. */
  function Append(w: Workflow, u: Update, ready: bool): Transaction<Workflow, ()>
    requires u.holder.claim < |w.claims| && w.claims[u.holder.claim].step in w.steps
  {
    var c, r, k, b := w.claims[u.holder.claim], u.record, w.counters, w.plan.budgets;
    match FindRecord(c.records, r.id)
    case Some(prior) => if prior != r then Rollback(SequenceConflict) else Commit(w, ())
    case None =>
      if r.sequence != c.nextSequence then Rollback(SequenceConflict)
      else
        match r.payload
        case Event(tool, _, size) =>
          if k.eventBytes + size > b.eventBytes
              then CommitFailure(Exhaust(w, "event byte", ready), WorkflowBudgetExhausted)
          else if !c.kind.Check? && tool && k.externalOperations >= b.externalOperations then
            CommitFailure(Exhaust(w.(counters := k.(eventBytes := k.eventBytes + size)), "external operation", ready),
                          WorkflowBudgetExhausted)
          else Commit(AppendEvent(w, u.holder.claim, r), ())
        case Outcome(_, _, _) =>
          if !RecordsReport(c, u) then Commit(Complete(w, u.holder.claim, r, None, ready), ())
          else
            match PreflightReport(w, c, u)
            case Refused(e) => Rollback(e)
            case OverBudget(budget) => CommitFailure(Exhaust(w, budget, ready), WorkflowBudgetExhausted)
            case Clear(edge) =>
              Commit(Complete(w, u.holder.claim, r, Some(RecordedEdge(edge, u.report, c.attempt)), ready), ())
  }

  /** `update`. */
  function ApplyUpdate(w: Workflow, u: Update, now: int, ready: bool): Transaction<Workflow, ()>
    requires forall c | c in w.claims :: c.step in w.steps
  {
    match Refusal(w, u.holder, now)
    case Some(e) => Rollback(e)
    case None =>
      if RuntimeExhausted(w, u.holder.claim, now)
          then CommitFailure(Exhaust(w, "runtime", ready), WorkflowBudgetExhausted)
      else if u.record.digest != PayloadDigest(u.record.payload) then Rollback(PayloadDigestInvalid)
      else Append(Meter(w, u.holder.claim, now), u, ready)
  }

  // ----- cancel and reconcile -----

  /** `cancel`. */
  function Cancel(w: Workflow, reason: string, ready: bool): Workflow {
    if !IsActive(w) then w
    else
      Freeze(Halt(w, CancelledClaim, Stopped(Cancelled), CancelledBy(reason)), ready)
  }

  predicate Expired(c: Claim, now: int) {
    c.status.Active? && c.leaseExpires < now
  }

  /** One turn of the reconcile loop: a metered claim turns stale and its step becomes claimable again. */
  function Release(w: Workflow, claim: nat): Workflow
    requires claim < |w.claims|
  {
    var c := w.claims[claim];
    var reopened := c.step in w.steps && w.steps[c.step].state.StepRunning?;
    w.(claims := w.claims[claim := c.(status := StaleRejected)],
       counters := w.counters.(activeSteps := w.counters.activeSteps - 1),
       steps := if reopened then w.steps[c.step := w.steps[c.step].(state := StepPending)] else w.steps)
  }

  /** The loop over the claims from row `from` on that had expired when it started. */
  function ReleaseExpired(w: Workflow, from: nat, now: int, ready: bool): Transaction<Workflow, ()>
    decreases |w.claims| - from
  {
    if from >= |w.claims| then Commit(w, ())
    else if !Expired(w.claims[from], now) then ReleaseExpired(w, from + 1, now, ready)
    else if RuntimeExhausted(w, from, now) then CommitFailure(Exhaust(w, "runtime", ready), WorkflowBudgetExhausted)
    else ReleaseExpired(Release(Meter(w, from, now), from), from + 1, now, ready)
  }

  /** `reconcile`. */
  function Reconcile(w: Workflow, now: int, ready: bool): Transaction<Workflow, ()> {
    if !IsActive(w) then Commit(w, ()) else ReleaseExpired(w, 0, now, ready)
  }

  // ----- runs -----

  datatype Action =
    | DoActivate(request: Activation, now: int, keys: Keyring)
    | DoRenew(holder: Credential, leaseSeconds: nat, now: int)
    | DoUpdate(update: Update, now: int)
    | DoCancel(reason: string)
    | DoReconcile(now: int)

  /** What one request does, whatever the clock says. */
  function Step(w: Workflow, a: Action, ready: bool): Workflow
    requires forall c | c in w.claims :: c.step in w.steps
  {
    match a
    case DoActivate(request, now, keys) => After(w, Activate(w, request, now, keys, ready))
    case DoRenew(holder, leaseSeconds, now) => After(w, Renew(w, holder, leaseSeconds, now, ready))
    case DoUpdate(update, now) => After(w, ApplyUpdate(w, update, now, ready))
    case DoCancel(reason) => Cancel(w, reason, ready)
    case DoReconcile(now) => After(w, Reconcile(w, now, ready))
  }
}
