/** One external operation: its record, the receipts snapshot from it, and what each transaction does to it. */
module ExternalOperation {
  import opened Wrappers
  import opened DependencyGraph
  import opened RuntimeWorkflow

  // ----- records; all times are in milliseconds -----

  datatype Principal = Principal(name: string, instance: string)

  datatype Profile = Profile(digest: string, account: string, policy: string, manualOnly: bool)

  /** The digest of a plan determines it. */
  datatype PlanDigest = PlanDigest(plan: Plan)

  /** What a request for an operation names, less its request id. */
  datatype Application = Application(
    namespace: string, subject: string, operation: string, approval: string, issuer: string, job: string, step: StepId,
        planDigest: PlanDigest)

  /** What never changes about an operation; `row` stands for its generated id, its provider key and that key's
      digest. */
  datatype Identity = Identity(row: nat, application: Application, controller: Principal, profile: Profile,
                               createdAt: int)

  datatype Outcome = Unobserved | Unknown | AwaitingProvider | ConfirmedSucceeded | ConfirmedFailed |
      ConfirmedNotExecuted

  /** The fields by which an observation names its operation. */
  datatype Target = Target(row: nat, subject: string, operation: string, profile: string, account: string)

  function TargetOf(who: Identity): Target {
    Target(who.row, who.application.subject, who.application.operation, who.profile.digest, who.profile.account)
  }

  predicate Confirmed(o: Outcome) {
    o.ConfirmedSucceeded? || o.ConfirmedFailed? || o.ConfirmedNotExecuted?
  }

  datatype Evidence = NotStarted | PossiblySubmitted | ProviderAccepted

  datatype Consumed = Consumed(queryCalls: nat, queryMs: nat, elapsed: nat, records: nat, bytes: nat)

  datatype Case = Case(id: string, records: nat, bytes: nat)

  /** A query claim; its fence stands for its generated id as well. */
  datatype QueryClaim = QueryClaim(fence: nat, number: nat, reserved: nat, deadline: int)

  /** An observation request, less its request id, with the principal that sends it; `manualCase` is its attested
      case. */
  datatype Observation = Observation(
    id: string, about: Target, manualCase: Option<string>, outcome: Outcome, providerId: Option<string>, bytes: nat,
        text: string,
    principal: string)

  datatype Response = Response(sequence: nat, conflict: bool)

  datatype ExternalRow = ExternalRow(step: StepId, attempt: nat, succeeded: bool, operation: Option<OpReceipt>)

  /** The receipt of a version 3 parent: the claims' part, then one row for each external step. */
  datatype ParentReceipt = ParentReceipt(job: string, base: Receipt, external: seq<ExternalRow>)

  /** The digest of a receipt determines it. */
  datatype ReceiptDigest = ReceiptDigest(receipt: OpReceipt)

  datatype OpReceipt = OpReceipt(
    who: Identity, evidence: Evidence, outcome: Outcome, reconciliation: bool, permits: nat, sequence: nat,
    observations: seq<Observation>, conflicts: seq<Observation>, consumed: Consumed, cases: seq<Case>, recordedAt: int,
    previous: Option<ReceiptDigest>, terminal: Option<ParentReceipt>)

  /** `issued` is the history of all query claims; `responses` the stored answers to recorded observations. */
  datatype Operation = Operation(
    who: Identity, evidence: Evidence, outcome: Outcome, reconciliation: bool, permits: nat, sequence: nat,
        providerId: Option<string>,
    consumed: Consumed, cases: seq<Case>, observations: seq<Observation>, conflicts: seq<Observation>, fence: nat,
    claim: Option<QueryClaim>, terminal: Option<ParentReceipt>, latest: Option<OpReceipt>, responses: map<string,
        Response>,
    issued: seq<QueryClaim>)

  datatype OpError =
    | RequestInvalid
    | RecordNotFound
    | AuthorityForbidden
    | IdempotencyConflict
    | SubjectAlreadyBound
    | AuthorizationAlreadyUsed
    | AuthorizationExpired
    | AuthorizationRevoked
    | FreshnessUnavailable
    | OperationBindingMismatch
    | ParentNotReady
    | EvidenceInvalid
    | ProviderUnsupported
    | StaleExecutionClaim
    | RecoveryBudgetExhausted
    | ObservationConflict

  const MAX_QUERIES := 20
  const MAX_QUERY_MS := 600000
  const MAX_QUERY_CALL_MS := 30000
  const MAX_ELAPSED := 86400
  const MAX_RECORDS := 64
  const MAX_CASE_RECORDS := 16
  const MAX_BYTES := 1048576
  const MAX_CONFLICTS := 64
  const MAX_OBSERVATIONS := 80
  const MAX_SEQUENCE := 1000000

  // ----- receipts -----

  /** The bounds of the receipt schema. */
  predicate ReceiptShape(r: OpReceipt) {
    && r.permits <= 1 && 1 <= r.sequence <= MAX_SEQUENCE
    && |r.observations| <= MAX_OBSERVATIONS && |r.conflicts| <= MAX_CONFLICTS
    && r.consumed.queryCalls <= MAX_QUERIES && r.consumed.queryMs <= MAX_QUERY_MS && r.consumed.elapsed <= MAX_ELAPSED
    && r.consumed.records <= MAX_RECORDS && r.consumed.bytes <= MAX_BYTES
    && |r.cases| <= 1 && (forall c | c in r.cases :: c.records <= MAX_CASE_RECORDS && c.bytes <= MAX_BYTES)
  }

  predicate Covers(now: Consumed, before: Consumed) {
    && before.queryCalls <= now.queryCalls && before.queryMs <= now.queryMs && before.elapsed <= now.elapsed
    && before.records <= now.records && before.bytes <= now.bytes
  }

  /** `supporting("receipt", …)`: why a receipt is refused after a given previous one, if it is. */
  function ReceiptFault(r: OpReceipt, previous: Option<OpReceipt>): Option<OpError> {
    if !ReceiptShape(r) then Some(RequestInvalid)
    else if r.evidence.NotStarted? != (r.permits == 0) then Some(OperationBindingMismatch)
    else if (r.outcome.Unknown? || r.outcome.AwaitingProvider?) && !r.reconciliation then Some(OperationBindingMismatch)
    else if r.previous.None? != (r.sequence == 1) then Some(EvidenceInvalid)
    else
      match previous
      case None => None
      case Some(p) =>
        if r.previous != Some(ReceiptDigest(p)) || r.sequence != p.sequence + 1 then Some(EvidenceInvalid)
        else if r.who != p.who then Some(OperationBindingMismatch)
        else if !Covers(r.consumed, p.consumed) then Some(EvidenceInvalid)
        else if Confirmed(p.outcome) && r.outcome != p.outcome then Some(OperationBindingMismatch)
        else if p.terminal.Some? && r.terminal != p.terminal then Some(OperationBindingMismatch)
        else None
  }

  function DigestOf(r: Option<OpReceipt>): Option<ReceiptDigest> {
    if r.Some? then Some(ReceiptDigest(r.value)) else None
  }

  function ReceiptOf(op: Operation, sequence: nat, previous: Option<OpReceipt>, now: int): OpReceipt {
    OpReceipt(op.who, op.evidence, op.outcome, op.reconciliation, op.permits, sequence, op.observations, op.conflicts,
              op.consumed,
              op.cases, now, DigestOf(previous), op.terminal)
  }

  /** `_snapshot`: the next receipt of the chain, unless the validator refuses it. */
  function Snapshot(op: Operation, now: int): Result<Operation, OpError> {
    var r := ReceiptOf(op, op.sequence + 1, op.latest, now);
    match ReceiptFault(r, op.latest)
    case Some(e) => Err(e)
    case None => Ok(op.(sequence := op.sequence + 1, latest := Some(r)))
  }

  // ----- what each transaction changes before its snapshot -----

  function NewOperation(who: Identity): Operation {
    Operation(who, NotStarted, Unobserved, false, 0, 0, None, Consumed(0, 0, 0, 0, 0), [], [], [], 0, None, None, None,
              map[], [])
  }

  function Permit(op: Operation): Operation {
    op.(permits := 1, evidence := PossiblySubmitted, outcome := Unknown, reconciliation := true, fence := op.fence + 1)
  }

  function Attach(op: Operation, r: ParentReceipt): Operation {
    op.(terminal := Some(r))
  }

  /** `register_manual_case`: one case for ever. */
  function RegisterCase(op: Operation, id: string, now: int): Result<Operation, OpError> {
    if op.cases != [] then (if op.cases[0].id == id then Ok(op) else Err(RecoveryBudgetExhausted))
    else Snapshot(op.(cases := [Case(id, 0, 0)]), now)
  }

  // ----- observation -----

  /** What the registered verifier and the clock of a manual authority say. */
  datatype Facts = Facts(provenance: bool, manualFresh: bool, submitterTerminated: bool, definitive: bool)

  predicate WellFormed(o: Observation) {
    if o.manualCase.Some? then Confirmed(o.outcome) else !o.outcome.Unobserved? && !o.outcome.ConfirmedNotExecuted?
  }

  function FindObservation(recorded: seq<Observation>, id: string): (r: Option<Observation>)
    ensures r.Some? ==> r.value in recorded && r.value.id == id
    ensures r.None? ==> forall o | o in recorded :: o.id != id
  {
    if recorded == [] then None
    else if recorded[0].id == id then Some(recorded[0])
    else FindObservation(recorded[1..], id)
  }

  /** Checks a manual attestation must pass. */
  function ManualFault(op: Operation, o: Observation, facts: Facts): Option<OpError> {
    if o.manualCase.None? then None
    else if !facts.manualFresh then Some(FreshnessUnavailable)
    else if op.cases == [] || op.cases[0].id != o.manualCase.value then Some(EvidenceInvalid)
    else if o.outcome.ConfirmedNotExecuted?
        && !(facts.submitterTerminated && facts.definitive) then Some(EvidenceInvalid)
    else None
  }

  /** The checks before an observation is looked up or recorded. */
  function ObservationFault(op: Operation, o: Observation, facts: Facts, through: Option<QueryClaim>,
                            now: int): Option<OpError> {
    if !WellFormed(o) then Some(RequestInvalid)
    else if !facts.provenance then Some(EvidenceInvalid)
    else if through.Some?
        && !(op.claim.Some? && op.claim.value.fence == through.value.fence && now < through.value.deadline) then
      Some(StaleExecutionClaim)
    else if o.about != TargetOf(op.who) then Some(OperationBindingMismatch)
    else if op.providerId.Some? && o.providerId != op.providerId then Some(OperationBindingMismatch)
    else None
  }

  datatype Disposition = Accept | Conflicting | RetainConfirmed

  function Dispose(op: Operation, o: Observation): Disposition {
    if Confirmed(op.outcome)
        && o.outcome != op.outcome then (if Confirmed(o.outcome) then Conflicting else RetainConfirmed)
    else Accept
  }

  predicate OverEvidenceBudget(op: Operation, o: Observation) {
    if o.manualCase.Some? then op.cases != []
        && (op.cases[0].records >= MAX_CASE_RECORDS || op.cases[0].bytes + o.bytes > MAX_BYTES)
    else op.consumed.records >= MAX_RECORDS || op.consumed.bytes + o.bytes > MAX_BYTES
  }

  /** An adapter's observation is charged to the operation, a manual one to its case. */
  function ConsumedAfter(op: Operation, o: Observation): Consumed {
    if o.manualCase.Some? then op.consumed
    else op.consumed.(records := op.consumed.records + 1, bytes := op.consumed.bytes + o.bytes)
  }

  function CasesAfter(op: Operation, o: Observation): seq<Case> {
    if o.manualCase.None? || op.cases == [] then op.cases
    else [Case(op.cases[0].id, op.cases[0].records + 1, op.cases[0].bytes + o.bytes)]
  }

  function ReconciliationAfter(op: Operation, o: Observation): bool {
    match Dispose(op, o)
    case Conflicting => true
    case RetainConfirmed => op.reconciliation
    case Accept => !Confirmed(o.outcome) || op.conflicts != []
  }

  /** A recorded observation: the first confirmed outcome stays, and a contradiction of it is kept as a conflict. */
  function Recorded(op: Operation, o: Observation): Operation {
    op.(consumed := ConsumedAfter(op, o), cases := CasesAfter(op, o), observations := op.observations + [o],
        conflicts := op.conflicts + (if Dispose(op, o).Conflicting? then [o] else []),
        outcome := if Dispose(op, o).Accept? then o.outcome else op.outcome,
        reconciliation := ReconciliationAfter(op, o),
        providerId := if o.providerId.Some? then o.providerId else op.providerId,
        evidence := if o.providerId.Some? then ProviderAccepted else op.evidence)
  }

  /** `observe` on one operation; an exact replay changes nothing. */
  function Observe(op: Operation, o: Observation, facts: Facts, through: Option<QueryClaim>,
                   now: int): Result<Operation, OpError> {
    match ObservationFault(op, o, facts, through, now)
    case Some(e) => Err(e)
    case None =>
      match FindObservation(op.observations, o.id)
      case Some(prior) => if prior == o then Ok(op) else Err(ObservationConflict)
      case None =>
        match ManualFault(op, o, facts)
        case Some(e) => Err(e)
        case None =>
          if op.permits != 1 then Err(StaleExecutionClaim)
          else if OverEvidenceBudget(op, o) then Err(RecoveryBudgetExhausted)
          else
            match Snapshot(Recorded(op, o), now)
            case Err(e) => Err(e)
            case Ok(next) =>
              Ok(next.(responses := next.responses[o.id := Response(next.sequence, Dispose(op, o).Conflicting?)]))
  }

  // ----- query recovery -----

  function Min(a: int, b: int): int {
    if a < b then a else b
  }

  /** Whole seconds since the operation was created, clamped to a day. */
  function Elapsed(who: Identity, now: int): nat {
    Min(MAX_ELAPSED, Max(0, (now - who.createdAt) / 1000))
  }

  /** The time reserved for one query call. */
  function Allowance(op: Operation, timeoutSeconds: int): int {
    Min(Min(MAX_QUERY_CALL_MS, timeoutSeconds * 1000), MAX_QUERY_MS - op.consumed.queryMs)
  }

  /** The part of a reconcile request on one operation that may schedule a query; `supported` says the query adapter
      is registered. */
  function QueryFault(op: Operation, supported: bool, callsLeft: bool, timeoutSeconds: int, now: int): Option<OpError> {
    if op.permits != 1 then Some(StaleExecutionClaim)
    else if !supported then Some(ProviderUnsupported)
    else if op.consumed.records >= MAX_RECORDS || op.consumed.bytes >= MAX_BYTES then Some(RecoveryBudgetExhausted)
    else if op.claim.Some? && now < op.claim.value.deadline then Some(StaleExecutionClaim)
    else if !callsLeft then Some(RecoveryBudgetExhausted)
    else if Allowance(op, timeoutSeconds) <= 0 then Some(RecoveryBudgetExhausted)
    else None
  }

  /** The checks `supporting("reconcile_request", …)` makes against the consumed budget. */
  predicate QueriesLeft(op: Operation, now: int) {
    op.consumed.queryCalls < MAX_QUERIES && op.consumed.queryMs < MAX_QUERY_MS && Elapsed(op.who, now) < MAX_ELAPSED
  }

  function Reserve(op: Operation, timeoutSeconds: int, now: int): Operation
    requires Allowance(op, timeoutSeconds) > 0
  {
    var reserve := Allowance(op, timeoutSeconds);
    var claim := QueryClaim(op.fence + 1, op.consumed.queryCalls + 1, reserve, now + reserve);
    op.(consumed := op.consumed.(queryCalls := op.consumed.queryCalls + 1, queryMs := op.consumed.queryMs + reserve,
                                 elapsed := Elapsed(op.who, now)),
        fence := op.fence + 1, claim := Some(claim), issued := op.issued + [claim])
  }

  /** The last transaction of a query worker: it clears its own claim, and no other. */
  function ClearClaim(op: Operation, fence: nat): Operation {
    if op.claim.Some? && op.claim.value.fence == fence then op.(claim := None) else op
  }
}
