/** The receipt chain of one operation: what each transaction keeps, and when a snapshot can be refused. */
module ExternalReceipts {
  import opened Wrappers
  import opened Totals
  import opened ExternalOperation

  // ----- what holds of an operation between transactions -----

  /** One permit at most; evidence, outcome and reconciliation say exactly what the permit and the observations
      imply. */
  ghost predicate Coherent(op: Operation) {
    && op.permits <= 1
    && (op.evidence.NotStarted? <==> op.permits == 0)
    && (op.evidence.ProviderAccepted? <==> op.providerId.Some?)
    && (op.outcome.Unobserved? <==> op.permits == 0)
    && (op.reconciliation <==> op.permits == 1 && (!Confirmed(op.outcome) || op.conflicts != []))
    && (op.conflicts != [] ==> Confirmed(op.outcome))
    && (op.permits == 0 ==> op.observations == [] && op.issued == [])
  }

  /** The observation and evidence budgets, per operation and per case. */
  ghost predicate WithinLimits(op: Operation) {
    && op.consumed.records <= MAX_RECORDS && op.consumed.bytes <= MAX_BYTES && op.consumed.elapsed <= MAX_ELAPSED
    && |op.cases| <= 1 && (forall c | c in op.cases :: c.records <= MAX_CASE_RECORDS && c.bytes <= MAX_BYTES)
    && |op.observations| == op.consumed.records + CaseRecords(op)
    && |op.conflicts| <= |op.observations| && |op.conflicts| <= MAX_CONFLICTS
  }

  function CaseRecords(op: Operation): nat {
    if op.cases == [] then 0 else op.cases[0].records
  }

  function Reserved(c: QueryClaim): int {
    c.reserved
  }

  /** Fences count permits and queries; the query time spent is the sum of all reservations ever made. */
  ghost predicate Reservations(op: Operation) {
    && op.fence == op.permits + |op.issued|
    && op.consumed.queryCalls == |op.issued| <= MAX_QUERIES
    && op.consumed.queryMs == Total(op.issued, Reserved) <= MAX_QUERY_MS
    && (forall i | 0 <= i < |op.issued| ::
          op.issued[i].fence == i + 2 && op.issued[i].number == i + 1
              && 1 <= op.issued[i].reserved <= MAX_QUERY_CALL_MS)
    && (op.claim.Some? ==> op.issued != [] && op.claim.value == op.issued[|op.issued| - 1])
    && op.consumed.elapsed == if op.issued == [] then 0 else Elapsed(op.who, IssuedAt(op.issued[|op.issued| - 1]))
  }

  function IssuedAt(c: QueryClaim): int {
    c.deadline - c.reserved
  }

  /** Receipts written so far: one at activation, then one for each permit, case, observation, query and parent
      ending. */
  function ReceiptCount(op: Operation): nat {
    1 + op.permits + |op.cases| + |op.observations| + |op.issued| + (if op.terminal.Some? then 1 else 0)
  }

  /** The latest receipt shows the operation as it is. */
  ghost predicate Mirrored(op: Operation) {
    && op.latest.Some?
    && var r := op.latest.value;
      && r.sequence == op.sequence == ReceiptCount(op)
      && r == OpReceipt(op.who, op.evidence, op.outcome, op.reconciliation, op.permits, op.sequence, op.observations,
                        op.conflicts,
                        op.consumed, op.cases, r.recordedAt, r.previous, op.terminal)
      && Linked(r)
  }

  /** A chain every link of which the validator accepted; a receipt with a conflict asks for reconciliation. */
  ghost predicate Linked(r: OpReceipt) {
    && (r.conflicts != [] ==> r.reconciliation)
    && ReceiptFault(r, if r.previous.Some? then Some(r.previous.value.receipt) else None).None?
    && (r.previous.Some? ==> Follows(r.previous.value.receipt, r) && Linked(r.previous.value.receipt))
  }

  /** What the transactions, beyond the validator, guarantee between consecutive receipts. */
  ghost predicate Follows(p: OpReceipt, r: OpReceipt) {
    && p.permits <= r.permits && p.observations <= r.observations && p.conflicts <= r.conflicts
    && (p.conflicts != [] ==> r.reconciliation)
  }

  ghost predicate GoodOperation(op: Operation) {
    Coherent(op) && WithinLimits(op) && Reservations(op) && Mirrored(op)
  }

  /** What every later state of an operation has in common with this one. */
  ghost predicate Grows(a: Operation, b: Operation) {
    && b.who == a.who && a.permits <= b.permits && a.sequence <= b.sequence && a.fence <= b.fence
    && a.observations <= b.observations && a.conflicts <= b.conflicts && a.issued <= b.issued
    && (Confirmed(a.outcome) ==> b.outcome == a.outcome)
    && (a.providerId.Some? ==> b.providerId == a.providerId)
    && (a.terminal.Some? ==> b.terminal == a.terminal)
    && a.consumed.queryCalls <= b.consumed.queryCalls && a.consumed.queryMs <= b.consumed.queryMs
    && a.consumed.records <= b.consumed.records && a.consumed.bytes <= b.consumed.bytes
  }

  lemma GrowsTransitive(a: Operation, b: Operation, c: Operation)
    requires Grows(a, b) && Grows(b, c)
    ensures Grows(a, c)
  {
  }

  // ----- the snapshot -----

  /** A changed operation about to be snapshot: everything holds but the mirror, which still shows the state before. */
  ghost predicate Drafted(before: Operation, op: Operation) {
    && Coherent(op) && WithinLimitsButConflicts(op) && Reservations(op) && Mirrored(before)
    && op.latest == before.latest && op.sequence == before.sequence && ReceiptCount(op) == op.sequence + 1
    && Grows(before, op) && (before.conflicts != [] ==> op.reconciliation)
  }

  ghost predicate WithinLimitsButConflicts(op: Operation) {
    && op.consumed.records <= MAX_RECORDS && op.consumed.bytes <= MAX_BYTES && op.consumed.elapsed <= MAX_ELAPSED
    && |op.cases| <= 1 && (forall c | c in op.cases :: c.records <= MAX_CASE_RECORDS && c.bytes <= MAX_BYTES)
    && |op.observations| == op.consumed.records + CaseRecords(op)
    && |op.conflicts| <= |op.observations|
  }

  /** The validator refuses the next receipt in exactly two cases: a conflict too many, or a clock that went
      backwards. */
  lemma SnapshotRefusedOnlyIf(before: Operation, op: Operation, now: int)
    requires Drafted(before, op)
    ensures Snapshot(op, now).Ok? <==> |op.conflicts| <= MAX_CONFLICTS && before.consumed.elapsed <= op.consumed.elapsed
  {
    hide Total, Linked;
    var r := ReceiptOf(op, op.sequence + 1, op.latest, now);
    assert ReceiptShape(r) <==> |op.conflicts| <= MAX_CONFLICTS;
  }

  lemma SnapshotGood(before: Operation, op: Operation, now: int)
    requires Drafted(before, op) && Snapshot(op, now).Ok?
    ensures var next := Snapshot(op, now).value; GoodOperation(next) && Grows(before, next)
  {
    hide Total;
    SnapshotRefusedOnlyIf(before, op, now);
    var next := Snapshot(op, now).value;
    var r := next.latest.value;
    assert Follows(op.latest.value, r);
    assert Linked(op.latest.value);
  }

  // ----- every transaction on an operation -----

  /** Activation's snapshot is the first receipt, and is never refused. */
  lemma ActivationGood(who: Identity, now: int)
    ensures Snapshot(NewOperation(who), now).Ok? && GoodOperation(Snapshot(NewOperation(who), now).value)
  {
  }

  lemma PermitGood(op: Operation, now: int)
    requires GoodOperation(op) && op.permits == 0
    ensures var t := Snapshot(Permit(op), now); t.Ok? && GoodOperation(t.value) && Grows(op, t.value)
  {
    hide Total, Linked;
    assert Drafted(op, Permit(op));
    SnapshotRefusedOnlyIf(op, Permit(op), now);
    SnapshotGood(op, Permit(op), now);
  }

  lemma AttachGood(op: Operation, r: ParentReceipt, now: int)
    requires GoodOperation(op) && op.terminal.None?
    ensures var t := Snapshot(Attach(op, r), now); t.Ok? && GoodOperation(t.value) && Grows(op, t.value)
  {
    hide Total, Linked;
    assert Drafted(op, Attach(op, r));
    SnapshotRefusedOnlyIf(op, Attach(op, r), now);
    SnapshotGood(op, Attach(op, r), now);
  }

  lemma CaseDrafted(op: Operation, id: string)
    requires GoodOperation(op) && op.cases == []
    ensures Drafted(op, op.(cases := [Case(id, 0, 0)])) && |op.conflicts| <= MAX_CONFLICTS
  {
    hide Total, Linked;
  }

  lemma CaseGood(op: Operation, id: string, now: int)
    requires GoodOperation(op)
    ensures var t := RegisterCase(op, id, now);
      && (t.Err? <==> op.cases != [] && op.cases[0].id != id)
      && (t.Ok? ==> GoodOperation(t.value) && Grows(op, t.value))
  {
    hide GoodOperation, Drafted, Grows, Snapshot;
    if op.cases == [] {
      var c := op.(cases := [Case(id, 0, 0)]);
      CaseDrafted(op, id);
      SnapshotRefusedOnlyIf(op, c, now);
      SnapshotGood(op, c, now);
    } else {
      GrowsItself(op);
    }
  }

  lemma GrowsItself(op: Operation)
    ensures Grows(op, op)
  {
  }

  lemma RecordedCoherent(op: Operation, o: Observation)
    requires Coherent(op) && op.permits == 1 && WellFormed(o)
    ensures Coherent(Recorded(op, o))
  {
    hide CasesAfter, ConsumedAfter;
  }

  lemma RecordedWithinLimits(op: Operation, o: Observation)
    requires WithinLimits(op) && !OverEvidenceBudget(op, o) && (o.manualCase.Some? ==> op.cases != [])
    ensures WithinLimitsButConflicts(Recorded(op, o)) && ReceiptCount(Recorded(op, o)) == ReceiptCount(op) + 1
  {
    hide ReconciliationAfter, WellFormed;
  }

  lemma RecordedGrows(op: Operation, o: Observation)
    requires op.providerId.Some? ==> o.providerId == op.providerId
    ensures Grows(op, Recorded(op, o))
  {
    hide CasesAfter, ReconciliationAfter;
    var r := Recorded(op, o);
    assert r.observations == op.observations + [o];
  }

  lemma RecordedReservations(op: Operation, o: Observation)
    requires Reservations(op)
    ensures Reservations(Recorded(op, o))
  {
    hide Total, CasesAfter, ReconciliationAfter, Dispose, Elapsed;
  }

  lemma RecordDrafted(op: Operation, o: Observation)
    requires GoodOperation(op) && op.permits == 1 && WellFormed(o) && !OverEvidenceBudget(op, o)
    requires o.manualCase.Some? ==> op.cases != []
    requires op.providerId.Some? ==> o.providerId == op.providerId
    ensures Drafted(op, Recorded(op, o))
  {
    hide WithinLimits, WithinLimitsButConflicts, Reservations, Linked, Grows, WellFormed, OverEvidenceBudget,
         ConsumedAfter, CasesAfter;
    RecordedCoherent(op, o);
    RecordedWithinLimits(op, o);
    RecordedGrows(op, o);
    RecordedReservations(op, o);
    RecordedApart(op, o);
  }

  lemma RecordedApart(op: Operation, o: Observation)
    ensures var r := Recorded(op, o);
      && r.latest == op.latest && r.sequence == op.sequence && r.responses == op.responses
      && (op.conflicts != [] && Confirmed(op.outcome) && op.reconciliation ==> r.reconciliation)
      && r.observations == op.observations + [o]
      && r.conflicts == op.conflicts + (if Dispose(op, o).Conflicting? then [o] else [])
      && r.consumed.elapsed == op.consumed.elapsed
  {
    hide Dispose;
  }

  predicate Admissible(op: Operation, o: Observation, facts: Facts, through: Option<QueryClaim>, now: int) {
    && ObservationFault(op, o, facts, through, now).None? && ManualFault(op, o, facts).None?
    && FindObservation(op.observations, o.id).None? && op.permits == 1 && !OverEvidenceBudget(op, o)
  }

  lemma AdmissibleObservation(op: Operation, o: Observation, facts: Facts, through: Option<QueryClaim>, now: int)
    requires GoodOperation(op) && Admissible(op, o, facts, through, now)
    ensures Drafted(op, Recorded(op, o))
    ensures Snapshot(Recorded(op, o), now).Ok? <==> !(Dispose(op, o).Conflicting? && |op.conflicts| == MAX_CONFLICTS)
  {
    hide Coherent, Reservations, Mirrored, Grows, FindObservation, OverEvidenceBudget, Drafted, Recorded, Snapshot,
         Dispose;
    RecordDrafted(op, o);
    SnapshotRefusedOnlyIf(op, Recorded(op, o), now);
    RecordedApart(op, o);
  }

  /** A new observation that passes every check is refused exactly when it would be the 65th conflict; one that is
      recorded through a query was sent under the current, unexpired claim; any other leaves the operation as it was. */
  lemma ObserveGood(op: Operation, o: Observation, facts: Facts, through: Option<QueryClaim>, now: int)
    requires GoodOperation(op)
    ensures var t := Observe(op, o, facts, through, now);
      && (t.Ok? ==> GoodOperation(t.value) && Grows(op, t.value))
      && (Admissible(op, o, facts, through, now) ==>
          (t.Err? <==> Dispose(op, o).Conflicting? && |op.conflicts| == MAX_CONFLICTS))
      && (!Admissible(op, o, facts, through, now) && t.Ok? ==>
          t.value == op && FindObservation(op.observations, o.id) == Some(o))
      && (Admissible(op, o, facts, through, now) && through.Some? ==> QueriedBy(op, through.value, now))
  {
    hide Coherent, Reservations, Mirrored, WithinLimits, FindObservation, OverEvidenceBudget, Recorded, Snapshot,
         Drafted, Dispose, ManualFault, Linked;
    if Admissible(op, o, facts, through, now) {
      AdmissibleObservation(op, o, facts, through, now);
      if Snapshot(Recorded(op, o), now).Ok? {
        SnapshotGood(op, Recorded(op, o), now);
        ResponsesApart(Snapshot(Recorded(op, o), now).value);
      }
    }
  }

  /** The stored query claim is the one a response came through, and has not run out. */
  predicate QueriedBy(op: Operation, claim: QueryClaim, now: int) {
    op.claim.Some? && op.claim.value.fence == claim.fence && now < claim.deadline
  }

  lemma ResponsesApart(op: Operation)
    requires GoodOperation(op)
    ensures forall m :: GoodOperation(op.(responses := m))
  {
    hide Total, Linked;
  }

  lemma ReserveDrafted(op: Operation, timeoutSeconds: int, now: int)
    requires GoodOperation(op) && op.permits == 1 && QueriesLeft(op, now) && Allowance(op, timeoutSeconds) > 0
    ensures Drafted(op, Reserve(op, timeoutSeconds, now))
  {
    hide Total, Linked;
    var r := Reserve(op, timeoutSeconds, now);
    TotalAppend(op.issued, r.claim.value, Reserved);
  }

  lemma QueryAllowed(op: Operation, supported: bool, callsLeft: bool, timeoutSeconds: int, now: int)
    requires QueryFault(op, supported, callsLeft, timeoutSeconds, now).None?
    ensures Allowance(op, timeoutSeconds) > 0
  {
  }

  lemma ReserveKeepsIdentity(op: Operation, timeoutSeconds: int, now: int)
    requires Allowance(op, timeoutSeconds) > 0 && Snapshot(Reserve(op, timeoutSeconds, now), now).Ok?
    ensures Snapshot(Reserve(op, timeoutSeconds, now), now).value.who == op.who
  {
    hide ReceiptFault;
  }

  /** A query reservation is refused by the validator exactly when the clock stands before what was already
      accounted. */
  lemma ReserveGood(op: Operation, timeoutSeconds: int, now: int)
    requires GoodOperation(op) && op.permits == 1 && QueriesLeft(op, now) && Allowance(op, timeoutSeconds) > 0
    ensures var t := Snapshot(Reserve(op, timeoutSeconds, now), now);
      && (t.Ok? <==> op.consumed.elapsed <= Elapsed(op.who, now))
      && (t.Ok? ==> GoodOperation(t.value) && Grows(op, t.value))
      && (t.Ok? ==> t.value.issued == op.issued + [t.value.claim.value] && t.value.claim.value.fence == op.fence + 1)
  {
    hide Total, Linked, Coherent, Reservations, Mirrored, Allowance, Elapsed;
    ReserveDrafted(op, timeoutSeconds, now);
    SnapshotRefusedOnlyIf(op, Reserve(op, timeoutSeconds, now), now);
    if Snapshot(Reserve(op, timeoutSeconds, now), now).Ok? {
      SnapshotGood(op, Reserve(op, timeoutSeconds, now), now);
    }
  }

  /** A clock no earlier than the last reservation's is late enough. */
  lemma MonotoneClockSuffices(op: Operation, now: int)
    requires GoodOperation(op) && (op.issued != [] ==> IssuedAt(op.issued[|op.issued| - 1]) <= now)
    ensures op.consumed.elapsed <= Elapsed(op.who, now)
  {
    hide Total, Linked, Mirrored;
  }

  lemma ClearClaimGood(op: Operation, fence: nat)
    requires GoodOperation(op)
    ensures GoodOperation(ClearClaim(op, fence)) && Grows(op, ClearClaim(op, fence))
  {
    hide Total, Linked;
  }

  /** An operation with its permit, queried once a second after it was created, and its claim cleared. */
  lemma QueriedOnce(who: Identity) returns (op: Operation)
    ensures GoodOperation(op) && op.who == who && op.permits == 1 && op.claim.None?
            && op.consumed == Consumed(1, 1000, 1, 0, 0)
  {
    hide Coherent, WithinLimits, Reservations, Mirrored, ReceiptFault;
    var now := who.createdAt;
    ActivationGood(who, now);
    var activated := Snapshot(NewOperation(who), now).value;
    PermitGood(activated, now);
    var permitted := Snapshot(Permit(activated), now).value;
    ReserveGood(permitted, 1, now + 1000);
    var queried := Snapshot(Reserve(permitted, 1, now + 1000), now + 1000).value;
    ClearClaimGood(queried, queried.fence);
    op := ClearClaim(queried, queried.fence);
  }

  /** A clock set back refuses: after that query, another within the first second has its receipt refused. */
  lemma ClockBackRefuses(who: Identity, now: int) returns (op: Operation)
    requires who.createdAt <= now < who.createdAt + 1000
    ensures GoodOperation(op) && op.who == who && QueryFault(op, true, true, 1, now).None? && QueriesLeft(op, now)
    ensures Snapshot(Reserve(op, 1, now), now).Err?
  {
    hide GoodOperation, Snapshot;
    op := QueriedOnce(who);
    ReserveGood(op, 1, now);
  }

  /** An observation of one's own operation under the n-th of a row of names, by an adapter or under a manual case. */
  function Told(who: Identity, n: nat, outcome: Outcome, manualCase: Option<string>): Observation {
    Observation(seq(n + 3, _ => 'x'), TargetOf(who), manualCase, outcome, None, 0, "", "principal")
  }

  /** A confirmed success contradicted n times, with what its budgets have left. */
  ghost predicate Contradicted(op: Operation, who: Identity, n: nat, records: nat) {
    && GoodOperation(op) && op.who == who && op.permits == 1 && op.outcome.ConfirmedSucceeded? && op.providerId.None?
    && |op.conflicts| == n && op.consumed.records == records && op.consumed.bytes == 0 && op.observations != []
    && (op.cases == []
        || (op.cases[0].id == "case" && op.cases[0].records + records == n + 1 && op.cases[0].bytes == 0))
    && forall o | o in op.observations :: |o.id| <= n + 3
  }

  const CERTAIN := Facts(true, true, true, true)

  lemma ToldIsNew(op: Operation, o: Observation)
    requires forall p | p in op.observations :: |p.id| < |o.id|
    ensures FindObservation(op.observations, o.id).None?
  {
  }

  lemma ContradictedOnceMore(op: Operation, who: Identity, n: nat, records: nat, manualCase: Option<string>, now: int)
    requires Contradicted(op, who, n, records) && n < MAX_CONFLICTS
    requires if manualCase.None? then records < MAX_RECORDS
             else op.cases != [] && manualCase.value == "case" && op.cases[0].records < MAX_CASE_RECORDS
    ensures var t := Observe(op, Told(who, n + 1, ConfirmedFailed, manualCase), CERTAIN, None, now);
      t.Ok? && Contradicted(t.value, who, n + 1, if manualCase.None? then records + 1 else records)
          && (t.value.cases == [] <==> op.cases == [])
  {
    hide Coherent, WithinLimits, Reservations, Mirrored, ReceiptFault, FindObservation;
    var o := Told(who, n + 1, ConfirmedFailed, manualCase);
    ToldIsNew(op, o);
    ObserveGood(op, o, CERTAIN, None, now);
  }

  lemma {:induction false} ContradictedByAdapter(who: Identity, n: nat, now: int) returns (op: Operation)
    requires n < MAX_RECORDS
    ensures Contradicted(op, who, n, n + 1) && op.cases == []
  {
    if n == 0 {
      op := ConfirmedOnce(who, now);
    } else {
      hide Contradicted, Observe;
      var before := ContradictedByAdapter(who, n - 1, now);
      ContradictedOnceMore(before, who, n - 1, n, None, now);
      op := Observe(before, Told(who, n, ConfirmedFailed, None), CERTAIN, None, now).value;
    }
  }

  lemma ConfirmedOnce(who: Identity, now: int) returns (op: Operation)
    ensures Contradicted(op, who, 0, 1) && op.cases == []
  {
    hide Coherent, WithinLimits, Reservations, Mirrored, ReceiptFault;
    ActivationGood(who, now);
    var activated := Snapshot(NewOperation(who), now).value;
    PermitGood(activated, now);
    var permitted := Snapshot(Permit(activated), now).value;
    ObserveGood(permitted, Told(who, 0, ConfirmedSucceeded, None), CERTAIN, None, now);
    op := Observe(permitted, Told(who, 0, ConfirmedSucceeded, None), CERTAIN, None, now).value;
  }

  lemma CaseOpened(op: Operation, who: Identity, n: nat, now: int)
    requires Contradicted(op, who, n, n + 1) && op.cases == []
    ensures var t := RegisterCase(op, "case", now); t.Ok? && Contradicted(t.value, who, n, n + 1) && t.value.cases != []
  {
    hide Coherent, WithinLimits, Reservations, Mirrored, ReceiptFault;
    CaseGood(op, "case", now);
  }

  /** A success, 63 contradictions by adapters, a manual case and a contradiction under it use the receipt up: the next
      contradiction passes every check and is refused. */
  lemma OneConflictTooMany(who: Identity, now: int) returns (op: Operation, o: Observation)
    ensures GoodOperation(op) && op.who == who && Admissible(op, o, CERTAIN, None, now)
            && Observe(op, o, CERTAIN, None, now).Err?
  {
    hide Coherent, WithinLimits, Reservations, Mirrored, Snapshot, Recorded, FindObservation;
    var told := ContradictedByAdapter(who, 63, now);
    CaseOpened(told, who, 63, now);
    var attended := RegisterCase(told, "case", now).value;
    ContradictedOnceMore(attended, who, 63, 64, Some("case"), now);
    op := Observe(attended, Told(who, 64, ConfirmedFailed, Some("case")), CERTAIN, None, now).value;
    o := Told(who, 65, ConfirmedFailed, Some("case"));
    ToldIsNew(op, o);
    ObserveGood(op, o, CERTAIN, None, now);
  }

  // ----- the chain -----

  /** All receipts of an operation, oldest first, read off its latest. */
  function Chain(r: OpReceipt): seq<OpReceipt> {
    if r.previous.None? then [r] else Chain(r.previous.value.receipt) + [r]
  }

  /** An operation's receipts are numbered 1 to `sequence`, name the same operation, and each carries the digest of
      the one before. */
  lemma {:induction false} ChainIsNumbered(r: OpReceipt)
    requires Linked(r)
    ensures |Chain(r)| == r.sequence && Chain(r)[|Chain(r)| - 1] == r
    ensures forall k | 0 <= k < |Chain(r)| :: Chain(r)[k].sequence == k + 1 && Chain(r)[k].who == r.who
    ensures forall k | 0 < k < |Chain(r)| :: Chain(r)[k].previous == Some(ReceiptDigest(Chain(r)[k - 1]))
  {
    if r.previous.Some? {
      ChainIsNumbered(r.previous.value.receipt);
    }
  }

  /** What an earlier receipt settles, every later one repeats. */
  ghost predicate Settles(a: OpReceipt, b: OpReceipt) {
    && a.permits <= b.permits && Covers(b.consumed, a.consumed)
    && a.observations <= b.observations && a.conflicts <= b.conflicts
    && (Confirmed(a.outcome) ==> b.outcome == a.outcome)
    && (a.conflicts != [] ==> b.conflicts != [] && b.reconciliation)
    && (a.terminal.Some? ==> b.terminal == a.terminal)
  }

  lemma {:induction false} ChainSettles(r: OpReceipt, i: nat)
    requires Linked(r) && i < |Chain(r)|
    ensures Settles(Chain(r)[i], r)
  {
    if r.previous.Some? && i < |Chain(r)| - 1 {
      var p := r.previous.value.receipt;
      assert Follows(p, r);
      assert Chain(r)[i] == Chain(p)[i];
      ChainSettles(p, i);
    }
  }
}
