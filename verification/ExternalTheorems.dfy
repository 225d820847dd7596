/** What the external-operation service guarantees over every run. */
module ExternalTheorems {
  import opened Wrappers
  import opened DependencyGraph
  import opened RuntimeWorkflow
  import opened WorkflowOutcomes
  import opened Totals
  import opened WorkflowScheduling
  import opened WorkflowLog
  import opened WorkflowRuns
  import opened ExternalOperation
  import opened ExternalReceipts
  import opened ExternalWorld
  import opened ExternalCounters
  import opened ExternalParents
  import opened ExternalInvariant
  import opened ExternalSteps
  import opened ExternalEndings
  import opened ExternalRuns
  import opened ExternalRefusals

  /** The state after any events whatever, starting from empty tables. */
  ghost function History(events: seq<Timed>): (w: World)
    ensures Inv(w)
  {
    EmptyHolds();
    RunEvents(EMPTY, events)
  }

  // ----- at most one external effect -----

  function IsSubmission(row: nat): ProviderCall -> int {
    (c: ProviderCall) => if c == Submission(row) then 1 else 0
  }

  lemma {:induction false} CountOnce(calls: seq<ProviderCall>, row: nat)
    requires NoDuplicates(calls)
    ensures Total(calls, IsSubmission(row)) == if Submission(row) in calls then 1 else 0
  {
    if calls != [] {
      var last := |calls| - 1;
      assert calls == calls[..last] + [calls[last]];
      assert forall i | 0 <= i < last :: calls[i] != calls[last];
      CountOnce(calls[..last], row);
    }
  }

  /** Calls made and calls still to come, together, never exceed the permits, of which there is at most one. */
  lemma SubmissionsWithinPermits(events: seq<Timed>, row: nat)
    requires row < |History(events).operations|
    ensures var w := History(events);
      Total(w.calls, IsSubmission(row)) + (if row in w.submitting then 1 else 0) <= w.operations[row].permits <= 1
  {
    hide History, Table, Parents, Authority, GoodOperation, Total;
    var w := History(events);
    InvTable(w);
    TableRow(w.operations, row);
    OnePermit(w.operations[row]);
    CountOnce(w.calls, row);
    assert Submission(row) in w.calls ==> w.operations[row].permits == 1;
  }

  /** No two provider calls are ever made for one subject, under one approval or for one workflow step. */
  lemma OneEffectEach(events: seq<Timed>, i: nat, j: nat)
    requires i < j < |History(events).calls| && History(events).calls[i].Submission?
             && History(events).calls[j].Submission?
    ensures var w := History(events);
      && w.calls[i].row < |w.operations| && w.calls[j].row < |w.operations|
      && var a, b := w.operations[w.calls[i].row], w.operations[w.calls[j].row];
        && !SameSubject(a, b) && !SameApproval(a, b)
        && (a.who.application.job != b.who.application.job || a.who.application.step != b.who.application.step)
  {
    hide History, Parents, Authority, GoodOperation;
    var w := History(events);
    assert w.calls[i] in w.calls && w.calls[j] in w.calls && w.calls[i] != w.calls[j];
  }

  // ----- revocation -----

  /** Once an issuer's epoch has passed an approval's, no run ever issues a permit under that approval again. */
  lemma RevokedApprovalPermitsNothing(w: World, events: seq<Timed>, approval: Key, n: nat)
    requires Inv(w) && approval in w.approvals
    requires var issuer := Key(approval.namespace, w.approvals[approval].issuer);
      issuer in w.issuers && w.approvals[approval].epoch < w.issuers[issuer].epoch
    requires |w.permits| <= n < |RunEvents(w, events).permits|
    ensures var v := RunEvents(w, events);
      v.permits[n].row < |v.operations| && !HasApproval(v.operations[v.permits[n].row], approval.namespace, approval.id)
  {
    hide RunEvents, Table, Parents, Workers, Grows;
    var v := RunEvents(w, events);
    assert PermitOk(v, v.permits[n]);
  }

  /** A revocation raises the issuer's epoch past every approval of that issuer registered so far. */
  lemma RevocationPassesApprovals(w: World, approval: Key, issuer: string, epoch: nat)
    requires Inv(w) && Revoke(w, approval, issuer, epoch).Ok?
    ensures var v, key := Revoke(w, approval, issuer, epoch).value, Key(approval.namespace, issuer);
      && v.approvals == w.approvals && key in v.issuers
      && forall k | k in w.approvals && k.namespace == approval.namespace && w.approvals[k].issuer == issuer ::
           w.approvals[k].epoch < v.issuers[key].epoch
  {
    hide Table, Parents, Workers;
  }

  lemma {:induction false} RunEventsAppends(w: World, first: seq<Timed>, more: seq<Timed>)
    requires Inv(w)
    ensures RunEvents(w, first + more) == RunEvents(RunEvents(w, first), more)
    decreases |first|
  {
    hide Inv, Evolves, Happen;
    if first == [] {
      assert first + more == more;
    } else {
      InvPlanned(w);
      HappenKeeps(w, first[0].event, first[0].now);
      assert (first + more)[1..] == first[1..] + more;
      RunEventsAppends(Happen(w, first[0].event, first[0].now), first[1..], more);
    }
  }

  lemma HistoryThen(before: seq<Timed>, e: Timed, later: seq<Timed>)
    ensures ParentsPlanned(History(before)) && Inv(Happen(History(before), e.event, e.now))
    ensures History(before + [e] + later) == RunEvents(Happen(History(before), e.event, e.now), later)
  {
    hide Inv, Evolves, Happen;
    var w := History(before);
    EmptyHolds();
    InvPlanned(w);
    HappenKeeps(w, e.event, e.now);
    RunEventsAppends(EMPTY, before + [e], later);
    RunEventsAppends(EMPTY, before, [e]);
    assert RunEvents(w, [e]) == RunEvents(Happen(w, e.event, e.now), []);
  }

  lemma EmptyHistory()
    ensures History([]) == EMPTY
  {
    hide Inv, Evolves;
  }

  lemma Planned(w: World)
    requires Inv(w)
    ensures ParentsPlanned(w)
  {
    hide Inv;
    InvPlanned(w);
  }

  lemma HistorySnoc(before: seq<Timed>, e: Timed)
    ensures ParentsPlanned(History(before))
    ensures History(before + [e]) == Happen(History(before), e.event, e.now)
  {
    hide Inv, Evolves, Happen, History;
    HistoryThen(before, e, []);
    assert before + [e] + [] == before + [e];
    assert RunEvents(Happen(History(before), e.event, e.now), []) == Happen(History(before), e.event, e.now);
  }

  lemma RevokedHappens(w: World, approval: Key, issuer: string, epoch: nat, now: int)
    requires ParentsPlanned(w) && Revoke(w, approval, issuer, epoch).Ok?
    ensures var v := Happen(w, ApprovalRevoked(approval, issuer, epoch), now);
      v == Revoke(w, approval, issuer, epoch).value && v.permits == w.permits
  {
  }

  /** After a committed revocation, whatever follows, no permit is issued under any approval of that issuer registered
      before it. */
  lemma RevocationEndsApprovals(before: seq<Timed>, approval: Key, issuer: string, epoch: nat, now: int,
                                later: seq<Timed>, other: Key, n: nat)
    requires Revoke(History(before), approval, issuer, epoch).Ok? && other in History(before).approvals
    requires other.namespace == approval.namespace && History(before).approvals[other].issuer == issuer
    requires |History(before).permits| <= n < |History(before + [Timed(ApprovalRevoked(approval, issuer, epoch), now)]
                                                       + later).permits|
    ensures var v := History(before + [Timed(ApprovalRevoked(approval, issuer, epoch), now)] + later);
      v.permits[n].row < |v.operations| && !HasApproval(v.operations[v.permits[n].row], other.namespace, other.id)
  {
    hide History, Inv, RunEvents, Happen, Revoke, Evolves;
    var w := History(before);
    HistoryThen(before, Timed(ApprovalRevoked(approval, issuer, epoch), now), later);
    RevocationPassesApprovals(w, approval, issuer, epoch);
    RevokedHappens(w, approval, issuer, epoch, now);
    RevokedApprovalPermitsNothing(Revoke(w, approval, issuer, epoch).value, later, other, n);
  }

  /** Every permit ever issued was covered: by the approval its operation names, registered and of the issuer it
      names, in that issuer's epoch at the time, within the approval's window and a freshness window of at most thirty
      seconds. */
  lemma EveryPermitWasCovered(events: seq<Timed>, n: nat)
    requires n < |History(events).permits|
    ensures var w := History(events);
      var p := w.permits[n];
      && p.row < |w.operations| && w.operations[p.row].permits == 1
      && var app := w.operations[p.row].who.application;
        var approval, issuer := Key(app.namespace, app.approval), Key(app.namespace, app.issuer);
        && approval in w.approvals && p.approval == w.approvals[approval] && p.approval.issuer == app.issuer
        && issuer in w.issuers && p.approval.epoch == p.issuer.epoch <= w.issuers[issuer].epoch
        && p.approval.issuedAt <= p.now < p.approval.expiresAt
        && p.issuer.freshness.Some?
        && var f := p.issuer.freshness.value;
           f.observedAt <= p.now < f.validUntil && f.validUntil - f.observedAt <= 30000
  {
    hide History, Table, Parents, Workers;
    var w := History(events);
    assert PermitOk(w, w.permits[n]);
  }

  // ----- conservation of calls -----

  /** In every state a parent's call counters are the sums over its operations, and within its budget. */
  lemma CallsAreConserved(events: seq<Timed>, job: string)
    requires job in History(events).parents
    ensures var w := History(events);
      var k := w.parents[job].counters;
      && k.externalCalls == Total(w.operations, CallsOf(job)) <= w.parents[job].plan.budgets.externalCalls
      && k.recoveryQueryCalls == Total(w.operations, QueriesOf(job))
  {
    hide History, Inv, Kept, OperationsOf, StepsTrack, Receivable, Counted, Total;
    InvParent(History(events), job);
  }

  // ----- receipts and recovery -----

  /** The receipts of an operation are numbered 1 to its sequence, chained by digest, and settle what they settle for
      good. */
  lemma ReceiptsSettle(events: seq<Timed>, row: nat, k: nat)
    requires row < |History(events).operations| && k < History(events).operations[row].sequence
    ensures var op := History(events).operations[row];
      && op.latest.Some? && var chain := Chain(op.latest.value);
        && |chain| == op.sequence == ReceiptCount(op) <= 104
        && chain[k].sequence == k + 1 && chain[k].who == op.who && Settles(chain[k], op.latest.value)
        && (k > 0 ==> chain[k].previous == Some(ReceiptDigest(chain[k - 1])))
  {
    hide History, Parents, Authority, Workers, Total, Linked, Chain, Settles;
    var op := History(events).operations[row];
    TableRow(History(events).operations, row);
    ChainIsNumbered(op.latest.value);
    ChainSettles(op.latest.value, k);
    ReceiptBound(op);
  }

  lemma ReceiptBound(op: Operation)
    requires GoodOperation(op)
    ensures ReceiptCount(op) <= 104
  {
    hide Total, Linked;
  }

  /** Confirmed outcomes and provider ids, once known, never change; conflicts keep reconciliation required. */
  lemma OutcomesStick(w: World, events: seq<Timed>, row: nat)
    requires Inv(w) && row < |w.operations|
    ensures var v := RunEvents(w, events);
      && row < |v.operations|
      && (Confirmed(w.operations[row].outcome) ==> v.operations[row].outcome == w.operations[row].outcome)
      && (w.operations[row].providerId.Some? ==> v.operations[row].providerId == w.operations[row].providerId)
      && (w.operations[row].conflicts != [] ==> v.operations[row].reconciliation)
  {
    hide RunEvents, Table, Parents, Authority, Workers;
    var v := RunEvents(w, events);
    assert Grows(w.operations[row], v.operations[row]);
    TableRow(w.operations, row);
    TableRow(v.operations, row);
    ConflictsRequireReconciliation(v.operations[row]);
  }

  lemma ConflictsRequireReconciliation(op: Operation)
    requires GoodOperation(op)
    ensures op.conflicts != [] ==> op.reconciliation
  {
  }

  /** Query claims: strictly increasing fences, at most 20 of them, and reservations that sum to the time spent, at
      most ten minutes. */
  lemma QueriesAreBounded(events: seq<Timed>, row: nat)
    requires row < |History(events).operations|
    ensures var op := History(events).operations[row];
      && op.consumed.queryCalls == |op.issued| <= 20
      && op.consumed.queryMs == Total(op.issued, Reserved) <= 600000
      && (forall a, b | 0 <= a < b < |op.issued| :: op.issued[a].fence < op.issued[b].fence)
      && (op.claim.Some? ==> op.claim.value in op.issued)
  {
    hide History, Parents, Authority, Workers, Total, Mirrored;
    TableRow(History(events).operations, row);
  }

  /** A stored query claim is replaced only after its deadline. */
  lemma ClaimIsReplacedAfterDeadline(w: World, namespace: string, key: string, r: Recovery, supervisor: Principal,
                                     supported: bool,
                                     timeoutSeconds: int, now: int)
    requires r.row < |w.operations| && w.operations[r.row].claim.Some?
    requires var t := ReconcileRow(w, namespace, key, r, supervisor, supported, timeoutSeconds, now);
      t.Ok? && r.row < |t.value.operations| && t.value.operations[r.row].claim != w.operations[r.row].claim
    ensures w.operations[r.row].claim.value.deadline <= now
  {
    hide Snapshot, QueriesLeft, Allowance;
  }

  /** A response that arrives through a query commits only under the current claim, before its deadline. */
  lemma ResponseIsFenced(w: World, row: nat, o: Observation, facts: Facts, claim: QueryClaim, now: int)
    requires Inv(w) && row < |w.operations|
    requires OrElse(w, ObserveRow(w, row, o, facts, Some(claim), now)) != w
    ensures QueriedBy(w.operations[row], claim, now)
  {
    hide Parents, Authority, Workers, Settle, AdvanceParent, CompletionReady, Observe, Admissible;
    TableRow(w.operations, row);
    ObserveGood(w.operations[row], o, facts, Some(claim), now);
  }

  /** The resolved operation ends its parent: it failed, or its step was the last to succeed. */
  predicate EndsParent(parent: Workflow, op: Operation) {
    && IsActive(parent) && Confirmed(op.outcome) && !op.reconciliation
    && (op.outcome.ConfirmedSucceeded? ==>
          forall s | s in parent.steps && s != op.who.application.step :: parent.steps[s].state == StepDone(Succeeded))
  }

  lemma AdvanceEndsIff(parent: Workflow, op: Operation, ready: bool)
    requires op.who.application.step in parent.steps && parent.receipt.None?
    requires !parent.steps[op.who.application.step].state.StepPending?
    requires Tracks(parent.steps[op.who.application.step].state, op.outcome)
    ensures AdvanceParent(parent, op, ready).receipt.Some? <==> EndsParent(parent, op)
  {
    hide Outcomes;
    if IsActive(parent) && op.outcome.ConfirmedSucceeded? {
      var step := op.who.application.step;
      var c := CloseExternal(parent, step, true);
      assert c.steps[step].state == StepDone(Succeeded) && c.steps.Keys == parent.steps.Keys;
      assert forall s | s in parent.steps && s != step :: c.steps[s] == parent.steps[s];
    }
  }

  lemma OperationTracked(ops: seq<Operation>, row: nat, parent: Workflow)
    requires row < |ops| && Table(ops) && ParentOk(ops, ops[row].who.application.job, parent)
    ensures var step := ops[row].who.application.step;
      && step in parent.steps && !parent.steps[step].state.StepPending?
      && Tracks(parent.steps[step].state, ops[row].outcome)
  {
    hide Scheduled, Logged, Total, Receivable, Counted, FindStep, GoodOperation, Table;
    var op, job := ops[row], ops[row].who.application.job;
    var step := op.who.application.step;
    assert OperationOf(op, parent);
    assert Tracks(parent.steps[step].state, op.outcome);
    assert HasStep(op, job, step) && HasOperation(ops, job, step);
    assert IsDispatch(parent, step);
  }

  lemma ReceiptWhenOver(ops: seq<Operation>, job: string, parent: Workflow)
    requires ParentOk(ops, job, parent)
    ensures parent.receipt.None? <==> IsActive(parent)
  {
    hide Scheduled, Logged, Outcomes, OperationsOf, StepsTrack, Receivable, Counted;
  }

  /** An observation that its operation accepts is rolled back for its parent's sake exactly when it would end a parent
      whose name leaves no room for its receipt's. */
  lemma ObservationsCommit(w: World, row: nat, o: Observation, facts: Facts, through: Option<QueryClaim>, now: int)
    requires Inv(w) && row < |w.operations|
    ensures var job := w.operations[row].who.application.job;
      && job in w.parents
      && var t := Observe(w.operations[row], o, facts, through, now);
        ObserveRow(w, row, o, facts, through, now).Ok? <==>
        && t.Ok?
        && (t.value == w.operations[row] || ReceiptIdFits(job) || !EndsParent(w.parents[job], t.value))
  {
    hide Inv, ParentOk, Moves, Settle, CompletionReady, GoodOperation, Grows, Observe, AdvanceParent, Table, Parents,
         Receivable, EndsParent, Tracks;
    JobKnown(w, row);
    if Observe(w.operations[row], o, facts, through, now).Ok? {
      InvTable(w);
      TableRow(w.operations, row);
      ObserveGood(w.operations[row], o, facts, through, now);
      var op := Observe(w.operations[row], o, facts, through, now).value;
      if op != w.operations[row] {
        ObserveIsQuiet(w.operations[row], o, facts, through, now);
        QuietRowKeeps(w, row, op);
        var next := w.(operations := w.operations[row := op]);
        var job := op.who.application.job;
        InvTable(next);
        InvParent(next, job);
        AdvanceMoves(next.operations, row, next.parents[job]);
        var ready := CompletionReady(next.operations, job, next.parents[job].plan);
        SettleKeeps(next, job, AdvanceParent(next.parents[job], op, ready), now);
        ParentReceivable(next.operations, job, next.parents[job]);
        AdvanceReceivable(next.parents[job], op, ready);
        OperationTracked(next.operations, row, next.parents[job]);
        if next.parents[job].receipt.None? {
          AdvanceEndsIff(next.parents[job], op, ready);
        } else {
          ReceiptWhenOver(next.operations, job, next.parents[job]);
          OverEndsNothing(next.parents[job], op);
        }
      }
    }
  }

  lemma OverEndsNothing(parent: Workflow, op: Operation)
    requires !IsActive(parent)
    ensures !EndsParent(parent, op)
  {
  }

  lemma AdvanceReceivable(parent: Workflow, op: Operation, ready: bool)
    requires op.who.application.step in parent.steps && Receivable(parent)
    ensures Receivable(AdvanceParent(parent, op, ready))
  {
    hide Outcomes, AllSucceeded, ReportsMatch, ParentErrorCode;
    OwnErrorsListed(ExternalOutcomeUnresolved);
  }

  lemma ParentReceivable(ops: seq<Operation>, job: string, parent: Workflow)
    requires ParentOk(ops, job, parent)
    ensures Receivable(parent)
  {
    hide Receivable;
  }

  /** A claim request on a parent is rolled back for its receipt exactly when it brings a new outcome that did not
      succeed and that either carries a report to be recorded or an error code that version 3 does not list, or when it
      ends a parent whose name leaves no room for its receipt's; every other request commits what it did. */
  lemma ClaimRequestsCommitUnless(w: World, job: string, action: Action, now: int)
    requires Inv(w) && job in w.parents && ParentsPlanned(w)
    ensures var parent := w.parents[job];
      ClaimAction(w, job, action, now).Err? <==>
      || Irreceivable(parent, action)
      || (!ReceiptIdFits(job) && IsActive(parent)
          && !IsActive(Step(parent, action, CompletionReady(w.operations, job, parent.plan))))
  {
    hide Inv, ParentOk, Settle, Step, CompletionReady, Kept, OperationsOf, StepsTrack, Receivable, Irreceivable,
         Counted, ClaimsReceivable;
    InvParent(w, job);
    var parent := w.parents[job];
    var ready := CompletionReady(w.operations, job, parent.plan);
    StepMoves(w.operations, job, parent, action);
    var v := Step(parent, action, ready);
    SettleKeeps(w, job, v, now);
    ParentReceivable(w.operations, job, parent);
    ParentKept(w.operations, job, parent);
    KeptReceipt(v);
    ReceivableByClaim(parent);
    ReceivableByClaim(v);
    if parent.receipt.None? {
      StepReceivable(parent, action, ready);
    } else {
      OverIsReceivable(parent, action);
    }
  }

  lemma KeptReceipt(v: Workflow)
    requires Kept(v)
    ensures v.receipt.None? <==> IsActive(v)
  {
    hide Scheduled, Logged, Outcomes;
  }

  /** However its steps go, a parent whose name leaves no room for its receipt's never ends. */
  lemma LongNameNeverEnds(events: seq<Timed>, job: string)
    requires job in History(events).parents && !ReceiptIdFits(job)
    ensures IsActive(History(events).parents[job]) && job !in History(events).receipts
  {
    hide History, Inv, ParentOk, Kept;
    var w := History(events);
    InvParent(w, job);
    InvReceipt(w, job);
    ParentKept(w.operations, job, w.parents[job]);
    if job in w.receipts {
      NamedReceipt(w, job);
    }
  }

  lemma NamedReceipt(w: World, job: string)
    requires Inv(w) && job in w.receipts
    ensures ReceiptIdFits(w.receipts[job].job)
  {
    hide ParentOk, Table, Authority, Workers;
    assert ReceiptOk(w.operations, job, w.parents[job], w.receipts);
  }

  lemma ParentKept(ops: seq<Operation>, job: string, parent: Workflow)
    requires ParentOk(ops, job, parent)
    ensures Kept(parent) && (parent.receipt.None? <==> IsActive(parent))
  {
    hide Scheduled, Logged, Outcomes;
  }

  lemma OverIsReceivable(parent: Workflow, action: Action)
    requires !IsActive(parent)
    ensures !Irreceivable(parent, action)
  {
  }

  // ----- idempotent activation -----

  lemma ActivationIsRemembered(w: World, app: Application, key: string, controller: Principal, dispatch: bool, now: int)
    requires ActivateOperation(w, app, key, controller, dispatch, now).Ok?
    ensures var t := ActivateOperation(w, app, key, controller, dispatch, now).value;
      Key(app.namespace, key) in t.0.activations
          && t.0.activations[Key(app.namespace, key)] == ActivationKey(app, controller, t.1)
  {
    hide Snapshot, FindStep, FindBySubject, ActivationFault, NewOperation, OpenExternal;
  }

  lemma KnownActivation(v: World, app: Application, key: string, controller: Principal, dispatch: bool, now: int)
    requires Key(app.namespace, key) in v.activations
    ensures var known := v.activations[Key(app.namespace, key)];
      ActivateOperation(v, app, key, controller, dispatch, now) ==
      if known.application == app
          && known.controller == controller then Ok((v, known.row)) else Err(IdempotencyConflict)
  {
    hide ActivationFault, FindBySubject;
  }

  /** However much later, the same activation returns the same operation and changes nothing; another under its key is
      refused. */
  lemma ActivationIsIdempotent(w: World, app: Application, key: string, controller: Principal, dispatch: bool, now: int,
                               events: seq<Timed>, again: Application, other: Principal, dispatchLater: bool,
                                   later: int)
    requires Inv(w) && ActivateOperation(w, app, key, controller, dispatch, now).Ok? && again.namespace == app.namespace
    ensures Inv(ActivateOperation(w, app, key, controller, dispatch, now).value.0)
    ensures var t := ActivateOperation(w, app, key, controller, dispatch, now).value;
      var v := RunEvents(t.0, events);
      ActivateOperation(v, again, key, other, dispatchLater, later) ==
      if again == app && other == controller then Ok((v, t.1)) else Err(IdempotencyConflict)
  {
    hide Inv, RunEvents, ActivateOperation, AuthorityGrows, OperationsGrow, PermitsCurrent, EndingsStay;
    var t := ActivateOperation(w, app, key, controller, dispatch, now).value;
    ActivationKeeps(w, app, key, controller, dispatch, now);
    ActivationIsRemembered(w, app, key, controller, dispatch, now);
    var v := RunEvents(t.0, events);
    assert KeysStay(t.0, v);
    KnownActivation(v, again, key, other, dispatchLater, later);
  }

  // ----- no false completion -----

  lemma {:induction false} FindByStepSame(a: seq<Operation>, b: seq<Operation>, job: string, step: StepId)
    requires |a| == |b| && forall n | 0 <= n < |a| :: b[n].who == a[n].who
    ensures FindByStep(b, job, step) == FindByStep(a, job, step)
  {
    if a != [] {
      FindByStepSame(a[..|a| - 1], b[..|a| - 1], job, step);
    }
  }

  /** Attaching receipts resolves and unresolves nothing. */
  lemma ReadySame(a: seq<Operation>, b: seq<Operation>, job: string, plan: Plan)
    requires |a| == |b| && forall n | 0 <= n < |a| ::
      b[n].who == a[n].who && b[n].outcome == a[n].outcome && b[n].reconciliation == a[n].reconciliation
          && b[n].conflicts == a[n].conflicts
    ensures CompletionReady(b, job, plan) <==> CompletionReady(a, job, plan)
  {
    hide FindByStep;
    forall s | s in plan.steps ensures FindByStep(b, job, s.id) == FindByStep(a, job, s.id) {
      FindByStepSame(a, b, job, s.id);
    }
  }

  /** How a parent ended: completed exactly when every step succeeded and every operation was resolved; blocked
      exactly when every step succeeded and some operation was not. */
  ghost predicate EndedTruly(w: World, job: string)
    requires job in w.parents
  {
    var p := w.parents[job];
    var ready := CompletionReady(w.operations, job, p.plan);
    && (p.state.Completed? <==> AllSucceeded(p.steps) && ready)
    && (p.state.Blocked? <==> AllSucceeded(p.steps) && !ready)
    && job in w.receipts && w.receipts[job].base.status == p.state
  }

  lemma EndedMove(ops: seq<Operation>, job: string, parent: Workflow, v: Workflow)
    requires Moves(ops, job, parent, v) && parent.receipt.None? && v.receipt.Some?
    ensures v.receipt.value.status == v.state
    ensures v.state.Completed? <==> AllSucceeded(v.steps) && CompletionReady(ops, job, v.plan)
    ensures v.state.Blocked? <==> AllSucceeded(v.steps) && !CompletionReady(ops, job, v.plan)
  {
    hide Scheduled, Logged, OperationsOf, StepsTrack, CompletionReady, AllSucceeded, Outcomes;
  }

  lemma SettleEndsTruly(w: World, job: string, v: Workflow, now: int)
    requires job in w.parents && Table(w.operations) && ReceiptOk(w.operations, job, w.parents[job], w.receipts)
    requires Moves(w.operations, job, w.parents[job], v)
    requires w.parents[job].receipt.None? && v.receipt.Some? && Settle(w, job, v, now).Ok?
    ensures EndedTruly(Settle(w, job, v, now).value, job)
  {
    hide Table, Settle, AttachAll, Moves, CompletionReady, AllSucceeded, ParentReceiptOf, ReceiptOk, EndedTruly;
    SettledEnd(w, job, v, now);
    AttachResolvesNothing(w.operations, job, w.parents[job], w.receipts, ParentReceiptOf(w.operations, job, v), now,
                          v.plan);
    BaseIsFrozen(w.operations, job, v);
    EndedMove(w.operations, job, w.parents[job], v);
    TruthOf(Settle(w, job, v, now).value, job);
  }

  lemma InvReceipt(w: World, job: string)
    requires Inv(w) && job in w.parents
    ensures ReceiptOk(w.operations, job, w.parents[job], w.receipts)
  {
    hide ParentOk, ReceiptOk;
  }

  lemma SettledEnd(w: World, job: string, v: Workflow, now: int)
    requires job in w.parents && w.parents[job].receipt.None? && v.receipt.Some? && Settle(w, job, v, now).Ok?
    ensures var x, r := Settle(w, job, v, now).value, ParentReceiptOf(w.operations, job, v);
      && job in x.parents && x.parents[job] == v && job in x.receipts && x.receipts[job] == r
      && AttachAll(w.operations, job, r, now).Ok? && x.operations == AttachAll(w.operations, job, r, now).value
  {
    hide ParentReceiptValid, AttachAll, ParentReceiptOf;
  }

  lemma TruthOf(x: World, job: string)
    requires job in x.parents && job in x.receipts && x.receipts[job].base.status == x.parents[job].state
    requires var p := x.parents[job];
      && (p.state.Completed? <==> AllSucceeded(p.steps) && CompletionReady(x.operations, job, p.plan))
      && (p.state.Blocked? <==> AllSucceeded(p.steps) && !CompletionReady(x.operations, job, p.plan))
    ensures EndedTruly(x, job)
  {
  }

  lemma AttachResolvesNothing(ops: seq<Operation>, job: string, parent: Workflow, receipts: map<string, ParentReceipt>,
                              r: ParentReceipt, now: int, plan: Plan)
    requires Table(ops) && ReceiptOk(ops, job, parent, receipts) && parent.receipt.None?
    ensures AttachAll(ops, job, r, now).Ok?
            && (CompletionReady(AttachAll(ops, job, r, now).value, job, plan) <==> CompletionReady(ops, job, plan))
  {
    hide Table, AttachAll, CompletionReady, RowsGrow, ReceiptOk;
    UnendedTerminals(ops, job, parent, receipts);
    TableGood(ops);
    AttachAllGood(ops, job, r, now);
    RowsGrowLength(ops, AttachAll(ops, job, r, now).value);
    ReadySame(ops, AttachAll(ops, job, r, now).value, job, plan);
  }

  /** Whatever claim request or observation ends a parent, it ends it truly. */
  lemma ClaimRequestsEndTruly(w: World, job: string, action: Action, now: int)
    requires Inv(w) && ParentsPlanned(w) && job in w.parents && w.parents[job].receipt.None?
    ensures var v := OrElse(w, ClaimAction(w, job, action, now));
            job in v.parents && (v.parents[job].receipt.Some? ==> EndedTruly(v, job))
  {
    hide Inv, ParentOk, Moves, Step, CompletionReady, EndedTruly, Settle, ReceiptOk;
    InvParent(w, job);
    StepMoves(w.operations, job, w.parents[job], action);
    var v := Step(w.parents[job], action, CompletionReady(w.operations, job, w.parents[job].plan));
    if ClaimAction(w, job, action, now).Ok? {
      SettleShape(w, job, v, now);
      if v.receipt.Some? {
        InvTable(w);
        InvReceipt(w, job);
        SettleEndsTruly(w, job, v, now);
      }
    }
  }

  lemma ObservationsEndTruly(w: World, row: nat, o: Observation, facts: Facts, through: Option<QueryClaim>, now: int,
                             job: string)
    requires Inv(w) && job in w.parents && w.parents[job].receipt.None?
    ensures var v := OrElse(w, ObserveRow(w, row, o, facts, through, now));
            job in v.parents && (v.parents[job].receipt.Some? ==> EndedTruly(v, job))
  {
    hide Inv, ParentOk, Moves, CompletionReady, GoodOperation, Grows, Observe, AdvanceParent, Table, Parents,
         EndedTruly, Settle, ReceiptOk;
    if row < |w.operations| && Observe(w.operations[row], o, facts, through, now).Ok? {
      InvTable(w);
      TableRow(w.operations, row);
      ObserveGood(w.operations[row], o, facts, through, now);
      var op := Observe(w.operations[row], o, facts, through, now).value;
      if op != w.operations[row] {
        ObserveIsQuiet(w.operations[row], o, facts, through, now);
        QuietRowKeeps(w, row, op);
        var next := w.(operations := w.operations[row := op]);
        var parentJob := op.who.application.job;
        InvTable(next);
        JobKnown(next, row);
        InvParent(next, parentJob);
        AdvanceMoves(next.operations, row, next.parents[parentJob]);
        var v := AdvanceParent(next.parents[parentJob], op,
                               CompletionReady(next.operations, parentJob, next.parents[parentJob].plan));
        if Settle(next, parentJob, v, now).Ok? {
          SettleShape(next, parentJob, v, now);
          if job == parentJob && v.receipt.Some? {
            InvReceipt(next, job);
            SettleEndsTruly(next, job, v, now);
          }
        }
      }
    }
  }

  lemma RegistryEndsNothing(w: World, e: Event, now: int)
    requires ParentsPlanned(w)
    requires e.FreshnessAsserted? || e.ApprovalRevoked? || e.SubjectRegistered? || e.ApprovalRegistered?
    ensures Happen(w, e, now).parents == w.parents
  {
    hide ParentsPlanned, ClaimAction, ObserveRow, Submit, ReconcileRow, ActivateOperation, Create, ParentPlan;
  }

  lemma WorkersEndNothing(w: World, e: Event, now: int)
    requires ParentsPlanned(w)
    requires e.SubmitWorker? || e.CaseRegistered? || e.QueryWorker? || e.QueryEnded?
    ensures Happen(w, e, now).parents == w.parents
  {
    hide RegisterCase, ClearClaim, ParentsPlanned, ClaimAction, ObserveRow, Submit, ReconcileRow, ActivateOperation,
         Create, ParentPlan;
  }

  lemma SubmitEndsNothing(w: World, row: nat, controller: Principal, dispatch: bool, now: int, job: string)
    requires job in w.parents
    ensures var v := OrElse(w, Submit(w, row, controller, dispatch, now));
            job in v.parents && v.parents[job].receipt == w.parents[job].receipt
  {
    hide Snapshot, ApprovalFault;
  }

  lemma ReconcileEndsNothing(w: World, namespace: string, key: string, r: Recovery, supervisor: Principal,
                             supported: bool, timeoutSeconds: int,
                             now: int, job: string)
    requires job in w.parents
    ensures var v := OrElse(w, ReconcileRow(w, namespace, key, r, supervisor, supported, timeoutSeconds, now));
      job in v.parents && v.parents[job].receipt == w.parents[job].receipt
  {
    hide Snapshot, QueriesLeft, Reserve, QueryFault, Confirmed, Allowance, CallsLeft;
  }

  lemma ActivationEndsNothing(w: World, app: Application, key: string, controller: Principal, dispatch: bool, now: int,
                              job: string)
    requires job in w.parents
    ensures var t := ActivateOperation(w, app, key, controller, dispatch, now);
      t.Ok? ==> job in t.value.0.parents && t.value.0.parents[job].receipt == w.parents[job].receipt
  {
    hide Snapshot, FindStep, FindBySubject, ApprovalFault, NoRoom, NewOperation;
  }

  /** No other event ends a parent. */
  lemma NothingElseEnds(w: World, e: Event, now: int, job: string)
    requires ParentsPlanned(w) && job in w.parents && w.parents[job].receipt.None? && !e.Observed? && !e.ClaimRequest?
    ensures var v := Happen(w, e, now); job in v.parents && v.parents[job].receipt.None?
  {
    hide Submit, ReconcileRow, ActivateOperation, ParentsPlanned, Create, ParentPlan, AssertFreshness, Revoke,
         RegisterSubject, RegisterApproval,
         SubmitCall, QueryCall, EndQuery, ManualCase;
    match e
    case CreateParent(_, _) =>
    case Activated(application, key, controller, dispatch) =>
        ActivationEndsNothing(w, application, key, controller, dispatch, now, job);
    case Submitted(row, principal, permitted) => SubmitEndsNothing(w, row, principal, permitted, now, job);
    case Reconciled(namespace, key, recovery, supervisor, supported, timeoutSeconds) =>
      ReconcileEndsNothing(w, namespace, key, recovery, supervisor, supported, timeoutSeconds, now, job);
    case SubmitWorker(_, _) => WorkersEndNothing(w, e, now);
    case CaseRegistered(_, _) => WorkersEndNothing(w, e, now);
    case QueryWorker(_, _, _) => WorkersEndNothing(w, e, now);
    case QueryEnded(_, _) => WorkersEndNothing(w, e, now);
    case _ => RegistryEndsNothing(w, e, now);
  }

  /** No false completion: in whatever order claims, observations and conflicts arrive, a parent that ends ends
      truly. */
  lemma NoFalseCompletion(w: World, e: Event, now: int, job: string)
    requires Inv(w) && ParentsPlanned(w) && job in w.parents && w.parents[job].receipt.None?
    ensures var v := Happen(w, e, now); job in v.parents && (v.parents[job].receipt.Some? ==> EndedTruly(v, job))
  {
    hide Inv, Happen, EndedTruly, ObserveRow, ClaimAction;
    match e
    case Observed(row, observation, facts, through) =>
      ObservationsEndTruly(w, row, observation, facts, through, now, job);
      HappensAsObserved(w, row, observation, facts, through, now);
    case ClaimRequest(parent, action) => ClaimRequestEndsTruly(w, parent, action, now, job);
    case _ => NothingElseEnds(w, e, now, job);
  }

  lemma HappensAsObserved(w: World, row: nat, o: Observation, facts: Facts, through: Option<QueryClaim>, now: int)
    requires ParentsPlanned(w)
    ensures Happen(w, Observed(row, o, facts, through), now) == OrElse(w, ObserveRow(w, row, o, facts, through, now))
  {
    hide ObserveRow;
  }

  lemma ClaimRequestEndsTruly(w: World, parent: string, action: Action, now: int, job: string)
    requires Inv(w) && ParentsPlanned(w) && job in w.parents && w.parents[job].receipt.None?
    ensures var v := Happen(w, ClaimRequest(parent, action), now);
            job in v.parents && (v.parents[job].receipt.Some? ==> EndedTruly(v, job))
  {
    hide Inv, EndedTruly, ClaimAction;
    if parent == job {
      ClaimRequestsEndTruly(w, job, action, now);
    } else {
      OtherParentStays(w, parent, action, now, job);
    }
  }

  lemma OtherParentStays(w: World, parent: string, action: Action, now: int, job: string)
    requires ParentsPlanned(w) && job in w.parents && job != parent
    ensures var v := OrElse(w, ClaimAction(w, parent, action, now));
            job in v.parents && v.parents[job] == w.parents[job]
  {
    hide Step, CompletionReady, AttachAll, ParentReceiptValid, ParentsPlanned, ParentReceiptOf;
  }

  /** A parent once completed stays so, under the same receipt; its receipt covers every step, and every operation of it
      stays confirmed succeeded. */
  lemma CompletionIsFinal(w: World, events: seq<Timed>, job: string)
    requires Inv(w) && job in w.receipts && job in w.parents && w.receipts[job].base.status.Completed?
    ensures var v := RunEvents(w, events);
      && job in v.receipts && v.receipts[job] == w.receipts[job] && job in v.parents && v.parents[job].state.Completed?
      && CoversPlan(v.parents[job].plan, v.receipts[job])
      && forall n | 0 <= n < |v.operations| && v.operations[n].who.application.job == job ::
           v.operations[n].outcome.ConfirmedSucceeded?
  {
    hide RunEvents, Table, Authority, Workers, AuthorityGrows, OperationsGrow, PermitsCurrent, KeysStay, ParentOk,
         CoversPlan, ClaimRowValid, ExternalRowValid;
    var v := RunEvents(w, events);
    assert ReceiptOk(w.operations, job, w.parents[job], w.receipts) && EndingsStay(w, v);
    InvParent(w, job);
    EndedStatus(w.operations, job, w.parents[job]);
    assert ReceiptOk(v.operations, job, v.parents[job], v.receipts);
    InvParent(v, job);
    CompletedOperations(v.operations, job, v.parents[job]);
  }

  lemma EndedStatus(ops: seq<Operation>, job: string, parent: Workflow)
    requires ParentOk(ops, job, parent) && parent.receipt.Some?
    ensures parent.receipt.value.status == parent.state
  {
    hide Scheduled, Logged, Outcomes, OperationsOf, StepsTrack, CallsTally;
  }

  lemma CompletedOperations(ops: seq<Operation>, job: string, parent: Workflow)
    requires ParentOk(ops, job, parent) && parent.state.Completed?
    ensures forall n | 0 <= n < |ops| && ops[n].who.application.job == job :: ops[n].outcome.ConfirmedSucceeded?
  {
    hide Scheduled, Logged, Outcomes, GoodOperation, FindStep, CallsTally;
    forall n | 0 <= n < |ops| && ops[n].who.application.job == job ensures ops[n].outcome.ConfirmedSucceeded? {
      assert OperationOf(ops[n], parent);
      assert Tracks(parent.steps[ops[n].who.application.step].state, ops[n].outcome);
    }
  }

  // ----- where version 3 concurrency gives -----

  lemma ClaimsRouteOverruns(parent: Workflow, step: PlanStep, request: Activation, now: int, keys: Keyring, ready: bool)
    requires IsActive(parent) && FindStep(parent.plan.steps, step.id) == Some(step) && Ready(parent, step)
             && !step.kind.Dispatch?
    requires request.step == step.id && request.check == step.kind.Check?
    requires FindKey(parent.claims, request.key).None? && !InvocationBound(parent.claims, request.invocation)
    requires parent.steps[step.id].attempts < step.maxAttempts
    requires if step.kind.Check? then parent.counters.checkAttempts < parent.plan.budgets.checkAttempts
             else parent.counters.providerAttempts < parent.plan.budgets.providerAttempts
    requires parent.counters.activeSteps == ActiveCount(parent.claims) + parent.counters.activeDispatches
    ensures var t := RuntimeWorkflow.Activate(parent, request, now, keys, ready);
      (t.Commit? && t.state.counters.activeSteps > parent.plan.budgets.concurrentSteps) <==>
      ActiveCount(parent.claims) < parent.plan.budgets.concurrentSteps <= ActiveCount(parent.claims)
          + parent.counters.activeDispatches
  {
    hide FindStep, FindKey, DependenciesSucceeded, Exhaust, InvocationBound, ActiveCount;
  }

  lemma ActiveIsCounted(ops: seq<Operation>, job: string, parent: Workflow)
    requires ParentOk(ops, job, parent)
    ensures CountersFit(parent.counters) && parent.counters.activeDispatches == |RunningExternals(parent)|
    ensures IsActive(parent) ==>
            parent.counters.activeSteps == ActiveCount(parent.claims) + parent.counters.activeDispatches
  {
    hide Kept, OperationsOf, StepsTrack, Receivable, ActiveCount;
  }

  /** While a parent is active, its counter of active steps is its active claims and its running operations together;
      and no counter of any parent is ever negative. */
  lemma ActiveStepsAreShared(events: seq<Timed>, job: string)
    requires job in History(events).parents
    ensures var p := History(events).parents[job];
      && CountersFit(p.counters) && p.counters.activeDispatches == |RunningExternals(p)|
      && (IsActive(p) ==> p.counters.activeSteps == ActiveCount(p.claims) + |RunningExternals(p)|)
  {
    hide History, Inv, ParentOk;
    InvParent(History(events), job);
    ActiveIsCounted(History(events).operations, job, History(events).parents[job]);
  }

  /** The claims route counts active claims only: in whatever state of whatever run, a startable step is activated
      however many operations are running, so the counter of active steps passes its budget exactly when claims alone
      still fit but claims and running operations do not. */
  lemma ClaimsIgnoreOperations(events: seq<Timed>, job: string, step: PlanStep, request: Activation, now: int,
                               keys: Keyring, ready: bool)
    requires job in History(events).parents
    requires var parent := History(events).parents[job];
      && IsActive(parent) && FindStep(parent.plan.steps, step.id) == Some(step) && Ready(parent, step)
         && !step.kind.Dispatch?
      && request.step == step.id && request.check == step.kind.Check?
      && FindKey(parent.claims, request.key).None? && !InvocationBound(parent.claims, request.invocation)
      && parent.steps[step.id].attempts < step.maxAttempts
      && if step.kind.Check? then parent.counters.checkAttempts < parent.plan.budgets.checkAttempts
         else parent.counters.providerAttempts < parent.plan.budgets.providerAttempts
    ensures var parent := History(events).parents[job];
      var t := RuntimeWorkflow.Activate(parent, request, now, keys, ready);
      (t.Commit? && t.state.counters.activeSteps > parent.plan.budgets.concurrentSteps) <==>
      ActiveCount(parent.claims) < parent.plan.budgets.concurrentSteps <= ActiveCount(parent.claims)
          + |RunningExternals(parent)|
  {
    hide History, FindStep, FindKey, Ready, InvocationBound, ActiveCount, Activate, Inv, ParentOk;
    InvParent(History(events), job);
    ActiveIsCounted(History(events).operations, job, History(events).parents[job]);
    ClaimsRouteOverruns(History(events).parents[job], step, request, now, keys, ready);
  }
}
