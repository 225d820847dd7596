/** The external-operation service as it works: an operation's record changed field by field inside one transaction,
    loops over rows. */
module ExternalService {
  import opened Wrappers
  import opened DependencyGraph
  import opened RuntimeWorkflow
  import opened WorkflowOutcomes
  import opened ExternalOperation
  import opened ExternalWorld

  /** One row of the operations table while a transaction holds it. */
  class OperationRecord {
    const who: Identity
    var evidence: Evidence
    var outcome: Outcome
    var reconciliation: bool
    var permits: nat
    var sequence: nat
    var providerId: Option<string>
    var consumed: Consumed
    var cases: seq<Case>
    var observations: seq<Observation>
    var conflicts: seq<Observation>
    var fence: nat
    var claim: Option<QueryClaim>
    var terminal: Option<ParentReceipt>
    var latest: Option<OpReceipt>
    var responses: map<string, Response>
    // All query claims ever issued; no column holds them.
    var issued: seq<QueryClaim>

    function View(): Operation
      reads this
    {
      Operation(who, evidence, outcome, reconciliation, permits, sequence, providerId, consumed, cases, observations,
                conflicts, fence,
                claim, terminal, latest, responses, issued)
    }

    constructor (row: Operation)
      ensures View() == row
    {
      who := row.who;
      evidence, outcome, reconciliation, permits := row.evidence, row.outcome, row.reconciliation, row.permits;
      sequence, providerId, consumed, cases := row.sequence, row.providerId, row.consumed, row.cases;
      observations, conflicts, fence, claim := row.observations, row.conflicts, row.fence, row.claim;
      terminal, latest, responses, issued := row.terminal, row.latest, row.responses, row.issued;
    }

    /** `_snapshot`: false when the validator refuses the receipt, and then nothing is saved. */
    method TakeSnapshot(now: int) returns (fault: Option<OpError>)
      modifies this`sequence, this`latest
      ensures match Snapshot(old(View()), now)
        case Ok(next) => fault.None? && View() == next
        case Err(e) => fault == Some(e) && View() == old(View())
    {
      hide ReceiptFault;
      var receipt := OpReceipt(who, evidence, outcome, reconciliation, permits, sequence + 1, observations, conflicts,
                               consumed, cases, now,
                               DigestOf(latest), terminal);
      assert receipt == ReceiptOf(View(), sequence + 1, latest, now);
      fault := ReceiptFault(receipt, latest);
      if fault.None? {
        sequence, latest := sequence + 1, Some(receipt);
      }
    }

    /** The part of `submit` that issues the permit. */
    method IssuePermit(now: int) returns (fault: Option<OpError>)
      modifies this
      ensures match Snapshot(Permit(old(View())), now)
        case Ok(next) => fault.None? && View() == next
        case Err(e) => fault == Some(e)
    {
      hide Snapshot;
      permits := 1;
      evidence, outcome, reconciliation := PossiblySubmitted, Unknown, true;
      fence := fence + 1;
      fault := TakeSnapshot(now);
    }

    /** The part of `reconcile` that reserves a query call. */
    method ReserveQuery(timeoutSeconds: int, now: int) returns (fault: Option<OpError>)
      requires Allowance(View(), timeoutSeconds) > 0
      modifies this
      ensures match Snapshot(Reserve(old(View()), timeoutSeconds, now), now)
        case Ok(next) => fault.None? && View() == next
        case Err(e) => fault == Some(e)
    {
      hide Snapshot;
      var reserve := Allowance(View(), timeoutSeconds);
      consumed := consumed.(queryCalls := consumed.queryCalls + 1);
      consumed := consumed.(queryMs := consumed.queryMs + reserve);
      consumed := consumed.(elapsed := Elapsed(who, now));
      fence := fence + 1;
      claim := Some(QueryClaim(fence, consumed.queryCalls, reserve, now + reserve));
      issued := issued + [claim.value];
      fault := TakeSnapshot(now);
    }

    /** The evidence budgets `observe` charges: the case's for a manual observation, the operation's for another. */
    method ChargeEvidence(o: Observation)
      modifies this`cases, this`consumed
      ensures consumed == ConsumedAfter(old(View()), o) && cases == CasesAfter(old(View()), o)
    {
      if o.manualCase.Some? {
        if cases != [] {
          cases := [Case(cases[0].id, cases[0].records + 1, cases[0].bytes + o.bytes)];
        }
      } else {
        consumed := consumed.(records := consumed.records + 1);
        consumed := consumed.(bytes := consumed.bytes + o.bytes);
      }
    }

    /** What `observe` concludes from an observation. */
    method Conclude(o: Observation, disposition: Disposition)
      requires disposition == Dispose(View(), o)
      modifies this`conflicts, this`reconciliation, this`outcome
      ensures forall x: Operation | x.conflicts == old(conflicts) && x.reconciliation == old(reconciliation)
              && x.outcome == old(outcome) ::
                reconciliation == ReconciliationAfter(x, o)
      ensures conflicts == old(conflicts) + (if disposition.Conflicting? then [o] else [])
      ensures outcome == if disposition.Accept? then o.outcome else old(outcome)
      ensures reconciliation == ReconciliationAfter(old(View()), o)
    {
      if disposition.Conflicting? {
        conflicts := conflicts + [o];
        reconciliation := true;
      } else if !disposition.RetainConfirmed? {
        outcome := o.outcome;
        reconciliation := !Confirmed(o.outcome) || conflicts != [];
      }
    }

    /** The part of `observe` that records an admissible observation. */
    method Append(o: Observation)
      modifies this
      ensures View() == Recorded(old(View()), o)
    {
      hide ConsumedAfter, CasesAfter, ReconciliationAfter, Dispose;
      var disposition := Dispose(View(), o);
      ChargeEvidence(o);
      assert disposition == Dispose(View(), o) by { DisposeDependsOnOutcome(old(View()), View(), o); }
      Conclude(o, disposition);
      observations := observations + [o];
      if o.providerId.Some? {
        providerId := o.providerId;
        evidence := ProviderAccepted;
      }
    }

    /** `observe` on the record; on an error the caller rolls back. */
    method ObserveRecord(o: Observation, facts: Facts, through: Option<QueryClaim>, now: int)
        returns (fault: Option<OpError>)
      modifies this
      ensures match Observe(old(View()), o, facts, through, now)
        case Ok(next) => fault.None? && View() == next
        case Err(e) => fault == Some(e)
    {
      hide ObservationFault, ManualFault, FindObservation, OverEvidenceBudget, Recorded, Snapshot, Dispose;
      fault := ObservationFault(View(), o, facts, through, now);
      if fault.Some? {
        return;
      }
      var prior := FindObservation(observations, o.id);
      if prior.Some? {
        return if prior.value == o then None else Some(ObservationConflict);
      }
      fault := ManualFault(View(), o, facts);
      if fault.Some? {
        return;
      }
      if permits != 1 {
        return Some(StaleExecutionClaim);
      }
      if OverEvidenceBudget(View(), o) {
        return Some(RecoveryBudgetExhausted);
      }
      var conflict := Dispose(View(), o).Conflicting?;
      Append(o);
      fault := TakeSnapshot(now);
      if fault.None? {
        responses := responses[o.id := Response(sequence, conflict)];
      }
    }
  }

  lemma DisposeDependsOnOutcome(a: Operation, b: Operation, o: Observation)
    requires a.outcome == b.outcome
    ensures Dispose(a, o) == Dispose(b, o)
  {
  }

  // ----- loops over the tables -----

  /** `parent_completion_ready`: the steps of the plan, one by one. */
  method ParentCompletionReady(ops: seq<Operation>, job: string, plan: Plan) returns (ready: bool)
    ensures ready <==> CompletionReady(ops, job, plan)
  {
    hide FindByStep;
    for k := 0 to |plan.steps|
      invariant forall s | s in plan.steps[..k] && s.external.Some? :: StepResolved(ops, job, s.id)
    {
      var s := plan.steps[k];
      assert forall x :: x in plan.steps[..k + 1] <==> x in plan.steps[..k] || x == s;
      if s.external.Some? {
        var row := FindByStep(ops, job, s.id);
        if row.None? {
          assert s in plan.steps;
          return false;
        }
        var op := ops[row.value];
        if !op.outcome.ConfirmedSucceeded? || op.reconciliation || op.conflicts != [] {
          assert s in plan.steps;
          return false;
        }
      }
    }
    assert plan.steps[..|plan.steps|] == plan.steps;
    ready := true;
  }

  predicate StepResolved(ops: seq<Operation>, job: string, step: StepId) {
    var n := FindByStep(ops, job, step);
    n.Some? && var op := ops[n.value]; op.outcome.ConfirmedSucceeded? && !op.reconciliation && op.conflicts == []
  }

  /** `parent_step_receipts`: the operations first, then the steps without one. */
  method ParentStepReceipts(ops: seq<Operation>, job: string, v: Workflow) returns (rows: seq<ExternalRow>)
    ensures rows == OperationRows(ops, job, v.steps) + UnallocatedRows(ops, job, v.plan.steps)
  {
    hide FindByStep;
    var first: seq<ExternalRow> := [];
    for n := 0 to |ops|
      invariant first == OperationRows(ops[..n], job, v.steps)
    {
      assert ops[..n + 1][..n] == ops[..n];
      var op := ops[n];
      var step := op.who.application.step;
      if op.who.application.job == job && step in v.steps {
        first := first + [ExternalRow(step, v.steps[step].attempts, Successful(op), op.latest)];
      }
    }
    assert ops[..|ops|] == ops;
    var second: seq<ExternalRow> := [];
    for k := 0 to |v.plan.steps|
      invariant second == UnallocatedRows(ops, job, v.plan.steps[..k])
    {
      assert v.plan.steps[..k + 1][..k] == v.plan.steps[..k];
      var s := v.plan.steps[k];
      var row := FindByStep(ops, job, s.id);
      if s.external.Some? && row.None? {
        second := second + [ExternalRow(s.id, 1, false, None)];
      }
    }
    assert v.plan.steps[..|v.plan.steps|] == v.plan.steps;
    rows := first + second;
  }

  /** The rows of the claims, each against the plan and the ids seen so far. */
  method ValidateClaimRows(plan: Plan, rows: seq<StepReceipt>) returns (valid: bool, seen: set<StepId>)
    ensures valid <==> NoDuplicates(ClaimSteps(rows)) && forall row | row in rows :: ClaimRowValid(plan, row)
    ensures valid ==> seen == Elements(ClaimSteps(rows))
  {
    var ids := ClaimSteps(rows);
    assert NoDuplicates(ids[..0]) && Elements(ids[..0]) == {};
    hide ClaimRowValid, NoDuplicates, Elements;
    seen := {};
    for k := 0 to |rows|
      invariant seen == Elements(ids[..k]) && NoDuplicates(ids[..k])
      invariant forall i | 0 <= i < k :: ClaimRowValid(plan, rows[i])
    {
      OnceMore(ids, k);
      if rows[k].step in seen || !ClaimRowValid(plan, rows[k]) {
        assert rows[k] in rows;
        return false, seen;
      }
      seen := seen + {rows[k].step};
    }
    assert ids[..|rows|] == ids;
    valid := true;
  }

  /** The rows of the external steps, after those of the claims. */
  method ValidateExternalRows(plan: Plan, completed: bool, before: seq<StepId>, rows: seq<ExternalRow>)
      returns (valid: bool)
    requires NoDuplicates(before)
    ensures valid <==>
            NoDuplicates(before + ExternalSteps(rows)) && forall row | row in rows ::
                                                            ExternalRowValid(plan, completed, row)
  {
    hide ExternalRowValid, NoDuplicates, Elements;
    var ids := before + ExternalSteps(rows);
    assert ids[..|before|] == before;
    var seen := Elements(before);
    for k := 0 to |rows|
      invariant seen == Elements(ids[..|before| + k]) && NoDuplicates(ids[..|before| + k])
      invariant forall i | 0 <= i < k :: ExternalRowValid(plan, completed, rows[i])
    {
      OnceMore(ids, |before| + k);
      if rows[k].step in seen || !ExternalRowValid(plan, completed, rows[k]) {
        assert rows[k] in rows;
        return false;
      }
      seen := seen + {rows[k].step};
    }
    assert ids[..|before| + |rows|] == ids;
    valid := true;
  }

  /** `parent_receipt`: every row once, known and in keeping with the plan; all of the plan, if completed. */
  method ValidateParentReceipt(plan: Plan, r: ParentReceipt) returns (valid: bool)
    ensures valid <==> ParentReceiptValid(plan, r)
  {
    hide ClaimRowValid, ExternalRowValid, CoversPlan, ReceiptShapeOk;
    if !ReceiptIdFits(r.job) || !ReceiptShapeOk(r.base) {
      return false;
    }
    var seen;
    valid, seen := ValidateClaimRows(plan, r.base.steps);
    PrefixDistinct(ClaimSteps(r.base.steps), ExternalSteps(r.external));
    if valid {
      valid := ValidateExternalRows(plan, r.base.status.Completed?, ClaimSteps(r.base.steps), r.external);
    }
    if valid && r.base.status.Completed? {
      valid := CoversPlan(plan, r);
    }
  }

  lemma PrefixDistinct(a: seq<StepId>, b: seq<StepId>)
    ensures NoDuplicates(a + b) ==> NoDuplicates(a)
  {
    assert forall i | 0 <= i < |a| :: (a + b)[i] == a[i];
  }

  /** One element more: the list stays free of duplicates exactly when the element is not among those seen. */
  lemma OnceMore(ids: seq<StepId>, k: nat)
    requires k < |ids|
    ensures Elements(ids[..k + 1]) == Elements(ids[..k]) + {ids[k]}
    ensures NoDuplicates(ids[..k]) ==> (NoDuplicates(ids[..k + 1]) <==> ids[k] !in Elements(ids[..k]))
    ensures ids[k] in Elements(ids[..k]) ==> !NoDuplicates(ids)
  {
    assert ids[..k + 1] == ids[..k] + [ids[k]];
    if ids[k] in ids[..k] {
      var i :| 0 <= i < k && ids[..k][i] == ids[k];
      assert ids[i] == ids[k] && ids[..k + 1][i] == ids[..k + 1][k];
    }
  }

  /** `attach_parent_terminal`: the rows of the parent, one by one; the first refusal rolls all back. */
  method AttachParentTerminal(ops: seq<Operation>, job: string, r: ParentReceipt, now: int)
      returns (t: Result<seq<Operation>, OpError>)
    ensures t == AttachAll(ops, job, r, now)
  {
    hide Snapshot;
    var done: seq<Operation> := [];
    for n := 0 to |ops|
      invariant AttachAll(ops[..n], job, r, now) == Ok(done)
    {
      assert ops[..n + 1][..n] == ops[..n];
      var op := ops[n];
      if op.who.application.job == job {
        if op.terminal.Some? {
          if op.terminal.value != r {
            AttachFails(ops, n, job, r, now);
            return Err(OperationBindingMismatch);
          }
        } else {
          var record := new OperationRecord(op);
          record.terminal := Some(r);
          var fault := record.TakeSnapshot(now);
          if fault.Some? {
            AttachFails(ops, n, job, r, now);
            return Err(fault.value);
          }
          op := record.View();
        }
      }
      done := done + [op];
    }
    assert ops[..|ops|] == ops;
    t := Ok(done);
  }

  /** A row that cannot be attached decides the result, whatever follows it. */
  lemma {:induction false} AttachFails(ops: seq<Operation>, n: nat, job: string, r: ParentReceipt, now: int)
    requires n < |ops| && AttachAll(ops[..n + 1], job, r, now).Err?
    ensures AttachAll(ops, job, r, now) == AttachAll(ops[..n + 1], job, r, now)
    decreases |ops|
  {
    hide AttachTerminal;
    if n + 1 == |ops| {
      assert ops[..n + 1] == ops;
    } else {
      assert ops[..|ops| - 1][..n + 1] == ops[..n + 1];
      AttachFails(ops[..|ops| - 1], n, job, r, now);
    }
  }
}
