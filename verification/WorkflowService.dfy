/** The workflow service as it works: rows and counters changed in place, inside transactions that commit or roll
    back. */
module WorkflowService {
  import opened Wrappers
  import opened DependencyGraph
  import opened RuntimeWorkflow

  function Reply<R>(t: Transaction<Workflow, R>): Result<R, ErrorCode> {
    match t
    case Commit(_, r) => Ok(r)
    case CommitFailure(_, e) => Err(e)
    case Rollback(e) => Err(e)
  }

  class WorkflowTables {
    const plan: Plan
    var state: WorkflowState
    var counters: Counters
    var steps: map<StepId, StepRow>
    var claims: seq<Claim>
    var edges: seq<RecordedEdge>
    var error: Option<WorkflowError>
    var receipt: Option<Receipt>
    // The order in which steps succeeded; no column holds it.
    var successes: seq<StepId>

    function View(): Workflow
      reads this
    {
      Workflow(plan, state, counters, steps, claims, edges, error, receipt, successes)
    }

    /** `create`: one row per planned step, all counters at zero. */
    constructor (plan: Plan)
      ensures View() == Create(plan)
    {
      this.plan := plan;
      state, counters, claims, edges, error, receipt, successes := Pending, Zero(), [], [], None, None, [];
      steps := map[];
      new;
      for n := 0 to |plan.steps|
        invariant View() == Create(plan).(steps := steps)
        invariant steps == map s | s in plan.steps[..n] :: s.id := StepRow(StepPending, 0)
      {
        assert plan.steps[..n + 1] == plan.steps[..n] + [plan.steps[n]];
        steps := steps[plan.steps[n].id := StepRow(StepPending, 0)];
      }
      assert plan.steps[..|plan.steps|] == plan.steps;
    }

    /** Undoes everything the failed transaction wrote. */
    method RollBack(before: Workflow)
      requires before.plan == plan
      modifies this
      ensures View() == before
    {
      state, counters, steps, claims := before.state, before.counters, before.steps, before.claims;
      edges, error, receipt, successes := before.edges, before.error, before.receipt, before.successes;
    }

    /** `_freeze_receipt`. */
    method FreezeReceipt(ready: bool)
      modifies this
      ensures View() == Freeze(old(View()), ready)
    {
      if receipt.Some? {
        return;
      }
      if plan.version == 3 && state.Completed? && !ready {
        state, error := Blocked, Some(ExternalOutcomeUnresolved);
      }
      var outcomes: seq<StepReceipt> := [];
      for n := 0 to |claims|
        invariant outcomes == Outcomes(claims[..n])
        invariant View() == old(View()).(state := state, error := error)
        invariant state == if plan.version == 3 && old(state).Completed? && !ready then Blocked else old(state)
        invariant error == if plan.version == 3 && old(state).Completed?
                  && !ready then Some(ExternalOutcomeUnresolved) else old(error)
      {
        assert claims[..n + 1][..n] == claims[..n];
        if claims[n].outcome.Some? {
          outcomes := outcomes + [claims[n].outcome.value];
        }
      }
      assert claims[..|claims|] == claims;
      receipt := Some(Receipt(state, outcomes, edges, counters, error));
    }

    /** The update of all active claims of the workflow. */
    method EndClaims(status: ClaimStatus)
      modifies this`claims
      ensures claims == EndActive(old(claims), status)
    {
      for n := 0 to |claims|
        invariant |claims| == |old(claims)|
        invariant claims[n..] == old(claims)[n..]
        invariant claims[..n] == EndActive(old(claims), status)[..n]
      {
        assert claims[n] == claims[n..][0] == old(claims)[n];
        if claims[n].status.Active? {
          claims := claims[n := claims[n].(status := status)];
        }
      }
    }

    /** `_budget_exhausted`; the caller raises, and what is written here is committed. */
    method ExhaustBudget(budget: string, ready: bool)
      modifies this
      ensures View() == Exhaust(old(View()), budget, ready)
    {
      hide Freeze;
      EndClaims(StaleRejected);
      counters := counters.(activeSteps := 0);
      state, error := Stopped(Failed), Some(BudgetExhausted(budget));
      FreezeReceipt(ready);
    }

    /** `_meter_runtime`: false when it has failed the workflow instead. */
    method MeterRuntime(claim: nat, now: int, ready: bool) returns (ok: bool)
      requires claim < |claims|
      modifies this
      ensures ok <==> !RuntimeExhausted(old(View()), claim, now)
      ensures View() == if ok then Meter(old(View()), claim, now) else Exhaust(old(View()), "runtime", ready)
    {
      hide Exhaust;
      var elapsed := Max(0, now - claims[claim].started);
      var delta := Max(0, elapsed - claims[claim].accounted);
      if delta == 0 {
        assert claims == claims[claim := claims[claim].(accounted := claims[claim].accounted + 0)];
        return true;
      }
      if counters.runtimeSeconds + delta > plan.budgets.runtimeSeconds {
        ExhaustBudget("runtime", ready);
        return false;
      }
      counters := counters.(runtimeSeconds := counters.runtimeSeconds + delta);
      claims := claims[claim := claims[claim].(accounted := elapsed)];
      ok := true;
    }

    /** `_activate`. */
    method ActivateStep(request: Activation, now: int, keys: Keyring, ready: bool)
        returns (r: Result<(nat, Token), ErrorCode>)
      modifies this
      ensures var t := Activate(old(View()), request, now, keys, ready);
              View() == After(old(View()), t) && r == Reply(t)
    {
      hide FindStep, FindKey, Ready, AttemptsExhausted, Exhaust, InvocationBound;
      if !IsActive(View()) {
        return Err(WorkflowNotActive);
      }
      var existing := FindKey(claims, request.key);
      if existing.Some? {
        if claims[existing.value].binding != request {
          return Err(ActivationBindingConflict);
        }
        if !Loaded(keys, claims[existing.value].token.keyId) {
          return Err(KeyUnavailable);
        }
        return Ok((existing.value, claims[existing.value].token));
      }
      if !request.check && InvocationBound(claims, request.invocation) {
        return Err(ActivationBindingConflict);
      }
      var found := FindStep(plan.steps, request.step);
      if found.None? {
        return Err(StepNotReady);
      }
      var step := found.value;
      if step.kind.Dispatch? || step.kind.Check? != request.check {
        return Err(StepKindMismatch);
      }
      if !Ready(View(), step) {
        return Err(StepNotReady);
      }
      ReadyIsListed(View(), step);
      if AttemptsExhausted(View(), step) {
        ExhaustBudget("attempt", ready);
        return Err(WorkflowBudgetExhausted);
      }
      r := InsertClaim(step, request, now, keys);
    }

    /** The row of a new claim, and the counters it moves. */
    method InsertClaim(step: PlanStep, request: Activation, now: int, keys: Keyring)
        returns (r: Result<(nat, Token), ErrorCode>)
      requires step.id in steps
      modifies this
      ensures View() == OpenClaim(old(View()), step, request, now, keys)
      ensures r == Ok((|old(claims)|, View().claims[|old(claims)|].token))
    {
      var attempt, id := steps[step.id].attempts + 1, |claims|;
      var token := Token(id, attempt, request, keys.current);
      claims := claims
          + [Claim(step.id, step.kind, attempt, request, step.digest, token, now, 0, now + request.leaseSeconds,
                                Active, [], 0, None)];
      if step.kind.Check? {
        counters := counters.(checkAttempts := counters.checkAttempts + 1);
      } else {
        counters := counters.(providerAttempts := counters.providerAttempts + 1);
      }
      counters := counters.(activeSteps := counters.activeSteps + 1);
      if step.kind.Repair? {
        counters := counters.(repairIterations := counters.repairIterations + 1);
      }
      steps := steps[step.id := StepRow(StepRunning, attempt)];
      state := Running;
      r := Ok((id, token));
    }

    /** `renew`. */
    method RenewLease(holder: Credential, leaseSeconds: nat, now: int, ready: bool) returns (r: Result<int, ErrorCode>)
      modifies this
      ensures var t := Renew(old(View()), holder, leaseSeconds, now, ready);
              View() == After(old(View()), t) && r == Reply(t)
    {
      hide Exhaust, RuntimeExhausted;
      var refusal := Refusal(View(), holder, now);
      if refusal.Some? {
        return Err(refusal.value);
      }
      var metered := MeterRuntime(holder.claim, now, ready);
      if !metered {
        return Err(WorkflowBudgetExhausted);
      }
      claims := claims[holder.claim := claims[holder.claim].(leaseExpires := now + leaseSeconds)];
      r := Ok(now + leaseSeconds);
    }

    /** `_complete_attempt`. */
    method CompleteAttempt(claim: nat, record: Record, edge: Option<RecordedEdge>, ready: bool)
      requires claim < |claims| && record.payload.Outcome? && claims[claim].step in steps
      modifies this
      ensures View() == Complete(old(View()), claim, record, edge, ready)
    {
      hide Freeze, AllSucceeded;
      var c, t := claims[claim], record.payload.terminal;
      counters := counters.(activeSteps := counters.activeSteps - 1);
      if edge.Some? {
        counters := counters.(artifactBytes := counters.artifactBytes + edge.value.artifact.size,
                              artifactEdges := counters.artifactEdges + 1);
        edges := edges + [edge.value];
      }
      var report := if edge.Some? then Some(edge.value.artifact) else None;
      var outcome := StepReceipt(c.step, c.kind, c.attempt, t, c.binding.constraints, report);
      claims := claims[claim :=
                       c.(status := Finished(t), nextSequence := c.nextSequence + 1, records := c.records + [record],
                                   outcome := Some(outcome))];
      steps := steps[c.step := steps[c.step].(state := StepDone(t))];
      if t.Succeeded? {
        successes := successes + [c.step];
        state, error := if AllSucceeded(steps) then Completed else Running, None;
      } else {
        state, error := Stopped(if t.kind.Unsupported? then Failed else t.kind), Some(StepFailed(t.code));
      }
      assert View() == Finish(old(View()), claim, record, edge);
      if !state.Running? {
        FreezeReceipt(ready);
      }
    }

    /** The event branch of `update`: false when a budget has failed the workflow. */
    method AppendEventRecord(claim: nat, record: Record, ready: bool) returns (r: Result<(), ErrorCode>)
      requires claim < |claims| && record.payload.Event? && claims[claim].step in steps
      requires FindRecord(claims[claim].records, record.id).None? && record.sequence == claims[claim].nextSequence
      modifies this
      ensures forall u: Update | u.holder.claim == claim && u.record == record ::
                var t := Append(old(View()), u, ready); View() == After(old(View()), t) && r == Reply(t)
    {
      hide Exhaust, FindRecord, Complete;
      var c, size := claims[claim], record.payload.size;
      if counters.eventBytes + size > plan.budgets.eventBytes {
        ExhaustBudget("event byte", ready);
        return Err(WorkflowBudgetExhausted);
      }
      counters := counters.(eventBytes := counters.eventBytes + size);
      if !c.kind.Check? && record.payload.toolSummary {
        if counters.externalOperations >= plan.budgets.externalOperations {
          ExhaustBudget("external operation", ready);
          return Err(WorkflowBudgetExhausted);
        }
        counters := counters.(externalOperations := counters.externalOperations + 1);
      }
      claims := claims[claim := c.(records := c.records + [record], nextSequence := c.nextSequence + 1)];
      r := Ok(());
    }

    /** The outcome branch of `update`. */
    method AppendOutcomeRecord(u: Update, ready: bool) returns (r: Result<(), ErrorCode>)
      requires u.holder.claim < |claims| && u.record.payload.Outcome? && claims[u.holder.claim].step in steps
      requires FindRecord(claims[u.holder.claim].records, u.record.id).None?
               && u.record.sequence == claims[u.holder.claim].nextSequence
      modifies this
      ensures var t := Append(old(View()), u, ready); View() == After(old(View()), t) && r == Reply(t)
    {
      hide Exhaust, FindRecord, Complete, PreflightReport, AppendEvent;
      var c := claims[u.holder.claim];
      if !RecordsReport(c, u) {
        CompleteAttempt(u.holder.claim, u.record, None, ready);
        return Ok(());
      }
      match PreflightReport(View(), c, u) {
        case Refused(e) => r := Err(e);
        case OverBudget(budget) =>
          ExhaustBudget(budget, ready);
          r := Err(WorkflowBudgetExhausted);
        case Clear(edge) =>
          CompleteAttempt(u.holder.claim, u.record, Some(RecordedEdge(edge, u.report, c.attempt)), ready);
          r := Ok(());
      }
    }

    /** The part of `update` after metering. */
    method AppendRecord(u: Update, ready: bool) returns (r: Result<(), ErrorCode>)
      requires u.holder.claim < |claims| && claims[u.holder.claim].step in steps
      modifies this
      ensures var t := Append(old(View()), u, ready); View() == After(old(View()), t) && r == Reply(t)
    {
      hide Exhaust, FindRecord, Complete, PreflightReport, AppendEvent;
      var c := claims[u.holder.claim];
      var prior := FindRecord(c.records, u.record.id);
      if prior.Some? {
        return if prior.value != u.record then Err(SequenceConflict) else Ok(());
      }
      if u.record.sequence != c.nextSequence {
        return Err(SequenceConflict);
      }
      if u.record.payload.Event? {
        r := AppendEventRecord(u.holder.claim, u.record, ready);
      } else {
        r := AppendOutcomeRecord(u, ready);
      }
    }

    /** `update`: a failure after metering takes the metered seconds back, unless it is a budget failure. */
    method UpdateClaim(u: Update, now: int, ready: bool) returns (r: Result<(), ErrorCode>)
      requires forall c | c in claims :: c.step in steps
      modifies this
      ensures var t := ApplyUpdate(old(View()), u, now, ready); View() == After(old(View()), t) && r == Reply(t)
    {
      hide Exhaust, RuntimeExhausted, Append;
      var before := View();
      var refusal := Refusal(View(), u.holder, now);
      if refusal.Some? {
        return Err(refusal.value);
      }
      var metered := MeterRuntime(u.holder.claim, now, ready);
      if !metered {
        return Err(WorkflowBudgetExhausted);
      }
      if u.record.digest != PayloadDigest(u.record.payload) {
        RollBack(before);
        return Err(PayloadDigestInvalid);
      }
      ghost var m := View();
      r := AppendRecord(u, ready);
      if r.Err? && r.error != WorkflowBudgetExhausted {
        RollBack(before);
      }
      AppendFailuresAreKinds(m, u, ready);
    }

    /** `cancel`. */
    method CancelWorkflow(reason: string, ready: bool)
      modifies this
      ensures View() == Cancel(old(View()), reason, ready)
    {
      hide Freeze;
      if IsActive(View()) {
        counters := counters.(activeSteps := 0);
        EndClaims(CancelledClaim);
        state, error := Stopped(Cancelled), Some(CancelledBy(reason));
        FreezeReceipt(ready);
      }
    }

    /** The query for expired claims. */
    method SelectExpired(now: int) returns (rows: seq<nat>)
      ensures Upcoming(rows, 0, claims, 0, now)
    {
      rows := [];
      for n := 0 to |claims|
        invariant forall k | 0 <= k < |rows| :: rows[k] < n && Expired(claims[rows[k]], now)
        invariant forall k, l | 0 <= k < l < |rows| :: rows[k] < rows[l]
        invariant forall i | 0 <= i < n && Expired(claims[i], now) :: i in rows
      {
        if Expired(claims[n], now) {
          assert forall i | i in rows :: i in rows + [n];
          rows := rows + [n];
        }
      }
      forall i | 0 <= i < |claims| && Expired(claims[i], now) ensures Listed(rows, 0, i) {
        var l :| 0 <= l < |rows| && rows[l] == i;
      }
    }

    /** One turn of the reconcile loop on an expired claim: false when metering it has failed the workflow. */
    method ReleaseClaim(row: nat, now: int, ready: bool) returns (ok: bool)
      requires row < |claims| && Expired(claims[row], now)
      modifies this
      ensures ok <==> !RuntimeExhausted(old(View()), row, now)
      ensures View() == if ok then Release(Meter(old(View()), row, now), row)
              else Exhaust(old(View()), "runtime", ready)
      ensures ok ==> |claims| == |old(claims)| && forall i | 0 <= i < |claims| && i != row ::
                                                    claims[i] == old(claims)[i]
    {
      hide Exhaust, RuntimeExhausted;
      ok := MeterRuntime(row, now, ready);
      if ok {
        var c := claims[row];
        claims := claims[row := c.(status := StaleRejected)];
        counters := counters.(activeSteps := counters.activeSteps - 1);
        if c.step in steps && steps[c.step].state.StepRunning? {
          steps := steps[c.step := steps[c.step].(state := StepPending)];
        }
      }
    }

    /** `reconcile`. */
    method ReconcileClaims(now: int, ready: bool) returns (r: Result<(), ErrorCode>)
      modifies this
      ensures var t := Reconcile(old(View()), now, ready); View() == After(old(View()), t) && r == Reply(t)
    {
      hide Exhaust, RuntimeExhausted, Release, Meter, ReleaseExpired;
      if !IsActive(View()) {
        return Ok(());
      }
      var rows := SelectExpired(now);
      ghost var next: nat := 0;
      for k := 0 to |rows|
        invariant Upcoming(rows, k, claims, next, now)
        invariant ReleaseExpired(View(), next, now, ready) == ReleaseExpired(old(View()), 0, now, ready)
      {
        hide Upcoming;
        ghost var before := claims;
        UpcomingRow(rows, k, claims, next, now);
        SkipLive(View(), next, rows[k], now, ready);
        ReleaseFirst(View(), rows[k], now, ready);
        var released := ReleaseClaim(rows[k], now, ready);
        if !released {
          return Err(WorkflowBudgetExhausted);
        }
        UpcomingNext(rows, k, before, claims, next, now);
        next := rows[k] + 1;
      }
      SkipLive(View(), next, |claims|, now, ready);
      ReleaseNothing(View(), now, ready);
      r := Ok(());
    }
  }

  /** From row `next` on, exactly the listed rows from the k-th on have expired. */
  ghost predicate Upcoming(rows: seq<nat>, k: nat, claims: seq<Claim>, next: nat, now: int) {
    && next <= |claims|
    && (forall l | k <= l < |rows| :: next <= rows[l] < |claims| && Expired(claims[rows[l]], now))
    && (forall l, m | k <= l < m < |rows| :: rows[l] < rows[m])
    && (forall i | next <= i < |claims| && Expired(claims[i], now) :: Listed(rows, k, i))
  }

  ghost predicate Listed(rows: seq<nat>, k: nat, i: nat) {
    exists l :: k <= l < |rows| && rows[l] == i
  }

  lemma UpcomingRow(rows: seq<nat>, k: nat, claims: seq<Claim>, next: nat, now: int)
    requires Upcoming(rows, k, claims, next, now) && k < |rows|
    ensures next <= rows[k] < |claims| && Expired(claims[rows[k]], now)
    ensures forall i | next <= i < rows[k] :: !Expired(claims[i], now)
  {
    forall i | next <= i < rows[k] ensures !Expired(claims[i], now) {
      assert !Listed(rows, k, i);
    }
  }

  lemma UpcomingNext(rows: seq<nat>, k: nat, before: seq<Claim>, claims: seq<Claim>, next: nat, now: int)
    requires Upcoming(rows, k, before, next, now) && k < |rows|
    requires |claims| == |before| && forall i | 0 <= i < |claims| && i != rows[k] :: claims[i] == before[i]
    ensures Upcoming(rows, k + 1, claims, rows[k] + 1, now)
  {
    forall i | rows[k] < i < |claims| && Expired(claims[i], now) ensures Listed(rows, k + 1, i) {
      assert Listed(rows, k, i);
    }
  }

  /** The loop passes over claims that have not expired. */
  lemma {:induction false} SkipLive(w: Workflow, from: nat, to: nat, now: int, ready: bool)
    requires from <= to <= |w.claims| && forall i | from <= i < to :: !Expired(w.claims[i], now)
    ensures ReleaseExpired(w, from, now, ready) == ReleaseExpired(w, to, now, ready)
    decreases |w.claims| - from
  {
    hide Exhaust, RuntimeExhausted, Release, Meter;
    if from < to {
      SkipLive(w, from + 1, to, now, ready);
    }
  }

  lemma ReleaseFirst(w: Workflow, row: nat, now: int, ready: bool)
    requires row < |w.claims| && Expired(w.claims[row], now)
    ensures ReleaseExpired(w, row, now, ready) ==
            if RuntimeExhausted(w, row, now) then CommitFailure(Exhaust(w, "runtime", ready), WorkflowBudgetExhausted)
            else ReleaseExpired(Release(Meter(w, row, now), row), row + 1, now, ready)
  {
    hide Exhaust, RuntimeExhausted, Release, Meter;
  }

  lemma ReleaseNothing(w: Workflow, now: int, ready: bool)
    ensures ReleaseExpired(w, |w.claims|, now, ready) == Commit(w, ())
  {
  }

  lemma ReadyIsListed(w: Workflow, step: PlanStep)
    requires Ready(w, step)
    ensures step.id in w.steps
  {
  }

  /** A failed update commits exactly when a budget failed it. */
  lemma AppendFailuresAreKinds(w: Workflow, u: Update, ready: bool)
    requires u.holder.claim < |w.claims| && w.claims[u.holder.claim].step in w.steps
    ensures var t := Append(w, u, ready);
      && (t.CommitFailure? ==> t.failure.WorkflowBudgetExhausted?)
      && (t.Rollback? ==> !t.failure.WorkflowBudgetExhausted?)
  {
    hide Exhaust, FindRecord, Complete, AppendEvent, FindReportEdge;
  }
}
