/** Whole runs of a workflow: what holds in every state, and what no later request can change. */
module WorkflowRuns {
  import opened Wrappers
  import opened DependencyGraph
  import opened RuntimeWorkflow
  import opened WorkflowAccounting
  import opened WorkflowScheduling
  import opened WorkflowLog

  /** Schedule, log and ending; all of it holds of version 3 parents too. */
  ghost predicate Kept(w: Workflow) {
    Scheduled(w) && Logged(w) && Ended(w)
  }

  /** The counters are true, within budget, and frozen with the receipt. */
  ghost predicate Books(w: Workflow) {
    Accounted(w) && CountersFrozen(w)
  }

  ghost predicate Sound(w: Workflow) {
    Kept(w) && Books(w)
  }

  /** A request, with the answer the external service would give if the workflow completed now. */
  datatype Request = Request(action: Action, ready: bool)

  lemma CreateSound(plan: Plan)
    requires plan.steps != []
    ensures Sound(Create(plan))
  {
    hide Accounted, Scheduled, Logged, Ended;
    CreateAccounted(plan);
    CreateScheduled(plan);
    CreateLogged(plan);
  }

  // ----- every transaction keeps it -----

  /** The obligation of every step: it keeps the rows in order, and true books true. */
  ghost predicate Preserves(w: Workflow, v: Workflow) {
    Kept(v) && (Books(w) ==> Books(v))
  }

  lemma PreservesTransitive(a: Workflow, b: Workflow, c: Workflow)
    requires Preserves(a, b) && Preserves(b, c)
    ensures Preserves(a, c)
  {
  }

  lemma EndKept(w: Workflow, status: ClaimStatus, kind: FailureKind, error: WorkflowError, ready: bool)
    requires Kept(w) && IsActive(w) && (status.StaleRejected? || status.CancelledClaim?)
    ensures var f := Freeze(Halt(w, status, Stopped(kind), error), ready); Preserves(w, f) && !IsActive(f)
  {
    hide Accounted, Scheduled, Logged, Ended, Freeze;
    var h := Halt(w, status, Stopped(kind), error);
    HaltScheduled(w, status, Stopped(kind), error);
    HaltLogged(w, status, Stopped(kind), error);
    HaltEnded(w, status, kind, error, ready);
    FreezeScheduled(h, ready);
    FreezeLogged(h, ready);
    if Accounted(w) {
      HaltAccounted(w, status, Stopped(kind), error);
      FreezeAccounted(h, ready);
    }
  }

  lemma ToolEventEndKept(w: Workflow, size: nat, ready: bool)
    requires Kept(w) && IsActive(w) && w.counters.eventBytes + size <= w.plan.budgets.eventBytes
    ensures Preserves(w,
                      Exhaust(w.(counters := w.counters.(eventBytes := w.counters.eventBytes + size)),
                              "external operation", ready))
  {
    hide Accounted, Freeze, Scheduled, Logged, Ended;
    var b := w.(counters := w.counters.(eventBytes := w.counters.eventBytes + size));
    var h := Halt(b, StaleRejected, Stopped(Failed), BudgetExhausted("external operation"));
    CountersApart(w, b);
    HaltScheduled(b, StaleRejected, Stopped(Failed), BudgetExhausted("external operation"));
    HaltLogged(b, StaleRejected, Stopped(Failed), BudgetExhausted("external operation"));
    HaltEnded(b, StaleRejected, Failed, BudgetExhausted("external operation"), ready);
    FreezeScheduled(h, ready);
    FreezeLogged(h, ready);
    if Accounted(w) {
      HaltOnToolEventAccounted(w, size, BudgetExhausted("external operation"));
      FreezeAccounted(h, ready);
    }
  }

  /** Order and log do not look at the counters. */
  lemma CountersApart(w: Workflow, b: Workflow)
    requires Kept(w) && b == w.(counters := b.counters)
    ensures Kept(b) && IsActive(b) == IsActive(w)
  {
    hide Scheduled, GoodLog, SingleUse, Outcomes;
    SameScheduled(w, b);
  }

  lemma ActivateKept(w: Workflow, request: Activation, now: int, keys: Keyring, ready: bool)
    requires Kept(w)
    ensures Preserves(w, After(w, Activate(w, request, now, keys, ready)))
  {
    hide Accounted, Scheduled, Logged, Ended, OpenClaim, Freeze, Halt, FindStep, FindKey, Ready, AttemptsExhausted;
    var t := Activate(w, request, now, keys, ready);
    if t.CommitFailure? {
      EndKept(w, StaleRejected, Failed, BudgetExhausted("attempt"), ready);
    } else if t.Commit? && FindKey(w.claims, request.key).None? {
      var step := FindStep(w.plan.steps, request.step).value;
      PlannedRow(w, step, request.step);
      OpenClaimScheduled(w, step, request, now, keys);
      OpenClaimLogged(w, step, request, now, keys);
      OpenClaimEnded(w, step, request, now, keys);
      if Accounted(w) {
        OpenClaimAccounted(w, step, request, now, keys);
      }
    }
  }

  lemma PlannedRow(w: Workflow, step: PlanStep, id: StepId)
    requires FindStep(w.plan.steps, id) == Some(step) && Ready(w, step)
    ensures step.id == id && step.id in w.steps
  {
  }

  lemma OpenClaimEnded(w: Workflow, step: PlanStep, request: Activation, now: int, keys: Keyring)
    requires Ended(w) && IsActive(w) && step.id in w.steps
    ensures var o := OpenClaim(w, step, request, now, keys); Ended(o) && CountersFrozen(o)
  {
    hide Outcomes;
    var o := OpenClaim(w, step, request, now, keys);
    assert o.steps[step.id].state != StepDone(Succeeded);
  }

  lemma MeterKept(w: Workflow, i: nat, now: int)
    requires Kept(w) && IsActive(w) && i < |w.claims| && !RuntimeExhausted(w, i, now)
    ensures Preserves(w, Meter(w, i, now)) && IsActive(Meter(w, i, now))
  {
    hide Accounted, Scheduled, Logged, RuntimeExhausted;
    SameScheduled(w, Meter(w, i, now));
    MeterLogged(w, i, now);
    if Accounted(w) {
      MeterAccounted(w, i, now);
    }
  }

  lemma ExtendKept(w: Workflow, i: nat, expires: int)
    requires Kept(w) && IsActive(w) && i < |w.claims|
    ensures Preserves(w, Extend(w, i, expires))
  {
    hide Accounted, Scheduled, Logged;
    SameScheduled(w, Extend(w, i, expires));
    ExtendLogged(w, i, expires);
    if Accounted(w) {
      ExtendAccounted(w, i, expires);
    }
  }

  lemma RenewKept(w: Workflow, holder: Credential, leaseSeconds: nat, now: int, ready: bool)
    requires Kept(w)
    ensures Preserves(w, After(w, Renew(w, holder, leaseSeconds, now, ready)))
  {
    hide Kept, Books, Meter, Extend, RuntimeExhausted;
    if Refusal(w, holder, now).None? {
      if RuntimeExhausted(w, holder.claim, now) {
        EndKept(w, StaleRejected, Failed, BudgetExhausted("runtime"), ready);
      } else {
        MeterKept(w, holder.claim, now);
        MeterKeepsRows(w, holder.claim, now);
        ExtendKept(Meter(w, holder.claim, now), holder.claim, now + leaseSeconds);
      }
    }
  }

  lemma MeterKeepsRows(w: Workflow, i: nat, now: int)
    requires i < |w.claims|
    ensures var m := Meter(w, i, now);
      && |m.claims| == |w.claims| && m.claims[i].step == w.claims[i].step && m.claims[i].status == w.claims[i].status
      && m.steps == w.steps && m.state == w.state
  {
  }

  lemma AppendEventKept(w: Workflow, i: nat, r: Record)
    requires Kept(w) && IsActive(w) && i < |w.claims| && w.claims[i].status.Active? && r.payload.Event?
    requires w.counters.eventBytes + r.payload.size <= w.plan.budgets.eventBytes
    requires !w.claims[i].kind.Check? && r.payload.toolSummary ==>
             w.counters.externalOperations < w.plan.budgets.externalOperations
    requires FindRecord(w.claims[i].records, r.id).None? && r.sequence == w.claims[i].nextSequence
             && r.digest == PayloadDigest(r.payload)
    ensures Preserves(w, AppendEvent(w, i, r))
  {
    hide Accounted, Scheduled, Logged, FindRecord;
    SameScheduled(w, AppendEvent(w, i, r));
    AppendEventLogged(w, i, r);
    if Accounted(w) {
      AppendEventAccounted(w, i, r);
    }
  }

  lemma CompleteKept(w: Workflow, i: nat, r: Record, edge: Option<RecordedEdge>, ready: bool)
    requires Kept(w) && IsActive(w) && i < |w.claims| && w.claims[i].status.Active? && r.payload.Outcome?
             && w.claims[i].step in w.steps
    requires FindRecord(w.claims[i].records, r.id).None? && r.sequence == w.claims[i].nextSequence
             && r.digest == PayloadDigest(r.payload)
    requires EdgeIsNew(w, edge) && ReportGiven(w.claims[i], r.payload.terminal, edge.Some?)
    requires edge.Some? ==> w.counters.artifactBytes + edge.value.artifact.size <= w.plan.budgets.artifactBytes
    requires edge.Some? ==> w.counters.artifactEdges < w.plan.budgets.artifactEdges
    ensures Preserves(w, Complete(w, i, r, edge, ready))
  {
    hide Accounted, Scheduled, Logged, Ended, FindRecord, EdgeIsNew, AllSucceeded, Freeze;
    var f := Finish(w, i, r, edge);
    FinishScheduled(w, i, r, edge);
    FinishLogged(w, i, r, edge);
    FinishEnded(w, i, r, edge, ready);
    if !f.state.Running? {
      FreezeScheduled(f, ready);
      FreezeLogged(f, ready);
    }
    if Accounted(w) {
      FinishAccounted(w, i, r, edge);
      if !f.state.Running? {
        FreezeAccounted(f, ready);
      }
    }
  }

  lemma PreflightClears(w: Workflow, c: Claim, u: Update)
    requires u.record.payload.Outcome? && PreflightReport(w, c, u).Clear?
    ensures EdgeIsNew(w, Some(RecordedEdge(PreflightReport(w, c, u).edge, u.report, c.attempt)))
    ensures w.counters.artifactBytes + u.report.size <= w.plan.budgets.artifactBytes
    ensures w.counters.artifactEdges < w.plan.budgets.artifactEdges
  {
    FindReportEdgeFinds(w.plan.edges, c.step);
  }

  lemma AppendKept(w: Workflow, u: Update, ready: bool)
    requires Kept(w) && IsActive(w) && u.holder.claim < |w.claims| && w.claims[u.holder.claim].step in w.steps
    requires w.claims[u.holder.claim].status.Active? && u.record.digest == PayloadDigest(u.record.payload)
    ensures Preserves(w, After(w, Append(w, u, ready)))
  {
    hide Kept, Books, FindRecord, PreflightReport, AppendEvent, Complete, Freeze, Halt;
    var i, r := u.holder.claim, u.record;
    if FindRecord(w.claims[i].records, r.id).None? && r.sequence == w.claims[i].nextSequence {
      match r.payload
      case Event(tool, _, size) =>
        EndKept(w, StaleRejected, Failed, BudgetExhausted("event byte"), ready);
        if w.counters.eventBytes + size <= w.plan.budgets.eventBytes {
          ToolEventEndKept(w, size, ready);
          if w.claims[i].kind.Check? || !tool || w.counters.externalOperations < w.plan.budgets.externalOperations {
            AppendEventKept(w, i, r);
          }
        }
      case Outcome(_, _, _) => AppendOutcomeKept(w, u, ready);
    }
  }

  lemma AppendOutcomeKept(w: Workflow, u: Update, ready: bool)
    requires Kept(w) && IsActive(w) && u.holder.claim < |w.claims| && w.claims[u.holder.claim].step in w.steps
    requires w.claims[u.holder.claim].status.Active? && u.record.digest == PayloadDigest(u.record.payload)
             && u.record.payload.Outcome?
    requires FindRecord(w.claims[u.holder.claim].records, u.record.id).None?
             && u.record.sequence == w.claims[u.holder.claim].nextSequence
    ensures Preserves(w, After(w, Append(w, u, ready)))
  {
    hide Kept, Books, FindRecord, PreflightReport, Complete, Freeze, Halt, EdgeIsNew;
    var i, r := u.holder.claim, u.record;
    if !RecordsReport(w.claims[i], u) {
      NoEdgeIsNew(w);
      CompleteKept(w, i, r, None, ready);
    } else {
      match PreflightReport(w, w.claims[i], u)
      case Refused(_) =>
      case OverBudget(budget) => EndKept(w, StaleRejected, Failed, BudgetExhausted(budget), ready);
      case Clear(edge) =>
        PreflightClears(w, w.claims[i], u);
        CompleteKept(w, i, r, Some(RecordedEdge(edge, u.report, w.claims[i].attempt)), ready);
    }
  }

  lemma NoEdgeIsNew(w: Workflow)
    ensures EdgeIsNew(w, None)
  {
  }

  /** Every claim is of a planned step that claims may run. */
  predicate ClaimsPlanned(w: Workflow) {
    forall c | c in w.claims :: c.step in w.steps && !IsDispatch(w, c.step)
  }

  lemma KeptClaimsPlanned(w: Workflow)
    requires Kept(w)
    ensures ClaimsPlanned(w)
  {
    hide FindStep;
  }

  lemma UpdateKept(w: Workflow, u: Update, now: int, ready: bool)
    requires Kept(w) && ClaimsPlanned(w)
    ensures Preserves(w, After(w, ApplyUpdate(w, u, now, ready)))
  {
    hide Kept, Books, Meter, RuntimeExhausted, Append;
    if Refusal(w, u.holder, now).None? {
      if RuntimeExhausted(w, u.holder.claim, now) {
        EndKept(w, StaleRejected, Failed, BudgetExhausted("runtime"), ready);
      } else {
        var m := Meter(w, u.holder.claim, now);
        MeterKept(w, u.holder.claim, now);
        MeterKeepsRows(w, u.holder.claim, now);
        if u.record.digest == PayloadDigest(u.record.payload) {
          AppendKept(m, u, ready);
          PreservesTransitive(w, m, After(m, Append(m, u, ready)));
        }
      }
    }
  }

  lemma CancelKept(w: Workflow, reason: string, ready: bool)
    requires Kept(w)
    ensures Preserves(w, Cancel(w, reason, ready))
  {
    hide Kept, Books, Freeze, Halt;
    if IsActive(w) {
      EndKept(w, CancelledClaim, Cancelled, CancelledBy(reason), ready);
    }
  }

  lemma ReleaseKept(w: Workflow, i: nat, now: int)
    requires Kept(w) && IsActive(w) && i < |w.claims| && w.claims[i].status.Active? && !RuntimeExhausted(w, i, now)
    requires i < |Meter(w, i, now).claims|
    ensures var r := Release(Meter(w, i, now), i); Preserves(w, r) && IsActive(r) && |r.claims| == |w.claims|
  {
    hide Accounted, Scheduled, Logged, Ended, Meter, RuntimeExhausted;
    var m := Meter(w, i, now);
    MeterKept(w, i, now);
    MeterKeepsRows(w, i, now);
    ReleaseScheduled(m, i);
    ReleaseLogged(m, i);
    ReleaseEnded(m, i);
    if Books(w) {
      ReleaseAccounted(m, i);
    }
  }

  lemma {:induction false} ReleaseExpiredKept(w: Workflow, from: nat, now: int, ready: bool)
    requires Kept(w) && IsActive(w)
    ensures var t := ReleaseExpired(w, from, now, ready); !t.Rollback? && Preserves(w, t.state)
    decreases |w.claims| - from
  {
    hide Kept, Books, Meter, Release, RuntimeExhausted;
    if from < |w.claims| {
      if !Expired(w.claims[from], now) {
        ReleaseExpiredKept(w, from + 1, now, ready);
      } else if RuntimeExhausted(w, from, now) {
        EndKept(w, StaleRejected, Failed, BudgetExhausted("runtime"), ready);
      } else {
        MeterKeepsRows(w, from, now);
        ReleaseKept(w, from, now);
        ReleaseExpiredKept(Release(Meter(w, from, now), from), from + 1, now, ready);
      }
    }
  }

  lemma StepKept(w: Workflow, r: Request)
    requires Kept(w) && ClaimsPlanned(w)
    ensures Preserves(w, Step(w, r.action, r.ready))
  {
    hide Kept, Books, Activate, Renew, ApplyUpdate, Cancel, ReleaseExpired;
    match r.action
    case DoActivate(request, now, keys) => ActivateKept(w, request, now, keys, r.ready);
    case DoRenew(holder, leaseSeconds, now) => RenewKept(w, holder, leaseSeconds, now, r.ready);
    case DoUpdate(update, now) => UpdateKept(w, update, now, r.ready);
    case DoCancel(reason) => CancelKept(w, reason, r.ready);
    case DoReconcile(now) =>
      if IsActive(w) {
        ReleaseExpiredKept(w, 0, now, r.ready);
      }
  }

  // ----- what a request leaves alone -----

  ghost predicate RowContinues(c: Claim, d: Claim) {
    && SameIdentity(c, d) && d.started == c.started && c.accounted <= d.accounted && c.records <= d.records
    && (!c.status.Active? ==> d == c)
  }

  /** The counters of external calls belong to the external-operation service. */
  ghost predicate SameCalls(k: Counters, l: Counters) {
    && l.externalCalls == k.externalCalls && l.recoveryQueryCalls == k.recoveryQueryCalls
    && l.dispatchAttempts == k.dispatchAttempts && l.activeDispatches == k.activeDispatches
  }

  ghost predicate SameDispatchSteps(w: Workflow, v: Workflow) {
    && v.steps.Keys == w.steps.Keys
    && forall s | s in w.steps && IsDispatch(w, s) :: v.steps[s] == w.steps[s]
  }

  /** What every later state of a workflow has in common with this one. */
  ghost predicate Continues(w: Workflow, v: Workflow) {
    && v.plan == w.plan && SameCalls(w.counters, v.counters) && SameDispatchSteps(w, v)
    && |w.claims| <= |v.claims| && (forall i | 0 <= i < |w.claims| :: RowContinues(w.claims[i], v.claims[i]))
    && w.successes <= v.successes && w.edges <= v.edges
    && (IsActive(w) || v == w)
  }

  lemma ContinuesTransitive(a: Workflow, b: Workflow, c: Workflow)
    requires Continues(a, b) && Continues(b, c)
    ensures Continues(a, c)
  {
    forall i | 0 <= i < |a.claims| ensures RowContinues(a.claims[i], c.claims[i]) {
      assert RowContinues(a.claims[i], b.claims[i]) && RowContinues(b.claims[i], c.claims[i]);
    }
  }

  /** One row is replaced by its continuation. */
  lemma RowUpdateContinues(w: Workflow, v: Workflow, i: nat)
    requires i < |w.claims| && |v.claims| == |w.claims| && v.claims == w.claims[i := v.claims[i]]
             && RowContinues(w.claims[i], v.claims[i])
    requires v.plan == w.plan && w.successes <= v.successes && w.edges <= v.edges && IsActive(w)
    requires SameCalls(w.counters, v.counters) && SameDispatchSteps(w, v)
    ensures Continues(w, v)
  {
  }

  lemma EndContinues(w: Workflow, status: ClaimStatus, state: WorkflowState, error: WorkflowError, ready: bool)
    requires IsActive(w)
    ensures forall k | SameCalls(w.counters, k) ::
              Continues(w, Freeze(Halt(w.(counters := k), status, state, error), ready))
    ensures Continues(w, Freeze(Halt(w, status, state, error), ready))
  {
    hide Outcomes;
  }

  lemma ActivateContinues(w: Workflow, request: Activation, now: int, keys: Keyring, ready: bool)
    ensures Continues(w, After(w, Activate(w, request, now, keys, ready)))
  {
    hide Freeze, Halt, FindStep, FindKey, Ready, AttemptsExhausted;
    var t := Activate(w, request, now, keys, ready);
    if t.CommitFailure? {
      EndContinues(w, StaleRejected, Stopped(Failed), BudgetExhausted("attempt"), ready);
    } else if t.Commit? && FindKey(w.claims, request.key).None? {
      var step := FindStep(w.plan.steps, request.step).value;
      PlannedRow(w, step, request.step);
      assert !IsDispatch(w, step.id);
    }
  }

  lemma RenewContinues(w: Workflow, holder: Credential, leaseSeconds: nat, now: int, ready: bool)
    ensures Continues(w, After(w, Renew(w, holder, leaseSeconds, now, ready)))
  {
    hide Freeze, Halt, RuntimeExhausted;
    var t := Renew(w, holder, leaseSeconds, now, ready);
    if t.CommitFailure? {
      EndContinues(w, StaleRejected, Stopped(Failed), BudgetExhausted("runtime"), ready);
    } else if t.Commit? {
      RowUpdateContinues(w, t.state, holder.claim);
    }
  }

  lemma CompleteContinues(w: Workflow, i: nat, r: Record, edge: Option<RecordedEdge>, ready: bool)
    requires IsActive(w) && i < |w.claims| && r.payload.Outcome? && ClaimsPlanned(w) && w.claims[i].status.Active?
    ensures Continues(w, Complete(w, i, r, edge, ready))
  {
    hide Outcomes, AllSucceeded;
    RowUpdateContinues(w, Complete(w, i, r, edge, ready), i);
  }

  lemma AppendContinues(w: Workflow, u: Update, ready: bool)
    requires IsActive(w) && u.holder.claim < |w.claims| && ClaimsPlanned(w) && w.claims[u.holder.claim].status.Active?
    ensures Continues(w, After(w, Append(w, u, ready)))
  {
    hide Freeze, Halt, Complete, FindRecord, PreflightReport;
    var t := Append(w, u, ready);
    var i, r := u.holder.claim, u.record;
    match t
    case Rollback(_) =>
    case CommitFailure(v, _) => FailureContinues(w, u, ready);
    case Commit(v, _) =>
      if r.payload.Event? {
        if v != w {
          RowUpdateContinues(w, v, i);
        }
      } else if FindRecord(w.claims[i].records, r.id).None? {
        CompletionContinues(w, u, ready);
      }
  }

  lemma CompletionContinues(w: Workflow, u: Update, ready: bool)
    requires IsActive(w) && u.holder.claim < |w.claims| && ClaimsPlanned(w) && w.claims[u.holder.claim].status.Active?
    requires u.record.payload.Outcome? && FindRecord(w.claims[u.holder.claim].records, u.record.id).None?
             && Append(w, u, ready).Commit?
    ensures Continues(w, Append(w, u, ready).state)
  {
    hide Freeze, Halt, Complete, Continues, FindRecord;
    var i := u.holder.claim;
    if !RecordsReport(w.claims[i], u) {
      CompleteContinues(w, i, u.record, None, ready);
    } else {
      var edge := PreflightReport(w, w.claims[i], u).edge;
      CompleteContinues(w, i, u.record, Some(RecordedEdge(edge, u.report, w.claims[i].attempt)), ready);
    }
  }

  lemma FailureContinues(w: Workflow, u: Update, ready: bool)
    requires IsActive(w) && u.holder.claim < |w.claims| && ClaimsPlanned(w) && Append(w, u, ready).CommitFailure?
    ensures Continues(w, Append(w, u, ready).state)
  {
    hide Freeze, Halt, FindRecord, PreflightReport, Continues, Complete, AppendEvent;
    var c := w.claims[u.holder.claim];
    EndContinues(w, StaleRejected, Stopped(Failed), BudgetExhausted("event byte"), ready);
    EndContinues(w, StaleRejected, Stopped(Failed), BudgetExhausted("external operation"), ready);
    if u.record.payload.Outcome? && PreflightReport(w, c, u).OverBudget? {
      EndContinues(w, StaleRejected, Stopped(Failed), BudgetExhausted(PreflightReport(w, c, u).budget), ready);
    }
  }

  lemma UpdateContinues(w: Workflow, u: Update, now: int, ready: bool)
    requires ClaimsPlanned(w)
    ensures Continues(w, After(w, ApplyUpdate(w, u, now, ready)))
  {
    hide Append, RuntimeExhausted, Freeze, Halt;
    var t := ApplyUpdate(w, u, now, ready);
    if Refusal(w, u.holder, now).None? {
      if RuntimeExhausted(w, u.holder.claim, now) {
        EndContinues(w, StaleRejected, Stopped(Failed), BudgetExhausted("runtime"), ready);
      } else if u.record.digest == PayloadDigest(u.record.payload) {
        var m := Meter(w, u.holder.claim, now);
        RowUpdateContinues(w, m, u.holder.claim);
        AppendContinues(m, u, ready);
        ContinuesTransitive(w, m, After(m, Append(m, u, ready)));
      }
    }
  }

  lemma {:induction false} ReleaseExpiredContinues(w: Workflow, from: nat, now: int, ready: bool)
    requires IsActive(w) && ClaimsPlanned(w)
    ensures var t := ReleaseExpired(w, from, now, ready); !t.Rollback? && Continues(w, t.state)
    decreases |w.claims| - from
  {
    hide Continues, RuntimeExhausted, Freeze, Halt;
    if from < |w.claims| {
      if !Expired(w.claims[from], now) {
        ReleaseExpiredContinues(w, from + 1, now, ready);
      } else if RuntimeExhausted(w, from, now) {
        EndContinues(w, StaleRejected, Stopped(Failed), BudgetExhausted("runtime"), ready);
      } else {
        var r := Release(Meter(w, from, now), from);
        RowUpdateContinues(w, r, from);
        ReleaseExpiredContinues(r, from + 1, now, ready);
        ContinuesTransitive(w, r, ReleaseExpired(r, from + 1, now, ready).state);
      }
    } else {
      SelfContinues(w);
    }
  }

  lemma SelfContinues(w: Workflow)
    ensures Continues(w, w)
  {
  }

  /** Nothing a request does takes back a claim's ending, a record, an edge, a success or a receipt. */
  lemma StepContinues(w: Workflow, r: Request)
    requires ClaimsPlanned(w)
    ensures Continues(w, Step(w, r.action, r.ready))
  {
    hide Continues, Activate, Renew, ApplyUpdate, ReleaseExpired, Freeze, Halt;
    match r.action
    case DoActivate(request, now, keys) => ActivateContinues(w, request, now, keys, r.ready);
    case DoRenew(holder, leaseSeconds, now) => RenewContinues(w, holder, leaseSeconds, now, r.ready);
    case DoUpdate(update, now) => UpdateContinues(w, update, now, r.ready);
    case DoCancel(reason) =>
      if IsActive(w) {
        EndContinues(w, CancelledClaim, Stopped(Cancelled), CancelledBy(reason), r.ready);
      } else {
        SelfContinues(w);
      }
    case DoReconcile(now) =>
      if IsActive(w) {
        ReleaseExpiredContinues(w, 0, now, r.ready);
      } else {
        SelfContinues(w);
      }
  }

  // ----- runs -----

  /** Requests served one after another, each under whatever clock it brings. */
  ghost function Run(w: Workflow, requests: seq<Request>): (v: Workflow)
    requires Sound(w)
    ensures Sound(v) && Continues(w, v)
    decreases |requests|
  {
    hide Kept, Books, Continues, Step;
    if requests == [] then
      SelfContinues(w);
      w
    else
      KeptClaimsPlanned(w);
      StepKept(w, requests[0]);
      StepContinues(w, requests[0]);
      var next := Step(w, requests[0].action, requests[0].ready);
      ContinuesTransitive(w, next, Run(next, requests[1..]));
      Run(next, requests[1..])
  }

  lemma {:induction false} RunAppends(w: Workflow, first: seq<Request>, more: seq<Request>)
    requires Sound(w)
    ensures Run(w, first + more) == Run(Run(w, first), more)
    decreases |first|
  {
    hide Kept, Books, Continues, Step;
    if first == [] {
      assert first + more == more;
    } else {
      KeptClaimsPlanned(w);
      StepKept(w, first[0]);
      assert (first + more)[1..] == first[1..] + more;
      RunAppends(Step(w, first[0].action, first[0].ready), first[1..], more);
    }
  }

  /** A claim that stopped being active never has effect again: its row is final, and its holder is turned away. */
  lemma EndedClaimIsPowerless(w: Workflow, requests: seq<Request>, i: nat, holder: Credential, now: int)
    requires Sound(w) && i < |w.claims| && !w.claims[i].status.Active? && holder.claim == i
    ensures var v := Run(w, requests); v.claims[i] == w.claims[i] && Refusal(v, holder, now).Some?
  {
    hide Sound, Run;
    var v := Run(w, requests);
    assert RowContinues(w.claims[i], v.claims[i]);
  }

  /** Two claims ever opened, even for one step, have different tokens, so no holder passes for another. */
  lemma TokensAreDistinct(w: Workflow, i: nat, j: nat)
    requires Sound(w) && i < |w.claims| && j < |w.claims| && i != j
    ensures w.claims[i].token != w.claims[j].token && w.claims[i].binding.key != w.claims[j].binding.key
  {
    hide Accounted, Scheduled, Ended;
    assert w.claims[i].token.claim == i && w.claims[j].token.claim == j;
    if i < j { assert w.claims[i].binding.key != w.claims[j].binding.key; }
  }

  /** An exact retry of an activation, however much later and under whatever current key, changes nothing and returns
      the same claim and token, as long as the key of that token is loaded; a different request under that idempotency
      key is refused. */
  lemma RetryReturnsSameClaim(w: Workflow, request: Activation, now: int, keys: Keyring, ready: bool,
                              requests: seq<Request>,
                              other: Activation, later: int, laterKeys: Keyring, laterReady: bool)
    requires Sound(w) && Activate(w, request, now, keys, ready).Commit?
    requires other.key == request.key
    ensures Sound(Activate(w, request, now, keys, ready).state)
    ensures var first := Activate(w, request, now, keys, ready);
      var v := Run(first.state, requests);
      IsActive(v) ==>
        Activate(v, other, later, laterKeys, laterReady) ==
        if other != request then Rollback(ActivationBindingConflict)
        else if Loaded(laterKeys, first.result.1.keyId) then Commit(v, first.result)
        else Rollback(KeyUnavailable)
  {
    hide Kept, Books, Run, Ready, AttemptsExhausted, FindStep, FindKey;
    var first := Activate(w, request, now, keys, ready);
    ActivateKept(w, request, now, keys, ready);
    var i := first.result.0;
    assert i < |first.state.claims| && first.state.claims[i].binding == request
           && first.state.claims[i].token == first.result.1;
    var v := Run(first.state, requests);
    assert RowContinues(first.state.claims[i], v.claims[i]);
    KeyFindsRow(v, i);
  }

  lemma KeyFindsRow(w: Workflow, i: nat)
    requires Sound(w) && i < |w.claims|
    ensures FindKey(w.claims, w.claims[i].binding.key) == Some(i)
  {
    hide Accounted, Scheduled, Ended, GoodLog;
    var found := FindKey(w.claims, w.claims[i].binding.key);
    assert found.Some? by { assert w.claims[i] in w.claims; }
  }

  /** A completed workflow lists every step once, dependencies first. */
  lemma CompletionListsEveryStep(w: Workflow)
    requires Sound(w) && w.state.Completed?
    ensures NoDuplicates(w.successes) && (forall s :: s in w.successes <==> s in w.steps)
    ensures forall n, d | 0 <= n < |w.successes| && d in DependsOn(w, w.successes[n]) :: d in w.successes[..n]
    ensures w.error.None? && w.receipt.Some? && w.receipt.value.status.Completed?
            && w.receipt.value.counters == w.counters
  {
    hide Accounted, Logged, Outcomes;
    assert forall s :: Succeeds(w, s) <==> s in w.steps;
  }
}
