/** What claim requests do to the counter of active steps that claims share with dispatches: they keep what is not
    theirs, or reset it. */
module WorkflowBalance {
  import opened Wrappers
  import opened RuntimeWorkflow
  import opened Totals
  import opened WorkflowAccounting
  import opened WorkflowScheduling
  import opened WorkflowRuns

  /** The part of the counter that stands for steps run otherwise than by claims. */
  function Spare(w: Workflow): int {
    w.counters.activeSteps - ActiveCount(w.claims)
  }

  /** A request that ends all claims and sets the counter to zero: a cancel, or a failed budget. */
  predicate Resets(w: Workflow, a: Action, ready: bool)
    requires ClaimsPlanned(w)
  {
    && IsActive(w)
    && match a
       case DoActivate(request, now, keys) => Activate(w, request, now, keys, ready).CommitFailure?
       case DoRenew(holder, leaseSeconds, now) =>
           RuntimeWorkflow.Renew(w, holder, leaseSeconds, now, ready).CommitFailure?
       case DoUpdate(update, now) => ApplyUpdate(w, update, now, ready).CommitFailure?
       case DoCancel(_) => true
       case DoReconcile(now) => Reconcile(w, now, ready).CommitFailure?
  }

  /** A receipt, once frozen, stays; a workflow that ends freezes one, with the counters it has then. */
  ghost predicate FreezesOnce(w: Workflow, v: Workflow) {
    && (w.receipt.Some? ==> v.receipt == w.receipt) && (IsActive(w) && !IsActive(v) ==> v.receipt.Some?)
    && (w.receipt.None? && v.receipt.Some? ==> !IsActive(v) && v.receipt.value.counters == v.counters)
    && (!IsActive(w) ==> v == w)
  }

  /** All counters but those of what is active only grow. */
  predicate CountersGrow(k: Counters, l: Counters) {
    && k.providerAttempts <= l.providerAttempts && k.checkAttempts <= l.checkAttempts
       && k.dispatchAttempts <= l.dispatchAttempts
    && k.repairIterations <= l.repairIterations && k.runtimeSeconds <= l.runtimeSeconds && k.eventBytes <= l.eventBytes
    && k.artifactBytes <= l.artifactBytes && k.artifactEdges <= l.artifactEdges
       && k.externalOperations <= l.externalOperations
    && k.externalCalls <= l.externalCalls && k.recoveryQueryCalls <= l.recoveryQueryCalls
  }

  ghost predicate Balances(w: Workflow, v: Workflow, reset: bool) {
    FreezesOnce(w, v) && CountersGrow(w.counters, v.counters)
        && if reset then v.counters.activeSteps == ActiveCount(v.claims) == 0 && !IsActive(v) else Spare(v) == Spare(w)
  }

  // ----- how the parts of a request move it -----

  lemma {:induction false} NoneActiveCount(claims: seq<Claim>)
    requires forall i | 0 <= i < |claims| :: !claims[i].status.Active?
    ensures ActiveCount(claims) == 0
  {
    if claims != [] {
      NoneActiveCount(claims[..|claims| - 1]);
    }
  }

  lemma RowCount(claims: seq<Claim>, i: nat, c: Claim)
    requires i < |claims|
    ensures ActiveCount(claims[i := c]) == ActiveCount(claims) - ActiveRow(claims[i]) + ActiveRow(c)
  {
    ActiveCountIsTotal(claims);
    ActiveCountIsTotal(claims[i := c]);
    TotalUpdate(claims, i, c, ActiveRow);
  }

  lemma ExhaustResets(w: Workflow, budget: string, ready: bool)
    requires IsActive(w)
    ensures Balances(w, Exhaust(w, budget, ready), true)
  {
    hide Outcomes;
    NoneActiveCount(EndActive(w.claims, StaleRejected));
  }

  lemma CancelResets(w: Workflow, reason: string, ready: bool)
    requires IsActive(w)
    ensures Balances(w, Cancel(w, reason, ready), true)
  {
    hide Outcomes;
    NoneActiveCount(EndActive(w.claims, CancelledClaim));
  }

  lemma MeterBalances(w: Workflow, i: nat, now: int)
    requires i < |w.claims| && IsActive(w)
    ensures var v := Meter(w, i, now);
      Balances(w, v, false) && IsActive(v) && |v.claims| == |w.claims| && v.claims[i].status == w.claims[i].status
          && v.claims[i].step == w.claims[i].step
      && v.steps == w.steps && v.receipt == w.receipt
  {
    RowCount(w.claims, i, Meter(w, i, now).claims[i]);
  }

  lemma ExtendBalances(w: Workflow, i: nat, expires: int)
    requires i < |w.claims| && IsActive(w)
    ensures Balances(w, Extend(w, i, expires), false)
  {
    RowCount(w.claims, i, Extend(w, i, expires).claims[i]);
  }

  lemma ReleaseBalances(w: Workflow, i: nat)
    requires i < |w.claims| && IsActive(w) && w.claims[i].status.Active?
    ensures Balances(w, Release(w, i), false) && IsActive(Release(w, i)) && |Release(w, i).claims| == |w.claims|
  {
    RowCount(w.claims, i, Release(w, i).claims[i]);
  }

  lemma OpenBalances(w: Workflow, step: PlanStep, request: Activation, now: int, keys: Keyring)
    requires step.id in w.steps && IsActive(w)
    ensures Balances(w, OpenClaim(w, step, request, now, keys), false)
  {
    var claims := OpenClaim(w, step, request, now, keys).claims;
    assert claims[..|claims| - 1] == w.claims;
  }

  lemma EventBalances(w: Workflow, i: nat, r: Record)
    requires i < |w.claims| && r.payload.Event? && IsActive(w)
    ensures Balances(w, AppendEvent(w, i, r), false)
  {
    RowCount(w.claims, i, AppendEvent(w, i, r).claims[i]);
  }

  lemma CompleteBalances(w: Workflow, i: nat, r: Record, edge: Option<RecordedEdge>, ready: bool)
    requires i < |w.claims| && r.payload.Outcome? && w.claims[i].step in w.steps && IsActive(w)
             && w.claims[i].status.Active?
    ensures Balances(w, Complete(w, i, r, edge, ready), false)
  {
    hide AllSucceeded, Outcomes;
    RowCount(w.claims, i, Finish(w, i, r, edge).claims[i]);
  }

  // ----- requests -----

  lemma BalancesThen(a: Workflow, b: Workflow, c: Workflow, reset: bool)
    requires Balances(a, b, false) && IsActive(b) && Balances(b, c, reset)
    ensures Balances(a, c, reset)
  {
  }

  lemma AppendBalances(w: Workflow, u: Update, ready: bool)
    requires u.holder.claim < |w.claims| && w.claims[u.holder.claim].step in w.steps && IsActive(w)
    requires w.claims[u.holder.claim].status.Active?
    ensures var t := Append(w, u, ready); Balances(w, After(w, t), t.CommitFailure?)
  {
    hide FindRecord, PreflightReport, RecordsReport, Complete, AppendEvent, Exhaust, Balances;
    StaysBalances(w);
    forall budget ensures Balances(w, Exhaust(w, budget, ready), true) {
      ExhaustResets(w, budget, ready);
    }
    var i, r := u.holder.claim, u.record;
    if r.payload.Event? {
      EventBalances(w, i, r);
      var counted := w.(counters := w.counters.(eventBytes := w.counters.eventBytes + r.payload.size));
      ExhaustResets(counted, "external operation", ready);
      CountedBalances(w, counted);
      BalancesThen(w, counted, Exhaust(counted, "external operation", ready), true);
    } else {
      forall edge ensures Balances(w, Complete(w, i, r, edge, ready), false) {
        CompleteBalances(w, i, r, edge, ready);
      }
    }
  }

  lemma StaysBalances(w: Workflow)
    ensures Balances(w, w, false)
  {
  }

  lemma CountedBalances(w: Workflow, v: Workflow)
    requires IsActive(w) && v == w.(counters := v.counters) && v.counters.activeSteps == w.counters.activeSteps
    requires CountersGrow(w.counters, v.counters)
    ensures Balances(w, v, false)
  {
  }

  lemma ActivateBalances(w: Workflow, request: Activation, now: int, keys: Keyring, ready: bool)
    requires IsActive(w)
    ensures var t := Activate(w, request, now, keys, ready); Balances(w, After(w, t), t.CommitFailure?)
  {
    hide FindKey, FindStep, InvocationBound, DependenciesSucceeded, AttemptsExhausted, Exhaust, OpenClaim, Balances;
    StaysBalances(w);
    ExhaustResets(w, "attempt", ready);
    var step := FindStep(w.plan.steps, request.step);
    if step.Some? && step.value.id in w.steps {
      OpenBalances(w, step.value, request, now, keys);
    }
  }

  lemma RenewBalances(w: Workflow, holder: Credential, leaseSeconds: nat, now: int, ready: bool)
    requires IsActive(w)
    ensures var t := RuntimeWorkflow.Renew(w, holder, leaseSeconds, now, ready);
            Balances(w, After(w, t), t.CommitFailure?)
  {
    hide RuntimeExhausted, Exhaust, Meter, Extend, Balances;
    StaysBalances(w);
    if Refusal(w, holder, now).None? {
      ExhaustResets(w, "runtime", ready);
      MeterBalances(w, holder.claim, now);
      var m := Meter(w, holder.claim, now);
      ExtendBalances(m, holder.claim, now + leaseSeconds);
      BalancesThen(w, m, Extend(m, holder.claim, now + leaseSeconds), false);
    }
  }

  lemma UpdateBalances(w: Workflow, u: Update, now: int, ready: bool)
    requires IsActive(w) && ClaimsPlanned(w)
    ensures var t := ApplyUpdate(w, u, now, ready); Balances(w, After(w, t), t.CommitFailure?)
  {
    hide RuntimeExhausted, Exhaust, Meter, Append, Balances;
    StaysBalances(w);
    if Refusal(w, u.holder, now).None? {
      ExhaustResets(w, "runtime", ready);
      MeterBalances(w, u.holder.claim, now);
      var m := Meter(w, u.holder.claim, now);
      AppendBalances(m, u, ready);
      BalancesThen(w, m, After(m, Append(m, u, ready)), Append(m, u, ready).CommitFailure?);
    }
  }

  lemma {:induction false} ReleaseExpiredBalances(w: Workflow, from: nat, now: int, ready: bool)
    requires IsActive(w)
    ensures var t := ReleaseExpired(w, from, now, ready); !t.Rollback? && Balances(w, t.state, t.CommitFailure?)
    decreases |w.claims| - from
  {
    hide RuntimeExhausted, Exhaust, Meter, Release, Balances;
    StaysBalances(w);
    if from < |w.claims| {
      if !Expired(w.claims[from], now) {
        ReleaseExpiredBalances(w, from + 1, now, ready);
      } else if RuntimeExhausted(w, from, now) {
        ExhaustResets(w, "runtime", ready);
      } else {
        MeterBalances(w, from, now);
        var m := Meter(w, from, now);
        ReleaseBalances(m, from);
        var f := Release(m, from);
        BalancesThen(w, m, f, false);
        ReleaseExpiredBalances(f, from + 1, now, ready);
        var t := ReleaseExpired(f, from + 1, now, ready);
        BalancesThen(w, f, t.state, t.CommitFailure?);
      }
    }
  }

  /** Whatever a claim request does, it keeps the part of the counter that is not the claims', or resets the counter
      and ends the workflow with all its claims. */
  lemma StepBalances(w: Workflow, a: Action, ready: bool)
    requires ClaimsPlanned(w)
    ensures Balances(w, Step(w, a, ready), Resets(w, a, ready))
  {
    hide Balances, Activate, ApplyUpdate, Cancel, ReleaseExpired, ClaimsPlanned;
    if IsActive(w) {
      match a
      case DoActivate(request, now, keys) => ActivateBalances(w, request, now, keys, ready);
      case DoRenew(holder, leaseSeconds, now) => RenewBalances(w, holder, leaseSeconds, now, ready);
      case DoUpdate(update, now) => UpdateBalances(w, update, now, ready);
      case DoCancel(reason) => CancelResets(w, reason, ready);
      case DoReconcile(now) => ReleaseExpiredBalances(w, 0, now, ready);
    } else {
      StaysBalances(w);
      OverIgnores(w, a, ready);
    }
  }

  /** A workflow that is over takes no claim request. */
  lemma OverIgnores(w: Workflow, a: Action, ready: bool)
    requires ClaimsPlanned(w) && !IsActive(w)
    ensures Step(w, a, ready) == w
  {
    hide FindKey, FindStep, ReleaseExpired;
  }

  // ----- claims stay those of planned steps -----

  lemma ExhaustKeepsCount(w: Workflow, budget: string, ready: bool)
    ensures |Exhaust(w, budget, ready).claims| == |w.claims|
  {
    hide Outcomes;
  }

  lemma CompleteKeepsCount(w: Workflow, i: nat, r: Record, edge: Option<RecordedEdge>, ready: bool)
    requires i < |w.claims| && r.payload.Outcome? && w.claims[i].step in w.steps
    ensures |Complete(w, i, r, edge, ready).claims| == |w.claims|
  {
    hide AllSucceeded, Outcomes;
  }

  lemma AppendKeepsCount(w: Workflow, u: Update, ready: bool)
    requires u.holder.claim < |w.claims| && w.claims[u.holder.claim].step in w.steps
    ensures |After(w, Append(w, u, ready)).claims| == |w.claims|
  {
    hide FindRecord, PreflightReport, RecordsReport, Complete, Exhaust;
    forall budget: string, x: Workflow ensures |Exhaust(x, budget, ready).claims| == |x.claims| {
      ExhaustKeepsCount(x, budget, ready);
    }
    if u.record.payload.Outcome? {
      forall edge ensures |Complete(w, u.holder.claim, u.record, edge, ready).claims| == |w.claims| {
        CompleteKeepsCount(w, u.holder.claim, u.record, edge, ready);
      }
    }
  }

  lemma {:induction false} ReleaseExpiredKeepsCount(w: Workflow, from: nat, now: int, ready: bool)
    ensures var t := ReleaseExpired(w, from, now, ready); !t.Rollback? && |t.state.claims| == |w.claims|
    decreases |w.claims| - from
  {
    hide RuntimeExhausted, Exhaust;
    if from < |w.claims| {
      if !Expired(w.claims[from], now) {
        ReleaseExpiredKeepsCount(w, from + 1, now, ready);
      } else if RuntimeExhausted(w, from, now) {
        ExhaustKeepsCount(w, "runtime", ready);
      } else {
        ReleaseExpiredKeepsCount(Release(Meter(w, from, now), from), from + 1, now, ready);
      }
    }
  }

  lemma StepKeepsCount(w: Workflow, a: Action, ready: bool)
    requires ClaimsPlanned(w) && !a.DoActivate?
    ensures |Step(w, a, ready).claims| == |w.claims|
  {
    hide Exhaust, Append, Outcomes, RuntimeExhausted, ReleaseExpired;
    ExhaustKeepsCount(w, "runtime", ready);
    match a
    case DoRenew(_, _, _) =>
    case DoUpdate(update, now) =>
      if Refusal(w, update.holder, now).None? {
        AppendKeepsCount(Meter(w, update.holder.claim, now), update, ready);
      }
    case DoCancel(_) =>
    case DoReconcile(now) => ReleaseExpiredKeepsCount(w, 0, now, ready);
  }

  lemma ActivatedIsPlanned(w: Workflow, request: Activation, now: int, keys: Keyring, ready: bool)
    ensures var v := After(w, Activate(w, request, now, keys, ready));
      |v.claims| > |w.claims| ==>
        |v.claims| == |w.claims| + 1 && v.claims[|w.claims|].step in w.steps
            && !IsDispatch(w, v.claims[|w.claims|].step)
  {
    hide FindKey, InvocationBound, DependenciesSucceeded, AttemptsExhausted, Exhaust, FindStep;
    ExhaustKeepsCount(w, "attempt", ready);
  }

  lemma StepKeepsPlanned(w: Workflow, a: Action, ready: bool)
    requires ClaimsPlanned(w)
    ensures ClaimsPlanned(Step(w, a, ready))
  {
    hide Step, FindStep;
    var v := Step(w, a, ready);
    StepContinues(w, Request(a, ready));
    if a.DoActivate? {
      assert v == After(w, Activate(w, a.request, a.now, a.keys, ready)) by { StepActivates(w, a, ready); }
      ActivatedIsPlanned(w, a.request, a.now, a.keys, ready);
    } else {
      StepKeepsCount(w, a, ready);
    }
    assert forall s :: IsDispatch(v, s) == IsDispatch(w, s);
    forall i | 0 <= i < |v.claims| ensures v.claims[i].step in v.steps && !IsDispatch(v, v.claims[i].step) {
      if i < |w.claims| {
        assert RowContinues(w.claims[i], v.claims[i]) && w.claims[i] in w.claims;
      }
    }
  }

  lemma StepActivates(w: Workflow, a: Action, ready: bool)
    requires ClaimsPlanned(w) && a.DoActivate?
    ensures Step(w, a, ready) == After(w, Activate(w, a.request, a.now, a.keys, ready))
  {
    hide Activate;
  }
}
