/** What one request does to the outcomes of a workflow's claims, and what the receipt schemas ask of them. */
module WorkflowOutcomes {
  import opened Wrappers
  import opened RuntimeWorkflow
  import opened WorkflowRuns

  // ----- receipt schemas -----

  const MAX_ID := 128

  /** The id of a workflow's receipt is an id like any other: a job id with more than 120 characters leaves no room. */
  predicate ReceiptIdFits(job: string) {
    |"receipt_" + job| <= MAX_ID
  }

  /** A report goes with a check that succeeded, and with nothing else. */
  predicate ReportsMatch(rows: seq<StepReceipt>) {
    forall r | r in rows :: r.report.Some? <==> r.kind.Check? && r.terminal.Succeeded?
  }

  /** No counter of the receipt schema is negative. */
  predicate CountersFit(k: Counters) {
    && k.providerAttempts >= 0 && k.checkAttempts >= 0 && k.dispatchAttempts >= 0 && k.activeSteps >= 0
       && k.activeDispatches >= 0
    && k.repairIterations >= 0 && k.runtimeSeconds >= 0 && k.eventBytes >= 0 && k.artifactBytes >= 0
       && k.artifactEdges >= 0
    && k.externalOperations >= 0 && k.externalCalls >= 0 && k.recoveryQueryCalls >= 0
  }

  // ----- what leaves outcomes as they were -----

  /** No claim finishes, and an error that appears is not a claim's. */
  ghost predicate NoneFinishes(w: Workflow, v: Workflow) {
    && |w.claims| <= |v.claims|
    && (forall i | 0 <= i < |v.claims| :: v.claims[i].outcome == if i < |w.claims| then w.claims[i].outcome else None)
    && (v.error == w.error || (v.error.Some? && !v.error.value.StepFailed?))
  }

  lemma FinishesThen(a: Workflow, b: Workflow, c: Workflow)
    requires NoneFinishes(a, b) && NoneFinishes(b, c)
    ensures NoneFinishes(a, c)
  {
  }

  lemma NothingFinishes(w: Workflow)
    ensures NoneFinishes(w, w)
  {
  }

  lemma ExhaustFinishesNone(w: Workflow, budget: string, ready: bool)
    ensures NoneFinishes(w, Exhaust(w, budget, ready))
  {
    hide Outcomes;
  }

  lemma MeterFinishesNone(w: Workflow, i: nat, now: int)
    requires i < |w.claims|
    ensures NoneFinishes(w, Meter(w, i, now)) && |Meter(w, i, now).claims| == |w.claims|
  {
  }

  lemma {:induction false} ReleaseFinishesNone(w: Workflow, from: nat, now: int, ready: bool)
    ensures var t := ReleaseExpired(w, from, now, ready); !t.Rollback? && NoneFinishes(w, t.state)
    decreases |w.claims| - from
  {
    hide RuntimeExhausted, Exhaust, Meter, NoneFinishes;
    NothingFinishes(w);
    if from < |w.claims| {
      if !Expired(w.claims[from], now) {
        ReleaseFinishesNone(w, from + 1, now, ready);
      } else if RuntimeExhausted(w, from, now) {
        ExhaustFinishesNone(w, "runtime", ready);
      } else {
        var m := Meter(w, from, now);
        MeterFinishesNone(w, from, now);
        ReleasedFinishesNone(m, from);
        ReleaseFinishesNone(Release(m, from), from + 1, now, ready);
        FinishesThen(w, m, Release(m, from));
        FinishesThen(w, Release(m, from), ReleaseExpired(Release(m, from), from + 1, now, ready).state);
      }
    }
  }

  lemma ReleasedFinishesNone(w: Workflow, i: nat)
    requires i < |w.claims|
    ensures NoneFinishes(w, Release(w, i)) && |Release(w, i).claims| == |w.claims|
  {
  }

  lemma ActivateFinishesNone(w: Workflow, request: Activation, now: int, keys: Keyring, ready: bool)
    ensures NoneFinishes(w, After(w, Activate(w, request, now, keys, ready)))
  {
    hide FindKey, FindStep, InvocationBound, Ready, AttemptsExhausted, Exhaust;
    ExhaustFinishesNone(w, "attempt", ready);
  }

  lemma RenewFinishesNone(w: Workflow, holder: Credential, leaseSeconds: nat, now: int, ready: bool)
    ensures NoneFinishes(w, After(w, RuntimeWorkflow.Renew(w, holder, leaseSeconds, now, ready)))
  {
    hide RuntimeExhausted, Exhaust;
    ExhaustFinishesNone(w, "runtime", ready);
  }

  lemma CancelFinishesNone(w: Workflow, reason: string, ready: bool)
    ensures NoneFinishes(w, Cancel(w, reason, ready))
  {
    hide Outcomes;
  }

  // ----- an update -----

  /** The completion that an update amounts to, if it does. */
  predicate Completes(w: Workflow, u: Update) {
    && u.holder.claim < |w.claims| && u.record.payload.Outcome?
    && var c := w.claims[u.holder.claim];
      && FindRecord(c.records, u.record.id).None? && u.record.sequence == c.nextSequence
      && (RecordsReport(c, u) ==> PreflightReport(w, c, u).Clear?)
  }

  function EdgeOf(w: Workflow, u: Update): Option<RecordedEdge>
    requires Completes(w, u)
  {
    var c := w.claims[u.holder.claim];
    if RecordsReport(c, u) then Some(RecordedEdge(PreflightReport(w, c, u).edge, u.report, c.attempt)) else None
  }

  lemma AppendCompletes(w: Workflow, u: Update, ready: bool)
    requires u.holder.claim < |w.claims| && w.claims[u.holder.claim].step in w.steps && Completes(w, u)
    ensures Append(w, u, ready).Commit?
    ensures After(w, Append(w, u, ready)) == Complete(w, u.holder.claim, u.record, EdgeOf(w, u), ready)
  {
    hide FindRecord, RecordsReport, PreflightReport, Complete;
  }

  lemma AppendFinishesNone(w: Workflow, u: Update, ready: bool)
    requires u.holder.claim < |w.claims| && w.claims[u.holder.claim].step in w.steps && !Completes(w, u)
    ensures NoneFinishes(w, After(w, Append(w, u, ready)))
  {
    hide FindRecord, RecordsReport, PreflightReport, Exhaust;
    forall budget ensures NoneFinishes(w, Exhaust(w, budget, ready)) {
      ExhaustFinishesNone(w, budget, ready);
    }
    var counted := w.(counters := w.counters.(eventBytes := w.counters.eventBytes + u.record.payload.size));
    ExhaustFinishesNone(counted, "external operation", ready);
  }

  /** Metering changes nothing that decides about a completion. */
  lemma MeterKeepsCompletion(w: Workflow, u: Update, now: int)
    requires u.holder.claim < |w.claims|
    ensures var m := Meter(w, u.holder.claim, now);
      && u.holder.claim < |m.claims| && m.claims[u.holder.claim].step == w.claims[u.holder.claim].step
         && m.steps == w.steps
      && (Completes(m, u) <==> Completes(w, u)) && (Completes(w, u) ==> EdgeOf(m, u) == EdgeOf(w, u))
  {
    hide FindRecord, FindReportEdge;
  }

  /** The request is an update that its holder may make, and completes the attempt. */
  predicate Finishing(w: Workflow, a: Action) {
    && a.DoUpdate? && Refusal(w, a.update.holder, a.now).None? && !RuntimeExhausted(w, a.update.holder.claim, a.now)
    && a.update.record.digest == PayloadDigest(a.update.record.payload) && Completes(w, a.update)
  }

  lemma UpdateOutcomes(w: Workflow, u: Update, now: int, ready: bool)
    requires ClaimsPlanned(w) && IsActive(w)
    ensures !Finishing(w, DoUpdate(u, now)) ==> NoneFinishes(w, After(w, ApplyUpdate(w, u, now, ready)))
    ensures Finishing(w, DoUpdate(u, now)) ==>
              var i := u.holder.claim;
              var m := Meter(w, i, now);
              && i < |m.claims| && m.claims[i].step in m.steps && IsActive(m) && m.receipt == w.receipt
                 && NoneFinishes(w, m)
              && After(w, ApplyUpdate(w, u, now, ready)) == Complete(m, i, u.record, EdgeOf(w, u), ready)
              && m.claims[i].kind == w.claims[i].kind
  {
    hide NoneFinishes, Append, RuntimeExhausted, Exhaust, Complete, Completes, EdgeOf;
    NothingFinishes(w);
    if Refusal(w, u.holder, now).None? {
      var i := u.holder.claim;
      assert w.claims[i] in w.claims;
      ExhaustFinishesNone(w, "runtime", ready);
      var m := Meter(w, i, now);
      MeterFinishesNone(w, i, now);
      MeterKeepsCompletion(w, u, now);
      if Completes(w, u) {
        AppendCompletes(m, u, ready);
      } else {
        AppendFinishesNone(m, u, ready);
        FinishesThen(w, m, After(m, Append(m, u, ready)));
      }
    }
  }

  /** A request finishes a claim exactly by completing its attempt; every other leaves all outcomes as they were. */
  lemma StepOutcomes(w: Workflow, a: Action, ready: bool)
    requires ClaimsPlanned(w) && IsActive(w)
    ensures !Finishing(w, a) ==> NoneFinishes(w, Step(w, a, ready))
    ensures Finishing(w, a) ==>
              var i := a.update.holder.claim;
              var m := Meter(w, i, a.now);
              && i < |m.claims| && m.claims[i].step in m.steps && IsActive(m) && m.receipt == w.receipt
                 && NoneFinishes(w, m)
              && Step(w, a, ready) == Complete(m, i, a.update.record, EdgeOf(w, a.update), ready)
              && m.claims[i].kind == w.claims[i].kind
  {
    hide NoneFinishes, Activate, ApplyUpdate, Cancel, ReleaseExpired, Finishing, Complete, EdgeOf;
    NotFinishing(w, a);
    match a
    case DoActivate(request, now, keys) => ActivateFinishesNone(w, request, now, keys, ready);
    case DoRenew(holder, leaseSeconds, now) => RenewFinishesNone(w, holder, leaseSeconds, now, ready);
    case DoUpdate(update, now) => UpdateOutcomes(w, update, now, ready);
    case DoCancel(reason) => CancelFinishesNone(w, reason, ready);
    case DoReconcile(now) => ReleaseFinishesNone(w, 0, now, ready);
  }

  lemma NotFinishing(w: Workflow, a: Action)
    ensures Finishing(w, a) ==> a.DoUpdate? && Completes(w, a.update)
  {
  }

  // ----- outcomes so far -----

  /** All outcomes are successes, with a report exactly if they are checks'. */
  ghost predicate OutcomesFit(claims: seq<Claim>) {
    forall i | 0 <= i < |claims| && claims[i].outcome.Some? ::
      var o := claims[i].outcome.value; o.terminal.Succeeded? && (o.report.Some? <==> o.kind.Check?)
  }

  /** While a workflow has no receipt, its outcomes fit one. */
  lemma StepKeepsFit(w: Workflow, a: Action, ready: bool)
    requires ClaimsPlanned(w) && IsActive(w) && w.receipt.None? && OutcomesFit(w.claims)
    ensures var v := Step(w, a, ready); v.receipt.None? ==> OutcomesFit(v.claims)
  {
    hide Step, Finishing, Meter, Completes, PreflightReport, FindRecord;
    StepOutcomes(w, a, ready);
    var v := Step(w, a, ready);
    if Finishing(w, a) {
      NotFinishing(w, a);
      var i := a.update.holder.claim;
      var m := Meter(w, i, a.now);
      CompletionFits(m, i, a.update, EdgeOf(w, a.update), ready, w.claims[i]);
    }
  }

  lemma CompletionFits(m: Workflow, i: nat, u: Update, edge: Option<RecordedEdge>, ready: bool, c: Claim)
    requires i < |m.claims| && m.claims[i].step in m.steps && u.record.payload.Outcome? && m.receipt.None?
    requires OutcomesFit(m.claims) && c.kind == m.claims[i].kind && (edge.Some? <==> RecordsReport(c, u))
    ensures var v := Complete(m, i, u.record, edge, ready); v.receipt.None? ==> OutcomesFit(v.claims)
  {
    hide AllSucceeded, Outcomes;
    var v := Complete(m, i, u.record, edge, ready);
    assert forall k | 0 <= k < |m.claims| && k != i :: v.claims[k] == m.claims[k];
  }

  lemma {:induction false} FittingRows(claims: seq<Claim>)
    requires OutcomesFit(claims)
    ensures ReportsMatch(Outcomes(claims))
  {
    if claims != [] {
      var last := |claims| - 1;
      assert forall i | 0 <= i < last :: claims[..last][i] == claims[i];
      FittingRows(claims[..last]);
    }
  }
}
