/** When the counter of event bytes is the sum over the stored events, and when it is not. */
module WorkflowEventBytes {
  import opened Wrappers
  import opened RuntimeWorkflow
  import opened Totals
  import opened WorkflowAccounting
  import opened WorkflowScheduling
  import opened WorkflowLog
  import opened WorkflowRuns
  import opened WorkflowTheorems

  /** The record of an update is new to its claim, and the next in sequence. */
  predicate NewRecord(w: Workflow, u: Update, now: int) {
    && Refusal(w, u.holder, now).None? && !RuntimeExhausted(w, u.holder.claim, now)
    && u.record.digest == PayloadDigest(u.record.payload)
    && FindRecord(w.claims[u.holder.claim].records, u.record.id).None?
       && u.record.sequence == w.claims[u.holder.claim].nextSequence
  }

  /** A tool event that fits the byte budget and finds the external-operation budget spent. */
  predicate UnpaidToolEvent(w: Workflow, a: Action) {
    && a.DoUpdate? && NewRecord(w, a.update, a.now)
    && var r, k, b := a.update.record, w.counters, w.plan.budgets;
      && r.payload.Event? && r.payload.toolSummary && !w.claims[a.update.holder.claim].kind.Check?
      && k.eventBytes + r.payload.size <= b.eventBytes && k.externalOperations >= b.externalOperations
  }

  /** The bytes of an event that a request counts and does not store. */
  function Unstored(w: Workflow, a: Action): nat {
    if UnpaidToolEvent(w, a) then a.update.record.payload.size else 0
  }

  function Excess(w: Workflow): int {
    w.counters.eventBytes - Total(w.claims, EventBytes)
  }

  // ----- one request -----

  lemma {:induction false} ReleaseEndsOnRuntime(w: Workflow, from: nat, now: int, ready: bool)
    requires IsActive(w)
    ensures var t := ReleaseExpired(w, from, now, ready); !t.Rollback? && !EndedOnToolEvent(t.state)
    decreases |w.claims| - from
  {
    hide Meter, RuntimeExhausted, Outcomes;
    if from < |w.claims| {
      if !Expired(w.claims[from], now) {
        ReleaseEndsOnRuntime(w, from + 1, now, ready);
      } else if !RuntimeExhausted(w, from, now) {
        MeterKeepsEnding(w, from, now);
        ReleaseEndsOnRuntime(Release(Meter(w, from, now), from), from + 1, now, ready);
      }
    }
  }

  lemma MeterKeepsEnding(w: Workflow, i: nat, now: int)
    requires i < |w.claims|
    ensures var v := Meter(w, i, now);
      && v.error == w.error && v.state == w.state && v.plan == w.plan && |v.claims| == |w.claims| && v.steps == w.steps
      && v.counters.eventBytes == w.counters.eventBytes
         && v.counters.externalOperations == w.counters.externalOperations
      && v.claims[i].records == w.claims[i].records && v.claims[i].nextSequence == w.claims[i].nextSequence
      && v.claims[i].kind == w.claims[i].kind && v.claims[i].step == w.claims[i].step
  {
  }

  lemma ExhaustsOn(w: Workflow, budget: string, ready: bool)
    ensures EndedOnToolEvent(Exhaust(w, budget, ready)) ==> budget == "external operation"
  {
    hide Outcomes, EndActive;
  }

  lemma OutcomeEndsOtherwise(w: Workflow, u: Update, ready: bool)
    requires u.holder.claim < |w.claims| && w.claims[u.holder.claim].step in w.steps && u.record.payload.Outcome?
             && w.error.None?
    ensures var t := Append(w, u, ready); !t.Rollback? ==> !EndedOnToolEvent(t.state)
  {
    hide FindRecord, RecordsReport, AllSucceeded, Outcomes, EndActive, FindReportEdge;
  }

  lemma EventEndsOnlyIf(w: Workflow, u: Update, ready: bool)
    requires u.holder.claim < |w.claims| && w.claims[u.holder.claim].step in w.steps && u.record.payload.Event?
             && w.error.None?
    requires var t := Append(w, u, ready); !t.Rollback? && EndedOnToolEvent(t.state)
    ensures var r, c := u.record, w.claims[u.holder.claim];
      && FindRecord(c.records, r.id).None? && r.sequence == c.nextSequence && r.payload.toolSummary && !c.kind.Check?
      && w.counters.eventBytes + r.payload.size <= w.plan.budgets.eventBytes
         && w.counters.externalOperations >= w.plan.budgets.externalOperations
  {
    hide FindRecord, Outcomes, EndActive, Exhaust;
    ExhaustsOn(w, "event byte", ready);
  }

  /** An unpaid tool event ends the workflow; its bytes are counted and its record is not stored. */
  lemma UnpaidToolEventExceeds(w: Workflow, a: Action, ready: bool)
    requires ClaimsPlanned(w) && UnpaidToolEvent(w, a)
    ensures var v := Step(w, a, ready); EndedOnToolEvent(v) && Excess(v) == Excess(w) + Unstored(w, a)
  {
    hide Total, FindRecord, Outcomes, FindStep, RuntimeExhausted;
    var i := a.update.holder.claim;
    var m := Meter(w, i, a.now);
    MeterKeepsEnding(w, i, a.now);
    RecordTotalsUpdate(w.claims, i, m.claims[i]);
    EndActiveTotals(m.claims, StaleRejected);
  }

  /** Only an unpaid tool event ends a workflow that way. */
  lemma EndsOnToolEventOnlyIf(w: Workflow, a: Action, ready: bool)
    requires ClaimsPlanned(w) && IsActive(w) && w.error.None? && EndedOnToolEvent(Step(w, a, ready))
    ensures UnpaidToolEvent(w, a)
  {
    hide FindRecord, FindKey, FindStep, Meter, RuntimeExhausted, Append, Exhaust, ReleaseExpired, Extend, OpenClaim,
         InvocationBound,
         Ready, AttemptsExhausted;
    ExhaustsOn(w, "runtime", ready);
    ExhaustsOn(w, "attempt", ready);
    match a
    case DoActivate(request, now, keys) => ActivateEndsOtherwise(w, request, now, keys, ready);
    case DoRenew(holder, leaseSeconds, now) => RenewEndsOtherwise(w, holder, leaseSeconds, now, ready);
    case DoUpdate(u, now) =>
      MeterKeepsEnding(w, u.holder.claim, now);
      assert w.claims[u.holder.claim] in w.claims;
      var m := Meter(w, u.holder.claim, now);
      if u.record.payload.Outcome? {
        OutcomeEndsOtherwise(m, u, ready);
      } else {
        EventEndsOnlyIf(m, u, ready);
      }
    case DoCancel(reason) => CancelEndsOtherwise(w, reason, ready);
    case DoReconcile(now) => ReleaseEndsOnRuntime(w, 0, now, ready);
  }

  lemma ActivateEndsOtherwise(w: Workflow, request: Activation, now: int, keys: Keyring, ready: bool)
    requires IsActive(w)
    ensures !EndedOnToolEvent(After(w, Activate(w, request, now, keys, ready)))
  {
    hide FindKey, FindStep, InvocationBound, Ready, AttemptsExhausted, Exhaust;
    ExhaustsOn(w, "attempt", ready);
  }

  lemma RenewEndsOtherwise(w: Workflow, holder: Credential, leaseSeconds: nat, now: int, ready: bool)
    requires IsActive(w)
    ensures !EndedOnToolEvent(After(w, RuntimeWorkflow.Renew(w, holder, leaseSeconds, now, ready)))
  {
    hide Exhaust, RuntimeExhausted;
    ExhaustsOn(w, "runtime", ready);
  }

  lemma CancelEndsOtherwise(w: Workflow, reason: string, ready: bool)
    requires IsActive(w)
    ensures !EndedOnToolEvent(Cancel(w, reason, ready))
  {
    hide Outcomes, EndActive;
  }

  /** What a request of an active workflow leaves counted above what is stored: exactly the bytes of its unpaid tool
      event. */
  lemma ExcessAfter(w: Workflow, r: Request)
    requires Sound(w)
    ensures ClaimsPlanned(w)
    ensures Excess(Step(w, r.action, r.ready)) == Excess(w) + Unstored(w, r.action)
  {
    hide Step, Total, Scheduled, Logged, ClaimsTally, WithinBudgets, UnpaidToolEvent, EndedOnToolEvent, Outcomes,
         AllSucceeded;
    KeptClaimsPlanned(w);
    StepKept(w, r);
    if !IsActive(w) {
      OverIsQuiet(w, r.action, r.ready);
    } else {
      ActiveIsTrue(w);
      if UnpaidToolEvent(w, r.action) {
        UnpaidToolEventExceeds(w, r.action, r.ready);
      } else if EndedOnToolEvent(Step(w, r.action, r.ready)) {
        EndsOnToolEventOnlyIf(w, r.action, r.ready);
      }
    }
  }

  lemma ActiveIsTrue(w: Workflow)
    requires Sound(w) && IsActive(w)
    ensures Excess(w) == 0 && w.error.None? && w.receipt.None?
  {
    hide Total, Scheduled, Logged, ClaimsTally, WithinBudgets, Outcomes;
  }

  lemma OverIsQuiet(w: Workflow, a: Action, ready: bool)
    requires ClaimsPlanned(w) && !IsActive(w)
    ensures Step(w, a, ready) == w && Unstored(w, a) == 0
  {
    hide FindKey, FindStep, ReleaseExpired;
  }

  // ----- over every run -----

  lemma HistorySnoc(plan: Plan, requests: seq<Request>, r: Request)
    requires plan.steps != []
    ensures ClaimsPlanned(History(plan, requests))
    ensures History(plan, requests + [r]) == Step(History(plan, requests), r.action, r.ready)
  {
    hide Kept, Books, Continues, Step;
    CreateSound(plan);
    KeptClaimsPlanned(History(plan, requests));
    RunAppends(Create(plan), requests, [r]);
    StepKept(History(plan, requests), r);
    assert Run(History(plan, requests), [r]) == Run(Step(History(plan, requests), r.action, r.ready), []);
  }

  /** What each request of a run counts and does not store. */
  ghost function Unstoreds(plan: Plan, requests: seq<Request>): (sizes: seq<nat>)
    requires plan.steps != []
    ensures |sizes| == |requests|
    ensures forall k | 0 <= k < |requests| :: sizes[k] == Unstored(History(plan, requests[..k]), requests[k].action)
  {
    seq(|requests|, k requires 0 <= k < |requests| => Unstored(History(plan, requests[..k]), requests[k].action))
  }

  lemma UnstoredsSnoc(plan: Plan, before: seq<Request>, r: Request)
    requires plan.steps != []
    ensures Unstoreds(plan, before + [r]) == Unstoreds(plan, before) + [Unstored(History(plan, before), r.action)]
  {
    hide History, Unstored;
    var all := before + [r];
    assert all[..|before|] == before;
    assert forall k | 0 <= k < |before| :: all[..k] == before[..k];
  }

  lemma {:induction false} ExcessIsUnstored(plan: Plan, requests: seq<Request>)
    requires plan.steps != []
    ensures Excess(History(plan, requests)) == Total(Unstoreds(plan, requests), (size: nat) => size)
  {
    hide History, Excess, Unstored, Unstoreds, Step;
    if requests == [] {
      NothingExceeds(plan);
      assert |Unstoreds(plan, [])| == 0;
    } else {
      var last := |requests| - 1;
      var before := requests[..last];
      assert requests == before + [requests[last]];
      ExcessIsUnstored(plan, before);
      HistorySnoc(plan, before, requests[last]);
      ExcessAfter(History(plan, before), requests[last]);
      UnstoredsSnoc(plan, before, requests[last]);
      TotalAppend(Unstoreds(plan, before), Unstored(History(plan, before), requests[last].action), (size: nat) => size);
    }
  }

  lemma {:induction false} NothingInTotal(sizes: seq<nat>)
    ensures Total(sizes, (size: nat) => size) >= 0
    ensures Total(sizes, (size: nat) => size) == 0 <==> forall k | 0 <= k < |sizes| :: sizes[k] == 0
  {
    if sizes != [] {
      var last := |sizes| - 1;
      NothingInTotal(sizes[..last]);
      assert forall k | 0 <= k < last :: sizes[..last][k] == sizes[k];
    }
  }

  lemma NothingExceeds(plan: Plan)
    requires plan.steps != []
    ensures Excess(History(plan, [])) == 0
  {
    hide Accounted, Kept;
    assert History(plan, []) == Create(plan);
  }

  /** The byte counter, frozen or live, is the sum over the stored events exactly when no request of the run brought a
      tool event, of a provider's claim and of some size, that fitted the byte budget and found the external-operation
      budget spent; it exceeds the sum by the sizes of those that did. */
  lemma EventBytesTrueIff(plan: Plan, requests: seq<Request>)
    requires plan.steps != []
    ensures var w := History(plan, requests);
      && w.counters.eventBytes == Total(w.claims, EventBytes) + Total(Unstoreds(plan, requests), (size: nat) => size)
      && (w.counters.eventBytes == Total(w.claims, EventBytes) <==>
          forall k | 0 <= k < |requests| :: Unstored(History(plan, requests[..k]), requests[k].action) == 0)
  {
    hide History, Total, Unstored, Unstoreds;
    ExcessIsUnstored(plan, requests);
    NothingInTotal(Unstoreds(plan, requests));
  }

  // ----- a run in which it is not -----

  /** A plan whose one step is a provider's, startable at once. */
  ghost predicate OneBuilder(plan: Plan, step: PlanStep) {
    && plan.steps == [step] && step.kind.Builder? && step.dependsOn == [] && step.maxAttempts >= 1
    && plan.budgets.providerAttempts >= 1 && plan.budgets.concurrentSteps >= 1
  }

  /** It has no external operation to spend. */
  ghost predicate NoOperations(plan: Plan, step: PlanStep) {
    OneBuilder(plan, step) && plan.budgets.externalOperations == 0
  }

  /** A provider's activation of that step. */
  predicate Opens(request: Activation, step: PlanStep) {
    !request.check && request.step == step.id
  }

  /** The holder of the first claim. */
  function FirstHolder(step: PlanStep, request: Activation, keys: Keyring): Credential {
    Credential(0, Token(0, 1, request, keys.current), false, step.id, 1, request.constraints, request.invocation,
               step.digest, None)
  }

  /** The first claim of a plan, and its first record. */
  function SoleEvent(step: PlanStep, request: Activation, keys: Keyring, id: string, text: string, size: nat): Update {
    var payload := Payload.Event(true, text, size);
    Update(FirstHolder(step, request, keys), Record(id, 0, payload, PayloadDigest(payload)), Artifact("", "", 0), false)
  }

  lemma OpensSole(plan: Plan, step: PlanStep, request: Activation, keys: Keyring)
    requires OneBuilder(plan, step) && Opens(request, step)
    ensures ClaimsPlanned(Create(plan))
    ensures Step(Create(plan), DoActivate(request, 0, keys), true) == OpenClaim(Create(plan), step, request, 0, keys)
  {
    var w := Create(plan);
    assert FindStep(plan.steps, step.id) == Some(step);
    assert (set d | d in step.dependsOn && d in w.steps) == {};
    assert w.steps == map[step.id := StepRow(StepPending, 0)];
  }

  lemma SoleEventIsUnpaid(plan: Plan, step: PlanStep, request: Activation, keys: Keyring, id: string, text: string,
                          size: nat)
    requires NoOperations(plan, step) && Opens(request, step) && step.id in Create(plan).steps
    requires size <= plan.budgets.eventBytes
    ensures var w, event := OpenClaim(Create(plan), step, request, 0, keys),
            SoleEvent(step, request, keys, id, text, size);
      && IsActive(w) && w.receipt.None? && w.counters.eventBytes == 0 && Excess(w) == 0
      && UnpaidToolEvent(w, DoUpdate(event, 0)) && event.record.payload.Event? && event.record.payload.size == size
  {
    var w := OpenClaim(Create(plan), step, request, 0, keys);
    assert w.claims[..0] == [] && w.claims[0].records == [];
    assert Total(w.claims, EventBytes) == 0;
  }

  lemma UnpaidEnds(w: Workflow, u: Update)
    requires ClaimsPlanned(w) && IsActive(w) && w.receipt.None? && UnpaidToolEvent(w, DoUpdate(u, 0))
    ensures var v := Step(w, DoUpdate(u, 0), true);
      && v.receipt.Some? && v.receipt.value.counters == v.counters && Excess(v) == Excess(w) + u.record.payload.size
      && v.counters.eventBytes == w.counters.eventBytes + u.record.payload.size
  {
    hide FindRecord, Outcomes, EndActive, FindStep, Excess;
    UnpaidToolEventExceeds(w, DoUpdate(u, 0), true);
  }

  lemma TwoRequests(plan: Plan, first: Request, second: Request)
    requires plan.steps != []
    ensures ClaimsPlanned(Create(plan)) && ClaimsPlanned(Step(Create(plan), first.action, first.ready))
    ensures History(plan, [first, second])
            == Step(Step(Create(plan), first.action, first.ready), second.action, second.ready)
  {
    hide Step, Sound, ClaimsPlanned;
    assert History(plan, []) == Create(plan);
    HistorySnoc(plan, [], first);
    HistorySnoc(plan, [first], second);
    assert [] + [first] == [first] && [first] + [second] == [first, second];
  }

  /** Any activation and any first tool event that fits the byte budget leave a frozen receipt that counts the event's
      bytes, of which no record holds one. */
  lemma ToolEventFailureOvercounts(plan: Plan, step: PlanStep, request: Activation, keys: Keyring, id: string,
                                   text: string, size: nat)
    returns (requests: seq<Request>)
    requires NoOperations(plan, step) && Opens(request, step) && size <= plan.budgets.eventBytes
    ensures var w := History(plan, requests);
      w.receipt.Some? && w.receipt.value.counters.eventBytes == size && Total(w.claims, EventBytes) == 0
  {
    hide Total, UnpaidToolEvent, OpenClaim, Step, History, Create, ClaimsPlanned, IsActive, Opens, SoleEvent;
    var event := SoleEvent(step, request, keys, id, text, size);
    var open := Request(DoActivate(request, 0, keys), true);
    var report := Request(DoUpdate(event, 0), true);
    OneStep(plan, step);
    TwoRequests(plan, open, report);
    OpensSole(plan, step, request, keys);
    SoleEventIsUnpaid(plan, step, request, keys, id, text, size);
    UnpaidEnds(OpenClaim(Create(plan), step, request, 0, keys), event);
    requests := [open, report];
  }

  lemma OneStep(plan: Plan, step: PlanStep)
    requires OneBuilder(plan, step)
    ensures plan.steps != [] && step.id in Create(plan).steps
  {
    assert step in plan.steps;
  }
}
