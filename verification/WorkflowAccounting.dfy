/** Every counter of a workflow is the sum, over its rows, of what it claims to count, and stays within its budget. */
module WorkflowAccounting {
  import opened Wrappers
  import opened DependencyGraph
  import opened RuntimeWorkflow
  import opened Totals

  function One(b: bool): int {
    if b then 1 else 0
  }

  function ActiveRow(c: Claim): int { One(c.status.Active?) }
  function ProviderRow(c: Claim): int { One(!c.kind.Check?) }
  function CheckRow(c: Claim): int { One(c.kind.Check?) }
  function RepairRow(c: Claim): int { One(c.kind.Repair?) }
  function Seconds(c: Claim): int { c.accounted }
  function EventSize(r: Record): int { if r.payload.Event? then r.payload.size else 0 }
  function EventBytes(c: Claim): int { Total(c.records, EventSize) }
  function ToolEvent(r: Record): int { One(r.payload.Event? && r.payload.toolSummary) }
  function ToolEvents(c: Claim): int { if c.kind.Check? then 0 else Total(c.records, ToolEvent) }
  function EdgeBytes(e: RecordedEdge): int { e.artifact.size }

  function AttemptAt(step: StepId): Claim -> int {
    (c: Claim) => One(c.step == step)
  }

  /** Claims ever opened for a step. */
  function ClaimsOf(claims: seq<Claim>, step: StepId): int {
    Total(claims, AttemptAt(step))
  }

  /** The attempt, runtime and concurrency counters are sums over the claim rows. */
  ghost predicate ClaimsTally(w: Workflow) {
    var k := w.counters;
    && k.activeSteps == Total(w.claims, ActiveRow)
    && k.providerAttempts == Total(w.claims, ProviderRow)
    && k.checkAttempts == Total(w.claims, CheckRow)
    && k.repairIterations == Total(w.claims, RepairRow)
    && k.runtimeSeconds == Total(w.claims, Seconds)
    && (forall s | s in w.steps :: w.steps[s].attempts == ClaimsOf(w.claims, s))
  }

  /** The one ending whose byte counter may hold an event that was not stored. */
  predicate EndedOnToolEvent(w: Workflow) {
    !IsActive(w) && w.error == Some(BudgetExhausted("external operation"))
  }

  /** The byte, event and edge counters are sums over records and edges. */
  ghost predicate RecordsTally(w: Workflow) {
    var k := w.counters;
    && k.externalOperations == Total(w.claims, ToolEvents)
    && k.artifactEdges == |w.edges|
    && k.artifactBytes == Total(w.edges, EdgeBytes)
    && (!EndedOnToolEvent(w) ==> k.eventBytes == Total(w.claims, EventBytes))
  }

  ghost predicate WithinBudgets(w: Workflow) {
    var k, b := w.counters, w.plan.budgets;
    && k.activeSteps <= b.concurrentSteps
    && k.providerAttempts <= b.providerAttempts
    && k.checkAttempts <= b.checkAttempts
    && k.runtimeSeconds <= b.runtimeSeconds
    && k.eventBytes <= b.eventBytes
    && k.artifactBytes <= b.artifactBytes
    && k.artifactEdges <= b.artifactEdges
    && k.externalOperations <= b.externalOperations
    && (forall s | s in w.steps ::
          FindStep(w.plan.steps, s).Some? && w.steps[s].attempts <= FindStep(w.plan.steps, s).value.maxAttempts)
  }

  ghost predicate Accounted(w: Workflow) {
    ClaimsTally(w) && RecordsTally(w) && WithinBudgets(w)
  }

  // ----- how the sums move when rows do -----

  lemma ActiveCountIsTotal(claims: seq<Claim>)
    ensures ActiveCount(claims) == Total(claims, ActiveRow)
  {
    if claims != [] {
      ActiveCountIsTotal(claims[..|claims| - 1]);
    }
  }

  lemma ClaimTotalsUpdate(claims: seq<Claim>, i: nat, c: Claim)
    requires i < |claims| && c.step == claims[i].step && c.kind == claims[i].kind
    ensures Total(claims[i := c], ActiveRow) == Total(claims, ActiveRow) - ActiveRow(claims[i]) + ActiveRow(c)
    ensures Total(claims[i := c], ProviderRow) == Total(claims, ProviderRow)
    ensures Total(claims[i := c], CheckRow) == Total(claims, CheckRow)
    ensures Total(claims[i := c], RepairRow) == Total(claims, RepairRow)
    ensures Total(claims[i := c], Seconds) == Total(claims, Seconds) - claims[i].accounted + c.accounted
    ensures forall s :: ClaimsOf(claims[i := c], s) == ClaimsOf(claims, s)
  {
    hide Total;
    TotalUpdate(claims, i, c, ActiveRow);
    TotalUpdate(claims, i, c, ProviderRow);
    TotalUpdate(claims, i, c, CheckRow);
    TotalUpdate(claims, i, c, RepairRow);
    TotalUpdate(claims, i, c, Seconds);
    forall s ensures ClaimsOf(claims[i := c], s) == ClaimsOf(claims, s) {
      TotalUpdate(claims, i, c, AttemptAt(s));
    }
  }

  lemma RecordTotalsUpdate(claims: seq<Claim>, i: nat, c: Claim)
    requires i < |claims|
    ensures Total(claims[i := c], EventBytes) == Total(claims, EventBytes) - EventBytes(claims[i]) + EventBytes(c)
    ensures Total(claims[i := c], ToolEvents) == Total(claims, ToolEvents) - ToolEvents(claims[i]) + ToolEvents(c)
  {
    TotalUpdate(claims, i, c, EventBytes);
    TotalUpdate(claims, i, c, ToolEvents);
  }

  /** Ending every active claim changes no sum but the number of active claims. */
  lemma EndActiveTotals(claims: seq<Claim>, status: ClaimStatus)
    requires !status.Active?
    ensures var ended := EndActive(claims, status);
      && Total(ended, ActiveRow) == 0
      && Total(ended, ProviderRow) == Total(claims, ProviderRow)
      && Total(ended, CheckRow) == Total(claims, CheckRow)
      && Total(ended, RepairRow) == Total(claims, RepairRow)
      && Total(ended, Seconds) == Total(claims, Seconds)
      && Total(ended, ToolEvents) == Total(claims, ToolEvents)
      && Total(ended, EventBytes) == Total(claims, EventBytes)
      && forall s :: ClaimsOf(ended, s) == ClaimsOf(claims, s)
  {
    hide Total;
    var ended := EndActive(claims, status);
    TotalZero(ended, ActiveRow);
    TotalSame(ended, claims, ProviderRow);
    TotalSame(ended, claims, CheckRow);
    TotalSame(ended, claims, RepairRow);
    TotalSame(ended, claims, Seconds);
    TotalSame(ended, claims, ToolEvents);
    TotalSame(ended, claims, EventBytes);
    forall s ensures ClaimsOf(ended, s) == ClaimsOf(claims, s) {
      TotalSame(ended, claims, AttemptAt(s));
    }
  }

  // ----- every primitive keeps the books -----

  lemma CreateAccounted(plan: Plan)
    ensures Accounted(Create(plan))
  {
    var w := Create(plan);
    forall s | s in w.steps ensures FindStep(plan.steps, s).Some? {
      var step :| step in plan.steps && step.id == s;
    }
  }

  lemma OpenClaimAccounted(w: Workflow, step: PlanStep, request: Activation, now: int, keys: Keyring)
    requires Accounted(w) && IsActive(w) && step.id in w.steps && FindStep(w.plan.steps, step.id) == Some(step)
    requires !AttemptsExhausted(w, step)
    ensures Accounted(OpenClaim(w, step, request, now, keys))
  {
    hide Total, FindStep, ActiveCount;
    var o := OpenClaim(w, step, request, now, keys);
    var claim := o.claims[|w.claims|];
    assert o.claims == w.claims + [claim];
    ActiveCountIsTotal(w.claims);
    TotalAppend(w.claims, claim, ActiveRow);
    TotalAppend(w.claims, claim, ProviderRow);
    TotalAppend(w.claims, claim, CheckRow);
    TotalAppend(w.claims, claim, RepairRow);
    TotalAppend(w.claims, claim, Seconds);
    assert EventBytes(claim) == 0 && ToolEvents(claim) == 0 by { EmptyClaim(claim); }
    TotalAppend(w.claims, claim, EventBytes);
    TotalAppend(w.claims, claim, ToolEvents);
    forall s ensures ClaimsOf(o.claims, s) == ClaimsOf(w.claims, s) + One(s == step.id) {
      TotalAppend(w.claims, claim, AttemptAt(s));
    }
  }

  lemma EmptyClaim(c: Claim)
    requires c.records == []
    ensures EventBytes(c) == 0 && ToolEvents(c) == 0
  {
  }

  lemma MeterAccounted(w: Workflow, i: nat, now: int)
    requires Accounted(w) && i < |w.claims| && !RuntimeExhausted(w, i, now)
    ensures Accounted(Meter(w, i, now))
  {
    hide Total, FindStep;
    var c := Meter(w, i, now).claims[i];
    ClaimTotalsUpdate(w.claims, i, c);
    RecordTotalsUpdate(w.claims, i, c);
  }

  lemma ExtendAccounted(w: Workflow, i: nat, expires: int)
    requires Accounted(w) && i < |w.claims|
    ensures Accounted(Extend(w, i, expires))
  {
    hide Total, FindStep;
    var c := Extend(w, i, expires).claims[i];
    ClaimTotalsUpdate(w.claims, i, c);
    RecordTotalsUpdate(w.claims, i, c);
  }

  lemma AppendEventAccounted(w: Workflow, i: nat, r: Record)
    requires Accounted(w) && IsActive(w) && i < |w.claims| && r.payload.Event?
    requires w.counters.eventBytes + r.payload.size <= w.plan.budgets.eventBytes
    requires !w.claims[i].kind.Check? && r.payload.toolSummary ==>
             w.counters.externalOperations < w.plan.budgets.externalOperations
    ensures Accounted(AppendEvent(w, i, r))
  {
    hide Total, FindStep;
    var c := AppendEvent(w, i, r).claims[i];
    ClaimTotalsUpdate(w.claims, i, c);
    RecordTotalsUpdate(w.claims, i, c);
    TotalAppend(w.claims[i].records, r, EventSize);
    TotalAppend(w.claims[i].records, r, ToolEvent);
  }

  lemma FinishAccounted(w: Workflow, i: nat, r: Record, edge: Option<RecordedEdge>)
    requires Accounted(w) && IsActive(w) && i < |w.claims| && r.payload.Outcome? && w.claims[i].step in w.steps
    requires w.claims[i].status.Active?
    requires edge.Some? ==> w.counters.artifactBytes + edge.value.artifact.size <= w.plan.budgets.artifactBytes
    requires edge.Some? ==> w.counters.artifactEdges < w.plan.budgets.artifactEdges
    ensures Accounted(Finish(w, i, r, edge))
  {
    hide Total, FindStep, AllSucceeded;
    var f := Finish(w, i, r, edge);
    ClaimTotalsUpdate(w.claims, i, f.claims[i]);
    RecordTotalsUpdate(w.claims, i, f.claims[i]);
    TotalAppend(w.claims[i].records, r, EventSize);
    TotalAppend(w.claims[i].records, r, ToolEvent);
    if edge.Some? {
      TotalAppend(w.edges, edge.value, EdgeBytes);
    } else {
      assert f.edges == w.edges;
    }
  }

  lemma HaltAccounted(w: Workflow, status: ClaimStatus, state: WorkflowState, error: WorkflowError)
    requires Accounted(w) && IsActive(w) && !status.Active? && state.Stopped?
    ensures Accounted(Halt(w, status, state, error))
  {
    hide Total, FindStep;
    EndActiveTotals(w.claims, status);
  }

  /** The one failure that counts an event it does not store. */
  lemma HaltOnToolEventAccounted(w: Workflow, size: nat, error: WorkflowError)
    requires Accounted(w) && w.counters.eventBytes + size <= w.plan.budgets.eventBytes
             && error == BudgetExhausted("external operation")
    ensures Accounted(Halt(w.(counters := w.counters.(eventBytes := w.counters.eventBytes + size)), StaleRejected,
                           Stopped(Failed), error))
  {
    hide Total, FindStep;
    EndActiveTotals(w.claims, StaleRejected);
  }

  lemma ReleaseAccounted(w: Workflow, i: nat)
    requires Accounted(w) && i < |w.claims| && w.claims[i].status.Active?
    ensures Accounted(Release(w, i))
  {
    hide Total, FindStep;
    var c := Release(w, i).claims[i];
    ClaimTotalsUpdate(w.claims, i, c);
    RecordTotalsUpdate(w.claims, i, c);
  }

  lemma FreezeAccounted(w: Workflow, ready: bool)
    requires Accounted(w) && !IsActive(w) && (w.state.Completed? ==> w.error.None?)
    ensures Accounted(Freeze(w, ready))
  {
    hide Total, FindStep, Outcomes;
  }
}
