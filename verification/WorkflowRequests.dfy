/** What each request on a workflow is refused, failed or accepted for, and what it writes, read off rows and
    budgets. */
module WorkflowRequests {
  import opened Wrappers
  import opened DependencyGraph
  import opened RuntimeWorkflow
  import opened WorkflowScheduling
  import opened WorkflowLog
  import opened WorkflowRuns

  // ----- what a failed budget leaves -----

  /** The workflow has failed on a budget: no claim is active any more, and nothing else has moved. */
  ghost predicate FailedOn(w: Workflow, v: Workflow, budget: string) {
    && v.state == Stopped(Failed) && v.error == Some(BudgetExhausted(budget)) && v.receipt.Some?
    && v == w.(state := v.state, error := v.error, receipt := v.receipt, claims := v.claims,
               counters := w.counters.(activeSteps := 0))
    && |v.claims| == |w.claims|
    && forall i | 0 <= i < |w.claims| ::
         v.claims[i] == if w.claims[i].status.Active? then w.claims[i].(status := StaleRejected) else w.claims[i]
  }

  lemma ExhaustFails(w: Workflow, budget: string, ready: bool)
    ensures FailedOn(w, Exhaust(w, budget, ready), budget)
  {
    hide Outcomes;
  }

  // ----- activation -----

  /** The k-th planned step is the first of its name. */
  ghost predicate PlannedAt(plan: Plan, k: nat, id: StepId) {
    k < |plan.steps| && plan.steps[k].id == id && forall j | 0 <= j < k :: plan.steps[j].id != id
  }

  lemma {:induction false} FindStepIsFirst(steps: seq<PlanStep>, id: StepId) returns (k: nat)
    requires FindStep(steps, id).Some?
    ensures k < |steps| && FindStep(steps, id) == Some(steps[k]) && steps[k].id == id
            && forall j | 0 <= j < k :: steps[j].id != id
  {
    if steps[0].id == id {
      k := 0;
    } else {
      var m := FindStepIsFirst(steps[1..], id);
      k := m + 1;
      assert forall j | 0 < j < k :: steps[1..][j - 1] == steps[j];
    }
  }

  lemma {:induction false} FirstIsFound(plan: Plan, steps: seq<PlanStep>, k: nat)
    requires k < |steps| && forall j | 0 <= j < k :: steps[j].id != steps[k].id
    ensures FindStep(steps, steps[k].id) == Some(steps[k])
  {
    if k > 0 {
      assert steps[0].id != steps[k].id;
      FirstIsFound(plan, steps[1..], k - 1);
    }
  }

  lemma PlannedIff(plan: Plan, id: StepId)
    ensures FindStep(plan.steps, id).Some? <==> exists k: nat :: PlannedAt(plan, k, id)
  {
    if FindStep(plan.steps, id).Some? {
      var k := FindStepIsFirst(plan.steps, id);
      assert PlannedAt(plan, k, id);
    }
  }

  /** Nothing holds the request's key or, for a provider step, its invocation. */
  predicate Unused(w: Workflow, r: Activation) {
    && (forall c | c in w.claims :: c.binding.key != r.key)
    && (!r.check && r.invocation.Some? ==> forall c | c in w.claims :: c.binding.invocation != r.invocation)
  }

  /** The planned step is of the kind asked for, waits, and has all it depends on; a dependency listed twice is never
      satisfied. */
  ghost predicate Startable(w: Workflow, s: PlanStep, check: bool) {
    && !s.kind.Dispatch? && (s.kind.Check? <==> check)
    && s.id in w.steps && w.steps[s.id].state.StepPending? && NoDuplicates(s.dependsOn)
    && forall d | d in s.dependsOn :: d in w.steps && w.steps[d].state == StepDone(Succeeded)
  }

  predicate RoomFor(w: Workflow, s: PlanStep)
    requires s.id in w.steps
  {
    var k, b := w.counters, w.plan.budgets;
    && (if s.kind.Check? then k.checkAttempts < b.checkAttempts else k.providerAttempts < b.providerAttempts)
    && ActiveCount(w.claims) < b.concurrentSteps && w.steps[s.id].attempts < s.maxAttempts
  }

  /** The claim of a step's next attempt, started now, with its lease from now on. */
  function NewClaim(w: Workflow, s: PlanStep, r: Activation, now: int, keys: Keyring): Claim
    requires s.id in w.steps
  {
    var attempt := w.steps[s.id].attempts + 1;
    Claim(s.id, s.kind, attempt, r, s.digest, Token(|w.claims|, attempt, r, keys.current), now, 0,
          now + r.leaseSeconds, Active, [], 0, None)
  }

  ghost predicate Opened(w: Workflow, v: Workflow, s: PlanStep, c: Claim)
    requires s.id in w.steps
  {
    && v.claims == w.claims + [c] && v.state.Running?
    && v.steps == w.steps[s.id := StepRow(StepRunning, w.steps[s.id].attempts + 1)]
    && v == w.(state := v.state, claims := v.claims, steps := v.steps, counters := v.counters)
    && v.counters == w.counters.(activeSteps := w.counters.activeSteps + 1,
                                 checkAttempts := v.counters.checkAttempts,
                                 providerAttempts := v.counters.providerAttempts,
                                 repairIterations := v.counters.repairIterations)
    && v.counters.checkAttempts - w.counters.checkAttempts == (if s.kind.Check? then 1 else 0)
    && v.counters.providerAttempts - w.counters.providerAttempts == (if s.kind.Check? then 0 else 1)
    && v.counters.repairIterations - w.counters.repairIterations == (if s.kind.Repair? then 1 else 0)
  }

  /** The step an activation names can be started under a fresh key. */
  ghost predicate Starts(w: Workflow, r: Activation, k: nat) {
    && (w.state.Pending? || w.state.Running?) && Unused(w, r) && PlannedAt(w.plan, k, r.step)
    && Startable(w, w.plan.steps[k], r.check)
  }

  lemma ReadyIff(w: Workflow, s: PlanStep, check: bool)
    ensures Startable(w, s, check) <==> !s.kind.Dispatch? && (s.kind.Check? <==> check) && Ready(w, s)
  {
    hide DependenciesSucceeded;
    ReadinessQuery(w.steps, s.dependsOn);
  }

  lemma UnusedIff(w: Workflow, r: Activation)
    ensures Unused(w, r) <==>
            FindKey(w.claims, r.key).None? && (r.check || !InvocationBound(w.claims, r.invocation))
  {
    hide FindKey;
    if FindKey(w.claims, r.key).Some? {
      assert w.claims[FindKey(w.claims, r.key).value] in w.claims;
    }
  }

  /** A step that can be started is claimed if every attempt budget has room; if one has none, the workflow fails. */
  ghost predicate ClaimsOrFails(w: Workflow, t: Transaction<Workflow, (nat, Token)>, s: PlanStep, r: Activation,
                                now: int, keys: Keyring)
    requires s.id in w.steps
  {
    if RoomFor(w, s) then
      var c := NewClaim(w, s, r, now, keys);
      t.Commit? && Opened(w, t.state, s, c) && t.result == (|w.claims|, c.token)
    else t.CommitFailure? && t.failure.WorkflowBudgetExhausted? && FailedOn(w, t.state, "attempt")
  }

  lemma StartIsAnswered(w: Workflow, r: Activation, now: int, keys: Keyring, ready: bool, k: nat)
    requires Starts(w, r, k)
    ensures w.plan.steps[k].id in w.steps
            && ClaimsOrFails(w, Activate(w, r, now, keys, ready), w.plan.steps[k], r, now, keys)
  {
    hide FindStep, FindKey, Ready, AttemptsExhausted, Exhaust, OpenClaim, InvocationBound, Unused, RoomFor, FailedOn,
         Opened;
    var s := w.plan.steps[k];
    UnusedIff(w, r);
    ExhaustFails(w, "attempt", ready);
    FirstIsFound(w.plan, w.plan.steps, k);
    ReadyIff(w, s, r.check);
    RoomIff(w, s);
    OpensClaim(w, s, r, now, keys);
  }

  lemma UnstartedStays(w: Workflow, r: Activation, now: int, keys: Keyring, ready: bool)
    requires forall k: nat :: !Starts(w, r, k)
    ensures After(w, Activate(w, r, now, keys, ready)) == w
  {
    hide FindStep, FindKey, Ready, AttemptsExhausted, Exhaust, OpenClaim, InvocationBound, Unused, Startable;
    UnusedIff(w, r);
    if FindStep(w.plan.steps, r.step).Some? {
      var k := FindStepIsFirst(w.plan.steps, r.step);
      ReadyIff(w, w.plan.steps[k], r.check);
      assert PlannedAt(w.plan, k, r.step);
      assert !Starts(w, r, k);
    }
  }

  /** An activation opens a claim exactly when its step can be started and every attempt budget has room; it fails the
      workflow exactly when the step can be started and one has none; any other changes nothing. */
  lemma ActivationIff(w: Workflow, r: Activation, now: int, keys: Keyring, ready: bool)
    ensures var t := Activate(w, r, now, keys, ready);
      && (forall k: nat | Starts(w, r, k) ::
            w.plan.steps[k].id in w.steps && ClaimsOrFails(w, t, w.plan.steps[k], r, now, keys))
      && ((forall k: nat :: !Starts(w, r, k)) ==> After(w, t) == w)
  {
    hide Activate, Starts, ClaimsOrFails;
    forall k: nat | Starts(w, r, k)
      ensures k < |w.plan.steps| && w.plan.steps[k].id in w.steps
              && ClaimsOrFails(w, Activate(w, r, now, keys, ready), w.plan.steps[k], r, now, keys)
    {
      StartsPlanned(w, r, k);
      StartIsAnswered(w, r, now, keys, ready, k);
    }
    if forall k: nat :: !Starts(w, r, k) {
      UnstartedStays(w, r, now, keys, ready);
    }
  }

  lemma StartsPlanned(w: Workflow, r: Activation, k: nat)
    requires Starts(w, r, k)
    ensures k < |w.plan.steps|
  {
  }

  lemma RoomIff(w: Workflow, s: PlanStep)
    requires s.id in w.steps
    ensures RoomFor(w, s) <==> !AttemptsExhausted(w, s)
  {
    hide ActiveCount;
  }

  lemma OpensClaim(w: Workflow, s: PlanStep, r: Activation, now: int, keys: Keyring)
    requires s.id in w.steps
    ensures var c, v := NewClaim(w, s, r, now, keys), OpenClaim(w, s, r, now, keys);
            Opened(w, v, s, c) && |w.claims| < |v.claims| && v.claims[|w.claims|] == c
  {
  }

  // ----- who holds a lease, and what it has left -----

  /** The holder of a live lease: it shows the token of an active claim, and names nothing that is not the claim's. */
  predicate HoldsLease(w: Workflow, h: Credential, now: int) {
    && (w.state.Pending? || w.state.Running?) && h.claim < |w.claims|
    && var c := w.claims[h.claim];
      && c.status.Active? && now <= c.leaseExpires && h.token == c.token && (h.check <==> c.kind.Check?)
      && h.step == c.step && h.attempt == c.attempt && h.digest == c.digest
      && h.constraints == c.binding.constraints && (h.check || h.invocation == c.binding.invocation)
      && (h.key.Some? ==> h.key.value == c.binding.key)
  }

  lemma HoldsLeaseIff(w: Workflow, h: Credential, now: int)
    ensures HoldsLease(w, h, now) <==> Refusal(w, h, now).None?
    ensures HoldsLease(w, h, now) ==> IsActive(w) && h.claim < |w.claims|
  {
  }

  /** The seconds a claim stands at when metered now: never fewer than before. */
  function MeteredAt(c: Claim, now: int): nat {
    if now - c.started > c.accounted then now - c.started else c.accounted
  }

  /** The workflow can pay for the seconds the claim has run since it was last metered. */
  predicate RuntimeLeft(w: Workflow, c: Claim, now: int) {
    MeteredAt(c, now) == c.accounted
        || w.counters.runtimeSeconds + MeteredAt(c, now) - c.accounted <= w.plan.budgets.runtimeSeconds
  }

  /** The workflow with one claim metered: its seconds and the counter move by the same amount. */
  function Metered(w: Workflow, i: nat, now: int): Workflow
    requires i < |w.claims|
  {
    var c := w.claims[i];
    w.(claims := w.claims[i := c.(accounted := MeteredAt(c, now))],
       counters := w.counters.(runtimeSeconds := w.counters.runtimeSeconds + MeteredAt(c, now) - c.accounted))
  }

  lemma MeteringIs(w: Workflow, i: nat, now: int)
    requires i < |w.claims|
    ensures RuntimeLeft(w, w.claims[i], now) <==> !RuntimeExhausted(w, i, now)
    ensures Meter(w, i, now) == Metered(w, i, now)
  {
  }

  // ----- renewal -----

  /** A renewal is refused exactly to who holds no live lease, and fails the workflow exactly when the seconds run since
      are beyond the runtime budget; otherwise those seconds are charged and the lease runs from now. */
  lemma RenewalIff(w: Workflow, h: Credential, leaseSeconds: nat, now: int, ready: bool)
    ensures var t := RuntimeWorkflow.Renew(w, h, leaseSeconds, now, ready);
      && (t.Rollback? <==> !HoldsLease(w, h, now))
      && (HoldsLease(w, h, now) && !RuntimeLeft(w, w.claims[h.claim], now) ==>
          t.CommitFailure? && FailedOn(w, t.state, "runtime"))
      && (HoldsLease(w, h, now) && RuntimeLeft(w, w.claims[h.claim], now) ==>
          var m := Metered(w, h.claim, now);
          && t == Commit(m.(claims := m.claims[h.claim := m.claims[h.claim].(leaseExpires := now + leaseSeconds)]),
                         now + leaseSeconds))
  {
    hide Refusal, HoldsLease, Meter, Metered, RuntimeExhausted, RuntimeLeft, Exhaust, FailedOn;
    HoldsLeaseIff(w, h, now);
    if HoldsLease(w, h, now) {
      MeteringIs(w, h.claim, now);
      MeteredKeepsLength(w, h.claim, now);
      ExhaustFails(w, "runtime", ready);
    }
  }

  lemma MeteredKeepsLength(w: Workflow, i: nat, now: int)
    requires i < |w.claims|
    ensures |Metered(w, i, now).claims| == |w.claims|
  {
  }

  // ----- updates -----

  /** The record is new to its claim and next in its log. */
  predicate NextRecord(c: Claim, r: Record) {
    (forall p | p in c.records :: p.id != r.id) && r.sequence == c.nextSequence
  }

  /** The k-th planned edge is the first to carry a report of the step. */
  ghost predicate ReportEdgeAt(plan: Plan, k: nat, step: StepId) {
    && k < |plan.edges| && plan.edges[k].producer == step && plan.edges[k].role.ReportEdge?
    && forall j | 0 <= j < k :: !(plan.edges[j].producer == step && plan.edges[j].role.ReportEdge?)
  }

  /** The outcome brings a report to record: a check's, if it succeeded or came with a conformance binding. */
  predicate BringsReport(c: Claim, u: Update) {
    c.kind.Check? && u.record.payload.Outcome? && (u.bound || u.record.payload.terminal == Succeeded)
  }

  /** Budgets that the record would break. */
  predicate BreaksBudget(w: Workflow, c: Claim, u: Update) {
    var k, b := w.counters, w.plan.budgets;
    match u.record.payload
    case Event(tool, _, size) =>
      || k.eventBytes + size > b.eventBytes
      || (tool && !c.kind.Check? && k.externalOperations >= b.externalOperations)
    case Outcome(_, _, _) =>
      BringsReport(c, u)
      && (k.artifactBytes + u.report.size > b.artifactBytes || k.artifactEdges >= b.artifactEdges)
  }

  /** A report that is the one told of, on a planned edge, and not yet recorded there. */
  ghost predicate ReportFits(w: Workflow, c: Claim, u: Update, k: nat)
    requires u.record.payload.Outcome?
  {
    && u.record.payload.report == u.report.uri && ReportEdgeAt(w.plan, k, c.step)
    && forall e | e in w.edges && e.edge.id == w.plan.edges[k].id :: e.artifact.id != u.report.id
  }

  lemma {:induction false} ReportEdgeIsFirst(edges: seq<PlannedEdge>, step: StepId) returns (k: nat)
    requires FindReportEdge(edges, step).Some?
    ensures k < |edges| && FindReportEdge(edges, step) == Some(edges[k]) && edges[k].producer == step
            && edges[k].role.ReportEdge?
            && forall j | 0 <= j < k :: !(edges[j].producer == step && edges[j].role.ReportEdge?)
  {
    if edges[0].producer == step && edges[0].role.ReportEdge? {
      k := 0;
    } else {
      var m := ReportEdgeIsFirst(edges[1..], step);
      k := m + 1;
      assert forall j | 0 < j < k :: edges[1..][j - 1] == edges[j];
    }
  }

  lemma {:induction false} FirstReportEdge(edges: seq<PlannedEdge>, k: nat)
    requires k < |edges| && edges[k].role.ReportEdge?
    requires forall j | 0 <= j < k :: !(edges[j].producer == edges[k].producer && edges[j].role.ReportEdge?)
    ensures FindReportEdge(edges, edges[k].producer) == Some(edges[k])
  {
    if k > 0 {
      assert !(edges[0].producer == edges[k].producer && edges[0].role.ReportEdge?);
      FirstReportEdge(edges[1..], k - 1);
    }
  }

  /** What the preflight says of a report: over budget, refused, or clear on its edge. */
  lemma PreflightIff(w: Workflow, c: Claim, u: Update)
    requires u.record.payload.Outcome? && BringsReport(c, u)
    ensures var p := PreflightReport(w, c, u);
      var told := u.record.payload.report == u.report.uri && exists k: nat :: ReportEdgeAt(w.plan, k, c.step);
      && (p.OverBudget? <==> told && BreaksBudget(w, c, u)) && (p.Clear? ==> told)
      && (p.Clear? <==> !BreaksBudget(w, c, u) && exists k: nat :: ReportFits(w, c, u, k))
      && (forall k: nat | ReportFits(w, c, u, k) && !BreaksBudget(w, c, u) :: p == Clear(w.plan.edges[k]))
  {
    hide FindReportEdge;
    if FindReportEdge(w.plan.edges, c.step).Some? {
      var k := ReportEdgeIsFirst(w.plan.edges, c.step);
      assert ReportEdgeAt(w.plan, k, c.step);
    }
    forall k: nat | ReportEdgeAt(w.plan, k, c.step)
      ensures FindReportEdge(w.plan.edges, c.step) == Some(w.plan.edges[k])
    {
      FirstReportEdge(w.plan.edges, k);
    }
    if PreflightReport(w, c, u).Clear? {
      var k: nat :| ReportEdgeAt(w.plan, k, c.step);
      assert ReportFits(w, c, u, k);
    }
  }

  /** The budget a record breaks, and what the failure counts before it ends the workflow: a tool event over the
      operation budget has its bytes counted first. */
  ghost predicate FailedOnRecord(w: Workflow, v: Workflow, u: Update) {
    var k, b := w.counters, w.plan.budgets;
    match u.record.payload
    case Event(_, _, size) =>
      if k.eventBytes + size > b.eventBytes then FailedOn(w, v, "event byte")
      else FailedOn(w.(counters := k.(eventBytes := k.eventBytes + size)), v, "external operation")
    case Outcome(_, _, _) =>
      FailedOn(w, v, if k.artifactBytes + u.report.size > b.artifactBytes then "artifact byte" else "artifact edge")
  }

  /** The claim with one record more. */
  function Recorded(c: Claim, r: Record): Claim {
    c.(records := c.records + [r], nextSequence := c.nextSequence + 1)
  }

  /** An event is stored with its claim and counted; nothing else moves. */
  ghost predicate StoresEvent(w: Workflow, v: Workflow, i: nat, r: Record)
    requires i < |w.claims| && r.payload.Event?
  {
    var k := w.counters;
    && v == w.(claims := w.claims[i := Recorded(w.claims[i], r)], counters := v.counters)
    && v.counters == k.(eventBytes := k.eventBytes + r.payload.size,
                        externalOperations := v.counters.externalOperations)
    && v.counters.externalOperations - k.externalOperations ==
       (if r.payload.toolSummary && !w.claims[i].kind.Check? then 1 else 0)
  }

  /** How a workflow stands after an outcome, given the answer the external service would give if it completed. */
  ghost predicate StandsAfter(w: Workflow, v: Workflow, t: Terminal, ready: bool) {
    var all := forall s | s in v.steps :: v.steps[s].state == StepDone(Succeeded);
    match t
    case Unsuccessful(kind, code) =>
      v.state == Stopped(if kind.Unsupported? then Failed else kind) && v.error == Some(StepFailed(code))
      && v.receipt.Some?
    case Succeeded =>
      if !all then v.state.Running? && v.error.None? && v.receipt == w.receipt
      else if w.plan.version == 3 && !ready && w.receipt.None? then
        v.state.Blocked? && v.error == Some(ExternalOutcomeUnresolved) && v.receipt.Some?
      else v.state.Completed? && v.error.None? && v.receipt.Some?
  }

  /** An outcome ends its claim and its step, with the edge its report goes on, and decides how the workflow stands. */
  ghost predicate StoresOutcome(w: Workflow, v: Workflow, i: nat, r: Record, edge: Option<RecordedEdge>, ready: bool)
    requires i < |w.claims| && r.payload.Outcome? && w.claims[i].step in w.steps
  {
    var c, t, k := w.claims[i], r.payload.terminal, w.counters;
    var report := if edge.Some? then Some(edge.value.artifact) else None;
    && v.claims == w.claims[i := Recorded(c, r).(status := Finished(t), outcome :=
                                 Some(StepReceipt(c.step, c.kind, c.attempt, t, c.binding.constraints, report)))]
    && v.steps == w.steps[c.step := StepRow(StepDone(t), w.steps[c.step].attempts)]
    && v.edges == w.edges + (if edge.Some? then [edge.value] else [])
    && v.counters == k.(activeSteps := k.activeSteps - 1, artifactEdges := |v.edges| - |w.edges| + k.artifactEdges,
                        artifactBytes := k.artifactBytes + if edge.Some? then edge.value.artifact.size else 0)
    && v.successes == w.successes + (if t.Succeeded? then [c.step] else [])
    && v.plan == w.plan && StandsAfter(w, v, t, ready)
  }

  lemma CompleteStores(w: Workflow, i: nat, r: Record, edge: Option<RecordedEdge>, ready: bool)
    requires i < |w.claims| && r.payload.Outcome? && w.claims[i].step in w.steps
    ensures StoresOutcome(w, Complete(w, i, r, edge, ready), i, r, edge, ready)
  {
    hide Outcomes;
  }

  lemma EventStored(w: Workflow, i: nat, r: Record)
    requires i < |w.claims| && r.payload.Event?
    ensures StoresEvent(w, AppendEvent(w, i, r), i, r)
  {
  }

  /** A record that can be stored: true to its digest, next in the log, and, if it brings a report, on a planned
      edge. */
  ghost predicate Tellable(w: Workflow, c: Claim, u: Update) {
    && NextRecord(c, u.record)
    && (BringsReport(c, u) ==>
        u.record.payload.report == u.report.uri && exists k: nat :: ReportEdgeAt(w.plan, k, c.step))
  }

  /** What an update past its checks does: a repeated record is stored already; one that breaks a budget fails the
      workflow; one whose report is on a planned edge already is refused. */
  ghost predicate RecordAnswered(w: Workflow, t: Transaction<Workflow, ()>, i: nat, u: Update, ready: bool)
    requires i < |w.claims| && w.claims[i].step in w.steps
  {
    var c := w.claims[i];
    && (u.record in c.records ==> t == Commit(w, ()))
    && (u.record !in c.records && !Tellable(w, c, u) ==> t.Rollback?)
    && (Tellable(w, c, u) && BreaksBudget(w, c, u) ==> t.CommitFailure? && FailedOnRecord(w, t.state, u))
    && (Tellable(w, c, u) && !BreaksBudget(w, c, u) && u.record.payload.Event? ==>
        t.Commit? && StoresEvent(w, t.state, i, u.record))
    && (Tellable(w, c, u) && u.record.payload.Outcome? && !BringsReport(c, u) ==>
        t.Commit? && StoresOutcome(w, t.state, i, u.record, None, ready))
    && (Tellable(w, c, u) && !BreaksBudget(w, c, u) && u.record.payload.Outcome? && BringsReport(c, u) ==>
        && (forall k: nat | ReportFits(w, c, u, k) ::
              t.Commit? && StoresOutcome(w, t.state, i, u.record,
                                         Some(RecordedEdge(w.plan.edges[k], u.report, c.attempt)), ready))
        && ((forall k: nat :: !ReportFits(w, c, u, k)) ==> t.Rollback?))
  }

  lemma RecordIsFound(c: Claim, r: Record)
    requires Contiguous(c)
    ensures r in c.records <==> FindRecord(c.records, r.id) == Some(r)
    ensures (forall p | p in c.records :: p.id != r.id) <==> FindRecord(c.records, r.id).None?
  {
    hide FindRecord;
    FindRecordFinds(c.records, r.id);
    if r in c.records {
      var n :| 0 <= n < |c.records| && c.records[n] == r;
      var p := FindRecord(c.records, r.id).value;
      var m :| 0 <= m < |c.records| && c.records[m] == p;
    }
  }

  lemma EventAnswered(w: Workflow, u: Update, ready: bool)
    requires u.holder.claim < |w.claims| && w.claims[u.holder.claim].step in w.steps
             && Contiguous(w.claims[u.holder.claim])
    requires u.record.payload.Event? && NextRecord(w.claims[u.holder.claim], u.record)
    ensures RecordAnswered(w, Append(w, u, ready), u.holder.claim, u, ready)
  {
    hide FindRecord, Exhaust, FailedOn, AppendEvent, StoresEvent, Contiguous;
    var k := w.counters;
    RecordIsFound(w.claims[u.holder.claim], u.record);
    ExhaustFails(w, "event byte", ready);
    ExhaustFails(w.(counters := k.(eventBytes := k.eventBytes + u.record.payload.size)), "external operation", ready);
    EventStored(w, u.holder.claim, u.record);
  }

  lemma OutcomeAnswered(w: Workflow, u: Update, ready: bool)
    requires u.holder.claim < |w.claims| && w.claims[u.holder.claim].step in w.steps
             && Contiguous(w.claims[u.holder.claim])
    requires u.record.payload.Outcome? && NextRecord(w.claims[u.holder.claim], u.record)
    ensures RecordAnswered(w, Append(w, u, ready), u.holder.claim, u, ready)
  {
    hide FindRecord, Exhaust, FailedOn, Complete, StoresOutcome, Contiguous, PreflightReport, ReportFits, ReportEdgeAt;
    var i := u.holder.claim;
    var c := w.claims[i];
    RecordIsFound(c, u.record);
    ExhaustFails(w, "artifact byte", ready);
    ExhaustFails(w, "artifact edge", ready);
    if BringsReport(c, u) {
      var t, p := Append(w, u, ready), PreflightReport(w, c, u);
      PreflightIff(w, c, u);
      OverWhich(w, c, u);
      forall k: nat | ReportFits(w, c, u, k) && !BreaksBudget(w, c, u)
        ensures k < |w.plan.edges| && t.Commit?
                && StoresOutcome(w, t.state, i, u.record, Some(RecordedEdge(w.plan.edges[k], u.report, c.attempt)),
                                 ready)
      {
        FitsPlanned(w, c, u, k);
        CompleteStores(w, i, u.record, Some(RecordedEdge(w.plan.edges[k], u.report, c.attempt)), ready);
      }
      assert Tellable(w, c, u) || p.Refused?;
    } else {
      CompleteStores(w, i, u.record, None, ready);
    }
  }

  lemma FitsPlanned(w: Workflow, c: Claim, u: Update, k: nat)
    requires u.record.payload.Outcome?
    ensures ReportFits(w, c, u, k) ==> k < |w.plan.edges|
  {
  }

  lemma OverWhich(w: Workflow, c: Claim, u: Update)
    requires u.record.payload.Outcome?
    ensures var p := PreflightReport(w, c, u);
      p.OverBudget? ==>
        p.budget == if w.counters.artifactBytes + u.report.size > w.plan.budgets.artifactBytes then "artifact byte"
                    else "artifact edge"
  {
    hide FindReportEdge;
  }

  lemma AppendAnswered(w: Workflow, u: Update, ready: bool)
    requires u.holder.claim < |w.claims| && w.claims[u.holder.claim].step in w.steps
             && Contiguous(w.claims[u.holder.claim])
    ensures RecordAnswered(w, Append(w, u, ready), u.holder.claim, u, ready)
  {
    hide FindRecord, Exhaust, Complete, PreflightReport, AppendEvent, Contiguous, FailedOnRecord, StoresEvent,
         StoresOutcome, ReportFits, ReportEdgeAt;
    var c := w.claims[u.holder.claim];
    RecordIsFound(c, u.record);
    if NextRecord(c, u.record) {
      if u.record.payload.Event? {
        EventAnswered(w, u, ready);
      } else {
        OutcomeAnswered(w, u, ready);
      }
    }
  }

  /** An update is refused to who holds no live lease, fails the workflow when the seconds run are beyond the runtime
      budget, and is refused for an untrue digest; otherwise its record is answered with those seconds charged. */
  lemma UpdateIff(w: Workflow, u: Update, now: int, ready: bool)
    requires ClaimsPlanned(w) && forall c | c in w.claims :: Contiguous(c)
    ensures var t, i := ApplyUpdate(w, u, now, ready), u.holder.claim;
      && (!HoldsLease(w, u.holder, now) ==> t.Rollback?)
      && (HoldsLease(w, u.holder, now) && !RuntimeLeft(w, w.claims[i], now) ==>
          t.CommitFailure? && FailedOn(w, t.state, "runtime"))
      && (HoldsLease(w, u.holder, now) && RuntimeLeft(w, w.claims[i], now) ==>
          var m := Metered(w, i, now);
          && i < |m.claims| && m.claims[i].step in m.steps
          && if u.record.digest.payload != u.record.payload then t.Rollback? else RecordAnswered(m, t, i, u, ready))
  {
    hide Refusal, HoldsLease, Meter, RuntimeExhausted, RuntimeLeft, Exhaust, FailedOn, RecordAnswered, Append,
         Contiguous;
    HoldsLeaseIff(w, u.holder, now);
    if HoldsLease(w, u.holder, now) {
      var i := u.holder.claim;
      MeteringIs(w, i, now);
      ExhaustFails(w, "runtime", ready);
      assert w.claims[i] in w.claims;
      var m := Metered(w, i, now);
      assert Contiguous(m.claims[i]) by { SameLog(w.claims[i], m.claims[i]); }
      AppendAnswered(m, u, ready);
    }
  }

  lemma SameLog(a: Claim, b: Claim)
    requires Contiguous(a) && b == a.(accounted := b.accounted)
    ensures Contiguous(b)
  {
  }

  // ----- cancel -----

  /** A cancel ends every claim and the workflow, once. */
  lemma CancelEnds(w: Workflow, reason: string, ready: bool)
    ensures var v := Cancel(w, reason, ready);
      if w.state.Pending? || w.state.Running? then
        && v.state == Stopped(Cancelled) && v.error == Some(CancelledBy(reason)) && v.receipt.Some?
        && v == w.(state := v.state, error := v.error, receipt := v.receipt, claims := v.claims,
                   counters := w.counters.(activeSteps := 0))
        && |v.claims| == |w.claims|
        && forall i | 0 <= i < |w.claims| ::
             v.claims[i] == if w.claims[i].status.Active? then w.claims[i].(status := CancelledClaim) else w.claims[i]
      else v == w
  {
    hide Outcomes;
  }
}
