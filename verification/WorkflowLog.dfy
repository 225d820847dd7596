/** What the rows of a workflow record: contiguous logs, single-use keys, and a receipt frozen with the state it
    reports. */
module WorkflowLog {
  import opened Wrappers
  import opened DependencyGraph
  import opened RuntimeWorkflow

  // ----- one claim's log -----

  /** Records are numbered from zero without gaps, under distinct ids and true digests. */
  ghost predicate Contiguous(c: Claim) {
    && c.nextSequence == |c.records|
    && (forall n | 0 <= n < |c.records| ::
          c.records[n].sequence == n && c.records[n].digest == PayloadDigest(c.records[n].payload))
    && (forall m, n | 0 <= m < n < |c.records| :: c.records[m].id != c.records[n].id)
  }

  /** A claim has an outcome exactly when it finished, as its last record, and its receipt repeats that record. */
  ghost predicate OutcomeIsLast(c: Claim) {
    && (c.outcome.Some? <==> c.status.Finished?)
    && (c.status.Finished? ==>
        |c.records| > 0 && Last(c).payload.Outcome? && Last(c).payload.terminal == c.status.terminal)
    && (forall n | 0 <= n < |c.records| && c.records[n].payload.Outcome? :: n == |c.records| - 1 && c.status.Finished?)
    && (c.outcome.Some? ==>
          var o := c.outcome.value;
          && o.step == c.step && o.kind == c.kind && o.attempt == c.attempt && o.terminal == c.status.terminal
          && o.constraints == c.binding.constraints && ReportGiven(c, o.terminal, o.report.Some?))
  }

  /** Only checks report, and a check that succeeded always does. */
  predicate ReportGiven(c: Claim, t: Terminal, report: bool) {
    (report ==> c.kind.Check?) && (t.Succeeded? && c.kind.Check? ==> report)
  }

  function Last(c: Claim): Record
    requires |c.records| > 0
  {
    c.records[|c.records| - 1]
  }

  ghost predicate GoodLog(c: Claim) {
    Contiguous(c) && OutcomeIsLast(c)
  }

  // ----- the claim table -----

  /** Keys are used once, invocations by one provider claim, and each token belongs to one row. */
  ghost predicate SingleUse(claims: seq<Claim>) {
    && (forall i, j | 0 <= i < j < |claims| :: claims[i].binding.key != claims[j].binding.key)
    && (forall i, j | 0 <= i < j < |claims| && !claims[i].kind.Check? && !claims[j].kind.Check?
        && claims[j].binding.invocation.Some? ::
          claims[i].binding.invocation != claims[j].binding.invocation)
    && (forall i | 0 <= i < |claims| ::
          && claims[i].token.claim == i && claims[i].token.attempt == claims[i].attempt
             && claims[i].token.binding == claims[i].binding
          && claims[i].binding.step == claims[i].step && claims[i].binding.check == claims[i].kind.Check?)
  }

  /** Each recorded edge is planned, reports a check that recorded it, and no artifact is recorded twice on one edge. */
  ghost predicate EdgesOnce(w: Workflow) {
    && (forall e | e in w.edges :: e.edge in w.plan.edges && e.edge.role.ReportEdge?)
    && (forall i, j | 0 <= i < j < |w.edges| && w.edges[i].edge.id == w.edges[j].edge.id ::
          w.edges[i].artifact.id != w.edges[j].artifact.id)
  }

  ghost predicate Logged(w: Workflow) {
    && (forall c | c in w.claims :: GoodLog(c))
    && SingleUse(w.claims)
    && EdgesOnce(w)
  }

  /** A workflow has a receipt exactly when it is over; the receipt says what the rows say. */
  ghost predicate Ended(w: Workflow) {
    && (w.receipt.None? <==> IsActive(w))
    && (w.receipt.Some? ==>
          var r := w.receipt.value;
          r.status == w.state && r.steps == Outcomes(w.claims) && r.edges == w.edges && r.error == w.error)
    && OutcomeStated(w)
  }

  /** The frozen counters are the live ones. */
  ghost predicate CountersFrozen(w: Workflow) {
    w.receipt.Some? ==> w.receipt.value.counters == w.counters
  }

  /** Completed (or, in version 3, blocked) exactly when every step succeeded; an error exactly when the end is not
      completion. */
  ghost predicate OutcomeStated(w: Workflow) {
    && (AllSucceeded(w.steps) <==> w.state.Completed? || w.state.Blocked?)
    && (w.error.Some? <==> w.state.Stopped? || w.state.Blocked?)
    && (w.state.Blocked? ==> w.plan.version == 3)
  }

  // ----- searches -----

  lemma {:induction false} FindRecordFinds(records: seq<Record>, id: string)
    ensures FindRecord(records, id).Some? ==>
            FindRecord(records, id).value in records && FindRecord(records, id).value.id == id
    ensures FindRecord(records, id).None? ==> forall n | 0 <= n < |records| :: records[n].id != id
  {
    if records != [] {
      FindRecordFinds(records[1..], id);
      assert forall n | 1 <= n < |records| :: records[n] == records[1..][n - 1];
    }
  }

  lemma {:induction false} FindReportEdgeFinds(edges: seq<PlannedEdge>, producer: StepId)
    ensures var e := FindReportEdge(edges, producer);
            e.Some? ==> e.value in edges && e.value.producer == producer && e.value.role.ReportEdge?
  {
    if edges != [] {
      FindReportEdgeFinds(edges[1..], producer);
    }
  }

  // ----- every primitive keeps the log -----

  lemma CreateLogged(plan: Plan)
    requires plan.steps != []
    ensures Logged(Create(plan)) && Ended(Create(plan))
  {
    assert plan.steps[0].id in Create(plan).steps;
  }

  lemma OpenClaimLogged(w: Workflow, step: PlanStep, request: Activation, now: int, keys: Keyring)
    requires Logged(w) && step.id in w.steps && step.id == request.step && step.kind.Check? == request.check
    requires FindKey(w.claims, request.key).None?
    requires request.check || !InvocationBound(w.claims, request.invocation)
    ensures Logged(OpenClaim(w, step, request, now, keys))
  {
    hide FindKey, SingleUse, InvocationBound;
    var o := OpenClaim(w, step, request, now, keys);
    forall c | c in o.claims ensures GoodLog(c) {
      if c !in w.claims {
        assert c == o.claims[|w.claims|];
      }
    }
    OpenClaimSingleUse(w, step, request, now, keys);
  }

  lemma OpenClaimSingleUse(w: Workflow, step: PlanStep, request: Activation, now: int, keys: Keyring)
    requires SingleUse(w.claims) && step.id in w.steps && step.id == request.step && step.kind.Check? == request.check
    requires FindKey(w.claims, request.key).None?
    requires request.check || !InvocationBound(w.claims, request.invocation)
    ensures SingleUse(OpenClaim(w, step, request, now, keys).claims)
  {
    hide FindKey;
    var claims, last := OpenClaim(w, step, request, now, keys).claims, |w.claims|;
    assert forall i | 0 <= i < last :: claims[i] == w.claims[i] && w.claims[i] in w.claims;
  }

  ghost predicate SameIdentity(a: Claim, b: Claim) {
    a.step == b.step && a.kind == b.kind && a.attempt == b.attempt && a.binding == b.binding && a.token == b.token
        && a.digest == b.digest
  }

  lemma RowLogged(w: Workflow, i: nat, c: Claim)
    requires Logged(w) && i < |w.claims| && SameIdentity(c, w.claims[i]) && GoodLog(c)
    ensures SingleUse(w.claims[i := c]) && forall d | d in w.claims[i := c] :: GoodLog(d)
  {
    hide GoodLog;
    var claims := w.claims[i := c];
    assert forall k | 0 <= k < |claims| :: SameIdentity(claims[k], w.claims[k]);
    forall d | d in claims ensures GoodLog(d) {
      var k :| 0 <= k < |claims| && claims[k] == d;
      if k != i { assert d in w.claims; }
    }
  }

  lemma MeterLogged(w: Workflow, i: nat, now: int)
    requires Logged(w) && i < |w.claims|
    ensures Logged(Meter(w, i, now))
  {
    var c := Meter(w, i, now).claims[i];
    assert GoodLog(w.claims[i]);
    RowLogged(w, i, c);
  }

  lemma ExtendLogged(w: Workflow, i: nat, expires: int)
    requires Logged(w) && i < |w.claims|
    ensures Logged(Extend(w, i, expires))
  {
    var c := Extend(w, i, expires).claims[i];
    assert GoodLog(w.claims[i]);
    RowLogged(w, i, c);
  }

  lemma AppendEventLogged(w: Workflow, i: nat, r: Record)
    requires Logged(w) && i < |w.claims| && w.claims[i].status.Active? && r.payload.Event?
    requires FindRecord(w.claims[i].records, r.id).None? && r.sequence == w.claims[i].nextSequence
             && r.digest == PayloadDigest(r.payload)
    ensures Logged(AppendEvent(w, i, r))
  {
    hide FindRecord, SingleUse;
    var c := AppendEvent(w, i, r).claims[i];
    assert GoodLog(w.claims[i]);
    FindRecordFinds(w.claims[i].records, r.id);
    assert GoodLog(c);
    RowLogged(w, i, c);
  }

  lemma FinishedLog(w: Workflow, i: nat, r: Record, edge: Option<RecordedEdge>)
    requires i < |w.claims| && GoodLog(w.claims[i]) && w.claims[i].status.Active? && r.payload.Outcome?
             && w.claims[i].step in w.steps
    requires FindRecord(w.claims[i].records, r.id).None? && r.sequence == w.claims[i].nextSequence
             && r.digest == PayloadDigest(r.payload)
    requires ReportGiven(w.claims[i], r.payload.terminal, edge.Some?)
    ensures GoodLog(Finish(w, i, r, edge).claims[i])
  {
    hide FindRecord, AllSucceeded;
    FindRecordFinds(w.claims[i].records, r.id);
  }

  ghost predicate EdgeIsNew(w: Workflow, edge: Option<RecordedEdge>) {
    edge.Some? ==>
      && edge.value.edge in w.plan.edges && edge.value.edge.role.ReportEdge?
      && forall e | e in w.edges && e.edge.id == edge.value.edge.id :: e.artifact.id != edge.value.artifact.id
  }

  lemma FinishLogged(w: Workflow, i: nat, r: Record, edge: Option<RecordedEdge>)
    requires Logged(w) && i < |w.claims| && w.claims[i].status.Active? && r.payload.Outcome?
             && w.claims[i].step in w.steps
    requires FindRecord(w.claims[i].records, r.id).None? && r.sequence == w.claims[i].nextSequence
             && r.digest == PayloadDigest(r.payload)
    requires EdgeIsNew(w, edge) && ReportGiven(w.claims[i], r.payload.terminal, edge.Some?)
    ensures Logged(Finish(w, i, r, edge))
  {
    hide FindRecord, AllSucceeded, SingleUse, GoodLog;
    var f := Finish(w, i, r, edge);
    FinishedLog(w, i, r, edge);
    RowLogged(w, i, f.claims[i]);
    forall a, b | 0 <= a < b < |f.edges| && f.edges[a].edge.id == f.edges[b].edge.id
      ensures f.edges[a].artifact.id != f.edges[b].artifact.id
    {
      assert f.edges[a] in w.edges;
    }
  }

  lemma HaltLogged(w: Workflow, status: ClaimStatus, state: WorkflowState, error: WorkflowError)
    requires Logged(w) && (status.StaleRejected? || status.CancelledClaim?)
    ensures Logged(Halt(w, status, state, error))
  {
    hide SingleUse;
    var h := Halt(w, status, state, error);
    forall c | c in h.claims ensures GoodLog(c) {
      var k :| 0 <= k < |h.claims| && h.claims[k] == c;
      assert GoodLog(w.claims[k]);
    }
    HaltSingleUse(w.claims, status);
  }

  lemma HaltSingleUse(claims: seq<Claim>, status: ClaimStatus)
    requires SingleUse(claims)
    ensures SingleUse(EndActive(claims, status))
  {
    assert forall i | 0 <= i < |claims| :: SameIdentity(EndActive(claims, status)[i], claims[i]);
  }

  lemma ReleaseLogged(w: Workflow, i: nat)
    requires Logged(w) && i < |w.claims| && w.claims[i].status.Active?
    ensures Logged(Release(w, i))
  {
    var c := Release(w, i).claims[i];
    assert GoodLog(w.claims[i]);
    RowLogged(w, i, c);
  }

  lemma FreezeLogged(w: Workflow, ready: bool)
    requires Logged(w)
    ensures Logged(Freeze(w, ready))
  {
    hide GoodLog, SingleUse, Outcomes;
  }

  // ----- every ending states its outcome -----

  lemma HaltEnded(w: Workflow, status: ClaimStatus, kind: FailureKind, error: WorkflowError, ready: bool)
    requires Ended(w) && IsActive(w)
    ensures var f := Freeze(Halt(w, status, Stopped(kind), error), ready); Ended(f) && CountersFrozen(f) && !IsActive(f)
  {
    hide Outcomes, AllSucceeded;
  }

  lemma FinishEnded(w: Workflow, i: nat, r: Record, edge: Option<RecordedEdge>, ready: bool)
    requires Ended(w) && IsActive(w) && i < |w.claims| && r.payload.Outcome? && w.claims[i].step in w.steps
    ensures Ended(Complete(w, i, r, edge, ready)) && CountersFrozen(Complete(w, i, r, edge, ready))
  {
    hide Outcomes, AllSucceeded;
    var f := Finish(w, i, r, edge);
    if !r.payload.terminal.Succeeded? {
      OneFailed(f.steps, w.claims[i].step);
    }
  }

  lemma OneFailed(steps: map<StepId, StepRow>, s: StepId)
    requires s in steps && steps[s].state != StepDone(Succeeded)
    ensures !AllSucceeded(steps)
  {
  }

  lemma ReleaseEnded(w: Workflow, i: nat)
    requires Ended(w) && IsActive(w) && i < |w.claims|
    ensures Ended(Release(w, i)) && IsActive(Release(w, i)) && CountersFrozen(Release(w, i))
  {
    hide Outcomes;
    var f := Release(w, i);
    var s :| s in w.steps && w.steps[s].state != StepDone(Succeeded);
    assert s in f.steps && f.steps[s].state != StepDone(Succeeded);
  }
}
