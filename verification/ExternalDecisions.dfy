/** Observations, queries and activations of the external-operation service: in every reachable state, exactly when each
    is taken, and what it writes. */
module ExternalDecisions {
  import opened Wrappers
  import opened DependencyGraph
  import opened RuntimeWorkflow
  import opened WorkflowPlan
  import opened WorkflowScheduling
  import opened WorkflowLog
  import opened WorkflowRuns
  import opened ExternalOperation
  import opened ExternalReceipts
  import opened ExternalWorld
  import opened ExternalCounters
  import opened ExternalParents
  import opened ExternalInvariant
  import opened ExternalSteps
  import opened ExternalEndings
  import opened ExternalRuns
  import opened ExternalTheorems
  import opened ExternalEvidence
  import opened ExternalRequests
  import WorkflowRequests

  // ----- observations -----

  /** Only what is known can be told by an adapter, and only what is final by hand. */
  predicate Tellable(o: Observation) {
    if o.manualCase.Some? then Decisive(o)
    else o.outcome in {Unknown, AwaitingProvider, ConfirmedSucceeded, ConfirmedFailed}
  }

  /** It came through the current query, if through any, before its deadline. */
  predicate InTime(op: Operation, through: Option<QueryClaim>, now: int) {
    through.Some? ==>
      op.claim.Some? && op.claim.value.fence == through.value.fence && now < through.value.deadline
  }

  /** By hand: under the operation's one case, while the authority is fresh; that nothing was executed takes proof. */
  predicate Attested(op: Operation, o: Observation, facts: Facts) {
    o.manualCase.Some? ==>
      && facts.manualFresh && op.cases != [] && op.cases[0].id == o.manualCase.value
      && (o.outcome == ConfirmedNotExecuted ==> facts.submitterTerminated && facts.definitive)
      && op.cases[0].records < 16 && op.cases[0].bytes + o.bytes <= 1048576
  }

  /** It contradicts what the provider confirmed first. */
  predicate Contradicts(op: Operation, o: Observation) {
    Decisive(o) && Confirmed(op.outcome) && o.outcome != op.outcome
  }

  /** New, of this operation under its permit, from the provider's own hand, within its budgets. */
  predicate Recordable(op: Operation, o: Observation, facts: Facts, through: Option<QueryClaim>, now: int) {
    && Tellable(o) && facts.provenance && InTime(op, through, now) && o.about == TargetOf(op.who)
    && (op.providerId.Some? ==> o.providerId == op.providerId)
    && (forall p | p in op.observations :: p.id != o.id) && op.permits == 1 && Attested(op, o, facts)
    && (o.manualCase.None? ==> op.consumed.records < 64 && op.consumed.bytes + o.bytes <= 1048576)
    && (Contradicts(op, o) ==> |op.conflicts| < 64)
  }

  /** It resolves the operation, and that ends the parent: by failure, or as the last step to succeed. */
  predicate Concludes(parent: Workflow, op: Operation, o: Observation) {
    && (parent.state.Pending? || parent.state.Running?) && Decisive(o) && !Confirmed(op.outcome)
    && (o.outcome == ConfirmedSucceeded ==>
          forall s | s in parent.steps && s != op.who.application.step :: parent.steps[s].state == StepDone(Succeeded))
  }

  lemma FreshIff(recorded: seq<Observation>, id: string)
    ensures FindObservation(recorded, id).None? <==> forall p | p in recorded :: p.id != id
  {
  }

  lemma AdmissibleIff(op: Operation, o: Observation, facts: Facts, through: Option<QueryClaim>, now: int)
    requires GoodOperation(op)
    ensures Recordable(op, o, facts, through, now) <==>
            Admissible(op, o, facts, through, now) && !(Dispose(op, o).Conflicting? && |op.conflicts| == MAX_CONFLICTS)
  {
    hide Coherent, Reservations, Mirrored, FindObservation;
    FreshIff(op.observations, o.id);
  }

  lemma AdmittedIff(op: Operation, o: Observation, facts: Facts, through: Option<QueryClaim>, now: int)
    requires GoodOperation(op)
    ensures var t := Observe(op, o, facts, through, now);
      && (Recordable(op, o, facts, through, now) ==>
          t.Ok? && t.value.observations == op.observations + [o] && t.value != op
          && t.value.responses == op.responses[o.id := Response(op.sequence + 1, Contradicts(op, o))])
      && (!Recordable(op, o, facts, through, now) ==> t.Err? || t.value == op)
  {
    hide GoodOperation, Recordable, Observe, Admissible, Recorded, Dispose;
    AdmissibleIff(op, o, facts, through, now);
    ObserveGood(op, o, facts, through, now);
    if Observe(op, o, facts, through, now).Ok? {
      ObserveAdmitted(op, o, facts, through, now);
      RecordedApart(op, o);
      if Admissible(op, o, facts, through, now) {
        StoredResponse(op, o, facts, through, now);
      }
    }
  }

  lemma StoredResponse(op: Operation, o: Observation, facts: Facts, through: Option<QueryClaim>, now: int)
    requires Admissible(op, o, facts, through, now) && Observe(op, o, facts, through, now).Ok?
    ensures var next := Observe(op, o, facts, through, now).value;
            next.responses == op.responses[o.id := Response(op.sequence + 1, Contradicts(op, o))]
  {
    hide FindObservation, OverEvidenceBudget, ManualFault, ObservationFault, ReceiptFault, CasesAfter, ConsumedAfter,
         ReconciliationAfter;
  }

  /** What an active parent makes of a recorded observation. */
  lemma ConcludesIff(w: World, row: nat, o: Observation, facts: Facts, through: Option<QueryClaim>, now: int)
    requires Inv(w) && AllTold(w.operations) && Resolved(w) && row < |w.operations|
    requires Observe(w.operations[row], o, facts, through, now).Ok?
             && Observe(w.operations[row], o, facts, through, now).value.observations == w.operations[row].observations
                + [o]
    ensures w.operations[row].who.application.job in w.parents
    ensures var parent := w.parents[w.operations[row].who.application.job];
      EndsParent(parent, Observe(w.operations[row], o, facts, through, now).value) <==>
      Concludes(parent, w.operations[row], o)
  {
    hide Inv, Evidenced, Observe, Table, GoodOperation, ParentOk, Grows, Parents, OutcomeTold, Tracks, Undecided;
    var op, next := w.operations[row], Observe(w.operations[row], o, facts, through, now).value;
    InvTable(w);
    TableRow(w.operations, row);
    JobKnown(w, row);
    var parent := w.parents[op.who.application.job];
    InvParent(w, op.who.application.job);
    OperationTracked(w.operations, row, parent);
    ObserveGood(op, o, facts, through, now);
    ObserveIsTold(op, o, facts, through, now);
    ObserveIsQuiet(op, o, facts, through, now);
    ObserveAdds(op, o, facts, through, now);
    TellsOutcome(op);
    TellsOutcome(next);
    GoodIsCoherent(next);
    ConfirmedIffDecided(op);
    ConfirmedIffDecided(next);
    if Confirmed(op.outcome) {
      assert Evidenced(op);
      GrowsOutcome(op, next);
      if IsActive(parent) {
        assert StepResolved(w.parents, op.who.application.job, op.who.application.step);
        NotAllSucceeded(w.operations, op.who.application.job, parent);
        TracksSucceeded(parent.steps[op.who.application.step].state, op.outcome);
      }
    } else {
      UndecidedLog(op.observations, o);
      FirstOutcome(next, op.observations, o);
      if Decisive(o) {
        FirstConfirmation(op, next, o);
      }
    }
  }

  lemma GrowsOutcome(a: Operation, b: Operation)
    requires Grows(a, b) && Confirmed(a.outcome)
    ensures b.outcome == a.outcome && b.who == a.who
  {
  }

  lemma TracksSucceeded(state: StepState, outcome: Outcome)
    requires Tracks(state, outcome) && state == StepDone(Succeeded)
    ensures outcome == ConfirmedSucceeded
  {
  }

  lemma FirstOutcome(op: Operation, log: seq<Observation>, o: Observation)
    requires OutcomeTold(op) && op.observations == log + [o] && Undecided(log)
    ensures Decisive(o) ==> op.outcome == o.outcome
  {
    UndecidedLog(log, o);
  }

  lemma NotAllSucceeded(ops: seq<Operation>, job: string, parent: Workflow)
    requires ParentOk(ops, job, parent) && IsActive(parent)
    ensures !AllSucceeded(parent.steps)
  {
    hide Scheduled, Logged, Outcomes, OperationsOf, StepsTrack, CallsTally, Receivable, Counted;
  }

  /** What an event records of an operation: an observation and its answer, or nothing. */
  ghost predicate Records(w: World, v: World, row: nat, e: Event, now: int) {
    && row < |w.operations| && row < |v.operations| && w.operations[row].who.application.job in w.parents
    && var op, next, job := w.operations[row], v.operations[row], w.operations[row].who.application.job;
       if e.Observed? && e.observedRow == row && Recordable(op, e.observation, e.facts, e.through, now)
          && (|"receipt_" + job| <= 128 || !Concludes(w.parents[job], op, e.observation)) then
         && next.observations == op.observations + [e.observation]
         && next.responses == op.responses[e.observation.id :=
                                           Response(op.sequence + 1, Contradicts(op, e.observation))]
       else next.observations == op.observations && next.responses == op.responses
  }

  lemma NothingRecorded(w: World, v: World, row: nat, e: Event, now: int)
    requires row < |w.operations| && row < |v.operations| && w.operations[row].who.application.job in w.parents
    requires v.operations[row].observations == w.operations[row].observations
             && v.operations[row].responses == w.operations[row].responses && !e.Observed?
    ensures Records(w, v, row, e, now)
  {
    hide Recordable, Concludes, Contradicts;
  }

  lemma EventRecords(w: World, e: Event, now: int, row: nat)
    requires Inv(w) && ParentsPlanned(w) && AllTold(w.operations) && Resolved(w) && row < |w.operations|
    ensures Records(w, Happen(w, e, now), row, e, now)
  {
    hide Inv, ParentsPlanned, AllTold, Resolved, Happen, Records, ObserveRow;
    if e.Observed? {
      ObservedRecordsIff(w, e.observedRow, e.observation, e.facts, e.through, now, row);
      HappensAsObserved(w, e.observedRow, e.observation, e.facts, e.through, now);
    } else {
      JobKnown(w, row);
      OthersRecordNothing(w, e, now, row);
      NothingRecorded(w, Happen(w, e, now), row, e, now);
    }
  }

  /** In every reachable state an observation is recorded by exactly one kind of event: one that tells something new of
      this operation, under its permit, within its budgets and, through a query, in time; unless it would conclude a
      parent whose name leaves no room for its receipt's. Its answer, stored for ever, says under which receipt it was
      recorded, and whether as a conflict. */
  lemma ObservationRecordedIff(before: seq<Timed>, e: Timed, row: nat)
    requires row < |History(before).operations|
    ensures Records(History(before), History(before + [e]), row, e.event, e.now)
  {
    hide History, Inv, AllTold, Resolved, Happen, Records;
    HistoryTold(before);
    HistoryResolved(before);
    HistorySnoc(before, e);
    EventRecords(History(before), e.event, e.now, row);
  }

  lemma ObservedRecordsIff(w: World, at: nat, o: Observation, facts: Facts, through: Option<QueryClaim>, now: int,
                           row: nat)
    requires Inv(w) && AllTold(w.operations) && Resolved(w) && row < |w.operations|
    ensures Records(w, OrElse(w, ObserveRow(w, at, o, facts, through, now)), row, Observed(at, o, facts, through), now)
  {
    hide Inv, AllTold, Resolved, Recordable, Concludes, Contradicts, Observe, ObserveRow, RowsStay, RegistryStays,
         GoodOperation, Table, EndsParent;
    InvTable(w);
    JobKnown(w, row);
    if at < |w.operations| {
      TableRow(w.operations, at);
      AdmittedIff(w.operations[at], o, facts, through, now);
      ObservationsCommit(w, at, o, facts, through, now);
      if Recordable(w.operations[at], o, facts, through, now) {
        ConcludesIff(w, at, o, facts, through, now);
      }
    }
    if ObserveRow(w, at, o, facts, through, now).Ok? {
      ObserveStays(w, at, o, facts, through, now);
      var v := ObserveRow(w, at, o, facts, through, now).value;
      StayingRow(w.operations[at := Observe(w.operations[at], o, facts, through, now).value], v.operations, row);
    } else {
      StrayChangesNothing(w, at, o, facts, through, now);
    }
  }

  lemma StrayChangesNothing(w: World, at: nat, o: Observation, facts: Facts, through: Option<QueryClaim>, now: int)
    requires ObserveRow(w, at, o, facts, through, now).Err?
    ensures OrElse(w, ObserveRow(w, at, o, facts, through, now)) == w
  {
    hide ObserveRow;
  }

  lemma StayingRow(a: seq<Operation>, b: seq<Operation>, row: nat)
    requires RowsStay(a, b) && row < |a|
    ensures row < |b| && b[row].observations == a[row].observations && b[row].responses == a[row].responses
            && b[row].issued == a[row].issued
  {
    hide RowStays;
    RowStaysWho(a[row], b[row]);
  }

  lemma OthersRecordNothing(w: World, e: Event, now: int, row: nat)
    requires ParentsPlanned(w) && row < |w.operations| && !e.Observed?
    ensures var v := Happen(w, e, now);
      && row < |v.operations| && v.operations[row].observations == w.operations[row].observations
      && v.operations[row].responses == w.operations[row].responses
  {
    hide Submit, ReconcileRow, ObserveRow, ActivateOperation, ManualCase, EndQuery, AssertFreshness, Revoke,
         RegisterSubject, RegisterApproval, SubmitCall, QueryCall, ClaimAction, ParentsPlanned, Create, ParentPlan,
         RegistryStays, RowsStay;
    match e
    case Activated(application, key, controller, dispatch) =>
      ActivationAppends(w, application, key, controller, dispatch, now);
    case Submitted(n, principal, permitted) => SubmitRecordsNothing(w, n, principal, permitted, now);
    case CaseRegistered(n, id) => CaseRecordsNothing(w, n, id, now);
    case Reconciled(namespace, key, recovery, supervisor, supported, timeoutSeconds) =>
      ReconcileRecordsNothing(w, namespace, key, recovery, supervisor, supported, timeoutSeconds, now);
    case QueryEnded(n, fence) => ClearRecordsNothing(w, n, fence);
    case ClaimRequest(parent, action) =>
      ClaimRequestStays(w, parent, action, now);
      StayingRow(w.operations, Happen(w, e, now).operations, row);
    case CreateParent(_, _) => RegistryRows(w, e, now);
    case SubmitWorker(_, _) => RegistryRows(w, e, now);
    case QueryWorker(_, _, _) => RegistryRows(w, e, now);
    case _ => RegistryRows(w, e, now);
  }

  /** Rows said and answered as before. */
  ghost predicate SaidAlike(a: seq<Operation>, b: seq<Operation>) {
    |a| <= |b| && forall n | 0 <= n < |a| :: b[n].observations == a[n].observations && b[n].responses == a[n].responses
  }

  lemma ActivationAppends(w: World, app: Application, key: string, controller: Principal, dispatch: bool, now: int)
    ensures var t := ActivateOperation(w, app, key, controller, dispatch, now);
            t.Ok? ==> SaidAlike(w.operations, t.value.0.operations)
  {
    hide Snapshot, NewOperation, ActivationFault, FindBySubject, OpenExternal;
  }

  lemma SubmitRecordsNothing(w: World, row: nat, controller: Principal, dispatch: bool, now: int)
    ensures SaidAlike(w.operations, OrElse(w, Submit(w, row, controller, dispatch, now)).operations)
  {
    hide PermitFault, CountCall, ReceiptFault;
  }

  lemma CaseRecordsNothing(w: World, row: nat, id: string, now: int)
    ensures SaidAlike(w.operations, OrElse(w, ManualCase(w, row, id, now)).operations)
  {
    hide ReceiptFault;
  }

  lemma ClearRecordsNothing(w: World, row: nat, fence: nat)
    ensures SaidAlike(w.operations, EndQuery(w, row, fence).operations)
  {
  }

  lemma ReconcileRecordsNothing(w: World, namespace: string, key: string, r: Recovery, supervisor: Principal,
                                supported: bool, timeoutSeconds: int, now: int)
    ensures SaidAlike(w.operations, OrElse(w, ReconcileRow(w, namespace, key, r, supervisor, supported, timeoutSeconds,
                                                           now)).operations)
  {
    hide ReconcileRow, Snapshot, Reserve;
    ReconcileShape(w, namespace, key, r, supervisor, supported, timeoutSeconds, now);
    var x := OrElse(w, ReconcileRow(w, namespace, key, r, supervisor, supported, timeoutSeconds, now));
    if x.operations != w.operations {
      ReserveRow(w.operations[r.row], timeoutSeconds, now);
    }
  }

  lemma ReserveRow(op: Operation, timeoutSeconds: int, now: int)
    requires Allowance(op, timeoutSeconds) > 0 && Snapshot(Reserve(op, timeoutSeconds, now), now).Ok?
    ensures var next := Snapshot(Reserve(op, timeoutSeconds, now), now).value;
      && next.observations == op.observations && next.responses == op.responses && next.who == op.who
  {
    hide Allowance, Elapsed, ReceiptFault;
  }

  // ----- what a recorded observation does to the parent -----

  /** A step resolved while its parent is active: it ends as its operation did, and is counted no longer. A failure
      fails the parent; the last success ends it; after any other it goes on. */
  ghost predicate StepConcluded(p: Workflow, v: Workflow, step: StepId, succeeded: bool)
    requires step in p.steps
  {
    var t := if succeeded then Succeeded else Unsuccessful(Failed, "EXTERNAL_OUTCOME_UNRESOLVED");
    var k := p.counters;
    && v.plan == p.plan && v.claims == p.claims && v.edges == p.edges
    && v.steps == p.steps[step := StepRow(StepDone(t), p.steps[step].attempts)]
    && v.counters == k.(activeSteps := k.activeSteps - 1, activeDispatches := k.activeDispatches - 1)
    && v.successes == p.successes + (if succeeded then [step] else [])
    && if !succeeded then
         v.state == Stopped(Failed) && v.error == Some(ExternalOutcomeUnresolved) && v.receipt.Some?
       else if forall s | s in p.steps && s != step :: p.steps[s].state == StepDone(Succeeded) then
         (v.state.Completed? || v.state.Blocked?) && v.receipt.Some?
       else v.state == p.state && v.error == p.error && v.receipt == p.receipt
  }

  lemma AdvanceConcludes(p: Workflow, op: Operation, ready: bool)
    requires op.who.application.step in p.steps && IsActive(p) && p.receipt.None? && p.plan.version == 3
    requires Confirmed(op.outcome) && !op.reconciliation && p.steps[op.who.application.step].state.StepRunning?
    ensures StepConcluded(p, AdvanceParent(p, op, ready), op.who.application.step, op.outcome.ConfirmedSucceeded?)
  {
    hide Outcomes;
    var step := op.who.application.step;
    var c := CloseExternal(p, step, op.outcome.ConfirmedSucceeded?);
    assert c.steps.Keys == p.steps.Keys;
    assert forall s | s in p.steps && s != step :: c.steps[s] == p.steps[s];
  }

  lemma AdvanceRests(p: Workflow, op: Operation, ready: bool)
    requires op.who.application.step in p.steps
    requires IsActive(p) && Confirmed(op.outcome) && !op.reconciliation ==>
             op.outcome.ConfirmedSucceeded? && p.steps[op.who.application.step].state == StepDone(Succeeded)
             && !AllSucceeded(p.steps)
    ensures AdvanceParent(p, op, ready) == p
  {
    hide AllSucceeded;
  }

  /** A decisive observation, the first of its operation, concludes its step on an active parent; any other leaves the
      parent as it is. */
  ghost predicate ParentAnswers(p: Workflow, op: Operation, next: Operation, o: Observation, ready: bool) {
    var step := op.who.application.step;
    && next.who == op.who && step in p.steps
    && if IsActive(p) && Decisive(o) && !Confirmed(op.outcome)
       then StepConcluded(p, AdvanceParent(p, next, ready), step, o.outcome == ConfirmedSucceeded)
       else AdvanceParent(p, next, ready) == p
  }

  lemma ObservedParent(w: World, row: nat, o: Observation, facts: Facts, through: Option<QueryClaim>, now: int,
                       ready: bool)
    requires Inv(w) && AllTold(w.operations) && Resolved(w) && row < |w.operations|
    requires Observe(w.operations[row], o, facts, through, now).Ok?
             && Observe(w.operations[row], o, facts, through, now).value != w.operations[row]
    ensures w.operations[row].who.application.job in w.parents
            && ParentAnswers(w.parents[w.operations[row].who.application.job], w.operations[row],
                             Observe(w.operations[row], o, facts, through, now).value, o, ready)
  {
    hide Inv, Evidenced, Observe, Table, GoodOperation, ParentOk, Grows, Parents, OutcomeTold, Tracks, Undecided,
         StepConcluded, AdvanceParent, AllSucceeded;
    var op, next := w.operations[row], Observe(w.operations[row], o, facts, through, now).value;
    InvTable(w);
    TableRow(w.operations, row);
    JobKnown(w, row);
    var job := op.who.application.job;
    var p := w.parents[job];
    InvParent(w, job);
    OperationTracked(w.operations, row, p);
    ObserveGood(op, o, facts, through, now);
    ObserveIsTold(op, o, facts, through, now);
    ObserveIsQuiet(op, o, facts, through, now);
    ObserveAdds(op, o, facts, through, now);
    TellsOutcome(op);
    TellsOutcome(next);
    GoodIsCoherent(next);
    ConfirmedIffDecided(op);
    ConfirmedIffDecided(next);
    if Confirmed(op.outcome) {
      GrowsOutcome(op, next);
      if IsActive(p) {
        assert StepResolved(w.parents, job, op.who.application.step);
        NotAllSucceeded(w.operations, job, p);
        TracksSucceeded(p.steps[op.who.application.step].state, op.outcome);
      }
      AdvanceRests(p, next, ready);
    } else {
      UndecidedLog(op.observations, o);
      FirstOutcome(next, op.observations, o);
      if IsActive(p) && Decisive(o) {
        FirstConfirmation(op, next, o);
        RunningUnresolved(w.operations, row, p);
        ActiveVersion(w.operations, job, p);
        AdvanceConcludes(p, next, ready);
      } else {
        AdvanceRests(p, next, ready);
      }
    }
  }

  lemma RunningUnresolved(ops: seq<Operation>, row: nat, p: Workflow)
    requires row < |ops| && Table(ops) && ParentOk(ops, ops[row].who.application.job, p) && !Confirmed(ops[row].outcome)
    ensures ops[row].who.application.step in p.steps && p.steps[ops[row].who.application.step].state.StepRunning?
  {
    hide Table, ParentOk, Confirmed;
    OperationTracked(ops, row, p);
  }

  lemma ActiveVersion(ops: seq<Operation>, job: string, p: Workflow)
    requires ParentOk(ops, job, p) && IsActive(p)
    ensures p.receipt.None? && p.plan.version == 3
  {
    hide Scheduled, Logged, Outcomes, OperationsOf, StepsTrack, CallsTally, Receivable, Counted, DistinctSteps;
  }

  /** In every reachable state an observation that is recorded concludes its step exactly when it is the first decisive
      one of its operation and the parent is active; every other, and every parent but its own, it leaves alone. */
  lemma ObservationConcludesIff(before: seq<Timed>, row: nat, o: Observation, facts: Facts,
                                through: Option<QueryClaim>, now: int)
    requires row < |History(before).operations|
    requires var w := History(before);
      var v := History(before + [Timed(Observed(row, o, facts, through), now)]);
      row < |v.operations| && v.operations[row].observations != w.operations[row].observations
    ensures var w := History(before);
      var v := History(before + [Timed(Observed(row, o, facts, through), now)]);
      var op := w.operations[row];
      var job, step := op.who.application.job, op.who.application.step;
      && job in w.parents && job in v.parents && v.parents == w.parents[job := v.parents[job]]
      && step in w.parents[job].steps
      && if IsActive(w.parents[job]) && Decisive(o) && Undecided(op.observations)
         then StepConcluded(w.parents[job], v.parents[job], step, o.outcome == ConfirmedSucceeded)
         else v.parents[job] == w.parents[job]
  {
    hide History, Inv, AllTold, Resolved, Happen, StepConcluded, Observe, ObserveRow, Settle, AdvanceParent,
         CompletionReady, RowsStay, RegistryStays, IsActive, Undecided, Evidenced, Table;
    var w, e := History(before), Timed(Observed(row, o, facts, through), now);
    HistoryTold(before);
    HistoryResolved(before);
    HistorySnoc(before, e);
    HappensAsObserved(w, row, o, facts, through, now);
    assert ObserveRow(w, row, o, facts, through, now).Ok?;
    ObserveShape(w, row, o, facts, through, now);
    var next := Observe(w.operations[row], o, facts, through, now).value;
    if next != w.operations[row] {
      var x, job := w.(operations := w.operations[row := next]), next.who.application.job;
      var ready := CompletionReady(x.operations, job, w.parents[job].plan);
      ObservedParent(w, row, o, facts, through, now, ready);
      CommittedSettle(x, job, AdvanceParent(w.parents[job], next, ready), now);
      OperationDecided(w, row);
    }
  }

  lemma OperationDecided(w: World, row: nat)
    requires Inv(w) && AllTold(w.operations) && row < |w.operations|
    ensures Confirmed(w.operations[row].outcome) <==> !Undecided(w.operations[row].observations)
  {
    hide Inv, Evidenced, Table, GoodOperation, Undecided;
    InvTable(w);
    TableRow(w.operations, row);
    DecidedBy(w.operations[row]);
  }

  // ----- queries -----

  /** The smaller of the time a query may take, the time asked for and the time left. */
  predicate IsAllowance(op: Operation, timeoutSeconds: int, reserved: int) {
    && reserved <= 30000 && reserved <= timeoutSeconds * 1000 && reserved <= 600000 - op.consumed.queryMs
    && (reserved == 30000 || reserved == timeoutSeconds * 1000 || reserved == 600000 - op.consumed.queryMs)
  }

  /** Whole seconds since the operation was created, up to a day. */
  function SecondsSince(who: Identity, now: int): nat {
    if now < who.createdAt then 0 else if now - who.createdAt >= 86400000 then 86400 else (now - who.createdAt) / 1000
  }

  /** A new request names the operation as its latest receipt has it; the operation is submitted and unresolved, and no
      query is out; queries, time, records, bytes and the parent's calls are left; and the clock has not gone back. */
  predicate Queryable(w: World, namespace: string, key: string, r: Recovery, supported: bool, timeoutSeconds: int,
                      now: int) {
    && Key(namespace, key) !in w.reconciles && r.row < |w.operations|
    && var op := w.operations[r.row];
      && r.operation == op.who.application.operation && r.profile == op.who.profile.digest
      && r.expectedSequence == op.sequence && !op.who.profile.manualOnly && op.reconciliation && supported
      && op.consumed.queryCalls < 20 && op.consumed.queryMs < 600000 && timeoutSeconds > 0
      && now - op.who.createdAt < 86400000 && op.consumed.elapsed <= SecondsSince(op.who, now)
      && op.consumed.records < 64 && op.consumed.bytes < 1048576
      && (op.claim.Some? ==> op.claim.value.deadline <= now)
      && op.who.application.job in w.parents
      && var p := w.parents[op.who.application.job]; p.counters.externalCalls < p.plan.budgets.externalCalls
  }

  /** The query's claim, its deadline as far off as the time reserved for it, all of which is charged. */
  ghost predicate QueryClaimed(op: Operation, next: Operation, timeoutSeconds: int, now: int) {
    && SaysSame(op, next) && next.claim.Some? && next.fence == op.fence + 1
    && var c, k := next.claim.value, op.consumed;
       && IsAllowance(op, timeoutSeconds, c.reserved) && c.reserved > 0
       && c == QueryClaim(op.fence + 1, k.queryCalls + 1, c.reserved, now + c.reserved)
       && next.issued == op.issued + [c]
       && next.consumed == k.(queryCalls := k.queryCalls + 1, queryMs := k.queryMs + c.reserved,
                              elapsed := SecondsSince(op.who, now))
  }

  /** One query more is claimed and counted on the parent, and a worker is about to ask; nothing else moves. */
  ghost predicate QueryWritten(w: World, v: World, namespace: string, key: string, r: Recovery, supervisor: Principal,
                               timeoutSeconds: int, now: int)
    requires r.row < |w.operations|
  {
    var op := w.operations[r.row];
    var job := op.who.application.job;
    && v == w.(reconciles := w.reconciles[Key(namespace, key) := ReconcileKey(r, supervisor)],
               operations := v.operations, parents := v.parents, querying := w.querying + {(r.row, op.fence + 1)})
    && |v.operations| == |w.operations| && v.operations == w.operations[r.row := v.operations[r.row]]
    && QueryClaimed(op, v.operations[r.row], timeoutSeconds, now) && job in w.parents
    && var p, m := w.parents[job], w.parents[job].counters;
       v.parents == w.parents[job := p.(counters := m.(externalCalls := m.externalCalls + 1,
                                                       recoveryQueryCalls := m.recoveryQueryCalls + 1))]
  }

  lemma ElapsedIs(who: Identity, now: int)
    ensures Elapsed(who, now) == SecondsSince(who, now)
    ensures Elapsed(who, now) < MAX_ELAPSED <==> now - who.createdAt < 86400000
  {
  }

  lemma AllowanceIs(op: Operation, timeoutSeconds: int)
    requires GoodOperation(op)
    ensures IsAllowance(op, timeoutSeconds, Allowance(op, timeoutSeconds))
    ensures op.consumed.queryMs < 600000 ==> (Allowance(op, timeoutSeconds) > 0 <==> timeoutSeconds > 0)
  {
    hide GoodOperation;
  }

  lemma QueryFaultIff(op: Operation, supported: bool, callsLeft: bool, timeoutSeconds: int, now: int)
    requires GoodOperation(op) && op.consumed.queryMs < 600000
    ensures QueryFault(op, supported, callsLeft, timeoutSeconds, now).None? <==>
            && op.permits == 1 && supported && op.consumed.records < 64 && op.consumed.bytes < 1048576
            && (op.claim.Some? ==> op.claim.value.deadline <= now) && callsLeft && timeoutSeconds > 0
  {
    hide GoodOperation, Allowance;
    AllowanceIs(op, timeoutSeconds);
  }

  lemma ReconciliationIff(op: Operation)
    requires GoodOperation(op)
    ensures op.reconciliation <==> op.permits == 1 && !(Confirmed(op.outcome) && !op.reconciliation)
  {
    hide WithinLimits, Reservations, Mirrored;
  }

  lemma QueryRow(op: Operation, timeoutSeconds: int, now: int)
    requires GoodOperation(op) && op.permits == 1 && QueriesLeft(op, now) && Allowance(op, timeoutSeconds) > 0
    ensures var t := Snapshot(Reserve(op, timeoutSeconds, now), now);
      && (t.Ok? <==> op.consumed.elapsed <= SecondsSince(op.who, now))
      && (t.Ok? ==>
          var next := t.value;
          && SaysSame(op, next) && next.claim.Some? && next.fence == op.fence + 1
          && next.claim.value == QueryClaim(op.fence + 1, op.consumed.queryCalls + 1, Allowance(op, timeoutSeconds),
                                            now + Allowance(op, timeoutSeconds))
          && next.issued == op.issued + [next.claim.value]
          && next.consumed == op.consumed.(queryCalls := op.consumed.queryCalls + 1,
                                           queryMs := op.consumed.queryMs + Allowance(op, timeoutSeconds),
                                           elapsed := SecondsSince(op.who, now)))
  {
    hide GoodOperation, Allowance, ReceiptFault, Elapsed, SecondsSince;
    ElapsedIs(op.who, now);
    ReserveGood(op, timeoutSeconds, now);
  }

  /** A reconcile request past the replay check, on one row. */
  lemma QueryGuards(w: World, namespace: string, key: string, r: Recovery, supervisor: Principal, supported: bool,
                    timeoutSeconds: int, now: int)
    requires r.row < |w.operations| && GoodOperation(w.operations[r.row])
    requires w.operations[r.row].who.application.job in w.parents
    ensures var t := ReconcileRow(w, namespace, key, r, supervisor, supported, timeoutSeconds, now);
      var op := w.operations[r.row];
      var noted := w.(reconciles := w.reconciles[Key(namespace, key) := ReconcileKey(r, supervisor)]);
      if Queryable(w, namespace, key, r, supported, timeoutSeconds, now) then
        && op.permits == 1 && QueriesLeft(op, now) && Allowance(op, timeoutSeconds) > 0
        && Snapshot(Reserve(op, timeoutSeconds, now), now).Ok?
        && t == Ok(ScheduleQuery(noted, r.row, Snapshot(Reserve(op, timeoutSeconds, now), now).value))
      else t.Err? || t.value == w || t.value == noted
  {
    hide GoodOperation, Allowance, Snapshot, Reserve, QueryFault, ScheduleQuery, Confirmed, Elapsed, SecondsSince;
    var op := w.operations[r.row];
    ReconciliationIff(op);
    ElapsedIs(op.who, now);
    if op.consumed.queryMs < 600000 {
      QueryFaultIff(op, supported, CallsLeft(w.parents[op.who.application.job]), timeoutSeconds, now);
      AllowanceIs(op, timeoutSeconds);
      if op.permits == 1 && QueriesLeft(op, now) && Allowance(op, timeoutSeconds) > 0 {
        QueryRow(op, timeoutSeconds, now);
      }
    }
  }

  lemma QueryIsWritten(w: World, namespace: string, key: string, r: Recovery, supervisor: Principal,
                       timeoutSeconds: int, now: int)
    requires r.row < |w.operations| && GoodOperation(w.operations[r.row])
             && w.operations[r.row].who.application.job in w.parents
    requires var op := w.operations[r.row];
      && op.permits == 1 && QueriesLeft(op, now) && Allowance(op, timeoutSeconds) > 0
      && Snapshot(Reserve(op, timeoutSeconds, now), now).Ok?
    ensures var noted := w.(reconciles := w.reconciles[Key(namespace, key) := ReconcileKey(r, supervisor)]);
      var next := Snapshot(Reserve(w.operations[r.row], timeoutSeconds, now), now).value;
      && next.who == w.operations[r.row].who
      && QueryWritten(w, ScheduleQuery(noted, r.row, next), namespace, key, r, supervisor, timeoutSeconds, now)
  {
    hide GoodOperation, Snapshot, Reserve, Allowance, QueriesLeft, IsAllowance, SecondsSince;
    var op := w.operations[r.row];
    AllowanceIs(op, timeoutSeconds);
    QueryRow(op, timeoutSeconds, now);
  }

  lemma ReconcileIff(w: World, namespace: string, key: string, r: Recovery, supervisor: Principal, supported: bool,
                     timeoutSeconds: int, now: int)
    requires Inv(w)
    ensures var v := OrElse(w, ReconcileRow(w, namespace, key, r, supervisor, supported, timeoutSeconds, now));
      if Queryable(w, namespace, key, r, supported, timeoutSeconds, now) then
        r.row < |w.operations| && QueryWritten(w, v, namespace, key, r, supervisor, timeoutSeconds, now)
      else v == w || v == w.(reconciles := w.reconciles[Key(namespace, key) := ReconcileKey(r, supervisor)])
  {
    hide Inv, GoodOperation, ReconcileRow, QueryWritten, Table, Snapshot, Reserve, Allowance, QueriesLeft,
         ScheduleQuery;
    if r.row < |w.operations| {
      InvTable(w);
      TableRow(w.operations, r.row);
      JobKnown(w, r.row);
      QueryGuards(w, namespace, key, r, supervisor, supported, timeoutSeconds, now);
      if Queryable(w, namespace, key, r, supported, timeoutSeconds, now) {
        QueryIsWritten(w, namespace, key, r, supervisor, timeoutSeconds, now);
      }
    } else {
      UnknownReconcile(w, namespace, key, r, supervisor, supported, timeoutSeconds, now);
    }
  }

  lemma UnknownReconcile(w: World, namespace: string, key: string, r: Recovery, supervisor: Principal, supported: bool,
                         timeoutSeconds: int, now: int)
    requires r.row >= |w.operations|
    ensures OrElse(w, ReconcileRow(w, namespace, key, r, supervisor, supported, timeoutSeconds, now)) == w
  {
  }

  /** In every reachable state a query is scheduled exactly for a new request that names the operation as it is, while
      it is unresolved, no query of it is out, and something is left of every budget; it is charged its whole
      allowance at once. Any other reconcile request at most keeps its key. */
  lemma QueryScheduledIff(before: seq<Timed>, namespace: string, key: string, r: Recovery, supervisor: Principal,
                          supported: bool, timeoutSeconds: int, now: int)
    ensures var w := History(before);
      var v := History(before + [Timed(Reconciled(namespace, key, r, supervisor, supported, timeoutSeconds), now)]);
      if Queryable(w, namespace, key, r, supported, timeoutSeconds, now) then
        r.row < |w.operations| && QueryWritten(w, v, namespace, key, r, supervisor, timeoutSeconds, now)
      else v == w || v == w.(reconciles := w.reconciles[Key(namespace, key) := ReconcileKey(r, supervisor)])
  {
    hide History, Inv, Happen, Queryable, QueryWritten, ReconcileRow;
    var e := Timed(Reconciled(namespace, key, r, supervisor, supported, timeoutSeconds), now);
    HistorySnoc(before, e);
    ReconcileIff(History(before), namespace, key, r, supervisor, supported, timeoutSeconds, now);
    ReconcileHappens(History(before), e.event, now);
  }

  lemma ReconcileHappens(w: World, e: Event, now: int)
    requires ParentsPlanned(w) && e.Reconciled?
    ensures Happen(w, e, now) == OrElse(w, ReconcileRow(w, e.namespace, e.reconcileKey, e.recovery, e.supervisor,
                                                        e.supported, e.timeoutSeconds, now))
  {
    hide ReconcileRow, ParentsPlanned;
  }

  // ----- activation -----

  /** The k-th step of the parent's plan stands for the operation applied for, waits, and has all it depends on; the
      parent has room for it. */
  ghost predicate StepWaits(p: Workflow, k: nat, app: Application, profile: string) {
    && WorkflowRequests.PlannedAt(p.plan, k, app.step) && (p.state.Pending? || p.state.Running?)
    && p.plan.steps[k].external ==
       Some(ExternalBinding(app.namespace, app.subject, app.operation, profile, app.approval, app.issuer))
    && app.step in p.steps && p.steps[app.step].state.StepPending?
    && (forall d | d in p.plan.steps[k].dependsOn :: d in p.steps && p.steps[d].state == StepDone(Succeeded))
    && p.steps[app.step].attempts < p.plan.steps[k].maxAttempts
    && p.counters.externalOperations < p.plan.budgets.externalOperations
    && p.counters.dispatchAttempts < p.plan.budgets.dispatchAttempts
    && p.counters.activeSteps < p.plan.budgets.concurrentSteps
  }

  /** Nothing holds the key, the subject or the approval; the approval is in force, and of this controller and subject;
      and the dispatch policy allows it. */
  ghost predicate Applicable(w: World, app: Application, key: string, controller: Principal, dispatch: bool, now: int) {
    && Key(app.namespace, key) !in w.activations
    && (forall n | 0 <= n < |w.operations| ::
          !HasSubject(w.operations[n], app.namespace, app.subject)
          && !HasApproval(w.operations[n], app.namespace, app.approval))
    && NamedAlike(w, app, controller.name) && InForce(w, app, now) && dispatch
    && app.job in w.parents && app.planDigest.plan == w.parents[app.job].plan
  }

  /** The parent with the step of a new operation running, counted four times over. */
  function StepStarted(p: Workflow, step: StepId): Workflow
    requires step in p.steps
  {
    var k := p.counters;
    p.(state := WorkflowState.Running, steps := p.steps[step := StepRow(StepRunning, p.steps[step].attempts + 1)],
       counters := k.(externalOperations := k.externalOperations + 1, dispatchAttempts := k.dispatchAttempts + 1,
                      activeDispatches := k.activeDispatches + 1, activeSteps := k.activeSteps + 1))
  }

  /** A new operation of its controller, under its subject's profile, with its first receipt and its step running. */
  ghost predicate OperationWritten(w: World, v: World, app: Application, key: string, controller: Principal, now: int) {
    && app.job in w.parents && app.step in w.parents[app.job].steps && Key(app.namespace, app.subject) in w.subjects
    && v == w.(operations := v.operations, parents := w.parents[app.job := StepStarted(w.parents[app.job], app.step)],
               activations := w.activations[Key(app.namespace, key) := ActivationKey(app, controller, |w.operations|)])
    && |v.operations| == |w.operations| + 1 && v.operations[..|w.operations|] == w.operations
    && var op := v.operations[|w.operations|];
       && op.who == Identity(|w.operations|, app, controller, w.subjects[Key(app.namespace, app.subject)].profile, now)
       && op.permits == 0 && op.sequence == 1 && op.observations == [] && op.issued == [] && op.cases == []
  }

  lemma StepWaitsIff(p: Workflow, k: nat, app: Application, profile: string)
    requires ParentPlan(p.plan) && WorkflowRequests.PlannedAt(p.plan, k, app.step)
    ensures FindStep(p.plan.steps, app.step) == Some(p.plan.steps[k])
    ensures StepWaits(p, k, app, profile) <==>
            var s := p.plan.steps[k];
            && s.external.Some? && s.kind.Dispatch? && Binds(s.external.value, app)
               && s.external.value.profile == profile
            && IsActive(p) && ExternallyReady(p, s) && !NoRoom(p, s)
  {
    hide FindStep, DistinctSteps;
    WorkflowRequests.FirstIsFound(p.plan, p.plan.steps, k);
    var s := p.plan.steps[k];
    assert s in p.plan.steps;
    assert s.external.Some? && Binds(s.external.value, app) && s.external.value.profile == profile ==>
           s.external == Some(ExternalBinding(app.namespace, app.subject, app.operation, profile, app.approval,
                                              app.issuer));
  }

  lemma UnusedApproval(w: World, app: Application)
    ensures (exists op :: op in w.operations && HasApproval(op, app.namespace, app.approval)) <==>
            exists n :: 0 <= n < |w.operations| && HasApproval(w.operations[n], app.namespace, app.approval)
  {
    if op :| op in w.operations && HasApproval(op, app.namespace, app.approval) {
      var n :| 0 <= n < |w.operations| && w.operations[n] == op;
    }
  }

  /** Why an activation of an unbound subject is refused, read off the records. */
  lemma ActivationFaultIff(w: World, app: Application, controller: Principal, dispatch: bool, now: int, k: nat)
    requires ApprovalsVetted(w) && app.job in w.parents && ParentPlan(w.parents[app.job].plan)
    requires WorkflowRequests.PlannedAt(w.parents[app.job].plan, k, app.step)
    ensures ActivationFault(w, app, controller, dispatch, now).None? <==>
            && NamedAlike(w, app, controller.name) && InForce(w, app, now) && dispatch
            && app.planDigest.plan == w.parents[app.job].plan
            && (forall n | 0 <= n < |w.operations| :: !HasApproval(w.operations[n], app.namespace, app.approval))
            && Key(app.namespace, app.subject) in w.subjects
            && StepWaits(w.parents[app.job], k, app, w.subjects[Key(app.namespace, app.subject)].profile.digest)
  {
    hide FindStep, NoRoom, ExternallyReady, ApprovalFault, InForce, ApprovalsVetted, StepWaits, HasApproval, ParentPlan,
         Binds;
    var parent := w.parents[app.job];
    VersionThree(parent.plan);
    UnusedApproval(w, app);
    ApprovalCarriesIff(w, app, controller, app.planDigest == PlanDigest(parent.plan), now);
    InForceDocumented(w, app, now);
    if Key(app.namespace, app.subject) in w.subjects {
      StepWaitsIff(parent, k, app, w.subjects[Key(app.namespace, app.subject)].profile.digest);
    } else {
      StepWaitsIff(parent, k, app, "");
    }
  }

  lemma VersionThree(plan: Plan)
    requires ParentPlan(plan)
    ensures plan.version == 3
  {
    hide DistinctSteps;
  }

  lemma InForceDocumented(w: World, app: Application, now: int)
    ensures InForce(w, app, now) ==>
            Key(app.namespace, app.approval) in w.approvals && Key(app.namespace, app.issuer) in w.issuers
  {
  }

  lemma NewRow(who: Identity, now: int)
    ensures var t := Snapshot(NewOperation(who), now);
      && t.Ok? && t.value.who == who && t.value.permits == 0 && t.value.sequence == 1 && t.value.observations == []
      && t.value.issued == [] && t.value.cases == []
  {
    ActivationGood(who, now);
  }

  lemma StartedStep(p: Workflow, step: StepId)
    requires step in p.steps
    ensures OpenExternal(p, step) == StepStarted(p, step)
  {
  }

  lemma WaitingStep(p: Workflow, k: nat, app: Application, profile: string)
    requires StepWaits(p, k, app, profile)
    ensures WorkflowRequests.PlannedAt(p.plan, k, app.step) && app.step in p.steps
  {
  }

  lemma OpensApplicable(w: World, app: Application, key: string, controller: Principal, dispatch: bool, now: int)
    requires Key(app.namespace, key) !in w.activations
             && FindBySubject(w.operations, app.namespace, app.subject).None?
    requires ActivationFault(w, app, controller, dispatch, now).None?
    requires app.job in w.parents && app.step in w.parents[app.job].steps
             && Key(app.namespace, app.subject) in w.subjects
    ensures var t := ActivateOperation(w, app, key, controller, dispatch, now);
      t.Ok? && t.value.1 == |w.operations| && OperationWritten(w, t.value.0, app, key, controller, now)
  {
    hide FindBySubject, ActivationFault, OpenExternal, StepStarted, Snapshot, NewOperation;
    NewRow(Identity(|w.operations|, app, controller, w.subjects[Key(app.namespace, app.subject)].profile, now), now);
    StartedStep(w.parents[app.job], app.step);
  }

  /** The application's subject has an operation already, of the same application and controller. */
  ghost predicate BoundAlike(w: World, app: Application, controller: Principal) {
    exists n :: 0 <= n < |w.operations| && HasSubject(w.operations[n], app.namespace, app.subject)
                && w.operations[n].who.application == app && w.operations[n].who.controller == controller
  }

  lemma RefusedActivation(w: World, app: Application, key: string, controller: Principal, dispatch: bool, now: int)
    requires Key(app.namespace, key) in w.activations
             || (FindBySubject(w.operations, app.namespace, app.subject).Some? && !BoundAlike(w, app, controller))
             || (FindBySubject(w.operations, app.namespace, app.subject).None?
                 && ActivationFault(w, app, controller, dispatch, now).Some?)
    ensures var t := ActivateOperation(w, app, key, controller, dispatch, now); t.Ok? ==> t.value.0 == w
  {
    hide FindBySubject, ActivationFault;
  }

  lemma UnplannedActivation(w: World, app: Application, controller: Principal, dispatch: bool, now: int)
    requires app.job !in w.parents
             || forall k: nat :: !WorkflowRequests.PlannedAt(w.parents[app.job].plan, k, app.step)
    ensures ActivationFault(w, app, controller, dispatch, now).Some?
  {
    hide FindStep, NoRoom, ExternallyReady, ApprovalFault, Documented, HasApproval;
    if app.job in w.parents {
      WorkflowRequests.PlannedIff(w.parents[app.job].plan, app.step);
    }
  }

  /** The application and the step it names fit. */
  ghost predicate Opens(w: World, app: Application, key: string, controller: Principal, dispatch: bool, now: int,
                        k: nat) {
    && Applicable(w, app, key, controller, dispatch, now)
    && Key(app.namespace, app.subject) in w.subjects && app.job in w.parents
    && StepWaits(w.parents[app.job], k, app, w.subjects[Key(app.namespace, app.subject)].profile.digest)
  }

  lemma SubjectFree(w: World, app: Application)
    ensures FindBySubject(w.operations, app.namespace, app.subject).None? <==>
            forall n | 0 <= n < |w.operations| :: !HasSubject(w.operations[n], app.namespace, app.subject)
  {
    hide FindBySubject;
  }

  lemma PlanOfParent(w: World, job: string)
    requires Inv(w) && job in w.parents
    ensures ParentPlan(w.parents[job].plan)
  {
    hide Inv, Kept, OperationsOf, StepsTrack, CallsTally, Receivable, Counted, ParentPlan;
    InvParent(w, job);
  }

  lemma OpenIff(w: World, app: Application, key: string, controller: Principal, dispatch: bool, now: int)
    requires Inv(w) && Vetted(w)
    ensures var t := ActivateOperation(w, app, key, controller, dispatch, now);
      && (forall k: nat | Opens(w, app, key, controller, dispatch, now, k) ::
            t.Ok? && t.value.1 == |w.operations| && OperationWritten(w, t.value.0, app, key, controller, now))
      && ((forall k: nat :: !Opens(w, app, key, controller, dispatch, now, k)) && !BoundAlike(w, app, controller) ==>
          t.Ok? ==> t.value.0 == w)
  {
    hide Inv, OperationWritten, ActivateOperation, FindBySubject, ActivationFault, StepWaits, InForce, NamedAlike,
         HasSubject, HasApproval, ParentPlan, BoundAlike, OperationsVetted, ApprovalsVetted;
    SubjectFree(w, app);
    forall k: nat | Opens(w, app, key, controller, dispatch, now, k)
      ensures var t := ActivateOperation(w, app, key, controller, dispatch, now);
        t.Ok? && t.value.1 == |w.operations| && OperationWritten(w, t.value.0, app, key, controller, now)
    {
      PlanOfParent(w, app.job);
      WaitingStep(w.parents[app.job], k, app, w.subjects[Key(app.namespace, app.subject)].profile.digest);
      ActivationFaultIff(w, app, controller, dispatch, now, k);
      OpensApplicable(w, app, key, controller, dispatch, now);
    }
    if (forall k: nat :: !Opens(w, app, key, controller, dispatch, now, k)) && !BoundAlike(w, app, controller) {
      if app.job in w.parents {
        PlanOfParent(w, app.job);
        if k: nat :| WorkflowRequests.PlannedAt(w.parents[app.job].plan, k, app.step) {
          ActivationFaultIff(w, app, controller, dispatch, now, k);
          assert !Opens(w, app, key, controller, dispatch, now, k);
        } else {
          UnplannedActivation(w, app, controller, dispatch, now);
        }
      } else {
        UnplannedActivation(w, app, controller, dispatch, now);
      }
      RefusedActivation(w, app, key, controller, dispatch, now);
    }
  }

  /** In every reachable state an activation opens an operation exactly when key, subject and approval are unused, the
      approval is in force and of this controller, subject and issuer, the dispatch policy allows it, and the plan's
      step is bound to it, waits, and has room. Any other changes nothing, unless it repeats the one the subject
      has. */
  lemma OperationOpensIff(before: seq<Timed>, app: Application, key: string, controller: Principal, dispatch: bool,
                          now: int)
    ensures var w := History(before);
      var v := History(before + [Timed(Activated(app, key, controller, dispatch), now)]);
      && (forall k: nat | Opens(w, app, key, controller, dispatch, now, k) ::
            OperationWritten(w, v, app, key, controller, now))
      && ((forall k: nat :: !Opens(w, app, key, controller, dispatch, now, k)) && !BoundAlike(w, app, controller) ==>
          v == w)
  {
    hide History, Inv, Vetted, Happen, Opens, OperationWritten, BoundAlike, ActivateOperation;
    var e := Timed(Activated(app, key, controller, dispatch), now);
    HistoryVetted(before);
    HistorySnoc(before, e);
    OpenIff(History(before), app, key, controller, dispatch, now);
    ActivationHappens(History(before), e.event, now);
  }

  lemma ActivationHappens(w: World, e: Event, now: int)
    requires ParentsPlanned(w) && e.Activated?
    ensures var t := ActivateOperation(w, e.application, e.key, e.controller, e.dispatch, now);
            Happen(w, e, now) == if t.Ok? then t.value.0 else w
  {
    hide ActivateOperation, ParentsPlanned;
  }
}
