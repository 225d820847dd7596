/** What an operation says follows from the observations it has recorded: its outcome, its conflicts, its provider id
    and what its evidence was charged to. */
module ExternalEvidence {
  import opened Wrappers
  import opened DependencyGraph
  import opened RuntimeWorkflow
  import opened Totals
  import opened WorkflowPlan
  import opened WorkflowScheduling
  import opened WorkflowLog
  import opened WorkflowRuns
  import opened ExternalOperation
  import opened ExternalReceipts
  import opened ExternalWorld
  import opened ExternalCounters
  import opened ExternalParents
  import opened ExternalInvariant
  import opened ExternalSteps
  import opened ExternalEndings
  import opened ExternalRuns
  import opened ExternalTheorems

  // ----- what a log of observations says -----

  /** The provider said what became of the operation. */
  predicate Decisive(o: Observation) {
    o.outcome == ConfirmedSucceeded || o.outcome == ConfirmedFailed || o.outcome == ConfirmedNotExecuted
  }

  ghost predicate FirstDecisive(log: seq<Observation>, i: nat) {
    i < |log| && Decisive(log[i]) && forall j | 0 <= j < i :: !Decisive(log[j])
  }

  ghost predicate Undecided(log: seq<Observation>) {
    forall o | o in log :: !Decisive(o)
  }

  /** The decisive observations with another outcome, in order. */
  function Against(log: seq<Observation>, outcome: Outcome): seq<Observation> {
    if log == [] then []
    else
      var last := log[|log| - 1];
      Against(log[..|log| - 1], outcome) + if Decisive(last) && last.outcome != outcome then [last] else []
  }

  /** The outcome is that of the first decisive observation, contradicted by every later one that says otherwise; before
      any, it is that of the last observation, and unknown if there is none. */
  ghost predicate OutcomeTold(op: Operation) {
    var log := op.observations;
    && (forall i: nat | FirstDecisive(log, i) ::
          op.outcome == log[i].outcome && op.conflicts == Against(log, log[i].outcome))
    && (Undecided(log) ==>
        op.conflicts == [] && op.outcome == if log == [] then Unknown else log[|log| - 1].outcome)
  }

  /** The provider's id is the first one told, and none was told differently. */
  ghost predicate ProviderTold(op: Operation) {
    && (forall o | o in op.observations && o.providerId.Some? :: op.providerId == o.providerId)
    && (op.providerId.Some? ==> exists o :: o in op.observations && o.providerId == op.providerId)
  }

  function ByAdapter(o: Observation): int { if o.manualCase.None? then 1 else 0 }
  function ByHand(o: Observation): int { if o.manualCase.Some? then 1 else 0 }
  function AdapterBytes(o: Observation): int { if o.manualCase.None? then o.bytes else 0 }
  function HandBytes(o: Observation): int { if o.manualCase.Some? then o.bytes else 0 }

  /** An adapter's observation is charged to the operation, and one made by hand to the one case it names. */
  ghost predicate EvidenceCharged(op: Operation) {
    var log := op.observations;
    && op.consumed.records == Total(log, ByAdapter) && op.consumed.bytes == Total(log, AdapterBytes)
    && (op.cases == [] ==> Total(log, ByHand) == Total(log, HandBytes) == 0)
    && (op.cases != [] ==>
        op.cases[0].records == Total(log, ByHand) && op.cases[0].bytes == Total(log, HandBytes))
    && (forall o | o in log && o.manualCase.Some? :: op.cases != [] && o.manualCase == Some(op.cases[0].id))
  }

  /** Observations are of this operation, and recorded once each. */
  ghost predicate RecordedOnce(op: Operation) {
    && (forall o | o in op.observations :: o.about == TargetOf(op.who))
    && (forall i, j | 0 <= i < j < |op.observations| :: op.observations[i].id != op.observations[j].id)
  }

  /** The whole of it, for an operation that has its permit; one that has none has heard nothing. */
  ghost predicate Evidenced(op: Operation) {
    && (op.permits > 0 ==> OutcomeTold(op))
    && (op.permits == 0 ==> op.observations == [] && op.conflicts == [] && op.outcome == Unobserved)
    && ProviderTold(op) && EvidenceCharged(op) && RecordedOnce(op)
  }

  // ----- what one more observation makes of it -----

  lemma AgainstNothing(log: seq<Observation>, outcome: Outcome)
    requires Undecided(log)
    ensures Against(log, outcome) == []
  {
    if log != [] {
      assert log[|log| - 1] in log;
      AgainstNothing(log[..|log| - 1], outcome);
    }
  }

  lemma {:induction false} SomeFirstDecisive(log: seq<Observation>) returns (i: nat)
    requires !Undecided(log)
    ensures FirstDecisive(log, i)
  {
    var last := |log| - 1;
    var front := log[..last];
    assert log == front + [log[last]];
    if Undecided(front) {
      assert forall j | 0 <= j < last :: front[j] in front && front[j] == log[j];
      i := last;
    } else {
      i := SomeFirstDecisive(front);
      assert forall j | 0 <= j <= i :: front[j] == log[j];
    }
  }

  lemma RecordedWords(op: Operation, o: Observation)
    ensures var r := Recorded(op, o);
      && r.observations == op.observations + [o]
      && r.conflicts == op.conflicts + (if Dispose(op, o).Conflicting? then [o] else [])
      && r.outcome == if Dispose(op, o).Accept? then o.outcome else op.outcome
  {
    hide ConsumedAfter, CasesAfter, ReconciliationAfter, Dispose;
  }

  lemma UndecidedLog(log: seq<Observation>, o: Observation)
    requires Undecided(log)
    ensures var all := log + [o];
      && (Undecided(all) <==> !Decisive(o)) && (Decisive(o) ==> FirstDecisive(all, |log|))
      && (forall i: nat | FirstDecisive(all, i) :: i == |log|) && Against(all, o.outcome) == []
  {
    var all := log + [o];
    assert all[..|log|] == log && all[|log|] == o;
    AgainstNothing(log, o.outcome);
    assert forall j | 0 <= j < |log| :: all[j] == log[j] && log[j] in log;
    assert forall p :: p in all <==> p in log || p == o;
  }

  lemma UndecidedThen(op: Operation, o: Observation)
    requires OutcomeTold(op) && WellFormed(o) && Undecided(op.observations)
    ensures OutcomeTold(Recorded(op, o))
  {
    hide Recorded, Undecided, FirstDecisive, Against;
    RecordedWords(op, o);
    UndecidedLog(op.observations, o);
    ConfirmedIffDecided(op);
  }

  lemma DecidedLog(log: seq<Observation>, o: Observation, f: nat)
    requires FirstDecisive(log, f)
    ensures var all := log + [o];
      && !Undecided(all) && (forall i: nat | FirstDecisive(all, i) :: i == f) && all[f] == log[f]
      && Against(all, log[f].outcome) ==
         Against(log, log[f].outcome) + if Decisive(o) && o.outcome != log[f].outcome then [o] else []
  {
    var all := log + [o];
    assert all[..|log|] == log && all[|log|] == o;
    assert forall j | 0 <= j < |log| :: all[j] == log[j];
    assert all[f] in all && FirstDecisive(all, f);
  }

  lemma DecidedThen(op: Operation, o: Observation)
    requires OutcomeTold(op) && !Undecided(op.observations)
    ensures OutcomeTold(Recorded(op, o))
  {
    hide Recorded, Undecided, FirstDecisive, Against;
    RecordedWords(op, o);
    var f := SomeFirstDecisive(op.observations);
    DecidedLog(op.observations, o, f);
    ConfirmedIffDecided(op);
  }

  lemma OutcomeThen(op: Operation, o: Observation)
    requires OutcomeTold(op) && WellFormed(o)
    ensures OutcomeTold(Recorded(op, o))
  {
    hide OutcomeTold, Recorded, WellFormed;
    if Undecided(op.observations) {
      UndecidedThen(op, o);
    } else {
      DecidedThen(op, o);
    }
  }

  lemma ProviderThen(op: Operation, o: Observation)
    requires ProviderTold(op) && (op.providerId.Some? ==> o.providerId == op.providerId)
    ensures ProviderTold(Recorded(op, o))
  {
    hide ConsumedAfter, CasesAfter, ReconciliationAfter, Dispose;
    var all := Recorded(op, o).observations;
    assert all == op.observations + [o] && all[|op.observations|] == o;
    assert forall p :: p in all <==> p in op.observations || p == o;
  }

  lemma EvidenceThen(op: Operation, o: Observation)
    requires EvidenceCharged(op)
    requires o.manualCase.Some? ==> |op.cases| == 1 && op.cases[0].id == o.manualCase.value
    ensures EvidenceCharged(Recorded(op, o))
  {
    hide ReconciliationAfter, Dispose, Total;
    var log := op.observations;
    assert Recorded(op, o).observations == log + [o];
    TotalAppend(log, o, ByAdapter);
    TotalAppend(log, o, AdapterBytes);
    TotalAppend(log, o, ByHand);
    TotalAppend(log, o, HandBytes);
    assert forall p :: p in log + [o] <==> p in log || p == o;
  }

  lemma RecordedOnceThen(op: Operation, o: Observation)
    requires RecordedOnce(op) && o.about == TargetOf(op.who) && forall p | p in op.observations :: p.id != o.id
    ensures RecordedOnce(Recorded(op, o))
  {
    hide ReconciliationAfter, Dispose, ConsumedAfter, CasesAfter;
    assert Recorded(op, o).observations == op.observations + [o];
  }

  /** Same words, same sense. */
  ghost predicate SaysSame(a: Operation, b: Operation) {
    && b.who == a.who && b.permits == a.permits && b.outcome == a.outcome && b.observations == a.observations
    && b.conflicts == a.conflicts && b.providerId == a.providerId && b.cases == a.cases
    && b.consumed.records == a.consumed.records && b.consumed.bytes == a.consumed.bytes
  }

  lemma SameIsTold(a: Operation, b: Operation)
    requires Evidenced(a) && SaysSame(a, b)
    ensures Evidenced(b)
  {
  }

  lemma SnapshotSays(op: Operation, now: int)
    requires Snapshot(op, now).Ok?
    ensures SaysSame(op, Snapshot(op, now).value)
  {
  }

  lemma NewIsTold(who: Identity)
    ensures Evidenced(NewOperation(who))
  {
  }

  lemma PermitIsTold(op: Operation)
    requires Evidenced(op) && op.permits == 0
    ensures Evidenced(Permit(op))
  {
  }

  lemma CaseIsTold(op: Operation, id: string)
    requires Evidenced(op) && op.cases == []
    ensures Evidenced(op.(cases := [Case(id, 0, 0)]))
  {
    hide Total;
  }

  lemma AdmissibleShape(op: Operation, o: Observation, facts: Facts, through: Option<QueryClaim>, now: int)
    requires GoodOperation(op) && Admissible(op, o, facts, through, now)
    ensures WellFormed(o) && o.about == TargetOf(op.who) && op.permits == 1
    ensures forall p | p in op.observations :: p.id != o.id
    ensures op.providerId.Some? ==> o.providerId == op.providerId
    ensures o.manualCase.Some? ==> |op.cases| == 1 && op.cases[0].id == o.manualCase.value
  {
    hide Coherent, Reservations, Mirrored, FindObservation, OverEvidenceBudget;
  }

  lemma ObserveAdmitted(op: Operation, o: Observation, facts: Facts, through: Option<QueryClaim>, now: int)
    requires GoodOperation(op) && Observe(op, o, facts, through, now).Ok?
    ensures Observe(op, o, facts, through, now).value != op ==> Admissible(op, o, facts, through, now)
    ensures Admissible(op, o, facts, through, now) ==>
            && Snapshot(Recorded(op, o), now).Ok?
            && SaysSame(Recorded(op, o), Observe(op, o, facts, through, now).value)
  {
    hide GoodOperation, FindObservation, OverEvidenceBudget, Recorded, Dispose, ManualFault, ObservationFault,
         ReceiptFault;
  }

  lemma ObserveIsTold(op: Operation, o: Observation, facts: Facts, through: Option<QueryClaim>, now: int)
    requires GoodOperation(op) && Evidenced(op) && Observe(op, o, facts, through, now).Ok?
    ensures Evidenced(Observe(op, o, facts, through, now).value)
  {
    hide GoodOperation, Observe, Admissible, Recorded, OutcomeTold, ProviderTold, EvidenceCharged, RecordedOnce;
    ObserveAdmitted(op, o, facts, through, now);
    var next := Observe(op, o, facts, through, now).value;
    if next != op {
      AdmissibleShape(op, o, facts, through, now);
      OutcomeThen(op, o);
      ProviderThen(op, o);
      EvidenceThen(op, o);
      RecordedOnceThen(op, o);
      RecordedPermits(op, o);
      SameIsTold(Recorded(op, o), next);
    }
  }

  lemma RecordedPermits(op: Operation, o: Observation)
    ensures Recorded(op, o).permits == op.permits && Recorded(op, o).who == op.who
  {
    hide ReconciliationAfter, Dispose, ConsumedAfter, CasesAfter;
  }

  lemma CaseRegistrationIsTold(op: Operation, id: string, now: int)
    requires Evidenced(op) && RegisterCase(op, id, now).Ok?
    ensures Evidenced(RegisterCase(op, id, now).value)
  {
    hide Evidenced, Snapshot, SaysSame;
    if op.cases == [] {
      CaseIsTold(op, id);
      SnapshotSays(op.(cases := [Case(id, 0, 0)]), now);
      SameIsTold(op.(cases := [Case(id, 0, 0)]), RegisterCase(op, id, now).value);
    }
  }

  lemma ReserveSays(op: Operation, timeoutSeconds: int, now: int)
    requires Allowance(op, timeoutSeconds) > 0 && Snapshot(Reserve(op, timeoutSeconds, now), now).Ok?
    ensures SaysSame(op, Snapshot(Reserve(op, timeoutSeconds, now), now).value)
  {
    hide Allowance, Elapsed, ReceiptFault;
  }

  lemma {:induction false} AttachSays(ops: seq<Operation>, job: string, r: ParentReceipt, now: int)
    requires AttachAll(ops, job, r, now).Ok?
    ensures var all := AttachAll(ops, job, r, now).value;
            |all| == |ops| && forall n | 0 <= n < |ops| :: SaysSame(ops[n], all[n])
  {
    hide ReceiptFault;
    if ops != [] {
      var last := |ops| - 1;
      AttachSays(ops[..last], job, r, now);
      assert forall n | 0 <= n < last :: ops[..last][n] == ops[n];
    }
  }

  // ----- every event keeps it -----

  ghost predicate AllTold(ops: seq<Operation>) {
    forall n | 0 <= n < |ops| :: Evidenced(ops[n])
  }

  lemma SettleTold(w: World, job: string, v: Workflow, now: int)
    requires job in w.parents && AllTold(w.operations)
    ensures AllTold(OrElse(w, Settle(w, job, v, now)).operations)
  {
    hide Evidenced, AttachAll, ParentReceiptValid, ParentReceiptOf, SaysSame;
    if w.parents[job].receipt.None? && v.receipt.Some? {
      var r := ParentReceiptOf(w.operations, job, v);
      if AttachAll(w.operations, job, r, now).Ok? {
        AttachSays(w.operations, job, r, now);
        var all := AttachAll(w.operations, job, r, now).value;
        forall n | 0 <= n < |all| ensures Evidenced(all[n]) {
          SameIsTold(w.operations[n], all[n]);
        }
      }
    }
  }

  lemma ObservedTold(w: World, row: nat, o: Observation, facts: Facts, through: Option<QueryClaim>, now: int)
    requires Inv(w) && AllTold(w.operations)
    ensures AllTold(OrElse(w, ObserveRow(w, row, o, facts, through, now)).operations)
  {
    hide Inv, Evidenced, Settle, CompletionReady, Observe, AdvanceParent, Table, GoodOperation;
    if row < |w.operations| && Observe(w.operations[row], o, facts, through, now).Ok? {
      InvTable(w);
      TableRow(w.operations, row);
      ObserveIsTold(w.operations[row], o, facts, through, now);
      var op := Observe(w.operations[row], o, facts, through, now).value;
      var next, job := w.(operations := w.operations[row := op]), op.who.application.job;
      if op != w.operations[row] && job in w.parents && op.who.application.step in w.parents[job].steps {
        var v := AdvanceParent(w.parents[job], op, CompletionReady(next.operations, job, w.parents[job].plan));
        SettleTold(next, job, v, now);
      }
    }
  }

  lemma ReconciledTold(w: World, namespace: string, key: string, r: Recovery, supervisor: Principal, supported: bool,
                       timeoutSeconds: int, now: int)
    requires AllTold(w.operations)
    ensures AllTold(OrElse(w,
                           ReconcileRow(w, namespace, key, r, supervisor, supported, timeoutSeconds, now)).operations)
  {
    hide Evidenced, Snapshot, QueriesLeft, Reserve, Allowance, SaysSame, CallsLeft;
    var t := ReconcileRow(w, namespace, key, r, supervisor, supported, timeoutSeconds, now);
    if t.Ok? && t.value.operations != w.operations {
      var op := w.operations[r.row];
      ReserveSays(op, timeoutSeconds, now);
      SameIsTold(op, Snapshot(Reserve(op, timeoutSeconds, now), now).value);
    }
  }

  lemma SubmittedTold(w: World, row: nat, controller: Principal, dispatch: bool, now: int)
    requires AllTold(w.operations)
    ensures AllTold(OrElse(w, Submit(w, row, controller, dispatch, now)).operations)
  {
    hide Evidenced, Snapshot, Permit, PermitFault, SaysSame;
    var t := Submit(w, row, controller, dispatch, now);
    if t.Ok? && t.value.operations != w.operations {
      var op := w.operations[row];
      PermitIsTold(op);
      SnapshotSays(Permit(op), now);
      SameIsTold(Permit(op), Snapshot(Permit(op), now).value);
    }
  }

  lemma ActivatedTold(w: World, app: Application, key: string, controller: Principal, dispatch: bool, now: int)
    requires AllTold(w.operations)
    ensures var t := ActivateOperation(w, app, key, controller, dispatch, now);
            t.Ok? ==> AllTold(t.value.0.operations)
  {
    hide Evidenced, Snapshot, NewOperation, ActivationFault, FindBySubject, SaysSame, OpenExternal;
    var t := ActivateOperation(w, app, key, controller, dispatch, now);
    if t.Ok? && t.value.0.operations != w.operations {
      ActivationNames(w, app, controller, dispatch, now);
      var who := Identity(|w.operations|, app, controller, w.subjects[Key(app.namespace, app.subject)].profile, now);
      NewIsTold(who);
      SnapshotSays(NewOperation(who), now);
      SameIsTold(NewOperation(who), Snapshot(NewOperation(who), now).value);
    }
  }

  lemma ClearSays(op: Operation, fence: nat)
    ensures SaysSame(op, ClearClaim(op, fence))
  {
  }

  lemma RegistryRows(w: World, e: Event, now: int)
    requires ParentsPlanned(w)
    requires e.FreshnessAsserted? || e.ApprovalRevoked? || e.SubjectRegistered? || e.ApprovalRegistered?
             || e.CreateParent? || e.SubmitWorker? || e.QueryWorker?
    ensures var v := Happen(w, e, now); v.operations == w.operations && v.permits == w.permits
  {
    hide ParentsPlanned, ClaimAction, ObserveRow, Submit, ReconcileRow, ActivateOperation, Create, ParentPlan,
         ManualCase, EndQuery;
  }

  lemma ClaimRequestTold(w: World, job: string, action: Action, now: int)
    requires ParentsPlanned(w) && AllTold(w.operations)
    ensures AllTold(OrElse(w, ClaimAction(w, job, action, now)).operations)
  {
    hide Evidenced, Settle, Step, CompletionReady;
    if job in w.parents {
      var parent := w.parents[job];
      SettleTold(w, job, Step(parent, action, CompletionReady(w.operations, job, parent.plan)), now);
    }
  }

  lemma EventTold(w: World, e: Event, now: int)
    requires Inv(w) && ParentsPlanned(w) && AllTold(w.operations)
    ensures AllTold(Happen(w, e, now).operations)
  {
    hide Inv, Evidenced, Submit, ReconcileRow, ObserveRow, ActivateOperation, RegisterCase, ClearClaim, AssertFreshness,
         Revoke, RegisterSubject, RegisterApproval, SubmitCall, QueryCall, ClaimAction, SaysSame, ParentsPlanned,
         Create, ParentPlan;
    match e
    case Activated(application, key, controller, dispatch) =>
      ActivatedTold(w, application, key, controller, dispatch, now);
    case Submitted(row, principal, permitted) => SubmittedTold(w, row, principal, permitted, now);
    case CaseRegistered(row, id) =>
      if row < |w.operations| && RegisterCase(w.operations[row], id, now).Ok? {
        CaseRegistrationIsTold(w.operations[row], id, now);
      }
    case Observed(row, observation, facts, through) => ObservedTold(w, row, observation, facts, through, now);
    case Reconciled(namespace, key, recovery, supervisor, supported, timeoutSeconds) =>
      ReconciledTold(w, namespace, key, recovery, supervisor, supported, timeoutSeconds, now);
    case QueryEnded(row, fence) =>
      if row < |w.operations| {
        ClearSays(w.operations[row], fence);
        SameIsTold(w.operations[row], ClearClaim(w.operations[row], fence));
      }
    case ClaimRequest(parent, action) =>
      ClaimRequestTold(w, parent, action, now);
    case _ => RegistryRows(w, e, now);
  }

  lemma {:induction false} HistoryTold(events: seq<Timed>)
    ensures AllTold(History(events).operations)
    decreases |events|
  {
    hide History, Inv, AllTold, Happen;
    if events == [] {
      EmptyHistory();
      NothingTold();
    } else {
      var before, last := events[..|events| - 1], events[|events| - 1];
      assert events == before + [last];
      HistoryTold(before);
      HistorySnoc(before, last);
      EventTold(History(before), last.event, last.now);
    }
  }

  lemma NothingTold()
    ensures AllTold(EMPTY.operations)
  {
  }

  // ----- resolved steps -----

  /** While a parent is active, the step of every operation whose outcome is confirmed has succeeded. */
  ghost predicate Resolved(w: World) {
    forall n | 0 <= n < |w.operations| && Confirmed(w.operations[n].outcome) ::
      StepResolved(w.parents, w.operations[n].who.application.job, w.operations[n].who.application.step)
  }

  ghost predicate StepResolved(parents: map<string, Workflow>, job: string, step: StepId) {
    job in parents && IsActive(parents[job]) ==>
      step in parents[job].steps && parents[job].steps[step].state == StepDone(Succeeded)
  }

  lemma AdvanceResolves(parent: Workflow, op: Operation, ready: bool)
    requires op.who.application.step in parent.steps && IsActive(parent) && Confirmed(op.outcome)
    requires !parent.steps[op.who.application.step].state.StepPending?
    requires Tracks(parent.steps[op.who.application.step].state, op.outcome)
    requires op.reconciliation ==> parent.steps[op.who.application.step].state == StepDone(Succeeded)
    ensures var v, step := AdvanceParent(parent, op, ready), op.who.application.step;
      && step in v.steps && (IsActive(v) ==> v.steps[step].state == StepDone(Succeeded))
      && (forall s | s in parent.steps && s != step :: s in v.steps && v.steps[s] == parent.steps[s])
  {
    hide Outcomes, AllSucceeded;
  }

  lemma AdvanceKeepsOthers(parent: Workflow, op: Operation, ready: bool)
    requires op.who.application.step in parent.steps
    ensures var v, step := AdvanceParent(parent, op, ready), op.who.application.step;
      && (IsActive(v) ==> IsActive(parent))
      && (forall s | s in parent.steps && s != step :: s in v.steps && v.steps[s] == parent.steps[s])
      && (!Confirmed(op.outcome) || op.reconciliation ==> v == parent)
  {
    hide Outcomes, AllSucceeded;
  }

  lemma ConfirmedIffDecided(op: Operation)
    requires OutcomeTold(op)
    ensures Confirmed(op.outcome) <==> !Undecided(op.observations)
  {
    var log := op.observations;
    if !Undecided(log) {
      var f := SomeFirstDecisive(log);
    } else if log != [] {
      assert log[|log| - 1] in log;
    }
  }

  /** An observation that makes an outcome confirmed leaves nothing to reconcile. */
  lemma FirstConfirmation(before: Operation, op: Operation, o: Observation)
    requires OutcomeTold(before) && OutcomeTold(op) && op.observations == before.observations + [o]
    requires Coherent(op) && Confirmed(op.outcome) && !Confirmed(before.outcome)
    ensures !op.reconciliation
  {
    var log, all := before.observations, op.observations;
    ConfirmedIffDecided(before);
    ConfirmedIffDecided(op);
    assert all[..|log|] == log && all[|log|] == o;
    assert forall p :: p in all <==> p in log || p == o;
    assert forall j | 0 <= j < |log| :: all[j] == log[j] && log[j] in log;
    assert FirstDecisive(all, |log|);
    AgainstNothing(log, o.outcome);
  }

  lemma ObserveAdds(op: Operation, o: Observation, facts: Facts, through: Option<QueryClaim>, now: int)
    requires GoodOperation(op) && Observe(op, o, facts, through, now).Ok?
    ensures var next := Observe(op, o, facts, through, now).value;
            next != op ==> next.observations == op.observations + [o] && op.permits == 1 && next.permits == 1
  {
    hide GoodOperation, Observe, Recorded, Admissible;
    ObserveAdmitted(op, o, facts, through, now);
    if Observe(op, o, facts, through, now).value != op {
      AdmissibleShape(op, o, facts, through, now);
      RecordedApart(op, o);
      RecordedPermits(op, o);
    }
  }

  lemma SettleResolved(w: World, job: string, v: Workflow, now: int)
    requires job in w.parents
    ensures var x := OrElse(w, Settle(w, job, v, now));
      && |x.operations| == |w.operations|
      && (forall n | 0 <= n < |w.operations| ::
            x.operations[n].who == w.operations[n].who && x.operations[n].outcome == w.operations[n].outcome)
      && (x == w || x.parents == w.parents[job := v])
  {
    hide AttachAll, ParentReceiptValid, ParentReceiptOf;
    if w.parents[job].receipt.None? && v.receipt.Some? {
      var r := ParentReceiptOf(w.operations, job, v);
      if AttachAll(w.operations, job, r, now).Ok? {
        AttachSays(w.operations, job, r, now);
      }
    }
  }

  lemma CommittedSettle(w: World, job: string, v: Workflow, now: int)
    requires job in w.parents && Settle(w, job, v, now).Ok?
    ensures Settle(w, job, v, now).value.parents == w.parents[job := v]
  {
    hide AttachAll, ParentReceiptValid, ParentReceiptOf;
  }

  /** A recorded observation that confirms an outcome closes its step, or ends the parent. */
  lemma ObservedResolved(w: World, row: nat, o: Observation, facts: Facts, through: Option<QueryClaim>, now: int)
    requires Inv(w) && AllTold(w.operations) && Resolved(w)
    ensures Resolved(OrElse(w, ObserveRow(w, row, o, facts, through, now)))
  {
    hide Inv, Evidenced, Settle, CompletionReady, Observe, AdvanceParent, Table, GoodOperation, ParentOk, Grows,
         Parents,
         Confirmed, IsActive;
    if ObserveRow(w, row, o, facts, through, now).Ok? && Observe(w.operations[row], o, facts, through, now).Ok? {
      var before, op := w.operations[row], Observe(w.operations[row], o, facts, through, now).value;
      if op != before {
        var next, job := w.(operations := w.operations[row := op]), op.who.application.job;
        ObservedRow(w, row, o, facts, through, now);
        var parent := w.parents[job];
        var v := AdvanceParent(parent, op, CompletionReady(next.operations, job, parent.plan));
        SettleResolved(next, job, v, now);
        CommittedSettle(next, job, v, now);
        var x := Settle(next, job, v, now).value;
        forall n | 0 <= n < |x.operations| && Confirmed(x.operations[n].outcome)
          ensures StepResolved(x.parents, x.operations[n].who.application.job, x.operations[n].who.application.step)
        {
          ObservedStep(w, row, op, v, n);
        }
      }
    }
  }

  /** What a recorded observation finds and leaves. */
  lemma ObservedRow(w: World, row: nat, o: Observation, facts: Facts, through: Option<QueryClaim>, now: int)
    requires Inv(w) && AllTold(w.operations) && Resolved(w) && row < |w.operations|
    requires Observe(w.operations[row], o, facts, through, now).Ok?
             && Observe(w.operations[row], o, facts, through, now).value != w.operations[row]
    ensures var op := Observe(w.operations[row], o, facts, through, now).value;
      var job, step := op.who.application.job, op.who.application.step;
      && op.who == w.operations[row].who && job in w.parents && step in w.parents[job].steps
      && var v := AdvanceParent(w.parents[job], op,
                                CompletionReady(w.operations[row := op], job, w.parents[job].plan));
        ParentFollows(w.parents[job], v, step, Confirmed(op.outcome))
  {
    hide Inv, Evidenced, CompletionReady, Observe, AdvanceParent, Table, GoodOperation, ParentOk, Grows, Parents,
         Confirmed,
         IsActive, Tracks, OutcomeTold;
    InvTable(w);
    TableRow(w.operations, row);
    ObserveGood(w.operations[row], o, facts, through, now);
    ObserveIsQuiet(w.operations[row], o, facts, through, now);
    ObserveIsTold(w.operations[row], o, facts, through, now);
    ObserveAdds(w.operations[row], o, facts, through, now);
    var before, op := w.operations[row], Observe(w.operations[row], o, facts, through, now).value;
    QuietRowKeeps(w, row, op);
    var next, job := w.(operations := w.operations[row := op]), op.who.application.job;
    InvTable(next);
    JobKnown(next, row);
    InvParent(next, job);
    OperationTracked(next.operations, row, next.parents[job]);
    var parent, ready := w.parents[job], CompletionReady(next.operations, job, w.parents[job].plan);
    AdvanceKeepsOthers(parent, op, ready);
    if Confirmed(op.outcome) && IsActive(parent) {
      TellsOutcome(before);
      TellsOutcome(op);
      GoodIsCoherent(op);
      if !Confirmed(before.outcome) {
        FirstConfirmation(before, op, o);
      }
      AdvanceResolves(parent, op, ready);
    }
  }

  lemma TellsOutcome(op: Operation)
    requires Evidenced(op) && op.permits > 0
    ensures OutcomeTold(op)
  {
  }

  lemma GoodIsCoherent(op: Operation)
    requires GoodOperation(op)
    ensures Coherent(op)
  {
  }

  /** The parent is as it was but for one step, which has succeeded if the parent runs on and it was resolved. */
  ghost predicate ParentFollows(parent: Workflow, v: Workflow, step: StepId, resolved: bool) {
    && (IsActive(v) ==> IsActive(parent))
    && (forall s | s in parent.steps && s != step :: s in v.steps && v.steps[s] == parent.steps[s])
    && (resolved && IsActive(v) ==> step in v.steps && v.steps[step].state == StepDone(Succeeded))
  }

  lemma ObservedStep(w: World, row: nat, op: Operation, v: Workflow, n: nat)
    requires Inv(w) && Resolved(w) && row < |w.operations| && op.who == w.operations[row].who && n < |w.operations|
    requires var job := op.who.application.job;
      job in w.parents && ParentFollows(w.parents[job], v, op.who.application.step, Confirmed(op.outcome))
    requires Confirmed(if n == row then op.outcome else w.operations[n].outcome)
    ensures StepResolved(w.parents[op.who.application.job := v], w.operations[n].who.application.job,
                         w.operations[n].who.application.step)
  {
    hide Parents, Authority, Workers, GoodOperation, Confirmed, IsActive;
    var job := op.who.application.job;
    if n != row {
      assert StepResolved(w.parents, w.operations[n].who.application.job, w.operations[n].who.application.step);
      if w.operations[n].who.application.job == job {
        assert w.operations[n].who.application.step != op.who.application.step;
      }
    }
  }

  /** Rows whose outcomes stay, and parents whose steps do. */
  lemma SameStepsResolved(w: World, v: World)
    requires Resolved(w) && |w.operations| == |v.operations|
    requires forall n | 0 <= n < |w.operations| ::
               v.operations[n].who == w.operations[n].who
               && (Confirmed(v.operations[n].outcome) ==> Confirmed(w.operations[n].outcome))
    requires forall n | 0 <= n < |w.operations| ::
               w.operations[n].who.application.job in w.parents && w.operations[n].who.application.job in v.parents
    requires forall job | job in w.parents && job in v.parents ::
               v.parents[job].steps == w.parents[job].steps && (IsActive(v.parents[job]) ==> IsActive(w.parents[job]))
    ensures Resolved(v)
  {
    hide Confirmed, IsActive;
    forall n | 0 <= n < |v.operations| && Confirmed(v.operations[n].outcome)
      ensures StepResolved(v.parents, v.operations[n].who.application.job, v.operations[n].who.application.step)
    {
      assert StepResolved(w.parents, w.operations[n].who.application.job, w.operations[n].who.application.step);
    }
  }

  lemma JobsKnown(w: World)
    requires Inv(w)
    ensures forall n | 0 <= n < |w.operations| :: w.operations[n].who.application.job in w.parents
  {
    hide Table, ParentOk, ReceiptOk;
  }

  /** Calls counted on some parents, and outcomes confirmed nowhere anew. */
  ghost predicate CallsCounted(w: World, v: World) {
    && |v.operations| == |w.operations|
    && (forall n | 0 <= n < |w.operations| ::
          v.operations[n].who == w.operations[n].who
          && (v.operations[n].outcome == w.operations[n].outcome || v.operations[n].outcome == Unknown))
    && (v.parents == w.parents
        || exists job, query :: job in w.parents && v.parents == w.parents[job := CountCall(w.parents[job], query)])
  }

  lemma CountCallSteps(parent: Workflow, query: bool)
    ensures var p := CountCall(parent, query); p.steps == parent.steps && p.state == parent.state
  {
  }

  lemma CallsCountedResolved(w: World, v: World)
    requires Inv(w) && Resolved(w) && CallsCounted(w, v)
    ensures Resolved(v)
  {
    hide Inv, Resolved, CountCall;
    JobsKnown(w);
    forall parent, query ensures var p := CountCall(parent, query); p.steps == parent.steps && p.state == parent.state {
      CountCallSteps(parent, query);
    }
    SameStepsResolved(w, v);
  }

  lemma SubmitCounts(w: World, row: nat, controller: Principal, dispatch: bool, now: int)
    ensures CallsCounted(w, OrElse(w, Submit(w, row, controller, dispatch, now)))
  {
    hide PermitFault, Snapshot, CountCall, Permit;
    var t := Submit(w, row, controller, dispatch, now);
    if t.Ok? && t.value != w {
      var op := w.operations[row];
      PermitSays(op, now);
      FaultKnowsParent(w, op, controller, dispatch, now);
      assert t.value.parents
             == w.parents[op.who.application.job := CountCall(w.parents[op.who.application.job], false)];
    }
  }

  lemma FaultKnowsParent(w: World, op: Operation, controller: Principal, dispatch: bool, now: int)
    requires PermitFault(w, op, controller, dispatch, now).None?
    ensures op.who.application.job in w.parents
  {
    hide ApprovalFault;
  }

  lemma PermitSays(op: Operation, now: int)
    requires Snapshot(Permit(op), now).Ok?
    ensures var next := Snapshot(Permit(op), now).value; next.who == op.who && next.outcome == Unknown
  {
    hide ReceiptFault;
  }

  lemma ScheduleCounts(w: World, noted: World, row: nat, next: Operation)
    requires noted.operations == w.operations && noted.parents == w.parents && row < |w.operations|
    requires next.who == w.operations[row].who && next.outcome == w.operations[row].outcome
    requires next.who.application.job in w.parents
    ensures CallsCounted(w, ScheduleQuery(noted, row, next))
  {
    hide CountCall;
    var job := next.who.application.job;
    assert ScheduleQuery(noted, row, next).parents == w.parents[job := CountCall(w.parents[job], true)];
  }

  lemma ReconcileCounts(w: World, namespace: string, key: string, r: Recovery, supervisor: Principal,
                        supported: bool, timeoutSeconds: int, now: int)
    ensures CallsCounted(w, OrElse(w, ReconcileRow(w, namespace, key, r, supervisor, supported, timeoutSeconds, now)))
  {
    hide Snapshot, QueriesLeft, Reserve, Allowance, CallsLeft, CountCall, SaysSame, QueryFault, Confirmed,
         ScheduleQuery, CallsCounted;
    var t := ReconcileRow(w, namespace, key, r, supervisor, supported, timeoutSeconds, now);
    var noted := w.(reconciles := w.reconciles[Key(namespace, key) := ReconcileKey(r, supervisor)]);
    NothingCounted(w, w);
    NothingCounted(w, noted);
    if t.Ok? && t.value != w && t.value != noted {
      var op := w.operations[r.row];
      QueryAllowed(op, supported, CallsLeft(w.parents[op.who.application.job]), timeoutSeconds, now);
      ReserveSays(op, timeoutSeconds, now);
      var next := Snapshot(Reserve(op, timeoutSeconds, now), now).value;
      SaysOutcome(op, next);
      ScheduleCounts(w, noted, r.row, next);
    }
  }

  lemma NothingCounted(w: World, v: World)
    requires v.operations == w.operations && v.parents == w.parents
    ensures CallsCounted(w, v)
  {
  }

  lemma SaysOutcome(a: Operation, b: Operation)
    requires SaysSame(a, b)
    ensures b.who == a.who && b.outcome == a.outcome
  {
  }

  lemma ActivatedResolved(w: World, app: Application, key: string, controller: Principal, dispatch: bool, now: int)
    requires Inv(w) && Resolved(w)
    ensures var t := ActivateOperation(w, app, key, controller, dispatch, now); t.Ok? ==> Resolved(t.value.0)
  {
    hide Inv, Snapshot, NewOperation, ActivationFault, FindBySubject, Confirmed, IsActive, OpenExternal,
         ExternallyReady,
         GoodOperation;
    JobsKnown(w);
    var t := ActivateOperation(w, app, key, controller, dispatch, now);
    if t.Ok? && t.value.0.operations != w.operations {
      ActivationNames(w, app, controller, dispatch, now);
      ActivatedIsNew(Identity(|w.operations|, app, controller, w.subjects[Key(app.namespace, app.subject)].profile,
                              now),
                     now);
      ReadyIsPending(w.parents[app.job], FindStep(w.parents[app.job].plan.steps, app.step).value);
      OpensPending(w.parents[app.job], app.step);
      UnobservedIsOpen();
      AppendedResolved(w, t.value.0, app);
    }
  }

  lemma ReadyIsPending(parent: Workflow, step: PlanStep)
    requires ExternallyReady(parent, step)
    ensures step.id in parent.steps && parent.steps[step.id].state.StepPending?
  {
  }

  lemma AppendedResolved(w: World, v: World, app: Application)
    requires Resolved(w) && app.job in w.parents && app.step in w.parents[app.job].steps && IsActive(w.parents[app.job])
    requires |v.operations| == |w.operations| + 1 && !Confirmed(v.operations[|w.operations|].outcome)
    requires forall n | 0 <= n < |w.operations| :: v.operations[n] == w.operations[n]
    requires v.parents == w.parents[app.job := OpenExternal(w.parents[app.job], app.step)]
    requires forall s | s in w.parents[app.job].steps && w.parents[app.job].steps[s].state == StepDone(Succeeded) ::
               s in v.parents[app.job].steps && v.parents[app.job].steps[s] == w.parents[app.job].steps[s]
    ensures Resolved(v)
  {
    hide Confirmed, IsActive, OpenExternal;
    forall n | 0 <= n < |v.operations| && Confirmed(v.operations[n].outcome)
      ensures StepResolved(v.parents, v.operations[n].who.application.job, v.operations[n].who.application.step)
    {
      assert StepResolved(w.parents, w.operations[n].who.application.job, w.operations[n].who.application.step);
    }
  }

  lemma UnobservedIsOpen()
    ensures !Confirmed(Unobserved)
  {
  }

  lemma OpensPending(parent: Workflow, step: StepId)
    requires step in parent.steps && parent.steps[step].state.StepPending? && IsActive(parent)
    ensures forall s | s in parent.steps && parent.steps[s].state == StepDone(Succeeded) ::
              s in OpenExternal(parent, step).steps && OpenExternal(parent, step).steps[s] == parent.steps[s]
  {
  }

  lemma ClaimRequestResolved(w: World, job: string, action: Action, now: int)
    requires Inv(w) && ParentsPlanned(w) && Resolved(w)
    ensures Resolved(OrElse(w, ClaimAction(w, job, action, now)))
  {
    hide Inv, Settle, Step, CompletionReady, Confirmed, IsActive, ParentOk, RowContinues, SameDispatchSteps;
    if job in w.parents && ClaimAction(w, job, action, now).Ok? {
      var parent := w.parents[job];
      var ready := CompletionReady(w.operations, job, parent.plan);
      var v := Step(parent, action, ready);
      SettleResolved(w, job, v, now);
      CommittedSettle(w, job, v, now);
      StepContinues(parent, Request(action, ready));
      var x := Settle(w, job, v, now).value;
      forall n | 0 <= n < |x.operations| && Confirmed(x.operations[n].outcome)
        ensures StepResolved(x.parents, x.operations[n].who.application.job, x.operations[n].who.application.step)
      {
        var app := w.operations[n].who.application;
        assert StepResolved(w.parents, app.job, app.step);
        if app.job == job {
          DispatchStepStays(w, n, v);
        }
      }
    }
  }

  lemma DispatchStepStays(w: World, n: nat, v: Workflow)
    requires Inv(w) && n < |w.operations| && w.operations[n].who.application.job in w.parents
    requires SameDispatchSteps(w.parents[w.operations[n].who.application.job], v)
             && (IsActive(w.parents[w.operations[n].who.application.job])
                 || v == w.parents[w.operations[n].who.application.job])
    ensures var parent, step := w.parents[w.operations[n].who.application.job], w.operations[n].who.application.step;
      step in parent.steps && step in v.steps && v.steps[step] == parent.steps[step]
  {
    hide Table, Authority, Workers, Kept, StepsTrack, CallsTally, Receivable, Counted;
    var job := w.operations[n].who.application.job;
    assert ParentOk(w.operations, job, w.parents[job]);
    assert OperationOf(w.operations[n], w.parents[job]);
  }

  lemma CreatedResolved(w: World, job: string, plan: Plan)
    requires Inv(w) && Resolved(w) && job !in w.parents
    ensures Resolved(w.(parents := w.parents[job := Create(plan)]))
  {
    hide Inv, Create, Confirmed, IsActive;
    JobsKnown(w);
    forall n | 0 <= n < |w.operations| && Confirmed(w.operations[n].outcome)
      ensures StepResolved(w.parents[job := Create(plan)], w.operations[n].who.application.job,
                           w.operations[n].who.application.step)
    {
      assert StepResolved(w.parents, w.operations[n].who.application.job, w.operations[n].who.application.step);
    }
  }

  lemma CaseSays(op: Operation, id: string, now: int)
    requires RegisterCase(op, id, now).Ok?
    ensures var next := RegisterCase(op, id, now).value; next.who == op.who && next.outcome == op.outcome
  {
    hide ReceiptFault;
  }

  lemma RowEventCounts(w: World, e: Event, now: int)
    requires ParentsPlanned(w) && (e.CaseRegistered? || e.QueryEnded?)
    ensures CallsCounted(w, Happen(w, e, now))
  {
    hide ParentsPlanned, ClaimAction, ObserveRow, Submit, ReconcileRow, ActivateOperation, Create, ParentPlan,
         RegisterCase, ClearClaim;
    if e.CaseRegistered? {
      if e.caseRow < |w.operations| && RegisterCase(w.operations[e.caseRow], e.caseId, now).Ok? {
        CaseSays(w.operations[e.caseRow], e.caseId, now);
      }
    } else if e.endedRow < |w.operations| {
      ClearSays(w.operations[e.endedRow], e.endedFence);
    }
  }

  lemma RegistryParents(w: World, e: Event, now: int)
    requires ParentsPlanned(w)
    requires e.FreshnessAsserted? || e.ApprovalRevoked? || e.SubjectRegistered? || e.ApprovalRegistered?
             || e.SubmitWorker? || e.QueryWorker?
    ensures var v := Happen(w, e, now); v.operations == w.operations && v.parents == w.parents
  {
    hide ParentsPlanned, ClaimAction, ObserveRow, Submit, ReconcileRow, ActivateOperation, Create, ParentPlan,
         ManualCase, EndQuery;
  }

  lemma EventResolved(w: World, e: Event, now: int)
    requires Inv(w) && ParentsPlanned(w) && AllTold(w.operations) && Resolved(w)
    ensures Resolved(Happen(w, e, now))
  {
    hide Inv, Evidenced, Submit, ReconcileRow, ObserveRow, ActivateOperation, ManualCase, EndQuery, AssertFreshness,
         Revoke, RegisterSubject, RegisterApproval, SubmitCall, QueryCall, ClaimAction, ParentsPlanned, Create,
         ParentPlan, Resolved, CallsCounted, AllTold;
    match e
    case CreateParent(job, plan) => if job !in w.parents { CreatedResolved(w, job, plan); }
    case Activated(application, key, controller, dispatch) =>
      ActivatedResolved(w, application, key, controller, dispatch, now);
    case Submitted(row, principal, permitted) =>
      SubmitCounts(w, row, principal, permitted, now);
      CallsCountedResolved(w, Happen(w, e, now));
    case Observed(row, observation, facts, through) => ObservedResolved(w, row, observation, facts, through, now);
    case Reconciled(namespace, key, recovery, supervisor, supported, timeoutSeconds) =>
      ReconcileCounts(w, namespace, key, recovery, supervisor, supported, timeoutSeconds, now);
      CallsCountedResolved(w, Happen(w, e, now));
    case ClaimRequest(parent, action) => ClaimRequestResolved(w, parent, action, now);
    case CaseRegistered(_, _) =>
      RowEventCounts(w, e, now);
      CallsCountedResolved(w, Happen(w, e, now));
    case QueryEnded(_, _) =>
      RowEventCounts(w, e, now);
      CallsCountedResolved(w, Happen(w, e, now));
    case _ =>
      RegistryParents(w, e, now);
      SameResolved(w, Happen(w, e, now));
  }

  lemma SameResolved(w: World, v: World)
    requires Resolved(w) && v.operations == w.operations && v.parents == w.parents
    ensures Resolved(v)
  {
  }

  lemma {:induction false} HistoryResolved(events: seq<Timed>)
    ensures Resolved(History(events))
    decreases |events|
  {
    hide History, Inv, AllTold, Happen, Resolved;
    if events == [] {
      EmptyHistory();
      NothingResolved();
    } else {
      var before, last := events[..|events| - 1], events[|events| - 1];
      assert events == before + [last];
      HistoryResolved(before);
      HistoryTold(before);
      HistorySnoc(before, last);
      EventResolved(History(before), last.event, last.now);
    }
  }

  lemma NothingResolved()
    ensures Resolved(EMPTY)
  {
  }

  // ----- over every run -----

  /** In every reachable state an operation with its permit says what it was told: the outcome of the first decisive
      observation, against which every later one that says otherwise stands as a conflict, in order; before any, that of
      the last observation. So it is with the provider's id, and with what the evidence was charged to. One without a
      permit was told nothing. */
  lemma OutcomeIsTold(events: seq<Timed>, row: nat)
    requires row < |History(events).operations|
    ensures var op := History(events).operations[row];
      var log := op.observations;
      && (op.permits > 0 ==>
            && (forall i: nat | FirstDecisive(log, i) ::
                  op.outcome == log[i].outcome && op.conflicts == Against(log, log[i].outcome))
            && (Undecided(log) ==>
                op.conflicts == [] && op.outcome == if log == [] then Unknown else log[|log| - 1].outcome))
      && (op.permits == 0 ==> log == [] && op.outcome == Unobserved)
      && ProviderTold(op) && EvidenceCharged(op) && RecordedOnce(op)
      && (op.reconciliation <==> op.permits > 0 && (Undecided(log) || op.conflicts != []))
      && op.evidence == if op.permits == 0 then NotStarted else if op.providerId.Some? then ProviderAccepted
                        else PossiblySubmitted
  {
    hide History, Inv, FirstDecisive, Against, ProviderTold, EvidenceCharged, RecordedOnce, WithinLimits, Reservations,
         Mirrored, Undecided;
    HistoryTold(events);
    var op := History(events).operations[row];
    assert Evidenced(op);
    InvTable(History(events));
    TableRow(History(events).operations, row);
    if op.permits > 0 {
      ConfirmedIffDecided(op);
    }
  }

  /** In every reachable state, each operation of an active parent is resolved as its observations say: its step has
      succeeded exactly when the first decisive one confirmed success, and runs while there is none; there is no third
      case, for anything else ends the parent. */
  lemma StepsFollowEvidence(events: seq<Timed>, row: nat)
    requires row < |History(events).operations|
    ensures var w := History(events);
      var op := w.operations[row];
      var app := op.who.application;
      && app.job in w.parents
      && (IsActive(w.parents[app.job]) ==>
          && app.step in w.parents[app.job].steps
          && w.parents[app.job].steps[app.step].state ==
             (if Undecided(op.observations) then StepRunning else StepDone(Succeeded))
          && forall i: nat | FirstDecisive(op.observations, i) :: op.observations[i].outcome == ConfirmedSucceeded)
  {
    hide History, Inv, Evidenced, FirstDecisive, Undecided, OutcomeTold, Table, ParentOk, GoodOperation, ReceiptOk;
    var w := History(events);
    var op, job := w.operations[row], w.operations[row].who.application.job;
    HistoryTold(events);
    HistoryResolved(events);
    InvTable(w);
    TableRow(w.operations, row);
    JobKnown(w, row);
    InvParent(w, job);
    if IsActive(w.parents[job]) {
      OperationTracked(w.operations, row, w.parents[job]);
      ActiveStep(w.operations, row, w.parents[job]);
      assert StepResolved(w.parents, job, op.who.application.step) || !Confirmed(op.outcome);
      DecidedBy(op);
    }
  }

  lemma DecidedBy(op: Operation)
    requires Evidenced(op) && GoodOperation(op)
    ensures Confirmed(op.outcome) <==> !Undecided(op.observations)
    ensures forall i: nat | FirstDecisive(op.observations, i) ::
              i < |op.observations| && op.outcome == op.observations[i].outcome && Confirmed(op.outcome)
  {
    hide WithinLimits, Reservations, Mirrored, ProviderTold, EvidenceCharged, RecordedOnce;
    if op.permits > 0 {
      ConfirmedIffDecided(op);
    }
  }

  lemma ActiveStep(ops: seq<Operation>, row: nat, parent: Workflow)
    requires row < |ops| && ParentOk(ops, ops[row].who.application.job, parent) && IsActive(parent)
    requires ops[row].who.application.step in parent.steps
    ensures var s := parent.steps[ops[row].who.application.step].state; s.StepDone? ==> s == StepDone(Succeeded)
  {
    hide Logged, Ended, OperationsOf, StepsTrack, CallsTally, Receivable, Counted, AttemptsOrdered, ClaimsMatchSteps,
         SuccessesOrdered;
    if parent.steps[ops[row].who.application.step].state.StepDone? {
      DoneIsSucceeded(parent, ops[row].who.application.step);
    }
  }

  /** Whatever a completed parent bound to the outside, its provider confirmed: every external step has an operation
      with an observation of it, recorded under its permit, that says it succeeded, and none before that says
      otherwise. */
  lemma CompletionWasObserved(events: seq<Timed>, job: string, step: PlanStep)
    requires job in History(events).parents && History(events).parents[job].state.Completed?
    requires step in History(events).parents[job].plan.steps && step.external.Some?
    ensures var w := History(events);
      exists n: nat, i: nat ::
        && n < |w.operations| && HasStep(w.operations[n], job, step.id) && w.operations[n].permits == 1
        && FirstDecisive(w.operations[n].observations, i)
        && w.operations[n].observations[i].outcome == ConfirmedSucceeded
        && w.operations[n].observations[i].about == TargetOf(w.operations[n].who)
  {
    hide History, Inv, Evidenced, Undecided, OutcomeTold, Table, ParentOk, GoodOperation, ReceiptOk, FirstDecisive;
    var w := History(events);
    InvTable(w);
    InvParent(w, job);
    var n := CompletedStep(w.operations, job, w.parents[job], step);
    HistoryTold(events);
    TableRow(w.operations, n);
    var op := w.operations[n];
    DecidedBy(op);
    ToldShape(op);
    var i := SomeFirstDecisive(op.observations);
    FirstIsIn(op.observations, i);
  }

  lemma FirstIsIn(log: seq<Observation>, i: nat)
    requires FirstDecisive(log, i)
    ensures i < |log| && log[i] in log
  {
  }

  lemma ToldShape(op: Operation)
    requires Evidenced(op) && GoodOperation(op)
    ensures forall o | o in op.observations :: o.about == TargetOf(op.who)
    ensures Confirmed(op.outcome) ==> op.permits == 1
  {
    hide WithinLimits, Reservations, Mirrored, ProviderTold, EvidenceCharged, OutcomeTold;
  }

  lemma CompletedStep(ops: seq<Operation>, job: string, parent: Workflow, step: PlanStep) returns (n: nat)
    requires ParentOk(ops, job, parent) && parent.state.Completed? && step in parent.plan.steps && step.external.Some?
    ensures n < |ops| && HasStep(ops[n], job, step.id) && ops[n].outcome.ConfirmedSucceeded?
  {
    hide Logged, OperationsOf, CallsTally, Receivable, Counted, Scheduled, FindStep;
    CompletedIsAll(parent);
    PlannedDispatch(parent, step);
    assert HasOperation(ops, job, step.id);
    n :| 0 <= n < |ops| && HasStep(ops[n], job, step.id);
    assert Tracks(parent.steps[step.id].state, ops[n].outcome);
  }

  lemma CompletedIsAll(parent: Workflow)
    requires Kept(parent) && parent.state.Completed?
    ensures AllSucceeded(parent.steps)
  {
    hide Scheduled, Logged, Outcomes;
  }

  lemma PlannedDispatch(parent: Workflow, step: PlanStep)
    requires Kept(parent) && ParentPlan(parent.plan) && step in parent.plan.steps && step.external.Some?
    ensures step.id in parent.steps && IsDispatch(parent, step.id)
  {
    hide Logged, Ended, FindStep, ClaimsMatchSteps, StepsMatchClaims, SuccessesOrdered;
    var k :| 0 <= k < |parent.plan.steps| && parent.plan.steps[k] == step;
    FindStepUnique(parent.plan.steps, k);
  }
}
