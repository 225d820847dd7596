/** When the external-operation service issues a permit, opens an operation, records an observation or schedules a
    query: in every reachable state, exactly when the records say so. */
module ExternalRequests {
  import opened Wrappers
  import opened RuntimeWorkflow
  import opened WorkflowRuns
  import opened ExternalOperation
  import opened ExternalReceipts
  import opened ExternalWorld
  import opened ExternalInvariant
  import opened ExternalSteps
  import opened ExternalEndings
  import opened ExternalRuns
  import opened ExternalTheorems
  import opened ExternalEvidence

  // ----- what registration and activation have checked for good -----

  /** An approval is of its subject's operation, under its subject's policy. */
  ghost predicate ApprovalsVetted(w: World) {
    forall k | k in w.approvals ::
      var subject := Key(k.namespace, w.approvals[k].subject);
      && subject in w.subjects && w.subjects[subject].operation == w.approvals[k].operation
      && w.subjects[subject].policy == w.approvals[k].policy
  }

  /** The approval an application names is of the subject, operation, issuer and controller it names. */
  predicate NamedAlike(w: World, app: Application, controller: string) {
    var approval, subject := Key(app.namespace, app.approval), Key(app.namespace, app.subject);
    && approval in w.approvals && subject in w.subjects
    && var a := w.approvals[approval];
      && a.subject == app.subject && a.operation == app.operation && a.issuer == app.issuer
      && a.controller == controller
  }

  /** So it is of every operation, whose profile is its subject's. */
  ghost predicate OperationsVetted(w: World) {
    forall n | 0 <= n < |w.operations| ::
      var app, who := w.operations[n].who.application, w.operations[n].who;
      && NamedAlike(w, app, who.controller.name) && Key(app.namespace, app.issuer) in w.issuers
      && who.profile == w.subjects[Key(app.namespace, app.subject)].profile
  }

  ghost predicate Vetted(w: World) {
    ApprovalsVetted(w) && OperationsVetted(w)
  }

  /** The approval is in force: in its window, in its issuer's epoch, and its issuer heard of within thirty seconds. */
  predicate InForce(w: World, app: Application, now: int) {
    var approval, issuer := Key(app.namespace, app.approval), Key(app.namespace, app.issuer);
    && approval in w.approvals && issuer in w.issuers
    && var a, i := w.approvals[approval], w.issuers[issuer];
      && a.issuedAt <= now < a.expiresAt && a.epoch == i.epoch && i.freshness.Some?
      && i.freshness.value.observedAt <= now < i.freshness.value.validUntil
      && i.freshness.value.validUntil - i.freshness.value.observedAt <= 30000
  }

  lemma ApprovalCarriesIff(w: World, app: Application, controller: Principal, planned: bool, now: int)
    requires ApprovalsVetted(w)
    ensures ApprovalFault(w, app, controller, planned, now).None? <==>
            NamedAlike(w, app, controller.name) && planned && InForce(w, app, now)
  {
  }

  lemma VettedGrows(w: World, v: World)
    requires Vetted(w) && AuthorityGrows(w, v) && v.approvals.Keys == w.approvals.Keys
    requires |w.operations| == |v.operations|
             && forall n | 0 <= n < |w.operations| :: v.operations[n].who == w.operations[n].who
    ensures Vetted(v)
  {
    forall n | 0 <= n < |v.operations|
      ensures var app, who := v.operations[n].who.application, v.operations[n].who;
        && NamedAlike(v, app, who.controller.name) && Key(app.namespace, app.issuer) in v.issuers
        && who.profile == v.subjects[Key(app.namespace, app.subject)].profile
    {
      assert NamedAlike(w, w.operations[n].who.application, w.operations[n].who.controller.name);
    }
  }

  lemma RegisteredVetted(w: World, key: Key, a: Approval, now: int)
    requires Vetted(w)
    ensures Vetted(OrElse(w, RegisterApproval(w, key, a, now)))
  {
    var v := OrElse(w, RegisterApproval(w, key, a, now));
    forall n | 0 <= n < |v.operations|
      ensures NamedAlike(v, v.operations[n].who.application, v.operations[n].who.controller.name)
    {
      assert NamedAlike(w, w.operations[n].who.application, w.operations[n].who.controller.name);
    }
  }

  lemma ActivatedVetted(w: World, app: Application, key: string, controller: Principal, dispatch: bool, now: int)
    requires Vetted(w)
    ensures var t := ActivateOperation(w, app, key, controller, dispatch, now); t.Ok? ==> Vetted(t.value.0)
  {
    hide Snapshot, NewOperation, FindBySubject, ApprovalFault, OpenExternal, NamedAlike, ApprovalsVetted, FindStep,
         NoRoom, ExternallyReady;
    var t := ActivateOperation(w, app, key, controller, dispatch, now);
    if t.Ok? && t.value.0.operations != w.operations {
      var v := t.value.0;
      ActivationNames(w, app, controller, dispatch, now);
      ActivatedIsNew(Identity(|w.operations|, app, controller, w.subjects[Key(app.namespace, app.subject)].profile,
                              now),
                     now);
      ActivationApproved(w, app, controller, dispatch, now);
      AppendedVetted(w, v, app, controller);
    } else if t.Ok? {
      SameVetted(w, t.value.0);
    }
  }

  lemma ActivationApproved(w: World, app: Application, controller: Principal, dispatch: bool, now: int)
    requires Vetted(w) && ActivationFault(w, app, controller, dispatch, now).None?
    ensures NamedAlike(w, app, controller.name) && Key(app.namespace, app.issuer) in w.issuers
  {
    hide FindStep, NoRoom, ExternallyReady, NamedAlike, ApprovalFault, OperationsVetted, ApprovalsVetted;
    ApprovalCarriesIff(w, app, controller, app.planDigest == PlanDigest(w.parents[app.job].plan), now);
  }

  lemma AppendedVetted(w: World, v: World, app: Application, controller: Principal)
    requires Vetted(w) && v.approvals == w.approvals && v.subjects == w.subjects && v.issuers == w.issuers
    requires |v.operations| == |w.operations| + 1 && v.operations[..|w.operations|] == w.operations
    requires NamedAlike(w, app, controller.name) && Key(app.namespace, app.issuer) in w.issuers
    requires var who := v.operations[|w.operations|].who;
      who.application == app && who.controller == controller
      && who.profile == w.subjects[Key(app.namespace, app.subject)].profile
    ensures Vetted(v)
  {
    forall n | 0 <= n < |v.operations|
      ensures var app, who := v.operations[n].who.application, v.operations[n].who;
        && NamedAlike(v, app, who.controller.name) && Key(app.namespace, app.issuer) in v.issuers
        && who.profile == v.subjects[Key(app.namespace, app.subject)].profile
    {
      if n < |w.operations| {
        assert v.operations[..|w.operations|][n] == w.operations[n];
        assert NamedAlike(w, w.operations[n].who.application, w.operations[n].who.controller.name);
      }
    }
  }

  lemma SameVetted(w: World, v: World)
    requires Vetted(w) && v.approvals == w.approvals && v.subjects == w.subjects && v.issuers == w.issuers
    requires |v.operations| == |w.operations|
             && forall n | 0 <= n < |w.operations| :: v.operations[n].who == w.operations[n].who
    ensures Vetted(v)
  {
    VettedGrows(w, v);
  }

  // ----- what events leave alone -----

  /** Registration is as it was, and no operation has changed its identity. */
  ghost predicate RegistryStays(w: World, v: World) {
    && v.approvals == w.approvals && v.subjects == w.subjects && v.issuers == w.issuers
    && |v.operations| == |w.operations|
    && forall n | 0 <= n < |w.operations| :: v.operations[n].who == w.operations[n].who
  }

  /** The row says what it said, and has asked no more. */
  ghost predicate RowStays(a: Operation, b: Operation) {
    SaysSame(a, b) && b.issued == a.issued && b.responses == a.responses
  }

  ghost predicate RowsStay(a: seq<Operation>, b: seq<Operation>) {
    |a| == |b| && forall n | 0 <= n < |a| :: RowStays(a[n], b[n])
  }

  lemma RowItself(op: Operation)
    ensures RowStays(op, op)
  {
  }

  lemma RowsThemselves(ops: seq<Operation>)
    ensures RowsStay(ops, ops)
  {
    hide RowStays;
    forall n | 0 <= n < |ops| ensures RowStays(ops[n], ops[n]) {
      RowItself(ops[n]);
    }
  }

  lemma RowStaysWho(a: Operation, b: Operation)
    requires RowStays(a, b)
    ensures b.who == a.who && b.observations == a.observations && b.issued == a.issued && b.permits == a.permits
            && b.responses == a.responses
  {
  }

  lemma RowsStayWho(w: World, v: World)
    requires RowsStay(w.operations, v.operations)
    requires v.approvals == w.approvals && v.subjects == w.subjects && v.issuers == w.issuers
    ensures RegistryStays(w, v)
  {
    hide RowStays;
    forall n | 0 <= n < |w.operations| ensures v.operations[n].who == w.operations[n].who {
      RowStaysWho(w.operations[n], v.operations[n]);
    }
  }

  lemma AttachStays(op: Operation, job: string, r: ParentReceipt, now: int)
    requires AttachTerminal(op, job, r, now).Ok?
    ensures RowStays(op, AttachTerminal(op, job, r, now).value)
  {
    hide ReceiptFault;
  }

  lemma {:induction false} AttachAllStays(ops: seq<Operation>, job: string, r: ParentReceipt, now: int)
    requires AttachAll(ops, job, r, now).Ok?
    ensures RowsStay(ops, AttachAll(ops, job, r, now).value)
  {
    hide AttachTerminal, RowStays;
    if ops != [] {
      var last := |ops| - 1;
      AttachAllStays(ops[..last], job, r, now);
      AttachStays(ops[last], job, r, now);
      assert forall n | 0 <= n < last :: ops[..last][n] == ops[n];
    }
  }

  /** Settling a parent changes that parent, its receipt and what its operations have attached. */
  lemma SettleStays(w: World, job: string, v: Workflow, now: int)
    requires job in w.parents
    ensures var x := OrElse(w, Settle(w, job, v, now));
      RegistryStays(w, x) && x.permits == w.permits && RowsStay(w.operations, x.operations)
  {
    hide AttachAll, ParentReceiptValid, ParentReceiptOf, RowsStay, RegistryStays;
    RowsThemselves(w.operations);
    if w.parents[job].receipt.None? && v.receipt.Some? {
      var r := ParentReceiptOf(w.operations, job, v);
      if AttachAll(w.operations, job, r, now).Ok? {
        AttachAllStays(w.operations, job, r, now);
      }
    }
    RowsStayWho(w, OrElse(w, Settle(w, job, v, now)));
  }

  lemma ClaimRequestStays(w: World, job: string, action: Action, now: int)
    requires ParentsPlanned(w)
    ensures var x := OrElse(w, ClaimAction(w, job, action, now));
      RegistryStays(w, x) && x.permits == w.permits && RowsStay(w.operations, x.operations)
  {
    hide Settle, Step, CompletionReady, RowsStay, RegistryStays;
    RowsThemselves(w.operations);
    RowsStayWho(w, w);
    if job in w.parents {
      var parent := w.parents[job];
      SettleStays(w, job, Step(parent, action, CompletionReady(w.operations, job, parent.plan)), now);
    }
  }

  /** An observation that commits changes its row, and then settles the parent. */
  lemma ObserveShape(w: World, row: nat, o: Observation, facts: Facts, through: Option<QueryClaim>, now: int)
    requires ObserveRow(w, row, o, facts, through, now).Ok?
    ensures row < |w.operations| && Observe(w.operations[row], o, facts, through, now).Ok?
    ensures var op, t := Observe(w.operations[row], o, facts, through, now).value,
                         ObserveRow(w, row, o, facts, through, now);
      if op == w.operations[row] then t.value == w
      else
        var next, job := w.(operations := w.operations[row := op]), op.who.application.job;
        && job in w.parents && op.who.application.step in w.parents[job].steps
        && t == Settle(next, job, AdvanceParent(w.parents[job], op,
                                                CompletionReady(next.operations, job, w.parents[job].plan)), now)
  {
    hide Settle, CompletionReady, Observe, AdvanceParent;
  }

  /** The row as an observation leaves it, before its parent is settled. */
  lemma ObserveStays(w: World, row: nat, o: Observation, facts: Facts, through: Option<QueryClaim>, now: int)
    requires ObserveRow(w, row, o, facts, through, now).Ok?
    ensures var x := ObserveRow(w, row, o, facts, through, now).value;
      && RegistryStays(w, x) && x.permits == w.permits
      && row < |w.operations| && Observe(w.operations[row], o, facts, through, now).Ok?
      && RowsStay(w.operations[row := Observe(w.operations[row], o, facts, through, now).value], x.operations)
  {
    hide ObserveRow, Settle, CompletionReady, Observe, AdvanceParent, RowsStay, RegistryStays;
    ObserveShape(w, row, o, facts, through, now);
    var op := Observe(w.operations[row], o, facts, through, now).value;
    if op == w.operations[row] {
      assert w.operations[row := op] == w.operations;
      RowsThemselves(w.operations);
      RowsStayWho(w, w);
    } else {
      ObserveIsQuiet(w.operations[row], o, facts, through, now);
      var next, job := w.(operations := w.operations[row := op]), op.who.application.job;
      var v := AdvanceParent(w.parents[job], op, CompletionReady(next.operations, job, w.parents[job].plan));
      SettleStays(next, job, v, now);
      RegistryThen(w, next, Settle(next, job, v, now).value);
    }
  }

  lemma RegistryThen(w: World, next: World, v: World)
    requires |next.operations| == |w.operations| && RegistryStays(next, v)
    requires next == w.(operations := next.operations)
    requires forall n | 0 <= n < |w.operations| :: next.operations[n].who == w.operations[n].who
    ensures RegistryStays(w, v)
  {
  }

  lemma ObserveIssues(op: Operation, o: Observation, facts: Facts, through: Option<QueryClaim>, now: int)
    requires Observe(op, o, facts, through, now).Ok?
    ensures Observe(op, o, facts, through, now).value.issued == op.issued
  {
    hide ObservationFault, ManualFault, FindObservation, OverEvidenceBudget, CasesAfter, ReconciliationAfter,
         ReceiptFault, Dispose, ConsumedAfter;
  }

  // ----- registration and rows over runs -----

  lemma ReconcileShape(w: World, namespace: string, key: string, r: Recovery, supervisor: Principal, supported: bool,
                       timeoutSeconds: int, now: int)
    ensures var t := ReconcileRow(w, namespace, key, r, supervisor, supported, timeoutSeconds, now);
      var x := OrElse(w, t);
      && x.approvals == w.approvals && x.subjects == w.subjects && x.issuers == w.issuers && x.permits == w.permits
      && (x.operations == w.operations
          || (r.row < |w.operations| && Allowance(w.operations[r.row], timeoutSeconds) > 0
              && Snapshot(Reserve(w.operations[r.row], timeoutSeconds, now), now).Ok?
              && x.operations
                 == w.operations[r.row := Snapshot(Reserve(w.operations[r.row], timeoutSeconds, now), now).value]))
  {
    hide Snapshot, QueriesLeft, Reserve, CallsLeft, CountCall, Confirmed, Allowance;
  }

  lemma ReconcileVetted(w: World, namespace: string, key: string, r: Recovery, supervisor: Principal, supported: bool,
                        timeoutSeconds: int, now: int)
    requires Vetted(w)
    ensures var x := OrElse(w, ReconcileRow(w, namespace, key, r, supervisor, supported, timeoutSeconds, now));
            Vetted(x) && x.permits == w.permits
  {
    hide Snapshot, Reserve, Allowance, SaysSame, Vetted, ReconcileRow;
    ReconcileShape(w, namespace, key, r, supervisor, supported, timeoutSeconds, now);
    var x := OrElse(w, ReconcileRow(w, namespace, key, r, supervisor, supported, timeoutSeconds, now));
    if x.operations != w.operations {
      ReserveSays(w.operations[r.row], timeoutSeconds, now);
      SaysOutcome(w.operations[r.row], Snapshot(Reserve(w.operations[r.row], timeoutSeconds, now), now).value);
    }
    SameVetted(w, x);
  }

  lemma SubmitRegistry(w: World, row: nat, controller: Principal, dispatch: bool, now: int)
    ensures var x := OrElse(w, Submit(w, row, controller, dispatch, now));
      x.approvals == w.approvals && x.subjects == w.subjects && x.issuers == w.issuers
  {
    hide PermitFault, Snapshot, CountCall, Permit;
  }

  lemma SubmitVetted(w: World, row: nat, controller: Principal, dispatch: bool, now: int)
    requires Vetted(w)
    ensures Vetted(OrElse(w, Submit(w, row, controller, dispatch, now)))
  {
    hide Submit, Vetted, CountCall;
    SubmitRegistry(w, row, controller, dispatch, now);
    SubmitCounts(w, row, controller, dispatch, now);
    SameVetted(w, OrElse(w, Submit(w, row, controller, dispatch, now)));
  }

  lemma ManualCaseVetted(w: World, row: nat, id: string, now: int)
    requires Vetted(w)
    ensures var x := OrElse(w, ManualCase(w, row, id, now)); Vetted(x) && x.permits == w.permits
  {
    hide RegisterCase, Vetted;
    if row < |w.operations| && RegisterCase(w.operations[row], id, now).Ok? {
      CaseSays(w.operations[row], id, now);
    }
    SameVetted(w, OrElse(w, ManualCase(w, row, id, now)));
  }

  lemma EndQueryVetted(w: World, row: nat, fence: nat)
    requires Vetted(w)
    ensures Vetted(EndQuery(w, row, fence)) && EndQuery(w, row, fence).permits == w.permits
  {
    hide ClearClaim, Vetted;
    if row < |w.operations| {
      ClearSays(w.operations[row], fence);
    }
    SameVetted(w, EndQuery(w, row, fence));
  }

  lemma SubmitCallApart(w: World, row: nat, dies: bool)
    ensures var v := SubmitCall(w, row, dies); v == w.(submitting := v.submitting, calls := v.calls)
  {
    hide QueryCall, Happen, Vetted;
  }

  lemma QueryCallApart(w: World, row: nat, fence: nat, dies: bool)
    ensures var v := QueryCall(w, row, fence, dies); v == w.(querying := v.querying, calls := v.calls)
  {
    hide SubmitCall, Happen, Vetted;
  }

  lemma CallsVetted(w: World, row: nat, fence: nat, dies: bool)
    requires Vetted(w)
    ensures Vetted(SubmitCall(w, row, dies)) && SubmitCall(w, row, dies).permits == w.permits
    ensures Vetted(QueryCall(w, row, fence, dies)) && QueryCall(w, row, fence, dies).permits == w.permits
  {
    hide Vetted, SubmitCall, QueryCall;
    SubmitCallApart(w, row, dies);
    QueryCallApart(w, row, fence, dies);
    SameVetted(w, SubmitCall(w, row, dies));
    SameVetted(w, QueryCall(w, row, fence, dies));
  }

  lemma ParentsApart(w: World, parents: map<string, Workflow>)
    requires Vetted(w)
    ensures Vetted(w.(parents := parents))
  {
    hide Vetted;
    SameVetted(w, w.(parents := parents));
  }

  lemma RegistryVetted(w: World, e: Event, now: int)
    requires ParentsPlanned(w) && Vetted(w)
    requires e.FreshnessAsserted? || e.ApprovalRevoked? || e.SubjectRegistered?
    ensures Vetted(Happen(w, e, now)) && Happen(w, e, now).permits == w.permits
  {
    hide ParentsPlanned, ClaimAction, ObserveRow, Submit, ReconcileRow, ActivateOperation, Create, ParentPlan,
         ManualCase, EndQuery, Vetted, ApprovalsDated;
    match e {
      case FreshnessAsserted(issuer, epoch, freshness) => FreshnessGrows(w, issuer, epoch, freshness, now);
      case ApprovalRevoked(approval, issuer, epoch) => RevokeGrows(w, approval, issuer, epoch);
      case SubjectRegistered(key, subject) => SubjectGrows(w, key, subject);
    }
    VettedGrows(w, Happen(w, e, now));
  }

  /** Only a submit issues a permit. */
  lemma EventVetted(w: World, e: Event, now: int)
    requires ParentsPlanned(w) && Vetted(w)
    ensures Vetted(Happen(w, e, now)) && (!e.Submitted? ==> Happen(w, e, now).permits == w.permits)
  {
    hide Vetted, Submit, ReconcileRow, ObserveRow, ActivateOperation, ManualCase, EndQuery, AssertFreshness, Revoke,
         RegisterSubject, SubmitCall, QueryCall, ClaimAction, ParentsPlanned, Create, ParentPlan, RegistryStays,
         RowsStay;
    match e
    case ApprovalRegistered(key, approval) => RegisteredVetted(w, key, approval, now);
    case Activated(application, key, controller, dispatch) =>
      ActivatedVetted(w, application, key, controller, dispatch, now);
      ActivationPermits(w, application, key, controller, dispatch, now);
    case Submitted(row, principal, permitted) => SubmitVetted(w, row, principal, permitted, now);
    case Observed(row, observation, facts, through) =>
      if ObserveRow(w, row, observation, facts, through, now).Ok? {
        ObserveStays(w, row, observation, facts, through, now);
        RegistryStaysVetted(w, Happen(w, e, now));
      }
    case Reconciled(namespace, key, recovery, supervisor, supported, timeoutSeconds) =>
      ReconcileVetted(w, namespace, key, recovery, supervisor, supported, timeoutSeconds, now);
    case ClaimRequest(parent, action) =>
      ClaimRequestStays(w, parent, action, now);
      RegistryStaysVetted(w, Happen(w, e, now));
    case CaseRegistered(row, id) => ManualCaseVetted(w, row, id, now);
    case QueryEnded(row, fence) => EndQueryVetted(w, row, fence);
    case CreateParent(job, plan) => ParentsApart(w, w.parents[job := Create(plan)]);
    case SubmitWorker(row, dies) => CallsVetted(w, row, 0, dies);
    case QueryWorker(row, fence, dies) => CallsVetted(w, row, fence, dies);
    case _ => RegistryVetted(w, e, now);
  }

  lemma ActivationPermits(w: World, app: Application, key: string, controller: Principal, dispatch: bool, now: int)
    ensures var t := ActivateOperation(w, app, key, controller, dispatch, now); t.Ok? ==> t.value.0.permits == w.permits
  {
    hide Snapshot, NewOperation, ActivationFault, FindBySubject, OpenExternal;
  }

  lemma RegistryStaysVetted(w: World, v: World)
    requires Vetted(w) && RegistryStays(w, v)
    ensures Vetted(v)
  {
    SameVetted(w, v);
  }

  lemma {:induction false} HistoryVetted(events: seq<Timed>)
    ensures Vetted(History(events))
    decreases |events|
  {
    hide History, Inv, Vetted, Happen;
    if events == [] {
      EmptyHistory();
      NothingVetted();
    } else {
      var before, last := events[..|events| - 1], events[|events| - 1];
      assert events == before + [last];
      HistoryVetted(before);
      HistorySnoc(before, last);
      EventVetted(History(before), last.event, last.now);
    }
  }

  lemma NothingVetted()
    ensures Vetted(EMPTY)
  {
  }

  // ----- permits -----

  /** The operation's controller submits it for the first time, the dispatch policy allows it, its approval is in force,
      and its parent is active and has an external call left. */
  predicate Submittable(w: World, row: nat, principal: Principal, permitted: bool, now: int) {
    && row < |w.operations| && w.operations[row].who.controller == principal && w.operations[row].permits == 0
    && permitted && InForce(w, w.operations[row].who.application, now)
    && var job := w.operations[row].who.application.job;
      && job in w.parents && (w.parents[job].state.Pending? || w.parents[job].state.Running?)
      && w.parents[job].counters.externalCalls < w.parents[job].plan.budgets.externalCalls
  }

  /** The permit is on record, with what it was issued on, a worker is about to call the provider, and the call is
      counted on the parent; nothing else moves. */
  ghost predicate PermitWritten(w: World, v: World, row: nat, now: int)
    requires row < |w.operations|
  {
    var app := w.operations[row].who.application;
    && v == w.(permits := v.permits, submitting := w.submitting + {row}, operations := v.operations,
               parents := v.parents)
    && |v.permits| == |w.permits| + 1 && v.permits[..|w.permits|] == w.permits
    && Key(app.namespace, app.approval) in w.approvals && Key(app.namespace, app.issuer) in w.issuers
    && v.permits[|w.permits|] == PermitRecord(row, w.approvals[Key(app.namespace, app.approval)],
                                              w.issuers[Key(app.namespace, app.issuer)], now)
    && |v.operations| == |w.operations| && v.operations == w.operations[row := v.operations[row]]
    && v.operations[row].permits == 1 && v.operations[row].fence == w.operations[row].fence + 1
    && v.operations[row].who == w.operations[row].who && v.operations[row].observations == []
    && app.job in w.parents
    && var p, k := w.parents[app.job], w.parents[app.job].counters;
       v.parents == w.parents[app.job := p.(counters := k.(externalCalls := k.externalCalls + 1))]
  }

  lemma FaultFreeIff(w: World, row: nat, principal: Principal, permitted: bool, now: int)
    requires Vetted(w) && row < |w.operations| && w.operations[row].who.controller == principal
             && w.operations[row].permits == 0
    ensures PermitFault(w, w.operations[row], principal, permitted, now).None? <==>
            Submittable(w, row, principal, permitted, now)
  {
    hide ApprovalFault, InForce, ApprovalsVetted;
    var who := w.operations[row].who;
    ApprovalCarriesIff(w, who.application, principal, true, now);
  }

  lemma PermitIsWritten(w: World, row: nat, principal: Principal, permitted: bool, now: int)
    requires row < |w.operations| && GoodOperation(w.operations[row]) && w.operations[row].permits == 0
    requires w.operations[row].who.controller == principal
             && PermitFault(w, w.operations[row], principal, permitted, now).None?
    ensures Submit(w, row, principal, permitted, now).Ok?
            && PermitWritten(w, Submit(w, row, principal, permitted, now).value, row, now)
  {
    hide Snapshot, Permit, Grows, GoodOperation, FreshAt;
    var op := w.operations[row];
    PermitGood(op, now);
    PermitRow(op, now);
  }

  lemma PermitRow(op: Operation, now: int)
    requires GoodOperation(op) && op.permits == 0 && Snapshot(Permit(op), now).Ok?
    ensures var next := Snapshot(Permit(op), now).value;
      next.permits == 1 && next.fence == op.fence + 1 && next.who == op.who && next.observations == []
  {
    hide WithinLimits, Reservations, Mirrored, ReceiptFault;
  }

  lemma SubmitIff(w: World, row: nat, principal: Principal, permitted: bool, now: int)
    requires Inv(w) && Vetted(w)
    ensures var v := OrElse(w, Submit(w, row, principal, permitted, now));
      if Submittable(w, row, principal, permitted, now) then PermitWritten(w, v, row, now) else v == w
  {
    hide Inv, Vetted, PermitFault, Snapshot, PermitWritten, Table, GoodOperation;
    if row < |w.operations| {
      InvTable(w);
      TableRow(w.operations, row);
      if w.operations[row].who.controller == principal && w.operations[row].permits == 0 {
        FaultFreeIff(w, row, principal, permitted, now);
        if PermitFault(w, w.operations[row], principal, permitted, now).None? {
          PermitIsWritten(w, row, principal, permitted, now);
        }
      }
    }
  }

  /** In every reachable state a permit is issued by exactly one kind of event: a submit by the operation's controller,
      allowed by the dispatch policy, of an operation that has none yet, whose approval is in force, and whose parent is
      active with an external call left. All else that activation checked still holds; and any other submit changes
      nothing. */
  lemma PermitIssuedIff(before: seq<Timed>, e: Timed)
    ensures var w, v := History(before), History(before + [e]);
      && (|v.permits| > |w.permits| <==>
          e.event.Submitted? && Submittable(w, e.event.row, e.event.principal, e.event.permitted, e.now))
      && (|v.permits| > |w.permits| ==> PermitWritten(w, v, e.event.row, e.now))
      && (|v.permits| <= |w.permits| ==> v.permits == w.permits && (e.event.Submitted? ==> v == w))
  {
    hide History, Inv, Vetted, Happen, Submittable, PermitWritten;
    var w := History(before);
    HistoryVetted(before);
    HistorySnoc(before, e);
    EventVetted(w, e.event, e.now);
    if e.event.Submitted? {
      SubmitIff(w, e.event.row, e.event.principal, e.event.permitted, e.now);
      SubmitHappens(w, e.event, e.now);
      if Submittable(w, e.event.row, e.event.principal, e.event.permitted, e.now) {
        WrittenPermits(w, History(before + [e]), e.event.row, e.now);
      }
    }
  }

  /** What a first submit by its own controller is told if it is refused, in every reachable state: the approval is
      out of its window, or revoked, or its issuer not heard of lately; the parent is over; the dispatch policy
      forbids it; or no call is left. Nothing that activation checked can be amiss. */
  lemma SubmitRefusedAs(events: seq<Timed>, row: nat, permitted: bool, now: int)
    requires row < |History(events).operations| && History(events).operations[row].permits == 0
    ensures var w := History(events);
      var who, app := w.operations[row].who, w.operations[row].who.application;
      var approval, issuer := Key(app.namespace, app.approval), Key(app.namespace, app.issuer);
      && approval in w.approvals && issuer in w.issuers && app.job in w.parents
      && var a, i, p := w.approvals[approval], w.issuers[issuer], w.parents[app.job];
         var t := Submit(w, row, who.controller, permitted, now);
         t.Err? ==>
           t.error == if !(a.issuedAt <= now < a.expiresAt) then AuthorizationExpired
                      else if a.epoch != i.epoch then AuthorizationRevoked
                      else if !InForce(w, app, now) then FreshnessUnavailable
                      else if !(p.state.Pending? || p.state.Running?) then ParentNotReady
                      else if !permitted then AuthorizationRevoked
                      else RecoveryBudgetExhausted
  {
    hide History, Inv, Table, Parents, Authority, Workers, GoodOperation, Snapshot, Permit, ParentOk, ReceiptOk;
    var w := History(events);
    HistoryVetted(events);
    InvTable(w);
    TableRow(w.operations, row);
    JobKnown(w, row);
    PermitGood(w.operations[row], now);
    assert NamedAlike(w, w.operations[row].who.application, w.operations[row].who.controller.name);
  }

  lemma SubmitHappens(w: World, e: Event, now: int)
    requires ParentsPlanned(w) && e.Submitted?
    ensures Happen(w, e, now) == OrElse(w, Submit(w, e.row, e.principal, e.permitted, now))
    ensures Submittable(w, e.row, e.principal, e.permitted, now) ==> e.row < |w.operations|
  {
    hide Submit, ParentsPlanned;
  }

  lemma WrittenPermits(w: World, v: World, row: nat, now: int)
    requires row < |w.operations| && PermitWritten(w, v, row, now)
    ensures |v.permits| == |w.permits| + 1
  {
  }

  /** Once a parent is over, no later run issues a permit for any operation of it. */
  lemma {:induction false} NoPermitOnceOver(before: seq<Timed>, later: seq<Timed>, job: string, n: nat)
    requires job in History(before).parents && !IsActive(History(before).parents[job])
    requires |History(before).permits| <= n < |History(before + later).permits|
    ensures var v := History(before + later);
      v.permits[n].row < |v.operations| && v.operations[v.permits[n].row].who.application.job != job
    decreases |later|
  {
    hide History, Inv, Happen, RunEvents;
    assert later == [] ==> before + later == before;
    if later != [] {
      var front, last := later[..|later| - 1], later[|later| - 1];
      var events := before + front;
      assert before + later == events + [last];
      var w, v := History(events), History(events + [last]);
      PermitIssuedIff(events, last);
      SameIdentities(events, last);
      if n < |w.permits| {
        NoPermitOnceOver(before, front, job, n);
        PermitStays(w, v, last, n);
      } else {
        StaysOver(before, front, job);
        NewPermitRow(w, v, last);
      }
    }
  }

  lemma SameIdentities(events: seq<Timed>, e: Timed)
    ensures var w, v := History(events), History(events + [e]);
      && |w.operations| <= |v.operations|
      && forall n | 0 <= n < |w.operations| :: v.operations[n].who == w.operations[n].who
  {
    hide History, Inv, Happen, AuthorityGrows, PermitsCurrent, KeysStay, EndingsStay;
    var w := History(events);
    HistorySnoc(events, e);
    HappenEvolves(w, e.event, e.now);
    forall n | 0 <= n < |w.operations| ensures History(events + [e]).operations[n].who == w.operations[n].who {
      GrowsSameIdentity(w.operations[n], History(events + [e]).operations[n]);
    }
  }

  lemma PermitStays(w: World, v: World, e: Timed, n: nat)
    requires n < |w.permits| && |w.operations| <= |v.operations|
    requires v.permits == w.permits || (e.event.Submitted? && e.event.row < |w.operations|
                                        && PermitWritten(w, v, e.event.row, e.now))
    ensures n < |v.permits| && v.permits[n] == w.permits[n]
  {
    if v.permits != w.permits {
      assert v.permits[..|w.permits|][n] == w.permits[n];
    }
  }

  lemma NewPermitRow(w: World, v: World, e: Timed)
    requires e.event.Submitted? && Submittable(w, e.event.row, e.event.principal, e.event.permitted, e.now)
             && PermitWritten(w, v, e.event.row, e.now)
    ensures |v.permits| == |w.permits| + 1 && v.permits[|w.permits|].row == e.event.row
    ensures var app := w.operations[e.event.row].who.application;
            app.job in w.parents && IsActive(w.parents[app.job])
    ensures e.event.row < |v.operations| && v.operations[e.event.row].who == w.operations[e.event.row].who
  {
  }

  lemma StaysOver(before: seq<Timed>, more: seq<Timed>, job: string)
    requires job in History(before).parents && !IsActive(History(before).parents[job])
    ensures job in History(before + more).parents && !IsActive(History(before + more).parents[job])
  {
    hide Inv, Happen, RunEvents, AuthorityGrows, OperationsGrow, PermitsCurrent, KeysStay, ParentOk;
    var w := History(before);
    EmptyHolds();
    RunEventsAppends(EMPTY, before, more);
    InvParent(w, job);
    ParentKept(w.operations, job, w.parents[job]);
    assert EndingsStay(w, RunEvents(w, more));
  }
}
