/** Whole runs of the external-operation service: every interleaving of requests, provider calls and dying workers. */
module ExternalRuns {
  import opened Wrappers
  import opened DependencyGraph
  import opened RuntimeWorkflow
  import opened WorkflowRuns
  import opened ExternalOperation
  import opened ExternalReceipts
  import opened ExternalWorld
  import opened ExternalParents
  import opened ExternalInvariant
  import opened ExternalSteps
  import opened ExternalEndings

  lemma EmptyHolds()
    ensures Inv(EMPTY)
  {
  }

  lemma HappenKeeps(w: World, e: Event, now: int)
    requires Inv(w) && ParentsPlanned(w)
    ensures Inv(Happen(w, e, now))
  {
    hide Inv, ParentPlan, Create, Submit, ReconcileRow, ObserveRow, ClaimAction, ActivateOperation, ManualCase,
         AssertFreshness, Revoke,
         RegisterSubject, RegisterApproval, SubmitCall, QueryCall, EndQuery, SameTables, AuthorityGrows, ApprovalsDated;
    InvDated(w);
    match e
    case CreateParent(job, plan) => if job !in w.parents && ParentPlan(plan) { CreateParentKeeps(w, job, plan); }
    case FreshnessAsserted(issuer, epoch, freshness) =>
      FreshnessGrows(w, issuer, epoch, freshness, now);
      RegistryKeeps(w, OrElse(w, AssertFreshness(w, issuer, epoch, freshness, now)));
    case ApprovalRevoked(approval, issuer, epoch) =>
      RevokeGrows(w, approval, issuer, epoch);
      RegistryKeeps(w, OrElse(w, Revoke(w, approval, issuer, epoch)));
    case SubjectRegistered(key, subject) =>
      SubjectGrows(w, key, subject);
      RegistryKeeps(w, OrElse(w, RegisterSubject(w, key, subject)));
    case ApprovalRegistered(key, approval) =>
      ApprovalGrows(w, key, approval, now);
      RegistryKeeps(w, OrElse(w, RegisterApproval(w, key, approval, now)));
    case Activated(application, key, controller, dispatch) =>
        ActivationKeeps(w, application, key, controller, dispatch, now);
    case Submitted(row, principal, permitted) => SubmitKeeps(w, row, principal, permitted, now);
    case SubmitWorker(row, dies) => SubmitCallKeeps(w, row, dies);
    case CaseRegistered(row, id) => ManualCaseKeeps(w, row, id, now);
    case Observed(row, observation, facts, through) => ObserveKeeps(w, row, observation, facts, through, now);
    case Reconciled(namespace, key, recovery, supervisor, supported, timeoutSeconds) =>
      ReconcileKeeps(w, namespace, key, recovery, supervisor, supported, timeoutSeconds, now);
    case QueryWorker(row, fence, dies) => QueryCallKeeps(w, row, fence, dies);
    case QueryEnded(row, fence) => EndQueryKeeps(w, row, fence);
    case ClaimRequest(parent, action) => ClaimActionKeeps(w, parent, action, now);
  }

  // ----- what no event takes back -----

  ghost predicate OperationsGrow(a: seq<Operation>, b: seq<Operation>) {
    |a| <= |b| && forall n | 0 <= n < |a| :: Grows(a[n], b[n])
  }

  /** A permit issued since then names the issuer in an epoch no earlier than the one it had then. */
  ghost predicate PermitsCurrent(w: World, v: World) {
    && w.permits <= v.permits
    && forall k | |w.permits| <= k < |v.permits| && v.permits[k].row < |v.operations| ::
         var app := v.operations[v.permits[k].row].who.application;
         var issuer := Key(app.namespace, app.issuer);
         issuer in w.issuers ==> w.issuers[issuer].epoch <= v.permits[k].issuer.epoch
  }

  /** Keys once used keep their meaning. */
  ghost predicate KeysStay(w: World, v: World) {
    && (forall k | k in w.activations :: k in v.activations && v.activations[k] == w.activations[k])
    && (forall k | k in w.reconciles :: k in v.reconciles && v.reconciles[k] == w.reconciles[k])
  }

  /** A parent that is over keeps its state and its receipt. */
  ghost predicate EndingsStay(w: World, v: World) {
    && (forall job | job in w.receipts :: job in v.receipts && v.receipts[job] == w.receipts[job])
    && (forall job | job in w.parents ::
          && job in v.parents && v.parents[job].plan == w.parents[job].plan
          && (w.parents[job].receipt.Some? ==>
              v.parents[job].receipt == w.parents[job].receipt && v.parents[job].state == w.parents[job].state))
  }

  ghost predicate Evolves(w: World, v: World) {
    && AuthorityGrows(w, v) && OperationsGrow(w.operations, v.operations) && PermitsCurrent(w, v)
    && w.calls <= v.calls && KeysStay(w, v) && EndingsStay(w, v)
  }

  lemma EvolvesTransitive(a: World, b: World, c: World)
    requires Evolves(a, b) && Evolves(b, c) && Inv(b)
    ensures Evolves(a, c)
  {
    hide Table, Parents, Workers, Grows;
    forall n | 0 <= n < |a.operations| ensures Grows(a.operations[n], c.operations[n]) {
      GrowsTransitive(a.operations[n], b.operations[n], c.operations[n]);
    }
    forall k | |a.permits| <= k < |c.permits| && c.permits[k].row < |c.operations|
      ensures var app := c.operations[c.permits[k].row].who.application;
        var issuer := Key(app.namespace, app.issuer);
        issuer in a.issuers ==> a.issuers[issuer].epoch <= c.permits[k].issuer.epoch
    {
      if k < |b.permits| {
        assert PermitOk(b, b.permits[k]) && c.permits[k] == b.permits[k];
        GrowsSameIdentity(b.operations[b.permits[k].row], c.operations[b.permits[k].row]);
      }
    }
  }

  lemma StandsStill(w: World)
    ensures Evolves(w, w)
  {
  }

  /** A change to the registry only. */
  lemma RegistryEvolves(w: World, v: World)
    requires SameTables(w, v) && AuthorityGrows(w, v) && v.activations == w.activations && v.reconciles == w.reconciles
    ensures Evolves(w, v)
  {
  }

  /** A change to the operations that issues no permit. */
  lemma OperationsEvolve(w: World, v: World)
    requires v.issuers == w.issuers && v.subjects == w.subjects && v.approvals == w.approvals && v.permits == w.permits
    requires OperationsGrow(w.operations, v.operations) && w.calls <= v.calls && KeysStay(w, v) && EndingsStay(w, v)
    ensures Evolves(w, v)
  {
    hide Grows;
  }

  lemma RowEvolves(ops: seq<Operation>, row: nat, op: Operation)
    requires row < |ops| && Grows(ops[row], op)
    ensures OperationsGrow(ops, ops[row := op])
  {
  }

  lemma SubmitEvolves(w: World, row: nat, controller: Principal, dispatch: bool, now: int)
    requires Inv(w)
    ensures Evolves(w, OrElse(w, Submit(w, row, controller, dispatch, now)))
  {
    hide Inv, Snapshot, GoodOperation, Grows, Evolves;
    if row < |w.operations| && w.operations[row].who.controller == controller && w.operations[row].permits == 0
       && PermitFault(w, w.operations[row], controller, dispatch, now).None? {
      InvTable(w);
      TableRow(w.operations, row);
      PermitGood(w.operations[row], now);
      PermitMoves(w.operations[row], now);
      RowEvolves(w.operations, row, Snapshot(Permit(w.operations[row]), now).value);
      PermitEvolves(w, row, controller, dispatch, now);
    } else {
      StandsStill(w);
    }
  }

  lemma PermitEvolves(w: World, row: nat, controller: Principal, dispatch: bool, now: int)
    requires row < |w.operations| && w.operations[row].who.controller == controller && w.operations[row].permits == 0
    requires PermitFault(w, w.operations[row], controller, dispatch, now).None?
             && Snapshot(Permit(w.operations[row]), now).Ok?
    requires Snapshot(Permit(w.operations[row]), now).value.who == w.operations[row].who
    requires OperationsGrow(w.operations, w.operations[row := Snapshot(Permit(w.operations[row]), now).value])
    ensures Evolves(w, Submit(w, row, controller, dispatch, now).value)
  {
    hide Snapshot, OperationsGrow, FreshAt;
  }

  /** Counting a call changes no parent's state, plan or receipt. */
  lemma CountEndings(w: World, v: World, job: string, query: bool)
    requires job in w.parents && v.parents == w.parents[job := CountCall(w.parents[job], query)]
             && v.receipts == w.receipts
    ensures EndingsStay(w, v)
  {
  }

  lemma NotedKeys(w: World, v: World, k: Key, value: ReconcileKey)
    requires k !in w.reconciles && v.reconciles == w.reconciles[k := value] && v.activations == w.activations
    ensures KeysStay(w, v)
  {
  }

  lemma EndingsSame(w: World, v: World)
    requires v.parents == w.parents && v.receipts == w.receipts
    ensures EndingsStay(w, v)
  {
  }

  lemma QueryEvolves(w: World, noted: World, k: Key, value: ReconcileKey, row: nat, next: Operation)
    requires k !in w.reconciles && noted == w.(reconciles := w.reconciles[k := value])
    requires row < |w.operations| && Grows(w.operations[row], next) && next.who.application.job in w.parents
    ensures Evolves(w, ScheduleQuery(noted, row, next))
  {
    hide Grows, KeysStay, EndingsStay, OperationsGrow, Evolves, CountCall;
    var v := ScheduleQuery(noted, row, next);
    NotedKeys(w, v, k, value);
    CountEndings(w, v, next.who.application.job, true);
    RowEvolves(w.operations, row, next);
    OperationsEvolve(w, v);
  }

  lemma NotedEvolves(w: World, k: Key, value: ReconcileKey)
    requires k !in w.reconciles
    ensures Evolves(w, w.(reconciles := w.reconciles[k := value]))
  {
    hide KeysStay, EndingsStay, OperationsGrow, Evolves;
    var noted := w.(reconciles := w.reconciles[k := value]);
    NotedKeys(w, noted, k, value);
    EndingsSame(w, noted);
    OperationsStay(w.operations);
    OperationsEvolve(w, noted);
  }

  lemma ReconcileEvolves(w: World, namespace: string, key: string, r: Recovery, supervisor: Principal, supported: bool,
                         timeoutSeconds: int, now: int)
    requires Inv(w)
    ensures Evolves(w, OrElse(w, ReconcileRow(w, namespace, key, r, supervisor, supported, timeoutSeconds, now)))
  {
    hide Inv, GoodOperation, Grows, Snapshot, QueriesLeft, Reserve, Allowance, Evolves, ScheduleQuery;
    var t := ReconcileRow(w, namespace, key, r, supervisor, supported, timeoutSeconds, now);
    StandsStill(w);
    var k, value := Key(namespace, key), ReconcileKey(r, supervisor);
    if t.Ok? && t.value != w {
      var noted := w.(reconciles := w.reconciles[k := value]);
      NotedEvolves(w, k, value);
      if t.value != noted {
        var op := w.operations[r.row];
        InvTable(w);
        TableRow(w.operations, r.row);
        ReserveGood(op, timeoutSeconds, now);
        ReserveMoves(op, timeoutSeconds, now);
        QueryEvolves(w, noted, k, value, r.row, Snapshot(Reserve(op, timeoutSeconds, now), now).value);
      }
    }
  }

  lemma OperationsStay(ops: seq<Operation>)
    ensures OperationsGrow(ops, ops)
  {
  }

  lemma ActivationKeyStays(w: World, v: World, k: Key, value: ActivationKey)
    requires k !in w.activations && v.activations == w.activations[k := value] && v.reconciles == w.reconciles
    ensures KeysStay(w, v)
  {
  }

  lemma OpenEndings(w: World, v: World, job: string, step: StepId)
    requires job in w.parents && step in w.parents[job].steps && w.parents[job].receipt.None?
    requires v.parents == w.parents[job := OpenExternal(w.parents[job], step)] && v.receipts == w.receipts
    ensures EndingsStay(w, v)
  {
    OpenKeepsReceipt(w.parents[job], step);
  }

  /** An activation that finds its subject bound already only notes its key. */
  lemma ReactivationEvolves(w: World, k: Key, value: ActivationKey)
    requires k !in w.activations
    ensures Evolves(w, w.(activations := w.activations[k := value]))
  {
    hide Evolves, KeysStay, EndingsStay, OperationsGrow;
    var v := w.(activations := w.activations[k := value]);
    ActivationKeyStays(w, v, k, value);
    EndingsSame(w, v);
    OperationsStay(w.operations);
    OperationsEvolve(w, v);
  }

  lemma NewActivationEvolves(w: World, k: Key, value: ActivationKey, op: Operation, job: string, step: StepId)
    requires k !in w.activations && job in w.parents && step in w.parents[job].steps && w.parents[job].receipt.None?
    ensures Evolves(w, w.(operations := w.operations + [op], activations := w.activations[k := value],
                          parents := w.parents[job := OpenExternal(w.parents[job], step)]))
  {
    hide Evolves, KeysStay, EndingsStay, OperationsGrow, OpenExternal;
    var v := w.(operations := w.operations + [op], activations := w.activations[k := value],
                parents := w.parents[job := OpenExternal(w.parents[job], step)]);
    ActivationKeyStays(w, v, k, value);
    OpenEndings(w, v, job, step);
    AppendGrows(w.operations, op);
    OperationsEvolve(w, v);
  }

  lemma ActivationEvolves(w: World, app: Application, key: string, controller: Principal, dispatch: bool, now: int)
    requires Inv(w)
    ensures var t := ActivateOperation(w, app, key, controller, dispatch, now); t.Ok? ==> Evolves(w, t.value.0)
  {
    hide Inv, GoodOperation, Snapshot, FindStep, FindBySubject, ApprovalFault, NoRoom, NewOperation, Evolves,
         OpenExternal, ActivationFault;
    var t := ActivateOperation(w, app, key, controller, dispatch, now);
    var k := Key(app.namespace, key);
    if t.Ok? && k in w.activations {
      StandsStill(w);
    } else if t.Ok? && FindBySubject(w.operations, app.namespace, app.subject).Some? {
      ReactivationEvolves(w, k, ActivationKey(app, controller, t.value.1));
    } else if t.Ok? {
      ActivationNames(w, app, controller, dispatch, now);
      InvParent(w, app.job);
      ActiveHasNoReceipt(w.operations, app.job, w.parents[app.job]);
      NewActivationEvolves(w, k, ActivationKey(app, controller, t.value.1), t.value.0.operations[|w.operations|],
                           app.job, app.step);
    }
  }

  lemma AppendGrows(ops: seq<Operation>, op: Operation)
    ensures OperationsGrow(ops, ops + [op])
  {
  }

  lemma SettledEndings(w: World, v: World, job: string, next: Workflow)
    requires job in w.parents && v.parents == w.parents[job := next] && next.plan == w.parents[job].plan
    requires w.parents[job].receipt.Some? ==> next == w.parents[job]
    requires forall j | j in w.receipts :: j in v.receipts && v.receipts[j] == w.receipts[j]
    ensures EndingsStay(w, v)
  {
  }

  /** A parent settled after a move. */
  lemma SettleEvolves(w: World, job: string, v: Workflow, now: int)
    requires Inv(w) && job in w.parents && Moves(w.operations, job, w.parents[job], v)
    ensures Evolves(w, OrElse(w, Settle(w, job, v, now)))
  {
    hide Inv, Moves, Evolves, Settle;
    StandsStill(w);
    if Settle(w, job, v, now).Ok? {
      SettleGrows(w, job, v, now);
      SettleKeepsRest(w, job, v, now);
      OperationsEvolve(w, Settle(w, job, v, now).value);
    }
  }

  lemma SettleGrows(w: World, job: string, v: Workflow, now: int)
    requires Inv(w) && job in w.parents && Settle(w, job, v, now).Ok?
    ensures OperationsGrow(w.operations, Settle(w, job, v, now).value.operations)
    ensures w.parents[job].receipt.None? ==> job !in w.receipts
  {
    hide Table, ParentOk, ReceiptOk, Authority, Workers, ParentReceiptValid, AttachAll, ParentReceiptOf, OperationsGrow,
         RowsGrow;
    var parent := w.parents[job];
    assert ReceiptOk(w.operations, job, parent, w.receipts);
    OperationsStay(w.operations);
    if parent.receipt.None? {
      NoReceiptYet(w.operations, job, parent, w.receipts);
      if v.receipt.Some? {
        var r := ParentReceiptOf(w.operations, job, v);
        UnendedTerminals(w.operations, job, parent, w.receipts);
        TableGood(w.operations);
        AttachAllGood(w.operations, job, r, now);
        RowsGrowAll(w.operations, AttachAll(w.operations, job, r, now).value);
      }
    }
  }

  /** Settling writes the parent, its receipt and its operations, nothing else. */
  lemma SettleShape(w: World, job: string, v: Workflow, now: int)
    requires job in w.parents && Settle(w, job, v, now).Ok?
    ensures var x := Settle(w, job, v, now).value;
      && x == w.(parents := w.parents[job := v], receipts := x.receipts, operations := x.operations)
      && (forall j | j in w.receipts && j != job :: j in x.receipts && x.receipts[j] == w.receipts[j])
      && (w.parents[job].receipt.Some? ==> x.receipts == w.receipts)
  {
    hide ParentReceiptValid, AttachAll, ParentReceiptOf;
  }

  lemma SettleKeepsRest(w: World, job: string, v: Workflow, now: int)
    requires job in w.parents && Settle(w, job, v, now).Ok? && Moves(w.operations, job, w.parents[job], v)
    requires w.parents[job].receipt.None? ==> job !in w.receipts
    ensures var x := Settle(w, job, v, now).value;
      && x.issuers == w.issuers && x.subjects == w.subjects && x.approvals == w.approvals && x.permits == w.permits
         && w.calls <= x.calls
      && KeysStay(w, x) && EndingsStay(w, x)
  {
    hide Settle, Moves, EndingsStay, KeysStay;
    var x := Settle(w, job, v, now).value;
    SettleShape(w, job, v, now);
    MoveKeepsPlan(w.operations, job, w.parents[job], v);
    KeysSame(w, x);
    SettledEndings(w, x, job, v);
  }

  lemma NoReceiptYet(ops: seq<Operation>, job: string, parent: Workflow, receipts: map<string, ParentReceipt>)
    requires ReceiptOk(ops, job, parent, receipts) && parent.receipt.None?
    ensures job !in receipts
  {
    hide ParentReceiptValid;
  }

  lemma KeysSame(w: World, v: World)
    requires v.activations == w.activations && v.reconciles == w.reconciles
    ensures KeysStay(w, v)
  {
  }

  lemma MoveKeepsPlan(ops: seq<Operation>, job: string, parent: Workflow, v: Workflow)
    requires Moves(ops, job, parent, v)
    ensures v.plan == parent.plan && (parent.receipt.Some? ==> v == parent)
  {
    hide Kept, OperationsOf, StepsTrack;
  }

  lemma RowsGrowAll(a: seq<Operation>, b: seq<Operation>)
    requires RowsGrow(a, b)
    ensures OperationsGrow(a, b)
  {
  }

  lemma ClaimActionEvolves(w: World, job: string, action: Action, now: int)
    requires Inv(w) && ParentsPlanned(w)
    ensures Evolves(w, OrElse(w, ClaimAction(w, job, action, now)))
  {
    hide Inv, ParentOk, Moves, Settle, Step, CompletionReady, Evolves;
    StandsStill(w);
    if job in w.parents {
      InvParent(w, job);
      StepMoves(w.operations, job, w.parents[job], action);
      SettleEvolves(w, job, Step(w.parents[job], action, CompletionReady(w.operations, job, w.parents[job].plan)), now);
    }
  }

  lemma ObserveEvolves(w: World, row: nat, o: Observation, facts: Facts, through: Option<QueryClaim>, now: int)
    requires Inv(w)
    ensures Evolves(w, OrElse(w, ObserveRow(w, row, o, facts, through, now)))
  {
    hide Inv, ParentOk, Moves, Settle, CompletionReady, GoodOperation, Grows, Observe, AdvanceParent, Table, Parents,
         Evolves;
    StandsStill(w);
    if row < |w.operations| && Observe(w.operations[row], o, facts, through, now).Ok? {
      InvTable(w);
      TableRow(w.operations, row);
      ObserveGood(w.operations[row], o, facts, through, now);
      var op := Observe(w.operations[row], o, facts, through, now).value;
      if op != w.operations[row] {
        ObserveIsQuiet(w.operations[row], o, facts, through, now);
        QuietRowKeeps(w, row, op);
        var next := w.(operations := w.operations[row := op]);
        var job := op.who.application.job;
        InvTable(next);
        JobKnown(next, row);
        InvParent(next, job);
        AdvanceMoves(next.operations, row, next.parents[job]);
        var v := AdvanceParent(next.parents[job], op, CompletionReady(next.operations, job, next.parents[job].plan));
        SettleEvolves(next, job, v, now);
        RowEvolves(w.operations, row, op);
        OperationsEvolve(w, next);
        EvolvesTransitive(w, next, OrElse(next, Settle(next, job, v, now)));
      }
    }
  }

  lemma QuietEvolves(w: World, row: nat, op: Operation)
    requires row < |w.operations| && Grows(w.operations[row], op)
    ensures Evolves(w, w.(operations := w.operations[row := op]))
  {
    hide Grows;
    RowEvolves(w.operations, row, op);
    OperationsEvolve(w, w.(operations := w.operations[row := op]));
  }

  lemma CaseEvolves(w: World, row: nat, id: string, now: int)
    requires Inv(w)
    ensures Evolves(w, OrElse(w, ManualCase(w, row, id, now)))
  {
    hide Inv, GoodOperation, Grows, RegisterCase, Evolves;
    StandsStill(w);
    if row < |w.operations| {
      InvTable(w);
      TableRow(w.operations, row);
      CaseGood(w.operations[row], id, now);
      if RegisterCase(w.operations[row], id, now).Ok? {
        QuietEvolves(w, row, RegisterCase(w.operations[row], id, now).value);
      }
    }
  }

  lemma EndQueryEvolves(w: World, row: nat, fence: nat)
    requires Inv(w)
    ensures Evolves(w, EndQuery(w, row, fence))
  {
    hide Inv, GoodOperation, Grows, ClearClaim, Evolves;
    StandsStill(w);
    if row < |w.operations| {
      InvTable(w);
      TableRow(w.operations, row);
      ClearClaimGood(w.operations[row], fence);
      QuietEvolves(w, row, ClearClaim(w.operations[row], fence));
    }
  }

  lemma CallsEvolve(w: World, v: World)
    requires w.calls <= v.calls && v == w.(calls := v.calls, submitting := v.submitting, querying := v.querying)
    ensures Evolves(w, v)
  {
    hide Evolves, KeysStay, EndingsStay, OperationsGrow;
    OperationsStay(w.operations);
    KeysSame(w, v);
    EndingsSame(w, v);
    OperationsEvolve(w, v);
  }

  lemma SubmitWorkerEvolves(w: World, row: nat, dies: bool)
    ensures Evolves(w, SubmitCall(w, row, dies))
  {
    hide Evolves;
    StandsStill(w);
    if row in w.submitting {
      CallsEvolve(w, SubmitCall(w, row, dies));
    }
  }

  lemma QueryWorkerEvolves(w: World, row: nat, fence: nat, dies: bool)
    ensures Evolves(w, QueryCall(w, row, fence, dies))
  {
    hide Evolves;
    StandsStill(w);
    if (row, fence) in w.querying {
      CallsEvolve(w, QueryCall(w, row, fence, dies));
    }
  }

  lemma NewParentEvolves(w: World, job: string, plan: Plan)
    requires job !in w.parents
    ensures Evolves(w, w.(parents := w.parents[job := Create(plan)]))
  {
    hide Evolves, Create;
    OperationsStay(w.operations);
    OperationsEvolve(w, w.(parents := w.parents[job := Create(plan)]));
  }

  lemma RegistrationEvolves(w: World, e: Event, now: int)
    requires Inv(w) && ParentsPlanned(w)
    requires e.FreshnessAsserted? || e.ApprovalRevoked? || e.SubjectRegistered? || e.ApprovalRegistered?
    ensures Evolves(w, Happen(w, e, now))
  {
    hide Inv, Evolves, AuthorityGrows, ApprovalsDated, ParentPlan, Create, Submit, ReconcileRow, ObserveRow,
         ClaimAction, ActivateOperation, ManualCase, SubmitCall, QueryCall, EndQuery;
    match e
    case FreshnessAsserted(issuer, epoch, freshness) =>
      FreshnessGrows(w, issuer, epoch, freshness, now);
      RegistryEvolves(w, OrElse(w, AssertFreshness(w, issuer, epoch, freshness, now)));
    case ApprovalRevoked(approval, issuer, epoch) =>
      RevokeGrows(w, approval, issuer, epoch);
      RegistryEvolves(w, OrElse(w, Revoke(w, approval, issuer, epoch)));
    case SubjectRegistered(key, subject) =>
      SubjectGrows(w, key, subject);
      RegistryEvolves(w, OrElse(w, RegisterSubject(w, key, subject)));
    case ApprovalRegistered(key, approval) =>
      ApprovalGrows(w, key, approval, now);
      RegistryEvolves(w, OrElse(w, RegisterApproval(w, key, approval, now)));
  }

  lemma HappenEvolves(w: World, e: Event, now: int)
    requires Inv(w) && ParentsPlanned(w)
    ensures Evolves(w, Happen(w, e, now))
  {
    hide Inv, ParentPlan, Create, Submit, ReconcileRow, ObserveRow, ClaimAction, ActivateOperation, ManualCase,
         SubmitCall, QueryCall, EndQuery, Evolves, AuthorityGrows;
    StandsStill(w);
    match e
    case CreateParent(job, plan) => if job !in w.parents { NewParentEvolves(w, job, plan); }
    case FreshnessAsserted(_, _, _) => RegistrationEvolves(w, e, now);
    case ApprovalRevoked(_, _, _) => RegistrationEvolves(w, e, now);
    case SubjectRegistered(_, _) => RegistrationEvolves(w, e, now);
    case ApprovalRegistered(_, _) => RegistrationEvolves(w, e, now);
    case Activated(application, key, controller, dispatch) =>
        ActivationEvolves(w, application, key, controller, dispatch, now);
    case Submitted(row, principal, permitted) => SubmitEvolves(w, row, principal, permitted, now);
    case SubmitWorker(row, dies) => SubmitWorkerEvolves(w, row, dies);
    case CaseRegistered(row, id) => CaseEvolves(w, row, id, now);
    case Observed(row, observation, facts, through) => ObserveEvolves(w, row, observation, facts, through, now);
    case Reconciled(namespace, key, recovery, supervisor, supported, timeoutSeconds) =>
      ReconcileEvolves(w, namespace, key, recovery, supervisor, supported, timeoutSeconds, now);
    case QueryWorker(row, fence, dies) => QueryWorkerEvolves(w, row, fence, dies);
    case QueryEnded(row, fence) => EndQueryEvolves(w, row, fence);
    case ClaimRequest(parent, action) => ClaimActionEvolves(w, parent, action, now);
  }

  // ----- runs -----

  /** An event with the time the service's clock shows at it. */
  datatype Timed = Timed(event: Event, now: int)

  ghost function RunEvents(w: World, events: seq<Timed>): (v: World)
    requires Inv(w)
    ensures Inv(v) && Evolves(w, v)
    decreases |events|
  {
    hide Inv, Evolves, Happen;
    if events == [] then
      StandsStill(w);
      w
    else
      InvPlanned(w);
      HappenKeeps(w, events[0].event, events[0].now);
      HappenEvolves(w, events[0].event, events[0].now);
      var next := Happen(w, events[0].event, events[0].now);
      EvolvesTransitive(w, next, RunEvents(next, events[1..]));
      RunEvents(next, events[1..])
  }
}
