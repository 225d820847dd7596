/** The registry of the external-operation service, its manual cases and its workers: in every reachable state, exactly
    when each event changes the tables, and how. */
module ExternalRegistry {
  import opened Wrappers
  import opened RuntimeWorkflow
  import opened ExternalOperation
  import opened ExternalReceipts
  import opened ExternalWorld
  import opened ExternalInvariant
  import opened ExternalSteps
  import opened ExternalRuns
  import opened ExternalTheorems

  /** The epoch an issuer is known to be in; zero before it is heard of. */
  function KnownEpoch(w: World, issuer: Key): nat {
    if issuer in w.issuers then w.issuers[issuer].epoch else 0
  }

  /** The next state after a history. */
  ghost function Next(before: seq<Timed>, e: Event, now: int): World {
    History(before + [Timed(e, now)])
  }

  lemma NextIs(before: seq<Timed>, e: Event, now: int)
    ensures ParentsPlanned(History(before)) && Next(before, e, now) == Happen(History(before), e, now)
  {
    hide History, Happen, ParentsPlanned;
    HistorySnoc(before, Timed(e, now));
  }

  lemma RegistryHappens(w: World, e: Event, now: int)
    requires ParentsPlanned(w)
    ensures e.FreshnessAsserted? ==>
            Happen(w, e, now) == OrElse(w, AssertFreshness(w, e.issuer, e.epoch, e.freshness, now))
    ensures e.ApprovalRevoked? ==> Happen(w, e, now) == OrElse(w, Revoke(w, e.approval, e.issuerName, e.nextEpoch))
    ensures e.SubjectRegistered? ==> Happen(w, e, now) == OrElse(w, RegisterSubject(w, e.subjectKey, e.subject))
    ensures e.ApprovalRegistered? ==>
            Happen(w, e, now) == OrElse(w, RegisterApproval(w, e.approvalKey, e.approval0, now))
    ensures e.CaseRegistered? ==> Happen(w, e, now) == OrElse(w, ManualCase(w, e.caseRow, e.caseId, now))
  {
    hide ParentsPlanned, AssertFreshness, Revoke, RegisterSubject, RegisterApproval, ManualCase, ClaimAction,
         ObserveRow, Submit, ReconcileRow, ActivateOperation, Create, ParentPlan, EndQuery, SubmitCall, QueryCall;
  }

  /** Freshness is taken for half a minute at most, around now, and never in an earlier epoch or from an earlier
      observation than the last. */
  lemma FreshnessTakenIff(before: seq<Timed>, issuer: Key, epoch: nat, f: Freshness, now: int)
    ensures var w, v := History(before), Next(before, FreshnessAsserted(issuer, epoch, f), now);
      if KnownEpoch(w, issuer) <= epoch && f.observedAt <= now < f.validUntil && f.validUntil - f.observedAt <= 30000
         && (issuer in w.issuers && w.issuers[issuer].freshness.Some? ==>
             w.issuers[issuer].freshness.value.observedAt <= f.observedAt)
      then v == w.(issuers := w.issuers[issuer := Issuer(epoch, Some(f))]) else v == w
  {
    hide History, ParentsPlanned, Happen, Next;
    NextIs(before, FreshnessAsserted(issuer, epoch, f), now);
    RegistryHappens(History(before), FreshnessAsserted(issuer, epoch, f), now);
  }

  /** A revocation names a registered approval of its issuer and a later epoch, and moves the issuer there; how fresh it
      is stays as it was. */
  lemma RevocationTakenIff(before: seq<Timed>, approval: Key, issuer: string, epoch: nat, now: int)
    ensures var w, v := History(before), Next(before, ApprovalRevoked(approval, issuer, epoch), now);
      var key := Key(approval.namespace, issuer);
      if approval in w.approvals && w.approvals[approval].issuer == issuer && KnownEpoch(w, key) < epoch
      then v == w.(issuers := w.issuers[key :=
                     Issuer(epoch, if key in w.issuers then w.issuers[key].freshness else None)])
      else v == w
  {
    hide History, ParentsPlanned, Happen, Next;
    NextIs(before, ApprovalRevoked(approval, issuer, epoch), now);
    RegistryHappens(History(before), ApprovalRevoked(approval, issuer, epoch), now);
  }

  /** An approval is registered once, in its window, in its issuer's epoch, for the operation and policy of its
      subject. */
  lemma ApprovalTakenIff(before: seq<Timed>, key: Key, a: Approval, now: int)
    ensures var w, v := History(before), Next(before, ApprovalRegistered(key, a), now);
      var subject := Key(key.namespace, a.subject);
      if key !in w.approvals && subject in w.subjects && a.issuedAt <= now < a.expiresAt
         && a.epoch == KnownEpoch(w, Key(key.namespace, a.issuer))
         && a.operation == w.subjects[subject].operation && a.policy == w.subjects[subject].policy
      then v == w.(approvals := w.approvals[key := a]) else v == w
  {
    hide History, ParentsPlanned, Happen, Next;
    NextIs(before, ApprovalRegistered(key, a), now);
    RegistryHappens(History(before), ApprovalRegistered(key, a), now);
  }

  /** A subject is registered once. */
  lemma SubjectTakenIff(before: seq<Timed>, key: Key, s: Subject, now: int)
    ensures var w, v := History(before), Next(before, SubjectRegistered(key, s), now);
      v == if key in w.subjects then w else w.(subjects := w.subjects[key := s])
  {
    hide History, ParentsPlanned, Happen, Next;
    NextIs(before, SubjectRegistered(key, s), now);
    RegistryHappens(History(before), SubjectRegistered(key, s), now);
  }

  /** An operation gets one manual case, empty, for ever; its receipt shows it. */
  lemma CaseTakenIff(before: seq<Timed>, row: nat, id: string, now: int)
    ensures var w, v := History(before), Next(before, CaseRegistered(row, id), now);
      if row < |w.operations| && w.operations[row].cases == []
      then v == w.(operations := v.operations) && |v.operations| == |w.operations|
           && v.operations == w.operations[row := v.operations[row]]
           && v.operations[row] == w.operations[row].(cases := [Case(id, 0, 0)], latest := v.operations[row].latest,
                                                      sequence := w.operations[row].sequence + 1)
      else v == w
  {
    hide History, ParentsPlanned, Happen, Next, Inv, GoodOperation, Table, ManualCase;
    var w := History(before);
    NextIs(before, CaseRegistered(row, id), now);
    RegistryHappens(w, CaseRegistered(row, id), now);
    if row < |w.operations| {
      InvTable(w);
      TableRow(w.operations, row);
    }
    CaseIs(w, row, id, now);
  }

  lemma CaseIs(w: World, row: nat, id: string, now: int)
    requires row < |w.operations| ==> GoodOperation(w.operations[row])
    ensures var v := OrElse(w, ManualCase(w, row, id, now));
      if row < |w.operations| && w.operations[row].cases == []
      then v == w.(operations := v.operations) && |v.operations| == |w.operations|
           && v.operations == w.operations[row := v.operations[row]]
           && v.operations[row] == w.operations[row].(cases := [Case(id, 0, 0)], latest := v.operations[row].latest,
                                                      sequence := w.operations[row].sequence + 1)
      else v == w
  {
    hide GoodOperation, ReceiptFault;
    if row < |w.operations| {
      CaseGood(w.operations[row], id, now);
      assert w.operations[row := w.operations[row]] == w.operations;
    }
  }

  /** A worker that stands between its commit and the provider calls once, unless it dies; then it is gone either way. A
      query's last transaction takes back its own claim, and no later one. */
  lemma WorkersCallOnce(before: seq<Timed>, row: nat, fence: nat, dies: bool, now: int)
    ensures var w, v := History(before), Next(before, SubmitWorker(row, dies), now);
      if row in w.submitting
      then v == w.(submitting := w.submitting - {row}, calls := w.calls + if dies then [] else [Submission(row)])
           && Submission(row) !in w.calls
      else v == w
    ensures var w, v := History(before), Next(before, QueryWorker(row, fence, dies), now);
      if (row, fence) in w.querying
      then v == w.(querying := w.querying - {(row, fence)}, calls := w.calls + if dies then [] else [Query(row, fence)])
           && Query(row, fence) !in w.calls
      else v == w
  {
    hide History, ParentsPlanned, Table, Parents, Authority;
    var w := History(before);
    NextIs(before, SubmitWorker(row, dies), now);
    NextIs(before, QueryWorker(row, fence, dies), now);
  }

  lemma EndHappens(w: World, row: nat, fence: nat, now: int)
    requires ParentsPlanned(w)
    ensures Happen(w, QueryEnded(row, fence), now) == EndQuery(w, row, fence)
  {
    hide EndQuery, ParentsPlanned;
  }

  lemma EndIs(w: World, row: nat, fence: nat)
    ensures EndQuery(w, row, fence) ==
            if row < |w.operations| && w.operations[row].claim.Some? && w.operations[row].claim.value.fence == fence
            then w.(operations := w.operations[row := w.operations[row].(claim := None)]) else w
  {
    if row < |w.operations| {
      assert w.operations[row := w.operations[row]] == w.operations;
    }
  }

  /** A query that ends clears the claim with its own fence. */
  lemma QueryEndsIff(before: seq<Timed>, row: nat, fence: nat, now: int)
    ensures var w, v := History(before), Next(before, QueryEnded(row, fence), now);
      if row < |w.operations| && w.operations[row].claim.Some? && w.operations[row].claim.value.fence == fence
      then v == w.(operations := w.operations[row := w.operations[row].(claim := None)]) else v == w
  {
    hide History, ParentsPlanned, Happen, EndQuery, Next;
    NextIs(before, QueryEnded(row, fence), now);
    EndHappens(History(before), row, fence, now);
    EndIs(History(before), row, fence);
  }
}
