/** Which claim requests a version 3 parent refuses for its receipt's sake, told from the request and the state it
    meets. */
module ExternalRefusals {
  import opened Wrappers
  import opened RuntimeWorkflow
  import opened WorkflowRuns
  import opened WorkflowOutcomes
  import opened WorkflowEventBytes
  import opened ExternalWorld
  import opened ExternalParents
  import opened ExternalEndings

  /** A new outcome that did not succeed, and that either carries a report that would be recorded, or an error code
      that version 3 does not list; a report must first pass its own checks. */
  predicate Irreceivable(w: Workflow, a: Action) {
    && a.DoUpdate? && NewRecord(w, a.update, a.now) && a.update.record.payload.Outcome?
       && !a.update.record.payload.terminal.Succeeded?
    && var u := a.update;
      var c := w.claims[u.holder.claim];
      if RecordsReport(c, u) then PreflightReport(w, c, u).Clear? else !ParentErrorCode(u.record.payload.terminal.code)
  }

  /** Every error of the workflow's own making is listed. */
  lemma OwnErrorsListed(error: WorkflowError)
    requires !error.StepFailed?
    ensures ListedError(Some(error))
  {
  }

  // ----- claims and their receipts -----

  /** Reports out of place and codes not listed, claim by claim. */
  ghost predicate ClaimsReceivable(v: Workflow) {
    && (forall i | 0 <= i < |v.claims| && v.claims[i].outcome.Some? && !v.claims[i].outcome.value.terminal.Succeeded? ::
          v.claims[i].outcome.value.report.None?)
    && ListedError(v.error)
  }

  lemma ReceivableByClaim(v: Workflow)
    requires Kept(v)
    ensures Receivable(v) <==> ClaimsReceivable(v)
  {
    hide Kept, Outcomes, ReportsMatch, ListedError;
    ReportsMatchUnless(v);
    if ReportsMatch(Outcomes(v.claims)) {
      assert forall i | 0 <= i < |v.claims| :: v.claims[i] in v.claims;
    }
  }

  lemma StillReceivable(w: Workflow, v: Workflow)
    requires ClaimsReceivable(w) && NoneFinishes(w, v)
    ensures ClaimsReceivable(v)
  {
    hide ParentErrorCode;
    if v.error != w.error {
      OwnErrorsListed(v.error.value);
    }
  }

  lemma CompletionReceivable(w: Workflow, i: nat, r: Record, edge: Option<RecordedEdge>, ready: bool)
    requires ClaimsReceivable(w) && i < |w.claims| && r.payload.Outcome? && w.claims[i].step in w.steps
             && w.receipt.None?
    ensures var v, t := Complete(w, i, r, edge, ready), r.payload.terminal;
      && (ClaimsReceivable(v) <==> t.Succeeded? || (edge.None? && ParentErrorCode(t.code)))
      && (!t.Succeeded? ==> v.receipt.Some?)
  {
    hide ParentErrorCode, AllSucceeded, Outcomes;
    OwnErrorsListed(ExternalOutcomeUnresolved);
    var v, t := Complete(w, i, r, edge, ready), r.payload.terminal;
    assert forall k | 0 <= k < |w.claims| && k != i :: v.claims[k] == w.claims[k];
    var outcome := v.claims[i].outcome.value;
    assert outcome.terminal == t && (outcome.report.Some? <==> edge.Some?);
  }

  /** A claim request leaves an active parent with a receipt that cannot be stored exactly when it brings such an
      outcome. */
  lemma StepReceivable(w: Workflow, a: Action, ready: bool)
    requires ClaimsReceivable(w) && ClaimsPlanned(w) && IsActive(w) && w.receipt.None?
    ensures var v := Step(w, a, ready);
      && (ClaimsReceivable(v) <==> !Irreceivable(w, a))
      && (Irreceivable(w, a) ==> v.receipt.Some?)
  {
    hide ClaimsReceivable, NoneFinishes, Step, Finishing, Meter, Complete, ParentErrorCode, Irreceivable;
    StepOutcomes(w, a, ready);
    NotFinishing(w, a);
    IrreceivableFinishes(w, a);
    if Finishing(w, a) {
      var i := a.update.holder.claim;
      var m := Meter(w, i, a.now);
      StillReceivable(w, m);
      CompletionReceivable(m, i, a.update.record, EdgeOf(w, a.update), ready);
    } else {
      StillReceivable(w, Step(w, a, ready));
    }
  }

  lemma IrreceivableFinishes(w: Workflow, a: Action)
    ensures Irreceivable(w, a) ==> Finishing(w, a)
    ensures Finishing(w, a) ==>
              && Completes(w, a.update)
              && var t := a.update.record.payload.terminal;
                (Irreceivable(w, a) <==>
                   !t.Succeeded? && (EdgeOf(w, a.update).Some? || !ParentErrorCode(t.code)))
  {
    hide ParentErrorCode, FindRecord, PreflightReport;
  }
}
