/** Who may move a claim, and what else a claim request moves: nothing. */
module WorkflowFencing {
  import opened Wrappers
  import opened RuntimeWorkflow
  import opened WorkflowRuns

  /** Every claim but one is as it was. */
  ghost predicate OthersStay(w: Workflow, v: Workflow, i: nat) {
    |v.claims| == |w.claims| && forall j | 0 <= j < |w.claims| && j != i :: v.claims[j] == w.claims[j]
  }

  lemma RefusalGuards(w: Workflow, holder: Credential, now: int)
    requires Refusal(w, holder, now).None?
    ensures IsActive(w) && holder.claim < |w.claims|
    ensures var c := w.claims[holder.claim]; c.status.Active? && c.token == holder.token && now <= c.leaseExpires
  {
  }

  lemma ExhaustEnds(w: Workflow, budget: string, ready: bool)
    ensures !IsActive(Exhaust(w, budget, ready))
  {
    hide Outcomes, EndActive;
  }

  lemma MeterMovesOwnRow(w: Workflow, i: nat, now: int)
    requires i < |w.claims|
    ensures OthersStay(w, Meter(w, i, now), i)
    ensures Meter(w, i, now).claims[i].step == w.claims[i].step && Meter(w, i, now).steps == w.steps
  {
  }

  lemma ExtendMovesOwnRow(w: Workflow, i: nat, expires: int)
    requires i < |w.claims|
    ensures OthersStay(w, Extend(w, i, expires), i)
  {
  }

  lemma CompleteMovesOwnRow(w: Workflow, i: nat, r: Record, edge: Option<RecordedEdge>, ready: bool)
    requires i < |w.claims| && r.payload.Outcome? && w.claims[i].step in w.steps
    ensures OthersStay(w, Complete(w, i, r, edge, ready), i)
  {
    hide AllSucceeded, Outcomes;
  }

  lemma AppendMovesOwnRow(w: Workflow, u: Update, ready: bool)
    requires u.holder.claim < |w.claims| && w.claims[u.holder.claim].step in w.steps
    ensures var t := Append(w, u, ready); !t.Rollback? && IsActive(t.state) ==> OthersStay(w, t.state, u.holder.claim)
  {
    hide PreflightReport, FindRecord, Exhaust, Complete, RecordsReport;
    if u.record.payload.Outcome? {
      forall edge ensures OthersStay(w, Complete(w, u.holder.claim, u.record, edge, ready), u.holder.claim) {
        CompleteMovesOwnRow(w, u.holder.claim, u.record, edge, ready);
      }
    }
    forall budget: string, x: Workflow ensures !IsActive(Exhaust(x, budget, ready)) {
      ExhaustEnds(x, budget, ready);
    }
  }

  /** Only the holder of a live lease, showing its token, changes anything; and nothing but its own row, unless the
      workflow ends. */
  lemma OnlyTheHolderActs(w: Workflow, holder: Credential, a: Action, ready: bool)
    requires ClaimsPlanned(w) && Step(w, a, ready) != w
    requires (a.DoRenew? && a.holder == holder) || (a.DoUpdate? && a.update.holder == holder)
    ensures IsActive(w) && holder.claim < |w.claims|
    ensures var c := w.claims[holder.claim]; c.status.Active? && c.token == holder.token && a.now <= c.leaseExpires
    ensures var v := Step(w, a, ready);
      IsActive(v) ==> OthersStay(w, v, holder.claim)
  {
    hide Refusal, Exhaust, Meter, Extend, Append, RuntimeExhausted;
    RefusalGuards(w, holder, a.now);
    ExhaustEnds(w, "runtime", ready);
    if Refusal(w, holder, a.now).None? {
      MeterMovesOwnRow(w, holder.claim, a.now);
      if a.DoUpdate? {
        AppendMovesOwnRow(Meter(w, holder.claim, a.now), a.update, ready);
      } else {
        ExtendMovesOwnRow(Meter(w, holder.claim, a.now), holder.claim, a.now + a.leaseSeconds);
      }
    }
  }
}
