/** Exactly when a row of the jobs table changes, in whatever state it is reached, and into what. */
module JobLeaseChanges {
  import opened Wrappers
  import opened JobLease

  /** The row waits for a worker: pending, or left by one whose lease has run out, with an attempt left. */
  predicate Waits(r: Row, now: int, maxAttempts: nat) {
    && (r.state == Pending || (r.state == Running && r.expires.Some? && r.expires.value < now))
    && r.attempts < maxAttempts
  }

  /** The first row that waits. */
  ghost predicate FirstWaiting(w: Jobs, now: int, job: nat) {
    && job < |w.rows| && Waits(w.rows[job], now, w.maxAttempts)
    && forall i | 0 <= i < job :: !Waits(w.rows[i], now, w.maxAttempts)
  }

  /** The row under a new claim: one attempt more, a token that nobody has yet, and the lease from now on. */
  predicate ClaimedRow(r: Row, after: Row, owner: string, token: nat, expires: int) {
    && after == Row(Running, after.document, r.attempts + 1, Some(owner), Some(expires), Some(token), r.result)
    && after.document == Document(Running, Some(token), r.document.staging, r.document.error)
  }

  /** The row put back: as it was, but pending, and no one's. */
  predicate PutBack(r: Row, after: Row) {
    && after == Row(Pending, after.document, r.attempts, None, None, None, r.result)
    && after.document == Document(Pending, r.document.run, r.document.staging, r.document.error)
  }

  /** The row ended: no one's, nothing staged, and with the result and error given. */
  predicate EndedRow(r: Row, after: Row, outcome: string, error: Option<string>, result: Option<string>) {
    && after == Row(Done(outcome), after.document, r.attempts, None, None, None, result)
    && after.document == Document(Done(outcome), r.document.run, None, error)
  }

  ghost predicate OnlyRow(w: Jobs, v: Jobs, job: nat) {
    |v.rows| == |w.rows| && forall i | 0 <= i < |w.rows| && i != job :: v.rows[i] == w.rows[i]
  }

  lemma EmptyHolds(maxAttempts: nat)
    ensures Inv(Empty(maxAttempts)) && Empty(maxAttempts).maxAttempts == maxAttempts
  {
  }

  /** Every token held or read has been issued before. */
  lemma TokensIssued(w: Jobs)
    requires Inv(w)
    ensures forall i | 0 <= i < |w.rows| :: w.rows[i].token != Some(w.issued)
    ensures forall n | n in w.readers ::
              w.readers[n].held != Some(w.issued) && w.readers[n].copy.token != Some(w.issued)
  {
    hide LastChange, ClaimsOf;
    forall i | 0 <= i < |w.rows| ensures w.rows[i].token != Some(w.issued) {
      assert RowOk(w, i);
    }
    forall n | n in w.readers
      ensures w.readers[n].held != Some(w.issued) && w.readers[n].copy.token != Some(w.issued)
    {
      assert ReaderOk(w, w.readers[n]);
    }
  }

  /** In every reachable state a claim takes the first row that waits, under a token nobody holds, and nothing else;
      with no row that waits it changes nothing. */
  lemma ClaimTakesFirst(maxAttempts: nat, events: seq<Event>, owner: string, leaseSeconds: nat, now: int)
    ensures var w := Run(Empty(maxAttempts), events);
      var v := Happen(w, ClaimRequested(owner, leaseSeconds, now));
      && (forall job: nat | FirstWaiting(w, now, job) ::
            && OnlyRow(w, v, job) && ClaimedRow(w.rows[job], v.rows[job], owner, w.issued, now + leaseSeconds)
            && v.issued == w.issued + 1 && v.claims == w.claims + [job] && v.readers == w.readers
            && v.log == w.log + [ClaimedBy(job, w.issued)]
            && (forall i | 0 <= i < |w.rows| :: w.rows[i].token != Some(w.issued))
            && (forall n | n in w.readers :: w.readers[n].held != Some(w.issued)))
      && ((forall job: nat :: !FirstWaiting(w, now, job)) ==>
          v == w && forall i | 0 <= i < |w.rows| :: !Waits(w.rows[i], now, w.maxAttempts))
  {
    hide Run, Inv, FindClaimable;
    EmptyHolds(maxAttempts);
    RunKeeps(Empty(maxAttempts), events);
    var w := Run(Empty(maxAttempts), events);
    TokensIssued(w);
    assert forall i | 0 <= i < |w.rows| ::
             Waits(w.rows[i], now, w.maxAttempts) <==> Claimable(w.rows[i], now, w.maxAttempts);
    var found := FindClaimable(w.rows, now, w.maxAttempts);
    if found.Some? {
      assert FirstWaiting(w, now, found.value);
      assert forall job: nat | FirstWaiting(w, now, job) :: job == found.value;
    }
  }

  /** A renewal or a release changes the row of the token shown, while it runs under it: the one with its owner's name,
      whatever the clock, the other only once the lease has run out. */
  lemma LeaseChangesIff(w: Jobs, e: Event)
    requires e.RenewRequested? || e.ReleaseRequested?
    ensures var v := Happen(w, e);
      var holds := e.job < |w.rows| && w.rows[e.job].state == Running && w.rows[e.job].token == Some(e.token);
      var due := holds && if e.RenewRequested? then w.rows[e.job].owner == Some(e.owner)
                          else w.rows[e.job].expires.Some? && w.rows[e.job].expires.value < e.now;
      && v.issued == w.issued && v.readers == w.readers
      && (!due ==> v == w)
      && (due ==>
          OnlyRow(w, v, e.job)
          && if e.RenewRequested? then v.rows[e.job] == w.rows[e.job].(expires := Some(e.expires))
             else PutBack(w.rows[e.job], v.rows[e.job]))
  {
  }

  /** In every reachable state, a worker's write changes the row of its job exactly while that row runs under the
      worker's own token; what it leaves is that very row, put back or ended. It puts back below the attempt limit only,
      and ends as it likes. */
  lemma WorkerWritesOwnRow(maxAttempts: nat, events: seq<Event>, reader: nat, verdict: Verdict)
    ensures var w := Run(Empty(maxAttempts), events);
      var v := Happen(w, WorkerWrote(reader, verdict));
      if reader !in w.readers || w.readers[reader].held.None? then v == w
      else
        var job, token := w.readers[reader].job, w.readers[reader].held.value;
        && job < |w.rows|
        && var r := w.rows[job];
           if r.state == Running && r.token == Some(token) && (verdict.Requeue? ==> r.attempts < maxAttempts) then
             OnlyRow(w, v, job)
             && match verdict
                case Requeue => PutBack(r, v.rows[job])
                case Finish(outcome, error, result) => EndedRow(r, v.rows[job], outcome, error, result)
           else v == w
  {
    hide Run, Inv, LastChange, SameButExpiry;
    EmptyHolds(maxAttempts);
    RunKeeps(Empty(maxAttempts), events);
    var w := Run(Empty(maxAttempts), events);
    if reader in w.readers && w.readers[reader].held.Some? {
      var rd := w.readers[reader];
      HeldRowIsCopy(w, reader);
      ReaderKnows(w, reader);
      if GuardPasses(w, rd.job, rd.held) {
        CopyIsRow(rd.copy, w.rows[rd.job]);
      }
    }
  }

  lemma ReaderKnows(w: Jobs, reader: nat)
    requires Inv(w) && reader in w.readers
    ensures w.readers[reader].job < |w.rows|
    ensures w.readers[reader].copy.token.Some? <==> w.readers[reader].copy.state.Running?
  {
    hide LastChange, ClaimsOf;
    assert ReaderOk(w, w.readers[reader]);
  }

  lemma CopyIsRow(copy: Row, r: Row)
    requires SameButExpiry(copy, r)
    ensures copy.state == r.state && copy.attempts == r.attempts && copy.document == r.document && copy.token == r.token
            && copy.result == r.result && copy.owner == r.owner
  {
  }

  /** In every reachable state, a reconcile that read a running row ends that very row while it runs under the token it
      had; a cancel, and a reconcile of a row read pending, end whatever is there as the row they read. One that read a
      row that was over writes nothing. */
  lemma EndingWritesIff(maxAttempts: nat, events: seq<Event>, e: Event)
    requires e.CancelWrote? || e.ReconcileWrote?
    ensures var w := Run(Empty(maxAttempts), events);
      var v := Happen(w, e);
      var outcome := if e.CancelWrote? then "cancelled" else e.outcome;
      var error := if e.CancelWrote? then None else e.error;
      if e.reader !in w.readers || w.readers[e.reader].copy.state.Done? then v == w
      else
        var job, copy := w.readers[e.reader].job, w.readers[e.reader].copy;
        && job < |w.rows|
        && var r := w.rows[job];
           if e.ReconcileWrote? && copy.state == Running then
             if r.state == Running && r.token == copy.token then
               OnlyRow(w, v, job) && EndedRow(r, v.rows[job], outcome, error, r.result)
             else v == w
           else OnlyRow(w, v, job) && EndedRow(copy, v.rows[job], outcome, error, copy.result)
  {
    hide Run, Inv, LastChange, SameButExpiry;
    EmptyHolds(maxAttempts);
    RunKeeps(Empty(maxAttempts), events);
    var w := Run(Empty(maxAttempts), events);
    if e.reader in w.readers {
      var rd := w.readers[e.reader];
      HeldRowIsCopy(w, e.reader);
      ReaderKnows(w, e.reader);
      if rd.copy.token.Some? && GuardPasses(w, rd.job, rd.copy.token) {
        CopyIsRow(rd.copy, w.rows[rd.job]);
      }
    }
  }

  /** A new row waits, never tried; a reader gets the row as it stands, and a worker only under a claim of that job. */
  lemma InsertsAndReads(w: Jobs, document: Document, reader: nat, job: nat, held: Option<nat>)
    ensures Happen(w, Inserted(document)) ==
            w.(rows := w.rows + [Row(Pending, document, 0, None, None, None, None)])
    ensures var v := Happen(w, RowRead(reader, job, held));
      if job < |w.rows| && (held.Some? ==> held.value < |w.claims| && w.claims[held.value] == job)
      then v == w.(readers := w.readers[reader := Reader(job, held, w.rows[job])]) else v == w
  {
  }
}
