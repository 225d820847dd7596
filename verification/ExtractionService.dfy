/** The durable extraction service: operations and staged ranges, each transaction a compare-and-set on the revision. */
module ExtractionService {
  import opened Wrappers
  import opened DependencyGraph
  import opened ContinuableExtraction
  import opened ExtractionLog

  // ----- tables -----

  /** The creation digest determines the document an operation was created with. */
  datatype Row = Row(created: Extraction, state: Extraction, receipt: Option<Receipt>)

  datatype StagedKey = StagedKey(operation: string, key: string)

  /** `accepted` is the revision at which the staged range was accepted. */
  datatype Staged = Staged(expectedRevision: nat, transition: Transition, accepted: Option<nat>)

  datatype Tables = Tables(operations: map<string, Row>, staged: map<StagedKey, Staged>)

  // ----- transactions -----

  /** `create`. */
  function Create(w: Tables, id: string, e: Extraction): Result<Tables, ExtractionError> {
    if !Valid(e) || e.revision != 0 || !e.state.Pending? then Err(InvalidState)
    else if id in w.operations then (if w.operations[id].created == e then Ok(w) else Err(KeyConflict))
    else Ok(w.(operations := w.operations[id := Row(e, e, None)]))
  }

  /** `stage_range`. */
  function Stage(w: Tables, id: string, expectedRevision: nat, key: string,
                 t: Transition): Result<Tables, ExtractionError> {
    var k := StagedKey(id, key);
    if id !in w.operations then Err(NotFound)
    else if k in w.staged then
      (if w.staged[k].expectedRevision == expectedRevision
       && w.staged[k].transition == t then Ok(w) else Err(KeyConflict))
    else Ok(w.(staged := w.staged[k := Staged(expectedRevision, t, None)]))
  }

  /** The receipt of a state that is over, or none; an invalid receipt rolls the transaction back. */
  function ReceiptFor(e: Extraction): Result<Option<Receipt>, ExtractionError> {
    if e.state.Pending? then Ok(None)
    else if e.reason.None? || !ValidReceipt(ReceiptOf(e)) then Err(InvalidReceipt)
    else Ok(Some(ReceiptOf(e)))
  }

  /** The update `WHERE revision = … AND state = 'pending'`. */
  function Store(w: Tables, id: string, next: Extraction): Result<Tables, ExtractionError>
    requires id in w.operations
  {
    match ReceiptFor(next)
    case Err(e) => Err(e)
    case Ok(receipt) =>
      if !w.operations[id].state.state.Pending? then Err(RevisionConflict)
      else Ok(w.(operations := w.operations[id := w.operations[id].(state := next, receipt := receipt)]))
  }

  /** `accept_staged`. */
  function AcceptStaged(w: Tables, id: string, key: string): Result<Tables, ExtractionError> {
    var k := StagedKey(id, key);
    if id !in w.operations || k !in w.staged then Err(NotFound)
    else if w.staged[k].accepted.Some? then Ok(w)
    else
      match Accept(w.operations[id].state, w.staged[k].expectedRevision, key, w.staged[k].transition)
      case Err(e) => Err(e)
      case Ok(next) =>
        match Store(w, id, next)
        case Err(e) => Err(e)
        case Ok(v) => Ok(v.(staged := w.staged[k := w.staged[k].(accepted := Some(next.revision))]))
  }

  /** `record_retry`. */
  function RecordRetry(w: Tables, id: string, expectedRevision: nat): Result<Tables, ExtractionError> {
    if id !in w.operations then Err(NotFound)
    else
      var e := w.operations[id].state;
      if !e.state.Pending? then Err(Terminated)
      else if e.revision != expectedRevision then Err(RevisionConflict)
      else if !Valid(Retry(e)) then Err(InvalidTransition)
      else Store(w, id, Retry(e))
  }

  /** `wide` is what the tables of Unicode say of a reason with characters beyond ASCII: alphanumeric, and in upper
      case. */
  datatype Ending = Cancel | TimeOut | Fail(reason: string, wide: bool)

  function EndingState(g: Ending): State {
    match g
    case Cancel => Cancelled
    case TimeOut => TimedOut
    case Fail(_, _) => Failed
  }

  function EndingReason(g: Ending): string {
    match g
    case Cancel => CANCELLED
    case TimeOut => TIME_LIMIT
    case Fail(reason, _) => reason
  }

  predicate Ascii(reason: string) {
    forall c | c in reason :: c <= '\U{7F}'
  }

  /** The test `fail` puts to its reason: alphanumeric but for underscores, and equal to itself in upper case. It lets
      a code start with a digit or an underscore, which the state schema does not. */
  predicate StableCode(reason: string, wide: bool) {
    if !Ascii(reason) then wide
    else
      && (forall c | c in reason :: 'A' <= c <= 'Z' || '0' <= c <= '9' || c == '_')
      && exists c :: c in reason && c != '_'
  }

  /** `_terminate`. */
  function EndAs(w: Tables, id: string, expectedRevision: nat, state: State,
                 reason: string): Result<Tables, ExtractionError> {
    if id !in w.operations then Err(NotFound)
    else
      var e := w.operations[id].state;
      if !e.state.Pending? then (if e.state == state then Ok(w) else Err(Terminated))
      else if e.revision != expectedRevision then Err(RevisionConflict)
      else if !Valid(Stop(e, state, reason)) then Err(InvalidTransition)
      else Store(w, id, Stop(e, state, reason))
  }

  /** `cancel`, `time_out` and `fail`. */
  function Terminate(w: Tables, id: string, expectedRevision: nat, g: Ending): Result<Tables, ExtractionError> {
    if g.Fail? && !StableCode(g.reason, g.wide) then Err(InvalidReason)
    else EndAs(w, id, expectedRevision, EndingState(g), EndingReason(g))
  }

  // ----- the invariant -----

  /** Created by `create_continuable_extraction`, with nothing accepted yet. */
  ghost predicate Fresh(e: Extraction) {
    e.nextRange.Some? && e == Created(e.source, e.kernelAuthority, e.verified, e.nextRange.value, e.limits)
  }

  predicate HasKey(e: Extraction, key: string) {
    exists i :: 0 <= i < |e.ranges| && e.ranges[i].key == key
  }

  /** An operation created fresh is good, and has its receipt exactly when it is over. */
  ghost predicate RowOk(row: Row) {
    && Fresh(row.created) && Good(row.created.nextRange.value, row.state) && row.state.limits == row.created.limits
    && (if row.state.state.Pending? then row.receipt.None?
        else row.receipt == Some(ReceiptOf(row.state)) && ValidReceipt(ReceiptOf(row.state)))
  }

  /** A range is in the log exactly when it was staged and its staged row is accepted, at the revision after the one
      it was staged for. */
  ghost predicate StagedOnce(w: Tables, id: string)
    requires id in w.operations
  {
    && (forall key ::
          HasKey(w.operations[id].state, key) <==>
              StagedKey(id, key) in w.staged && w.staged[StagedKey(id, key)].accepted.Some?)
    && (forall key | StagedKey(id, key) in w.staged && w.staged[StagedKey(id, key)].accepted.Some? ::
          w.staged[StagedKey(id, key)].accepted.value == w.staged[StagedKey(id, key)].expectedRevision
              + 1 <= w.operations[id].state.revision)
  }

  ghost predicate Inv(w: Tables) {
    && (forall id | id in w.operations && Fresh(w.operations[id].created) ::
          RowOk(w.operations[id]) && StagedOnce(w, id))
    && (forall k | k in w.staged :: k.operation in w.operations)
  }

  /** Rows of ended operations, and accepted staged rows, never change. */
  ghost predicate Evolves(w: Tables, v: Tables) {
    && (forall id | id in w.operations ::
          && id in v.operations && v.operations[id].created == w.operations[id].created
          && w.operations[id].state.ranges <= v.operations[id].state.ranges
          && w.operations[id].state.revision <= v.operations[id].state.revision
          && (!w.operations[id].state.state.Pending? ==> v.operations[id] == w.operations[id]))
    && (forall k | k in w.staged ::
          && k in v.staged && v.staged[k].expectedRevision == w.staged[k].expectedRevision
             && v.staged[k].transition == w.staged[k].transition
          && (w.staged[k].accepted.Some? ==> v.staged[k].accepted == w.staged[k].accepted))
  }

  lemma EvolvesTransitive(a: Tables, b: Tables, c: Tables)
    requires Evolves(a, b) && Evolves(b, c)
    ensures Evolves(a, c)
  {
  }

  // ----- every transaction keeps it -----

  lemma CreateKeeps(w: Tables, id: string, e: Extraction)
    requires Inv(w) && Create(w, id, e).Ok?
    ensures Inv(Create(w, id, e).value) && Evolves(w, Create(w, id, e).value)
  {
    hide Valid, RowOk, StagedOnce, Fresh;
    var v := Create(w, id, e).value;
    forall i | i in v.operations && Fresh(v.operations[i].created) ensures RowOk(v.operations[i]) && StagedOnce(v, i) {
      if i in w.operations {
        SameStagedOnce(w, v, i);
      } else {
        FreshRowOk(e);
        NothingStagedYet(w, v, i);
      }
    }
  }

  lemma FreshRowOk(e: Extraction)
    requires Valid(e) && e.state.Pending? && Fresh(e)
    ensures RowOk(Row(e, e, None)) && e.ranges == []
  {
    hide Valid, Good;
    FreshGood(e);
  }

  lemma SameStagedOnce(w: Tables, v: Tables, i: string)
    requires i in w.operations && i in v.operations && v.operations[i] == w.operations[i] && v.staged == w.staged
             && StagedOnce(w, i)
    ensures StagedOnce(v, i)
  {
    hide HasKey;
  }

  lemma NothingStagedYet(w: Tables, v: Tables, i: string)
    requires i in v.operations && v.operations[i].state.ranges == [] && v.staged == w.staged
    requires i !in w.operations && forall k | k in w.staged :: k.operation in w.operations
    ensures StagedOnce(v, i)
  {
    assert forall key :: StagedKey(i, key) !in v.staged;
  }

  lemma FreshGood(e: Extraction)
    requires Valid(e) && Fresh(e)
    ensures Good(e.nextRange.value, e)
  {
    CreatedGood(e.source, e.kernelAuthority, e.verified, e.nextRange.value, e.limits);
  }

  /** A staged row not yet accepted matters to no log. */
  lemma StagedRowApart(w: Tables, v: Tables, k: StagedKey, row: Staged, i: string)
    requires i in w.operations && v.operations == w.operations && k !in w.staged && v.staged == w.staged[k := row]
             && row.accepted.None?
    requires StagedOnce(w, i)
    ensures StagedOnce(v, i)
  {
    hide HasKey;
  }

  lemma StageKeeps(w: Tables, id: string, expectedRevision: nat, key: string, t: Transition)
    requires Inv(w) && Stage(w, id, expectedRevision, key, t).Ok?
    ensures Inv(Stage(w, id, expectedRevision, key, t).value)
            && Evolves(w, Stage(w, id, expectedRevision, key, t).value)
  {
    hide RowOk, StagedOnce, Fresh;
    var v, k := Stage(w, id, expectedRevision, key, t).value, StagedKey(id, key);
    if k !in w.staged {
      forall i | i in v.operations && Fresh(v.operations[i].created) ensures StagedOnce(v, i) {
        StagedRowApart(w, v, k, Staged(expectedRevision, t, None), i);
      }
    }
  }

  lemma StoredRowOk(row: Row, next: Extraction, receipt: Option<Receipt>)
    requires Fresh(row.created) && Good(row.created.nextRange.value, next) && next.limits == row.created.limits
             && ReceiptFor(next) == Ok(receipt)
    ensures RowOk(row.(state := next, receipt := receipt))
  {
    hide Good, ValidReceipt;
  }

  /** A stored state that accepts nothing. */
  lemma StoreKeeps(w: Tables, id: string, next: Extraction)
    requires Inv(w) && id in w.operations && w.operations[id].state.state.Pending? && Store(w, id, next).Ok?
    requires next.ranges == w.operations[id].state.ranges && w.operations[id].state.revision <= next.revision
    requires next.limits == w.operations[id].state.limits
    requires Fresh(w.operations[id].created) ==> Good(w.operations[id].created.nextRange.value, next)
    ensures Inv(Store(w, id, next).value) && Evolves(w, Store(w, id, next).value)
  {
    hide Good, ValidReceipt, RowOk;
    var v := Store(w, id, next).value;
    if Fresh(w.operations[id].created) {
      InvGood(w, id);
      StoredRowOk(w.operations[id], next, ReceiptFor(next).value);
    }
    forall i | i in v.operations && Fresh(v.operations[i].created) ensures RowOk(v.operations[i]) && StagedOnce(v, i) {
      assert StagedOnce(w, i);
      assert forall key :: HasKey(v.operations[i].state, key) <==> HasKey(w.operations[i].state, key);
    }
  }

  lemma RetryKeeps(w: Tables, id: string, expectedRevision: nat)
    requires Inv(w) && RecordRetry(w, id, expectedRevision).Ok?
    ensures Inv(RecordRetry(w, id, expectedRevision).value) && Evolves(w, RecordRetry(w, id, expectedRevision).value)
  {
    hide Valid, Good, Inv, Evolves, Store;
    var e := w.operations[id].state;
    if Fresh(w.operations[id].created) {
      InvGood(w, id);
      RetryGood(w.operations[id].created.nextRange.value, e);
    }
    StoreKeeps(w, id, Retry(e));
  }

  lemma InvGood(w: Tables, id: string)
    requires Inv(w) && id in w.operations && Fresh(w.operations[id].created)
    ensures Good(w.operations[id].created.nextRange.value, w.operations[id].state) && RowOk(w.operations[id])
            && StagedOnce(w, id)
    ensures w.operations[id].state.limits == w.operations[id].created.limits
  {
    hide Good, ValidReceipt;
  }

  lemma TerminateKeeps(w: Tables, id: string, expectedRevision: nat, g: Ending)
    requires Inv(w) && Terminate(w, id, expectedRevision, g).Ok?
    ensures Inv(Terminate(w, id, expectedRevision, g).value) && Evolves(w, Terminate(w, id, expectedRevision, g).value)
  {
    hide Valid, Good, Inv, Store, StableCode;
    var e := w.operations[id].state;
    if e.state.Pending? {
      if Fresh(w.operations[id].created) {
        InvGood(w, id);
        StopGood(w.operations[id].created.nextRange.value, e, EndingState(g), EndingReason(g));
      }
      StoreKeeps(w, id, Stop(e, EndingState(g), EndingReason(g)));
    }
  }

  /** A range new to the log: one more record, under the key. */
  lemma AcceptExtends(e: Extraction, expectedRevision: nat, key: string, t: Transition)
    requires Accept(e, expectedRevision, key, t).Ok?
    ensures var next := Accept(e, expectedRevision, key, t).value;
      && e.ranges <= next.ranges && e.revision <= next.revision && HasKey(next, key)
      && (forall k :: HasKey(next, k) <==> HasKey(e, k) || k == key)
      && (next != e ==> next.revision == e.revision + 1) && next.limits == e.limits
  {
    hide Valid, RangeFault, Accumulate, SameRange;
    var next := Accept(e, expectedRevision, key, t).value;
    if FindRange(e.ranges, key).None? {
      assert next.ranges[|e.ranges|].key == key;
      forall k | HasKey(e, k) ensures HasKey(next, k) {
        var i :| 0 <= i < |e.ranges| && e.ranges[i].key == k;
        assert next.ranges[i].key == k;
      }
      forall k | HasKey(next, k) && k != key ensures HasKey(e, k) {
        var i :| 0 <= i < |next.ranges| && next.ranges[i].key == k;
        assert e.ranges[i].key == k;
      }
    } else {
      var r := FindRange(e.ranges, key).value;
      var i :| 0 <= i < |e.ranges| && e.ranges[i] == r;
      assert e.ranges[i].key == key;
    }
  }

  /** The tables after an acceptance: the operation's row and its staged row, nothing else. */
  lemma AcceptedStagedOnce(w: Tables, v: Tables, id: string, key: string, i: string)
    requires id in w.operations && StagedKey(id, key) in w.staged && w.staged[StagedKey(id, key)].accepted.None?
             && i == id
    requires v.operations.Keys == w.operations.Keys
    requires v.staged.Keys == w.staged.Keys && v.staged[StagedKey(id, key)].accepted.Some?
    requires forall k | k in w.staged && k != StagedKey(id, key) :: v.staged[k] == w.staged[k]
    requires forall k :: HasKey(v.operations[id].state, k) <==> HasKey(w.operations[id].state, k) || k == key
    requires v.staged[StagedKey(id, key)].expectedRevision
             + 1 == v.staged[StagedKey(id, key)].accepted.value == v.operations[id].state.revision
    requires w.operations[id].state.revision <= v.operations[id].state.revision
    requires StagedOnce(w, i)
    ensures StagedOnce(v, i)
  {
    hide HasKey;
  }

  lemma AcceptedShape(w: Tables, id: string, key: string)
    requires AcceptStaged(w, id, key).Ok? && w.staged[StagedKey(id, key)].accepted.None?
    ensures var v, k := AcceptStaged(w, id, key).value, StagedKey(id, key);
      var s := w.staged[k];
      var t := Accept(w.operations[id].state, s.expectedRevision, key, s.transition);
      && t.Ok? && ReceiptFor(t.value).Ok? && w.operations[id].state.state.Pending?
      && v.operations == w.operations[id := w.operations[id].(state := t.value, receipt := ReceiptFor(t.value).value)]
      && v.staged == w.staged[k := s.(accepted := Some(t.value.revision))]
  {
    hide Accept, ReceiptFor;
  }

  /** The tables `v` are `w` with a staged range accepted into its operation as `next`. */
  ghost predicate AcceptedInto(w: Tables, v: Tables, id: string, key: string, next: Extraction,
                               receipt: Option<Receipt>) {
    var k := StagedKey(id, key);
    && id in w.operations && k in w.staged && w.staged[k].accepted.None? && w.operations[id].state.state.Pending?
    && v.operations == w.operations[id := w.operations[id].(state := next, receipt := receipt)]
    && v.staged == w.staged[k := w.staged[k].(accepted := Some(next.revision))]
  }

  lemma AcceptedInv(w: Tables, v: Tables, id: string, key: string, next: Extraction, receipt: Option<Receipt>)
    requires Inv(w) && AcceptedInto(w, v, id, key, next, receipt)
    requires forall k :: HasKey(next, k) <==> HasKey(w.operations[id].state, k) || k == key
    requires w.operations[id].state.revision <= next.revision
    requires Fresh(w.operations[id].created) ==>
             RowOk(v.operations[id]) && next.revision == w.staged[StagedKey(id, key)].expectedRevision + 1
    ensures Inv(v)
  {
    hide RowOk, StagedOnce, HasKey, Fresh;
    forall i | i in v.operations && Fresh(v.operations[i].created) ensures RowOk(v.operations[i]) && StagedOnce(v, i) {
      if i == id {
        AcceptedStagedOnce(w, v, id, key, i);
      } else {
        OtherStagedOnce(w, v, id, key, i);
      }
    }
  }

  lemma OtherStagedOnce(w: Tables, v: Tables, id: string, key: string, i: string)
    requires i in w.operations && i in v.operations && i != id && v.operations[i] == w.operations[i] && StagedOnce(w, i)
    requires v.staged.Keys == w.staged.Keys && forall k | k in w.staged && k != StagedKey(id, key) ::
                                                 v.staged[k] == w.staged[k]
    ensures StagedOnce(v, i)
  {
    hide HasKey;
  }

  lemma AcceptedEvolves(w: Tables, v: Tables, id: string, key: string, next: Extraction, receipt: Option<Receipt>)
    requires AcceptedInto(w, v, id, key, next, receipt)
    requires w.operations[id].state.ranges <= next.ranges && w.operations[id].state.revision <= next.revision
    ensures Evolves(w, v)
  {
  }

  lemma AcceptStagedKeeps(w: Tables, id: string, key: string)
    requires Inv(w) && AcceptStaged(w, id, key).Ok?
    ensures Inv(AcceptStaged(w, id, key).value) && Evolves(w, AcceptStaged(w, id, key).value)
  {
    hide Inv, Evolves, Accept, RowOk, ReceiptFor, AcceptStaged, HasKey, Fresh;
    AcceptStagedFinds(w, id, key);
    var s := w.staged[StagedKey(id, key)];
    if s.accepted.None? {
      AcceptedShape(w, id, key);
      var e := w.operations[id].state;
      var next := Accept(e, s.expectedRevision, key, s.transition).value;
      AcceptExtends(e, s.expectedRevision, key, s.transition);
      if Fresh(w.operations[id].created) {
        AcceptedRowOk(w, id, s.expectedRevision, key, s.transition);
        NewKeyIsNext(w, id, key);
      }
      AcceptedInv(w, AcceptStaged(w, id, key).value, id, key, next, ReceiptFor(next).value);
      AcceptedEvolves(w, AcceptStaged(w, id, key).value, id, key, next, ReceiptFor(next).value);
    } else {
      StandsStill(w);
    }
  }

  /** A staged range not yet accepted is new to the log, so accepting it is the next revision. */
  lemma NewKeyIsNext(w: Tables, id: string, key: string)
    requires Inv(w) && id in w.operations && Fresh(w.operations[id].created) && StagedKey(id, key) in w.staged
    requires w.staged[StagedKey(id, key)].accepted.None?
    requires Accept(w.operations[id].state, w.staged[StagedKey(id, key)].expectedRevision, key,
                    w.staged[StagedKey(id, key)].transition).Ok?
    ensures Accept(w.operations[id].state, w.staged[StagedKey(id, key)].expectedRevision, key,
                   w.staged[StagedKey(id, key)].transition).value.revision
            == w.staged[StagedKey(id, key)].expectedRevision + 1
  {
    hide Inv, Good, Valid, ValidReceipt, Accumulate;
    InvGood(w, id);
    var e := w.operations[id].state;
    KeyFound(e, key);
  }

  lemma KeyFound(e: Extraction, key: string)
    ensures FindRange(e.ranges, key).Some? ==> HasKey(e, key)
  {
    if FindRange(e.ranges, key).Some? {
      var r := FindRange(e.ranges, key).value;
      var i :| 0 <= i < |e.ranges| && e.ranges[i] == r;
    }
  }

  lemma AcceptStagedFinds(w: Tables, id: string, key: string)
    requires AcceptStaged(w, id, key).Ok?
    ensures id in w.operations && StagedKey(id, key) in w.staged
    ensures w.staged[StagedKey(id, key)].accepted.Some? ==> AcceptStaged(w, id, key).value == w
  {
    hide Accept, Store;
  }

  lemma AcceptedRowOk(w: Tables, id: string, expectedRevision: nat, key: string, t: Transition)
    requires Inv(w) && id in w.operations && Fresh(w.operations[id].created)
    requires Accept(w.operations[id].state, expectedRevision, key, t).Ok?
    requires ReceiptFor(Accept(w.operations[id].state, expectedRevision, key, t).value).Ok?
    ensures var next := Accept(w.operations[id].state, expectedRevision, key, t).value;
      RowOk(w.operations[id].(state := next, receipt := ReceiptFor(next).value))
  {
    hide Good, Accept, RowOk, ReceiptFor, Inv;
    InvGood(w, id);
    AcceptGood(w.operations[id].created.nextRange.value, w.operations[id].state, expectedRevision, key, t);
    AcceptExtends(w.operations[id].state, expectedRevision, key, t);
    var next := Accept(w.operations[id].state, expectedRevision, key, t).value;
    StoredRowOk(w.operations[id], next, ReceiptFor(next).value);
  }

  // ----- runs -----

  datatype Request =
    | CreateOperation(id: string, document: Extraction)
    | StageRange(id: string, expectedRevision: nat, key: string, transition: Transition)
    | AcceptStagedRange(id: string, key: string)
    | Retried(id: string, expectedRevision: nat)
    | EndRequested(id: string, expectedRevision: nat, ending: Ending)

  function Serve(w: Tables, r: Request): Result<Tables, ExtractionError> {
    match r
    case CreateOperation(id, document) => Create(w, id, document)
    case StageRange(id, expectedRevision, key, transition) => Stage(w, id, expectedRevision, key, transition)
    case AcceptStagedRange(id, key) => AcceptStaged(w, id, key)
    case Retried(id, expectedRevision) => RecordRetry(w, id, expectedRevision)
    case EndRequested(id, expectedRevision, ending) => Terminate(w, id, expectedRevision, ending)
  }

  lemma ServeKeeps(w: Tables, r: Request)
    requires Inv(w) && Serve(w, r).Ok?
    ensures Inv(Serve(w, r).value) && Evolves(w, Serve(w, r).value)
  {
    hide Inv, Evolves, Create, Stage, AcceptStaged, RecordRetry, Terminate;
    match r
    case CreateOperation(id, document) => CreateKeeps(w, id, document);
    case StageRange(id, expectedRevision, key, transition) => StageKeeps(w, id, expectedRevision, key, transition);
    case AcceptStagedRange(id, key) => AcceptStagedKeeps(w, id, key);
    case Retried(id, expectedRevision) => RetryKeeps(w, id, expectedRevision);
    case EndRequested(id, expectedRevision, ending) => TerminateKeeps(w, id, expectedRevision, ending);
  }

  lemma StandsStill(w: Tables)
    ensures Evolves(w, w)
  {
  }

  /** Requests from any callers, in any order; one that fails is rolled back. */
  ghost function Run(w: Tables, requests: seq<Request>): (v: Tables)
    requires Inv(w)
    ensures Inv(v) && Evolves(w, v)
    decreases |requests|
  {
    hide Inv, Evolves, Serve;
    if requests == [] then
      StandsStill(w);
      w
    else if Serve(w, requests[0]).Err? then Run(w, requests[1..])
    else
      ServeKeeps(w, requests[0]);
      var next := Serve(w, requests[0]).value;
      EvolvesTransitive(w, next, Run(next, requests[1..]));
      Run(next, requests[1..])
  }

  const EMPTY := Tables(map[], map[])

  /** Over every run, an operation created fresh is a fold over its log, with completion only on evidence, a bounded
      revision, and a valid receipt exactly when it is over, complete exactly when completed. */
  lemma EveryRunIsItsLog(requests: seq<Request>, id: string)
    requires id in Run(EMPTY, requests).operations && Fresh(Run(EMPTY, requests).operations[id].created)
    ensures var row := Run(EMPTY, requests).operations[id];
      && Folded(row.created.nextRange.value, row.state)
      && row.state.revision == |row.state.ranges| + row.state.consumed.retries + (if Stopped(row.state) then 1 else 0)
      && row.state.revision <= row.state.limits.ranges + row.state.limits.retries + 1
      && (row.receipt.Some? <==> !row.state.state.Pending?)
      && (row.receipt.Some? ==>
          ValidReceipt(row.receipt.value) && (row.receipt.value.coverage.Whole? <==> row.state.state.Completed?))
      && (row.state.state.Completed? <==>
            && EndedByRange(row.state.ranges) && row.state.ranges[|row.state.ranges| - 1].disposition.Whole?
            && forall i | 0 <= i < |row.state.ranges| ::
                 !row.state.ranges[i].disposition.Unsupported? && !row.state.ranges[i].disposition.PartialUnknown?)
      && (row.state.state.Completed? ==> row.state.ranges[|row.state.ranges| - 1].semantic.Some?)
  {
    hide Run, Valid, ValidReceipt, Folded;
    var w := Run(EMPTY, requests);
    InvGood(w, id);
    var first := w.operations[id].created.nextRange.value;
    RevisionIsBounded(first, w.operations[id].state);
    CompletionNeedsEvidence(first, w.operations[id].state);
    if !w.operations[id].state.state.Pending? {
      ReceiptValidIffReportable(first, w.operations[id].state);
    }
  }

  /** A range is staged once and accepted once: its key is in the log exactly when its staged row is accepted, and
      then at one place. */
  lemma StagedExactlyOnce(requests: seq<Request>, id: string, key: string)
    requires id in Run(EMPTY, requests).operations && Fresh(Run(EMPTY, requests).operations[id].created)
    ensures var w := Run(EMPTY, requests);
      var log := w.operations[id].state.ranges;
      && ((StagedKey(id, key) in w.staged && w.staged[StagedKey(id, key)].accepted.Some?) <==>
          exists i :: 0 <= i < |log| && log[i].key == key)
      && forall i, j | 0 <= i < |log| && 0 <= j < |log| && log[i].key == key && log[j].key == key :: i == j
  {
    hide Run, Valid, ValidReceipt;
    InvGood(Run(EMPTY, requests), id);
  }

  /** Staging and accepting again, exactly as before and however much later, changes nothing. */
  lemma ReplayChangesNothing(w: Tables, requests: seq<Request>, id: string, key: string)
    requires Inv(w) && id in w.operations && StagedKey(id, key) in w.staged
             && w.staged[StagedKey(id, key)].accepted.Some?
    ensures var s, v := w.staged[StagedKey(id, key)], Run(w, requests);
      Stage(v, id, s.expectedRevision, key, s.transition) == Ok(v) && AcceptStaged(v, id, key) == Ok(v)
  {
    hide Run, Inv, Accept, Store;
    var v := Run(w, requests);
    assert Evolves(w, v);
  }

  /** An ended operation keeps its row, receipt and all, for ever. */
  lemma EndedForEver(w: Tables, requests: seq<Request>, id: string)
    requires Inv(w) && id in w.operations && !w.operations[id].state.state.Pending?
    ensures id in Run(w, requests).operations && Run(w, requests).operations[id] == w.operations[id]
  {
    hide Run, Inv;
    assert Evolves(w, Run(w, requests));
  }

  lemma CodeIsStable(reason: string, wide: bool)
    requires UpperCode(reason)
    ensures StableCode(reason, wide)
  {
    assert reason[0] in reason && reason[0] != '_';
  }

  /** A stop commits exactly when its reason is a code and the omissions, with the reason's own, fit a receipt. */
  lemma StopCommitsIff(w: Tables, id: string, g: Ending)
    requires Inv(w) && id in w.operations && Fresh(w.operations[id].created) && w.operations[id].state.state.Pending?
    ensures var e := w.operations[id].state;
      Terminate(w, id, e.revision, g).Ok? <==>
          UpperCode(EndingReason(g)) && ReportableOmissions(e.coverage.omissions + {OmissionFor(EndingReason(g))})
  {
    hide Inv, Good, Valid, ValidReceipt, UpperCode, ReportableOmissions, OmissionFor, StableCode;
    InvGood(w, id);
    if UpperCode(EndingReason(g)) && g.Fail? {
      CodeIsStable(g.reason, g.wide);
    }
    StoppableIff(w.operations[id].created.nextRange.value, w.operations[id].state, EndingState(g), EndingReason(g));
  }

  lemma RetryBudgetIsCode()
    ensures UpperCode(RETRY_BUDGET)
  {
  }

  /** A retry commits exactly when the budget has one left, or the omissions, with those of a spent budget, fit a
      receipt. */
  lemma RetryCommitsIff(w: Tables, id: string)
    requires Inv(w) && id in w.operations && Fresh(w.operations[id].created) && w.operations[id].state.state.Pending?
    ensures var e := w.operations[id].state;
      RecordRetry(w, id, e.revision).Ok? <==>
      e.consumed.retries < e.limits.retries || ReportableOmissions(e.coverage.omissions + {OmissionFor(RETRY_BUDGET)})
  {
    hide Inv, Good, ValidReceipt, Shape, UpperCode, ReportableOmissions, OmissionFor;
    InvGood(w, id);
    var e := w.operations[id].state;
    if e.consumed.retries < e.limits.retries {
      OneRetryMore(w.operations[id].created.nextRange.value, e);
    } else {
      RetryBudgetIsCode();
      StoppableIff(w.operations[id].created.nextRange.value, e, Failed, RETRY_BUDGET);
    }
  }

  lemma OneRetryMore(first: string, e: Extraction)
    requires Good(first, e) && e.state.Pending? && e.consumed.retries < e.limits.retries
    ensures Valid(Retry(e))
  {
    hide Folded, EndsAsLogged, Counted, RangeShape, UpperCode;
  }

  /** An operation whose omissions no receipt can list stays pending over every run: not only is no stop accepted, no
      retry past the budget and no last range is either. */
  lemma OverfullNeverEnds(w: Tables, requests: seq<Request>, id: string)
    requires Inv(w) && id in w.operations && Fresh(w.operations[id].created) && w.operations[id].state.state.Pending?
    requires !ReportableOmissions(w.operations[id].state.coverage.omissions)
    ensures var v := Run(w, requests);
      && id in v.operations && v.operations[id].state.state.Pending?
      && !ReportableOmissions(v.operations[id].state.coverage.omissions)
  {
    hide Run, Inv, Good, ValidReceipt, ReportableOmissions;
    var v := Run(w, requests);
    RowPersists(w, v, id);
    InvGood(w, id);
    InvGood(v, id);
    RangesPersist(w, v, id);
    var first := w.operations[id].created.nextRange.value;
    var before, after := w.operations[id].state, v.operations[id].state;
    GoodCoverage(first, before);
    GoodCoverage(first, after);
    OmissionsGrow(before.ranges, after.ranges);
    OverfullStays(before.coverage.omissions, after.coverage.omissions);
    if !after.state.Pending? {
      TerminalOmissions(first, after);
      ReceiptValidIffReportable(first, after);
      OverfullStays(after.coverage.omissions, after.terminal.value.omissions);
    }
  }

  lemma GoodCoverage(first: string, e: Extraction)
    requires Good(first, e)
    ensures e.coverage == CoverageOf(e.ranges)
  {
    hide Valid, EndsAsLogged;
  }

  lemma RangesPersist(w: Tables, v: Tables, id: string)
    requires Evolves(w, v) && id in w.operations
    ensures id in v.operations && w.operations[id].state.ranges <= v.operations[id].state.ranges
  {
  }

  // ----- a run that cannot be ended -----

  /** A first range, not the last, with one omission of more than 128 characters. */
  function LongOmission(first: string, omission: string): Transition {
    Transition(first, "", "", 0, 0, Some(first), None, None, [omission], None, None)
  }

  function LongOmissionRun(id: string, document: Extraction, first: string, omission: string): seq<Request> {
    [CreateOperation(id, document), StageRange(id, 0, "range", LongOmission(first, omission)),
     AcceptStagedRange(id, "range")]
  }

  lemma LongOmissionAccepted(e: Extraction, first: string, omission: string)
    requires Valid(e) && Fresh(e) && e.nextRange == Some(first) && e.limits.ranges >= 1 && |omission| >= 1
    ensures var t := Accept(e, 0, "range", LongOmission(first, omission));
      t.Ok? && t.value.state.Pending? && t.value.coverage.omissions == {omission}
  {
    hide UpperCode;
    assert Elements([omission]) == {omission};
  }

  lemma EmptyHolds()
    ensures Inv(EMPTY)
  {
  }

  lemma LongOmissionServed(id: string, e: Extraction, first: string, omission: string)
    requires Valid(e) && Fresh(e) && e.nextRange == Some(first) && e.limits.ranges >= 1 && |omission| >= 1
    ensures var w := Run(EMPTY, LongOmissionRun(id, e, first, omission));
      && id in w.operations && w.operations[id].created == e && w.operations[id].state.state.Pending?
      && w.operations[id].state.coverage.omissions == {omission}
  {
    hide Inv, Evolves, Valid, Accept, Fresh;
    EmptyHolds();
    FreshStarts(e);
    LongOmissionAccepted(e, first, omission);
    var requests := LongOmissionRun(id, e, first, omission);
    var created := Create(EMPTY, id, e).value;
    var staged := Stage(created, id, 0, "range", LongOmission(first, omission)).value;
    assert requests[1..][0] == requests[1] && requests[1..][1..] == requests[2..] && requests[2..][0] == requests[2];
    ServeKeeps(EMPTY, requests[0]);
    ServeKeeps(created, requests[1]);
    ServeKeeps(staged, requests[2]);
    var accepted := AcceptStaged(staged, id, "range").value;
    assert requests[2..][1..] == [];
    assert Run(accepted, []) == accepted;
    assert Run(staged, requests[2..]) == accepted;
    assert Run(created, requests[1..]) == accepted;
  }

  lemma FreshStarts(e: Extraction)
    requires Fresh(e)
    ensures e.revision == 0 && e.state.Pending?
  {
  }

  /** Once a range with such an omission is accepted, the operation stays pending, whatever requests follow. */
  lemma LongOmissionNeverEnds(id: string, e: Extraction, first: string, omission: string, more: seq<Request>)
    requires Valid(e) && Fresh(e) && e.nextRange == Some(first) && e.limits.ranges >= 1 && |omission| > MAX_OMISSION
    ensures var w := Run(Run(EMPTY, LongOmissionRun(id, e, first, omission)), more);
      id in w.operations && w.operations[id].state.state.Pending?
  {
    hide Run, Inv, Valid, Fresh, LongOmissionRun;
    EmptyHolds();
    var w := Run(EMPTY, LongOmissionRun(id, e, first, omission));
    LongOmissionServed(id, e, first, omission);
    assert omission in w.operations[id].state.coverage.omissions;
    OverfullNeverEnds(w, more, id);
  }

  // ----- the service as it works -----

  /** What a request returns to its caller. */
  function Refusal(r: Result<Tables, ExtractionError>): Option<ExtractionError> {
    if r.Ok? then None else Some(r.error)
  }

  class ExtractionStore {
    var operations: map<string, Row>
    var staged: map<StagedKey, Staged>

    constructor ()
      ensures View() == EMPTY
    {
      operations, staged := map[], map[];
    }

    function View(): Tables
      reads this
    {
      Tables(operations, staged)
    }

    /** `stage_range`. */
    method StageOne(id: string, expectedRevision: nat, key: string, t: Transition)
        returns (refusal: Option<ExtractionError>)
      modifies this`staged
      ensures var r := Stage(old(View()), id, expectedRevision, key, t);
              View() == (if r.Ok? then r.value else old(View())) && refusal == Refusal(r)
    {
      var k := StagedKey(id, key);
      if id !in operations {
        return Some(NotFound);
      }
      if k in staged {
        return if staged[k].expectedRevision == expectedRevision
            && staged[k].transition == t then None else Some(KeyConflict);
      }
      staged := staged[k := Staged(expectedRevision, t, None)];
      refusal := None;
    }

    /** The compare-and-set: it writes only while the stored row is pending, with the receipt of a state that is
        over. */
    method CompareAndSet(id: string, next: Extraction) returns (refusal: Option<ExtractionError>)
      requires id in operations
      modifies this`operations
      ensures var r := Store(old(View()), id, next);
              View() == (if r.Ok? then r.value else old(View())) && refusal == Refusal(r)
    {
      hide ValidReceipt;
      var receipt: Option<Receipt> := None;
      if !next.state.Pending? {
        if next.reason.None? || !ValidReceipt(ReceiptOf(next)) {
          return Some(InvalidReceipt);
        }
        receipt := Some(ReceiptOf(next));
      }
      if !operations[id].state.state.Pending? {
        return Some(RevisionConflict);
      }
      operations := operations[id := operations[id].(state := next, receipt := receipt)];
      refusal := None;
    }

    /** `accept_staged`. */
    method AcceptOne(id: string, key: string) returns (refusal: Option<ExtractionError>)
      modifies this
      ensures var r := AcceptStaged(old(View()), id, key);
              View() == (if r.Ok? then r.value else old(View())) && refusal == Refusal(r)
    {
      hide Accept, ReceiptFor;
      var k := StagedKey(id, key);
      if id !in operations || k !in staged {
        return Some(NotFound);
      }
      if staged[k].accepted.Some? {
        return None;
      }
      var updated := AcceptRange(operations[id].state, staged[k].expectedRevision, key, staged[k].transition);
      if updated.Err? {
        return Some(updated.error);
      }
      refusal := CompareAndSet(id, updated.value);
      if refusal.None? {
        staged := staged[k := staged[k].(accepted := Some(updated.value.revision))];
      }
    }

    /** `record_retry`. */
    method RetryOne(id: string, expectedRevision: nat) returns (refusal: Option<ExtractionError>)
      modifies this
      ensures var r := RecordRetry(old(View()), id, expectedRevision);
              View() == (if r.Ok? then r.value else old(View())) && refusal == Refusal(r)
    {
      hide Valid, Stop, ReceiptFor;
      if id !in operations {
        return Some(NotFound);
      }
      var current := operations[id].state;
      if !current.state.Pending? {
        return Some(Terminated);
      }
      if current.revision != expectedRevision {
        return Some(RevisionConflict);
      }
      var updated := current;
      if current.consumed.retries >= current.limits.retries {
        updated := Stop(current, Failed, RETRY_BUDGET);
      } else {
        updated := updated.(revision := updated.revision + 1);
        updated := updated.(consumed := updated.consumed.(retries := updated.consumed.retries + 1));
      }
      if !Valid(updated) {
        return Some(InvalidTransition);
      }
      refusal := CompareAndSet(id, updated);
    }

    /** `_terminate`, after the test `fail` puts to its reason. */
    method EndOne(id: string, expectedRevision: nat, g: Ending) returns (refusal: Option<ExtractionError>)
      modifies this
      ensures var r := Terminate(old(View()), id, expectedRevision, g);
              View() == (if r.Ok? then r.value else old(View())) && refusal == Refusal(r)
    {
      hide Valid, ReceiptFor, StableCode;
      if g.Fail? && !StableCode(g.reason, g.wide) {
        return Some(InvalidReason);
      }
      if id !in operations {
        return Some(NotFound);
      }
      var current := operations[id].state;
      if !current.state.Pending? {
        return if current.state == EndingState(g) then None else Some(Terminated);
      }
      if current.revision != expectedRevision {
        return Some(RevisionConflict);
      }
      var updated := current.(revision := current.revision + 1);
      updated := updated.(state := EndingState(g), reason := Some(EndingReason(g)));
      updated := updated.(terminal := Some(StoppedCoverage(updated.coverage, EndingReason(g))));
      updated := updated.(nextRange := None, nextDigest := None);
      if !Valid(updated) {
        return Some(InvalidTransition);
      }
      refusal := CompareAndSet(id, updated);
    }

    /** Requests of other callers, served between two transactions of this one. */
    method Interleave(others: seq<Request>)
      requires Inv(View())
      modifies this
      ensures View() == Run(old(View()), others)
    {
      hide Inv, Evolves, Serve;
      var todo := others;
      while todo != []
        invariant Inv(View()) && Run(old(View()), others) == Run(View(), todo)
        decreases |todo|
      {
        var r := Serve(View(), todo[0]);
        if r.Ok? {
          ServeKeeps(View(), todo[0]);
          operations, staged := r.value.operations, r.value.staged;
        }
        todo := todo[1..];
      }
    }

    /** The query for a staged range of the current revision. */
    method SelectStaged(id: string, revision: nat) returns (key: Option<string>)
      ensures key.Some? ==>
              var k := StagedKey(id, key.value);
                  k in staged && staged[k].accepted.None? && staged[k].expectedRevision == revision
      ensures key.None? ==>
              forall k | k in staged && k.operation == id && staged[k].accepted.None? ::
                staged[k].expectedRevision != revision
    {
      var found := set k | k in staged && k.operation == id && staged[k].accepted.None?
          && staged[k].expectedRevision == revision;
      assert forall k ::
               k in found <==>
                   k in staged && k.operation == id && staged[k].accepted.None?
                       && staged[k].expectedRevision == revision;
      if found == {} {
        return None;
      }
      var k :| k in found;
      key := Some(k.key);
    }

    /** `reconcile`: it accepts staged ranges of the revision it reads until the operation is over or none is left for
        it. It ends whatever other callers do between its three transactions: a turn either finds no range for the
        revision it read, or fails, or leaves a later revision, and revisions are bounded. */
    method Reconcile(id: string, others: nat -> seq<Request>)
        returns (read: Extraction, refusal: Option<ExtractionError>)
      requires Inv(View()) && id in operations && Fresh(operations[id].created)
      modifies this
      ensures Inv(View()) && Evolves(old(View()), View()) && id in operations
              && read.revision <= operations[id].state.revision
      ensures refusal.None? && read.state.Pending? ==>
                forall k | k in staged && k.operation == id && staged[k].accepted.None? ::
                  staged[k].expectedRevision != read.revision
      ensures refusal.None? && !read.state.Pending? ==> operations[id].state == read
    {
      hide Inv, Evolves, Fresh, AcceptStaged;
      var turn: nat := 0;
      StandsStill(View());
      while true
        invariant Inv(View()) && Evolves(old(View()), View()) && id in operations && Fresh(operations[id].created)
        invariant operations[id].created == old(operations[id].created)
        decreases operations[id].created.limits.ranges + operations[id].created.limits.retries
            + 1 - operations[id].state.revision
      {
        ghost var before := View();
        BoundedRevision(before, id);
        read := operations[id].state;
        if !read.state.Pending? {
          return read, None;
        }
        Interleave(others(2 * turn));
        ghost var middle := View();
        RowPersists(before, middle, id);
        EvolvesTransitive(old(View()), before, middle);
        var key := SelectStaged(id, read.revision);
        if key.None? {
          return read, None;
        }
        Interleave(others(2 * turn + 1));
        ghost var between := View();
        StagedPersists(middle, between, id, key.value);
        RowPersists(middle, between, id);
        EvolvesTransitive(old(View()), middle, between);
        refusal := AcceptOne(id, key.value);
        if refusal.Some? {
          return;
        }
        AcceptStagedKeeps(between, id, key.value);
        AcceptedIsLater(between, id, key.value);
        EvolvesTransitive(old(View()), between, View());
        BoundedRevision(View(), id);
        turn := turn + 1;
      }
    }
  }

  lemma RowPersists(w: Tables, v: Tables, id: string)
    requires Evolves(w, v) && id in w.operations
    ensures id in v.operations && v.operations[id].created == w.operations[id].created
    ensures w.operations[id].state.revision <= v.operations[id].state.revision
  {
  }

  lemma BoundedRevision(w: Tables, id: string)
    requires Inv(w) && id in w.operations && Fresh(w.operations[id].created)
    ensures var limits := w.operations[id].created.limits;
            w.operations[id].state.revision <= limits.ranges + limits.retries + 1
  {
    hide Inv, Good;
    InvGood(w, id);
    RevisionIsBounded(w.operations[id].created.nextRange.value, w.operations[id].state);
  }

  lemma StagedPersists(w: Tables, v: Tables, id: string, key: string)
    requires Evolves(w, v) && StagedKey(id, key) in w.staged && id in w.operations
    ensures StagedKey(id, key) in v.staged
            && v.staged[StagedKey(id, key)].expectedRevision == w.staged[StagedKey(id, key)].expectedRevision
    ensures id in v.operations && v.operations[id].created == w.operations[id].created
  {
  }

  /** An accepted staged range leaves its operation at a later revision than it was staged for. */
  lemma AcceptedIsLater(w: Tables, id: string, key: string)
    requires Inv(w) && AcceptStaged(w, id, key).Ok? && id in w.operations && Fresh(w.operations[id].created)
             && StagedKey(id, key) in w.staged
    ensures var v := AcceptStaged(w, id, key).value;
      id in v.operations && v.operations[id].created == w.operations[id].created
      && v.operations[id].state.revision > w.staged[StagedKey(id, key)].expectedRevision
  {
    hide Inv, Good, Accept, RowOk, ReceiptFor, AcceptStaged, HasKey, Fresh;
    var k := StagedKey(id, key);
    AcceptStagedKeeps(w, id, key);
    var v := AcceptStaged(w, id, key).value;
    StagedPersists(w, v, id, key);
    AcceptStagedFinds(w, id, key);
    if w.staged[k].accepted.None? {
      AcceptedShape(w, id, key);
    }
    InvGood(v, id);
  }
}
