/** Bounded extraction of a source, range by range: the state, its validators, and the acceptance of one range. */
module ContinuableExtraction {
  import opened Wrappers
  import opened DependencyGraph

  // ----- digests determine what they digest -----

  datatype RangeDigest = RangeDigest(descriptor: string)

  /** The running digest over accepted artifacts and payloads. */
  datatype Aggregate = NoArtifacts | Extended(previous: Aggregate, sequence: nat, artifact: string, payload: string)

  // ----- state -----

  datatype Disposition = Whole | PartialKnown | PartialUnknown | Unsupported

  datatype Ocr = NotEvaluated | PerformedComplete | PerformedPartial | NotPerformed | Unavailable

  function Priority(o: Ocr): nat {
    match o
    case NotEvaluated => 0
    case PerformedComplete => 1
    case PerformedPartial => 2
    case NotPerformed => 3
    case Unavailable => 4
  }

  datatype Coverage = Coverage(disposition: Disposition, omissions: set<string>, ocr: Ocr)

  datatype Amounts = Amounts(ranges: nat, blocks: nat, bytes: nat, retries: nat)

  datatype AcceptedRange = AcceptedRange(
    sequence: nat, key: string, request: RangeDigest, artifact: string, payload: string, response: RangeDigest,
        disposition: Disposition,
    omissions: seq<string>, semantic: Option<string>, ocr: Option<Ocr>, blocks: nat, bytes: nat,
        next: Option<RangeDigest>, terminal: bool)

  datatype State = Pending | Completed | Failed | Cancelled | TimedOut

  datatype Extraction = Extraction(
    source: string, kernelAuthority: bool, verified: bool, state: State, reason: Option<string>, revision: nat,
    nextRange: Option<string>, nextDigest: Option<RangeDigest>, ranges: seq<AcceptedRange>, aggregate: Aggregate,
    coverage: Coverage, terminal: Option<Coverage>, consumed: Amounts, limits: Amounts)

  const MAX_RANGES := 10000
  const MAX_KEY := 256

  /** An upper-case letter, then upper-case letters, digits and underscores. */
  predicate UpperCode(reason: string) {
    && reason != [] && 'A' <= reason[0] <= 'Z'
    && forall c | c in reason :: 'A' <= c <= 'Z' || '0' <= c <= '9' || c == '_'
  }

  predicate RangeShape(r: AcceptedRange) {
    && r.sequence >= 1 && 1 <= |r.key| <= MAX_KEY
    && |Elements(r.omissions)| == |r.omissions| && forall o | o in r.omissions :: |o| >= 1
  }

  /** The parts of the state schema that a transition can break. */
  predicate Shape(e: Extraction) {
    && |e.ranges| <= MAX_RANGES && (forall r | r in e.ranges :: RangeShape(r))
    && (e.state.Pending? ==> e.reason.None?)
    && (!e.state.Pending? ==> e.reason.Some? && UpperCode(e.reason.value) && e.nextRange.None? && e.nextDigest.None?)
  }

  predicate WithinLimits(used: Amounts, limits: Amounts) {
    used.ranges <= limits.ranges && used.blocks <= limits.blocks && used.bytes <= limits.bytes
        && used.retries <= limits.retries
  }

  /** `validate_continuable_extraction` finds no error. */
  predicate Valid(e: Extraction) {
    && Shape(e)
    && (forall i | 0 <= i < |e.ranges| :: e.ranges[i].sequence == i + 1)
    && e.consumed.ranges == |e.ranges|
    && WithinLimits(e.consumed, e.limits)
    && (e.state.Pending? ==> e.terminal.None?)
    && e.verified == e.kernelAuthority
    && (e.state.Completed? ==> e.terminal.Some? && e.terminal.value.disposition.Whole?)
  }

  /** `create_continuable_extraction`, before its own validation. */
  function Created(source: string, kernelAuthority: bool, verified: bool, first: string, limits: Amounts): Extraction {
    Extraction(source, kernelAuthority, verified, Pending, None, 0, Some(first), Some(RangeDigest(first)), [],
               NoArtifacts,
               Coverage(Whole, {}, NotEvaluated), None, Amounts(0, 0, 0, 0), limits)
  }

  // ----- acceptance -----

  datatype ExtractionError =
    | InvalidState
    | KeyConflict
    | Terminated
    | RevisionConflict
    | NotTheNextRange
    | EvidenceMissing
    | InvalidTransition
    | NotFound
    | InvalidReason
    | InvalidReceipt

  /** One range's result, as staged; `disposition` and `response` may be left to their defaults. */
  datatype Transition = Transition(
    request: string, artifact: string, payload: string, blocks: nat, bytes: nat, next: Option<string>,
        response: Option<string>,
    disposition: Option<Disposition>, omissions: seq<string>, semantic: Option<string>, ocr: Option<Ocr>)

  function DispositionOf(t: Transition): Disposition {
    if t.disposition.Some? then t.disposition.value else if t.next.Some? then PartialKnown else PartialUnknown
  }

  function ResponseOf(t: Transition): RangeDigest {
    RangeDigest(if t.response.Some? then t.response.value else t.request)
  }

  /** The fields by which a retry is recognised as the same range. */
  predicate SameRange(r: AcceptedRange, t: Transition) {
    && r.request == RangeDigest(t.request) && r.artifact == t.artifact && r.payload == t.payload
       && r.response == ResponseOf(t)
    && r.disposition == DispositionOf(t) && r.omissions == t.omissions && r.semantic == t.semantic
  }

  function FindRange(ranges: seq<AcceptedRange>, key: string): (r: Option<AcceptedRange>)
    ensures r.Some? ==> r.value in ranges && r.value.key == key
    ensures r.None? ==> forall x | x in ranges :: x.key != key
  {
    if ranges == [] then None
    else if ranges[0].key == key then Some(ranges[0])
    else FindRange(ranges[1..], key)
  }

  function RangeOf(t: Transition, sequence: nat, key: string): AcceptedRange {
    AcceptedRange(sequence, key, RangeDigest(t.request), t.artifact, t.payload, ResponseOf(t), DispositionOf(t),
                  t.omissions, t.semantic,
                  t.ocr, t.blocks, t.bytes, if t.next.Some? then Some(RangeDigest(t.next.value))
                      else None, t.next.None?)
  }

  /** What one range does to the accumulated coverage. */
  function Accumulate(c: Coverage, r: AcceptedRange): Coverage {
    Coverage(
      if r.disposition.Unsupported? || r.disposition.PartialUnknown?
          || (r.disposition.PartialKnown? && r.terminal) then r.disposition
      else c.disposition,
      c.omissions + Elements(r.omissions),
      if r.ocr.Some? && Priority(r.ocr.value) > Priority(c.ocr) then r.ocr.value else c.ocr)
  }

  const COMPLETED := "COMPLETED"
  const UNSUPPORTED := "UNSUPPORTED_PROJECTION"
  const INCOMPLETE := "INCOMPLETE_PROJECTION"

  /** The state with one range more. */
  function WithRange(e: Extraction, r: AcceptedRange, next: Option<string>): Extraction {
    var c := Accumulate(e.coverage, r);
    var completes := r.disposition.Whole? && c.disposition.Whole?;
    e.(ranges := e.ranges + [r], revision := e.revision + 1,
       consumed := e.consumed.(ranges := e.consumed.ranges + 1, blocks := e.consumed.blocks + r.blocks, bytes :=
                               e.consumed.bytes + r.bytes),
       aggregate := Extended(e.aggregate, |e.ranges| + 1, r.artifact, r.payload),
       coverage := c,
       terminal := if r.terminal then Some(c) else e.terminal,
       state := if !r.terminal then e.state else if completes then Completed else Failed,
       reason := if !r.terminal then e.reason
           else Some(if completes then COMPLETED else if c.disposition.Unsupported? then UNSUPPORTED else INCOMPLETE),
       nextRange := next, nextDigest := r.next)
  }

  /** Why a new range is not acceptable, if it is not. */
  function RangeFault(e: Extraction, expectedRevision: nat, t: Transition): Option<ExtractionError> {
    if !e.state.Pending? then Some(Terminated)
    else if e.revision != expectedRevision then Some(RevisionConflict)
    else if e.nextDigest != Some(RangeDigest(t.request)) then Some(NotTheNextRange)
    else if DispositionOf(t).Whole?
        && (t.next.Some? || t.omissions != [] || t.semantic.None?) then Some(EvidenceMissing)
    else None
  }

  /** `accept_extraction_range`. */
  function Accept(e: Extraction, expectedRevision: nat, key: string,
                  t: Transition): Result<Extraction, ExtractionError> {
    if !Valid(e) then Err(InvalidState)
    else
      match FindRange(e.ranges, key)
      case Some(r) => if SameRange(r, t) then Ok(e) else Err(KeyConflict)
      case None =>
        match RangeFault(e, expectedRevision, t)
        case Some(fault) => Err(fault)
        case None =>
          var next := WithRange(e, RangeOf(t, |e.ranges| + 1, key), t.next);
          if Valid(next) then Ok(next) else Err(InvalidTransition)
  }

  /** The coverage accumulator after one range, updated field by field. */
  method AccumulateCoverage(c: Coverage, t: Transition) returns (accumulated: Coverage)
    ensures forall sequence, key :: accumulated == Accumulate(c, RangeOf(t, sequence, key))
  {
    var disposition := DispositionOf(t);
    accumulated := c.(omissions := c.omissions + Elements(t.omissions));
    if disposition.Unsupported? {
      accumulated := accumulated.(disposition := Unsupported);
    } else if disposition.PartialUnknown? {
      accumulated := accumulated.(disposition := PartialUnknown);
    } else if disposition.PartialKnown? && t.next.None? {
      accumulated := accumulated.(disposition := PartialKnown);
    }
    if t.ocr.Some? && Priority(t.ocr.value) > Priority(accumulated.ocr) {
      accumulated := accumulated.(ocr := t.ocr.value);
    }
  }

  /** The copy of the state that takes one range more, changed step by step. */
  method ExtendState(e: Extraction, key: string, t: Transition) returns (result: Extraction)
    ensures result == WithRange(e, RangeOf(t, |e.ranges| + 1, key), t.next)
  {
    hide Accumulate;
    var record := RangeOf(t, |e.ranges| + 1, key);
    result := e.(ranges := e.ranges + [record]);
    result := result.(revision := result.revision + 1);
    result := result.(consumed :=
                      Amounts(e.consumed.ranges + 1, e.consumed.blocks + t.blocks, e.consumed.bytes + t.bytes,
                              e.consumed.retries));
    result := result.(aggregate := Extended(e.aggregate, |result.ranges|, t.artifact, t.payload));
    var accumulated := AccumulateCoverage(e.coverage, t);
    result := result.(coverage := accumulated);
    if t.next.None? {
      result := result.(terminal := Some(accumulated));
      if DispositionOf(t).Whole? && accumulated.disposition.Whole? {
        result := result.(state := Completed, reason := Some(COMPLETED));
      } else {
        result := result.(state := Failed, reason :=
                          Some(if accumulated.disposition.Unsupported? then UNSUPPORTED else INCOMPLETE));
      }
    }
    result := result.(nextRange := t.next, nextDigest := record.next);
  }

  /** `accept_extraction_range` as it works: the log is searched for the key, a copy is extended, and validated at the
      end. */
  method AcceptRange(e: Extraction, expectedRevision: nat, key: string, t: Transition)
      returns (r: Result<Extraction, ExtractionError>)
    ensures r == Accept(e, expectedRevision, key, t)
  {
    hide Valid, WithRange, RangeFault;
    if !Valid(e) {
      return Err(InvalidState);
    }
    var k := 0;
    while k < |e.ranges|
      invariant 0 <= k <= |e.ranges| && FindRange(e.ranges, key) == FindRange(e.ranges[k..], key)
    {
      assert e.ranges[k..][0] == e.ranges[k] && e.ranges[k..][1..] == e.ranges[k + 1..];
      if e.ranges[k].key == key {
        return if SameRange(e.ranges[k], t) then Ok(e) else Err(KeyConflict);
      }
      k := k + 1;
    }
    var fault := RangeFault(e, expectedRevision, t);
    if fault.Some? {
      return Err(fault.value);
    }
    var result := ExtendState(e, key, t);
    r := if Valid(result) then Ok(result) else Err(InvalidTransition);
  }

  // ----- terminal receipts -----

  /** The cross-field part of a receipt; its digest is computed over its own content. */
  datatype Receipt = Receipt(
    source: string, state: State, reason: string, coverage: Disposition, omissions: set<string>, ocr: Ocr,
        revision: nat,
    ranges: seq<AcceptedRange>, aggregate: Aggregate, consumed: Amounts, limits: Amounts)

  const CANCELLED := "CANCELLED"
  const TIME_LIMIT := "TIME_LIMIT"
  const RETRY_BUDGET := "RETRY_BUDGET_EXHAUSTED"
  const SOURCE_TOO_LARGE := "SOURCE_TOO_LARGE"

  /** The omission a terminal reason stands for. */
  function OmissionFor(reason: string): string {
    if reason == CANCELLED then "cancelled_before_completion"
    else if reason == TIME_LIMIT then "time_limit_exhausted"
    else if reason == RETRY_BUDGET then "retry_budget_exhausted"
    else if reason == SOURCE_TOO_LARGE then "source_too_large"
    else "unaccepted_ranges"
  }

  const MAX_OMISSIONS := 64
  const MAX_OMISSION := 128

  /** The receipt schema's bounds on omissions, which the state schema does not have. */
  predicate ReportableOmissions(omissions: set<string>) {
    |omissions| <= MAX_OMISSIONS && forall o | o in omissions :: 1 <= |o| <= MAX_OMISSION
  }

  /** `validate_continuable_extraction_receipt` finds no error. */
  predicate ValidReceipt(r: Receipt) {
    && !r.state.Pending? && UpperCode(r.reason) && r.revision >= 1 && ReportableOmissions(r.omissions)
    && (r.state.Completed? <==> r.coverage.Whole?)
    && (!r.state.Completed? && r.reason != INCOMPLETE && r.reason != UNSUPPORTED ==>
        OmissionFor(r.reason) in r.omissions)
  }

  /** `_receipt`, before its own validation. */
  function ReceiptOf(e: Extraction): Receipt
    requires e.reason.Some?
  {
    var c := if e.terminal.Some? then e.terminal.value
        else Coverage(PartialUnknown, {"unaccepted_ranges"}, NotEvaluated);
    Receipt(e.source, e.state, e.reason.value, c.disposition, c.omissions, c.ocr, e.revision, e.ranges, e.aggregate,
            e.consumed, e.limits)
  }

  // ----- retries and endings other than by a range -----

  /** `_terminal_coverage`. */
  function StoppedCoverage(c: Coverage, reason: string): Coverage {
    c.(disposition := PartialUnknown, omissions := c.omissions + {OmissionFor(reason)})
  }

  function Stop(e: Extraction, state: State, reason: string): Extraction {
    e.(revision := e.revision + 1, state := state, reason := Some(reason), terminal :=
       Some(StoppedCoverage(e.coverage, reason)),
       nextRange := None, nextDigest := None)
  }

  /** `record_retry` on the state: a retry beyond the budget ends the extraction. */
  function Retry(e: Extraction): Extraction {
    if e.consumed.retries >= e.limits.retries then Stop(e, Failed, RETRY_BUDGET)
    else e.(revision := e.revision + 1, consumed := e.consumed.(retries := e.consumed.retries + 1))
  }
}
