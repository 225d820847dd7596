/** References from step inputs to earlier outputs: resolving them, and materializing them on resume. */
module StepReferences {
  import opened Wrappers
  import opened DependencyGraph
  import opened PlanModel

  /** `$step` or `$step.key`. */
  datatype Reference = Reference(step: StepId, key: Option<string>)

  datatype ReferenceError =
    | NoCompletedOutputs(step: StepId)
    | MissingOutput(step: StepId, key: string, available: seq<Field>)

  /** Outputs by step. */
  type Context = map<StepId, seq<Field>>

  predicate IsNameChar(c: char) {
    'A' <= c <= 'Z' || 'a' <= c <= 'z' || '0' <= c <= '9' || c == '_' || c == '-'
  }

  predicate IsStepName(s: string) {
    s != [] && forall c | c in s :: IsNameChar(c)
  }

  function NamePrefix(s: string): (n: nat)
    ensures n <= |s| && (forall i | 0 <= i < n :: IsNameChar(s[i])) && (n < |s| ==> !IsNameChar(s[n]))
  {
    if s == [] || !IsNameChar(s[0]) then 0 else 1 + NamePrefix(s[1..])
  }

  /** The anchored pattern of the dispatcher: a final newline is tolerated, other newlines end no key. */
  function ParseReference(s: string): Option<Reference> {
    var body := if s != [] && s[|s| - 1] == '\n' then s[..|s| - 1] else s;
    if body == [] || body[0] != '$' then None
    else
      var n := NamePrefix(body[1..]);
      var name, rest := body[1..][..n], body[1..][n..];
      if name == [] then None
      else if rest == [] then Some(Reference(name, None))
      else if rest[0] == '.' && |rest| > 1 && '\n' !in rest then Some(Reference(name, Some(rest[1..])))
      else None
  }

  lemma StepNameParses(s: string)
    requires IsStepName(s)
    ensures ParseReference("$" + s) == Some(Reference(s, None))
  {
    var body := "$" + s;
    assert body[|body| - 1] == s[|s| - 1];
    assert IsNameChar(s[|s| - 1]);
    assert body[1..] == s;
    assert s[..|s|] == s;
  }

  lemma ParsedStepIsName(s: string)
    requires ParseReference(s).Some?
    ensures IsStepName(ParseReference(s).value.step)
  {
  }

  function FieldOf(fields: seq<Field>, key: string): (v: Option<Value>)
    ensures v.Some? ==> Field(key, v.value) in fields
  {
    if fields == [] then None
    else if fields[0].key == key then Some(fields[0].value)
    else FieldOf(fields[1..], key)
  }

  // ----- resolve_value -----

  function Dereference(r: Reference, context: Context): Result<Value, ReferenceError> {
    if r.step !in context then Err(NoCompletedOutputs(r.step))
    else if r.key.None? then Ok(Object(context[r.step]))
    else
      match FieldOf(context[r.step], r.key.value)
      case None => Err(MissingOutput(r.step, r.key.value, context[r.step]))
      case Some(v) => Ok(v)
  }

  function Resolve(value: Value, context: Context): Result<Value, ReferenceError> {
    match value
    case Text(s) =>
      (match ParseReference(s)
       case None => Ok(value)
       case Some(r) => Dereference(r, context))
    case Scalar(_) => Ok(value)
    case Array(items) =>
      (match ResolveItems(items, context)
       case Err(e) => Err(e)
       case Ok(resolved) => Ok(Array(resolved)))
    case Object(fields) =>
      (match ResolveFields(fields, context)
       case Err(e) => Err(e)
       case Ok(resolved) => Ok(Object(resolved)))
  }

  function ResolveItems(items: seq<Value>, context: Context): Result<seq<Value>, ReferenceError> {
    if items == [] then Ok([])
    else
      match Resolve(items[0], context)
      case Err(e) => Err(e)
      case Ok(first) =>
        match ResolveItems(items[1..], context)
        case Err(e) => Err(e)
        case Ok(rest) => Ok([first] + rest)
  }

  function ResolveFields(fields: seq<Field>, context: Context): Result<seq<Field>, ReferenceError> {
    if fields == [] then Ok([])
    else
      match Resolve(fields[0].value, context)
      case Err(e) => Err(e)
      case Ok(first) =>
        match ResolveFields(fields[1..], context)
        case Err(e) => Err(e)
        case Ok(rest) => Ok([Field(fields[0].key, first)] + rest)
  }

  // ----- _materialize_completed_value -----

  /** Replaces references to completed steps and leaves every other string alone. */
  function Materialize(value: Value, context: Context): Result<Value, ReferenceError> {
    match value
    case Text(s) =>
      (match ParseReference(s)
       case None => Ok(value)
       case Some(r) => if r.step in context then Dereference(r, context) else Ok(value))
    case Scalar(_) => Ok(value)
    case Array(items) =>
      (match MaterializeItems(items, context)
       case Err(e) => Err(e)
       case Ok(done) => Ok(Array(done)))
    case Object(fields) =>
      (match MaterializeFields(fields, context)
       case Err(e) => Err(e)
       case Ok(done) => Ok(Object(done)))
  }

  function MaterializeItems(items: seq<Value>, context: Context): Result<seq<Value>, ReferenceError> {
    if items == [] then Ok([])
    else
      match Materialize(items[0], context)
      case Err(e) => Err(e)
      case Ok(first) =>
        match MaterializeItems(items[1..], context)
        case Err(e) => Err(e)
        case Ok(rest) => Ok([first] + rest)
  }

  function MaterializeFields(fields: seq<Field>, context: Context): Result<seq<Field>, ReferenceError> {
    if fields == [] then Ok([])
    else
      match Materialize(fields[0].value, context)
      case Err(e) => Err(e)
      case Ok(first) =>
        match MaterializeFields(fields[1..], context)
        case Err(e) => Err(e)
        case Ok(rest) => Ok([Field(fields[0].key, first)] + rest)
  }

  // ----- stored outputs must not look like references -----

  predicate ReferenceFree(value: Value) {
    match value
    case Text(s) => ParseReference(s).None?
    case Scalar(_) => true
    case Array(items) => forall v | v in items :: ReferenceFree(v)
    case Object(fields) => forall f | f in fields :: ReferenceFree(f.value)
  }

  /** Without any context, exactly the reference-free values resolve, and to themselves. */
  lemma {:induction false} ResolvesAloneIffReferenceFree(value: Value, context: Context)
    ensures ReferenceFree(value) ==> Resolve(value, context) == Ok(value)
    ensures !ReferenceFree(value) ==> Resolve(value, map[]).Err?
  {
    match value
    case Text(_) =>
    case Scalar(_) =>
    case Array(items) => ItemsResolveAlone(items, context);
    case Object(fields) => FieldsResolveAlone(fields, context);
  }

  lemma {:induction false} ItemsResolveAlone(items: seq<Value>, context: Context)
    ensures (forall v | v in items :: ReferenceFree(v)) ==> ResolveItems(items, context) == Ok(items)
    ensures (exists v | v in items :: !ReferenceFree(v)) ==> ResolveItems(items, map[]).Err?
  {
    if items != [] {
      ResolvesAloneIffReferenceFree(items[0], context);
      ItemsResolveAlone(items[1..], context);
      assert items == [items[0]] + items[1..];
    }
  }

  lemma {:induction false} FieldsResolveAlone(fields: seq<Field>, context: Context)
    ensures (forall f | f in fields :: ReferenceFree(f.value)) ==> ResolveFields(fields, context) == Ok(fields)
    ensures (exists f | f in fields :: !ReferenceFree(f.value)) ==> ResolveFields(fields, map[]).Err?
  {
    if fields != [] {
      ResolvesAloneIffReferenceFree(fields[0].value, context);
      FieldsResolveAlone(fields[1..], context);
      assert fields == [Field(fields[0].key, fields[0].value)] + fields[1..];
    }
  }

  /** Every stored output a reference can reach is free of reference-like strings. */
  ghost predicate StoredSafely(completed: Context) {
    forall step, f | step in completed && IsStepName(step) && f in completed[step] :: ReferenceFree(f.value)
  }

  // ----- materializing and then resolving is resolving -----

  /** Resolving a materialized value in the pending context alone gives what the full context gives. */
  ghost predicate Agrees(value: Value, completed: Context, pending: Context) {
    match Materialize(value, completed)
    case Ok(done) => Resolve(done, pending) == Resolve(value, completed + pending)
    case Err(_) => Resolve(value, completed + pending).Err?
  }

  lemma {:induction false} MaterializeAgrees(value: Value, completed: Context, pending: Context)
    requires StoredSafely(completed) && completed.Keys !! pending.Keys
    ensures Agrees(value, completed, pending)
  {
    match value
    case Scalar(_) =>
    case Array(items) => ItemsAgree(items, completed, pending);
    case Object(fields) => FieldsAgree(fields, completed, pending);
    case Text(s) =>
      if ParseReference(s).Some? {
        var r := ParseReference(s).value;
        ParsedStepIsName(s);
        if r.step in completed && Dereference(r, completed).Ok? {
          var stored := Dereference(r, completed).value;
          assert ReferenceFree(stored);
          ResolvesAloneIffReferenceFree(stored, pending);
        }
      }
  }

  lemma {:induction false} ItemsAgree(items: seq<Value>, completed: Context, pending: Context)
    requires StoredSafely(completed) && completed.Keys !! pending.Keys
    ensures match MaterializeItems(items, completed)
            case Ok(done) => ResolveItems(done, pending) == ResolveItems(items, completed + pending)
            case Err(_) => ResolveItems(items, completed + pending).Err?
  {
    if items != [] {
      MaterializeAgrees(items[0], completed, pending);
      ItemsAgree(items[1..], completed, pending);
      if MaterializeItems(items, completed).Ok? {
        var done := MaterializeItems(items, completed).value;
        assert done[1..] == MaterializeItems(items[1..], completed).value;
      }
    }
  }

  lemma {:induction false} FieldsAgree(fields: seq<Field>, completed: Context, pending: Context)
    requires StoredSafely(completed) && completed.Keys !! pending.Keys
    ensures match MaterializeFields(fields, completed)
            case Ok(done) => ResolveFields(done, pending) == ResolveFields(fields, completed + pending)
            case Err(_) => ResolveFields(fields, completed + pending).Err?
  {
    if fields != [] {
      MaterializeAgrees(fields[0].value, completed, pending);
      FieldsAgree(fields[1..], completed, pending);
      if MaterializeFields(fields, completed).Ok? {
        var done := MaterializeFields(fields, completed).value;
        assert done[1..] == MaterializeFields(fields[1..], completed).value;
      }
    }
  }

  /** Safe storage is exactly what makes the two agree for every input and every later context. */
  lemma AgreementNeedsSafeStorage(completed: Context)
    ensures StoredSafely(completed) <==>
            forall value, pending: Context | completed.Keys !! pending.Keys :: Agrees(value, completed, pending)
  {
    if StoredSafely(completed) {
      forall value, pending: Context | completed.Keys !! pending.Keys ensures Agrees(value, completed, pending) {
        MaterializeAgrees(value, completed, pending);
      }
    } else {
      var step, f :| step in completed && IsStepName(step) && f in completed[step] && !ReferenceFree(f.value);
      var value, stored, none: Context := Text("$" + step), Object(completed[step]), map[];
      StepNameParses(step);
      assert completed + none == completed;
      assert !ReferenceFree(stored);
      ResolvesAloneIffReferenceFree(stored, none);
      assert !Agrees(value, completed, none);
    }
  }

  /** More completed outputs never change a value that already resolved. */
  lemma {:induction false} ResolveMonotone(value: Value, small: Context, large: Context)
    requires Resolve(value, small).Ok? && forall s | s in small :: s in large && large[s] == small[s]
    ensures Resolve(value, large) == Resolve(value, small)
  {
    match value
    case Text(_) =>
    case Scalar(_) =>
    case Array(items) => ItemsMonotone(items, small, large);
    case Object(fields) => FieldsMonotone(fields, small, large);
  }

  lemma {:induction false} ItemsMonotone(items: seq<Value>, small: Context, large: Context)
    requires ResolveItems(items, small).Ok? && forall s | s in small :: s in large && large[s] == small[s]
    ensures ResolveItems(items, large) == ResolveItems(items, small)
  {
    if items != [] {
      ResolveMonotone(items[0], small, large);
      ItemsMonotone(items[1..], small, large);
    }
  }

  lemma {:induction false} FieldsMonotone(fields: seq<Field>, small: Context, large: Context)
    requires ResolveFields(fields, small).Ok? && forall s | s in small :: s in large && large[s] == small[s]
    ensures ResolveFields(fields, large) == ResolveFields(fields, small)
  {
    if fields != [] {
      ResolveMonotone(fields[0].value, small, large);
      FieldsMonotone(fields[1..], small, large);
    }
  }
}
