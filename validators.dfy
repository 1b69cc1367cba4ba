/** The request validators of backend/src/middleware/validators.ts: the recursive input
    sanitiser run over body, query and params, the API-key gate, and the reply built
    from the validation errors collected earlier in a route. */
module Validators {
  import opened Wrappers
  import opened Strings
  import opened Values
  import opened Http

  /** The message of the error `sanitizeObject` throws, which becomes the 400 body. */
  const REJECTED: string := "Entrada contém caracteres ou padrões não permitidos"

  const API_KEY_ERROR: string := "API Key inválida ou ausente"

  const VALIDATION_ERROR: string := "Erro de validação"

  /** The three patterns of the list that are more than substring tests: the script
      element, `on\w+\s*=` and the SQL statement shapes. They are given, not modelled. */
  datatype Detectors = Detectors(scriptTag: string -> bool, eventHandler: string -> bool,
                                 sqlCommand: string -> bool)

  /** The entries of `dangerousPatterns`, in the order they are tried. */
  datatype Pattern = SqlChars | ScriptTag | JsProtocol | EventHandler | SqlCommand

  const DANGEROUS_PATTERNS: seq<Pattern> := [SqlChars, ScriptTag, JsProtocol, EventHandler, SqlCommand]

  /** The first pattern: `%27`, `'`, `--`, `%23` or `#` anywhere. Its `i` flag changes
      nothing, since none of the alternatives holds a letter. */
  predicate HasSqlChar(s: string) {
    Contains(s, "%27") || Contains(s, "'") || Contains(s, "--") || Contains(s, "%23") || Contains(s, "#")
  }

  /** Whether one pattern's `test` succeeds on `s`. A global regular expression keeps
      its `lastIndex` between calls, but each failed test resets it to 0 and the
      first successful one ends the walk, so every test starts at index 0. */
  predicate PatternMatches(p: Pattern, s: string, det: Detectors) {
    match p
    case SqlChars => HasSqlChar(s)
    case ScriptTag => det.scriptTag(s)
    case JsProtocol => ContainsIgnoringCase(s, "javascript:")
    case EventHandler => det.eventHandler(s)
    case SqlCommand => det.sqlCommand(s)
  }

  /** Some pattern of the list matches `s`. */
  predicate Dangerous(s: string, det: Detectors) {
    exists i :: 0 <= i < |DANGEROUS_PATTERNS| && PatternMatches(DANGEROUS_PATTERNS[i], s, det)
  }

  /** The list, spelt out: a string is refused exactly when one of the five rules holds. */
  lemma DangerousIff(s: string, det: Detectors)
    ensures Dangerous(s, det) <==>
              HasSqlChar(s) || det.scriptTag(s) || ContainsIgnoringCase(s, "javascript:")
              || det.eventHandler(s) || det.sqlCommand(s)
  {
    if HasSqlChar(s) { assert PatternMatches(DANGEROUS_PATTERNS[0], s, det); }
    if det.scriptTag(s) { assert PatternMatches(DANGEROUS_PATTERNS[1], s, det); }
    if ContainsIgnoringCase(s, "javascript:") { assert PatternMatches(DANGEROUS_PATTERNS[2], s, det); }
    if det.eventHandler(s) { assert PatternMatches(DANGEROUS_PATTERNS[3], s, det); }
    if det.sqlCommand(s) { assert PatternMatches(DANGEROUS_PATTERNS[4], s, det); }
  }

  /** The `for ... of dangerousPatterns` walk over one string: true at the first
      pattern that matches. */
  method MatchesAnyPattern(s: string, det: Detectors) returns (hit: bool)
    ensures hit == Dangerous(s, det)
  {
    hit := false;
    var i := 0;
    while i < |DANGEROUS_PATTERNS| && !hit
      invariant 0 <= i <= |DANGEROUS_PATTERNS|
      invariant hit <==> exists j :: 0 <= j < i && PatternMatches(DANGEROUS_PATTERNS[j], s, det)
    {
      hit := PatternMatches(DANGEROUS_PATTERNS[i], s, det);
      i := i + 1;
    }
  }

  // ---------------------------------------------------------------------------
  // sanitizeObject, as a specification

  /** What `sanitizeObject(v)` returns, or the error it throws. */
  function Sanitized(v: Value, det: Detectors): Result<Value, string>
    decreases v
  {
    match v
    case Str(s) => if Dangerous(s, det) then Failure(REJECTED) else Success(Str(Trim(s)))
    case Arr(items) =>
      var r := SanitizedItems(items, det);
      if r.Success? then Success(Arr(r.value)) else Failure(r.error)
    case Obj(fields) =>
      var r := SanitizedFields(fields, det);
      if r.Success? then Success(Obj(r.value)) else Failure(r.error)
    case _ => Success(v)
  }

  /** `items.map(sanitizeObject)`: the elements in order, stopping at the first throw. */
  function SanitizedItems(items: seq<Value>, det: Detectors): Result<seq<Value>, string>
    decreases items
  {
    if items == [] then Success([])
    else
      var init := SanitizedItems(items[..|items| - 1], det);
      if init.Failure? then init
      else
        var last := Sanitized(items[|items| - 1], det);
        if last.Failure? then Failure(last.error) else Success(init.value + [last.value])
  }

  /** The `for ... in` copy of an object: each property in order, stopping at the
      first throw. */
  function SanitizedFields(fields: seq<Field>, det: Detectors): Result<seq<Field>, string>
    decreases fields
  {
    if fields == [] then Success([])
    else
      var init := SanitizedFields(fields[..|fields| - 1], det);
      if init.Failure? then init
      else
        var f := fields[|fields| - 1];
        var last := Sanitized(f.val, det);
        if last.Failure? then Failure(last.error) else Success(init.value + [Field(f.key, last.value)])
  }

  // ---------------------------------------------------------------------------
  // A reference definition, and the theorem tying the two together

  /** Some string anywhere inside `v` is dangerous. */
  predicate HasDangerousLeaf(v: Value, det: Detectors)
    decreases v
  {
    match v
    case Str(s) => Dangerous(s, det)
    case Arr(items) => exists i :: 0 <= i < |items| && HasDangerousLeaf(items[i], det)
    case Obj(fields) => exists i :: 0 <= i < |fields| && HasDangerousLeaf(fields[i].val, det)
    case _ => false
  }

  /** `v` with every string trimmed: same array lengths, same keys in the same order,
      every other value unchanged. */
  function TrimLeaves(v: Value): Value
    decreases v
  {
    match v
    case Str(s) => Str(Trim(s))
    case Arr(items) => Arr(seq(|items|, i requires 0 <= i < |items| => TrimLeaves(items[i])))
    case Obj(fields) =>
      Obj(seq(|fields|, i requires 0 <= i < |fields| => Field(fields[i].key, TrimLeaves(fields[i].val))))
    case _ => v
  }

  /** `sanitizeObject` throws the fixed error exactly when some string inside its
      argument is dangerous, and otherwise returns the argument with every string
      trimmed. */
  lemma {:induction false} SanitizedMeaning(v: Value, det: Detectors)
    ensures Sanitized(v, det) == if HasDangerousLeaf(v, det) then Failure(REJECTED) else Success(TrimLeaves(v))
    decreases v
  {
    match v
    case Arr(items) =>
      ItemsMeaning(items, det);
      if !HasDangerousLeaf(v, det) {
        assert SanitizedItems(items, det).value == TrimLeaves(v).items;
      }
    case Obj(fields) =>
      FieldsMeaning(fields, det);
      if !HasDangerousLeaf(v, det) {
        assert SanitizedFields(fields, det).value == TrimLeaves(v).fields;
      }
    case _ =>
  }

  lemma {:induction false} ItemsMeaning(items: seq<Value>, det: Detectors)
    ensures SanitizedItems(items, det).Failure? <==> exists i :: 0 <= i < |items| && HasDangerousLeaf(items[i], det)
    ensures SanitizedItems(items, det).Failure? ==> SanitizedItems(items, det).error == REJECTED
    ensures SanitizedItems(items, det).Success? ==>
              var r := SanitizedItems(items, det).value;
              |r| == |items| && forall i :: 0 <= i < |items| ==> r[i] == TrimLeaves(items[i])
    decreases items
  {
    if items != [] {
      var init := items[..|items| - 1];
      var last := items[|items| - 1];
      ItemsMeaning(init, det);
      SanitizedMeaning(last, det);
      if exists i :: 0 <= i < |items| && HasDangerousLeaf(items[i], det) {
        var i :| 0 <= i < |items| && HasDangerousLeaf(items[i], det);
        if i < |init| {
          assert init[i] == items[i] && HasDangerousLeaf(init[i], det);
        }
      } else {
        assert forall i :: 0 <= i < |init| ==> init[i] == items[i] && !HasDangerousLeaf(init[i], det);
        assert !HasDangerousLeaf(last, det);
      }
    }
  }

  lemma {:induction false} FieldsMeaning(fields: seq<Field>, det: Detectors)
    ensures SanitizedFields(fields, det).Failure? <==>
              exists i :: 0 <= i < |fields| && HasDangerousLeaf(fields[i].val, det)
    ensures SanitizedFields(fields, det).Failure? ==> SanitizedFields(fields, det).error == REJECTED
    ensures SanitizedFields(fields, det).Success? ==>
              var r := SanitizedFields(fields, det).value;
              |r| == |fields| && forall i :: 0 <= i < |fields| ==> r[i] == Field(fields[i].key, TrimLeaves(fields[i].val))
    decreases fields
  {
    if fields != [] {
      var init := fields[..|fields| - 1];
      var last := fields[|fields| - 1];
      FieldsMeaning(init, det);
      SanitizedMeaning(last.val, det);
      if exists i :: 0 <= i < |fields| && HasDangerousLeaf(fields[i].val, det) {
        var i :| 0 <= i < |fields| && HasDangerousLeaf(fields[i].val, det);
        if i < |init| {
          assert init[i] == fields[i] && HasDangerousLeaf(init[i].val, det);
        }
      } else {
        assert forall i :: 0 <= i < |init| ==> init[i] == fields[i] && !HasDangerousLeaf(init[i].val, det);
        assert !HasDangerousLeaf(last.val, det);
      }
    }
  }

  /** A string holding `'`, `--`, `#`, `%27` or `%23`, or `javascript:` in any case,
      is refused with the fixed message. */
  lemma SubstringPatternsRejected(s: string, det: Detectors)
    requires HasSqlChar(s) || ContainsIgnoringCase(s, "javascript:")
    ensures Sanitized(Str(s), det) == Failure(REJECTED)
  {
    DangerousIff(s, det);
  }

  /** An accepted string comes back trimmed, and trimming it again changes nothing. */
  lemma AcceptedStringTrimmed(s: string, det: Detectors)
    ensures Sanitized(Str(s), det).Success? <==> !Dangerous(s, det)
    ensures Sanitized(Str(s), det).Success? ==>
              && Sanitized(Str(s), det).value == Str(Trim(s))
              && Trim(Sanitized(Str(s), det).value.s) == Sanitized(Str(s), det).value.s
  {
    TrimIdempotent(s);
  }

  /** An accepted array keeps its length, with each element sanitised on its own; it
      is accepted exactly when every element is. */
  lemma ArrayElementwise(items: seq<Value>, det: Detectors)
    ensures Sanitized(Arr(items), det).Success? <==> forall i :: 0 <= i < |items| ==> Sanitized(items[i], det).Success?
    ensures Sanitized(Arr(items), det).Success? ==>
              var r := Sanitized(Arr(items), det).value;
              && r.Arr? && |r.items| == |items|
              && forall i :: 0 <= i < |items| ==> Success(r.items[i]) == Sanitized(items[i], det)
  {
    SanitizedMeaning(Arr(items), det);
    forall i | 0 <= i < |items| {
      SanitizedMeaning(items[i], det);
    }
  }

  /** An accepted object keeps its keys in order, each value sanitised on its own; it
      is accepted exactly when every value is. */
  lemma ObjectKeysKept(fields: seq<Field>, det: Detectors)
    ensures Sanitized(Obj(fields), det).Success? <==>
              forall i :: 0 <= i < |fields| ==> Sanitized(fields[i].val, det).Success?
    ensures Sanitized(Obj(fields), det).Success? ==>
              var r := Sanitized(Obj(fields), det).value;
              && r.Obj? && KeysOf(r.fields) == KeysOf(fields)
              && forall i :: 0 <= i < |fields| ==> Success(r.fields[i].val) == Sanitized(fields[i].val, det)
  {
    SanitizedMeaning(Obj(fields), det);
    forall i | 0 <= i < |fields| {
      SanitizedMeaning(fields[i].val, det);
    }
  }

  /** Numbers, booleans, `null` and `undefined` come back unchanged. */
  lemma ScalarsUnchanged(v: Value, det: Detectors)
    requires !v.Str? && !v.Arr? && !v.Obj?
    ensures Sanitized(v, det) == Success(v)
  {
  }

  // ---------------------------------------------------------------------------
  // sanitizeObject, as the recursive method the source runs

  /** `sanitizeObject(v)`. */
  method SanitizeObject(v: Value, det: Detectors) returns (r: Result<Value, string>)
    ensures r == Sanitized(v, det)
    decreases v
  {
    match v
    case Str(s) => {
      var hit := MatchesAnyPattern(s, det);
      if hit {
        return Failure(REJECTED);
      }
      return Success(Str(Trim(s)));
    }
    case Arr(items) => {
      var out: seq<Value> := [];
      var i := 0;
      while i < |items|
        invariant 0 <= i <= |items|
        invariant SanitizedItems(items[..i], det) == Success(out)
      {
        var x := SanitizeObject(items[i], det);
        assert items[..i + 1][..i] == items[..i];
        if x.Failure? {
          ItemsFailureStays(items, i + 1, det);
          return Failure(x.error);
        }
        out := out + [x.value];
        i := i + 1;
      }
      assert items[..i] == items;
      return Success(Arr(out));
    }
    case Obj(fields) => {
      var out: seq<Field> := [];
      var i := 0;
      while i < |fields|
        invariant 0 <= i <= |fields|
        invariant SanitizedFields(fields[..i], det) == Success(out)
      {
        var x := SanitizeObject(fields[i].val, det);
        assert fields[..i + 1][..i] == fields[..i];
        if x.Failure? {
          FieldsFailureStays(fields, i + 1, det);
          return Failure(x.error);
        }
        out := out + [Field(fields[i].key, x.value)];
        i := i + 1;
      }
      assert fields[..i] == fields;
      return Success(Obj(out));
    }
    case _ => return Success(v);
  }

  /** Once an element throws, `map` throws that error. */
  lemma {:induction false} ItemsFailureStays(items: seq<Value>, k: nat, det: Detectors)
    requires k <= |items| && SanitizedItems(items[..k], det).Failure?
    ensures SanitizedItems(items, det) == SanitizedItems(items[..k], det)
    decreases |items| - k
  {
    if k < |items| {
      assert items[..k + 1][..k] == items[..k];
      ItemsFailureStays(items, k + 1, det);
    } else {
      assert items[..k] == items;
    }
  }

  lemma {:induction false} FieldsFailureStays(fields: seq<Field>, k: nat, det: Detectors)
    requires k <= |fields| && SanitizedFields(fields[..k], det).Failure?
    ensures SanitizedFields(fields, det) == SanitizedFields(fields[..k], det)
    decreases |fields| - k
  {
    if k < |fields| {
      assert fields[..k + 1][..k] == fields[..k];
      FieldsFailureStays(fields, k + 1, det);
    } else {
      assert fields[..k] == fields;
    }
  }

  // ---------------------------------------------------------------------------
  // sanitizeInput

  /** The parts of an Express request the sanitiser reads and reassigns. */
  class Request {
    var body: Value
    var query: Value
    var params: Value

    constructor (body: Value, query: Value, params: Value)
      ensures this.body == body && this.query == query && this.params == params
    {
      this.body := body;
      this.query := query;
      this.params := params;
    }
  }

  /** One `if (part) part = sanitizeObject(part)` step: a falsy part is left alone. */
  function SanitizedPart(v: Value, det: Detectors): Result<Value, string> {
    if Truthy(v) then Sanitized(v, det) else Success(v)
  }

  lemma PartMeaning(v: Value, det: Detectors)
    ensures SanitizedPart(v, det) ==
              if Truthy(v) && HasDangerousLeaf(v, det) then Failure(REJECTED)
              else Success(if Truthy(v) then TrimLeaves(v) else v)
  {
    SanitizedMeaning(v, det);
  }

  /** The decision of `sanitizeInput` and the request it leaves behind. The parts are
      reassigned one after the other, so a refusal in the query keeps the sanitised
      body. */
  datatype InputOutcome = InputOutcome(decision: Decision, body: Value, query: Value, params: Value)

  function SanitizeInputStep(body: Value, query: Value, params: Value, det: Detectors): InputOutcome {
    var b := SanitizedPart(body, det);
    if b.Failure? then InputOutcome(Reject(400, b.error), body, query, params)
    else
      var q := SanitizedPart(query, det);
      if q.Failure? then InputOutcome(Reject(400, q.error), b.value, query, params)
      else
        var p := SanitizedPart(params, det);
        if p.Failure? then InputOutcome(Reject(400, p.error), b.value, q.value, params)
        else InputOutcome(Next, b.value, q.value, p.value)
  }

  /** The `sanitizeInput` middleware. */
  method SanitizeInput(req: Request, det: Detectors) returns (d: Decision)
    modifies req
    ensures var s := SanitizeInputStep(old(req.body), old(req.query), old(req.params), det);
            d == s.decision && req.body == s.body && req.query == s.query && req.params == s.params
  {
    if Truthy(req.body) {
      var b := SanitizeObject(req.body, det);
      if b.Failure? {
        return Reject(400, b.error);
      }
      req.body := b.value;
    }
    if Truthy(req.query) {
      var q := SanitizeObject(req.query, det);
      if q.Failure? {
        return Reject(400, q.error);
      }
      req.query := q.value;
    }
    if Truthy(req.params) {
      var p := SanitizeObject(req.params, det);
      if p.Failure? {
        return Reject(400, p.error);
      }
      req.params := p.value;
    }
    return Next;
  }

  /** A truthy part holding a dangerous string anywhere answers 400 with the fixed
      message and `next` is not called; otherwise `next` is called and every truthy
      part has each of its strings trimmed, the falsy ones untouched. */
  lemma SanitizeInputDecision(body: Value, query: Value, params: Value, det: Detectors)
    ensures var s := SanitizeInputStep(body, query, params, det);
            && (s.decision.Next? <==>
                  !(Truthy(body) && HasDangerousLeaf(body, det))
                  && !(Truthy(query) && HasDangerousLeaf(query, det))
                  && !(Truthy(params) && HasDangerousLeaf(params, det)))
            && (s.decision.Reject? ==> s.decision == Reject(400, REJECTED))
            && (s.decision.Next? ==>
                  && s.body == (if Truthy(body) then TrimLeaves(body) else body)
                  && s.query == (if Truthy(query) then TrimLeaves(query) else query)
                  && s.params == (if Truthy(params) then TrimLeaves(params) else params))
  {
    PartMeaning(body, det);
    PartMeaning(query, det);
    PartMeaning(params, det);
  }

  // ---------------------------------------------------------------------------
  // validateApiKey

  /** `validateApiKey`. `header` is the `x-api-key` header and `configured` the
      `API_KEY` environment variable; an empty value of either is falsy. */
  function ApiKeyDecision(header: Option<string>, configured: Option<string>): (d: Decision)
    ensures d.Next? <==> configured.None? || configured.value == "" || header == configured
    ensures d.Reject? ==> d == Reject(401, API_KEY_ERROR)
  {
    if configured.None? || configured.value == "" then Next
    else if header.None? || header.value == "" || header != configured then Reject(401, API_KEY_ERROR)
    else Next
  }

  // ---------------------------------------------------------------------------
  // handleValidationErrors

  /** One entry of express-validator's error list; `path` and `value` are absent on
      errors that do not concern a single field. */
  datatype ValidationError = ValidationError(path: Option<string>, msg: string, value: Option<Value>)

  datatype Detail = Detail(field: string, message: string, value: Value)

  /** Either `next()`, or a status, the error text and one detail per error. */
  datatype ValidationOutcome = Proceed | Invalid(status: int, error: string, details: seq<Detail>)

  function DetailOf(e: ValidationError): Detail {
    Detail(if e.path.Some? then e.path.value else "unknown", e.msg, if e.value.Some? then e.value.value else Undefined)
  }

  /** `handleValidationErrors`. */
  function ValidationErrorsOutcome(errors: seq<ValidationError>): (o: ValidationOutcome)
    ensures o.Proceed? <==> errors == []
    ensures o.Invalid? ==>
              && o.status == 400 && o.error == VALIDATION_ERROR && |o.details| == |errors|
              && forall i :: 0 <= i < |errors| ==>
                   && o.details[i].message == errors[i].msg
                   && (errors[i].path.Some? ==> o.details[i].field == errors[i].path.value)
                   && (errors[i].path.None? ==> o.details[i].field == "unknown")
                   && (errors[i].value.Some? ==> o.details[i].value == errors[i].value.value)
                   && (errors[i].value.None? ==> o.details[i].value == Undefined)
  {
    if errors == [] then Proceed
    else Invalid(400, VALIDATION_ERROR, seq(|errors|, i requires 0 <= i < |errors| => DetailOf(errors[i])))
  }
}
