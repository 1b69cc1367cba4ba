/** The logging rules of backend/src/utils/logger.ts: which levels are written, which
    finished requests the request logger reports, and the redactor that copies a
    value before logging it with sensitive fields masked. Console output and its
    formatting are not part of the model. */
module Logger {
  import opened Strings
  import opened Values

  datatype LogLevel = Info | Warn | Error | Debug | Security

  /** `shouldLog`: everything except `debug` in production. */
  predicate ShouldLog(production: bool, level: LogLevel) {
    !(production && level == Debug)
  }

  lemma ShouldLogOnlyHidesDebugInProduction(production: bool, level: LogLevel)
    ensures !ShouldLog(production, level) <==> production && level == Debug
  {
  }

  /** The slow-request bound of the production filter, in milliseconds. */
  const SLOW_REQUEST_MS: int := 5000

  /** Whether `requestLogger` writes a line once a response has finished: always in
      development; in production only for an error status or a slow request. The line
      goes through `info`, which every environment writes. */
  predicate RequestLogged(production: bool, statusCode: int, durationMs: int) {
    (!production || statusCode >= 400 || durationMs > SLOW_REQUEST_MS) && ShouldLog(production, Info)
  }

  lemma RequestFilter(production: bool, statusCode: int, durationMs: int)
    ensures !production ==> RequestLogged(production, statusCode, durationMs)
    ensures production ==>
              (RequestLogged(production, statusCode, durationMs) <==> statusCode >= 400 || durationMs > 5000)
    ensures production && statusCode < 400 && durationMs == 5000 ==> !RequestLogged(production, statusCode, durationMs)
  {
  }

  // ---------------------------------------------------------------------------
  // sanitizeForLog

  const REDACTED: string := "***REDACTED***"

  /** The list as written. Keys are lower-cased before the test, so `apiKey`, which
      holds a capital, can never match. */
  const SENSITIVE_FIELDS: seq<string> := ["password", "token", "apiKey", "secret", "authorization", "cookie"]

  /** `toLowerCase` on one character, as far as a test for an ASCII word can tell:
      A-Z fold, U+0130 becomes `i` and a combining dot, the Kelvin sign becomes `k`.
      Every other character's lower case holds no ASCII character, so it is kept. */
  function KeyLowerChar(c: char): string {
    if c == '\U{0130}' then "i\U{0307}"
    else if c == '\U{212A}' then "k"
    else [LowerChar(c)]
  }

  function KeyLower(s: string): (r: string)
    ensures forall i :: 0 <= i < |r| ==> !('A' <= r[i] <= 'Z')
  {
    if s == [] then [] else KeyLowerChar(s[0]) + KeyLower(s[1..])
  }

  /** `sensitiveFields.some(field => key.toLowerCase().includes(field))`. */
  predicate Sensitive(key: string) {
    exists i :: 0 <= i < |SENSITIVE_FIELDS| && Contains(KeyLower(key), SENSITIVE_FIELDS[i])
  }

  /** No lower-cased key holds `apiKey`, so that entry never redacts. */
  lemma ApiKeyEntryInert(key: string)
    ensures !Contains(KeyLower(key), "apiKey")
  {
    var l := KeyLower(key);
    forall i: nat
      ensures !OccursAt(l, "apiKey", i)
    {
      if i + 6 <= |l| {
        assert !('A' <= l[i + 3] <= 'Z');
        assert l[i..i + 6][3] == l[i + 3];
        assert "apiKey"[3] == 'K';
      }
    }
    ContainsIffOccurs(l, "apiKey");
  }

  /** The list in effect: a key is redacted exactly when its lower case holds one of
      the five other words. */
  lemma SensitiveIff(key: string)
    ensures Sensitive(key) <==>
              || Contains(KeyLower(key), "password") || Contains(KeyLower(key), "token")
              || Contains(KeyLower(key), "secret") || Contains(KeyLower(key), "authorization")
              || Contains(KeyLower(key), "cookie")
  {
    ApiKeyEntryInert(key);
    var l := KeyLower(key);
    if Contains(l, "password") { assert Contains(l, SENSITIVE_FIELDS[0]); }
    if Contains(l, "token") { assert Contains(l, SENSITIVE_FIELDS[1]); }
    if Contains(l, "secret") { assert Contains(l, SENSITIVE_FIELDS[3]); }
    if Contains(l, "authorization") { assert Contains(l, SENSITIVE_FIELDS[4]); }
    if Contains(l, "cookie") { assert Contains(l, SENSITIVE_FIELDS[5]); }
  }

  /** `{ ...data }` for an object or an array: an array's elements become properties
      named by their indices. */
  function Spread(v: Value): (r: seq<Field>)
    requires v.Arr? || v.Obj?
    ensures v.Obj? ==> r == v.fields
    ensures v.Arr? ==> |r| == |v.items| && forall i :: 0 <= i < |r| ==> r[i] == Field(NatToString(i), v.items[i])
  {
    if v.Obj? then v.fields
    else seq(|v.items|, i requires 0 <= i < |v.items| => Field(NatToString(i), v.items[i]))
  }

  /** What `sanitizeForLog(data)` returns. */
  function Redacted(v: Value): Value
    decreases v, 1
  {
    if !v.Arr? && !v.Obj? then v
    else
      var fields := Spread(v);
      Obj(seq(|fields|, i requires 0 <= i < |fields| => RedactField(fields[i].key, fields[i].val)))
  }

  /** One turn of the loop: a sensitive key is masked without looking inside; an
      object, array or null under any other key is redacted in turn; anything else
      is copied. */
  function RedactField(key: string, val: Value): Field
    decreases val, 2
  {
    if Sensitive(key) then Field(key, Str(REDACTED))
    else if IsObjectType(val) then Field(key, Redacted(val))
    else Field(key, val)
  }

  /** The `some` walk over the list for one key. */
  method IsSensitiveKey(key: string) returns (b: bool)
    ensures b == Sensitive(key)
  {
    var lowered := KeyLower(key);
    b := false;
    var i := 0;
    while i < |SENSITIVE_FIELDS| && !b
      invariant 0 <= i <= |SENSITIVE_FIELDS|
      invariant b <==> exists j :: 0 <= j < i && Contains(lowered, SENSITIVE_FIELDS[j])
    {
      b := Contains(lowered, SENSITIVE_FIELDS[i]);
      i := i + 1;
    }
  }

  /** `sanitizeForLog`: copy, then overwrite the copy's fields one by one. The input,
      a value, is not changed. */
  method SanitizeForLog(data: Value) returns (r: Value)
    ensures r == Redacted(data)
    decreases data, 1
  {
    if !data.Arr? && !data.Obj? {
      return data;
    }
    var original := Spread(data);
    var sanitized := original;
    var i := 0;
    while i < |sanitized|
      invariant 0 <= i <= |sanitized| == |original|
      invariant forall j :: 0 <= j < i ==> sanitized[j] == RedactField(original[j].key, original[j].val)
      invariant forall j :: i <= j < |sanitized| ==> sanitized[j] == original[j]
    {
      var key := sanitized[i].key;
      var sensitive := IsSensitiveKey(key);
      if sensitive {
        sanitized := sanitized[i := Field(key, Str(REDACTED))];
      } else if IsObjectType(sanitized[i].val) {
        if data.Obj? {
          assert original[i] in data.fields;
        }
        var inner := SanitizeForLog(original[i].val);
        sanitized := sanitized[i := Field(key, inner)];
      }
      i := i + 1;
    }
    assert sanitized == seq(|original|, j requires 0 <= j < |original| => RedactField(original[j].key, original[j].val));
    return Obj(sanitized);
  }

  // ---------------------------------------------------------------------------
  // Properties of the redactor

  /** A value that is not an object comes back as it is; an object or array comes
      back as a fresh object with the same keys in the same order (an array's keys
      being its indices), where a sensitive key holds the mask. */
  lemma RedactedShape(v: Value)
    ensures !v.Arr? && !v.Obj? ==> Redacted(v) == v
    ensures v.Obj? ==> Redacted(v).Obj? && KeysOf(Redacted(v).fields) == KeysOf(v.fields)
    ensures v.Arr? ==> Redacted(v).Obj? && |Redacted(v).fields| == |v.items|
                       && forall i :: 0 <= i < |v.items| ==> Redacted(v).fields[i].key == NatToString(i)
    ensures v.Arr? || v.Obj? ==>
              forall i :: 0 <= i < |Redacted(v).fields| && Sensitive(Redacted(v).fields[i].key) ==>
                Redacted(v).fields[i].val == Str(REDACTED)
  {
  }

  /** No sensitive key anywhere holds anything but the mask, and no array is left. */
  predicate Clean(v: Value)
    decreases v
  {
    match v
    case Arr(_) => false
    case Obj(fields) =>
      forall i :: 0 <= i < |fields| ==>
        (Sensitive(fields[i].key) ==> fields[i].val == Str(REDACTED)) && Clean(fields[i].val)
    case _ => true
  }

  /** Whatever goes in, what comes out is clean, however deep the nesting. */
  lemma {:induction false} RedactedIsClean(v: Value)
    ensures Clean(Redacted(v))
    decreases v
  {
    if v.Arr? || v.Obj? {
      var fields := Spread(v);
      var out := Redacted(v).fields;
      forall i | 0 <= i < |fields|
        ensures Clean(out[i].val)
      {
        if !Sensitive(fields[i].key) && IsObjectType(fields[i].val) {
          if v.Obj? {
            assert fields[i] in v.fields;
          }
          RedactedIsClean(fields[i].val);
        }
      }
    }
  }

  /** A clean value is left as it is. */
  lemma {:induction false} CleanIsFixed(v: Value)
    requires Clean(v)
    ensures Redacted(v) == v
    decreases v
  {
    if v.Obj? {
      var fields := v.fields;
      forall i | 0 <= i < |fields|
        ensures RedactField(fields[i].key, fields[i].val) == fields[i]
      {
        if !Sensitive(fields[i].key) && IsObjectType(fields[i].val) {
          assert fields[i] in v.fields;
          CleanIsFixed(fields[i].val);
        }
      }
      assert Redacted(v).fields == fields;
    }
  }

  /** Redacting twice is redacting once. */
  lemma RedactIdempotent(v: Value)
    ensures Redacted(Redacted(v)) == Redacted(v)
  {
    RedactedIsClean(v);
    CleanIsFixed(Redacted(v));
  }

  /** A field named `apiKey` is not masked: its value is copied, or redacted in turn
      when it is an object. */
  lemma ApiKeyKept(val: Value)
    ensures RedactField("apiKey", val) == Field("apiKey", if IsObjectType(val) then Redacted(val) else val)
  {
    ApiKeyNotSensitive();
  }

  /** A key holding a listed word in any mixture of case is masked. */
  lemma CaseVariantMasked(key: string, word: string, k: nat, val: Value)
    requires k < |SENSITIVE_FIELDS| && KeyLower(word) == SENSITIVE_FIELDS[k] && Contains(key, word)
    ensures RedactField(key, val) == Field(key, Str(REDACTED))
  {
    KeyLowerKeepsContains(key, word);
  }

  lemma {:induction false} KeyLowerKeepsContains(s: string, sub: string)
    requires Contains(s, sub)
    ensures Contains(KeyLower(s), KeyLower(sub))
  {
    if sub <= s {
      KeyLowerOfPrefix(sub, s[|sub|..]);
      assert s == sub + s[|sub|..];
      PrefixOfConcat(KeyLower(sub), KeyLower(s[|sub|..]));
      HasPrefixIff(KeyLower(sub), KeyLower(sub) + KeyLower(s[|sub|..]));
    } else {
      KeyLowerKeepsContains(s[1..], sub);
      assert s == [s[0]] + s[1..];
      ContainsSuffix(KeyLowerChar(s[0]), KeyLower(s[1..]), KeyLower(sub));
    }
  }

  lemma {:induction false} KeyLowerOfPrefix(a: string, b: string)
    ensures KeyLower(a + b) == KeyLower(a) + KeyLower(b)
  {
    if a != [] {
      assert (a + b)[1..] == a[1..] + b;
      KeyLowerOfPrefix(a[1..], b);
    } else {
      assert a + b == b;
    }
  }

  /** None of the other sensitive words occurs in `apikey`. */
  lemma ApikeyLacksWords()
    ensures !Contains("apikey", "password") && !Contains("apikey", "authorization")
    ensures !Contains("apikey", "secret") && !Contains("apikey", "cookie") && !Contains("apikey", "token")
  {
    var l := "apikey";
    ShorterNoContains(l, "password");
    ShorterNoContains(l, "authorization");
    assert !Contains(l, "secret") by {
      assert l[0] != 's';
      ShorterNoContains(l[1..], "secret");
    }
    assert !Contains(l, "cookie") by {
      assert l[0] != 'c';
      ShorterNoContains(l[1..], "cookie");
    }
    assert !Contains(l, "token") by {
      assert l[0] != 't' && l[1] != 't';
      ShorterNoContains(l[2..], "token");
    }
  }

  lemma LowerApiKey()
    ensures KeyLower("apiKey") == "apikey"
  {
  }

  /** The key `apiKey` itself is not redacted: it is lowered before the test, and
      the list entry `apiKey` is not. */
  lemma ApiKeyNotSensitive()
    ensures !Sensitive("apiKey")
  {
    LowerApiKey();
    SensitiveIff("apiKey");
    ApikeyLacksWords();
  }
}
