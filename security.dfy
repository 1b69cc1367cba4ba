/** The request gates of backend/src/middleware/security.ts: the Content-Type check
    for requests with a body, the Content-Length limit with JavaScript's `parseInt`,
    and the production origin check, which only warns. */
module Security {
  import opened Wrappers
  import opened Strings
  import opened Http

  const CONTENT_TYPE_ERROR: string := "Content-Type inválido. Use application/json"

  const PAYLOAD_ERROR: string := "Payload muito grande. Tamanho máximo: 100KB"

  /** The methods whose Content-Type is checked; Express reports methods upper-case. */
  const BODY_METHODS: seq<string> := ["POST", "PUT", "PATCH"]

  const JSON_MEDIA_TYPE: string := "application/json"

  /** `limitPayloadSize`'s default limit, in bytes. */
  const DEFAULT_MAX_PAYLOAD: int := 100000

  /** `validateContentType`. `contentType` is the `content-type` header. */
  function ContentTypeDecision(verb: string, contentType: Option<string>): (d: Decision)
    ensures d.Reject? ==> d == Reject(415, CONTENT_TYPE_ERROR)
  {
    if verb in BODY_METHODS then
      if contentType.None? || contentType.value == "" || !Contains(contentType.value, JSON_MEDIA_TYPE) then
        Reject(415, CONTENT_TYPE_ERROR)
      else Next
    else Next
  }

  /** Only POST, PUT and PATCH are checked; such a request passes exactly when its
      Content-Type contains `application/json` anywhere, and without one it is refused. */
  lemma ContentTypeGate(verb: string, contentType: Option<string>)
    ensures verb !in BODY_METHODS ==> ContentTypeDecision(verb, contentType) == Next
    ensures verb in BODY_METHODS ==>
              (ContentTypeDecision(verb, contentType).Next? <==>
                 contentType.Some? && Contains(contentType.value, JSON_MEDIA_TYPE))
    ensures verb in BODY_METHODS && contentType.None? ==>
              ContentTypeDecision(verb, contentType) == Reject(415, CONTENT_TYPE_ERROR)
  {
    if contentType.Some? && contentType.value == "" {
      assert !Contains(contentType.value, JSON_MEDIA_TYPE);
    }
  }

  /** A parameter such as `charset` after the media type still passes: the test is
      a substring test. */
  lemma CharsetParameterAccepted()
    ensures ContentTypeDecision("POST", Some("application/json; charset=utf-8")) == Next
  {
    var ct := "application/json; charset=utf-8";
    assert OccursAt(ct, JSON_MEDIA_TYPE, 0);
    ContainsAt(ct, JSON_MEDIA_TYPE, 0);
  }

  /** The test is case-sensitive: the media type in other letter case is refused. */
  lemma ContentTypeCaseSensitive()
    ensures ContentTypeDecision("PUT", Some("Application/JSON")) == Reject(415, CONTENT_TYPE_ERROR)
  {
    var upper := "Application/JSON";
    assert !(JSON_MEDIA_TYPE <= upper) by {
      assert upper[0] != JSON_MEDIA_TYPE[0];
    }
    ShorterNoContains(upper[1..], JSON_MEDIA_TYPE);
    assert !Contains(upper, JSON_MEDIA_TYPE);
  }

  // ---------------------------------------------------------------------------
  // parseInt

  /** The value of a digit character in base 16 (which covers base 10), or -1. */
  function DigitValue(c: char): int {
    if '0' <= c <= '9' then c as int - '0' as int
    else if 'a' <= c <= 'f' then c as int - 'a' as int + 10
    else if 'A' <= c <= 'F' then c as int - 'A' as int + 10
    else -1
  }

  predicate IsDigitIn(c: char, radix: int) {
    0 <= DigitValue(c) < radix
  }

  /** The longest prefix of `s` made of digits of `radix`. */
  function LeadingDigits(s: string, radix: int): (r: string)
    ensures r <= s
    ensures forall i :: 0 <= i < |r| ==> IsDigitIn(r[i], radix)
    ensures |r| < |s| ==> !IsDigitIn(s[|r|], radix)
  {
    if s != [] && IsDigitIn(s[0], radix) then [s[0]] + LeadingDigits(s[1..], radix) else []
  }

  /** The number a string of digits denotes in `radix`. */
  function DigitsValue(ds: string, radix: int): int {
    if ds == [] then 0 else DigitsValue(ds[..|ds| - 1], radix) * radix + DigitValue(ds[|ds| - 1])
  }

  /** `parseInt(s)` without a radix, `None` standing for NaN: leading white space is
      skipped, one sign is read, `0x` or `0X` selects base 16, and the longest run of
      digits that follows is the value. At least one digit is needed. */
  function ParseInt(s: string): Option<int> {
    var t := TrimStart(s);
    var negative := t != [] && t[0] == '-';
    var rest := if t != [] && (t[0] == '-' || t[0] == '+') then t[1..] else t;
    var hex := |rest| >= 2 && rest[0] == '0' && (rest[1] == 'x' || rest[1] == 'X');
    var radix := if hex then 16 else 10;
    var ds := LeadingDigits(if hex then rest[2..] else rest, radix);
    if ds == [] then None
    else if negative then Some(-DigitsValue(ds, radix))
    else Some(DigitsValue(ds, radix))
  }

  lemma {:induction false} DecimalDigitsValue(n: nat)
    ensures DigitsValue(NatToString(n), 10) == n
  {
    if n >= 10 {
      DecimalDigitsValue(n / 10);
      var s := NatToString(n);
      assert s[..|s| - 1] == NatToString(n / 10);
    }
  }

  lemma {:induction false} AllDigitsLead(s: string)
    requires forall i :: 0 <= i < |s| ==> '0' <= s[i] <= '9'
    ensures LeadingDigits(s, 10) == s
  {
    if s != [] {
      AllDigitsLead(s[1..]);
    }
  }

  lemma {:induction false} LeadingZeroOnlyForZero(n: nat)
    ensures NatToString(n)[0] == '0' ==> n == 0
  {
    if n >= 10 {
      LeadingZeroOnlyForZero(n / 10);
      assert NatToString(n)[0] == NatToString(n / 10)[0];
    }
  }

  /** `parseInt` reads back the decimal rendering of every natural number. */
  lemma ParseIntRoundTrip(n: nat)
    ensures ParseInt(NatToString(n)) == Some(n)
  {
    var s := NatToString(n);
    assert !IsJsSpace(s[0]) && s[0] != '-' && s[0] != '+';
    LeadingZeroOnlyForZero(n);
    AllDigitsLead(s);
    DecimalDigitsValue(n);
  }

  /** Trailing junk after the digits is ignored. */
  lemma ParseIntIgnoresTrailing()
    ensures ParseInt("12abc") == Some(12)
  {
    var s := "12abc";
    assert !IsJsSpace(s[0]);
    assert TrimStart(s) == s;
    assert LeadingDigits(s[2..], 10) == [];
    assert LeadingDigits(s, 10) == "12";
    assert DigitsValue("12", 10) == 12 by {
      assert "12"[..1] == "1";
    }
  }

  /** A `0x` prefix selects base 16. */
  lemma ParseIntHex()
    ensures ParseInt("0x10") == Some(16)
  {
    var s := "0x10";
    assert !IsJsSpace(s[0]);
    assert TrimStart(s) == s;
    assert s[2..] == "10";
    assert LeadingDigits("10", 16) == "10";
    assert DigitsValue("10", 16) == 16 by {
      assert "10"[..1] == "1";
    }
  }

  /** Without a single digit the result is NaN. */
  lemma ParseIntNaN(s: string)
    requires forall i :: 0 <= i < |s| ==> !IsDigitIn(s[i], 16) && s[i] != '-' && s[i] != '+'
    ensures ParseInt(s) == None
  {
    var t := TrimStart(s);
    assert t == s[|s| - |t|..];
    if t != [] {
      assert t[0] == s[|s| - |t|];
    }
  }

  // ---------------------------------------------------------------------------
  // limitPayloadSize

  /** The middleware `limitPayloadSize(maxSize)` builds. `contentLength` is the
      `content-length` header; an empty one is falsy and passes. Comparing NaN with
      the limit is false, so an unreadable length passes too. The message names
      100KB whatever the limit. */
  function PayloadDecision(contentLength: Option<string>, maxSize: int): (d: Decision)
    ensures d.Reject? ==> d == Reject(413, PAYLOAD_ERROR)
  {
    if contentLength.Some? && contentLength.value != "" then
      var n := ParseInt(contentLength.value);
      if n.Some? && n.value > maxSize then Reject(413, PAYLOAD_ERROR) else Next
    else Next
  }

  /** A stated length is refused exactly when it is strictly above the limit: the
      limit itself passes, so does a missing or unreadable header. */
  lemma PayloadLimit(n: nat, maxSize: int, junk: string)
    requires ParseInt(junk) == None
    ensures PayloadDecision(Some(NatToString(n)), maxSize).Reject? <==> n > maxSize
    ensures PayloadDecision(Some(NatToString(n)), n) == Next
    ensures PayloadDecision(None, maxSize) == Next && PayloadDecision(Some(junk), maxSize) == Next
  {
    ParseIntRoundTrip(n);
  }

  /** With the default limit, 100000 bytes pass and 100001 are refused. */
  lemma DefaultPayloadLimit()
    ensures PayloadDecision(Some(NatToString(100000)), DEFAULT_MAX_PAYLOAD) == Next
    ensures PayloadDecision(Some(NatToString(100001)), DEFAULT_MAX_PAYLOAD) == Reject(413, PAYLOAD_ERROR)
  {
    ParseIntRoundTrip(100000);
    ParseIntRoundTrip(100001);
  }

  // ---------------------------------------------------------------------------
  // validateOrigin

  const PRODUCTION_FRONTEND: string := "https://minigroups.vercel.app"

  /** The middleware's decision and whether it logs the origin as suspicious. */
  datatype OriginVerdict = OriginVerdict(decision: Decision, warned: bool)

  /** `validateOrigin`. `frontendUrl` is `FRONTEND_URL`; a falsy one is filtered out. */
  function OriginCheck(production: bool, origin: Option<string>, frontendUrl: Option<string>): (r: OriginVerdict)
    ensures r.decision == Next
    ensures r.warned <==>
              production && origin.Some? && origin.value != "" && origin.value != PRODUCTION_FRONTEND
              && (frontendUrl.None? || origin.value != frontendUrl.value)
  {
    var listed := [PRODUCTION_FRONTEND] + (if frontendUrl.Some? && frontendUrl.value != "" then [frontendUrl.value] else []);
    OriginVerdict(Next, production && origin.Some? && origin.value != "" && origin.value !in listed)
  }
}
