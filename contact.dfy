/** The contact form (backend/src/routes/contact.ts): the validation chains run over
    the body, with their own rules for names, Roblox links and messages, and the POST
    handler's order of early answers. express-validator runs the chains in order and,
    as none of them bails, records every validator of a chain that fails. */
module Contact {
  import opened Wrappers
  import opened Strings
  import opened Values

  // ---------------------------------------------------------------------------
  // Messages

  const NAME_REQUIRED: string := "Nome é obrigatório"
  const NAME_LENGTH: string := "Nome deve ter entre 2 e 100 caracteres"
  const NAME_CHARS: string := "Nome contém caracteres inválidos"
  const EMAIL_REQUIRED: string := "Email é obrigatório"
  const EMAIL_INVALID: string := "Email inválido"
  const EMAIL_LENGTH: string := "Email muito longo"
  const LINK_INVALID: string := "Link deve ser uma URL válida do Roblox"
  const LINK_LENGTH: string := "Link muito longo"
  const MESSAGE_REQUIRED: string := "Mensagem é obrigatória"
  const MESSAGE_LENGTH: string := "Mensagem deve ter entre 10 e 2000 caracteres"
  const MESSAGE_FORBIDDEN: string := "Mensagem contém conteúdo não permitido"
  const AGE_NOT_BOOLEAN: string := "Confirmação de idade deve ser verdadeira ou falsa"
  const AGE_REQUIRED: string := "Você deve confirmar que tem mais de 13 anos"
  const EMAIL_UNAVAILABLE: string := "Serviço de email temporariamente indisponível. Tente novamente mais tarde."
  const SEND_FAILED: string := "Erro ao enviar mensagem. Por favor, tente novamente mais tarde."
  const INTERNAL_ERROR: string := "Erro interno ao processar sua solicitação"
  const SENT: string := "Mensagem enviada com sucesso! Entraremos em contato em breve."

  const NAME_MIN: nat := 2
  const NAME_MAX: nat := 100
  const EMAIL_MAX: nat := 255
  const LINK_MAX: nat := 500
  const MESSAGE_MIN: nat := 10
  const MESSAGE_MAX: nat := 2000

  // ---------------------------------------------------------------------------
  // Field rules

  /** A variation selector, which the length check does not count. */
  predicate IsVariationSelector(c: char) {
    c == '\U{FE0E}' || c == '\U{FE0F}'
  }

  /** The length `isLength` measures: code points, less the variation selectors. */
  function Length(s: string): (n: nat)
    ensures n <= |s|
    ensures (forall i :: 0 <= i < |s| ==> !IsVariationSelector(s[i])) ==> n == |s|
  {
    if s == [] then 0 else (if IsVariationSelector(s[0]) then 0 else 1) + Length(s[1..])
  }

  /** `isLength({ min, max })`. */
  predicate LengthWithin(s: string, min: nat, max: nat) {
    min <= Length(s) <= max
  }

  /** The character class of the name pattern: ASCII letters, `À` to `ÿ`, white space,
      the apostrophe and the hyphen. */
  predicate IsNameChar(c: char) {
    ('a' <= c <= 'z') || ('A' <= c <= 'Z') || ('\U{00C0}' <= c <= '\U{00FF}') || IsJsSpace(c) || c == '\'' || c == '-'
  }

  /** `/^[a-zA-ZÀ-ÿ\s'-]+$/`: at least one character, all of them in the class. */
  predicate NameMatches(s: string) {
    s != [] && forall i :: 0 <= i < |s| ==> IsNameChar(s[i])
  }

  predicate IsAsciiDigit(c: char) {
    '0' <= c <= '9'
  }

  /** The eight ways the start of a link can spell the scheme, the optional `www.`
      and the path segment, folded to lower case. */
  const ROBLOX_PREFIXES: seq<string> := [
    "http://roblox.com/games/", "http://roblox.com/discover/",
    "http://www.roblox.com/games/", "http://www.roblox.com/discover/",
    "https://roblox.com/games/", "https://roblox.com/discover/",
    "https://www.roblox.com/games/", "https://www.roblox.com/discover/"
  ]

  /** `/^https?:\/\/(www\.)?roblox\.com\/(games|discover)\/\d+/i`: anchored at
      the start only, case-insensitive, and at least one digit after the path. */
  predicate RobloxLink(v: string) {
    var l := Lower(v);
    exists i :: 0 <= i < |ROBLOX_PREFIXES| && |ROBLOX_PREFIXES[i]| < |l|
                && ROBLOX_PREFIXES[i] <= l && IsAsciiDigit(l[|ROBLOX_PREFIXES[i]|])
  }

  /** The gameLink validator: an empty link passes, any other must be a Roblox link. */
  predicate GameLinkAccepted(v: string) {
    v == "" || RobloxLink(v)
  }

  /** The four fragments the message validator refuses, in lower case. */
  const SUSPICIOUS: seq<string> := ["<script", "javascript:", "onerror=", "onclick="]

  /** `/<script|javascript:|onerror=|onclick=/i`: one of the fragments, in any case,
      anywhere. */
  predicate Suspicious(m: string) {
    exists i :: 0 <= i < |SUSPICIOUS| && ContainsIgnoringCase(m, SUSPICIOUS[i])
  }

  // ---------------------------------------------------------------------------
  // The form and its validation

  /** The body fields the chains read; an absent field is `None`. `ageConfirm` is any
      JSON value. */
  datatype ContactForm = ContactForm(name: Option<string>, email: Option<string>, gameLink: Option<string>,
                                     message: Option<string>, ageConfirm: Value)

  /** express-validator's built-in e-mail rules, given rather than modelled. */
  datatype EmailRules = EmailRules(isEmail: string -> bool, normalize: string -> string)

  /** A field as the standard validators see it: absent is the empty string. */
  function FieldText(f: Option<string>): string {
    if f.Some? then f.value else ""
  }

  /** The string the standard validators see for a JSON value: `null` and `undefined`
      are empty, and an array is the comma-joined text of its elements. */
  function ValueText(v: Value): string
    decreases v, 1
  {
    match v
    case Undefined => ""
    case Null => ""
    case Bool(b) => if b then "true" else "false"
    case Num(n) => IntToString(n)
    case Str(s) => s
    case Arr(_) => JoinFrom(v, 0)
    case Obj(_) => "[object Object]"
  }

  /** `join(',')` of the elements of `v` from index `i` on, an empty element for
      `null` and `undefined`. */
  function JoinFrom(v: Value, i: nat): string
    requires v.Arr? && i <= |v.items|
    decreases v, 0, |v.items| - i
  {
    if i == |v.items| then ""
    else ValueText(v.items[i]) + (if i + 1 < |v.items| then "," + JoinFrom(v, i + 1) else "")
  }

  function NameErrors(name: Option<string>): seq<string> {
    var n := Trim(FieldText(name));
    (if n == "" then [NAME_REQUIRED] else [])
    + (if !LengthWithin(n, NAME_MIN, NAME_MAX) then [NAME_LENGTH] else [])
    + (if !NameMatches(n) then [NAME_CHARS] else [])
  }

  /** The length check runs on the normalised address. */
  function EmailErrors(email: Option<string>, rules: EmailRules): seq<string> {
    var e := Trim(FieldText(email));
    (if e == "" then [EMAIL_REQUIRED] else [])
    + (if !rules.isEmail(e) then [EMAIL_INVALID] else [])
    + (if Length(rules.normalize(e)) > EMAIL_MAX then [EMAIL_LENGTH] else [])
  }

  /** `optional()` skips the chain for an absent link only. */
  function GameLinkErrors(gameLink: Option<string>): seq<string> {
    if gameLink.None? then []
    else
      var g := Trim(gameLink.value);
      (if !GameLinkAccepted(g) then [LINK_INVALID] else [])
      + (if Length(g) > LINK_MAX then [LINK_LENGTH] else [])
  }

  function MessageErrors(message: Option<string>): seq<string> {
    var m := Trim(FieldText(message));
    (if m == "" then [MESSAGE_REQUIRED] else [])
    + (if !LengthWithin(m, MESSAGE_MIN, MESSAGE_MAX) then [MESSAGE_LENGTH] else [])
    + (if Suspicious(m) then [MESSAGE_FORBIDDEN] else [])
  }

  /** The texts `isBoolean()` accepts in its strict form. */
  const BOOLEAN_TEXTS: seq<string> := ["true", "false", "1", "0"]

  /** The texts a standard validator checks: each element of an array, else the
      value itself. */
  function CheckedTexts(v: Value): (r: seq<string>)
    ensures v.Arr? ==> |r| == |v.items| && forall i :: 0 <= i < |r| ==> r[i] == ValueText(v.items[i])
    ensures !v.Arr? ==> r == [ValueText(v)]
  {
    if v.Arr? then TextsFrom(v, 0) else [ValueText(v)]
  }

  function TextsFrom(v: Value, i: nat): (r: seq<string>)
    requires v.Arr? && i <= |v.items|
    ensures |r| == |v.items| - i && forall k :: 0 <= k < |r| ==> r[k] == ValueText(v.items[i + k])
    decreases |v.items| - i
  {
    if i == |v.items| then [] else [ValueText(v.items[i])] + TextsFrom(v, i + 1)
  }

  /** One `message` for each text not among `accepted`, in order. */
  function Failing(texts: seq<string>, accepted: seq<string>, message: string): (r: seq<string>)
    ensures r == [] <==> forall i :: 0 <= i < |texts| ==> texts[i] in accepted
    ensures forall m :: m in r ==> m == message
  {
    if texts == [] then []
    else (if texts[0] in accepted then [] else [message]) + Failing(texts[1..], accepted, message)
  }

  /** `isBoolean()` (strict: `true`, `false`, `1`, `0`) then `equals('true')`. Each
      validator runs over every checked text before the next one starts. */
  function AgeErrors(ageConfirm: Value): seq<string> {
    var texts := CheckedTexts(ageConfirm);
    Failing(texts, BOOLEAN_TEXTS, AGE_NOT_BOOLEAN) + Failing(texts, ["true"], AGE_REQUIRED)
  }

  /** The messages of `validationResult(req).array()`, in order. */
  function ValidationErrors(form: ContactForm, rules: EmailRules): seq<string> {
    NameErrors(form.name) + EmailErrors(form.email, rules) + GameLinkErrors(form.gameLink)
    + MessageErrors(form.message) + AgeErrors(form.ageConfirm)
  }

  // ---------------------------------------------------------------------------
  // The POST handler

  /** How the awaited send ends: `{ success: true }`, `{ success: false }`, or a throw. */
  datatype SendOutcome = Delivered | Undelivered | Threw

  /** A status, whether `success` is true, and the error or the data message. */
  datatype ContactReply = ContactReply(status: int, success: bool, text: string)

  /** `POST /api/contact` once the chains have run. `emailConfigured` is whether
      `RESEND_API_KEY` is set. */
  function ContactPost(errors: seq<string>, emailConfigured: bool, ageConfirm: Value, send: SendOutcome): ContactReply {
    if errors != [] then ContactReply(400, false, errors[0])
    else if !emailConfigured then ContactReply(503, false, EMAIL_UNAVAILABLE)
    else if !Truthy(ageConfirm) then ContactReply(400, false, AGE_REQUIRED)
    else
      match send
      case Threw => ContactReply(500, false, INTERNAL_ERROR)
      case Undelivered => ContactReply(500, false, SEND_FAILED)
      case Delivered => ContactReply(200, true, SENT)
  }

  /** The whole request: validation, then the handler. */
  function ContactRequest(form: ContactForm, rules: EmailRules, emailConfigured: bool, send: SendOutcome): ContactReply {
    ContactPost(ValidationErrors(form, rules), emailConfigured, form.ageConfirm, send)
  }

  // ---------------------------------------------------------------------------
  // Properties

  /** An absent or empty link passes its chain; a link that is only white space too. */
  lemma EmptyLinkPasses(gameLink: Option<string>)
    requires gameLink.None? || Trim(gameLink.value) == ""
    ensures GameLinkErrors(gameLink) == []
  {
  }

  /** The link check looks only at the start: whatever follows a valid start is
      accepted, and a valid start in any case is accepted. */
  lemma RobloxLinkAnchoredAtStart(v: string, rest: string)
    requires RobloxLink(v)
    ensures RobloxLink(v + rest)
  {
    var l := Lower(v);
    var i :| 0 <= i < |ROBLOX_PREFIXES| && |ROBLOX_PREFIXES[i]| < |l|
             && ROBLOX_PREFIXES[i] <= l && IsAsciiDigit(l[|ROBLOX_PREFIXES[i]|]);
    var p := ROBLOX_PREFIXES[i];
    var l' := Lower(v + rest);
    assert l'[..|l|] == l;
    assert p <= l';
    assert l'[|p|] == l[|p|];
  }

  lemma SchemeOfPrefix(i: nat)
    requires i < |ROBLOX_PREFIXES|
    ensures "http://" <= ROBLOX_PREFIXES[i] || "https://" <= ROBLOX_PREFIXES[i]
  {
  }

  /** Every accepted link starts, folded to lower case, with `http://` or `https://`. */
  lemma RobloxLinkStartsWithScheme(v: string)
    requires RobloxLink(v)
    ensures "http://" <= Lower(v) || "https://" <= Lower(v)
  {
    var l := Lower(v);
    var i :| 0 <= i < |ROBLOX_PREFIXES| && |ROBLOX_PREFIXES[i]| < |l|
             && ROBLOX_PREFIXES[i] <= l && IsAsciiDigit(l[|ROBLOX_PREFIXES[i]|]);
    SchemeOfPrefix(i);
    PrefixTransitive("http://", ROBLOX_PREFIXES[i], l);
    PrefixTransitive("https://", ROBLOX_PREFIXES[i], l);
  }

  lemma PrefixTransitive(q: string, p: string, l: string)
    requires p <= l
    ensures q <= p ==> q <= l
  {
  }

  /** A message holding one of the fragments in any mixture of case gets the
      forbidden-content error. */
  lemma SuspiciousMessageRejected(message: string, k: nat)
    requires k < |SUSPICIOUS| && Contains(Lower(Trim(message)), SUSPICIOUS[k])
    ensures MESSAGE_FORBIDDEN in MessageErrors(Some(message))
  {
  }

  /** Case is ignored: a fragment written in any mixture of case still matches. */
  lemma SuspiciousIgnoresCase(m: string, t: string, k: nat)
    requires k < |SUSPICIOUS| && Lower(t) == SUSPICIOUS[k] && Contains(m, t)
    ensures Suspicious(m)
  {
    ContainsLower(m, t);
  }

  /** After trimming, a name outside 2..100 characters and a message outside
      10..2000 characters are refused, so the request answers 400. */
  lemma LengthBoundsEnforced(form: ContactForm, rules: EmailRules, emailConfigured: bool, send: SendOutcome)
    requires !LengthWithin(Trim(FieldText(form.name)), NAME_MIN, NAME_MAX)
             || !LengthWithin(Trim(FieldText(form.message)), MESSAGE_MIN, MESSAGE_MAX)
    ensures ValidationErrors(form, rules) != []
    ensures ContactRequest(form, rules, emailConfigured, send).status == 400
    ensures !LengthWithin(Trim(FieldText(form.name)), NAME_MIN, NAME_MAX) ==> NAME_LENGTH in ValidationErrors(form, rules)
    ensures !LengthWithin(Trim(FieldText(form.message)), MESSAGE_MIN, MESSAGE_MAX) ==>
              MESSAGE_LENGTH in ValidationErrors(form, rules)
  {
    var n := NameErrors(form.name);
    var e := EmailErrors(form.email, rules);
    var g := GameLinkErrors(form.gameLink);
    var m := MessageErrors(form.message);
    var a := AgeErrors(form.ageConfirm);
    assert ValidationErrors(form, rules) == n + e + g + m + a;
    if !LengthWithin(Trim(FieldText(form.name)), NAME_MIN, NAME_MAX) {
      assert NAME_LENGTH in n;
    }
    if !LengthWithin(Trim(FieldText(form.message)), MESSAGE_MIN, MESSAGE_MAX) {
      assert MESSAGE_LENGTH in m;
    }
  }

  /** Any validation error answers 400 with the first message, whatever the mail
      service would have done. */
  lemma FirstErrorFirst(errors: seq<string>, emailConfigured: bool, ageConfirm: Value, send: SendOutcome)
    requires errors != []
    ensures ContactPost(errors, emailConfigured, ageConfirm, send) == ContactReply(400, false, errors[0])
  {
  }

  /** A form that validates reaches the handler with a truthy `ageConfirm` (the chain
      demands the text `true` of a single value, and every array is truthy), so the
      handler's own age check never answers; what
      remains is 503 without a mail service, then 500, 500 or 200 by how the send ends. */
  lemma ValidFormOutcomes(form: ContactForm, rules: EmailRules, emailConfigured: bool, send: SendOutcome)
    requires ValidationErrors(form, rules) == []
    ensures Truthy(form.ageConfirm)
    ensures var r := ContactRequest(form, rules, emailConfigured, send);
            && (!emailConfigured ==> r == ContactReply(503, false, EMAIL_UNAVAILABLE))
            && (emailConfigured && send == Delivered ==> r == ContactReply(200, true, SENT))
            && (emailConfigured && send == Undelivered ==> r == ContactReply(500, false, SEND_FAILED))
            && (emailConfigured && send == Threw ==> r == ContactReply(500, false, INTERNAL_ERROR))
            && (r.status == 400 ==> false)
  {
    var a := AgeErrors(form.ageConfirm);
    assert ValidationErrors(form, rules)
        == NameErrors(form.name) + EmailErrors(form.email, rules) + GameLinkErrors(form.gameLink)
           + MessageErrors(form.message) + a;
    assert a == [];
    AgeConfirmAccepted(form.ageConfirm);
  }

  /** The ageConfirm chain accepts exactly `true`, the text `true`, and an array
      whose every element reads as `true`, the empty array included. */
  lemma AgeConfirmAccepted(v: Value)
    ensures AgeErrors(v) == [] <==>
              v == Bool(true) || v == Str("true")
              || (v.Arr? && forall i :: 0 <= i < |v.items| ==> ValueText(v.items[i]) == "true")
  {
    var texts := CheckedTexts(v);
    if v.Num? {
      NumberTextNotTrue(v.n);
    }
    if forall i :: 0 <= i < |texts| ==> texts[i] in ["true"] {
      assert forall i :: 0 <= i < |texts| ==> texts[i] in BOOLEAN_TEXTS;
    }
  }

  /** An empty `ageConfirm` array passes both checks, and the handler's own test
      finds it truthy: a form that would be sent with the box ticked is sent with
      no confirmation at all. */
  lemma EmptyAgeArraySent(form: ContactForm, rules: EmailRules)
    requires ValidationErrors(form.(ageConfirm := Bool(true)), rules) == []
    ensures AgeErrors(Arr([])) == []
    ensures ContactRequest(form.(ageConfirm := Arr([])), rules, true, Delivered) == ContactReply(200, true, SENT)
  {
    TrueAgeAccepted();
    EmptyAgeArrayAccepted();
    var f := form.(ageConfirm := Arr([]));
    SameFieldsSameErrors(form.(ageConfirm := Bool(true)), f, rules);
    assert ContactRequest(f, rules, true, Delivered) == ContactPost(ValidationErrors(f, rules), true, Arr([]), Delivered);
    DeliveredWhenValid(ValidationErrors(f, rules), Arr([]));
  }

  lemma DeliveredWhenValid(errors: seq<string>, ageConfirm: Value)
    requires errors == [] && Truthy(ageConfirm)
    ensures ContactPost(errors, true, ageConfirm, Delivered) == ContactReply(200, true, SENT)
  {
  }

  lemma TrueAgeAccepted()
    ensures AgeErrors(Bool(true)) == []
  {
    assert CheckedTexts(Bool(true)) == ["true"];
  }

  lemma EmptyAgeArrayAccepted()
    ensures AgeErrors(Arr([])) == []
  {
    assert CheckedTexts(Arr([])) == [];
  }

  /** Two forms that differ only in `ageConfirm`, both passing the age chain, get the
      same errors. */
  lemma SameFieldsSameErrors(f: ContactForm, g: ContactForm, rules: EmailRules)
    requires f.(ageConfirm := g.ageConfirm) == g
    requires AgeErrors(f.ageConfirm) == [] && AgeErrors(g.ageConfirm) == []
    ensures ValidationErrors(f, rules) == ValidationErrors(g, rules)
  {
    var fields := NameErrors(f.name) + EmailErrors(f.email, rules) + GameLinkErrors(f.gameLink)
                  + MessageErrors(f.message);
    assert ValidationErrors(f, rules) == fields + [];
    assert ValidationErrors(g, rules) == fields + [];
  }

  /** The confirmation the age chain is meant to demand: a single value that reads as
      `true`; an array is refused as not boolean. */
  function ConfirmedAgeErrors(ageConfirm: Value): seq<string> {
    if ageConfirm.Arr? then [AGE_NOT_BOOLEAN, AGE_REQUIRED] else AgeErrors(ageConfirm)
  }

  /** The request with that confirmation in place of the age chain. */
  function ConfirmedContactRequest(form: ContactForm, rules: EmailRules, emailConfigured: bool, send: SendOutcome): ContactReply {
    var errors := NameErrors(form.name) + EmailErrors(form.email, rules) + GameLinkErrors(form.gameLink)
                  + MessageErrors(form.message) + ConfirmedAgeErrors(form.ageConfirm);
    ContactPost(errors, emailConfigured, form.ageConfirm, send)
  }

  /** With the intended confirmation a message is sent only when `ageConfirm` is
      `true` or the text `true`, and then exactly as the code as written would send it. */
  lemma ConfirmedBeforeSending(form: ContactForm, rules: EmailRules, emailConfigured: bool, send: SendOutcome)
    ensures ConfirmedAgeErrors(form.ageConfirm) == [] <==> form.ageConfirm == Bool(true) || form.ageConfirm == Str("true")
    ensures ConfirmedContactRequest(form, rules, emailConfigured, send).status == 200 ==>
              form.ageConfirm == Bool(true) || form.ageConfirm == Str("true")
    ensures !form.ageConfirm.Arr? ==>
              ConfirmedContactRequest(form, rules, emailConfigured, send) == ContactRequest(form, rules, emailConfigured, send)
  {
    AgeConfirmAccepted(form.ageConfirm);
    var fields := NameErrors(form.name) + EmailErrors(form.email, rules) + GameLinkErrors(form.gameLink)
                  + MessageErrors(form.message);
    var errors := fields + ConfirmedAgeErrors(form.ageConfirm);
    if ConfirmedContactRequest(form, rules, emailConfigured, send).status == 200 {
      assert errors == [];
      assert ConfirmedAgeErrors(form.ageConfirm) == [];
    }
  }

  /** No number renders as the text `true`. */
  lemma NumberTextNotTrue(n: int)
    ensures IntToString(n) != "true"
  {
    var t := IntToString(n);
    if n < 0 {
      assert t[0] == '-';
    } else {
      assert '0' <= t[0] <= '9';
    }
  }
}
