/** The CORS origin policy of backend/src/config/cors.ts: the list of allowed origins,
    the `origin` callback handed to the `cors` package, and the `isOriginAllowed`
    helper. Whether the process runs in production is read once at start-up; here it
    is a parameter, as is `FRONTEND_URL`. */
module Cors {
  import opened Wrappers
  import opened Strings

  const CORS_ERROR: string := "Not allowed by CORS"

  /** The fixed entries of the list, in order. */
  const FIXED_ORIGINS: seq<string> := [
    "http://localhost:5173",
    "http://localhost:5174",
    "http://localhost:3000",
    "http://localhost:4173",
    "https://minigroups.vercel.app"
  ]

  /** `[...fixed, FRONTEND_URL].filter(Boolean)`: an unset or empty variable adds
      nothing. */
  function AllowedOrigins(frontendUrl: Option<string>): (r: seq<string>)
    ensures |r| >= |FIXED_ORIGINS| && r[..|FIXED_ORIGINS|] == FIXED_ORIGINS
    ensures forall o :: o in r ==> o != ""
    ensures forall o :: o in r <==> o in FIXED_ORIGINS || (frontendUrl.Some? && frontendUrl.value != "" && o == frontendUrl.value)
  {
    FIXED_ORIGINS + (if frontendUrl.Some? && frontendUrl.value != "" then [frontendUrl.value] else [])
  }

  /** What the callback answers: `callback(null, true)` or `callback(new Error(...))`. */
  datatype CorsVerdict = Allow | Deny(message: string)

  /** The `origin` callback. An absent or empty origin is falsy. */
  function CorsOrigin(production: bool, origin: Option<string>, allowed: seq<string>): CorsVerdict {
    if origin.None? || origin.value == "" then Allow
    else if !production && Contains(origin.value, "localhost") then Allow
    else if production then
      if origin.value in allowed then Allow else Deny(CORS_ERROR)
    else Allow
  }

  /** `isOriginAllowed`. */
  predicate IsOriginAllowed(production: bool, origin: Option<string>, allowed: seq<string>) {
    if origin.None? || origin.value == "" then true
    else if !production && Contains(origin.value, "localhost") then true
    else origin.value in allowed
  }

  /** A request without an Origin is let through by both. */
  lemma NoOriginAllowed(production: bool, allowed: seq<string>)
    ensures CorsOrigin(production, None, allowed) == Allow && IsOriginAllowed(production, None, allowed)
  {
  }

  /** Outside production the callback admits every origin. */
  lemma DevelopmentAdmitsAll(origin: Option<string>, allowed: seq<string>)
    ensures CorsOrigin(false, origin, allowed) == Allow
  {
  }

  /** In production the callback admits exactly the listed origins and refuses every
      other non-empty one with the fixed error. */
  lemma ProductionExactList(origin: string, allowed: seq<string>)
    requires origin != ""
    ensures CorsOrigin(true, Some(origin), allowed) == Allow <==> origin in allowed
    ensures CorsOrigin(true, Some(origin), allowed) != Allow ==> CorsOrigin(true, Some(origin), allowed) == Deny(CORS_ERROR)
    ensures CorsOrigin(true, Some(origin), allowed) == Allow <==> IsOriginAllowed(true, Some(origin), allowed)
  {
  }

  /** The localhost rule is a substring test: outside production any origin naming
      `localhost` anywhere is admitted by the helper too, listed or not. */
  lemma LocalhostIsSubstring(origin: string, allowed: seq<string>, prefix: string, suffix: string)
    requires origin == prefix + "localhost" + suffix
    ensures IsOriginAllowed(false, Some(origin), allowed)
  {
    assert origin == prefix + ("localhost" + suffix);
    PrefixOfConcat("localhost", suffix);
    HasPrefixIff("localhost", "localhost" + suffix);
    assert OccursAt(origin, "localhost", |prefix|);
    ContainsAt(origin, "localhost", |prefix|);
  }

  /** Outside production the two disagree: an unlisted origin without `localhost` is
      admitted by the callback but refused by the helper. */
  lemma CallbackAndHelperDisagree(origin: string, allowed: seq<string>)
    requires origin != "" && !Contains(origin, "localhost") && origin !in allowed
    ensures CorsOrigin(false, Some(origin), allowed) == Allow
    ensures !IsOriginAllowed(false, Some(origin), allowed)
  {
  }

  /** The development origins stay on the list in production, so a browser on
      `http://localhost:5173` is admitted there as well. */
  lemma ProductionAdmitsDevOrigins(frontendUrl: Option<string>)
    ensures forall i :: 0 <= i < |FIXED_ORIGINS| ==>
              CorsOrigin(true, Some(FIXED_ORIGINS[i]), AllowedOrigins(frontendUrl)) == Allow
  {
    forall i | 0 <= i < |FIXED_ORIGINS|
      ensures FIXED_ORIGINS[i] in AllowedOrigins(frontendUrl)
    {
      assert AllowedOrigins(frontendUrl)[i] == FIXED_ORIGINS[i];
    }
  }
}
