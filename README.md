# Mini Groups games site: a Dafny model

This project models the logic of the Mini Groups Studio games site. The backend
serves the studio's Roblox games from a cache and falls back to a static table when
Roblox is unreachable. Around that service sit several request gates:

- CORS;
- Content-Type, payload size and origin checks;
- the input sanitiser and the API-key gate;
- the contact form;
- the log redactor.

The front end filters, sorts and selects games from a local catalogue, keeps a list
of favourites, applies the filter-panel transitions and builds the page title.

The modules follow the program:

| module | models |
|---|---|
| `Cache` | the TTL cache, a class over a `map` with the clock as a parameter |
| `GamesConfig` | the configured games and the constants |
| `Roblox` | the aggregator, with cache-aside lookups, composition, rating and the fallback table |
| `GameRoutes` | the games router: replies, handlers and first-match route order |
| `Validators` | the recursive sanitiser, the API-key gate and the validation-error reply |
| `Security` | the Content-Type gate, `parseInt`, the payload limit and the origin check |
| `Cors` | the allowed origins, the `origin` callback and `isOriginAllowed` |
| `Contact` | the contact form's validation chains and the POST handler's early answers |
| `Logger` | the level gate, the request-log filter and `sanitizeForLog` |
| `Catalog` | `useGames` |
| `Favorites` | `useFavorites` |
| `FilterPanel` | the handlers of `GameFilters` |
| `Seo` | the title rule |

`Values`, `Strings`, `Http` and `Wrappers` hold JavaScript values, string helpers,
middleware decisions and `Option`/`Result`.

Stateful code is imperative:

- The cache is a class whose methods change its `entries` map.
- The Roblox service is a class around the shared cache and a log of upstream requests.
- The routes write to a response object.
- `sanitizeInput` reassigns the fields of a request object.
- `sanitizeObject` and `sanitizeForLog` are methods with loops.
- The catalogue sort is an insertion sort in place on an array.

Each such method is proved equal to a specification function. The properties are
lemmas about those functions.

`getStats` skips expired entries without deleting them (`backend/src/services/cache.service.ts:71-75`), so `Cache.CacheService.GetStats` changes nothing.

Inputs that the source reads from outside become parameters:

- the clock (`now`, and `nowIso` for `new Date().toISOString()`);
- `NODE_ENV`, `FRONTEND_URL`, `API_KEY` and whether `RESEND_API_KEY` is set;
- the answers of the Roblox endpoints (a value of type `Roblox.Upstream`);
- the outcome of sending the contact e-mail.

## Model

| member | source | states |
|---|---|---|
| Cache.CacheService.constructor | backend/src/services/cache.service.ts:10-13 | The cache starts empty; the default TTL is the given minutes (5 when not given) in milliseconds. |
| Cache.CacheService.Set | backend/src/services/cache.service.ts:15-23 | The entry for the key is replaced whatever was there, expiring at now plus the TTL; a missing or zero TTL selects the default; an overwritten key keeps its enumeration position, a new one is enumerated last. |
| Cache.CacheService.Get | backend/src/services/cache.service.ts:25-41 | Returns the value exactly when an entry exists and now is at or before its expiry; a stale entry is removed and only that key is touched; an absent key changes nothing. |
| Cache.CacheService.Has | backend/src/services/cache.service.ts:43-53 | True exactly when `get` would return a value, with the same eviction of a stale entry. |
| Cache.CacheService.Clear | backend/src/services/cache.service.ts:55-58 | Afterwards there is no entry. |
| Cache.CacheService.Delete | backend/src/services/cache.service.ts:60-66 | Reports whether the key was present, fresh or stale; afterwards it is absent and every other entry is unchanged. |
| Cache.CacheService.GetStats | backend/src/services/cache.service.ts:68-81 | Lists exactly the keys fresh at now (expiry instant included), each once, in enumeration order; size is their number; it modifies nothing. |
| Cache.FreshKeys | backend/src/services/cache.service.ts:71-75 | A key is listed exactly when it is enumerated and fresh; no key is repeated. |
| Cache.SetThenGetFresh | backend/src/services/cache.service.ts:15-40 | After a `set`, a read at any instant up to and including now + TTL returns the stored value. |
| Cache.SetThenGetStale | backend/src/services/cache.service.ts:33-37 | After the expiry instant a read returns nothing and the map loses exactly that key. |
| Cache.DefaultTtlWhenFalsy | backend/src/services/cache.service.ts:16 | An undefined or zero TTL gives the default; any other is that many minutes of 60000 ms. |
| Cache.SharedCache | backend/src/services/cache.service.ts:84 | The exported cache, built as `new CacheService(5)`, starts empty and keeps an entry stored without a TTL, or with TTL 0, for 300000 ms. |
| Cache.OverwriteWins | backend/src/services/cache.service.ts:21 | Of two writes to one key, the second is read back. |
| Cache.ReadTouchesOnlyItsKey | backend/src/services/cache.service.ts:26-37 | A read of an absent key returns nothing and leaves the map as it was; a read never changes another key's entry. |
| GamesConfig.ConfigShape | backend/src/config/games.ts:3-21 | Exactly three games are configured, each filed under its own place id; `GAME_PLACE_IDS` lists exactly those keys, each once. |
| Roblox.RatingTenths | backend/src/services/roblox.service.ts:131-137 | Zero without votes; otherwise the nearest tenth to up/(up+down)·5, so between 0 and 5 stars. |
| Roblox.RatingExamples | backend/src/services/roblox.service.ts:131-137 | No votes is 0; 80 of 100 is 4.0; only upvotes is 5.0; one of three is 1.7. |
| Roblox.Present | backend/src/services/roblox.service.ts:213 | The null filter keeps exactly the games of the non-null slots and drops nothing when every slot holds a game. |
| Roblox.RobloxService.GetUniverseId | backend/src/services/roblox.service.ts:17-40 | Result, new cache and request log are those of the universe-id cache-aside step: a truthy hit is returned without a request; otherwise one request; a success is stored for 60 minutes, a failure throws; the cache's filing invariant is kept. |
| Roblox.RobloxService.GetGameDetails | backend/src/services/roblox.service.ts:42-69 | As the details step: a hit is served; otherwise one request; a non-empty answer is stored for 5 minutes; a failure or empty list throws. |
| Roblox.RobloxService.GetGameVotes | backend/src/services/roblox.service.ts:71-98 | As the votes step: a hit is served; otherwise one request; an answer is stored for 5 minutes; any failure yields zero votes, not stored. |
| Roblox.RobloxService.GetGameThumbnail | backend/src/services/roblox.service.ts:100-129 | As the thumbnail step: a hit is served; otherwise one request; a `Completed` image URL is stored for 60 minutes; anything else yields the placeholder, not stored. |
| Roblox.RobloxService.GetGame | backend/src/services/roblox.service.ts:139-192 | As the full-game step: a truthy cached game is returned; an unconfigured place throws before any request; then universe id and the three answers; a throw propagates with no fallback; the composed game is stored for 5 minutes (own entries only: an id inherited from `Object.prototype` is treated as unconfigured, see "## Left out"). |
| Roblox.RobloxService.GetAllGames | backend/src/services/roblox.service.ts:194-223 | As the batch step: a truthy cached list under `all_games` is returned; otherwise each id's game, or its fallback when `getGame` throws, in order, nulls dropped, is stored under `all_games` for 5 minutes; it never throws (own entries only: an id inherited from `Object.prototype` is treated as unconfigured, see "## Left out"). |
| Roblox.KeyFiling | backend/src/services/roblox.service.ts:18-195 | Each cache key namespace (`universe:`, `game:`, `votes:`, `thumbnail:`, `full_game:`, `all_games`) holds only its own kind of value. |
| Roblox.KeysApart | backend/src/services/roblox.service.ts:18-195 | The full-game and batch keys never coincide with each other or with another namespace's key. |
| Roblox.StoreTyped | backend/src/services/cache.service.ts:15-23 | Storing a namespace's own kind of value keeps every entry well filed. |
| Roblox.AfterReadTyped | backend/src/services/cache.service.ts:25-41 | An eviction by a read keeps every entry well filed. |
| Roblox.ResolveTyped | backend/src/services/roblox.service.ts:17-40 | The universe-id step keeps every entry well filed. |
| Roblox.DetailsTyped | backend/src/services/roblox.service.ts:42-69 | The details step keeps every entry well filed. |
| Roblox.VotesTyped | backend/src/services/roblox.service.ts:71-98 | The votes step keeps every entry well filed. |
| Roblox.ThumbnailTyped | backend/src/services/roblox.service.ts:100-129 | The thumbnail step keeps every entry well filed. |
| Roblox.GetGameTyped | backend/src/services/roblox.service.ts:139-192 | `getGame` keeps every entry well filed. |
| Roblox.FetchAllTyped | backend/src/services/roblox.service.ts:205-212 | The per-id loop of the batch keeps every entry well filed. |
| Roblox.GetAllGamesTyped | backend/src/services/roblox.service.ts:194-223 | `getAllGames` keeps every entry well filed. |
| Roblox.StoreLocal | backend/src/services/cache.service.ts:21 | A write changes no other key. |
| Roblox.AfterReadLocal | backend/src/services/cache.service.ts:33-36 | A read changes no other key. |
| Roblox.ResolveLocal | backend/src/services/roblox.service.ts:17-40 | The universe-id step changes only its own key. |
| Roblox.DetailsLocal | backend/src/services/roblox.service.ts:42-69 | The details step changes only its own key. |
| Roblox.VotesLocal | backend/src/services/roblox.service.ts:71-98 | The votes step changes only its own key. |
| Roblox.ThumbnailLocal | backend/src/services/roblox.service.ts:100-129 | The thumbnail step changes only its own key. |
| Roblox.CachedGameServed | backend/src/services/roblox.service.ts:140-145 | A fresh `full_game:` entry is returned as stored, for its own configured place, with no request and the cache unchanged. |
| Roblox.FalsyValuesRefetched | backend/src/services/roblox.service.ts:19-23 | A cached universe id 0 or a cached empty thumbnail URL counts as a miss and is requested again. |
| Roblox.EmptyListIsHit | backend/src/services/roblox.service.ts:196-200 | A cached empty game list counts as a hit: it is returned with no request and no change. |
| Roblox.VotesSubstituteNotCached | backend/src/services/roblox.service.ts:88-97 | The votes returned are either what the cache now holds fresh, or the zero substitute with nothing stored. |
| Roblox.ThumbnailSubstituteNotCached | backend/src/services/roblox.service.ts:117-128 | The URL returned is either what the cache now holds fresh, or the placeholder with nothing stored. |
| Roblox.FailuresNotCached | backend/src/services/roblox.service.ts:36-68 | A universe-id or details failure stores nothing and happens only when the upstream failed or sent an empty list. |
| Roblox.UnknownPlaceRejected | backend/src/services/roblox.service.ts:150-153 | `getGame` rejects exactly the unconfigured places as unknown, and then makes no request (own entries only: an id inherited from `Object.prototype` is treated as unconfigured, see "## Left out"). |
| Roblox.GetGameFailures | backend/src/services/roblox.service.ts:147-191 | `getGame` throws only for an unknown place, a missing universe id or missing details, and a failed game is never cached. |
| Roblox.ColdGetGame | backend/src/services/roblox.service.ts:139-192 | On an empty cache it succeeds exactly when the place is configured, the universe id is known and the details are non-empty; the requests it makes are exactly universe, then details, votes and thumbnail (own entries only: an id inherited from `Object.prototype` is treated as unconfigured, see "## Left out"). |
| Roblox.ComposedGame | backend/src/services/roblox.service.ts:163-182 | The composed game has the place id and `games/` URL, the configured category and tags, the studio as developer, `featured`, a rating of at most 5 stars, a non-empty description, the upstream name, players, visits and thumbnail, and is popular exactly at 100000 players or more. |
| Roblox.SecondGetGameHit | backend/src/services/roblox.service.ts:140-184 | A game fetched live is what any `getGame` within the next five minutes returns, with no request, whatever the upstream then answers. |
| Roblox.FallbackCoversConfig | backend/src/services/roblox.service.ts:225-282 | A fallback exists exactly for the configured places; it is filed under its own id with the configured category and tags, a rating of at most 5 stars, marked popular, the studio as developer, the `games/` URL and the given update time (own entries only: an id inherited from `Object.prototype` is treated as unconfigured, see "## Left out"). |
| Roblox.GetGameSuccessId | backend/src/services/roblox.service.ts:139-192 | A successful `getGame` returns the game asked for, which is a configured one (own entries only: an id inherited from `Object.prototype` is treated as unconfigured, see "## Left out"). |
| Roblox.NextSlot | backend/src/services/roblox.service.ts:205-210 | One batch slot holds a game exactly when its id is configured, and then a game for that id, live or fallback (own entries only: an id inherited from `Object.prototype` is treated as unconfigured, see "## Left out"). |
| Roblox.FetchAllSlots | backend/src/services/roblox.service.ts:205-212 | The batch has one slot per requested id, and slot i holds a game exactly when id i is configured, for that id (own entries only: an id inherited from `Object.prototype` is treated as unconfigured, see "## Left out"). |
| Roblox.PresentFollowsIds | backend/src/services/roblox.service.ts:213 | Dropping the empty slots leaves one game per configured id, in request order. |
| Roblox.BatchFollowsConfig | backend/src/services/roblox.service.ts:194-218 | On a miss, `getAllGames` returns exactly one game per configured requested id, in request order, live or fallback (own entries only: an id inherited from `Object.prototype` is treated as unconfigured, see "## Left out"). |
| Roblox.BatchOfConfiguredIds | backend/src/services/roblox.service.ts:194-218 | When every requested id is configured, the ids of the games are exactly the requested ids. |
| Roblox.BatchKeyIgnoresIds | backend/src/services/roblox.service.ts:195-200 | With a fresh batch entry, any two id lists get the same answer, with no request. |
| Roblox.BatchCached | backend/src/services/roblox.service.ts:215 | After a miss, the list returned, fallback records included, is what any batch within five minutes returns, for any ids and any upstream. |
| GameRoutes.FallbackSlots | backend/src/routes/games.ts:24-25 | One slot per default id, each that id's fallback. |
| GameRoutes.Send | backend/src/routes/games.ts:20-87 | The response carries exactly the reply's status and body. |
| GameRoutes.HandleListGames | backend/src/routes/games.ts:9-44 | `GET /` answers 200 with `success: true` and the list `getAllGames` yields for the configured ids; cache and requests change as that batch does. |
| GameRoutes.HandleGetPlace | backend/src/routes/games.ts:47-89 | An unconfigured id answers 404 with the not-found message and leaves cache and requests untouched; a configured one answers the game, or on a throw the fallback if any, else 500 (own entries only: an id inherited from `Object.prototype` is treated as unconfigured, see "## Left out"). |
| GameRoutes.Dispatch | backend/src/routes/games.ts:9-91 | The route chosen is the first, in registration order, whose pattern matches; no route when none matches. |
| GameRoutes.HealthShadowed | backend/src/routes/games.ts:47-101 | `GET /health` reaches the `/:placeId` handler with id `health`, which answers 404; the health handler is never reached. |
| GameRoutes.DefaultFallbacksComplete | backend/src/routes/games.ts:21-43 | The fallback list of `GET /` holds one game per default id in order, so that branch answers 200 and never 500. |
| GameRoutes.ConfiguredPlaceAlwaysServed | backend/src/routes/games.ts:60-88 | For a configured id the reply is 200 with the live game, or with that id's fallback when the service throws. |
| GameRoutes.PrototypeKeyServed | backend/src/routes/games.ts:52-80 | As written, the id `constructor` passes the 404 guard although it is not configured, and on a service failure gets a 200 fallback reply. |
| GameRoutes.ThrowStatusOwnEntries | backend/src/routes/games.ts:52-88 | With own-entry lookups an id answers 404 exactly when it is not configured, and a configured id is always served 200. |
| GameRoutes.OrdinaryIdsAgree | backend/src/routes/games.ts:52-88 | For any id that is not an inherited property name, the as-written status equals the own-entry status. |
| Validators.DangerousIff | backend/src/middleware/validators.ts:82-88 | A string is dangerous exactly when it holds one of `%27`, `'`, `--`, `%23` or `#`, or `javascript:` in any case, or matches the script-tag, event-handler or SQL-command pattern. |
| Validators.MatchesAnyPattern | backend/src/middleware/validators.ts:92-96 | The walk over the patterns finds a match exactly when the string is dangerous. |
| Validators.SanitizedMeaning | backend/src/middleware/validators.ts:90-113 | `sanitizeObject` throws the fixed message exactly when some string anywhere inside is dangerous; otherwise it returns the value with every string trimmed and the rest unchanged. |
| Validators.ItemsMeaning | backend/src/middleware/validators.ts:100-102 | An array throws exactly when some element holds a dangerous string; otherwise it keeps its length with each element trimmed throughout. |
| Validators.FieldsMeaning | backend/src/middleware/validators.ts:104-110 | An object throws exactly when some value holds a dangerous string; otherwise it keeps its keys in order with each value trimmed throughout. |
| Validators.SubstringPatternsRejected | backend/src/middleware/validators.ts:82-95 | A string with `'`, `--`, `#`, `%27`, `%23` or `javascript:` in any case is rejected with the fixed message. |
| Validators.AcceptedStringTrimmed | backend/src/middleware/validators.ts:91-97 | A string is accepted exactly when no pattern matches; it comes back trimmed, and trimming it again changes nothing. |
| Validators.ArrayElementwise | backend/src/middleware/validators.ts:100-102 | An array is accepted exactly when every element is; it keeps its length and each element is that element's own sanitised value. |
| Validators.ObjectKeysKept | backend/src/middleware/validators.ts:104-110 | An object is accepted exactly when every value is; it keeps the same keys in order and each value is that value's own sanitised value. |
| Validators.ScalarsUnchanged | backend/src/middleware/validators.ts:112 | Numbers, booleans, null and undefined come back unchanged. |
| Validators.SanitizeObject | backend/src/middleware/validators.ts:90-113 | The recursive method with its loops returns what `sanitizeObject` specifies, stopping at the first throw. |
| Validators.PartMeaning | backend/src/middleware/validators.ts:116-124 | A falsy request part is left alone; a truthy one is rejected exactly when it holds a dangerous string, else trimmed throughout. |
| Validators.SanitizeInput | backend/src/middleware/validators.ts:115-131 | Body, query and params are reassigned in that order, each truthy one sanitised; the first rejection answers 400 and leaves the later parts as they were. |
| Validators.SanitizeInputDecision | backend/src/middleware/validators.ts:115-131 | `next` is called exactly when no truthy part holds a dangerous string, and then every truthy part is trimmed throughout; otherwise 400 with the fixed message. |
| Validators.ApiKeyDecision | backend/src/middleware/validators.ts:135-153 | Passes exactly when `API_KEY` is unset or empty, or the `x-api-key` header equals it; otherwise 401 with the fixed message. |
| Validators.ValidationErrorsOutcome | backend/src/middleware/validators.ts:5-21 | Calls `next` exactly when there is no error; otherwise 400 with one detail per error, in order, carrying its message, its path or `unknown`, and its value or undefined. |
| Security.ContentTypeDecision | backend/src/middleware/security.ts:43-55 | The only refusal is 415 with the fixed message. |
| Security.ContentTypeGate | backend/src/middleware/security.ts:43-55 | Methods other than POST, PUT and PATCH always pass; those pass exactly when the Content-Type contains `application/json`, and without one they get 415. |
| Security.CharsetParameterAccepted | backend/src/middleware/security.ts:47 | `application/json; charset=utf-8` passes, the test being a substring test. |
| Security.ContentTypeCaseSensitive | backend/src/middleware/security.ts:47 | `Application/JSON` is refused, the test being case-sensitive. |
| Security.LeadingDigits | backend/src/middleware/security.ts:141 | The digits `parseInt` reads are the longest prefix of digits of the radix. |
| Security.ParseIntRoundTrip | backend/src/middleware/security.ts:141 | `parseInt` reads back the decimal text of every natural number. |
| Security.ParseIntIgnoresTrailing | backend/src/middleware/security.ts:141 | `parseInt("12abc")` is 12. |
| Security.ParseIntHex | backend/src/middleware/security.ts:141 | `parseInt("0x10")` is 16. |
| Security.ParseIntNaN | backend/src/middleware/security.ts:141 | A string holding no digit and no sign parses to NaN. |
| Security.PayloadDecision | backend/src/middleware/security.ts:137-150 | The only refusal is 413 with the fixed message. |
| Security.PayloadLimit | backend/src/middleware/security.ts:139-146 | A stated length is refused exactly when it is strictly above the limit; the limit itself passes, as do a missing header and one that parses to NaN. |
| Security.DefaultPayloadLimit | backend/src/middleware/security.ts:137-146 | With the default limit, 100000 bytes pass and 100001 are refused with 413. |
| Security.OriginCheck | backend/src/middleware/security.ts:93-110 | Never blocks; it warns exactly in production for a non-empty origin that is neither the production front end nor `FRONTEND_URL`. |
| Cors.AllowedOrigins | backend/src/config/cors.ts:6-16 | The five fixed origins come first, in order; no entry is empty; `FRONTEND_URL` is added exactly when it is set and non-empty. |
| Cors.NoOriginAllowed | backend/src/config/cors.ts:29-31 | A request without an Origin is allowed by both the callback and `isOriginAllowed`. |
| Cors.DevelopmentAdmitsAll | backend/src/config/cors.ts:33-50 | Outside production the callback allows every origin. |
| Cors.ProductionExactList | backend/src/config/cors.ts:39-46 | In production a non-empty origin is allowed exactly when it is listed, and refused otherwise with `Not allowed by CORS`; the callback and `isOriginAllowed` agree there. |
| Cors.LocalhostIsSubstring | backend/src/config/cors.ts:85-93 | Outside production any origin containing `localhost` anywhere is allowed, listed or not. |
| Cors.CallbackAndHelperDisagree | backend/src/config/cors.ts:22-93 | Outside production an unlisted origin without `localhost` is allowed by the callback but refused by `isOriginAllowed`. |
| Cors.ProductionAdmitsDevOrigins | backend/src/config/cors.ts:6-46 | The localhost development origins stay on the list, so production admits them too. |
| Contact.Length | backend/src/routes/contact.ts:33 | The measured length never exceeds the number of characters and equals it when no variation selector occurs. |
| Contact.EmptyLinkPasses | backend/src/routes/contact.ts:48-52 | An absent, empty or blank link gives no link error. |
| Contact.RobloxLinkAnchoredAtStart | backend/src/routes/contact.ts:55-59 | The link test looks only at the start: anything after an accepted link is still accepted. |
| Contact.RobloxLinkStartsWithScheme | backend/src/routes/contact.ts:55 | Every accepted link starts, in lower case, with `http://` or `https://`. |
| Contact.SuspiciousMessageRejected | backend/src/routes/contact.ts:72-78 | A trimmed message holding `<script`, `javascript:`, `onerror=` or `onclick=` in any case gets the forbidden-content error. |
| Contact.SuspiciousIgnoresCase | backend/src/routes/contact.ts:74 | A fragment matches in any mixture of letter case. |
| Contact.LengthBoundsEnforced | backend/src/routes/contact.ts:29-71 | After trimming, a name outside 2..100 or a message outside 10..2000 gets its length error and the request answers 400. |
| Contact.FirstErrorFirst | backend/src/routes/contact.ts:99-110 | Any validation error answers 400 with the first error's message, before the mail service is considered. |
| Contact.ValidFormOutcomes | backend/src/routes/contact.ts:112-165 | A form that validates has a truthy `ageConfirm`; it answers 503 without a mail service, else 200 when the mail is sent, 500 when it is not and 500 when sending throws; never 400. |
| Contact.AgeConfirmAccepted | backend/src/routes/contact.ts:81-85 | The age chain accepts exactly `true`, the text `true`, and an array whose every element reads as `true`, the empty array included, each element being checked on its own. |
| Contact.CheckedTexts | backend/src/routes/contact.ts:81-85 | A standard validator checks each element of an array, by its text, and any other value by its own text. |
| Contact.EmptyAgeArraySent | backend/src/routes/contact.ts:81-124 | With `ageConfirm` set to an empty array, a form that would be sent with the box ticked passes both age checks and the handler's truthiness test, and is sent with 200. |
| Contact.ConfirmedBeforeSending | backend/src/routes/contact.ts:81-124 | With the intended confirmation a message is sent only when `ageConfirm` is `true` or the text `true`; for every value other than an array the answer is the one the code as written gives. |
| Logger.ShouldLogOnlyHidesDebugInProduction | backend/src/utils/logger.ts:21-27 | A level is suppressed exactly when it is `debug` in production. |
| Logger.RequestFilter | backend/src/utils/logger.ts:145-155 | Outside production every finished request is logged; in production exactly those with status 400 or more or lasting over 5000 ms, so 5000 ms exactly is not. |
| Logger.KeyLower | backend/src/utils/logger.ts:171 | A lowered key holds no upper-case letter. |
| Logger.ApiKeyEntryInert | backend/src/utils/logger.ts:167-171 | No lowered key contains `apiKey`, so that entry of the list never matches. |
| Logger.SensitiveIff | backend/src/utils/logger.ts:167-171 | A key is redacted exactly when its lower case contains `password`, `token`, `secret`, `authorization` or `cookie`. |
| Logger.Spread | backend/src/utils/logger.ts:168 | Spreading an object keeps its fields; spreading an array gives one field per element, named by its index. |
| Logger.IsSensitiveKey | backend/src/utils/logger.ts:171 | The walk over the list finds a match exactly when the key is sensitive. |
| Logger.SanitizeForLog | backend/src/utils/logger.ts:162-179 | The copying loop returns what the redactor specifies; the input value is not changed. |
| Logger.RedactedShape | backend/src/utils/logger.ts:162-178 | A non-object comes back unchanged; an object comes back with the same keys in order, an array as an object keyed by indices; every sensitive key holds `***REDACTED***`. |
| Logger.RedactedIsClean | backend/src/utils/logger.ts:170-176 | At every depth of the result, a sensitive key holds only the mask. |
| Logger.CleanIsFixed | backend/src/utils/logger.ts:170-176 | A value already clean is returned as it is. |
| Logger.RedactIdempotent | backend/src/utils/logger.ts:162-179 | Redacting twice equals redacting once. |
| Logger.ApiKeyKept | backend/src/utils/logger.ts:167-175 | A field named `apiKey` is not masked: its value is copied, or redacted in turn when it is an object. |
| Logger.CaseVariantMasked | backend/src/utils/logger.ts:171-172 | A key containing a listed word in any letter case is masked, its value not looked into. |
| Logger.ApiKeyNotSensitive | backend/src/utils/logger.ts:167-171 | The key `apiKey` is not sensitive. |
| Catalog.Keep | src/hooks/useGames.ts:17-37 | A filter yields a sub-multiset of its input, never longer. |
| Catalog.KeepMembers | src/hooks/useGames.ts:17-37 | A filter keeps exactly the games that pass its test. |
| Catalog.KeepTwice | src/hooks/useGames.ts:15-38 | Two filters in a row equal one filter by both tests. |
| Catalog.FilteredIsOneFilter | src/hooks/useGames.ts:15-38 | The four conditional filters equal one filter by all active conditions, order kept. |
| Catalog.FilteredMeaning | src/hooks/useGames.ts:12-38 | A game is kept exactly when it is in the catalogue and passes every active filter; nothing is added or duplicated. |
| Catalog.NoFilterKeepsAll | src/hooks/useGames.ts:12-38 | With no filter active the whole catalogue is kept, in order. |
| Catalog.SearchFindsSubstring | src/hooks/useGames.ts:15-22 | A query found in any letter case in the title, description, a tag or the developer selects the game. |
| Catalog.SearchCaseInsensitive | src/hooks/useGames.ts:16-21 | A query selects the same games as its lower-cased form. |
| Catalog.SortDescPermutes | src/hooks/useGames.ts:41-66 | The sort returns a permutation of its input. |
| Catalog.SortDescSorted | src/hooks/useGames.ts:41-66 | The sort leaves ranks in descending order. |
| Catalog.SortDescStable | src/hooks/useGames.ts:41-66 | Elements of equal rank keep their relative order. |
| Catalog.SortDescEqualRanks | src/hooks/useGames.ts:63-64 | When the comparator always answers 0 the order is the input order. |
| Catalog.SortDescKeepsSorted | src/hooks/useGames.ts:41-66 | An input already in order is left as it is. |
| Catalog.ShiftRun | src/hooks/useGames.ts:41 | The inner loop shifts the lower-ranked run before `a[i]` up one place and finds where `a[i]` belongs. |
| Catalog.InsertInPlace | src/hooks/useGames.ts:41 | One pass inserts `a[i]` into the sorted prefix, as the stable insertion does. |
| Catalog.SortInPlace | src/hooks/useGames.ts:41-66 | The in-place sort leaves the array as the stable descending sort of its old contents. |
| Catalog.SortedGamesMeaning | src/hooks/useGames.ts:41-66 | The sorted games are a permutation of the input, descending by key, stable within a key, and unchanged when the comparator always answers 0. |
| Catalog.FilteredAndSortedGames | src/hooks/useGames.ts:11-69 | The listing is the filtered games sorted by the chosen key; it holds exactly the catalogue games passing every filter, none more often than in the catalogue. |
| Catalog.ListingMeaning | src/hooks/useGames.ts:12-68 | The sorted listing is a sub-multiset of the catalogue holding exactly the games that pass every active filter. |
| Catalog.SortOrders | src/hooks/useGames.ts:41-66 | `popular` and `players` order by players descending; `rating` by rating descending; ties keep their order; an unknown option leaves the order unchanged. |
| Catalog.Take | src/hooks/useGames.ts:76 | `slice(0, n)` is a prefix of length min(n, length). |
| Catalog.TopN | src/hooks/useGames.ts:72-85 | A top-n selection has min(n, qualifying) games, all qualifying catalogue games, players descending. |
| Catalog.TopNLeavesOutFewer | src/hooks/useGames.ts:72-85 | No qualifying game left out has more players than one selected. |
| Catalog.HomeSelections | src/hooks/useGames.ts:72-85 | Featured games are at most 6 featured catalogue games, popular games at most 3 popular ones, both players descending. |
| Catalog.UseGames | src/hooks/useGames.ts:91-109 | The hook returns the sorted listing, its length as the filtered count, the catalogue length as the total, and the two selections. |
| Catalog.InitialListing | src/hooks/useGames.ts:6-69 | With the initial filters the listing is the whole mock catalogue, in its own order. |
| FilterPanel.CategoryChange | src/components/GameFilters.tsx:28-33 | Choosing the active category clears it and another sets it; other fields are copied; choosing one twice from no category or that category restores the record. |
| FilterPanel.SortChange | src/components/GameFilters.tsx:35-40 | Sets `sortBy` and copies everything else. |
| FilterPanel.FlagToggles | src/components/GameFilters.tsx:42-54 | Each toggle negates its flag's truthiness and copies the rest; two toggles restore the truthiness. |
| FilterPanel.ClearResets | src/components/GameFilters.tsx:56-63 | Clearing keeps the search, sorts by popularity, drops the category and both flags, leaves nothing active, and is idempotent. |
| FilterPanel.InactiveMeansSearchOnly | src/components/GameFilters.tsx:63 | With no active filter, only the search narrows the listing. |
| FilterPanel.ClearedListsAll | src/components/GameFilters.tsx:56-61 | After clearing, with no search, the whole catalogue is listed. |
| Favorites.Without | src/hooks/useFavorites.ts:37 | The filter keeps exactly the ids other than the toggled one, never growing the list. |
| Favorites.Clear | src/hooks/useFavorites.ts:49-51 | Afterwards no id is a favourite. |
| Favorites.WithoutTwice | src/hooks/useFavorites.ts:37 | Filtering an id out twice equals filtering it out once. |
| Favorites.ToggleAbsentAppends | src/hooks/useFavorites.ts:38-40 | Toggling an absent id appends it at the end. |
| Favorites.TogglePresentRemovesAll | src/hooks/useFavorites.ts:36-37 | Toggling a present id removes every occurrence, so the list gets shorter. |
| Favorites.ToggleKeepsOthers | src/hooks/useFavorites.ts:34-42 | A toggle leaves every other id, and their order, unchanged. |
| Favorites.ToggleFlips | src/hooks/useFavorites.ts:34-47 | A toggle flips `isFavorite` for its id and for no other id. |
| Favorites.ToggleTwice | src/hooks/useFavorites.ts:34-42 | From a list without the id, two toggles restore the list; from a list with it, the id ends up once, at the end. |
| Seo.FullTitleBranded | src/components/SEO.tsx:21 | The full title always contains `Mini Groups` and starts with the given title. |
| Seo.FullTitleCases | src/components/SEO.tsx:21 | A title is kept exactly when it contains `Mini Groups`; any other gets ` \| Mini Groups Studio` appended. |
| Seo.FullTitleIdempotent | src/components/SEO.tsx:21 | Applying the rule twice equals applying it once. |
| Seo.DefaultTitleKept | src/components/SEO.tsx:14-21 | The default title already names the studio and is used as it is. |

## Left out

- Upstream I/O: the Roblox HTTP calls and their 10-second timeouts are not modelled. Each answer is an input, keyed by its argument.
- The e-mail send and its templating (`backend/src/services/email.service.ts`) are not modelled. The send outcome is a parameter, and `EmailService.isConfigured()` is a flag.
- Concurrency: the `Promise.all` fan-outs in `getGame` and `getAllGames` run sequentially in the model. The concurrent requests for one batch could interleave their cache reads differently.
- Console output: the cache's, the service's and the logger's console lines and log formatting are not modelled.
- Floating point: ratings are integer tenths, and the tie-breaking of `toFixed` at an exact `.x5` is not reproduced. Game and catalogue numbers are integers.
- Roblox.RatingTenths: rounds the exact ratio to tenths, a tie going up; how `toFixed(1)` rounds the binary double nearest the ratio (`backend/src/services/roblox.service.ts:136`) is not reproduced.
- `Array.prototype.sort` is modelled as the stable insertion sort that ECMAScript's stability requirement makes it agree with. Its own algorithm is not modelled.
- The `newest` and `alphabetical` sorts use abstract ranks (`Catalog.Orders`). Date parsing, a NaN date and `localeCompare` collation are not modelled.
- `toLowerCase` folds only A-Z, except in the log redactor. There it also maps the two non-ASCII characters whose lower case contains an ASCII letter.
- The express-validator built-ins `isEmail` and `normalizeEmail`, and the three regular expressions of `sanitizeInput` that are more than substring tests, are abstract predicates. These are the script tag, `on\w+\s*=` and the SQL statement shapes.
- `validateGameId`, `validateGameQuery` and `validateNumericId` (`backend/src/middleware/validators.ts:24-78`) are not modelled: they are express-validator configuration. `detectAttackPatterns`, `requestTimeout`, `sanitizeHeaders`, `helmetConfig`, the rate limiters and the Express wiring of `backend/src/index.ts` are not modelled either: they are library configuration or timers.
- The contact route's `/health` endpoint and its rate limiter are not modelled.
- Validators.SanitizeInput: does not model that a key named `__proto__` may be dropped or may change an object's prototype, or that `req.query` may be a getter. Request parts are plain values.
- Security.ContentTypeDecision and Security.PayloadDecision: a header that Node delivers as an array is not modelled. Headers are single strings.
- Game fields the hook never reads (`thumbnail`, `visits`, `lastUpdated`, `url`) are not part of `Catalog.CatalogGame`.
- `localStorage` loading and saving of the favourites, React state and memoisation, the JSX of the filter panel and the meta tags of `SEO` are not modelled.
- Roblox.RobloxService.GetGame: tests `placeId in GAMES_CONFIG`; the code reads `GAMES_CONFIG[placeId]` through the prototype chain (`backend/src/services/roblox.service.ts:150-151`), so for a name inherited from `Object.prototype` (`GameRoutes.OBJECT_PROTOTYPE_MEMBERS`), such as `constructor`, it goes on to request a universe id, and a game it composes has no category and no tags.
- Roblox.RobloxService.GetAllGames: for an inherited requested id the code's fallback is a record whose fields taken from the tables are undefined (`backend/src/services/roblox.service.ts:226-227, 262`), and it is kept in the list and cached; the model drops that id.
- Roblox.UnknownPlaceRejected: holds for own entries only; in the code an inherited name passes the configuration test and a universe request is made for it.
- Roblox.ColdGetGame: holds for own entries only; in the code an inherited name can succeed, and its requests are those of a configured place.
- Roblox.FallbackCoversConfig: holds for own entries only; in the code `getFallbackGame` returns a record of undefined title, counts, category and tags for an inherited name.
- Roblox.GetGameSuccessId: holds for own entries only; in the code a successful `getGame` can be for an inherited, unconfigured name.
- Roblox.NextSlot: holds for own entries only; in the code the slot of an inherited id holds a live game or the undefined-field fallback record.
- Roblox.FetchAllSlots: holds for own entries only, as `Roblox.NextSlot` does, slot by slot.
- Roblox.BatchFollowsConfig: holds for own entries only; in the code every inherited requested id adds a record to the batch.
- GameRoutes.HandleGetPlace: tests own entries; in the code an inherited id passes the 404 guard (`backend/src/routes/games.ts:52`) and reaches the service, which may make requests and fill the cache; only the resulting status is modelled as written, by `GameRoutes.ThrowStatusAsWritten` (see "## Findings").
- The contact form (`Contact.ContactForm`) gives `name`, `email`, `gameLink` and `message` as strings or absent; a body that sends an array, a number or an object for one of them, which the chains would trim and check element by element, is not modelled. Only `ageConfirm` is any JSON value.
- The `catch` of `GET /` is kept in `GameRoutes.ListReply` but is unreachable, because `getAllGames` never throws.

## Findings

| source | as written | input that shows it | evidently intended | confidence | as-written member | corrected member |
|---|---|---|---|---|---|---|
| backend/src/routes/games.ts:52 | `!GAMES_CONFIG[placeId]` looks the id up through the prototype chain, so a name inherited from `Object.prototype` passes the 404 guard; `getFallbackGame` makes the same lookup in its table and then serves a record for it; `getGame` makes the same lookup too and so asks the upstream about the name (the service-level effects are listed under "## Left out", at `Roblox.RobloxService.GetGame` and the rows after it) | `GET /api/games/constructor` while the upstream fails: 200 with a fallback record for a game that does not exist, instead of 404 | an own-entry test (`Object.hasOwn`), so that only configured ids pass | high (standard JavaScript property lookup), not executed | GameRoutes.PrototypeKeyServed | GameRoutes.ThrowStatusOwnEntries |
| backend/src/routes/contact.ts:81-124 | `body('ageConfirm').isBoolean().equals('true')` checks each element of an array on its own, so an empty array raises no error, and `!formData.ageConfirm` is false for any array | a contact request whose `ageConfirm` is `[]`, all other fields valid, with the mail service configured: the message is sent and the answer is 200, with no age confirmed | the request is refused unless `ageConfirm` is `true` (or the text `true`) | medium (reasoned from express-validator's element-wise checking of arrays), not executed | Contact.EmptyAgeArraySent | Contact.ConfirmedBeforeSending |
