/** The games router (backend/src/routes/games.ts): which reply each outcome of the
    service produces, the handlers that write it to the response object, and the
    order in which the router tries its routes. */
module GameRoutes {
  import opened Wrappers
  import opened Cache
  import opened GamesConfig
  import opened Roblox

  datatype Payload = OneGame(game: Game) | GameListing(games: seq<Game>)

  /** `ApiResponse<T>`: `data` on success, `error` otherwise. */
  datatype ApiResponse = ApiResponse(success: bool, data: Option<Payload>, error: Option<string>)

  /** A status code and a JSON body. */
  datatype Reply = Reply(status: int, body: ApiResponse)

  const LIST_ERROR: string := "Erro ao buscar dados dos jogos. Tente novamente mais tarde."
  const GAME_ERROR: string := "Erro ao buscar dados do jogo. Tente novamente mais tarde."

  function NotFoundMessage(placeId: string): string {
    "Jogo com Place ID " + placeId + " não encontrado"
  }

  function Success200(p: Payload): Reply {
    Reply(200, ApiResponse(true, Some(p), None))
  }

  function Error(status: int, message: string): Reply {
    Reply(status, ApiResponse(false, None, Some(message)))
  }

  /** `ids.map(getFallbackGame)`. */
  function FallbackSlots(ids: seq<string>, nowIso: string): (r: seq<Option<Game>>)
    ensures |r| == |ids| && forall i :: 0 <= i < |ids| ==> r[i] == FallbackGame(ids[i], nowIso)
  {
    if ids == [] then [] else [FallbackGame(ids[0], nowIso)] + FallbackSlots(ids[1..], nowIso)
  }

  /** The fallback records of the default ids, nulls dropped, in order. */
  function DefaultFallbacks(nowIso: string): seq<Game> {
    Present(FallbackSlots(GAME_PLACE_IDS, nowIso))
  }

  /** `GET /`. `outcome` is the list `getAllGames` resolved to, or `None` when it threw. */
  function ListReply(outcome: Option<seq<Game>>, nowIso: string): Reply {
    match outcome
    case Some(games) => Success200(GameListing(games))
    case None =>
      var fallback := DefaultFallbacks(nowIso);
      if |fallback| > 0 then Success200(GameListing(fallback)) else Error(500, LIST_ERROR)
  }

  /** `GET /:placeId` for a configured place: the game, or when `getGame` throws the
      fallback record if there is one, else 500. */
  function ServedReply(placeId: string, outcome: Result<Game, Roblox.Error>, nowIso: string): Reply {
    match outcome
    case Success(game) => Success200(OneGame(game))
    case Failure(_) =>
      var fallback := FallbackGame(placeId, nowIso);
      if fallback.Some? then Success200(OneGame(fallback.value)) else Error(500, GAME_ERROR)
  }

  /** `GET /:placeId` for an unconfigured place: 404, before the service is consulted. */
  function UnknownPlaceReply(placeId: string): Reply {
    Error(404, NotFoundMessage(placeId))
  }

  /** Express's response object, reduced to what the handlers use. */
  class HttpResponse {
    var statusCode: int
    var sent: Option<ApiResponse>

    constructor ()
      ensures statusCode == 200 && sent == None
    {
      statusCode := 200;
      sent := None;
    }

    /** `res.status(code)`. */
    method Status(code: int)
      modifies this
      ensures statusCode == code && sent == old(sent)
    {
      statusCode := code;
    }

    /** `res.json(body)`: sends the body once. */
    method Json(body: ApiResponse)
      requires sent == None
      modifies this
      ensures sent == Some(body) && statusCode == old(statusCode)
    {
      sent := Some(body);
    }

    /** What has been sent, as a reply. */
    function Written(): Option<Reply>
      reads this
    {
      if sent.Some? then Some(Reply(statusCode, sent.value)) else None
    }
  }

  /** Writes `reply` with `res.status(...).json(...)`, or plain `res.json(...)` for 200. */
  method Send(res: HttpResponse, reply: Reply)
    requires res.sent == None && res.statusCode == 200
    modifies res
    ensures res.Written() == Some(reply)
  {
    if reply.status != 200 {
      res.Status(reply.status);
    }
    res.Json(reply.body);
  }

  /** The `GET /` handler. `getAllGames` never throws, so the reply is always the list
      it yields. */
  method HandleListGames(svc: RobloxService, res: HttpResponse, up: Upstream, now: int, nowIso: string)
    requires svc.cache.Valid()
    requires res.sent == None && res.statusCode == 200
    modifies svc, svc.cache, res
    ensures svc.cache.Valid()
    ensures var s := GetAllGamesStep(old(svc.cache.entries), old(svc.calls), GAME_PLACE_IDS, up, now, nowIso);
            && res.Written() == Some(ListReply(Some(s.value), nowIso))
            && svc.cache.entries == s.entries && svc.calls == s.calls
  {
    var games := svc.GetAllGames(GAME_PLACE_IDS, up, now, nowIso);
    Send(res, ListReply(Some(games), nowIso));
  }

  /** The `GET /:placeId` handler. An unconfigured place answers 404 before the
      service, and so the cache and the upstream, are touched. */
  method HandleGetPlace(svc: RobloxService, res: HttpResponse, placeId: string, up: Upstream, now: int,
                        nowIso: string)
    requires svc.cache.Valid()
    requires res.sent == None && res.statusCode == 200
    modifies svc, svc.cache, res
    ensures svc.cache.Valid()
    ensures placeId !in GAMES_CONFIG ==>
              && res.Written() == Some(UnknownPlaceReply(placeId))
              && svc.cache.entries == old(svc.cache.entries) && svc.calls == old(svc.calls)
    ensures placeId in GAMES_CONFIG ==>
              var s := GetGameStep(old(svc.cache.entries), old(svc.calls), placeId, up, now);
              && res.Written() == Some(ServedReply(placeId, s.value, nowIso))
              && svc.cache.entries == s.entries && svc.calls == s.calls
  {
    if placeId !in GAMES_CONFIG {
      Send(res, UnknownPlaceReply(placeId));
      return;
    }
    var game := svc.GetGame(placeId, up, now);
    Send(res, ServedReply(placeId, game, nowIso));
  }

  // ---------------------------------------------------------------------------
  // Route order

  /** The router's patterns: `/`, `/:placeId` and the literal `/health`. */
  datatype Pattern = Root | PlaceParam | Literal(segment: string)

  datatype Handler = ListGames | GameByPlace | Health

  /** The routes in registration order. */
  const ROUTES: seq<(Pattern, Handler)> := [(Root, ListGames), (PlaceParam, GameByPlace), (Literal("health"), Health)]

  /** Whether a pattern matches a path (its non-empty segments below `/api/games`). */
  predicate Matches(p: Pattern, path: seq<string>) {
    match p
    case Root => path == []
    case PlaceParam => |path| == 1 && path[0] != ""
    case Literal(s) => path == [s]
  }

  datatype Dispatched = Routed(handler: Handler, index: nat) | NoRoute

  /** First-match dispatch: the first route, in registration order, whose pattern
      matches. */
  function Dispatch(routes: seq<(Pattern, Handler)>, path: seq<string>): (d: Dispatched)
    ensures d.Routed? ==> d.index < |routes| && Matches(routes[d.index].0, path)
                          && d.handler == routes[d.index].1
                          && forall j :: 0 <= j < d.index ==> !Matches(routes[j].0, path)
    ensures d.NoRoute? ==> forall j :: 0 <= j < |routes| ==> !Matches(routes[j].0, path)
  {
    if routes == [] then NoRoute
    else if Matches(routes[0].0, path) then Routed(routes[0].1, 0)
    else
      match Dispatch(routes[1..], path)
      case Routed(h, i) => Routed(h, i + 1)
      case NoRoute => NoRoute
  }

  /** `/health` is registered after `/:placeId`, which also matches it, so it is never
      reached: `GET /api/games/health` is handled as the place id `health`, which is
      not configured and answers 404. */
  lemma HealthShadowed(path: seq<string>)
    ensures Dispatch(ROUTES, ["health"]) == Routed(GameByPlace, 1)
    ensures Dispatch(ROUTES, path).Routed? ==> Dispatch(ROUTES, path).handler != Health
    ensures "health" !in GAMES_CONFIG && UnknownPlaceReply("health").status == 404
  {
    assert GAMES_CONFIG.Keys == {MINI_CITY_RP, MAKE_A_BRAINROT, MINI_SHOOTERS};
    assert Matches(ROUTES[1].0, ["health"]);
  }

  /** The fallback list of `GET /` holds one record per default id, in order, so that
      handler's 500 branch cannot be taken. */
  lemma DefaultFallbacksComplete(nowIso: string)
    ensures IdsOf(DefaultFallbacks(nowIso)) == GAME_PLACE_IDS
    ensures ListReply(None, nowIso).status == 200 && ListReply(None, nowIso).body.success
  {
    ConfigShape();
    var slots := FallbackSlots(GAME_PLACE_IDS, nowIso);
    forall i | 0 <= i < |GAME_PLACE_IDS|
      ensures slots[i].Some? <==> GAME_PLACE_IDS[i] in GAMES_CONFIG
      ensures slots[i].Some? ==> slots[i].value.id == GAME_PLACE_IDS[i]
    {
      FallbackCoversConfig(GAME_PLACE_IDS[i], nowIso);
    }
    PresentFollowsIds(slots, GAME_PLACE_IDS);
    ConfiguredKeepsAll(GAME_PLACE_IDS);
  }

  /** For a configured place `GET /:placeId` always succeeds: the live game, or its
      fallback when the service throws. */
  lemma ConfiguredPlaceAlwaysServed(placeId: string, outcome: Result<Game, Roblox.Error>, nowIso: string)
    requires placeId in GAMES_CONFIG
    ensures var r := ServedReply(placeId, outcome, nowIso);
            && r.status == 200 && r.body.success && r.body.data.Some? && r.body.data.value.OneGame?
            && (outcome.Success? ==> r.body.data.value.game == outcome.value)
            && (outcome.Failure? ==> r.body.data.value.game == FallbackGame(placeId, nowIso).value
                                     && r.body.data.value.game.id == placeId)
  {
    FallbackCoversConfig(placeId, nowIso);
  }

  // ---------------------------------------------------------------------------
  // Inherited property names

  /** Members an object literal such as `GAMES_CONFIG` or the fallback table inherits
      from `Object.prototype`. `obj[name]` for one of these yields a function or an
      object, both truthy, although no entry of that name was written. */
  const OBJECT_PROTOTYPE_MEMBERS: set<string> := {
    "constructor", "__proto__", "hasOwnProperty", "isPrototypeOf", "propertyIsEnumerable",
    "toLocaleString", "toString", "valueOf", "__defineGetter__", "__defineSetter__",
    "__lookupGetter__", "__lookupSetter__"
  }

  /** `!!GAMES_CONFIG[placeId]` as written: an own entry or an inherited member. */
  predicate ConfigTruthyAsWritten(placeId: string) {
    placeId in GAMES_CONFIG || placeId in OBJECT_PROTOTYPE_MEMBERS
  }

  /** `!!fallbackData[placeId]` as written. */
  predicate FallbackTruthyAsWritten(placeId: string) {
    placeId in FALLBACK_DATA || placeId in OBJECT_PROTOTYPE_MEMBERS
  }

  /** The status `GET /:placeId` answers as written when `getGame` throws: 404 from
      the guard, else 200 when `getFallbackGame` passes both of its tests, else 500. */
  function ThrowStatusAsWritten(placeId: string): int {
    if !ConfigTruthyAsWritten(placeId) then 404
    else if FallbackTruthyAsWritten(placeId) then 200
    else 500
  }

  /** The same status with own-entry tests, as `HandleGetPlace` and `FallbackGame`
      decide. */
  function ThrowStatus(placeId: string, nowIso: string): int {
    if placeId !in GAMES_CONFIG then UnknownPlaceReply(placeId).status
    else ServedReply(placeId, Failure(UniverseUnavailable(placeId)), nowIso).status
  }

  /** As written, `GET /api/games/constructor` is not refused: the guard finds an
      inherited member, the service is consulted, and when it throws the fallback
      table's inherited member makes a 200 reply with a record for a game that does
      not exist. */
  lemma PrototypeKeyServed()
    ensures "constructor" !in GAMES_CONFIG && "constructor" !in FALLBACK_DATA
    ensures ConfigTruthyAsWritten("constructor")
    ensures ThrowStatusAsWritten("constructor") == 200
  {
    assert GAMES_CONFIG.Keys == {MINI_CITY_RP, MAKE_A_BRAINROT, MINI_SHOOTERS};
    assert FALLBACK_DATA.Keys == GAMES_CONFIG.Keys;
  }

  /** With own-entry tests an id is refused with 404 exactly when it has no entry,
      and every configured id is served with 200. */
  lemma ThrowStatusOwnEntries(placeId: string, nowIso: string)
    ensures ThrowStatus(placeId, nowIso) == 404 <==> placeId !in GAMES_CONFIG
    ensures placeId in GAMES_CONFIG ==> ThrowStatus(placeId, nowIso) == 200
  {
    if placeId in GAMES_CONFIG {
      ConfiguredPlaceAlwaysServed(placeId, Failure(UniverseUnavailable(placeId)), nowIso);
    }
  }

  /** The two agree on every id that is not an inherited member name. */
  lemma OrdinaryIdsAgree(placeId: string, nowIso: string)
    requires placeId !in OBJECT_PROTOTYPE_MEMBERS
    ensures ThrowStatusAsWritten(placeId) == ThrowStatus(placeId, nowIso)
  {
    ThrowStatusOwnEntries(placeId, nowIso);
    assert FALLBACK_DATA.Keys == GAMES_CONFIG.Keys;
  }
}
