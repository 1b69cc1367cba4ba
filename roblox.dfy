/** The game aggregator (backend/src/services/roblox.service.ts).

    Every lookup is cache-aside against the shared `CacheService`: read the key, use
    the value if it is truthy, otherwise ask the upstream API and store the answer.
    The upstream API is an input (`Upstream`): one outcome per request. The service
    keeps a log of the requests it issues (`calls`), so that "no upstream call" can be
    stated. The clock is the parameter `now` (milliseconds), read once per operation;
    the fallback table's `lastUpdated` timestamp is the parameter `nowIso`.

    Each method is proved equal to a state-passing function over the cache entries
    and the request log (`Step`); the lemmas at the end are about those functions. */
module Roblox {
  import opened Wrappers
  import opened Strings
  import opened Cache
  import opened GamesConfig

  /** The record the service returns. `rating` is in tenths of a star (0..50). */
  datatype Game = Game(
    id: string,
    title: string,
    description: string,
    thumbnail: string,
    category: Category,
    playersOnline: int,
    visits: int,
    rating: int,
    isPopular: bool,
    createdAt: string,
    lastUpdated: string,
    tags: seq<string>,
    developer: string,
    featured: bool,
    url: string)

  /** One row of the games endpoint (the `creator` field is not used and not modelled). */
  datatype GameData = GameData(id: int, name: string, description: string, created: string,
                               updated: string, playing: int, visits: int)

  datatype VotesData = VotesData(id: int, upVotes: nat, downVotes: nat)

  datatype ThumbnailData = ThumbnailData(targetId: int, state: string, imageUrl: string)

  /** What one upstream request yields: the decoded response, or a failure (network
      error, error status, timeout, malformed body). */
  datatype Fetched<T> = Ok(value: T) | Fail

  /** The upstream API: the answers of the universe-id endpoint by place id, and the
      `data` arrays of the games, votes and icons endpoints by universe id. A request
      whose argument is absent fails. */
  datatype Upstream = Upstream(
    universe: map<string, int>,
    details: map<int, seq<GameData>>,
    votes: map<int, seq<VotesData>>,
    thumbnails: map<int, seq<ThumbnailData>>)

  function UniverseAnswer(up: Upstream, placeId: string): Fetched<int> {
    if placeId in up.universe then Ok(up.universe[placeId]) else Fail
  }

  function DetailsAnswer(up: Upstream, universeId: int): Fetched<seq<GameData>> {
    if universeId in up.details then Ok(up.details[universeId]) else Fail
  }

  function VotesAnswer(up: Upstream, universeId: int): Fetched<seq<VotesData>> {
    if universeId in up.votes then Ok(up.votes[universeId]) else Fail
  }

  function ThumbnailAnswer(up: Upstream, universeId: int): Fetched<seq<ThumbnailData>> {
    if universeId in up.thumbnails then Ok(up.thumbnails[universeId]) else Fail
  }

  datatype Request =
    | UniverseRequest(placeId: string)
    | DetailsRequest(universeId: int)
    | VotesRequest(universeId: int)
    | ThumbnailRequest(universeId: int)

  /** The errors `getGame` throws. */
  datatype Error =
    | UnknownPlace(placeId: string)
    | UniverseUnavailable(placeId: string)
    | DetailsUnavailable(universeId: int)

  /** The values the service stores in the shared cache, one variant per key namespace. */
  datatype CachedValue =
    | UniverseId(n: int)
    | Details(d: GameData)
    | Votes(v: VotesData)
    | Thumbnail(url: string)
    | FullGame(g: Game)
    | GameList(gs: seq<Game>)

  type Entries = map<string, Entry<CachedValue>>

  /** `if (cached)`: a cached `0` or `''` is falsy; objects and arrays, even empty, are not. */
  predicate Truthy(v: CachedValue) {
    match v
    case UniverseId(n) => n != 0
    case Thumbnail(url) => url != ""
    case _ => true
  }

  const DEFAULT_DESCRIPTION: string := "Descrição não disponível"
  const PLACEHOLDER_THUMBNAIL: string := "https://via.placeholder.com/512x512?text=No+Image"
  const GAME_URL_PREFIX: string := "https://www.roblox.com/games/"
  const COMPLETED: string := "Completed"
  const ALL_GAMES_KEY: string := "all_games"

  function UniverseKey(placeId: string): string { "universe:" + placeId }
  function DetailsKey(universeId: int): string { "game:" + IntToString(universeId) }
  function VotesKey(universeId: int): string { "votes:" + IntToString(universeId) }
  function ThumbnailKey(universeId: int): string { "thumbnail:" + IntToString(universeId) }
  function FullGameKey(placeId: string): string { "full_game:" + placeId }

  /** Which variant each key namespace holds. A full game is filed under its own
      id, which is a configured place id. */
  predicate WellFiled(key: string, v: CachedValue) {
    && (HasPrefix("universe:", key) ==> v.UniverseId?)
    && (HasPrefix("game:", key) ==> v.Details?)
    && (HasPrefix("votes:", key) ==> v.Votes?)
    && (HasPrefix("thumbnail:", key) ==> v.Thumbnail?)
    && (HasPrefix("full_game:", key) ==> v.FullGame? && key == FullGameKey(v.g.id) && v.g.id in GAMES_CONFIG)
    && (key == ALL_GAMES_KEY ==> v.GameList?)
  }

  /** The invariant of the shared cache: every entry is well filed. */
  predicate Typed(m: Entries) {
    forall k :: k in m ==> WellFiled(k, m[k].data)
  }

  /** `cacheService.set(key, v, ttlMinutes)` with a non-zero TTL at instant `now`. */
  function Store(m: Entries, key: string, v: CachedValue, ttlMinutes: int, now: int): Entries {
    m[key := Entry(v, now + ttlMinutes * MS_PER_MINUTE)]
  }

  /** A result, the cache entries and the request log after an operation. */
  datatype Step<T> = Step(value: T, entries: Entries, calls: seq<Request>)

  // ---------------------------------------------------------------------------
  // Pure rules

  /** `calculateRating`, in tenths: 0 without votes, otherwise `up / (up + down) * 5`
      to the nearest tenth (a half rounds up). For every input the result lies in
      0..50, that is between 0 and 5 stars. */
  function RatingTenths(up: nat, down: nat): (r: nat)
    ensures up + down == 0 ==> r == 0
    ensures up + down > 0 ==> -(up + down) < 2 * (r * (up + down) - 50 * up) <= up + down
    ensures r <= 50
  {
    if up + down == 0 then 0
    else
      var total := up + down;
      var r := (100 * up + total) / (2 * total);
      assert 100 * up + total < 101 * total + total;
      assert r <= 50 by {
        DivBound(100 * up + total, 2 * total, 51);
      }
      r
  }

  lemma DivBound(a: nat, b: nat, k: nat)
    requires b > 0 && a < k * b
    ensures a / b < k
  {
  }

  /** The composed record, from the configuration and the three upstream answers. */
  function Compose(placeId: string, config: GameConfig, d: GameData, votes: VotesData,
                   thumbnail: string): Game
  {
    Game(
      id := placeId,
      title := d.name,
      description := if d.description == "" then DEFAULT_DESCRIPTION else d.description,
      thumbnail := thumbnail,
      category := config.category,
      playersOnline := d.playing,
      visits := d.visits,
      rating := RatingTenths(votes.upVotes, votes.downVotes),
      isPopular := d.playing >= POPULAR_THRESHOLD,
      createdAt := d.created,
      lastUpdated := d.updated,
      tags := config.tags,
      developer := DEVELOPER_NAME,
      featured := true,
      url := GAME_URL_PREFIX + placeId)
  }

  /** The hand-authored metrics of the static fallback table. */
  datatype FallbackData = FallbackData(title: string, description: string, thumbnail: string,
                                       playersOnline: int, visits: int, rating: int,
                                       createdAt: string)

  const FALLBACK_DATA: map<string, FallbackData> := map[
    MINI_CITY_RP := FallbackData(
      "Mini City RP",
      "💼 Trabalhe de Gari, Fazendeiro, Entregador, Médico, entre outros empregos. Você também pode ser Policial, e colocar ordem na cidade, ou seguir a vida do crime, e criar sua própria gangue para dominar a cidade.",
      "https://tr.rbxcdn.com/180DAY-31e03c5b3b13bc4b4bf82029914393d7/768/432/Image/Webp/noFilter",
      450000, 3200000000, 48, "2025-05-11T00:00:00Z"),
    MAKE_A_BRAINROT := FallbackData(
      "Make A BrainRot",
      "Crie seu Brainrot e explore um mundo caótico e divertido com seus amigos!",
      "https://tr.rbxcdn.com/180DAY-e57ef39efc0654add0260badc5a415c0/768/432/Image/Webp/noFilter",
      380000, 2800000000, 47, "2024-08-10T00:00:00Z"),
    MINI_SHOOTERS := FallbackData(
      "Mini Shooters",
      "Enter our intense and fast first-person shooter, where skill, style and chaos reign!",
      "https://tr.rbxcdn.com/180DAY-fd26469cf96029dcc251c6c7e50072ed/768/432/Image/Webp/noFilter",
      320000, 2500000000, 46, "2024-11-15T00:00:00Z")
  ]

  /** `getFallbackGame(placeId)`; `nowIso` is `new Date().toISOString()`. Both tables
      are tested for own entries; names the code would also find on `Object.prototype`
      are treated as unconfigured. */
  function FallbackGame(placeId: string, nowIso: string): Option<Game> {
    if placeId !in GAMES_CONFIG || placeId !in FALLBACK_DATA then None
    else
      var config := GAMES_CONFIG[placeId];
      var f := FALLBACK_DATA[placeId];
      Some(Game(
        id := placeId,
        title := f.title,
        description := f.description,
        thumbnail := f.thumbnail,
        category := config.category,
        playersOnline := f.playersOnline,
        visits := f.visits,
        rating := f.rating,
        isPopular := f.playersOnline >= POPULAR_THRESHOLD,
        createdAt := f.createdAt,
        lastUpdated := nowIso,
        tags := config.tags,
        developer := DEVELOPER_NAME,
        featured := true,
        url := GAME_URL_PREFIX + placeId))
  }

  /** `games.filter(game => game !== null)`. */
  function Present(gs: seq<Option<Game>>): (r: seq<Game>)
    ensures |r| <= |gs|
    ensures forall g :: g in r <==> Some(g) in gs
    ensures (forall i :: 0 <= i < |gs| ==> gs[i].Some?) ==> |r| == |gs|
  {
    if gs == [] then []
    else
      var rest := Present(gs[1..]);
      assert forall g :: Some(g) in gs <==> Some(g) == gs[0] || Some(g) in gs[1..];
      if gs[0].Some? then [gs[0].value] + rest else rest
  }

  // ---------------------------------------------------------------------------
  // The cache-aside lookups as functions of the entries, the log and the upstream

  /** `getUniverseId`: cached for 60 minutes; a failure throws. */
  function ResolveUniverse(m: Entries, calls: seq<Request>, placeId: string, up: Upstream,
                           now: int): Step<Result<int, Error>>
  {
    var key := UniverseKey(placeId);
    var cached := Lookup(m, key, now);
    if cached.Some? && Truthy(cached.value) && cached.value.UniverseId? then
      Step(Success(cached.value.n), m, calls)
    else
      var m1 := AfterRead(m, key, now);
      var calls1 := calls + [UniverseRequest(placeId)];
      var answer := UniverseAnswer(up, placeId);
      if answer.Ok? then Step(Success(answer.value), Store(m1, key, UniverseId(answer.value), 60, now), calls1)
      else Step(Failure(UniverseUnavailable(placeId)), m1, calls1)
  }

  /** `getGameDetails`: cached for 5 minutes; a failure or an empty `data` array throws. */
  function FetchDetails(m: Entries, calls: seq<Request>, universeId: int, up: Upstream,
                        now: int): Step<Result<GameData, Error>>
  {
    var key := DetailsKey(universeId);
    var cached := Lookup(m, key, now);
    if cached.Some? && Truthy(cached.value) && cached.value.Details? then
      Step(Success(cached.value.d), m, calls)
    else
      var m1 := AfterRead(m, key, now);
      var calls1 := calls + [DetailsRequest(universeId)];
      var answer := DetailsAnswer(up, universeId);
      if answer.Ok? && |answer.value| > 0 then
        Step(Success(answer.value[0]), Store(m1, key, Details(answer.value[0]), 5, now), calls1)
      else Step(Failure(DetailsUnavailable(universeId)), m1, calls1)
  }

  /** `getGameVotes`: cached for 5 minutes; any failure yields zero votes, uncached. */
  function FetchVotes(m: Entries, calls: seq<Request>, universeId: int, up: Upstream,
                      now: int): Step<VotesData>
  {
    var key := VotesKey(universeId);
    var cached := Lookup(m, key, now);
    if cached.Some? && Truthy(cached.value) && cached.value.Votes? then
      Step(cached.value.v, m, calls)
    else
      var m1 := AfterRead(m, key, now);
      var calls1 := calls + [VotesRequest(universeId)];
      var answer := VotesAnswer(up, universeId);
      if answer.Ok? && |answer.value| > 0 then
        Step(answer.value[0], Store(m1, key, Votes(answer.value[0]), 5, now), calls1)
      else Step(VotesData(universeId, 0, 0), m1, calls1)
  }

  /** `getGameThumbnail`: cached for 60 minutes; a failure, an empty `data` array or a
      state other than `'Completed'` yields the placeholder URL, uncached. */
  function FetchThumbnail(m: Entries, calls: seq<Request>, universeId: int, up: Upstream,
                          now: int): Step<string>
  {
    var key := ThumbnailKey(universeId);
    var cached := Lookup(m, key, now);
    if cached.Some? && Truthy(cached.value) && cached.value.Thumbnail? then
      Step(cached.value.url, m, calls)
    else
      var m1 := AfterRead(m, key, now);
      var calls1 := calls + [ThumbnailRequest(universeId)];
      var answer := ThumbnailAnswer(up, universeId);
      if answer.Ok? && |answer.value| > 0 && answer.value[0].state == COMPLETED then
        Step(answer.value[0].imageUrl, Store(m1, key, Thumbnail(answer.value[0].imageUrl), 60, now), calls1)
      else Step(PLACEHOLDER_THUMBNAIL, m1, calls1)
  }

  /** `getGame`: the full record cached for 5 minutes. The configuration check comes
      after the cache lookup and before any upstream request. The three detail
      requests are all issued once the universe id is known; a details failure then
      propagates. No fallback is applied here. The configuration test is an own-entry
      test. */
  function GetGameStep(m: Entries, calls: seq<Request>, placeId: string, up: Upstream,
                       now: int): Step<Result<Game, Error>>
  {
    var key := FullGameKey(placeId);
    var cached := Lookup(m, key, now);
    if cached.Some? && Truthy(cached.value) && cached.value.FullGame? then
      Step(Success(cached.value.g), m, calls)
    else
      var m0 := AfterRead(m, key, now);
      if placeId !in GAMES_CONFIG then Step(Failure(UnknownPlace(placeId)), m0, calls)
      else
        var u := ResolveUniverse(m0, calls, placeId, up, now);
        if u.value.Failure? then Step(Failure(u.value.error), u.entries, u.calls)
        else
          var universeId := u.value.value;
          var d := FetchDetails(u.entries, u.calls, universeId, up, now);
          var v := FetchVotes(d.entries, d.calls, universeId, up, now);
          var t := FetchThumbnail(v.entries, v.calls, universeId, up, now);
          if d.value.Failure? then Step(Failure(d.value.error), t.entries, t.calls)
          else
            var game := Compose(placeId, GAMES_CONFIG[placeId], d.value.value, v.value, t.value);
            Step(Success(game), Store(t.entries, key, FullGame(game), 5, now), t.calls)
  }

  /** `games` in `getAllGames` before the null filter: one slot per requested id, in
      order, holding the live record or, when `getGame` throws, the fallback. */
  function FetchAll(m: Entries, calls: seq<Request>, ids: seq<string>, up: Upstream,
                    now: int, nowIso: string): Step<seq<Option<Game>>>
    decreases |ids|
  {
    if ids == [] then Step([], m, calls)
    else FetchNext(FetchAll(m, calls, ids[..|ids| - 1], up, now, nowIso), ids[|ids| - 1], up, now, nowIso)
  }

  /** One iteration of the batch: `getGame(placeId)`, or the fallback when it throws,
      appended to the slots gathered so far. */
  function FetchNext(prev: Step<seq<Option<Game>>>, placeId: string, up: Upstream, now: int,
                     nowIso: string): Step<seq<Option<Game>>>
  {
    var s := GetGameStep(prev.entries, prev.calls, placeId, up, now);
    var g := if s.value.Success? then Some(s.value.value) else FallbackGame(placeId, nowIso);
    Step(prev.value + [g], s.entries, s.calls)
  }

  /** `getAllGames(placeIds)`: cached for 5 minutes under the one key `'all_games'`,
      whatever the ids; the stored list includes fallback records. It never throws. */
  function GetAllGamesStep(m: Entries, calls: seq<Request>, ids: seq<string>, up: Upstream,
                           now: int, nowIso: string): Step<seq<Game>>
  {
    var cached := Lookup(m, ALL_GAMES_KEY, now);
    if cached.Some? && Truthy(cached.value) && cached.value.GameList? then
      Step(cached.value.gs, m, calls)
    else
      var b := FetchAll(AfterRead(m, ALL_GAMES_KEY, now), calls, ids, up, now, nowIso);
      var valid := Present(b.value);
      Step(valid, Store(b.entries, ALL_GAMES_KEY, GameList(valid), 5, now), b.calls)
  }

  // ---------------------------------------------------------------------------
  // The service

  class RobloxService {
    /** The shared cache, injected. */
    const cache: CacheService<CachedValue>
    /** Every upstream request issued so far, oldest first. */
    var calls: seq<Request>

    constructor (cache: CacheService<CachedValue>)
      ensures this.cache == cache && calls == []
    {
      this.cache := cache;
      calls := [];
    }

    method GetUniverseId(placeId: string, up: Upstream, now: int) returns (r: Result<int, Error>)
      requires cache.Valid()
      modifies this, cache
      ensures cache.Valid()
      ensures var s := ResolveUniverse(old(cache.entries), old(calls), placeId, up, now);
              r == s.value && cache.entries == s.entries && calls == s.calls
    {
      ghost var m := cache.entries;
      var key := UniverseKey(placeId);
      var cached := cache.Get(key, now);
      if cached.Some? && Truthy(cached.value) && cached.value.UniverseId? {
        r := Success(cached.value.n);
      } else {
        calls := calls + [UniverseRequest(placeId)];
        var answer := UniverseAnswer(up, placeId);
        if answer.Ok? {
          cache.Set(key, UniverseId(answer.value), Some(60), now);
          assert cache.entries == Store(AfterRead(m, key, now), key, UniverseId(answer.value), 60, now);
          r := Success(answer.value);
        } else {
          r := Failure(UniverseUnavailable(placeId));
        }
      }
    }

    method GetGameDetails(universeId: int, up: Upstream, now: int) returns (r: Result<GameData, Error>)
      requires cache.Valid()
      modifies this, cache
      ensures cache.Valid()
      ensures var s := FetchDetails(old(cache.entries), old(calls), universeId, up, now);
              r == s.value && cache.entries == s.entries && calls == s.calls
    {
      ghost var m := cache.entries;
      var key := DetailsKey(universeId);
      var cached := cache.Get(key, now);
      if cached.Some? && Truthy(cached.value) && cached.value.Details? {
        r := Success(cached.value.d);
      } else {
        calls := calls + [DetailsRequest(universeId)];
        var answer := DetailsAnswer(up, universeId);
        if answer.Ok? && |answer.value| > 0 {
          cache.Set(key, Details(answer.value[0]), Some(5), now);
          assert cache.entries == Store(AfterRead(m, key, now), key, Details(answer.value[0]), 5, now);
          r := Success(answer.value[0]);
        } else {
          r := Failure(DetailsUnavailable(universeId));
        }
      }
    }

    method GetGameVotes(universeId: int, up: Upstream, now: int) returns (r: VotesData)
      requires cache.Valid()
      modifies this, cache
      ensures cache.Valid()
      ensures var s := FetchVotes(old(cache.entries), old(calls), universeId, up, now);
              r == s.value && cache.entries == s.entries && calls == s.calls
    {
      ghost var m := cache.entries;
      var key := VotesKey(universeId);
      var cached := cache.Get(key, now);
      if cached.Some? && Truthy(cached.value) && cached.value.Votes? {
        r := cached.value.v;
      } else {
        calls := calls + [VotesRequest(universeId)];
        var answer := VotesAnswer(up, universeId);
        if answer.Ok? && |answer.value| > 0 {
          cache.Set(key, Votes(answer.value[0]), Some(5), now);
          assert cache.entries == Store(AfterRead(m, key, now), key, Votes(answer.value[0]), 5, now);
          r := answer.value[0];
        } else {
          r := VotesData(universeId, 0, 0);
        }
      }
    }

    method GetGameThumbnail(universeId: int, up: Upstream, now: int) returns (r: string)
      requires cache.Valid()
      modifies this, cache
      ensures cache.Valid()
      ensures var s := FetchThumbnail(old(cache.entries), old(calls), universeId, up, now);
              r == s.value && cache.entries == s.entries && calls == s.calls
    {
      ghost var m := cache.entries;
      var key := ThumbnailKey(universeId);
      var cached := cache.Get(key, now);
      if cached.Some? && Truthy(cached.value) && cached.value.Thumbnail? {
        r := cached.value.url;
      } else {
        calls := calls + [ThumbnailRequest(universeId)];
        var answer := ThumbnailAnswer(up, universeId);
        if answer.Ok? && |answer.value| > 0 && answer.value[0].state == COMPLETED {
          cache.Set(key, Thumbnail(answer.value[0].imageUrl), Some(60), now);
          assert cache.entries == Store(AfterRead(m, key, now), key, Thumbnail(answer.value[0].imageUrl), 60, now);
          r := answer.value[0].imageUrl;
        } else {
          r := PLACEHOLDER_THUMBNAIL;
        }
      }
    }

    method GetGame(placeId: string, up: Upstream, now: int) returns (r: Result<Game, Error>)
      requires cache.Valid()
      modifies this, cache
      ensures cache.Valid()
      ensures var s := GetGameStep(old(cache.entries), old(calls), placeId, up, now);
              r == s.value && cache.entries == s.entries && calls == s.calls
    {
      var key := FullGameKey(placeId);
      var cached := cache.Get(key, now);
      if cached.Some? && Truthy(cached.value) && cached.value.FullGame? {
        return Success(cached.value.g);
      }
      if placeId !in GAMES_CONFIG {
        return Failure(UnknownPlace(placeId));
      }
      var config := GAMES_CONFIG[placeId];
      ghost var m0 := cache.entries;
      ghost var u := ResolveUniverse(m0, calls, placeId, up, now);
      var universe := GetUniverseId(placeId, up, now);
      if universe.Failure? {
        return Failure(universe.error);
      }
      var universeId := universe.value;
      ghost var d := FetchDetails(u.entries, u.calls, universeId, up, now);
      var details := GetGameDetails(universeId, up, now);
      ghost var v := FetchVotes(d.entries, d.calls, universeId, up, now);
      var votes := GetGameVotes(universeId, up, now);
      ghost var t := FetchThumbnail(v.entries, v.calls, universeId, up, now);
      var thumbnail := GetGameThumbnail(universeId, up, now);
      assert cache.entries == t.entries && calls == t.calls;
      if details.Failure? {
        return Failure(details.error);
      }
      var game := Compose(placeId, config, details.value, votes, thumbnail);
      cache.Set(key, FullGame(game), Some(5), now);
      assert cache.entries == Store(t.entries, key, FullGame(game), 5, now);
      return Success(game);
    }

    method GetAllGames(placeIds: seq<string>, up: Upstream, now: int, nowIso: string)
      returns (r: seq<Game>)
      requires cache.Valid()
      modifies this, cache
      ensures cache.Valid()
      ensures var s := GetAllGamesStep(old(cache.entries), old(calls), placeIds, up, now, nowIso);
              r == s.value && cache.entries == s.entries && calls == s.calls
    {
      var cached := cache.Get(ALL_GAMES_KEY, now);
      if cached.Some? && Truthy(cached.value) && cached.value.GameList? {
        return cached.value.gs;
      }
      ghost var m0 := cache.entries;
      ghost var calls0 := calls;
      var games: seq<Option<Game>> := [];
      var i := 0;
      while i < |placeIds|
        invariant 0 <= i <= |placeIds|
        invariant cache.Valid()
        invariant var b := FetchAll(m0, calls0, placeIds[..i], up, now, nowIso);
                  games == b.value && cache.entries == b.entries && calls == b.calls
      {
        assert placeIds[..i + 1][..i] == placeIds[..i];
        ghost var prev := FetchAll(m0, calls0, placeIds[..i], up, now, nowIso);
        assert FetchAll(m0, calls0, placeIds[..i + 1], up, now, nowIso) == FetchNext(prev, placeIds[i], up, now, nowIso);
        var game := GetGame(placeIds[i], up, now);
        var slot := if game.Success? then Some(game.value) else FallbackGame(placeIds[i], nowIso);
        games := games + [slot];
        i := i + 1;
      }
      assert placeIds[..i] == placeIds;
      ghost var b := FetchAll(m0, calls0, placeIds, up, now, nowIso);
      var validGames := Present(games);
      cache.Set(ALL_GAMES_KEY, GameList(validGames), Some(5), now);
      assert cache.entries == Store(b.entries, ALL_GAMES_KEY, GameList(validGames), 5, now);
      return validGames;
    }
  }

  // ---------------------------------------------------------------------------
  // Facts about the keys

  /** Each key the service writes lies in exactly one namespace, so storing the
      namespace's own variant keeps the cache `Typed`. */
  lemma KeyFiling(placeId: string, universeId: int)
    ensures forall v :: WellFiled(UniverseKey(placeId), v) <==> v.UniverseId?
    ensures forall v :: WellFiled(DetailsKey(universeId), v) <==> v.Details?
    ensures forall v :: WellFiled(VotesKey(universeId), v) <==> v.Votes?
    ensures forall v :: WellFiled(ThumbnailKey(universeId), v) <==> v.Thumbnail?
    ensures forall v :: WellFiled(FullGameKey(placeId), v)
                        <==> v.FullGame? && v.g.id == placeId && placeId in GAMES_CONFIG
    ensures forall v :: WellFiled(ALL_GAMES_KEY, v) <==> v.GameList?
  {
    PrefixOfConcat("universe:", placeId);
    PrefixOfConcat("game:", IntToString(universeId));
    PrefixOfConcat("votes:", IntToString(universeId));
    PrefixOfConcat("thumbnail:", IntToString(universeId));
    PrefixOfConcat("full_game:", placeId);
    var f := FullGameKey(placeId);
    forall q | FullGameKey(q) == f
      ensures q == placeId
    {
      assert FullGameKey(q)[10..] == q;
      assert f[10..] == placeId;
    }
  }

  lemma StoreTyped(m: Entries, key: string, v: CachedValue, ttlMinutes: int, now: int)
    requires Typed(m) && WellFiled(key, v)
    ensures Typed(Store(m, key, v, ttlMinutes, now))
  {
  }

  lemma AfterReadTyped(m: Entries, key: string, now: int)
    requires Typed(m)
    ensures Typed(AfterRead(m, key, now))
  {
  }

  lemma ResolveTyped(m: Entries, calls: seq<Request>, placeId: string, up: Upstream, now: int)
    requires Typed(m)
    ensures Typed(ResolveUniverse(m, calls, placeId, up, now).entries)
  {
    var key := UniverseKey(placeId);
    KeyFiling(placeId, 0);
    if UniverseAnswer(up, placeId).Ok? {
      StoreTyped(AfterRead(m, key, now), key, UniverseId(UniverseAnswer(up, placeId).value), 60, now);
    }
  }

  lemma DetailsTyped(m: Entries, calls: seq<Request>, universeId: int, up: Upstream, now: int)
    requires Typed(m)
    ensures Typed(FetchDetails(m, calls, universeId, up, now).entries)
  {
    var key := DetailsKey(universeId);
    KeyFiling("", universeId);
    if DetailsAnswer(up, universeId).Ok? && |DetailsAnswer(up, universeId).value| > 0 {
      StoreTyped(AfterRead(m, key, now), key, Details(DetailsAnswer(up, universeId).value[0]), 5, now);
    }
  }

  lemma VotesTyped(m: Entries, calls: seq<Request>, universeId: int, up: Upstream, now: int)
    requires Typed(m)
    ensures Typed(FetchVotes(m, calls, universeId, up, now).entries)
  {
    var key := VotesKey(universeId);
    KeyFiling("", universeId);
    if VotesAnswer(up, universeId).Ok? && |VotesAnswer(up, universeId).value| > 0 {
      StoreTyped(AfterRead(m, key, now), key, Votes(VotesAnswer(up, universeId).value[0]), 5, now);
    }
  }

  lemma ThumbnailTyped(m: Entries, calls: seq<Request>, universeId: int, up: Upstream, now: int)
    requires Typed(m)
    ensures Typed(FetchThumbnail(m, calls, universeId, up, now).entries)
  {
    var key := ThumbnailKey(universeId);
    KeyFiling("", universeId);
    var t := ThumbnailAnswer(up, universeId);
    if t.Ok? && |t.value| > 0 && t.value[0].state == COMPLETED {
      StoreTyped(AfterRead(m, key, now), key, Thumbnail(t.value[0].imageUrl), 60, now);
    }
  }

  lemma GetGameTyped(m: Entries, calls: seq<Request>, placeId: string, up: Upstream, now: int)
    requires Typed(m)
    ensures Typed(GetGameStep(m, calls, placeId, up, now).entries)
  {
    var s := GetGameStep(m, calls, placeId, up, now);
    var key := FullGameKey(placeId);
    var cached := Lookup(m, key, now);
    var m0 := AfterRead(m, key, now);
    AfterReadTyped(m, key, now);
    if cached.Some? && Truthy(cached.value) && cached.value.FullGame? {
      assert s.entries == m;
    } else if placeId !in GAMES_CONFIG {
      assert s.entries == m0;
    } else {
      ResolveTyped(m0, calls, placeId, up, now);
      var u := ResolveUniverse(m0, calls, placeId, up, now);
      if u.value.Failure? {
        assert s.entries == u.entries;
      } else {
        var universeId := u.value.value;
        DetailsTyped(u.entries, u.calls, universeId, up, now);
        var d := FetchDetails(u.entries, u.calls, universeId, up, now);
        VotesTyped(d.entries, d.calls, universeId, up, now);
        var v := FetchVotes(d.entries, d.calls, universeId, up, now);
        ThumbnailTyped(v.entries, v.calls, universeId, up, now);
        var t := FetchThumbnail(v.entries, v.calls, universeId, up, now);
        if d.value.Failure? {
          assert s.entries == t.entries;
        } else {
          var game := Compose(placeId, GAMES_CONFIG[placeId], d.value.value, v.value, t.value);
          KeyFiling(placeId, 0);
          StoreTyped(t.entries, key, FullGame(game), 5, now);
          assert s.entries == Store(t.entries, key, FullGame(game), 5, now);
        }
      }
    }
  }

  lemma {:induction false} FetchAllTyped(m: Entries, calls: seq<Request>, ids: seq<string>, up: Upstream,
                                         now: int, nowIso: string)
    requires Typed(m)
    ensures Typed(FetchAll(m, calls, ids, up, now, nowIso).entries)
    decreases |ids|
  {
    if ids != [] {
      var prev := FetchAll(m, calls, ids[..|ids| - 1], up, now, nowIso);
      FetchAllTyped(m, calls, ids[..|ids| - 1], up, now, nowIso);
      GetGameTyped(prev.entries, prev.calls, ids[|ids| - 1], up, now);
    }
  }

  lemma GetAllGamesTyped(m: Entries, calls: seq<Request>, ids: seq<string>, up: Upstream,
                         now: int, nowIso: string)
    requires Typed(m)
    ensures Typed(GetAllGamesStep(m, calls, ids, up, now, nowIso).entries)
  {
    var m0 := AfterRead(m, ALL_GAMES_KEY, now);
    FetchAllTyped(m0, calls, ids, up, now, nowIso);
    var b := FetchAll(m0, calls, ids, up, now, nowIso);
    KeyFiling("", 0);
    StoreTyped(b.entries, ALL_GAMES_KEY, GameList(Present(b.value)), 5, now);
  }

  // ---------------------------------------------------------------------------
  // Properties of the lookups

  /** The namespaces are told apart by their first character. */
  lemma KeysApart(p: string, q: string, u: int)
    ensures FullGameKey(p) != UniverseKey(q) && FullGameKey(p) != DetailsKey(u)
    ensures FullGameKey(p) != VotesKey(u) && FullGameKey(p) != ThumbnailKey(u)
    ensures FullGameKey(p) != ALL_GAMES_KEY
    ensures ALL_GAMES_KEY != UniverseKey(q) && ALL_GAMES_KEY != DetailsKey(u)
    ensures ALL_GAMES_KEY != VotesKey(u) && ALL_GAMES_KEY != ThumbnailKey(u)
  {
    assert FullGameKey(p)[0] == 'f' && ALL_GAMES_KEY[0] == 'a';
    assert UniverseKey(q)[0] == 'u' && DetailsKey(u)[0] == 'g';
    assert VotesKey(u)[0] == 'v' && ThumbnailKey(u)[0] == 't';
  }

  /** `m2` agrees with `m1` on every key but `key`. */
  ghost predicate SameElsewhere(m1: Entries, m2: Entries, key: string) {
    forall k :: k != key ==> (k in m2 <==> k in m1) && (k in m1 ==> m2[k] == m1[k])
  }

  lemma StoreLocal(m: Entries, key: string, v: CachedValue, ttlMinutes: int, now: int)
    ensures SameElsewhere(m, Store(m, key, v, ttlMinutes, now), key)
  {
  }

  lemma AfterReadLocal(m: Entries, key: string, now: int)
    ensures SameElsewhere(m, AfterRead(m, key, now), key)
  {
  }

  /** Each sub-lookup of `getGame` touches only its own key. */
  lemma ResolveLocal(m: Entries, calls: seq<Request>, p: string, up: Upstream, now: int)
    ensures SameElsewhere(m, ResolveUniverse(m, calls, p, up, now).entries, UniverseKey(p))
  {
    var key := UniverseKey(p);
    AfterReadLocal(m, key, now);
    if UniverseAnswer(up, p).Ok? {
      StoreLocal(AfterRead(m, key, now), key, UniverseId(UniverseAnswer(up, p).value), 60, now);
    }
  }

  lemma DetailsLocal(m: Entries, calls: seq<Request>, u: int, up: Upstream, now: int)
    ensures SameElsewhere(m, FetchDetails(m, calls, u, up, now).entries, DetailsKey(u))
  {
    var key := DetailsKey(u);
    AfterReadLocal(m, key, now);
    var answer := DetailsAnswer(up, u);
    if answer.Ok? && |answer.value| > 0 {
      StoreLocal(AfterRead(m, key, now), key, Details(answer.value[0]), 5, now);
    }
  }

  lemma VotesLocal(m: Entries, calls: seq<Request>, u: int, up: Upstream, now: int)
    ensures SameElsewhere(m, FetchVotes(m, calls, u, up, now).entries, VotesKey(u))
  {
    var key := VotesKey(u);
    AfterReadLocal(m, key, now);
    var answer := VotesAnswer(up, u);
    if answer.Ok? && |answer.value| > 0 {
      StoreLocal(AfterRead(m, key, now), key, Votes(answer.value[0]), 5, now);
    }
  }

  lemma ThumbnailLocal(m: Entries, calls: seq<Request>, u: int, up: Upstream, now: int)
    ensures SameElsewhere(m, FetchThumbnail(m, calls, u, up, now).entries, ThumbnailKey(u))
  {
    var key := ThumbnailKey(u);
    AfterReadLocal(m, key, now);
    var answer := ThumbnailAnswer(up, u);
    if answer.Ok? && |answer.value| > 0 && answer.value[0].state == COMPLETED {
      StoreLocal(AfterRead(m, key, now), key, Thumbnail(answer.value[0].imageUrl), 60, now);
    }
  }

  /** Under the filing invariant a fresh entry can only be a hit: a fresh full game is
      served as stored, for its own place id, with no upstream request and no change
      to the cache. */
  lemma CachedGameServed(m: Entries, calls: seq<Request>, p: string, up: Upstream, now: int)
    requires Typed(m) && Lookup(m, FullGameKey(p), now).Some?
    ensures var s := GetGameStep(m, calls, p, up, now);
            && s.value.Success? && s.value.value.id == p && p in GAMES_CONFIG
            && m[FullGameKey(p)].data == FullGame(s.value.value)
            && s.entries == m && s.calls == calls
  {
    KeyFiling(p, 0);
    assert WellFiled(FullGameKey(p), m[FullGameKey(p)].data);
  }

  /** A stored universe id of 0, or a stored empty thumbnail URL, is falsy and is
      requested again. */
  lemma FalsyValuesRefetched(m: Entries, calls: seq<Request>, p: string, u: int, up: Upstream, now: int)
    ensures Lookup(m, UniverseKey(p), now) == Some(UniverseId(0))
            ==> ResolveUniverse(m, calls, p, up, now).calls == calls + [UniverseRequest(p)]
    ensures Lookup(m, ThumbnailKey(u), now) == Some(Thumbnail(""))
            ==> FetchThumbnail(m, calls, u, up, now).calls == calls + [ThumbnailRequest(u)]
  {
  }

  /** A stored empty game list is truthy and is served without any request. */
  lemma EmptyListIsHit(m: Entries, calls: seq<Request>, ids: seq<string>, up: Upstream, now: int,
                       nowIso: string)
    requires Lookup(m, ALL_GAMES_KEY, now) == Some(GameList([]))
    ensures GetAllGamesStep(m, calls, ids, up, now, nowIso) == Step([], m, calls)
  {
  }

  /** The votes returned are the ones the cache now holds fresh, or they are the zero
      substitute and nothing was stored. */
  lemma VotesSubstituteNotCached(m: Entries, calls: seq<Request>, u: int, up: Upstream, now: int)
    ensures var s := FetchVotes(m, calls, u, up, now);
            || Lookup(s.entries, VotesKey(u), now) == Some(Votes(s.value))
            || (s.value == VotesData(u, 0, 0) && s.entries == AfterRead(m, VotesKey(u), now))
  {
  }

  /** The thumbnail returned is the URL the cache now holds fresh, or it is the
      placeholder and nothing was stored. */
  lemma ThumbnailSubstituteNotCached(m: Entries, calls: seq<Request>, u: int, up: Upstream, now: int)
    ensures var s := FetchThumbnail(m, calls, u, up, now);
            || Lookup(s.entries, ThumbnailKey(u), now) == Some(Thumbnail(s.value))
            || (s.value == PLACEHOLDER_THUMBNAIL && s.entries == AfterRead(m, ThumbnailKey(u), now))
  {
  }

  /** A universe id or game details that could not be fetched are not cached. */
  lemma FailuresNotCached(m: Entries, calls: seq<Request>, p: string, u: int, up: Upstream, now: int)
    ensures var s := ResolveUniverse(m, calls, p, up, now);
            s.value.Failure? ==> s.entries == AfterRead(m, UniverseKey(p), now) && UniverseAnswer(up, p).Fail?
    ensures var s := FetchDetails(m, calls, u, up, now);
            s.value.Failure? ==> s.entries == AfterRead(m, DetailsKey(u), now)
                                 && (DetailsAnswer(up, u).Fail? || DetailsAnswer(up, u).value == [])
  {
  }

  /** Exactly an unconfigured place is rejected as unknown, and then without any
      upstream request. */
  lemma UnknownPlaceRejected(m: Entries, calls: seq<Request>, p: string, up: Upstream, now: int)
    requires Typed(m)
    ensures var s := GetGameStep(m, calls, p, up, now);
            (s.value == Failure(UnknownPlace(p)) <==> p !in GAMES_CONFIG)
            && (p !in GAMES_CONFIG ==> s.calls == calls)
  {
    if Lookup(m, FullGameKey(p), now).Some? {
      CachedGameServed(m, calls, p, up, now);
    }
  }

  /** Why `getGame` throws: the place is not configured, the universe id could not be
      fetched, or the details could not. A game that fails is never cached. */
  lemma GetGameFailures(m: Entries, calls: seq<Request>, p: string, up: Upstream, now: int)
    requires Typed(m)
    ensures var s := GetGameStep(m, calls, p, up, now);
            s.value.Failure? ==> FullGameKey(p) !in s.entries
    ensures var s := GetGameStep(m, calls, p, up, now);
            s.value.Failure? ==> s.value.error == UnknownPlace(p) || s.value.error == UniverseUnavailable(p)
                                 || s.value.error.DetailsUnavailable?
  {
    var key := FullGameKey(p);
    var s := GetGameStep(m, calls, p, up, now);
    if Lookup(m, key, now).Some? {
      CachedGameServed(m, calls, p, up, now);
    } else {
      var m0 := AfterRead(m, key, now);
      KeyFiling(p, 0);
      assert key !in m0;
      if p in GAMES_CONFIG {
        var u := ResolveUniverse(m0, calls, p, up, now);
        ResolveLocal(m0, calls, p, up, now);
        KeysApart(p, p, 0);
        assert key !in u.entries;
        if u.value.Success? {
          var id := u.value.value;
          var d := FetchDetails(u.entries, u.calls, id, up, now);
          var v := FetchVotes(d.entries, d.calls, id, up, now);
          var t := FetchThumbnail(v.entries, v.calls, id, up, now);
          KeysApart(p, p, id);
          DetailsLocal(u.entries, u.calls, id, up, now);
          VotesLocal(d.entries, d.calls, id, up, now);
          ThumbnailLocal(v.entries, v.calls, id, up, now);
          assert key !in t.entries;
        }
      }
    }
  }

  /** On an empty cache, `getGame` issues the universe request, then (once the id is
      known) the three detail requests, and succeeds exactly when the place is
      configured, the universe id is known and the details are non-empty. */
  lemma ColdGetGame(p: string, up: Upstream, now: int)
    ensures var s := GetGameStep(map[], [], p, up, now);
            s.value.Success? <==> (&& p in GAMES_CONFIG && UniverseAnswer(up, p).Ok?
                                   && DetailsAnswer(up, UniverseAnswer(up, p).value).Ok?
                                   && DetailsAnswer(up, UniverseAnswer(up, p).value).value != [])
    ensures var s := GetGameStep(map[], [], p, up, now);
            s.calls == if p !in GAMES_CONFIG then []
                       else if UniverseAnswer(up, p).Fail? then [UniverseRequest(p)]
                       else var u := UniverseAnswer(up, p).value;
                            [UniverseRequest(p), DetailsRequest(u), VotesRequest(u), ThumbnailRequest(u)]
  {
    if p in GAMES_CONFIG && UniverseAnswer(up, p).Ok? {
      var id := UniverseAnswer(up, p).value;
      assert UniverseKey(p)[0] == 'u' && DetailsKey(id)[0] == 'g';
      assert VotesKey(id)[0] == 'v' && ThumbnailKey(id)[0] == 't';
      var u := ResolveUniverse(map[], [], p, up, now);
      assert u.entries.Keys == {UniverseKey(p)};
      var d := FetchDetails(u.entries, u.calls, id, up, now);
      assert d.entries.Keys <= {UniverseKey(p), DetailsKey(id)};
      var v := FetchVotes(d.entries, d.calls, id, up, now);
      assert v.calls == [UniverseRequest(p), DetailsRequest(id), VotesRequest(id)];
    }
  }

  /** What the composed record promises: it is filed under its place id with the
      configured category and tags, names the studio, is featured, has a rating of at
      most five stars and a non-empty description, and is popular exactly when at
      least 100000 players are online. */
  lemma ComposedGame(p: string, config: GameConfig, d: GameData, votes: VotesData, thumbnail: string)
    ensures var g := Compose(p, config, d, votes, thumbnail);
            && g.id == p && g.url == GAME_URL_PREFIX + p
            && g.category == config.category && g.tags == config.tags
            && g.developer == DEVELOPER_NAME && g.featured
            && 0 <= g.rating <= 50 && g.description != []
            && (g.isPopular <==> g.playersOnline >= POPULAR_THRESHOLD)
            && g.title == d.name && g.playersOnline == d.playing && g.visits == d.visits
            && g.thumbnail == thumbnail
  {
  }

  /** A game fetched live is read back from the cache by any later `getGame` within
      five minutes, without any upstream request, whatever the upstream then answers. */
  lemma SecondGetGameHit(m: Entries, calls: seq<Request>, p: string, up: Upstream, up2: Upstream,
                         now: int, later: int)
    requires now <= later <= now + 5 * MS_PER_MINUTE
    requires Lookup(m, FullGameKey(p), now).None?
    requires GetGameStep(m, calls, p, up, now).value.Success?
    ensures var s := GetGameStep(m, calls, p, up, now);
            GetGameStep(s.entries, s.calls, p, up2, later) == s
  {
  }

  /** The rating examples the formula gives: no votes is 0, 80 of 100 is 4.0 stars,
      only upvotes is 5.0, and one of three is 1.7 stars (1.666... rounded). */
  lemma RatingExamples()
    ensures RatingTenths(0, 0) == 0 && RatingTenths(80, 20) == 40
    ensures RatingTenths(7, 0) == 50 && RatingTenths(1, 2) == 17
  {
  }

  /** Every configured place has a fallback record, filed under its own id with
      the configured category and tags, a rating of at most five stars and the given
      update time; other ids have none. */
  lemma FallbackCoversConfig(p: string, nowIso: string)
    ensures FallbackGame(p, nowIso).Some? <==> p in GAMES_CONFIG
    ensures FallbackGame(p, nowIso).Some? ==>
              var g := FallbackGame(p, nowIso).value;
              && g.id == p && g.category == GAMES_CONFIG[p].category && g.tags == GAMES_CONFIG[p].tags
              && 0 <= g.rating <= 50 && g.isPopular && g.lastUpdated == nowIso
              && g.url == GAME_URL_PREFIX + p && g.developer == DEVELOPER_NAME
  {
    assert FALLBACK_DATA.Keys == GAMES_CONFIG.Keys;
  }

  // ---------------------------------------------------------------------------
  // Properties of the batch

  /** Under the filing invariant a successful `getGame` describes the place asked for,
      which is a configured one. */
  lemma GetGameSuccessId(m: Entries, calls: seq<Request>, p: string, up: Upstream, now: int)
    requires Typed(m)
    requires GetGameStep(m, calls, p, up, now).value.Success?
    ensures GetGameStep(m, calls, p, up, now).value.value.id == p && p in GAMES_CONFIG
  {
    if Lookup(m, FullGameKey(p), now).Some? {
      CachedGameServed(m, calls, p, up, now);
    }
  }

  /** The ids of a list of games, in order. */
  function IdsOf(gs: seq<Game>): (r: seq<string>)
    ensures |r| == |gs| && forall i :: 0 <= i < |gs| ==> r[i] == gs[i].id
  {
    if gs == [] then [] else [gs[0].id] + IdsOf(gs[1..])
  }

  /** The configured ids among `ids`, in order. */
  function Configured(ids: seq<string>): (r: seq<string>)
    ensures forall p :: p in r <==> p in ids && p in GAMES_CONFIG
  {
    if ids == [] then []
    else if ids[0] in GAMES_CONFIG then [ids[0]] + Configured(ids[1..])
    else Configured(ids[1..])
  }

  /** A batch slot for `id`: a game exactly when `id` is configured, and then one
      filed under `id`. */
  predicate SlotFor(g: Option<Game>, id: string) {
    (g.Some? <==> id in GAMES_CONFIG) && (g.Some? ==> g.value.id == id)
  }

  /** The slot one iteration of the batch adds is a slot for its id. */
  lemma NextSlot(m: Entries, calls: seq<Request>, p: string, up: Upstream, now: int, nowIso: string)
    requires Typed(m)
    ensures var s := GetGameStep(m, calls, p, up, now);
            SlotFor(if s.value.Success? then Some(s.value.value) else FallbackGame(p, nowIso), p)
  {
    UnknownPlaceRejected(m, calls, p, up, now);
    FallbackCoversConfig(p, nowIso);
    if GetGameStep(m, calls, p, up, now).value.Success? {
      GetGameSuccessId(m, calls, p, up, now);
    }
  }

  lemma SlotsExtend(prev: seq<Option<Game>>, init: seq<string>, g: Option<Game>, p: string)
    requires |prev| == |init| && forall i :: 0 <= i < |init| ==> SlotFor(prev[i], init[i])
    requires SlotFor(g, p)
    ensures forall i :: 0 <= i < |init| + 1 ==> SlotFor((prev + [g])[i], (init + [p])[i])
  {
    forall i | 0 <= i < |init| + 1
      ensures SlotFor((prev + [g])[i], (init + [p])[i])
    {
      if i < |init| {
        assert (prev + [g])[i] == prev[i] && (init + [p])[i] == init[i];
      }
    }
  }

  /** Slot `i` of the batch holds a game exactly when `ids[i]` is configured, and
      then a game for `ids[i]`: either live or the fallback. */
  lemma {:induction false} FetchAllSlots(m: Entries, calls: seq<Request>, ids: seq<string>, up: Upstream,
                                         now: int, nowIso: string)
    requires Typed(m)
    ensures var slots := FetchAll(m, calls, ids, up, now, nowIso).value;
            && |slots| == |ids|
            && (forall i :: 0 <= i < |ids| ==> SlotFor(slots[i], ids[i]))
    decreases |ids|
  {
    if ids != [] {
      var init := ids[..|ids| - 1];
      var p := ids[|ids| - 1];
      var prev := FetchAll(m, calls, init, up, now, nowIso);
      FetchAllSlots(m, calls, init, up, now, nowIso);
      FetchAllTyped(m, calls, init, up, now, nowIso);
      var s := GetGameStep(prev.entries, prev.calls, p, up, now);
      var g := if s.value.Success? then Some(s.value.value) else FallbackGame(p, nowIso);
      NextSlot(prev.entries, prev.calls, p, up, now, nowIso);
      assert FetchAll(m, calls, ids, up, now, nowIso).value == prev.value + [g];
      SlotsExtend(prev.value, init, g, p);
      assert init + [p] == ids;
    }
  }

  /** Dropping the empty slots leaves one game per configured id, in request order. */
  lemma {:induction false} PresentFollowsIds(slots: seq<Option<Game>>, ids: seq<string>)
    requires |slots| == |ids|
    requires forall i :: 0 <= i < |ids| ==> (slots[i].Some? <==> ids[i] in GAMES_CONFIG)
    requires forall i :: 0 <= i < |ids| && slots[i].Some? ==> slots[i].value.id == ids[i]
    ensures IdsOf(Present(slots)) == Configured(ids)
  {
    if ids != [] {
      PresentFollowsIds(slots[1..], ids[1..]);
      assert slots[0].Some? <==> ids[0] in GAMES_CONFIG;
      if slots[0].Some? {
        assert Present(slots) == [slots[0].value] + Present(slots[1..]);
        assert IdsOf(Present(slots)) == [slots[0].value.id] + IdsOf(Present(slots[1..]));
      }
    }
  }

  /** On a miss, `getAllGames` returns one game per configured id, in request order:
      unknown ids are dropped and every known id appears, live or as its fallback. */
  lemma BatchFollowsConfig(m: Entries, calls: seq<Request>, ids: seq<string>, up: Upstream,
                           now: int, nowIso: string)
    requires Typed(m) && Lookup(m, ALL_GAMES_KEY, now).None?
    ensures IdsOf(GetAllGamesStep(m, calls, ids, up, now, nowIso).value) == Configured(ids)
  {
    var m0 := AfterRead(m, ALL_GAMES_KEY, now);
    AfterReadTyped(m, ALL_GAMES_KEY, now);
    FetchAllSlots(m0, calls, ids, up, now, nowIso);
    PresentFollowsIds(FetchAll(m0, calls, ids, up, now, nowIso).value, ids);
  }

  lemma {:induction false} ConfiguredKeepsAll(ids: seq<string>)
    requires forall p :: p in ids ==> p in GAMES_CONFIG
    ensures Configured(ids) == ids
  {
    if ids != [] {
      ConfiguredKeepsAll(ids[1..]);
    }
  }

  /** When every requested id is configured (as with the default list, the keys of
      the table) the batch yields one game per id in order, whatever the upstream
      answers. */
  lemma BatchOfConfiguredIds(m: Entries, calls: seq<Request>, ids: seq<string>, up: Upstream,
                             now: int, nowIso: string)
    requires Typed(m) && Lookup(m, ALL_GAMES_KEY, now).None?
    requires forall p :: p in ids ==> p in GAMES_CONFIG
    ensures IdsOf(GetAllGamesStep(m, calls, ids, up, now, nowIso).value) == ids
  {
    BatchFollowsConfig(m, calls, ids, up, now, nowIso);
    ConfiguredKeepsAll(ids);
  }

  /** A fresh batch entry is served whatever ids are asked for: the key does not
      depend on them. */
  lemma BatchKeyIgnoresIds(m: Entries, calls: seq<Request>, ids1: seq<string>, ids2: seq<string>,
                           up: Upstream, now: int, nowIso: string)
    requires Typed(m) && Lookup(m, ALL_GAMES_KEY, now).Some?
    ensures GetAllGamesStep(m, calls, ids1, up, now, nowIso) == GetAllGamesStep(m, calls, ids2, up, now, nowIso)
    ensures GetAllGamesStep(m, calls, ids1, up, now, nowIso).calls == calls
  {
    KeyFiling("", 0);
    assert WellFiled(ALL_GAMES_KEY, m[ALL_GAMES_KEY].data);
  }

  /** After a miss, the returned list, fallback records included, is what a later
      batch within five minutes returns, for any ids and any upstream, with no request. */
  lemma BatchCached(m: Entries, calls: seq<Request>, ids: seq<string>, ids2: seq<string>,
                    up: Upstream, up2: Upstream, now: int, later: int, nowIso: string, laterIso: string)
    requires Lookup(m, ALL_GAMES_KEY, now).None?
    requires now <= later <= now + 5 * MS_PER_MINUTE
    ensures var s := GetAllGamesStep(m, calls, ids, up, now, nowIso);
            GetAllGamesStep(s.entries, s.calls, ids2, up2, later, laterIso) == s
  {
  }
}
