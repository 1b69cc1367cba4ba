/** The static game table (backend/src/config/games.ts). */
module GamesConfig {

  datatype Category = Action | Casual | RP

  datatype GameConfig = GameConfig(placeId: string, category: Category, tags: seq<string>)

  const MINI_CITY_RP: string := "113494949872227"
  const MAKE_A_BRAINROT: string := "128160564290614"
  const MINI_SHOOTERS: string := "124863958602381"

  const GAMES_CONFIG: map<string, GameConfig> := map[
    MINI_CITY_RP := GameConfig(MINI_CITY_RP, RP, ["roleplay", "social", "city", "jobs", "economy"]),
    MAKE_A_BRAINROT := GameConfig(MAKE_A_BRAINROT, Casual, ["meme", "casual", "fun", "creative", "brainrot"]),
    MINI_SHOOTERS := GameConfig(MINI_SHOOTERS, Action, ["shooter", "fps", "action", "combat", "competitive"])
  ]

  /** `Object.keys(GAMES_CONFIG)`. These keys are not array indices (they exceed
      2^32 - 2), so they enumerate in insertion order. */
  const GAME_PLACE_IDS: seq<string> := [MINI_CITY_RP, MAKE_A_BRAINROT, MINI_SHOOTERS]

  const DEVELOPER_NAME: string := "Mini Groups Studio"

  const POPULAR_THRESHOLD: int := 100000

  /** The table has exactly three entries, each filed under its own place id, and
      `GAME_PLACE_IDS` lists exactly its keys, each once. */
  lemma ConfigShape()
    ensures |GAMES_CONFIG| == 3
    ensures forall id :: id in GAMES_CONFIG ==> GAMES_CONFIG[id].placeId == id
    ensures forall id :: id in GAME_PLACE_IDS <==> id in GAMES_CONFIG
    ensures |GAME_PLACE_IDS| == |GAMES_CONFIG|
    ensures forall i, j :: 0 <= i < j < |GAME_PLACE_IDS| ==> GAME_PLACE_IDS[i] != GAME_PLACE_IDS[j]
  {
    assert GAMES_CONFIG.Keys == {MINI_CITY_RP, MAKE_A_BRAINROT, MINI_SHOOTERS};
  }
}
