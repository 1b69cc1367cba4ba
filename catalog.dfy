/** The game catalogue of the front end: the records of src/types/Game.ts, the two
    games of src/data/mockGames.ts, and the derived lists of src/hooks/useGames.ts
    (the filtered and sorted list, the featured and popular selections, the counts).
    `Array.prototype.sort` with a comparator `key(b) - key(a)` is modelled by the
    stable insertion sort it is required to agree with. */
module Catalog {
  import opened Wrappers
  import opened Strings

  /** The fields of a game the hook reads. `rating` is in tenths (4.8 is 48). */
  datatype CatalogGame = CatalogGame(
    id: string,
    title: string,
    description: string,
    category: string,
    playersOnline: int,
    rating: int,
    isPopular: bool,
    createdAt: string,
    tags: seq<string>,
    developer: string,
    featured: bool)

  const MOCK_GAMES: seq<CatalogGame> := [
    CatalogGame("1", "Mini City RP",
      "Maior RP do roblox!",
      "RP", 450000, 48, true, "2019-07-14", ["roleplay", "social"], "Mini Groups Studio", true),
    CatalogGame("2", "Make A BrainRot",
      "Crie seu Brainrot",
      "Action", 380000, 47, true, "2019-01-10", ["adventure"], "Mini Groups Studio", true)
  ]

  /** The sort keys of `SortOption`; a value outside the union reaches the
      comparator's `default` branch. */
  datatype SortOption = Popular | Newest | Alphabetical | Rating | Players | Unrecognised(name: string)

  /** The filter record. `category` and `search` are optional strings and the flags
      optional booleans; each is tested for truthiness. */
  datatype GameFilters = GameFilters(
    category: Option<string>,
    search: Option<string>,
    sortBy: SortOption,
    onlyPopular: Option<bool>,
    onlyFeatured: Option<bool>)

  /** The initial state of the hook: `{ sortBy: 'popular' }`. */
  const INITIAL_FILTERS: GameFilters := GameFilters(None, None, Popular, None, None)

  /** Truthiness of an optional string and of an optional boolean. */
  predicate TextSet(s: Option<string>) {
    s.Some? && s.value != ""
  }

  predicate FlagSet(b: Option<bool>) {
    b == Some(true)
  }

  /** The two orders that depend on the platform: `new Date(createdAt).getTime()` and
      the collation `localeCompare` follows, as ranks. */
  datatype Orders = Orders(createdMs: string -> int, titleRank: string -> int)

  // ---------------------------------------------------------------------------
  // Array.prototype.filter

  /** The callbacks handed to `filter`: the four filters of the list, the flags the
      home page selects by, their conjunction, and the test every game passes. */
  datatype Test =
    | SearchTest(query: string)
    | CategoryTest(category: string)
    | PopularTest
    | FeaturedTest
    | AdmitsTest(filters: GameFilters)
    | Both(left: Test, right: Test)
    | Anything

  /** `game.title.toLowerCase().includes(searchLower) || … || game.developer…`, where
      `searchLower` is the lower-cased query. */
  predicate MatchesSearch(g: CatalogGame, q: string) {
    var searchLower := Lower(q);
    ContainsIgnoringCase(g.title, searchLower) || ContainsIgnoringCase(g.description, searchLower)
    || (exists t :: t in g.tags && ContainsIgnoringCase(t, searchLower))
    || ContainsIgnoringCase(g.developer, searchLower)
  }

  /** Whether a game passes every filter that is switched on. */
  predicate Admits(f: GameFilters, g: CatalogGame) {
    (TextSet(f.search) ==> MatchesSearch(g, f.search.value))
    && (TextSet(f.category) ==> g.category == f.category.value)
    && (FlagSet(f.onlyPopular) ==> g.isPopular)
    && (FlagSet(f.onlyFeatured) ==> g.featured)
  }

  predicate Passes(t: Test, g: CatalogGame) {
    match t
    case SearchTest(q) => MatchesSearch(g, q)
    case CategoryTest(c) => g.category == c
    case PopularTest => g.isPopular
    case FeaturedTest => g.featured
    case AdmitsTest(f) => Admits(f, g)
    case Both(a, b) => Passes(a, g) && Passes(b, g)
    case Anything => true
  }

  /** The elements of `s` that pass `t`, in their order. */
  function Keep(s: seq<CatalogGame>, t: Test): (r: seq<CatalogGame>)
    ensures multiset(r) <= multiset(s)
    ensures |r| <= |s|
  {
    if s == [] then []
    else
      assert s == [s[0]] + s[1..];
      (if Passes(t, s[0]) then [s[0]] else []) + Keep(s[1..], t)
  }

  /** `filter` keeps exactly the elements that pass the test. */
  lemma {:induction false} KeepMembers(s: seq<CatalogGame>, t: Test)
    ensures forall g :: g in Keep(s, t) <==> g in s && Passes(t, g)
  {
    if s != [] {
      KeepMembers(s[1..], t);
      assert s == [s[0]] + s[1..];
    }
  }

  /** Filtering by one test and then another is filtering by both. */
  lemma {:induction false} KeepTwice(s: seq<CatalogGame>, a: Test, b: Test)
    ensures Keep(Keep(s, a), b) == Keep(s, Both(a, b))
  {
    if s != [] {
      var x := s[0];
      KeepTwice(s[1..], a, b);
      var rest := Keep(s[1..], a);
      assert Passes(Both(a, b), x) == (Passes(a, x) && Passes(b, x));
      assert Keep(s, Both(a, b)) == (if Passes(Both(a, b), x) then [x] else []) + Keep(s[1..], Both(a, b));
      if Passes(a, x) {
        var k := [x] + rest;
        assert Keep(s, a) == k;
        assert k[0] == x && k[1..] == rest;
        assert Keep(k, b) == (if Passes(b, x) then [x] else []) + Keep(rest, b);
      } else {
        assert Keep(s, a) == rest;
      }
    }
  }

  /** A test every game passes removes nothing. */
  lemma {:induction false} KeepAnything(s: seq<CatalogGame>)
    ensures Keep(s, Anything) == s
  {
    if s != [] {
      KeepAnything(s[1..]);
    }
  }

  /** Filtering depends only on which games pass. */
  lemma {:induction false} KeepSame(s: seq<CatalogGame>, a: Test, b: Test)
    requires forall g :: Passes(a, g) == Passes(b, g)
    ensures Keep(s, a) == Keep(s, b)
  {
    if s != [] {
      KeepSame(s[1..], a, b);
    }
  }

  // ---------------------------------------------------------------------------
  // The filters

  /** The test of one stage of the chain: the filter when it is switched on. */
  function SearchStage(f: GameFilters): Test {
    if TextSet(f.search) then SearchTest(f.search.value) else Anything
  }

  function CategoryStage(f: GameFilters): Test {
    if TextSet(f.category) then CategoryTest(f.category.value) else Anything
  }

  function PopularStage(f: GameFilters): Test {
    if FlagSet(f.onlyPopular) then PopularTest else Anything
  }

  function FeaturedStage(f: GameFilters): Test {
    if FlagSet(f.onlyFeatured) then FeaturedTest else Anything
  }

  /** The four filter steps of `filteredAndSortedGames`, in their order. */
  function Filtered(all: seq<CatalogGame>, f: GameFilters): seq<CatalogGame> {
    var afterSearch := if TextSet(f.search) then Keep(all, SearchTest(f.search.value)) else all;
    var afterCategory := if TextSet(f.category) then Keep(afterSearch, CategoryTest(f.category.value)) else afterSearch;
    var afterPopular := if FlagSet(f.onlyPopular) then Keep(afterCategory, PopularTest) else afterCategory;
    if FlagSet(f.onlyFeatured) then Keep(afterPopular, FeaturedTest) else afterPopular
  }

  /** A stage that is switched off is a filter every game passes. */
  lemma {:induction false} StageOff(s: seq<CatalogGame>, active: bool, t: Test)
    ensures (if active then Keep(s, t) else s) == Keep(s, if active then t else Anything)
  {
    KeepAnything(s);
  }

  /** The chain of filters keeps, in order, exactly the games that pass all of them. */
  lemma {:induction false} FilteredIsOneFilter(all: seq<CatalogGame>, f: GameFilters)
    ensures Filtered(all, f) == Keep(all, AdmitsTest(f))
  {
    var s, c, p, e := SearchStage(f), CategoryStage(f), PopularStage(f), FeaturedStage(f);
    StageOff(all, TextSet(f.search), SearchTest(if f.search.Some? then f.search.value else ""));
    var a1 := Keep(all, s);
    StageOff(a1, TextSet(f.category), CategoryTest(if f.category.Some? then f.category.value else ""));
    KeepTwice(all, s, c);
    var a2 := Keep(all, Both(s, c));
    StageOff(a2, FlagSet(f.onlyPopular), PopularTest);
    KeepTwice(all, Both(s, c), p);
    var a3 := Keep(all, Both(Both(s, c), p));
    StageOff(a3, FlagSet(f.onlyFeatured), FeaturedTest);
    KeepTwice(all, Both(Both(s, c), p), e);
    forall g
      ensures Passes(Both(Both(Both(s, c), p), e), g) == Passes(AdmitsTest(f), g)
    {
      assert Passes(Both(Both(Both(s, c), p), e), g) == (Passes(Both(Both(s, c), p), g) && Passes(e, g));
      assert Passes(Both(Both(s, c), p), g) == (Passes(Both(s, c), g) && Passes(p, g));
      assert Passes(Both(s, c), g) == (Passes(s, g) && Passes(c, g));
    }
    KeepSame(all, Both(Both(Both(s, c), p), e), AdmitsTest(f));
  }

  /** Every game left passes each active filter, every game of the catalogue that
      passes them all is left, and no game is added or duplicated. */
  lemma {:induction false} FilteredMeaning(all: seq<CatalogGame>, f: GameFilters)
    ensures forall g :: g in Filtered(all, f) <==> g in all && Admits(f, g)
    ensures multiset(Filtered(all, f)) <= multiset(all)
  {
    FilteredIsOneFilter(all, f);
    KeepMembers(all, AdmitsTest(f));
  }

  /** Without a filter switched on, the whole catalogue is kept in order. */
  lemma {:induction false} NoFilterKeepsAll(all: seq<CatalogGame>, f: GameFilters)
    requires !TextSet(f.search) && !TextSet(f.category) && !FlagSet(f.onlyPopular) && !FlagSet(f.onlyFeatured)
    ensures Filtered(all, f) == all
  {
  }

  /** Lower-casing twice is lower-casing once. */
  lemma {:induction false} LowerTwice(s: string)
    ensures Lower(Lower(s)) == Lower(s)
  {
    forall i | 0 <= i < |s|
      ensures Lower(Lower(s))[i] == Lower(s)[i]
    {
      assert Lower(Lower(s))[i] == LowerChar(Lower(s)[i]);
    }
  }

  /** Search ignores ASCII case on both sides: a query that occurs in the title, the
      description, a tag or the developer in any letter case selects the game. */
  lemma {:induction false} SearchFindsSubstring(g: CatalogGame, q: string, t: string, where: string)
    requires Lower(t) == Lower(q)
    requires where == g.title || where == g.description || where in g.tags || where == g.developer
    requires Contains(where, t)
    ensures MatchesSearch(g, q)
  {
    ContainsLower(where, t);
    assert ContainsIgnoringCase(where, Lower(q));
  }

  /** A query selects the same games as its lower-cased form. */
  lemma {:induction false} SearchCaseInsensitive(g: CatalogGame, q: string)
    ensures MatchesSearch(g, q) <==> MatchesSearch(g, Lower(q))
  {
    LowerTwice(q);
  }

  // ---------------------------------------------------------------------------
  // Array.prototype.sort

  /** The quantity a comparator `key(b) - key(a)` compares. */
  datatype Key =
    | PlayersKey
    | RatingKey
    | CreatedKey(createdMs: string -> int)
    | TitleKey(titleRank: string -> int)
    | NoKey

  function KeyOf(k: Key, g: CatalogGame): int {
    match k
    case PlayersKey => g.playersOnline
    case RatingKey => g.rating
    case CreatedKey(ms) => ms(g.createdAt)
    case TitleKey(rank) => -rank(g.title)
    case NoKey => 0
  }

  /** A game paired with the value the comparator compares for it. The comparator
      is pure, so computing that value once per game orders the array as computing
      it at every comparison does. */
  datatype Ranked = Ranked(rank: int, game: CatalogGame)

  function Decorate(s: seq<CatalogGame>, k: Key): (r: seq<Ranked>)
    ensures |r| == |s|
    ensures forall i :: 0 <= i < |s| ==> r[i] == Ranked(KeyOf(k, s[i]), s[i])
  {
    if s == [] then [] else [Ranked(KeyOf(k, s[0]), s[0])] + Decorate(s[1..], k)
  }

  function Games(rs: seq<Ranked>): (s: seq<CatalogGame>)
    ensures |s| == |rs|
    ensures forall i :: 0 <= i < |rs| ==> s[i] == rs[i].game
  {
    if rs == [] then [] else [rs[0].game] + Games(rs[1..])
  }

  /** Every pair carries its game's key. */
  predicate Consistent(rs: seq<Ranked>, k: Key) {
    forall i :: 0 <= i < |rs| ==> rs[i].rank == KeyOf(k, rs[i].game)
  }

  /** The ranks never increase along `s`. */
  predicate SortedDesc(s: seq<Ranked>) {
    forall i, j :: 0 <= i < j < |s| ==> s[i].rank >= s[j].rank
  }

  /** Places `x` after the longest prefix of `s` whose ranks are at least its own. */
  function Insert(x: Ranked, s: seq<Ranked>): (r: seq<Ranked>)
    ensures |r| == |s| + 1
  {
    if s == [] || s[0].rank < x.rank then [x] + s else [s[0]] + Insert(x, s[1..])
  }

  /** The stable descending sort: each element, in input order, goes after every
      element before it whose rank is at least its own. */
  function SortDesc(s: seq<Ranked>): (r: seq<Ranked>)
    ensures |r| == |s|
  {
    if s == [] then [] else Insert(s[|s| - 1], SortDesc(s[..|s| - 1]))
  }

  lemma {:induction false} InsertPermutes(x: Ranked, s: seq<Ranked>)
    ensures multiset(Insert(x, s)) == multiset(s) + multiset{x}
  {
    if s != [] && s[0].rank >= x.rank {
      InsertPermutes(x, s[1..]);
      assert s == [s[0]] + s[1..];
    }
  }

  /** The sort returns a permutation of its input. */
  lemma {:induction false} SortDescPermutes(s: seq<Ranked>)
    ensures multiset(SortDesc(s)) == multiset(s)
  {
    if s != [] {
      SortDescPermutes(s[..|s| - 1]);
      InsertPermutes(s[|s| - 1], SortDesc(s[..|s| - 1]));
      assert s == s[..|s| - 1] + [s[|s| - 1]];
    }
  }

  /** The games of `rs`, counted with multiplicity. */
  function GameBag(rs: seq<Ranked>): multiset<CatalogGame> {
    if rs == [] then multiset{} else multiset{rs[0].game} + GameBag(rs[1..])
  }

  lemma {:induction false} GameBagIsGames(rs: seq<Ranked>)
    ensures GameBag(rs) == multiset(Games(rs))
  {
    if rs != [] {
      GameBagIsGames(rs[1..]);
      assert Games(rs) == [rs[0].game] + Games(rs[1..]);
    }
  }

  lemma {:induction false} InsertBag(x: Ranked, s: seq<Ranked>)
    ensures GameBag(Insert(x, s)) == GameBag(s) + multiset{x.game}
  {
    if s == [] || s[0].rank < x.rank {
      assert ([x] + s)[1..] == s;
    } else {
      InsertBag(x, s[1..]);
      assert ([s[0]] + Insert(x, s[1..]))[1..] == Insert(x, s[1..]);
    }
  }

  lemma {:induction false} BagSnoc(init: seq<Ranked>, last: Ranked)
    ensures GameBag(init + [last]) == GameBag(init) + multiset{last.game}
  {
    if init == [] {
      assert init + [last] == [last];
    } else {
      BagSnoc(init[1..], last);
      assert (init + [last])[1..] == init[1..] + [last];
    }
  }

  lemma {:induction false} SortDescBag(s: seq<Ranked>)
    ensures GameBag(SortDesc(s)) == GameBag(s)
  {
    if s != [] {
      var init, last := s[..|s| - 1], s[|s| - 1];
      SortDescBag(init);
      InsertBag(last, SortDesc(init));
      assert s == init + [last];
      BagSnoc(init, last);
    }
  }

  lemma {:induction false} InsertGamesPermute(x: Ranked, s: seq<Ranked>)
    ensures multiset(Games(Insert(x, s))) == multiset(Games(s)) + multiset{x.game}
  {
    InsertBag(x, s);
    GameBagIsGames(Insert(x, s));
    GameBagIsGames(s);
  }

  /** The sorted games are a permutation of the input games. */
  lemma {:induction false} SortDescGamesPermute(s: seq<Ranked>)
    ensures multiset(Games(SortDesc(s))) == multiset(Games(s))
  {
    SortDescBag(s);
    GameBagIsGames(SortDesc(s));
    GameBagIsGames(s);
  }

  lemma {:induction false} SortDescMembers(s: seq<Ranked>)
    ensures forall y :: y in SortDesc(s) <==> y in s
  {
    SortDescPermutes(s);
    forall y
      ensures y in SortDesc(s) <==> y in s
    {
      assert y in SortDesc(s) <==> y in multiset(SortDesc(s));
      assert y in s <==> y in multiset(s);
    }
  }

  lemma {:induction false} InsertMembers(x: Ranked, s: seq<Ranked>)
    ensures forall y :: y in Insert(x, s) <==> y == x || y in s
  {
    if s != [] && s[0].rank >= x.rank {
      InsertMembers(x, s[1..]);
      assert s == [s[0]] + s[1..];
    }
  }

  lemma {:induction false} InsertSorted(x: Ranked, s: seq<Ranked>)
    requires SortedDesc(s)
    ensures SortedDesc(Insert(x, s))
  {
    if s != [] && s[0].rank >= x.rank {
      InsertSorted(x, s[1..]);
      var t := Insert(x, s[1..]);
      assert Insert(x, s) == [s[0]] + t;
      InsertMembers(x, s[1..]);
      forall y | y in t
        ensures s[0].rank >= y.rank
      {
        if y != x {
          var i :| 0 <= i < |s[1..]| && s[1..][i] == y;
          assert s[i + 1] == y;
        }
      }
      forall i, j | 0 <= i < j < |[s[0]] + t|
        ensures ([s[0]] + t)[i].rank >= ([s[0]] + t)[j].rank
      {
        if i == 0 {
          assert ([s[0]] + t)[j] == t[j - 1];
          assert t[j - 1] in t;
        }
      }
    } else if s != [] {
      forall i, j | 0 <= i < j < |[x] + s|
        ensures ([x] + s)[i].rank >= ([x] + s)[j].rank
      {
        if i == 0 {
          assert ([x] + s)[j] == s[j - 1];
        }
      }
    }
  }

  /** The sort orders its result by descending rank. */
  lemma {:induction false} SortDescSorted(s: seq<Ranked>)
    ensures SortedDesc(SortDesc(s))
  {
    if s != [] {
      SortDescSorted(s[..|s| - 1]);
      InsertSorted(s[|s| - 1], SortDesc(s[..|s| - 1]));
    }
  }

  /** The elements of `s` whose rank is `v`, in order. */
  function WithRank(s: seq<Ranked>, v: int): seq<Ranked> {
    if s == [] then []
    else WithRank(s[..|s| - 1], v) + (if s[|s| - 1].rank == v then [s[|s| - 1]] else [])
  }

  lemma {:induction false} WithRankConcat(a: seq<Ranked>, b: seq<Ranked>, v: int)
    ensures WithRank(a + b, v) == WithRank(a, v) + WithRank(b, v)
  {
    if b == [] {
      assert a + b == a;
    } else {
      WithRankConcat(a, b[..|b| - 1], v);
      assert (a + b)[..|a + b| - 1] == a + b[..|b| - 1];
      assert (a + b)[|a + b| - 1] == b[|b| - 1];
    }
  }

  lemma {:induction false} WithRankNone(s: seq<Ranked>, v: int)
    requires forall i :: 0 <= i < |s| ==> s[i].rank < v
    ensures WithRank(s, v) == []
  {
    if s != [] {
      WithRankNone(s[..|s| - 1], v);
    }
  }

  lemma {:induction false} WithRankSingle(x: Ranked, v: int)
    ensures WithRank([x], v) == if x.rank == v then [x] else []
  {
    assert [x][..0] == [];
  }

  lemma {:induction false} SortedTail(s: seq<Ranked>)
    requires s != [] && SortedDesc(s)
    ensures SortedDesc(s[1..])
  {
    var t := s[1..];
    forall i, j | 0 <= i < j < |t|
      ensures t[i].rank >= t[j].rank
    {
      assert t[i] == s[i + 1] && t[j] == s[j + 1];
    }
  }

  lemma {:induction false} InsertStableFront(x: Ranked, s: seq<Ranked>, v: int)
    requires SortedDesc(s) && (s == [] || s[0].rank < x.rank)
    ensures WithRank([x] + s, v) == WithRank(s, v) + WithRank([x], v)
  {
    WithRankSingle(x, v);
    WithRankConcat([x], s, v);
    if x.rank == v {
      forall i | 0 <= i < |s|
        ensures s[i].rank < v
      {
        assert s[0].rank >= s[i].rank;
      }
      WithRankNone(s, v);
    }
  }

  lemma {:induction false} InsertStable(x: Ranked, s: seq<Ranked>, v: int)
    requires SortedDesc(s)
    ensures WithRank(Insert(x, s), v) == WithRank(s, v) + WithRank([x], v)
  {
    if s == [] || s[0].rank < x.rank {
      InsertStableFront(x, s, v);
    } else {
      SortedTail(s);
      InsertStable(x, s[1..], v);
      InsertStableStep(x, s, v);
    }
  }

  /** Inserting past the first element keeps that element's place among its rank. */
  lemma {:induction false} InsertStableStep(x: Ranked, s: seq<Ranked>, v: int)
    requires s != [] && s[0].rank >= x.rank
    requires WithRank(Insert(x, s[1..]), v) == WithRank(s[1..], v) + WithRank([x], v)
    ensures WithRank(Insert(x, s), v) == WithRank(s, v) + WithRank([x], v)
  {
    var t := Insert(x, s[1..]);
    assert Insert(x, s) == [s[0]] + t;
    WithRankConcat([s[0]], t, v);
    WithRankConcat([s[0]], s[1..], v);
    assert [s[0]] + s[1..] == s;
    var head, rest, last := WithRank([s[0]], v), WithRank(s[1..], v), WithRank([x], v);
    assert WithRank(Insert(x, s), v) == head + (rest + last);
    assert (head + rest) + last == head + (rest + last);
  }

  /** The sort is stable: the elements sharing one rank keep their relative order. */
  lemma {:induction false} SortDescStable(s: seq<Ranked>, v: int)
    ensures WithRank(SortDesc(s), v) == WithRank(s, v)
  {
    if s != [] {
      var init := s[..|s| - 1];
      SortDescStable(init, v);
      SortDescSorted(init);
      InsertStable(s[|s| - 1], SortDesc(init), v);
      WithRankSingle(s[|s| - 1], v);
    }
  }

  lemma {:induction false} InsertEqualLast(x: Ranked, s: seq<Ranked>)
    requires forall i :: 0 <= i < |s| ==> s[i].rank == x.rank
    ensures Insert(x, s) == s + [x]
  {
    if s != [] {
      InsertEqualLast(x, s[1..]);
      assert [s[0]] + (s[1..] + [x]) == s + [x];
    }
  }

  /** When every rank is the same the comparator always answers 0 and the order is
      the input order. */
  lemma {:induction false} SortDescEqualRanks(s: seq<Ranked>, c: int)
    requires forall i :: 0 <= i < |s| ==> s[i].rank == c
    ensures SortDesc(s) == s
  {
    if s != [] {
      SortDescEqualRanks(s[..|s| - 1], c);
      InsertEqualLast(s[|s| - 1], s[..|s| - 1]);
    }
  }

  /** An input already in order is left as it is. */
  lemma {:induction false} SortDescKeepsSorted(s: seq<Ranked>)
    requires SortedDesc(s)
    ensures SortDesc(s) == s
  {
    if s != [] {
      var init := s[..|s| - 1];
      assert SortedDesc(init);
      SortDescKeepsSorted(init);
      InsertAt(s[|s| - 1], init, |init|);
      assert init + [s[|s| - 1]] == s;
    }
  }

  /** `Insert` puts `x` after the run of elements whose ranks are at least its own
      and before the rest. */
  lemma {:induction false} InsertAt(x: Ranked, s: seq<Ranked>, j: nat)
    requires j <= |s|
    requires forall i :: 0 <= i < j ==> s[i].rank >= x.rank
    requires forall i :: j <= i < |s| ==> s[i].rank < x.rank
    ensures Insert(x, s) == s[..j] + [x] + s[j..]
  {
    if j > 0 {
      var t := s[1..];
      assert Insert(x, s) == [s[0]] + Insert(x, t);
      forall i | 0 <= i < j - 1
        ensures t[i].rank >= x.rank
      {
        assert t[i] == s[i + 1];
      }
      forall i | j - 1 <= i < |t|
        ensures t[i].rank < x.rank
      {
        assert t[i] == s[i + 1];
      }
      InsertAt(x, t, j - 1);
      assert t[..j - 1] == s[1..j] && t[j - 1..] == s[j..];
      assert s[..j] == [s[0]] + s[1..j];
    }
  }

  /** The inner loop of the insertion sort: the run of elements before `a[i]` whose
      ranks are below its own shifts one place up, and the returned `j` is where
      `a[i]` belongs. */
  method ShiftRun(a: array<Ranked>, i: nat) returns (j: nat)
    requires i < a.Length
    modifies a
    ensures j <= i
    ensures forall m :: 0 <= m < j ==> a[m] == old(a[m])
    ensures forall m :: j < m <= i ==> a[m] == old(a[m - 1])
    ensures forall m :: i < m < a.Length ==> a[m] == old(a[m])
    ensures forall m :: j <= m < i ==> old(a[m]).rank < old(a[i]).rank
    ensures j == 0 || old(a[j - 1]).rank >= old(a[i]).rank
  {
    var x := a[i];
    j := i;
    while j > 0 && a[j - 1].rank < x.rank
      invariant 0 <= j <= i
      invariant forall m :: 0 <= m < j ==> a[m] == old(a[m])
      invariant forall m :: j < m <= i ==> a[m] == old(a[m - 1])
      invariant forall m :: i < m < a.Length ==> a[m] == old(a[m])
      invariant forall m :: j <= m < i ==> old(a[m]).rank < x.rank
    {
      a[j] := a[j - 1];
      j := j - 1;
    }
  }

  /** One pass of the insertion sort: `a[i]` moves back past the lower-ranked run
      before it. */
  method InsertInPlace(a: array<Ranked>, i: nat)
    requires i < a.Length && SortedDesc(a[..i])
    modifies a
    ensures a[..i + 1] == Insert(old(a[i]), old(a[..i]))
    ensures forall m :: i < m < a.Length ==> a[m] == old(a[m])
  {
    var x := a[i];
    ghost var sorted := a[..i];
    var j := ShiftRun(a, i);
    a[j] := x;
    forall m | 0 <= m < j
      ensures sorted[m].rank >= x.rank
    {
      assert sorted[m].rank >= sorted[j - 1].rank;
    }
    InsertAt(x, sorted, j);
    assert a[..i + 1] == sorted[..j] + [x] + sorted[j..];
  }

  /** `filteredGames.sort(comparator)`: insertion sort in place. */
  method SortInPlace(a: array<Ranked>)
    modifies a
    ensures a[..] == SortDesc(old(a[..]))
  {
    ghost var orig := a[..];
    var i := 0;
    while i < a.Length
      invariant 0 <= i <= a.Length
      invariant a[..i] == SortDesc(orig[..i])
      invariant forall m :: i <= m < a.Length ==> a[m] == orig[m]
    {
      SortDescSorted(orig[..i]);
      InsertInPlace(a, i);
      assert orig[..i + 1][..i] == orig[..i];
      i := i + 1;
    }
    assert orig[..a.Length] == orig;
  }

  /** The games of `s` in the order `s.sort(comparator)` leaves them. */
  function SortedGames(s: seq<CatalogGame>, k: Key): seq<CatalogGame> {
    Games(SortDesc(Decorate(s, k)))
  }

  /** The elements of `s` whose key is `v`, in order. */
  function WithKey(s: seq<CatalogGame>, k: Key, v: int): seq<CatalogGame> {
    if s == [] then []
    else WithKey(s[..|s| - 1], k, v) + (if KeyOf(k, s[|s| - 1]) == v then [s[|s| - 1]] else [])
  }

  lemma {:induction false} GamesConcat(a: seq<Ranked>, b: seq<Ranked>)
    ensures Games(a + b) == Games(a) + Games(b)
  {
  }

  lemma {:induction false} WithKeyOfGames(rs: seq<Ranked>, k: Key, v: int)
    requires Consistent(rs, k)
    ensures WithKey(Games(rs), k, v) == Games(WithRank(rs, v))
  {
    if rs != [] {
      var init := rs[..|rs| - 1];
      WithKeyOfGames(init, k, v);
      assert Games(rs)[..|rs| - 1] == Games(init);
      var last := rs[|rs| - 1];
      GamesConcat(WithRank(init, v), if last.rank == v then [last] else []);
    }
  }

  lemma {:induction false} SortedConsistent(s: seq<CatalogGame>, k: Key)
    ensures Consistent(SortDesc(Decorate(s, k)), k)
  {
    var d := Decorate(s, k);
    var r := SortDesc(d);
    SortDescMembers(d);
    forall i | 0 <= i < |r|
      ensures r[i].rank == KeyOf(k, r[i].game)
    {
      assert r[i] in d;
    }
  }

  /** The sort returns a permutation of its input. */
  lemma {:induction false} SortedGamesPermutes(s: seq<CatalogGame>, k: Key)
    ensures |SortedGames(s, k)| == |s| && multiset(SortedGames(s, k)) == multiset(s)
  {
    var d := Decorate(s, k);
    assert Games(d) == s;
    SortDescGamesPermute(d);
  }

  /** The sort orders its result by descending key. */
  lemma {:induction false} SortedGamesOrdered(s: seq<CatalogGame>, k: Key)
    ensures forall i, j :: 0 <= i < j < |SortedGames(s, k)| ==> KeyOf(k, SortedGames(s, k)[i]) >= KeyOf(k, SortedGames(s, k)[j])
  {
    SortDescSorted(Decorate(s, k));
    SortedConsistent(s, k);
  }

  /** The sort is stable: the games of one key keep their input order. */
  lemma {:induction false} SortedGamesStable(s: seq<CatalogGame>, k: Key, v: int)
    ensures WithKey(SortedGames(s, k), k, v) == WithKey(s, k, v)
  {
    var d := Decorate(s, k);
    assert Games(d) == s;
    SortedConsistent(s, k);
    SortDescStable(d, v);
    WithKeyOfGames(SortDesc(d), k, v);
    WithKeyOfGames(d, k, v);
  }

  /** A comparator that always answers 0 keeps the input order. */
  lemma {:induction false} SortedGamesUnordered(s: seq<CatalogGame>)
    ensures SortedGames(s, NoKey) == s
  {
    var d := Decorate(s, NoKey);
    SortDescEqualRanks(d, 0);
    assert Games(d) == s;
  }

  /** The sort returns a permutation of its input ordered by descending key, keeps
      the games of one key in their input order, and keeps the input order
      outright when the comparator always answers 0. */
  lemma {:induction false} SortedGamesMeaning(s: seq<CatalogGame>, k: Key, v: int)
    ensures |SortedGames(s, k)| == |s| && multiset(SortedGames(s, k)) == multiset(s)
    ensures forall i, j :: 0 <= i < j < |SortedGames(s, k)| ==> KeyOf(k, SortedGames(s, k)[i]) >= KeyOf(k, SortedGames(s, k)[j])
    ensures WithKey(SortedGames(s, k), k, v) == WithKey(s, k, v)
    ensures k == NoKey ==> SortedGames(s, k) == s
  {
    SortedGamesPermutes(s, k);
    SortedGamesOrdered(s, k);
    SortedGamesStable(s, k, v);
    if k == NoKey {
      SortedGamesUnordered(s);
    }
  }

  /** The order the comparator of `filteredAndSortedGames` imposes: players for
      `popular` and `players`, the rating for `rating`, the creation time for
      `newest`, the reversed collation rank for `alphabetical` (which sorts A to Z),
      and none for anything else. */
  function SortKey(sortBy: SortOption, orders: Orders): Key {
    match sortBy
    case Popular => PlayersKey
    case Players => PlayersKey
    case Rating => RatingKey
    case Newest => CreatedKey(orders.createdMs)
    case Alphabetical => TitleKey(orders.titleRank)
    case Unrecognised(_) => NoKey
  }

  // ---------------------------------------------------------------------------
  // The hook

  /** `filteredAndSortedGames`: copy the catalogue, narrow it by each active filter,
      then sort the array in place. The result is a reordering of the games that
      pass every filter. */
  method FilteredAndSortedGames(all: seq<CatalogGame>, f: GameFilters, orders: Orders) returns (games: seq<CatalogGame>)
    ensures games == SortedGames(Filtered(all, f), SortKey(f.sortBy, orders))
    ensures multiset(games) <= multiset(all)
    ensures forall g :: g in games <==> g in all && Admits(f, g)
  {
    var filteredGames := all;
    if TextSet(f.search) {
      filteredGames := Keep(filteredGames, SearchTest(f.search.value));
    }
    if TextSet(f.category) {
      filteredGames := Keep(filteredGames, CategoryTest(f.category.value));
    }
    if FlagSet(f.onlyPopular) {
      filteredGames := Keep(filteredGames, PopularTest);
    }
    if FlagSet(f.onlyFeatured) {
      filteredGames := Keep(filteredGames, FeaturedTest);
    }
    assert filteredGames == Filtered(all, f);
    var key := SortKey(f.sortBy, orders);
    var a := new Ranked[|filteredGames|](i requires 0 <= i < |filteredGames| => Ranked(KeyOf(key, filteredGames[i]), filteredGames[i]));
    assert a[..] == Decorate(filteredGames, key);
    SortInPlace(a);
    games := Games(a[..]);
    ListingMeaning(all, f, key);
  }

  /** The listing holds each game of the catalogue that passes every active filter,
      no other, and none more often than the catalogue does. */
  lemma {:induction false} ListingMeaning(all: seq<CatalogGame>, f: GameFilters, key: Key)
    ensures multiset(SortedGames(Filtered(all, f), key)) <= multiset(all)
    ensures forall g :: g in SortedGames(Filtered(all, f), key) <==> g in all && Admits(f, g)
  {
    var filtered := Filtered(all, f);
    var games := SortedGames(filtered, key);
    FilteredMeaning(all, f);
    SortedGamesPermutes(filtered, key);
    forall g
      ensures g in games <==> g in filtered
    {
      assert g in games <==> g in multiset(games);
      assert g in filtered <==> g in multiset(filtered);
    }
  }

  /** The sort options order a list as the comparator says: `popular` and
      `players` by players online and `rating` by rating, highest first, with ties
      in their previous order; an unknown option leaves the order as it is. */
  lemma {:induction false} SortOrders(s: seq<CatalogGame>, sortBy: SortOption, orders: Orders, v: int)
    ensures (sortBy.Popular? || sortBy.Players?) ==>
              forall i, j :: 0 <= i < j < |SortedGames(s, PlayersKey)| ==>
                SortedGames(s, PlayersKey)[i].playersOnline >= SortedGames(s, PlayersKey)[j].playersOnline
    ensures sortBy.Rating? ==>
              forall i, j :: 0 <= i < j < |SortedGames(s, RatingKey)| ==>
                SortedGames(s, RatingKey)[i].rating >= SortedGames(s, RatingKey)[j].rating
    ensures WithKey(SortedGames(s, SortKey(sortBy, orders)), SortKey(sortBy, orders), v) == WithKey(s, SortKey(sortBy, orders), v)
    ensures sortBy.Unrecognised? ==> SortedGames(s, SortKey(sortBy, orders)) == s
  {
    var key := SortKey(sortBy, orders);
    SortedGamesOrdered(s, key);
    SortedGamesStable(s, key, v);
    if sortBy.Unrecognised? {
      SortedGamesUnordered(s);
    }
  }

  /** `Array.prototype.slice(0, n)`. */
  function Take(s: seq<CatalogGame>, n: nat): (r: seq<CatalogGame>)
    ensures |r| <= n && r <= s
    ensures |r| == if |s| < n then |s| else n
  {
    if |s| <= n then s else s[..n]
  }

  /** The first `n` games passing `t`, most players first. */
  function Top(all: seq<CatalogGame>, t: Test, n: nat): seq<CatalogGame> {
    Take(SortedGames(Keep(all, t), PlayersKey), n)
  }

  /** `featuredGames`: the featured games, most players first, at most six. */
  function FeaturedGames(all: seq<CatalogGame>): seq<CatalogGame> {
    Top(all, FeaturedTest, 6)
  }

  /** `popularGames`: the popular games, most players first, at most three. */
  function PopularGames(all: seq<CatalogGame>): seq<CatalogGame> {
    Top(all, PopularTest, 3)
  }

  /** A top-`n` selection holds at most `n` games, all passing the test, most
      players first, and as many as there are qualifying games, up to `n`. */
  lemma {:induction false} TopN(all: seq<CatalogGame>, t: Test, n: nat)
    ensures |Top(all, t, n)| == if |Keep(all, t)| < n then |Keep(all, t)| else n
    ensures forall g :: g in Top(all, t, n) ==> g in all && Passes(t, g)
    ensures forall i, j :: 0 <= i < j < |Top(all, t, n)| ==> Top(all, t, n)[i].playersOnline >= Top(all, t, n)[j].playersOnline
  {
    var s := SortedGames(Keep(all, t), PlayersKey);
    SortedGamesPermutes(Keep(all, t), PlayersKey);
    SortedGamesOrdered(Keep(all, t), PlayersKey);
    KeepMembers(all, t);
    forall g | g in Top(all, t, n)
      ensures g in all && Passes(t, g)
    {
      assert g in s;
      assert g in multiset(s);
    }
  }

  /** No qualifying game left out of a top-`n` selection has more players than a
      game in it. */
  lemma {:induction false} TopNLeavesOutFewer(all: seq<CatalogGame>, t: Test, n: nat, h: CatalogGame, g: CatalogGame)
    requires h in Top(all, t, n) && g in Keep(all, t) && g !in Top(all, t, n)
    ensures h.playersOnline >= g.playersOnline
  {
    var s := SortedGames(Keep(all, t), PlayersKey);
    var r := Top(all, t, n);
    SortedGamesPermutes(Keep(all, t), PlayersKey);
    SortedGamesOrdered(Keep(all, t), PlayersKey);
    assert g in multiset(s);
    var i :| 0 <= i < |s| && s[i] == g;
    var j :| 0 <= j < |r| && r[j] == h;
    forall m | 0 <= m < |r|
      ensures s[m] != g
    {
      assert s[m] == r[m] && r[m] in r;
    }
    assert s[j] == h;
  }

  /** The two selections of the home page. */
  lemma {:induction false} HomeSelections(all: seq<CatalogGame>)
    ensures |FeaturedGames(all)| <= 6 && forall g :: g in FeaturedGames(all) ==> g in all && g.featured
    ensures forall i, j :: 0 <= i < j < |FeaturedGames(all)| ==>
              FeaturedGames(all)[i].playersOnline >= FeaturedGames(all)[j].playersOnline
    ensures |PopularGames(all)| <= 3 && forall g :: g in PopularGames(all) ==> g in all && g.isPopular
    ensures forall i, j :: 0 <= i < j < |PopularGames(all)| ==>
              PopularGames(all)[i].playersOnline >= PopularGames(all)[j].playersOnline
  {
    TopN(all, FeaturedTest, 6);
    TopN(all, PopularTest, 3);
  }

  /** What the hook returns, without the setter and the constant loading flags. */
  datatype GamesView = GamesView(
    games: seq<CatalogGame>,
    allGames: seq<CatalogGame>,
    featuredGames: seq<CatalogGame>,
    popularGames: seq<CatalogGame>,
    filters: GameFilters,
    totalGames: nat,
    filteredGamesCount: nat)

  /** `useGames()` for the current filter state over the mock catalogue. */
  method UseGames(f: GameFilters, orders: Orders) returns (view: GamesView)
    ensures view.games == SortedGames(Filtered(MOCK_GAMES, f), SortKey(f.sortBy, orders))
    ensures view.filteredGamesCount == |view.games| && view.totalGames == |MOCK_GAMES|
    ensures view.allGames == MOCK_GAMES && view.filters == f
    ensures view.featuredGames == FeaturedGames(MOCK_GAMES) && view.popularGames == PopularGames(MOCK_GAMES)
  {
    var games := FilteredAndSortedGames(MOCK_GAMES, f, orders);
    view := GamesView(games, MOCK_GAMES, FeaturedGames(MOCK_GAMES), PopularGames(MOCK_GAMES), f, |MOCK_GAMES|, |games|);
  }

  /** With the initial filters every game is listed, already in players order. */
  lemma {:induction false} InitialListing(orders: Orders)
    ensures SortedGames(Filtered(MOCK_GAMES, INITIAL_FILTERS), SortKey(INITIAL_FILTERS.sortBy, orders)) == MOCK_GAMES
  {
    var d := Decorate(MOCK_GAMES, PlayersKey);
    assert SortedDesc(d);
    SortDescKeepsSorted(d);
    assert Games(d) == MOCK_GAMES;
  }
}
