/** The favourites list of src/hooks/useFavorites.ts: game ids in the order they
    were added. Loading it from and saving it to `localStorage` is not modelled. */
module Favorites {

  /** `prev.filter((id) => id !== gameId)`. */
  function Without(favorites: seq<string>, gameId: string): (r: seq<string>)
    ensures forall id :: id in r <==> id in favorites && id != gameId
    ensures |r| <= |favorites|
  {
    if favorites == [] then []
    else (if favorites[0] == gameId then [] else [favorites[0]]) + Without(favorites[1..], gameId)
  }

  /** `toggleFavorite(gameId)`: remove every occurrence when present, else append. */
  function Toggle(prev: seq<string>, gameId: string): seq<string> {
    if gameId in prev then Without(prev, gameId) else prev + [gameId]
  }

  /** `isFavorite(gameId)`. */
  predicate IsFavorite(favorites: seq<string>, gameId: string) {
    gameId in favorites
  }

  /** `clearFavorites()` sets the list to the empty array. */
  function Clear(favorites: seq<string>): (r: seq<string>)
    ensures forall id :: !IsFavorite(r, id)
  {
    []
  }

  lemma {:induction false} WithoutAbsent(favorites: seq<string>, gameId: string)
    requires gameId !in favorites
    ensures Without(favorites, gameId) == favorites
  {
    if favorites != [] {
      WithoutAbsent(favorites[1..], gameId);
      assert [favorites[0]] + favorites[1..] == favorites;
    }
  }

  lemma {:induction false} WithoutAppend(favorites: seq<string>, id: string, gameId: string)
    ensures Without(favorites + [id], gameId) == Without(favorites, gameId) + Without([id], gameId)
  {
    if favorites == [] {
      assert favorites + [id] == [id];
    } else {
      WithoutAppend(favorites[1..], id, gameId);
      assert (favorites + [id])[1..] == favorites[1..] + [id];
    }
  }

  /** Filtering the same id out twice is filtering it out once. */
  lemma {:induction false} WithoutTwice(favorites: seq<string>, gameId: string)
    ensures Without(Without(favorites, gameId), gameId) == Without(favorites, gameId)
  {
    WithoutAbsent(Without(favorites, gameId), gameId);
  }

  /** Toggling an id that is absent appends it at the end. */
  lemma {:induction false} ToggleAbsentAppends(prev: seq<string>, gameId: string)
    requires !IsFavorite(prev, gameId)
    ensures Toggle(prev, gameId) == prev + [gameId]
  {
  }

  /** Toggling an id that is present removes every occurrence of it. */
  lemma {:induction false} TogglePresentRemovesAll(prev: seq<string>, gameId: string)
    requires IsFavorite(prev, gameId)
    ensures !IsFavorite(Toggle(prev, gameId), gameId)
    ensures |Toggle(prev, gameId)| < |prev|
  {
    WithoutShorter(prev, gameId);
  }

  lemma {:induction false} WithoutShorter(favorites: seq<string>, gameId: string)
    requires gameId in favorites
    ensures |Without(favorites, gameId)| < |favorites|
  {
    if favorites[0] != gameId {
      WithoutShorter(favorites[1..], gameId);
    }
  }

  /** A toggle leaves every other id, and the order of those ids, as it was. */
  lemma {:induction false} ToggleKeepsOthers(prev: seq<string>, gameId: string)
    ensures Without(Toggle(prev, gameId), gameId) == Without(prev, gameId)
  {
    if gameId in prev {
      WithoutTwice(prev, gameId);
    } else {
      WithoutAppend(prev, gameId, gameId);
      assert Without([gameId], gameId) == [];
    }
  }

  /** Each toggle flips `isFavorite` for its id and for no other. */
  lemma {:induction false} ToggleFlips(prev: seq<string>, gameId: string, other: string)
    requires other != gameId
    ensures IsFavorite(Toggle(prev, gameId), gameId) <==> !IsFavorite(prev, gameId)
    ensures IsFavorite(Toggle(prev, gameId), other) <==> IsFavorite(prev, other)
  {
  }

  /** From a list without the id, two toggles restore the list; from a list with
      it, they move it to the end, once. */
  lemma {:induction false} ToggleTwice(prev: seq<string>, gameId: string)
    ensures !IsFavorite(prev, gameId) ==> Toggle(Toggle(prev, gameId), gameId) == prev
    ensures IsFavorite(prev, gameId) ==> Toggle(Toggle(prev, gameId), gameId) == Without(prev, gameId) + [gameId]
  {
    if gameId !in prev {
      WithoutAppend(prev, gameId, gameId);
      assert Without([gameId], gameId) == [];
      WithoutAbsent(prev, gameId);
    }
  }
}
