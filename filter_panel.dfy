/** The handlers of the filter panel in src/components/GameFilters.tsx. Each
    builds the next filter record from the current one by object spread and hands
    it to `onFiltersChange`; the record it builds is modelled, the rendering is
    not. */
module FilterPanel {
  import opened Wrappers
  import opened Catalog

  /** The category buttons the panel offers, in order. */
  const CATEGORIES: seq<string> := [
    "Action", "Adventure", "Simulator", "RPG", "Racing",
    "Horror", "Puzzle", "Strategy", "Casual", "Multiplayer"
  ]

  datatype SortChoice = SortChoice(value: SortOption, caption: string)

  /** The entries of the sort menu, in order. */
  const SORT_OPTIONS: seq<SortChoice> := [
    SortChoice(Popular, "Most Popular"),
    SortChoice(Newest, "Newest"),
    SortChoice(Alphabetical, "A-Z"),
    SortChoice(Rating, "Highest Rated"),
    SortChoice(Players, "Most Players")
  ]

  /** `handleCategoryChange`: choosing the active category clears it. */
  function HandleCategoryChange(filters: GameFilters, category: string): GameFilters {
    filters.(category := if filters.category == Some(category) then None else Some(category))
  }

  /** `handleSortChange`. */
  function HandleSortChange(filters: GameFilters, sortBy: SortOption): GameFilters {
    filters.(sortBy := sortBy)
  }

  /** `handleTogglePopular`: `!filters.onlyPopular` is true for an unset flag. */
  function HandleTogglePopular(filters: GameFilters): GameFilters {
    filters.(onlyPopular := Some(!FlagSet(filters.onlyPopular)))
  }

  /** `handleToggleFeatured`. */
  function HandleToggleFeatured(filters: GameFilters): GameFilters {
    filters.(onlyFeatured := Some(!FlagSet(filters.onlyFeatured)))
  }

  /** `clearFilters`: a new record with the search and the default sort only. */
  function ClearFilters(filters: GameFilters): GameFilters {
    GameFilters(None, filters.search, Popular, None, None)
  }

  /** `hasActiveFilters`. */
  predicate HasActiveFilters(filters: GameFilters) {
    TextSet(filters.category) || FlagSet(filters.onlyPopular) || FlagSet(filters.onlyFeatured)
  }

  /** Choosing the active category clears it, choosing another sets it, and the
      other fields are copied. Choosing one category twice from a state without a
      category, or with that one, comes back to the same record. */
  lemma {:induction false} CategoryChange(filters: GameFilters, category: string)
    ensures filters.category == Some(category) ==> HandleCategoryChange(filters, category).category == None
    ensures filters.category != Some(category) ==> HandleCategoryChange(filters, category).category == Some(category)
    ensures HandleCategoryChange(filters, category).(category := filters.category) == filters
    ensures filters.category.None? || filters.category == Some(category) ==>
              HandleCategoryChange(HandleCategoryChange(filters, category), category) == filters
  {
  }

  /** Choosing a sort sets `sortBy` and copies the rest. */
  lemma {:induction false} SortChange(filters: GameFilters, sortBy: SortOption)
    ensures HandleSortChange(filters, sortBy).sortBy == sortBy
    ensures HandleSortChange(filters, sortBy).(sortBy := filters.sortBy) == filters
  {
  }

  /** A toggle negates its flag's truthiness, copies the rest, and two toggles
      restore the truthiness. */
  lemma {:induction false} FlagToggles(filters: GameFilters)
    ensures FlagSet(HandleTogglePopular(filters).onlyPopular) == !FlagSet(filters.onlyPopular)
    ensures HandleTogglePopular(filters).(onlyPopular := filters.onlyPopular) == filters
    ensures FlagSet(HandleTogglePopular(HandleTogglePopular(filters)).onlyPopular) == FlagSet(filters.onlyPopular)
    ensures FlagSet(HandleToggleFeatured(filters).onlyFeatured) == !FlagSet(filters.onlyFeatured)
    ensures HandleToggleFeatured(filters).(onlyFeatured := filters.onlyFeatured) == filters
    ensures FlagSet(HandleToggleFeatured(HandleToggleFeatured(filters)).onlyFeatured) == FlagSet(filters.onlyFeatured)
  {
  }

  /** Clearing keeps only the search, sorts by popularity, leaves nothing active,
      and clearing again changes nothing. */
  lemma {:induction false} ClearResets(filters: GameFilters)
    ensures ClearFilters(filters).search == filters.search && ClearFilters(filters).sortBy == Popular
    ensures ClearFilters(filters).category.None? && ClearFilters(filters).onlyPopular.None? && ClearFilters(filters).onlyFeatured.None?
    ensures !HasActiveFilters(ClearFilters(filters))
    ensures ClearFilters(ClearFilters(filters)) == ClearFilters(filters)
  {
  }

  /** Without an active filter only the search narrows the listing; with one, some
      games can be left out that the search alone would keep. */
  lemma {:induction false} InactiveMeansSearchOnly(filters: GameFilters, g: CatalogGame)
    requires !HasActiveFilters(filters)
    ensures Admits(filters, g) <==> (TextSet(filters.search) ==> MatchesSearch(g, filters.search.value))
  {
  }

  /** With nothing active and no search, the whole catalogue is listed. */
  lemma {:induction false} ClearedListsAll(all: seq<CatalogGame>, filters: GameFilters)
    requires !TextSet(filters.search)
    ensures Filtered(all, ClearFilters(filters)) == all
  {
  }
}
