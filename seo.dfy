/** The page title rule of src/components/SEO.tsx: a title that does not name the
    studio gets the studio's name appended. The meta tags it renders are not
    modelled. */
module Seo {
  import opened Strings

  const BRAND: string := "Mini Groups"

  const BRAND_SUFFIX: string := " | Mini Groups Studio"

  /** The `title` prop's default value. */
  const DEFAULT_TITLE: string := "Mini Groups Studio - " + "Creating Amazing Roblox Experiences"

  /** `fullTitle`. */
  function FullTitle(title: string): string {
    if Contains(title, BRAND) then title else title + BRAND_SUFFIX
  }

  lemma SuffixNamesBrand()
    ensures Contains(BRAND_SUFFIX, BRAND)
  {
    assert OccursAt(BRAND_SUFFIX, BRAND, 3);
    ContainsAt(BRAND_SUFFIX, BRAND, 3);
  }

  /** The full title always names the studio and starts with the given title. */
  lemma {:induction false} FullTitleBranded(title: string)
    ensures Contains(FullTitle(title), BRAND)
    ensures title <= FullTitle(title)
  {
    if !Contains(title, BRAND) {
      SuffixNamesBrand();
      ContainsSuffix(title, BRAND_SUFFIX, BRAND);
    }
  }

  /** A title is used as it is exactly when it names the studio; any other gets
      the suffix. */
  lemma {:induction false} FullTitleCases(title: string)
    ensures FullTitle(title) == title <==> Contains(title, BRAND)
    ensures !Contains(title, BRAND) ==> FullTitle(title) == title + BRAND_SUFFIX
  {
  }

  /** Applying the rule twice is applying it once. */
  lemma {:induction false} FullTitleIdempotent(title: string)
    ensures FullTitle(FullTitle(title)) == FullTitle(title)
  {
    FullTitleBranded(title);
  }

  /** The default title already names the studio, so it is used as it is. */
  lemma {:induction false} DefaultTitleKept()
    ensures FullTitle(DEFAULT_TITLE) == DEFAULT_TITLE
  {
    assert BRAND <= DEFAULT_TITLE by {
      assert forall i :: 0 <= i < |BRAND| ==> BRAND[i] == "Mini Groups Studio - "[i];
    }
  }
}
