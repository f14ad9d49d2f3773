/**
 * A recipe card: the placeholder-image address derived from the recipe,
 * the VEG / NON-VEG badge, and the recipe handed to the click handler.
 */
module RecipeCard {
  import opened Wrappers
  import opened Types

  // ---------------------------------------------------------------------
  // Whitespace stripping: `s.replace(/\s/g, '')`
  // ---------------------------------------------------------------------

  /**
   * The characters JavaScript's `\s` matches: the ASCII tab, line feed,
   * vertical tab, form feed, carriage return and space, and the Unicode
   * spaces U+00A0, U+1680, U+2000-U+200A, U+2028, U+2029, U+202F, U+205F,
   * U+3000 and U+FEFF.
   */
  predicate IsWhitespace(c: char)
    ensures c == ' ' || c == '\t' || c == '\n' || c == '\r' ==> IsWhitespace(c)
    ensures 'a' <= c <= 'z' || 'A' <= c <= 'Z' || '0' <= c <= '9' || c == '-' ==> !IsWhitespace(c)
    ensures IsWhitespace(c) ==> c as int <= 0xFEFF
  {
    var n := c as int;
    (0x09 <= n <= 0x0D) || n == 0x20 || n == 0xA0 || n == 0x1680
    || (0x2000 <= n <= 0x200A) || n == 0x2028 || n == 0x2029
    || n == 0x202F || n == 0x205F || n == 0x3000 || n == 0xFEFF
  }

  predicate NoWhitespace(s: string)
  {
    forall i :: 0 <= i < |s| ==> !IsWhitespace(s[i])
  }

  /** Every whitespace character removed. */
  function StripWhitespace(s: string): (r: string)
    ensures NoWhitespace(r)
    ensures |r| <= |s|
  {
    if s == [] then []
    else (if IsWhitespace(s[0]) then [] else [s[0]]) + StripWhitespace(s[1..])
  }

  /** Every other character is kept, as often as it occurs. */
  lemma {:induction false} StripWhitespaceCounts(s: string)
    ensures forall c :: !IsWhitespace(c) ==> multiset(StripWhitespace(s))[c] == multiset(s)[c]
  {
    if s != [] {
      StripWhitespaceCounts(s[1..]);
      assert s == [s[0]] + s[1..];
      assert multiset(s) == multiset([s[0]]) + multiset(s[1..]);
    }
  }

  /** Stripping works piece by piece, so the kept characters stay in their order. */
  lemma {:induction false} StripWhitespaceConcat(a: string, b: string)
    ensures StripWhitespace(a + b) == StripWhitespace(a) + StripWhitespace(b)
  {
    if a != [] {
      var head := if IsWhitespace(a[0]) then [] else [a[0]];
      assert (a + b)[0] == a[0];
      assert (a + b)[1..] == a[1..] + b;
      assert StripWhitespace(a + b) == head + StripWhitespace(a[1..] + b);
      StripWhitespaceConcat(a[1..], b);
      assert StripWhitespace(a) == head + StripWhitespace(a[1..]);
      assert head + (StripWhitespace(a[1..]) + StripWhitespace(b))
          == (head + StripWhitespace(a[1..])) + StripWhitespace(b);
    } else {
      assert a + b == b;
    }
  }

  /** A string without whitespace is left as it is. */
  lemma {:induction false} StripWhitespaceKeepsClean(s: string)
    requires NoWhitespace(s)
    ensures StripWhitespace(s) == s
  {
    if s != [] {
      StripWhitespaceKeepsClean(s[1..]);
    }
  }

  /** Stripping twice is stripping once. */
  lemma StripWhitespaceIdempotent(s: string)
    ensures StripWhitespace(StripWhitespace(s)) == StripWhitespace(s)
  {
    StripWhitespaceKeepsClean(StripWhitespace(s));
  }

  /** `r` can be obtained from `s` by deleting characters. */
  ghost predicate IsSubsequence(r: string, s: string)
    decreases |s|
  {
    if r == [] then true
    else if s == [] then false
    else (r[0] == s[0] && IsSubsequence(r[1..], s[1..])) || IsSubsequence(r, s[1..])
  }

  lemma SubsequenceOfTail(r: string, s: string)
    requires s != [] && IsSubsequence(r, s[1..])
    ensures IsSubsequence(r, s)
  {
  }

  /** The stripped string is the original with characters deleted, the rest in their order. */
  lemma {:induction false} StripWhitespaceIsSubsequence(s: string)
    ensures IsSubsequence(StripWhitespace(s), s)
  {
    if s != [] {
      var r := StripWhitespace(s);
      StripWhitespaceIsSubsequence(s[1..]);
      if IsWhitespace(s[0]) {
        assert r == StripWhitespace(s[1..]);
        SubsequenceOfTail(r, s);
      } else {
        assert r == [s[0]] + StripWhitespace(s[1..]);
        assert r[0] == s[0] && r[1..] == StripWhitespace(s[1..]);
      }
    }
  }

  // ---------------------------------------------------------------------
  // Image address
  // ---------------------------------------------------------------------

  /** `recipe.imageKeyword ? keyword : name`: an absent or empty keyword falls back to the name. */
  function SeedSource(recipe: Recipe): (src: string)
    ensures recipe.imageKeyword.Some? && recipe.imageKeyword.value != "" ==> src == recipe.imageKeyword.value
    ensures recipe.imageKeyword == None || recipe.imageKeyword == Some("") ==> src == recipe.name
  {
    if recipe.imageKeyword.Some? && recipe.imageKeyword.value != "" then recipe.imageKeyword.value
    else recipe.name
  }

  /** The picture seed; a keyword of spaces only is a present keyword and gives the empty seed. */
  function ImageSeed(recipe: Recipe): (seed: string)
    ensures NoWhitespace(seed)
    ensures forall c :: !IsWhitespace(c) ==> multiset(seed)[c] == multiset(SeedSource(recipe))[c]
    ensures IsSubsequence(seed, SeedSource(recipe))
  {
    StripWhitespaceCounts(SeedSource(recipe));
    StripWhitespaceIsSubsequence(SeedSource(recipe));
    StripWhitespace(SeedSource(recipe))
  }

  const PicsumPrefix: string := "https://picsum.photos/seed/"

  function PicsumUrl(seed: string, size: string): string
  {
    PicsumPrefix + seed + size
  }

  /** Reads the seed back out of a placeholder address with the given size suffix. */
  function SeedOfPicsumUrl(url: string, size: string): Option<string>
  {
    if |PicsumPrefix| + |size| <= |url| && url[..|PicsumPrefix|] == PicsumPrefix && url[|url| - |size|..] == size
    then Some(url[|PicsumPrefix|..|url| - |size|])
    else None
  }

  /** The seed is recovered exactly from the address built around it. */
  lemma PicsumUrlRoundTrip(seed: string, size: string)
    ensures SeedOfPicsumUrl(PicsumUrl(seed, size), size) == Some(seed)
  {
    var url := PicsumUrl(seed, size);
    assert url[..|PicsumPrefix|] == PicsumPrefix;
    assert url[|url| - |size|..] == size;
    assert url[|PicsumPrefix|..|url| - |size|] == seed;
  }

  const CardImageSize: string := "/400/300"

  function CardImageUrl(recipe: Recipe): (url: string)
    ensures SeedOfPicsumUrl(url, CardImageSize) == Some(ImageSeed(recipe))
  {
    PicsumUrlRoundTrip(ImageSeed(recipe), CardImageSize);
    PicsumUrl(ImageSeed(recipe), CardImageSize)
  }

  // ---------------------------------------------------------------------
  // Badge and rendering
  // ---------------------------------------------------------------------

  /** The diet badge, used by the card and by the detail view. */
  function Badge(isVeg: bool): (b: string)
    ensures b == "VEG" <==> isVeg
    ensures b == "NON-VEG" <==> !isVeg
  {
    if isVeg then "VEG" else "NON-VEG"
  }

  /** What a card shows, and the recipe its button passes to `onClick`. */
  datatype CardView = CardView(
    imageUrl: string,
    imageAlt: string,
    cuisine: string,
    badge: string,
    title: string,
    description: string,
    cookingTime: string,
    difficulty: string,
    calories: real,
    clickArgument: Recipe)

  function Render(recipe: Recipe): (v: CardView)
    ensures SeedOfPicsumUrl(v.imageUrl, CardImageSize) == Some(ImageSeed(recipe))
    ensures v.badge == Badge(recipe.isVeg)
    ensures v.clickArgument == recipe
  {
    CardView(CardImageUrl(recipe), recipe.name, recipe.cuisine, Badge(recipe.isVeg),
             recipe.name, recipe.description, recipe.cookingTime,
             DifficultyName(recipe.difficulty), recipe.calories, recipe)
  }
}
