/** `slugify` from the seed mutation: a chain of regular-expression replaces. */
module Slug {
  import opened Text

  /** Characters matched by `[\w-]`: ASCII letters, digits, underscore and hyphen. */
  predicate IsWordOrHyphen(c: char)
  {
    'a' <= c <= 'z' || 'A' <= c <= 'Z' || '0' <= c <= '9' || c == '_' || c == '-'
  }

  /** Characters a slug can contain. */
  predicate IsSlugChar(c: char)
  {
    'a' <= c <= 'z' || '0' <= c <= '9' || c == '_' || c == '-'
  }

  predicate NoDoubleHyphen(s: string)
  {
    forall i :: 0 <= i < |s| - 1 ==> !(s[i] == '-' && s[i + 1] == '-')
  }

  /** What `slugify` produces: slug characters only, and never two hyphens in a row. */
  predicate IsSlug(s: string)
  {
    (forall i :: 0 <= i < |s| ==> IsSlugChar(s[i])) && NoDoubleHyphen(s)
  }

  /** `.replace(/\s+/g, '-')`: every maximal run of whitespace becomes one hyphen. */
  function DashWhitespace(s: string): string
  {
    if s == [] then []
    else if IsWhitespace(s[0]) then
      if |s| > 1 && IsWhitespace(s[1]) then DashWhitespace(s[1..]) else "-" + DashWhitespace(s[1..])
    else [s[0]] + DashWhitespace(s[1..])
  }

  /** `.replace(/[^\w-]+/g, '')`: every character outside `[\w-]` is deleted. */
  function StripNonWord(s: string): string
  {
    if s == [] then []
    else if IsWordOrHyphen(s[0]) then [s[0]] + StripNonWord(s[1..])
    else StripNonWord(s[1..])
  }

  /** `.replace(/--+/g, '-')`: every run of two or more hyphens becomes one. */
  function CollapseHyphens(s: string): string
  {
    if s == [] then []
    else if |s| > 1 && s[0] == '-' && s[1] == '-' then CollapseHyphens(s[1..])
    else [s[0]] + CollapseHyphens(s[1..])
  }

  function TrimStart(s: string): string
  {
    if s != [] && IsWhitespace(s[0]) then TrimStart(s[1..]) else s
  }

  function TrimEnd(s: string): string
  {
    if s != [] && IsWhitespace(s[|s| - 1]) then TrimEnd(s[..|s| - 1]) else s
  }

  /** `.trim()`: whitespace only; hyphens at either end are kept. */
  function Trim(s: string): string
  {
    TrimEnd(TrimStart(s))
  }

  /** `slugify(text)`. */
  function Slugify(text: string): string
  {
    Trim(CollapseHyphens(StripNonWord(DashWhitespace(ToLower(text)))))
  }

  /** Every result of `slugify` is made of slug characters and never has two hyphens in a row. */
  lemma SlugifyIsSlug(text: string)
    ensures IsSlug(Slugify(text))
  {
    var lowered := ToLower(text);
    var dashed := DashWhitespace(lowered);
    var stripped := StripNonWord(dashed);
    var collapsed := CollapseHyphens(stripped);
    LowerHasNoUpper(text);
    DashWhitespaceChars(lowered);
    StripNonWordChars(dashed);
    CollapseHyphensChars(stripped);
    CollapseHyphensNoDouble(stripped);
    assert forall c :: c in collapsed ==> IsSlugChar(c);
    TrimKeepsSlug(collapsed);
  }

  // ---------------------------------------------------------------- the alphabet of a slug

  lemma LowerHasNoUpper(s: string)
    ensures forall c :: c in ToLower(s) ==> !IsUpper(c)
  {
  }

  lemma {:induction false} DashWhitespaceChars(s: string)
    ensures forall c :: c in DashWhitespace(s) ==> c == '-' || c in s
  {
    if s != [] {
      DashWhitespaceChars(s[1..]);
    }
  }

  lemma {:induction false} StripNonWordChars(s: string)
    ensures forall c :: c in StripNonWord(s) ==> c in s && IsWordOrHyphen(c)
  {
    if s != [] {
      StripNonWordChars(s[1..]);
    }
  }

  lemma {:induction false} CollapseHyphensChars(s: string)
    ensures forall c :: c in CollapseHyphens(s) ==> c in s
    ensures s != [] ==> CollapseHyphens(s) != [] && CollapseHyphens(s)[0] == s[0]
  {
    if s != [] {
      CollapseHyphensChars(s[1..]);
    }
  }

  lemma {:induction false} CollapseHyphensNoDouble(s: string)
    ensures NoDoubleHyphen(CollapseHyphens(s))
  {
    if s != [] {
      CollapseHyphensNoDouble(s[1..]);
      CollapseHyphensChars(s[1..]);
    }
  }

  /** Trimming only cuts characters off the ends, so the slug properties survive it. */
  lemma {:induction false} TrimKeepsSlug(s: string)
    requires forall c :: c in s ==> !IsWhitespace(c)
    ensures Trim(s) == s
  {
    if s != [] {
      assert !IsWhitespace(s[0]);
      assert !IsWhitespace(s[|s| - 1]);
    }
  }

  // ---------------------------------------------------------------- idempotence

  lemma {:induction false} DashWhitespaceIdentity(s: string)
    requires forall c :: c in s ==> !IsWhitespace(c)
    ensures DashWhitespace(s) == s
  {
    if s != [] {
      DashWhitespaceIdentity(s[1..]);
    }
  }

  lemma {:induction false} StripNonWordIdentity(s: string)
    requires forall c :: c in s ==> IsWordOrHyphen(c)
    ensures StripNonWord(s) == s
  {
    if s != [] {
      StripNonWordIdentity(s[1..]);
    }
  }

  lemma {:induction false} CollapseHyphensIdentity(s: string)
    requires NoDoubleHyphen(s)
    ensures CollapseHyphens(s) == s
  {
    if s != [] {
      assert NoDoubleHyphen(s[1..]);
      CollapseHyphensIdentity(s[1..]);
    }
  }

  /** Slugifying a slug changes nothing; in particular `slugify(slugify(s)) == slugify(s)`. */
  lemma SlugifyFixesSlugs(t: string)
    requires IsSlug(t)
    ensures Slugify(t) == t
  {
    assert ToLower(t) == t;
    DashWhitespaceIdentity(t);
    StripNonWordIdentity(t);
    CollapseHyphensIdentity(t);
    TrimKeepsSlug(t);
  }

  lemma SlugifyIdempotent(s: string)
    ensures Slugify(Slugify(s)) == Slugify(s)
  {
    SlugifyIsSlug(s);
    SlugifyFixesSlugs(Slugify(s));
  }

  // ---------------------------------------------------------------- hyphens at the ends

  lemma {:induction false} DashWhitespaceLeading(s: string)
    requires s != [] && IsWhitespace(s[0])
    ensures DashWhitespace(s) != [] && DashWhitespace(s)[0] == '-'
  {
    if |s| > 1 && IsWhitespace(s[1]) {
      DashWhitespaceLeading(s[1..]);
    }
  }

  /** Leading whitespace becomes a leading hyphen, and `trim()` does not remove it. */
  lemma LeadingWhitespaceKeepsHyphen(text: string)
    requires text != [] && IsWhitespace(text[0])
    ensures Slugify(text) != [] && Slugify(text)[0] == '-'
  {
    var lowered := ToLower(text);
    DashWhitespaceLeading(lowered);
    var dashed := DashWhitespace(lowered);
    var stripped := StripNonWord(dashed);
    assert stripped == "-" + StripNonWord(dashed[1..]);
    CollapseHyphensChars(stripped);
    var collapsed := CollapseHyphens(stripped);
    LowerHasNoUpper(text);
    DashWhitespaceChars(lowered);
    StripNonWordChars(dashed);
    TrimKeepsSlug(collapsed);
  }

  /** Only the lower-cased text matters: `slugify` is insensitive to ASCII case. */
  lemma SlugifyIgnoresCase(text: string)
    ensures Slugify(text) == Slugify(ToLower(text))
  {
    assert ToLower(ToLower(text)) == ToLower(text);
  }

  /** A text whose lower-cased form is already a slug slugifies to that form. */
  lemma SlugifyOfLoweredSlug(text: string, slug: string)
    requires ToLower(text) == slug && IsSlug(slug)
    ensures Slugify(text) == slug
  {
    SlugifyIgnoresCase(text);
    SlugifyFixesSlugs(slug);
  }

  /** A capitalised word of ASCII letters slugifies to itself with the capital lowered. */
  lemma SlugOfCapitalisedWord(capital: char, rest: string)
    requires IsUpper(capital)
    requires forall i :: 0 <= i < |rest| ==> 'a' <= rest[i] <= 'z'
    ensures Slugify([capital] + rest) == [LowerChar(capital)] + rest
  {
    var text := [capital] + rest;
    var lowered := [LowerChar(capital)] + rest;
    assert ToLower(text) == lowered;
    SlugifyOfLoweredSlug(text, lowered);
  }

  /** A suburb name of one word: `"Newcastle"` becomes `"newcastle"`. */
  lemma SlugOfNewcastle()
    ensures Slugify("Newcastle") == "newcastle"
  {
    SlugOfCapitalisedWord('N', "ewcastle");
    assert ['N'] + "ewcastle" == "Newcastle";
    assert [LowerChar('N')] + "ewcastle" == "newcastle";
  }

  /** One leading space in front of a word that lower-cases to a slug survives as a hyphen. */
  lemma SlugifyLeadingSpace(text: string, slug: string)
    requires ToLower(text) == slug && IsSlug(slug)
    requires slug != [] && slug[0] != '-'
    ensures Slugify(" " + text) == "-" + slug
  {
    var t := "-" + slug;
    assert ToLower(" " + text) == " " + slug;
    assert (" " + slug)[1..] == slug;
    DashWhitespaceIdentity(slug);
    assert DashWhitespace(" " + slug) == t;
    StripNonWordIdentity(t);
    assert NoDoubleHyphen(t);
    CollapseHyphensIdentity(t);
    TrimKeepsSlug(t);
  }

  /** `" Bondi"` becomes `"-bondi"`: `trim()` runs after the whitespace was turned into a hyphen. */
  lemma BondiWithLeadingSpace()
    ensures Slugify(" Bondi") == "-bondi"
  {
    var text, slug := ['B'] + "ondi", ['b'] + "ondi";
    assert ToLower(text) == slug;
    SlugifyLeadingSpace(text, slug);
    assert " " + text == " Bondi";
    assert "-" + slug == "-bondi";
  }
}
