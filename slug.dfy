/** `slugify(title, { lower: true })` with the default replacement `-`:
    each `-` becomes a space, characters outside the allowed set are removed,
    the result is trimmed, every run of white space becomes one `-`, and
    letters are lower-cased. */
module Slug {
  import opened Js

  /** The characters the default `remove` pattern `[^\w\s$*_+~.()'"!\-:@]` keeps,
      apart from white space and `-`. */
  predicate SlugKept(c: char) {
    ('a' <= c <= 'z') || ('A' <= c <= 'Z') || ('0' <= c <= '9') || c == '_'
    || c == '$' || c == '*' || c == '+' || c == '~' || c == '.' || c == '(' || c == ')'
    || c == '\'' || c == '"' || c == '!' || c == ':' || c == '@'
  }

  /** Every character is white space or kept. */
  predicate SpaceOrKept(s: string) {
    forall i :: 0 <= i < |s| ==> IsSpace(s[i]) || SlugKept(s[i])
  }

  /** Every character is a hyphen or kept. */
  predicate HyphenOrKept(s: string) {
    forall i :: 0 <= i < |s| ==> s[i] == '-' || SlugKept(s[i])
  }

  /** No two hyphens are adjacent. */
  predicate NoDoubleHyphen(s: string) {
    forall i :: 0 <= i < |s| - 1 ==> !(s[i] == '-' && s[i + 1] == '-')
  }

  /** No kept character is white space, and `-` is not kept. */
  lemma KeptIsNotSpace(c: char)
    requires SlugKept(c)
    ensures !IsSpace(c) && c != '-'
  {
  }

  /** The per-character pass: `-` becomes a space, kept characters and white
      space stay, everything else is removed. */
  function Sanitize(s: string): string {
    if s == [] then []
    else
      var head := if s[0] == '-' then " " else if SlugKept(s[0]) || IsSpace(s[0]) then [s[0]] else [];
      head + Sanitize(s[1..])
  }

  /** Sanitizing leaves only white space and kept characters. */
  lemma {:induction false} SanitizeChars(s: string)
    ensures SpaceOrKept(Sanitize(s))
  {
    if s != [] {
      SanitizeChars(s[1..]);
    }
  }

  /** `replace(/\s+/g, '-')`. */
  function Hyphenate(s: string): string
    decreases |s|
  {
    if s == [] then []
    else if IsSpace(s[0]) then
      TrimStartSpec(s[1..]);
      "-" + Hyphenate(TrimStart(s[1..]))
    else [s[0]] + Hyphenate(s[1..])
  }

  /** A string that does not start with white space keeps its first character. */
  lemma HyphenateStart(s: string)
    requires s != [] && !IsSpace(s[0])
    ensures Hyphenate(s) != [] && Hyphenate(s)[0] == s[0]
  {
  }

  /** A string that does not end with white space keeps its last character. */
  lemma {:induction false} HyphenateEnd(s: string)
    requires s != [] && !IsSpace(s[|s| - 1])
    ensures Hyphenate(s) != [] && Hyphenate(s)[|Hyphenate(s)| - 1] == s[|s| - 1]
    decreases |s|
  {
    if IsSpace(s[0]) {
      var t := TrimStart(s[1..]);
      TrimStartSpec(s[1..]);
      assert t != [] && t[|t| - 1] == s[|s| - 1];
      HyphenateEnd(t);
    } else if |s| > 1 {
      HyphenateEnd(s[1..]);
    }
  }

  /** White space becomes hyphens; kept characters stay. */
  lemma {:induction false} HyphenateChars(s: string)
    requires SpaceOrKept(s)
    ensures HyphenOrKept(Hyphenate(s))
    decreases |s|
  {
    if s != [] {
      if IsSpace(s[0]) {
        var t := TrimStart(s[1..]);
        TrimStartSpec(s[1..]);
        assert SpaceOrKept(t);
        HyphenateChars(t);
      } else {
        HyphenateChars(s[1..]);
      }
    }
  }

  /** A run of white space becomes a single hyphen, so no two hyphens meet. */
  lemma {:induction false} HyphenateNoDouble(s: string)
    requires SpaceOrKept(s)
    ensures NoDoubleHyphen(Hyphenate(s))
    decreases |s|
  {
    if s != [] {
      if IsSpace(s[0]) {
        var t := TrimStart(s[1..]);
        TrimStartSpec(s[1..]);
        assert SpaceOrKept(t);
        HyphenateNoDouble(t);
        if t != [] {
          KeptIsNotSpace(t[0]);
          HyphenateStart(t);
        }
      } else {
        KeptIsNotSpace(s[0]);
        HyphenateNoDouble(s[1..]);
      }
    }
  }

  /** A trimmed string of white space and kept characters becomes kept
      characters separated by single hyphens, with no hyphen at either end. */
  lemma HyphenateTrimmed(t: string)
    requires SpaceOrKept(t)
    requires t == [] || (!IsSpace(t[0]) && !IsSpace(t[|t| - 1]))
    ensures var h := Hyphenate(t);
      && HyphenOrKept(h) && NoDoubleHyphen(h)
      && (h == [] || (h[0] != '-' && h[|h| - 1] != '-'))
  {
    HyphenateChars(t);
    HyphenateNoDouble(t);
    if t != [] {
      KeptIsNotSpace(t[0]);
      KeptIsNotSpace(t[|t| - 1]);
      HyphenateStart(t);
      HyphenateEnd(t);
    }
  }

  /** What a slug looks like: lower-case kept characters separated by single
      hyphens, with no hyphen at either end and no white space anywhere. */
  predicate IsSlug(r: string) {
    && (forall i :: 0 <= i < |r| ==> r[i] == '-' || (SlugKept(r[i]) && !('A' <= r[i] <= 'Z')))
    && (r == [] || (r[0] != '-' && r[|r| - 1] != '-'))
    && NoDoubleHyphen(r)
  }

  /** Trimming keeps a property that holds of every character. */
  lemma TrimKeepsSlugChars(s: string)
    requires SpaceOrKept(s)
    ensures SpaceOrKept(Trim(s))
  {
    var a := TrimStart(s);
    TrimStartSpec(s);
    assert SpaceOrKept(a);
    TrimEndSpec(a);
  }

  lemma LowerMakesSlug(h: string)
    requires HyphenOrKept(h) && NoDoubleHyphen(h)
    requires h == [] || (h[0] != '-' && h[|h| - 1] != '-')
    ensures IsSlug(Lower(h))
  {
    var r := Lower(h);
    forall i | 0 <= i < |r|
      ensures r[i] == '-' <==> h[i] == '-'
      ensures r[i] == '-' || (SlugKept(r[i]) && !('A' <= r[i] <= 'Z'))
    {
      assert r[i] == LowerChar(h[i]);
    }
  }

  /** `slugify(title, { lower: true })`; the result is always a slug. */
  function Slugify(title: string): (r: string)
    ensures IsSlug(r)
  {
    var t := Trim(Sanitize(title));
    SanitizeChars(title);
    TrimKeepsSlugChars(Sanitize(title));
    var h := Hyphenate(t);
    HyphenateTrimmed(t);
    LowerMakesSlug(h);
    Lower(h)
  }

  /** `-` read back as the space it stood for. */
  function Spaced(r: string): (s: string)
    ensures |s| == |r|
    ensures forall i :: 0 <= i < |r| ==> s[i] == (if r[i] == '-' then ' ' else r[i])
  {
    seq(|r|, i requires 0 <= i < |r| => if r[i] == '-' then ' ' else r[i])
  }

  lemma {:induction false} SanitizeSlugChars(r: string)
    requires HyphenOrKept(r)
    ensures Sanitize(r) == Spaced(r)
  {
    if r != [] {
      SanitizeSlugChars(r[1..]);
      assert Spaced(r) == [Spaced(r)[0]] + Spaced(r[1..]);
    }
  }

  /** A single space before a non-space becomes a single hyphen. */
  lemma HyphenateLoneSpace(s: string)
    requires |s| > 1 && IsSpace(s[0]) && !IsSpace(s[1])
    ensures Hyphenate(s) == "-" + Hyphenate(s[1..])
  {
    TrimStartNoop(s[1..]);
  }

  /** A non-space character is copied. */
  lemma HyphenateNonSpace(s: string)
    requires s != [] && !IsSpace(s[0])
    ensures Hyphenate(s) == [s[0]] + Hyphenate(s[1..])
  {
  }

  lemma {:induction false} HyphenateSpaced(r: string)
    requires HyphenOrKept(r)
    requires NoDoubleHyphen(r)
    requires r == [] || r[|r| - 1] != '-'
    ensures Hyphenate(Spaced(r)) == r
  {
    if r != [] {
      var s := Spaced(r);
      var t := r[1..];
      assert s[1..] == Spaced(t);
      HyphenateSpaced(t);
      if r[0] == '-' {
        assert |r| > 1 && r[1] != '-';
        KeptIsNotSpace(r[1]);
        HyphenateLoneSpace(s);
      } else {
        KeptIsNotSpace(r[0]);
        HyphenateNonSpace(s);
      }
      assert r == [r[0]] + t;
    }
  }

  /** A slug is its own slug. */
  lemma SlugIsFixedPoint(r: string)
    requires IsSlug(r)
    ensures Slugify(r) == r
  {
    SanitizeSlugChars(r);
    var s := Spaced(r);
    if r != [] {
      KeptIsNotSpace(r[0]);
      KeptIsNotSpace(r[|r| - 1]);
    }
    TrimNoop(s);
    HyphenateSpaced(r);
    assert Lower(r) == r;
  }

  /** Slugifying a slug changes nothing, so saving an unchanged title keeps its slug. */
  lemma SlugifyIdempotent(title: string)
    ensures Slugify(Slugify(title)) == Slugify(title)
  {
    SlugIsFixedPoint(Slugify(title));
  }

  /** Sanitizing works character by character. */
  lemma {:induction false} SanitizeAppend(x: string, y: string)
    ensures Sanitize(x + y) == Sanitize(x) + Sanitize(y)
  {
    if x != [] {
      assert (x + y)[0] == x[0];
      assert (x + y)[1..] == x[1..] + y;
      SanitizeAppend(x[1..], y);
    } else {
      assert x + y == y;
    }
  }

  /** Dropping leading white space before sanitizing does not change the
      trimmed result. */
  lemma {:induction false} SanitizeAfterTrimStart(s: string)
    ensures Trim(Sanitize(TrimStart(s))) == Trim(Sanitize(s))
    decreases |s|
  {
    if s != [] && IsSpace(s[0]) {
      SanitizeAfterTrimStart(s[1..]);
      var c := s[0];
      assert c != '-' && !SlugKept(c);
      assert Sanitize(s) == [c] + Sanitize(s[1..]) + [];
      TrimAroundSpace([c], Sanitize(s[1..]), []);
    }
  }

  /** Dropping trailing white space before sanitizing does not change the
      trimmed result. */
  lemma {:induction false} SanitizeAfterTrimEnd(s: string)
    ensures Trim(Sanitize(TrimEnd(s))) == Trim(Sanitize(s))
    decreases |s|
  {
    if s != [] && IsSpace(s[|s| - 1]) {
      var p := s[..|s| - 1];
      var c := s[|s| - 1];
      SanitizeAfterTrimEnd(p);
      assert s == p + [c];
      SanitizeAppend(p, [c]);
      assert c != '-' && !SlugKept(c);
      assert Sanitize([c]) == [c];
      assert Sanitize(s) == [] + Sanitize(p) + [c];
      TrimAroundSpace([], Sanitize(p), [c]);
    }
  }

  /** The slug of a title does not depend on white space around it, so
      trimming the title before slugifying it changes nothing. */
  lemma SlugifyIgnoresSurroundingSpace(title: string)
    ensures Slugify(Trim(title)) == Slugify(title)
  {
    SanitizeAfterTrimStart(title);
    SanitizeAfterTrimEnd(TrimStart(title));
    assert Trim(title) == TrimEnd(TrimStart(title));
  }
}
