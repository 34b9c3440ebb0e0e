/**
 String operations of the Python library that the components use. Which characters are white space,
 alphanumeric or alphabetic is a parameter, so nothing here depends on a Unicode table.
 */
module Text {
  import opened Common

  datatype Chars = Chars(
    space: char -> bool,
    alnum: char -> bool,
    alpha: char -> bool,
    upper: char -> string)

  predicate Special(c: char) {
    c in {';', '-', '/', '*', '\'', '"', '$', '{', '}'}
  }

  /** What any sensible classification satisfies. */
  ghost predicate Sane(cx: Chars) {
    && cx.space('\n')
    && (forall c {:trigger cx.space(c)} :: cx.space(c) ==> !Special(c) && !cx.alnum(c) && c != '_')
    && (forall c {:trigger cx.alnum(c)} :: cx.alnum(c) ==> !Special(c))
    && (forall c {:trigger cx.alpha(c)} :: cx.alpha(c) ==> cx.alnum(c))
  }

  predicate AllSpace(cx: Chars, s: string) {
    forall i :: 0 <= i < |s| ==> cx.space(s[i])
  }

  // ---- strip -----------------------------------------------------------------

  function LStrip(cx: Chars, s: string): string {
    if s != "" && cx.space(s[0]) then LStrip(cx, s[1..]) else s
  }

  function RStrip(cx: Chars, s: string): string {
    if s != "" && cx.space(s[|s| - 1]) then RStrip(cx, s[..|s| - 1]) else s
  }

  function Strip(cx: Chars, s: string): string {
    RStrip(cx, LStrip(cx, s))
  }

  lemma {:induction false} LStripSplits(cx: Chars, s: string) returns (lead: string)
    ensures AllSpace(cx, lead) && s == lead + LStrip(cx, s)
  {
    if s != "" && cx.space(s[0]) {
      var rest := LStripSplits(cx, s[1..]);
      lead := [s[0]] + rest;
    } else {
      lead := "";
    }
  }

  lemma {:induction false} RStripSplits(cx: Chars, s: string) returns (trail: string)
    ensures AllSpace(cx, trail) && s == RStrip(cx, s) + trail
  {
    if s != "" && cx.space(s[|s| - 1]) {
      var rest := RStripSplits(cx, s[..|s| - 1]);
      trail := rest + [s[|s| - 1]];
    } else {
      trail := "";
    }
  }

  lemma {:induction false} LStripAddsNothing(cx: Chars, lead: string, s: string)
    requires AllSpace(cx, lead)
    ensures LStrip(cx, lead + s) == LStrip(cx, s)
  {
    if lead == "" {
      assert lead + s == s;
    } else {
      assert (lead + s)[1..] == lead[1..] + s;
      LStripAddsNothing(cx, lead[1..], s);
    }
  }

  lemma {:induction false} RStripAddsNothing(cx: Chars, s: string, trail: string)
    requires AllSpace(cx, trail)
    ensures RStrip(cx, s + trail) == RStrip(cx, s)
  {
    if trail == "" {
      assert s + trail == s;
    } else {
      assert (s + trail)[..|s + trail| - 1] == s + trail[..|trail| - 1];
      RStripAddsNothing(cx, s, trail[..|trail| - 1]);
    }
  }

  /** A string with no white space at either end. */
  predicate Trimmed(cx: Chars, s: string) {
    s != "" ==> !cx.space(s[0]) && !cx.space(s[|s| - 1])
  }

  lemma {:induction false} RStripEnd(cx: Chars, s: string)
    ensures RStrip(cx, s) != "" ==> !cx.space(RStrip(cx, s)[|RStrip(cx, s)| - 1]) && RStrip(cx, s)[0] == s[0]
    ensures RStrip(cx, s) <= s
  {
    if s != "" && cx.space(s[|s| - 1]) {
      RStripEnd(cx, s[..|s| - 1]);
    }
  }

  lemma {:induction false} LStripStart(cx: Chars, s: string)
    ensures LStrip(cx, s) != "" ==> !cx.space(LStrip(cx, s)[0])
  {
    if s != "" && cx.space(s[0]) {
      LStripStart(cx, s[1..]);
    }
  }

  lemma StripIsTrimmed(cx: Chars, s: string)
    ensures Trimmed(cx, Strip(cx, s))
  {
    LStripStart(cx, s);
    RStripEnd(cx, LStrip(cx, s));
  }

  /** Stripping takes white space off both ends and nothing else. */
  lemma StripSplits(cx: Chars, s: string) returns (lead: string, trail: string)
    ensures AllSpace(cx, lead) && AllSpace(cx, trail) && s == lead + Strip(cx, s) + trail
  {
    lead := LStripSplits(cx, s);
    trail := RStripSplits(cx, LStrip(cx, s));
    assert s == lead + (Strip(cx, s) + trail);
  }

  /** White space around a trimmed string is all that stripping sees. */
  lemma StripUndoesPadding(cx: Chars, lead: string, s: string, trail: string)
    requires AllSpace(cx, lead) && AllSpace(cx, trail) && Trimmed(cx, s)
    ensures Strip(cx, lead + s + trail) == s
  {
    assert lead + s + trail == lead + (s + trail);
    LStripAddsNothing(cx, lead, s + trail);
    if s == "" {
      assert s + trail == trail && trail + "" == trail;
      LStripAddsNothing(cx, trail, "");
    } else {
      assert (s + trail)[0] == s[0];
      RStripAddsNothing(cx, s, trail);
    }
  }

  // ---- find ------------------------------------------------------------------

  predicate At(s: string, pat: string, k: int) {
    0 <= k && k + |pat| <= |s| && s[k..k + |pat|] == pat
  }

  /** `str.find`: the first occurrence at or after `from`. */
  function Find(s: string, pat: string, from: nat): (k: Option<nat>)
    requires from <= |s|
    ensures k.Some? ==> from <= k.value && At(s, pat, k.value)
    ensures forall j :: from <= j && (k.None? || j < k.value) ==> !At(s, pat, j)
    decreases |s| - from
  {
    if At(s, pat, from) then Some(from)
    else if from == |s| then None
    else Find(s, pat, from + 1)
  }

  // ---- replace ---------------------------------------------------------------

  /** `str.replace`: occurrences from the left, none overlapping. */
  function Replace(s: string, pat: string, with: string): string
    requires pat != ""
    decreases |s|
  {
    if s == "" then ""
    else if pat <= s then with + Replace(s[|pat|..], pat, with)
    else [s[0]] + Replace(s[1..], pat, with)
  }
}
