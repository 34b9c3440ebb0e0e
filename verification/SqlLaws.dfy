/** Laws of splitting and rendering: round trip, commutation with substitution, transaction keywords. */
module SqlLaws {
  import opened Common
  import opened Text
  import opened SqlLexer
  import opened SqlTemplates

  // ---- round trip --------------------------------------------------------------

  const SEPARATOR := "\n;\n"

  /** A non-blank trimmed text with no cut that ends in code or in a line comment. */
  predicate IsStatement(cx: Chars, s: string) {
    s != "" && Trimmed(cx, s) && NoCut(cx, Code, s) && Closed(Read(cx, Code, s))
  }

  lemma {:induction false} SpaceStaysInCode(cx: Chars, s: string)
    requires Sane(cx) && AllSpace(cx, s)
    ensures Read(cx, Code, s) == Code && NoCut(cx, Code, s)
  {
    if s == "" {
    } else {
      assert cx.space(s[0]);
      SpaceStaysInCode(cx, s[1..]);
    }
  }

  /** White space does not close what is open. */
  predicate WfMode(m: Mode) {
    && (m.Quote? ==> m.mark == '\'' || m.mark == '"')
  }

  lemma {:induction false} SpaceClosesNothing(cx: Chars, m: Mode, s: string)
    requires Sane(cx) && AllSpace(cx, s) && WfMode(m) && !Closed(m)
    ensures !Closed(Read(cx, m, s))
    decreases |s|
  {
    if s == "" {
    } else {
      assert cx.space(s[0]);
      SpaceClosesNothing(cx, Next(cx, m, s[0]), s[1..]);
    }
  }

  lemma {:induction false} ReadIsWf(cx: Chars, m: Mode, s: string)
    requires WfMode(m)
    ensures WfMode(Read(cx, m, s))
    decreases |s|
  {
    if s != "" { ReadIsWf(cx, Next(cx, m, s[0]), s[1..]); }
  }

  /** Stripping a closed segment leaves a statement, or nothing. */
  lemma StrippedSegmentIsStatement(cx: Chars, seg: string)
    requires Sane(cx) && NoCut(cx, Code, seg) && Closed(Read(cx, Code, seg)) && Strip(cx, seg) != ""
    ensures IsStatement(cx, Strip(cx, seg))
  {
    var lead, trail := StripSplits(cx, seg);
    var s := Strip(cx, seg);
    StripIsTrimmed(cx, seg);
    SpaceStaysInCode(cx, lead);
    assert seg == lead + (s + trail);
    ReadAppend(cx, Code, lead, s + trail);
    ReadAppend(cx, Code, s, trail);
    ReadIsWf(cx, Code, s);
    if !Closed(Read(cx, Code, s)) { SpaceClosesNothing(cx, Read(cx, Code, s), trail); }
  }

  /** Everything a successful split returns is a statement. */
  lemma {:induction false} SplitReturnsStatements(cx: Chars, segs: seq<string>)
    requires Sane(cx) && forall j :: 0 <= j < |segs| ==> NoCut(cx, Code, segs[j]) && Closed(Read(cx, Code, segs[j]))
    ensures forall j :: 0 <= j < |Statements(cx, segs)| ==> IsStatement(cx, Statements(cx, segs)[j])
  {
    if segs == [] {
    } else {
      SplitReturnsStatements(cx, segs[1..]);
      if Strip(cx, segs[0]) != "" { StrippedSegmentIsStatement(cx, segs[0]); }
    }
  }

  /** A line break after a statement returns to code. */
  lemma StatementThenBreak(cx: Chars, s: string)
    requires Sane(cx) && IsStatement(cx, s)
    ensures NoCut(cx, Code, s + "\n") && Read(cx, Code, s + "\n") == Code
  {
    assert cx.space('\n');
    ReadAppend(cx, Code, s, "\n");
    OneChar(cx, Read(cx, Code, s), '\n');
  }

  /** One statement and a separator in front of a text. */
  lemma SeparatorSplits(cx: Chars, s: string, rest: string)
    requires Sane(cx) && IsStatement(cx, s)
    ensures Segments(cx, Code, s + SEPARATOR + rest) == [s + "\n"] + Prepend("\n", Segments(cx, Code, rest))
    ensures Read(cx, Code, s + SEPARATOR + rest) == Read(cx, Code, rest)
  {
    assert cx.space('\n');
    StatementThenBreak(cx, s);
    var head := s + "\n";
    assert s + SEPARATOR + rest == head + (";" + ("\n" + rest));
    SegmentsAppend(cx, Code, head, ";" + ("\n" + rest));
    ReadAppend(cx, Code, head, ";" + ("\n" + rest));
    assert (";" + ("\n" + rest))[1..] == "\n" + rest;
    assert ("\n" + rest)[1..] == rest;
    assert head + "" == head;
  }

  lemma PaddedStatements(cx: Chars, segs: seq<string>)
    requires Sane(cx) && segs != []
    ensures Statements(cx, Prepend("\n", segs)) == Statements(cx, segs)
  {
    assert cx.space('\n') && AllSpace(cx, "\n");
    var lead, trail := StripSplits(cx, segs[0]);
    StripIsTrimmed(cx, segs[0]);
    assert "\n" + segs[0] == ("\n" + lead) + Strip(cx, segs[0]) + trail;
    StripUndoesPadding(cx, "\n" + lead, Strip(cx, segs[0]), trail);
    assert Prepend("\n", segs)[1..] == segs[1..];
  }

  lemma OneMoreStatement(cx: Chars, s: string, rest: string)
    requires Sane(cx) && IsStatement(cx, s)
    ensures Read(cx, Code, s + SEPARATOR + rest) == Read(cx, Code, rest)
    ensures Statements(cx, Segments(cx, Code, s + SEPARATOR + rest)) == [s] + Statements(cx, Segments(cx, Code, rest))
  {
    SeparatorSplits(cx, s, rest);
    var tail := Prepend("\n", Segments(cx, Code, rest));
    PaddedStatements(cx, Segments(cx, Code, rest));
    assert cx.space('\n');
    assert "" + s + "\n" == s + "\n";
    StripUndoesPadding(cx, "", s, "\n");
    assert ([s + "\n"] + tail)[1..] == tail;
  }

  /** Joining statements and segmenting again gives the same statements. */
  lemma {:induction false} JoinedStatements(cx: Chars, statements: seq<string>)
    requires Sane(cx) && forall j :: 0 <= j < |statements| ==> IsStatement(cx, statements[j])
    ensures var text := JoinWith(statements, SEPARATOR);
            && Closed(Read(cx, Code, text))
            && Statements(cx, Segments(cx, Code, text)) == statements
  {
    if |statements| == 1 {
      var s := statements[0];
      NoCutIsOneSegment(cx, Code, s);
      assert "" + s + "" == s;
      StripUndoesPadding(cx, "", s, "");
    } else if |statements| > 1 {
      var s, rest := statements[0], JoinWith(statements[1..], SEPARATOR);
      JoinedStatements(cx, statements[1..]);
      OneMoreStatement(cx, s, rest);
      assert statements == [s] + statements[1..];
    } else {
      assert Strip(cx, "") == "";
      assert Segments(cx, Code, "") == [""];
      assert Statements(cx, [""]) == [] by { assert [""][1..] == []; }
    }
  }

  /** A closed text none of whose statements is rejected splits into them. */
  lemma SplitOfAccepted(cx: Chars, text: string)
    requires Closed(Read(cx, Code, text)) && !AnyRejected(cx, Statements(cx, Segments(cx, Code, text)))
    ensures Split(cx, text) == Ok(Statements(cx, Segments(cx, Code, text)))
  {
    var segs := Segments(cx, Code, text);
    assert segs == segs[..|segs| - 1] + [segs[|segs| - 1]];
    StatementsAppend(cx, segs[..|segs| - 1], [segs[|segs| - 1]]);
    var kept := Statements(cx, segs[..|segs| - 1]);
    assert forall k :: 0 <= k < |kept| ==> kept[k] == Statements(cx, segs)[k];
  }

  /** Joining any successful split with newline, semicolon, newline and splitting again gives the same list. */
  lemma SplitRoundTrip(cx: Chars, sql: string)
    requires Sane(cx) && Split(cx, sql).Ok?
    ensures Split(cx, JoinWith(Split(cx, sql).value, SEPARATOR)) == Split(cx, sql)
  {
    var segs := Segments(cx, Code, sql);
    forall j | 0 <= j < |segs| ensures NoCut(cx, Code, segs[j]) && Closed(Read(cx, Code, segs[j])) {
      SegmentsHoldNoCut(cx, Code, sql, j);
    }
    SplitReturnsStatements(cx, segs);
    var statements := Statements(cx, segs);
    JoinedStatements(cx, statements);
    SplitOfAccepted(cx, JoinWith(statements, SEPARATOR));
  }

  // ---- rendering ------------------------------------------------------------------

  const CORE_PLACEHOLDER := "{{core_schema}}"
  const PLUGIN_PLACEHOLDER := "{{plugin_schema}}"

  datatype TemplateError = MissingPlaceholder | Unresolved

  function RenderText(sql: string, core: string, plugin: string): string {
    Replace(Replace(sql, CORE_PLACEHOLDER, core), PLUGIN_PLACEHOLDER, plugin)
  }

  predicate Contains(s: string, pat: string) {
    Find(s, pat, 0).Some?
  }

  function RenderPluginSql(sql: string, core: string, plugin: string): Result<string, TemplateError> {
    if !Contains(sql, CORE_PLACEHOLDER) || !Contains(sql, PLUGIN_PLACEHOLDER) then Err(MissingPlaceholder)
    else if Contains(RenderText(sql, core, plugin), "{{") then Err(Unresolved)
    else Ok(RenderText(sql, core, plugin))
  }

  predicate Identifier(cx: Chars, name: string) {
    name != "" && forall k :: 0 <= k < |name| ==> TagChar(cx, name[k])
  }

  /** A character that opens and closes nothing. */
  predicate Plain(c: char) {
    c !in {';', '-', '/', '*', '\'', '"', '$', '\n'}
  }

  predicate Placeholder(cx: Chars, pat: string) {
    && pat != "" && pat[0] == '{' && pat[|pat| - 1] == '}' && !TagChar(cx, '}')
    && forall k :: 0 <= k < |pat| ==> Plain(pat[k])
  }

  /** What was just read is a '$' and tag characters: what follows might become part of a tag. */
  predicate ModeHot(m: Mode) {
    m.Tag? || (m.Dollar? && m.tail.Some?)
  }

  /** No brace is read where a tag may be open. */
  predicate BracesClear(cx: Chars, m: Mode, s: string)
    decreases |s|
  {
    s == "" || ((s[0] == '{' ==> !ModeHot(m)) && BracesClear(cx, Next(cx, m, s[0]), s[1..]))
  }

  /** No occurrence that `Replace` replaces is read where a tag may be open. */
  predicate HitsClear(cx: Chars, m: Mode, s: string, pat: string)
    requires pat != ""
    decreases |s|
  {
    if s == "" then true
    else if pat <= s then !ModeHot(m) && HitsClear(cx, Read(cx, m, pat), s[|pat|..], pat)
    else HitsClear(cx, Next(cx, m, s[0]), s[1..], pat)
  }

  /** The replaced text is read in step: after each occurrence the reader is in the mode the occurrence left it in. */
  predicate InStep(cx: Chars, m: Mode, s: string, pat: string, with: string)
    requires pat != ""
    decreases |s|
  {
    if s == "" then true
    else if pat <= s then
      Read(cx, m, with) == Read(cx, m, pat) && InStep(cx, Read(cx, m, pat), s[|pat|..], pat, with)
    else InStep(cx, Next(cx, m, s[0]), s[1..], pat, with)
  }

  /** The mode after any plain text, wherever the reader was (unless it may be inside a tag). */
  function Settled(m: Mode): Mode {
    match m
    case Dash => Code
    case Slash => Code
    case Star => Block
    case _ => m
  }

  lemma {:induction false} PlainTextSettles(cx: Chars, m: Mode, s: string)
    requires !ModeHot(m) && WfMode(m) && s != "" && forall k :: 0 <= k < |s| ==> Plain(s[k])
    ensures Read(cx, m, s) == Settled(m) && NoCut(cx, m, s)
    decreases |s|
  {
    assert Plain(s[0]) && Next(cx, m, s[0]) == Settled(m);
    if |s| > 1 {
      PlainTextSettles(cx, Settled(m), s[1..]);
    }
  }

  lemma {:induction false} WordExtendsTag(cx: Chars, m: Mode, name: string)
    requires Sane(cx) && ModeHot(m) && forall k :: 0 <= k < |name| ==> TagChar(cx, name[k])
    ensures Read(cx, m, name) == if m.Tag? then Tag(m.open + name) else Dollar(m.tag, Some(m.tail.value + name))
    decreases |name|
  {
    if name == "" {
      assert m.Tag? ==> m.open + name == m.open;
      assert m.Dollar? ==> m.tail.value + name == m.tail.value;
    } else {
      assert TagChar(cx, name[0]) && name[0] != '$';
      WordExtendsTag(cx, Next(cx, m, name[0]), name[1..]);
      assert [name[0]] + name[1..] == name;
      assert m.Tag? ==> m.open + [name[0]] + name[1..] == m.open + name;
      assert m.Dollar? ==> m.tail.value + [name[0]] + name[1..] == m.tail.value + name;
    }
  }

  lemma PlaceholderLeavesTag(cx: Chars, m: Mode, pat: string)
    requires Sane(cx) && ModeHot(m) && WfMode(m) && Placeholder(cx, pat)
    ensures Read(cx, m, pat) == if m.Tag? then Code else Dollar(m.tag, None)
  {
    var m' := Next(cx, m, pat[0]);
    assert !TagChar(cx, '{') by { assert Special('{'); }
    assert m' == if m.Tag? then Code else Dollar(m.tag, None);
    if |pat| > 1 {
      assert forall k :: 0 <= k < |pat[1..]| ==> Plain(pat[1..][k]);
      PlainTextSettles(cx, m', pat[1..]);
    }
  }

  /** The exact local fact: a name is read as its placeholder was, unless a tag may be open. */
  lemma SameReadingIff(cx: Chars, m: Mode, pat: string, with: string)
    requires Sane(cx) && WfMode(m) && Placeholder(cx, pat) && Identifier(cx, with)
    ensures Read(cx, m, with) == Read(cx, m, pat) <==> !ModeHot(m)
  {
    if ModeHot(m) {
      WordExtendsTag(cx, m, with);
      PlaceholderLeavesTag(cx, m, pat);
    } else {
      IdentifierIsPlain(cx, with);
      PlainTextSettles(cx, m, pat);
      PlainTextSettles(cx, m, with);
    }
  }

  /** The exact condition: a substitution is read in step exactly if it replaces nothing where a tag may be open. */
  lemma {:induction false} InStepIff(cx: Chars, m: Mode, s: string, pat: string, with: string)
    requires Sane(cx) && WfMode(m) && Placeholder(cx, pat) && Identifier(cx, with)
    ensures InStep(cx, m, s, pat, with) <==> HitsClear(cx, m, s, pat)
    decreases |s|
  {
    if s == "" {
    } else if pat <= s {
      SameReadingIff(cx, m, pat, with);
      ReadIsWf(cx, m, pat);
      InStepIff(cx, Read(cx, m, pat), s[|pat|..], pat, with);
    } else {
      ReadIsWf(cx, m, [s[0]]);
      InStepIff(cx, Next(cx, m, s[0]), s[1..], pat, with);
    }
  }

  function ReplaceAll(segs: seq<string>, pat: string, with: string): seq<string>
    requires pat != ""
  {
    if segs == [] then [] else [Replace(segs[0], pat, with)] + ReplaceAll(segs[1..], pat, with)
  }

  /** The first segment is a prefix of the text. */
  lemma {:induction false} FirstSegmentIsPrefix(cx: Chars, m: Mode, s: string)
    ensures Segments(cx, m, s)[0] <= s
    decreases |s|
  {
    if s != "" && !Cuts(m, s[0]) {
      FirstSegmentIsPrefix(cx, Next(cx, m, s[0]), s[1..]);
    }
  }

  lemma PrefixOfPrefix(a: string, b: string, s: string)
    requires a <= b && b <= s
    ensures a <= s
  {
  }

  /** Replacing one placeholder in step commutes with cutting, and leaves the reader in the same mode. */
  lemma {:induction false} ReplaceCommutes(cx: Chars, m: Mode, s: string, pat: string, with: string)
    requires Sane(cx) && WfMode(m) && Placeholder(cx, pat) && Identifier(cx, with) && HitsClear(cx, m, s, pat)
    ensures Segments(cx, m, Replace(s, pat, with)) == ReplaceAll(Segments(cx, m, s), pat, with)
    ensures Read(cx, m, Replace(s, pat, with)) == Read(cx, m, s)
    decreases |s|
  {
    if s == "" {
      assert ReplaceAll([""], pat, with) == [""] by { assert [""][1..] == []; }
    } else if pat <= s {
      PlaceholderStep(cx, m, s, pat, with);
    } else {
      var c, rest := s[0], s[1..];
      var m' := Next(cx, m, c);
      var segs := Segments(cx, m', rest);
      ReadIsWf(cx, m, [c]);
      ReplaceCommutes(cx, m', rest, pat, with);
      assert ([c] + Replace(rest, pat, with))[1..] == Replace(rest, pat, with);
      if Cuts(m, c) {
        assert ([""] + segs)[1..] == segs;
      } else {
        FirstSegmentIsPrefix(cx, m', rest);
        var joined := [c] + segs[0];
        assert s == [c] + rest && joined <= s;
        assert !(pat <= joined) by { if pat <= joined { PrefixOfPrefix(pat, joined, s); } }
        assert joined[1..] == segs[0];
        assert Prepend([c], segs)[1..] == segs[1..];
      }
    }
  }

  lemma PlaceholderStep(cx: Chars, m: Mode, s: string, pat: string, with: string)
    requires Sane(cx) && WfMode(m) && Placeholder(cx, pat) && Identifier(cx, with)
    requires HitsClear(cx, m, s, pat) && pat <= s
    ensures Segments(cx, m, Replace(s, pat, with)) == ReplaceAll(Segments(cx, m, s), pat, with)
    ensures Read(cx, m, Replace(s, pat, with)) == Read(cx, m, s)
    decreases |s|, 0
  {
    var rest := s[|pat|..];
    var replaced := Replace(rest, pat, with);
    assert s == pat + rest;
    IdentifierIsPlain(cx, with);
    PlainTextSettles(cx, m, pat);
    PlainTextSettles(cx, m, with);
    SegmentsAppend(cx, m, pat, rest);
    ReadAppend(cx, m, pat, rest);
    SegmentsAppend(cx, m, with, replaced);
    ReadAppend(cx, m, with, replaced);
    ReplaceCommutes(cx, Settled(m), rest, pat, with);
    var segs := Segments(cx, Settled(m), rest);
    assert (pat + segs[0])[|pat|..] == segs[0];
    assert Prepend(pat, segs)[1..] == segs[1..];
  }

  lemma IdentifierIsPlain(cx: Chars, name: string)
    requires Sane(cx) && Identifier(cx, name)
    ensures forall k :: 0 <= k < |name| ==> Plain(name[k])
  {
    forall k | 0 <= k < |name| ensures Plain(name[k]) {
      assert TagChar(cx, name[k]);
      assert cx.space('\n');
    }
  }

  lemma {:induction false} ClearSuffix(cx: Chars, m: Mode, a: string, b: string)
    requires BracesClear(cx, m, a + b)
    ensures BracesClear(cx, Read(cx, m, a), b)
    decreases |a|
  {
    if a == "" {
      assert a + b == b;
    } else {
      assert (a + b)[1..] == a[1..] + b;
      ClearSuffix(cx, Next(cx, m, a[0]), a[1..], b);
    }
  }

  lemma {:induction false} ClearWord(cx: Chars, m: Mode, name: string, rest: string)
    requires Sane(cx) && (forall k :: 0 <= k < |name| ==> TagChar(cx, name[k]))
    requires BracesClear(cx, Read(cx, m, name), rest)
    ensures BracesClear(cx, m, name + rest)
    decreases |name|
  {
    if name == "" {
      assert name + rest == rest;
    } else {
      assert (name + rest)[1..] == name[1..] + rest;
      assert TagChar(cx, name[0]) && name[0] != '{' by { assert Special('{'); }
      ClearWord(cx, Next(cx, m, name[0]), name[1..], rest);
    }
  }

  lemma {:induction false} ClearBracesClearHits(cx: Chars, m: Mode, s: string, pat: string)
    requires Placeholder(cx, pat) && BracesClear(cx, m, s)
    ensures HitsClear(cx, m, s, pat)
    decreases |s|
  {
    if s == "" {
    } else if pat <= s {
      assert s == pat + s[|pat|..];
      ClearSuffix(cx, m, pat, s[|pat|..]);
      ClearBracesClearHits(cx, Read(cx, m, pat), s[|pat|..], pat);
    } else {
      ClearBracesClearHits(cx, Next(cx, m, s[0]), s[1..], pat);
    }
  }

  lemma {:induction false} ReplaceKeepsClear(cx: Chars, m: Mode, s: string, pat: string, with: string)
    requires Sane(cx) && WfMode(m) && Placeholder(cx, pat) && Identifier(cx, with) && BracesClear(cx, m, s)
    ensures BracesClear(cx, m, Replace(s, pat, with))
    decreases |s|
  {
    if s == "" {
    } else if pat <= s {
      var rest := s[|pat|..];
      assert s == pat + rest;
      SameReadingIff(cx, m, pat, with);
      ClearSuffix(cx, m, pat, rest);
      ReadIsWf(cx, m, pat);
      ReplaceKeepsClear(cx, Read(cx, m, pat), rest, pat, with);
      ClearWord(cx, m, with, Replace(rest, pat, with));
    } else {
      ReadIsWf(cx, m, [s[0]]);
      ReplaceKeepsClear(cx, Next(cx, m, s[0]), s[1..], pat, with);
      assert ([s[0]] + Replace(s[1..], pat, with))[1..] == Replace(s[1..], pat, with);
    }
  }

  lemma PlaceholdersArePlain(cx: Chars)
    requires Sane(cx)
    ensures Placeholder(cx, CORE_PLACEHOLDER) && Placeholder(cx, PLUGIN_PLACEHOLDER)
  {
    assert Special('}');
  }

  function RenderAll(segs: seq<string>, core: string, plugin: string): seq<string> {
    if segs == [] then [] else [RenderText(segs[0], core, plugin)] + RenderAll(segs[1..], core, plugin)
  }

  lemma {:induction false} RenderAllIsTwice(segs: seq<string>, core: string, plugin: string)
    ensures RenderAll(segs, core, plugin)
         == ReplaceAll(ReplaceAll(segs, CORE_PLACEHOLDER, core), PLUGIN_PLACEHOLDER, plugin)
  {
    if segs == [] {
    } else {
      RenderAllIsTwice(segs[1..], core, plugin);
    }
  }

  /** Both substitutions are read in step: the second one on the text the first one leaves. */
  predicate RenderedInStep(cx: Chars, sql: string, core: string) {
    && HitsClear(cx, Code, sql, CORE_PLACEHOLDER)
    && HitsClear(cx, Code, Replace(sql, CORE_PLACEHOLDER, core), PLUGIN_PLACEHOLDER)
  }

  /**
   Substituting and then cutting gives the same segments as cutting and then substituting in each,
   whenever no replaced placeholder is read where a dollar tag may be open.
   */
  lemma CuttingCommutesWithSubstitution(cx: Chars, sql: string, core: string, plugin: string)
    requires Sane(cx) && Identifier(cx, core) && Identifier(cx, plugin) && RenderedInStep(cx, sql, core)
    ensures Segments(cx, Code, RenderText(sql, core, plugin)) == RenderAll(Segments(cx, Code, sql), core, plugin)
    ensures Read(cx, Code, RenderText(sql, core, plugin)) == Read(cx, Code, sql)
  {
    PlaceholdersArePlain(cx);
    ReplaceCommutes(cx, Code, sql, CORE_PLACEHOLDER, core);
    ReplaceCommutes(cx, Code, Replace(sql, CORE_PLACEHOLDER, core), PLUGIN_PLACEHOLDER, plugin);
    RenderAllIsTwice(Segments(cx, Code, sql), core, plugin);
  }

  /** It is enough that the template has no brace where a tag may be open. */
  lemma ClearTemplatesRenderInStep(cx: Chars, sql: string, core: string)
    requires Sane(cx) && Identifier(cx, core) && BracesClear(cx, Code, sql)
    ensures RenderedInStep(cx, sql, core)
  {
    PlaceholdersArePlain(cx);
    ClearBracesClearHits(cx, Code, sql, CORE_PLACEHOLDER);
    ReplaceKeepsClear(cx, Code, sql, CORE_PLACEHOLDER, core);
    ClearBracesClearHits(cx, Code, Replace(sql, CORE_PLACEHOLDER, core), PLUGIN_PLACEHOLDER);
  }

  /** In particular that it has no '$' at all. */
  lemma {:induction false} NoDollarIsClear(cx: Chars, m: Mode, sql: string)
    requires !ModeHot(m) && forall k :: 0 <= k < |sql| ==> sql[k] != '$'
    ensures BracesClear(cx, m, sql)
    decreases |sql|
  {
    if sql == "" {
    } else {
      NoDollarIsClear(cx, Next(cx, m, sql[0]), sql[1..]);
    }
  }

  const AFTER_DOLLAR := "$" + CORE_PLACEHOLDER

  /** The condition is sufficient, not necessary: a placeholder in an open tag may do no harm. */
  lemma OutOfStepMayCommute(cx: Chars, core: string)
    requires Sane(cx) && Identifier(cx, core)
    ensures !HitsClear(cx, Code, AFTER_DOLLAR, CORE_PLACEHOLDER)
    ensures Replace(AFTER_DOLLAR, CORE_PLACEHOLDER, core) == "$" + core
    ensures Segments(cx, Code, Replace(AFTER_DOLLAR, CORE_PLACEHOLDER, core))
         == ReplaceAll(Segments(cx, Code, AFTER_DOLLAR), CORE_PLACEHOLDER, core)
  {
    PlaceholdersArePlain(cx);
    OutOfStep(cx, AFTER_DOLLAR, CORE_PLACEHOLDER, core);
  }

  lemma OutOfStep(cx: Chars, s: string, pat: string, with: string)
    requires Sane(cx) && Placeholder(cx, pat) && Identifier(cx, with) && s == "$" + pat
    ensures !HitsClear(cx, Code, s, pat) && Replace(s, pat, with) == "$" + with
    ensures Segments(cx, Code, Replace(s, pat, with)) == ReplaceAll(Segments(cx, Code, s), pat, with)
  {
    assert s[0] == '$' && s[1..] == pat && !(pat <= s);
    assert pat[|pat|..] == "";
    assert Replace(pat, pat, with) == with + "" == with;
    IdentifierIsPlain(cx, with);
    NoSemicolonNoCut(cx, Code, s);
    NoSemicolonNoCut(cx, Code, "$" + with);
    NoCutIsOneSegment(cx, Code, s);
    NoCutIsOneSegment(cx, Code, "$" + with);
    assert [s][1..] == [];
    assert HitsClear(cx, Code, s, pat) == HitsClear(cx, Tag("$"), pat, pat);
  }

  lemma {:induction false} NoSemicolonNoCut(cx: Chars, m: Mode, s: string)
    requires forall k :: 0 <= k < |s| ==> s[k] != ';'
    ensures NoCut(cx, m, s)
    decreases |s|
  {
    if s == "" {
    } else {
      NoSemicolonNoCut(cx, Next(cx, m, s[0]), s[1..]);
    }
  }

  /** A placeholder between two '$'. */
  const HALF := "$" + CORE_PLACEHOLDER + "$"

  /** The condition is needed: a schema name next to '$' can complete a tag and swallow a semicolon. */
  lemma SubstitutionCanHideACut(cx: Chars)
    requires Sane(cx) && cx.alnum('s') && cx.alnum('p')
    ensures |Segments(cx, Code, HALF + ";" + HALF)| > 1
    ensures |Segments(cx, Code, RenderText(HALF + ";" + HALF, "sp", "demo"))| == 1
  {
    var sql := HALF + ";" + HALF;
    HalfIsCode(cx);
    assert sql[..|HALF|] == HALF && sql[|HALF|] == ';';
    EveryCodeSemicolonCuts(cx, Code, sql, |HALF|);
    RenderHalves(cx);
    RenderedIsOneSegment(cx);
  }

  lemma RenderedIsOneSegment(cx: Chars)
    requires Sane(cx) && cx.alnum('s') && cx.alnum('p')
    ensures |Segments(cx, Code, "$sp$;$sp$")| == 1
  {
    var s := "$sp$;$sp$";
    assert s[..4] == "$sp$" == s[5..9];
    assert s[4..8][0] == ';';
    DollarToken(cx, s, 4, 5);
    assert s[..9] == s;
    NoCutIsOneSegment(cx, Code, s);
  }

  lemma {:induction false} ReplaceSkips(a: string, rest: string, pat: string, with: string)
    requires pat != "" && pat[0] == '{' && forall k :: 0 <= k < |a| ==> a[k] != '{'
    ensures Replace(a + rest, pat, with) == a + Replace(rest, pat, with)
  {
    if a == "" {
      assert a + rest == rest;
    } else {
      assert (a + rest)[1..] == a[1..] + rest;
      ReplaceSkips(a[1..], rest, pat, with);
    }
  }

  lemma ReplaceHits(rest: string, pat: string, with: string)
    requires pat != ""
    ensures Replace(pat + rest, pat, with) == with + Replace(rest, pat, with)
  {
    assert (pat + rest)[|pat|..] == rest;
  }

  lemma ReplaceHalf(rest: string, pat: string, with: string)
    requires pat != "" && pat[0] == '{'
    ensures Replace("$" + pat + rest, pat, with) == "$" + with + Replace(rest, pat, with)
  {
    assert "$" + pat + rest == "$" + (pat + rest);
    ReplaceSkips("$", pat + rest, pat, with);
    ReplaceHits(rest, pat, with);
  }

  lemma ReplaceSecondHalf(pat: string, with: string)
    requires pat != "" && pat[0] == '{'
    ensures Replace("$;" + ("$" + pat + "$"), pat, with) == "$;" + ("$" + with + "$")
  {
    ReplaceSkips("$;", "$" + pat + "$", pat, with);
    ReplaceHalf("$", pat, with);
    ReplaceSkips("$", "", pat, with);
    assert "$" + "" == "$";
  }

  lemma ReplaceHalves(pat: string, with: string)
    requires pat != "" && pat[0] == '{'
    ensures var half := "$" + pat + "$";
            Replace(half + ";" + half, pat, with) == "$" + with + ("$;" + ("$" + with + "$"))
  {
    var tail := "$;" + ("$" + pat + "$");
    ReplaceHalf(tail, pat, with);
    ReplaceSecondHalf(pat, with);
    JoinHalves(pat);
  }

  lemma JoinHalves(pat: string)
    ensures var half := "$" + pat + "$";
            half + ";" + half == "$" + pat + ("$;" + ("$" + pat + "$"))
  {
  }

  lemma RenderHalves(cx: Chars)
    requires Sane(cx)
    ensures RenderText(HALF + ";" + HALF, "sp", "demo") == "$sp$;$sp$"
  {
    PlaceholdersArePlain(cx);
    ReplaceHalves(CORE_PLACEHOLDER, "sp");
    assert "$" + "sp" + ("$;" + ("$" + "sp" + "$")) == "$sp$;$sp$";
    ReplaceSkips("$sp$;$sp$", "", PLUGIN_PLACEHOLDER, "demo");
    assert "$sp$;$sp$" + "" == "$sp$;$sp$";
  }

  lemma BraceLeavesTag(cx: Chars, pat: string)
    requires Sane(cx) && Placeholder(cx, pat) && |pat| > 1
    ensures Read(cx, Tag("$"), pat) == Code
  {
    assert Special('{') && Next(cx, Tag("$"), '{') == Code;
    assert pat == [pat[0]] + pat[1..];
    OneChar(cx, Tag("$"), '{');
    ReadAppend(cx, Tag("$"), [pat[0]], pat[1..]);
    PlainTextSettles(cx, Code, pat[1..]);
  }

  lemma HalfIsCode(cx: Chars)
    requires Sane(cx)
    ensures InCode(Read(cx, Code, HALF))
  {
    PlaceholdersArePlain(cx);
    BraceLeavesTag(cx, CORE_PLACEHOLDER);
    DollarAround(cx, CORE_PLACEHOLDER);
  }

  lemma DollarAround(cx: Chars, pat: string)
    requires Read(cx, Tag("$"), pat) == Code
    ensures Read(cx, Code, "$" + pat + "$") == Tag("$")
  {
    OneChar(cx, Code, '$');
    ReadAppend(cx, Code, "$", pat);
    ReadAppend(cx, Code, "$" + pat, "$");
  }

  // ---- transaction keywords ---------------------------------------------------------

  /**
   The keyword check looks for the end of a leading block comment one character too early: it
   agrees with the cutter exactly when the comment does not open with the three characters of `/` `*` `/`.
   */
  lemma CommentEndsAgreeIff(body: string)
    requires "/*" <= body && Find(body, "*/", 2).Some?
    ensures Find(body, "*/", 0) == Find(body, "*/", 2) <==> !("/*/" <= body)
  {
    var early, late := Find(body, "*/", 0), Find(body, "*/", 2);
    assert body[0] == '/' && body[1] == '*';
    assert !At(body, "*/", 0) by { assert body[0..2][0] == '/'; }
    assert |body| > 2 && body[2] == '/' ==> body[1..3] == "*/";
    assert At(body, "*/", 1) ==> body[1..3][1] == '/';
    assert At(body, "*/", 1) <==> "/*/" <= body;
  }

  /** No leading block comment, as the check meets them, opens that way. */
  predicate OrdinaryComments(cx: Chars, body: string)
    decreases |body|
  {
    if "--" <= body then
      var nl := Find(body, "\n", 0);
      nl.Some? ==>
        (LStripShrinks(cx, body[nl.value + 1..]); OrdinaryComments(cx, LStrip(cx, body[nl.value + 1..])))
    else if "/*" <= body then
      && !("/*/" <= body)
      && var end := Find(body, "*/", 2);
         end.Some? ==>
           (LStripShrinks(cx, body[end.value + 2..]); OrdinaryComments(cx, LStrip(cx, body[end.value + 2..])))
    else true
  }

  /** The first two characters of a comment do not end it; the next one may seem to. */
  lemma CommentStartsOpen(body: string)
    requires "/*" <= body
    ensures !At(body, "*/", 0) && (At(body, "*/", 1) ==> "/*/" <= body)
  {
    assert body[0..2] == [body[0], body[1]];
    if |body| > 2 { assert body[1..3] == [body[1], body[2]]; }
  }

  /** For such statements the check reads the first word after the comments the cutter sees. */
  lemma {:induction false} KeywordCheckSeesPastComments(cx: Chars, body: string)
    requires OrdinaryComments(cx, body)
    ensures SkipComments(cx, body, 0) == SkipComments(cx, body, 2)
    decreases |body|
  {
    if "--" <= body {
      var nl := Find(body, "\n", 0);
      if nl.Some? {
        LStripShrinks(cx, body[nl.value + 1..]);
        KeywordCheckSeesPastComments(cx, LStrip(cx, body[nl.value + 1..]));
      }
    } else if "/*" <= body {
      var end := Find(body, "*/", 2);
      CommentStartsOpen(body);
      if end.Some? {
        CommentEndsAgreeIff(body);
        LStripShrinks(cx, body[end.value + 2..]);
        KeywordCheckSeesPastComments(cx, LStrip(cx, body[end.value + 2..]));
      }
    }
  }

  const HIDDEN := "/*/ */ BEGIN"

  lemma HiddenEnds()
    ensures Find(HIDDEN, "*/", 0) == Some(1) && Find(HIDDEN, "*/", 2) == Some(4)
  {
    assert HIDDEN[1..3] == "*/" && HIDDEN[4..6] == "*/";
    assert !At(HIDDEN, "*/", 0) by { assert HIDDEN[0..2][0] == '/'; }
    assert !At(HIDDEN, "*/", 2) by { assert HIDDEN[2..4][0] == '/'; }
    assert !At(HIDDEN, "*/", 3) by { assert HIDDEN[3..5][0] == ' '; }
    assert At(HIDDEN, "*/", 1) && At(HIDDEN, "*/", 4);
  }

  lemma StripOneSpace(cx: Chars, s: string)
    requires cx.space(' ') && s != "" && !cx.space(s[0])
    ensures LStrip(cx, s) == s && LStrip(cx, " " + s) == s
  {
    assert (" " + s)[1..] == s;
  }

  lemma AfterOneComment(cx: Chars, body: string, from: nat, end: nat)
    requires "/*" <= body && from <= 2 && Find(body, "*/", from) == Some(end)
    ensures end + 2 <= |body| && SkipComments(cx, body, from) == SkipComments(cx, LStrip(cx, body[end + 2..]), from)
  {
  }

  lemma TwoReadings(cx: Chars, s: string, early: string, late: string)
    requires "/*" <= s && Find(s, "*/", 0) == Some(1) && Find(s, "*/", 2) == Some(4)
    requires s[3..] == " " + early && s[6..] == " " + late
    requires cx.space(' ') && |early| >= 2 && early[0] == '*' && |late| >= 2 && late[0] == 'B'
    requires !cx.space('*') && !cx.space('B') && !cx.space('/')
    ensures SkipComments(cx, s, 0) == Some(early) && SkipComments(cx, s, 2) == Some(late) && LStrip(cx, s) == s
  {
    AfterOneComment(cx, s, 0, 1);
    AfterOneComment(cx, s, 2, 4);
    StripOneSpace(cx, early);
    StripOneSpace(cx, late);
    StripOneSpace(cx, s);
    NoComment(cx, late, 2);
    NoComment(cx, early, 0);
  }

  lemma NoWord(cx: Chars, s: string)
    requires Sane(cx) && s != "" && s[0] == '*'
    ensures Keyword(cx, s) == ""
  {
  }

  /** Such a comment misleads the check: the cutter sees a comment and then BEGIN, the check sees no word at all. */
  lemma KeywordCanHide(cx: Chars, s: string)
    requires Sane(cx) && cx.space(' ') && cx.alnum('B') && s == HIDDEN
    ensures SkipComments(cx, s, 2) == Some("BEGIN") && !Rejected(cx, s)
  {
    HiddenEnds();
    assert s[0..2] == "/*";
    var early, late := s[3..][1..], s[6..][1..];
    assert s[3..] == " " + early && s[6..] == " " + late && late == "BEGIN";
    TwoReadings(cx, s, early, late);
    NoWord(cx, early);
  }

  lemma NoComment(cx: Chars, body: string, from: nat)
    requires from <= 2 && |body| >= 2 && body[0] != '-' && body[0] != '/'
    ensures SkipComments(cx, body, from) == Some(body)
  {
  }
}
