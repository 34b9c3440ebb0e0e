/** Which statements the transaction-keyword check rejects, and what it takes for a leading comment. */
module SqlKeywords {
  import opened Common
  import opened Text
  import opened SqlLexer
  import opened SqlTemplates
  import opened SqlLaws

  // ---- the first word ------------------------------------------------------------

  function Upper(cx: Chars, word: string): string {
    if word == "" then "" else cx.upper(word[0]) + Upper(cx, word[1..])
  }

  /** The letters at the start of `s`, and no more. */
  predicate FirstWord(cx: Chars, s: string, n: nat) {
    n <= |s| && (forall k :: 0 <= k < n ==> cx.alpha(s[k])) && (n < |s| ==> !cx.alpha(s[n]))
  }

  lemma {:induction false} KeywordIs(cx: Chars, s: string, n: nat)
    requires FirstWord(cx, s, n)
    ensures Keyword(cx, s) == Upper(cx, s[..n])
  {
    if n == 0 {
    } else {
      assert cx.alpha(s[0]);
      assert s[..n][0] == s[0] && s[..n][1..] == s[1..][..n - 1];
      forall k | 0 <= k < n - 1 ensures cx.alpha(s[1..][k]) {
        assert s[1..][k] == s[k + 1];
      }
      KeywordIs(cx, s[1..], n - 1);
    }
  }

  lemma {:induction false} FirstWordExists(cx: Chars, s: string) returns (n: nat)
    ensures FirstWord(cx, s, n)
  {
    n := 0;
    if s != "" && cx.alpha(s[0]) {
      var m := FirstWordExists(cx, s[1..]);
      n := m + 1;
      forall k | 0 <= k < n ensures cx.alpha(s[k]) {
        if k > 0 { assert s[1..][k - 1] == s[k]; }
      }
      if n < |s| { assert s[1..][m] == s[n]; }
    }
  }

  /**
   Rejected exactly if the first word after the leading comments spells one of the four keywords,
   whatever its case.
   */
  lemma RejectedIff(cx: Chars, statement: string)
    ensures Rejected(cx, statement)
            <==> exists rest, n ::
                   && SkipComments(cx, LStrip(cx, statement), 0) == Some(rest) && FirstWord(cx, rest, n)
                   && Upper(cx, rest[..n]) in {"BEGIN", "COMMIT", "ROLLBACK", "START"}
  {
    forall rest, n | SkipComments(cx, LStrip(cx, statement), 0) == Some(rest) && FirstWord(cx, rest, n)
      ensures Keyword(cx, rest) == Upper(cx, rest[..n])
    {
      KeywordIs(cx, rest, n);
    }
    var body := SkipComments(cx, LStrip(cx, statement), 0);
    if body.Some? {
      var n := FirstWordExists(cx, body.value);
      assert FirstWord(cx, body.value, n);
    }
  }

  /** A statement that starts with such a word is rejected as it stands. */
  lemma PlainKeywordsAreRejected(cx: Chars, word: string, rest: string)
    requires Sane(cx) && word != "" && (forall k :: 0 <= k < |word| ==> cx.alpha(word[k]))
    requires rest != "" ==> !cx.alpha(rest[0])
    ensures Rejected(cx, word + rest) <==> Upper(cx, word) in {"BEGIN", "COMMIT", "ROLLBACK", "START"}
  {
    var s := word + rest;
    assert cx.alpha(s[0]) && cx.alnum(s[0]);
    assert LStrip(cx, s) == s && !("--" <= s) && !("/*" <= s);
    assert s[..|word|] == word;
    assert FirstWord(cx, s, |word|) by {
      forall k | 0 <= k < |word| ensures cx.alpha(s[k]) { assert s[k] == word[k]; }
    }
    KeywordIs(cx, s, |word|);
  }

  // ---- leading comments -------------------------------------------------------------

  /** `lead` is comments and white space: the reader goes through it without a cut and is back in code. */
  ghost predicate SkippedOver(cx: Chars, body: string, lead: string, rest: string) {
    body == lead + rest && Read(cx, Code, lead) == Code && NoCut(cx, Code, lead)
  }

  lemma SkipsOn(cx: Chars, body: string, n: nat, lead: string, rest: string)
    requires Sane(cx) && n <= |body| && Read(cx, Code, body[..n]) == Code && NoCut(cx, Code, body[..n])
    requires SkippedOver(cx, LStrip(cx, body[n..]), lead, rest)
    ensures exists longer :: SkippedOver(cx, body, longer, rest)
  {
    var space := LStripSplits(cx, body[n..]);
    SpaceStaysInCode(cx, space);
    var longer := body[..n] + (space + lead);
    ReadAppend(cx, Code, space, lead);
    ReadAppend(cx, Code, body[..n], space + lead);
    assert body == body[..n] + (space + (lead + rest));
    assert body == longer + rest;
    assert SkippedOver(cx, body, longer, rest);
  }

  lemma LineIsSkipped(cx: Chars, body: string, nl: nat)
    requires "--" <= body && Find(body, "\n", 0) == Some(nl)
    ensures nl + 1 <= |body| && Read(cx, Code, body[..nl + 1]) == Code && NoCut(cx, Code, body[..nl + 1])
  {
    assert body[nl..nl + 1] == "\n";
    assert body[0] == '-' && body[1] == '-' && nl >= 2;
    var inner := body[2..nl];
    forall k | 0 <= k < |inner| ensures inner[k] != '\n' {
      assert !At(body, "\n", k + 2);
      assert body[k + 2..k + 3] == [inner[k]];
    }
    InLine(cx, inner);
    TwoChars(cx, Code, '-', '-');
    ReadAppend(cx, Code, "--", inner);
    OneChar(cx, Line, '\n');
    ReadAppend(cx, Code, "--" + inner, "\n");
    assert body[..nl + 1] == "--" + inner + "\n";
  }

  lemma BlockIsSkipped(cx: Chars, body: string, end: nat)
    requires "/*" <= body && Find(body, "*/", 2) == Some(end)
    ensures end + 2 <= |body| && Read(cx, Code, body[..end + 2]) == Code && NoCut(cx, Code, body[..end + 2])
  {
    var inner := body[2..end];
    forall k ensures !At(inner, "*/", k) {
      AtInSlice(body, 2, end, "*/", k);
    }
    InBlock(cx, Block, inner);
    TwoChars(cx, Code, '/', '*');
    ReadAppend(cx, Code, "/*", inner);
    TwoChars(cx, Read(cx, Block, inner), '*', '/');
    ReadAppend(cx, Code, "/*" + inner, "*/");
    assert body[end..end + 2] == "*/";
    assert body[..end + 2] == "/*" + inner + "*/";
  }

  /**
   For ordinary comments the check looks at exactly what the reader reads in code: it goes past comments and white
   space only, and past all of them.
   */
  lemma {:induction false} CheckStartsInCode(cx: Chars, body: string)
    requires Sane(cx) && OrdinaryComments(cx, body) && SkipComments(cx, body, 0).Some?
    ensures var rest := SkipComments(cx, body, 0).value;
            && (exists lead :: SkippedOver(cx, body, lead, rest))
            && !("--" <= rest) && !("/*" <= rest)
    decreases |body|
  {
    KeywordCheckSeesPastComments(cx, body);
    if "--" <= body {
      SkipsLine(cx, body, 0);
      var nl := Find(body, "\n", 0).value;
      var after := LStrip(cx, body[nl + 1..]);
      LStripShrinks(cx, body[nl + 1..]);
      CheckStartsInCode(cx, after);
      var rest := SkipComments(cx, body, 0).value;
      var lead :| SkippedOver(cx, after, lead, rest);
      LineIsSkipped(cx, body, nl);
      SkipsOn(cx, body, nl + 1, lead, rest);
    } else if "/*" <= body {
      AfterBlock(cx, body);
    } else {
      assert body == "" + body;
      assert SkippedOver(cx, body, "", body);
    }
  }

  lemma {:induction false} AfterBlock(cx: Chars, body: string)
    requires Sane(cx) && OrdinaryComments(cx, body) && SkipComments(cx, body, 0).Some? && "/*" <= body
    ensures var rest := SkipComments(cx, body, 0).value;
            && (exists lead :: SkippedOver(cx, body, lead, rest))
            && !("--" <= rest) && !("/*" <= rest)
    decreases |body|, 0
  {
    KeywordCheckSeesPastComments(cx, body);
    SkipsBlock(cx, body, 2);
    var end := Find(body, "*/", 2).value;
    var after := LStrip(cx, body[end + 2..]);
    LStripShrinks(cx, body[end + 2..]);
    KeywordCheckSeesPastComments(cx, after);
    CheckStartsInCode(cx, after);
    var rest := SkipComments(cx, body, 0).value;
    var lead :| SkippedOver(cx, after, lead, rest);
    BlockIsSkipped(cx, body, end);
    SkipsOn(cx, body, end + 2, lead, rest);
  }
}
