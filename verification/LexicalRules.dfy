/** What the reader makes of each lexical form: text inside a form never cuts, and the form ends where it closes. */
module LexicalRules {
  import opened Common
  import opened Text
  import opened SqlLexer
  import opened SqlTemplates

  /** `text` is read from code back to code without a cut. */
  predicate Whole(cx: Chars, text: string) {
    Read(cx, Code, text) == Code && NoCut(cx, Code, text)
  }

  /** `text` cannot end a statement list: something in it is still open. */
  predicate LeftOpen(cx: Chars, text: string) {
    !Closed(Read(cx, Code, text)) && NoCut(cx, Code, text)
  }

  lemma {:induction false} InQuotes(cx: Chars, q: char, body: string)
    requires forall k :: 0 <= k < |body| ==> body[k] != q
    ensures Read(cx, Quote(q), body) == Quote(q) && NoCut(cx, Quote(q), body)
  {
    if body == "" {
    } else {
      InQuotes(cx, q, body[1..]);
    }
  }

  /** Single and double quotes hold everything up to the same mark. */
  lemma QuotesHold(cx: Chars, q: char, body: string)
    requires (q == '\'' || q == '"') && forall k :: 0 <= k < |body| ==> body[k] != q
    ensures Whole(cx, [q] + body + [q]) && LeftOpen(cx, [q] + body)
  {
    OneChar(cx, Code, q);
    InQuotes(cx, q, body);
    ReadAppend(cx, Code, [q], body);
    OneChar(cx, Quote(q), q);
    ReadAppend(cx, Code, [q] + body, [q]);
  }

  /** A line comment holds everything up to the end of its line, and may be the end of the text. */
  lemma LineCommentsHold(cx: Chars, body: string)
    requires forall k :: 0 <= k < |body| ==> body[k] != '\n'
    ensures Whole(cx, "--" + body + "\n")
    ensures Closed(Read(cx, Code, "--" + body)) && NoCut(cx, Code, "--" + body)
  {
    InLine(cx, body);
    TwoChars(cx, Code, '-', '-');
    ReadAppend(cx, Code, "--", body);
    OneChar(cx, Line, '\n');
    ReadAppend(cx, Code, "--" + body, "\n");
  }

  /** A block comment holds everything up to the first end mark. */
  lemma BlockCommentsHold(cx: Chars, body: string)
    requires forall k :: !At(body, "*/", k)
    ensures Whole(cx, "/*" + body + "*/") && LeftOpen(cx, "/*" + body)
  {
    InBlock(cx, Block, body);
    TwoChars(cx, Code, '/', '*');
    ReadAppend(cx, Code, "/*", body);
    var m := Read(cx, Code, "/*" + body);
    TwoChars(cx, m, '*', '/');
    ReadAppend(cx, Code, "/*" + body, "*/");
  }

  /** A dollar tag holds everything up to its first repetition. */
  lemma DollarTagsHold(cx: Chars, word: string, body: string)
    requires Sane(cx) && forall k :: 0 <= k < |word| ==> cx.alnum(word[k]) || word[k] == '_'
    requires forall k :: k < |body| ==> !At(body + ("$" + word + "$"), "$" + word + "$", k)
    ensures var tag := "$" + word + "$"; Whole(cx, tag + body + tag) && LeftOpen(cx, tag + body)
  {
    var tag := "$" + word + "$";
    assert IsTag(cx, tag) by { WordTag(cx, word); }
    var open := tag + body;
    assert open[..|tag|] == tag;
    TagRead(cx, open, |tag|);
    forall k ensures !At(body, tag, k) { AtInPrefix(body, tag, tag, k); }
    InDollar(cx, tag, body);
    ReadAppend(cx, Code, tag, body);
    ClosingTag(cx, tag, body);
    ReadAppend(cx, Code, tag, body + tag);
    assert tag + (body + tag) == tag + body + tag;
  }

  lemma WordTag(cx: Chars, word: string)
    requires Sane(cx) && forall k :: 0 <= k < |word| ==> cx.alnum(word[k]) || word[k] == '_'
    ensures IsTag(cx, "$" + word + "$")
  {
    var tag := "$" + word + "$";
    forall k | 1 <= k < |tag| - 1 ensures TagChar(cx, tag[k]) {
      assert tag[k] == word[k - 1];
    }
  }

  lemma ClosingTag(cx: Chars, tag: string, body: string)
    requires Sane(cx) && IsTag(cx, tag) && forall k :: k < |body| ==> !At(body + tag, tag, k)
    ensures Read(cx, Dollar(tag, None), body + tag) == Code && NoCut(cx, Dollar(tag, None), body + tag)
  {
    var almost := body + tag[..|tag| - 1];
    NoEarlyTag(cx, tag, body, almost);
    DollarCloses(cx, tag, almost);
  }

  lemma NoEarlyTag(cx: Chars, tag: string, body: string, almost: string)
    requires IsTag(cx, tag) && almost == body + tag[..|tag| - 1] && forall k :: k < |body| ==> !At(body + tag, tag, k)
    ensures almost + "$" == body + tag && |almost| >= |tag| - 1
    ensures almost[|almost| - (|tag| - 1)..] == tag[..|tag| - 1]
    ensures forall k :: !At(almost, tag, k)
  {
    assert tag == tag[..|tag| - 1] + "$";
    assert almost + "$" == body + tag;
    forall k ensures !At(almost, tag, k) {
      AtInPrefix(almost, "$", tag, k);
    }
  }

  /** Anything else in code is code, and of it only a semicolon cuts. */
  lemma PlainCode(cx: Chars, c: char)
    requires c !in {'-', '/', '\'', '"', '$'}
    ensures Read(cx, Code, [c]) == Code && (NoCut(cx, Code, [c]) <==> c != ';')
  {
    OneChar(cx, Code, c);
  }

  /** A lone '-', '/' or '$' opens nothing: what follows it is read as if from code. */
  lemma LoneMarks(cx: Chars, mark: char, c: char)
    requires mark in {'-', '/', '$'}
    requires c != mark && c != '*' && !TagChar(cx, c)
    ensures Read(cx, Code, [mark, c]) == Read(cx, Code, [c]) && (NoCut(cx, Code, [mark, c]) <==> c != ';')
  {
    TwoChars(cx, Code, mark, c);
    OneChar(cx, Code, c);
  }
}
