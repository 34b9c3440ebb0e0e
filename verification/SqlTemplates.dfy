/**
 The lookahead scanner of `split_sql_statements` and the renderer of plugin SQL, against the
 character-by-character reading of `SqlLexer`.
 */
module SqlTemplates {
  import opened Common
  import opened Text
  import opened SqlLexer

  // ---- tokens, read character by character -----------------------------------

  /** From code, the first `n` characters are read without a cut, and reading goes on in code. */
  ghost predicate Token(cx: Chars, s: string, n: nat) {
    && n <= |s|
    && NoCut(cx, Code, s[..n])
    && Segments(cx, Read(cx, Code, s[..n]), s[n..]) == Segments(cx, Code, s[n..])
    && Closed(Read(cx, Read(cx, Code, s[..n]), s[n..])) == Closed(Read(cx, Code, s[n..]))
  }

  lemma TokenSplits(cx: Chars, s: string, n: nat)
    requires Token(cx, s, n)
    ensures Segments(cx, Code, s) == Prepend(s[..n], Segments(cx, Code, s[n..]))
    ensures Closed(Read(cx, Code, s)) == Closed(Read(cx, Code, s[n..]))
  {
    assert s == s[..n] + s[n..];
    SegmentsAppend(cx, Code, s[..n], s[n..]);
    ReadAppend(cx, Code, s[..n], s[n..]);
  }

  lemma {:induction false} InLine(cx: Chars, s: string)
    requires forall k :: 0 <= k < |s| ==> s[k] != '\n'
    ensures Read(cx, Line, s) == Line && NoCut(cx, Line, s)
  {
    if s != "" { InLine(cx, s[1..]); }
  }

  lemma AtInSlice(s: string, from: nat, to: nat, pat: string, k: int)
    requires from <= to <= |s|
    ensures At(s[from..to], pat, k) ==> At(s, pat, from + k)
  {
    if At(s[from..to], pat, k) {
      forall i | 0 <= i < |pat| ensures s[from + k..from + k + |pat|][i] == pat[i] {
        assert s[from..to][k..k + |pat|][i] == s[from..to][k + i];
      }
    }
  }

  lemma StarSlash(s: string)
    ensures |s| > 1 && s[0] == '*' && s[1] == '/' ==> At(s, "*/", 0)
  {
    if |s| > 1 { assert s[0..2] == [s[0], s[1]]; }
  }

  lemma {:induction false} InBlock(cx: Chars, m: Mode, s: string)
    requires m in {Block, Star}
    requires forall k :: !At(s, "*/", k)
    requires m == Star && s != "" ==> s[0] != '/'
    ensures Read(cx, m, s) in {Block, Star} && NoCut(cx, m, s)
    decreases |s|
  {
    if s == "" {
    } else {
      assert s[1..|s|] == s[1..];
      forall k ensures !At(s[1..], "*/", k) {
        AtInSlice(s, 1, |s|, "*/", k);
      }
      StarSlash(s);
      InBlock(cx, Next(cx, m, s[0]), s[1..]);
    }
  }

  lemma LineToken(cx: Chars, s: string, end: nat)
    requires |s| >= 2 && s[0] == '-' && s[1] == '-' && 2 <= end < |s| && s[end] == '\n'
    requires forall k :: 2 <= k < end ==> s[k] != '\n'
    ensures Token(cx, s, end + 1)
  {
    var body := s[2..end];
    InLine(cx, body);
    assert s[..end + 1] == "--" + (body + "\n");
    ReadAppend(cx, Line, body, "\n");
    ReadAppend(cx, Code, "--", body + "\n");
    TwoChars(cx, Code, '-', '-');
  }

  lemma OneChar(cx: Chars, m: Mode, c: char)
    ensures Read(cx, m, [c]) == Next(cx, m, c)
    ensures NoCut(cx, m, [c]) <==> !Cuts(m, c)
  {
    assert [c][1..] == "";
    assert Read(cx, Next(cx, m, c), "") == Next(cx, m, c);
  }

  lemma TwoChars(cx: Chars, m: Mode, c: char, d: char)
    ensures Read(cx, m, [c, d]) == Next(cx, Next(cx, m, c), d)
    ensures NoCut(cx, m, [c, d]) <==> !Cuts(m, c) && !Cuts(Next(cx, m, c), d)
  {
    OneChar(cx, m, c);
    OneChar(cx, Next(cx, m, c), d);
    assert [c, d] == [c] + [d];
    ReadAppend(cx, m, [c], [d]);
  }

  /** A line comment that ends with the text is a token as well. */
  lemma LastLineToken(cx: Chars, s: string)
    requires |s| >= 2 && s[0] == '-' && s[1] == '-'
    requires forall k :: 2 <= k < |s| ==> s[k] != '\n'
    ensures Token(cx, s, |s|)
  {
    InLine(cx, s[2..]);
    assert s[..|s|] == "--" + s[2..];
    ReadAppend(cx, Code, "--", s[2..]);
    TwoChars(cx, Code, '-', '-');
  }

  lemma BlockOpens(cx: Chars, s: string, body: string)
    requires |s| >= 2 && s[0] == '/' && s[1] == '*' && 2 + |body| <= |s| && s[2..2 + |body|] == body
    requires forall k :: !At(body, "*/", k)
    ensures NoCut(cx, Code, s[..2 + |body|]) && Read(cx, Code, s[..2 + |body|]) in {Block, Star}
  {
    InBlock(cx, Block, body);
    assert s[..2 + |body|] == "/*" + body;
    ReadAppend(cx, Code, "/*", body);
    TwoChars(cx, Code, '/', '*');
  }

  lemma BlockToken(cx: Chars, s: string, end: nat)
    requires |s| >= 2 && s[0] == '/' && s[1] == '*' && 2 <= end && At(s, "*/", end)
    requires forall k :: 2 <= k < end ==> !At(s, "*/", k)
    ensures Token(cx, s, end + 2)
  {
    var body := s[2..end];
    forall k ensures !At(body, "*/", k) {
      AtInSlice(s, 2, end, "*/", k);
    }
    BlockOpens(cx, s, body);
    var m := Read(cx, Code, s[..end]);
    assert s[end..end + 2] == "*/" && s[..end + 2] == s[..end] + "*/";
    ReadAppend(cx, Code, s[..end], "*/");
    TwoChars(cx, m, '*', '/');
  }

  lemma OpenBlock(cx: Chars, s: string)
    requires |s| >= 2 && s[0] == '/' && s[1] == '*'
    requires forall k :: 2 <= k ==> !At(s, "*/", k)
    ensures NoCut(cx, Code, s) && !Closed(Read(cx, Code, s))
  {
    var body := s[2..|s|];
    forall k ensures !At(body, "*/", k) {
      AtInSlice(s, 2, |s|, "*/", k);
    }
    BlockOpens(cx, s, body);
    assert s[..2 + |body|] == s;
  }

  /** A pending '-', '/' or unfinished tag changes nothing about the text that follows it. */
  lemma {:induction false} PendingIsCode(cx: Chars, m: Mode, s: string)
    requires Sane(cx) && (m == Dash || m == Slash || m.Tag?)
    requires m == Dash && s != "" ==> s[0] != '-'
    requires m == Slash && s != "" ==> s[0] != '*'
    requires m.Tag? ==> !OpensTag(cx, s)
    ensures Segments(cx, m, s) == Segments(cx, Code, s)
    ensures Closed(Read(cx, m, s)) == Closed(Read(cx, Code, s))
    decreases |s|
  {
    if s != "" && m.Tag? && TagChar(cx, s[0]) {
      PendingIsCode(cx, Tag(m.open + [s[0]]), s[1..]);
    }
  }

  /** After a '$', tag characters and a second '$' follow. */
  predicate OpensTag(cx: Chars, s: string) {
    s != "" && (s[0] == '$' || (TagChar(cx, s[0]) && OpensTag(cx, s[1..])))
  }

  predicate Lone(cx: Chars, s: string)
    requires s != ""
  {
    && s[0] !in {'\'', '"', ';'}
    && (s[0] == '-' ==> |s| == 1 || s[1] != '-')
    && (s[0] == '/' ==> |s| == 1 || s[1] != '*')
    && (s[0] == '$' ==> !OpensTag(cx, s[1..]))
  }

  lemma LoneToken(cx: Chars, s: string)
    requires Sane(cx) && s != "" && Lone(cx, s)
    ensures Token(cx, s, 1)
  {
    OneChar(cx, Code, s[0]);
    assert s[..1] == [s[0]];
    var m := FromCode(s[0]);
    if m != Code {
      PendingIsCode(cx, m, s[1..]);
    }
  }

  // ---- dollar quoting ----------------------------------------------------------

  predicate IsTag(cx: Chars, tag: string) {
    && |tag| >= 2 && tag[0] == '$' && tag[|tag| - 1] == '$'
    && forall k :: 1 <= k < |tag| - 1 ==> TagChar(cx, tag[k])
  }

  lemma {:induction false} TagOpens(cx: Chars, open: string, s: string, n: nat)
    requires Sane(cx) && n < |s| && s[n] == '$' && forall k :: 0 <= k < n ==> TagChar(cx, s[k])
    ensures Read(cx, Tag(open), s[..n + 1]) == Dollar(open + s[..n + 1], None)
    ensures NoCut(cx, Tag(open), s[..n + 1])
    decreases n
  {
    if n == 0 {
      assert s[..1] == [s[0]];
      OneChar(cx, Tag(open), '$');
    } else {
      assert s[..n + 1][1..] == s[1..][..n];
      TagOpens(cx, open + [s[0]], s[1..], n - 1);
      assert open + [s[0]] + s[1..][..n] == open + s[..n + 1];
    }
  }

  /** What a reader in a dollar body remembers: the last '$' and the tag characters after it. */
  function TailOf(cx: Chars, body: string): Option<string> {
    if body == "" then None else Tail(cx, TailOf(cx, body[..|body| - 1]), body[|body| - 1])
  }

  lemma {:induction false} TailIsSuffix(cx: Chars, body: string)
    ensures TailOf(cx, body).Some? ==>
              var t := TailOf(cx, body).value;
              1 <= |t| <= |body| && body[|body| - |t|..] == t && t[0] == '$'
  {
    if body == "" {
    } else {
      TailIsSuffix(cx, body[..|body| - 1]);
    }
  }

  lemma {:induction false} SuffixIsTail(cx: Chars, body: string, t: string)
    requires Sane(cx) && 1 <= |t| <= |body| && body[|body| - |t|..] == t && t[0] == '$'
    requires forall k :: 1 <= k < |t| ==> TagChar(cx, t[k])
    ensures TailOf(cx, body) == Some(t)
    decreases |t|
  {
    var last := |t| - 1;
    assert body[|body| - 1] == t[last];
    if |t| == 1 {
      assert t == "$";
    } else {
      var init := body[..|body| - 1];
      forall k | 0 <= k < last ensures init[|init| - last..][k] == t[..last][k] {
        assert body[|body| - |t|..][k] == body[|body| - |t| + k];
      }
      SuffixIsTail(cx, init, t[..last]);
      assert t[..last] + [t[last]] == t;
      assert !Special(t[last]) || t[last] == '_';
    }
  }

  lemma AtInPrefix(a: string, b: string, pat: string, k: int)
    ensures At(a, pat, k) ==> At(a + b, pat, k)
  {
    if At(a, pat, k) { assert (a + b)[k..k + |pat|] == a[k..k + |pat|]; }
  }

  lemma AtInSuffix(a: string, b: string, pat: string, k: int)
    ensures At(b, pat, k) ==> At(a + b, pat, |a| + k)
    ensures At(a + b, pat, |a| + k) && k >= 0 ==> At(b, pat, k)
  {
    if 0 <= k && k + |pat| <= |b| { assert (a + b)[|a| + k..|a| + k + |pat|] == b[k..k + |pat|]; }
  }

  lemma ClosingIsOccurrence(cx: Chars, tag: string, body: string)
    ensures TailOf(cx, body).Some? && TailOf(cx, body).value + "$" == tag
            ==> At(body + "$", tag, |body| + 1 - |tag|)
  {
    TailIsSuffix(cx, body);
    if TailOf(cx, body).Some? && TailOf(cx, body).value + "$" == tag {
      var from := |body| + 1 - |tag|;
      assert (body + "$")[from..from + |tag|] == body[from..] + "$";
    }
  }

  lemma {:induction false} InDollar(cx: Chars, tag: string, body: string)
    requires Sane(cx) && IsTag(cx, tag) && forall k :: !At(body, tag, k)
    ensures Read(cx, Dollar(tag, None), body) == Dollar(tag, TailOf(cx, body))
    ensures NoCut(cx, Dollar(tag, None), body)
  {
    if body == "" {
    } else {
      var init, c := body[..|body| - 1], body[|body| - 1];
      assert body == init + [c];
      forall k ensures !At(init, tag, k) {
        AtInPrefix(init, [c], tag, k);
      }
      InDollar(cx, tag, init);
      ReadAppend(cx, Dollar(tag, None), init, [c]);
      OneChar(cx, Dollar(tag, TailOf(cx, init)), c);
      ClosingIsOccurrence(cx, tag, init);
      assert c == '$' ==> body == init + "$";
    }
  }

  /** An opening tag of length `n`, read from code. */
  lemma TagRead(cx: Chars, s: string, n: nat)
    requires Sane(cx) && 2 <= n <= |s| && IsTag(cx, s[..n])
    ensures Read(cx, Code, s[..n]) == Dollar(s[..n], None) && NoCut(cx, Code, s[..n])
  {
    var t := s[1..n];
    TagOpens(cx, "$", t, n - 2);
    assert t[..n - 1] == t;
    assert s[..n] == "$" + t;
    OneChar(cx, Code, '$');
    ReadAppend(cx, Code, "$", t);
  }

  /** The body between an opening tag and the first closing one. */
  lemma DollarBody(s: string, n: nat, close: nat) returns (body: string)
    requires 2 <= n <= close && close + n <= |s| && At(s, s[..n], close) && s[n - 1] == '$'
    requires forall k :: n <= k < close ==> !At(s, s[..n], k)
    ensures s[..close + n] == s[..n] + (body + "$")
    ensures forall k :: !At(body, s[..n], k)
    ensures |body| >= n - 1 && body[|body| - (n - 1)..] == s[..n][..n - 1]
  {
    var tag := s[..n];
    body := s[n..close + n - 1];
    forall k ensures !At(body, tag, k) {
      AtInSuffix(tag, body, tag, k);
      AtInPrefix(tag + body, s[close + n - 1..], tag, n + k);
      assert tag + body + s[close + n - 1..] == s;
    }
    assert s[close..close + n] == tag;
    assert body[|body| - (n - 1)..] == s[close..close + n][..n - 1];
    assert s[close + n - 1] == tag[n - 1];
    assert s[..close + n] == tag + (body + [s[close + n - 1]]);
  }

  lemma TailIsTag(cx: Chars, tag: string, body: string)
    requires Sane(cx) && IsTag(cx, tag)
    requires |body| >= |tag| - 1 && body[|body| - (|tag| - 1)..] == tag[..|tag| - 1]
    ensures TailOf(cx, body) == Some(tag[..|tag| - 1])
  {
    var t := tag[..|tag| - 1];
    assert t[0] == '$' && forall k :: 1 <= k < |t| ==> TagChar(cx, t[k]);
    SuffixIsTail(cx, body, t);
  }

  /** A body that ends with all of the tag but its last '$' is closed by that '$'. */
  lemma DollarCloses(cx: Chars, tag: string, body: string)
    requires Sane(cx) && IsTag(cx, tag) && forall k :: !At(body, tag, k)
    requires |body| >= |tag| - 1 && body[|body| - (|tag| - 1)..] == tag[..|tag| - 1]
    ensures Read(cx, Dollar(tag, None), body + "$") == Code && NoCut(cx, Dollar(tag, None), body + "$")
  {
    var t := tag[..|tag| - 1];
    InDollar(cx, tag, body);
    TailIsTag(cx, tag, body);
    assert t + [tag[|tag| - 1]] == tag;
    ReadAppend(cx, Dollar(tag, None), body, "$");
    OneChar(cx, Dollar(tag, Some(t)), '$');
  }

  lemma DollarToken(cx: Chars, s: string, n: nat, close: nat)
    requires Sane(cx) && 2 <= n <= close && close + n <= |s| && IsTag(cx, s[..n]) && At(s, s[..n], close)
    requires forall k :: n <= k < close ==> !At(s, s[..n], k)
    ensures Token(cx, s, close + n)
  {
    var body := DollarBody(s, n, close);
    TagRead(cx, s, n);
    DollarCloses(cx, s[..n], body);
    ReadAppend(cx, Code, s[..n], body + "$");
  }

  lemma OpenDollar(cx: Chars, s: string, n: nat)
    requires Sane(cx) && 2 <= n <= |s| && IsTag(cx, s[..n])
    requires forall k :: n <= k ==> !At(s, s[..n], k)
    ensures NoCut(cx, Code, s) && !Closed(Read(cx, Code, s))
  {
    var tag, body := s[..n], s[n..];
    TagRead(cx, s, n);
    assert s == tag + body;
    forall k ensures !At(body, tag, k) {
      AtInSuffix(tag, body, tag, k);
    }
    InDollar(cx, tag, body);
    ReadAppend(cx, Code, tag, body);
  }

  // ---- the scanner -------------------------------------------------------------

  datatype SplitError = Unterminated | TransactionControl

  /** `_scan_quoted`: the end of the literal that opens at `start`. */
  method ScanQuoted(cx: Chars, sql: string, start: nat) returns (r: Result<nat, SplitError>)
    requires start < |sql| && sql[start] in {'\'', '"'}
    ensures r.Ok? ==> start < r.value <= |sql| && Token(cx, sql[start..], r.value - start)
    ensures r.Err? ==> r.error == Unterminated
                       && NoCut(cx, Code, sql[start..]) && !Closed(Read(cx, Code, sql[start..]))
  {
    var mark := sql[start];
    var j := start + 1;
    OneChar(cx, Code, mark);
    assert sql[start..j] == [mark];
    while j < |sql|
      invariant start < j <= |sql|
      invariant Read(cx, Code, sql[start..j]) == Quote(mark) && NoCut(cx, Code, sql[start..j])
    {
      OneChar(cx, Quote(mark), sql[j]);
      ReadAppend(cx, Code, sql[start..j], [sql[j]]);
      assert sql[start..j] + [sql[j]] == sql[start..j + 1];
      if sql[j] == mark {
        if j + 1 < |sql| && sql[j + 1] == mark {
          OneChar(cx, Code, mark);
          ReadAppend(cx, Code, sql[start..j + 1], [mark]);
          assert sql[start..j + 1] + [mark] == sql[start..j + 2];
          j := j + 2;
          continue;
        }
        assert sql[start..][..j + 1 - start] == sql[start..j + 1];
        return Ok(j + 1);
      }
      j := j + 1;
    }
    assert sql[start..j] == sql[start..];
    return Err(Unterminated);
  }

  /** `_dollar_tag`: the tag that opens at `start`, if one does. */
  method DollarTag(cx: Chars, sql: string, start: nat) returns (tag: Option<string>)
    requires Sane(cx)
    ensures tag.Some? ==> start < |sql| && tag.value <= sql[start..] && IsTag(cx, tag.value)
    ensures tag.Some? <==> start < |sql| && sql[start] == '$' && OpensTag(cx, sql[start + 1..])
  {
    if start >= |sql| || sql[start] != '$' {
      return None;
    }
    var i := start + 1;
    while i < |sql| && TagChar(cx, sql[i])
      invariant start < i <= |sql|
      invariant forall k :: start < k < i ==> TagChar(cx, sql[k])
      invariant OpensTag(cx, sql[start + 1..]) <==> OpensTag(cx, sql[i..])
    {
      i := i + 1;
    }
    if i < |sql| && sql[i] == '$' {
      tag := Some(sql[start..i + 1]);
    } else {
      tag := None;
    }
  }

  // ---- transaction keywords ------------------------------------------------------

  const TXN_KEYWORDS := {"BEGIN", "COMMIT", "ROLLBACK", "START"}

  /** The statement after its leading comments; `from` is where the end of a block comment is looked for. */
  function SkipComments(cx: Chars, body: string, from: nat): Option<string>
    requires from <= 2
    decreases |body|
  {
    if "--" <= body then
      var nl := Find(body, "\n", 0);
      if nl.None? then None
      else
        var rest := body[nl.value + 1..];
        LStripShrinks(cx, rest);
        SkipComments(cx, LStrip(cx, rest), from)
    else if "/*" <= body then
      var end := Find(body, "*/", from);
      if end.None? then None
      else
        var rest := body[end.value + 2..];
        LStripShrinks(cx, rest);
        SkipComments(cx, LStrip(cx, rest), from)
    else Some(body)
  }

  lemma LStripShrinks(cx: Chars, s: string)
    ensures |LStrip(cx, s)| <= |s|
  {
    var _ := LStripSplits(cx, s);
  }

  function Keyword(cx: Chars, body: string): string {
    if body != "" && cx.alpha(body[0]) then cx.upper(body[0]) + Keyword(cx, body[1..]) else ""
  }

  predicate Rejected(cx: Chars, statement: string) {
    var body := SkipComments(cx, LStrip(cx, statement), 0);
    body.Some? && Keyword(cx, body.value) in TXN_KEYWORDS
  }

  lemma SkipsLine(cx: Chars, body: string, from: nat)
    requires "--" <= body && from <= 2
    ensures SkipComments(cx, body, from)
         == match Find(body, "\n", 0)
            case None => None
            case Some(nl) => SkipComments(cx, LStrip(cx, body[nl + 1..]), from)
  {
  }

  lemma SkipsBlock(cx: Chars, body: string, from: nat)
    requires "/*" <= body && from <= 2
    ensures SkipComments(cx, body, from)
         == match Find(body, "*/", from)
            case None => None
            case Some(end) => SkipComments(cx, LStrip(cx, body[end + 2..]), from)
  {
  }

  method SkipLeadingComments(cx: Chars, statement: string) returns (r: Option<string>)
    ensures r == SkipComments(cx, statement, 0)
  {
    var body := statement;
    while "--" <= body || "/*" <= body
      invariant SkipComments(cx, body, 0) == SkipComments(cx, statement, 0)
      decreases |body|
    {
      if "--" <= body {
        SkipsLine(cx, body, 0);
        var nl := Find(body, "\n", 0);
        if nl.None? { return None; }
        LStripShrinks(cx, body[nl.value + 1..]);
        body := LStrip(cx, body[nl.value + 1..]);
        continue;
      }
      SkipsBlock(cx, body, 0);
      var end := Find(body, "*/", 0);
      if end.None? { return None; }
      LStripShrinks(cx, body[end.value + 2..]);
      body := LStrip(cx, body[end.value + 2..]);
    }
    r := Some(body);
  }

  method ReadKeyword(cx: Chars, body: string) returns (keyword: string)
    ensures keyword == Keyword(cx, body)
  {
    keyword := "";
    var k := 0;
    assert body[0..] == body;
    while k < |body| && cx.alpha(body[k])
      invariant 0 <= k <= |body|
      invariant keyword + Keyword(cx, body[k..]) == Keyword(cx, body)
    {
      assert body[k..][1..] == body[k + 1..];
      keyword := keyword + cx.upper(body[k]);
      k := k + 1;
    }
  }

  method RejectTransactionControl(cx: Chars, statement: string) returns (rejected: bool)
    ensures rejected <==> Rejected(cx, statement)
  {
    var body := SkipLeadingComments(cx, LStrip(cx, statement));
    if body.None? {
      return false;
    }
    var keyword := ReadKeyword(cx, body.value);
    rejected := keyword in TXN_KEYWORDS;
  }

  // ---- splitting -------------------------------------------------------------------

  /** The stripped segments that are not blank. */
  function Statements(cx: Chars, segs: seq<string>): seq<string> {
    if segs == [] then []
    else
      (if Strip(cx, segs[0]) != "" then [Strip(cx, segs[0])] else []) + Statements(cx, segs[1..])
  }

  predicate AnyRejected(cx: Chars, statements: seq<string>) {
    exists k :: 0 <= k < |statements| && Rejected(cx, statements[k])
  }

  function Split(cx: Chars, sql: string): Result<seq<string>, SplitError> {
    var segs := Segments(cx, Code, sql);
    if AnyRejected(cx, Statements(cx, segs[..|segs| - 1])) then Err(TransactionControl)
    else if !Closed(Read(cx, Code, sql)) then Err(Unterminated)
    else if AnyRejected(cx, Statements(cx, segs)) then Err(TransactionControl)
    else Ok(Statements(cx, segs))
  }

  lemma {:induction false} StatementsAppend(cx: Chars, a: seq<string>, b: seq<string>)
    ensures Statements(cx, a + b) == Statements(cx, a) + Statements(cx, b)
  {
    if a == [] {
      assert a + b == b;
    } else {
      assert (a + b)[1..] == a[1..] + b;
      StatementsAppend(cx, a[1..], b);
    }
  }

  /** The scan so far: `done` are the finished segments, `buf` the start of the current one. */
  ghost predicate Scanned(cx: Chars, sql: string, i: nat, done: seq<string>, buf: string) {
    && i <= |sql|
    && Segments(cx, Code, sql) == done + Prepend(buf, Segments(cx, Code, sql[i..]))
    && Closed(Read(cx, Code, sql)) == Closed(Read(cx, Code, sql[i..]))
  }

  lemma Advance(cx: Chars, sql: string, i: nat, n: nat, done: seq<string>, buf: string)
    requires Scanned(cx, sql, i, done, buf) && i + n <= |sql| && Token(cx, sql[i..], n)
    ensures Scanned(cx, sql, i + n, done, buf + sql[i..i + n])
  {
    var rest := sql[i..];
    TokenSplits(cx, rest, n);
    assert rest[n..] == sql[i + n..] && rest[..n] == sql[i..i + n];
    PrependTwice(buf, sql[i..i + n], Segments(cx, Code, sql[i + n..]));
  }

  lemma AdvanceCut(cx: Chars, sql: string, i: nat, done: seq<string>, buf: string)
    requires Sane(cx) && Scanned(cx, sql, i, done, buf) && i < |sql| && sql[i] == ';'
    ensures Scanned(cx, sql, i + 1, done + [buf], "")
  {
    var rest := sql[i..];
    assert rest[1..] == sql[i + 1..];
    var tail := Segments(cx, Code, sql[i + 1..]);
    assert Segments(cx, Code, rest) == [""] + tail;
    assert buf + "" == buf;
    assert Prepend(buf, [""] + tail) == [buf] + tail;
    PrependNothing(tail);
    assert done + ([buf] + tail) == done + [buf] + tail;
  }

  /** No cut is left: the rest of the text is the end of the last segment. */
  lemma ScanEnds(cx: Chars, sql: string, i: nat, done: seq<string>, buf: string)
    requires Scanned(cx, sql, i, done, buf) && NoCut(cx, Code, sql[i..])
    ensures Segments(cx, Code, sql) == done + [buf + sql[i..]]
  {
    NoCutIsOneSegment(cx, Code, sql[i..]);
  }

  lemma Shift(sql: string, pat: string, i: nat)
    requires i <= |sql|
    ensures forall k {:trigger At(sql[i..], pat, k)} :: k >= 0 ==> (At(sql[i..], pat, k) <==> At(sql, pat, i + k))
  {
    forall k | k >= 0 ensures At(sql[i..], pat, k) <==> At(sql, pat, i + k) {
      assert sql[..i] + sql[i..] == sql;
      AtInSuffix(sql[..i], sql[i..], pat, k);
    }
  }

  lemma BreakAt(sql: string, j: nat)
    requires j < |sql|
    ensures At(sql, "\n", j) <==> sql[j] == '\n'
  {
    assert sql[j..j + 1] == [sql[j]];
  }

  /** No line break in `sql[i..end]`, in terms of the text from `i` on. */
  lemma NoBreakBefore(sql: string, i: nat, end: nat)
    requires i <= end <= |sql| && forall j :: i <= j < end ==> !At(sql, "\n", j)
    ensures forall k :: 0 <= k < end - i ==> sql[i..][k] != '\n'
    ensures At(sql, "\n", end) ==> sql[i..][end - i] == '\n'
  {
    forall k | 0 <= k < end - i ensures sql[i..][k] != '\n' {
      BreakAt(sql, i + k);
    }
    if end < |sql| { BreakAt(sql, end); }
  }

  lemma OneStatement(cx: Chars, seg: string)
    ensures Statements(cx, [seg]) == if Strip(cx, seg) == "" then [] else [Strip(cx, seg)]
  {
    assert [seg][1..] == [];
  }

  /** `Split` by the segments before the last one and the last one. */
  function SplitFrom(cx: Chars, before: seq<string>, tail: seq<string>, closed: bool): Result<seq<string>, SplitError> {
    if AnyRejected(cx, before) then Err(TransactionControl)
    else if !closed then Err(Unterminated)
    else if AnyRejected(cx, tail) then Err(TransactionControl)
    else Ok(before + tail)
  }

  lemma RejectedInOne(cx: Chars, a: seq<string>, b: seq<string>)
    ensures AnyRejected(cx, a + b) <==> AnyRejected(cx, a) || AnyRejected(cx, b)
  {
    if k :| 0 <= k < |a| && Rejected(cx, a[k]) {
      assert (a + b)[k] == a[k];
    }
    if k :| 0 <= k < |b| && Rejected(cx, b[k]) {
      assert (a + b)[|a| + k] == b[k];
    }
  }

  lemma SplitByLast(cx: Chars, sql: string, done: seq<string>, last: string)
    requires Segments(cx, Code, sql) == done + [last]
    ensures Split(cx, sql)
         == SplitFrom(cx, Statements(cx, done), Statements(cx, [last]), Closed(Read(cx, Code, sql)))
  {
    assert (done + [last])[..|done|] == done;
    StatementsAppend(cx, done, [last]);
    RejectedInOne(cx, Statements(cx, done), Statements(cx, [last]));
  }

  lemma UnterminatedSpec(cx: Chars, sql: string, done: seq<string>, last: string)
    requires Segments(cx, Code, sql) == done + [last] && !Closed(Read(cx, Code, sql))
    requires !AnyRejected(cx, Statements(cx, done))
    ensures Split(cx, sql) == Err(Unterminated)
  {
    SplitByLast(cx, sql, done, last);
  }

  lemma RejectedSpec(cx: Chars, sql: string, i: nat, done: seq<string>, buf: string)
    requires Scanned(cx, sql, i, done + [buf], "")
    requires Strip(cx, buf) != "" && Rejected(cx, Strip(cx, buf))
    ensures Split(cx, sql) == Err(TransactionControl)
  {
    var tail := Prepend("", Segments(cx, Code, sql[i..]));
    var segs := Segments(cx, Code, sql);
    assert segs[..|segs| - 1] == done + ([buf] + tail[..|tail| - 1]);
    StatementsAppend(cx, done, [buf] + tail[..|tail| - 1]);
    assert ([buf] + tail[..|tail| - 1])[1..] == tail[..|tail| - 1];
    var kept := Statements(cx, segs[..|segs| - 1]);
    assert kept[|Statements(cx, done)|] == Strip(cx, buf);
  }

  lemma RejectedAlone(cx: Chars, statement: string)
    ensures AnyRejected(cx, [statement]) <==> Rejected(cx, statement)
  {
    assert [statement][0] == statement;
  }

  lemma FinishedSpec(cx: Chars, sql: string, done: seq<string>, last: string)
    requires Segments(cx, Code, sql) == done + [last] && Closed(Read(cx, Code, sql))
    requires !AnyRejected(cx, Statements(cx, done))
    ensures Split(cx, sql) == if Strip(cx, last) != "" && Rejected(cx, Strip(cx, last)) then Err(TransactionControl)
                              else Ok(Statements(cx, done) + Statements(cx, [last]))
  {
    SplitByLast(cx, sql, done, last);
    OneStatement(cx, last);
    RejectedAlone(cx, Strip(cx, last));
  }

  /** The token at `i`: the scanner's branches for everything that is not a semicolon. */
  method ScanToken(cx: Chars, sql: string, i: nat) returns (r: Result<nat, SplitError>)
    requires Sane(cx) && i < |sql| && sql[i] != ';'
    ensures r.Ok? ==> i < r.value <= |sql| && Token(cx, sql[i..], r.value - i)
    ensures r.Err? ==> r.error == Unterminated
                       && NoCut(cx, Code, sql[i..]) && !Closed(Read(cx, Code, sql[i..]))
  {
    var ch := sql[i];
    var nxt := if i + 1 < |sql| then sql[i + 1..i + 2] else "";
    if ch == '-' && nxt == "-" {
      var end := ScanLineComment(cx, sql, i);
      return Ok(end);
    }
    if ch == '/' && nxt == "*" {
      r := ScanBlockComment(cx, sql, i);
      return;
    }
    if ch in {'\'', '"'} {
      r := ScanQuoted(cx, sql, i);
      return;
    }
    if ch == '$' {
      var tag := DollarTag(cx, sql, i);
      if tag.Some? {
        r := ScanDollarBody(cx, sql, i, tag.value);
        return;
      }
      assert sql[i..][1..] == sql[i + 1..];
    }
    LoneToken(cx, sql[i..]);
    return Ok(i + 1);
  }

  method ScanLineComment(cx: Chars, sql: string, i: nat) returns (end: nat)
    requires i + 1 < |sql| && sql[i] == '-' && sql[i + 1] == '-'
    ensures i < end <= |sql| && Token(cx, sql[i..], end - i)
  {
    var nl := Find(sql, "\n", i);
    if nl.None? {
      NoBreakBefore(sql, i, |sql|);
      LastLineToken(cx, sql[i..]);
      return |sql|;
    }
    BreakAt(sql, nl.value);
    NoBreakBefore(sql, i, nl.value);
    LineToken(cx, sql[i..], nl.value - i);
    return nl.value + 1;
  }

  method ScanBlockComment(cx: Chars, sql: string, i: nat) returns (r: Result<nat, SplitError>)
    requires i + 1 < |sql| && sql[i] == '/' && sql[i + 1] == '*'
    ensures r.Ok? ==> i < r.value <= |sql| && Token(cx, sql[i..], r.value - i)
    ensures r.Err? ==> r.error == Unterminated
                       && NoCut(cx, Code, sql[i..]) && !Closed(Read(cx, Code, sql[i..]))
  {
    var end := Find(sql, "*/", i + 2);
    Shift(sql, "*/", i);
    if end.None? {
      OpenBlock(cx, sql[i..]);
      return Err(Unterminated);
    }
    BlockToken(cx, sql[i..], end.value - i);
    return Ok(end.value + 2);
  }

  method ScanDollarBody(cx: Chars, sql: string, i: nat, tag: string) returns (r: Result<nat, SplitError>)
    requires Sane(cx) && i < |sql| && tag <= sql[i..] && IsTag(cx, tag)
    ensures r.Ok? ==> i < r.value <= |sql| && Token(cx, sql[i..], r.value - i)
    ensures r.Err? ==> r.error == Unterminated
                       && NoCut(cx, Code, sql[i..]) && !Closed(Read(cx, Code, sql[i..]))
  {
    var n := |tag|;
    var close := Find(sql, tag, i + n);
    Shift(sql, tag, i);
    assert sql[i..][..n] == tag;
    if close.None? {
      OpenDollar(cx, sql[i..], n);
      return Err(Unterminated);
    }
    DollarToken(cx, sql[i..], n, close.value - i);
    return Ok(close.value + n);
  }

  /** The end of a segment: strip it, reject transaction control, keep it unless it is blank. */
  method EndSegment(cx: Chars, statements: seq<string>, buf: string) returns (r: Result<seq<string>, SplitError>)
    requires !AnyRejected(cx, statements)
    ensures r.Err? ==> r.error == TransactionControl && Strip(cx, buf) != "" && Rejected(cx, Strip(cx, buf))
    ensures r.Ok? ==> r.value == statements + Statements(cx, [buf]) && !AnyRejected(cx, r.value)
    ensures r.Ok? ==> Strip(cx, buf) == "" || !Rejected(cx, Strip(cx, buf))
  {
    var statement := Strip(cx, buf);
    assert [buf][1..] == [];
    if statement == "" {
      assert statements + [] == statements;
      return Ok(statements);
    }
    var rejected := RejectTransactionControl(cx, statement);
    if rejected {
      return Err(TransactionControl);
    }
    return Ok(statements + [statement]);
  }

  /** The loop's state: `statements` are those of the finished segments, and none was rejected. */
  ghost predicate Splitting(cx: Chars, sql: string, i: nat, done: seq<string>, buf: string, statements: seq<string>) {
    Scanned(cx, sql, i, done, buf) && statements == Statements(cx, done) && !AnyRejected(cx, statements)
  }

  lemma SplittingStarts(cx: Chars, sql: string)
    ensures Splitting(cx, sql, 0, [], "", [])
  {
    assert sql[0..] == sql;
    PrependNothing(Segments(cx, Code, sql));
  }

  lemma SplittingCuts(cx: Chars, sql: string, i: nat, done: seq<string>, buf: string, statements: seq<string>)
    requires Sane(cx) && Splitting(cx, sql, i, done, buf, statements) && i < |sql| && sql[i] == ';'
    ensures Scanned(cx, sql, i + 1, done + [buf], "")
    ensures Statements(cx, done + [buf]) == statements + Statements(cx, [buf])
    ensures Strip(cx, buf) != "" && Rejected(cx, Strip(cx, buf)) ==> Split(cx, sql) == Err(TransactionControl)
  {
    AdvanceCut(cx, sql, i, done, buf);
    StatementsAppend(cx, done, [buf]);
    if Strip(cx, buf) != "" && Rejected(cx, Strip(cx, buf)) {
      RejectedSpec(cx, sql, i + 1, done, buf);
    }
  }

  lemma SplittingFails(cx: Chars, sql: string, i: nat, done: seq<string>, buf: string, statements: seq<string>)
    requires Splitting(cx, sql, i, done, buf, statements)
    requires NoCut(cx, Code, sql[i..]) && !Closed(Read(cx, Code, sql[i..]))
    ensures Split(cx, sql) == Err(Unterminated)
  {
    ScanEnds(cx, sql, i, done, buf);
    UnterminatedSpec(cx, sql, done, buf + sql[i..]);
  }

  lemma SplittingEnds(cx: Chars, sql: string, done: seq<string>, buf: string, statements: seq<string>)
    requires Splitting(cx, sql, |sql|, done, buf, statements)
    ensures Split(cx, sql) == if Strip(cx, buf) != "" && Rejected(cx, Strip(cx, buf)) then Err(TransactionControl)
                              else Ok(statements + Statements(cx, [buf]))
  {
    assert sql[|sql|..] == "" && buf + "" == buf;
    ScanEnds(cx, sql, |sql|, done, buf);
    FinishedSpec(cx, sql, done, buf);
  }

  /** A semicolon of the code: the segment before it is kept or rejected. */
  method CutOff(cx: Chars, sql: string, i: nat, ghost done: seq<string>, buf: string, statements: seq<string>)
    returns (r: Result<seq<string>, SplitError>)
    requires Sane(cx) && Splitting(cx, sql, i, done, buf, statements) && i < |sql| && sql[i] == ';'
    ensures r.Ok? ==> Splitting(cx, sql, i + 1, done + [buf], "", r.value)
    ensures r.Err? ==> Split(cx, sql) == r
  {
    SplittingCuts(cx, sql, i, done, buf, statements);
    r := EndSegment(cx, statements, buf);
  }

  method TakeToken(cx: Chars, sql: string, i: nat, ghost done: seq<string>, buf: string, ghost statements: seq<string>)
    returns (r: Result<nat, SplitError>)
    requires Sane(cx) && Splitting(cx, sql, i, done, buf, statements) && i < |sql| && sql[i] != ';'
    ensures r.Ok? ==> i < r.value <= |sql| && Splitting(cx, sql, r.value, done, buf + sql[i..r.value], statements)
    ensures r.Err? ==> Split(cx, sql) == Err(r.error)
  {
    r := ScanToken(cx, sql, i);
    if r.Ok? {
      Advance(cx, sql, i, r.value - i, done, buf);
    } else {
      SplittingFails(cx, sql, i, done, buf, statements);
    }
  }

  method SplitSqlStatements(cx: Chars, sql: string) returns (r: Result<seq<string>, SplitError>)
    requires Sane(cx)
    ensures r == Split(cx, sql)
  {
    var statements: seq<string> := [];
    var buf := "";
    var i := 0;
    ghost var done: seq<string> := [];
    SplittingStarts(cx, sql);
    while i < |sql|
      invariant i <= |sql| && Splitting(cx, sql, i, done, buf, statements)
    {
      if sql[i] == ';' {
        var kept := CutOff(cx, sql, i, done, buf, statements);
        if kept.Err? {
          return kept;
        }
        statements, done, buf, i := kept.value, done + [buf], "", i + 1;
      } else {
        var end := TakeToken(cx, sql, i, done, buf, statements);
        if end.Err? {
          return Err(end.error);
        }
        buf, i := buf + sql[i..end.value], end.value;
      }
    }
    r := LastSegment(cx, sql, done, buf, statements);
  }

  method LastSegment(cx: Chars, sql: string, ghost done: seq<string>, buf: string, statements: seq<string>)
    returns (r: Result<seq<string>, SplitError>)
    requires Splitting(cx, sql, |sql|, done, buf, statements)
    ensures r == Split(cx, sql)
  {
    SplittingEnds(cx, sql, done, buf, statements);
    r := EndSegment(cx, statements, buf);
  }
}
