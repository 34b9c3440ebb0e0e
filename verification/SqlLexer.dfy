/**
 Reference reading of plugin SQL, one character at a time. A semicolon cuts exactly when it is read
 in code: outside quotes, both comment forms and dollar-quoted bodies.
 */
module SqlLexer {
  import opened Common
  import opened Text

  datatype Mode =
    | Code
    | Dash                                       // one '-' read: a second one starts a comment
    | Slash                                      // one '/' read: a '*' starts a comment
    | Tag(open: string)                          // '$' and tag characters read
    | Line
    | Block
    | Star                                       // in a block comment, a '*' just read
    | Quote(mark: char)
    | Dollar(tag: string, tail: Option<string>)  // tail: '$' and tag characters just read

  predicate InCode(m: Mode) {
    m.Code? || m.Dash? || m.Slash? || m.Tag?
  }

  /** A text may end here: in code or in a line comment. */
  predicate Closed(m: Mode) {
    InCode(m) || m.Line?
  }

  predicate TagChar(cx: Chars, c: char) {
    cx.alnum(c) || c == '_'
  }

  function FromCode(c: char): Mode {
    if c == '-' then Dash
    else if c == '/' then Slash
    else if c == '$' then Tag("$")
    else if c == '\'' || c == '"' then Quote(c)
    else Code
  }

  function Tail(cx: Chars, tail: Option<string>, c: char): Option<string> {
    if c == '$' then Some("$")
    else if TagChar(cx, c) && tail.Some? then Some(tail.value + [c])
    else None
  }

  function Next(cx: Chars, m: Mode, c: char): Mode {
    match m
    case Code => FromCode(c)
    case Dash => if c == '-' then Line else FromCode(c)
    case Slash => if c == '*' then Block else FromCode(c)
    case Tag(open) =>
      if c == '$' then Dollar(open + "$", None)
      else if TagChar(cx, c) then Tag(open + [c])
      else FromCode(c)
    case Line => if c == '\n' then Code else Line
    case Block => if c == '*' then Star else Block
    case Star => if c == '/' then Code else if c == '*' then Star else Block
    case Quote(mark) => if c == mark then Code else m
    case Dollar(tag, tail) =>
      if c == '$' && tail.Some? && tail.value + "$" == tag then Code else Dollar(tag, Tail(cx, tail, c))
  }

  function Read(cx: Chars, m: Mode, s: string): Mode
    decreases |s|
  {
    if s == "" then m else Read(cx, Next(cx, m, s[0]), s[1..])
  }

  predicate Cuts(m: Mode, c: char) {
    c == ';' && InCode(m)
  }

  function Prepend(head: string, segs: seq<string>): seq<string>
    requires segs != []
  {
    [head + segs[0]] + segs[1..]
  }

  lemma PrependTwice(a: string, b: string, segs: seq<string>)
    requires segs != []
    ensures Prepend(a, Prepend(b, segs)) == Prepend(a + b, segs)
  {
    assert a + (b + segs[0]) == (a + b) + segs[0];
  }

  lemma PrependNothing(segs: seq<string>)
    requires segs != []
    ensures Prepend("", segs) == segs
  {
    assert "" + segs[0] == segs[0];
  }

  /** The text between the cutting semicolons, blank pieces included. */
  function Segments(cx: Chars, m: Mode, s: string): (segs: seq<string>)
    ensures segs != []
    decreases |s|
  {
    if s == "" then [""]
    else if Cuts(m, s[0]) then [""] + Segments(cx, Next(cx, m, s[0]), s[1..])
    else Prepend([s[0]], Segments(cx, Next(cx, m, s[0]), s[1..]))
  }

  predicate NoCut(cx: Chars, m: Mode, s: string)
    decreases |s|
  {
    s == "" || (!Cuts(m, s[0]) && NoCut(cx, Next(cx, m, s[0]), s[1..]))
  }

  // ---- concatenation ---------------------------------------------------------

  lemma {:induction false} ReadAppend(cx: Chars, m: Mode, a: string, b: string)
    ensures Read(cx, m, a + b) == Read(cx, Read(cx, m, a), b)
    ensures NoCut(cx, m, a + b) <==> NoCut(cx, m, a) && NoCut(cx, Read(cx, m, a), b)
    decreases |a|
  {
    if a == "" {
      assert a + b == b;
    } else {
      assert (a + b)[1..] == a[1..] + b;
      ReadAppend(cx, Next(cx, m, a[0]), a[1..], b);
    }
  }

  lemma {:induction false} SegmentsAppend(cx: Chars, m: Mode, a: string, b: string)
    requires NoCut(cx, m, a)
    ensures Segments(cx, m, a + b) == Prepend(a, Segments(cx, Read(cx, m, a), b))
    decreases |a|
  {
    if a == "" {
      assert a + b == b;
      PrependNothing(Segments(cx, m, b));
    } else {
      assert (a + b)[1..] == a[1..] + b;
      SegmentsAppend(cx, Next(cx, m, a[0]), a[1..], b);
      assert [a[0]] + a[1..] == a;
      PrependTwice([a[0]], a[1..], Segments(cx, Read(cx, m, a), b));
    }
  }

  lemma NoCutIsOneSegment(cx: Chars, m: Mode, s: string)
    requires NoCut(cx, m, s)
    ensures Segments(cx, m, s) == [s]
  {
    SegmentsAppend(cx, m, s, "");
    assert s + "" == s;
  }

  // ---- the segmentation ------------------------------------------------------

  function JoinWith(segs: seq<string>, sep: string): string {
    if segs == [] then ""
    else if |segs| == 1 then segs[0]
    else segs[0] + sep + JoinWith(segs[1..], sep)
  }

  /** The text is exactly its segments joined by the cutting semicolons. */
  lemma {:induction false} SegmentsJoinBack(cx: Chars, m: Mode, s: string)
    ensures JoinWith(Segments(cx, m, s), ";") == s
    decreases |s|
  {
    if s == "" {
    } else {
      var rest := Segments(cx, Next(cx, m, s[0]), s[1..]);
      SegmentsJoinBack(cx, Next(cx, m, s[0]), s[1..]);
      if Cuts(m, s[0]) {
        assert ([""] + rest)[1..] == rest;
        assert "" + ";" == [s[0]];
      } else {
        var segs := Prepend([s[0]], rest);
        assert segs[1..] == rest[1..];
        if |rest| > 1 {
          assert JoinWith(segs, ";") == [s[0]] + (rest[0] + ";" + JoinWith(rest[1..], ";"));
        }
      }
    }
  }

  /** Every semicolon read in code is a cut: the pieces on its two sides are segmented on their own. */
  lemma {:induction false} EveryCodeSemicolonCuts(cx: Chars, m: Mode, s: string, k: nat)
    requires k < |s| && s[k] == ';' && InCode(Read(cx, m, s[..k]))
    ensures Segments(cx, m, s) == Segments(cx, m, s[..k]) + Segments(cx, Next(cx, Read(cx, m, s[..k]), ';'), s[k + 1..])
    decreases |s|
  {
    if k > 0 {
      assert s[..k][1..] == s[1..][..k - 1];
      assert s[1..][k..] == s[k + 1..];
      EveryCodeSemicolonCuts(cx, Next(cx, m, s[0]), s[1..], k - 1);
    }
  }

  /** And nothing else is: without such a semicolon the text is one segment. */
  lemma {:induction false} NothingElseCuts(cx: Chars, m: Mode, s: string)
    requires forall k :: 0 <= k < |s| && s[k] == ';' ==> !InCode(Read(cx, m, s[..k]))
    ensures Segments(cx, m, s) == [s]
  {
    NoCodeSemicolon(cx, m, s);
    NoCutIsOneSegment(cx, m, s);
  }

  lemma {:induction false} NoCodeSemicolon(cx: Chars, m: Mode, s: string)
    requires forall k :: 0 <= k < |s| && s[k] == ';' ==> !InCode(Read(cx, m, s[..k]))
    ensures NoCut(cx, m, s)
    decreases |s|
  {
    if s == "" {
    } else {
      assert s[..0] == "";
      forall k | 0 <= k < |s[1..]| && s[1..][k] == ';' ensures !InCode(Read(cx, Next(cx, m, s[0]), s[1..][..k])) {
        assert s[k + 1] == ';' && s[..k + 1][1..] == s[1..][..k];
      }
      NoCodeSemicolon(cx, Next(cx, m, s[0]), s[1..]);
    }
  }

  /** Each segment, read on its own, holds no cut; all but the last end in code. */
  lemma {:induction false} SegmentsHoldNoCut(cx: Chars, m: Mode, s: string, j: nat)
    requires Sane(cx) && j < |Segments(cx, m, s)|
    ensures var segs := Segments(cx, m, s);
            && NoCut(cx, if j == 0 then m else Code, segs[j])
            && (j + 1 < |segs| ==> InCode(Read(cx, if j == 0 then m else Code, segs[j])))
            && (j + 1 == |segs| ==> Read(cx, if j == 0 then m else Code, segs[j]) == Read(cx, m, s))
    decreases |s|
  {
    if s == "" {
    } else {
      var m' := Next(cx, m, s[0]);
      var rest := Segments(cx, m', s[1..]);
      if Cuts(m, s[0]) {
        AfterCut(cx, m);
        if j > 0 { SegmentsHoldNoCut(cx, m', s[1..], j - 1); }
      } else {
        SegmentsHoldNoCut(cx, m', s[1..], j);
        if j == 0 {
          assert ([s[0]] + rest[0])[1..] == rest[0];
        }
      }
    }
  }

  lemma AfterCut(cx: Chars, m: Mode)
    requires Sane(cx) && InCode(m)
    ensures Next(cx, m, ';') == Code
  {
  }
}
