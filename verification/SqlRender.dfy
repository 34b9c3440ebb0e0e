/** What rendering a template means: every placeholder becomes its own schema's name, in its own place. */
module SqlRender {
  import opened Common
  import opened Text
  import opened SqlLaws

  /** A template taken apart: words without an opening brace, and the two placeholders. */
  datatype Piece = Words(text: string) | CoreName | PluginName

  predicate BraceFree(s: string) {
    forall k :: 0 <= k < |s| ==> s[k] != '{'
  }

  predicate Plainly(pieces: seq<Piece>) {
    forall i :: 0 <= i < |pieces| && pieces[i].Words? ==> BraceFree(pieces[i].text)
  }

  function Token(piece: Piece): string {
    match piece
    case Words(text) => text
    case CoreName => "{{core_schema}}"
    case PluginName => "{{plugin_schema}}"
  }

  function Written(pieces: seq<Piece>): string {
    if pieces == [] then "" else Token(pieces[0]) + Written(pieces[1..])
  }

  function Filled(pieces: seq<Piece>, core: string, plugin: string): string {
    if pieces == [] then ""
    else
      (match pieces[0]
       case Words(text) => text
       case CoreName => core
       case PluginName => plugin) + Filled(pieces[1..], core, plugin)
  }

  /** The pieces once every core placeholder is the core schema's name. */
  function CoreFilled(pieces: seq<Piece>, core: string): seq<Piece> {
    if pieces == [] then []
    else [if pieces[0].CoreName? then Words(core) else pieces[0]] + CoreFilled(pieces[1..], core)
  }

  /** A placeholder that differs after its two braces is skipped over. */
  lemma SkipsOther(other: string, tail: string, rest: string, pat: string, with: string)
    requires other == "{{" + tail && tail != "" && BraceFree(tail)
    requires |pat| > 2 && pat[0] == '{' && pat[1] == '{' && pat[2] != tail[0] && pat[2] != '{'
    ensures Replace(other + rest, pat, with) == other + Replace(rest, pat, with)
  {
    var s := other + rest;
    assert s[0] == '{' && s[1] == '{' && s[2] == tail[0];
    assert s[1..] == "{" + tail + rest && s[1..][1..] == tail + rest;
    assert !(pat <= s) && !(pat <= s[1..]);
    ReplaceSkips(tail, rest, pat, with);
    assert ['{'] + (['{'] + (tail + Replace(rest, pat, with))) == other + Replace(rest, pat, with);
  }

  lemma OpensDifferently(core: string, plugin: string)
    requires core == "{{core_schema}}" && plugin == "{{plugin_schema}}"
    ensures core == "{{" + core[2..] && plugin == "{{" + plugin[2..]
    ensures BraceFree(core[2..]) && BraceFree(plugin[2..]) && |core| > 2 && |plugin| > 2
    ensures core[0] == '{' && core[1] == '{' && core[2] == 'c'
    ensures plugin[0] == '{' && plugin[1] == '{' && plugin[2] == 'p'
  {
  }

  lemma {:induction false} FillsCore(pieces: seq<Piece>, pat: string, other: string, core: string)
    requires Plainly(pieces) && pat == "{{core_schema}}" && other == "{{plugin_schema}}"
    ensures Replace(Written(pieces), pat, core) == Written(CoreFilled(pieces, core))
  {
    OpensDifferently(pat, other);
    if pieces == [] {
    } else {
      var rest := Written(pieces[1..]);
      assert Plainly(pieces[1..]);
      FillsCore(pieces[1..], pat, other, core);
      var filled := CoreFilled(pieces, core);
      assert filled[1..] == CoreFilled(pieces[1..], core);
      match pieces[0]
      case Words(text) => ReplaceSkips(text, rest, pat, core);
      case CoreName => ReplaceHits(rest, pat, core);
      case PluginName => SkipsOther(other, other[2..], rest, pat, core);
    }
  }

  lemma {:induction false} FillsPlugin(pieces: seq<Piece>, pat: string, core: string, plugin: string)
    requires Plainly(pieces) && BraceFree(core) && pat == "{{plugin_schema}}"
    ensures Replace(Written(CoreFilled(pieces, core)), pat, plugin) == Filled(pieces, core, plugin)
  {
    OpensDifferently("{{core_schema}}", pat);
    if pieces == [] {
    } else {
      var rest := Written(CoreFilled(pieces[1..], core));
      assert Plainly(pieces[1..]);
      FillsPlugin(pieces[1..], pat, core, plugin);
      assert CoreFilled(pieces, core)[1..] == CoreFilled(pieces[1..], core);
      match pieces[0]
      case Words(text) => ReplaceSkips(text, rest, pat, plugin);
      case CoreName => ReplaceSkips(core, rest, pat, plugin);
      case PluginName => ReplaceHits(rest, pat, plugin);
    }
  }

  /** Rendering fills in each name in its own place and touches nothing else. */
  lemma RenderFills(pieces: seq<Piece>, core: string, plugin: string)
    requires Plainly(pieces) && BraceFree(core)
    ensures RenderText(Written(pieces), core, plugin) == Filled(pieces, core, plugin)
  {
    FillsCore(pieces, CORE_PLACEHOLDER, PLUGIN_PLACEHOLDER, core);
    FillsPlugin(pieces, PLUGIN_PLACEHOLDER, core, plugin);
  }

  // ---- acceptance ------------------------------------------------------------------

  ghost predicate Occurs(s: string, pat: string) {
    exists k :: At(s, pat, k)
  }

  lemma ContainsIff(s: string, pat: string)
    ensures Contains(s, pat) <==> Occurs(s, pat)
  {
    var found := Find(s, pat, 0);
  }

  /** A template is accepted exactly if both placeholders occur in it and no opening pair of braces is left. */
  lemma RenderAcceptsIff(sql: string, core: string, plugin: string)
    ensures var rendered := RenderText(sql, core, plugin);
            var complete := Occurs(sql, "{{core_schema}}") && Occurs(sql, "{{plugin_schema}}");
            && (RenderPluginSql(sql, core, plugin) == Err(MissingPlaceholder) <==> !complete)
            && (RenderPluginSql(sql, core, plugin) == Err(Unresolved) <==> complete && Occurs(rendered, "{{"))
            && (RenderPluginSql(sql, core, plugin) == Ok(rendered) <==> complete && !Occurs(rendered, "{{"))
  {
    ContainsIff(sql, CORE_PLACEHOLDER);
    ContainsIff(sql, PLUGIN_PLACEHOLDER);
    ContainsIff(RenderText(sql, core, plugin), "{{");
  }

  lemma {:induction false} FilledIsBraceFree(pieces: seq<Piece>, core: string, plugin: string)
    requires Plainly(pieces) && BraceFree(core) && BraceFree(plugin)
    ensures BraceFree(Filled(pieces, core, plugin))
  {
    if pieces == [] {
    } else {
      assert Plainly(pieces[1..]);
      FilledIsBraceFree(pieces[1..], core, plugin);
    }
  }

  lemma StartsWithIff(s: string, pat: string)
    ensures At(s, pat, 0) <==> pat <= s
  {
    if |pat| <= |s| { assert s[0..|pat|] == s[..|pat|]; }
  }

  /** Taking out an occurrence shortens a text. */
  lemma {:induction false} OccurrenceShortens(s: string, pat: string)
    requires pat != ""
    ensures |Replace(s, pat, "")| <= |s|
    ensures Occurs(s, pat) ==> |Replace(s, pat, "")| < |s|
    decreases |s|
  {
    if s == "" {
    } else if pat <= s {
      OccurrenceShortens(s[|pat|..], pat);
    } else {
      OccurrenceShortens(s[1..], pat);
      if k :| At(s, pat, k) {
        StartsWithIff(s, pat);
        assert s[1..][k - 1..k - 1 + |pat|] == s[k..k + |pat|];
        assert At(s[1..], pat, k - 1);
      }
    }
  }

  lemma OccursAfter(head: string, rest: string, pat: string)
    ensures pat <= head ==> Occurs(head + rest, pat)
    ensures Occurs(rest, pat) ==> Occurs(head + rest, pat)
  {
    var s := head + rest;
    if pat <= head {
      assert s[0..|pat|] == pat;
      assert At(s, pat, 0);
    }
    if k :| At(rest, pat, k) {
      assert s[|head| + k..|head| + k + |pat|] == rest[k..k + |pat|];
      assert At(s, pat, |head| + k);
    }
  }

  lemma {:induction false} PieceOccurs(pieces: seq<Piece>, i: nat)
    requires i < |pieces|
    ensures Occurs(Written(pieces), Token(pieces[i]))
  {
    OccursAfter(Token(pieces[0]), Written(pieces[1..]), Token(pieces[i]));
    if i > 0 {
      PieceOccurs(pieces[1..], i - 1);
      assert pieces[1..][i - 1] == pieces[i];
    }
  }

  lemma {:induction false} WithoutCore(pieces: seq<Piece>, core: string)
    requires CoreName !in pieces
    ensures CoreFilled(pieces, core) == pieces
  {
    if pieces == [] {
    } else {
      WithoutCore(pieces[1..], core);
      assert pieces == [pieces[0]] + pieces[1..];
    }
  }

  lemma {:induction false} WithoutPlugin(pieces: seq<Piece>, pat: string)
    requires PluginName !in pieces && Plainly(pieces) && pat == "{{plugin_schema}}"
    ensures Replace(Written(pieces), pat, "") == Written(pieces)
  {
    OpensDifferently("{{core_schema}}", pat);
    if pieces == [] {
    } else {
      var rest := Written(pieces[1..]);
      assert Plainly(pieces[1..]);
      assert pieces == [pieces[0]] + pieces[1..];
      WithoutPlugin(pieces[1..], pat);
      match pieces[0]
      case Words(text) => ReplaceSkips(text, rest, pat, "");
      case CoreName =>
        var other := "{{core_schema}}";
        SkipsOther(other, other[2..], rest, pat, "");
    }
  }

  lemma CoreOccursIff(pieces: seq<Piece>, pat: string, other: string)
    requires Plainly(pieces) && pat == "{{core_schema}}" && other == "{{plugin_schema}}"
    ensures Occurs(Written(pieces), pat) <==> CoreName in pieces
  {
    if CoreName in pieces {
      var i :| 0 <= i < |pieces| && pieces[i] == CoreName;
      PieceOccurs(pieces, i);
    } else {
      FillsCore(pieces, pat, other, "");
      WithoutCore(pieces, "");
      OccurrenceShortens(Written(pieces), pat);
    }
  }

  lemma PluginOccursIff(pieces: seq<Piece>, pat: string)
    requires Plainly(pieces) && pat == "{{plugin_schema}}"
    ensures Occurs(Written(pieces), pat) <==> PluginName in pieces
  {
    if PluginName in pieces {
      var i :| 0 <= i < |pieces| && pieces[i] == PluginName;
      PieceOccurs(pieces, i);
    } else {
      WithoutPlugin(pieces, pat);
      OccurrenceShortens(Written(pieces), pat);
    }
  }

  /** A template of such pieces is accepted exactly if both names occur, and becomes those pieces around the names. */
  lemma TemplateRendersIff(pieces: seq<Piece>, core: string, plugin: string)
    requires Plainly(pieces) && BraceFree(core) && BraceFree(plugin)
    ensures RenderPluginSql(Written(pieces), core, plugin)
         == if CoreName in pieces && PluginName in pieces then Ok(Filled(pieces, core, plugin))
            else Err(MissingPlaceholder)
  {
    CoreOccursIff(pieces, CORE_PLACEHOLDER, PLUGIN_PLACEHOLDER);
    PluginOccursIff(pieces, PLUGIN_PLACEHOLDER);
    RenderFills(pieces, core, plugin);
    FilledIsBraceFree(pieces, core, plugin);
    RenderAcceptsIff(Written(pieces), core, plugin);
    var filled := Filled(pieces, core, plugin);
    if k :| At(filled, "{{", k) {
      assert filled[k..k + 2][0] == '{';
    }
  }
}
