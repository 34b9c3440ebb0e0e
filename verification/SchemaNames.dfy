/** Schema names: validation, and the name derived from a plugin's name. */
module SchemaNames {
  import opened Common
  import opened Text

  datatype NameError = Empty | TooLong | BadPattern | Reserved | NoIdentifier

  /** What `strip` and `lower` do beyond ASCII is a parameter. */
  datatype Locale = Locale(chars: Chars, lower: string -> string)

  predicate Letter(c: char) { 'a' <= c <= 'z' }

  predicate Digit(c: char) { '0' <= c <= '9' }

  predicate IdentChar(c: char) { Letter(c) || Digit(c) || c == '_' }

  predicate Identish(s: string) {
    forall i :: 0 <= i < |s| ==> IdentChar(s[i])
  }

  /** Lower-case ASCII identifiers are left alone by `strip` and `lower`. */
  ghost predicate Ascii(lc: Locale) {
    && (forall c {:trigger lc.chars.space(c)} :: IdentChar(c) ==> !lc.chars.space(c))
    && (forall s {:trigger lc.lower(s)} :: Identish(s) ==> lc.lower(s) == s)
  }

  predicate MatchesPattern(s: string) {
    s != "" && Letter(s[0]) && Identish(s)
  }

  predicate IsReserved(s: string) {
    s in {"public", "information_schema", "pg_catalog"} || "pg_" <= s
  }

  predicate ValidName(s: string) {
    MatchesPattern(s) && |s| <= 63 && !IsReserved(s)
  }

  function ValidateSchemaName(lc: Locale, name: string): Result<string, NameError> {
    var candidate := Strip(lc.chars, name);
    if candidate == "" then Err(Empty)
    else if |candidate| > 63 then Err(TooLong)
    else if !MatchesPattern(candidate) then Err(BadPattern)
    else if IsReserved(candidate) then Err(Reserved)
    else Ok(candidate)
  }

  // ---- the schema of a plugin ----------------------------------------------------

  /** Every character outside [a-z0-9_] becomes an underscore. */
  function Mask(s: string): (r: string)
    ensures |r| == |s|
  {
    seq(|s|, i requires 0 <= i < |s| => if IdentChar(s[i]) then s[i] else '_')
  }

  /** A run of underscores becomes one. */
  function Squeeze(s: string): string
    decreases |s|
  {
    if s == "" then ""
    else if s[0] == '_' && |s| > 1 && s[1] == '_' then Squeeze(s[1..])
    else [s[0]] + Squeeze(s[1..])
  }

  /** `strip("_")` is `strip` for a world where the underscore is the only space. */
  const BARS: Chars := Chars(c => c == '_', c => false, c => false, c => [c])

  function Sanitized(lc: Locale, name: string): string {
    Strip(BARS, Squeeze(Mask(lc.lower(Strip(lc.chars, name)))))
  }

  function Prefixed(s: string): string {
    if s != "" && Digit(s[0]) then "p_" + s else s
  }

  function PluginSchemaName(lc: Locale, name: string): Result<string, NameError> {
    var sanitized := Sanitized(lc, name);
    if sanitized == "" then Err(NoIdentifier) else ValidateSchemaName(lc, Prefixed(sanitized))
  }

  // ---- names the derivation can give ------------------------------------------------

  predicate NoDouble(s: string) {
    forall i :: 0 <= i < |s| - 1 ==> !(s[i] == '_' && s[i + 1] == '_')
  }

  /** An identifier with single underscores, none of them at an end. */
  predicate Tidy(s: string) {
    Identish(s) && NoDouble(s) && (s != "" ==> s[0] != '_' && s[|s| - 1] != '_')
  }

  lemma {:induction false} SqueezeTidies(s: string)
    requires Identish(s)
    ensures Identish(Squeeze(s)) && NoDouble(Squeeze(s))
    ensures (s == "" <==> Squeeze(s) == "") && (s != "" ==> Squeeze(s)[0] == s[0])
    decreases |s|
  {
    if s == "" {
    } else {
      SqueezeTidies(s[1..]);
      var rest := Squeeze(s[1..]);
      if !(s[0] == '_' && |s| > 1 && s[1] == '_') {
        var r := [s[0]] + rest;
        forall i | 0 <= i < |r| - 1 ensures !(r[i] == '_' && r[i + 1] == '_') {
          if i > 0 {
            assert r[i] == rest[i - 1] && r[i + 1] == rest[i];
          }
        }
      }
    }
  }

  lemma {:induction false} SqueezeKeepsTidy(s: string)
    requires NoDouble(s)
    ensures Squeeze(s) == s
    decreases |s|
  {
    if s == "" {
    } else {
      forall i | 0 <= i < |s[1..]| - 1 ensures !(s[1..][i] == '_' && s[1..][i + 1] == '_') {
        assert s[1..][i] == s[i + 1] && s[1..][i + 1] == s[i + 2];
      }
      SqueezeKeepsTidy(s[1..]);
    }
  }

  lemma SanitizedIsTidy(lc: Locale, name: string)
    ensures Tidy(Sanitized(lc, name))
  {
    var masked := Mask(lc.lower(Strip(lc.chars, name)));
    SqueezeTidies(masked);
    var s := Squeeze(masked);
    StripIsTrimmed(BARS, s);
    var lead, trail := StripSplits(BARS, s);
    var r := Strip(BARS, s);
    forall i | 0 <= i < |r| ensures r[i] == s[|lead| + i] && IdentChar(r[i]) {
      assert IdentChar(s[|lead| + i]);
    }
    forall i | 0 <= i < |r| - 1 ensures !(r[i] == '_' && r[i + 1] == '_') {
      assert r[i] == s[|lead| + i] && r[i + 1] == s[|lead| + i + 1];
    }
  }

  lemma StripKeeps(cx: Chars, s: string)
    requires Trimmed(cx, s)
    ensures Strip(cx, s) == s
  {
    StripUndoesPadding(cx, "", s, "");
    assert "" + s + "" == s;
  }

  lemma TidyIsSanitized(lc: Locale, s: string)
    requires Ascii(lc) && Tidy(s)
    ensures Sanitized(lc, s) == s
  {
    StripKeeps(lc.chars, s);
    assert Mask(s) == s;
    SqueezeKeepsTidy(s);
    StripKeeps(BARS, s);
  }

  lemma PrefixedIsTidy(s: string)
    requires Tidy(s) && s != ""
    ensures Tidy(Prefixed(s)) && MatchesPattern(Prefixed(s)) && Prefixed(Prefixed(s)) == Prefixed(s)
  {
    var r := Prefixed(s);
    assert Letter(s[0]) || Digit(s[0]);
    if Digit(s[0]) {
      assert r == "p_" + s;
      forall i | 0 <= i < |r| ensures IdentChar(r[i]) {
        if i >= 2 { assert r[i] == s[i - 2]; }
      }
      forall i | 0 <= i < |r| - 1 ensures !(r[i] == '_' && r[i + 1] == '_') {
        if i >= 2 { assert r[i] == s[i - 2] && r[i + 1] == s[i - 1]; }
      }
    }
  }

  lemma ValidateTidy(lc: Locale, s: string)
    requires Ascii(lc) && Tidy(s) && MatchesPattern(s)
    ensures ValidateSchemaName(lc, s)
         == if |s| > 63 then Err(TooLong) else if IsReserved(s) then Err(Reserved) else Ok(s)
  {
    StripKeeps(lc.chars, s);
  }

  /**
   The derivation's own character pass leaves validation nothing to find but length and
   reserved words, and what it returns is a valid name in tidy form.
   */
  lemma DerivedNamesAreValid(lc: Locale, name: string)
    requires Ascii(lc)
    ensures match PluginSchemaName(lc, name)
            case Ok(schema) => ValidName(schema) && Tidy(schema) && schema == Prefixed(Sanitized(lc, name))
            case Err(e) => e in {NoIdentifier, TooLong, Reserved}
  {
    SanitizedIsTidy(lc, name);
    if Sanitized(lc, name) != "" {
      PrefixedIsTidy(Sanitized(lc, name));
      ValidateTidy(lc, Prefixed(Sanitized(lc, name)));
    }
  }

  /** The fixed points are exactly the valid tidy names. */
  lemma FixedPointsAreTidyNames(lc: Locale, s: string)
    requires Ascii(lc)
    ensures PluginSchemaName(lc, s) == Ok(s) <==> ValidName(s) && Tidy(s)
  {
    DerivedNamesAreValid(lc, s);
    if ValidName(s) && Tidy(s) {
      TidyIsSanitized(lc, s);
      ValidateTidy(lc, s);
    }
  }

  /** Deriving twice is deriving once. */
  lemma DerivationIsIdempotent(lc: Locale, name: string)
    requires Ascii(lc) && PluginSchemaName(lc, name).Ok?
    ensures PluginSchemaName(lc, PluginSchemaName(lc, name).value) == PluginSchemaName(lc, name)
  {
    DerivedNamesAreValid(lc, name);
    FixedPointsAreTidyNames(lc, PluginSchemaName(lc, name).value);
  }

  /** Validation accepts exactly the padded forms of valid names, and gives the name without the padding. */
  lemma ValidationAcceptsIff(lc: Locale, name: string, s: string)
    requires Ascii(lc)
    ensures ValidateSchemaName(lc, name) == Ok(s)
            <==> ValidName(s) && exists lead, trail ::
                   AllSpace(lc.chars, lead) && AllSpace(lc.chars, trail) && name == lead + s + trail
  {
    if ValidateSchemaName(lc, name) == Ok(s) {
      var lead, trail := StripSplits(lc.chars, name);
      assert name == lead + s + trail;
    }
    if ValidName(s) {
      forall lead, trail | AllSpace(lc.chars, lead) && AllSpace(lc.chars, trail) && name == lead + s + trail
        ensures ValidateSchemaName(lc, name) == Ok(s)
      {
        StripUndoesPadding(lc.chars, lead, s, trail);
      }
    }
  }

  /** The derivation is not injective: names that differ only in separators share a schema. */
  lemma SeparatorsCollide(lc: Locale)
    requires Ascii(lc) && !lc.chars.space('.') && !lc.chars.space('-')
    requires lc.lower("a.b") == "a.b" && lc.lower("a-b") == "a-b"
    ensures PluginSchemaName(lc, "a.b") == Ok("a_b") && PluginSchemaName(lc, "a-b") == Ok("a_b")
  {
    StripKeeps(lc.chars, "a.b");
    StripKeeps(lc.chars, "a-b");
    assert Mask("a.b") == "a_b" && Mask("a-b") == "a_b";
    var s := "a_b";
    assert Tidy(s);
    SqueezeKeepsTidy(s);
    StripKeeps(BARS, s);
    ValidateTidy(lc, s);
  }

  // ---- the derivation, character by character -----------------------------------------------

  /** What the two substitutions make of a text. */
  function Slug(s: string): string {
    Squeeze(Mask(s))
  }

  lemma {:induction false} SqueezeGrows(s: string, c: char)
    ensures Squeeze(s + [c]) == if c == '_' && s != "" && s[|s| - 1] == '_' then Squeeze(s) else Squeeze(s) + [c]
    decreases |s|
  {
    if s == "" {
      assert s + [c] == [c] && [c][1..] == "";
    } else {
      assert (s + [c])[1..] == s[1..] + [c] && (s + [c])[0] == s[0];
      SqueezeGrows(s[1..], c);
      if |s| > 1 {
        assert s[1..][|s| - 2] == s[|s| - 1];
      }
    }
  }

  lemma {:induction false} SqueezeEnds(s: string)
    requires s != ""
    ensures Squeeze(s) != "" && Squeeze(s)[|Squeeze(s)| - 1] == s[|s| - 1]
    decreases |s|
  {
    if |s| == 1 {
      assert s[1..] == "";
    } else {
      SqueezeEnds(s[1..]);
    }
  }

  /**
   Read from the left: a letter, digit or underscore of the identifier alphabet stays, anything else becomes an
   underscore, and an underscore after an underscore is dropped.
   */
  lemma SlugGrows(s: string, c: char)
    ensures Slug("") == ""
    ensures var kept := if 'a' <= c <= 'z' || '0' <= c <= '9' then c else '_';
            Slug(s + [c])
            == if kept == '_' && Slug(s) != "" && Slug(s)[|Slug(s)| - 1] == '_' then Slug(s) else Slug(s) + [kept]
  {
    var kept := if 'a' <= c <= 'z' || '0' <= c <= '9' then c else '_';
    assert Mask(s + [c]) == Mask(s) + [kept];
    SqueezeGrows(Mask(s), kept);
    if s == "" {
      assert Mask(s) == "";
    } else {
      SqueezeEnds(Mask(s));
    }
  }

  predicate Bars(s: string) {
    forall i :: 0 <= i < |s| ==> s[i] == '_'
  }

  /** The name under the prefix is the slug of the stripped, lower-cased plugin name without its outer underscores. */
  lemma SanitizedIs(lc: Locale, name: string)
    ensures var r := Sanitized(lc, name);
            && (exists lead, trail :: Bars(lead) && Bars(trail)
                                      && Slug(lc.lower(Strip(lc.chars, name))) == lead + r + trail)
            && (r != "" ==> r[0] != '_' && r[|r| - 1] != '_')
            && (r == "" ==> PluginSchemaName(lc, name) == Err(NoIdentifier))
            && (r != "" ==> PluginSchemaName(lc, name)
                            == ValidateSchemaName(lc, if '0' <= r[0] <= '9' then "p_" + r else r))
  {
    var slug := Slug(lc.lower(Strip(lc.chars, name)));
    StripIsTrimmed(BARS, slug);
    var lead, trail := StripSplits(BARS, slug);
    assert Bars(lead) && Bars(trail);
  }

  /** A schema name that would start with a digit starts with "p_" instead. */
  lemma DigitsArePrefixed(lc: Locale, s: string)
    requires Ascii(lc) && Tidy(s) && s != "" && '0' <= s[0] <= '9' && |s| <= 61
    ensures PluginSchemaName(lc, s) == Ok("p_" + s)
  {
    TidyIsSanitized(lc, s);
    PrefixedIsTidy(s);
    var r := "p_" + s;
    assert Prefixed(s) == r && r[1] == '_';
    assert "public"[1] == 'u' && "pg_catalog"[1] == 'g' && "pg_"[1] == 'g' && "information_schema"[0] == 'i';
    ValidateTidy(lc, r);
  }

  /** The limits of a valid name: 63 characters, no reserved word, nothing that starts like a system schema. */
  lemma NameLimits(s: string)
    requires MatchesPattern(s)
    ensures |s| > 63 ==> !ValidName(s)
    ensures s in {"public", "information_schema", "pg_catalog"} ==> !ValidName(s)
    ensures "pg_" <= s ==> !ValidName(s)
    ensures |s| <= 63 && s != "public" && s != "information_schema" && !("pg_" <= s) ==> ValidName(s)
  {
    assert "pg_" <= "pg_catalog";
  }
}
