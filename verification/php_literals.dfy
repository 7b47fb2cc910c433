/**
  PHP string escaping as the code generators use it: `addslashes`, the
  escape `TextNode` builds from it, the quote-only `str_replace` applied to
  modifier arguments, and the reading of a single-quoted PHP literal that
  the generated code is parsed with.
 */
module PhpLiterals {
  import opened Errors
  import opened Strings

  const NUL: char := 0 as char

  /** The characters `addslashes` escapes. */
  predicate Slashed(c: char) {
    c == '\'' || c == '"' || c == '\\' || c == NUL
  }

  /** `addslashes` of one character: a backslash before `'`, `"`, `\`, and NUL written as `\0`. */
  function AddSlash(c: char): (r: string)
    ensures Slashed(c) ==> |r| == 2 && r[0] == '\\'
    ensures !Slashed(c) ==> r == [c]
  {
    if c == NUL then ['\\', '0']
    else if Slashed(c) then ['\\', c]
    else [c]
  }

  /** `addslashes($s)`. */
  function AddSlashes(s: string): string {
    if |s| == 0 then "" else AddSlash(s[0]) + AddSlashes(s[1..])
  }

  /** `stripslashes($s)`: a backslash escapes the next character, `\0` is NUL, a lone final backslash is dropped. */
  function StripSlashes(s: string): string {
    if |s| == 0 then ""
    else if s[0] == '\\' then
      if |s| == 1 then ""
      else [if s[1] == '0' then NUL else s[1]] + StripSlashes(s[2..])
    else [s[0]] + StripSlashes(s[1..])
  }

  /** `stripslashes` undoes `addslashes` on every string. */
  lemma {:induction false} StripSlashesRoundTrip(s: string)
    ensures StripSlashes(AddSlashes(s)) == s
  {
    if |s| > 0 {
      var c := s[0];
      var rest := AddSlashes(s[1..]);
      StripSlashesRoundTrip(s[1..]);
      if Slashed(c) {
        var t := AddSlash(c) + rest;
        assert t[0] == '\\' && t[1] == (if c == NUL then '0' else c) && t[2..] == rest;
      } else {
        assert (AddSlash(c) + rest)[1..] == rest;
      }
      assert [c] + s[1..] == s;
    }
  }

  /** The escape of `TextNode`: like `addslashes`, but `"` is left alone. */
  function EscSingle(s: string): string {
    if |s| == 0 then ""
    else (if s[0] == '"' then ['"'] else AddSlash(s[0])) + EscSingle(s[1..])
  }

  /**
    The text a single-quoted PHP literal with this body denotes: `\\` and
    `\'` stand for `\` and `'`, any other backslash is kept.  `None` when an
    unescaped `'` would end the literal early, or a final backslash would
    escape the closing quote.
   */
  function DecodeSingleQuoted(body: string): (r: Option<string>) {
    if |body| == 0 then Some("")
    else if body[0] == '\'' then None
    else if body[0] == '\\' && |body| == 1 then None
    else if body[0] == '\\' && (body[1] == '\\' || body[1] == '\'') then
      Prepend(body[1], DecodeSingleQuoted(body[2..]))
    else
      Prepend(body[0], DecodeSingleQuoted(body[1..]))
  }

  function Prepend(c: char, r: Option<string>): Option<string> {
    if r.Some? then Some([c] + r.value) else None
  }

  /** Reading `EscSingle(s)` back as a single-quoted literal gives `s`, for every NUL-free `s`. */
  lemma {:induction false} EscSingleRoundTrip(s: string)
    requires NUL !in s
    ensures DecodeSingleQuoted(EscSingle(s)) == Some(s)
  {
    if |s| > 0 {
      var c := s[0];
      assert NUL !in s[1..];
      EscSingleRoundTrip(s[1..]);
      var rest := EscSingle(s[1..]);
      var t := (if c == '"' then ['"'] else AddSlash(c)) + rest;
      if c == '\\' || c == '\'' {
        assert t[0] == '\\' && t[1] == c && t[2..] == rest;
      } else {
        assert t[0] == c && t[1..] == rest;
      }
      assert [c] + s[1..] == s;
    }
  }

  /** Read back as a single-quoted literal, `addslashes` of a lone `"` keeps its backslash. */
  lemma AddSlashesQuoteMismatch()
    ensures AddSlashes("\"") == "\\\""
    ensures DecodeSingleQuoted(AddSlashes("\"")) == Some("\\\"")
  {
    assert AddSlashes("\"") == "\\\"";
    assert "\\\""[1..] == "\"" && "\""[1..] == "";
    assert DecodeSingleQuoted("") == Some("");
    assert ['"'] + "" == "\"" && ['\\'] + "\"" == "\\\"";
  }

  /** A character other than `\` never starts the `\"` pattern. */
  lemma {:induction false} ReplaceSkips(c: char, s: string, pat: string, rep: string)
    requires |pat| > 0 && pat[0] == '\\' && c != '\\'
    ensures ReplaceAll([c] + s, pat, rep) == [c] + ReplaceAll(s, pat, rep)
  {
    var t := [c] + s;
    if |t| >= |pat| {
      assert t[..|pat|][0] == c;
      assert t[1..] == s;
    } else {
      assert |s| < |pat|;
    }
  }

  /** A backslash followed by something other than `"` is not a match either. */
  lemma {:induction false} ReplaceSkipsBackslash(s: string)
    requires |s| == 0 || s[0] != '"'
    ensures ReplaceAll(['\\'] + s, "\\\"", "\"") == ['\\'] + ReplaceAll(s, "\\\"", "\"")
  {
    var t := ['\\'] + s;
    if |t| >= 2 {
      assert t[..2][1] == s[0];
      assert t[1..] == s;
    }
  }

  /** The first character of `addslashes` output is never `"`. */
  lemma AddSlashesHead(s: string)
    ensures |AddSlashes(s)| == 0 || AddSlashes(s)[0] != '"'
  {
    if |s| > 0 {
      assert AddSlashes(s) == AddSlash(s[0]) + AddSlashes(s[1..]);
    }
  }

  /** One character of `addslashes` output followed by more of it, with `\"` turned back into `"`. */
  lemma {:induction false} UnslashOne(c: char, rest: string)
    requires |rest| == 0 || rest[0] != '"'
    ensures ReplaceAll(AddSlash(c) + rest, "\\\"", "\"")
         == (if c == '"' then ['"'] else AddSlash(c)) + ReplaceAll(rest, "\\\"", "\"")
  {
    var pat := "\\\"";
    if c == '"' {
      var t := ['\\', '"'] + rest;
      assert t[..2] == pat && t[2..] == rest;
    } else if c == '\\' {
      assert AddSlash(c) + rest == ['\\'] + (['\\'] + rest);
      ReplaceSkipsBackslash(['\\'] + rest);
      ReplaceSkipsBackslash(rest);
    } else if Slashed(c) {
      var d := if c == NUL then '0' else c;
      assert AddSlash(c) + rest == ['\\'] + ([d] + rest);
      ReplaceSkipsBackslash([d] + rest);
      ReplaceSkips(d, rest, pat, "\"");
    } else {
      ReplaceSkips(c, rest, pat, "\"");
    }
  }

  /** Removing the backslash from every `\"` that `addslashes` wrote gives exactly `EscSingle`. */
  lemma {:induction false} UnslashQuotes(s: string)
    ensures ReplaceAll(AddSlashes(s), "\\\"", "\"") == EscSingle(s)
  {
    if |s| > 0 {
      UnslashQuotes(s[1..]);
      AddSlashesHead(s[1..]);
      UnslashOne(s[0], AddSlashes(s[1..]));
    }
  }

  /** The quote-only escape of string modifier arguments: `str_replace("'", "\'", $value)`. */
  function EscapeQuotes(s: string): string {
    ReplaceAll(s, "'", "\\'")
  }

  /** A string modifier argument as the generated code spells it. */
  function QuoteArgument(s: string): (r: string)
    ensures |r| >= 2 && r[0] == '\'' && r[|r| - 1] == '\''
  {
    "'" + EscapeQuotes(s) + "'"
  }

  /** For a backslash-free value, the quoted argument reads back as the value. */
  lemma {:induction false} EscapeQuotesRoundTrip(s: string)
    requires '\\' !in s
    ensures DecodeSingleQuoted(EscapeQuotes(s)) == Some(s)
  {
    if |s| > 0 {
      assert '\\' !in s[1..];
      EscapeQuotesRoundTrip(s[1..]);
      var rest := EscapeQuotes(s[1..]);
      if s[0] == '\'' {
        assert s[..1] == "'";
        var t := "\\'" + rest;
        assert EscapeQuotes(s) == t;
        assert t[0] == '\\' && t[1] == '\'' && t[2..] == rest;
      } else {
        assert s[..1] != "'";
        var t := [s[0]] + rest;
        assert EscapeQuotes(s) == t;
        assert t[1..] == rest;
      }
      assert [s[0]] + s[1..] == s;
    }
  }

  /** A value made of one backslash yields `'\'`, whose backslash escapes the closing quote. */
  lemma EscapeQuotesBackslash()
    ensures EscapeQuotes("\\") == "\\"
    ensures DecodeSingleQuoted(EscapeQuotes("\\")).None?
  {
  }
}
