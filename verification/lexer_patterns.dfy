/**
  The regular expressions and string built-ins the lexer applies at its
  cursor, each written as a hand-made matcher over `seq<char>`:
  the operator alternation, `REGEX_NAME`, `REGEX_NUMBER`, `REGEX_STRING`,
  PHP's `stripcslashes`, and the line-ending normalisation of `tokenize`.
 */
module LexerPatterns {
  import opened Errors
  import opened Strings
  import opened Tokens

  /** The operator alternation, in the order the pattern lists it. */
  const Operators: seq<string> := ["and", ">=", "<=", "!=", "==", "or", "%", "+", "-", "/", ">", "<", "~", "*"]

  /** The look-ahead `(?=[ ()])` of the word operators. */
  predicate WordBoundary(src: string, i: int) {
    0 <= i < |src| && (src[i] == ' ' || src[i] == '(' || src[i] == ')')
  }

  /** Single-character operators. */
  predicate IsOperatorChar(c: char) {
    c == '%' || c == '+' || c == '-' || c == '/' || c == '>' || c == '<' || c == '~' || c == '*'
  }

  /** Length of the operator the anchored alternation matches at `c`, 0 when none does. */
  function OperatorLength(src: string, c: nat): (n: nat)
    requires c < |src|
    ensures n <= 3 && c + n <= |src|
    ensures n > 0 ==> src[c..c + n] in Operators
    ensures n == 3 ==> WordBoundary(src, c + 3)
    ensures n == 2 && src[c] == 'o' ==> WordBoundary(src, c + 2)
    ensures IsOperatorChar(src[c]) ==> n > 0
    ensures (At(src, ">=", c) || At(src, "<=", c) || At(src, "!=", c) || At(src, "==", c)) ==> n == 2
    ensures At(src, "and", c) && WordBoundary(src, c + 3) ==> n == 3
    ensures At(src, "or", c) && WordBoundary(src, c + 2) ==> n == 2
    ensures n == 0 ==> !IsOperatorChar(src[c])
  {
    if At(src, "and", c) && WordBoundary(src, c + 3) then
      assert src[c..c + 3] == Operators[0]; 3
    else if At(src, ">=", c) then assert src[c..c + 2] == Operators[1]; 2
    else if At(src, "<=", c) then assert src[c..c + 2] == Operators[2]; 2
    else if At(src, "!=", c) then assert src[c..c + 2] == Operators[3]; 2
    else if At(src, "==", c) then assert src[c..c + 2] == Operators[4]; 2
    else if At(src, "or", c) && WordBoundary(src, c + 2) then
      assert src[c..c + 2] == Operators[5]; 2
    else if IsOperatorChar(src[c]) then
      assert src[c..c + 1] == [src[c]];
      1
    else 0
  }

  predicate IsNameStart(c: char) {
    ('A' <= c <= 'Z') || ('a' <= c <= 'z') || c == '_'
  }

  predicate IsNameChar(c: char) {
    IsNameStart(c) || IsDigit(c)
  }

  /** A whole string matching `\$?[A-Za-z_][A-Za-z0-9_]*`. */
  predicate IsName(s: string) {
    var body := if |s| > 0 && s[0] == '$' then s[1..] else s;
    |body| > 0 && IsNameStart(body[0]) && forall k :: 1 <= k < |body| ==> IsNameChar(body[k])
  }

  /** Length of the maximal run of name characters from `i`. */
  function NameCharRun(src: string, i: nat): (n: nat)
    requires i <= |src|
    ensures i + n <= |src|
    ensures forall k :: i <= k < i + n ==> IsNameChar(src[k])
    ensures i + n == |src| || !IsNameChar(src[i + n])
    decreases |src| - i
  {
    if i < |src| && IsNameChar(src[i]) then 1 + NameCharRun(src, i + 1) else 0
  }

  /** Length of the greedy `REGEX_NAME` match at `c`, 0 when it does not match. */
  function NameLength(src: string, c: nat): (n: nat)
    requires c < |src|
    ensures c + n <= |src|
    ensures n > 0 ==> IsName(src[c..c + n])
    ensures n > 0 ==> c + n == |src| || !IsNameChar(src[c + n])
    ensures n == 0 <==> !IsNameStart(src[c]) && !(src[c] == '$' && c + 1 < |src| && IsNameStart(src[c + 1]))
  {
    if src[c] == '$' && c + 1 < |src| && IsNameStart(src[c + 1]) then
      var n := 2 + NameCharRun(src, c + 2);
      assert src[c..c + n][1..] == src[c + 1..c + n];
      n
    else if IsNameStart(src[c]) then
      1 + NameCharRun(src, c + 1)
    else 0
  }

  /** A whole string matching `[0-9]+(\.[0-9]+)?`. */
  predicate IsNumberLexeme(s: string) {
    IsDigitString(s) ||
    exists k :: 0 < k < |s| - 1 && s[k] == '.' && IsDigitString(s[..k]) && IsDigitString(s[k + 1..])
  }

  /** Length of the greedy `REGEX_NUMBER` match at `c`, 0 when it does not match. */
  function NumberLength(src: string, c: nat): (n: nat)
    requires c < |src|
    ensures c + n <= |src|
    ensures n == 0 <==> !IsDigit(src[c])
    ensures n > 0 ==> IsNumberLexeme(src[c..c + n])
    ensures n > 0 && IsDigitString(src[c..c + n]) ==>
              c + n == |src| || (!IsDigit(src[c + n]) && !(src[c + n] == '.' && c + n + 1 < |src| && IsDigit(src[c + n + 1])))
  {
    var d := DigitRun(src, c);
    if d > 0 && c + d + 1 < |src| && src[c + d] == '.' && IsDigit(src[c + d + 1]) then
      var f := DigitRun(src, c + d + 1);
      DecimalLexeme(src, c, d, f);
      d + 1 + f
    else
      assert d > 0 ==> IsDigitString(src[c..c + d]);
      d
  }

  /** Digits, a `.` and more digits make a decimal lexeme that is not an integer one. */
  lemma DecimalLexeme(src: string, c: nat, d: nat, f: nat)
    requires 0 < d && 0 < f && c + d + 1 + f <= |src| && src[c + d] == '.'
    requires forall k :: c <= k < c + d ==> IsDigit(src[k])
    requires forall k :: c + d + 1 <= k < c + d + 1 + f ==> IsDigit(src[k])
    ensures IsNumberLexeme(src[c..c + d + 1 + f]) && !IsDigitString(src[c..c + d + 1 + f])
  {
    var lexeme := src[c..c + d + 1 + f];
    assert lexeme[..d] == src[c..c + d] && lexeme[d + 1..] == src[c + d + 1..c + d + 1 + f];
    assert !IsDigit(lexeme[d]);
  }

  /**
    The value of a NUMBER token: `ctype_digit` lexemes become `(int)`, which
    saturates at `PHP_INT_MAX`; decimals become `(float)`, kept here as
    their lexeme.
   */
  function NumberValue(lexeme: string): (v: Scalar)
    ensures v.Int? <==> IsDigitString(lexeme)
    ensures v.Int? ==> 0 <= v.i <= IntMax
    ensures v.Float? ==> v.lexeme == lexeme
  {
    if IsDigitString(lexeme) then
      var d := DigitsValue(lexeme);
      Int(if d > IntMax then IntMax else d)
    else Float(lexeme)
  }

  /** An integer printed in decimal lexes back to itself. */
  lemma NumberValueOfPrinted(n: nat)
    requires n <= IntMax
    ensures NumberValue(NatToString(n)) == Int(n)
  {
    NatToStringRoundTrip(n);
  }

  /**
    Index of the quote that closes a `REGEX_STRING` literal whose body starts
    at `i`: a backslash always takes the following character with it (the
    `s` flag lets `.` match a newline).
   */
  function QuotedEnd(src: string, i: nat, q: char): (e: Option<nat>)
    requires i <= |src|
    ensures e.Some? ==> i <= e.value < |src| && src[e.value] == q
    decreases |src| - i
  {
    if i >= |src| then None
    else if src[i] == q then Some(i)
    else if src[i] == '\\' then (if i + 1 < |src| then QuotedEnd(src, i + 2, q) else None)
    else QuotedEnd(src, i + 1, q)
  }

  /** Length of the `REGEX_STRING` match at `c` (quotes included), 0 when it does not match. */
  function StringLength(src: string, c: nat): (n: nat)
    requires c < |src|
    ensures c + n <= |src|
    ensures n > 0 ==> n >= 2 && (src[c] == '"' || src[c] == '\'') && src[c + n - 1] == src[c]
    ensures n == 0 && (src[c] == '"' || src[c] == '\'') ==> QuotedEnd(src, c + 1, src[c]).None?
  {
    if src[c] == '"' || src[c] == '\'' then
      match QuotedEnd(src, c + 1, src[c])
      case Some(e) => e - c + 1
      case None => 0
    else 0
  }

  /** Escaping a value for a quoted literal: a backslash before each `\` and each quote character. */
  function EscapeQuoted(v: string, q: char): (r: string)
    ensures q !in v && '\\' !in v ==> r == v
  {
    if |v| == 0 then ""
    else (if v[0] == '\\' || v[0] == q then ['\\', v[0]] else [v[0]]) + EscapeQuoted(v[1..], q)
  }

  /** An escaped body contains its quote only right after a backslash, so the literal closes where the body ends. */
  lemma {:induction false} QuotedEndOfEscaped(pre: string, v: string, q: char, rest: string)
    requires q != '\\'
    ensures var src := pre + EscapeQuoted(v, q) + [q] + rest;
      QuotedEnd(src, |pre|, q) == Some(|pre| + |EscapeQuoted(v, q)|)
    decreases |v|
  {
    var e := EscapeQuoted(v, q);
    var src := pre + e + [q] + rest;
    if |v| == 0 {
      assert src[|pre|] == q;
    } else {
      var head := if v[0] == '\\' || v[0] == q then ['\\', v[0]] else [v[0]];
      var tail := EscapeQuoted(v[1..], q);
      assert e == head + tail;
      assert src == (pre + head) + tail + [q] + rest;
      QuotedEndOfEscaped(pre + head, v[1..], q, rest);
      assert src[|pre|] == head[0];
      if |head| == 2 {
        assert src[|pre| + 1] == head[1];
      }
    }
  }

  predicate IsOctal(c: char) {
    '0' <= c <= '7'
  }

  predicate IsHex(c: char) {
    IsDigit(c) || ('a' <= c <= 'f') || ('A' <= c <= 'F')
  }

  function HexValue(c: char): nat
    requires IsHex(c)
    ensures HexValue(c) < 16
  {
    if IsDigit(c) then c as int - '0' as int
    else if 'a' <= c <= 'f' then c as int - 'a' as int + 10
    else c as int - 'A' as int + 10
  }

  /** Length (at most 3) of the octal digit run at `i`. */
  function OctalRun(s: string, i: nat): (n: nat)
    requires i <= |s|
    ensures n <= 3 && i + n <= |s|
    ensures forall k :: i <= k < i + n ==> IsOctal(s[k])
  {
    if i < |s| && IsOctal(s[i]) then
      if i + 1 < |s| && IsOctal(s[i + 1]) then
        if i + 2 < |s| && IsOctal(s[i + 2]) then 3 else 2
      else 1
    else 0
  }

  function OctalValue(s: string): nat
    requires forall k :: 0 <= k < |s| ==> IsOctal(s[k])
    decreases |s|
  {
    if |s| == 0 then 0 else OctalValue(s[..|s| - 1]) * 8 + OctalDigit(s[|s| - 1])
  }

  function OctalDigit(c: char): nat
    requires IsOctal(c)
  {
    c as int - '0' as int
  }

  /** The one-letter escapes of `stripcslashes`; `None` for every other character. */
  function SimpleEscape(c: char): Option<char> {
    if c == 'n' then Some('\n')
    else if c == 'r' then Some('\r')
    else if c == 'a' then Some(7 as char)
    else if c == 't' then Some('\t')
    else if c == 'v' then Some(11 as char)
    else if c == 'b' then Some(8 as char)
    else if c == 'f' then Some(12 as char)
    else if c == '\\' then Some('\\')
    else None
  }

  /**
    PHP's `stripcslashes`: C escapes, `\xHH` with one or two hex digits,
    `\ooo` with up to three octal digits truncated to a byte, a backslash
    before any other character drops the backslash, and a trailing
    backslash is kept.
   */
  function StripCSlashes(s: string): (r: string)
    ensures |r| <= |s|
    ensures '\\' !in s ==> r == s
    decreases |s|
  {
    if |s| == 0 then ""
    else if s[0] == '\\' && |s| > 1 then
      var c := s[1];
      if SimpleEscape(c).Some? then [SimpleEscape(c).value] + StripCSlashes(s[2..])
      else if c == 'x' && |s| > 2 && IsHex(s[2]) then
        if |s| > 3 && IsHex(s[3]) then [(HexValue(s[2]) * 16 + HexValue(s[3])) as char] + StripCSlashes(s[4..])
        else [HexValue(s[2]) as char] + StripCSlashes(s[3..])
      else
        var k := OctalRun(s, 1);
        if k > 0 then [(OctalValue(s[1..1 + k]) % 256) as char] + StripCSlashes(s[1 + k..])
        else [c] + StripCSlashes(s[2..])
    else [s[0]] + StripCSlashes(s[1..])
  }

  /** Unescaping an escaped literal body gives back the original value, for either quote. */
  lemma {:induction false} StripEscapedRoundTrip(v: string, q: char)
    requires q == '"' || q == '\''
    ensures StripCSlashes(EscapeQuoted(v, q)) == v
    decreases |v|
  {
    if |v| > 0 {
      var tail := EscapeQuoted(v[1..], q);
      StripEscapedRoundTrip(v[1..], q);
      if v[0] == '\\' || v[0] == q {
        StripEscapePair(v[0], tail);
      } else {
        StripPlain(v[0], tail);
      }
      assert v == [v[0]] + v[1..];
    }
  }

  /** A backslash before `\` or a quote unescapes to that character alone. */
  lemma StripEscapePair(c: char, tail: string)
    requires c == '\\' || c == '"' || c == '\''
    ensures StripCSlashes(['\\', c] + tail) == [c] + StripCSlashes(tail)
  {
    var s := ['\\', c] + tail;
    assert s[0] == '\\' && s[1] == c && s[2..] == tail;
    assert c != '\\' ==> SimpleEscape(c).None? && OctalRun(s, 1) == 0;
  }

  /** A character other than a backslash is copied. */
  lemma StripPlain(c: char, tail: string)
    requires c != '\\'
    ensures StripCSlashes([c] + tail) == [c] + StripCSlashes(tail)
  {
    var s := [c] + tail;
    assert s[0] == c && s[1..] == tail;
  }

  /** `str_replace(array("\r\n", "\r"), "\n", $source)`: both passes, in that order. */
  function Normalize(source: string): (r: string)
    ensures '\r' !in r
  {
    var once := ReplaceAll(source, "\r\n", "\n");
    ReplaceCharRemoves(once, '\r', '\n');
    ReplaceAll(once, "\r", "\n")
  }

  /** A source without carriage returns is left as it is. */
  lemma NormalizeIdentity(source: string)
    requires '\r' !in source
    ensures Normalize(source) == source
  {
    forall j ensures !At(source, "\r\n", j) {
      if 0 <= j && j + 2 <= |source| {
        assert source[j..j + 2][0] == source[j];
      }
    }
    ReplaceAllAbsent(source, "\r\n", "\n");
    forall j ensures !At(source, "\r", j) {
      if 0 <= j && j + 1 <= |source| {
        assert source[j..j + 1][0] == source[j];
      }
    }
    ReplaceAllAbsent(source, "\r", "\n");
  }
}
