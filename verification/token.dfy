/**
  `Spoon\Template\Token`: an immutable record of type, value and line.

  The datatype's fields play the role of `getType`, `getValue` and
  `getLine`: a token built from (type, value, line) answers exactly those.
 */
module Tokens {
  import opened Errors
  import opened Strings

  /** The token type constants of the class. */
  datatype TokenType =
    | EOF | TEXT | BLOCK_START | BLOCK_END | VAR_START | VAR_END
    | NAME | NUMBER | STRING | OPERATOR | PUNCTUATION

  /** The integer value of each class constant (`Token::EOF` is -1, `Token::PUNCTUATION` is 9). */
  function Code(t: TokenType): int {
    match t
    case EOF => -1
    case TEXT => 0
    case BLOCK_START => 1
    case BLOCK_END => 2
    case VAR_START => 3
    case VAR_END => 4
    case NAME => 5
    case NUMBER => 6
    case STRING => 7
    case OPERATOR => 8
    case PUNCTUATION => 9
  }

  /** The readable name of a type. */
  function Label(t: TokenType): string {
    match t
    case EOF => "EOF"
    case TEXT => "TEXT"
    case BLOCK_START => "BLOCK_START"
    case BLOCK_END => "BLOCK_END"
    case VAR_START => "VAR_START"
    case VAR_END => "VAR_END"
    case NAME => "NAME"
    case NUMBER => "NUMBER"
    case STRING => "STRING"
    case OPERATOR => "OPERATOR"
    case PUNCTUATION => "PUNCTUATION"
  }

  function FromCode(code: int): Option<TokenType> {
    if code == -1 then Some(EOF)
    else if code == 0 then Some(TEXT)
    else if code == 1 then Some(BLOCK_START)
    else if code == 2 then Some(BLOCK_END)
    else if code == 3 then Some(VAR_START)
    else if code == 4 then Some(VAR_END)
    else if code == 5 then Some(NAME)
    else if code == 6 then Some(NUMBER)
    else if code == 7 then Some(STRING)
    else if code == 8 then Some(OPERATOR)
    else if code == 9 then Some(PUNCTUATION)
    else None
  }

  /** The labels in constant order, -1 first. */
  const Labels: seq<string> := ["EOF", "TEXT", "BLOCK_START", "BLOCK_END", "VAR_START", "VAR_END",
                                "NAME", "NUMBER", "STRING", "OPERATOR", "PUNCTUATION"]

  /** `Token::typeToString`: the label of a type constant, an Exception for any other integer. */
  function TypeToString(code: int): (r: Result<string>)
    ensures -1 <= code <= 9 ==> r == Ok(Labels[code + 1])
    ensures !(-1 <= code <= 9) ==> r == Err(Exception("There is no token type \"" + IntToString(code) + "\""))
  {
    match FromCode(code)
    case Some(t) => Ok(Label(t))
    case None => Err(Exception("There is no token type \"" + IntToString(code) + "\""))
  }

  /** Every type's constant converts back to that type's label. */
  lemma TypeToStringOfCode(t: TokenType)
    ensures -1 <= Code(t) <= 9
    ensures TypeToString(Code(t)) == Ok(Label(t))
    ensures FromCode(Code(t)) == Some(t)
  {
  }

  /** The PHP value a token carries: null, a string, an integer or a float (kept as its lexeme). */
  datatype Scalar = Null | Str(s: string) | Int(i: int) | Float(lexeme: string)

  datatype Token = Token(kind: TokenType, value: Scalar, line: int)

  /** PHP's string conversion of a token value. */
  function ScalarToString(v: Scalar): string {
    match v
    case Null => ""
    case Str(s) => s
    case Int(i) => IntToString(i)
    case Float(lexeme) => lexeme
  }

  /** `substr($value, 0, 1) == '$'`. */
  predicate StartsWithDollar(v: Scalar) {
    var s := ScalarToString(v); |s| > 0 && s[0] == '$'
  }

  /** `strpos($value, '$') !== false`. */
  predicate ContainsDollar(v: Scalar) {
    '$' in ScalarToString(v)
  }

  /** `substr($value, 1)`: the value without its first character. */
  function DropFirst(v: Scalar): string {
    var s := ScalarToString(v); if |s| == 0 then "" else s[1..]
  }

  /** PHP's `PHP_INT_MAX` and `PHP_INT_MIN` on a 64-bit build. */
  const IntMax: int := 0x7FFF_FFFF_FFFF_FFFF
  const IntMin: int := -0x8000_0000_0000_0000

  /** A string of the form `-?[0-9]+`, which PHP compares numerically. */
  predicate IsIntegerString(s: string) {
    if |s| > 0 && s[0] == '-' then IsDigitString(s[1..]) else IsDigitString(s)
  }

  predicate IsDigitString(s: string) {
    |s| > 0 && forall k :: 0 <= k < |s| ==> IsDigit(s[k])
  }

  function IntegerStringValue(s: string): int
    requires IsIntegerString(s)
  {
    if |s| > 0 && s[0] == '-' then
      var digits := s[1..];
      assert IsDigitString(digits);
      0 - DigitsValue(digits) as int
    else DigitsValue(s)
  }

  /** The integer a value compares as under `==`, when it has one. */
  function IntegerView(v: Scalar): Option<int> {
    match v
    case Int(i) => Some(i)
    case Str(s) => if IsIntegerString(s) then Some(IntegerStringValue(s)) else None
    case Float(lexeme) => FloatIntegerView(lexeme)
    case Null => None
  }

  /** A decimal lexeme `d+.d+` whose fraction is all zeros equals its integer part. */
  function FloatIntegerView(lexeme: string): Option<int> {
    if exists k :: 0 <= k < |lexeme| && lexeme[k] == '.' then
      var k :| 0 <= k < |lexeme| && lexeme[k] == '.';
      if IsDigitString(lexeme[..k]) && IsDigitString(lexeme[k + 1..])
         && forall j :: k + 1 <= j < |lexeme| ==> lexeme[j] == '0'
      then Some(DigitsValue(lexeme[..k]))
      else None
    else None
  }

  /** Length of the maximal run of decimal digits from `i`. */
  function DigitRun(src: string, i: nat): (n: nat)
    requires i <= |src|
    ensures i + n <= |src|
    ensures forall k :: i <= k < i + n ==> IsDigit(src[k])
    ensures i + n == |src| || !IsDigit(src[i + n])
    decreases |src| - i
  {
    if i < |src| && IsDigit(src[i]) then 1 + DigitRun(src, i + 1) else 0
  }

  /**
    The integer PHP 7 reads from the front of a string that is not an
    integer string when it compares it with a number: the value of its
    leading `-?[0-9]+`, or 0 when there is none.
   */
  function LeadingInteger(s: string): int {
    var start := if |s| > 0 && s[0] == '-' then 1 else 0;
    var n := DigitRun(s, start);
    var v := DigitsValue(s[start..start + n]);
    if start == 1 then 0 - v else v
  }

  /** On an integer string the leading integer is the whole string's value. */
  lemma {:induction false} LeadingIntegerOfIntegerString(s: string)
    requires IsIntegerString(s)
    ensures LeadingInteger(s) == IntegerStringValue(s)
  {
    var start := if |s| > 0 && s[0] == '-' then 1 else 0;
    assert IsDigitString(s[start..]);
    DigitRunToEnd(s, start);
    assert s[start..start + DigitRun(s, start)] == s[start..];
  }

  /** A run of digits that reaches the end of the string is measured in full. */
  lemma {:induction false} DigitRunToEnd(s: string, i: nat)
    requires i <= |s|
    requires forall k :: i <= k < |s| ==> IsDigit(s[k])
    ensures DigitRun(s, i) == |s| - i
    decreases |s| - i
  {
    if i < |s| {
      DigitRunToEnd(s, i + 1);
    }
  }

  /**
    PHP 7 loose equality (`==`, as used by `in_array`) on token values:
    null equals the empty string and any number that is zero; an integer
    string compares by its value; a number compared with any other string
    compares with that string's leading integer.
   */
  predicate LooseEquals(a: Scalar, b: Scalar) {
    || a == b
    || (a.Null? && b == Str("")) || (b.Null? && a == Str(""))
    || (a.Null? && !b.Str? && IntegerView(b) == Some(0))
    || (b.Null? && !a.Str? && IntegerView(a) == Some(0))
    || (IntegerView(a).Some? && IntegerView(a) == IntegerView(b))
    || (!a.Str? && b.Str? && !IsIntegerString(b.s) && IntegerView(a) == Some(LeadingInteger(b.s)))
    || (a.Str? && !b.Str? && !IsIntegerString(a.s) && IntegerView(b) == Some(LeadingInteger(a.s)))
  }

  /** The leading integers of a word and of a number followed by letters. */
  lemma LeadingIntegerExamples()
    ensures !IsIntegerString("abc") && LeadingInteger("abc") == 0
    ensures !IsIntegerString("12abc") && LeadingInteger("12abc") == 12
  {
    assert !IsDigit("abc"[0]) && DigitRun("abc", 0) == 0 && "abc"[0..0] == "";
    assert !IsDigit("12abc"[2]) && DigitRun("12abc", 2) == 0;
    assert DigitRun("12abc", 0) == 2 && "12abc"[0..2] == "12";
    assert DigitsValue("12") == 12 by { assert "12"[..1] == "1"; }
  }

  /** Numbers against words under PHP 7's `==`: a word reads as 0, a number followed by letters as that number. */
  lemma LooseEqualsExamples()
    ensures LooseEquals(Int(0), Str("abc")) && LooseEquals(Str("abc"), Int(0))
    ensures !LooseEquals(Int(1), Str("abc"))
    ensures LooseEquals(Int(12), Str("12abc"))
  {
    LeadingIntegerExamples();
  }

  /** The tokens of a chain `.k1.k2…` or `|m1|m2…` as the lexer produces them: the separator before each name. */
  function Chain(sep: string, names: seq<string>, line: int): (r: seq<Token>)
    ensures |r| == 2 * |names|
  {
    if |names| == 0 then []
    else [Token(PUNCTUATION, Str(sep), line), Token(NAME, Str(names[0]), line)] + Chain(sep, names[1..], line)
  }

  /** The optional second argument of `Token::test`. */
  datatype Expected =
    | AnyValue                 // no values given (null)
    | Exactly(v: Scalar)       // a scalar, compared with ===
    | OneOf(vs: seq<Scalar>)   // an array, searched with in_array

  /** `Token::test`: the type must match, then the value is checked against the expectation. */
  predicate Test(t: Token, kind: TokenType, expected: Expected) {
    t.kind == kind &&
    match expected
    case AnyValue => true
    case Exactly(v) => v.Null? || t.value == v
    case OneOf(vs) => exists i :: 0 <= i < |vs| && LooseEquals(t.value, vs[i])
  }

  /** `test(Token::PUNCTUATION, $p)`: a punctuation token with exactly this value. */
  predicate IsPunct(t: Token, p: string) {
    Test(t, PUNCTUATION, Exactly(Str(p)))
  }

  /** The four cases of `Token::test` stated against the token's fields. */
  lemma TestCases(t: Token, kind: TokenType, expected: Expected)
    ensures t.kind != kind ==> !Test(t, kind, expected)
    ensures expected == AnyValue ==> (Test(t, kind, expected) <==> t.kind == kind)
    ensures expected.Exactly? && !expected.v.Null? ==>
              (Test(t, kind, expected) <==> t.kind == kind && t.value == expected.v)
    ensures expected.OneOf? ==>
              (Test(t, kind, expected) <==> t.kind == kind && exists v :: v in expected.vs && LooseEquals(t.value, v))
  {
    if expected.OneOf? && t.kind == kind {
      if exists v :: v in expected.vs && LooseEquals(t.value, v) {
        var v :| v in expected.vs && LooseEquals(t.value, v);
        var i :| 0 <= i < |expected.vs| && expected.vs[i] == v;
      }
    }
  }

  /** The examples of the token unit test: a NAME token `$blub` on line 3. */
  lemma TestExamples()
    ensures var t := Token(NAME, Str("$blub"), 3);
      && !Test(t, BLOCK_END, AnyValue)
      && Test(t, NAME, AnyValue)
      && !Test(t, NAME, OneOf([Str("one"), Str("two"), Str("three")]))
      && Test(t, NAME, OneOf([Str("$blub"), Str("$bleb"), Str("$blab")]))
  {
    var t := Token(NAME, Str("$blub"), 3);
    var blub := [Str("$blub"), Str("$bleb"), Str("$blab")];
    assert LooseEquals(t.value, blub[0]);
  }
}
