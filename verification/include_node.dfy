/**
  `Spoon\Template\Parser\IncludeNode`: `{include 'a' . $b.c . 'd'}`.

  After the tag name, elements are read one by one: a STRING adds its text,
  a NAME starting with `$` adds the compiled sub-variable.  After each
  element the token must be a `.` (another element follows) or the
  BLOCK_END.  Any other token where an element is expected adds nothing
  and ends the list without an error.  The output is one `render` call on
  the elements joined with ` . `, written with the line of the token the
  list ends on.
 */
module IncludeNodes {
  import opened Errors
  import opened Strings
  import opened Tokens
  import opened TokenStreams
  import opened SyntaxErrors
  import opened PhpLiterals
  import opened Writers
  import opened VariableCode
  import SubVariables

  /** A token that starts an element: a STRING, or a NAME starting with `$`. */
  predicate ElementStart(t: Token) {
    t.kind == STRING || (t.kind == NAME && StartsWithDollar(t.value))
  }

  /** The tokens `process()` accepts after an element: `.` or the BLOCK_END. */
  predicate ElementEnd(t: Token) {
    IsPunct(t, ".") || t.kind == BLOCK_END
  }

  /** The stream moved along without touching its tokens or filename. */
  predicate Moved(before: Stream, after: Stream) {
    after.tokens == before.tokens && after.filename == before.filename
    && Valid(after) && before.cursor <= after.cursor
  }

  /**
    `process()`: one element, then either the BLOCK_END (stop), a `.`
    (step over it and go on) or an error.
   */
  function Process(s: Stream, elements: seq<string>): (r: Result<(seq<string>, Stream)>)
    ensures Valid(s) && !ElementStart(Tok(s)) ==> r == Ok((elements, s))
    ensures r.Ok? ==> var (els, s1) := r.value;
      && elements <= els && Moved(s, s1)
      && (Tok(s1).kind == BLOCK_END || !ElementStart(Tok(s1)))
    decreases |s.tokens| - s.cursor
  {
    var t :- Current(s);
    if t.kind == STRING then
      var s1 :- Next(s);
      After(s1, elements + [ScalarToString(t.value)])
    else if t.kind == NAME && StartsWithDollar(t.value) then
      var compiled :- SubVariables.Compile(s);
      After(compiled.1, elements + [compiled.0])
    else Ok((elements, s))
  }

  /** The check after an element, and the step over a `.` to the next one. */
  function After(s1: Stream, elements: seq<string>): (r: Result<(seq<string>, Stream)>)
    requires Valid(s1)
    ensures !ElementEnd(Tok(s1)) ==> r == Err(Raise(UnexpectedMessage(Tok(s1)), Tok(s1).line, s1.filename))
    ensures Tok(s1).kind == BLOCK_END ==> r == Ok((elements, s1))
    ensures r.Ok? ==> var (els, s2) := r.value;
      && elements <= els && Moved(s1, s2)
      && (Tok(s2).kind == BLOCK_END || !ElementStart(Tok(s2)))
    decreases |s1.tokens| - s1.cursor, 0
  {
    var t := Tok(s1);
    if !ElementEnd(t) then Err(Raise(UnexpectedMessage(t), t.line, s1.filename))
    else if IsPunct(t, ".") then
      var s2 :- Next(s1);
      Process(s2, elements)
    else Ok((elements, s1))
  }

  /** One element's code: a value starting with `$` as it is, anything else quoted. */
  function ElementCode(e: string): string {
    if |e| > 0 && e[0] == '$' then e else QuoteArgument(e)
  }

  function ElementCodes(elements: seq<string>): (r: seq<string>)
    ensures |r| == |elements| && forall i :: 0 <= i < |r| ==> r[i] == ElementCode(elements[i])
  {
    if |elements| == 0 then [] else [ElementCode(elements[0])] + ElementCodes(elements[1..])
  }

  const RenderHead: string := "$this->render("
  const RenderTail: string := ", $context);\n"

  /** The statement `build()` writes. */
  function RenderCall(elements: seq<string>): string {
    RenderHead + Join(ElementCodes(elements), " . ") + RenderTail
  }

  /** The text the element loop has produced after `key` of the codes `q`. */
  predicate Partial(q: seq<string>, key: nat, output: string)
    requires key <= |q|
  {
    if key == 0 then output == RenderHead
    else output == RenderHead + Join(q[..key], " . ") + (if key < |q| then " . " else "")
  }

  /** One pass of the element loop keeps `Partial`. */
  lemma {:induction false} PartialStep(q: seq<string>, key: nat, output: string)
    requires key < |q| && Partial(q, key, output)
    ensures Partial(q, key + 1, output + q[key] + (if key < |q| - 1 then " . " else ""))
  {
    if key > 0 {
      assert q[..key + 1] == q[..key] + [q[key]];
      JoinSnoc(q[..key], q[key], " . ");
    } else {
      assert q[..1] == [q[0]];
    }
  }

  /**
    `build()` up to the write: each element's code, ` . ` between two
    elements, then the context argument.
   */
  method BuildRender(elements: seq<string>) returns (output: string)
    ensures output == RenderCall(elements)
  {
    var q := ElementCodes(elements);
    output := RenderHead;
    var count := |elements|;
    var key := 0;
    while key < count
      invariant 0 <= key <= count
      invariant Partial(q, key, output)
    {
      PartialStep(q, key, output);
      output := output + ElementCode(elements[key]) + (if key < count - 1 then " . " else "");
      key := key + 1;
    }
    assert count > 0 ==> q[..count] == q;
    output := output + RenderTail;
  }

  /**
    `compile()`: step over the tag name, read the elements, and write the
    `render` call with the line of the token the list ended on.
   */
  function Compile(s: Stream, w: Writer): (r: Result<(Writer, Stream)>)
    ensures r.Ok? ==>
      && s.cursor + 1 < |s.tokens|
      && Process(s.(cursor := s.cursor + 1), []).Ok?
      && var (els, s1) := Process(s.(cursor := s.cursor + 1), []).value;
         r.value == (Write(w, RenderCall(els), Some(Tok(s1).line)), s1)
    ensures Next(s).Ok? && Process(Next(s).value, []).Err? ==> r == Err(Process(Next(s).value, []).error)
  {
    var s1 :- Next(s);
    var p :- Process(s1, []);
    Ok((Write(w, RenderCall(p.0), Some(Tok(p.1).line)), p.1))
  }

  /** The tokens of `'s0' . 's1' . …` and the closing BLOCK_END. */
  function StringTokens(strs: seq<string>, line: int): (r: seq<Token>)
    requires |strs| > 0
    ensures |r| == 2 * |strs|
  {
    [Token(STRING, Str(strs[0]), line)]
      + (if |strs| == 1 then [Token(BLOCK_END, Null, line)]
         else [Token(PUNCTUATION, Str("."), line)] + StringTokens(strs[1..], line))
  }

  /** A string element followed by the BLOCK_END ends the list there. */
  lemma StringThenEnd(tokens: seq<Token>, c: nat, f: Option<string>, elements: seq<string>, text: string)
    requires c + 1 < |tokens| && tokens[c].kind == STRING && tokens[c].value == Str(text)
    requires tokens[c + 1].kind == BLOCK_END
    ensures Process(Stream(tokens, c, f), elements) == Ok((elements + [text], Stream(tokens, c + 1, f)))
  {
    assert Next(Stream(tokens, c, f)) == Ok(Stream(tokens, c + 1, f));
  }

  /** A string element followed by `.`: the rest of the list decides the result. */
  lemma StringThenDot(tokens: seq<Token>, c: nat, f: Option<string>, elements: seq<string>, text: string,
                      r: Result<(seq<string>, Stream)>)
    requires c + 2 < |tokens| && tokens[c].kind == STRING && tokens[c].value == Str(text) && IsPunct(tokens[c + 1], ".")
    requires Process(Stream(tokens, c + 2, f), elements + [text]) == r
    ensures Process(Stream(tokens, c, f), elements) == r
  {
    assert Next(Stream(tokens, c, f)) == Ok(Stream(tokens, c + 1, f));
    assert Next(Stream(tokens, c + 1, f)) == Ok(Stream(tokens, c + 2, f));
  }

  /** The first string of a list's tokens, its separator, and the rest. */
  lemma StringSplit(tokens: seq<Token>, c: nat, end: nat, strs: seq<string>, line: int)
    requires |strs| > 0 && end == c + 2 * |strs| && end <= |tokens|
    requires tokens[c..end] == StringTokens(strs, line)
    ensures tokens[c] == Token(STRING, Str(strs[0]), line)
    ensures |strs| == 1 ==> tokens[c + 1].kind == BLOCK_END
    ensures |strs| > 1 ==> IsPunct(tokens[c + 1], ".") && tokens[c + 2..end] == StringTokens(strs[1..], line)
  {
    var a := tokens[c..end];
    assert tokens[c] == a[0] && tokens[c + 1] == a[1];
    if |strs| > 1 {
      assert a[2..] == tokens[c + 2..end];
    }
  }

  /**
    A `.`-separated list of strings closed by the BLOCK_END gives those
    strings, in order, with the stream on the BLOCK_END.
   */
  lemma {:induction false} StringChain(tokens: seq<Token>, c: nat, end: nat, f: Option<string>, elements: seq<string>,
                                       strs: seq<string>, line: int)
    requires |strs| > 0 && end == c + 2 * |strs| && end <= |tokens|
    requires tokens[c..end] == StringTokens(strs, line)
    ensures Process(Stream(tokens, c, f), elements) == Ok((elements + strs, Stream(tokens, end - 1, f)))
    decreases |strs|
  {
    StringSplit(tokens, c, end, strs, line);
    var els1 := elements + [strs[0]];
    assert els1 + strs[1..] == elements + strs;
    if |strs| == 1 {
      StringThenEnd(tokens, c, f, elements, strs[0]);
      assert elements + strs == els1;
    } else {
      StringChain(tokens, c + 2, end, f, els1, strs[1..], line);
      StringThenDot(tokens, c, f, elements, strs[0], Ok((elements + strs, Stream(tokens, end - 1, f))));
    }
  }

  /** No string starts with `$`. */
  predicate Unprefixed(strs: seq<string>) {
    forall i :: 0 <= i < |strs| ==> |strs[i]| == 0 || strs[i][0] != '$'
  }

  /** Quoted strings: `QuoteArgument` of each. */
  function Quoted(strs: seq<string>): (r: seq<string>)
    ensures |r| == |strs| && forall i :: 0 <= i < |r| ==> r[i] == QuoteArgument(strs[i])
  {
    if |strs| == 0 then [] else [QuoteArgument(strs[0])] + Quoted(strs[1..])
  }

  /** Strings that do not start with `$` are all quoted. */
  lemma QuotedCodes(strs: seq<string>)
    requires Unprefixed(strs)
    ensures RenderCall(strs) == RenderHead + Join(Quoted(strs), " . ") + RenderTail
  {
    assert ElementCodes(strs) == Quoted(strs);
  }

  /** `compile()` once the elements are known: the `render` call with the line of the token they end on. */
  lemma CompileFrom(t: seq<Token>, f: Option<string>, w: Writer, els: seq<string>, k: nat, line: int)
    requires 1 < |t| && k < |t| && t[k].line == line
    requires Process(Stream(t, 1, f), []) == Ok((els, Stream(t, k, f)))
    ensures Compile(Stream(t, 0, f), w) == Ok((Write(w, RenderCall(els), Some(line)), Stream(t, k, f)))
  {
    assert Next(Stream(t, 0, f)) == Ok(Stream(t, 1, f));
  }

  /** The strings of a tag with string elements only. */
  lemma StringsProcess(t: seq<Token>, strs: seq<string>, line: int, f: Option<string>)
    requires |strs| > 0 && |t| == 1 + 2 * |strs| && t[1..] == StringTokens(strs, line)
    ensures Process(Stream(t, 1, f), []) == Ok((strs, Stream(t, |t| - 1, f)))
    ensures t[|t| - 1].line == line
  {
    assert t[1..1 + 2 * |strs|] == t[1..];
    StringChain(t, 1, 1 + 2 * |strs|, f, [], strs, line);
    assert [] + strs == strs;
    LastLine(strs, line);
    assert t[|t| - 1] == t[1..][2 * |strs| - 1];
  }

  /**
    The include round trip for string elements: a tag name followed by
    `'s0' . 's1' …` and the BLOCK_END writes one `render` call on the quoted
    strings joined with ` . `, marked with the tag's line, and leaves the
    stream on the BLOCK_END.
   */
  lemma StringsRoundTrip(t: seq<Token>, strs: seq<string>, line: int, f: Option<string>, w: Writer)
    requires |strs| > 0 && |t| == 1 + 2 * |strs| && t[1..] == StringTokens(strs, line)
    requires Unprefixed(strs)
    ensures Compile(Stream(t, 0, f), w)
         == Ok((Write(w, RenderHead + Join(Quoted(strs), " . ") + RenderTail, Some(line)), Stream(t, |t| - 1, f)))
  {
    StringsProcess(t, strs, line, f);
    QuotedCodes(strs);
    CompileFrom(t, f, w, strs, |t| - 1, line);
  }

  /** The last token of a string list is the BLOCK_END, on the list's line. */
  lemma {:induction false} LastLine(strs: seq<string>, line: int)
    requires |strs| > 0
    ensures var st := StringTokens(strs, line); st[|st| - 1] == Token(BLOCK_END, Null, line)
    decreases |strs|
  {
    if |strs| > 1 {
      LastLine(strs[1..], line);
      var rest := StringTokens(strs[1..], line);
      assert StringTokens(strs, line) == [Token(STRING, Str(strs[0]), line), Token(PUNCTUATION, Str("."), line)] + rest;
    }
  }

  /** Each quoted string reads back as itself in the generated PHP, when it has no backslash. */
  lemma QuotedReadsBack(s: string)
    requires '\\' !in s
    ensures var q := QuoteArgument(s); DecodeSingleQuoted(q[1..|q| - 1]) == Some(s)
  {
    var q := QuoteArgument(s);
    assert q[1..|q| - 1] == EscapeQuotes(s);
    EscapeQuotesRoundTrip(s);
  }

  /** A sub-variable element followed by the BLOCK_END: the chain's code is the last element. */
  lemma SubElementEnd(tokens: seq<Token>, c: nat, f: Option<string>, elements: seq<string>, code: string, s1: Stream)
    requires c < |tokens| && tokens[c].kind == NAME && StartsWithDollar(tokens[c].value)
    requires SubVariables.Compile(Stream(tokens, c, f)) == Ok((code, s1))
    requires s1.cursor < |s1.tokens| && s1.tokens[s1.cursor].kind == BLOCK_END
    ensures Process(Stream(tokens, c, f), elements) == Ok((elements + [code], s1))
  {
  }

  /** The single element of a tag whose one element is a sub-variable chain. */
  lemma SubVariableProcess(t: seq<Token>, first: string, keys: seq<string>, line: int, f: Option<string>)
    requires SubVariables.DollarFree(keys, 0)
    requires |t| == 3 + 2 * |keys| && t[1] == Token(NAME, Str("$" + first), line)
    requires t[2..|t| - 1] == Chain(".", keys, line) && t[|t| - 1] == Token(BLOCK_END, Null, line)
    ensures Process(Stream(t, 1, f), []) == Ok(([SubVariables.GetVarCall([first] + keys)], Stream(t, |t| - 1, f)))
  {
    var end := |t| - 1;
    assert 1 + 1 + 2 * |keys| == end;
    SubVariables.CompileAt(t, 1, first, keys, line, f);
    assert StartsWithDollar(t[1].value) by { assert ("$" + first)[0] == '$'; }
    var code := SubVariables.GetVarCall([first] + keys);
    SubElementEnd(t, 1, f, [], code, Stream(t, end, f));
    assert [] + [code] == [code];
  }

  /**
    A single sub-variable element: `{include $first.k1…}` writes a `render`
    call on the `getVar` call over the chain, unquoted.
   */
  lemma SubVariableRoundTrip(name: Token, first: string, keys: seq<string>, line: int, f: Option<string>, w: Writer)
    requires SubVariables.DollarFree(keys, 0)
    ensures var t := [name, Token(NAME, Str("$" + first), line)] + Chain(".", keys, line) + [Token(BLOCK_END, Null, line)];
      Compile(Stream(t, 0, f), w)
        == Ok((Write(w, RenderHead + SubVariables.GetVarCall([first] + keys) + RenderTail, Some(line)), Stream(t, |t| - 1, f)))
  {
    var kt := Chain(".", keys, line);
    var t := [name, Token(NAME, Str("$" + first), line)] + kt + [Token(BLOCK_END, Null, line)];
    assert t[2..|t| - 1] == kt;
    SubVariableProcess(t, first, keys, line, f);
    var code := SubVariables.GetVarCall([first] + keys);
    assert code[0] == '$';
    assert ElementCodes([code]) == [code];
    assert RenderCall([code]) == RenderHead + code + RenderTail;
    CompileFrom(t, f, w, [code], |t| - 1, line);
  }

  /** After an element, a token other than `.` or the BLOCK_END is reported. */
  lemma UnexpectedAfterString(tokens: seq<Token>, c: nat, f: Option<string>, elements: seq<string>)
    requires c + 1 < |tokens| && tokens[c].kind == STRING && !ElementEnd(tokens[c + 1])
    ensures Process(Stream(tokens, c, f), elements)
         == Err(Raise(UnexpectedMessage(tokens[c + 1]), tokens[c + 1].line, f))
  {
    assert Next(Stream(tokens, c, f)) == Ok(Stream(tokens, c + 1, f));
  }

  /** A STRING element whose text starts with `$` is written unquoted, as if it were PHP code. */
  lemma DollarStringUnquoted(text: string)
    requires |text| > 0 && text[0] == '$'
    ensures RenderCall([text]) == RenderHead + text + RenderTail
  {
    assert ElementCodes([text]) == [text];
  }
}
