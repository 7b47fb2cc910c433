/**
  `Spoon\Template\Parser\IfNode` and `ElseNode`.

  `{if $a.b}` steps onto its condition, which must be a NAME starting with
  `$` (a single sub-variable; no operators), writes `if(<code>):` marked
  with the condition's line and indents.  `{else}` outdents, writes
  `else:` and indents again; it neither reads the stream nor writes a line
  marker.
 */
module IfNodes {
  import opened Errors
  import opened Strings
  import opened Tokens
  import opened TokenStreams
  import opened SyntaxErrors
  import opened Writers
  import SubVariables

  const ExpectingVariable: string := "Expecting variable"
  const ElseLine: string := "else:\n"

  /** The statement opening the conditional block. */
  function Condition(code: string): string {
    "if(" + code + "):\n"
  }

  /**
    The condition's first token: one step forward, a NAME with a leading
    `$`; its line and the stream on it.
   */
  function Subject(s: Stream): (r: Result<(int, Stream)>)
    ensures r.Ok? ==>
      && s.cursor + 1 < |s.tokens|
      && s.tokens[s.cursor + 1].kind == NAME && StartsWithDollar(s.tokens[s.cursor + 1].value)
      && r.value == (s.tokens[s.cursor + 1].line, s.(cursor := s.cursor + 1))
  {
    var s1 :- Next(s);
    var t := Tok(s1);
    var _ :- Expect(s1, NAME, AnyValue, None);
    if !StartsWithDollar(t.value) then Err(Raise(ExpectingVariable, t.line, s.filename))
    else Ok((t.line, s1))
  }

  /**
    `IfNode::compile()`: the writer after the `if(…):` line and one indent,
    and the stream after the condition's sub-variable.
   */
  function Compile(s: Stream, w: Writer): (r: Result<(Writer, Stream)>)
    ensures Subject(s).Err? ==> r == Err(Subject(s).error)
    ensures r.Ok? ==>
      && Subject(s).Ok?
      && var (line, s1) := Subject(s).value;
      && var cond := SubVariables.Compile(s1);
      && cond.Ok?
      && r.value == (Indent(Write(w, Condition(cond.value.0), Some(line)), 1), cond.value.1)
      && r.value.0.indentation == w.indentation + 1
  {
    var (line, s1) :- Subject(s);
    var cond :- SubVariables.Compile(s1);
    Ok((Indent(Write(w, Condition(cond.0), Some(line)), 1), cond.1))
  }

  /** The condition must be a NAME with a leading `$`; either error carries that token's line. */
  lemma VariableRequired(tokens: seq<Token>, c: nat, f: Option<string>, w: Writer)
    requires c + 1 < |tokens|
    ensures var t := tokens[c + 1];
      && (t.kind != NAME ==> Compile(Stream(tokens, c, f), w) == Err(Raise(UnexpectedMessage(t), t.line, f)))
      && (t.kind == NAME && !StartsWithDollar(t.value) ==>
            Compile(Stream(tokens, c, f), w) == Err(Raise(ExpectingVariable, t.line, f)))
  {
    assert Next(Stream(tokens, c, f)) == Ok(Stream(tokens, c + 1, f));
  }

  /** At the end of the stream there is no condition to step onto. */
  lemma ConditionMissing(s: Stream, w: Writer)
    requires s.cursor + 1 >= |s.tokens|
    ensures Compile(s, w) == Err(OutOfRange(s.cursor + 1))
  {
  }

  /** `ElseNode::compile()`: out one level, `else:`, in one level. */
  function CompileElse(w: Writer): (r: Writer)
    ensures r.indentation == w.indentation
    ensures r.lastLine == w.lastLine
  {
    Indent(Write(Outdent(w, 1), ElseLine, None), 1)
  }

  /** `{else}` appends `else:` one level shallower than the block it interrupts, and nothing else. */
  lemma ElseText(w: Writer)
    ensures CompileElse(w).source == w.source + Prefix(w.indentation - 1) + ElseLine
  {
  }

  /**
    `{if $first.k1…}` as the lexer produces it: one `if(` line over the
    condition's `getVar` call, marked with the condition's line, then one
    level deeper; the stream stops on the first token after the condition.
   */
  lemma RoundTrip(tokens: seq<Token>, c: nat, first: string, keys: seq<string>, line: int, filename: Option<string>, w: Writer)
    requires SubVariables.DollarFree(keys, 0)
    requires c + 2 + 2 * |keys| < |tokens|
    requires tokens[c + 1] == Token(NAME, Str("$" + first), line)
    requires tokens[c + 2..c + 2 + 2 * |keys|] == Chain(".", keys, line)
    requires !IsPunct(tokens[c + 2 + 2 * |keys|], ".")
    ensures var code := SubVariables.GetVarCall([first] + keys);
      Compile(Stream(tokens, c, filename), w)
        == Ok((Indent(Write(w, Condition(code), Some(line)), 1), Stream(tokens, c + 2 + 2 * |keys|, filename)))
  {
    var d, end := c + 1, c + 2 + 2 * |keys|;
    assert d + 1 + 2 * |keys| == end;
    SubVariables.CompileAt(tokens, d, first, keys, line, filename);
    assert Subject(Stream(tokens, c, filename)) == Ok((line, Stream(tokens, d, filename))) by {
      assert StartsWithDollar(Str("$" + first)) by { assert ("$" + first)[0] == '$'; }
      assert Next(Stream(tokens, c, filename)) == Ok(Stream(tokens, d, filename));
    }
  }

  /**
    An `{if}` then an `{else}`: the `else:` line gets the prefix of the
    `if(` line, no marker is added for it, and the indentation is again one
    level deeper than before the `if`.
   */
  lemma IfThenElse(s: Stream, w: Writer)
    requires Compile(s, w).Ok?
    ensures var w1 := Compile(s, w).value.0;
            var w2 := CompileElse(w1);
      && w2.indentation == w.indentation + 1
      && w2.lastLine == w1.lastLine
      && w2.source == w1.source + Prefix(w.indentation) + ElseLine
  {
    ElseText(Compile(s, w).value.0);
  }

  /** The `if(` line is written at the writer's level, after the condition's marker when its line is new. */
  lemma ConditionText(w: Writer, code: string, line: int)
    ensures var r := Indent(Write(w, Condition(code), Some(line)), 1);
      && (LaterThan(line, w.lastLine) ==>
            r.source == w.source + Prefix(w.indentation) + Marker(line) + Prefix(w.indentation) + Condition(code)
            && r.lastLine == Some(line))
      && (!LaterThan(line, w.lastLine) ==>
            r.source == w.source + Prefix(w.indentation) + Condition(code) && r.lastLine == w.lastLine)
  {
  }
}
