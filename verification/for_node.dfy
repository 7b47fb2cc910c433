/**
  `Spoon\Template\Parser\ForNode` and `EndForNode`: the `{for $v in $list}`
  header and the `{endfor}` tag.

  The header steps onto the loop variable, which must be a NAME starting
  with `$`, then demands the NAME `in` and a NAME compiled as a
  sub-variable.  It writes a fixed prologue without line markers: save the
  context, initialise the loop metadata (`count`, `first`, `last`, and the
  counter `i` at 1), open the `foreach` binding the variable's name, and set
  `last` when the counter equals the count.  Nothing the node writes ever
  advances the counter.  `{endfor}` steps over one token, outdents, closes
  the `foreach` and restores the context.
 */
module ForNodes {
  import opened Errors
  import opened Strings
  import opened Tokens
  import opened TokenStreams
  import opened SyntaxErrors
  import opened Writers
  import SubVariables

  const ForSyntaxMessage: string := "Unrecognized \"for\" syntax. Expected something like {for $user in $users}..."
  const InMessage: string := "custom message.."
  const ListMessage: string := "custom message about for loop"

  const SaveParent: string := "$context['_parent'] = $context;\n"
  const FirstTrue: string := "$context['loop']['first'] = true;\n"
  const LastFalse: string := "$context['loop']['last'] = false;\n"
  const CounterStart: string := "$context['loop']['i'] = 1;\n"
  /** The condition under which `last` is set: the counter has reached the count. */
  const CounterIsCount: string := "$context['loop']['i'] == $context['loop']['count']"
  const IfLast: string := "if(" + CounterIsCount + "):\n"
  const SetLast: string := "$context['loop']['last'] = true;\n"
  const EndIf: string := "endif;"
  const EndForeach: string := "endforeach;\n"
  const RestoreParent: string := "$context = $context['_parent'];\n"

  function CountLine(code: string): string {
    "$context['loop']['count'] = count(" + code + ");\n"
  }

  /** The `foreach` header: the list's code, iterated into the context key named after the loop variable. */
  function ForeachLine(code: string, name: string): string {
    "foreach(" + code + " as " + KeyTarget + " => " + ValueTarget(name) + "):\n"
  }

  /** Where the `foreach` stores each key. */
  const KeyTarget: string := "$context['loop']['key']"

  /** Where the `foreach` stores each element: the context entry named after the loop variable. */
  function ValueTarget(name: string): string {
    "$context['" + name + "']"
  }

  /** The six statements at the header's own level, ending with the `foreach`. */
  function Head(w: Writer, code: string, name: string): (r: Writer)
    ensures r.indentation == w.indentation && r.lastLine == w.lastLine
  {
    var w1 := Write(w, SaveParent, None);
    var w2 := Write(w1, CountLine(code), None);
    var w3 := Write(w2, FirstTrue, None);
    var w4 := Write(w3, LastFalse, None);
    var w5 := Write(w4, CounterStart, None);
    Write(w5, ForeachLine(code, name), None)
  }

  /** Inside the loop: the `last` test, its assignment one level deeper, and `endif;`. */
  function LastTest(w: Writer): (r: Writer)
    ensures r.indentation == w.indentation + 1 && r.lastLine == w.lastLine
  {
    var w7 := Write(Indent(w, 1), IfLast, None);
    var w8 := Write(Indent(w7, 1), SetLast, None);
    Write(Outdent(w8, 1), EndIf, None)
  }

  /** The writes of the header once the list's code and the variable's name are known. */
  function Prologue(w: Writer, code: string, name: string): (r: Writer)
    ensures r.indentation == w.indentation + 1
    ensures r.lastLine == w.lastLine
  {
    LastTest(Head(w, code, name))
  }

  /**
    The tokens of the header up to the list: the loop variable (a NAME with
    a leading `$`), the NAME `in`, and a NAME; the variable's name without
    its `$` and the stream on the list's first token.
   */
  function Header(s: Stream): (r: Result<(string, Stream)>)
    ensures r.Ok? ==>
      && s.cursor + 3 < |s.tokens|
      && s.tokens[s.cursor + 1].kind == NAME && StartsWithDollar(s.tokens[s.cursor + 1].value)
      && Test(s.tokens[s.cursor + 2], NAME, Exactly(Str("in")))
      && s.tokens[s.cursor + 3].kind == NAME
      && r.value == (DropFirst(s.tokens[s.cursor + 1].value), s.(cursor := s.cursor + 3))
  {
    var s1 :- Next(s);
    var t := Tok(s1);
    var _ :- Expect(s1, NAME, AnyValue, None);
    if !StartsWithDollar(t.value) then Err(Raise(ForSyntaxMessage, t.line, s.filename))
    else
      var s2 :- Next(s1);
      var _ :- Expect(s2, NAME, Exactly(Str("in")), Some(InMessage));
      var s3 :- Next(s2);
      var _ :- Expect(s3, NAME, AnyValue, Some(ListMessage));
      Ok((DropFirst(t.value), s3))
  }

  /** `ForNode::compile()`: the writer after the prologue and the stream after the list's sub-variable. */
  function Compile(s: Stream, w: Writer): (r: Result<(Writer, Stream)>)
    ensures r.Ok? ==> var h := Header(s);
      && h.Ok?
      && var list := SubVariables.Compile(h.value.1);
         && list.Ok?
         && r.value == (Prologue(w, list.value.0, h.value.0), list.value.1)
         && r.value.0.indentation == w.indentation + 1
         && r.value.0.lastLine == w.lastLine
    ensures Header(s).Err? ==> r == Err(Header(s).error)
  {
    var (name, s3) :- Header(s);
    var list :- SubVariables.Compile(s3);
    Ok((Prologue(w, list.0, name), list.1))
  }

  /** The loop variable must be a NAME with a leading `$`, reported at its own line. */
  lemma VariableRequired(tokens: seq<Token>, c: nat, f: Option<string>, w: Writer)
    requires c + 1 < |tokens|
    ensures var t := tokens[c + 1];
      && (t.kind != NAME ==> Compile(Stream(tokens, c, f), w) == Err(Raise(UnexpectedMessage(t), t.line, f)))
      && (t.kind == NAME && !StartsWithDollar(t.value) ==>
            Compile(Stream(tokens, c, f), w) == Err(Raise(ForSyntaxMessage, t.line, f)))
  {
    assert Next(Stream(tokens, c, f)) == Ok(Stream(tokens, c + 1, f));
  }

  /** After the loop variable, anything but the NAME `in` is reported with the `in` message. */
  lemma InRequired(tokens: seq<Token>, c: nat, f: Option<string>, w: Writer)
    requires c + 2 < |tokens|
    requires tokens[c + 1].kind == NAME && StartsWithDollar(tokens[c + 1].value)
    requires !Test(tokens[c + 2], NAME, Exactly(Str("in")))
    ensures Compile(Stream(tokens, c, f), w) == Err(Raise(InMessage, tokens[c + 2].line, f))
  {
    assert Next(Stream(tokens, c, f)) == Ok(Stream(tokens, c + 1, f));
    assert Next(Stream(tokens, c + 1, f)) == Ok(Stream(tokens, c + 2, f));
  }

  /** `EndForNode::compile()`: one token forward, one level out, the closing lines. */
  function CompileEnd(s: Stream, w: Writer): (r: Result<(Writer, Stream)>)
    ensures r.Ok? <==> s.cursor + 1 < |s.tokens|
    ensures r.Ok? ==> var (w', s') := r.value;
      && s' == s.(cursor := s.cursor + 1)
      && w'.indentation == w.indentation - 1
      && w'.lastLine == w.lastLine
  {
    var s1 :- Next(s);
    var w1 := Outdent(w, 1);
    Ok((Write(Write(w1, EndForeach, None), RestoreParent, None), s1))
  }

  /** A write without a line appends the prefix and the value and nothing else. */
  lemma PlainWrite(w: Writer, value: string)
    ensures Write(w, value, None) == w.(source := w.source + Prefix(w.indentation) + value)
  {
  }

  /** The six statements of `Head`, each behind the header's prefix. */
  lemma {:induction false} HeadText(w: Writer, code: string, name: string)
    ensures var p0 := Prefix(w.indentation);
      Head(w, code, name).source
        == w.source + p0 + SaveParent + p0 + CountLine(code) + p0 + FirstTrue + p0 + LastFalse
           + p0 + CounterStart + p0 + ForeachLine(code, name)
  {
    var w1 := Write(w, SaveParent, None);
    PlainWrite(w, SaveParent);
    var w2 := Write(w1, CountLine(code), None);
    PlainWrite(w1, CountLine(code));
    var w3 := Write(w2, FirstTrue, None);
    PlainWrite(w2, FirstTrue);
    var w4 := Write(w3, LastFalse, None);
    PlainWrite(w3, LastFalse);
    var w5 := Write(w4, CounterStart, None);
    PlainWrite(w4, CounterStart);
    PlainWrite(w5, ForeachLine(code, name));
  }

  /** The `last` test one level deeper, its assignment two levels deeper, `endif;` (no newline) one level deeper. */
  lemma {:induction false} LastTestText(w: Writer)
    ensures var p1 := Prefix(w.indentation + 1);
            var p2 := Prefix(w.indentation + 2);
      LastTest(w).source == w.source + p1 + IfLast + p2 + SetLast + p1 + EndIf
  {
    var w7 := Write(Indent(w, 1), IfLast, None);
    PlainWrite(Indent(w, 1), IfLast);
    var w8 := Write(Indent(w7, 1), SetLast, None);
    PlainWrite(Indent(w7, 1), SetLast);
    PlainWrite(Outdent(w8, 1), EndIf);
  }

  /**
    The prologue's text, in its fixed order: six statements at the header's
    level, then the `last` test, its assignment and `endif;` inside the loop.
   */
  lemma PrologueText(w: Writer, code: string, name: string)
    ensures var p0 := Prefix(w.indentation);
            var p1 := Prefix(w.indentation + 1);
            var p2 := Prefix(w.indentation + 2);
      Prologue(w, code, name).source
        == w.source + p0 + SaveParent + p0 + CountLine(code) + p0 + FirstTrue + p0 + LastFalse
           + p0 + CounterStart + p0 + ForeachLine(code, name)
           + p1 + IfLast + p2 + SetLast + p1 + EndIf
  {
    HeadText(w, code, name);
    LastTestText(Head(w, code, name));
  }

  /**
    A header followed by `{endfor}`: the indentation is back where it was,
    no line marker was written, and the closing lines sit at the level of
    the `foreach` header, right after the prologue's `endif;`.
   */
  lemma ForThenEndFor(w: Writer, code: string, name: string, s: Stream)
    requires s.cursor + 1 < |s.tokens|
    ensures var w1 := Prologue(w, code, name);
            var r := CompileEnd(s, w1);
      && r.Ok?
      && r.value.0.indentation == w.indentation
      && r.value.0.lastLine == w.lastLine
      && r.value.0.source == w1.source + Prefix(w.indentation) + EndForeach + Prefix(w.indentation) + RestoreParent
  {
    var w1 := Prologue(w, code, name);
    var o := Outdent(w1, 1);
    assert o.indentation == w.indentation;
    PlainWrite(o, EndForeach);
    PlainWrite(Write(o, EndForeach, None), RestoreParent);
  }

  /** The loop counter. */
  const Counter: string := "$context['loop']['i']"

  /** The statement prefix that assigns the loop counter. */
  const CounterAssignment: string := Counter + " ="

  /** Two strings that differ at a position inside both are not prefix-related. */
  lemma Differ(a: string, b: string, k: nat)
    requires k < |a| && k < |b| && a[k] != b[k]
    ensures !(a <= b)
  {
  }

  /**
    Whatever the list's code and the loop variable's name, nothing the
    header or `{endfor}` writes advances the counter.  Every statement but
    the `foreach` that assigns does so to the text before its ` =`, and
    among them only the initialisation to 1 starts with the counter; the
    `foreach` assigns its key target and its value target, and neither is
    the counter when the name has no quote, as no lexed NAME has.  The
    value target holds the counter only for the loop variable `$loop`,
    whose `foreach` overwrites the whole loop metadata, counter included,
    with each element.  For every other variable `last` is set only when
    the list has exactly one element.  (`$context` itself is assigned only
    by `{endfor}`, after the loop.)
   */
  lemma CounterNeverAdvances(code: string, name: string)
    ensures CounterAssignment <= CounterStart
    ensures forall stmt :: stmt in [SaveParent, CountLine(code), FirstTrue, LastFalse, ForeachLine(code, name),
                                    IfLast, SetLast, EndIf, EndForeach, RestoreParent]
              ==> !(CounterAssignment <= stmt)
    ensures KeyTarget != Counter
    ensures '\'' !in name ==> ValueTarget(name) != Counter
    ensures '\'' !in name ==> (ValueTarget(name) <= Counter <==> name == "loop")
  {
    FixedStatementsLeaveCounter();
    LoopVariableHoldsCounter(name);
    assert CountLine(code)[18] == 'c';
    Differ(CounterAssignment, CountLine(code), 18);
    assert ForeachLine(code, name)[0] == 'f';
    Differ(CounterAssignment, ForeachLine(code, name), 0);
    assert KeyTarget[18] == 'k' && Counter[18] == 'i';
    if ValueTarget(name) == Counter {
      assert name == ValueTarget(name)[10..|ValueTarget(name)| - 2] == Counter[10..19];
      assert name[4] == '\'';
    }
  }

  /** A quote-free loop variable's context entry encloses the counter exactly when the variable is `$loop`. */
  lemma LoopVariableHoldsCounter(name: string)
    ensures '\'' !in name ==> (ValueTarget(name) <= Counter <==> name == "loop")
  {
    var v := ValueTarget(name);
    assert Counter[10..14] == "loop" && Counter[14] == '\'';
    if '\'' !in name && v <= Counter {
      var n := |name|;
      assert v[10..10 + n] == name && v[10 + n] == '\'';
      assert name == Counter[10..14];
    }
    if name == "loop" {
      assert v == Counter[..16];
    }
  }

  /** The statements that do not depend on the list or the variable: only the initialisation assigns the counter. */
  lemma FixedStatementsLeaveCounter()
    ensures CounterAssignment[18] == 'i'
    ensures CounterAssignment <= CounterStart
    ensures forall stmt :: stmt in [SaveParent, FirstTrue, LastFalse, IfLast, SetLast, EndIf, EndForeach, RestoreParent]
              ==> !(CounterAssignment <= stmt)
  {
    assert CounterAssignment[0] == '$' && CounterAssignment[8] == '[' && CounterAssignment[10] == 'l' && CounterAssignment[18] == 'i';
    assert SaveParent[10] == '_';
    Differ(CounterAssignment, SaveParent, 10);
    assert FirstTrue[18] == 'f';
    Differ(CounterAssignment, FirstTrue, 18);
    assert LastFalse[18] == 'l';
    Differ(CounterAssignment, LastFalse, 18);
    assert IfLast[0] == "if("[0] == 'i';
    Differ(CounterAssignment, IfLast, 0);
    assert SetLast[18] == 'l';
    Differ(CounterAssignment, SetLast, 18);
    assert |EndIf| < |CounterAssignment|;
    assert EndForeach[0] == 'e';
    Differ(CounterAssignment, EndForeach, 0);
    assert RestoreParent[8] == ' ';
    Differ(CounterAssignment, RestoreParent, 8);
  }

  /** The header `$v in` followed by a NAME reads `v` and stops on that NAME. */
  lemma HeaderAt(tokens: seq<Token>, c: nat, v: string, line: int, filename: Option<string>)
    requires c + 3 < |tokens|
    requires tokens[c + 1] == Token(NAME, Str("$" + v), line)
    requires tokens[c + 2] == Token(NAME, Str("in"), line)
    requires tokens[c + 3].kind == NAME
    ensures Header(Stream(tokens, c, filename)) == Ok((v, Stream(tokens, c + 3, filename)))
  {
    assert DropFirst(Str("$" + v)) == v by { assert ("$" + v)[1..] == v; }
    assert StartsWithDollar(Str("$" + v)) by { assert ("$" + v)[0] == '$'; }
    assert Next(Stream(tokens, c, filename)) == Ok(Stream(tokens, c + 1, filename));
    assert Next(Stream(tokens, c + 1, filename)) == Ok(Stream(tokens, c + 2, filename));
    assert Next(Stream(tokens, c + 2, filename)) == Ok(Stream(tokens, c + 3, filename));
  }

  /** The header `$v in`, then a list that compiles: the prologue over the list's code and the stream after it. */
  lemma CompileFrom(tokens: seq<Token>, c: nat, v: string, line: int, filename: Option<string>, w: Writer,
                    code: string, rest: Stream)
    requires c + 3 < |tokens|
    requires tokens[c + 1] == Token(NAME, Str("$" + v), line)
    requires tokens[c + 2] == Token(NAME, Str("in"), line)
    requires tokens[c + 3].kind == NAME
    requires SubVariables.Compile(Stream(tokens, c + 3, filename)) == Ok((code, rest))
    ensures Compile(Stream(tokens, c, filename), w) == Ok((Prologue(w, code, v), rest))
  {
    HeaderAt(tokens, c, v, line, filename);
  }

  /** The list after `in` compiles as a sub-variable up to the first token after its keys. */
  lemma ListAt(tokens: seq<Token>, c: nat, first: string, keys: seq<string>, line: int, filename: Option<string>)
    requires SubVariables.DollarFree(keys, 0)
    requires c + 4 + 2 * |keys| < |tokens|
    requires tokens[c + 3] == Token(NAME, Str("$" + first), line)
    requires tokens[c + 4..c + 4 + 2 * |keys|] == Chain(".", keys, line)
    requires !IsPunct(tokens[c + 4 + 2 * |keys|], ".")
    ensures SubVariables.Compile(Stream(tokens, c + 3, filename))
              == Ok((SubVariables.GetVarCall([first] + keys), Stream(tokens, c + 4 + 2 * |keys|, filename)))
  {
    var d, end := c + 3, c + 4 + 2 * |keys|;
    assert d + 1 + 2 * |keys| == end;
    SubVariables.CompileAt(tokens, d, first, keys, line, filename);
  }

  /**
    `{for $v in $first.k1.k2…}` as the lexer produces it: the header binds
    the context key `v` and iterates the list's `getVar` call; the stream
    stops on the first token after the list.
   */
  lemma RoundTrip(tokens: seq<Token>, c: nat, v: string, first: string, keys: seq<string>, line: int, filename: Option<string>, w: Writer)
    requires SubVariables.DollarFree(keys, 0)
    requires c + 4 + 2 * |keys| < |tokens|
    requires tokens[c + 1] == Token(NAME, Str("$" + v), line)
    requires tokens[c + 2] == Token(NAME, Str("in"), line)
    requires tokens[c + 3] == Token(NAME, Str("$" + first), line)
    requires tokens[c + 4..c + 4 + 2 * |keys|] == Chain(".", keys, line)
    requires !IsPunct(tokens[c + 4 + 2 * |keys|], ".")
    ensures var code := SubVariables.GetVarCall([first] + keys);
      Compile(Stream(tokens, c, filename), w)
        == Ok((Prologue(w, code, v), Stream(tokens, c + 4 + 2 * |keys|, filename)))
  {
    var end := c + 4 + 2 * |keys|;
    var code := SubVariables.GetVarCall([first] + keys);
    ListAt(tokens, c, first, keys, line, filename);
    CompileFrom(tokens, c, v, line, filename, w, code, Stream(tokens, end, filename));
  }
}
