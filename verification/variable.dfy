/**
  `Spoon\Template\Parser\Variable`: the older grammar of a variable tag.

  Unlike `VariableNode`, every routine starts by stepping over the token
  it was called on (the VAR_START, the `.`, the `|`, the `(` or the `,`);
  keys must be NAME tokens (numbers are rejected by `expect`); arguments
  are NUMBER or STRING only; and `compile()` returns the `echo` statement
  instead of writing it.
 */
module Variables {
  import opened Errors
  import opened Strings
  import opened Tokens
  import opened TokenStreams
  import opened SyntaxErrors
  import opened PhpLiterals
  import opened VariableCode
  import VN = VariableNodes
  import SubVariables
  import Writers

  /**
    `processArguments($arguments)`, called on the `(` or the `,`: the next
    token must be a NUMBER or a STRING; then `)` ends the list (and is
    stepped over) and `,` continues it.
   */
  function ProcessArguments(s: Stream, args: seq<string>): (r: Result<(seq<string>, Stream)>)
    ensures r.Ok? ==> VN.Moved(s, r.value.1) && s.cursor + 3 <= r.value.1.cursor && args < r.value.0
    decreases |s.tokens| - s.cursor, 1
  {
    var s1 :- Next(s);
    var t := Tok(s1);
    if t.kind != NUMBER && t.kind != STRING then
      Err(Raise("Modifier arguments need to be either integers or strings", t.line, s.filename))
    else
      ArgumentsAfter(s1, args + [if t.kind == STRING then QuoteArgument(ScalarToString(t.value)) else ScalarToString(t.value)])
  }

  /** The second half of `processArguments()`, from the argument's token on. */
  function ArgumentsAfter(s1: Stream, args: seq<string>): (r: Result<(seq<string>, Stream)>)
    ensures r.Ok? ==> VN.Moved(s1, r.value.1) && s1.cursor + 2 <= r.value.1.cursor && args <= r.value.0
    decreases |s1.tokens| - s1.cursor, 0
  {
    var s2 :- Next(s1);
    var t2 := Tok(s2);
    if IsPunct(t2, ")") then
      var s3 :- Next(s2);
      Ok((args, s3))
    else if IsPunct(t2, ",") then
      ProcessArguments(s2, args)
    else Err(Raise("The modifier arguments seem malformed", t2.line, s1.filename))
  }

  /**
    `processModifier()`, called on the `|`: the next token must be a NAME
    without `$`.
   */
  function ProcessModifier(v: VN.Var): (r: Result<VN.Var>)
    ensures r.Ok? ==> VN.ModifiersAdded(v, r.value) && |v.mods| < |r.value.mods|
    decreases |v.stream.tokens| - v.stream.cursor, 0
  {
    var s1 :- Next(v.stream);
    var t := Tok(s1);
    var _ :- Expect(s1, NAME, AnyValue, None);
    if ContainsDollar(t.value) then
      Err(Raise("Variable modifier may not start with \"$\"", t.line, s1.filename))
    else
      var s2 :- Next(s1);
      ModifierAfter(v.(stream := s2), ScalarToString(t.value))
  }

  /** The rest of `processModifier()`: `|`, `(` or the VAR_END after the name. */
  function ModifierAfter(v: VN.Var, name: string): (r: Result<VN.Var>)
    requires Valid(v.stream) && '$' !in name
    ensures r.Ok? ==> VN.ModifiersAdded(v, r.value) && |v.mods| < |r.value.mods|
    decreases |v.stream.tokens| - v.stream.cursor, 1
  {
    var s2 := v.stream;
    var t2 := Tok(s2);
    if IsPunct(t2, "|") then
      ProcessModifier(VN.Var(v.chunks, v.mods + [Plain(name)], s2))
    else if IsPunct(t2, "(") then
      var parsed :- ProcessArguments(s2, []);
      var v1 := VN.Var(v.chunks, v.mods + [WithArgs(name, parsed.0)], parsed.1);
      if IsPunct(Tok(parsed.1), "|") then ProcessModifier(v1) else Ok(v1)
    else
      var _ :- Expect(s2, VAR_END, AnyValue, None);
      Ok(VN.Var(v.chunks, v.mods + [Plain(name)], s2))
  }

  /**
    `processKey()`, called on the `.`: the next token must be a NAME
    without `$`.
   */
  function ProcessKey(v: VN.Var): (r: Result<VN.Var>)
    ensures r.Ok? ==> VN.ChunksAdded(v, r.value) && |v.chunks| < |r.value.chunks|
    decreases |v.stream.tokens| - v.stream.cursor, 0
  {
    var s1 :- Next(v.stream);
    var t := Tok(s1);
    var _ :- Expect(s1, NAME, AnyValue, None);
    if ContainsDollar(t.value) then
      Err(Raise("Variable keys may not start with \"$\"", t.line, s1.filename))
    else
      var s2 :- Next(s1);
      KeyAfter(v.(stream := s2), ScalarToString(t.value))
  }

  /** The rest of `processKey()`: `.`, `|`, `(` or the VAR_END after the key. */
  function KeyAfter(v: VN.Var, key: string): (r: Result<VN.Var>)
    requires Valid(v.stream)
    ensures r.Ok? ==> VN.ChunksAdded(v, r.value) && |v.chunks| < |r.value.chunks|
    decreases |v.stream.tokens| - v.stream.cursor, 1
  {
    var s2 := v.stream;
    var t2 := Tok(s2);
    if IsPunct(t2, ".") then
      ProcessKey(VN.Var(v.chunks + [Key(key)], v.mods, s2))
    else if IsPunct(t2, "|") then
      ProcessModifier(VN.Var(v.chunks + [Key(key)], v.mods, s2))
    else if IsPunct(t2, "(") then
      var parsed :- ProcessArguments(s2, []);
      var v1 := VN.Var(v.chunks + [Call(key, parsed.0)], v.mods, parsed.1);
      var t3 := Tok(parsed.1);
      if IsPunct(t3, ".") then ProcessKey(v1)
      else if IsPunct(t3, "|") then ProcessModifier(v1)
      else Ok(v1)
    else
      var _ :- Expect(s2, VAR_END, AnyValue, None);
      Ok(VN.Var(v.chunks + [Key(key)], v.mods, s2))
  }

  /**
    `processName()`, called on the VAR_START: the next token must be a
    NAME and is the first chunk; then only `.`, `|` or the VAR_END may
    follow.
   */
  function ProcessName(s: Stream): (r: Result<VN.Var>)
    ensures r.Ok? ==>
      && s.cursor + 1 < |s.tokens| && s.tokens[s.cursor + 1].kind == NAME
      && |r.value.chunks| >= 1 && r.value.chunks[0] == Key(ScalarToString(s.tokens[s.cursor + 1].value))
      && VN.Moved(s, r.value.stream) && s.cursor + 2 <= r.value.stream.cursor
  {
    var s1 :- Next(s);
    var t := Tok(s1);
    var _ :- Expect(s1, NAME, AnyValue, None);
    var v := VN.Var([Key(ScalarToString(t.value))], [], s1);
    var s2 :- Next(s1);
    var t2 := Tok(s2);
    if IsPunct(t2, ".") then ProcessKey(v.(stream := s2))
    else if IsPunct(t2, "|") then ProcessModifier(v.(stream := s2))
    else
      var _ :- Expect(s2, VAR_END, AnyValue, None);
      Ok(v.(stream := s2))
  }

  /** `compile()`: parse, then return the `echo` statement (nothing is written). */
  function Compile(s: Stream): (r: Result<(string, Stream)>)
    ensures r.Ok? <==> ProcessName(s).Ok?
    ensures r.Ok? ==> var v := ProcessName(s).value;
      r.value == (EchoStatement(v.chunks, v.mods), v.stream)
  {
    var v :- ProcessName(s);
    Ok((EchoStatement(v.chunks, v.mods), v.stream))
  }

  /** A key must be a NAME: a number (or anything else) after the `.` is reported by `expect`. */
  lemma KeyMustBeName(v: VN.Var)
    requires v.stream.cursor + 1 < |v.stream.tokens| && v.stream.tokens[v.stream.cursor + 1].kind != NAME
    ensures var t := v.stream.tokens[v.stream.cursor + 1];
      ProcessKey(v) == Err(Raise(UnexpectedMessage(t), t.line, v.stream.filename))
  {
  }

  /** A key containing `$` is rejected. */
  lemma KeyDollarRejected(v: VN.Var)
    requires v.stream.cursor + 1 < |v.stream.tokens|
    requires v.stream.tokens[v.stream.cursor + 1].kind == NAME && ContainsDollar(v.stream.tokens[v.stream.cursor + 1].value)
    ensures ProcessKey(v)
         == Err(Raise("Variable keys may not start with \"$\"", v.stream.tokens[v.stream.cursor + 1].line, v.stream.filename))
  {
    assert Next(v.stream) == Ok(v.stream.(cursor := v.stream.cursor + 1));
  }

  /** A modifier name containing `$` is rejected. */
  lemma ModifierDollarRejected(v: VN.Var)
    requires v.stream.cursor + 1 < |v.stream.tokens|
    requires v.stream.tokens[v.stream.cursor + 1].kind == NAME && ContainsDollar(v.stream.tokens[v.stream.cursor + 1].value)
    ensures ProcessModifier(v)
         == Err(Raise("Variable modifier may not start with \"$\"", v.stream.tokens[v.stream.cursor + 1].line, v.stream.filename))
  {
    assert Next(v.stream) == Ok(v.stream.(cursor := v.stream.cursor + 1));
  }

  /** Only NUMBER and STRING arguments exist in this grammar: a sub-variable is rejected too. */
  lemma ArgumentRejected(tokens: seq<Token>, c: nat, f: Option<string>, args: seq<string>)
    requires c + 1 < |tokens| && tokens[c + 1].kind != NUMBER && tokens[c + 1].kind != STRING
    ensures ProcessArguments(Stream(tokens, c, f), args)
         == Err(Raise("Modifier arguments need to be either integers or strings", tokens[c + 1].line, f))
  {
    assert Next(Stream(tokens, c, f)) == Ok(Stream(tokens, c + 1, f));
  }

  /** After an argument only `)` or `,` may follow. */
  lemma ArgumentsMalformed(s1: Stream, args: seq<string>)
    requires s1.cursor + 1 < |s1.tokens|
    requires !IsPunct(s1.tokens[s1.cursor + 1], ")") && !IsPunct(s1.tokens[s1.cursor + 1], ",")
    ensures ArgumentsAfter(s1, args)
         == Err(Raise("The modifier arguments seem malformed", s1.tokens[s1.cursor + 1].line, s1.filename))
  {
    assert Next(s1) == Ok(s1.(cursor := s1.cursor + 1));
  }

  /** The token after the VAR_START must be a NAME. */
  lemma NameRequired(s: Stream)
    requires s.cursor + 1 < |s.tokens| && s.tokens[s.cursor + 1].kind != NAME
    ensures var t := s.tokens[s.cursor + 1];
      ProcessName(s) == Err(Raise(UnexpectedMessage(t), t.line, s.filename))
  {
    assert Next(s) == Ok(s.(cursor := s.cursor + 1));
  }

  /** The `getVar` call for the single key `foo`. */
  lemma FooGetVar()
    ensures GetVarCode([Key("foo")]) == "$this->getVar($context, array('foo'))"
  {
    assert ChunkCode(Key("foo")) == "'foo'";
    var q := ChunkCodes([Key("foo")]);
    assert q == ["'foo'"];
    assert Join(q, ", ") == "'foo'";
  }

  /** The statement for the single key `foo`. */
  lemma FooStatement()
    ensures EchoStatement([Key("foo")], []) == "echo " + "$this->getVar($context, array('foo'))" + ";\n"
  {
    FooGetVar();
  }

  /** `{$foo}` parses to the single key `foo` with the cursor on the VAR_END. */
  lemma FooParse(tokens: seq<Token>, f: Option<string>)
    requires |tokens| == 4 && tokens[0].kind == VAR_START && tokens[1] == Token(NAME, Str("foo"), tokens[1].line)
    requires tokens[2].kind == VAR_END
    ensures ProcessName(Stream(tokens, 0, f)) == Ok(VN.Var([Key("foo")], [], Stream(tokens, 2, f)))
  {
    assert Next(Stream(tokens, 0, f)) == Ok(Stream(tokens, 1, f));
    assert Next(Stream(tokens, 1, f)) == Ok(Stream(tokens, 2, f));
    assert !IsPunct(tokens[2], ".") && !IsPunct(tokens[2], "|");
  }

  /** `{$foo}` compiles to exactly one `echo` of the `getVar` call over `['foo']`. */
  lemma FooExample(line: int, f: Option<string>)
    ensures var tokens := [Token(VAR_START, Null, line), Token(NAME, Str("foo"), line),
                           Token(VAR_END, Null, line), Token(EOF, Null, line)];
      Compile(Stream(tokens, 0, f))
        == Ok(("echo " + "$this->getVar($context, array('foo'))" + ";\n", Stream(tokens, 2, f)))
  {
    var tokens := [Token(VAR_START, Null, line), Token(NAME, Str("foo"), line),
                   Token(VAR_END, Null, line), Token(EOF, Null, line)];
    FooParse(tokens, f);
    FooStatement();
  }

  /** The modifier step: on the `|`, a `$`-free NAME is taken and the stream moves past it. */
  lemma ModifierNameStep(chunks: seq<Chunk>, mods: seq<Modifier>, tokens: seq<Token>, k: nat, f: Option<string>, name: string)
    requires k + 2 < |tokens|
    requires tokens[k + 1].kind == NAME && tokens[k + 1].value == Str(name) && '$' !in name
    ensures ProcessModifier(VN.Var(chunks, mods, Stream(tokens, k, f)))
         == ModifierAfter(VN.Var(chunks, mods, Stream(tokens, k + 2, f)), name)
  {
    assert Next(Stream(tokens, k, f)) == Ok(Stream(tokens, k + 1, f));
  }

  /** After a modifier name, `|` records it and reads the next modifier from that `|`. */
  lemma ModifierPipeStep(chunks: seq<Chunk>, mods: seq<Modifier>, tokens: seq<Token>, k: nat, f: Option<string>, name: string)
    requires k < |tokens| && '$' !in name
    requires IsPunct(tokens[k], "|")
    ensures ModifierAfter(VN.Var(chunks, mods, Stream(tokens, k, f)), name)
         == ProcessModifier(VN.Var(chunks, mods + [Plain(name)], Stream(tokens, k, f)))
  {
  }

  /** After a modifier name, the VAR_END records it and ends the parse there. */
  lemma ModifierEndStep(chunks: seq<Chunk>, mods: seq<Modifier>, tokens: seq<Token>, k: nat, f: Option<string>, name: string)
    requires k < |tokens| && '$' !in name
    requires tokens[k].kind == VAR_END
    ensures ModifierAfter(VN.Var(chunks, mods, Stream(tokens, k, f)), name)
         == Ok(VN.Var(chunks, mods + [Plain(name)], Stream(tokens, k, f)))
  {
  }

  /** A modifier chain of one name: `|`, the name, then the VAR_END. */
  lemma ModifierLast(chunks: seq<Chunk>, mods: seq<Modifier>, tokens: seq<Token>, c: nat, f: Option<string>, name: string)
    requires c + 2 < |tokens| && '$' !in name
    requires tokens[c + 1] == Token(NAME, Str(name), tokens[c + 1].line) && tokens[c + 2].kind == VAR_END
    ensures ProcessModifier(VN.Var(chunks, mods, Stream(tokens, c, f)))
         == Ok(VN.Var(chunks, mods + [Plain(name)], Stream(tokens, c + 2, f)))
  {
    ModifierNameStep(chunks, mods, tokens, c, f, name);
    ModifierEndStep(chunks, mods, tokens, c + 2, f, name);
  }

  /** A modifier name followed by `|`: the parse of the rest decides the result. */
  lemma ModifierLink(chunks: seq<Chunk>, mods: seq<Modifier>, tokens: seq<Token>, c: nat, f: Option<string>, name: string,
                     r: Result<VN.Var>)
    requires c + 2 < |tokens| && '$' !in name
    requires tokens[c + 1] == Token(NAME, Str(name), tokens[c + 1].line) && IsPunct(tokens[c + 2], "|")
    requires ProcessModifier(VN.Var(chunks, mods + [Plain(name)], Stream(tokens, c + 2, f))) == r
    ensures ProcessModifier(VN.Var(chunks, mods, Stream(tokens, c, f))) == r
  {
    ModifierNameStep(chunks, mods, tokens, c, f, name);
    ModifierPipeStep(chunks, mods, tokens, c + 2, f, name);
  }

  /**
    A run of `|name` pairs from `c` to `end`, then the VAR_END, read from
    the first `|` on: every name becomes a plain modifier, in order.
   */
  lemma {:induction false} ModifierChain(chunks: seq<Chunk>, mods: seq<Modifier>, tokens: seq<Token>, c: nat, end: nat,
                                         f: Option<string>, names: seq<string>, line: int)
    requires |names| > 0 && VN.PlainNames(names)
    requires end == c + 2 * |names| && end < |tokens|
    requires tokens[c..end] == Chain("|", names, line)
    requires tokens[end].kind == VAR_END
    ensures IsPunct(tokens[c], "|")
    ensures ProcessModifier(VN.Var(chunks, mods, Stream(tokens, c, f)))
         == Ok(VN.Var(chunks, mods + VN.Plains(names), Stream(tokens, end, f)))
    decreases |names|
  {
    VN.PipeSplit(tokens, c, end, names, line);
    assert '$' !in names[0];
    if |names| == 1 {
      ModifierLast(chunks, mods, tokens, c, f, names[0]);
      VN.PlainsOne(mods, names);
    } else {
      var rest := names[1..];
      VN.PipeSplit(tokens, c + 2, end, rest, line);
      VN.PlainNamesTail(names);
      ModifierChain(chunks, mods + [Plain(names[0])], tokens, c + 2, end, f, rest, line);
      ModifierChainLink(chunks, mods, tokens, c, end, f, names);
    }
  }

  /** A name and `|`, then a chain whose modifiers are known: the modifiers of the whole chain. */
  lemma ModifierChainLink(chunks: seq<Chunk>, mods: seq<Modifier>, tokens: seq<Token>, c: nat, end: nat, f: Option<string>,
                          names: seq<string>)
    requires |names| > 1 && c + 2 < |tokens| && '$' !in names[0]
    requires tokens[c + 1] == Token(NAME, Str(names[0]), tokens[c + 1].line) && IsPunct(tokens[c + 2], "|")
    requires ProcessModifier(VN.Var(chunks, mods + [Plain(names[0])], Stream(tokens, c + 2, f)))
          == Ok(VN.Var(chunks, mods + [Plain(names[0])] + VN.Plains(names[1..]), Stream(tokens, end, f)))
    ensures ProcessModifier(VN.Var(chunks, mods, Stream(tokens, c, f)))
         == Ok(VN.Var(chunks, mods + VN.Plains(names), Stream(tokens, end, f)))
  {
    VN.PlainsAppend(mods, names);
    ModifierLink(chunks, mods, tokens, c, f, names[0], Ok(VN.Var(chunks, mods + VN.Plains(names), Stream(tokens, end, f))));
  }

  /** The key step: on the `.`, a `$`-free NAME is taken and the stream moves past it. */
  lemma KeyNameStep(chunks: seq<Chunk>, tokens: seq<Token>, k: nat, f: Option<string>, key: string)
    requires k + 2 < |tokens|
    requires tokens[k + 1].kind == NAME && tokens[k + 1].value == Str(key) && '$' !in key
    ensures ProcessKey(VN.Var(chunks, [], Stream(tokens, k, f))) == KeyAfter(VN.Var(chunks, [], Stream(tokens, k + 2, f)), key)
  {
    assert Next(Stream(tokens, k, f)) == Ok(Stream(tokens, k + 1, f));
  }

  /** After a key, `.` records it and reads the next key from that `.`. */
  lemma KeyDotStep(chunks: seq<Chunk>, tokens: seq<Token>, k: nat, f: Option<string>, key: string)
    requires k < |tokens| && IsPunct(tokens[k], ".")
    ensures KeyAfter(VN.Var(chunks, [], Stream(tokens, k, f)), key) == ProcessKey(VN.Var(chunks + [Key(key)], [], Stream(tokens, k, f)))
  {
  }

  /** After a key, `|` records it and reads the modifiers from that `|`. */
  lemma KeyPipeStep(chunks: seq<Chunk>, tokens: seq<Token>, k: nat, f: Option<string>, key: string)
    requires k < |tokens| && IsPunct(tokens[k], "|")
    ensures KeyAfter(VN.Var(chunks, [], Stream(tokens, k, f)), key)
         == ProcessModifier(VN.Var(chunks + [Key(key)], [], Stream(tokens, k, f)))
  {
    assert "|"[0] != "."[0];
    assert !IsPunct(tokens[k], ".");
  }

  /** After a key, the VAR_END records it and ends the parse there. */
  lemma KeyEndStep(chunks: seq<Chunk>, tokens: seq<Token>, k: nat, f: Option<string>, key: string)
    requires k < |tokens| && tokens[k].kind == VAR_END
    ensures KeyAfter(VN.Var(chunks, [], Stream(tokens, k, f)), key) == Ok(VN.Var(chunks + [Key(key)], [], Stream(tokens, k, f)))
  {
  }

  /** A key followed by `.`: the parse of the next key decides the result. */
  lemma KeyThenDot(chunks: seq<Chunk>, tokens: seq<Token>, c: nat, f: Option<string>, key: string, r: Result<VN.Var>)
    requires c + 2 < |tokens| && '$' !in key
    requires tokens[c + 1] == Token(NAME, Str(key), tokens[c + 1].line) && IsPunct(tokens[c + 2], ".")
    requires ProcessKey(VN.Var(chunks + [Key(key)], [], Stream(tokens, c + 2, f))) == r
    ensures ProcessKey(VN.Var(chunks, [], Stream(tokens, c, f))) == r
  {
    KeyNameStep(chunks, tokens, c, f, key);
    KeyDotStep(chunks, tokens, c + 2, f, key);
  }

  /** A key followed by `|`: the parse of the modifiers decides the result. */
  lemma KeyThenPipe(chunks: seq<Chunk>, tokens: seq<Token>, c: nat, f: Option<string>, key: string, r: Result<VN.Var>)
    requires c + 2 < |tokens| && '$' !in key
    requires tokens[c + 1] == Token(NAME, Str(key), tokens[c + 1].line) && IsPunct(tokens[c + 2], "|")
    requires ProcessModifier(VN.Var(chunks + [Key(key)], [], Stream(tokens, c + 2, f))) == r
    ensures ProcessKey(VN.Var(chunks, [], Stream(tokens, c, f))) == r
  {
    KeyNameStep(chunks, tokens, c, f, key);
    KeyPipeStep(chunks, tokens, c + 2, f, key);
  }

  /** A key followed by the VAR_END ends the parse there. */
  lemma KeyThenEnd(chunks: seq<Chunk>, tokens: seq<Token>, c: nat, f: Option<string>, key: string)
    requires c + 2 < |tokens| && '$' !in key
    requires tokens[c + 1] == Token(NAME, Str(key), tokens[c + 1].line) && tokens[c + 2].kind == VAR_END
    ensures ProcessKey(VN.Var(chunks, [], Stream(tokens, c, f))) == Ok(VN.Var(chunks + [Key(key)], [], Stream(tokens, c + 2, f)))
  {
    KeyNameStep(chunks, tokens, c, f, key);
    KeyEndStep(chunks, tokens, c + 2, f, key);
  }

  /** A modifier chain read into an empty modifier list gives exactly its plain modifiers. */
  lemma ModifiersOnly(chunks: seq<Chunk>, tokens: seq<Token>, c: nat, end: nat, f: Option<string>,
                      names: seq<string>, line: int)
    requires |names| > 0 && VN.PlainNames(names)
    requires end == c + 2 * |names| && end < |tokens|
    requires tokens[c..end] == Chain("|", names, line)
    requires tokens[end].kind == VAR_END
    ensures IsPunct(tokens[c], "|")
    ensures ProcessModifier(VN.Var(chunks, [], Stream(tokens, c, f))) == Ok(VN.Var(chunks, VN.Plains(names), Stream(tokens, end, f)))
  {
    ModifierChain(chunks, [], tokens, c, end, f, names, line);
    assert [] + VN.Plains(names) == VN.Plains(names);
  }

  /** A single `.key` pair, then at least one `|name` pair up to `end`, then the VAR_END. */
  lemma KeyThenModifiers(chunks: seq<Chunk>, tokens: seq<Token>, c: nat, end: nat, f: Option<string>,
                         key: string, names: seq<string>, line: int)
    requires '$' !in key && |names| > 0 && VN.PlainNames(names)
    requires end == c + 2 + 2 * |names| && end < |tokens|
    requires tokens[c + 1] == Token(NAME, Str(key), line)
    requires tokens[c + 2..end] == Chain("|", names, line)
    requires tokens[end].kind == VAR_END
    ensures ProcessKey(VN.Var(chunks, [], Stream(tokens, c, f)))
         == Ok(VN.Var(chunks + [Key(key)], VN.Plains(names), Stream(tokens, end, f)))
  {
    ModifiersOnly(chunks + [Key(key)], tokens, c + 2, end, f, names, line);
    KeyThenPipe(chunks, tokens, c, f, key, Ok(VN.Var(chunks + [Key(key)], VN.Plains(names), Stream(tokens, end, f))));
  }

  /** A single `.key` pair, then a run of `|name` pairs up to `end`, then the VAR_END. */
  lemma KeyChainOne(chunks: seq<Chunk>, tokens: seq<Token>, c: nat, end: nat, f: Option<string>,
                    key: string, names: seq<string>, line: int)
    requires '$' !in key && VN.PlainNames(names)
    requires end == c + 2 + 2 * |names| && end < |tokens|
    requires tokens[c + 1] == Token(NAME, Str(key), line)
    requires tokens[c + 2..end] == Chain("|", names, line)
    requires tokens[end].kind == VAR_END
    ensures ProcessKey(VN.Var(chunks, [], Stream(tokens, c, f)))
         == Ok(VN.Var(chunks + [Key(key)], VN.Plains(names), Stream(tokens, end, f)))
  {
    if |names| == 0 {
      KeyThenEnd(chunks, tokens, c, f, key);
      assert VN.Plains(names) == [];
    } else {
      KeyThenModifiers(chunks, tokens, c, end, f, key, names, line);
    }
  }

  /**
    A run of `.key` pairs from `c` to `mid`, then a run of `|name` pairs up
    to `end`, then the VAR_END, read from the first `.` on.
   */
  lemma {:induction false} KeyChain(chunks: seq<Chunk>, tokens: seq<Token>, c: nat, mid: nat, end: nat, f: Option<string>,
                                    keys: seq<string>, names: seq<string>, line: int)
    requires |keys| > 0 && VN.PlainNames(keys) && VN.PlainNames(names)
    requires mid == c + 2 * |keys| && end == mid + 2 * |names| && end < |tokens|
    requires tokens[c..mid] == Chain(".", keys, line)
    requires tokens[mid..end] == Chain("|", names, line)
    requires tokens[end].kind == VAR_END
    ensures ProcessKey(VN.Var(chunks, [], Stream(tokens, c, f)))
         == Ok(VN.Var(chunks + Keys(keys), VN.Plains(names), Stream(tokens, end, f)))
    decreases |keys|
  {
    VN.KeySplit(tokens, c, mid, keys, line);
    assert '$' !in keys[0];
    if |keys| == 1 {
      KeyChainOne(chunks, tokens, c, end, f, keys[0], names, line);
      VN.KeysOne(chunks, keys);
    } else {
      var rest := keys[1..];
      VN.KeySplit(tokens, c + 2, mid, rest, line);
      VN.PlainNamesTail(keys);
      KeyChain(chunks + [Key(keys[0])], tokens, c + 2, mid, end, f, rest, names, line);
      KeyChainLink(chunks, tokens, c, end, f, keys, names);
    }
  }

  /** A key and `.`, then a chain whose chunks are known: the chunks of the whole chain. */
  lemma KeyChainLink(chunks: seq<Chunk>, tokens: seq<Token>, c: nat, end: nat, f: Option<string>,
                     keys: seq<string>, names: seq<string>)
    requires |keys| > 1 && c + 2 < |tokens| && '$' !in keys[0]
    requires tokens[c + 1] == Token(NAME, Str(keys[0]), tokens[c + 1].line) && IsPunct(tokens[c + 2], ".")
    requires ProcessKey(VN.Var(chunks + [Key(keys[0])], [], Stream(tokens, c + 2, f)))
          == Ok(VN.Var(chunks + [Key(keys[0])] + Keys(keys[1..]), VN.Plains(names), Stream(tokens, end, f)))
    ensures ProcessKey(VN.Var(chunks, [], Stream(tokens, c, f)))
         == Ok(VN.Var(chunks + Keys(keys), VN.Plains(names), Stream(tokens, end, f)))
  {
    VN.KeysAppend(chunks, keys);
    KeyThenDot(chunks, tokens, c, f, keys[0], Ok(VN.Var(chunks + Keys(keys), VN.Plains(names), Stream(tokens, end, f))));
  }

  /** The variable name followed by `.`: the parse of the keys, from that `.`, decides the result. */
  lemma NameThenDot(tokens: seq<Token>, f: Option<string>, first: string, r: Result<VN.Var>)
    requires 2 < |tokens| && tokens[1].kind == NAME && tokens[1].value == Str(first) && IsPunct(tokens[2], ".")
    requires ProcessKey(VN.Var([Key(first)], [], Stream(tokens, 2, f))) == r
    ensures ProcessName(Stream(tokens, 0, f)) == r
  {
    assert Next(Stream(tokens, 0, f)) == Ok(Stream(tokens, 1, f));
  }

  /** The variable name followed by `|`: the parse of the modifiers, from that `|`, decides the result. */
  lemma NameThenPipe(tokens: seq<Token>, f: Option<string>, first: string, r: Result<VN.Var>)
    requires 2 < |tokens| && tokens[1].kind == NAME && tokens[1].value == Str(first) && IsPunct(tokens[2], "|")
    requires ProcessModifier(VN.Var([Key(first)], [], Stream(tokens, 2, f))) == r
    ensures ProcessName(Stream(tokens, 0, f)) == r
  {
    assert Next(Stream(tokens, 0, f)) == Ok(Stream(tokens, 1, f));
    assert "|"[0] != "."[0];
    assert !IsPunct(tokens[2], ".");
  }

  /** The variable name followed by the VAR_END ends the parse there. */
  lemma NameThenEnd(tokens: seq<Token>, f: Option<string>, first: string)
    requires 2 < |tokens| && tokens[1].kind == NAME && tokens[1].value == Str(first) && tokens[2].kind == VAR_END
    ensures ProcessName(Stream(tokens, 0, f)) == Ok(VN.Var([Key(first)], [], Stream(tokens, 2, f)))
  {
    assert Next(Stream(tokens, 0, f)) == Ok(Stream(tokens, 1, f));
  }

  /** The tokens of a whole tag `{$first.k1…|m1…}`: the VAR_START, then the tag body. */
  function OpenTagTokens(first: string, keys: seq<string>, names: seq<string>, line: int): (r: seq<Token>)
    ensures |r| == 3 + 2 * |keys| + 2 * |names|
  {
    [Token(VAR_START, Null, line)] + VN.TagTokens(first, keys, names, line)
  }

  /** The layout `OpenTagTokens` produces, stated on any token list. */
  predicate OpenTagLayout(t: seq<Token>, first: string, keys: seq<string>, names: seq<string>, line: int) {
    var mid := 2 + 2 * |keys|; var end := mid + 2 * |names|;
    && |t| == end + 1
    && t[1] == Token(NAME, Str(first), line)
    && t[2..mid] == Chain(".", keys, line)
    && t[mid..end] == Chain("|", names, line)
    && t[end] == Token(VAR_END, Null, line)
  }

  /** `OpenTagTokens` has that layout. */
  lemma OpenTagTokensLayout(first: string, keys: seq<string>, names: seq<string>, line: int)
    ensures OpenTagLayout(OpenTagTokens(first, keys, names, line), first, keys, names, line)
  {
    var kt := Chain(".", keys, line);
    var pt := Chain("|", names, line);
    var t := OpenTagTokens(first, keys, names, line);
    assert t == [Token(VAR_START, Null, line), Token(NAME, Str(first), line)] + kt + pt + [Token(VAR_END, Null, line)];
    assert t[2..2 + |kt|] == kt;
    assert t[2 + |kt|..2 + |kt| + |pt|] == pt;
  }

  /** The parse of a tag with at least one key. */
  lemma ParseWithKeys(t: seq<Token>, first: string, keys: seq<string>, names: seq<string>, line: int, f: Option<string>)
    requires OpenTagLayout(t, first, keys, names, line) && |keys| > 0 && VN.PlainNames(keys) && VN.PlainNames(names)
    ensures ProcessName(Stream(t, 0, f)) == Ok(VN.Var([Key(first)] + Keys(keys), VN.Plains(names), Stream(t, |t| - 1, f)))
  {
    VN.KeySplit(t, 2, 2 + 2 * |keys|, keys, line);
    KeyChain([Key(first)], t, 2, 2 + 2 * |keys|, |t| - 1, f, keys, names, line);
    NameThenDot(t, f, first, Ok(VN.Var([Key(first)] + Keys(keys), VN.Plains(names), Stream(t, |t| - 1, f))));
  }

  /** The parse of a tag with no key and at least one modifier, which end at `end`. */
  lemma ParseWithModifiers(t: seq<Token>, end: nat, first: string, names: seq<string>, line: int, f: Option<string>)
    requires |names| > 0 && VN.PlainNames(names) && end == 2 + 2 * |names| && end < |t|
    requires t[1] == Token(NAME, Str(first), line) && t[2..end] == Chain("|", names, line) && t[end].kind == VAR_END
    ensures ProcessName(Stream(t, 0, f)) == Ok(VN.Var([Key(first)], VN.Plains(names), Stream(t, end, f)))
  {
    ModifiersOnly([Key(first)], t, 2, end, f, names, line);
    NameThenPipe(t, f, first, Ok(VN.Var([Key(first)], VN.Plains(names), Stream(t, end, f))));
  }

  /** With no keys the modifier chain starts right after the variable name. */
  lemma OpenLayoutWithoutKeys(t: seq<Token>, first: string, names: seq<string>, line: int)
    requires OpenTagLayout(t, first, [], names, line)
    ensures var end := 2 + 2 * |names|;
      && |t| == end + 1 && t[1] == Token(NAME, Str(first), line)
      && t[2..end] == Chain("|", names, line) && t[end].kind == VAR_END
  {
  }

  /**
    The parse round trip: a tag laid out from `$`-free keys and modifier
    names gives back exactly those keys, as chunks after the variable name,
    and those modifiers, with the stream on the VAR_END.
   */
  lemma ParseRoundTrip(t: seq<Token>, first: string, keys: seq<string>, names: seq<string>, line: int, f: Option<string>)
    requires OpenTagLayout(t, first, keys, names, line) && VN.PlainNames(keys) && VN.PlainNames(names)
    ensures ProcessName(Stream(t, 0, f)) == Ok(VN.Var(Keys([first] + keys), VN.Plains(names), Stream(t, |t| - 1, f)))
  {
    VN.KeysCons(first, keys);
    if |keys| > 0 {
      ParseWithKeys(t, first, keys, names, line, f);
    } else if |names| > 0 {
      assert keys == [] && Keys(keys) == [];
      assert [Key(first)] + Keys(keys) == [Key(first)];
      OpenLayoutWithoutKeys(t, first, names, line);
      ParseWithModifiers(t, |t| - 1, first, names, line, f);
    } else {
      assert keys == [] && names == [] && Keys(keys) == [] && VN.Plains(names) == [];
      assert [Key(first)] + Keys(keys) == [Key(first)];
      NameThenEnd(t, f, first);
    }
  }

  /**
    The compile round trip: the same tokens compile to the `echo` of the
    expression over those chunks and modifiers.
   */
  lemma CompileRoundTrip(first: string, keys: seq<string>, names: seq<string>, line: int, f: Option<string>)
    requires VN.PlainNames(keys) && VN.PlainNames(names)
    ensures var t := OpenTagTokens(first, keys, names, line);
      Compile(Stream(t, 0, f)) == Ok((EchoStatement(Keys([first] + keys), VN.Plains(names)), Stream(t, |t| - 1, f)))
  {
    OpenTagTokensLayout(first, keys, names, line);
    ParseRoundTrip(OpenTagTokens(first, keys, names, line), first, keys, names, line, f);
  }

  /**
    The two grammars agree on plain tags: for keys and modifier names that
    neither rejects, this grammar returns exactly the statement that
    `VariableNode` writes for the tag body.
   */
  lemma GrammarsAgree(first: string, keys: seq<string>, names: seq<string>, line: int, f: Option<string>, w: Writers.Writer)
    requires VN.PlainKeys(keys) && VN.PlainNames(keys) && VN.PlainNames(names)
    ensures var t := OpenTagTokens(first, keys, names, line);
            var body := VN.TagTokens(first, keys, names, line);
      && Compile(Stream(t, 0, f)).Ok? && VN.Compile(Stream(body, 0, f), w).Ok?
      && VN.Compile(Stream(body, 0, f), w).value.0 == Writers.Write(w, Compile(Stream(t, 0, f)).value.0, Some(line))
  {
    CompileRoundTrip(first, keys, names, line, f);
    VN.CompileRoundTrip(first, keys, names, line, f, w);
  }

  /** On the `(` or `,`, a literal argument is taken with its code. */
  lemma ArgLiteralStep(tokens: seq<Token>, c: nat, f: Option<string>, args: seq<string>, l: VN.Literal, line: int)
    requires c + 1 < |tokens| && tokens[c + 1] == VN.LiteralToken(l, line)
    ensures ProcessArguments(Stream(tokens, c, f), args) == ArgumentsAfter(Stream(tokens, c + 1, f), args + [VN.LiteralCode(l)])
  {
    assert Next(Stream(tokens, c, f)) == Ok(Stream(tokens, c + 1, f));
  }

  /** A `)` after an argument ends the list, and the stream moves past it. */
  lemma ArgCloseStep(tokens: seq<Token>, c: nat, f: Option<string>, args: seq<string>)
    requires c + 3 < |tokens| && IsPunct(tokens[c + 2], ")")
    ensures ArgumentsAfter(Stream(tokens, c + 1, f), args) == Ok((args, Stream(tokens, c + 3, f)))
  {
    assert Next(Stream(tokens, c + 1, f)) == Ok(Stream(tokens, c + 2, f));
  }

  /** A `,` after an argument goes on with the next one, from that `,`. */
  lemma ArgCommaStep(tokens: seq<Token>, c: nat, f: Option<string>, args: seq<string>)
    requires c + 2 < |tokens| && IsPunct(tokens[c + 2], ",")
    ensures ArgumentsAfter(Stream(tokens, c + 1, f), args) == ProcessArguments(Stream(tokens, c + 2, f), args)
  {
    assert ","[0] != ")"[0];
    assert !IsPunct(tokens[c + 2], ")");
    assert Next(Stream(tokens, c + 1, f)) == Ok(Stream(tokens, c + 2, f));
  }

  /** The last literal, then `)`. */
  lemma ArgumentLast(tokens: seq<Token>, c: nat, f: Option<string>, args: seq<string>, l: VN.Literal, line: int)
    requires c + 3 < |tokens| && tokens[c + 1] == VN.LiteralToken(l, line) && IsPunct(tokens[c + 2], ")")
    ensures ProcessArguments(Stream(tokens, c, f), args) == Ok((args + [VN.LiteralCode(l)], Stream(tokens, c + 3, f)))
  {
    ArgLiteralStep(tokens, c, f, args, l, line);
    ArgCloseStep(tokens, c, f, args + [VN.LiteralCode(l)]);
  }

  /** A literal, then `,`: the rest of the list decides the result. */
  lemma ArgumentLink(tokens: seq<Token>, c: nat, f: Option<string>, args: seq<string>, l: VN.Literal, line: int,
                     r: Result<(seq<string>, Stream)>)
    requires c + 2 < |tokens| && tokens[c + 1] == VN.LiteralToken(l, line) && IsPunct(tokens[c + 2], ",")
    requires ProcessArguments(Stream(tokens, c + 2, f), args + [VN.LiteralCode(l)]) == r
    ensures ProcessArguments(Stream(tokens, c, f), args) == r
  {
    ArgLiteralStep(tokens, c, f, args, l, line);
    ArgCommaStep(tokens, c, f, args + [VN.LiteralCode(l)]);
  }

  /**
    The argument round trip: from the `(`, a list of literal arguments
    closed by `)` gives each literal's code, in order, and leaves the stream
    after the `)`.
   */
  lemma {:induction false} ArgumentChain(tokens: seq<Token>, c: nat, end: nat, f: Option<string>, args: seq<string>,
                                         lits: seq<VN.Literal>, line: int)
    requires |lits| > 0 && end == c + 1 + 2 * |lits| && end < |tokens|
    requires tokens[c + 1..end] == VN.ArgTokens(lits, line)
    ensures ProcessArguments(Stream(tokens, c, f), args) == Ok((args + VN.LiteralCodes(lits), Stream(tokens, end, f)))
    decreases |lits|
  {
    VN.ArgSplit(tokens, c + 1, end, lits, line);
    if |lits| == 1 {
      ArgumentLast(tokens, c, f, args, lits[0], line);
      assert VN.LiteralCodes(lits) == [VN.LiteralCode(lits[0])];
    } else {
      ArgumentChain(tokens, c + 2, end, f, args + [VN.LiteralCode(lits[0])], lits[1..], line);
      ArgumentChainLink(tokens, c, end, f, args, lits, line);
    }
  }

  /** A literal and `,`, then a list whose codes are known: the codes of the whole list. */
  lemma ArgumentChainLink(tokens: seq<Token>, c: nat, end: nat, f: Option<string>, args: seq<string>, lits: seq<VN.Literal>, line: int)
    requires |lits| > 1 && c + 2 < |tokens|
    requires tokens[c + 1] == VN.LiteralToken(lits[0], line) && IsPunct(tokens[c + 2], ",")
    requires ProcessArguments(Stream(tokens, c + 2, f), args + [VN.LiteralCode(lits[0])])
          == Ok((args + [VN.LiteralCode(lits[0])] + VN.LiteralCodes(lits[1..]), Stream(tokens, end, f)))
    ensures ProcessArguments(Stream(tokens, c, f), args) == Ok((args + VN.LiteralCodes(lits), Stream(tokens, end, f)))
  {
    VN.CodesCons(args, lits);
    ArgumentLink(tokens, c, f, args, lits[0], line, Ok((args + VN.LiteralCodes(lits), Stream(tokens, end, f))));
  }

  /**
    A modifier with literal arguments, `|name(a, b)`, followed by any token
    other than `|`: one modifier carrying the arguments' codes.  No closing
    VAR_END is demanded after the `)`.
   */
  lemma ModifierWithArguments(chunks: seq<Chunk>, mods: seq<Modifier>, tokens: seq<Token>, c: nat, end: nat,
                              f: Option<string>, name: string, lits: seq<VN.Literal>, line: int)
    requires '$' !in name && |lits| > 0
    requires end == c + 3 + 2 * |lits| && end < |tokens|
    requires tokens[c + 1] == Token(NAME, Str(name), line) && IsPunct(tokens[c + 2], "(")
    requires tokens[c + 3..end] == VN.ArgTokens(lits, line)
    requires !IsPunct(tokens[end], "|")
    ensures ProcessModifier(VN.Var(chunks, mods, Stream(tokens, c, f)))
         == Ok(VN.Var(chunks, mods + [WithArgs(name, VN.LiteralCodes(lits))], Stream(tokens, end, f)))
  {
    ModifierNameStep(chunks, mods, tokens, c, f, name);
    ArgumentChain(tokens, c + 2, end, f, [], lits, line);
    assert [] + VN.LiteralCodes(lits) == VN.LiteralCodes(lits);
    assert "("[0] != "|"[0];
    assert !IsPunct(tokens[c + 2], "|");
  }
}
