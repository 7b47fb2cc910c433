/**
  `Spoon\Template\Parser\VariableNode`: the grammar of a variable tag
  `{$a.b(1).c|m('x')}` once the VAR_START token has been passed.

  The first token is a NAME (the variable, without its `$`); then `.` keys
  (a NAME not starting with `$`, or a NUMBER), a key followed by `(` being a
  method call with arguments; then `|` modifiers, each optionally with
  arguments.  Arguments are NUMBER, STRING or a `$`-sub-variable,
  separated by `,` and closed by `)`.  The compiled form is one `echo`
  statement written with the line of the token the parse ends on.
 */
module VariableNodes {
  import opened Errors
  import opened Strings
  import opened Tokens
  import opened TokenStreams
  import opened SyntaxErrors
  import opened PhpLiterals
  import opened VariableCode
  import opened Writers
  import SubVariables

  /** The chunk list, the modifier list and the stream, threaded through the parse. */
  datatype Var = Var(chunks: seq<Chunk>, mods: seq<Modifier>, stream: Stream)

  /** The stream moved along without touching its tokens or filename. */
  predicate Moved(before: Stream, after: Stream) {
    after.tokens == before.tokens && after.filename == before.filename
    && Valid(after) && before.cursor <= after.cursor
  }

  /** The code of one NUMBER or STRING argument; other tokens add nothing. */
  function ArgumentCode(t: Token): seq<string> {
    if t.kind == STRING then [QuoteArgument(ScalarToString(t.value))]
    else if t.kind == NUMBER then [ScalarToString(t.value)]
    else []
  }

  /**
    The first half of `processArguments()`: the current token must be a
    NUMBER or a STRING; a NAME starting with `$` is compiled as a
    sub-variable, after which the stream steps back onto the chain's last
    token.  Yields the token the second half looks at.
   */
  function ArgumentHead(s: Stream, args: seq<string>): (r: Result<(Token, Stream, seq<string>)>)
    ensures r.Ok? ==> var (t, s1, args1) := r.value;
      && Moved(s, s1) && t == Tok(s1) && args <= args1
    ensures Valid(s) && (Tok(s).kind == NUMBER || Tok(s).kind == STRING) ==> r == Ok((Tok(s), s, args))
    ensures Valid(s) && Tok(s).kind != NUMBER && Tok(s).kind != STRING
            && !(Tok(s).kind == NAME && StartsWithDollar(Tok(s).value)) ==>
              r == Err(Raise("Modifier arguments need to be either integers, strings or subvars",
                             Tok(s).line, s.filename))
  {
    var t :- Current(s);
    if t.kind != NUMBER && t.kind != STRING then
      if t.kind == NAME && StartsWithDollar(t.value) then
        var compiled :- SubVariables.Compile(s);
        var back := Previous(compiled.1).value;
        Ok((Tok(back), back, args + [compiled.0]))
      else Err(Raise("Modifier arguments need to be either integers, strings or subvars", t.line, s.filename))
    else Ok((t, s, args))
  }

  /**
    `processArguments($arguments)`: one argument, then `)` ends the list
    (and is stepped over) or `,` continues it; anything else is malformed.
   */
  function ProcessArguments(s: Stream, args: seq<string>): (r: Result<(seq<string>, Stream)>)
    ensures r.Ok? ==> Moved(s, r.value.1) && s.cursor < r.value.1.cursor && args <= r.value.0
    decreases |s.tokens| - s.cursor, 1
  {
    var head :- ArgumentHead(s, args);
    ArgumentsAfter(head.1, head.2 + ArgumentCode(head.0))
  }

  /** The second half of `processArguments()`, from the argument's token on. */
  function ArgumentsAfter(s1: Stream, args: seq<string>): (r: Result<(seq<string>, Stream)>)
    ensures r.Ok? ==> Moved(s1, r.value.1) && s1.cursor < r.value.1.cursor && args <= r.value.0
    ensures r.Ok? ==> IsPunct(s1.tokens[r.value.1.cursor - 1], ")")
    decreases |s1.tokens| - s1.cursor, 0
  {
    var s2 :- Next(s1);
    var t2 := Tok(s2);
    if IsPunct(t2, ")") then
      var s3 :- Next(s2);
      Ok((args, s3))
    else if IsPunct(t2, ",") then
      var s3 :- Next(s2);
      ProcessArguments(s3, args)
    else Err(Raise("The arguments seem malformed. Check your syntax.", t2.line, s1.filename))
  }

  /** After an argument only `)` or `,` may follow. */
  lemma ArgumentsMalformed(tokens: seq<Token>, c: nat, f: Option<string>, args: seq<string>)
    requires c + 1 < |tokens| && !IsPunct(tokens[c + 1], ")") && !IsPunct(tokens[c + 1], ",")
    ensures ArgumentsAfter(Stream(tokens, c, f), args)
         == Err(Raise("The arguments seem malformed. Check your syntax.", tokens[c + 1].line, f))
  {
    assert Next(Stream(tokens, c, f)) == Ok(Stream(tokens, c + 1, f));
  }

  /** No modifier from index `from` on has a `$` in its name. */
  predicate NamesDollarFree(mods: seq<Modifier>, from: nat) {
    forall i :: from <= i < |mods| ==> '$' !in mods[i].name
  }

  /** What the modifier parsers promise: chunks kept, modifiers only added, `$`-free. */
  predicate ModifiersAdded(v: Var, r: Var) {
    Moved(v.stream, r.stream) && r.chunks == v.chunks && v.mods <= r.mods && NamesDollarFree(r.mods, |v.mods|)
  }

  /** `processModifier()`: the current token must be a NAME without `$`. */
  function ProcessModifier(v: Var): (r: Result<Var>)
    ensures r.Ok? ==> ModifiersAdded(v, r.value) && |v.mods| < |r.value.mods|
    ensures Valid(v.stream) && Tok(v.stream).kind == NAME && ContainsDollar(Tok(v.stream).value) ==>
              r == Err(Raise("Variable modifier may not start with \"$\"", Tok(v.stream).line, v.stream.filename))
    decreases |v.stream.tokens| - v.stream.cursor, 2
  {
    var s := v.stream;
    var t :- Current(s);
    var _ :- Expect(s, NAME, AnyValue, None);
    if ContainsDollar(t.value) then
      Err(Raise("Variable modifier may not start with \"$\"", t.line, s.filename))
    else
      var s1 :- Next(s);
      ModifierAfter(v.(stream := s1), ScalarToString(t.value))
  }

  /** The rest of `processModifier()`: `|`, `(` or the VAR_END after the name. */
  function ModifierAfter(v: Var, name: string): (r: Result<Var>)
    requires Valid(v.stream) && '$' !in name
    ensures r.Ok? ==> ModifiersAdded(v, r.value) && |v.mods| < |r.value.mods|
    decreases |v.stream.tokens| - v.stream.cursor, 1
  {
    var s1 := v.stream;
    var t1 := Tok(s1);
    if IsPunct(t1, "|") then
      var s2 :- Next(s1);
      ProcessModifier(Var(v.chunks, v.mods + [Plain(name)], s2))
    else if IsPunct(t1, "(") then
      var s2 :- Next(s1);
      var parsed :- ProcessArguments(s2, []);
      ModifierCalled(Var(v.chunks, v.mods + [WithArgs(name, parsed.0)], parsed.1))
    else
      var _ :- Expect(s1, VAR_END, AnyValue, None);
      Ok(Var(v.chunks, v.mods + [Plain(name)], s1))
  }

  /** After a modifier's arguments only another `|` continues. */
  function ModifierCalled(v: Var): (r: Result<Var>)
    requires Valid(v.stream)
    ensures r.Ok? ==> ModifiersAdded(v, r.value)
    decreases |v.stream.tokens| - v.stream.cursor, 0
  {
    if IsPunct(Tok(v.stream), "|") then
      var s4 :- Next(v.stream);
      ProcessModifier(v.(stream := s4))
    else Ok(v)
  }

  /** A key token: a NAME not starting with `$`, or a NUMBER. */
  predicate KeyToken(t: Token) {
    (t.kind == NAME && !StartsWithDollar(t.value)) || t.kind == NUMBER
  }

  /** What the key parsers promise: chunks and modifiers only added to. */
  predicate ChunksAdded(v: Var, r: Var) {
    Moved(v.stream, r.stream) && v.chunks <= r.chunks && v.mods <= r.mods
  }

  /** `processKey()`: the current token must be a key token. */
  function ProcessKey(v: Var): (r: Result<Var>)
    ensures r.Ok? ==> ChunksAdded(v, r.value) && |v.chunks| < |r.value.chunks|
    ensures Valid(v.stream) && !KeyToken(Tok(v.stream)) ==>
              r == Err(Raise("Variable keys may not start with $", Tok(v.stream).line, v.stream.filename))
    decreases |v.stream.tokens| - v.stream.cursor, 2
  {
    var s := v.stream;
    var t :- Current(s);
    if KeyToken(t) then
      var s1 :- Next(s);
      KeyAfter(v.(stream := s1), ScalarToString(t.value))
    else Err(Raise("Variable keys may not start with $", t.line, s.filename))
  }

  /** The rest of `processKey()`: `.`, `|`, `(` or the VAR_END after the key. */
  function KeyAfter(v: Var, key: string): (r: Result<Var>)
    requires Valid(v.stream)
    ensures r.Ok? ==> ChunksAdded(v, r.value) && |v.chunks| < |r.value.chunks|
    decreases |v.stream.tokens| - v.stream.cursor, 1
  {
    var s1 := v.stream;
    var t1 := Tok(s1);
    if IsPunct(t1, ".") then
      var s2 :- Next(s1);
      ProcessKey(Var(v.chunks + [Key(key)], v.mods, s2))
    else if IsPunct(t1, "|") then
      var s2 :- Next(s1);
      ProcessModifier(Var(v.chunks + [Key(key)], v.mods, s2))
    else if IsPunct(t1, "(") then
      var s2 :- Next(s1);
      var parsed :- ProcessArguments(s2, []);
      KeyCalled(Var(v.chunks + [Call(key, parsed.0)], v.mods, parsed.1))
    else
      var _ :- Expect(s1, VAR_END, AnyValue, None);
      Ok(Var(v.chunks + [Key(key)], v.mods, s1))
  }

  /** After a method call's arguments: `.` for more keys, `|` for modifiers, otherwise done. */
  function KeyCalled(v: Var): (r: Result<Var>)
    requires Valid(v.stream)
    ensures r.Ok? ==> ChunksAdded(v, r.value)
    decreases |v.stream.tokens| - v.stream.cursor, 0
  {
    var t3 := Tok(v.stream);
    if IsPunct(t3, ".") then
      var s4 :- Next(v.stream);
      ProcessKey(v.(stream := s4))
    else if IsPunct(t3, "|") then
      var s4 :- Next(v.stream);
      ProcessModifier(v.(stream := s4))
    else Ok(v)
  }

  /**
    `processName()`: the current token must be a NAME and is the first
    chunk; then only `.`, `|` or the VAR_END may follow.
   */
  function ProcessName(s: Stream): (r: Result<Var>)
    ensures !Valid(s) ==> r == Err(OutOfRange(s.cursor))
    ensures Valid(s) && Tok(s).kind != NAME ==>
              r == Err(Raise(UnexpectedMessage(Tok(s)), Tok(s).line, s.filename))
    ensures r.Ok? ==>
      && Tok(s).kind == NAME
      && |r.value.chunks| >= 1 && r.value.chunks[0] == Key(ScalarToString(Tok(s).value))
      && Moved(s, r.value.stream) && s.cursor < r.value.stream.cursor
  {
    var t :- Current(s);
    var _ :- Expect(s, NAME, AnyValue, None);
    var v := Var([Key(ScalarToString(t.value))], [], s);
    var s1 :- Next(s);
    var t1 := Tok(s1);
    if IsPunct(t1, ".") then
      var s2 :- Next(s1);
      ProcessKey(v.(stream := s2))
    else if IsPunct(t1, "|") then
      var s2 :- Next(s1);
      ProcessModifier(v.(stream := s2))
    else
      var _ :- Expect(s1, VAR_END, AnyValue, None);
      Ok(v.(stream := s1))
  }

  /**
    `compile($writer)`: parse, then write the one `echo` statement with the
    line of the token the parse ended on.
   */
  function Compile(s: Stream, w: Writer): (r: Result<(Writer, Stream)>)
    ensures r.Ok? <==> ProcessName(s).Ok?
    ensures r.Ok? ==> var v := ProcessName(s).value;
      && r.value.1 == v.stream
      && r.value.0 == Write(w, EchoStatement(v.chunks, v.mods), Some(Tok(v.stream).line))
  {
    var v :- ProcessName(s);
    Ok((Write(w, EchoStatement(v.chunks, v.mods), Some(Tok(v.stream).line)), v.stream))
  }

  function Plains(names: seq<string>): (r: seq<Modifier>)
    ensures |r| == |names| && forall i :: 0 <= i < |r| ==> r[i] == Plain(names[i])
  {
    if |names| == 0 then [] else [Plain(names[0])] + Plains(names[1..])
  }

  /** Key names that the lexer could produce as NAME tokens not starting with `$`. */
  predicate PlainKeys(keys: seq<string>) {
    forall i :: 0 <= i < |keys| ==> !StartsWithDollar(Str(keys[i]))
  }

  /** Modifier names without `$`. */
  predicate PlainNames(names: seq<string>) {
    forall i :: 0 <= i < |names| ==> '$' !in names[i]
  }

  /** The modifier name step: a `$`-free NAME is taken and the stream moves past it. */
  lemma ModifierNameStep(chunks: seq<Chunk>, mods: seq<Modifier>, tokens: seq<Token>, k: nat, f: Option<string>, name: string)
    requires k + 1 < |tokens|
    requires tokens[k].kind == NAME && tokens[k].value == Str(name) && '$' !in name
    ensures ProcessModifier(Var(chunks, mods, Stream(tokens, k, f))) == ModifierAfter(Var(chunks, mods, Stream(tokens, k + 1, f)), name)
  {
  }

  /** After a modifier name, `|` records it and reads the next modifier. */
  lemma ModifierPipeStep(chunks: seq<Chunk>, mods: seq<Modifier>, tokens: seq<Token>, k: nat, f: Option<string>, name: string)
    requires k + 1 < |tokens| && '$' !in name
    requires IsPunct(tokens[k], "|")
    ensures ModifierAfter(Var(chunks, mods, Stream(tokens, k, f)), name)
         == ProcessModifier(Var(chunks, mods + [Plain(name)], Stream(tokens, k + 1, f)))
  {
    assert Next(Stream(tokens, k, f)) == Ok(Stream(tokens, k + 1, f));
  }

  /** After a modifier name, the VAR_END records it and ends the parse there. */
  lemma ModifierEndStep(chunks: seq<Chunk>, mods: seq<Modifier>, tokens: seq<Token>, k: nat, f: Option<string>, name: string)
    requires k < |tokens| && '$' !in name
    requires tokens[k].kind == VAR_END
    ensures ModifierAfter(Var(chunks, mods, Stream(tokens, k, f)), name) == Ok(Var(chunks, mods + [Plain(name)], Stream(tokens, k, f)))
  {
  }

  /** The first pair of a modifier chain's tokens, and the rest of it. */
  lemma PipeSplit(tokens: seq<Token>, c: nat, end: nat, names: seq<string>, line: int)
    requires |names| > 0 && end == c + 2 * |names| <= |tokens|
    requires tokens[c..end] == Chain("|", names, line)
    ensures IsPunct(tokens[c], "|") && tokens[c + 1] == Token(NAME, Str(names[0]), line)
    ensures tokens[c + 2..end] == Chain("|", names[1..], line)
  {
    var a := tokens[c..end];
    assert a == [Token(PUNCTUATION, Str("|"), line), Token(NAME, Str(names[0]), line)] + Chain("|", names[1..], line);
    assert tokens[c] == a[0] && tokens[c + 1] == a[1];
    assert a[2..] == tokens[c + 2..end];
  }

  /** A modifier chain of one name: the name, then the VAR_END. */
  lemma ModifierLast(chunks: seq<Chunk>, mods: seq<Modifier>, tokens: seq<Token>, c: nat, f: Option<string>, name: string)
    requires c + 2 < |tokens| && '$' !in name
    requires tokens[c + 1] == Token(NAME, Str(name), tokens[c + 1].line) && tokens[c + 2].kind == VAR_END
    ensures ProcessModifier(Var(chunks, mods, Stream(tokens, c + 1, f)))
         == Ok(Var(chunks, mods + [Plain(name)], Stream(tokens, c + 2, f)))
  {
    ModifierNameStep(chunks, mods, tokens, c + 1, f, name);
    ModifierEndStep(chunks, mods, tokens, c + 2, f, name);
  }

  /** A modifier name followed by `|`: the parse of the rest decides the result. */
  lemma ModifierLink(chunks: seq<Chunk>, mods: seq<Modifier>, tokens: seq<Token>, c: nat, f: Option<string>, name: string,
                     r: Result<Var>)
    requires c + 3 < |tokens| && '$' !in name
    requires tokens[c + 1] == Token(NAME, Str(name), tokens[c + 1].line) && IsPunct(tokens[c + 2], "|")
    requires ProcessModifier(Var(chunks, mods + [Plain(name)], Stream(tokens, c + 3, f))) == r
    ensures ProcessModifier(Var(chunks, mods, Stream(tokens, c + 1, f))) == r
  {
    ModifierNameStep(chunks, mods, tokens, c + 1, f, name);
    ModifierPipeStep(chunks, mods, tokens, c + 2, f, name);
  }

  /**
    A run of `|name` pairs ended by the VAR_END, read from the first name
    on: every name becomes a plain modifier, in order.
   */
  lemma {:induction false} ModifierChain(chunks: seq<Chunk>, mods: seq<Modifier>, tokens: seq<Token>, c: nat, end: nat,
                                         f: Option<string>, names: seq<string>, line: int)
    requires |names| > 0 && PlainNames(names)
    requires end == c + 2 * |names| && end < |tokens|
    requires tokens[c..end] == Chain("|", names, line)
    requires tokens[end].kind == VAR_END
    ensures IsPunct(tokens[c], "|")
    ensures ProcessModifier(Var(chunks, mods, Stream(tokens, c + 1, f)))
         == Ok(Var(chunks, mods + Plains(names), Stream(tokens, end, f)))
    decreases |names|
  {
    PipeSplit(tokens, c, end, names, line);
    assert '$' !in names[0];
    if |names| == 1 {
      ModifierLast(chunks, mods, tokens, c, f, names[0]);
      PlainsOne(mods, names);
    } else {
      var rest := names[1..];
      PipeSplit(tokens, c + 2, end, rest, line);
      PlainNamesTail(names);
      ModifierChain(chunks, mods + [Plain(names[0])], tokens, c + 2, end, f, rest, line);
      ModifierChainLink(chunks, mods, tokens, c, end, f, names);
    }
  }

  /** The names after the first of a `$`-free list are `$`-free. */
  lemma PlainNamesTail(names: seq<string>)
    requires |names| > 0 && PlainNames(names)
    ensures PlainNames(names[1..])
  {
    var rest := names[1..];
    forall i | 0 <= i < |rest| ensures '$' !in rest[i] { assert rest[i] == names[i + 1]; }
  }

  /** A chain of one name adds that name's plain modifier. */
  lemma PlainsOne(mods: seq<Modifier>, names: seq<string>)
    requires |names| == 1
    ensures mods + [Plain(names[0])] == mods + Plains(names)
  {
    assert Plains(names) == [Plain(names[0])];
  }

  /** A name and `|`, then a chain whose modifiers are known: the modifiers of the whole chain. */
  lemma ModifierChainLink(chunks: seq<Chunk>, mods: seq<Modifier>, tokens: seq<Token>, c: nat, end: nat, f: Option<string>,
                          names: seq<string>)
    requires |names| > 1 && c + 3 < |tokens| && '$' !in names[0]
    requires tokens[c + 1] == Token(NAME, Str(names[0]), tokens[c + 1].line) && IsPunct(tokens[c + 2], "|")
    requires ProcessModifier(Var(chunks, mods + [Plain(names[0])], Stream(tokens, c + 3, f)))
          == Ok(Var(chunks, mods + [Plain(names[0])] + Plains(names[1..]), Stream(tokens, end, f)))
    ensures ProcessModifier(Var(chunks, mods, Stream(tokens, c + 1, f)))
         == Ok(Var(chunks, mods + Plains(names), Stream(tokens, end, f)))
  {
    PlainsAppend(mods, names);
    ModifierLink(chunks, mods, tokens, c, f, names[0], Ok(Var(chunks, mods + Plains(names), Stream(tokens, end, f))));
  }

  /** The modifiers of a chain are its first name's, then those of the rest. */
  lemma PlainsAppend(mods: seq<Modifier>, names: seq<string>)
    requires |names| > 0
    ensures mods + [Plain(names[0])] + Plains(names[1..]) == mods + Plains(names)
  {
    var x, rest := Plain(names[0]), Plains(names[1..]);
    assert Plains(names) == [x] + rest;
    AppendCons(mods, x, rest);
  }

  /** The key step: a key token is taken and the stream moves past it. */
  lemma KeyNameStep(chunks: seq<Chunk>, mods: seq<Modifier>, tokens: seq<Token>, k: nat, f: Option<string>, key: string)
    requires k + 1 < |tokens|
    requires tokens[k].kind == NAME && tokens[k].value == Str(key) && !StartsWithDollar(Str(key))
    ensures ProcessKey(Var(chunks, mods, Stream(tokens, k, f))) == KeyAfter(Var(chunks, mods, Stream(tokens, k + 1, f)), key)
  {
    assert KeyToken(tokens[k]);
    assert ScalarToString(tokens[k].value) == key;
  }

  /** After a key, `.` records it and reads the next key. */
  lemma KeyDotStep(chunks: seq<Chunk>, mods: seq<Modifier>, tokens: seq<Token>, k: nat, f: Option<string>, key: string)
    requires k + 1 < |tokens|
    requires IsPunct(tokens[k], ".")
    ensures KeyAfter(Var(chunks, mods, Stream(tokens, k, f)), key)
         == ProcessKey(Var(chunks + [Key(key)], mods, Stream(tokens, k + 1, f)))
  {
  }

  /** After a key, `|` records it and reads the modifiers. */
  lemma KeyPipeStep(chunks: seq<Chunk>, mods: seq<Modifier>, tokens: seq<Token>, k: nat, f: Option<string>, key: string)
    requires k + 1 < |tokens|
    requires IsPunct(tokens[k], "|")
    ensures KeyAfter(Var(chunks, mods, Stream(tokens, k, f)), key)
         == ProcessModifier(Var(chunks + [Key(key)], mods, Stream(tokens, k + 1, f)))
  {
    assert "|"[0] != "."[0];
    assert !IsPunct(tokens[k], ".");
    assert Next(Stream(tokens, k, f)) == Ok(Stream(tokens, k + 1, f));
  }

  /** After a key, the VAR_END records it and ends the parse there. */
  lemma KeyEndStep(chunks: seq<Chunk>, mods: seq<Modifier>, tokens: seq<Token>, k: nat, f: Option<string>, key: string)
    requires k < |tokens| && tokens[k].kind == VAR_END
    ensures KeyAfter(Var(chunks, mods, Stream(tokens, k, f)), key) == Ok(Var(chunks + [Key(key)], mods, Stream(tokens, k, f)))
  {
  }

  /** The first pair of a key chain's tokens, and the rest of it. */
  lemma KeySplit(tokens: seq<Token>, c: nat, end: nat, keys: seq<string>, line: int)
    requires |keys| > 0 && end == c + 2 * |keys| <= |tokens|
    requires tokens[c..end] == Chain(".", keys, line)
    ensures IsPunct(tokens[c], ".") && tokens[c + 1] == Token(NAME, Str(keys[0]), line)
    ensures tokens[c + 2..end] == Chain(".", keys[1..], line)
  {
    var a := tokens[c..end];
    assert a == [Token(PUNCTUATION, Str("."), line), Token(NAME, Str(keys[0]), line)] + Chain(".", keys[1..], line);
    assert tokens[c] == a[0] && tokens[c + 1] == a[1];
    assert a[2..] == tokens[c + 2..end];
  }

  /** A key followed by `.`: the parse of the next key decides the result. */
  lemma KeyThenDot(chunks: seq<Chunk>, tokens: seq<Token>, c: nat, f: Option<string>, key: string, r: Result<Var>)
    requires c + 3 < |tokens| && !StartsWithDollar(Str(key))
    requires tokens[c + 1] == Token(NAME, Str(key), tokens[c + 1].line) && IsPunct(tokens[c + 2], ".")
    requires ProcessKey(Var(chunks + [Key(key)], [], Stream(tokens, c + 3, f))) == r
    ensures ProcessKey(Var(chunks, [], Stream(tokens, c + 1, f))) == r
  {
    KeyNameStep(chunks, [], tokens, c + 1, f, key);
    KeyDotStep(chunks, [], tokens, c + 2, f, key);
  }

  /** A key followed by `|`: the parse of the modifiers decides the result. */
  lemma KeyThenPipe(chunks: seq<Chunk>, tokens: seq<Token>, c: nat, f: Option<string>, key: string, r: Result<Var>)
    requires c + 3 < |tokens| && !StartsWithDollar(Str(key))
    requires tokens[c + 1] == Token(NAME, Str(key), tokens[c + 1].line) && IsPunct(tokens[c + 2], "|")
    requires ProcessModifier(Var(chunks + [Key(key)], [], Stream(tokens, c + 3, f))) == r
    ensures ProcessKey(Var(chunks, [], Stream(tokens, c + 1, f))) == r
  {
    KeyNameStep(chunks, [], tokens, c + 1, f, key);
    KeyPipeStep(chunks, [], tokens, c + 2, f, key);
  }

  /** A key followed by the VAR_END ends the parse there. */
  lemma KeyThenEnd(chunks: seq<Chunk>, tokens: seq<Token>, c: nat, f: Option<string>, key: string)
    requires c + 2 < |tokens| && !StartsWithDollar(Str(key))
    requires tokens[c + 1] == Token(NAME, Str(key), tokens[c + 1].line) && tokens[c + 2].kind == VAR_END
    ensures ProcessKey(Var(chunks, [], Stream(tokens, c + 1, f))) == Ok(Var(chunks + [Key(key)], [], Stream(tokens, c + 2, f)))
  {
    KeyNameStep(chunks, [], tokens, c + 1, f, key);
    KeyEndStep(chunks, [], tokens, c + 2, f, key);
  }

  /** A key, then a non-empty run of `|name` pairs up to `end`, then the VAR_END. */
  lemma KeyThenModifiers(chunks: seq<Chunk>, tokens: seq<Token>, c: nat, end: nat, f: Option<string>,
                         key: string, names: seq<string>, line: int)
    requires !StartsWithDollar(Str(key)) && |names| > 0 && PlainNames(names)
    requires end == c + 2 + 2 * |names| && end < |tokens|
    requires tokens[c + 1] == Token(NAME, Str(key), line)
    requires tokens[c + 2..end] == Chain("|", names, line)
    requires tokens[end].kind == VAR_END
    ensures ProcessKey(Var(chunks, [], Stream(tokens, c + 1, f)))
         == Ok(Var(chunks + [Key(key)], Plains(names), Stream(tokens, end, f)))
  {
    var after := chunks + [Key(key)];
    ModifiersFromNone(after, tokens, c + 2, end, f, names, line);
    KeyThenPipe(chunks, tokens, c, f, key, Ok(Var(after, Plains(names), Stream(tokens, end, f))));
  }

  /** A non-empty run of `|name` pairs up to `end`, then the VAR_END, read with no modifiers so far. */
  lemma ModifiersFromNone(chunks: seq<Chunk>, tokens: seq<Token>, c: nat, end: nat, f: Option<string>,
                          names: seq<string>, line: int)
    requires |names| > 0 && PlainNames(names)
    requires end == c + 2 * |names| && end < |tokens|
    requires tokens[c..end] == Chain("|", names, line)
    requires tokens[end].kind == VAR_END
    ensures c + 1 < |tokens| && IsPunct(tokens[c], "|")
    ensures ProcessModifier(Var(chunks, [], Stream(tokens, c + 1, f))) == Ok(Var(chunks, Plains(names), Stream(tokens, end, f)))
  {
    ModifierChain(chunks, [], tokens, c, end, f, names, line);
    assert [] + Plains(names) == Plains(names);
  }

  /** A single `.key` pair, then a run of `|name` pairs up to `end`, then the VAR_END. */
  lemma KeyChainOne(chunks: seq<Chunk>, tokens: seq<Token>, c: nat, end: nat, f: Option<string>,
                    key: string, names: seq<string>, line: int)
    requires !StartsWithDollar(Str(key)) && PlainNames(names)
    requires end == c + 2 + 2 * |names| && end < |tokens|
    requires tokens[c + 1] == Token(NAME, Str(key), line)
    requires tokens[c + 2..end] == Chain("|", names, line)
    requires tokens[end].kind == VAR_END
    ensures ProcessKey(Var(chunks, [], Stream(tokens, c + 1, f)))
         == Ok(Var(chunks + [Key(key)], Plains(names), Stream(tokens, end, f)))
  {
    if |names| == 0 {
      KeyThenEnd(chunks, tokens, c, f, key);
      assert Plains(names) == [];
    } else {
      KeyThenModifiers(chunks, tokens, c, end, f, key, names, line);
    }
  }

  /**
    A run of `.key` pairs up to `mid`, then a run of `|name` pairs up to
    `end`, then the VAR_END, read from the first key on.
   */
  lemma {:induction false} KeyChain(chunks: seq<Chunk>, tokens: seq<Token>, c: nat, mid: nat, end: nat, f: Option<string>,
                                    keys: seq<string>, names: seq<string>, line: int)
    requires |keys| > 0 && PlainKeys(keys) && PlainNames(names)
    requires mid == c + 2 * |keys| && end == mid + 2 * |names| && end < |tokens|
    requires tokens[c..mid] == Chain(".", keys, line)
    requires tokens[mid..end] == Chain("|", names, line)
    requires tokens[end].kind == VAR_END
    ensures ProcessKey(Var(chunks, [], Stream(tokens, c + 1, f)))
         == Ok(Var(chunks + Keys(keys), Plains(names), Stream(tokens, end, f)))
    decreases |keys|
  {
    KeySplit(tokens, c, mid, keys, line);
    assert !StartsWithDollar(Str(keys[0]));
    if |keys| == 1 {
      KeyChainOne(chunks, tokens, c, end, f, keys[0], names, line);
      KeysOne(chunks, keys);
    } else {
      var rest := keys[1..];
      KeySplit(tokens, c + 2, mid, rest, line);
      PlainKeysTail(keys);
      KeyChain(chunks + [Key(keys[0])], tokens, c + 2, mid, end, f, rest, names, line);
      KeyChainLink(chunks, tokens, c, end, f, keys, names);
    }
  }

  /** The keys after the first of a plain list are plain. */
  lemma PlainKeysTail(keys: seq<string>)
    requires |keys| > 0 && PlainKeys(keys)
    ensures PlainKeys(keys[1..])
  {
    var rest := keys[1..];
    forall i | 0 <= i < |rest| ensures !StartsWithDollar(Str(rest[i])) { assert rest[i] == keys[i + 1]; }
  }

  /** A chain of one key adds that key's chunk. */
  lemma KeysOne(chunks: seq<Chunk>, keys: seq<string>)
    requires |keys| == 1
    ensures chunks + [Key(keys[0])] == chunks + Keys(keys)
  {
    assert Keys(keys) == [Key(keys[0])];
  }

  /** A key and `.`, then a chain whose chunks are known: the chunks of the whole chain. */
  lemma KeyChainLink(chunks: seq<Chunk>, tokens: seq<Token>, c: nat, end: nat, f: Option<string>,
                     keys: seq<string>, names: seq<string>)
    requires |keys| > 1 && c + 3 < |tokens| && !StartsWithDollar(Str(keys[0]))
    requires tokens[c + 1] == Token(NAME, Str(keys[0]), tokens[c + 1].line) && IsPunct(tokens[c + 2], ".")
    requires ProcessKey(Var(chunks + [Key(keys[0])], [], Stream(tokens, c + 3, f)))
          == Ok(Var(chunks + [Key(keys[0])] + Keys(keys[1..]), Plains(names), Stream(tokens, end, f)))
    ensures ProcessKey(Var(chunks, [], Stream(tokens, c + 1, f)))
         == Ok(Var(chunks + Keys(keys), Plains(names), Stream(tokens, end, f)))
  {
    KeysAppend(chunks, keys);
    KeyThenDot(chunks, tokens, c, f, keys[0], Ok(Var(chunks + Keys(keys), Plains(names), Stream(tokens, end, f))));
  }

  /** The chunks of a chain are its first key's chunk, then the chunks of the rest. */
  lemma KeysAppend(chunks: seq<Chunk>, keys: seq<string>)
    requires |keys| > 0
    ensures chunks + [Key(keys[0])] + Keys(keys[1..]) == chunks + Keys(keys)
  {
    var x, rest := Key(keys[0]), Keys(keys[1..]);
    assert Keys(keys) == [x] + rest;
    AppendCons(chunks, x, rest);
  }

  /** The variable name followed by `.`: the parse of the keys decides the result. */
  lemma NameThenDot(tokens: seq<Token>, f: Option<string>, first: string, r: Result<Var>)
    requires 2 < |tokens| && tokens[0].kind == NAME && tokens[0].value == Str(first) && IsPunct(tokens[1], ".")
    requires ProcessKey(Var([Key(first)], [], Stream(tokens, 2, f))) == r
    ensures ProcessName(Stream(tokens, 0, f)) == r
  {
  }

  /** The variable name followed by `|`: the parse of the modifiers decides the result. */
  lemma NameThenPipe(tokens: seq<Token>, f: Option<string>, first: string, r: Result<Var>)
    requires 2 < |tokens| && tokens[0].kind == NAME && tokens[0].value == Str(first) && IsPunct(tokens[1], "|")
    requires ProcessModifier(Var([Key(first)], [], Stream(tokens, 2, f))) == r
    ensures ProcessName(Stream(tokens, 0, f)) == r
  {
    assert "|"[0] != "."[0];
    assert !IsPunct(tokens[1], ".");
  }

  /** The variable name followed by the VAR_END ends the parse there. */
  lemma NameThenEnd(tokens: seq<Token>, f: Option<string>, first: string)
    requires 1 < |tokens| && tokens[0].kind == NAME && tokens[0].value == Str(first) && tokens[1].kind == VAR_END
    ensures ProcessName(Stream(tokens, 0, f)) == Ok(Var([Key(first)], [], Stream(tokens, 1, f)))
  {
  }

  /** The tokens of the tag body `first.k1.k2…|m1|m2…` and its closing VAR_END. */
  function TagTokens(first: string, keys: seq<string>, names: seq<string>, line: int): (r: seq<Token>)
    ensures |r| == 2 + 2 * |keys| + 2 * |names|
  {
    [Token(NAME, Str(first), line)] + Chain(".", keys, line) + Chain("|", names, line) + [Token(VAR_END, Null, line)]
  }

  /** The layout `TagTokens` produces, stated on any token list. */
  predicate TagLayout(t: seq<Token>, first: string, keys: seq<string>, names: seq<string>, line: int) {
    var mid := 1 + 2 * |keys|; var end := mid + 2 * |names|;
    && |t| == end + 1
    && t[0] == Token(NAME, Str(first), line)
    && t[1..mid] == Chain(".", keys, line)
    && t[mid..end] == Chain("|", names, line)
    && t[end] == Token(VAR_END, Null, line)
  }

  /** `TagTokens` has that layout. */
  lemma TagTokensLayout(first: string, keys: seq<string>, names: seq<string>, line: int)
    ensures TagLayout(TagTokens(first, keys, names, line), first, keys, names, line)
  {
    var kt := Chain(".", keys, line);
    var pt := Chain("|", names, line);
    var t := TagTokens(first, keys, names, line);
    assert t == [Token(NAME, Str(first), line)] + kt + pt + [Token(VAR_END, Null, line)];
    assert t[1..1 + |kt|] == kt;
    assert t[1 + |kt|..1 + |kt| + |pt|] == pt;
  }

  /** The chunks of a variable name and its keys. */
  lemma KeysCons(first: string, keys: seq<string>)
    ensures Keys([first] + keys) == [Key(first)] + Keys(keys)
  {
    assert ([first] + keys)[1..] == keys;
  }

  /** The parse of a tag body with at least one key. */
  lemma ParseWithKeys(t: seq<Token>, first: string, keys: seq<string>, names: seq<string>, line: int, f: Option<string>)
    requires TagLayout(t, first, keys, names, line) && |keys| > 0 && PlainKeys(keys) && PlainNames(names)
    ensures ProcessName(Stream(t, 0, f)) == Ok(Var([Key(first)] + Keys(keys), Plains(names), Stream(t, |t| - 1, f)))
  {
    KeySplit(t, 1, 1 + 2 * |keys|, keys, line);
    KeyChain([Key(first)], t, 1, 1 + 2 * |keys|, |t| - 1, f, keys, names, line);
    NameThenDot(t, f, first, Ok(Var([Key(first)] + Keys(keys), Plains(names), Stream(t, |t| - 1, f))));
  }

  /** The parse of a tag body with no key and at least one modifier, which end at `end`. */
  lemma ParseWithModifiers(t: seq<Token>, end: nat, first: string, names: seq<string>, line: int, f: Option<string>)
    requires |names| > 0 && PlainNames(names) && end == 1 + 2 * |names| && end < |t|
    requires t[0] == Token(NAME, Str(first), line) && t[1..end] == Chain("|", names, line) && t[end].kind == VAR_END
    ensures ProcessName(Stream(t, 0, f)) == Ok(Var([Key(first)], Plains(names), Stream(t, end, f)))
  {
    ModifierChain([Key(first)], [], t, 1, end, f, names, line);
    NameThenPipe(t, f, first, Ok(Var([Key(first)], [] + Plains(names), Stream(t, end, f))));
    assert [] + Plains(names) == Plains(names);
  }

  /** With no keys the modifier chain starts right after the variable name. */
  lemma LayoutWithoutKeys(t: seq<Token>, first: string, names: seq<string>, line: int)
    requires TagLayout(t, first, [], names, line)
    ensures var end := 1 + 2 * |names|;
      && |t| == end + 1 && t[0] == Token(NAME, Str(first), line)
      && t[1..end] == Chain("|", names, line) && t[end].kind == VAR_END
  {
  }

  /** The parse of a bare tag body: the name, then the VAR_END. */
  lemma ParseBare(t: seq<Token>, first: string, line: int, f: Option<string>)
    requires TagLayout(t, first, [], [], line)
    ensures ProcessName(Stream(t, 0, f)) == Ok(Var([Key(first)], [], Stream(t, |t| - 1, f)))
  {
    NameThenEnd(t, f, first);
  }

  /**
    The parse round trip: a tag body laid out from plain keys and plain
    modifiers gives back exactly those keys, as chunks after the variable
    name, and those modifiers, with the stream on the VAR_END.
   */
  lemma ParseRoundTrip(t: seq<Token>, first: string, keys: seq<string>, names: seq<string>, line: int, f: Option<string>)
    requires TagLayout(t, first, keys, names, line) && PlainKeys(keys) && PlainNames(names)
    ensures ProcessName(Stream(t, 0, f)) == Ok(Var(Keys([first] + keys), Plains(names), Stream(t, |t| - 1, f)))
  {
    KeysCons(first, keys);
    if |keys| > 0 {
      ParseWithKeys(t, first, keys, names, line, f);
    } else if |names| > 0 {
      assert keys == [] && Keys(keys) == [];
      assert [Key(first)] + Keys(keys) == [Key(first)];
      LayoutWithoutKeys(t, first, names, line);
      ParseWithModifiers(t, |t| - 1, first, names, line, f);
    } else {
      assert keys == [] && names == [] && Keys(keys) == [] && Plains(names) == [];
      assert [Key(first)] + Keys(keys) == [Key(first)];
      ParseBare(t, first, line, f);
    }
  }

  /**
    The compile round trip: the same tokens write one `echo` of the
    expression over those chunks and modifiers, marked with the tag's line.
   */
  lemma CompileRoundTrip(first: string, keys: seq<string>, names: seq<string>, line: int, f: Option<string>, w: Writer)
    requires PlainKeys(keys) && PlainNames(names)
    ensures var t := TagTokens(first, keys, names, line);
      Compile(Stream(t, 0, f), w)
        == Ok((Write(w, EchoStatement(Keys([first] + keys), Plains(names)), Some(line)), Stream(t, |t| - 1, f)))
  {
    TagTokensLayout(first, keys, names, line);
    ParseRoundTrip(TagTokens(first, keys, names, line), first, keys, names, line, f);
  }

  /** A literal modifier or method argument. */
  datatype Literal = StrLit(text: string) | NumLit(number: int)

  /** The token the lexer gives a literal. */
  function LiteralToken(l: Literal, line: int): Token {
    match l
    case StrLit(text) => Token(STRING, Str(text), line)
    case NumLit(number) => Token(NUMBER, Int(number), line)
  }

  /** The code a literal argument is compiled to. */
  function LiteralCode(l: Literal): string {
    match l
    case StrLit(text) => QuoteArgument(text)
    case NumLit(number) => IntToString(number)
  }

  function LiteralCodes(lits: seq<Literal>): (r: seq<string>)
    ensures |r| == |lits| && forall i :: 0 <= i < |r| ==> r[i] == LiteralCode(lits[i])
  {
    if |lits| == 0 then [] else [LiteralCode(lits[0])] + LiteralCodes(lits[1..])
  }

  /** The tokens of an argument list after its `(`: the literals separated by `,`, then `)`. */
  function ArgTokens(lits: seq<Literal>, line: int): (r: seq<Token>)
    requires |lits| > 0
    ensures |r| == 2 * |lits|
  {
    [LiteralToken(lits[0], line)]
      + (if |lits| == 1 then [Token(PUNCTUATION, Str(")"), line)]
         else [Token(PUNCTUATION, Str(","), line)] + ArgTokens(lits[1..], line))
  }

  /** A literal argument is taken as it is. */
  lemma LiteralStep(tokens: seq<Token>, c: nat, f: Option<string>, args: seq<string>, l: Literal, line: int)
    requires c < |tokens| && tokens[c] == LiteralToken(l, line)
    ensures ProcessArguments(Stream(tokens, c, f), args) == ArgumentsAfter(Stream(tokens, c, f), args + [LiteralCode(l)])
  {
  }

  /** A `)` after an argument ends the list, and the stream moves past it. */
  lemma CloseStep(tokens: seq<Token>, c: nat, f: Option<string>, args: seq<string>)
    requires c + 2 < |tokens| && IsPunct(tokens[c + 1], ")")
    ensures ArgumentsAfter(Stream(tokens, c, f), args) == Ok((args, Stream(tokens, c + 2, f)))
  {
    assert Next(Stream(tokens, c, f)) == Ok(Stream(tokens, c + 1, f));
    assert Next(Stream(tokens, c + 1, f)) == Ok(Stream(tokens, c + 2, f));
  }

  /** A `,` after an argument goes on with the next one. */
  lemma CommaStep(tokens: seq<Token>, c: nat, f: Option<string>, args: seq<string>)
    requires c + 2 < |tokens| && IsPunct(tokens[c + 1], ",")
    ensures ArgumentsAfter(Stream(tokens, c, f), args) == ProcessArguments(Stream(tokens, c + 2, f), args)
  {
    var s1 := Stream(tokens, c, f);
    assert ","[0] != ")"[0];
    assert !IsPunct(tokens[c + 1], ")");
    assert Next(s1) == Ok(Stream(tokens, c + 1, f));
    assert Next(Stream(tokens, c + 1, f)) == Ok(Stream(tokens, c + 2, f));
  }

  /** The first literal of an argument list's tokens, its separator, and the rest. */
  lemma ArgSplit(tokens: seq<Token>, c: nat, end: nat, lits: seq<Literal>, line: int)
    requires |lits| > 0 && end == c + 2 * |lits| && end <= |tokens|
    requires tokens[c..end] == ArgTokens(lits, line)
    ensures tokens[c] == LiteralToken(lits[0], line)
    ensures |lits| == 1 ==> IsPunct(tokens[c + 1], ")")
    ensures |lits| > 1 ==> IsPunct(tokens[c + 1], ",") && tokens[c + 2..end] == ArgTokens(lits[1..], line)
  {
    var a := tokens[c..end];
    assert tokens[c] == a[0] && tokens[c + 1] == a[1];
    if |lits| > 1 {
      assert a[2..] == tokens[c + 2..end];
    }
  }

  /** The last literal, then `)`. */
  lemma ArgumentLast(tokens: seq<Token>, c: nat, f: Option<string>, args: seq<string>, l: Literal, line: int)
    requires c + 2 < |tokens| && tokens[c] == LiteralToken(l, line) && IsPunct(tokens[c + 1], ")")
    ensures ProcessArguments(Stream(tokens, c, f), args) == Ok((args + [LiteralCode(l)], Stream(tokens, c + 2, f)))
  {
    LiteralStep(tokens, c, f, args, l, line);
    CloseStep(tokens, c, f, args + [LiteralCode(l)]);
  }

  /** A literal, then `,`: the rest of the list decides the result. */
  lemma ArgumentLink(tokens: seq<Token>, c: nat, f: Option<string>, args: seq<string>, l: Literal, line: int,
                     r: Result<(seq<string>, Stream)>)
    requires c + 2 < |tokens| && tokens[c] == LiteralToken(l, line) && IsPunct(tokens[c + 1], ",")
    requires ProcessArguments(Stream(tokens, c + 2, f), args + [LiteralCode(l)]) == r
    ensures ProcessArguments(Stream(tokens, c, f), args) == r
  {
    LiteralStep(tokens, c, f, args, l, line);
    CommaStep(tokens, c, f, args + [LiteralCode(l)]);
  }

  /**
    The argument round trip: a list of literal arguments closed by `)`
    gives each literal's code, in order, and leaves the stream after the
    `)`.
   */
  lemma {:induction false} ArgumentChain(tokens: seq<Token>, c: nat, end: nat, f: Option<string>, args: seq<string>,
                                         lits: seq<Literal>, line: int)
    requires |lits| > 0 && end == c + 2 * |lits| && end < |tokens|
    requires tokens[c..end] == ArgTokens(lits, line)
    ensures ProcessArguments(Stream(tokens, c, f), args) == Ok((args + LiteralCodes(lits), Stream(tokens, end, f)))
    decreases |lits|
  {
    ArgSplit(tokens, c, end, lits, line);
    if |lits| == 1 {
      ArgumentChainOne(tokens, c, f, args, lits, line);
    } else {
      var args1 := args + [LiteralCode(lits[0])];
      ArgumentChain(tokens, c + 2, end, f, args1, lits[1..], line);
      ArgumentChainLink(tokens, c, end, f, args, lits, line);
    }
  }

  /** A list of one literal: its code, and the stream after the `)`. */
  lemma ArgumentChainOne(tokens: seq<Token>, c: nat, f: Option<string>, args: seq<string>, lits: seq<Literal>, line: int)
    requires |lits| == 1 && c + 2 < |tokens|
    requires tokens[c] == LiteralToken(lits[0], line) && IsPunct(tokens[c + 1], ")")
    ensures ProcessArguments(Stream(tokens, c, f), args) == Ok((args + LiteralCodes(lits), Stream(tokens, c + 2, f)))
  {
    ArgumentLast(tokens, c, f, args, lits[0], line);
    assert LiteralCodes(lits) == [LiteralCode(lits[0])];
  }

  /** A literal and `,`, then a list whose codes are known: the codes of the whole list. */
  lemma ArgumentChainLink(tokens: seq<Token>, c: nat, end: nat, f: Option<string>, args: seq<string>, lits: seq<Literal>, line: int)
    requires |lits| > 1 && c + 2 < end < |tokens|
    requires tokens[c] == LiteralToken(lits[0], line) && IsPunct(tokens[c + 1], ",")
    requires ProcessArguments(Stream(tokens, c + 2, f), args + [LiteralCode(lits[0])])
          == Ok((args + [LiteralCode(lits[0])] + LiteralCodes(lits[1..]), Stream(tokens, end, f)))
    ensures ProcessArguments(Stream(tokens, c, f), args) == Ok((args + LiteralCodes(lits), Stream(tokens, end, f)))
  {
    CodesCons(args, lits);
    ArgumentLink(tokens, c, f, args, lits[0], line, Ok((args + LiteralCodes(lits), Stream(tokens, end, f))));
  }

  /** The codes of a list are its first literal's code, then the codes of the rest. */
  lemma CodesCons(args: seq<string>, lits: seq<Literal>)
    requires |lits| > 0
    ensures args + [LiteralCode(lits[0])] + LiteralCodes(lits[1..]) == args + LiteralCodes(lits)
  {
    var x, rest := LiteralCode(lits[0]), LiteralCodes(lits[1..]);
    assert LiteralCodes(lits) == [x] + rest;
    AppendCons(args, x, rest);
  }
}
