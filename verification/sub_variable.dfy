/**
  `Spoon\Template\Parser\SubVariable`: the restricted `$a.b.c` chain used
  inside other constructs (modifier arguments, `include`, `for`, `if`).

  The first token must be a NAME; its first character (the `$`) is dropped
  to form the first chunk.  Keys follow only while a `.` is followed by a
  NAME; a key whose value contains `$` ends the chain and puts the cursor
  back on the `.`.  The compiled form is a `getVar` call listing the chunks.
 */
module SubVariables {
  import opened Errors
  import opened Strings
  import opened Tokens
  import opened TokenStreams
  import opened SyntaxErrors
  import opened VariableCode

  /** The chunk list gathered so far and the stream after it. */
  datatype Parsed = Parsed(chunks: seq<string>, stream: Stream)

  /** No chunk from index `from` on contains a `$`. */
  predicate DollarFree(chunks: seq<string>, from: nat) {
    forall i :: from <= i < |chunks| ==> '$' !in chunks[i]
  }

  /**
    `processKey()`: step over the `.`, then either give up on a `$` key
    (stepping back onto the `.`) or record the key and continue while the
    following token is another `.`.  The key token's type is not checked.
   */
  function ProcessKey(s: Stream, chunks: seq<string>): (r: Result<Parsed>)
    ensures r.Ok? ==> var p := r.value;
      && chunks <= p.chunks
      && DollarFree(p.chunks, |chunks|)
      && p.stream.tokens == s.tokens && p.stream.filename == s.filename
      && Valid(p.stream) && s.cursor <= p.stream.cursor
      && (IsPunct(Tok(p.stream), ".") ==>
            p.stream == s
            || (p.stream.cursor + 1 < |s.tokens| && ContainsDollar(s.tokens[p.stream.cursor + 1].value)))
    decreases |s.tokens| - s.cursor
  {
    var s1 :- Next(s);
    var t := Tok(s1);
    if ContainsDollar(t.value) then
      Ok(Parsed(chunks, Previous(s1).value))
    else
      var key := ScalarToString(t.value);
      var s2 :- Next(s1);
      if IsPunct(Tok(s2), ".") then ProcessKey(s2, chunks + [key])
      else Ok(Parsed(chunks + [key], s2))
  }

  /**
    `processName()`: the current token must be a NAME; the chain goes on
    only when a `.` follows and the token after it is a NAME.
   */
  function ProcessName(s: Stream): (r: Result<Parsed>)
    ensures !Valid(s) ==> r == Err(OutOfRange(s.cursor))
    ensures Valid(s) && Tok(s).kind != NAME ==>
              r == Err(Raise(UnexpectedMessage(Tok(s)), Tok(s).line, s.filename))
    ensures r.Ok? ==> var p := r.value;
      && Tok(s).kind == NAME
      && |p.chunks| >= 1 && p.chunks[0] == DropFirst(Tok(s).value)
      && DollarFree(p.chunks, 1)
      && p.stream.tokens == s.tokens && p.stream.filename == s.filename
      && Valid(p.stream) && s.cursor < p.stream.cursor
  {
    var t :- Current(s);
    var _ :- Expect(s, NAME, AnyValue, None);
    var first := DropFirst(t.value);
    var s1 :- Next(s);
    if IsPunct(Tok(s1), ".") then
      var ahead :- Look(s1, 1);
      if Test(ahead, NAME, AnyValue) then ProcessKey(s1, [first])
      else Ok(Parsed([first], s1))
    else Ok(Parsed([first], s1))
  }

  /** The compiled chain: the `getVar` call over the chunks as plain keys (`build()`). */
  function GetVarCall(chunks: seq<string>): string {
    GetVarCode(Keys(chunks))
  }

  /** `compile()`: the parsed chain and its `getVar` call (no `echo`). */
  function Compile(s: Stream): (r: Result<(string, Stream)>)
    ensures r.Ok? <==> ProcessName(s).Ok?
    ensures r.Ok? ==>
              r.value.1 == ProcessName(s).value.stream && r.value.0 == GetVarCall(ProcessName(s).value.chunks)
  {
    var p :- ProcessName(s);
    Ok((GetVarCall(p.chunks), p.stream))
  }

  /** One step of `processKey` over a `$`-free key. */
  lemma KeyStep(s: Stream, chunks: seq<string>)
    requires s.cursor + 2 < |s.tokens|
    requires !ContainsDollar(s.tokens[s.cursor + 1].value)
    ensures var key := ScalarToString(s.tokens[s.cursor + 1].value);
            var s2 := s.(cursor := s.cursor + 2);
      ProcessKey(s, chunks) == if IsPunct(Tok(s2), ".") then ProcessKey(s2, chunks + [key]) else Ok(Parsed(chunks + [key], s2))
  {
  }

  /** A `.`-separated run of `$`-free keys followed by a token other than `.` is read key by key. */
  lemma {:induction false} KeyChain(s: Stream, chunks: seq<string>, keys: seq<string>, line: int)
    requires |keys| > 0
    requires s.cursor + 2 * |keys| < |s.tokens|
    requires s.tokens[s.cursor..s.cursor + 2 * |keys|] == Chain(".", keys, line)
    requires !IsPunct(s.tokens[s.cursor + 2 * |keys|], ".")
    requires DollarFree(keys, 0)
    ensures ProcessKey(s, chunks) == Ok(Parsed(chunks + keys, s.(cursor := s.cursor + 2 * |keys|)))
    decreases |keys|
  {
    var c := s.cursor;
    var n := |keys|;
    var rest := keys[1..];
    var a := s.tokens[c..c + 2 * n];
    assert a == [Token(PUNCTUATION, Str("."), line), Token(NAME, Str(keys[0]), line)] + Chain(".", rest, line);
    assert s.tokens[c + 1] == a[1];
    assert '$' !in keys[0];
    KeyStep(s, chunks);
    var s2 := s.(cursor := c + 2);
    if n == 1 {
      assert keys == [keys[0]];
    } else {
      assert s.tokens[c + 2] == a[2];
      assert IsPunct(Tok(s2), ".");
      assert a[2..] == s2.tokens[s2.cursor..s2.cursor + 2 * |rest|];
      assert DollarFree(rest, 0) by {
        forall i | 0 <= i < |rest| ensures '$' !in rest[i] { assert rest[i] == keys[i + 1]; }
      }
      KeyChain(s2, chunks + [keys[0]], rest, line);
      assert keys == [keys[0]] + rest;
      AppendCons(chunks, keys[0], rest);
    }
  }

  /** A key whose value contains `$` adds nothing and leaves the stream on the `.`. */
  lemma DollarKey(s: Stream, chunks: seq<string>)
    requires s.cursor + 1 < |s.tokens|
    requires ContainsDollar(s.tokens[s.cursor + 1].value)
    ensures ProcessKey(s, chunks) == Ok(Parsed(chunks, s))
  {
  }

  /** `processName` on a NAME: the chain goes on exactly when a `.` and a NAME follow. */
  lemma NameStep(s: Stream)
    requires s.cursor + 1 < |s.tokens| && s.tokens[s.cursor].kind == NAME
    ensures var first := DropFirst(s.tokens[s.cursor].value); var s1 := s.(cursor := s.cursor + 1);
      && (!IsPunct(s.tokens[s.cursor + 1], ".") ==> ProcessName(s) == Ok(Parsed([first], s1)))
      && (IsPunct(s.tokens[s.cursor + 1], ".") && s.cursor + 2 < |s.tokens| && s.tokens[s.cursor + 2].kind == NAME ==>
            ProcessName(s) == ProcessKey(s1, [first]))
  {
  }

  /**
    The round trip at any position: `$first.k1.k2…` starting at `c` and
    followed by a token other than `.` compiles to the `getVar` call over
    `[first, k1, k2, …]`, with the cursor left on that following token.
   */
  lemma CompileAt(tokens: seq<Token>, c: nat, first: string, keys: seq<string>, line: int, filename: Option<string>)
    requires DollarFree(keys, 0)
    requires c + 1 + 2 * |keys| < |tokens|
    requires tokens[c] == Token(NAME, Str("$" + first), line)
    requires tokens[c + 1..c + 1 + 2 * |keys|] == Chain(".", keys, line)
    requires !IsPunct(tokens[c + 1 + 2 * |keys|], ".")
    ensures Compile(Stream(tokens, c, filename)) == Ok((GetVarCall([first] + keys), Stream(tokens, c + 1 + 2 * |keys|, filename)))
  {
    ParseAt(tokens, c, first, keys, line, filename);
  }

  /** The parse behind `CompileAt`: the chunks are the name without `$`, then the keys. */
  lemma ParseAt(tokens: seq<Token>, c: nat, first: string, keys: seq<string>, line: int, filename: Option<string>)
    requires DollarFree(keys, 0)
    requires c + 1 + 2 * |keys| < |tokens|
    requires tokens[c] == Token(NAME, Str("$" + first), line)
    requires tokens[c + 1..c + 1 + 2 * |keys|] == Chain(".", keys, line)
    requires !IsPunct(tokens[c + 1 + 2 * |keys|], ".")
    ensures ProcessName(Stream(tokens, c, filename)) == Ok(Parsed([first] + keys, Stream(tokens, c + 1 + 2 * |keys|, filename)))
  {
    if |keys| == 0 {
      assert [first] + keys == [first];
      ParseBare(tokens, c, first, line, filename);
    } else {
      ParseKeys(tokens, c, first, keys, line, filename);
    }
  }

  /** The `$` of the variable name is dropped. */
  lemma DropDollar(first: string)
    ensures DropFirst(Str("$" + first)) == first
  {
    assert ("$" + first)[1..] == first;
  }

  /** A name not followed by `.` is a chain of one chunk. */
  lemma ParseBare(tokens: seq<Token>, c: nat, first: string, line: int, filename: Option<string>)
    requires c + 1 < |tokens| && tokens[c] == Token(NAME, Str("$" + first), line)
    requires !IsPunct(tokens[c + 1], ".")
    ensures ProcessName(Stream(tokens, c, filename)) == Ok(Parsed([first], Stream(tokens, c + 1, filename)))
  {
    DropDollar(first);
    NameStep(Stream(tokens, c, filename));
  }

  /** A name followed by at least one `.key` pair: the keys are read by `processKey`. */
  lemma ParseKeys(tokens: seq<Token>, c: nat, first: string, keys: seq<string>, line: int, filename: Option<string>)
    requires |keys| > 0 && DollarFree(keys, 0)
    requires c + 1 + 2 * |keys| < |tokens|
    requires tokens[c] == Token(NAME, Str("$" + first), line)
    requires tokens[c + 1..c + 1 + 2 * |keys|] == Chain(".", keys, line)
    requires !IsPunct(tokens[c + 1 + 2 * |keys|], ".")
    ensures ProcessName(Stream(tokens, c, filename)) == Ok(Parsed([first] + keys, Stream(tokens, c + 1 + 2 * |keys|, filename)))
  {
    var end := c + 1 + 2 * |keys|;
    KeyHead(tokens, c + 1, end, keys, line);
    DropDollar(first);
    NameThenKey(Stream(tokens, c, filename), Stream(tokens, c + 1, filename), first);
    KeyChainAt(tokens, c + 1, end, [first], keys, line, filename);
  }

  /** The first pair of a key chain's tokens: the `.`, then the key's NAME. */
  lemma KeyHead(tokens: seq<Token>, c: nat, end: nat, keys: seq<string>, line: int)
    requires |keys| > 0 && end == c + 2 * |keys| <= |tokens|
    requires tokens[c..end] == Chain(".", keys, line)
    ensures IsPunct(tokens[c], ".") && tokens[c + 1] == Token(NAME, Str(keys[0]), line)
  {
    var kt := tokens[c..end];
    assert kt == [Token(PUNCTUATION, Str("."), line), Token(NAME, Str(keys[0]), line)] + Chain(".", keys[1..], line);
    assert tokens[c] == kt[0] && tokens[c + 1] == kt[1];
  }

  /** `KeyChain` with the chain's tokens placed at `c` up to `end`. */
  lemma KeyChainAt(tokens: seq<Token>, c: nat, end: nat, chunks: seq<string>, keys: seq<string>, line: int,
                   filename: Option<string>)
    requires |keys| > 0 && DollarFree(keys, 0)
    requires end == c + 2 * |keys| && end < |tokens|
    requires tokens[c..end] == Chain(".", keys, line)
    requires !IsPunct(tokens[end], ".")
    ensures ProcessKey(Stream(tokens, c, filename), chunks) == Ok(Parsed(chunks + keys, Stream(tokens, end, filename)))
  {
    var s := Stream(tokens, c, filename);
    KeyChain(s, chunks, keys, line);
    assert s.(cursor := s.cursor + 2 * |keys|) == Stream(tokens, end, filename);
  }

  /** A name followed by `.` and a NAME hands over to `processKey` on the `.`. */
  lemma NameThenKey(s: Stream, s1: Stream, first: string)
    requires s.cursor + 2 < |s.tokens| && s.tokens[s.cursor].kind == NAME && DropFirst(s.tokens[s.cursor].value) == first
    requires IsPunct(s.tokens[s.cursor + 1], ".") && s.tokens[s.cursor + 2].kind == NAME
    requires s1 == s.(cursor := s.cursor + 1)
    ensures ProcessName(s) == ProcessKey(s1, [first])
  {
    assert Next(s) == Ok(s1);
    assert Look(s1, 1) == Ok(s.tokens[s.cursor + 2]);
  }

  /**
    The key token's type is never checked: a STRING after a `.` in a chain
    that already has a key is taken as one more key.
   */
  lemma StringTakenAsKey(s: Stream, chunks: seq<string>, text: string)
    requires s.cursor + 2 < |s.tokens|
    requires s.tokens[s.cursor + 1] == Token(STRING, Str(text), s.tokens[s.cursor + 1].line) && '$' !in text
    requires !IsPunct(s.tokens[s.cursor + 2], ".")
    ensures ProcessKey(s, chunks) == Ok(Parsed(chunks + [text], s.(cursor := s.cursor + 2)))
  {
    KeyStep(s, chunks);
  }
}
