/**
  `Spoon\Template\TokenStream`: a fixed token list, a cursor that starts at
  0, and the stream's filename.  The class body only stores the list; the
  cursor operations the node parsers call (`getCurrent`, `next`,
  `previous`, `look`, `isEof`, `expect`, `getFilename`) are modelled from
  their use sites: moving or peeking outside the list is an `OutOfRange`
  error instead of a PHP notice.
 */
module TokenStreams {
  import opened Errors
  import opened Strings
  import opened Tokens
  import opened SyntaxErrors

  datatype Stream = Stream(tokens: seq<Token>, cursor: nat, filename: Option<string>)

  /** The cursor designates a token of the list. */
  predicate Valid(s: Stream) {
    s.cursor < |s.tokens|
  }

  /** `new TokenStream($tokens, $filename)`. */
  function Create(tokens: seq<Token>, filename: Option<string>): (s: Stream)
    ensures s.cursor == 0 && s.tokens == tokens && s.filename == filename
    ensures Valid(s) <==> |tokens| > 0
  {
    Stream(tokens, 0, filename)
  }

  /** The token under a valid cursor. */
  function Tok(s: Stream): Token
    requires Valid(s)
  {
    s.tokens[s.cursor]
  }

  /** `getCurrent()`. */
  function Current(s: Stream): (r: Result<Token>)
    ensures r.Ok? <==> Valid(s)
    ensures r.Ok? ==> r.value == s.tokens[s.cursor]
  {
    if Valid(s) then Ok(s.tokens[s.cursor]) else Err(OutOfRange(s.cursor))
  }

  /** `next()`: the cursor moves one token forward; the new current token is `Tok` of the result. */
  function Next(s: Stream): (r: Result<Stream>)
    ensures r.Ok? <==> s.cursor + 1 < |s.tokens|
    ensures r.Ok? ==> Valid(r.value) && r.value == s.(cursor := s.cursor + 1)
  {
    if s.cursor + 1 < |s.tokens| then Ok(s.(cursor := s.cursor + 1))
    else Err(OutOfRange(s.cursor + 1))
  }

  /** `previous()`: the cursor moves one token back. */
  function Previous(s: Stream): (r: Result<Stream>)
    ensures r.Ok? <==> 0 < s.cursor <= |s.tokens|
    ensures r.Ok? ==> Valid(r.value) && r.value == s.(cursor := s.cursor - 1)
  {
    if 0 < s.cursor <= |s.tokens| then Ok(s.(cursor := s.cursor - 1))
    else Err(OutOfRange(s.cursor - 1))
  }

  /** `look($n)`: the token `n` places ahead, without moving (`look()` is `look(1)`). */
  function Look(s: Stream, n: nat): (r: Result<Token>)
    ensures r.Ok? <==> s.cursor + n < |s.tokens|
    ensures r.Ok? ==> r.value == s.tokens[s.cursor + n]
  {
    if s.cursor + n < |s.tokens| then Ok(s.tokens[s.cursor + n]) else Err(OutOfRange(s.cursor + n))
  }

  /** `isEof()`. */
  predicate IsEof(s: Stream)
    requires Valid(s)
  {
    Tok(s).kind == EOF
  }

  /** The message `expect` reports when no custom message is given. */
  function UnexpectedMessage(t: Token): string {
    "Unexpected \"" + Label(t.kind) + "\" with value \"" + ScalarToString(t.value) + "\""
  }

  /**
    `expect($type, $value = null, $message = null)`: the current token when
    it passes `Token::test`, otherwise a SyntaxError with the custom message
    (or a description of the token found), the token's line and the
    stream's filename.
   */
  function Expect(s: Stream, kind: TokenType, expected: Expected, custom: Option<string>): (r: Result<Token>)
    requires Valid(s)
    ensures r.Ok? <==> Test(Tok(s), kind, expected)
    ensures r.Ok? ==> r.value == Tok(s)
    ensures r.Err? ==> r.error == SyntaxError(Compose(
                          if custom.Some? then custom.value else UnexpectedMessage(Tok(s)),
                          Some(Tok(s).line), s.filename))
  {
    var t := Tok(s);
    if Test(t, kind, expected) then Ok(t)
    else
      var message := if custom.Some? then custom.value else UnexpectedMessage(t);
      Err(Raise(message, t.line, s.filename))
  }

  /** Moving forward then back returns to the same stream, and the peeked token is the one `next` reaches. */
  lemma NextPreviousLook(s: Stream)
    requires s.cursor + 1 < |s.tokens|
    ensures Next(s).Ok? && Previous(Next(s).value) == Ok(s)
    ensures Look(s, 1) == Ok(Tok(Next(s).value))
    ensures Valid(s) && Look(s, 0) == Current(s)
  {
  }

  /** Cursor moves never change the token list or the filename. */
  lemma MovesKeepTokens(s: Stream)
    ensures Next(s).Ok? ==> Next(s).value.tokens == s.tokens && Next(s).value.filename == s.filename
    ensures Previous(s).Ok? ==> Previous(s).value.tokens == s.tokens && Previous(s).value.filename == s.filename
  {
  }

  /** A one-token stream holding EOF is at its end (the `isEof` test). */
  lemma EofStream(line: int)
    ensures var s := Create([Token(EOF, Null, line)], None);
      Valid(s) && IsEof(s) && Next(s).Err?
  {
  }
}
