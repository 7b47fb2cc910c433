/**
  The two compilers of plain template text: `Parser\Text` (which returns
  the statement) and `Parser\TextNode` (which writes it, marked with the
  token's line).  Both emit `echo '…';` around an escaped copy of the text;
  they differ in the escape.
 */
module TextNodes {
  import opened Errors
  import opened Strings
  import opened Tokens
  import opened TokenStreams
  import opened PhpLiterals
  import opened Writers

  /** The statement shape both compilers use: `echo '` + body + `';` and a newline. */
  function EchoLiteral(body: string): string {
    "echo '" + body + "';\n"
  }

  /** The body of a statement of that shape, if it has it. */
  function LiteralBody(stmt: string): Option<string> {
    if |stmt| >= 9 && stmt[..6] == "echo '" && stmt[|stmt| - 3..] == "';\n" then Some(stmt[6..|stmt| - 3])
    else None
  }

  /** The statement prints exactly `text` when PHP runs it. */
  predicate Echoes(stmt: string, text: string) {
    var body := LiteralBody(stmt);
    body.Some? && DecodeSingleQuoted(body.value) == Some(text)
  }

  /** The body of `EchoLiteral(body)` is `body`. */
  lemma BodyOfEcho(body: string)
    ensures LiteralBody(EchoLiteral(body)) == Some(body)
  {
    var stmt := EchoLiteral(body);
    assert stmt[..6] == "echo '";
    assert stmt[6..|stmt| - 3] == body;
    assert stmt[|stmt| - 3..] == "';\n";
  }

  /** `Text::compile()` for a text: `addslashes` inside single quotes. */
  function TextStatement(text: string): string {
    EchoLiteral(AddSlashes(text))
  }

  /** Text without `"` or NUL is printed exactly by the `Text` statement. */
  lemma TextEchoes(text: string)
    requires '"' !in text && NUL !in text
    ensures Echoes(TextStatement(text), text)
  {
    AddSlashesPlain(text);
    EscSingleRoundTrip(text);
    BodyOfEcho(AddSlashes(text));
  }

  /** Without `"`, `addslashes` is the escape of `TextNode`. */
  lemma {:induction false} AddSlashesPlain(s: string)
    requires '"' !in s
    ensures AddSlashes(s) == EscSingle(s)
  {
    if |s| > 0 {
      assert '"' !in s[1..];
      AddSlashesPlain(s[1..]);
    }
  }

  /**
    `Text::compile()`: the statement for the current token's value; the
    stream does not move and nothing is written.
   */
  function CompileText(s: Stream): (r: Result<string>)
    ensures r.Ok? <==> Valid(s)
    ensures r.Ok? ==> LiteralBody(r.value) == Some(AddSlashes(ScalarToString(Tok(s).value)))
    ensures r.Ok? ==> var text := ScalarToString(Tok(s).value);
      '"' !in text && NUL !in text ==> Echoes(r.value, text)
  {
    var t :- Current(s);
    var text := ScalarToString(t.value);
    BodyOfEcho(AddSlashes(text));
    if '"' !in text && NUL !in text then TextEchoes(text); Ok(TextStatement(text))
    else Ok(TextStatement(text))
  }

  /** `Text::compile()` on a stream whose current token is a lone `"`: the statement prints `\"`, not `"`. */
  lemma CompileTextQuoteMismatch(tokens: seq<Token>, c: nat, filename: Option<string>)
    requires c < |tokens| && tokens[c].value == Str("\"")
    ensures var r := CompileText(Stream(tokens, c, filename));
      && r.Ok?
      && Echoes(r.value, "\\\"") && !Echoes(r.value, "\"")
  {
    TextQuoteMismatch();
  }

  /** `Text::compile()` on a lone `"` prints `\"`: the backslash `addslashes` adds is never read back. */
  lemma TextQuoteMismatch()
    ensures TextStatement("\"") == EchoLiteral("\\\"")
    ensures Echoes(TextStatement("\""), "\\\"") && !Echoes(TextStatement("\""), "\"")
  {
    AddSlashesQuoteMismatch();
    BodyOfEcho("\\\"");
  }

  /** `TextNode::compile()` for a text: `addslashes`, then every `\"` turned back into `"`. */
  function TextNodeStatement(text: string): string {
    EchoLiteral(ReplaceAll(AddSlashes(text), "\\\"", "\""))
  }

  /** Every NUL-free text, `"` included, is printed exactly by the `TextNode` statement. */
  lemma TextNodeEchoes(text: string)
    requires NUL !in text
    ensures Echoes(TextNodeStatement(text), text)
  {
    UnslashQuotes(text);
    EscSingleRoundTrip(text);
    BodyOfEcho(EscSingle(text));
  }

  /**
    `TextNode::compile()`: the statement for the current token's value,
    written with the token's line; the stream does not move.
   */
  function CompileTextNode(s: Stream, w: Writer): (r: Result<Writer>)
    ensures r.Ok? <==> Valid(s)
    ensures r.Ok? ==> var text := ScalarToString(Tok(s).value);
      && r.value.indentation == w.indentation
      && (NUL !in text ==> exists stmt :: Echoes(stmt, text) && r.value == Write(w, stmt, Some(Tok(s).line)))
  {
    var t :- Current(s);
    var text := ScalarToString(t.value);
    if NUL !in text then TextNodeEchoes(text); Ok(Write(w, TextNodeStatement(text), Some(t.line)))
    else Ok(Write(w, TextNodeStatement(text), Some(t.line)))
  }

  /** On text without `"`, the two compilers produce the same statement. */
  lemma CompilersAgree(text: string)
    requires '"' !in text
    ensures TextStatement(text) == TextNodeStatement(text)
  {
    AddSlashesPlain(text);
    UnslashQuotes(text);
  }

  /** A NUL character is printed as the two characters `\0`: single quotes do not read that escape. */
  lemma NulPrintedAsEscape()
    ensures TextNodeStatement([NUL]) == EchoLiteral("\\0")
    ensures Echoes(TextNodeStatement([NUL]), "\\0")
  {
    UnslashQuotes([NUL]);
    assert AddSlashes([NUL]) == "\\0";
    assert EscSingle([NUL]) == "\\0";
    BodyOfEcho("\\0");
    assert "\\0"[1..] == "0" && "0"[1..] == "";
    assert DecodeSingleQuoted("") == Some("");
    assert ['0'] + "" == "0" && ['\\'] + "0" == "\\0";
  }
}
