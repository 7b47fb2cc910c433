# Spoon\Template front end in Dafny

A model of the template compiler front end of the Spoon library
(`Spoon\Template`). The lexer turns template text with `{* comment *}`,
`{$variable}` and `{block}` tags into a flat token list. A token stream with
a cursor feeds recursive-descent node parsers: `VariableNode`, the older
`Variable`, `SubVariable`, `IncludeNode`, `ForNode`/`EndForNode`,
`IfNode`/`ElseNode`, `Text` and `TextNode`. Those parsers write PHP code
through an append-only, indenting `Writer` that marks each source line
once. The model also covers:

- the runtime path resolver `Renderer::getVar`;
- the modifier registry and settings of `Environment`;
- the variable store of `Template` and its two older copies;
- the comment and code stripper of the older `core` extension, in both of
  its copies.

Every operation is a pure function. Parser state is an immutable
`Stream(tokens, cursor, filename)`. Code output is an immutable
`Writer(indentation, lastLine, source)`. Both are threaded through the
functions, and each function returns `Ok(...)` or the exception the PHP code
throws (`Errors.Result`). The `Error` values are:

- `SyntaxError` and `Exception`, for the PHP exceptions;
- `Warning`, `Notice` and `RecoverableError`, for PHP diagnostics, which PHPUnit's error handler turns into exceptions;
- `OutOfRange`, for a cursor that leaves the token list.

The code base predates PHP 8, and the model follows PHP 7 on a 64-bit
build wherever the two differ:

- Integers are 64-bit, so an array key like `'99999999999999999999'`
  stays a string.
- Under `==`, a number compared with a string that is not an integer string
  compares with that string's leading integer, so `0 == 'abc'` holds.
- An array used as an array offset reads as null with a warning.
- `trigger_error` rejects the level `E_WARNING` with its own warning.
- `(string)` of an array raises a notice, and of an object without `__toString` a recoverable error.

Modules and files:

- **Errors** (`errors.dfy`): results and errors.
- **Strings** (`strings.dfy`): `strpos`-style search, `\s*` runs, newline counting, integer printing.
- **SyntaxErrors** (`syntax_error.dfy`): the message of `SyntaxError`.
- **Tokens** (`token.dfy`): `Token`, `test`, `typeToString`.
- **TokenStreams** (`token_stream.dfy`): the cursor operations.
- **Writers** (`writer.dfy`): `Writer`.
- **LexerPatterns** (`lexer_patterns.dfy`): the lexer's regular expressions as hand-written matchers, and `stripcslashes`.
- **Lexer** (`lexer.dfy`) and **LexerProperties** (`lexer_properties.dfy`): `Lexer`, as one scanner step per loop iteration.
- **PhpLiterals** (`php_literals.dfy`) and **TextNodes** (`text_nodes.dfy`): `addslashes`, PHP single-quoted literals, `Text` and `TextNode`.
- **VariableCode** (`variable_code.dfy`): the `getVar` expression the variable parsers build.
- **VariableNodes** (`variable_node.dfy`), **Variables** (`variable.dfy`) and **SubVariables** (`sub_variable.dfy`): the three variable grammars.
- **IncludeNodes**, **ForNodes** and **IfNodes** (`include_node.dfy`, `for_node.dfy`, `if_node.dfy`): the block tags. `ForNodes` also holds `EndForNode`, and `IfNodes` holds `ElseNode`.
- **Renderers** (`renderer.dfy`): `getVar`, with PHP values as a datatype and objects as lookup tables.
- **Environments** (`environment.dfy`) and **TemplateStores** (`template_store.dfy`).
- **CoreExtensions** (`core_extension.dfy`): `stripComments`, `stripCode`, `parse`.

Quirks of the code are modelled as written and stated as properties:

- Indentation may go negative.
- The lexer does not complain about brackets left open at the end of input.
- The `for` loop counter `i` is never advanced. The one exception is the loop variable `$loop`, whose `foreach` overwrites the whole loop metadata with each element.
- `endif;` is written without a newline.
- `getModifier` reports a name bound to a null callback as missing.
- The modifier name pattern accepts one trailing newline.
- `Text` escapes `"` inside a single-quoted literal (see Findings).
- A stray unclosed `{*` stops all comment stripping.
- The greedy code pattern also removes the text between two PHP blocks.

## Model

| member | source | states |
|---|---|---|
| SyntaxErrors.ComposeShape | SyntaxError.php:26-41 | The message starts with the given one. It is unchanged exactly when neither line nor file is given. With a file it ends in ` in F`. With a line only it ends in ` on line N`. With a line, ` on line N` follows the message directly, so it precedes the file suffix. |
| SyntaxErrors.RaiseShape | SyntaxError.php:29-38 | An error raised at a position is a SyntaxError whose message starts with the given text and ends with the line suffix followed by the file suffix. |
| Strings.IndexFrom | Lexer.php:190-204 | The `strpos` with offset the lexer probes with: the result is an occurrence at or after the offset, and no earlier occurrence exists from the offset on; None exactly when there is no occurrence. |
| Strings.IndexFromFinds | Lexer.php:166-180 | Any occurrence with none before it (from the offset) is the one found. |
| Strings.SpaceRun | Lexer.php:151-161 | The greedy `\s*`: every character of the run is whitespace and the character after it is not. |
| Tokens.TypeToString | Token.php:152-203 | The constants -1..9 map to EOF, TEXT, BLOCK_START, BLOCK_END, VAR_START, VAR_END, NAME, NUMBER, STRING, OPERATOR, PUNCTUATION, in that order. Every other integer raises the "There is no token type" Exception. |
| Tokens.TypeToStringOfCode | Token.php:27-37 | Every token type's constant lies in -1..9, converts back to that type, and maps to its own label. |
| Tokens.TestCases | Token.php:126-144 | A different type makes `test` false. With no value it is true iff the type matches. With a scalar it is true iff the value is equal. With an array it is true iff some element is loosely equal. |
| Tokens.LeadingIntegerOfIntegerString | Token.php:132 | On an integer string, the leading-integer reading PHP 7 uses against numbers gives the string's own value, so the two comparison rules agree. |
| Tokens.LooseEqualsExamples | Token.php:132 | Under `in_array`, `0` matches `'abc'` in both orders, `1` does not match `'abc'`, and `12` matches `'12abc'`. |
| Tokens.TestExamples | Tests/TokenTest.php:61-75 | For the NAME token `$blub` on line 3: `test(BLOCK_END)` fails, `test(NAME)` holds, the list without `$blub` fails, and the list with it holds. |
| TokenStreams.Create | TokenStream.php:40-43 | A new stream has cursor 0, the given tokens and filename. Its current token exists iff the list is not empty. |
| TokenStreams.Current | Parser/IncludeNode.php:106 | `getCurrent` is the token under the cursor, or an out-of-range error when the cursor is past the list. |
| TokenStreams.Next | Parser/SubVariable.php:92 | `next` succeeds iff a token follows, and then moves the cursor by exactly one. |
| TokenStreams.Previous | Parser/SubVariable.php:104 | `previous` succeeds iff the cursor is not at the first token, and then moves it back by exactly one. |
| TokenStreams.Look | Parser/SubVariable.php:157 | `look(n)` is the token n places ahead, and it fails exactly when there is none. The cursor does not move. |
| TokenStreams.Expect | Tests/TokenStreamTest.php:64-67 | `expect` returns the current token iff it passes `test`. Otherwise it raises a SyntaxError whose message is the custom message or a description of the token, with that token's line and the stream's filename. |
| TokenStreams.NextPreviousLook | Tests/TokenStreamTest.php:91-110 | `previous` after `next` gives back the original stream. `look()` is the token `next` reaches. `look(0)` is the current token. |
| TokenStreams.MovesKeepTokens | TokenStream.php:40-43 | `next` and `previous` never change the token list or the filename. |
| TokenStreams.EofStream | Tests/TokenStreamTest.php:83-89 | A stream holding just EOF is at its end, and `next` on it fails. |
| Writers.Indent | Writer.php:58-62 | `indent(n)` raises the level by exactly n and touches nothing else. |
| Writers.Outdent | Writer.php:70-74 | `outdent(n)` lowers the level by exactly n, with no clamping at zero. |
| Writers.Prefix | Writer.php:86 | The prefix is one tab per positive level, and nothing for a level of zero or below. |
| Writers.Write | Writer.php:83-97 | The last marked line changes iff a line is given and it is above the last marked one, and then it becomes that line. In that case the write appends the prefixed `// line N` marker line and then the prefixed value. Otherwise it appends only the prefixed value. The level never changes. |
| Writers.WriteEndsWithValue | Writer.php:95 | After any write the buffer ends with the prefixed value, preceded by at most one marker line. |
| Writers.AppendOnly | Writer.php:92 | The old source is always a prefix of the new one. |
| Writers.LastLineMonotone | Writer.php:89-91 | The last marked line never decreases once set. |
| Writers.OneMarkerPerLine | Writer.php:89-93 | A second write for an already-marked line appends only the prefixed text. |
| Writers.FreshWrite | Tests/WriterTest.php:40-45 | One plain write to a fresh writer yields exactly the value. |
| Writers.IndentOutdentExample | Tests/WriterTest.php:58-64 | `indent(10)` then `outdent(8)` puts exactly two tabs in front of the next write. |
| Writers.OutdentBelowZero | Tests/WriterTest.php:66-71 | Outdenting below zero is allowed, and the next write has no prefix. |
| Writers.UnindentedWrite | Tests/WriterTest.php:47-56 | At level 0 a write appends the marker (for a new line) and the value, nothing more. |
| Writers.LineNumbersExample | Tests/WriterTest.php:73-87 | Writes for lines 1, 1, 2 produce the line-1 marker once, then the line-2 marker. |
| LexerPatterns.OperatorLength | Lexer.php:278-285 | The operator alternation is tried in pattern order. A match is one of the listed operators. `and`/`or` match only before a space or parenthesis. Every single-character operator matches. |
| LexerPatterns.NameLength | Lexer.php:27 | The greedy name match at a position is a whole name, followed by a non-name character or the end. It is empty iff neither a name start nor `$` plus a name start is there. |
| LexerPatterns.NumberLength | Lexer.php:28 | The number match is empty iff no digit is there. Otherwise it is digits with an optional `.digits` part, and a purely integer match could not be extended by a decimal part. |
| LexerPatterns.NumberValue | Lexer.php:295-299 | A lexeme of digits only becomes an integer, capped at PHP_INT_MAX. Any other lexeme is kept as a decimal with its text. |
| LexerPatterns.NumberValueOfPrinted | Lexer.php:297 | A printed integer within range lexes back to the same integer. |
| LexerPatterns.StringLength | Lexer.php:29 | A string match opens and closes with the same quote. An opening quote with no unescaped closing one gives no match. |
| LexerPatterns.QuotedEndOfEscaped | Lexer.php:29 | A literal whose body escapes backslashes and its quote closes exactly where the body ends. |
| LexerPatterns.StripEscapedRoundTrip | Lexer.php:334-338 | `stripcslashes` of an escaped literal body gives back the original value, for both quotes. |
| LexerPatterns.Normalize | Lexer.php:382 | After normalisation no carriage return is left. |
| LexerPatterns.NormalizeIdentity | Lexer.php:382 | A source without carriage returns is unchanged. |
| Lexer.AddToken | Lexer.php:137-146 | A token is appended on the current line, except a TEXT token whose value is loosely equal to the empty string. Nothing else in the scanner changes. |
| Lexer.MoveTo | Lexer.php:367-371 | Moving the cursor adds the number of newlines passed over to the line counter and keeps exact line tracking. |
| Lexer.ProbeIsFirstBrace | Lexer.php:190-204 | The three-way probe with strict `<` finds nothing iff there is no `{`. Otherwise it reports the first `{`, as a comment before `*`, a variable before `$`, and a block otherwise. |
| Lexer.ProcessData | Lexer.php:185-249 | With no tag left, the rest of the source becomes one TEXT token and the cursor reaches the end. Only a comment can fail, and every success is an advancing step. |
| Lexer.ProcessComment | Lexer.php:166-180 | A comment adds no token and moves past the first following `*}` and the whitespace after it. It fails with "Unclosed comment" at the current line iff no `*}` follows. |
| Lexer.CloseBlock | Lexer.php:151-161 | `\s*}\s*` closes a block: one BLOCK_END on the current line, the cursor past the trailing whitespace, and back to the data state. |
| Lexer.ProcessVariable | Lexer.php:350-360 | A `}` right at the cursor closes a variable with one VAR_END and returns to the data state. |
| Lexer.ProcessExpression | Lexer.php:254-272 | Whitespace running into the end of the source raises "Unexpected end of file". Otherwise a token is scanned, and a success is an advancing step. |
| Lexer.ScanTokenKind | Lexer.php:278-345 | A scanned expression adds exactly one token on the current line. Its kind is decided by operator, then name, then number, then punctuation, then string. A character none of them matches raises "The source can not be lexed.". |
| Lexer.Brackets | Lexer.php:302-331 | An opener is pushed with its line. A closer on an empty stack raises `Unexpected "c"`. A closer that does not match the innermost opener raises `Unclosed "o"`. A matching closer pops. Other punctuation leaves the stack alone. |
| Lexer.ScanPunctuation | Lexer.php:302-331 | Punctuation succeeds iff the bracket check does. It adds one PUNCTUATION token holding the character, moves one place, and keeps the line. |
| Lexer.RunKeeps | Lexer.php:391-407 | The loop only appends tokens. It keeps every token admissible (no EOF, no empty TEXT), token lines non-decreasing and within the lines seen, and line tracking exact. |
| Lexer.Tokenize | Lexer.php:380-411 | A successful `tokenize` ends with exactly one EOF token, has no empty TEXT token, and has non-decreasing token lines between 1 and one plus the newline count of the normalised source. |
| Lexer.Run | Lexer.php:391-407 | A successful loop consumes the whole source. |
| LexerProperties.NoTagSource | Lexer.php:207-221 | A normalised source with no `{` lexes to `[TEXT(source), EOF]`, or to `[EOF]` when it is empty. |
| LexerProperties.OpenAtCursor | Lexer.php:231-248 | In the data state, `{$` at the cursor emits VAR_START and consumes the `$`. `{` not followed by `*` emits BLOCK_START. Both add no TEXT. |
| LexerProperties.BracketStep | Lexer.php:302-331 | Inside a tag, a bracket other than `}` goes straight to the bracket check. |
| LexerProperties.ExpressionStep | Lexer.php:151-161 | Inside a tag, a non-space character other than `}` starts an expression token. |
| LexerProperties.NameStep | Lexer.php:288-292 | Inside a variable tag, a plain name before `}` is one NAME token on the current line. |
| LexerProperties.UnmatchedCloser | Lexer.php:311-318 | A `)` or `]` with no bracket open raises `Unexpected` with the current line. |
| LexerProperties.MatchedCloser | Lexer.php:320-330 | A matching closer pops the innermost bracket and becomes a PUNCTUATION token. |
| LexerProperties.TokenizeOk | Lexer.php:409 | A successful loop gives its tokens followed by one EOF on the last line. |
| PhpLiterals.StripSlashesRoundTrip | Parser/Text.php:47 | `stripslashes` undoes `addslashes` on every string. |
| PhpLiterals.EscSingleRoundTrip | Parser/TextNode.php:34 | Decoding the escape of `TextNode` with single-quote rules gives back the text, for every NUL-free text. |
| PhpLiterals.UnslashQuotes | Parser/TextNode.php:34 | Turning every `\"` of `addslashes` output back into `"` gives exactly the single-quote escape. |
| PhpLiterals.EscapeQuotesRoundTrip | Parser/VariableNode.php:156 | A backslash-free string argument, quoted with `'` escaped, reads back as itself. |
| PhpLiterals.EscapeQuotesBackslash | Parser/VariableNode.php:156 | A lone backslash argument becomes `'\'`, whose backslash escapes the closing quote. |
| TextNodes.CompileText | Parser/Text.php:45-51 | `Text` fails iff there is no current token. Otherwise it returns `echo '…';\n` whose quoted body is exactly `addslashes` of the current value. Text without `"` or NUL is printed exactly. It writes nothing and does not move the stream. |
| TextNodes.CompileTextQuoteMismatch | Parser/Text.php:45-51 | On a stream whose current token is a lone `"`, `Text` compiles to a statement that prints `\"` and not `"`. |
| TextNodes.TextEchoes | Parser/Text.php:47-50 | Text with no `"` and no NUL is printed exactly by the `Text` statement. |
| TextNodes.TextQuoteMismatch | Parser/Text.php:47 | A lone `"` is printed as `\"`: the backslash `addslashes` adds is never read back inside single quotes. |
| TextNodes.CompileTextNode | Parser/TextNode.php:29-36 | `TextNode` writes its statement with the current token's line, so a marker comes first for a new line. It does not move the stream. |
| TextNodes.TextNodeEchoes | Parser/TextNode.php:34 | Every NUL-free text, `"` included, is printed exactly by the `TextNode` statement. |
| TextNodes.CompilersAgree | Parser/TextNode.php:34 | On text without `"` the two compilers produce the same statement. |
| TextNodes.NulPrintedAsEscape | Parser/TextNode.php:34 | A NUL is printed as the two characters `\0`. |
| VariableCode.BuildGetVar | Parser/Variable.php:46-75 | The chunk loop produces the `getVar` call over the chunk codes separated by `, `, with the array closed after the last one. |
| VariableCode.BuildExpression | Parser/Variable.php:77-92 | Each modifier in turn wraps the expression so far as its first argument. |
| VariableCode.Nesting | Parser/VariableNode.php:88-101 | The expression is the modifier heads from last to first, the `getVar` call, then the tails from first to last. |
| VariableCode.LastModifierOutermost | Parser/Variable.php:77-92 | With a modifier, the expression starts with the last modifier's call and ends in `))`, so the last modifier is outermost. |
| VariableNodes.ProcessName | Parser/VariableNode.php:343-377 | A non-NAME current token is reported by `expect`. On success the first chunk is the name, and the continuation after it is `.`, `|` or VAR_END only. |
| VariableNodes.ProcessKey | Parser/VariableNode.php:203-278 | A key must be a NAME without `$` or a NUMBER. On success chunks and modifiers are only added to, in order. |
| VariableNodes.ProcessModifier | Parser/VariableNode.php:283-338 | A modifier must be a NAME without `$`. On success the chunks are kept and `$`-free modifiers are only appended. |
| VariableNodes.ArgumentHead | Parser/VariableNode.php:126-163 | An argument is a NUMBER, a STRING (quoted, `'` escaped) or a `$` sub-variable chain. Anything else raises SyntaxError. |
| VariableNodes.ArgumentsMalformed | Parser/VariableNode.php:185-197 | After an argument, a token other than `)` or `,` is reported. |
| VariableNodes.Compile | Parser/VariableNode.php:112-116 | A tag compiles to exactly one `echo` of the expression over the parsed chunks and modifiers, written with the current token's line. |
| VariableNodes.KeyChain | Parser/VariableNode.php:203-278 | A run of `.key` pairs, then `|name` pairs, then VAR_END, is read as those keys in source order, then those modifiers. |
| VariableNodes.ModifierChain | Parser/VariableNode.php:283-338 | A run of `|name` pairs up to VAR_END records each modifier, in source order, as a plain modifier. |
| VariableNodes.ArgumentChain | Parser/VariableNode.php:126-198 | Literal arguments separated by `,` and closed by `)` give each literal's code in order, and leave the stream after the `)`. |
| VariableNodes.ParseRoundTrip | Parser/VariableNode.php:343-377 | The tag body laid out from a name, `$`-free keys and modifier names parses back to exactly those chunks and modifiers, with the stream on the VAR_END. |
| VariableNodes.CompileRoundTrip | Parser/VariableNode.php:63-116 | The same tokens compile to one write of the `echo` statement over those chunks and modifiers, at the tag's line. |
| Variables.ProcessName | Parser/Variable.php:109-140 | `compile` steps past VAR_START and then requires a NAME. On success the name is the first chunk. |
| Variables.KeyMustBeName | Parser/Variable.php:142-158 | A key after `.` must be a NAME: a NUMBER key is reported by `expect`. |
| Variables.KeyDollarRejected | Parser/Variable.php:150-158 | A key containing `$` is rejected. |
| Variables.ModifierDollarRejected | Parser/Variable.php:208-224 | A modifier name containing `$` is rejected. |
| Variables.ArgumentRejected | Parser/Variable.php:262-277 | Arguments are NUMBER or STRING only: a sub-variable is rejected as well. |
| Variables.ArgumentsMalformed | Parser/Variable.php:291-314 | After an argument only `)` or `,` may follow. |
| Variables.NameRequired | Parser/Variable.php:109-115 | The token after VAR_START must be a NAME. |
| Variables.FooExample | Tests/VariableTest.php:42-57 | `{$foo}` compiles to exactly `echo $this->getVar($context, array('foo'));\n`. |
| Variables.ModifierWithArguments | Parser/Variable.php:240-252 | `|name(a, b)` records one modifier carrying the literals' codes in order. |
| Variables.ParseRoundTrip | Parser/Variable.php:109-260 | A tag laid out from `$`-free keys and modifier names parses back to exactly those chunks and modifiers. |
| Variables.CompileRoundTrip | Parser/Variable.php:103-107 | The same tag compiles to the `echo` of the expression over those chunks and modifiers. |
| Variables.GrammarsAgree | Parser/Variable.php:43-101 | On tags that neither grammar rejects, the older grammar returns exactly the statement the newer `VariableNode` writes. |
| SubVariables.ProcessName | Parser/SubVariable.php:142-161 | The first token must be a NAME, and its first character is dropped to form the first chunk. Later chunks are `$`-free. The stream moves forward over the same tokens. |
| SubVariables.ProcessKey | Parser/SubVariable.php:89-137 | Keys are only appended to the chain. |
| SubVariables.KeyChain | Parser/SubVariable.php:125-136 | `.key` pairs of `$`-free keys are appended in order. The chain stops at the first token after a key that is not `.`. |
| SubVariables.DollarKey | Parser/SubVariable.php:101-106 | A key containing `$` adds nothing and moves the stream back onto the `.`. |
| SubVariables.NameStep | Parser/SubVariable.php:157 | The chain goes on exactly when a `.` and a NAME follow. |
| SubVariables.StringTakenAsKey | Parser/SubVariable.php:94-117 | A STRING after `.` is taken as a key like a NAME. |
| SubVariables.Compile | Parser/SubVariable.php:80-84 | `compile` succeeds iff the parse does, and returns the `getVar` call over the parsed chunks, without `echo`. |
| SubVariables.CompileAt | Parser/SubVariable.php:58-73 | `$first.k1.k2…` compiles to `$this->getVar($context, array('first', 'k1', …))`, with the stream on the token after the chain. |
| IncludeNodes.Process | Parser/IncludeNode.php:103-168 | A current token that starts no element adds nothing and raises nothing. On success elements are only appended, the tokens are unchanged, and the stream stops on BLOCK_END or on a non-element. |
| IncludeNodes.UnexpectedAfterString | Parser/IncludeNode.php:118-129 | After an element, a token other than `.` or BLOCK_END raises `Unexpected …` with that token's line. |
| IncludeNodes.BuildRender | Parser/IncludeNode.php:59-85 | The output is `$this->render(` with the elements joined by ` . `, then `, $context);\n`. |
| IncludeNodes.Compile | Parser/IncludeNode.php:92-97 | `compile` steps past the tag name, processes the elements, and writes the `render` call with the line of the token it stops on. Element errors pass through. |
| IncludeNodes.StringsRoundTrip | Parser/IncludeNode.php:103-141 | `{include 's0' . 's1' …}` writes the `render` call over the quoted strings in order. |
| IncludeNodes.QuotedReadsBack | Parser/IncludeNode.php:59-85 | Each quoted backslash-free string reads back as itself in the generated PHP. |
| IncludeNodes.SubVariableRoundTrip | Parser/IncludeNode.php:138-141 | A `$first.k…` element is compiled by `SubVariable` and written unquoted inside the `render` call. |
| IncludeNodes.DollarStringUnquoted | Parser/IncludeNode.php:59-85 | A STRING element starting with `$` is written raw, as PHP code. |
| ForNodes.VariableRequired | Parser/ForNode.php:53-67 | The loop variable must be a NAME starting with `$`. Otherwise it raises `Unrecognized "for" syntax` with that token's line. |
| ForNodes.InRequired | Parser/ForNode.php:69-74 | After the loop variable, anything but the NAME `in` is reported. |
| ForNodes.Compile | Parser/ForNode.php:51-108 | A successful `for` parses the header, compiles the list as a sub-variable, and writes the prologue. The level rises by one and no line marker is added. |
| ForNodes.PrologueText | Parser/ForNode.php:93-107 | The prologue is, in order: save `_parent`, `count`, `first = true`, `last = false`, `i = 1`, the `foreach` into the key named after the variable without `$`, then the `last` test one level deeper. |
| ForNodes.RoundTrip | Parser/ForNode.php:79-101 | `{for $v in $first.k…}` writes the prologue over the list's `getVar` call, binding `v`, with the stream after the list. |
| ForNodes.CompileEnd | Parser/EndForNode.php:51-58 | `endfor` succeeds iff a token follows. It moves exactly one token, outdents once, and writes no marker. |
| ForNodes.ForThenEndFor | Parser/EndForNode.php:55-57 | After a `for` prologue, `endfor` restores the level and appends exactly `endforeach;` and the context restore. |
| ForNodes.CounterNeverAdvances | Parser/ForNode.php:94-107 | For any list code and any loop variable name, the initialisation to 1 is the only written statement that starts with an assignment to `$context['loop']['i']`. This covers the `count` and `foreach` lines and the `endfor` lines too. The `foreach` key target is never the counter. Its value target `$context['name']` is not the counter when the name has no quote, and no lexed NAME has one. For such a name, the value target encloses the counter iff the name is `loop`, so `{for $loop in …}` overwrites the counter with each element. |
| IfNodes.VariableRequired | Parser/IfNode.php:53-64 | The condition must be a NAME starting with `$`. Otherwise it raises "Expecting variable" with that token's line. |
| IfNodes.ConditionMissing | Parser/IfNode.php:53 | At the end of the stream there is no condition to step onto. |
| IfNodes.Compile | Parser/IfNode.php:51-72 | `if(` plus the sub-variable code plus `):\n` is written with the condition's line, and the level rises by one. |
| IfNodes.RoundTrip | Parser/IfNode.php:66-71 | `{if $first.k…}` writes `if(` plus the `getVar` call over those chunks plus `):`. |
| IfNodes.CompileElse | Parser/ElseNode.php:29-34 | `else` outdents, writes `else:\n` and indents. The net level and the last marked line are unchanged. |
| IfNodes.ElseText | Parser/ElseNode.php:31-33 | `else:` is written one level shallower than the body it interrupts, with nothing else added. |
| IfNodes.IfThenElse | Parser/ElseNode.php:31-33 | After an `if`, `else` keeps the body's level and appends only the `else:` line at the `if`'s own level. |
| Renderers.Normalize | Renderer.php:36-38 | The array-key cast: canonical integer strings within PHP's 64-bit integer range become integer keys. Other strings stay as they are, including longer decimals. |
| Renderers.IntegerKeyString | Renderer.php:36-38 | The decimal text of any 64-bit integer keys as that integer. |
| Renderers.OutOfRangeKeyString | Renderer.php:36-38 | The decimal text of an integer outside the 64-bit range stays a string key. |
| Renderers.SingleCaseConsistent | Renderer.php:34-42 | A one-element path is the context entry if the key exists, else null. |
| Renderers.PathPrefix | Renderer.php:44-112 | A longer path starts from the context entry of its first element and walks the rest. |
| Renderers.WalkAppend | Renderer.php:45-112 | Walking a path in two parts is walking it whole. |
| Renderers.ScalarStops | Renderer.php:108-109 | An intermediate that is neither array nor object makes the whole result null. |
| Renderers.ResolveIsFirstApplicable | Renderer.php:63-106 | On an object the first that applies is used: a set property, a method, `get` plus ucfirst(name), `__get`. Otherwise the result is null. |
| Renderers.GetterAlias | Renderer.php:86-95 | With no property or method of that name, an element resolves exactly as its getter, passing the call chunk's arguments. |
| Renderers.Ucfirst | Renderer.php:86 | Only an ASCII lower-case first letter changes, to upper case. |
| Renderers.NumericKeysAgree | Renderer.php:57-60 | For any 64-bit integer i, `$array['i']` and `$array[i]` read the same entry. |
| Renderers.UsersExample | Tests/RendererTest.php:91-98 | `users.1.name` over a list of user records reads the second user's name. |
| Environments.Create | Environment.php:66-89 | Each of `auto_escape`, `auto_reload`, `cache`, `charset` and `debug` overrides its default after its cast. The defaults are true, true, `.`, `utf-8` and false. The registry holds `dump` only. |
| Environments.DefaultConfiguration | Environment.php:66-88 | Without options: escaping and reloading on, cache `.`, charset `utf-8`, debug off, modifiers {dump}. |
| Environments.AddModifier | Environment.php:98-107 | A name is accepted iff it matches `/^[a-z]+[a-z0-9_]*$/i`, where PCRE's `$` also allows one final newline. It is bound, replacing any earlier callback. Otherwise it raises the naming Exception. |
| Environments.GetModifier | Environment.php:212-220 | Returns the callback iff the name is bound to a non-null one. Otherwise it raises `There is no "…" modifier.`. |
| Environments.RemoveModifier | Environment.php:280-284 | The name is unbound, and every other entry and setting is unchanged. |
| Environments.AddThenGet | Environment.php:98-107 | An added modifier is returned by `getModifier`, and every other name reads as before. |
| Environments.AddOverwrites | Environment.php:105-106 | A second add under a name replaces the first. |
| Environments.AddThenRemove | Environment.php:280-284 | Adding a fresh name and removing it restores the environment. |
| Environments.RemoveAbsent | Environment.php:280-284 | Removing an absent name changes nothing. |
| Environments.NullCallbackMissing | Environment.php:212-220 | A name bound to a null callback is reported missing although it is registered. |
| Environments.NamingExamples | Environment.php:100 | `a`, `a_`, `a9`, `a_9`, `a9_` and `dump\n` are accepted. `9`, `_`, `du mp`, the empty name and `dump\n\n` are rejected. |
| Environments.SettersIndependent | Environment.php:114-172 | Each enable/disable/set method sets its own field and leaves every other field and the registry as they were. |
| Environments.SettersCommute | Environment.php:292-308 | Setters of different fields commute, and the last setter of a field wins. |
| TemplateStores.Assign | Template.php:52-72 | With a null value or an empty key it fails iff the argument is a key. The error is the warning PHP 7 raises because `E_WARNING` is not a valid level for `trigger_error`. Otherwise it fails iff the key is an array or an object, whose `(string)` cast raises "Array to string conversion" or "Object of class C could not be converted to string". No existing key is lost. |
| TemplateStores.AssignThenGet | Template.php:55 | `assign(k, v)` with non-null v and non-empty k is read back by `get(k)`, and other names read as before. |
| TemplateStores.AssignOverwrites | template.php:58 | A second assignment to the same name replaces the first. |
| TemplateStores.AssignEntries | template/template.php:27-40 | Assigning an array copies each entry, overwriting, and leaves other keys alone. |
| TemplateStores.AssignExamples | Tests/TemplateTest.php:51-56 | `assign('key', 'value')` and `assign(array('foo' => 'bar'))` are both read back. |
| TemplateStores.SingleKeyWarns | Template.php:60-63 | A lone key argument raises PHP 7's "Invalid error type specified" warning. The intended single-argument message is never shown. |
| TemplateStores.Remove | Template.php:104-108 | `remove` deletes exactly that key. |
| TemplateStores.RemoveThenGet | template.php:107-111 | After `remove`, `get` answers null for that name, and other names read as before. |
| TemplateStores.AssignThenRemove | template/template.php:65-69 | Assigning a fresh name and removing it gives back the store. |
| CoreExtensions.CommentPass | extension/core.php:61 | One pass removes the span from the last `{*` to the first `*}` after it. It removes nothing iff no such span exists, and a removing pass shortens the text. |
| CoreExtensions.StripComments | extension/core.php:56-65 | Passes repeat until one removes nothing: no comment span is left, and the text never grows. |
| CoreExtensions.StripCommentsIdempotent | template/extension/core.php:41-50 | Stripping comments twice is stripping them once. |
| CoreExtensions.NoOpenerUnchanged | extension/core.php:58-64 | Text without `{*` comes back unchanged. |
| CoreExtensions.OneComment | template/extension/core.php:46 | One comment between plain text is removed, leaving the text around it. |
| CoreExtensions.NestedExample | tests/extension/core.php:47-54 | `{* nested {* comment *} *}` strips to the empty string, inner comment first. |
| CoreExtensions.SimpleExample | template/tests/extension_core.php:49-56 | A single whole comment strips to the empty string. |
| CoreExtensions.UnclosedOpenerKeepsComments | extension/core.php:61 | A last `{*` with no `*}` after it stops stripping altogether: the text is returned unchanged. |
| CoreExtensions.StripCode | extension/core.php:45-48 | Everything from the first `<?` through the last `?>` after it is removed. Text without such a block is unchanged, and no block is left. |
| CoreExtensions.StripCodeIdempotent | template/extension/core.php:30-33 | Stripping code twice is stripping it once. |
| CoreExtensions.CodeExamples | tests/extension/core.php:38-45 | A `<?php` block and a short-tag block are removed whole. |
| CoreExtensions.BetweenBlocksRemoved | template/extension/core.php:32 | The greedy match also removes the text between two PHP blocks. |
| CoreExtensions.Parse | extension/core.php:32-37 | `parse` strips comments, then code: no PHP block is left and the text never grows. |
| CoreExtensions.ParseCanLeaveComment | template/extension/core.php:16-22 | Removing code after comments can join a new comment, which `parse` then leaves in place. |

## Left out

- `Compiler.php` and `compiler.php`: file reading, directory creation and rename. Their dispatch also calls node APIs the shown nodes do not have.
- The `render` methods of the three template classes, `Environment::getCacheFilename` and `isChanged`: filesystem access, hashing and class loading.
- `environment.php` and `template/component.php`: older configuration objects with no algorithmic content.
- `token.php`: an earlier token record with getters only and an empty `typeToString`.
- `Parser/ElseIfNode.php`: it uses members `Parser/IfNode.php` does not define, so its behaviour cannot be reconstructed.
- `Parser/Node.php`, `Exception.php`, `extension.php`, `template/extension.php`, `autoloader.php` and `template/autoloader.php`: no behaviour beyond declarations and class loading.
- PHP reflection in `getVar` (`property_exists`, `method_exists`, `call_user_func_array`, `__get`): objects are tables of properties, methods and a `__get` function passed in as data.
- Multibyte handling with the environment's charset: the source is a sequence of characters.
- Floating-point numbers: a decimal NUMBER keeps its lexeme instead of a float value.
- PCRE: each pattern is a hand-written matcher. Case-insensitive `<?` and `?>` are exact characters, since case does not affect `<`, `?` and `>`.
- Writers.Write: a fresh writer's source is PHP null, modelled as the empty string, which concatenation treats the same.
- Tokens.TestCases: `LooseEquals` models PHP 7's `==`, with these rules:
  - null equals the empty string, and any number or integer string whose value is 0;
  - two integer values, from integers, `-?[0-9]+` strings or zero-fraction decimals, compare by value;
  - a number against any other string compares with the string's leading integer.
  Strings with leading whitespace, a `+` sign, a fraction or an exponent are not read as PHP reads them, and a numeric string beyond 64 bits is not compared as a float.
- TokenStreams.Create: the constructor at `TokenStream.php:40-43` drops its `$filename` argument. The model keeps the filename, because `Tests/TokenStreamTest.php:80` expects `getFilename()` to return it, and the parsers use it for the " in F" suffix of their errors.
- TemplateStores.Assign: the model stops at the first PHP diagnostic, warning, notice or recoverable error alike, as PHPUnit's error handler does. Under PHP's default handler the code continues instead. After the invalid-level warning, the loop warns again over the non-array and the store is returned unchanged. After the array-key notice, the value is stored under `"Array"`. An object whose class defines `__toString` is not modelled, since objects carry no methods here.
- Renderers.Index: the notices and warnings `getVar` raises for an undefined index or an illegal offset are not modelled. The read gives null, as under PHP 7's default handler. PHP 8 would throw a TypeError for the illegal offset instead.
- TokenStreams.Expect: the default message for an unexpected token is not in the shown `TokenStream.php`. It is modelled on the message wording the parsers use.
- TokenStreams.Next: the cursor API is not in `TokenStream.php`. Moves past either end are modelled as an out-of-range error, as the parsers' use sites and the stream test imply.
- Lexer.Run: the loop is stated one step at a time. End-to-end lexing of concrete templates with tags is covered by the step lemmas rather than by worked examples.
- LexerProperties.NameStep: a name is proved to lex as one NAME token only when `}` follows it directly. Other followers are covered by `Lexer.ScanTokenKind`'s general statement.
- Variables.ParseRoundTrip and VariableNodes.ParseRoundTrip: the round trips cover keys and modifiers without arguments. Arguments are covered separately by `ArgumentChain` and `ModifierWithArguments`.
- Renderers.ResolveIsFirstApplicable: the getter and `__get` calls are table lookups, so side effects of PHP methods are not modelled.

## Findings

| source | as written | input that shows it | evidently intended | confidence | as-written member | corrected member |
|---|---|---|---|---|---|---|
| Parser/Text.php:47 | `addslashes` escapes `"` as `\"` inside a single-quoted PHP literal, where `\"` is not an escape | the text `"` compiles to `echo '\"';`, which prints `\"` | print the text exactly, as `Parser/TextNode.php:34` does by turning `\"` back into `"` | not executed | TextNodes.CompileTextQuoteMismatch | TextNodes.TextNodeEchoes |
