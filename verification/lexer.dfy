/**
  `Spoon\Template\Lexer`: a three-state scanner (data, block, variable) that
  turns template text into a flat list of tokens.

  The lexer's mutable fields become a `Scanner` record and each protected
  method a function from one scanner to the next (or to the SyntaxError it
  throws).  Positions are character offsets into the normalised source.
 */
module Lexer {
  import opened Errors
  import opened Strings
  import opened Tokens
  import opened SyntaxErrors
  import opened LexerPatterns

  datatype State = Data | Block | Var

  /** An entry of the bracket stack: the opening character and the line it was on. */
  datatype Bracket = Bracket(open: char, line: int)

  datatype Scanner = Scanner(
    source: string,
    cursor: nat,
    line: int,
    state: State,
    brackets: seq<Bracket>,
    tokens: seq<Token>,
    filename: Option<string>)

  /** The three opening tags the data state looks for. */
  datatype Tag = CommentTag | VarTag | BlockTag

  function Opening(t: Tag): string {
    match t
    case CommentTag => "{*"
    case VarTag => "{$"
    case BlockTag => "{"
  }

  const Punctuation: string := "()[]{}?:.,|"

  function CloserOf(open: char): char {
    if open == '(' then ')' else if open == '[' then ']' else '}'
  }

  // ---------------------------------------------------------------------
  // Invariants
  // ---------------------------------------------------------------------

  /** A token the scanner may hold: never EOF, and a TEXT token only with a non-empty string. */
  predicate Admissible(t: Token) {
    t.kind != EOF && (t.kind == TEXT ==> t.value.Str? && t.value.s != "")
  }

  /** The line counter equals one plus the newlines consumed so far. */
  predicate Exact(s: Scanner) {
    s.cursor <= |s.source| && s.line == 1 + Newlines(s.source[..s.cursor])
  }

  /**
    Line tracking: exact, except after the trailing text of the data state,
    which moves the cursor to the end without counting its newlines.
   */
  predicate Tracks(s: Scanner) {
    Exact(s) || (s.cursor == |s.source| && 1 <= s.line <= 1 + Newlines(s.source))
  }

  /** One step of the scanner: it moves forward, keeps the source, and only appends admissible tokens. */
  predicate Advances(s: Scanner, r: Scanner) {
    && r.source == s.source && r.filename == s.filename
    && s.cursor < r.cursor <= |s.source|
    && s.line <= r.line
    && s.tokens <= r.tokens
    && (forall i :: |s.tokens| <= i < |r.tokens| ==> Admissible(r.tokens[i]) && s.line <= r.tokens[i].line <= r.line)
    && (forall i, j :: |s.tokens| <= i < j < |r.tokens| ==> r.tokens[i].line <= r.tokens[j].line)
    && (Exact(s) ==> Tracks(r))
  }

  /** What holds of the token list of every scanner reached from the start. */
  predicate Good(s: Scanner) {
    && 1 <= s.line
    && (forall i :: 0 <= i < |s.tokens| ==> Admissible(s.tokens[i]) && 1 <= s.tokens[i].line <= s.line)
    && (forall i, j :: 0 <= i < j < |s.tokens| ==> s.tokens[i].line <= s.tokens[j].line)
  }

  lemma AdvancesKeepsGood(s: Scanner, r: Scanner)
    requires Advances(s, r)
    ensures Good(s) ==> Good(r)
  {
    if Good(s) {
      forall i | 0 <= i < |s.tokens| ensures r.tokens[i] == s.tokens[i] {
      }
    }
  }

  lemma {:induction false} AdvancesTrans(a: Scanner, b: Scanner, c: Scanner)
    requires Advances(a, b) && Advances(b, c)
    ensures Advances(a, c)
  {
    forall i | |a.tokens| <= i < |c.tokens|
      ensures Admissible(c.tokens[i]) && a.line <= c.tokens[i].line <= c.line
    {
      if i < |b.tokens| {
        assert c.tokens[i] == b.tokens[i];
      }
    }
    forall i, j | |a.tokens| <= i < j < |c.tokens| ensures c.tokens[i].line <= c.tokens[j].line {
      if j < |b.tokens| {
        assert c.tokens[i] == b.tokens[i] && c.tokens[j] == b.tokens[j];
      } else if i < |b.tokens| {
        assert c.tokens[i] == b.tokens[i];
      }
    }
    if Exact(a) {
      assert Exact(b) by {
        if !Exact(b) {
          assert false;
        }
      }
    }
  }

  // ---------------------------------------------------------------------
  // addToken and moveCursor
  // ---------------------------------------------------------------------

  /** `addToken($type, $value)`: a token on the current line, unless it is a TEXT token with an empty value. */
  function AddToken(s: Scanner, kind: TokenType, value: Scalar): (r: Scanner)
    ensures r == s.(tokens := r.tokens)
    ensures kind == TEXT && LooseEquals(value, Str("")) ==> r.tokens == s.tokens
    ensures !(kind == TEXT && LooseEquals(value, Str(""))) ==> r.tokens == s.tokens + [Token(kind, value, s.line)]
  {
    if kind == TEXT && LooseEquals(value, Str("")) then s
    else s.(tokens := s.tokens + [Token(kind, value, s.line)])
  }

  /**
    `moveCursor($text)` where `$text` is always the source text that starts
    at the cursor: the cursor moves to `pos` and the line grows by the
    newlines in between.
   */
  function MoveTo(s: Scanner, pos: nat): (r: Scanner)
    requires s.cursor <= pos <= |s.source|
    ensures r == s.(cursor := pos, line := r.line)
    ensures r.line == s.line + Newlines(s.source[s.cursor..pos])
    ensures Exact(s) ==> Exact(r)
  {
    var r := s.(cursor := pos, line := s.line + Newlines(s.source[s.cursor..pos]));
    NewlinesSplit(s.source, s.cursor, pos);
    r
  }

  /** Moving over text that holds no newline leaves the line as it is. */
  lemma MoveOverNoNewline(s: Scanner, pos: nat)
    requires s.cursor <= pos <= |s.source|
    requires forall k :: s.cursor <= k < pos ==> s.source[k] != '\n'
    ensures MoveTo(s, pos).line == s.line
  {
    NoNewlines(s.source[s.cursor..pos]);
  }

  lemma {:induction false} NoNewlines(t: string)
    requires forall k :: 0 <= k < |t| ==> t[k] != '\n'
    ensures Newlines(t) == 0
    decreases |t|
  {
    if |t| > 0 {
      NoNewlines(t[1..]);
    }
  }

  // ---------------------------------------------------------------------
  // Data state
  // ---------------------------------------------------------------------

  /** One round of the probe loop: a tag found strictly before the best position so far replaces it. */
  function ProbeTag(source: string, cursor: nat, t: Tag, best: Option<(nat, Tag)>): Option<(nat, Tag)> {
    var bound := if best.Some? then best.value.0 else |source|;
    match IndexFrom(source, Opening(t), cursor)
    case Some(p) => if p < bound then Some((p, t)) else best
    case None => best
  }

  /** The probe of `processData`: comment, then variable, then block, each replacing on a strictly smaller position. */
  function Probe(source: string, cursor: nat): Option<(nat, Tag)> {
    ProbeTag(source, cursor, BlockTag, ProbeTag(source, cursor, VarTag, ProbeTag(source, cursor, CommentTag, None)))
  }

  /** The tag a `{` at `p` opens, judged by the character after it. */
  function TagAt(source: string, p: nat): Tag {
    if p + 1 < |source| && source[p + 1] == '*' then CommentTag
    else if p + 1 < |source| && source[p + 1] == '$' then VarTag
    else BlockTag
  }

  /** The probe finds the first `{` at or after the cursor and classifies it by its next character. */
  lemma {:induction false} ProbeIsFirstBrace(source: string, cursor: nat)
    ensures IndexFrom(source, "{", cursor).None? ==> Probe(source, cursor).None?
    ensures IndexFrom(source, "{", cursor).Some? ==>
              var p := IndexFrom(source, "{", cursor).value;
              Probe(source, cursor) == Some((p, TagAt(source, p)))
  {
    TagStartsWithBrace(source, "{*");
    TagStartsWithBrace(source, "{$");
    var brace := IndexFrom(source, "{", cursor);
    if brace.None? {
      ProbeFindsNothing(source, cursor);
    } else {
      var p := brace.value;
      if p + 1 < |source| && source[p + 1] == '*' {
        ProbeFindsComment(source, cursor, p);
      } else if p + 1 < |source| && source[p + 1] == '$' {
        ProbeFindsVariable(source, cursor, p);
      } else {
        ProbeFindsBlock(source, cursor, p);
      }
    }
  }

  /** Without a `{` after the cursor none of the three tags is found. */
  lemma ProbeFindsNothing(source: string, cursor: nat)
    requires IndexFrom(source, "{", cursor).None?
    requires forall j :: At(source, "{*", j) ==> At(source, "{", j)
    requires forall j :: At(source, "{$", j) ==> At(source, "{", j)
    ensures Probe(source, cursor).None?
  {
  }

  /** The first `{` opens a comment: the comment probe finds it and nothing earlier replaces it. */
  lemma ProbeFindsComment(source: string, cursor: nat, p: nat)
    requires IndexFrom(source, "{", cursor) == Some(p) && p + 1 < |source| && source[p + 1] == '*'
    requires forall j :: At(source, "{*", j) ==> At(source, "{", j)
    requires forall j :: At(source, "{$", j) ==> At(source, "{", j)
    ensures Probe(source, cursor) == Some((p, CommentTag))
  {
    assert source[p..p + 2] == "{*" by { assert source[p..p + 1][0] == source[p]; }
    IndexFromFinds(source, "{*", cursor, p);
  }

  /** The first `{` opens a variable: only the variable probe finds it. */
  lemma ProbeFindsVariable(source: string, cursor: nat, p: nat)
    requires IndexFrom(source, "{", cursor) == Some(p) && p + 1 < |source| && source[p + 1] == '$'
    requires forall j :: At(source, "{*", j) ==> At(source, "{", j)
    requires forall j :: At(source, "{$", j) ==> At(source, "{", j)
    ensures Probe(source, cursor) == Some((p, VarTag))
  {
    assert source[p..p + 2] == "{$" by { assert source[p..p + 1][0] == source[p]; }
    IndexFromFinds(source, "{$", cursor, p);
    assert !At(source, "{*", p) by { assert source[p..p + 2][1] == '$'; }
  }

  /** The first `{` is followed by neither `*` nor `$`: only the block probe finds it. */
  lemma ProbeFindsBlock(source: string, cursor: nat, p: nat)
    requires IndexFrom(source, "{", cursor) == Some(p)
    requires !(p + 1 < |source| && source[p + 1] == '*') && !(p + 1 < |source| && source[p + 1] == '$')
    requires forall j :: At(source, "{*", j) ==> At(source, "{", j)
    requires forall j :: At(source, "{$", j) ==> At(source, "{", j)
    ensures Probe(source, cursor) == Some((p, BlockTag))
  {
    assert !At(source, "{*", p) by {
      if p + 2 <= |source| { assert source[p..p + 2][1] == source[p + 1]; }
    }
    assert !At(source, "{$", p) by {
      if p + 2 <= |source| { assert source[p..p + 2][1] == source[p + 1]; }
    }
    FoundAfter(source, cursor, p, "{*");
    FoundAfter(source, cursor, p, "{$");
    var comment := ProbeTag(source, cursor, CommentTag, None);
    assert comment.None? || comment.value.0 > p;
    var variable := ProbeTag(source, cursor, VarTag, comment);
    assert variable.None? || variable.value.0 > p;
  }

  /** A pattern that only matches where a `{` is, but not at the first `{`, is found after it if at all. */
  lemma FoundAfter(source: string, cursor: nat, p: nat, pat: string)
    requires IndexFrom(source, "{", cursor) == Some(p)
    requires forall j :: At(source, pat, j) ==> At(source, "{", j)
    requires !At(source, pat, p)
    ensures IndexFrom(source, pat, cursor).None? || IndexFrom(source, pat, cursor).value > p
  {
  }

  /** Every occurrence of a tag that starts with a brace is an occurrence of the brace. */
  lemma TagStartsWithBrace(source: string, tag: string)
    requires |tag| == 2 && tag[0] == '{'
    ensures forall j :: At(source, tag, j) ==> At(source, "{", j)
  {
    forall j | At(source, tag, j) ensures At(source, "{", j) {
      assert source[j..j + 1] == source[j..j + 2][..1];
    }
  }

  /** Adding an admissible token and moving past the text it came from is one advancing step. */
  lemma {:induction false} AddMoveAdvances(s: Scanner, kind: TokenType, value: Scalar, pos: nat)
    requires s.cursor < pos <= |s.source|
    requires Admissible(Token(kind, value, s.line))
    ensures var r := MoveTo(AddToken(s, kind, value), pos);
      Advances(s, r) && r.tokens == s.tokens + [Token(kind, value, s.line)]
  {
    var s1 := AddToken(s, kind, value);
    assert s1.tokens == s.tokens + [Token(kind, value, s.line)] by {
      if kind == TEXT {
        assert value.Str? && value.s != "";
        assert IntegerView(Str("")) == None;
      }
    }
    var r := MoveTo(s1, pos);
    assert Exact(s) ==> Exact(r) by {
      if Exact(s) {
        assert Exact(s1);
      }
    }
  }

  /** A TEXT token for a possibly empty slice of the source: added only when the slice is not empty. */
  lemma {:induction false} AddTextAdvances(s: Scanner, text: string, pos: nat)
    requires s.cursor < pos <= |s.source|
    ensures var r := MoveTo(AddToken(s, TEXT, Str(text)), pos);
      && Advances(s, r)
      && (text == "" ==> r.tokens == s.tokens)
      && (text != "" ==> r.tokens == s.tokens + [Token(TEXT, Str(text), s.line)])
  {
    if text != "" {
      AddMoveAdvances(s, TEXT, Str(text), pos);
    } else {
      var r := MoveTo(AddToken(s, TEXT, Str(text)), pos);
      assert AddToken(s, TEXT, Str(text)) == s;
      assert Exact(s) ==> Exact(r);
    }
  }

  /**
    `processData()`: without a tag, the rest of the source becomes a TEXT
    token and the cursor jumps to the end; otherwise the text before the tag
    becomes a TEXT token, the cursor passes the tag, and the tag's handler
    runs.
   */
  function ProcessData(s: Scanner): (r: Result<Scanner>)
    requires s.cursor < |s.source|
    ensures r.Ok? ==> Advances(s, r.value)
    ensures Probe(s.source, s.cursor).None? ==>
              r == Ok(s.(cursor := |s.source|, tokens := s.tokens + [Token(TEXT, Str(s.source[s.cursor..]), s.line)]))
    ensures r.Err? ==> Probe(s.source, s.cursor).Some? && Probe(s.source, s.cursor).value.1 == CommentTag
  {
    match Probe(s.source, s.cursor)
    case None =>
      var r := AddToken(s, TEXT, Str(s.source[s.cursor..])).(cursor := |s.source|);
      TrailingTextAdvances(s, r);
      Ok(r)
    case Some((p, tag)) =>
      ProbeBounds(s.source, s.cursor);
      ProcessTag(s, p, tag)
  }

  lemma TrailingTextAdvances(s: Scanner, r: Scanner)
    requires s.cursor < |s.source|
    requires r == AddToken(s, TEXT, Str(s.source[s.cursor..])).(cursor := |s.source|)
    ensures Advances(s, r)
    ensures r.tokens == s.tokens + [Token(TEXT, Str(s.source[s.cursor..]), s.line)]
  {
    assert s.source[s.cursor..] != "" by { assert |s.source[s.cursor..]| > 0; }
    assert IntegerView(Str("")) == None;
    if Exact(s) {
      NewlinesBounded(s.source, s.cursor);
    }
  }

  lemma ProbeBounds(source: string, cursor: nat)
    ensures Probe(source, cursor).Some? ==>
              var (p, tag) := Probe(source, cursor).value;
              cursor <= p && p + |Opening(tag)| <= |source| && At(source, Opening(tag), p)
  {
  }

  /** The data state after a tag was found at `p`: text before it, then the tag's own handling. */
  function ProcessTag(s: Scanner, p: nat, tag: Tag): (r: Result<Scanner>)
    requires s.cursor <= p && p + |Opening(tag)| <= |s.source|
    ensures r.Ok? ==> Advances(s, r.value)
    ensures r.Err? ==> tag == CommentTag
    ensures tag == VarTag ==> r.Ok? && r.value.state == Var
    ensures tag == BlockTag ==> r.Ok? && r.value.state == Block
  {
    var moved := MoveTo(AddToken(s, TEXT, Str(s.source[s.cursor..p])), p + |Opening(tag)|);
    AddTextAdvances(s, s.source[s.cursor..p], p + |Opening(tag)|);
    match tag
    case CommentTag =>
      var r :- ProcessComment(moved);
      AdvancesTrans(s, moved, r);
      Ok(r)
    case VarTag =>
      var r := AddToken(moved, VAR_START, Null).(state := Var);
      OpenTagAdvances(s, moved, r, VAR_START);
      Ok(r)
    case BlockTag =>
      var r := AddToken(moved, BLOCK_START, Null).(state := Block);
      OpenTagAdvances(s, moved, r, BLOCK_START);
      Ok(r)
  }

  lemma OpenTagAdvances(s: Scanner, moved: Scanner, r: Scanner, kind: TokenType)
    requires Advances(s, moved) && kind != EOF && kind != TEXT
    requires r == AddToken(moved, kind, Null).(state := r.state)
    ensures Advances(s, r)
  {
    assert r.tokens == moved.tokens + [Token(kind, Null, moved.line)];
    assert Exact(moved) ==> Exact(r);
    forall i, j | |s.tokens| <= i < j < |r.tokens| ensures r.tokens[i].line <= r.tokens[j].line {
      if j < |moved.tokens| {
        assert r.tokens[i] == moved.tokens[i] && r.tokens[j] == moved.tokens[j];
      } else {
        assert r.tokens[i] == moved.tokens[i];
      }
    }
    forall i | |s.tokens| <= i < |r.tokens|
      ensures Admissible(r.tokens[i]) && s.line <= r.tokens[i].line <= r.line
    {
      if i < |moved.tokens| {
        assert r.tokens[i] == moved.tokens[i];
      }
    }
  }

  /**
    `processComment()`: the cursor moves past the first `*}` at or after it
    and the whitespace that follows; with no `*}` left the comment is
    unclosed.
   */
  function ProcessComment(s: Scanner): (r: Result<Scanner>)
    requires s.cursor <= |s.source|
    ensures r.Ok? ==> Advances(s, r.value) && r.value.tokens == s.tokens && r.value.state == s.state
    ensures r.Ok? ==> var q := IndexFrom(s.source, "*}", s.cursor);
      q.Some? && r.value.cursor == q.value + 2 + SpaceRun(s.source, q.value + 2)
    ensures r.Err? <==> IndexFrom(s.source, "*}", s.cursor).None?
    ensures r.Err? ==> r.error == Raise("Unclosed comment", s.line, s.filename)
  {
    match IndexFrom(s.source, "*}", s.cursor)
    case None => Err(Raise("Unclosed comment", s.line, s.filename))
    case Some(q) => Ok(MoveTo(s, q + 2 + SpaceRun(s.source, q + 2)))
  }

  // ---------------------------------------------------------------------
  // Block and variable states
  // ---------------------------------------------------------------------

  /** `processBlock()`: `\s*\}\s*` at the cursor closes the block, anything else is an expression. */
  function ProcessBlock(s: Scanner): (r: Result<Scanner>)
    requires s.cursor < |s.source|
    ensures r.Ok? ==> Advances(s, r.value)
  {
    var n := SpaceRun(s.source, s.cursor);
    if s.cursor + n < |s.source| && s.source[s.cursor + n] == '}' then Ok(CloseBlock(s, s.cursor + n))
    else ProcessExpression(s)
  }

  /** The `}` at `at` and the whitespace after it close the block with one BLOCK_END token. */
  function CloseBlock(s: Scanner, at: nat): (r: Scanner)
    requires s.cursor <= at < |s.source| && s.source[at] == '}'
    ensures Advances(s, r) && r.state == Data
    ensures r.tokens == s.tokens + [Token(BLOCK_END, Null, s.line)]
    ensures r.cursor == at + 1 + SpaceRun(s.source, at + 1)
  {
    var e := Emit(s, BLOCK_END, Null, at + 1 + SpaceRun(s.source, at + 1));
    assert e.cursor == at + 1 + SpaceRun(s.source, at + 1);
    e.(state := Data)
  }

  /** `processVariable()`: a `}` exactly at the cursor closes the variable, anything else is an expression. */
  function ProcessVariable(s: Scanner): (r: Result<Scanner>)
    requires s.cursor < |s.source|
    ensures r.Ok? ==> Advances(s, r.value)
    ensures s.source[s.cursor] == '}' ==>
      r == Ok(s.(cursor := s.cursor + 1, state := Data, tokens := s.tokens + [Token(VAR_END, Null, s.line)]))
  {
    if s.source[s.cursor] == '}' then
      MoveOverNoNewline(AddToken(s, VAR_END, Null), s.cursor + 1);
      Ok(Emit(s, VAR_END, Null, s.cursor + 1).(state := Data))
    else ProcessExpression(s)
  }

  /** The error of whitespace that runs into the end of the source inside a block or variable. */
  function UnexpectedEnd(s: Scanner): Error {
    Raise("Unexpected end of file: Unclosed \"" + (if s.state == Block then "block" else "variable") + "\"",
          s.line, s.filename)
  }

  /** `processExpression()`: skip whitespace, then scan one expression token. */
  function ProcessExpression(s: Scanner): (r: Result<Scanner>)
    requires s.cursor < |s.source|
    ensures r.Ok? ==> Advances(s, r.value)
    ensures s.cursor + SpaceRun(s.source, s.cursor) == |s.source| ==>
              r == Err(UnexpectedEnd(MoveTo(s, |s.source|)))
  {
    var n := SpaceRun(s.source, s.cursor);
    if s.cursor + n == |s.source| then Err(UnexpectedEnd(MoveTo(s, |s.source|)))
    else
      var m := MoveTo(s, s.cursor + n);
      assert m.cursor < |m.source|;
      var r := ScanToken(m);
      if r.Ok? then AdvancesFromMove(s, m, r.value); r else r
  }

  /** A whitespace move followed by an advancing step is one advancing step. */
  lemma AdvancesFromMove(s: Scanner, m: Scanner, r: Scanner)
    requires m == s.(cursor := m.cursor, line := m.line) && s.cursor <= m.cursor && s.line <= m.line
    requires Exact(s) ==> Exact(m)
    requires Advances(m, r)
    ensures Advances(s, r)
  {
  }

  /**
    One expression token at the cursor, tried in the order of the source:
    operator, name, number, punctuation, string; anything else cannot be
    lexed (a SyntaxError without line or filename).
   */
  function ScanToken(s: Scanner): (r: Result<Scanner>)
    requires s.cursor < |s.source|
    ensures r.Ok? ==> Advances(s, r.value) && r.value.state == s.state
  {
    var src := s.source;
    var c := s.cursor;
    var op := OperatorLength(src, c);
    var name := NameLength(src, c);
    var num := NumberLength(src, c);
    var str := StringLength(src, c);
    if op > 0 then Ok(Emit(s, OPERATOR, Str(src[c..c + op]), c + op))
    else if name > 0 then Ok(Emit(s, NAME, Str(src[c..c + name]), c + name))
    else if num > 0 then Ok(Emit(s, NUMBER, NumberValue(src[c..c + num]), c + num))
    else if src[c] in Punctuation then ScanPunctuation(s)
    else if str > 0 then Ok(Emit(s, STRING, Str(StripCSlashes(src[c + 1..c + str - 1])), c + str))
    else Err(SyntaxError("The source can not be lexed."))
  }

  /** One expression token added on the current line, the cursor moved past its text: an advancing step. */
  function Emit(s: Scanner, kind: TokenType, value: Scalar, pos: nat): (r: Scanner)
    requires s.cursor < pos <= |s.source|
    requires Admissible(Token(kind, value, s.line))
    ensures Advances(s, r) && r.state == s.state
    ensures r.tokens == s.tokens + [Token(kind, value, s.line)]
  {
    AddMoveAdvances(s, kind, value, pos);
    MoveTo(AddToken(s, kind, value), pos)
  }

  /** Over text without a newline, emitting keeps the line: only the cursor and the token list change. */
  lemma EmitOnLine(s: Scanner, kind: TokenType, value: Scalar, pos: nat)
    requires s.cursor < pos <= |s.source|
    requires Admissible(Token(kind, value, s.line))
    requires forall k :: s.cursor <= k < pos ==> s.source[k] != '\n'
    ensures Emit(s, kind, value, pos) == s.(cursor := pos, tokens := s.tokens + [Token(kind, value, s.line)])
  {
    MoveOverNoNewline(AddToken(s, kind, value), pos);
  }

  /**
    The expression scanner adds exactly one token, on the current line, of
    the kind the first matching matcher decides; when none matches it fails
    with the unlexable-source error.
   */
  lemma ScanTokenKind(s: Scanner)
    requires s.cursor < |s.source|
    ensures var r := ScanToken(s);
      && (r.Ok? ==> |r.value.tokens| == |s.tokens| + 1 && r.value.tokens[|s.tokens|].line == s.line)
      && (r.Ok? ==> r.value.tokens[|s.tokens|].kind == ExpressionKind(s.source, s.cursor))
      && (ExpressionKind(s.source, s.cursor) == EOF ==> r == Err(SyntaxError("The source can not be lexed.")))
  {
  }

  /**
    The kind of token the expression scanner produces at `c`, decided by the
    first matcher that matches; EOF stands for "cannot be lexed".
   */
  function ExpressionKind(src: string, c: nat): TokenType
    requires c < |src|
  {
    if OperatorLength(src, c) > 0 then OPERATOR
    else if NameLength(src, c) > 0 then NAME
    else if NumberLength(src, c) > 0 then NUMBER
    else if src[c] in Punctuation then PUNCTUATION
    else if StringLength(src, c) > 0 then STRING
    else EOF
  }

  /**
    The bracket stack after a punctuation character: an opener is pushed
    with the current line; a closer needs a non-empty stack whose top it
    closes.
   */
  function Brackets(s: Scanner, ch: char): (r: Result<seq<Bracket>>)
    ensures ch in "([{" ==> r == Ok(s.brackets + [Bracket(ch, s.line)])
    ensures ch in ")]}" && |s.brackets| == 0 ==> r == Err(Raise("Unexpected \"" + [ch] + "\"", s.line, s.filename))
    ensures ch in ")]}" && |s.brackets| > 0 ==>
        var top := s.brackets[|s.brackets| - 1];
        && (ch == CloserOf(top.open) ==> r == Ok(s.brackets[..|s.brackets| - 1]))
        && (ch != CloserOf(top.open) ==> r == Err(Raise("Unclosed \"" + [top.open] + "\"", s.line, s.filename)))
    ensures ch !in "([{" && ch !in ")]}" ==> r == Ok(s.brackets)
  {
    if ch in "([{" then Ok(s.brackets + [Bracket(ch, s.line)])
    else if ch in ")]}" then
      if |s.brackets| == 0 then Err(Raise("Unexpected \"" + [ch] + "\"", s.line, s.filename))
      else
        var top := s.brackets[|s.brackets| - 1];
        if ch != CloserOf(top.open) then Err(Raise("Unclosed \"" + [top.open] + "\"", s.line, s.filename))
        else Ok(s.brackets[..|s.brackets| - 1])
    else Ok(s.brackets)
  }

  /** A punctuation token: the bracket stack is updated, the token added and the cursor moves one character. */
  function ScanPunctuation(s: Scanner): (r: Result<Scanner>)
    requires s.cursor < |s.source| && s.source[s.cursor] in Punctuation
    ensures r.Ok? ==> Advances(s, r.value) && r.value.state == s.state
    ensures r.Ok? <==> Brackets(s, s.source[s.cursor]).Ok?
    ensures r.Ok? ==> && r.value.tokens == s.tokens + [Token(PUNCTUATION, Str([s.source[s.cursor]]), s.line)]
                      && r.value.cursor == s.cursor + 1 && r.value.line == s.line
                      && r.value.brackets == Brackets(s, s.source[s.cursor]).value
    ensures r.Err? ==> r.error == Brackets(s, s.source[s.cursor]).error
  {
    var ch := s.source[s.cursor];
    var stack :- Brackets(s, ch);
    var pushed := s.(brackets := stack);
    AddMoveAdvances(pushed, PUNCTUATION, Str([ch]), s.cursor + 1);
    MoveOverNoNewline(AddToken(pushed, PUNCTUATION, Str([ch])), s.cursor + 1);
    Ok(MoveTo(AddToken(pushed, PUNCTUATION, Str([ch])), s.cursor + 1))
  }

  // ---------------------------------------------------------------------
  // The main loop
  // ---------------------------------------------------------------------

  /** One iteration of the `tokenize` loop: dispatch on the state. */
  function Step(s: Scanner): (r: Result<Scanner>)
    requires s.cursor < |s.source|
    ensures r.Ok? ==> Advances(s, r.value)
  {
    match s.state
    case Data => ProcessData(s)
    case Block => ProcessBlock(s)
    case Var => ProcessVariable(s)
  }

  /** `while($this->cursor < $this->end)`. */
  function Run(s: Scanner): (r: Result<Scanner>)
    requires s.cursor <= |s.source|
    ensures r.Ok? ==> r.value.cursor == |s.source| && r.value.source == s.source
    decreases |s.source| - s.cursor
  {
    if s.cursor >= |s.source| then Ok(s)
    else
      var s1 :- Step(s);
      Run(s1)
  }

  /** The loop keeps the token-list invariant and the line tracking, and only ever appends tokens. */
  lemma {:induction false} RunKeeps(s: Scanner)
    requires s.cursor <= |s.source|
    ensures Run(s).Ok? ==> var r := Run(s).value;
      && (Good(s) ==> Good(r))
      && (Tracks(s) ==> Tracks(r))
      && s.tokens <= r.tokens && s.line <= r.line
    decreases |s.source| - s.cursor
  {
    if s.cursor < |s.source| {
      var step := Step(s);
      if step.Ok? {
        AdvancesKeepsGood(s, step.value);
        RunKeeps(step.value);
        assert Run(s) == Run(step.value);
      }
    }
  }

  /** The scanner `tokenize` starts from. */
  function Start(source: string, filename: Option<string>): (s: Scanner)
    ensures Good(s) && Exact(s)
  {
    var s := Scanner(Normalize(source), 0, 1, Data, [], [], filename);
    assert s.source[..0] == "";
    s
  }

  /** `tokenize($source, $filename)`: normalise line endings, run the loop, append EOF. */
  function Tokenize(source: string, filename: Option<string>): (r: Result<seq<Token>>)
    ensures r.Ok? ==> Wellformed(r.value, 1 + Newlines(Normalize(source)))
  {
    var s :- Run(Start(source, filename));
    RunKeeps(Start(source, filename));
    Finish(s);
    Ok(s.tokens + [Token(EOF, Null, s.line)])
  }

  /**
    The shape of every token list `tokenize` returns: exactly one EOF, at the
    end; TEXT tokens carry non-empty strings; lines start at 1, never exceed
    the source's line count and never decrease.
   */
  predicate Wellformed(tokens: seq<Token>, lines: int) {
    && |tokens| > 0 && tokens[|tokens| - 1].kind == EOF
    && (forall i :: 0 <= i < |tokens| - 1 ==> tokens[i].kind != EOF)
    && (forall i :: 0 <= i < |tokens| && tokens[i].kind == TEXT ==> tokens[i].value.Str? && tokens[i].value.s != "")
    && (forall i :: 0 <= i < |tokens| ==> 1 <= tokens[i].line <= lines)
    && (forall i, j :: 0 <= i < j < |tokens| ==> tokens[i].line <= tokens[j].line)
  }

  lemma Finish(s: Scanner)
    requires Good(s) && Tracks(s) && s.cursor == |s.source|
    ensures Wellformed(s.tokens + [Token(EOF, Null, s.line)], 1 + Newlines(s.source))
  {
    assert s.source[..s.cursor] == s.source;
    var tokens := s.tokens + [Token(EOF, Null, s.line)];
    assert forall i :: 0 <= i < |s.tokens| ==> tokens[i] == s.tokens[i];
  }
}
