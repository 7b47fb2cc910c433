/**
  Properties of single steps of `tokenize` (opening tags, names, the
  bracket checks of the expression scanner) and of whole sources without
  tags.
 */
module LexerProperties {
  import opened Errors
  import opened Strings
  import opened Tokens
  import opened SyntaxErrors
  import opened LexerPatterns
  import opened Lexer

  // ---------------------------------------------------------------------
  // Single steps
  // ---------------------------------------------------------------------

  /** A `{` at the cursor is the tag the probe reports. */
  lemma ProbeAtBrace(src: string, c: nat)
    requires c < |src| && src[c] == '{'
    ensures Probe(src, c) == Some((c, TagAt(src, c)))
  {
    assert At(src, "{", c) by { assert src[c..c + 1] == "{"; }
    IndexFromFinds(src, "{", c, c);
    ProbeIsFirstBrace(src, c);
  }

  /** A variable or block tag right at the cursor: its start token, and the scanner moves past the tag. */
  lemma {:induction false} OpenAtCursor(s: Scanner)
    requires s.state == Data && s.cursor + 1 < |s.source| && s.source[s.cursor] == '{'
    requires s.source[s.cursor + 1] != '*'
    ensures var vr := s.source[s.cursor + 1] == '$';
      Step(s) == Ok(s.(cursor := s.cursor + (if vr then 2 else 1),
                       state := if vr then Var else Block,
                       tokens := s.tokens + [Token(if vr then VAR_START else BLOCK_START, Null, s.line)]))
  {
    var c := s.cursor;
    var tag := TagAt(s.source, c);
    var vr := s.source[c + 1] == '$';
    assert tag == (if vr then VarTag else BlockTag);
    assert |Opening(tag)| == (if vr then 2 else 1);
    ProbeAtBrace(s.source, c);
    ProbeBounds(s.source, c);
    DataStepAtTag(s, c, tag);
    TagAtCursor(s, tag);
  }

  /** In the data state, a step is the handling of the tag the probe finds. */
  lemma DataStepAtTag(s: Scanner, p: nat, tag: Tag)
    requires s.state == Data && s.cursor < |s.source|
    requires Probe(s.source, s.cursor) == Some((p, tag))
    requires s.cursor <= p && p + |Opening(tag)| <= |s.source| && At(s.source, Opening(tag), p)
    ensures Step(s) == ProcessTag(s, p, tag)
  {
    assert Step(s) == ProcessData(s);
  }

  /** A variable or block tag found right at the cursor: no TEXT token, the start token, the cursor past the tag. */
  lemma TagAtCursor(s: Scanner, tag: Tag)
    requires tag != CommentTag
    requires s.cursor + |Opening(tag)| <= |s.source| && At(s.source, Opening(tag), s.cursor)
    ensures ProcessTag(s, s.cursor, tag)
         == Ok(s.(cursor := s.cursor + |Opening(tag)|,
                  state := if tag == VarTag then Var else Block,
                  tokens := s.tokens + [Token(if tag == VarTag then VAR_START else BLOCK_START, Null, s.line)]))
  {
    var c := s.cursor;
    var len := |Opening(tag)|;
    assert s.source[c..c] == "";
    assert AddToken(s, TEXT, Str("")) == s;
    forall k | c <= k < c + len ensures s.source[k] != '\n' {
      assert s.source[k] == Opening(tag)[k - c];
    }
    MoveOverNoNewline(s, c + len);
  }

  /** The characters `( ) [ ] {` start no operator. */
  lemma NoOperatorAtBracket(src: string, c: nat)
    requires c < |src| && src[c] in "()[]{"
    ensures OperatorLength(src, c) == 0
  {
    var n := OperatorLength(src, c);
    if n > 0 {
      assert src[c..c + n][0] == src[c];
    }
  }

  /** After leading whitespace, the expression scanner reads one token at the cursor. */
  lemma ExpressionScan(s: Scanner)
    requires s.cursor < |s.source| && !IsSpace(s.source[s.cursor])
    ensures ProcessExpression(s) == ScanToken(s)
  {
    assert SpaceRun(s.source, s.cursor) == 0;
    MoveToHere(s);
  }

  /** Moving to where the scanner already is changes nothing. */
  lemma MoveToHere(s: Scanner)
    requires s.cursor <= |s.source|
    ensures MoveTo(s, s.cursor) == s
  {
    assert s.source[s.cursor..s.cursor] == "";
  }

  /** Inside a block or variable, a non-space character other than `}` at the cursor starts an expression token. */
  lemma ExpressionStep(s: Scanner)
    requires s.state != Data && s.cursor < |s.source|
    requires !IsSpace(s.source[s.cursor]) && s.source[s.cursor] != '}'
    ensures Step(s) == ScanToken(s)
  {
    ExpressionScan(s);
    if s.state == Block {
      assert SpaceRun(s.source, s.cursor) == 0;
      assert ProcessBlock(s) == ProcessExpression(s);
    } else {
      assert ProcessVariable(s) == ProcessExpression(s);
    }
  }

  /** Inside a block or variable, a bracket other than `}` at the cursor goes straight to the bracket check. */
  lemma BracketStep(s: Scanner)
    requires s.state != Data && s.cursor < |s.source| && s.source[s.cursor] in "()[]{"
    ensures Step(s) == ScanPunctuation(s)
  {
    ExpressionStep(s);
    NoOperatorAtBracket(s.source, s.cursor);
    assert NameLength(s.source, s.cursor) == 0 && NumberLength(s.source, s.cursor) == 0;
  }

  /** The maximal run of name characters is determined by where the run stops. */
  lemma NameCharRunIs(src: string, i: nat, e: nat)
    requires i <= e <= |src|
    requires forall k :: i <= k < e ==> IsNameChar(src[k])
    requires e == |src| || !IsNameChar(src[e])
    ensures NameCharRun(src, i) == e - i
  {
  }

  /** A name start followed by name characters up to a `}`: no operator, not even `and` or `or`, matches there. */
  lemma {:induction false} NoOperatorAtName(src: string, c: nat, e: nat)
    requires c < e < |src| && src[e] == '}' && IsNameStart(src[c])
    requires forall k :: c <= k < e ==> IsNameChar(src[k])
    ensures OperatorLength(src, c) == 0
  {
    forall k | c <= k <= e ensures !WordBoundary(src, k) {
      if k < e { assert IsNameChar(src[k]); }
    }
    assert c + 2 <= |src| ==> src[c..c + 2][0] == src[c] && src[c..c + 2][1] == src[c + 1];
    assert c + 3 <= |src| ==> src[c..c + 3][1] == src[c + 1] && src[c..c + 3][2] == src[c + 2];
  }

  /** A plain name (no `$`) followed by `}` is one NAME token: no operator matches first. */
  lemma {:induction false} NameAt(src: string, c: nat, n: string)
    requires IsName(n) && n[0] != '$'
    requires c + |n| < |src| && src[c..c + |n|] == n && src[c + |n|] == '}'
    ensures OperatorLength(src, c) == 0
    ensures NameLength(src, c) == |n|
  {
    NameCharsAt(src, c, n);
    NoOperatorAtName(src, c, c + |n|);
    NameCharRunIs(src, c + 1, c + |n|);
  }

  /** The characters of a plain name copied into a source, read at their positions there. */
  lemma NameCharsAt(src: string, c: nat, n: string)
    requires IsName(n) && n[0] != '$'
    requires c + |n| <= |src| && src[c..c + |n|] == n
    ensures IsNameStart(src[c]) && forall k :: c <= k < c + |n| ==> IsNameChar(src[k])
  {
    forall k | c <= k < c + |n| ensures IsNameChar(src[k]) {
      assert src[k] == n[k - c];
    }
    assert src[c] == n[0];
  }

  /** A name at the cursor, when no operator matches first, is one NAME token. */
  lemma NameScan(s: Scanner, n: string)
    requires 0 < |n| && s.cursor + |n| <= |s.source| && s.source[s.cursor..s.cursor + |n|] == n
    requires OperatorLength(s.source, s.cursor) == 0 && NameLength(s.source, s.cursor) == |n|
    ensures ScanToken(s) == Ok(Emit(s, NAME, Str(n), s.cursor + |n|))
  {
  }

  /** A name holds no line-break characters. */
  lemma NameChars(n: string)
    requires IsName(n)
    ensures forall k :: 0 <= k < |n| ==> n[k] != '\n' && n[k] != '\r'
  {
    var body := if n[0] == '$' then n[1..] else n;
    forall k | 0 <= k < |n| ensures n[k] != '\n' && n[k] != '\r' {
      if n[0] == '$' {
        if k > 0 {
          assert n[k] == body[k - 1];
          if k > 1 { assert IsNameChar(body[k - 1]); } else { assert IsNameStart(body[0]); }
        }
      } else {
        assert n[k] == body[k];
        if k > 0 { assert IsNameChar(body[k]); } else { assert IsNameStart(body[0]); }
      }
    }
  }

  /** A name copied into a source holds no newline there. */
  lemma NameHasNoNewline(src: string, c: nat, n: string)
    requires IsName(n) && c + |n| <= |src| && src[c..c + |n|] == n
    ensures forall k :: c <= k < c + |n| ==> src[k] != '\n' && src[k] != '\r'
  {
    NameChars(n);
    forall k | c <= k < c + |n| ensures src[k] != '\n' && src[k] != '\r' {
      assert src[k] == n[k - c];
    }
  }

  /** A plain name followed by `}`: the expression scanner reads it as one NAME token on the current line. */
  lemma {:induction false} NameToken(s: Scanner, n: string)
    requires IsName(n) && n[0] != '$'
    requires s.cursor + |n| < |s.source| && s.source[s.cursor..s.cursor + |n|] == n && s.source[s.cursor + |n|] == '}'
    ensures ScanToken(s) == Ok(s.(cursor := s.cursor + |n|, tokens := s.tokens + [Token(NAME, Str(n), s.line)]))
  {
    NameAt(s.source, s.cursor, n);
    NameScan(s, n);
    NameEmit(s, n);
  }

  /** Emitting a name keeps the line: only the cursor and the token list change. */
  lemma NameEmit(s: Scanner, n: string)
    requires IsName(n) && s.cursor + |n| <= |s.source| && s.source[s.cursor..s.cursor + |n|] == n
    ensures Emit(s, NAME, Str(n), s.cursor + |n|) == s.(cursor := s.cursor + |n|, tokens := s.tokens + [Token(NAME, Str(n), s.line)])
  {
    NameHasNoNewline(s.source, s.cursor, n);
    EmitOnLine(s, NAME, Str(n), s.cursor + |n|);
  }

  /** The same inside a variable tag, as one step of the loop. */
  lemma {:induction false} NameStep(s: Scanner, n: string)
    requires s.state == Var && IsName(n) && n[0] != '$'
    requires s.cursor + |n| < |s.source| && s.source[s.cursor..s.cursor + |n|] == n && s.source[s.cursor + |n|] == '}'
    ensures Step(s) == Ok(s.(cursor := s.cursor + |n|, tokens := s.tokens + [Token(NAME, Str(n), s.line)]))
  {
    assert s.source[s.cursor] == n[0];
    ExpressionStep(s);
    NameToken(s, n);
  }

  /** `tokenize`'s loop, one step at a time. */
  lemma RunStep(s: Scanner, s1: Scanner)
    requires s.cursor < |s.source| && Step(s) == Ok(s1)
    ensures Run(s) == Run(s1)
  {
  }

  lemma RunDone(s: Scanner)
    requires s.cursor == |s.source|
    ensures Run(s) == Ok(s)
  {
  }

  // ---------------------------------------------------------------------
  // Whole templates
  // ---------------------------------------------------------------------

  lemma TokenizeOk(source: string, filename: Option<string>, s: Scanner)
    requires Run(Start(source, filename)) == Ok(s)
    ensures Tokenize(source, filename) == Ok(s.tokens + [Token(EOF, Null, s.line)])
  {
  }

  /** Without a `{`, the whole (normalised) source is one TEXT token, or nothing when it is empty, then EOF. */
  lemma {:induction false} NoTagSource(source: string, filename: Option<string>)
    requires '{' !in Normalize(source)
    ensures var norm := Normalize(source);
      Tokenize(source, filename) ==
        Ok(if norm == "" then [Token(EOF, Null, 1)] else [Token(TEXT, Str(norm), 1), Token(EOF, Null, 1)])
  {
    var norm := Normalize(source);
    var s0 := Start(source, filename);
    assert s0 == Scanner(norm, 0, 1, Data, [], [], filename);
    if norm != "" {
      ProbeIsFirstBrace(norm, 0);
      var s1 := Scanner(norm, |norm|, 1, Data, [], [Token(TEXT, Str(norm), 1)], filename);
      calc {
        Run(s0);
      == { assert norm[0..] == norm;
           assert [] + [Token(TEXT, Str(norm), 1)] == [Token(TEXT, Str(norm), 1)];
           assert ProcessData(s0) == Ok(s1);
           RunStep(s0, s1); }
        Run(s1);
      == { RunDone(s1); }
        Ok(s1);
      }
      TokenizeOk(source, filename, s1);
      assert s1.tokens + [Token(EOF, Null, 1)] == [Token(TEXT, Str(norm), 1), Token(EOF, Null, 1)];
    } else {
      RunDone(s0);
      TokenizeOk(source, filename, s0);
      assert [] + [Token(EOF, Null, 1)] == [Token(EOF, Null, 1)];
    }
  }

  /** Inside a block or variable, a closing `)` or `]` with no bracket open is reported with the current line. */
  lemma UnmatchedCloser(s: Scanner)
    requires s.state != Data && s.cursor < |s.source| && s.source[s.cursor] in ")]" && s.brackets == []
    ensures Step(s) == Err(Raise("Unexpected \"" + [s.source[s.cursor]] + "\"", s.line, s.filename))
  {
    BracketStep(s);
  }

  /** A matching closer pops the innermost bracket and becomes a PUNCTUATION token. */
  lemma MatchedCloser(s: Scanner)
    requires s.state != Data && s.cursor < |s.source| && s.source[s.cursor] in ")]"
    requires |s.brackets| > 0 && s.source[s.cursor] == CloserOf(s.brackets[|s.brackets| - 1].open)
    ensures Step(s).Ok?
    ensures Step(s).value.brackets == s.brackets[..|s.brackets| - 1]
    ensures Step(s).value.tokens == s.tokens + [Token(PUNCTUATION, Str([s.source[s.cursor]]), s.line)]
  {
    var ch := s.source[s.cursor];
    assert ch in ")]}" && ch !in "([{";
    assert Brackets(s, ch) == Ok(s.brackets[..|s.brackets| - 1]);
    BracketStep(s);
    var r := ScanPunctuation(s);
    assert r.Ok?;
  }
}
