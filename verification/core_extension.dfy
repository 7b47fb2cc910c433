/**
  `spoon\template\extension\Core` (in `extension/core.php`, and its copy in
  `template/extension/core.php`, which has the same two regular
  expressions): the older pre-processing pass that strips template
  comments and then PHP code from a template's source.

  `stripComments` repeats one `preg_replace` until it replaces nothing.  Its
  pattern needs a `{*` with no `{*` anywhere after it, so the only place it
  can match is the LAST `{*` of the string, and the lazy `.*?` stops at the
  first `*}` that starts after those two characters: each pass removes that
  one span, or nothing when no `*}` follows the last `{*`.

  `stripCode` makes one `preg_replace` whose greedy `(.*)` runs to the LAST
  `?>`: it removes everything from the first `<?` to the end of the last
  `?>`, provided that `?>` starts after the `<?`.  The `i` flag only
  concerns the optional `php` right after `<?`, which lies inside the span
  either way.
 */
module CoreExtensions {
  import opened Errors

  /** The two characters `a` `b` start at position `i` of `s`. */
  predicate Pair(s: string, i: int, a: char, b: char) {
    0 <= i && i + 1 < |s| && s[i] == a && s[i + 1] == b
  }

  predicate CommentOpens(s: string, i: int) { Pair(s, i, '{', '*') }
  predicate CommentCloses(s: string, i: int) { Pair(s, i, '*', '}') }
  predicate CodeOpens(s: string, i: int) { Pair(s, i, '<', '?') }
  predicate CodeCloses(s: string, i: int) { Pair(s, i, '?', '>') }

  /** The last start of the pair `a` `b` before position `n`. */
  function LastPair(s: string, a: char, b: char, n: nat): (r: Option<nat>)
    requires n <= |s|
    ensures r.Some? ==> r.value < n && Pair(s, r.value, a, b)
    ensures r.Some? ==> forall j :: r.value < j < n ==> !Pair(s, j, a, b)
    ensures r.None? ==> forall j :: 0 <= j < n ==> !Pair(s, j, a, b)
    decreases n
  {
    if n == 0 then None
    else if Pair(s, n - 1, a, b) then Some(n - 1)
    else LastPair(s, a, b, n - 1)
  }

  /** The first start of the pair `a` `b` at or after position `from`. */
  function FirstPair(s: string, a: char, b: char, from: nat): (r: Option<nat>)
    ensures r.Some? ==> from <= r.value && Pair(s, r.value, a, b)
    ensures r.Some? ==> forall j :: from <= j < r.value ==> !Pair(s, j, a, b)
    ensures r.None? ==> forall j :: from <= j ==> !Pair(s, j, a, b)
    decreases |s| - from
  {
    if from + 1 >= |s| then None
    else if Pair(s, from, a, b) then Some(from)
    else FirstPair(s, a, b, from + 1)
  }

  /**
    What one pass of the comment pattern matches, stated without search:
    `p` is the last `{*` and `q` the first `*}` starting two or more
    characters after it.
   */
  predicate CommentSpan(s: string, p: int, q: int) {
    && CommentOpens(s, p)
    && (forall j :: p < j < |s| ==> !CommentOpens(s, j))
    && p + 2 <= q
    && CommentCloses(s, q)
    && (forall j :: p + 2 <= j < q ==> !CommentCloses(s, j))
  }

  /**
    One `preg_replace` of the comment pattern: the string without the
    matched span, or `None` when the pattern does not match (the count is 0).
   */
  function CommentPass(s: string): (r: Option<string>)
    ensures forall p, q :: CommentSpan(s, p, q) ==> r == Some(s[..p] + s[q + 2..])
    ensures r.None? <==> forall p, q :: !CommentSpan(s, p, q)
    ensures r.Some? ==> |r.value| <= |s| - 4
  {
    match LastPair(s, '{', '*', |s|)
    case None => None
    case Some(p) =>
      match FirstPair(s, '*', '}', p + 2)
      case None =>
        UnclosedLast(s, p);
        None
      case Some(q) =>
        assert CommentSpan(s, p, q);
        SpanUnique(s, p, q);
        Some(s[..p] + s[q + 2..])
  }

  /** The last `{*` with no `*}` after it: no span at all. */
  lemma UnclosedLast(s: string, p: int)
    requires CommentOpens(s, p)
    requires forall j :: p < j < |s| ==> !CommentOpens(s, j)
    requires forall j :: p + 2 <= j ==> !CommentCloses(s, j)
    ensures forall a, b :: !CommentSpan(s, a, b)
  {
  }

  /** A string has at most one comment span. */
  lemma SpanUnique(s: string, p: int, q: int)
    requires CommentSpan(s, p, q)
    ensures forall a, b :: CommentSpan(s, a, b) ==> a == p && b == q
  {
  }

  /** `stripComments($source)`: passes until one replaces nothing; the result has no comment left to match. */
  function StripComments(s: string): (r: string)
    ensures CommentPass(r).None?
    ensures |r| <= |s|
    decreases |s|
  {
    match CommentPass(s)
    case None => s
    case Some(t) => StripComments(t)
  }

  /** Stripping comments twice is stripping them once. */
  lemma StripCommentsIdempotent(s: string)
    ensures StripComments(StripComments(s)) == StripComments(s)
  {
  }

  /** Text without any `{*` comes back unchanged. */
  lemma NoOpenerUnchanged(s: string)
    requires forall i :: !CommentOpens(s, i)
    ensures StripComments(s) == s
  {
  }

  /** A string made of characters other than `{` and `*` holds no comment delimiter. */
  predicate Plain(s: string) {
    forall i :: 0 <= i < |s| ==> s[i] != '{' && s[i] != '*'
  }

  /**
    A comment whose text has no `{` or `*`, between plain text, is removed
    and the text around it is kept.
   */
  lemma {:induction false} OneComment(x: string, body: string, y: string)
    requires Plain(x) && Plain(body) && Plain(y)
    ensures StripComments(x + "{*" + body + "*}" + y) == x + y
  {
    var s := x + "{*" + body + "*}" + y;
    var p, q := |x|, |x| + 2 + |body|;
    assert s[..p] == x;
    assert s[q + 2..] == y;
    assert CommentSpan(s, p, q) by {
      assert CommentOpens(s, p);
      assert CommentCloses(s, q);
      forall j | p < j
        ensures !CommentOpens(s, j)
      {
        if j + 1 < |s| {
          assert s[j + 1] == '*' ==> j + 1 == q;
        }
      }
      forall j | p + 2 <= j < q
        ensures !CommentCloses(s, j)
      {
        assert s[j] == body[j - p - 2];
      }
    }
    assert CommentPass(s) == Some(x + y);
    assert CommentPass(x + y) == None by {
      forall i ensures !CommentOpens(x + y, i) {
        if 0 <= i < |x + y| {
          assert (x + y)[i] != '{' by {
            if i < |x| { assert (x + y)[i] == x[i]; } else { assert (x + y)[i] == y[i - |x|]; }
          }
        }
      }
    }
  }

  /** The tests' first input: one whole comment leaves nothing. */
  lemma SimpleExample()
    ensures StripComments("{* comments should be stripped *}") == ""
  {
    var s := "{* comments should be stripped *}";
    assert CommentSpan(s, 0, |s| - 2) by {
      forall j | 0 < j < |s| ensures !CommentOpens(s, j) {
        assert s[j] != '{';
      }
      forall j | 2 <= j < |s| - 2 ensures !CommentCloses(s, j) {
        assert s[j] != '*';
      }
    }
    assert s[..0] + s[|s|..] == "";
    assert CommentPass("") == None;
  }

  /** The tests' nested comment: the inner comment goes first, then the outer one. */
  lemma NestedExample()
    ensures StripComments("{* nested {* comment *} *}") == ""
  {
    var s := "{* nested {* comment *} *}";
    var t := "{* nested  *}";
    assert CommentSpan(s, 10, 21) by {
      assert CommentOpens(s, 10) && CommentCloses(s, 21);
      forall j | 10 < j ensures !CommentOpens(s, j) {
        if 10 < j < |s| - 1 { assert s[j] != '{'; }
      }
      forall j | 12 <= j < 21 ensures !CommentCloses(s, j) {
        assert s[j] != '*';
      }
    }
    assert s[..10] + s[23..] == t;
    assert CommentSpan(t, 0, 11) by {
      forall j | 0 < j ensures !CommentOpens(t, j) {
        if 0 < j < |t| - 1 { assert t[j] != '{'; }
      }
      forall j | 2 <= j < 11 ensures !CommentCloses(t, j) {
        assert t[j] != '*';
      }
    }
    assert t[..0] + t[13..] == "";
    assert CommentPass("") == None;
  }

  /**
    A `{*` that is never closed stops every pass: comments before it,
    even complete ones, are all kept.
   */
  lemma UnclosedOpenerKeepsComments(s: string, p: nat)
    requires CommentOpens(s, p)
    requires forall j :: p < j ==> !CommentOpens(s, j)
    requires forall j :: p + 2 <= j ==> !CommentCloses(s, j)
    ensures StripComments(s) == s
  {
    UnclosedLast(s, p);
  }

  /** For instance, `{* a *} {*` is left as it is. */
  lemma UnclosedExample()
    ensures StripComments("{* a *} {*") == "{* a *} {*"
  {
    var s := "{* a *} {*";
    UnclosedOpenerKeepsComments(s, 8);
  }

  /**
    What `stripCode` matches, stated without search: `p` is the first `<?`
    and `q` the last `?>`, which starts two or more characters after `p`.
   */
  predicate CodeSpan(s: string, p: int, q: int) {
    && CodeOpens(s, p)
    && (forall j :: 0 <= j < p ==> !CodeOpens(s, j))
    && p + 2 <= q
    && CodeCloses(s, q)
    && (forall j :: q < j < |s| ==> !CodeCloses(s, j))
  }

  /** No `<?` is followed by a `?>` starting two or more characters later. */
  predicate NoCode(s: string) {
    forall i, k :: 0 <= i < |s| && 0 <= k < |s| && CodeOpens(s, i) && CodeCloses(s, k) ==> k < i + 2
  }

  /**
    `stripCode($source)`: the matched span removed, or the source itself
    when the pattern does not match; no PHP block is left in the result.
   */
  function StripCode(s: string): (r: string)
    ensures forall p, q :: CodeSpan(s, p, q) ==> r == s[..p] + s[q + 2..]
    ensures (forall p, q :: !CodeSpan(s, p, q)) ==> r == s
    ensures NoCode(r)
  {
    match FirstPair(s, '<', '?', 0)
    case None => s
    case Some(p) =>
      match LastPair(s, '?', '>', |s|)
      case None => s
      case Some(q) =>
        if p + 2 <= q then
          assert CodeSpan(s, p, q);
          CutKeepsNoCode(s, p, q);
          s[..p] + s[q + 2..]
        else
          s
  }

  /** Cutting the span out cannot make a new block: an opener left of the cut has no closer right of it. */
  lemma {:induction false} CutKeepsNoCode(s: string, p: nat, q: nat)
    requires CodeSpan(s, p, q)
    ensures NoCode(s[..p] + s[q + 2..])
  {
    var r := s[..p] + s[q + 2..];
    forall i | 0 <= i && i + 1 < p
      ensures !CodeOpens(r, i)
    {
      assert !CodeOpens(s, i);
      assert r[i] == s[i] && r[i + 1] == s[i + 1];
    }
    forall k | p <= k && k + 1 < |r|
      ensures !CodeCloses(r, k)
    {
      var k' := k - p + q + 2;
      assert !CodeCloses(s, k');
      assert r[k] == s[k'] && r[k + 1] == s[k' + 1];
    }
  }

  /** Stripping code twice is stripping it once. */
  lemma StripCodeIdempotent(s: string)
    ensures StripCode(StripCode(s)) == StripCode(s)
  {
    var r := StripCode(s);
    assert forall p, q :: !CodeSpan(r, p, q);
  }

  /** The tests' two inputs: a `<?php` block and a short-tag block are removed whole. */
  lemma CodeExamples()
    ensures StripCode("<?php echo myFunction(); ?>") == ""
    ensures StripCode("<? echo \"No short opening tags mister!\"; ?>") == ""
  {
    var a := "<?php echo myFunction(); ?>";
    assert CodeSpan(a, 0, |a| - 2);
    var b := "<? echo \"No short opening tags mister!\"; ?>";
    assert CodeSpan(b, 0, |b| - 2);
  }

  /** The greedy match also removes the text between two PHP blocks. */
  lemma BetweenBlocksRemoved()
    ensures StripCode("a<?x?>b<?y?>c") == "ac"
  {
    var s := "a<?x?>b<?y?>c";
    assert |s| == 13 && s[0] == 'a' && s[11] == '>' && s[12] == 'c';
    assert CodeSpan(s, 1, 10) by {
      assert CodeOpens(s, 1) && CodeCloses(s, 10);
      assert !CodeOpens(s, 0);
      forall j | 10 < j < |s| ensures !CodeCloses(s, j) { }
    }
    assert s[..1] + s[12..] == "ac";
  }

  /** `parse($source)`: comments first, then code; no PHP block is left and the text never grows. */
  function Parse(s: string): (r: string)
    ensures NoCode(r)
    ensures |r| <= |s|
  {
    var t := StripComments(s);
    StripCode(t)
  }

  /**
    Comments are stripped before code, so cutting code out can join the two
    halves of a comment: `{<?x?>* *}` parses to the comment `{* *}`.
   */
  lemma ParseCanLeaveComment()
    ensures Parse("{<?x?>* *}") == "{* *}"
    ensures CommentPass(Parse("{<?x?>* *}")) == Some("")
  {
    var s := "{<?x?>* *}";
    assert StripComments(s) == s by {
      NoOpenerUnchanged(s);
    }
    assert CodeSpan(s, 1, 4);
    var r := "{* *}";
    assert s[..1] + s[6..] == r;
    assert CommentSpan(r, 0, 3);
  }
}
