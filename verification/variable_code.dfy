/**
  The PHP expression the variable parsers generate (`build()` in
  `Parser/VariableNode.php`, `Parser/Variable.php` and, for plain keys,
  `Parser/SubVariable.php`): a `getVar` call over the chunk list, wrapped
  once per modifier in a `call_user_func_array` call.
 */
module VariableCode {
  import opened Strings

  /** A chunk: a plain key, or a method name with its argument code (`array($key => $arguments)`). */
  datatype Chunk = Key(name: string) | Call(name: string, args: seq<string>)

  /** A modifier: a bare name, or a name with its argument code. */
  datatype Modifier = Plain(name: string) | WithArgs(name: string, args: seq<string>)

  function Keys(names: seq<string>): (r: seq<Chunk>)
    ensures |r| == |names| && forall i :: 0 <= i < |r| ==> r[i] == Key(names[i])
  {
    if |names| == 0 then [] else [Key(names[0])] + Keys(names[1..])
  }

  /** One chunk inside the `array(...)`: `'name'` or `'name' => array(args)`. */
  function ChunkCode(c: Chunk): string {
    match c
    case Key(name) => "'" + name + "'"
    case Call(name, args) => "'" + name + "' => array(" + Join(args, ", ") + ")"
  }

  function ChunkCodes(chunks: seq<Chunk>): (r: seq<string>)
    ensures |r| == |chunks| && forall i :: 0 <= i < |r| ==> r[i] == ChunkCode(chunks[i])
  {
    if |chunks| == 0 then [] else [ChunkCode(chunks[0])] + ChunkCodes(chunks[1..])
  }

  const GetVarHead: string := "$this->getVar($context, array("

  /**
    The `getVar` call: the chunk codes separated by `, `, the array closed
    after the last one and the call after that.  An empty list leaves the
    array unclosed; the parsers never produce one.
   */
  function GetVarCode(chunks: seq<Chunk>): string {
    GetVarHead + Join(ChunkCodes(chunks), ", ") + (if |chunks| > 0 then ")" else "") + ")"
  }

  /** Joining one more part appends the separator and the part. */
  lemma {:induction false} JoinSnoc(parts: seq<string>, x: string, sep: string)
    requires |parts| > 0
    ensures Join(parts + [x], sep) == Join(parts, sep) + sep + x
    decreases |parts|
  {
    if |parts| == 1 {
      assert parts + [x] == [parts[0], x];
      assert [parts[0], x][1..] == [x];
    } else {
      assert (parts + [x])[1..] == parts[1..] + [x];
      JoinSnoc(parts[1..], x, sep);
    }
  }

  /**
    The first loop of `build()`: each chunk's code, then `, ` before the
    next chunk or `)` after the last (`$key < $count - 1`); `)` once more
    after the loop.
   */
  method BuildGetVar(chunks: seq<Chunk>) returns (output: string)
    ensures output == GetVarCode(chunks)
  {
    var q := ChunkCodes(chunks);
    output := GetVarHead;
    var count := |chunks|;
    var key := 0;
    while key < count
      invariant 0 <= key <= count
      invariant Partial(GetVarHead, q, key, output)
    {
      PartialStep(GetVarHead, q, key, output);
      output := output + ChunkCode(chunks[key]) + (if key < count - 1 then ", " else ")");
      key := key + 1;
    }
    assert count > 0 ==> q[..count] == q;
    output := output + ")";
  }

  /** The text the chunk loop has produced after `key` of the parts `q`. */
  predicate Partial(head: string, q: seq<string>, key: nat, output: string)
    requires key <= |q|
  {
    if key == 0 then output == head
    else output == head + Join(q[..key], ", ") + (if key < |q| then ", " else ")")
  }

  /** One pass of the chunk loop keeps `Partial`. */
  lemma {:induction false} PartialStep(head: string, q: seq<string>, key: nat, output: string)
    requires key < |q| && Partial(head, q, key, output)
    ensures Partial(head, q, key + 1, output + q[key] + (if key < |q| - 1 then ", " else ")"))
  {
    if key > 0 {
      assert q[..key + 1] == q[..key] + [q[key]];
      JoinSnoc(q[..key], q[key], ", ");
    } else {
      assert q[..1] == [q[0]];
    }
  }

  /** The arguments a modifier adds after the wrapped expression. */
  function ModifierArgs(m: Modifier): seq<string> {
    if m.WithArgs? then m.args else []
  }

  /** The text in front of the wrapped expression. */
  function WrapHead(m: Modifier): string {
    "call_user_func_array($this->environment->getModifier('" + m.name + "'), array("
  }

  /** The text after the wrapped expression: `, arg` per argument, then `))`. */
  function WrapTail(m: Modifier): string {
    SeparatedTail(ModifierArgs(m), ", ") + "))"
  }

  /** `sep + p` for every part, in order. */
  function SeparatedTail(parts: seq<string>, sep: string): string {
    if |parts| == 0 then "" else sep + parts[0] + SeparatedTail(parts[1..], sep)
  }

  /** A join with a known first part is that part followed by the separated rest. */
  lemma {:induction false} JoinFirst(x: string, rest: seq<string>, sep: string)
    ensures Join([x] + rest, sep) == x + SeparatedTail(rest, sep)
    decreases |rest|
  {
    if |rest| > 0 {
      assert ([x] + rest)[1..] == rest;
      assert rest == [rest[0]] + rest[1..];
      JoinFirst(rest[0], rest[1..], sep);
    } else {
      assert [x] + rest == [x];
    }
  }

  /**
    One pass of the second loop of `build()`: the modifier is called with
    the expression so far as its first argument, followed by its own.
   */
  function Wrap(inner: string, m: Modifier): (r: string)
    ensures r == WrapHead(m) + inner + WrapTail(m)
  {
    JoinFirst(inner, ModifierArgs(m), ", ");
    WrapHead(m) + Join([inner] + ModifierArgs(m), ", ") + "))"
  }

  /** The modifiers applied in list order: the first one innermost. */
  function Apply(inner: string, mods: seq<Modifier>): string
    decreases |mods|
  {
    if |mods| == 0 then inner else Apply(Wrap(inner, mods[0]), mods[1..])
  }

  /** The whole generated expression. */
  function Expression(chunks: seq<Chunk>, mods: seq<Modifier>): string {
    Apply(GetVarCode(chunks), mods)
  }

  /** The heads of all modifiers, the last modifier's first. */
  function Heads(mods: seq<Modifier>): string {
    if |mods| == 0 then "" else Heads(mods[1..]) + WrapHead(mods[0])
  }

  /** The tails of all modifiers, the first modifier's first. */
  function Tails(mods: seq<Modifier>): string {
    if |mods| == 0 then "" else WrapTail(mods[0]) + Tails(mods[1..])
  }

  /**
    The nesting of the modifiers: the expression is the heads of the
    modifiers from last to first, the wrapped code, then the tails from first
    to last.  So the last modifier is the outermost call.
   */
  lemma {:induction false} Nesting(inner: string, mods: seq<Modifier>)
    ensures Apply(inner, mods) == Heads(mods) + inner + Tails(mods)
    decreases |mods|
  {
    if |mods| > 0 {
      var m := mods[0];
      Nesting(Wrap(inner, m), mods[1..]);
      assert Apply(inner, mods) == Apply(Wrap(inner, m), mods[1..]);
      assert Heads(mods) == Heads(mods[1..]) + WrapHead(m);
      assert Tails(mods) == WrapTail(m) + Tails(mods[1..]);
      Regroup(Heads(mods[1..]), WrapHead(m), inner, WrapTail(m), Tails(mods[1..]));
    }
  }

  lemma Regroup(a: string, b: string, c: string, d: string, e: string)
    ensures a + (b + c + d) + e == (a + b) + c + (d + e)
  {
  }

  lemma Regroup3(a: string, b: string, c: string)
    ensures (a + b) + c == a + (b + c)
  {
  }

  lemma Regroup4(a: string, b: string, c: string, d: string)
    ensures (a + b) + c + d == a + (b + c) + d
  {
  }

  /** With at least one modifier, the expression is a call of the last modifier. */
  lemma {:induction false} LastModifierOutermost(chunks: seq<Chunk>, mods: seq<Modifier>)
    requires |mods| > 0
    ensures var e := Expression(chunks, mods); var h := WrapHead(mods[|mods| - 1]);
      |h| <= |e| && e[..|h|] == h && e[|e| - 2..] == "))"
  {
    var n := |mods|;
    var h := WrapHead(mods[n - 1]);
    var x := Heads(mods[..n - 1]);
    var g := GetVarCode(chunks);
    var t := Tails(mods);
    Nesting(g, mods);
    HeadsEndsWithLast(mods);
    TailsEndsWithParens(mods);
    calc {
      Expression(chunks, mods);
      Apply(g, mods);
      Heads(mods) + g + t;
      { assert Heads(mods) == h + x; }
      (h + x) + g + t;
      { Regroup4(h, x, g, t); }
      h + (x + g) + t;
    }
    Framed(h, x + g, t);
  }

  /** A string made of a known head, anything, and a tail ending in `))`. */
  lemma Framed(h: string, x: string, t: string)
    requires |t| >= 2 && t[|t| - 2..] == "))"
    ensures var e := h + x + t; |h| <= |e| && e[..|h|] == h && e[|e| - 2..] == "))"
  {
    var e := h + x + t;
    assert e[|e| - 2..] == t[|t| - 2..];
  }

  /** The heads begin with the head of the last modifier. */
  lemma {:induction false} HeadsEndsWithLast(mods: seq<Modifier>)
    requires |mods| > 0
    ensures Heads(mods) == WrapHead(mods[|mods| - 1]) + Heads(mods[..|mods| - 1])
    decreases |mods|
  {
    var n := |mods|;
    if n == 1 {
      assert mods[..0] == [] && mods[1..] == [];
      assert Heads(mods) == "" + WrapHead(mods[0]);
    } else {
      var rest := mods[1..];
      var init := mods[..n - 1];
      HeadsEndsWithLast(rest);
      assert rest[|rest| - 1] == mods[n - 1];
      assert rest[..|rest| - 1] == init[1..];
      assert init[0] == mods[0];
      var hl := WrapHead(mods[n - 1]);
      var h0 := WrapHead(mods[0]);
      assert Heads(mods) == Heads(rest) + h0;
      assert Heads(rest) == hl + Heads(init[1..]);
      assert Heads(init) == Heads(init[1..]) + h0;
      Regroup3(hl, Heads(init[1..]), h0);
    }
  }

  /** The tails end with `))`. */
  lemma {:induction false} TailsEndsWithParens(mods: seq<Modifier>)
    requires |mods| > 0
    ensures var t := Tails(mods); |t| >= 2 && t[|t| - 2..] == "))"
    decreases |mods|
  {
    if |mods| > 1 {
      TailsEndsWithParens(mods[1..]);
      var t := Tails(mods[1..]);
      assert (WrapTail(mods[0]) + t)[|WrapTail(mods[0]) + t| - 2..] == t[|t| - 2..];
    } else {
      assert Tails(mods) == WrapTail(mods[0]) + "";
      var w := WrapTail(mods[0]);
      assert w == SeparatedTail(ModifierArgs(mods[0]), ", ") + "))";
      assert w[|w| - 2..] == "))";
    }
  }

  /**
    `build()` up to the echo: the chunk loop, then each modifier in turn
    wrapping the expression so far.
   */
  method BuildExpression(chunks: seq<Chunk>, mods: seq<Modifier>) returns (output: string)
    ensures output == Expression(chunks, mods)
  {
    output := BuildGetVar(chunks);
    var k := 0;
    while k < |mods|
      invariant 0 <= k <= |mods|
      invariant Apply(output, mods[k..]) == Expression(chunks, mods)
    {
      assert mods[k..][0] == mods[k] && mods[k..][1..] == mods[k + 1..];
      output := Wrap(output, mods[k]);
      k := k + 1;
    }
  }

  /** The statement a variable tag compiles to. */
  function EchoStatement(chunks: seq<Chunk>, mods: seq<Modifier>): string {
    "echo " + Expression(chunks, mods) + ";\n"
  }
}
