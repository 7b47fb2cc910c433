/**
  `Spoon\Template\Renderer::getVar()`: the run-time resolver behind every
  compiled `$this->getVar($context, array(...))` call.

  A path of elements is walked from the context: the first element indexes
  the context, later ones index arrays or are resolved on objects, and any
  other intermediate value ends the walk with null.  A path of exactly one
  element is a special case that tests the key with `array_key_exists`.

  PHP arrays are maps from normalised keys (a string holding a canonical
  decimal integer is the integer key).  Objects are opaque: what PHP's
  reflection would find on them (`property_exists` with `isset`,
  `method_exists` with `is_callable`, `__get`) and what their methods
  return are given as an `Objects` record of lookup functions.
 */
module Renderers {
  import opened Errors
  import opened Strings
  import Tokens

  datatype Key = KInt(i: int) | KStr(s: string)

  datatype Value =
    | Null
    | Bool(b: bool)
    | Number(n: int)
    | Text(s: string)
    | Array(entries: map<Key, Value>)
    | Object(id: nat)

  /**
    A path element: a plain key, or a call chunk (`'name' => array(args)`
    in the compiled path) whose key is the method name and whose value is
    the argument list.
   */
  datatype Element = Plain(key: Key) | Call(name: Key, args: seq<Value>)

  /**
    What PHP finds on an object: a public property that is set and not
    null, whether a callable method of a name exists, what calling it
    returns, whether the object has `__get`, and what `$object->name`
    yields through it.
   */
  datatype Objects = Objects(
    property: (nat, string) -> Option<Value>,
    hasMethod: (nat, string) -> bool,
    invoke: (nat, string, seq<Value>) -> Value,
    hasMagicGet: nat -> bool,
    magicGet: (nat, string) -> Value)

  /**
    A string holding a canonical decimal integer (no sign on 0, no leading
    zeros) within PHP's integer range; a longer one stays a string key.
   */
  predicate CanonicalInt(s: string) {
    && Tokens.IsIntegerString(s) && IntToString(Tokens.IntegerStringValue(s)) == s
    && Tokens.IntMin <= Tokens.IntegerStringValue(s) <= Tokens.IntMax
  }

  /** PHP's array-key cast: canonical integer strings within the integer range become integer keys. */
  function Normalize(k: Key): (r: Key)
    ensures r.KInt? <==> k.KInt? || CanonicalInt(k.s)
    ensures k.KStr? && !CanonicalInt(k.s) ==> r == k
  {
    match k
    case KInt(_) => k
    case KStr(s) => if CanonicalInt(s) then KInt(Tokens.IntegerStringValue(s)) else k
  }

  /** `$array[$key]` on an array: the entry, or null (with a notice) when there is none. */
  function Lookup(m: map<Key, Value>, k: Key): Value {
    var n := Normalize(k);
    if n in m then m[n] else Null
  }

  /** `$array[$value]` for a path element: a call chunk's value is an array, an illegal offset that PHP 7 reads as null. */
  function Index(m: map<Key, Value>, e: Element): Value {
    match e
    case Plain(k) => Lookup(m, k)
    case Call(_, _) => Null
  }

  /** `$elements[0]` of a one-element path: a call chunk sits under its name, so index 0 is null, which keys as "". */
  function SingleKey(e: Element): Key {
    match e
    case Plain(k) => k
    case Call(_, _) => KStr("")
  }

  /** The name an object element is resolved by: `$index` for a call chunk, the value otherwise. */
  function ElementName(e: Element): string {
    var k := match e case Plain(k) => k case Call(n, _) => n;
    match k
    case KInt(i) => IntToString(i)
    case KStr(s) => s
  }

  /** The arguments an object element passes: a call chunk's list, none otherwise. */
  function ElementArgs(e: Element): seq<Value> {
    match e
    case Plain(_) => []
    case Call(_, args) => args
  }

  /** `ucfirst()`: an ASCII lower-case first letter is upper-cased. */
  function Ucfirst(s: string): (r: string)
    ensures |r| == |s| && (|s| > 0 ==> r[1..] == s[1..])
    ensures |s| > 0 && 'a' <= s[0] <= 'z' ==> r[0] as int == s[0] as int - 32
  {
    if |s| > 0 && 'a' <= s[0] <= 'z' then [(s[0] as int - 32) as char] + s[1..] else s
  }

  /** The getter method name tried for an element: `get` + ucfirst(name). */
  function Getter(name: string): string {
    "get" + Ucfirst(name)
  }

  /** Resolution of one element on an object, in the order of `getVar`. */
  function Resolve(objs: Objects, id: nat, e: Element): Value {
    var name := ElementName(e);
    var args := ElementArgs(e);
    if objs.property(id, name).Some? then objs.property(id, name).value
    else if objs.hasMethod(id, name) then objs.invoke(id, name, args)
    else if objs.hasMethod(id, Getter(name)) then objs.invoke(id, Getter(name), args)
    else if objs.hasMagicGet(id) then objs.magicGet(id, name)
    else Null
  }

  /** The walk over the elements after the first. */
  function Walk(objs: Objects, v: Value, rest: seq<Element>): Value
    decreases |rest|
  {
    if |rest| == 0 then v
    else
      match v
      case Array(m) => Walk(objs, Index(m, rest[0]), rest[1..])
      case Object(id) => Walk(objs, Resolve(objs, id, rest[0]), rest[1..])
      case _ => Null
  }

  /** `getVar($context, $elements)`. */
  function GetVar(objs: Objects, context: map<Key, Value>, elements: seq<Element>): Value {
    if |elements| == 1 then Lookup(context, SingleKey(elements[0]))
    else if |elements| == 0 then Null
    else Walk(objs, Index(context, elements[0]), elements[1..])
  }

  // ----- a reference definition of the object resolution order -----

  /** The places `getVar` looks on an object, by priority. */
  datatype Source = Property | Method(methodName: string) | MagicGet

  function Candidates(name: string): seq<Source> {
    [Property, Method(name), Method(Getter(name)), MagicGet]
  }

  predicate Applies(objs: Objects, id: nat, name: string, src: Source) {
    match src
    case Property => objs.property(id, name).Some?
    case Method(m) => objs.hasMethod(id, m)
    case MagicGet => objs.hasMagicGet(id)
  }

  function Fetch(objs: Objects, id: nat, name: string, args: seq<Value>, src: Source): Value
    requires Applies(objs, id, name, src)
  {
    match src
    case Property => objs.property(id, name).value
    case Method(m) => objs.invoke(id, m, args)
    case MagicGet => objs.magicGet(id, name)
  }

  /** The value of the first applicable source, or null when none applies. */
  function FirstApplicable(objs: Objects, id: nat, name: string, args: seq<Value>, sources: seq<Source>): Value {
    if |sources| == 0 then Null
    else if Applies(objs, id, name, sources[0]) then Fetch(objs, id, name, args, sources[0])
    else FirstApplicable(objs, id, name, args, sources[1..])
  }

  /** Object resolution takes the first of property, method, getter and `__get` that applies. */
  lemma ResolveIsFirstApplicable(objs: Objects, id: nat, e: Element)
    ensures Resolve(objs, id, e) == FirstApplicable(objs, id, ElementName(e), ElementArgs(e), Candidates(ElementName(e)))
  {
    var name, args := ElementName(e), ElementArgs(e);
    var c := Candidates(name);
    assert c[0] == Property && c[1..] == [Method(name), Method(Getter(name)), MagicGet];
    var c1 := c[1..];
    assert c1[0] == Method(name) && c1[1..] == [Method(Getter(name)), MagicGet];
    var c2 := c1[1..];
    assert c2[0] == Method(Getter(name)) && c2[1..] == [MagicGet];
    var c3 := c2[1..];
    assert c3[0] == MagicGet && c3[1..] == [];
    var f3 := FirstApplicable(objs, id, name, args, c3);
    assert f3 == if objs.hasMagicGet(id) then objs.magicGet(id, name) else Null
      by { assert FirstApplicable(objs, id, name, args, c3[1..]) == Null; }
    var f2 := FirstApplicable(objs, id, name, args, c2);
    assert f2 == if objs.hasMethod(id, Getter(name)) then objs.invoke(id, Getter(name), args) else f3;
    var f1 := FirstApplicable(objs, id, name, args, c1);
    assert f1 == if objs.hasMethod(id, name) then objs.invoke(id, name, args) else f2;
    assert FirstApplicable(objs, id, name, args, c)
        == if objs.property(id, name).Some? then objs.property(id, name).value else f1;
  }

  /**
    A name with no property and no method of its own reaches the getter:
    `template.environment` and `template.getEnvironment` resolve alike
    when `environment` is not a public set property.
   */
  lemma GetterAlias(objs: Objects, id: nat, name: string, args: seq<Value>)
    requires objs.property(id, name).None? && !objs.hasMethod(id, name)
    requires objs.property(id, Getter(name)).None? && objs.hasMethod(id, Getter(name))
    ensures Resolve(objs, id, Call(KStr(name), args)) == Resolve(objs, id, Call(KStr(Getter(name)), args))
    ensures Resolve(objs, id, Plain(KStr(name))) == objs.invoke(id, Getter(name), [])
  {
  }

  /** A value that is neither array nor object ends any further walk with null; null stays null. */
  lemma ScalarStops(objs: Objects, v: Value, rest: seq<Element>)
    requires !v.Array? && !v.Object?
    requires |rest| > 0 || v.Null?
    ensures Walk(objs, v, rest) == Null
  {
  }

  /** Walking a path in two parts is walking it whole. */
  lemma {:induction false} WalkAppend(objs: Objects, v: Value, a: seq<Element>, b: seq<Element>)
    ensures Walk(objs, v, a + b) == Walk(objs, Walk(objs, v, a), b)
    decreases |a|
  {
    if |a| == 0 {
      assert a + b == b;
    } else {
      assert (a + b)[0] == a[0] && (a + b)[1..] == a[1..] + b;
      match v
      case Array(m) => WalkAppend(objs, Index(m, a[0]), a[1..], b);
      case Object(id) => WalkAppend(objs, Resolve(objs, id, a[0]), a[1..], b);
      case _ =>
        if |b| > 0 {
          ScalarStops(objs, Null, b);
        }
    }
  }

  /** The one-element special case agrees with the general walk on a plain key. */
  lemma SingleCaseConsistent(objs: Objects, context: map<Key, Value>, k: Key)
    ensures GetVar(objs, context, [Plain(k)]) == Walk(objs, Index(context, Plain(k)), [])
  {
  }

  /** A path of two or more elements resolves as its first part, then the rest walked from there. */
  lemma PathPrefix(objs: Objects, context: map<Key, Value>, a: seq<Element>, b: seq<Element>)
    requires |a| >= 2
    ensures GetVar(objs, context, a + b) == Walk(objs, GetVar(objs, context, a), b)
  {
    var ab := a + b;
    assert |ab| >= 2 && ab[0] == a[0] && ab[1..] == a[1..] + b;
    WalkAppend(objs, Index(context, a[0]), a[1..], b);
  }

  /** The integer `i` printed as a string reads back as `i`. */
  lemma {:induction false} PrintedIntegerReadsBack(i: int)
    ensures Tokens.IsIntegerString(IntToString(i)) && Tokens.IntegerStringValue(IntToString(i)) == i
  {
    var s := IntToString(i);
    if i < 0 {
      var digits := NatToString(-i);
      assert s[1..] == digits;
      assert Tokens.IsDigitString(digits) by {
        forall k | 0 <= k < |digits| ensures IsDigit(digits[k]) {}
      }
      assert s[0] == '-';
      NatToStringRoundTrip(-i);
    } else {
      assert Tokens.IsDigitString(s) by {
        forall k | 0 <= k < |s| ensures IsDigit(s[k]) {}
      }
      assert s[0] != '-';
      NatToStringRoundTrip(i);
    }
  }

  /** An integer of PHP's range printed as a string keys the same entry as the integer itself. */
  lemma IntegerKeyString(i: int)
    requires Tokens.IntMin <= i <= Tokens.IntMax
    ensures Normalize(KStr(IntToString(i))) == KInt(i)
  {
    PrintedIntegerReadsBack(i);
  }

  /** A decimal beyond PHP's integer range is no integer key: it stays a string. */
  lemma OutOfRangeKeyString(i: int)
    requires i < Tokens.IntMin || Tokens.IntMax < i
    ensures Normalize(KStr(IntToString(i))) == KStr(IntToString(i))
  {
    PrintedIntegerReadsBack(i);
  }

  /** `$array['1']` and `$array[1]` read the same entry. */
  lemma NumericKeysAgree(m: map<Key, Value>, i: int)
    requires Tokens.IntMin <= i <= Tokens.IntMax
    ensures Lookup(m, KStr(IntToString(i))) == Lookup(m, KInt(i))
  {
    IntegerKeyString(i);
  }

  /** `users.1.name` over a list of user records reads the second user's name. */
  lemma UsersExample(objs: Objects, first: map<Key, Value>, second: map<Key, Value>, name: Value)
    requires KStr("name") in second && second[KStr("name")] == name
    ensures var users := Array(map[KInt(0) := Array(first), KInt(1) := Array(second)]);
      GetVar(objs, map[KStr("users") := users], [Plain(KStr("users")), Plain(KStr("1")), Plain(KStr("name"))]) == name
  {
    assert IntToString(1) == "1" by { assert NatToString(1) == [DigitChar(1)]; }
    IntegerKeyString(1);
    assert Normalize(KStr("1")) == KInt(1);
    assert !CanonicalInt("users") && !CanonicalInt("name") by {
      assert !Tokens.IsDigitString("users") by { assert !IsDigit("users"[0]); }
      assert !Tokens.IsDigitString("name") by { assert !IsDigit("name"[0]); }
    }
    var users := Array(map[KInt(0) := Array(first), KInt(1) := Array(second)]);
    var context := map[KStr("users") := users];
    var path := [Plain(KStr("users")), Plain(KStr("1")), Plain(KStr("name"))];
    assert Index(context, path[0]) == users;
    assert Index(users.entries, path[1]) == Array(second);
    assert Index(second, path[2]) == name;
    assert path[1..][1..] == [path[2]] && path[1..][1..][1..] == [];
    assert Walk(objs, Array(second), path[1..][1..]) == name;
    assert Walk(objs, users, path[1..]) == Walk(objs, Array(second), path[1..][1..]);
  }
}
