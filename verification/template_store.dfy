/**
  The variable store of `Spoon\Template\Template` (and of its two older
  copies, `spoon\template\Template` in `template.php` and
  `template/template.php`, whose `assign`, `get` and `remove` have the same
  code): a PHP array from keys to values, which becomes the rendering
  context.

  `assign($variable, $value)` stores one value when the value is not null
  and the key is not empty; otherwise it treats the first argument as an
  array or object whose entries are all copied.  When it is neither, the
  code calls `trigger_error` with `E_WARNING`, a level `trigger_error`
  does not accept (only the `E_USER_*` levels): under PHP 7 the warning
  actually raised is about the invalid error type, and the intended
  message is never shown.  A non-null value with an array or object as the
  key reaches the `(string)` cast, which raises a notice for an array and a
  recoverable error for an object.  Every such diagnostic ends `assign`
  with an error, as PHPUnit's error handler makes it.  `get` answers null
  for an absent key; `remove` unsets.
 */
module TemplateStores {
  import opened Errors
  import opened Strings
  import opened Renderers
  import Tokens

  type Store = map<Key, Value>

  /** The first argument of `assign`: a key, or an array or object whose (public) entries are copied. */
  datatype Argument =
    | Name(s: string)
    | ArrayArg(entries: map<Key, Value>)
    | ObjectArg(className: string, props: map<Key, Value>)

  /** The warning PHP 7 raises for `trigger_error(..., E_WARNING)`. */
  const InvalidErrorTypeMessage: string := "trigger_error(): Invalid error type specified"

  /** The notice of `(string)` on an array. */
  const ArrayToStringMessage: string := "Array to string conversion"

  /** The recoverable error of `(string)` on an object of a class without `__toString`. */
  function ObjectKeyMessage(className: string): string {
    "Object of class " + className + " could not be converted to string"
  }

  /** `$variable != ''`: only the empty string (an array or object is never equal to it). */
  predicate NotEmpty(variable: Argument) {
    !(variable.Name? && variable.s == "")
  }

  /** `assign($variable, $value)`. */
  function Assign(store: Store, variable: Argument, value: Value): (r: Result<Store>)
    ensures r.Err? <==> if value == Null || !NotEmpty(variable) then variable.Name? else !variable.Name?
    ensures r.Err? && variable.Name? ==> r.error == Warning(InvalidErrorTypeMessage)
    ensures r.Err? && variable.ArrayArg? ==> r.error == Notice(ArrayToStringMessage)
    ensures r.Err? && variable.ObjectArg? ==> r.error == RecoverableError(ObjectKeyMessage(variable.className))
    ensures r.Ok? ==> forall k :: k in store ==> k in r.value
  {
    if value != Null && NotEmpty(variable) then
      match variable
      case Name(s) => Ok(store[Normalize(KStr(s)) := value])
      case ArrayArg(_) => Err(Notice(ArrayToStringMessage))
      case ObjectArg(className, _) => Err(RecoverableError(ObjectKeyMessage(className)))
    else
      match variable
      case Name(_) => Err(Warning(InvalidErrorTypeMessage))
      case ArrayArg(m) => Ok(store + m)
      case ObjectArg(_, m) => Ok(store + m)
  }

  /** `get($variable)`: the stored value, or null. */
  function Get(store: Store, name: string): Value {
    Lookup(store, KStr(name))
  }

  /** `remove($variable)`. */
  function Remove(store: Store, name: string): (r: Store)
    ensures Normalize(KStr(name)) !in r
    ensures forall k :: k in r <==> k in store && k != Normalize(KStr(name))
    ensures forall k :: k in r ==> r[k] == store[k]
  {
    store - {Normalize(KStr(name))}
  }

  /** Two names read the same entry exactly when they normalise to the same key. */
  predicate SameKey(a: string, b: string) {
    Normalize(KStr(a)) == Normalize(KStr(b))
  }

  /** A value assigned under a non-empty name is read back; names of other keys read as before. */
  lemma AssignThenGet(store: Store, name: string, value: Value, other: string)
    requires value != Null && name != "" && !SameKey(name, other)
    ensures Assign(store, Name(name), value).Ok?
    ensures Get(Assign(store, Name(name), value).value, name) == value
    ensures Get(Assign(store, Name(name), value).value, other) == Get(store, other)
  {
  }

  /** A second assignment to the same name replaces the first. */
  lemma AssignOverwrites(store: Store, name: string, a: Value, b: Value)
    requires a != Null && b != Null && name != ""
    ensures Assign(Assign(store, Name(name), a).value, Name(name), b) == Assign(store, Name(name), b)
  {
    var k := Normalize(KStr(name));
    assert store[k := a][k := b] == store[k := b];
  }

  /** Assigning an array copies each of its entries, overwriting, and leaves every other key alone. */
  lemma AssignEntries(store: Store, entries: map<Key, Value>, k: Key)
    ensures var r := Assign(store, ArrayArg(entries), Null);
      && r.Ok?
      && (k in entries ==> k in r.value && r.value[k] == entries[k])
      && (k !in entries ==> (k in r.value <==> k in store) && (k in store ==> r.value[k] == store[k]))
  {
  }

  /** The test's two examples: `assign('key', 'value')` and `assign(array('foo' => 'bar'))`. */
  lemma AssignExamples(store: Store)
    ensures Get(Assign(store, Name("key"), Text("value")).value, "key") == Text("value")
    ensures Get(Assign(store, ArrayArg(map[KStr("foo") := Text("bar")]), Null).value, "foo") == Text("bar")
  {
    assert !CanonicalInt("key") by { assert !Tokens.IsDigitString("key") by { assert !IsDigit("key"[0]); } }
    assert !CanonicalInt("foo") by { assert !Tokens.IsDigitString("foo") by { assert !IsDigit("foo"[0]); } }
  }

  /** A lone key (or a null value) is not an array or object: the invalid-level warning, nothing stored. */
  lemma SingleKeyWarns(store: Store, name: string)
    ensures Assign(store, Name(name), Null) == Err(Warning(InvalidErrorTypeMessage))
  {
  }

  /** After `remove`, `get` answers null for that name, and other names read as before. */
  lemma RemoveThenGet(store: Store, name: string, other: string)
    requires !SameKey(name, other)
    ensures Get(Remove(store, name), name) == Null
    ensures Get(Remove(store, name), other) == Get(store, other)
  {
  }

  /** Assigning a fresh name and removing it again gives back the same store. */
  lemma AssignThenRemove(store: Store, name: string, value: Value)
    requires value != Null && name != "" && Normalize(KStr(name)) !in store
    ensures Remove(Assign(store, Name(name), value).value, name) == store
  {
    var k := Normalize(KStr(name));
    assert store[k := value] - {k} == store;
  }
}
