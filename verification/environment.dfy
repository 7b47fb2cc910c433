/**
  `Spoon\Template\Environment`: the compiler's configuration flags and the
  registry of modifier callbacks.

  Modifier names are checked against `/^[a-z]+[a-z0-9_]*$/i`; because PCRE's
  `$` also matches before a final newline, one trailing `\n` passes the
  check (and is kept in the stored name).  `getModifier` tests the entry
  with `isset`, so a name bound to a null callback counts as absent.
 */
module Environments {
  import opened Errors
  import opened Strings

  /** A modifier callback as PHP accepts one: a function name or a `(class, method)` pair. */
  datatype Callback = NoCallback | Function(name: string) | Method(target: string, member: string)

  /** A constructor option value before its `(bool)` or `(string)` cast. */
  datatype Setting = Unset | Flag(b: bool) | Whole(i: int) | Words(s: string)

  datatype Environment = Environment(
    autoEscape: bool,
    autoReload: bool,
    cache: string,
    charset: string,
    debug: bool,
    modifiers: map<string, Callback>)

  /** PHP's `(bool)` cast. */
  function ToBool(v: Setting): bool {
    match v
    case Unset => false
    case Flag(b) => b
    case Whole(i) => i != 0
    case Words(s) => s != "" && s != "0"
  }

  /** PHP's `(string)` cast. */
  function ToStr(v: Setting): string {
    match v
    case Unset => ""
    case Flag(b) => if b then "1" else ""
    case Whole(i) => IntToString(i)
    case Words(s) => s
  }

  /** The defaults `array_merge` puts under the given options. */
  const Defaults: map<string, Setting> := map[
    "auto_escape" := Flag(true),
    "auto_reload" := Flag(true),
    "cache" := Words("."),
    "charset" := Words("utf-8"),
    "debug" := Flag(false)]

  const DumpCallback: Callback := Method("spoon\\debug\\Debug", "dump")

  /** `new Environment($options)`: each option overrides its default; the registry holds `dump` only. */
  function Create(options: map<string, Setting>): (e: Environment)
    ensures e.modifiers == map["dump" := DumpCallback]
    ensures e.autoEscape == ToBool(if "auto_escape" in options then options["auto_escape"] else Flag(true))
    ensures e.autoReload == ToBool(if "auto_reload" in options then options["auto_reload"] else Flag(true))
    ensures e.cache == ToStr(if "cache" in options then options["cache"] else Words("."))
    ensures e.charset == ToStr(if "charset" in options then options["charset"] else Words("utf-8"))
    ensures e.debug == ToBool(if "debug" in options then options["debug"] else Flag(false))
  {
    var o := Defaults + options;
    Environment(ToBool(o["auto_escape"]), ToBool(o["auto_reload"]), ToStr(o["cache"]), ToStr(o["charset"]),
                ToBool(o["debug"]), map["dump" := DumpCallback])
  }

  /** Without options: escaping and reloading on, cache ".", charset "utf-8", debug off. */
  lemma DefaultConfiguration()
    ensures Create(map[]) == Environment(true, true, ".", "utf-8", false, map["dump" := DumpCallback])
  {
    var o: map<string, Setting> := Defaults + map[];
    assert o == Defaults;
  }

  predicate IsAsciiLetter(c: char) {
    'a' <= c <= 'z' || 'A' <= c <= 'Z'
  }

  /** A character of `[a-z0-9_]` under the `i` flag. */
  predicate IsWordChar(c: char) {
    IsAsciiLetter(c) || IsDigit(c) || c == '_'
  }

  /** The part of a name the pattern has to match: PCRE's `$` lets one final newline through. */
  function Matched(name: string): (core: string)
    ensures core <= name && |name| - 1 <= |core|
  {
    if |name| > 0 && name[|name| - 1] == '\n' then name[..|name| - 1] else name
  }

  /** `preg_match('/^[a-z]+[a-z0-9_]*$/i', $name)`. */
  predicate ValidName(name: string) {
    var core := Matched(name);
    |core| > 0 && IsAsciiLetter(core[0]) && forall k :: 1 <= k < |core| ==> IsWordChar(core[k])
  }

  function NamingMessage(name: string): string {
    "Modifier \"" + name + "\" is not following the naming conventions"
  }

  function MissingMessage(name: string): string {
    "There is no \"" + name + "\" modifier."
  }

  /** `addModifier($name, $value)`: a valid name is bound to the callback, replacing any earlier one. */
  function AddModifier(e: Environment, name: string, value: Callback): (r: Result<Environment>)
    ensures r.Ok? <==> ValidName(name)
    ensures r.Err? ==> r.error == Exception(NamingMessage(name))
    ensures r.Ok? ==> r.value == e.(modifiers := e.modifiers[name := value])
  {
    if !ValidName(name) then Err(Exception(NamingMessage(name)))
    else Ok(e.(modifiers := e.modifiers[name := value]))
  }

  /** `getModifier($name)`: the bound callback, when there is one and it is not null. */
  function GetModifier(e: Environment, name: string): (r: Result<Callback>)
    ensures r.Ok? <==> name in e.modifiers && e.modifiers[name] != NoCallback
    ensures r.Ok? ==> r.value == e.modifiers[name]
    ensures r.Err? ==> r.error == Exception(MissingMessage(name))
  {
    if name in e.modifiers && e.modifiers[name] != NoCallback then Ok(e.modifiers[name])
    else Err(Exception(MissingMessage(name)))
  }

  /** `removeModifier($name)`: `unset`, which does nothing for an absent name. */
  function RemoveModifier(e: Environment, name: string): (r: Environment)
    ensures name !in r.modifiers
    ensures forall n :: n != name ==> (n in r.modifiers <==> n in e.modifiers)
    ensures forall n :: n in r.modifiers ==> r.modifiers[n] == e.modifiers[n]
    ensures r.(modifiers := e.modifiers) == e
  {
    e.(modifiers := e.modifiers - {name})
  }

  /** A modifier added under a valid name is returned by `getModifier`; every other name reads as before. */
  lemma AddThenGet(e: Environment, name: string, value: Callback, other: string)
    requires ValidName(name) && value != NoCallback && other != name
    ensures GetModifier(AddModifier(e, name, value).value, name) == Ok(value)
    ensures GetModifier(AddModifier(e, name, value).value, other) == GetModifier(e, other)
  {
  }

  /** A second `addModifier` under the same name replaces the first callback. */
  lemma AddOverwrites(e: Environment, name: string, a: Callback, b: Callback)
    requires ValidName(name)
    ensures AddModifier(AddModifier(e, name, a).value, name, b) == AddModifier(e, name, b)
  {
    assert e.modifiers[name := a][name := b] == e.modifiers[name := b];
  }

  /** Adding a fresh name and removing it again gives back the same registry. */
  lemma AddThenRemove(e: Environment, name: string, value: Callback)
    requires ValidName(name) && name !in e.modifiers
    ensures RemoveModifier(AddModifier(e, name, value).value, name) == e
  {
    assert e.modifiers[name := value] - {name} == e.modifiers;
  }

  /** Removing an absent name changes nothing. */
  lemma RemoveAbsent(e: Environment, name: string)
    requires name !in e.modifiers
    ensures RemoveModifier(e, name) == e
  {
    assert e.modifiers - {name} == e.modifiers;
  }

  /** A name bound to a null callback is reported missing although it is registered. */
  lemma NullCallbackMissing(e: Environment, name: string)
    requires ValidName(name)
    ensures var r := AddModifier(e, name, NoCallback).value;
      name in r.modifiers && GetModifier(r, name) == Err(Exception(MissingMessage(name)))
  {
  }

  /** The names the environment test accepts, and those it rejects. */
  lemma NamingExamples()
    ensures ValidName("a") && ValidName("a_") && ValidName("a9") && ValidName("a_9") && ValidName("a9_")
    ensures !ValidName("9") && !ValidName("_") && !ValidName("du mp") && !ValidName("")
    ensures ValidName("dump\n") && !ValidName("dump\n\n")
  {
    assert Matched("du mp") == "du mp";
    assert !IsWordChar("du mp"[2]);
    assert Matched("dump\n") == "dump";
    assert Matched("dump\n\n") == "dump\n";
    assert !IsWordChar("dump\n"[4]);
  }

  function EnableAutoEscape(e: Environment): Environment { e.(autoEscape := true) }
  function DisableAutoEscape(e: Environment): Environment { e.(autoEscape := false) }
  function EnableAutoReload(e: Environment): Environment { e.(autoReload := true) }
  function DisableAutoReload(e: Environment): Environment { e.(autoReload := false) }
  function EnableDebug(e: Environment): Environment { e.(debug := true) }
  function DisableDebug(e: Environment): Environment { e.(debug := false) }
  function SetCache(e: Environment, cache: string): Environment { e.(cache := cache) }
  function SetCharset(e: Environment, charset: string): Environment { e.(charset := charset) }

  /**
    Each setter changes only its own field: the getters of the other
    fields and the registry read the same, and the setter's own getter
    reads the value set.
   */
  lemma SettersIndependent(e: Environment, cache: string, charset: string)
    ensures EnableAutoEscape(e).autoEscape && !DisableAutoEscape(e).autoEscape
    ensures EnableAutoReload(e).autoReload && !DisableAutoReload(e).autoReload
    ensures EnableDebug(e).debug && !DisableDebug(e).debug
    ensures SetCache(e, cache).cache == cache && SetCharset(e, charset).charset == charset
    ensures forall f :: f in {EnableAutoEscape(e), DisableAutoEscape(e)} ==>
              f.(autoEscape := e.autoEscape) == e
    ensures forall f :: f in {EnableAutoReload(e), DisableAutoReload(e)} ==>
              f.(autoReload := e.autoReload) == e
    ensures forall f :: f in {EnableDebug(e), DisableDebug(e)} ==> f.(debug := e.debug) == e
    ensures SetCache(e, cache).(cache := e.cache) == e && SetCharset(e, charset).(charset := e.charset) == e
  {
  }

  /** Setters of different fields commute, and the last setter of a field wins. */
  lemma SettersCommute(e: Environment, cache: string, charset: string)
    ensures SetCache(SetCharset(e, charset), cache) == SetCharset(SetCache(e, cache), charset)
    ensures EnableDebug(DisableAutoEscape(e)) == DisableAutoEscape(EnableDebug(e))
    ensures DisableDebug(EnableDebug(e)) == DisableDebug(e)
    ensures SetCache(SetCache(e, charset), cache) == SetCache(e, cache)
  {
  }
}
