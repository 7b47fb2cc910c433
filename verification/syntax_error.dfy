/**
  Message composition of `Spoon\Template\SyntaxError`: the constructor
  appends " on line N" when a line is given and then " in F" when a
  filename is given.
 */
module SyntaxErrors {
  import opened Errors
  import opened Strings

  predicate EndsWith(s: string, suffix: string) {
    |suffix| <= |s| && s[|s| - |suffix|..] == suffix
  }

  function LineSuffix(line: Option<int>): string {
    if line.Some? then " on line " + IntToString(line.value) else ""
  }

  function FileSuffix(filename: Option<string>): string {
    if filename.Some? then " in " + filename.value else ""
  }

  /** The message a SyntaxError carries after construction. */
  function Compose(message: string, line: Option<int>, filename: Option<string>): string {
    message + LineSuffix(line) + FileSuffix(filename)
  }

  /**
    The composed message starts with the given one; it is unchanged exactly
    when neither a line nor a filename is given; the filename, when given,
    comes last; the line, when given, comes right after the message.
   */
  lemma ComposeShape(message: string, line: Option<int>, filename: Option<string>)
    ensures var r := Compose(message, line, filename);
      && message <= r
      && (r == message <==> line.None? && filename.None?)
      && (filename.Some? ==> EndsWith(r, " in " + filename.value))
      && (line.Some? && filename.None? ==> EndsWith(r, " on line " + IntToString(line.value)))
      && (line.Some? ==> (" on line " + IntToString(line.value)) <= r[|message|..])
  {
  }

  /** Errors raised with the lexer/parser position: the SyntaxError kind with the composed message. */
  function Raise(message: string, line: int, filename: Option<string>): Error {
    SyntaxError(Compose(message, Some(line), filename))
  }

  /** A raised error is a SyntaxError whose message starts with the given one and ends with the position. */
  lemma RaiseShape(message: string, line: int, filename: Option<string>)
    ensures var e := Raise(message, line, filename);
      && e.SyntaxError? && message <= e.message
      && EndsWith(e.message, LineSuffix(Some(line)) + FileSuffix(filename))
  {
    EndsWithAppended(message, LineSuffix(Some(line)), FileSuffix(filename));
  }

  /** A string with two parts appended ends with the two parts. */
  lemma EndsWithAppended(m: string, a: string, b: string)
    ensures EndsWith(m + a + b, a + b)
  {
    assert m + a + b == m + (a + b);
    assert (m + (a + b))[|m|..] == a + b;
  }
}
