/**
  `Spoon\Template\Writer`: an append-only buffer of generated PHP code with
  an indentation level and once-per-line `// line N` markers.

  The last marked line starts as PHP `null`; the comparison `$line > null`
  converts both sides to booleans, so the first marker is written for any
  line other than 0.  A fresh writer's source is PHP `null`, which behaves
  as the empty string under `.=`.
 */
module Writers {
  import opened Errors
  import opened Strings

  datatype Writer = Writer(indentation: int, lastLine: Option<int>, source: string)

  /** `new Writer()`. */
  const Fresh: Writer := Writer(0, None, "")

  /** `getSource()`. */
  function Source(w: Writer): string {
    w.source
  }

  /** `indent($level)`. */
  function Indent(w: Writer, level: int): (r: Writer)
    ensures r.indentation == w.indentation + level
    ensures r.lastLine == w.lastLine && r.source == w.source
  {
    w.(indentation := w.indentation + level)
  }

  /** `outdent($level)`: no clamping, the level may go negative. */
  function Outdent(w: Writer, level: int): (r: Writer)
    ensures r.indentation == w.indentation - level
    ensures r.lastLine == w.lastLine && r.source == w.source
  {
    w.(indentation := w.indentation - level)
  }

  /** The tab prefix of every write: one tab per positive level, nothing otherwise. */
  function Prefix(indentation: int): (p: string)
    ensures indentation <= 0 ==> p == ""
    ensures indentation > 0 ==> |p| == indentation && forall k :: 0 <= k < |p| ==> p[k] == '\t'
  {
    if indentation > 0 then Tabs(indentation) else ""
  }

  /** `$line > $this->line`, where the stored line may still be PHP null. */
  predicate LaterThan(line: int, last: Option<int>) {
    if last.None? then line != 0 else line > last.value
  }

  /** The marker text for a line. */
  function Marker(line: int): string {
    "// line " + IntToString(line) + "\n"
  }

  /** `write($value, $line = null)`. */
  function Write(w: Writer, value: string, line: Option<int>): (r: Writer)
    ensures r.indentation == w.indentation
    ensures (line.Some? && LaterThan(line.value, w.lastLine)) <==> r.lastLine != w.lastLine
    ensures r.lastLine != w.lastLine ==> r.lastLine == line
    ensures r.lastLine != w.lastLine ==>
              r.source == w.source + (Prefix(w.indentation) + Marker(line.value) + Prefix(w.indentation) + value)
    ensures r.lastLine == w.lastLine ==> r.source == w.source + (Prefix(w.indentation) + value)
  {
    w.(lastLine := if line.Some? && LaterThan(line.value, w.lastLine) then line else w.lastLine,
       source := w.source + Added(w, value, line))
  }

  /** The text one write appends: a marker line when the line is new, then the prefixed value. */
  function Added(w: Writer, value: string, line: Option<int>): string {
    var prefix := Prefix(w.indentation);
    if line.Some? && LaterThan(line.value, w.lastLine) then prefix + Marker(line.value) + prefix + value
    else prefix + value
  }

  /** Every write ends the buffer with the prefixed value, after at most one marker line. */
  lemma {:induction false} WriteEndsWithValue(w: Writer, value: string, line: Option<int>)
    ensures var r := Write(w, value, line).source; var tail := Prefix(w.indentation) + value;
      && |w.source| + |tail| <= |r| && r[|r| - |tail|..] == tail
      && (line.Some? && LaterThan(line.value, w.lastLine) <==> |r| > |w.source| + |tail|)
      && (|r| > |w.source| + |tail| ==> r[|w.source|..|r| - |tail|] == Prefix(w.indentation) + Marker(line.value))
  {
    var r := Write(w, value, line).source;
    var prefix := Prefix(w.indentation);
    var tail := prefix + value;
    if line.Some? && LaterThan(line.value, w.lastLine) {
      MarkedWrite(w, value, line.value);
      var head := prefix + Marker(line.value);
      Split3(w.source, head, tail);
    } else {
      assert r == w.source + tail;
      Split3(w.source, [], tail);
    }
  }

  /** A write for a new line appends the prefixed marker, then the prefixed value. */
  lemma MarkedWrite(w: Writer, value: string, line: int)
    requires LaterThan(line, w.lastLine)
    ensures |Marker(line)| > 0
    ensures Write(w, value, Some(line)).source
              == w.source + (Prefix(w.indentation) + Marker(line)) + (Prefix(w.indentation) + value)
  {
  }

  /** The buffer is append-only: every write keeps the old source as a prefix. */
  lemma AppendOnly(w: Writer, value: string, line: Option<int>)
    ensures w.source <= Write(w, value, line).source
  {
  }

  /** The last marked line never decreases, once one has been written. */
  lemma LastLineMonotone(w: Writer, value: string, line: Option<int>)
    ensures var r := Write(w, value, line);
      (w.lastLine.Some? ==> r.lastLine.Some? && r.lastLine.value >= w.lastLine.value)
      && (w.lastLine.None? && r.lastLine.Some? ==> r.lastLine.value != 0)
  {
  }

  /** A second write for a line that already has a marker adds only the prefixed text. */
  lemma {:induction false} OneMarkerPerLine(w: Writer, a: string, b: string, line: int)
    ensures var w1 := Write(w, a, Some(line));
      Added(w1, b, Some(line)) == Prefix(w.indentation) + b
  {
    var w1 := Write(w, a, Some(line));
    if LaterThan(line, w.lastLine) {
      assert w1.lastLine == Some(line);
    } else {
      assert w1.lastLine == w.lastLine;
    }
    assert !LaterThan(line, w1.lastLine);
  }

  /** A single plain write to a fresh writer yields exactly the value. */
  lemma FreshWrite(value: string)
    ensures Source(Write(Fresh, value, None)) == value
  {
    assert Prefix(0) == "";
    assert "" + "" + value == value;
  }

  /** Indenting by ten and outdenting by eight leaves two tabs in front of the next write. */
  lemma {:induction false} IndentOutdentExample(value: string)
    ensures Source(Write(Outdent(Indent(Fresh, 10), 8), value, None)) == "\t\t" + value
  {
    assert Tabs(2) == "\t\t";
  }

  /** Outdenting below zero is allowed and simply writes no prefix. */
  lemma OutdentBelowZero(value: string, level: nat)
    requires level > 0
    ensures var w := Outdent(Fresh, level);
      w.indentation < 0 && Source(Write(w, value, None)) == value
  {
    assert "" + "" + value == value;
  }

  /** At indentation 0 a write appends the marker (for a new line) and the value, nothing more. */
  lemma {:induction false} UnindentedWrite(w: Writer, value: string, line: Option<int>)
    requires w.indentation == 0
    ensures line.Some? && LaterThan(line.value, w.lastLine) ==>
              Write(w, value, line) == Writer(0, line, w.source + Marker(line.value) + value)
    ensures !(line.Some? && LaterThan(line.value, w.lastLine)) ==>
              Write(w, value, line) == w.(source := w.source + value)
  {
    assert Prefix(0) == "";
    if line.Some? && LaterThan(line.value, w.lastLine) {
      assert "" + Marker(line.value) + "" + value == Marker(line.value) + value;
      assert w.source + (Marker(line.value) + value) == w.source + Marker(line.value) + value;
    } else {
      assert "" + value == value;
    }
  }

  /** The line-number example: the marker for line 1 once, then one for line 2. */
  lemma LineNumbersExample(a: string, b: string, c: string, d: string)
    ensures Marker(1) == "// line 1\n" && Marker(2) == "// line 2\n"
    ensures var w1 := Write(Fresh, a, Some(1));
            var w2 := Write(w1, b, Some(1));
            var w3 := Write(w2, c, None);
            var w4 := Write(w3, d, Some(2));
      Source(w4) == Marker(1) + a + b + c + Marker(2) + d
  {
    MarkerDigits();
    var w3 := Write(Write(Write(Fresh, a, Some(1)), b, Some(1)), c, None);
    LineOneWrites(a, b, c);
    UnindentedWrite(w3, d, Some(2));
  }

  /** The markers of lines 1 and 2. */
  lemma MarkerDigits()
    ensures Marker(1) == "// line 1\n" && Marker(2) == "// line 2\n"
  {
    assert NatToString(1) == "1";
    assert NatToString(2) == "2";
  }

  /** The first write to a fresh writer for any line but 0: the marker, then the value. */
  lemma FirstWrite(a: string, line: int)
    requires line != 0
    ensures Write(Fresh, a, Some(line)) == Writer(0, Some(line), Marker(line) + a)
  {
    UnindentedWrite(Fresh, a, Some(line));
    assert Fresh.source + Marker(line) + a == Marker(line) + a;
  }

  /** Two writes for line 1 and one without a line: a single marker, then the three values. */
  lemma LineOneWrites(a: string, b: string, c: string)
    ensures Write(Write(Write(Fresh, a, Some(1)), b, Some(1)), c, None) == Writer(0, Some(1), Marker(1) + a + b + c)
  {
    var w1 := Write(Fresh, a, Some(1));
    FirstWrite(a, 1);
    var w2 := Write(w1, b, Some(1));
    UnindentedWrite(w1, b, Some(1));
    assert w2 == Writer(0, Some(1), Marker(1) + a + b);
    UnindentedWrite(w2, c, None);
  }
}
