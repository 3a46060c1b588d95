/**
 * The character-level state machine inside the brace-counting strategy of the
 * response decoder: a nesting depth, an "inside a quoted string" flag and an
 * "escape the next character" flag, advanced one character at a time from the
 * first `{`. The scan stops at the first `}` outside a string that brings the
 * depth back to zero.
 */
module BraceScan {

  /** The three loop variables `brace_count`, `in_string` and `escape_next`. */
  datatype ScanState = ScanState(depth: int, inString: bool, escapeNext: bool)

  /** The state before the first character is read. */
  const Initial := ScanState(0, false, false)

  /** Reading `c` in state `st` completes an object: a `}` outside any string that brings the depth to zero. */
  predicate Closes(st: ScanState, c: char) {
    && !st.escapeNext
    && !(c == '\\' && st.inString)
    && c != '"'
    && !st.inString
    && c == '}'
    && st.depth - 1 == 0
  }

  /** The state after reading `c`; the branches are tried in the order of the source loop. */
  function Step(st: ScanState, c: char): (r: ScanState)
    ensures r.depth != st.depth ==> !st.escapeNext && !st.inString && (c == '{' || c == '}')
  {
    if st.escapeNext then st.(escapeNext := false)
    else if c == '\\' && st.inString then st.(escapeNext := true)
    else if c == '"' then st.(inString := !st.inString)
    else if !st.inString && c == '{' then st.(depth := st.depth + 1)
    else if !st.inString && c == '}' then st.(depth := st.depth - 1)
    else st
  }

  /** How a scan over some text ends: it found the closing `}` at offset `at`, or it ran out of text. */
  datatype ScanResult = Closed(at: nat) | Open(final: ScanState)

  /** Scans `t` from state `st`, stopping at the first closing `}`. */
  function Scan(st: ScanState, t: string): (r: ScanResult)
    ensures r.Closed? ==> r.at < |t| && t[r.at] == '}'
    decreases |t|
  {
    if t == [] then Open(st)
    else if Closes(st, t[0]) then Closed(0)
    else match Scan(Step(st, t[0]), t[1..])
      case Closed(k) => Closed(k + 1)
      case Open(f) => Open(f)
  }

  /** Scanning a concatenation scans the first part and, if it stays open, continues into the second. */
  lemma {:induction false} ScanAppend(st: ScanState, a: string, b: string)
    ensures Scan(st, a + b) ==
      match Scan(st, a)
      case Closed(k) => Closed(k)
      case Open(f) =>
        match Scan(f, b)
        case Closed(k) => Closed(|a| + k)
        case Open(g) => Open(g)
    decreases |a|
  {
    if a == [] {
      assert a + b == b;
    } else {
      assert (a + b)[0] == a[0];
      assert (a + b)[1..] == a[1..] + b;
      if !Closes(st, a[0]) {
        ScanAppend(Step(st, a[0]), a[1..], b);
      }
    }
  }

  /** One more character: the loop step the brace-counting method takes. */
  lemma ScanSnoc(st: ScanState, t: string, c: char)
    requires Scan(st, t).Open?
    ensures Scan(st, t + [c]) ==
      if Closes(Scan(st, t).final, c) then Closed(|t|) else Open(Step(Scan(st, t).final, c))
  {
    ScanAppend(st, t, [c]);
    assert [c][1..] == [];
  }

  /** Text that has been scanned up to its closing `}` scans the same way whatever follows it. */
  lemma ScanClosedPrefix(st: ScanState, t: string, rest: string)
    requires Scan(st, t).Closed?
    ensures Scan(st, t + rest) == Scan(st, t)
  {
    ScanAppend(st, t, rest);
  }

  /**
   * While the scan that began at a `{` is still open, the depth is at least one:
   * `brace_count` never goes negative, and the only way it reaches zero is the
   * closing `}` that ends the scan.
   */
  lemma {:induction false} OpenDepthPositive(st: ScanState, t: string)
    requires st.depth >= 1
    requires Scan(st, t).Open?
    ensures Scan(st, t).final.depth >= 1
    decreases |t|
  {
    if t != [] {
      var next := Step(st, t[0]);
      assert !Closes(st, t[0]);
      assert next.depth >= 1;
      OpenDepthPositive(next, t[1..]);
    }
  }

  /** Scanning from a `{` at depth zero: the state afterwards has depth one. */
  lemma OpeningBrace()
    ensures Scan(Initial, "{") == Open(ScanState(1, false, false))
  {
  }

  /** JSON-style escaping of a string body: `"` and `\` get a backslash in front. */
  function Escape(body: string): (r: string)
    ensures |r| >= |body|
  {
    if body == [] then []
    else (if body[0] == '"' || body[0] == '\\' then ['\\', body[0]] else [body[0]]) + Escape(body[1..])
  }

  /** A JSON string literal holding `body`. */
  function Quote(body: string): string {
    ['"'] + Escape(body) + ['"']
  }

  /** Inside a string, an escaped body never closes the object and leaves the state as it was. */
  lemma {:induction false} EscapedBodyIsInert(d: int, body: string)
    ensures Scan(ScanState(d, true, false), Escape(body)) == Open(ScanState(d, true, false))
    decreases |body|
  {
    var st := ScanState(d, true, false);
    if body != [] {
      var c := body[0];
      var head := if c == '"' || c == '\\' then ['\\', c] else [c];
      assert Escape(body) == head + Escape(body[1..]);
      ScanAppend(st, head, Escape(body[1..]));
      if c == '"' || c == '\\' {
        assert head[1..] == [c];
        assert Scan(Step(st, '\\'), [c]) == Open(st);
      }
      assert Scan(st, head) == Open(st);
      EscapedBodyIsInert(d, body[1..]);
    }
  }

  /**
   * A string literal outside any string changes nothing, whatever braces,
   * quotes or backslashes its body holds.
   */
  lemma QuotedLiteralIsInert(d: int, body: string)
    ensures Scan(ScanState(d, false, false), Quote(body)) == Open(ScanState(d, false, false))
  {
    var st := ScanState(d, false, false);
    var inside := ScanState(d, true, false);
    assert Scan(st, ['"']) == Open(inside);
    ScanAppend(st, ['"'], Escape(body));
    EscapedBodyIsInert(d, body);
    ScanAppend(st, ['"'] + Escape(body), ['"']);
    assert Scan(inside, ['"']) == Open(st);
  }

  /**
   * An object with one string-valued field closes exactly at its own last
   * character, even when the key or the value holds `{`, `}`, `"` or `\`
   * as content.
   */
  lemma StringFieldObjectCloses(key: string, value: string)
    ensures var obj := "{" + Quote(key) + ":" + Quote(value) + "}";
      Scan(Initial, obj) == Closed(|obj| - 1)
  {
    var one := ScanState(1, false, false);
    var a := "{";
    var b := a + Quote(key);
    var c := b + ":";
    var d := c + Quote(value);
    var obj := d + "}";
    OpeningBrace();
    QuotedLiteralIsInert(1, key);
    ScanAppend(Initial, a, Quote(key));
    assert Scan(Initial, b) == Open(one);
    ScanAppend(Initial, b, ":");
    assert Scan(one, ":") == Open(one);
    assert Scan(Initial, c) == Open(one);
    QuotedLiteralIsInert(1, value);
    ScanAppend(Initial, c, Quote(value));
    assert Scan(Initial, d) == Open(one);
    ScanAppend(Initial, d, "}");
    assert Scan(one, "}") == Closed(0);
  }
}
