/**
 * The robust response decoder: five extraction strategies tried in a fixed
 * order (direct parse, fenced code blocks, line-anchored scan, brace
 * counting, permissive patterns), the strict action-schema validator and the
 * multi-object extractor.
 *
 * `json.loads` is the oracle `parse` (None stands for JSONDecodeError); the
 * regular-expression searches of the code-block and pattern strategies are
 * oracles that list their matches in pattern order.
 */
module JsonParser {

  import opened Wrappers
  import opened Text
  import opened PyValue
  import opened BraceScan

  /** The foreign engines the decoder calls. */
  datatype Oracles = Oracles(
    parse: string -> Option<Value>,
    codeBlockMatches: string -> seq<string>,
    regexMatches: string -> seq<string>)

  /** `if result:` on what a strategy returned: a dict that is present and not empty. */
  predicate Found(r: Option<Object>) {
    r.Some? && |r.value| > 0
  }

  // ---------------------------------------------------------------------------
  // Strategy 1: direct parse

  /** `_try_direct_parse`: the parse result, kept only when it is a JSON object. */
  function TryDirectParse(parse: string -> Option<Value>, s: string): (r: Option<Object>)
    ensures r.Some? <==> parse(s).Some? && parse(s).value.Obj?
    ensures r.Some? ==> parse(s) == Some(Obj(r.value))
  {
    match parse(s)
    case Some(Obj(m)) => Some(m)
    case _ => None
  }

  // ---------------------------------------------------------------------------
  // Strategies 2 and 5: the first match of a list of pattern matches that parses

  /** The parse of candidate `c`, stripped first when `strip` is set. */
  function CandidateResult(parse: string -> Option<Value>, c: string, strip: bool): Option<Object> {
    TryDirectParse(parse, if strip then Strip(c) else c)
  }

  /** The parse of the first candidate that gives a non-empty object. */
  function FirstParsed(parse: string -> Option<Value>, cands: seq<string>, strip: bool): (r: Option<Object>)
    ensures r.Some? ==> Found(r) && exists k :: 0 <= k < |cands| && CandidateResult(parse, cands[k], strip) == r
    decreases |cands|
  {
    if cands == [] then None
    else if Found(CandidateResult(parse, cands[0], strip)) then CandidateResult(parse, cands[0], strip)
    else
      var rest := FirstParsed(parse, cands[1..], strip);
      assert rest.Some? ==> exists k :: 1 <= k < |cands| && CandidateResult(parse, cands[k], strip) == rest by {
        if rest.Some? {
          var k :| 0 <= k < |cands[1..]| && CandidateResult(parse, cands[1..][k], strip) == rest;
          assert cands[1..][k] == cands[k + 1];
        }
      }
      rest
  }

  /** When candidate `k` parses and none before it does, the strategy returns candidate `k`'s parse. */
  lemma {:induction false} FirstParsedIsFirst(parse: string -> Option<Value>, cands: seq<string>, strip: bool, k: nat)
    requires k < |cands| && Found(CandidateResult(parse, cands[k], strip))
    requires forall j :: 0 <= j < k ==> !Found(CandidateResult(parse, cands[j], strip))
    ensures FirstParsed(parse, cands, strip) == CandidateResult(parse, cands[k], strip)
    decreases k
  {
    if k > 0 {
      assert !Found(CandidateResult(parse, cands[0], strip));
      assert forall j :: 0 <= j < k - 1 ==> cands[1..][j] == cands[j + 1];
      FirstParsedIsFirst(parse, cands[1..], strip, k - 1);
    }
  }

  /** The strategy finds nothing exactly when no candidate parses to a non-empty object. */
  lemma {:induction false} FirstParsedNone(parse: string -> Option<Value>, cands: seq<string>, strip: bool)
    ensures FirstParsed(parse, cands, strip).None? <==>
      forall k :: 0 <= k < |cands| ==> !Found(CandidateResult(parse, cands[k], strip))
    decreases |cands|
  {
    if cands != [] {
      FirstParsedNone(parse, cands[1..], strip);
      assert forall k :: 1 <= k < |cands| ==> cands[1..][k - 1] == cands[k];
    }
  }

  /**
   * `_extract_from_code_blocks`: the first fenced or back-quoted span whose
   * stripped text parses; what it returns is a non-empty dict parsed from
   * one of the spans.
   */
  function ExtractFromCodeBlocks(o: Oracles, content: string): (r: Option<Object>)
    ensures r.Some? ==> Found(r) && exists t :: t in o.codeBlockMatches(content) && TryDirectParse(o.parse, Strip(t)) == r
  {
    FirstParsed(o.parse, o.codeBlockMatches(content), true)
  }

  /**
   * `_extract_with_regex`: the first permissive-pattern match that parses
   * as it stands; what it returns is a non-empty dict parsed from one of
   * the matches, unstripped.
   */
  function ExtractWithRegex(o: Oracles, content: string): (r: Option<Object>)
    ensures r.Some? ==> Found(r) && exists t :: t in o.regexMatches(content) && TryDirectParse(o.parse, t) == r
  {
    FirstParsed(o.parse, o.regexMatches(content), false)
  }

  // ---------------------------------------------------------------------------
  // Strategy 3: line-anchored scan

  /** A line whose stripped text begins with `{`. */
  predicate OpensObject(line: string) {
    StartsWith(Strip(line), "{")
  }

  /** The result of parsing lines `i..j`, joined by newlines and stripped. */
  function RangeResult(parse: string -> Option<Value>, lines: seq<string>, i: nat, j: nat): Option<Object>
    requires i <= j < |lines|
  {
    TryDirectParse(parse, Strip(Join(lines[i..j + 1], '\n')))
  }

  /**
   * The last line of the shortest range that starts at line `i`, ends at or
   * after line `j` and parses to a non-empty object.
   */
  function FirstEnd(parse: string -> Option<Value>, lines: seq<string>, i: nat, j: nat): (r: Option<nat>)
    requires i <= j <= |lines|
    ensures r.Some? ==> j <= r.value < |lines| && Found(RangeResult(parse, lines, i, r.value))
    decreases |lines| - j
  {
    if j == |lines| then None
    else if Found(RangeResult(parse, lines, i, j)) then Some(j)
    else FirstEnd(parse, lines, i, j + 1)
  }

  /** No range from line `i` that parses ends before the one the inner loop returns. */
  lemma {:induction false} FirstEndIsShortest(parse: string -> Option<Value>, lines: seq<string>, i: nat, j: nat, e: nat)
    requires i <= j <= e < |lines| && Found(RangeResult(parse, lines, i, e))
    ensures FirstEnd(parse, lines, i, j).Some? && FirstEnd(parse, lines, i, j).value <= e
    decreases e - j
  {
    if j < e && !Found(RangeResult(parse, lines, i, j)) {
      FirstEndIsShortest(parse, lines, i, j + 1, e);
    }
  }

  /**
   * The first line from `i` on that opens an object and starts a range that
   * parses, with the end of that range; every earlier opening line starts no
   * range that parses.
   */
  function FirstStart(parse: string -> Option<Value>, lines: seq<string>, i: nat): (r: Option<(nat, nat)>)
    requires i <= |lines|
    ensures r.Some? ==>
      && i <= r.value.0 < |lines| && OpensObject(lines[r.value.0])
      && FirstEnd(parse, lines, r.value.0, r.value.0) == Some(r.value.1)
    decreases |lines| - i
  {
    if i == |lines| then None
    else if OpensObject(lines[i]) && FirstEnd(parse, lines, i, i).Some? then Some((i, FirstEnd(parse, lines, i, i).value))
    else FirstStart(parse, lines, i + 1)
  }

  /** No line before the one the outer loop settles on opens an object and starts a range that parses. */
  lemma {:induction false} FirstStartIsEarliest(parse: string -> Option<Value>, lines: seq<string>, i: nat, s: nat)
    requires i <= s < |lines| && OpensObject(lines[s]) && FirstEnd(parse, lines, s, s).Some?
    ensures FirstStart(parse, lines, i).Some? && FirstStart(parse, lines, i).value.0 <= s
    decreases s - i
  {
    if i < s && !(OpensObject(lines[i]) && FirstEnd(parse, lines, i, i).Some?) {
      FirstStartIsEarliest(parse, lines, i + 1, s);
    }
  }

  /** Lines `a..b` start with a line that opens an object and give `r`. */
  predicate LinesParse(parse: string -> Option<Value>, lines: seq<string>, a: int, b: int, r: Option<Object>) {
    0 <= a <= b < |lines| && OpensObject(lines[a]) && RangeResult(parse, lines, a, b) == r
  }

  /**
   * What `_find_json_in_text` returns for `content`: when anything, a
   * non-empty dict parsed from a range of lines whose first line opens an
   * object.
   */
  function LineScan(parse: string -> Option<Value>, content: string): (r: Option<Object>)
    ensures r.Some? ==> Found(r)
    ensures r.Some? ==> exists a, b :: LinesParse(parse, Split(content, '\n'), a, b, r)
  {
    var lines := Split(content, '\n');
    match FirstStart(parse, lines, 0)
    case None => None
    case Some((s, e)) =>
      assert FirstEnd(parse, lines, s, s) == Some(e);
      assert LinesParse(parse, lines, s, e, RangeResult(parse, lines, s, e));
      RangeResult(parse, lines, s, e)
  }

  /**
   * Whenever some range starting on a line that opens an object parses to a
   * non-empty object, the line scan succeeds, and the range it takes starts
   * on an earlier line, or on the same line and ends no later.
   */
  lemma LineScanTakesEarliestRange(parse: string -> Option<Value>, content: string, s: nat, e: nat)
    requires s <= e < |Split(content, '\n')|
    requires OpensObject(Split(content, '\n')[s])
    requires Found(RangeResult(parse, Split(content, '\n'), s, e))
    ensures LineScan(parse, content).Some?
    ensures FirstStart(parse, Split(content, '\n'), 0).Some?
    ensures var (s0, e0) := FirstStart(parse, Split(content, '\n'), 0).value;
      s0 < s || (s0 == s && e0 <= e)
  {
    var lines := Split(content, '\n');
    FirstEndIsShortest(parse, lines, s, s, e);
    FirstStartIsEarliest(parse, lines, 0, s);
    var (s0, e0) := FirstStart(parse, lines, 0).value;
    if s0 == s {
      assert e0 == FirstEnd(parse, lines, s, s).value;
    }
  }

  /** The parse of the shortest range from line `i` that parses, if any. */
  function RangesFrom(parse: string -> Option<Value>, lines: seq<string>, i: nat): Option<Object>
    requires i < |lines|
  {
    match FirstEnd(parse, lines, i, i)
    case None => None
    case Some(e) => RangeResult(parse, lines, i, e)
  }

  /** The inner loop of `_find_json_in_text`: widen the range from line `i` one line at a time. */
  method TryRangesFrom(parse: string -> Option<Value>, lines: seq<string>, i: nat) returns (r: Option<Object>)
    requires i < |lines|
    ensures r == RangesFrom(parse, lines, i)
  {
    var j := i;
    while j < |lines|
      invariant i <= j <= |lines|
      invariant FirstEnd(parse, lines, i, j) == FirstEnd(parse, lines, i, i)
    {
      var result := RangeResult(parse, lines, i, j);
      if Found(result) {
        return result;
      }
      j := j + 1;
    }
    return None;
  }

  /** `_find_json_in_text`: the outer loop over the lines. */
  method FindJsonInText(parse: string -> Option<Value>, content: string) returns (r: Option<Object>)
    ensures r == LineScan(parse, content)
  {
    var lines := Split(content, '\n');
    var i := 0;
    while i < |lines|
      invariant 0 <= i <= |lines|
      invariant FirstStart(parse, lines, i) == FirstStart(parse, lines, 0)
    {
      if OpensObject(lines[i]) {
        var result := TryRangesFrom(parse, lines, i);
        if Found(result) {
          return result;
        }
      }
      i := i + 1;
    }
    return None;
  }

  // ---------------------------------------------------------------------------
  // Strategy 4: brace counting

  /**
   * The span the brace strategy looks at: the first `{` and the offset of the
   * `}` that brings the depth back to zero, if the text has both.
   */
  function FirstSpan(content: string): (r: Option<(nat, nat)>)
    ensures r.Some? ==>
      && r.value.0 < r.value.1 < |content|
      && Find(content, '{') == Some(r.value.0)
      && content[r.value.0] == '{' && content[r.value.1] == '}'
      && Scan(Initial, content[r.value.0..]) == Closed(r.value.1 - r.value.0)
    ensures r.None? <==> Find(content, '{').None? || Scan(Initial, content[Find(content, '{').value..]).Open?
  {
    match Find(content, '{')
    case None => None
    case Some(start) =>
      match Scan(Initial, content[start..])
      case Open(_) => None
      case Closed(k) =>
        assert content[start..][k] == content[start + k];
        assert k > 0 by {
          if k == 0 { assert content[start..][0] == content[start]; }
        }
        Some((start, start + k))
  }

  /** The first span is fixed by its `{`, which has no `{` before it, and the offset at which the scan from there closes. */
  lemma FirstSpanAt(content: string, i: nat, j: nat)
    requires i <= j < |content| && content[i] == '{' && '{' !in content[..i]
    requires Scan(Initial, content[i..]) == Closed(j - i)
    ensures FirstSpan(content) == Some((i, j))
  {
    FindAt(content, '{', i);
  }

  /**
   * What `_extract_with_brace_counting` returns: the first span, parsed; if
   * that one span does not give a non-empty object, nothing (later spans are
   * never tried).
   */
  function BraceCount(parse: string -> Option<Value>, content: string): (r: Option<Object>)
    ensures r.Some? ==> Found(r) && FirstSpan(content).Some?
    ensures '{' !in content ==> r.None?
  {
    match FirstSpan(content)
    case None => None
    case Some((i, j)) =>
      var r := TryDirectParse(parse, content[i..j + 1]);
      if Found(r) then r else None
  }

  /** The brace strategy's result when the first span is known. */
  lemma BraceCountAt(parse: string -> Option<Value>, content: string, i: nat, j: nat)
    requires i <= j < |content| && content[i] == '{' && '{' !in content[..i]
    requires Scan(Initial, content[i..]) == Closed(j - i)
    ensures BraceCount(parse, content) == (if Found(TryDirectParse(parse, content[i..j + 1])) then TryDirectParse(parse, content[i..j + 1]) else None)
  {
    FirstSpanAt(content, i, j);
  }

  /** A brace-strategy result is a non-empty object parsed from a span of the text that runs from its first `{` to a `}`. */
  lemma BraceCountFromSpan(parse: string -> Option<Value>, content: string)
    ensures BraceCount(parse, content).Some? ==>
      && FirstSpan(content).Some?
      && Found(BraceCount(parse, content))
      && parse(content[FirstSpan(content).value.0..FirstSpan(content).value.1 + 1]) == Some(Obj(BraceCount(parse, content).value))
  {
  }

  /** One character of the scan inside `content`, taking the scan from offset `start` up to `i`. */
  lemma ScanStepAt(content: string, start: nat, i: nat, st: ScanState)
    requires start <= i < |content|
    requires Scan(Initial, content[start..i]) == Open(st)
    ensures Scan(Initial, content[start..i + 1]) ==
      if Closes(st, content[i]) then Closed(i - start) else Open(Step(st, content[i]))
  {
    ScanSnoc(Initial, content[start..i], content[i]);
    assert content[start..i + 1] == content[start..i] + [content[i]];
  }

  /** When the scan from `start` closes at `i`, it closes there for the whole rest of the text too. */
  lemma ScanClosedAt(content: string, start: nat, i: nat)
    requires start <= i < |content|
    requires Scan(Initial, content[start..i + 1]) == Closed(i - start)
    ensures Scan(Initial, content[start..]) == Closed(i - start)
  {
    ScanClosedPrefix(Initial, content[start..i + 1], content[i + 1..]);
    assert content[start..i + 1] + content[i + 1..] == content[start..];
  }

  /** `_extract_with_brace_counting`: the character loop with its three state variables. */
  method ExtractWithBraceCounting(parse: string -> Option<Value>, content: string) returns (r: Option<Object>)
    ensures r == BraceCount(parse, content)
  {
    var found := Find(content, '{');
    if found.None? {
      return None;
    }
    var startIdx := found.value;
    var braceCount := 0;
    var inString := false;
    var escapeNext := false;
    var i := startIdx;
    assert content[startIdx..i] == [];
    while i < |content|
      invariant startIdx <= i <= |content|
      invariant Scan(Initial, content[startIdx..i]) == Open(ScanState(braceCount, inString, escapeNext))
    {
      var c := content[i];
      ScanStepAt(content, startIdx, i, ScanState(braceCount, inString, escapeNext));
      if escapeNext {
        escapeNext := false;
      } else if c == '\\' && inString {
        escapeNext := true;
      } else if c == '"' {
        inString := !inString;
      } else if !inString {
        if c == '{' {
          braceCount := braceCount + 1;
        } else if c == '}' {
          braceCount := braceCount - 1;
          if braceCount == 0 {
            ScanClosedAt(content, startIdx, i);
            BraceCountAt(parse, content, startIdx, i);
            var jsonStr := content[startIdx..i + 1];
            var result := TryDirectParse(parse, jsonStr);
            if Found(result) {
              return result;
            }
            break;
          }
        }
      }
      i := i + 1;
    }
    if i == |content| {
      assert content[startIdx..i] == content[startIdx..];
    }
    return None;
  }

  /** The three pieces of a concatenation, taken back out by slicing. */
  lemma ConcatSlices(a: string, b: string, c: string)
    ensures (a + b + c)[..|a|] == a
    ensures (a + b + c)[|a|..] == b + c
    ensures (a + b + c)[|a|..|a| + |b|] == b
  {
    assert a + b + c == a + (b + c);
  }

  /**
   * Surrounding prose does not matter: when the text before the object holds
   * no `{`, and the object closes at its own last character, the brace
   * strategy yields exactly what the object parses to.
   */
  lemma BraceCountIgnoresProse(parse: string -> Option<Value>, prose: string, obj: string, rest: string, m: Object)
    requires '{' !in prose
    requires |obj| > 0 && obj[0] == '{'
    requires Scan(Initial, obj) == Closed(|obj| - 1)
    requires parse(obj) == Some(Obj(m)) && |m| > 0
    ensures BraceCount(parse, prose + obj + rest) == Some(m)
  {
    var content := prose + obj + rest;
    var i, j := |prose|, |prose| + |obj| - 1;
    ConcatSlices(prose, obj, rest);
    ScanClosedPrefix(Initial, obj, rest);
    BraceCountAt(parse, content, i, j);
  }

  /**
   * The brace strategy looks no further than the first complete span: once the
   * scan from the first `{` has closed inside `content`, appending anything
   * leaves the result unchanged (in particular a failed first span stays a
   * failure).
   */
  lemma BraceCountStopsAtFirstSpan(parse: string -> Option<Value>, content: string, more: string)
    requires FirstSpan(content).Some?
    ensures BraceCount(parse, content + more) == BraceCount(parse, content)
  {
    var (i, j) := FirstSpan(content).value;
    var all := content + more;
    assert all[..i] == content[..i];
    assert all[i..] == content[i..] + more;
    ScanClosedPrefix(Initial, content[i..], more);
    assert all[i..j + 1] == content[i..j + 1];
    BraceCountAt(parse, all, i, j);
    BraceCountAt(parse, content, i, j);
  }

  /**
   * The case the brace strategy exists for: an object with a string field
   * whose value holds braces, quotes or backslashes (for example the
   * characters `{ "a" }`), embedded in prose without `{`, is recovered whole.
   */
  lemma BraceCountRecoversStringField(parse: string -> Option<Value>, prose: string, key: string, value: string, rest: string, m: Object)
    requires '{' !in prose
    requires parse("{" + Quote(key) + ":" + Quote(value) + "}") == Some(Obj(m))
    requires |m| > 0
    ensures BraceCount(parse, prose + ("{" + Quote(key) + ":" + Quote(value) + "}") + rest) == Some(m)
  {
    StringFieldObjectCloses(key, value);
    BraceCountIgnoresProse(parse, prose, "{" + Quote(key) + ":" + Quote(value) + "}", rest, m);
  }

  // ---------------------------------------------------------------------------
  // The strategy chain

  /** The five strategy results, in the order they are tried. */
  function Strategies(o: Oracles, text: string): (rs: seq<Option<Object>>)
    ensures |rs| == 5
    ensures forall r | r in rs[1..] :: r.None? || Found(r)
  {
    [ TryDirectParse(o.parse, text),
      ExtractFromCodeBlocks(o, text),
      LineScan(o.parse, text),
      BraceCount(o.parse, text),
      ExtractWithRegex(o, text) ]
  }

  /** The first result that is a non-empty dict. */
  function FirstFound(rs: seq<Option<Object>>): (r: Option<Object>)
    ensures r.Some? ==> Found(r) && r in rs
  {
    if rs == [] then None
    else if Found(rs[0]) then rs[0]
    else FirstFound(rs[1..])
  }

  /** When result `k` is a non-empty dict and none before it is, the chain returns result `k`. */
  lemma {:induction false} FirstFoundIsFirst(rs: seq<Option<Object>>, k: nat)
    requires k < |rs| && Found(rs[k])
    requires forall j :: 0 <= j < k ==> !Found(rs[j])
    ensures FirstFound(rs) == rs[k]
    decreases k
  {
    if k > 0 {
      assert !Found(rs[0]);
      assert forall j :: 0 <= j < k - 1 ==> rs[1..][j] == rs[j + 1];
      FirstFoundIsFirst(rs[1..], k - 1);
    }
  }

  /** What `parse_llm_response` returns: nothing for empty or non-string input, else the first strategy that succeeds on the stripped text. */
  function Decode(o: Oracles, content: Value): (r: Option<Object>)
    ensures !content.Str? || content.s == [] ==> r.None?
    ensures r.Some? ==> Found(r) && r in Strategies(o, Strip(content.s))
  {
    if !content.Str? || content.s == [] then None
    else FirstFound(Strategies(o, Strip(content.s)))
  }

  /** `parse_llm_response`. */
  method ParseLlmResponse(o: Oracles, content: Value) returns (r: Option<Object>)
    ensures r == Decode(o, content)
  {
    if !content.Str? || content.s == [] {
      return None;
    }
    var text := Strip(content.s);
    ghost var rs := Strategies(o, text);
    r := TryDirectParse(o.parse, text);
    if Found(r) {
      return r;
    }
    assert FirstFound(rs) == FirstFound(rs[1..]);
    r := ExtractFromCodeBlocks(o, text);
    if Found(r) {
      return r;
    }
    assert FirstFound(rs[1..]) == FirstFound(rs[2..]);
    r := FindJsonInText(o.parse, text);
    if Found(r) {
      return r;
    }
    assert FirstFound(rs[2..]) == FirstFound(rs[3..]);
    r := ExtractWithBraceCounting(o.parse, text);
    if Found(r) {
      return r;
    }
    assert FirstFound(rs[3..]) == FirstFound(rs[4..]);
    r := ExtractWithRegex(o, text);
    if Found(r) {
      return r;
    }
    assert FirstFound(rs[4..]) == FirstFound(rs[5..]);
    return None;
  }

  /** `m` is what the JSON engine gives for some text. */
  ghost predicate ParsedFrom(parse: string -> Option<Value>, m: Object) {
    exists t :: parse(t) == Some(Obj(m))
  }

  /** A pattern strategy's result is the engine's parse of one of the matches. */
  lemma CandidatesOnlyParse(parse: string -> Option<Value>, cands: seq<string>, strip: bool)
    ensures FirstParsed(parse, cands, strip).Some? ==> ParsedFrom(parse, FirstParsed(parse, cands, strip).value)
  {
    var r := FirstParsed(parse, cands, strip);
    if r.Some? {
      var c :| 0 <= c < |cands| && CandidateResult(parse, cands[c], strip) == r;
      assert parse(if strip then Strip(cands[c]) else cands[c]) == Some(Obj(r.value));
    }
  }

  /** The line scan's result is the engine's parse of a range of lines. */
  lemma LineScanOnlyParses(parse: string -> Option<Value>, text: string)
    ensures LineScan(parse, text).Some? ==> ParsedFrom(parse, LineScan(parse, text).value)
  {
    var lines := Split(text, '\n');
    if LineScan(parse, text).Some? {
      var (a, b) := FirstStart(parse, lines, 0).value;
      assert parse(Strip(Join(lines[a..b + 1], '\n'))) == Some(Obj(LineScan(parse, text).value));
    }
  }

  /** The brace strategy's result is the engine's parse of the first span. */
  lemma BraceCountOnlyParses(parse: string -> Option<Value>, text: string)
    ensures BraceCount(parse, text).Some? ==> ParsedFrom(parse, BraceCount(parse, text).value)
  {
    if BraceCount(parse, text).Some? {
      var (i, j) := FirstSpan(text).value;
      assert parse(text[i..j + 1]) == Some(Obj(BraceCount(parse, text).value));
    }
  }

  /** No strategy invents an object: each result is the engine's parse of some text. */
  lemma StrategiesOnlyParse(o: Oracles, text: string, k: nat)
    requires k < 5 && Strategies(o, text)[k].Some?
    ensures ParsedFrom(o.parse, Strategies(o, text)[k].value)
  {
    if k == 0 {
      assert o.parse(text) == Some(Obj(Strategies(o, text)[0].value));
    } else if k == 1 {
      CandidatesOnlyParse(o.parse, o.codeBlockMatches(text), true);
    } else if k == 2 {
      LineScanOnlyParses(o.parse, text);
    } else if k == 3 {
      BraceCountOnlyParses(o.parse, text);
    } else {
      CandidatesOnlyParse(o.parse, o.regexMatches(text), false);
    }
  }

  /**
   * The decoder never invents a command: empty or non-string input gives
   * nothing, and any result is a non-empty object that the JSON engine
   * produced from some piece of the input.
   */
  lemma DecodeNeverFabricates(o: Oracles, content: Value)
    ensures (!content.Str? || content.s == []) ==> Decode(o, content).None?
    ensures Decode(o, content).Some? ==> |Decode(o, content).value| > 0 && ParsedFrom(o.parse, Decode(o, content).value)
  {
    var r := Decode(o, content);
    if r.Some? {
      var rs := Strategies(o, Strip(content.s));
      var k :| 0 <= k < |rs| && rs[k] == r;
      StrategiesOnlyParse(o, Strip(content.s), k);
    }
  }

  /**
   * The strategies are tried in precision order: when strategy `k` finds a
   * non-empty object and every strategy before it finds nothing (an empty
   * object `{}` counts as nothing), the decoder returns strategy `k`'s result.
   */
  lemma DecodeIsFirstSuccess(o: Oracles, text: string, k: nat)
    requires text != [] && k < 5
    requires Found(Strategies(o, Strip(text))[k])
    requires forall j :: 0 <= j < k ==> !Found(Strategies(o, Strip(text))[j])
    ensures Decode(o, Str(text)) == Strategies(o, Strip(text))[k]
  {
    FirstFoundIsFirst(Strategies(o, Strip(text)), k);
  }

  // ---------------------------------------------------------------------------
  // The action schema

  /** The twelve command kinds of `valid_actions`. */
  datatype ActionKind =
    | Click | DoubleClick | RightClick | TypeText | KeyPress | Scroll
    | MoveMouse | Navigate | Wait | NextPrompt | Complete | Error

  /** The discriminator string of each kind. */
  function KindName(k: ActionKind): string {
    match k
    case Click => "click"
    case DoubleClick => "double_click"
    case RightClick => "right_click"
    case TypeText => "type"
    case KeyPress => "key"
    case Scroll => "scroll"
    case MoveMouse => "move_mouse"
    case Navigate => "navigate"
    case Wait => "wait"
    case NextPrompt => "next_prompt"
    case Complete => "complete"
    case Error => "error"
  }

  /** `action in valid_actions` and the kind it names. */
  function ParseKind(s: string): Option<ActionKind> {
    if s == "click" then Some(Click)
    else if s == "double_click" then Some(DoubleClick)
    else if s == "right_click" then Some(RightClick)
    else if s == "type" then Some(TypeText)
    else if s == "key" then Some(KeyPress)
    else if s == "scroll" then Some(Scroll)
    else if s == "move_mouse" then Some(MoveMouse)
    else if s == "navigate" then Some(Navigate)
    else if s == "wait" then Some(Wait)
    else if s == "next_prompt" then Some(NextPrompt)
    else if s == "complete" then Some(Complete)
    else if s == "error" then Some(Error)
    else None
  }

  /** The required fields of each kind in `valid_actions`. */
  function RequiredFields(k: ActionKind): seq<string> {
    match k
    case Click | DoubleClick | RightClick | MoveMouse => ["x", "y"]
    case TypeText => ["text"]
    case KeyPress => ["key"]
    case Scroll => ["x", "y", "clicks"]
    case Navigate => ["url"]
    case Wait => ["seconds"]
    case NextPrompt => ["prompt"]
    case Complete => []
    case Error => ["message"]
  }

  /** The table is exactly the twelve kinds: a name is accepted iff it is the name of a kind. */
  lemma KindTableRoundTrip(k: ActionKind, s: string)
    ensures ParseKind(KindName(k)) == Some(k)
    ensures ParseKind(s) == Some(k) ==> KindName(k) == s
  {
  }

  /** `m["action"]` is the name of kind `k` and `m` holds every field `k` requires. */
  predicate ActionNames(m: Object, k: ActionKind) {
    "action" in m && m["action"] == Str(KindName(k)) && forall f :: f in RequiredFields(k) ==> f in m
  }

  /**
   * `validate_action_data`: what it accepts is a dict whose `action` is the
   * name of a kind and which holds every field that kind requires.
   */
  predicate ValidateActionData(data: Value): (ok: bool)
    ensures ok ==> data.Obj? && "action" in data.fields && exists k :: ActionNames(data.fields, k)
  {
    && data.Obj?
    && "action" in data.fields
    && data.fields["action"].Str?
    && ParseKind(data.fields["action"].s).Some?
    && var kind := ParseKind(data.fields["action"].s).value;
       KindTableRoundTrip(kind, data.fields["action"].s);
       assert (forall f :: f in RequiredFields(kind) ==> f in data.fields) ==> ActionNames(data.fields, kind);
       forall f :: f in RequiredFields(kind) ==> f in data.fields
  }

  /**
   * Validation holds exactly when the data is a dict whose `action` is the
   * name of one of the twelve kinds and which has every field that kind
   * requires (`complete` requires none).
   */
  lemma ValidateActionDataIff(data: Value)
    ensures ValidateActionData(data) <==>
      data.Obj? && exists k: ActionKind ::
        && Get(data.fields, "action", Null) == Str(KindName(k))
        && forall f :: f in RequiredFields(k) ==> f in data.fields
  {
    if ValidateActionData(data) {
      var k := ParseKind(data.fields["action"].s).value;
      KindTableRoundTrip(k, data.fields["action"].s);
      assert Get(data.fields, "action", Null) == Str(KindName(k));
    }
    if data.Obj? && exists k: ActionKind ::
        (Get(data.fields, "action", Null) == Str(KindName(k)) && forall f :: f in RequiredFields(k) ==> f in data.fields) {
      var k: ActionKind :|
        Get(data.fields, "action", Null) == Str(KindName(k)) && forall f :: f in RequiredFields(k) ==> f in data.fields;
      KindTableRoundTrip(k, KindName(k));
    }
  }

  // ---------------------------------------------------------------------------
  // Several objects in one response

  /** The positions below `n` that hold `{`, in increasing order. */
  function BracePositions(s: string, n: nat): (ps: seq<nat>)
    requires n <= |s|
    ensures |ps| == CountChar(s[..n], '{')
  {
    if n == 0 then []
    else
      var prev := BracePositions(s, n - 1);
      CountCharSnoc(s[..n - 1], s[n - 1], '{');
      assert s[..n] == s[..n - 1] + [s[n - 1]];
      prev + (if s[n - 1] == '{' then [n - 1] else [])
  }

  /** Every listed position holds a `{`, and every `{` below `n` is listed. */
  lemma {:induction false} BracePositionsExact(s: string, n: nat)
    requires n <= |s|
    ensures forall k :: 0 <= k < |BracePositions(s, n)| ==> BracePositions(s, n)[k] < n && s[BracePositions(s, n)[k]] == '{'
    ensures forall p :: 0 <= p < n && s[p] == '{' ==> p in BracePositions(s, n)
  {
    if n > 0 {
      BracePositionsExact(s, n - 1);
    }
  }

  /** The objects found from the given start positions, in order, each brace-counted and validated. */
  function Collect(parse: string -> Option<Value>, content: string, ps: seq<nat>): (objs: seq<Object>)
    requires forall k :: 0 <= k < |ps| ==> ps[k] <= |content|
    ensures |objs| <= |ps|
    decreases |ps|
  {
    if ps == [] then []
    else
      var prev := Collect(parse, content, ps[..|ps| - 1]);
      var r := BraceCount(parse, content[ps[|ps| - 1]..]);
      if Found(r) && ValidateActionData(Obj(r.value)) then prev + [r.value] else prev
  }

  /** Each collected object validates and is the brace-strategy result from one of the positions. */
  lemma {:induction false} CollectSound(parse: string -> Option<Value>, content: string, ps: seq<nat>)
    requires forall k :: 0 <= k < |ps| ==> ps[k] <= |content|
    ensures forall x :: x in Collect(parse, content, ps) ==>
      ValidateActionData(Obj(x)) && exists k :: 0 <= k < |ps| && BraceCount(parse, content[ps[k]..]) == Some(x)
    decreases |ps|
  {
    if ps != [] {
      var init := ps[..|ps| - 1];
      CollectSound(parse, content, init);
      forall x | x in Collect(parse, content, init)
        ensures exists k :: 0 <= k < |ps| && BraceCount(parse, content[ps[k]..]) == Some(x)
      {
        var k :| 0 <= k < |init| && BraceCount(parse, content[init[k]..]) == Some(x);
        assert init[k] == ps[k];
      }
    }
  }

  /** Each position whose brace-strategy result validates contributes that result. */
  lemma {:induction false} CollectComplete(parse: string -> Option<Value>, content: string, ps: seq<nat>, k: nat)
    requires forall j :: 0 <= j < |ps| ==> ps[j] <= |content|
    requires k < |ps|
    requires ValidFrom(parse, content, ps[k])
    ensures BraceCount(parse, content[ps[k]..]).value in Collect(parse, content, ps)
    decreases |ps|
  {
    if k < |ps| - 1 {
      var init := ps[..|ps| - 1];
      assert init[k] == ps[k];
      CollectComplete(parse, content, init, k);
    }
  }

  /** The brace strategy applied from offset `p` yields an object that validates. */
  predicate ValidFrom(parse: string -> Option<Value>, content: string, p: nat)
    requires p <= |content|
  {
    Found(BraceCount(parse, content[p..])) && ValidateActionData(Obj(BraceCount(parse, content[p..]).value))
  }

  /** What `extract_multiple_json_objects` returns. */
  function AllObjects(parse: string -> Option<Value>, content: string): (objs: seq<Object>)
    ensures |objs| <= CountChar(content, '{')
  {
    var ps := BracePositions(content, |content|);
    BracePositionsExact(content, |content|);
    assert content[..|content|] == content;
    Collect(parse, content, ps)
  }

  /**
   * The objects returned are exactly the valid brace-strategy results from
   * the `{` positions: each one validates and is the result from some `{`,
   * and every `{` whose result validates contributes it.
   */
  lemma AllObjectsExact(parse: string -> Option<Value>, content: string)
    ensures forall x :: x in AllObjects(parse, content) ==>
      && ValidateActionData(Obj(x)) && |x| > 0
      && exists p :: 0 <= p < |content| && content[p] == '{' && BraceCount(parse, content[p..]) == Some(x)
    ensures forall p :: 0 <= p < |content| && content[p] == '{' && ValidFrom(parse, content, p) ==>
      BraceCount(parse, content[p..]).value in AllObjects(parse, content)
  {
    var ps := BracePositions(content, |content|);
    BracePositionsExact(content, |content|);
    CollectSound(parse, content, ps);
    forall x | x in AllObjects(parse, content)
      ensures |x| > 0 && exists p :: 0 <= p < |content| && content[p] == '{' && BraceCount(parse, content[p..]) == Some(x)
    {
      var k :| 0 <= k < |ps| && BraceCount(parse, content[ps[k]..]) == Some(x);
      BraceCountFromSpan(parse, content[ps[k]..]);
    }
    forall p | 0 <= p < |content| && content[p] == '{' && ValidFrom(parse, content, p)
      ensures BraceCount(parse, content[p..]).value in AllObjects(parse, content)
    {
      var k :| 0 <= k < |ps| && ps[k] == p;
      CollectComplete(parse, content, ps, k);
    }
  }

  /** `extract_multiple_json_objects`: collect the `{` positions, then brace-count from each. */
  method ExtractMultipleJsonObjects(parse: string -> Option<Value>, content: string) returns (objects: seq<Object>)
    ensures objects == AllObjects(parse, content)
  {
    var startPositions: seq<nat> := [];
    var i := 0;
    while i < |content|
      invariant 0 <= i <= |content|
      invariant startPositions == BracePositions(content, i)
    {
      if content[i] == '{' {
        startPositions := startPositions + [i];
      }
      i := i + 1;
    }
    BracePositionsExact(content, |content|);
    assert content[..|content|] == content;
    objects := CollectFrom(parse, content, startPositions);
  }

  /** The second loop of `extract_multiple_json_objects`: brace-count from each start position in turn. */
  method CollectFrom(parse: string -> Option<Value>, content: string, startPositions: seq<nat>) returns (objects: seq<Object>)
    requires forall k :: 0 <= k < |startPositions| ==> startPositions[k] <= |content|
    ensures objects == Collect(parse, content, startPositions)
  {
    objects := [];
    var k := 0;
    while k < |startPositions|
      invariant 0 <= k <= |startPositions|
      invariant objects == Collect(parse, content, startPositions[..k])
    {
      var remaining := content[startPositions[k]..];
      var result := ExtractWithBraceCounting(parse, remaining);
      assert startPositions[..k + 1][..k] == startPositions[..k];
      if Found(result) && ValidateActionData(Obj(result.value)) {
        objects := objects + [result.value];
      }
      k := k + 1;
    }
    assert startPositions[..k] == startPositions;
  }
}
