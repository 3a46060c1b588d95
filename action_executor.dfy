/**
 * The action executor: it validates an action object decoded from the
 * model's answer (coordinates on screen and outside the restricted safe
 * zones, the field each kind needs, a wait of at most 30 seconds), counts
 * it, performs it through the GUI or the browser, and returns the
 * orchestration signal: "COMPLETE", "ERROR", the next prompt, or None.
 *
 * The GUI and the browser are not modelled: an action's platform call is
 * reported as an `Effect`, and whether that call raises is a parameter.
 */
module ActionExecutor {

  import opened Wrappers
  import opened Text
  import opened PyValue
  import opened Stats
  import opened JsonParser

  /** The prompt `next_prompt` falls back to when the action carries none. */
  const DefaultNextPrompt := "Fahre mit dem nächsten Schritt fort."

  /** The pause after opening a URL, in seconds. */
  const NavigateLoadTime := 3.0

  /** The longest wait an action may ask for, in seconds. */
  const MaxWait := 30.0

  /** The screen size `pyautogui.size()` reported when the executor was built. */
  datatype Screen = Screen(width: nat, height: nat)

  /** A safe zone `(x1, y1, x2, y2)`; a zone of any other length is ignored. */
  type Zone = seq<real>

  /** What the executor asks the GUI, the browser or the clock to do. */
  datatype Effect =
    | ClickAt(x: int, y: int)
    | DoubleClickAt(x: int, y: int)
    | RightClickAt(x: int, y: int)
    | TypeWrite(text: string)
    | Hotkey(keys: seq<string>)
    | Press(key: string)
    | ScrollBy(clicks: int, x: int, y: int)
    | MoveTo(x: int, y: int)
    | OpenUrl(url: string)
    | Sleep(seconds: real)

  /** Python's `int()` of a float: truncation toward zero. */
  function Trunc(r: real): (n: int)
    ensures r >= 0.0 ==> 0 <= n && n as real <= r < n as real + 1.0
    ensures r < 0.0 ==> n <= 0 && n as real - 1.0 < r <= n as real
  {
    if r >= 0.0 then r.Floor else -((-r).Floor)
  }

  /** `int(v)` for a number (a bool converts to 0 or 1). */
  function ToInt(v: Value): int
    requires IsNumber(v)
  {
    Trunc(AsNumber(v))
  }

  /** `x1 <= x <= x2 and y1 <= y <= y2` for a zone of length four. */
  predicate InZone(z: Zone, x: real, y: real) {
    |z| == 4 && z[0] <= x <= z[2] && z[1] <= y <= z[3]
  }

  /** `_validate_coordinates` as written: the zones are tested at the raw point. */
  predicate CoordinatesValidAsWritten(screen: Screen, zones: seq<Zone>, x: Value, y: Value) {
    && IsNumber(x) && IsNumber(y)
    && 0.0 <= AsNumber(x) <= screen.width as real && 0.0 <= AsNumber(y) <= screen.height as real
    && forall k :: 0 <= k < |zones| ==> !InZone(zones[k], AsNumber(x), AsNumber(y))
  }

  /**
   * A zone rules a point out when it holds the point itself or the point the
   * pointer is then moved to, `(int(x), int(y))`.
   */
  predicate Blocks(z: Zone, x: real, y: real) {
    InZone(z, x, y) || InZone(z, Trunc(x) as real, Trunc(y) as real)
  }

  /**
   * `_validate_coordinates`, tested also at the point that is actually
   * clicked: what it accepts the original check accepts too, and the clicked
   * point is then on the screen and in no zone.
   */
  predicate CoordinatesValid(screen: Screen, zones: seq<Zone>, x: Value, y: Value): (ok: bool)
    ensures ok ==> CoordinatesValidAsWritten(screen, zones, x, y)
    ensures ok ==>
      && 0 <= ToInt(x) <= screen.width && 0 <= ToInt(y) <= screen.height
      && forall k :: 0 <= k < |zones| ==> !InZone(zones[k], ToInt(x) as real, ToInt(y) as real)
  {
    && IsNumber(x) && IsNumber(y)
    && 0.0 <= AsNumber(x) <= screen.width as real && 0.0 <= AsNumber(y) <= screen.height as real
    && forall k :: 0 <= k < |zones| ==> !Blocks(zones[k], AsNumber(x), AsNumber(y))
  }

  /**
   * As written, a coordinate just past the right edge of a zone passes the
   * check, yet the click is sent to its truncation, which lies on the edge
   * and so inside the zone.
   */
  lemma AsWrittenClicksIntoZone()
    ensures var zones := [[0.0, 0.0, 10.0, 10.0]];
      && CoordinatesValidAsWritten(Screen(100, 100), zones, Num(10.5), Num(5.0))
      && ToInt(Num(10.5)) == 10 && ToInt(Num(5.0)) == 5
      && InZone(zones[0], ToInt(Num(10.5)) as real, ToInt(Num(5.0)) as real)
  {
    assert Trunc(10.5) == 10;
    assert Trunc(5.0) == 5;
  }

  /**
   * The corrected check accepts exactly the coordinates the original check
   * accepts whose clicked point lies in no zone; the clicked point is then
   * on screen.
   */
  lemma CoordinatesValidIff(screen: Screen, zones: seq<Zone>, x: Value, y: Value)
    ensures CoordinatesValid(screen, zones, x, y) <==>
      && CoordinatesValidAsWritten(screen, zones, x, y)
      && forall k :: 0 <= k < |zones| ==> !InZone(zones[k], ToInt(x) as real, ToInt(y) as real)
    ensures CoordinatesValid(screen, zones, x, y) ==>
      0 <= ToInt(x) <= screen.width && 0 <= ToInt(y) <= screen.height
  {
  }

  /** The actions that point at a position: `click`, `double_click`, `right_click`, `move_mouse`. */
  predicate IsPointer(kind: Option<ActionKind>) {
    kind == Some(Click) || kind == Some(DoubleClick) || kind == Some(RightClick) || kind == Some(MoveMouse)
  }

  /** The kind a validated `action` names; any other value (even a non-string) names none. */
  function KindOf(action: Value): Option<ActionKind> {
    if action.Str? then ParseKind(action.s) else None
  }

  /** `isinstance(m[f], (int, float))` for a present field. */
  predicate NumberField(m: Object, f: string) {
    f in m && IsNumber(m[f])
  }

  /** `isinstance(m[f], str)` for a present field. */
  predicate StringField(m: Object, f: string) {
    f in m && m[f].Str?
  }

  /** `_validate_action_data`: what it accepts has the field types the executor relies on. */
  predicate ActionDataValid(screen: Screen, zones: seq<Zone>, data: Value): (ok: bool)
    ensures ok ==> data.Obj? && "action" in data.fields && FieldsTyped(KindOf(data.fields["action"]), data.fields)
  {
    && data.Obj? && "action" in data.fields
    && var m := data.fields;
       var kind := KindOf(m["action"]);
       && (IsPointer(kind) || kind == Some(Scroll) ==> CoordinatesValid(screen, zones, Get(m, "x", Null), Get(m, "y", Null)))
       && (kind == Some(Scroll) ==> NumberField(m, "clicks"))
       && (kind == Some(TypeText) ==> StringField(m, "text"))
       && (kind == Some(KeyPress) ==> StringField(m, "key"))
       && (kind == Some(Navigate) ==> StringField(m, "url"))
       && (kind == Some(Wait) ==> NumberField(m, "seconds") && 0.0 <= AsNumber(m["seconds"]) <= MaxWait)
  }

  /** The field types the `_execute_*` methods rely on. */
  predicate FieldsTyped(kind: Option<ActionKind>, m: Object) {
    && (IsPointer(kind) || kind == Some(Scroll) ==> NumberField(m, "x") && NumberField(m, "y"))
    && (kind == Some(Scroll) ==> NumberField(m, "clicks"))
    && (kind == Some(TypeText) ==> StringField(m, "text"))
    && (kind == Some(KeyPress) ==> StringField(m, "key"))
    && (kind == Some(Navigate) ==> StringField(m, "url"))
    && (kind == Some(Wait) ==> NumberField(m, "seconds"))
  }

  /**
   * Validated data has every field the action schema requires of its kind,
   * except for `next_prompt` and `error`, whose `prompt` and `message` the
   * executor lets default; and the types the executor relies on.
   */
  lemma ValidDataHasFields(screen: Screen, zones: seq<Zone>, data: Value)
    requires ActionDataValid(screen, zones, data)
    ensures var kind := KindOf(data.fields["action"]);
      && FieldsTyped(kind, data.fields)
      && (kind.Some? && kind != Some(NextPrompt) && kind != Some(Error) ==>
            forall f :: f in RequiredFields(kind.value) ==> f in data.fields)
  {
  }

  /**
   * The executor and the decoder disagree on what is acceptable: the
   * executor passes an unknown kind, and the decoder passes a click whose
   * coordinates are not numbers.
   */
  lemma ValidationDiffersFromDecoder()
    ensures var fly := Obj(map["action" := Str("fly")]);
      ActionDataValid(Screen(100, 100), [], fly) && !ValidateActionData(fly)
    ensures var click := Obj(map["action" := Str("click"), "x" := Str("a"), "y" := Num(1.0)]);
      !ActionDataValid(Screen(100, 100), [], click) && ValidateActionData(click)
  {
    var fly := map["action" := Str("fly")];
    assert ParseKind("fly") == None;
    var click := map["action" := Str("click"), "x" := Str("a"), "y" := Num(1.0)];
    assert ParseKind("click") == Some(Click);
    assert forall f :: f in RequiredFields(Click) ==> f in click;
  }

  /** `url.startswith(('http://', 'https://'))`. */
  predicate HasScheme(url: string) {
    StartsWith(url, "http://") || StartsWith(url, "https://")
  }

  /** The URL `_execute_navigate` opens: `https://` is put in front of one without a scheme. */
  function NormalizeUrl(url: string): (u: string)
    ensures HasScheme(u)
    ensures HasScheme(url) ==> u == url
  {
    if HasScheme(url) then url
    else
      assert ("https://" + url)[..|"https://"|] == "https://";
      "https://" + url
  }

  /**
   * The opened URL always has a scheme; a URL with one is opened as given,
   * any other with `https://` in front, and normalising twice changes
   * nothing more.
   */
  lemma NormalizeUrlScheme(url: string)
    ensures HasScheme(NormalizeUrl(url))
    ensures HasScheme(url) <==> NormalizeUrl(url) == url
    ensures !HasScheme(url) ==> NormalizeUrl(url) == "https://" + url
    ensures NormalizeUrl(NormalizeUrl(url)) == NormalizeUrl(url)
  {
    if !HasScheme(url) {
      assert ("https://" + url)[..|"https://"|] == "https://";
    }
  }

  /** `[k.strip() for k in parts]`. */
  function StripAll(parts: seq<string>): (r: seq<string>)
    ensures |r| == |parts|
  {
    if parts == [] then [] else [Strip(parts[0])] + StripAll(parts[1..])
  }

  lemma {:induction false} StripAllAt(parts: seq<string>, k: nat)
    requires k < |parts|
    ensures StripAll(parts)[k] == Strip(parts[k])
  {
    if k > 0 {
      StripAllAt(parts[1..], k - 1);
    }
  }

  /**
   * `_execute_key`: a key holding `+` is a combination, pressed as a hotkey
   * of as many keys as it has `+`-separated pieces; any other key is pressed
   * as given.
   */
  function KeyStroke(key: string): (e: Effect)
    ensures e.Hotkey? <==> '+' in key
    ensures e.Hotkey? ==> |e.keys| == |Split(key, '+')|
    ensures !e.Hotkey? ==> e == Press(key)
  {
    if '+' in key then Hotkey(StripAll(Split(key, '+'))) else Press(key)
  }

  /**
   * A combination has one key more than it has `+` signs, at least two;
   * no key of it holds a `+` or starts or ends with whitespace; and a
   * combination written without padding is pressed exactly as written.
   */
  lemma KeyStrokeSplit(key: string)
    ensures '+' !in key ==> KeyStroke(key) == Press(key)
    ensures '+' in key ==> var keys := KeyStroke(key).keys;
      && |keys| == CountChar(key, '+') + 1 >= 2
      && (forall k :: 0 <= k < |keys| ==> '+' !in keys[k])
      && (forall k :: 0 <= k < |keys| ==> keys[k] == [] || (!IsSpace(keys[k][0]) && !IsSpace(keys[k][|keys[k]| - 1])))
      && ((forall k :: 0 <= k < |keys| ==> keys[k] == Split(key, '+')[k]) ==> Join(keys, '+') == key)
  {
    if '+' in key {
      var parts := Split(key, '+');
      var keys := StripAll(parts);
      SplitCount(key, '+');
      CountCharPositive(key, '+');
      SplitPiecesLackSeparator(key, '+');
      forall k | 0 <= k < |keys|
        ensures '+' !in keys[k]
        ensures keys[k] == [] || (!IsSpace(keys[k][0]) && !IsSpace(keys[k][|keys[k]| - 1]))
      {
        StripAllAt(parts, k);
        StripKeepsOut(parts[k], '+');
      }
      if forall k :: 0 <= k < |keys| ==> keys[k] == parts[k] {
        assert keys == parts;
        JoinSplit(key, '+');
      }
    }
  }

  lemma {:induction false} CountCharPositive(s: string, c: char)
    requires c in s
    ensures CountChar(s, c) >= 1
  {
    if s[0] != c {
      assert c in s[1..];
      CountCharPositive(s[1..], c);
    }
  }

  lemma StripKeepsOut(s: string, c: char)
    requires c !in s
    ensures c !in Strip(s)
  {
    LStripRemovesSpacePrefix(s);
    RStripRemovesSpaceSuffix(LStrip(s));
  }

  /**
   * The platform call of a GUI or browser action: a pointer action or a
   * scroll goes to `(int(x), int(y))`, a navigation opens a URL with a
   * scheme, typing and keys send the action's own text.
   */
  function PlatformCall(kind: ActionKind, m: Object): (e: Effect)
    requires FieldsTyped(Some(kind), m)
    ensures IsPointer(Some(kind)) || kind == Scroll ==>
      (e.ClickAt? || e.DoubleClickAt? || e.RightClickAt? || e.MoveTo? || e.ScrollBy?)
      && e.x == ToInt(m["x"]) && e.y == ToInt(m["y"])
    ensures kind == Scroll ==> e == ScrollBy(ToInt(m["clicks"]), ToInt(m["x"]), ToInt(m["y"]))
    ensures kind == Navigate ==> e.OpenUrl? && HasScheme(e.url)
    ensures kind == TypeText ==> e == TypeWrite(m["text"].s)
    ensures kind == KeyPress ==> e == KeyStroke(m["key"].s)
  {
    match kind
    case Click => ClickAt(ToInt(m["x"]), ToInt(m["y"]))
    case DoubleClick => DoubleClickAt(ToInt(m["x"]), ToInt(m["y"]))
    case RightClick => RightClickAt(ToInt(m["x"]), ToInt(m["y"]))
    case MoveMouse => MoveTo(ToInt(m["x"]), ToInt(m["y"]))
    case Scroll => ScrollBy(ToInt(m["clicks"]), ToInt(m["x"]), ToInt(m["y"]))
    case TypeText => TypeWrite(m["text"].s)
    case KeyPress => KeyStroke(m["key"].s)
    case Navigate => OpenUrl(NormalizeUrl(m["url"].s))
    case _ => Sleep(0.0)
  }

  /** The kinds whose work is a call into the GUI or the browser. */
  predicate IsPlatform(kind: ActionKind) {
    kind !in {Wait, NextPrompt, Complete, Error}
  }

  /** What executing a validated action returns, does, and whether it counts as successful. */
  datatype Step = Step(reply: Value, effects: seq<Effect>, success: bool)

  /**
   * The dispatch of `execute_action` and the `_execute_*` methods. A
   * platform call that raises is caught and returns None uncounted; after
   * a GUI call the executor sleeps the configured delay, which raises (and
   * is caught, the action already counted) when the delay is negative.
   */
  function Dispatch(kind: Option<ActionKind>, m: Object, platformFails: bool, delay: real): (s: Step)
    requires FieldsTyped(kind, m)
    ensures s.success <==> kind.Some? && kind != Some(Error) && !(IsPlatform(kind.value) && platformFails)
    ensures |s.effects| <= 2
    ensures kind.Some? && IsPlatform(kind.value) && !platformFails ==>
      |s.effects| >= 1 && s.effects[0] == PlatformCall(kind.value, m)
  {
    match kind
    case None => Step(Null, [], false)
    case Some(Wait) => Step(Null, [Sleep(AsNumber(m["seconds"]))], true)
    case Some(NextPrompt) => Step(Get(m, "prompt", Str(DefaultNextPrompt)), [], true)
    case Some(Complete) => Step(Str("COMPLETE"), [], true)
    case Some(Error) => Step(Str("ERROR"), [], false)
    case Some(k) =>
      var pause := if k == Navigate then NavigateLoadTime else delay;
      if platformFails then Step(Null, [], false)
      else Step(Null, [PlatformCall(k, m)] + (if pause >= 0.0 then [Sleep(pause)] else []), true)
  }

  /**
   * The result codes: "COMPLETE" comes from `complete`, or from a
   * `next_prompt` whose prompt is that very text, and likewise "ERROR";
   * every other kind returns None; and an action counts as successful
   * exactly when its kind is known, it is not `error`, and its platform
   * call (if any) did not raise.
   */
  lemma DispatchReplies(kind: Option<ActionKind>, m: Object, platformFails: bool, delay: real)
    requires FieldsTyped(kind, m)
    ensures var s := Dispatch(kind, m, platformFails, delay);
      && (s.reply == Str("COMPLETE") <==>
            kind == Some(Complete) || (kind == Some(NextPrompt) && Get(m, "prompt", Null) == Str("COMPLETE")))
      && (s.reply == Str("ERROR") <==>
            kind == Some(Error) || (kind == Some(NextPrompt) && Get(m, "prompt", Null) == Str("ERROR")))
      && (kind == Some(NextPrompt) ==> s.reply == if "prompt" in m then m["prompt"] else Str(DefaultNextPrompt))
      && (kind != Some(NextPrompt) && kind != Some(Complete) && kind != Some(Error) ==> s.reply == Null)
      && (s.success <==> kind.Some? && kind != Some(Error) && !(IsPlatform(kind.value) && platformFails))
  {
    assert |DefaultNextPrompt| != |"COMPLETE"| && |DefaultNextPrompt| != |"ERROR"|;
  }

  /**
   * A validated pointer action or scroll moves the pointer to a point on
   * the screen and in no safe zone, and a validated wait sleeps between 0
   * and 30 seconds.
   */
  lemma DispatchStaysSafe(screen: Screen, zones: seq<Zone>, data: Value, platformFails: bool, delay: real)
    requires ActionDataValid(screen, zones, data)
    ensures var m := data.fields;
      var kind := KindOf(m["action"]);
      FieldsTyped(kind, m) &&
      var s := Dispatch(kind, m, platformFails, delay);
      && ((IsPointer(kind) || kind == Some(Scroll)) && s.effects != [] ==>
            var p := s.effects[0];
            && 0 <= p.x <= screen.width && 0 <= p.y <= screen.height
            && forall k :: 0 <= k < |zones| ==> !InZone(zones[k], p.x as real, p.y as real))
      && (kind == Some(Wait) ==> s.effects == [Sleep(AsNumber(m["seconds"]))] && 0.0 <= AsNumber(m["seconds"]) <= MaxWait)
  {
    var m := data.fields;
    var kind := KindOf(m["action"]);
    if IsPointer(kind) || kind == Some(Scroll) {
      CoordinatesValidIff(screen, zones, Get(m, "x", Null), Get(m, "y", Null));
    }
  }

  /** What `get_stats` reports. */
  datatype ExecutorStats = ExecutorStats(totalActions: nat, successfulActions: nat, successRate: Ratio, screen: Screen)

  class Executor {
    const screen: Screen
    const safeZones: seq<Zone>
    /** `DELAY_BETWEEN_ACTIONS`, the pause after each GUI action. */
    const delay: real
    var actionCount: nat
    var successfulActions: nat

    /** Never more successful actions than executed ones. */
    ghost predicate Valid()
      reads this
    {
      successfulActions <= actionCount
    }

    constructor(screen: Screen, safeZones: seq<Zone>, delay: real)
      ensures Valid()
      ensures this.screen == screen && this.safeZones == safeZones && this.delay == delay
      ensures actionCount == 0 && successfulActions == 0
    {
      this.screen := screen;
      this.safeZones := safeZones;
      this.delay := delay;
      actionCount := 0;
      successfulActions := 0;
    }

    /** `_validate_coordinates`: type and bounds checks, then the loop over the safe zones. */
    method ValidateCoordinates(x: Value, y: Value) returns (ok: bool)
      ensures ok == CoordinatesValid(screen, safeZones, x, y)
    {
      if !IsNumber(x) || !IsNumber(y) {
        return false;
      }
      var px, py := AsNumber(x), AsNumber(y);
      if !(0.0 <= px <= screen.width as real && 0.0 <= py <= screen.height as real) {
        return false;
      }
      for i := 0 to |safeZones|
        invariant forall k :: 0 <= k < i ==> !Blocks(safeZones[k], px, py)
      {
        var zone := safeZones[i];
        if |zone| == 4 {
          if (zone[0] <= px <= zone[2] && zone[1] <= py <= zone[3])
            || (zone[0] <= Trunc(px) as real <= zone[2] && zone[1] <= Trunc(py) as real <= zone[3]) {
            return false;
          }
        }
      }
      return true;
    }

    /** `_validate_action_data`. */
    method ValidateActionData(data: Value) returns (ok: bool)
      ensures ok == ActionDataValid(screen, safeZones, data)
    {
      if !data.Obj? || "action" !in data.fields {
        return false;
      }
      var m := data.fields;
      var kind := KindOf(m["action"]);
      if IsPointer(kind) || kind == Some(Scroll) {
        ok := ValidateCoordinates(Get(m, "x", Null), Get(m, "y", Null));
        if !ok {
          return false;
        }
      }
      if kind == Some(Scroll) && !NumberField(m, "clicks") {
        return false;
      }
      if kind == Some(TypeText) && !StringField(m, "text") {
        return false;
      }
      if kind == Some(KeyPress) && !StringField(m, "key") {
        return false;
      }
      if kind == Some(Navigate) && !StringField(m, "url") {
        return false;
      }
      if kind == Some(Wait) {
        if !NumberField(m, "seconds") {
          return false;
        }
        if AsNumber(m["seconds"]) < 0.0 || AsNumber(m["seconds"]) > MaxWait {
          return false;
        }
      }
      return true;
    }

    /**
     * `execute_action`: invalid data returns None and changes nothing;
     * valid data is counted once and dispatched on its kind.
     */
    method ExecuteAction(data: Value, platformFails: bool) returns (r: Value, effects: seq<Effect>)
      requires Valid()
      modifies this
      ensures Valid()
      ensures !ActionDataValid(screen, safeZones, data) ==>
        r == Null && effects == [] && actionCount == old(actionCount) && successfulActions == old(successfulActions)
      ensures ActionDataValid(screen, safeZones, data) ==>
        var m := data.fields;
        var kind := KindOf(m["action"]);
        && FieldsTyped(kind, m)
        && var s := Dispatch(kind, m, platformFails, delay);
           && r == s.reply && effects == s.effects
           && actionCount == old(actionCount) + 1
           && successfulActions == old(successfulActions) + (if s.success then 1 else 0)
    {
      var valid := ValidateActionData(data);
      if !valid {
        return Null, [];
      }
      ValidDataHasFields(screen, safeZones, data);
      var m := data.fields;
      var kind := KindOf(m["action"]);
      actionCount := actionCount + 1;
      if kind.None? {
        return Null, [];
      }
      match kind.value {
        case Wait =>
          effects := [Sleep(AsNumber(m["seconds"]))];
          successfulActions := successfulActions + 1;
          return Null, effects;
        case NextPrompt =>
          successfulActions := successfulActions + 1;
          return Get(m, "prompt", Str(DefaultNextPrompt)), [];
        case Complete =>
          successfulActions := successfulActions + 1;
          return Str("COMPLETE"), [];
        case Error =>
          return Str("ERROR"), [];
        case _ =>
          if platformFails {
            return Null, [];
          }
          effects := [PlatformCall(kind.value, m)];
          successfulActions := successfulActions + 1;
          var pause := if kind.value == Navigate then NavigateLoadTime else delay;
          if pause >= 0.0 {
            effects := effects + [Sleep(pause)];
          }
          return Null, effects;
      }
    }

    /** `get_stats`. */
    function GetStats(): (s: ExecutorStats)
      reads this
      ensures s.successRate.den >= 1 && s.successRate.num == successfulActions
      ensures Valid() ==> s.successRate.num <= s.successRate.den
      ensures s.totalActions == actionCount && s.successfulActions == successfulActions && s.screen == screen
    {
      ExecutorStats(actionCount, successfulActions, Rate(successfulActions, actionCount), screen)
    }
  }
}
