/** The first-generation action handler (`action_handler.py`): one `tag:payload` action
    string, dispatched on its prefix to at most one host call. */
module Actions {
  import opened Strings
  import opened Actuation

  /** `mouse:` button names, already trimmed and lower-cased; any other name clicks nothing. */
  function MouseEffect(name: string): (e: Option<Effect>)
    ensures e.Some? <==> name in ["left", "right", "middle", "double", "side1", "side2"]
    ensures e.Some? ==> e.value.Click? || e.value == DoubleClick
    ensures e == Some(DoubleClick) <==> name == "double"
  {
    if name == "left" then Some(Click(Left))
    else if name == "right" then Some(Click(Right))
    else if name == "middle" then Some(Click(Middle))
    else if name == "double" then Some(DoubleClick)
    else if name == "side1" then Some(Click(Mouse4))
    else if name == "side2" then Some(Click(Mouse5))
    else None
  }

  /** `hotkey:` keys: the payload split on `+`, each piece trimmed and lower-cased, in order. */
  function HotkeyKeys(payload: string): (keys: seq<string>)
    ensures |keys| == |SplitOn(payload, '+')|
    ensures forall i :: 0 <= i < |keys| ==> keys[i] == Lower(Strip(SplitOn(payload, '+')[i]))
    ensures forall i :: 0 <= i < |keys| ==> Trimmed(keys[i]) && '+' !in keys[i]
    ensures forall i, j :: 0 <= i < |keys| && 0 <= j < |keys[i]| ==> !('A' <= keys[i][j] <= 'Z')
  {
    var parts := SplitOn(payload, '+');
    var keys := seq(|parts|, i requires 0 <= i < |parts| => Lower(Strip(parts[i])));
    forall i | 0 <= i < |keys| ensures Trimmed(keys[i]) && '+' !in keys[i] {
      var t := Strip(parts[i]);
      assert '+' !in t;
      LowerKeepsShape(t);
    }
    keys
  }

  /** Lower-casing keeps whitespace at the ends and keeps `+` out. */
  lemma LowerKeepsShape(s: string)
    requires Trimmed(s) && '+' !in s
    ensures Trimmed(Lower(s)) && '+' !in Lower(s)
  {
    var l := Lower(s);
    assert forall k :: 0 <= k < |l| ==> l[k] != '+' by {
      forall k | 0 <= k < |l| ensures l[k] != '+' {
        assert s[k] != '+';
      }
    }
  }

  /** A hotkey written in lower case without spaces comes back as the same key list joined by `+`. */
  lemma {:induction false} HotkeyKeysOfPlainCombo(payload: string)
    requires forall ch :: ch in payload ==> !IsSpace(ch) && !('A' <= ch <= 'Z')
    ensures Join(HotkeyKeys(payload), '+') == payload
  {
    var parts := SplitOn(payload, '+');
    var keys := HotkeyKeys(payload);
    forall i | 0 <= i < |parts| ensures keys[i] == parts[i] {
      PlainKey(parts[i], payload);
    }
    assert keys == parts;
  }

  /** A piece of such a payload is its own trimmed, lower-cased form. */
  lemma PlainKey(p: string, payload: string)
    requires forall ch :: ch in payload ==> !IsSpace(ch) && !('A' <= ch <= 'Z')
    requires forall ch :: ch in p ==> ch in payload
    ensures Lower(Strip(p)) == p
  {
    if |p| > 0 {
      assert p[0] in payload && p[|p| - 1] in payload;
    }
    StripTrimmed(p);
    forall k | 0 <= k < |p| ensures !('A' <= p[k] <= 'Z') {
      assert p[k] in payload;
    }
    LowerOfLowerCase(p);
  }

  /** The action starts with one of the prefixes `ActionHandler.execute` dispatches on. */
  predicate Tagged(action: string) {
    StartsWith(action, "mouse:") || StartsWith(action, "hotkey:") || StartsWith(action, "press:")
    || StartsWith(action, "app:") || StartsWith(action, "web:") || StartsWith(action, "type:")
    || StartsWith(action, "print:")
  }

  /** The host call one action string asks for, if any (`ActionHandler.execute`'s if/elif chain):
      only a known prefix asks for a call, every known prefix but `mouse:` always does, and
      `mouse:` asks for a click or nothing. */
  function Decode(action: string, os: Platform): (e: Option<Effect>)
    ensures e.Some? ==> Tagged(action)
    ensures Tagged(action) && !StartsWith(action, "mouse:") ==> e.Some?
    ensures StartsWith(action, "mouse:") && e.Some? ==> e.value.Click? || e.value == DoubleClick
  {
    if StartsWith(action, "mouse:") then
      AfterTag(action, "mouse");
      MouseEffect(Lower(Strip(AfterColon(action))))
    else if StartsWith(action, "hotkey:") then
      AfterTag(action, "hotkey");
      Some(Hotkey(HotkeyKeys(AfterColon(action))))
    else if StartsWith(action, "press:") then
      AfterTag(action, "press");
      Some(Press(Strip(AfterColon(action))))
    else if StartsWith(action, "app:") then
      AfterTag(action, "app");
      var cmd := Strip(AfterColon(action));
      Some(if os == Windows then StartFile(cmd) else Spawn(cmd, false))
    else if StartsWith(action, "web:") then
      AfterTag(action, "web");
      Some(OpenUrl(BrowserUrl(AfterColon(action))))
    else if StartsWith(action, "type:") then
      AfterTag(action, "type");
      Some(Write(AfterColon(action)))
    else if StartsWith(action, "print:") then
      AfterTag(action, "print");
      Some(Message(AfterColon(action)))
    else None
  }

  /** `ActionHandler.execute`: the empty string and every `special:` action do nothing; any
      other action makes at most one host call, whose failure is caught and recorded. */
  function Execute(action: string, os: Platform, ok: Effect -> bool): (trace: seq<Event>)
    ensures action == "" || StartsWith(action, "special:") ==> trace == []
    ensures |trace| <= 1
    ensures |trace| == 1 ==> trace[0].Done? || trace[0].Failed?
    ensures |trace| == 1 ==> Decode(action, os) == Some(trace[0].effect)
    ensures Decode(action, os).None? ==> trace == []
    ensures action != "" && !StartsWith(action, "special:") && Decode(action, os).Some? ==>
              trace == Perform([Decode(action, os).value], ok)
  {
    if action == "" || StartsWith(action, "special:") then []
    else
      match Decode(action, os)
      case None => []
      case Some(e) => Perform([e], ok)
  }

  /** The payload of `app:`, `web:`, `type:`, `print:` and `press:` is everything after the
      first colon, so it may itself contain colons. */
  lemma {:induction false} TypePayload(v: string, os: Platform)
    ensures Decode("type:" + v, os) == Some(Write(v))
  {
    var s := "type:" + v;
    assert s[..5] == "type:" && s[5..] == v;
    AfterTag(s, "type");
    DiffersAt(s, "mouse:", 0);
    DiffersAt(s, "hotkey:", 0);
    DiffersAt(s, "press:", 0);
    DiffersAt(s, "app:", 0);
    DiffersAt(s, "web:", 0);
  }

  lemma {:induction false} PrintPayload(v: string, os: Platform)
    ensures Decode("print:" + v, os) == Some(Message(v))
  {
    var s := "print:" + v;
    assert s[..6] == "print:" && s[6..] == v;
    AfterTag(s, "print");
    DiffersAt(s, "mouse:", 0);
    DiffersAt(s, "hotkey:", 0);
    DiffersAt(s, "press:", 2);
    DiffersAt(s, "app:", 0);
    DiffersAt(s, "web:", 0);
    DiffersAt(s, "type:", 0);
  }

  lemma {:induction false} PressPayload(v: string, os: Platform)
    ensures Decode("press:" + v, os) == Some(Press(Strip(v)))
  {
    var s := "press:" + v;
    assert s[..6] == "press:" && s[6..] == v;
    AfterTag(s, "press");
    DiffersAt(s, "mouse:", 0);
    DiffersAt(s, "hotkey:", 0);
  }

  lemma {:induction false} AppPayload(v: string, os: Platform)
    ensures Decode("app:" + v, os) == Some(if os == Windows then StartFile(Strip(v)) else Spawn(Strip(v), false))
  {
    var s := "app:" + v;
    assert s[..4] == "app:" && s[4..] == v;
    AfterTag(s, "app");
    DiffersAt(s, "mouse:", 0);
    DiffersAt(s, "hotkey:", 0);
    DiffersAt(s, "press:", 0);
  }

  lemma {:induction false} WebPayload(v: string, os: Platform)
    ensures Decode("web:" + v, os) == Some(OpenUrl(BrowserUrl(v)))
  {
    var s := "web:" + v;
    assert s[..4] == "web:" && s[4..] == v;
    AfterTag(s, "web");
    DiffersAt(s, "mouse:", 0);
    DiffersAt(s, "hotkey:", 0);
    DiffersAt(s, "press:", 0);
    DiffersAt(s, "app:", 0);
  }

  /** `hotkey:` presses the keys of the payload after the first colon, in order. */
  lemma {:induction false} HotkeyDecode(v: string, os: Platform)
    ensures Decode("hotkey:" + v, os) == Some(Hotkey(HotkeyKeys(v)))
  {
    var s := "hotkey:" + v;
    assert s[..7] == "hotkey:" && s[7..] == v;
    AfterTag(s, "hotkey");
    DiffersAt(s, "mouse:", 0);
  }

  /** `mouse:` trims and lower-cases the button name before looking it up. */
  lemma {:induction false} MouseDecode(v: string, os: Platform)
    ensures Decode("mouse:" + v, os) == MouseEffect(Lower(Strip(v)))
  {
    var s := "mouse:" + v;
    assert s[..6] == "mouse:" && s[6..] == v;
    AfterTag(s, "mouse");
  }
}
