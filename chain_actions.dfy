/** The second-generation action handler (`libs/action_handler.py`): an action is one step or
    `chain:` followed by `|`-separated steps; each step is decoded into a command and carried
    out as a short plan of host calls, inside its own `try`. */
module ChainActions {
  import opened Strings
  import opened Actuation

  datatype Command =
    | WaitMs(ms: nat)               // wait:<ms>
    | BadWait(text: string)         // wait: whose argument int() rejects, or a negative one
    | ClickWith(effect: Effect)     // mouse:left/right/middle/double
    | Keys(keys: seq<string>)       // hotkey:
    | Launch(command: string)       // shell: and app:
    | Browse(url: string)           // web:
    | PasteText(text: string)       // type: and paste:
    | Ignored                       // anything else, `chain:` and `special:` included

  /** `split(":")[1]`: the text between the first and the second colon. */
  function SecondField(step: string): string
    requires ':' in step
  {
    SplitOn(step, ':')[1]
  }

  function MouseCommand(name: string): (c: Command)
    ensures c != Ignored <==> name in ["left", "right", "middle", "double"]
    ensures c == Ignored || (c.ClickWith? && (c.effect.Click? || c.effect == DoubleClick))
  {
    if name == "left" then ClickWith(Click(Left))
    else if name == "right" then ClickWith(Click(Right))
    else if name == "middle" then ClickWith(Click(Middle))
    else if name == "double" then ClickWith(DoubleClick)
    else Ignored
  }

  /** `time.sleep(int(val) / 1000.0)`: `int()` or a negative sleep raises. */
  function WaitCommand(text: string): (c: Command)
    ensures c.WaitMs? || c.BadWait?
    ensures c.WaitMs? <==> ParseInt(text).Some? && ParseInt(text).value >= 0
    ensures c.WaitMs? ==> c.ms == ParseInt(text).value
    ensures c.BadWait? ==> c.text == text
  {
    match ParseInt(text)
    case Some(n) => if n >= 0 then WaitMs(n) else BadWait(text)
    case None => BadWait(text)
  }

  /** The prefixes `execute_single` acts on. */
  predicate Dispatched(step: string)
  {
    || StartsWith(step, "wait:") || StartsWith(step, "mouse:") || StartsWith(step, "hotkey:")
    || StartsWith(step, "shell:") || StartsWith(step, "app:") || StartsWith(step, "web:")
    || StartsWith(step, "type:") || StartsWith(step, "paste:")
  }

  /** `ActionHandler.execute_single`'s prefix dispatch. */
  function Decode(step: string): (c: Command)
    ensures c.WaitMs? || c.BadWait? <==> StartsWith(step, "wait:")
    ensures !Dispatched(step) ==> c == Ignored
    ensures c.ClickWith? ==> c.effect.Click? || c.effect == DoubleClick
  {
    if StartsWith(step, "wait:") then
      AfterTag(step, "wait");
      WaitCommand(SecondField(step))
    else if StartsWith(step, "mouse:") then
      AfterTag(step, "mouse");
      MouseCommand(Lower(Strip(SecondField(step))))
    else if StartsWith(step, "hotkey:") then
      AfterTag(step, "hotkey");
      Keys(SplitOn(Lower(SecondField(step)), '+'))
    else if StartsWith(step, "shell:") || StartsWith(step, "app:") then
      assert StartsWith(step, "shell:") ==> step[5] == ':';
      assert StartsWith(step, "app:") ==> step[3] == ':';
      Launch(Strip(AfterColon(step)))
    else if StartsWith(step, "web:") then
      AfterTag(step, "web");
      Browse(BrowserUrl(AfterColon(step)))
    else if StartsWith(step, "type:") || StartsWith(step, "paste:") then
      assert StartsWith(step, "type:") ==> step[4] == ':';
      assert StartsWith(step, "paste:") ==> step[5] == ':';
      PasteText(AfterColon(step))
    else Ignored
  }

  /** `_paste_text`: copy to the clipboard, pause, then modifier down, `v`, modifier up;
      the modifier is `command` on Darwin and `ctrl` elsewhere. */
  function PastePlan(text: string, os: Platform): (plan: seq<Effect>)
    ensures |plan| == 5 && plan[0] == CopyText(text) && plan[3] == Press("v")
    ensures plan[2].KeyDown? && plan[4] == KeyUp(plan[2].key)
    ensures (plan[2].key == "command") == (os == Darwin)
  {
    var modifier := if os == Darwin then "command" else "ctrl";
    [CopyText(text), Sleep(100), KeyDown(modifier), Press("v"), KeyUp(modifier)]
  }

  /** The host calls a decoded command makes, in order. */
  function Plan(c: Command, os: Platform): (plan: seq<Effect>)
    requires !c.BadWait?
    ensures plan == [] <==> c.Ignored?
    ensures |plan| <= 5
    ensures c.Keys? ==> plan[0] == Sleep(100) && plan[|plan| - 1] == Hotkey(c.keys)
  {
    match c
    case WaitMs(ms) => [Sleep(ms)]
    case ClickWith(e) => [e]
    case Keys(keys) => [Sleep(100), Hotkey(keys)]
    case Launch(cmd) => [if os == Windows then StartFile(cmd) else Spawn(cmd, true)]
    case Browse(url) => [OpenUrl(url)]
    case PasteText(text) => PastePlan(text, os)
    case Ignored => []
  }

  /** `execute_single`: every exception is caught here, so a step always returns normally. */
  function StepTrace(step: string, os: Platform, ok: Effect -> bool): (trace: seq<Event>)
    ensures Decode(step).BadWait? ==> trace == [Rejected(step)]
    ensures !Decode(step).BadWait? ==>
              var plan := Plan(Decode(step), os);
              && |trace| <= |plan|
              && (forall i :: 0 <= i < |trace| ==> !trace[i].Rejected? && trace[i].effect == plan[i])
              && (forall i :: 0 <= i < |trace| - 1 ==> trace[i].Done?)
              && ((forall i :: 0 <= i < |plan| ==> ok(plan[i])) ==>
                    |trace| == |plan| && forall i :: 0 <= i < |trace| ==> trace[i].Done?)
    ensures |trace| <= 5
  {
    var c := Decode(step);
    if c.BadWait? then [Rejected(step)] else Perform(Plan(c, os), ok)
  }

  /** One raw piece of a chain: blank pieces are skipped, the others trimmed and run. */
  function PieceTrace(piece: string, os: Platform, ok: Effect -> bool): (trace: seq<Event>)
    ensures Strip(piece) == "" ==> trace == []
    ensures |trace| <= 5
    ensures forall i :: 0 <= i < |trace| - 1 ==> trace[i].Done?
  {
    var step := Strip(piece);
    if step == "" then [] else StepTrace(step, os, ok)
  }

  /** `PieceTrace` as a value, so that the chain can be reasoned about piece by piece. */
  function Runner(os: Platform, ok: Effect -> bool): string -> seq<Event>
  {
    piece => PieceTrace(piece, os, ok)
  }

  /** The traces of `run` on each piece, one after the other. */
  function Flatten(pieces: seq<string>, run: string -> seq<Event>): seq<Event>
  {
    if pieces == [] then [] else run(pieces[0]) + Flatten(pieces[1..], run)
  }

  /** The pieces of a chain, run in order. */
  function ChainTrace(pieces: seq<string>, os: Platform, ok: Effect -> bool): seq<Event>
  {
    Flatten(pieces, Runner(os, ok))
  }

  /** What `ActionHandler.execute` does with one action string. */
  function ActionTrace(action: string, os: Platform, ok: Effect -> bool): (trace: seq<Event>)
    ensures action == "" ==> trace == []
    ensures !StartsWith(action, "chain:") ==> |trace| <= 5 && forall i :: 0 <= i < |trace| - 1 ==> trace[i].Done?
    ensures StartsWith(action, "chain:") ==> trace == ChainTrace(SplitOn(action[6..], '|'), os, ok)
  {
    if action == "" then []
    else if StartsWith(action, "chain:") then
      AfterTag(action, "chain");
      ChainTrace(SplitOn(AfterColon(action), '|'), os, ok)
    else StepTrace(action, os, ok)
  }

  /** The `for step in steps` loop of `ActionHandler.execute`: every piece runs, whatever
      earlier pieces did. */
  method RunChain(pieces: seq<string>, os: Platform, ok: Effect -> bool) returns (trace: seq<Event>)
    ensures trace == ChainTrace(pieces, os, ok)
  {
    trace := [];
    for i := 0 to |pieces|
      invariant trace == ChainTrace(pieces[..i], os, ok)
    {
      ChainTracePrefix(pieces, i, os, ok);
      var step := Strip(pieces[i]);
      if step != "" {
        trace := trace + StepTrace(step, os, ok);
      }
    }
    assert pieces[..|pieces|] == pieces;
  }

  /** `ActionHandler.execute`. */
  method Execute(action: string, os: Platform, ok: Effect -> bool) returns (trace: seq<Event>)
    ensures trace == ActionTrace(action, os, ok)
    ensures action == "" ==> trace == []
  {
    if action == "" {
      return [];
    }
    if StartsWith(action, "chain:") {
      AfterTag(action, "chain");
      trace := RunChain(SplitOn(AfterColon(action), '|'), os, ok);
      return;
    }
    trace := StepTrace(action, os, ok);
  }

  /** Running two lists of pieces one after the other is running their concatenation. */
  lemma {:induction false} FlattenAppend(a: seq<string>, b: seq<string>, run: string -> seq<Event>)
    ensures Flatten(a + b, run) == Flatten(a, run) + Flatten(b, run)
  {
    if a != [] {
      assert (a + b)[0] == a[0];
      assert (a + b)[1..] == a[1..] + b;
      FlattenAppend(a[1..], b, run);
    } else {
      assert a + b == b;
    }
  }

  lemma ChainTraceAppend(a: seq<string>, b: seq<string>, os: Platform, ok: Effect -> bool)
    ensures ChainTrace(a + b, os, ok) == ChainTrace(a, os, ok) + ChainTrace(b, os, ok)
  {
    FlattenAppend(a, b, Runner(os, ok));
  }

  /** Running one more piece appends its trace. */
  lemma {:induction false} ChainTraceSnoc(pieces: seq<string>, piece: string, os: Platform, ok: Effect -> bool)
    ensures ChainTrace(pieces + [piece], os, ok) == ChainTrace(pieces, os, ok) + PieceTrace(piece, os, ok)
  {
    FlattenOne(piece, Runner(os, ok));
    ChainTraceAppend(pieces, [piece], os, ok);
  }

  lemma FlattenOne(piece: string, run: string -> seq<Event>)
    ensures Flatten([piece], run) == run(piece)
  {
    assert [piece][1..] == [];
  }

  /** Running the first `i + 1` pieces is running the first `i` and then piece `i`. */
  lemma ChainTracePrefix(pieces: seq<string>, i: nat, os: Platform, ok: Effect -> bool)
    requires i < |pieces|
    ensures ChainTrace(pieces[..i + 1], os, ok) == ChainTrace(pieces[..i], os, ok) + PieceTrace(pieces[i], os, ok)
  {
    assert pieces[..i + 1] == pieces[..i] + [pieces[i]];
    ChainTraceSnoc(pieces[..i], pieces[i], os, ok);
  }

  /** A step's trace sits between everything before it and everything after it: a failing or
      rejected step never keeps a later step from running. */
  lemma {:induction false} EveryStepRuns(before: seq<string>, step: string, after: seq<string>, os: Platform, ok: Effect -> bool)
    requires Strip(step) != ""
    ensures ChainTrace(before + [step] + after, os, ok)
         == ChainTrace(before, os, ok) + StepTrace(Strip(step), os, ok) + ChainTrace(after, os, ok)
  {
    ChainTraceAppend(before + [step], after, os, ok);
    ChainTraceSnoc(before, step, os, ok);
  }

  /** `execute_single` has no `chain:` branch: a nested chain does nothing. */
  lemma {:induction false} NestedChainIgnored(rest: string, os: Platform, ok: Effect -> bool)
    ensures Decode("chain:" + rest) == Ignored
    ensures StepTrace("chain:" + rest, os, ok) == []
  {
    var s := "chain:" + rest;
    assert s[0] == 'c';
    DiffersAt(s, "wait:", 0);
    DiffersAt(s, "mouse:", 0);
    DiffersAt(s, "hotkey:", 0);
    DiffersAt(s, "shell:", 0);
    DiffersAt(s, "app:", 0);
    DiffersAt(s, "web:", 0);
    DiffersAt(s, "type:", 0);
    DiffersAt(s, "paste:", 0);
  }

  /** The pieces of `a|b` (or `a+b`) when neither piece holds the separator. */
  lemma {:induction false} SplitTwo(a: string, c: char, b: string)
    requires c !in a && c !in b
    ensures SplitOn(a + [c] + b, c) == [a, b]
  {
    SplitFirstOfJoined(a, c, b);
    assert SplitOn(b, c) == [b];
  }

  lemma ChainTracePair(x: string, y: string, os: Platform, ok: Effect -> bool)
    ensures ChainTrace([x, y], os, ok) == PieceTrace(x, os, ok) + PieceTrace(y, os, ok)
  {
    assert [x, y][1..] == [y];
    assert [y][1..] == [];
    assert ChainTrace([y], os, ok) == PieceTrace(y, os, ok) + ChainTrace([], os, ok);
    assert ChainTrace([x, y], os, ok) == PieceTrace(x, os, ok) + ChainTrace([y], os, ok);
  }

  /** `chain:a|b` runs `a` and then `b`; neither can keep the other from running. */
  lemma {:induction false} ChainOfTwo(a: string, b: string, os: Platform, ok: Effect -> bool)
    requires '|' !in a && '|' !in b && Trimmed(a) && Trimmed(b) && a != "" && b != ""
    ensures ActionTrace("chain:" + a + "|" + b, os, ok) == StepTrace(a, os, ok) + StepTrace(b, os, ok)
  {
    var s := "chain:" + a + "|" + b;
    assert s == "chain:" + (a + "|" + b);
    assert s[..6] == "chain:";
    AfterTag(s, "chain");
    assert AfterColon(s) == a + "|" + b by {
      assert s[6..] == a + "|" + b;
    }
    SplitTwo(a, '|', b);
    ChainTracePair(a, b, os, ok);
    StripTrimmed(a);
    StripTrimmed(b);
  }

  /** The field after `tag:` when the field has no colon of its own. */
  lemma SecondFieldOf(tag: string, v: string)
    requires ':' !in tag && ':' !in v
    ensures ':' in tag + ":" + v
    ensures SecondField(tag + ":" + v) == v
  {
    var s := tag + ":" + v;
    assert s == tag + [':'] + v;
    SplitFirstOfJoined(tag, ':', v);
    assert SplitOn(v, ':') == [v];
  }

  /** `wait:<n>` sleeps `n` milliseconds: `int()` reads back the decimal digits. */
  lemma {:induction false} WaitDecode(d: string, n: nat)
    requires d == DecimalString(n)
    ensures Decode("wait:" + d) == WaitMs(n)
  {
    assert ':' !in d by {
      forall k | 0 <= k < |d| ensures d[k] != ':' { assert IsDigit(d[k]); }
    }
    WaitField(d);
    DecodeWait("wait:" + d);
    ParseIntOfDecimal(n);
  }

  /** A `wait:` whose argument is not a decimal integer is rejected before anything happens. */
  lemma {:induction false} WaitRejected(v: string, os: Platform, ok: Effect -> bool)
    requires ':' !in v && ParseInt(v).None?
    ensures StepTrace("wait:" + v, os, ok) == [Rejected("wait:" + v)]
  {
    WaitField(v);
    DecodeWait("wait:" + v);
  }

  /** A negative `wait:` argument is rejected too: `time.sleep` raises before any call. */
  lemma {:induction false} NegativeWaitRejected(n: nat, os: Platform, ok: Effect -> bool)
    requires n > 0
    ensures StepTrace("wait:-" + DecimalString(n), os, ok) == [Rejected("wait:-" + DecimalString(n))]
  {
    var v := "-" + DecimalString(n);
    assert ':' !in v by {
      forall k | 0 <= k < |v| ensures v[k] != ':' { if k > 0 { assert v[k] == DecimalString(n)[k - 1]; } }
    }
    assert "wait:-" + DecimalString(n) == "wait:" + v;
    WaitField(v);
    DecodeWait("wait:" + v);
    ParseIntOfNegative(n);
  }

  /** The argument of `wait:v` is `v` when `v` has no colon. */
  lemma {:induction false} WaitField(v: string)
    requires ':' !in v
    ensures StartsWith("wait:" + v, "wait:") && ':' in "wait:" + v && SecondField("wait:" + v) == v
  {
    var s := "wait:" + v;
    assert s[..5] == "wait:";
    assert s == "wait" + ":" + v;
    SecondFieldOf("wait", v);
  }

  /** A step starting with `wait:` is decoded from its second field alone. */
  lemma {:induction false} DecodeWait(s: string)
    requires StartsWith(s, "wait:")
    ensures ':' in s && Decode(s) == WaitCommand(SecondField(s))
  {
    AfterTag(s, "wait");
  }

  /** `hotkey:` lower-cases the field and splits it on `+` but does not trim the keys; joining
      them back gives the lower-cased field. */
  lemma {:induction false} HotkeyDecode(v: string)
    requires ':' !in v
    ensures Decode("hotkey:" + v) == Keys(SplitOn(Lower(v), '+'))
    ensures Join(Decode("hotkey:" + v).keys, '+') == Lower(v)
  {
    var s := "hotkey:" + v;
    assert s[..7] == "hotkey:";
    assert s == "hotkey" + [':'] + v;
    SplitFirstOfJoined("hotkey", ':', v);
    assert SplitOn(v, ':') == [v];
    assert SplitOn(s, ':') == ["hotkey", v];
    DiffersAt(s, "wait:", 0);
    DiffersAt(s, "mouse:", 0);
  }

  /** Only the text up to a second colon is read by `hotkey:`: the rest is dropped. */
  lemma {:induction false} HotkeyStopsAtSecondColon(v: string, rest: string)
    requires ':' !in v
    ensures Decode("hotkey:" + v + ":" + rest) == Keys(SplitOn(Lower(v), '+'))
  {
    var s := "hotkey:" + v + ":" + rest;
    assert s[..7] == "hotkey:";
    assert s == "hotkey" + [':'] + (v + ":" + rest);
    SplitFirstOfJoined("hotkey", ':', v + ":" + rest);
    SplitFirstOfJoined(v, ':', rest);
    assert SplitOn(v + ":" + rest, ':')[0] == v;
    DiffersAt(s, "wait:", 0);
    DiffersAt(s, "mouse:", 0);
  }

  /** `mouse:` clicks the button named by the trimmed, lower-cased second field; text after a
      second colon is dropped. */
  lemma {:induction false} MouseDecode(v: string, rest: string)
    requires ':' !in v
    ensures Decode("mouse:" + v) == MouseCommand(Lower(Strip(v)))
    ensures Decode("mouse:" + v + ":" + rest) == MouseCommand(Lower(Strip(v)))
  {
    var s := "mouse:" + v;
    assert s[..6] == "mouse:";
    assert s == "mouse" + ":" + v;
    SecondFieldOf("mouse", v);
    DiffersAt(s, "wait:", 0);
    var t := "mouse:" + v + ":" + rest;
    assert t[..6] == "mouse:";
    assert t == "mouse" + [':'] + (v + ":" + rest);
    SplitFirstOfJoined("mouse", ':', v + ":" + rest);
    SplitFirstOfJoined(v, ':', rest);
    assert SplitOn(v + ":" + rest, ':')[0] == v;
    DiffersAt(t, "wait:", 0);
  }

  /** `web:` opens the URL built from everything after the first colon. */
  lemma {:induction false} WebDecode(v: string)
    ensures Decode("web:" + v) == Browse(BrowserUrl(v))
  {
    var s := "web:" + v;
    assert s[..4] == "web:";
    AfterTag(s, "web");
    assert s[4..] == v;
    DiffersAt(s, "wait:", 1);
    DiffersAt(s, "mouse:", 0);
    DiffersAt(s, "hotkey:", 0);
    DiffersAt(s, "shell:", 0);
    DiffersAt(s, "app:", 0);
  }

  /** `shell:` and `app:` both launch the trimmed payload after the first colon. */
  lemma {:induction false} LaunchDecode(v: string)
    ensures Decode("shell:" + v) == Launch(Strip(v))
    ensures Decode("app:" + v) == Launch(Strip(v))
  {
    var s := "shell:" + v;
    assert s[..6] == "shell:";
    AfterTag(s, "shell");
    assert s[6..] == v;
    DiffersAt(s, "wait:", 0);
    DiffersAt(s, "mouse:", 0);
    DiffersAt(s, "hotkey:", 0);
    var t := "app:" + v;
    assert t[..4] == "app:";
    AfterTag(t, "app");
    assert t[4..] == v;
    DiffersAt(t, "wait:", 0);
    DiffersAt(t, "mouse:", 0);
    DiffersAt(t, "hotkey:", 0);
    DiffersAt(t, "shell:", 0);
  }

  /** `type:` and `paste:` both paste everything after the first colon, colons included. */
  lemma {:induction false} PasteDecode(v: string)
    ensures Decode("type:" + v) == PasteText(v)
    ensures Decode("paste:" + v) == PasteText(v)
  {
    var s := "type:" + v;
    assert s[..5] == "type:";
    AfterTag(s, "type");
    assert s[5..] == v;
    DiffersAt(s, "wait:", 0);
    DiffersAt(s, "mouse:", 0);
    DiffersAt(s, "hotkey:", 0);
    DiffersAt(s, "shell:", 0);
    DiffersAt(s, "app:", 0);
    DiffersAt(s, "web:", 0);
    var t := "paste:" + v;
    assert t[..6] == "paste:";
    AfterTag(t, "paste");
    assert t[6..] == v;
    DiffersAt(t, "wait:", 0);
    DiffersAt(t, "mouse:", 0);
    DiffersAt(t, "hotkey:", 0);
    DiffersAt(t, "shell:", 0);
    DiffersAt(t, "app:", 0);
    DiffersAt(t, "web:", 0);
    DiffersAt(t, "type:", 0);
  }

  /** A paste the host fully accepts copies, pauses, and presses modifier+v with the modifier
      released last; a paste interrupted after the modifier went down never releases it. */
  lemma {:induction false} PasteOrder(text: string, os: Platform, ok: Effect -> bool)
    ensures var m := if os == Darwin then "command" else "ctrl";
            var plan := PastePlan(text, os);
            (forall i :: 0 <= i < 5 ==> ok(plan[i])) ==>
              Perform(plan, ok) == [Done(CopyText(text)), Done(Sleep(100)), Done(KeyDown(m)), Done(Press("v")), Done(KeyUp(m))]
    ensures var m := if os == Darwin then "command" else "ctrl";
            ok(CopyText(text)) && ok(Sleep(100)) && ok(KeyDown(m)) && !ok(Press("v")) ==>
              Perform(PastePlan(text, os), ok)
                == [Done(CopyText(text)), Done(Sleep(100)), Done(KeyDown(m)), Failed(Press("v"))]
  {
    var plan := PastePlan(text, os);
    if forall i :: 0 <= i < 5 ==> ok(plan[i]) {
      PerformAllAccepted(plan, ok);
    }
    if ok(plan[0]) && ok(plan[1]) && ok(plan[2]) && !ok(plan[3]) {
      PasteInterrupted(plan, ok);
    }
  }

  /** A plan whose fourth call raises stops there, after three completed calls. */
  lemma PasteInterrupted(plan: seq<Effect>, ok: Effect -> bool)
    requires |plan| == 5 && ok(plan[0]) && ok(plan[1]) && ok(plan[2]) && !ok(plan[3])
    ensures Perform(plan, ok) == [Done(plan[0]), Done(plan[1]), Done(plan[2]), Failed(plan[3])]
  {
    assert Perform(plan[3..], ok) == [Failed(plan[3])];
    assert Perform(plan[2..], ok) == [Done(plan[2])] + Perform(plan[3..], ok);
    assert Perform(plan[1..], ok) == [Done(plan[1])] + Perform(plan[2..], ok);
  }


  /** `hotkey:a+b` with lower-case key names presses exactly `a` and `b`. */
  lemma {:induction false} HotkeyOfTwo(a: string, b: string)
    requires ':' !in a && ':' !in b && '+' !in a && '+' !in b && Lower(a) == a && Lower(b) == b
    ensures Decode("hotkey:" + a + "+" + b) == Keys([a, b])
  {
    var v := a + "+" + b;
    assert "hotkey:" + a + "+" + b == "hotkey:" + v;
    assert ':' !in v;
    HotkeyDecode(v);
    LowerJoined(a, b);
    SplitTwo(a, '+', b);
  }

  /** `a+b` is its own lower case when `a` and `b` are. */
  lemma LowerJoined(a: string, b: string)
    requires Lower(a) == a && Lower(b) == b
    ensures Lower(a + "+" + b) == a + "+" + b
  {
    var v := a + "+" + b;
    forall k | 0 <= k < |v| ensures !('A' <= v[k] <= 'Z') {
      if k < |a| {
        assert v[k] == Lower(a)[k];
      } else if k > |a| {
        assert v[k] == Lower(b)[k - |a| - 1];
      }
    }
    LowerOfLowerCase(v);
  }

  lemma CtrlSKeys()
    ensures Decode("hotkey:ctrl+s") == Keys(["ctrl", "s"])
  {
    assert "hotkey:ctrl+s" == "hotkey:" + "ctrl" + "+" + "s";
    assert Lower("ctrl") == "ctrl";
    assert Lower("s") == "s";
    HotkeyOfTwo("ctrl", "s");
  }

  lemma WaitHundred()
    ensures Decode("wait:100") == WaitMs(100)
  {
    var s := "wait:100";
    assert s == "wait:" + "100";
    HundredDigits();
    WaitDecode("100", 100);
  }

  lemma HundredDigits()
    ensures DecimalString(100) == "100"
  {
    assert DecimalString(10) == "10";
  }

  /** `chain:wait:100|hotkey:ctrl+s` waits before pressing ctrl+s, and the hotkey step runs
      (and may fail on its own) whatever the wait did. */
  lemma {:induction false} WaitThenSave(os: Platform, ok: Effect -> bool)
    ensures ActionTrace("chain:wait:100|hotkey:ctrl+s", os, ok)
         == Perform([Sleep(100)], ok) + Perform([Sleep(100), Hotkey(["ctrl", "s"])], ok)
  {
    WaitThenSaveSteps();
    WaitHundred();
    CtrlSKeys();
    WaitThenKeys("wait:100", "hotkey:ctrl+s", ["ctrl", "s"], os, ok);
  }

  /** A chain of a step that waits 100 ms and a step that presses `keys`. */
  lemma {:induction false} WaitThenKeys(w: string, h: string, keys: seq<string>, os: Platform, ok: Effect -> bool)
    requires '|' !in w && '|' !in h && Trimmed(w) && Trimmed(h) && w != "" && h != ""
    requires Decode(w) == WaitMs(100) && Decode(h) == Keys(keys)
    ensures ActionTrace("chain:" + w + "|" + h, os, ok) == Perform([Sleep(100)], ok) + Perform([Sleep(100), Hotkey(keys)], ok)
  {
    ChainOfTwo(w, h, os, ok);
    StepTraceOf(w, WaitMs(100), os, ok);
    StepTraceOf(h, Keys(keys), os, ok);
    WaitAndKeysPlans(keys, os);
  }

  /** The plans of a 100 ms wait and of a hotkey. */
  lemma WaitAndKeysPlans(keys: seq<string>, os: Platform)
    ensures Plan(WaitMs(100), os) == [Sleep(100)]
    ensures Plan(Keys(keys), os) == [Sleep(100), Hotkey(keys)]
  {
  }

  /** The two steps of `chain:wait:100|hotkey:ctrl+s`, each a trimmed step without `|`. */
  lemma WaitThenSaveSteps()
    ensures "chain:wait:100|hotkey:ctrl+s" == "chain:" + "wait:100" + "|" + "hotkey:ctrl+s"
    ensures '|' !in "wait:100" && Trimmed("wait:100")
    ensures '|' !in "hotkey:ctrl+s" && Trimmed("hotkey:ctrl+s")
  {
    var w := "wait:100";
    var h := "hotkey:ctrl+s";
    assert forall k :: 0 <= k < |w| ==> w[k] != '|';
    assert forall k :: 0 <= k < |h| ==> h[k] != '|';
  }

  /** A step decoded into a command that is not a rejected wait runs that command's plan. */
  lemma StepTraceOf(step: string, c: Command, os: Platform, ok: Effect -> bool)
    requires Decode(step) == c && !c.BadWait?
    ensures StepTrace(step, os, ok) == Perform(Plan(c, os), ok)
  {
  }

}
