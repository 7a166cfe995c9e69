/** The host capabilities the action handlers call (pyautogui, webbrowser, subprocess,
    os.startfile, pyperclip, time.sleep), as abstract effects recorded in a trace.
    Whether the host accepts a call is an oracle `ok: Effect -> bool`. */
module Actuation {
  import opened Strings

  datatype Platform = Windows | Darwin | OtherOS

  datatype Button = Left | Right | Middle | Mouse4 | Mouse5

  datatype Effect =
    | Click(button: Button)                      // pyautogui.click / rightClick / middleClick
    | DoubleClick                                // pyautogui.doubleClick
    | Hotkey(keys: seq<string>)                  // pyautogui.hotkey(*keys)
    | Press(key: string)                         // pyautogui.press
    | KeyDown(key: string)                       // pyautogui.keyDown
    | KeyUp(key: string)                         // pyautogui.keyUp
    | Write(text: string)                        // pyautogui.write
    | StartFile(target: string)                  // os.startfile
    | Spawn(command: string, newSession: bool)   // subprocess.Popen(..., shell=True)
    | OpenUrl(url: string)                       // webbrowser.open
    | CopyText(text: string)                     // pyperclip.copy
    | Sleep(ms: nat)                             // time.sleep
    | Message(text: string)                      // the `print:` action's output line

  datatype Event =
    | Done(effect: Effect)      // the host carried the call out
    | Failed(effect: Effect)    // the call raised; the exception was caught and logged
    | Rejected(step: string)    // the step raised before any call (a malformed argument)

  /** The `web:` target: the trimmed payload, given an `https://` scheme exactly when it
      does not already start with `http`. */
  function BrowserUrl(payload: string): (url: string)
    ensures StartsWith(url, "http")
    ensures Trimmed(url)
    ensures StartsWith(Strip(payload), "http") ==> url == Strip(payload)
    ensures !StartsWith(Strip(payload), "http") ==> url == "https://" + Strip(payload)
  {
    var u := Strip(payload);
    if StartsWith(u, "http") then u
    else
      var r := "https://" + u;
      assert r[..4] == "http";
      r
  }

  /** Opening an already-built URL again changes nothing: the scheme is added at most once. */
  lemma {:induction false} BrowserUrlIdempotent(payload: string)
    ensures BrowserUrl(BrowserUrl(payload)) == BrowserUrl(payload)
  {
    StripTrimmed(BrowserUrl(payload));
  }

  /** Issue the calls of `plan` in order; the first call that raises ends the plan
      (the rest of its `try` block is skipped). */
  function Perform(plan: seq<Effect>, ok: Effect -> bool): (trace: seq<Event>)
    ensures |trace| <= |plan|
    ensures forall i :: 0 <= i < |trace| ==> !trace[i].Rejected? && trace[i].effect == plan[i]
    ensures forall i :: 0 <= i < |trace| ==> (trace[i].Done? <==> ok(plan[i]))
    ensures forall i :: 0 <= i < |trace| - 1 ==> trace[i].Done?
    ensures |trace| < |plan| ==> |trace| > 0 && trace[|trace| - 1].Failed?
    ensures (forall i :: 0 <= i < |plan| ==> ok(plan[i])) ==> |trace| == |plan|
  {
    if plan == [] then []
    else if ok(plan[0]) then [Done(plan[0])] + Perform(plan[1..], ok)
    else [Failed(plan[0])]
  }

  /** A run in which every call goes through records each effect once, in order. */
  lemma {:induction false} PerformAllAccepted(plan: seq<Effect>, ok: Effect -> bool)
    requires forall i :: 0 <= i < |plan| ==> ok(plan[i])
    ensures Perform(plan, ok) == seq(|plan|, i requires 0 <= i < |plan| => Done(plan[i]))
  {
    if plan != [] {
      PerformAllAccepted(plan[1..], ok);
    }
  }
}
