/** The per-frame control loop of `main.py`: the cursor smoother, the pointer step (clamped
    cursor move and thumb drag latch, only in follow mode) and the hold-to-confirm trigger
    latch that runs a gesture's action once per hold. Time is the `now` parameter; the
    camera, hand tracking and the mapping from camera to screen coordinates come in as a
    `Hand` observation. */
module Controller {
  import opened Strings
  import Config
  import Landmarks

  /** The action that switches follow mode instead of being executed. */
  const ToggleFollow: string := "special:toggle_follow"

  /** How far above the index knuckle the thumb tip must be for a drag. */
  const ThumbMargin: real := 0.02

  /** The smoothing factor of the cursor smoother. */
  const PointerAlpha: real := 0.2

  /** The smoother's value: a number, or an (x, y) pair once `update_point` has run. */
  datatype SmoothVal = Scalar(v: real) | Pair(x: real, y: real)

  /** One exponential-smoothing step from `cur` towards `target`: a factor of 0 keeps the old
      value, a factor of 1 jumps to the target, and a value at the target stays there. */
  function Blend(cur: real, target: real, alpha: real): (r: real)
    ensures alpha == 0.0 ==> r == cur
    ensures alpha == 1.0 ==> r == target
    ensures cur == target ==> r == target
  {
    cur * (1.0 - alpha) + target * alpha
  }

  /** With `0 <= alpha <= 1` a step lands between the old value and the target, a fraction
      `1 - alpha` of the old distance from the target, and strictly closer when `alpha > 0`. */
  lemma {:induction false} BlendBetween(cur: real, target: real, alpha: real)
    requires 0.0 <= alpha <= 1.0
    ensures Blend(cur, target, alpha) - target == (1.0 - alpha) * (cur - target)
    ensures cur <= target ==> cur <= Blend(cur, target, alpha) <= target
    ensures target <= cur ==> target <= Blend(cur, target, alpha) <= cur
    ensures alpha > 0.0 && cur != target ==> Landmarks.Abs(Blend(cur, target, alpha) - target) < Landmarks.Abs(cur - target)
  {
    var d := cur - target;
    var e := alpha * d;
    BlendOffset(cur, target, alpha, d, e);
    FractionBounds(alpha, d, e);
    ShrunkOffset(cur, target, Blend(cur, target, alpha), e, alpha > 0.0);
  }

  /** A value whose offset from the target is the old offset less a part `e` of it, of the
      same sign and no larger, lies between the old value and the target. */
  lemma ShrunkOffset(cur: real, target: real, b: real, e: real, strict: bool)
    requires b - target == (cur - target) - e
    requires cur >= target ==> 0.0 <= e <= cur - target
    requires cur <= target ==> cur - target <= e <= 0.0
    requires strict && cur > target ==> e > 0.0
    requires strict && cur < target ==> e < 0.0
    ensures cur <= target ==> cur <= b <= target
    ensures target <= cur ==> target <= b <= cur
    ensures strict && cur != target ==> Landmarks.Abs(b - target) < Landmarks.Abs(cur - target)
  {
  }

  /** The step's offset from the target, through the one product `e == alpha * d`. */
  lemma BlendOffset(cur: real, target: real, alpha: real, d: real, e: real)
    requires d == cur - target && e == alpha * d
    ensures Blend(cur, target, alpha) - target == d - e
    ensures (1.0 - alpha) * (cur - target) == d - e
  {
  }

  lemma FractionBounds(alpha: real, d: real, e: real)
    requires 0.0 <= alpha <= 1.0 && e == alpha * d
    ensures d >= 0.0 ==> 0.0 <= e <= d
    ensures d <= 0.0 ==> d <= e <= 0.0
    ensures alpha > 0.0 && d > 0.0 ==> e > 0.0
    ensures alpha > 0.0 && d < 0.0 ==> e < 0.0
  {
    if d >= 0.0 {
      assert d - alpha * d == (1.0 - alpha) * d;
    } else {
      assert alpha * d - d == (1.0 - alpha) * -d;
    }
  }

  /** The value `update_point` stores: the old pair blended towards `(x, y)`, or `(x, y)`
      itself when the smoother does not yet hold a pair. */
  function Smoothed(val: SmoothVal, alpha: real, x: real, y: real): (r: SmoothVal)
    ensures r.Pair?
    ensures !val.Pair? ==> r == Pair(x, y)
  {
    if val.Pair? then Pair(Blend(val.x, x, alpha), Blend(val.y, y, alpha))
    else
      assert Blend(x, x, alpha) == x && Blend(y, y, alpha) == y;
      Pair(Blend(x, x, alpha), Blend(y, y, alpha))
  }

  /** Each smoothing step moves the stored pair no further from the target, and strictly
      closer on every axis where it differs, for `0 < alpha <= 1`. */
  lemma {:induction false} SmoothedCloser(val: SmoothVal, alpha: real, x: real, y: real)
    requires val.Pair? && 0.0 <= alpha <= 1.0
    ensures var r := Smoothed(val, alpha, x, y);
            Landmarks.Abs(r.x - x) <= Landmarks.Abs(val.x - x) && Landmarks.Abs(r.y - y) <= Landmarks.Abs(val.y - y)
    ensures var r := Smoothed(val, alpha, x, y);
            alpha > 0.0 ==> (val.x != x ==> Landmarks.Abs(r.x - x) < Landmarks.Abs(val.x - x)) && (val.y != y ==> Landmarks.Abs(r.y - y) < Landmarks.Abs(val.y - y))
  {
    BlendBetween(val.x, x, alpha);
    BlendBetween(val.y, y, alpha);
  }

  /** Python's `int()` on a float: truncation toward zero. */
  function Trunc(r: real): (n: int)
    ensures r >= 0.0 ==> 0 <= n && n as real <= r < n as real + 1.0
    ensures r < 0.0 ==> n <= 0 && n as real - 1.0 < r <= n as real
  {
    if r >= 0.0 then r.Floor else -((-r).Floor)
  }

  /** `Smoother`: an exponential filter whose value is replaced by each update. */
  class Smoother {
    const alpha: real
    var val: SmoothVal

    constructor (alpha: real, start: SmoothVal)
      ensures this.alpha == alpha && val == start
    {
      this.alpha := alpha;
      val := start;
    }

    /** `update`; on a smoother holding a pair Python raises, so a number is required. */
    method Update(newVal: real) returns (r: real)
      requires val.Scalar?
      modifies this
      ensures val == Scalar(Blend(old(val).v, newVal, alpha))
      ensures r == val.v
    {
      val := Scalar(val.v * (1.0 - alpha) + newVal * alpha);
      r := val.v;
    }

    /** `update_point`: the new pair is stored and returned truncated to integers. */
    method UpdatePoint(x: real, y: real) returns (ix: int, iy: int)
      modifies this
      ensures val == Smoothed(old(val), alpha, x, y)
      ensures ix == Trunc(val.x) && iy == Trunc(val.y)
    {
      var curX, curY;
      if val.Pair? {
        curX, curY := val.x, val.y;
      } else {
        curX, curY := x, y;
      }
      var newX := curX * (1.0 - alpha) + x * alpha;
      var newY := curY * (1.0 - alpha) + y * alpha;
      val := Pair(newX, newY);
      ix, iy := Trunc(newX), Trunc(newY);
    }
  }

  /** `max(0, min(hi, v))`: the cursor coordinate kept on the screen. */
  function Clamp(v: int, hi: int): (r: int)
    ensures hi >= 0 ==> 0 <= r <= hi
    ensures 0 <= v <= hi ==> r == v
    ensures hi >= 0 && v > hi ==> r == hi
    ensures v < 0 ==> r == 0
  {
    if hi < v then (if hi < 0 then 0 else hi) else if v < 0 then 0 else v
  }

  /** Clamping twice is clamping once. */
  lemma {:induction false} ClampIdempotent(v: int, hi: int)
    requires hi >= 0
    ensures Clamp(Clamp(v, hi), hi) == Clamp(v, hi)
  {
  }

  /** The thumb tip is above the index knuckle by more than the margin (image y grows down). */
  function IsThumbUp(thumbTipY: real, indexMcpY: real): (up: bool)
    ensures up ==> thumbTipY < indexMcpY
    ensures up <==> thumbTipY + ThumbMargin < indexMcpY
  {
    indexMcpY - thumbTipY > ThumbMargin
  }

  /** What the loop sends to the host. `Run` hands the action string to the action handler. */
  datatype Output = MoveTo(x: int, y: int) | MouseDown | MouseUp | Run(action: string)

  /** One tracked hand: the classifier's answer, the cursor target in screen coordinates
      (the result of the camera-to-screen interpolation) and the two landmark heights the
      drag test reads. */
  datatype Hand = Hand(name: Option<string>, targetX: real, targetY: real, thumbTipY: real, indexMcpY: real)

  /** The trigger latch: `curr_gest`, `gest_time`, `triggered`. */
  datatype Latch = Latch(current: Option<string>, since: real, triggered: bool)

  /** All state carried from one frame to the next. */
  datatype State = State(latch: Latch, following: bool, dragging: bool, smoothed: SmoothVal)

  /** `(SCREEN_W//2, SCREEN_H//2)`. */
  function Centre(screenW: nat, screenH: nat): SmoothVal {
    Pair((screenW / 2) as real, (screenH / 2) as real)
  }

  /** The state before the first frame. */
  function Initial(screenW: nat, screenH: nat): State {
    State(Latch(None, 0.0, false), false, false, Centre(screenW, screenH))
  }

  /** The drag latch: mouse-down on the not-dragging to thumb-up transition, mouse-up on the
      reverse, nothing otherwise; afterwards dragging is exactly "thumb up". */
  function DragStep(dragging: bool, thumbUp: bool): (r: (bool, seq<Output>))
    ensures r.0 == thumbUp
    ensures |r.1| <= 1
    ensures MouseDown in r.1 <==> !dragging && thumbUp
    ensures MouseUp in r.1 <==> dragging && !thumbUp
    ensures forall o :: o in r.1 ==> o == MouseDown || o == MouseUp
  {
    if thumbUp then
      if !dragging then (true, [MouseDown]) else (true, [])
    else
      if dragging then (false, [MouseUp]) else (false, [])
  }

  /** The name the classifier reported this frame (none without a hand). */
  function Detected(hand: Option<Hand>): Option<string> {
    if hand.Some? then hand.value.name else None
  }

  /** The follow-mode part of a frame: smooth the target, clamp it to the screen, move the
      cursor, then run the drag latch. Without a hand, or outside follow mode, nothing happens. */
  function PointerStep(s: State, hand: Option<Hand>, screenW: nat, screenH: nat): (r: (State, seq<Output>))
    ensures r.0.latch == s.latch && r.0.following == s.following
    ensures hand.None? || !s.following ==> r == (s, [])
    ensures hand.Some? && s.following ==>
              && r.0.smoothed == Smoothed(s.smoothed, PointerAlpha, hand.value.targetX, hand.value.targetY)
              && |r.1| >= 1
              && r.1[0] == MoveTo(Clamp(Trunc(r.0.smoothed.x), screenW), Clamp(Trunc(r.0.smoothed.y), screenH))
              && 0 <= r.1[0].x <= screenW && 0 <= r.1[0].y <= screenH
              && r.0.dragging == IsThumbUp(hand.value.thumbTipY, hand.value.indexMcpY)
              && r.1[1..] == DragStep(s.dragging, r.0.dragging).1
  {
    if hand.None? || !s.following then (s, [])
    else
      var h := hand.value;
      var smoothed := Smoothed(s.smoothed, PointerAlpha, h.targetX, h.targetY);
      var x := Clamp(Trunc(smoothed.x), screenW);
      var y := Clamp(Trunc(smoothed.y), screenH);
      var (dragging, presses) := DragStep(s.dragging, IsThumbUp(h.thumbTipY, h.indexMcpY));
      (s.(dragging := dragging, smoothed := smoothed), [MoveTo(x, y)] + presses)
  }

  /** The hold-to-confirm latch. `blocked` is "the pointer is dragging". The second component
      says whether the latch fires this frame. */
  function LatchStep(l: Latch, detected: Option<string>, blocked: bool, now: real, holdTime: real): (r: (Latch, bool))
    ensures r.1 <==> Config.Given(detected) && !blocked && detected == l.current
                     && now - l.since >= holdTime && !l.triggered
    ensures !Config.Given(detected) || blocked ==> r.0.current == None && !r.0.triggered
    ensures Config.Given(detected) && !blocked && detected != l.current ==> r.0 == Latch(detected, now, false)
    ensures Config.Given(detected) && !blocked && detected == l.current ==>
              r.0.current == l.current && r.0.since == l.since && r.0.triggered == (l.triggered || r.1)
  {
    if Config.Given(detected) && !blocked then
      if detected == l.current then
        if now - l.since >= holdTime && !l.triggered then (l.(triggered := true), true)
        else (l, false)
      else (Latch(detected, now, false), false)
    else (l.(current := None, triggered := false), false)
  }

  /** One frame of the loop: the pointer step, then the trigger latch on the name detected
      and the dragging state after the pointer step. When the latch fires, the gesture's
      action either toggles follow mode (re-centring the smoother) or, outside follow mode,
      is handed to the action handler. */
  function FrameStep(s: State, hand: Option<Hand>, now: real, holdTime: real, config: Config.Document,
                     screenW: nat, screenH: nat): (r: (State, seq<Output>))
    ensures var p := PointerStep(s, hand, screenW, screenH);
            var l := LatchStep(p.0.latch, Detected(hand), p.0.dragging, now, holdTime);
            && r.0.latch == l.0
            && r.0.dragging == p.0.dragging
            && |p.1| <= |r.1| && r.1[..|p.1|] == p.1
            && (!l.1 ==> r == (p.0.(latch := l.0), p.1))
  {
    var (p, moves) := PointerStep(s, hand, screenW, screenH);
    var detected := Detected(hand);
    var (latch, fire) := LatchStep(p.latch, detected, p.dragging, now, holdTime);
    if !fire then (p.(latch := latch), moves)
    else
      var act := Config.ActionOf(config, detected.value);
      if act == Some(ToggleFollow) then
        var following := !p.following;
        var release := !following && p.dragging;
        (State(latch, following, p.dragging && !release, Centre(screenW, screenH)),
         moves + (if release then [MouseUp] else []))
      else if Config.Given(act) && !p.following then
        (p.(latch := latch), moves + [Run(act.value)])
      else (p.(latch := latch), moves)
  }

  /** When the latch fires, `triggered` is set whatever the action; the toggle flips follow
      mode, re-centres the smoother and never releases the mouse (the latch cannot fire while
      dragging); any other non-empty action runs exactly when follow mode is off. */
  lemma {:induction false} FireOutcome(s: State, hand: Option<Hand>, now: real, holdTime: real, config: Config.Document,
                                       screenW: nat, screenH: nat)
    requires var p := PointerStep(s, hand, screenW, screenH);
             LatchStep(p.0.latch, Detected(hand), p.0.dragging, now, holdTime).1
    ensures var p := PointerStep(s, hand, screenW, screenH);
            var r := FrameStep(s, hand, now, holdTime, config, screenW, screenH);
            var act := Config.ActionOf(config, Detected(hand).value);
            && r.0.latch.triggered
            && !r.0.dragging
            && (act == Some(ToggleFollow) ==>
                  r.0.following == !s.following && r.0.smoothed == Centre(screenW, screenH) && r.1 == p.1)
            && (act != Some(ToggleFollow) && Config.Given(act) && !s.following ==>
                  r.0.following == s.following && r.1 == p.1 + [Run(act.value)])
            && (act != Some(ToggleFollow) && !(Config.Given(act) && !s.following) ==>
                  r.0.following == s.following && r.1 == p.1)
  {
    var p := PointerStep(s, hand, screenW, screenH);
    assert !p.0.dragging;
  }

  /** A frame without a gesture, or while dragging, runs nothing and clears the latch. */
  lemma {:induction false} NoGestureResets(s: State, hand: Option<Hand>, now: real, holdTime: real, config: Config.Document,
                                           screenW: nat, screenH: nat)
    requires !Config.Given(Detected(hand)) || PointerStep(s, hand, screenW, screenH).0.dragging
    ensures var r := FrameStep(s, hand, now, holdTime, config, screenW, screenH);
            r.0.latch.current == None && !r.0.latch.triggered
            && r.1 == PointerStep(s, hand, screenW, screenH).1
            && r.0.following == s.following
  {
  }

  /** A new name becomes the candidate, restarts the hold clock at `now`, clears `triggered`,
      and nothing runs on that frame. */
  lemma {:induction false} NewNameRestartsHold(s: State, hand: Option<Hand>, now: real, holdTime: real,
                                               config: Config.Document, screenW: nat, screenH: nat)
    requires var p := PointerStep(s, hand, screenW, screenH);
             Config.Given(Detected(hand)) && !p.0.dragging && Detected(hand) != s.latch.current
    ensures var r := FrameStep(s, hand, now, holdTime, config, screenW, screenH);
            r.0.latch == Latch(Detected(hand), now, false)
            && r.1 == PointerStep(s, hand, screenW, screenH).1
            && r.0.following == s.following
  {
  }

  /** After every frame in follow mode with a hand, dragging is exactly "thumb up". */
  lemma {:induction false} DraggingFollowsThumb(s: State, h: Hand, now: real, holdTime: real,
                                                config: Config.Document, screenW: nat, screenH: nat)
    requires s.following
    ensures FrameStep(s, Some(h), now, holdTime, config, screenW, screenH).0.dragging
            == IsThumbUp(h.thumbTipY, h.indexMcpY)
  {
  }

  /** The control loop's variables (`curr_gest`, `gest_time`, `triggered`, `is_following`,
      `is_dragging`) and its smoother, advanced one frame at a time. */
  class Loop {
    var current: Option<string>
    var since: real
    var triggered: bool
    var following: bool
    var dragging: bool
    const pointer: Smoother
    const screenW: nat
    const screenH: nat

    function Snapshot(): State
      reads this, pointer
    {
      State(Latch(current, since, triggered), following, dragging, pointer.val)
    }

    constructor (screenW: nat, screenH: nat)
      ensures Snapshot() == Initial(screenW, screenH)
      ensures this.screenW == screenW && this.screenH == screenH
      ensures pointer.alpha == PointerAlpha && fresh(pointer)
    {
      current := None;
      since := 0.0;
      triggered := false;
      following := false;
      dragging := false;
      pointer := new Smoother(PointerAlpha, Centre(screenW, screenH));
      this.screenW := screenW;
      this.screenH := screenH;
    }

    /** One pass of the `while True` body for a frame showing at most one hand. */
    method Step(hand: Option<Hand>, now: real, holdTime: real, config: Config.Document) returns (out: seq<Output>)
      requires pointer.alpha == PointerAlpha
      modifies this, pointer
      ensures (Snapshot(), out) == FrameStep(old(Snapshot()), hand, now, holdTime, config, screenW, screenH)
    {
      ghost var p := PointerStep(old(Snapshot()), hand, screenW, screenH);
      out := [];
      var detected: Option<string> := None;
      if hand.Some? {
        detected := hand.value.name;
        if following {
          var x, y := pointer.UpdatePoint(hand.value.targetX, hand.value.targetY);
          x := Clamp(x, screenW);
          y := Clamp(y, screenH);
          out := out + [MoveTo(x, y)];
          var thumbUp := IsThumbUp(hand.value.thumbTipY, hand.value.indexMcpY);
          if thumbUp {
            if !dragging {
              out := out + [MouseDown];
              dragging := true;
            }
          } else {
            if dragging {
              out := out + [MouseUp];
              dragging := false;
            }
          }
        }
      }
      assert Snapshot() == p.0 && out == p.1 && detected == Detected(hand);
      ghost var l := LatchStep(p.0.latch, detected, dragging, now, holdTime);
      if Config.Given(detected) && !dragging {
        if detected == current {
          var dur := now - since;
          if dur >= holdTime && !triggered {
            var act := Config.ActionOf(config, detected.value);
            if act == Some(ToggleFollow) {
              following := !following;
              // Unreachable release: the latch only fires while not dragging.
              var release := !following && dragging;
              if release {
                out := out + [MouseUp];
              }
              dragging := dragging && !release;
              pointer.val := Centre(screenW, screenH);
            } else if Config.Given(act) && !following {
              out := out + [Run(act.value)];
            }
            triggered := true;
            ghost var r := FrameStep(old(Snapshot()), hand, now, holdTime, config, screenW, screenH);
            assert l.1 && r.0 == Snapshot() && r.1 == out;
          }
        } else {
          current := detected;
          since := now;
          triggered := false;
        }
      } else {
        current := None;
        triggered := false;
      }
      assert Latch(current, since, triggered) == l.0;
    }
  }

  /** What the latch sees in one frame. */
  datatype Observation = Observation(detected: Option<string>, blocked: bool, now: real)

  /** How many times the latch fires over a run of frames. */
  function Fires(l: Latch, run: seq<Observation>, holdTime: real): nat
    decreases |run|
  {
    if run == [] then 0
    else
      var (next, fired) := LatchStep(l, run[0].detected, run[0].blocked, run[0].now, holdTime);
      (if fired then 1 else 0) + Fires(next, run[1..], holdTime)
  }

  /** The latch after a run of frames. */
  function After(l: Latch, run: seq<Observation>, holdTime: real): Latch
    decreases |run|
  {
    if run == [] then l
    else After(LatchStep(l, run[0].detected, run[0].blocked, run[0].now, holdTime).0, run[1..], holdTime)
  }

  /** Every frame of the run shows `g` and is not blocked by a drag. */
  predicate Holding(run: seq<Observation>, g: string) {
    forall i :: 0 <= i < |run| ==> run[i].detected == Some(g) && !run[i].blocked
  }

  /** Firing counts add up over consecutive runs. */
  lemma {:induction false} FiresAppend(l: Latch, a: seq<Observation>, b: seq<Observation>, holdTime: real)
    ensures Fires(l, a + b, holdTime) == Fires(l, a, holdTime) + Fires(After(l, a, holdTime), b, holdTime)
    decreases |a|
  {
    if a == [] {
      assert a + b == b;
    } else {
      var step := LatchStep(l, a[0].detected, a[0].blocked, a[0].now, holdTime);
      assert (a + b)[0] == a[0] && (a + b)[1..] == a[1..] + b;
      FiresAppend(step.0, a[1..], b, holdTime);
    }
  }

  /** Once the latch has fired for `g`, it does not fire again while `g` stays detected. */
  lemma {:induction false} NoRefireWhileHeld(l: Latch, g: string, run: seq<Observation>, holdTime: real)
    requires g != "" && l.current == Some(g) && l.triggered && Holding(run, g)
    ensures Fires(l, run, holdTime) == 0
    ensures After(l, run, holdTime) == l
  {
    if run != [] {
      NoRefireWhileHeld(l, g, run[1..], holdTime);
    }
  }

  /** A candidate `g` held unfired from time `since` fires exactly once if some frame comes
      at least `holdTime` after `since`, and not at all otherwise. */
  lemma {:induction false} ArmedHoldFiresOnce(l: Latch, g: string, run: seq<Observation>, holdTime: real)
    requires g != "" && l.current == Some(g) && !l.triggered && Holding(run, g)
    ensures Fires(l, run, holdTime) == (if exists k :: 0 <= k < |run| && run[k].now - l.since >= holdTime then 1 else 0)
    ensures After(l, run, holdTime).current == Some(g)
    ensures After(l, run, holdTime).triggered <==> Fires(l, run, holdTime) == 1
  {
    if run != [] {
      var (next, fired) := LatchStep(l, run[0].detected, run[0].blocked, run[0].now, holdTime);
      if fired {
        NoRefireWhileHeld(next, g, run[1..], holdTime);
      } else {
        assert next == l;
        ArmedHoldFiresOnce(l, g, run[1..], holdTime);
        if exists k :: 0 <= k < |run| && run[k].now - l.since >= holdTime {
          var k :| 0 <= k < |run| && run[k].now - l.since >= holdTime;
          assert k != 0;
          assert run[1..][k - 1] == run[k];
        }
        if exists k :: 0 <= k < |run[1..]| && run[1..][k].now - l.since >= holdTime {
          var k :| 0 <= k < |run[1..]| && run[1..][k].now - l.since >= holdTime;
          assert run[k + 1] == run[1..][k];
        }
      }
    }
  }

  /** A gesture that appears (the latch had another candidate, or none) and is then held
      fires exactly once if the hold reaches `holdTime` after its first frame, and never
      otherwise, however long it is held. */
  lemma {:induction false} SustainedHoldFiresOnce(l: Latch, g: string, run: seq<Observation>, holdTime: real)
    requires g != "" && l.current != Some(g) && |run| >= 1 && Holding(run, g)
    ensures Fires(l, run, holdTime) ==
            (if exists k :: 1 <= k < |run| && run[k].now - run[0].now >= holdTime then 1 else 0)
    ensures After(l, run, holdTime).current == Some(g)
    ensures After(l, run, holdTime).triggered <==> Fires(l, run, holdTime) == 1
  {
    var first := LatchStep(l, run[0].detected, run[0].blocked, run[0].now, holdTime).0;
    assert first == Latch(Some(g), run[0].now, false);
    ArmedHoldFiresOnce(first, g, run[1..], holdTime);
    if exists k :: 1 <= k < |run| && run[k].now - run[0].now >= holdTime {
      var k :| 1 <= k < |run| && run[k].now - run[0].now >= holdTime;
      assert run[1..][k - 1] == run[k];
    }
    if exists k :: 0 <= k < |run[1..]| && run[1..][k].now - run[0].now >= holdTime {
      var k :| 0 <= k < |run[1..]| && run[1..][k].now - run[0].now >= holdTime;
      assert run[k + 1] == run[1..][k];
    }
  }

  /** Repeat suppression ends only when the gesture is lost: one frame without it re-arms the
      latch, so a flicker inside what the user sees as one hold can fire a second time. */
  lemma {:induction false} FlickerRearms(l: Latch, g: string, t1: real, t2: real, t3: real, holdTime: real)
    requires g != "" && l.current == Some(g) && l.triggered && t3 - t2 >= holdTime
    ensures Fires(l, [Observation(None, false, t1), Observation(Some(g), false, t2), Observation(Some(g), false, t3)], holdTime) == 1
  {
    var run := [Observation(None, false, t1), Observation(Some(g), false, t2), Observation(Some(g), false, t3)];
    var l1 := LatchStep(l, None, false, t1, holdTime).0;
    assert Fires(l, run, holdTime) == Fires(l1, run[1..], holdTime);
    SustainedHoldFiresOnce(l1, g, run[1..], holdTime);
    assert run[1..][1].now - run[1..][0].now >= holdTime;
  }

  /** With a hold time of 0.5 s, "g" seen from 0.0 s to 0.6 s fires once; holding it on to
      1.2 s fires no more; losing it at 1.3 s and holding it again from 1.4 s to 2.0 s fires
      a second time. */
  lemma HoldExample()
    ensures var l := Latch(None, 0.0, false);
            var hold := [Observation(Some("g"), false, 0.0), Observation(Some("g"), false, 0.3),
                         Observation(Some("g"), false, 0.6), Observation(Some("g"), false, 0.9),
                         Observation(Some("g"), false, 1.2)];
            var again := [Observation(None, false, 1.3), Observation(Some("g"), false, 1.4),
                          Observation(Some("g"), false, 2.0)];
            Fires(l, hold[..3], 0.5) == 1 && Fires(l, hold, 0.5) == 1 && Fires(l, hold + again, 0.5) == 2
  {
    var l := Latch(None, 0.0, false);
    var hold := [Observation(Some("g"), false, 0.0), Observation(Some("g"), false, 0.3),
                 Observation(Some("g"), false, 0.6), Observation(Some("g"), false, 0.9),
                 Observation(Some("g"), false, 1.2)];
    var again := [Observation(None, false, 1.3), Observation(Some("g"), false, 1.4),
                  Observation(Some("g"), false, 2.0)];
    SustainedHoldFiresOnce(l, "g", hold[..3], 0.5);
    assert hold[..3][2].now - hold[..3][0].now >= 0.5;
    SustainedHoldFiresOnce(l, "g", hold, 0.5);
    assert hold[2].now - hold[0].now >= 0.5;
    FiresAppend(l, hold, again, 0.5);
    FlickerRearms(After(l, hold, 0.5), "g", 1.3, 1.4, 2.0, 0.5);
  }
}
