# GestureController core in Dafny

GestureController turns hand gestures seen by a webcam into desktop actions. Each frame, the
hand's 21 landmarks are normalised and compared with saved templates. A gesture held long enough
runs its action string (`hotkey:ctrl+s`, `web:youtube.com`, `chain:wait:100|hotkey:ctrl+s`, ...).
In follow mode, the index fingertip also drives the cursor and a raised thumb drags. The
repository holds two generations of the engine, the configuration store and the action handler.
`main.py` uses the first (root) generation. The `libs/` generation adds per-application profiles
with a `GLOBAL` fallback, `chain:` actions and checks on template shape.

The model has these modules:

- `Strings` (`strings.dfy`): the Python string operations the action strings rely on (`strip`,
  ASCII `lower`, `split`, `split(sep, 1)`, `startswith`, `int`).
- `Actuation` (`actuation.dfy`): host calls (pyautogui, webbrowser, subprocess, clipboard,
  sleep) as abstract effects. Each call either succeeds or raises, as an oracle
  `ok: Effect -> bool` decides. A raised call ends its `try` block.
- `Actions` (`actions.dfy`): the root `ActionHandler.execute`, a pure prefix dispatch.
- `ChainActions` (`chain_actions.dfy`): the `libs/` handler. This covers `chain:` splitting, the
  per-step dispatch, and the fixed key sequence of `_paste_text`. The chain loop is an imperative
  method proved equal to a trace function.
- `Landmarks` (`landmarks.dfy`): `normalize_landmarks` over exact reals.
- `Matching` (`matching.dfy`): the nearest-template scan the two classifiers share. The per-point
  Euclidean norm is a parameter `dist`.
- `Engine` (`engine.dfy`) and `CheckedEngine` (`checked_engine.dfy`): the two
  `find_matching_gesture` generations. Each is a loop method proved equal to a function.
- `Config` (`config.dfy`): the root `ConfigManager`.
- `ProfileConfig` (`profile_config.dfy`): the profile-aware `ConfigManager` of `libs/`.
  - In both stores, the manager is a class whose `config` field the save and delete methods
    replace.
  - Each method is proved equal to a function on the configuration document. The lemmas are
    stated about those functions.
- `Controller` (`controller.dfy`): the per-frame loop of `main.py`. This covers the `Smoother`,
  the pointer step (clamp and drag latch) and the hold-to-confirm trigger latch.
  - A `Loop` class holds the loop variables, and its `Step` method is proved equal to
    `FrameStep`.
  - Multi-frame properties are proved over runs of the latch.
- `ActionDialog` (`action_dialog.dfy`): the `prefix:value` action-string format of the action
  dialog.

Normalisation divides the centred landmarks by their largest absolute coordinate, so the
classifier ignores the size of the hand: the query `[(0,0),(5,0)]` becomes `[(0,0),(1,0)]` and
matches the template `T = [(0,0),(1,0)]` at distance 0 (`Engine.ScaledQueryMatches`). In
general, scaling every landmark by a positive factor changes neither the normalised points
(`Landmarks.NormalizeScale`) nor the answer (`Engine.ClassifyScale`).

## Model

| member | source | states |
|---|---|---|
| Strings.SplitFirstOfJoined | main.py:65-66 | splitting `p + ":" + v` once at the first colon gives back `p` and `v` when `p` has no colon, whatever colons `v` holds |
| Strings.Strip | libs/action_handler.py:20 | the result is a slice of the text that neither starts nor ends with whitespace, and everything cut off at either end is whitespace |
| Strings.Lower | action_handler.py:36 | same length; each ASCII capital becomes its lower-case letter and every other character is kept |
| Strings.SplitFirst | action_handler.py:19 | the part before the first separator holds no separator, and the two parts joined by the separator give the text back |
| Strings.SplitOn | libs/action_handler.py:18 | at least one piece; no piece holds the separator; two or more pieces exactly when the separator occurs; joining the pieces with the separator gives the text back |
| Strings.ParseInt | libs/action_handler.py:31 | a number only when the stripped text holds a digit; a negative number only after a leading `-` |
| Strings.ParseIntOfDecimal | libs/action_handler.py:30-31 | `int()` reads a number's decimal digits back as that number |
| Strings.ParseIntOfNegative | libs/action_handler.py:31 | `int()` of a minus sign and a number's decimal digits is the negated number |
| Strings.ParseIntOfDigits | libs/action_handler.py:31 | `int()` of a non-empty run of digits is their decimal value |
| Actuation.BrowserUrl | action_handler.py:50-54 | the URL opened is the trimmed payload, prefixed with `https://` exactly when it does not start with `http`; it always starts with `http` |
| Actuation.BrowserUrlIdempotent | libs/action_handler.py:52-54 | building the URL from an already built URL changes nothing |
| Actuation.Perform | libs/action_handler.py:26-65 | calls are made in order; each is recorded as done or failed according to the host; the first failure ends the `try` block and every earlier call was done; if every call is accepted, all are recorded |
| Actuation.PerformAllAccepted | libs/action_handler.py:67-76 | when the host accepts every call, each call is recorded once as done, in plan order |
| Actions.MouseEffect | action_handler.py:19-31 | exactly left/right/middle/double/side1/side2 click, one click each; only `double` double-clicks |
| Actions.HotkeyKeys | action_handler.py:34-36 | the keys are the `+`-separated pieces in order, each stripped and lower-cased, one key per piece |
| Actions.HotkeyKeysOfPlainCombo | action_handler.py:34-37 | for a payload in lower case with no spaces, the keys joined by `+` give the payload back |
| Actions.Execute | action_handler.py:8-66 | an empty or `special:` action does nothing; any other action whose prefix decodes to a call makes exactly that call, recorded as done or failed without propagating; an action that decodes to no call (unknown prefix, unknown button) makes none |
| Actions.Decode | action_handler.py:17-63 | a call only for the seven tagged prefixes; every tag but `mouse:` always decodes to a call; `mouse:` gives a click or nothing |
| Actions.TypePayload | action_handler.py:56-59 | `type:` writes everything after the first colon, further colons included |
| Actions.PrintPayload | action_handler.py:61-63 | `print:` prints everything after the first colon |
| Actions.PressPayload | action_handler.py:39-41 | `press:` presses the trimmed payload after the first colon |
| Actions.AppPayload | action_handler.py:43-48 | `app:` starts the trimmed payload with `os.startfile` on Windows, and with a shell command elsewhere |
| Actions.WebPayload | action_handler.py:50-54 | `web:` opens the URL built from the payload after the first colon |
| Actions.HotkeyDecode | action_handler.py:33-37 | `hotkey:` presses the keys of everything after the first colon |
| Actions.MouseDecode | action_handler.py:18-19 | `mouse:` looks up the trimmed, lower-cased button name |
| ChainActions.MouseCommand | libs/action_handler.py:34-38 | exactly left/right/middle/double click; any other button does nothing |
| ChainActions.WaitCommand | libs/action_handler.py:29-31 | a sleep exactly when `int()` accepts the field and it is not negative, for that many milliseconds; otherwise a rejected wait carrying the field |
| ChainActions.Decode | libs/action_handler.py:25-62 | a sleep or rejected wait exactly for a `wait:` step; nothing for a step with none of the eight prefixes; `mouse:` gives only clicks; each prefix's command is pinned by the decode lemmas below |
| ChainActions.PastePlan | libs/action_handler.py:67-76 | five calls: copy the text, pause, modifier down, press `v`, the same modifier up; the modifier is `command` exactly on Darwin |
| ChainActions.Plan | libs/action_handler.py:25-62 | no call exactly for an ignored step; at most five calls; a hotkey pauses 100 ms first and presses its keys last |
| ChainActions.StepTrace | libs/action_handler.py:25-65 | a rejected `wait:` records only the rejection; any other step makes a prefix of its plan's calls in order, each done but the last; when the host accepts every call, the whole plan is done |
| ChainActions.PieceTrace | libs/action_handler.py:19-20 | a blank piece makes no call; any other piece records at most five events, each done but the last |
| ChainActions.ActionTrace | libs/action_handler.py:14-23 | an empty action makes no call; a `chain:` action runs the pieces of everything after `chain:`, split at each bar, in order; any other action records at most five events, each done but the last |
| ChainActions.RunChain | libs/action_handler.py:18-21 | the loop over chain pieces yields `ChainTrace`: each non-blank piece is trimmed and run, in order |
| ChainActions.Execute | libs/action_handler.py:14-23 | equals `ActionTrace`: an empty action does nothing, a `chain:` action runs its pieces, anything else is one step |
| ChainActions.ChainTraceAppend | libs/action_handler.py:19-20 | running two lists of pieces in turn is running their concatenation |
| ChainActions.FlattenAppend | libs/action_handler.py:19-20 | running each of two lists of pieces in turn is running their concatenation, whatever a piece does |
| ChainActions.ChainTraceSnoc | libs/action_handler.py:19-20 | one more piece appends exactly its own trace |
| ChainActions.ChainTracePrefix | libs/action_handler.py:19-20 | the first `i+1` pieces run as the first `i` followed by piece `i` |
| ChainActions.ChainTracePair | libs/action_handler.py:19-20 | two pieces run as the first then the second |
| ChainActions.EveryStepRuns | libs/action_handler.py:19-20 | a step's own trace sits unchanged between the traces of the steps before and after it, so no failure skips a later step |
| ChainActions.NestedChainIgnored | libs/action_handler.py:25-62 | a step starting with `chain:` decodes to nothing and makes no call |
| ChainActions.SplitTwo | libs/action_handler.py:18 | `a`, separator, `b` splits on the separator into exactly `a` and `b` when neither holds the separator (also used for `+` in hotkeys) |
| ChainActions.ChainOfTwo | libs/action_handler.py:17-21 | a chain of two steps `a` and `b` runs `a` and then `b`, each unaffected by the other |
| ChainActions.SecondFieldOf | libs/action_handler.py:30 | `split(":")[1]` of `tag:v` is `v` when `v` has no colon |
| ChainActions.WaitDecode | libs/action_handler.py:29-31 | `wait:<n>` sleeps `n` milliseconds |
| ChainActions.DecodeWait | libs/action_handler.py:29-31 | a step starting with `wait:` is decided by its second `:`-field alone |
| ChainActions.WaitField | libs/action_handler.py:30 | the second field of `wait:v` is `v` when `v` has no colon |
| ChainActions.NegativeWaitRejected | libs/action_handler.py:29-31 | `wait:-n` with `n > 0` is rejected, because `time.sleep` raises on a negative length, and no call is made |
| ChainActions.WaitRejected | libs/action_handler.py:29-31 | a `wait:` argument that is not a decimal integer is rejected, and no call is made |
| ChainActions.HotkeyDecode | libs/action_handler.py:40-43 | `hotkey:` lower-cases the field between the first and second colon and splits it on `+` without trimming; joining the keys gives the lower-cased field back |
| ChainActions.HotkeyStopsAtSecondColon | libs/action_handler.py:41 | text after a second colon is ignored by `hotkey:` |
| ChainActions.MouseDecode | libs/action_handler.py:33-38 | `mouse:` looks up the trimmed, lower-cased text between the first and second colon; text after a second colon is ignored |
| ChainActions.WebDecode | libs/action_handler.py:52-54 | `web:` opens the URL built from everything after the first colon |
| ChainActions.LaunchDecode | libs/action_handler.py:45-50 | `shell:` and `app:` both launch the trimmed payload after the first colon |
| ChainActions.PasteDecode | libs/action_handler.py:56-62 | `type:` and `paste:` both paste everything after the first colon |
| ChainActions.PasteOrder | libs/action_handler.py:67-76 | a paste copies, pauses 100 ms, then does modifier-down, `v`, modifier-up (`command` on Darwin, else `ctrl`); if `v` fails, the modifier is left down |
| ChainActions.PasteInterrupted | libs/action_handler.py:67-77 | when the fourth call of the five-call paste raises, the three before it are done and nothing after it runs |
| ChainActions.HotkeyOfTwo | libs/action_handler.py:40-43 | `hotkey:a+b` with lower-case names presses exactly `a`, `b` |
| ChainActions.CtrlSKeys | libs/action_handler.py:41 | `hotkey:ctrl+s` presses `ctrl`, `s` |
| ChainActions.WaitHundred | libs/action_handler.py:29-31 | `wait:100` sleeps 100 ms |
| ChainActions.WaitThenSave | libs/action_handler.py:17-21 | a chain of `wait:100` and `hotkey:ctrl+s` sleeps before the hotkey, and the hotkey step runs whatever the wait did |
| Landmarks.Centre | libs/gesture_engine.py:33-34 | every landmark is moved so that the first becomes the origin |
| Landmarks.MaxAbs | libs/gesture_engine.py:35 | the largest absolute coordinate is never negative |
| Landmarks.MaxAbsIsMax | libs/gesture_engine.py:35 | it bounds every coordinate, and when positive some coordinate attains it |
| Landmarks.Shrink | libs/gesture_engine.py:36-37 | every coordinate is divided by the positive maximum |
| Landmarks.Normalize | libs/gesture_engine.py:31-38 | no landmarks give `[]`; otherwise the same number of points, the first at `(0,0)` |
| Landmarks.NormalizeBounds | libs/gesture_engine.py:35-38 | all output coordinates lie in [-1,1]; with a positive maximum some coordinate is exactly ±1; with maximum 0 the centred points come back unscaled, all at the origin |
| Landmarks.NormalizeShift | libs/gesture_engine.py:33-38 | adding the same offset to every landmark leaves the result unchanged |
| Landmarks.NormalizeScale | libs/gesture_engine.py:31-38 | multiplying every landmark by a positive factor leaves the normalised points unchanged |
| Landmarks.NormalizeIdempotent | gesture_engine.py:22-30 | normalising a normalised template changes nothing |
| Matching.MeanDist | libs/gesture_engine.py:55 | the mean distance times the number of points is the summed distance |
| Matching.SumDistFacts | libs/gesture_engine.py:55 | with a non-negative point distance that is 0 between equal points, the summed distance is non-negative and 0 for equal lists |
| Matching.MeanDistFacts | libs/gesture_engine.py:55 | the same for the mean distance |
| Matching.Distances | libs/gesture_engine.py:55 | one mean distance per template, in template order |
| Matching.Lowest | libs/gesture_engine.py:56-58 | no best for no distances; otherwise the best is a minimum, and it is strictly below every earlier distance (the first minimum wins) |
| Matching.LowestSnoc | libs/gesture_engine.py:56-58 | one more distance becomes the best exactly when none was kept or it is strictly smaller than the kept minimum; otherwise the best is unchanged |
| Matching.TracksSnoc | libs/gesture_engine.py:56-58 | one turn of the loop keeps `best_match` and `min_dist` equal to the name and distance of the first strict minimum seen so far |
| Matching.Verdict | libs/gesture_engine.py:60-62 | `(None, inf)` without a best; otherwise the minimum is returned, with the best template's name exactly when the minimum is strictly below the threshold |
| Matching.TracksVerdict | libs/gesture_engine.py:60-62 | after the loop, the final threshold test on the kept `best_match`/`min_dist` is the verdict on the lowest distance |
| Matching.Nearest | gesture_engine.py:39-55 | infinity exactly for no templates; otherwise some template `k` attains the minimum, every earlier template is strictly further, and the name is `k`'s exactly when below the threshold |
| Matching.ExactTemplateMatches | gesture_engine.py:45-53 | a template equal to the query is reported at distance 0 for any positive threshold |
| Matching.EarlierTemplateWinsTie | libs/gesture_engine.py:56-58 | of two templates at equal distance, the later is never the one chosen |
| Engine.FindMatching | gesture_engine.py:32-55 | the loop keeping `best_match`/`min_dist` yields the classification of the normalised query; no templates give `(None, inf)`; a name comes with a distance below the threshold |
| Engine.Classify | gesture_engine.py:32-55 | no templates give `(None, inf)`; a name comes only with a distance below the threshold, and it is the name of a saved template |
| Engine.ClassifyScale | gesture_engine.py:22-37 | scaling the hand by a positive factor, as moving it nearer the camera does, does not change the answer |
| Engine.ClassifyShift | gesture_engine.py:22-37 | moving the hand within the camera frame does not change the answer |
| Engine.SavedGestureRecognised | gesture_engine.py:37-53 | landmarks saved as their own normalisation are recognised again at distance 0 |
| Engine.ScaledQueryMatches | gesture_engine.py:22-30 | the query `[(0,0),(5,0)]` matches the template `[(0,0),(1,0)]` at distance 0, because normalisation removes scale |
| CheckedEngine.Eligible | libs/gesture_engine.py:49-53 | the templates kept all have the query's length, in order, and are no more than the templates given |
| CheckedEngine.EligibleAppend | libs/gesture_engine.py:49-53 | skipping is decided template by template |
| CheckedEngine.EligibleStep | libs/gesture_engine.py:49-53 | one more template is kept exactly when it is a non-empty list of the query's length |
| CheckedEngine.EligibleMembers | libs/gesture_engine.py:49-53 | every template kept is a stored template that is usable for the query, with its stored name |
| CheckedEngine.UnusableIgnored | libs/gesture_engine.py:50-53 | an empty, non-list or wrongly shaped template drops out of the eligible list wherever it sits |
| CheckedEngine.SkippedIgnored | libs/gesture_engine.py:50-53 | a template skipped by either `continue` that does not raise has no effect on the answer wherever it sits |
| CheckedEngine.RaisingTemplateVoids | libs/gesture_engine.py:52-64 | a ragged template, or a non-numeric one of the query's length, raises inside the `try`, so the answer is `(None, inf)` wherever it sits |
| CheckedEngine.Classify | libs/gesture_engine.py:40-64 | no landmark object, or no landmarks, gives `(None, inf)`; any raising template gives `(None, inf)`; a name comes only with a distance below the threshold, and it names a usable saved template |
| CheckedEngine.FindMatching | libs/gesture_engine.py:40-62 | `(None, inf)` without landmarks; otherwise the scan of the normalised query, i.e. `Classify` |
| CheckedEngine.Scan | libs/gesture_engine.py:46-64 | the loop over the templates, with its two `continue`s, gives `(None, inf)` when some template raises and otherwise answers as the nearest of the usable templates does |
| CheckedEngine.AgreesWithFirstGeneration | libs/gesture_engine.py:40-62 | when every template is usable, the two generations answer alike |
| CheckedEngine.AllUsable | libs/gesture_engine.py:50-53 | when every template is a list of the query's length, none is skipped |
| Config.FilledSettings | config_manager.py:30-38 | a missing settings section becomes the defaults; a present one keeps every key and value and gains `frame_reduction` = 150 only when missing |
| Config.Load | config_manager.py:22-42 | no file or an unreadable one gives the defaults; a missing `actions` or `gestures` section becomes the default actions or `{}`, and present ones are kept; `frame_reduction` is always present |
| Config.WithGesture | config_manager.py:48-54 | the template is stored under the name, replacing any old one; the name's action becomes the given one, or stays, or becomes the `print:` placeholder when it had none; nothing else changes |
| Config.WithAction | config_manager.py:56-59 | only the name's action changes |
| Config.WithoutGesture | config_manager.py:61-66 | the name leaves both templates and actions; every other entry is unchanged |
| Config.WithSetting | config_manager.py:68-70 | exactly one settings key changes |
| Config.ActionOf | config_manager.py:72-73 | the name's action, or none when it has none |
| Config.SettingOf | config_manager.py:78-82 | the stored value unless missing or null; otherwise the default, or null without a default |
| Config.ConfigManager.constructor | config_manager.py:19-20 | the manager starts with the loaded document |
| Config.ConfigManager.SaveGesture | config_manager.py:48-54 | the new document is `WithGesture` of the old |
| Config.ConfigManager.UpdateAction | config_manager.py:56-59 | the new document is `WithAction` of the old |
| Config.ConfigManager.DeleteGesture | config_manager.py:61-66 | the new document is `WithoutGesture` of the old |
| Config.ConfigManager.SaveSetting | config_manager.py:68-70 | the new document is `WithSetting` of the old |
| Config.DeleteIdempotent | config_manager.py:61-65 | deleting a second time changes nothing |
| Config.DeleteAbsent | config_manager.py:61-65 | deleting a name with no template and no action changes nothing |
| Config.SaveThenDelete | config_manager.py:48-65 | saving then deleting a gesture leaves the document as deleting alone would |
| Config.SavedActionIsLookedUp | config_manager.py:48-59 | after saving or updating with a non-empty action, the name's action is that action |
| Config.SettingRoundTrip | config_manager.py:68-82 | a saved non-null setting reads back as itself; a saved null reads back as the default |
| Config.DefaultedSettingsPresent | config_manager.py:78-82 | `hold_time`, `threshold` and `frame_reduction` always read as a value |
| Config.LoadKeepsStoredSettings | config_manager.py:30-38 | loading keeps every stored setting, and changes nothing when `frame_reduction` is stored |
| ProfileConfig.Load | libs/config_manager.py:26-39 | no file or an unreadable one gives the defaults; each missing section takes its default (`GLOBAL` with no actions, `{}`, default settings) and present ones are kept |
| ProfileConfig.WithGesture | libs/config_manager.py:52-61 | the template is stored only when non-empty; the profile is created empty when missing; the action is recorded only when non-empty; other profiles and settings are untouched |
| ProfileConfig.WithoutGesture | libs/config_manager.py:63-71 | the name leaves the given profile's actions; the template goes exactly when no profile still maps the name; no profile is removed |
| ProfileConfig.WithSetting | libs/config_manager.py:82-84 | exactly one settings key changes |
| ProfileConfig.ActionOf | libs/config_manager.py:73-77 | the active application's non-empty action if it has one; otherwise the `GLOBAL` entry, none, or the missing-`GLOBAL` error |
| ProfileConfig.ConfigManager.constructor | libs/config_manager.py:23-24 | the manager starts with the loaded document |
| ProfileConfig.ConfigManager.SaveGesture | libs/config_manager.py:52-61 | the new document is `WithGesture` of the old |
| ProfileConfig.ConfigManager.DeleteGesture | libs/config_manager.py:63-71 | the new document is `WithoutGesture` of the old |
| ProfileConfig.ConfigManager.SaveSetting | libs/config_manager.py:82-84 | the new document is `WithSetting` of the old |
| ProfileConfig.GlobalPersists | libs/config_manager.py:52-84 | no operation removes a profile, so `GLOBAL` stays once present |
| ProfileConfig.SavedActionResolves | libs/config_manager.py:52-77 | an action saved for an application resolves while it is active; one saved for `GLOBAL` resolves with no application |
| ProfileConfig.DeleteFallsBackToGlobal | libs/config_manager.py:63-77 | after an application's action is deleted, the gesture resolves to the `GLOBAL` entry |
| ProfileConfig.SharedTemplateSurvives | libs/config_manager.py:68-70 | a template another profile still maps is not deleted |
| ProfileConfig.NotepadExample | libs/config_manager.py:73-77 | with g1→A in "Notepad" and g1→B in `GLOBAL`: g1 in Notepad is A, g1 in another app is B, g2 in Notepad has no action |
| Controller.Blend | main.py:19-21 | alpha 0 keeps the old value, alpha 1 takes the new one, and a value already at the target stays there |
| Controller.BlendBetween | main.py:19-21 | a smoothing step lands between the old value and the target, at `1-alpha` of the old distance, and strictly closer when `alpha > 0` |
| Controller.Smoothed | main.py:23-31 | the stored value becomes a pair; a smoother not yet holding a pair starts at the target itself |
| Controller.SmoothedCloser | main.py:29-31 | each point update moves the pair no further from the target on either axis |
| Controller.Trunc | main.py:32 | `int()` truncates toward zero |
| Controller.Smoother.constructor | main.py:15-17 | alpha and the starting value are as given |
| Controller.Smoother.Update | main.py:19-21 | the value becomes the blend of the old value and the new one, and is returned |
| Controller.Smoother.UpdatePoint | main.py:23-32 | the value becomes `Smoothed` of the old, and is returned truncated |
| Controller.Clamp | main.py:257-258 | the cursor coordinate lies in `[0, screen size]` and is unchanged when already inside |
| Controller.ClampIdempotent | main.py:257-258 | clamping twice is clamping once |
| Controller.IsThumbUp | main.py:262-265 | the thumb is up exactly when its tip is more than the margin 0.02 above the index knuckle, so never unless it is above it |
| Controller.DragStep | main.py:267-274 | mouse-down exactly on the not-dragging to thumb-up transition, mouse-up exactly on the reverse; afterwards dragging equals thumb-up |
| Controller.PointerStep | main.py:250-274 | in follow mode with a hand: the smoother takes the new position, the cursor moves exactly to the truncated smoothed position clamped to the screen, then the drag latch runs, with dragging then equal to thumb-up; otherwise nothing; the trigger latch and follow mode are untouched |
| Controller.LatchStep | main.py:298-326 | fires exactly when a name is detected, not dragging, the same as the candidate, held at least the hold time, and not yet triggered; a new name restarts the candidate at `now` untriggered; no name or dragging clears the candidate and `triggered` |
| Controller.FrameStep | main.py:248-326 | a frame is the pointer step followed by the trigger latch, on the dragging state the pointer step left; without a fire nothing else happens |
| Controller.FireOutcome | main.py:309-319 | on a fire, `triggered` is set whatever the action. The toggle flips follow mode, re-centres the smoother and never releases the mouse, because the latch cannot fire while dragging. Another non-empty action runs exactly when follow mode is off |
| Controller.NoGestureResets | main.py:298-326 | a frame with no name, or while dragging, clears the latch and runs nothing |
| Controller.NewNameRestartsHold | main.py:320-323 | a new name becomes the candidate at `now`, untriggered, and nothing runs |
| Controller.DraggingFollowsThumb | main.py:265-274 | after every follow-mode frame with a hand, dragging equals thumb-up |
| Controller.Loop.constructor | main.py:210-217 | no candidate, hold clock at 0, not triggered, not following, not dragging, smoother with alpha 0.2 at the screen centre |
| Controller.Loop.Step | main.py:248-326 | one pass of the loop body is `FrameStep` of the old state |
| Controller.FiresAppend | main.py:298-326 | fire counts add up over consecutive runs of frames |
| Controller.NoRefireWhileHeld | main.py:299-319 | once fired, the latch does not fire again and does not change while the same name stays detected |
| Controller.ArmedHoldFiresOnce | main.py:299-319 | an armed candidate held on fires exactly once if some frame comes at least the hold time after the hold began, else never |
| Controller.SustainedHoldFiresOnce | main.py:298-323 | a newly appearing name held on fires exactly once if the hold reaches the hold time after its first frame, and never otherwise, however long it is held |
| Controller.FlickerRearms | main.py:298-326 | one frame without the name re-arms the latch, so a flicker inside one perceived hold can fire again |
| Controller.HoldExample | main.py:298-326 | hold time 0.5 s: "g" seen from 0.0 s to 0.6 s fires once, held to 1.2 s still once, and lost at 1.3 s then held from 1.4 s to 2.0 s fires a second time |
| ActionDialog.PrefixesHaveNoColon | main.py:41-48 | none of the six offered prefixes contains a colon |
| ActionDialog.Open | main.py:65-71 | an action whose text before the first colon is an offered prefix opens with that type and the rest of the text; anything else opens fresh (hotkey type, empty entry) |
| ActionDialog.OpenTagged | main.py:65-71 | an action starting with an offered prefix and a colon opens with that type and everything after the first colon |
| ActionDialog.Compose | main.py:93-100 | the trimmed entry gives `prefix:value`; an empty trimmed entry gives no action |
| ActionDialog.OpenCompose | main.py:65-71 | an action built by the dialog opens with the same type and trimmed value, even when the value contains colons |
| ActionDialog.ReopenUnchanged | main.py:93-100 | confirming an unedited dialog opened on an action it built gives back the same action |

## Left out

- Camera capture, MediaPipe inference, OpenCV drawing, the Tk dialogs and the `keyboard` polling
  of `main.py` are not modelled.
  - A frame arrives as at most one `Hand` observation: the detected name, the cursor target
    already mapped to screen coordinates, and the two landmark heights.
  - The `np.interp` camera-to-screen mapping is not modelled.
  - With several hands in one frame, the source runs the pointer step per hand and keeps the
    last hand's name. This is not modelled.
- The hold time, threshold and frame reduction are re-read from the settings each frame. The model
  takes the hold time as a real parameter; converting the JSON value is not modelled.
- File I/O is not modelled: reading and writing `config.json`, `_create_default` and
  `save_to_file`. Loading starts from a `Stored` value (no file, unreadable, or an object with
  optional sections). A file holding ill-typed sections is folded into "unreadable" or not
  represented.
- Controller.Smoother.Update: requires a numeric value, because Python raises on a pair there.
- Config.Load: the source shares `DEFAULT_CONFIG` instead of copying it on three paths: it is
  returned itself when there is no file (config_manager.py:23-26) and when the file is
  unreadable (config_manager.py:41-42), and `DEFAULT_CONFIG["settings"]` becomes the loaded
  settings when the file has no settings section (config_manager.py:30-31). A missing actions
  section shares `DEFAULT_CONFIG["actions"]` the same way (config_manager.py:32-33). Later saves
  on those paths mutate the defaults themselves. The model treats the defaults as constants.
- Config.SettingRoundTrip: does not hold of the source on the three sharing paths above. There
  `save_setting(k, None)` also writes null into the defaults, so `get_setting(k)` reads null,
  where the model reads the default.
- Config.DefaultedSettingsPresent: does not hold of the source on the same paths, for the same
  reason: after `save_setting("hold_time", None)` the source reads null.
- ProfileConfig.Load: the defaults are shared in the same way (libs/config_manager.py:27-39).
  No read in that manager falls back on the defaults, so the model's values agree with the
  source's; the sharing itself is not modelled.
- `get_gestures` is a plain accessor (the `gestures` field). Dictionary insertion order is not
  tracked by the maps; the classifiers take templates as a sequence in iteration order.
- ProfileConfig: a profile's `{"actions": {...}}` wrapper is flattened to the inner map. A stored
  profile without an `actions` key, which makes the source raise `KeyError`, is not represented.
- Host calls (pyautogui, webbrowser, subprocess, os.startfile, pyperclip, time.sleep) are
  abstract effects, and whether each succeeds is the oracle `ok`. Console output is left out,
  except the `print:` action's message.
- Unicode: `lower()` is modelled for ASCII letters only; `strip()` uses Python's whitespace
  set; `int()` accepts ASCII digits with an optional sign and surrounding whitespace, without
  underscores or non-ASCII digits.
- Floating point is not modelled: coordinates, distances and smoothing are exact reals. The
  Euclidean norm is the parameter `dist`, whose square root, NaN and rounding are not modelled.
- Engine.FindMatching: requires every template to have the query's number of points. numpy
  would broadcast a one-point template and raise on other lengths; neither is modelled.
- Engine.Classify: requires a non-empty landmark list, because the root `normalize_landmarks`
  raises `IndexError` on an empty one.
- Trackpad mode and per-application context detection are not in the code shown: `main.py` never
  passes `active_app`.
