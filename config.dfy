/** The first-generation configuration store (`config_manager.py`): one JSON document with
    three sections — `gestures` (name to landmark template), `actions` (name to action
    string) and `settings` — updated in place; every update is written back to the file. */
module Config {
  import opened Strings
  import opened Landmarks

  /** A JSON value as a setting may hold it. */
  datatype Json = JNull | JBool(b: bool) | JInt(i: int) | JFloat(r: real) | JStr(s: string) | JOther

  /** `self.config`. */
  datatype Document = Document(
    gestures: map<string, seq<Point>>,
    actions: map<string, string>,
    settings: map<string, Json>)

  const DefaultActions: map<string, string> := map["my_gesture" := "hotkey:ctrl+s"]

  const DefaultSettings: map<string, Json> :=
    map["hold_time" := JFloat(0.5), "threshold" := JFloat(0.07), "frame_reduction" := JInt(150)]

  /** `DEFAULT_CONFIG`. */
  const Default: Document := Document(map[], DefaultActions, DefaultSettings)

  /** The action `save_gesture` records for a gesture saved without one. */
  const Placeholder: string := "print:Жест настроен без действия"

  /** What `config.json` holds when `load_config` runs: no file, a file `json.load` or the
      section filling rejects, or an object with each section present or not. */
  datatype Stored =
    | NoFile
    | Unreadable
    | Parsed(gestures: Option<map<string, seq<Point>>>,
             actions: Option<map<string, string>>,
             settings: Option<map<string, Json>>)

  /** The `settings` section after `load_config`: the stored one, or the defaults, and
      `frame_reduction` added when missing. */
  function FilledSettings(stored: Option<map<string, Json>>): (s: map<string, Json>)
    ensures "frame_reduction" in s
    ensures stored.None? ==> s == DefaultSettings
    ensures stored.Some? ==> s.Keys == stored.value.Keys + {"frame_reduction"}
    ensures stored.Some? ==> forall k :: k in stored.value ==> s[k] == stored.value[k]
    ensures stored.Some? && "frame_reduction" !in stored.value ==> s["frame_reduction"] == JInt(150)
  {
    var s := if stored.None? then DefaultSettings else stored.value;
    if "frame_reduction" in s then s else s["frame_reduction" := DefaultSettings["frame_reduction"]]
  }

  /** `load_config`. */
  function Load(stored: Stored): (d: Document)
    ensures "frame_reduction" in d.settings
    ensures stored.Parsed? && stored.gestures.Some? ==> d.gestures == stored.gestures.value
    ensures stored.Parsed? && stored.actions.Some? ==> d.actions == stored.actions.value
    ensures stored.Parsed? && stored.gestures.None? ==> d.gestures == map[]
    ensures stored.Parsed? && stored.actions.None? ==> d.actions == DefaultActions
    ensures !stored.Parsed? ==> d == Default
  {
    match stored
    case NoFile => Default
    case Unreadable => Default
    case Parsed(g, a, s) =>
      Document(
        if g.None? then map[] else g.value,
        if a.None? then DefaultActions else a.value,
        FilledSettings(s))
  }

  /** Python truthiness of the optional `action_cmd` argument. */
  predicate Given(action: Option<string>) {
    action.Some? && action.value != ""
  }

  /** `save_gesture`: store the template under the name, replacing any earlier one; record
      the action when one is given, else the placeholder unless the name already has one. */
  function WithGesture(d: Document, name: string, landmarks: seq<Point>, action: Option<string>): (r: Document)
    ensures r.gestures.Keys == d.gestures.Keys + {name} && r.gestures[name] == landmarks
    ensures forall n :: n in d.gestures && n != name ==> r.gestures[n] == d.gestures[n]
    ensures r.actions.Keys == d.actions.Keys + {name}
    ensures forall n :: n in d.actions && n != name ==> r.actions[n] == d.actions[n]
    ensures Given(action) ==> r.actions[name] == action.value
    ensures !Given(action) && name in d.actions ==> r.actions[name] == d.actions[name]
    ensures !Given(action) && name !in d.actions ==> r.actions[name] == Placeholder
    ensures r.settings == d.settings
  {
    var actions :=
      if Given(action) then d.actions[name := action.value]
      else if name !in d.actions then d.actions[name := Placeholder]
      else d.actions;
    Document(d.gestures[name := landmarks], actions, d.settings)
  }

  /** `update_action`: only the name's action changes. */
  function WithAction(d: Document, name: string, action: string): (r: Document)
    ensures r.actions.Keys == d.actions.Keys + {name} && r.actions[name] == action
    ensures forall n :: n in d.actions && n != name ==> r.actions[n] == d.actions[n]
    ensures r.gestures == d.gestures && r.settings == d.settings
  {
    d.(actions := d.actions[name := action])
  }

  /** `delete_gesture`: the name leaves both the templates and the actions. */
  function WithoutGesture(d: Document, name: string): (r: Document)
    ensures r.gestures.Keys == d.gestures.Keys - {name}
    ensures r.actions.Keys == d.actions.Keys - {name}
    ensures forall n :: n in r.gestures ==> r.gestures[n] == d.gestures[n]
    ensures forall n :: n in r.actions ==> r.actions[n] == d.actions[n]
    ensures r.settings == d.settings
  {
    Document(d.gestures - {name}, d.actions - {name}, d.settings)
  }

  /** `save_setting`: exactly one settings key changes. */
  function WithSetting(d: Document, key: string, value: Json): (r: Document)
    ensures r.settings.Keys == d.settings.Keys + {key} && r.settings[key] == value
    ensures forall k :: k in d.settings && k != key ==> r.settings[k] == d.settings[k]
    ensures r.gestures == d.gestures && r.actions == d.actions
  {
    d.(settings := d.settings[key := value])
  }

  /** `get_action`: `None` for a name without an action. */
  function ActionOf(d: Document, name: string): (a: Option<string>)
    ensures a.Some? <==> name in d.actions
    ensures a.Some? ==> a.value == d.actions[name]
  {
    if name in d.actions then Some(d.actions[name]) else None
  }

  /** `get_setting`: the stored value unless it is missing or null, else the default
      (`JNull` for a key without a default). */
  function SettingOf(d: Document, key: string): (v: Json)
    ensures key in d.settings && d.settings[key] != JNull ==> v == d.settings[key]
    ensures (key !in d.settings || d.settings[key] == JNull) && key in DefaultSettings ==> v == DefaultSettings[key]
    ensures (key !in d.settings || d.settings[key] == JNull) && key !in DefaultSettings ==> v == JNull
  {
    var stored := if key in d.settings then d.settings[key] else JNull;
    if stored != JNull then stored
    else if key in DefaultSettings then DefaultSettings[key]
    else JNull
  }

  /** `ConfigManager`: the loaded document, updated in place by the save and delete calls. */
  class ConfigManager {
    var config: Document

    constructor (stored: Stored)
      ensures config == Load(stored)
    {
      config := Load(stored);
    }

    method SaveGesture(name: string, landmarks: seq<Point>, action: Option<string>)
      modifies this
      ensures config == WithGesture(old(config), name, landmarks, action)
    {
      config := config.(gestures := config.gestures[name := landmarks]);
      if Given(action) {
        config := config.(actions := config.actions[name := action.value]);
      } else if name !in config.actions {
        config := config.(actions := config.actions[name := Placeholder]);
      }
    }

    method UpdateAction(name: string, action: string)
      modifies this
      ensures config == WithAction(old(config), name, action)
    {
      config := config.(actions := config.actions[name := action]);
    }

    method DeleteGesture(name: string)
      modifies this
      ensures config == WithoutGesture(old(config), name)
    {
      if name in config.gestures {
        config := config.(gestures := config.gestures - {name});
      }
      if name in config.actions {
        config := config.(actions := config.actions - {name});
      }
    }

    method SaveSetting(key: string, value: Json)
      modifies this
      ensures config == WithSetting(old(config), key, value)
    {
      config := config.(settings := config.settings[key := value]);
    }

    function GetAction(name: string): Option<string>
      reads this
    {
      ActionOf(config, name)
    }

    function GetSetting(key: string): Json
      reads this
    {
      SettingOf(config, key)
    }
  }

  /** Deleting twice is deleting once. */
  lemma {:induction false} DeleteIdempotent(d: Document, name: string)
    ensures WithoutGesture(WithoutGesture(d, name), name) == WithoutGesture(d, name)
  {
    var once := WithoutGesture(d, name);
    assert once.gestures - {name} == once.gestures;
    assert once.actions - {name} == once.actions;
  }

  /** Deleting a name that has neither a template nor an action changes nothing. */
  lemma {:induction false} DeleteAbsent(d: Document, name: string)
    requires name !in d.gestures && name !in d.actions
    ensures WithoutGesture(d, name) == d
  {
    assert d.gestures - {name} == d.gestures;
    assert d.actions - {name} == d.actions;
  }

  /** Saving a gesture and then deleting it leaves the document as deleting it would have. */
  lemma {:induction false} SaveThenDelete(d: Document, name: string, landmarks: seq<Point>, action: Option<string>)
    ensures WithoutGesture(WithGesture(d, name, landmarks, action), name) == WithoutGesture(d, name)
  {
    var s := WithGesture(d, name, landmarks, action);
    assert s.gestures - {name} == d.gestures - {name};
    assert s.actions - {name} == d.actions - {name};
  }

  /** A gesture saved with an action triggers that action. */
  lemma {:induction false} SavedActionIsLookedUp(d: Document, name: string, landmarks: seq<Point>, action: string)
    requires action != ""
    ensures ActionOf(WithGesture(d, name, landmarks, Some(action)), name) == Some(action)
    ensures ActionOf(WithAction(d, name, action), name) == Some(action)
  {
  }

  /** A setting saved with a non-null value reads back as that value, and a null one reads back
      as the default. */
  lemma {:induction false} SettingRoundTrip(d: Document, key: string, value: Json)
    ensures value != JNull ==> SettingOf(WithSetting(d, key, value), key) == value
    ensures value == JNull && key in DefaultSettings ==> SettingOf(WithSetting(d, key, value), key) == DefaultSettings[key]
  {
  }

  /** `hold_time`, `threshold` and `frame_reduction` always have a value, whatever the document. */
  lemma {:induction false} DefaultedSettingsPresent(d: Document)
    ensures SettingOf(d, "hold_time") != JNull
    ensures SettingOf(d, "threshold") != JNull
    ensures SettingOf(d, "frame_reduction") != JNull
  {
    assert DefaultSettings["hold_time"] == JFloat(0.5);
    assert DefaultSettings["threshold"] == JFloat(0.07);
    assert DefaultSettings["frame_reduction"] == JInt(150);
  }

  /** Loading keeps every stored setting and adds `frame_reduction` only when it is missing. */
  lemma {:induction false} LoadKeepsStoredSettings(g: Option<map<string, seq<Point>>>, a: Option<map<string, string>>, s: map<string, Json>)
    ensures var d := Load(Parsed(g, a, Some(s)));
            forall k :: k in s ==> k in d.settings && d.settings[k] == s[k]
    ensures "frame_reduction" in s ==> Load(Parsed(g, a, Some(s))).settings == s
  {
    if "frame_reduction" in s {
      assert FilledSettings(Some(s)) == s;
    }
  }
}
