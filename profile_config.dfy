/** The profile-aware configuration store (`libs/config_manager.py`): templates are shared, and
    each profile (an application name, or `GLOBAL`) maps gesture names to action strings.
    A profile's `{"actions": {...}}` wrapper is flattened to the inner map. */
module ProfileConfig {
  import opened Strings
  import opened Landmarks
  import Config

  const Global: string := "GLOBAL"

  datatype Document = Document(
    profiles: map<string, map<string, string>>,
    gestures: map<string, seq<Point>>,
    settings: map<string, Config.Json>)

  const DefaultProfiles: map<string, map<string, string>> := map[Global := map[]]

  const DefaultSettings: map<string, Config.Json> :=
    map["hold_time" := Config.JFloat(0.5), "threshold" := Config.JFloat(0.07), "frame_reduction" := Config.JInt(100),
        "trackpad_sensitivity" := Config.JFloat(3.0), "trackpad_mode" := Config.JBool(false)]

  /** `DEFAULT_CONFIG`. */
  const Default: Document := Document(DefaultProfiles, map[], DefaultSettings)

  /** What `config.json` holds when `load_config` runs. */
  datatype Stored =
    | NoFile
    | Unreadable
    | Parsed(profiles: Option<map<string, map<string, string>>>,
             gestures: Option<map<string, seq<Point>>>,
             settings: Option<map<string, Config.Json>>)

  /** `load_config`: a missing section takes its default, a present one is kept as stored. */
  function Load(stored: Stored): (d: Document)
    ensures !stored.Parsed? ==> d == Default && Global in d.profiles
    ensures stored.Parsed? ==> d.profiles == (if stored.profiles.Some? then stored.profiles.value else DefaultProfiles)
    ensures stored.Parsed? ==> d.gestures == (if stored.gestures.Some? then stored.gestures.value else map[])
    ensures stored.Parsed? ==> d.settings == (if stored.settings.Some? then stored.settings.value else DefaultSettings)
    ensures stored.Parsed? && stored.profiles.None? ==> Global in d.profiles && d.profiles[Global] == map[]
  {
    match stored
    case NoFile => Default
    case Unreadable => Default
    case Parsed(p, g, s) =>
      Document(
        if p.None? then DefaultProfiles else p.value,
        if g.None? then map[] else g.value,
        if s.None? then DefaultSettings else s.value)
  }

  /** `save_gesture`: the template is stored only when non-empty; the profile is created when
      missing; the action is recorded only when non-empty. */
  function WithGesture(d: Document, name: string, landmarks: seq<Point>, action: Option<string>, profile: string): (r: Document)
    ensures landmarks != [] ==> r.gestures == d.gestures[name := landmarks]
    ensures landmarks == [] ==> r.gestures == d.gestures
    ensures r.profiles.Keys == d.profiles.Keys + {profile}
    ensures forall p :: p in d.profiles && p != profile ==> r.profiles[p] == d.profiles[p]
    ensures profile !in d.profiles && !Config.Given(action) ==> r.profiles[profile] == map[]
    ensures profile in d.profiles && !Config.Given(action) ==> r.profiles[profile] == d.profiles[profile]
    ensures Config.Given(action) ==> r.profiles[profile].Keys == (if profile in d.profiles then d.profiles[profile].Keys else {}) + {name}
    ensures Config.Given(action) ==> r.profiles[profile][name] == action.value
    ensures Config.Given(action) && profile in d.profiles ==>
              forall n :: n in d.profiles[profile] && n != name ==> r.profiles[profile][n] == d.profiles[profile][n]
    ensures r.settings == d.settings
  {
    var gestures := if landmarks != [] then d.gestures[name := landmarks] else d.gestures;
    var created := if profile in d.profiles then d.profiles else d.profiles[profile := map[]];
    var profiles := if Config.Given(action) then created[profile := created[profile][name := action.value]] else created;
    Document(profiles, gestures, d.settings)
  }

  /** Some profile still maps `name` to an action. */
  predicate InUse(profiles: map<string, map<string, string>>, name: string) {
    exists p :: p in profiles && name in profiles[p]
  }

  /** `delete_gesture`: the name leaves the given profile's actions; its template is removed
      only when no profile maps the name any more. */
  function WithoutGesture(d: Document, name: string, profile: string): (r: Document)
    ensures r.profiles.Keys == d.profiles.Keys
    ensures forall p :: p in d.profiles && p != profile ==> r.profiles[p] == d.profiles[p]
    ensures profile in d.profiles ==> r.profiles[profile] == d.profiles[profile] - {name}
    ensures !InUse(r.profiles, name) ==> r.gestures == d.gestures - {name}
    ensures InUse(r.profiles, name) ==> r.gestures == d.gestures
    ensures r.settings == d.settings
  {
    var profiles :=
      if profile in d.profiles && name in d.profiles[profile]
      then d.profiles[profile := d.profiles[profile] - {name}]
      else d.profiles;
    var gestures := if !InUse(profiles, name) && name in d.gestures then d.gestures - {name} else d.gestures;
    assert profile in d.profiles ==> profiles[profile] == d.profiles[profile] - {name};
    Document(profiles, gestures, d.settings)
  }

  /** `save_setting`: exactly one settings key changes. */
  function WithSetting(d: Document, key: string, value: Config.Json): (r: Document)
    ensures r.settings.Keys == d.settings.Keys + {key} && r.settings[key] == value
    ensures forall k :: k in d.settings && k != key ==> r.settings[k] == d.settings[k]
    ensures r.profiles == d.profiles && r.gestures == d.gestures
  {
    d.(settings := d.settings[key := value])
  }

  /** What `get_action` answers: an action string, Python's `None`, or the `KeyError` raised
      when there is no `GLOBAL` profile to fall back on. */
  datatype Lookup = Found(action: string) | NoAction | NoGlobalProfile

  /** The `GLOBAL` profile's entry for `name`. */
  function GlobalAction(d: Document, name: string): Lookup {
    if Global !in d.profiles then NoGlobalProfile
    else if name in d.profiles[Global] then Found(d.profiles[Global][name])
    else NoAction
  }

  /** The active application has a profile mapping `name` to a non-empty action. */
  predicate AppHit(d: Document, name: string, activeApp: Option<string>) {
    Config.Given(activeApp) && activeApp.value in d.profiles && name in d.profiles[activeApp.value]
    && d.profiles[activeApp.value][name] != ""
  }

  /** `get_action`: the active application's non-empty action for the gesture, else the
      `GLOBAL` profile's entry. */
  function ActionOf(d: Document, name: string, activeApp: Option<string>): (l: Lookup)
    ensures AppHit(d, name, activeApp) ==> l == Found(d.profiles[activeApp.value][name])
    ensures !AppHit(d, name, activeApp) ==> l == GlobalAction(d, name)
    ensures l == NoGlobalProfile ==> Global !in d.profiles
  {
    var app := if Config.Given(activeApp) && activeApp.value in d.profiles then d.profiles[activeApp.value] else map[];
    if name in app && app[name] != "" then Found(app[name])
    else GlobalAction(d, name)
  }

  /** `ConfigManager`: the loaded document, updated in place by the save and delete calls. */
  class ConfigManager {
    var config: Document

    constructor (stored: Stored)
      ensures config == Load(stored)
    {
      config := Load(stored);
    }

    method SaveGesture(name: string, landmarks: seq<Point>, action: Option<string>, profile: string)
      modifies this
      ensures config == WithGesture(old(config), name, landmarks, action, profile)
    {
      if landmarks != [] {
        config := config.(gestures := config.gestures[name := landmarks]);
      }
      if profile !in config.profiles {
        config := config.(profiles := config.profiles[profile := map[]]);
      }
      if Config.Given(action) {
        config := config.(profiles := config.profiles[profile := config.profiles[profile][name := action.value]]);
      }
    }

    method DeleteGesture(name: string, profile: string)
      modifies this
      ensures config == WithoutGesture(old(config), name, profile)
    {
      if profile in config.profiles {
        if name in config.profiles[profile] {
          config := config.(profiles := config.profiles[profile := config.profiles[profile] - {name}]);
        }
      }
      var used := exists p :: p in config.profiles && name in config.profiles[p];
      if !used && name in config.gestures {
        config := config.(gestures := config.gestures - {name});
      }
    }

    method SaveSetting(key: string, value: Config.Json)
      modifies this
      ensures config == WithSetting(old(config), key, value)
    {
      config := config.(settings := config.settings[key := value]);
    }

    function GetAction(name: string, activeApp: Option<string>): Lookup
      reads this
    {
      ActionOf(config, name, activeApp)
    }
  }

  /** No operation removes a profile, so a `GLOBAL` profile, once present, stays. */
  lemma {:induction false} GlobalPersists(d: Document, name: string, landmarks: seq<Point>, action: Option<string>,
                                          profile: string, key: string, value: Config.Json)
    requires Global in d.profiles
    ensures Global in WithGesture(d, name, landmarks, action, profile).profiles
    ensures Global in WithoutGesture(d, name, profile).profiles
    ensures Global in WithSetting(d, key, value).profiles
    ensures GlobalAction(WithoutGesture(d, name, profile), name) != NoGlobalProfile
  {
    var r := WithoutGesture(d, name, profile);
    assert Global in r.profiles;
  }

  /** A gesture saved with an action for an application resolves to that action while the
      application is active, and one saved for `GLOBAL` resolves to it with no application. */
  lemma {:induction false} SavedActionResolves(d: Document, name: string, landmarks: seq<Point>, action: string, app: string)
    requires action != "" && app != ""
    ensures ActionOf(WithGesture(d, name, landmarks, Some(action), app), name, Some(app)) == Found(action)
    ensures ActionOf(WithGesture(d, name, landmarks, Some(action), Global), name, None) == Found(action)
  {
    var r := WithGesture(d, name, landmarks, Some(action), app);
    assert app in r.profiles && name in r.profiles[app];
  }

  /** Once an application's action is deleted, the gesture falls back to the `GLOBAL` action. */
  lemma {:induction false} DeleteFallsBackToGlobal(d: Document, name: string, app: string)
    requires app != Global
    ensures ActionOf(WithoutGesture(d, name, app), name, Some(app)) == GlobalAction(d, name)
  {
    var r := WithoutGesture(d, name, app);
    if app in d.profiles {
      assert name !in r.profiles[app];
    }
    assert Global in r.profiles <==> Global in d.profiles;
    if Global in d.profiles {
      assert r.profiles[Global] == d.profiles[Global];
    }
  }

  /** A template shared by two profiles survives deleting it from one of them, and goes with
      the last profile that mapped it. */
  lemma {:induction false} SharedTemplateSurvives(d: Document, name: string, profile: string, other: string)
    requires other != profile && other in d.profiles && name in d.profiles[other]
    ensures WithoutGesture(d, name, profile).gestures == d.gestures
  {
    var r := WithoutGesture(d, name, profile);
    assert other in r.profiles && name in r.profiles[other];
  }

  /** A scope "Notepad" mapping g1 to A, and `GLOBAL` mapping g1 to B with nothing for g2:
      g1 resolves to A in Notepad and to B elsewhere, and g2 has no action in Notepad. */
  lemma NotepadExample(gestures: map<string, seq<Point>>, settings: map<string, Config.Json>)
    ensures var d := Document(map["Notepad" := map["g1" := "A"], Global := map["g1" := "B"]], gestures, settings);
            ActionOf(d, "g1", Some("Notepad")) == Found("A")
            && ActionOf(d, "g1", Some("OtherApp")) == Found("B")
            && ActionOf(d, "g2", Some("Notepad")) == NoAction
  {
  }
}
