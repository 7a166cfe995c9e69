/** The action-string format of `ActionDialog` in `main.py`: the dialog offers six action
    types, builds `prefix:value` from the chosen type and the trimmed entry, and opens an
    existing action by splitting it at its first colon. The Tk widgets are not modelled. */
module ActionDialog {
  import opened Strings

  /** The prefixes behind the dialog's six type labels, in the order they are listed. */
  const Prefixes: seq<string> := ["hotkey", "app", "web", "type", "special", "mouse"]

  /** The type and entry the dialog shows when it opens. */
  datatype Shown = Shown(prefix: string, value: string)

  /** A fresh dialog shows the hotkey type and an empty entry. */
  const Fresh: Shown := Shown("hotkey", "")

  /** No offered prefix contains a colon. */
  lemma {:induction false} PrefixesHaveNoColon(p: string)
    requires p in Prefixes
    ensures ':' !in p
  {
    assert p == "hotkey" || p == "app" || p == "web" || p == "type" || p == "special" || p == "mouse";
  }

  /** Opening the dialog on an existing action: a non-empty action with a colon whose text
      before the first colon is an offered prefix selects that type and shows the rest;
      anything else leaves the fresh selection. */
  function Open(initial: string): (s: Shown)
    ensures s == Fresh || (s.prefix in Prefixes && ':' in initial && s.prefix + ":" + s.value == initial)
    ensures ':' !in initial ==> s == Fresh
  {
    if initial != "" && ':' in initial then
      var (prefix, value) := SplitFirst(initial, ':');
      if prefix in Prefixes then Shown(prefix, value) else Fresh
    else Fresh
  }

  /** Every action starting with an offered prefix and a colon opens on that prefix, showing
      everything after the first colon. */
  lemma {:induction false} OpenTagged(initial: string, p: string)
    requires p in Prefixes && StartsWith(initial, p + ":")
    ensures Open(initial) == Shown(p, initial[|p| + 1..])
  {
    PrefixesHaveNoColon(p);
    assert initial == p + [':'] + initial[|p| + 1..];
    SplitFirstOfJoined(p, ':', initial[|p| + 1..]);
  }

  /** `on_ok`: the action `prefix:value` from the trimmed entry, or none (a warning, and the
      dialog stays open) when the trimmed entry is empty. */
  function Compose(prefix: string, entry: string): (a: Option<string>)
    ensures a.None? <==> Strip(entry) == ""
    ensures a.Some? ==> StartsWith(a.value, prefix + ":") && a.value[|prefix| + 1..] == Strip(entry)
  {
    var value := Strip(entry);
    if value == "" then None
    else
      var a := prefix + ":" + value;
      assert a[..|prefix| + 1] == prefix + ":";
      Some(a)
  }

  /** An action built by the dialog opens again with the same type and the trimmed value,
      even when the value itself contains colons. */
  lemma {:induction false} OpenCompose(prefix: string, entry: string)
    requires prefix in Prefixes && Strip(entry) != ""
    ensures Open(Compose(prefix, entry).value) == Shown(prefix, Strip(entry))
  {
    PrefixesHaveNoColon(prefix);
    SplitFirstOfJoined(prefix, ':', Strip(entry));
  }

  /** Confirming a dialog opened on an action it built, without editing, gives back the same
      action. */
  lemma {:induction false} ReopenUnchanged(prefix: string, entry: string)
    requires prefix in Prefixes && Strip(entry) != ""
    ensures var a := Compose(prefix, entry).value;
            Compose(Open(a).prefix, Open(a).value) == Some(a)
  {
    OpenCompose(prefix, entry);
    StripTrimmed(Strip(entry));
  }
}
