/** Effective thread settings, the patches a client requests, and when one shows the other (src/config.rs). */
module Config {
  import opened Prelude
  import opened Json

  // ---------------------------------------------------------------- sandbox policies

  /** The fields a policy of a known type may have. */
  function KnownFields(kind: string): Option<set<string>> {
    if kind == "dangerFullAccess" then Some({"type"})
    else if kind == "readOnly" || kind == "externalSandbox" then Some({"type", "networkAccess"})
    else if kind == "workspaceWrite" then
      Some({"type", "networkAccess", "writableRoots", "excludeTmpdirEnvVar", "excludeSlashTmp"})
    else None
  }

  predicate OnlyFields(v: Value, fields: set<string>) { v.Obj? && v.fields.Keys <= fields }

  predicate SameSandbox(current: Value, requested: Value) {
    At(current, "type") == At(requested, "type")
    && var kind := At(requested, "type");
       if !kind.Str? || KnownFields(kind.s).None? then current == requested
       else
         && OnlyFields(current, KnownFields(kind.s).value) && OnlyFields(requested, KnownFields(kind.s).value)
         && (if kind.s == "dangerFullAccess" then true
             else if kind.s == "readOnly" then
               AsBool(At(current, "networkAccess"), false) == AsBool(At(requested, "networkAccess"), false)
             else if kind.s == "externalSandbox" then
               AsStr(At(current, "networkAccess"), "restricted") == AsStr(At(requested, "networkAccess"), "restricted")
             else
               && (forall key | key in {"networkAccess", "excludeTmpdirEnvVar", "excludeSlashTmp"} ::
                     AsBool(At(current, key), false) == AsBool(At(requested, key), false))
               && Or(Field(current, "writableRoots"), Arr([])) == Or(Field(requested, "writableRoots"), Arr([])))
  }

  /** The policy with every omitted field written out; values that are not policies stand for themselves. */
  function Canonical(v: Value): Value {
    var kind := At(v, "type");
    if !kind.Str? || KnownFields(kind.s).None? then v
    else if kind.s == "dangerFullAccess" then Obj(map["type" := kind])
    else if kind.s == "readOnly" then
      Obj(map["type" := kind, "networkAccess" := Bool(AsBool(At(v, "networkAccess"), false))])
    else if kind.s == "externalSandbox" then
      Obj(map["type" := kind, "networkAccess" := Str(AsStr(At(v, "networkAccess"), "restricted"))])
    else
      Obj(map["type" := kind,
              "networkAccess" := Bool(AsBool(At(v, "networkAccess"), false)),
              "excludeTmpdirEnvVar" := Bool(AsBool(At(v, "excludeTmpdirEnvVar"), false)),
              "excludeSlashTmp" := Bool(AsBool(At(v, "excludeSlashTmp"), false)),
              "writableRoots" := Or(Field(v, "writableRoots"), Arr([]))])
  }

  /** A known policy type with no field outside its schema, or any value of an unknown type. */
  predicate Recognised(v: Value) {
    var kind := At(v, "type");
    kind.Str? && KnownFields(kind.s).Some? ==> OnlyFields(v, KnownFields(kind.s).value)
  }

  /** The comparison is equality of canonical forms, so it is an equivalence on recognised policies. */
  lemma SameSandboxIsCanonical(a: Value, b: Value)
    ensures SameSandbox(a, b) <==> Recognised(a) && Recognised(b) && Canonical(a) == Canonical(b)
  {
    CanonicalType(a);
    CanonicalType(b);
    var ca, cb := Canonical(a), Canonical(b);
    if At(a, "type") == At(b, "type") {
      var kind := At(a, "type");
      if kind.Str? && KnownFields(kind.s).Some? {
        assert ca == cb ==> forall key :: At(ca, key) == At(cb, key);
        assert ca == cb ==> At(ca, "networkAccess") == At(cb, "networkAccess");
        assert ca == cb ==> At(ca, "excludeTmpdirEnvVar") == At(cb, "excludeTmpdirEnvVar");
        assert ca == cb ==> At(ca, "excludeSlashTmp") == At(cb, "excludeSlashTmp");
        assert ca == cb ==> At(ca, "writableRoots") == At(cb, "writableRoots");
      }
    }
  }

  lemma CanonicalType(v: Value)
    ensures At(Canonical(v), "type") == At(v, "type")
  {
  }

  // ---------------------------------------------------------------- patches against settings

  predicate Ignored(key: string, value: Value) {
    key == "threadId" || key == "multiAgentMode" || (value.Null? && key != "serviceTier")
  }

  predicate ModeMatches(current: Value, value: Value) {
    var a, b := At(current, "settings"), At(value, "settings");
    && At(current, "mode") == At(value, "mode")
    && At(a, "model") == At(b, "model")
    && At(a, "reasoning_effort") == At(b, "reasoning_effort")
    && (At(b, "developer_instructions").Null? || At(a, "developer_instructions") == At(b, "developer_instructions"))
  }

  /** One requested value against the effective settings; paths compare as their text. */
  predicate KeyMatches(s: Settings, key: string, value: Value) {
    if Ignored(key, value) then true
    else if key == "permissions" then
      "activePermissionProfile" in s && Field(s["activePermissionProfile"], "id") == Some(value)
    else if key == "cwd" then value.Str? && key in s && s[key] == value
    else if key == "sandboxPolicy" then key in s && SameSandbox(s[key], value)
    else if key == "collaborationMode" then key in s && ModeMatches(s[key], value)
    else if key == "serviceTier" then Or(Get(s, key), Null) == value
    else Get(s, key) == Some(value)
  }

  predicate SettingsMatch(s: Settings, patch: Settings) {
    forall key <- patch :: KeyMatches(s, key, patch[key])
  }

  predicate IsSettingsNoop(s: Settings, patch: Settings) {
    && SettingsMatch(s, patch)
    && ("collaborationMode" in patch ==>
          patch["collaborationMode"].Null? || Get(s, "collaborationMode") == Some(patch["collaborationMode"]))
  }

  // ---------------------------------------------------------------- selectors

  function Text(s: Settings, key: string, fallback: string): string {
    if key in s then AsStr(s[key], fallback) else fallback
  }

  /** The value a selector shows; effort's fallback comes from the model catalogue. */
  function Shown(s: Settings, selector: string, effortDefault: string): string {
    if selector == "model" then Text(s, "model", "default")
    else if selector == "effort" then Text(s, "effort", effortDefault)
    else if selector == "serviceTier" then Text(s, "serviceTier", "default")
    else if selector == "approvalPolicy" then Text(s, "approvalPolicy", "")
    else if selector == "sandbox" then
      (if "sandboxPolicy" in s then AsStr(At(s["sandboxPolicy"], "type"), "readOnly") else "readOnly")
    else if selector == "mode" then
      (if "collaborationMode" in s then AsStr(At(s["collaborationMode"], "mode"), "backend") else "backend")
    else ""
  }

  function SandboxPreset(kind: string): Option<Value> {
    var off := Bool(false);
    if kind == "readOnly" then Some(Obj(map["type" := Str(kind), "networkAccess" := off]))
    else if kind == "workspaceWrite" then
      Some(Obj(map["type" := Str(kind), "writableRoots" := Arr([]), "networkAccess" := off,
                   "excludeTmpdirEnvVar" := off, "excludeSlashTmp" := off]))
    else if kind == "dangerFullAccess" then Some(Obj(map["type" := Str(kind)]))
    else None
  }

  /** The settings a selector is computed from, and the backend's catalogue of models. */
  datatype Configuration = Configuration(settings: Settings, models: seq<Value>)

  datatype Select = Select(current: string, choices: seq<string>)

  /** The strings that the values have under a key, in order. */
  function Names(values: seq<Value>, key: string): (r: seq<string>)
    ensures forall name <- r :: exists v <- values :: At(v, key) == Str(name)
    ensures forall v <- values :: At(v, key).Str? ==> At(v, key).s in r
  {
    if values == [] then []
    else
      var rest := Names(values[1..], key);
      assert values == [values[0]] + values[1..];
      if At(values[0], key).Str? then [At(values[0], key).s] + rest else rest
  }

  function WithCurrent(choices: seq<string>, current: string): seq<string> {
    if current in choices then choices else choices + [current]
  }

  /** The first catalogue entry of the current model; null if there is none. */
  function Entry(models: seq<Value>, model: string): Value {
    if models == [] then Null else if At(models[0], "model") == Str(model) then models[0] else Entry(models[1..], model)
  }

  function Catalogue(c: Configuration): Value { Entry(c.models, Text(c.settings, "model", "default")) }

  function EffortDefault(c: Configuration): string { AsStr(At(Catalogue(c), "defaultReasoningEffort"), "medium") }

  function Items(v: Value): seq<Value> { if v.Arr? then v.items else [] }

  /** Service tiers count only with an id and a name. */
  function Tiers(values: seq<Value>): seq<string> {
    if values == [] then []
    else if At(values[0], "id").Str? && At(values[0], "name").Str? then [At(values[0], "id").s] + Tiers(values[1..])
    else Tiers(values[1..])
  }

  /** A selector of the configuration, if it is offered. */
  function OptionOf(c: Configuration, selector: string): Option<Select> {
    var current := Shown(c.settings, selector, EffortDefault(c));
    if selector == "model" then Some(Select(current, WithCurrent(Names(c.models, "model"), current)))
    else if selector == "effort" then
      var efforts := Names(Items(At(Catalogue(c), "supportedReasoningEfforts")), "reasoningEffort");
      if efforts == [] then None else Some(Select(current, efforts))
    else if selector == "serviceTier" then
      Some(Select(current, WithCurrent(["default"] + Tiers(Items(At(Catalogue(c), "serviceTiers"))), current)))
    else if selector == "approvalPolicy" then
      if "approvalPolicy" in c.settings && c.settings["approvalPolicy"].Str? then
        Some(Select(current, ["untrusted", "on-failure", "on-request", "never"]))
      else None
    else if selector == "sandbox" then
      Some(Select(current, WithCurrent(["readOnly", "workspaceWrite", "dangerFullAccess"], current)))
    else if selector == "mode" then
      Some(Select(current, ["default", "plan"] + if current == "backend" then ["backend"] else []))
    else None
  }

  /** The patch for a choice; none if the selector or the choice is not offered, or only displayed. */
  function PatchOf(c: Configuration, selector: string, value: string): Option<Settings> {
    var option := OptionOf(c, selector);
    if option.Some? && value in option.value.choices then Patch(c.settings, selector, value) else None
  }

  const PRESETS: seq<string> := ["readOnly", "workspaceWrite", "dangerFullAccess"]

  /** What a selector offers whatever it shows at the moment. */
  function Regular(c: Configuration, selector: string): seq<string> {
    if selector == "model" then Names(c.models, "model")
    else if selector == "effort" then Names(Items(At(Catalogue(c), "supportedReasoningEfforts")), "reasoningEffort")
    else if selector == "serviceTier" then ["default"] + Tiers(Items(At(Catalogue(c), "serviceTiers")))
    else if selector == "approvalPolicy" then ["untrusted", "on-failure", "on-request", "never"]
    else if selector == "sandbox" then PRESETS
    else if selector == "mode" then ["default", "plan"]
    else []
  }

  /**
    Choosing is refused exactly if the selector is not offered, or if the value is neither a regular choice nor
    the model or service tier that is shown: a sandbox or mode of the backend's own is shown, but only there.
   */
  lemma RefusedExactly(c: Configuration, selector: string, value: string)
    ensures PatchOf(c, selector, value).None?
            <==> var option := OptionOf(c, selector);
                 || option.None?
                 || (value !in Regular(c, selector)
                     && !(selector in ["model", "serviceTier"] && value == option.value.current))
  {
    hide Names, Tiers, Entry;
  }

  /**
    What can be selected next. Settings that took a selection over, of the model or under the same one, accept
    exactly the regular choices and the value itself: what the selector showed before can be restored exactly
    if it was regular.
   */
  lemma ReselectExactly(c: Configuration, selector: string, value: string, after: Settings, next: string)
    requires PatchOf(c, selector, value).Some?
    requires Takes(c.settings, PatchOf(c, selector, value).value, after)
    requires selector == "model" || Get(after, "model") == Get(c.settings, "model")
    ensures PatchOf(Configuration(after, c.models), selector, next).Some? <==> next in Regular(c, selector) || next == value
  {
    hide Names, Tiers, Entry, Takes, Shown, SettingsMatch;
    var c' := Configuration(after, c.models);
    RefusedExactly(c, selector, value);
    RefusedExactly(c', selector, next);
    PatchShowsChoice(c, selector, value, after);
    SameRegular(c, c', selector);
  }

  lemma SameRegular(c: Configuration, c': Configuration, selector: string)
    requires c'.models == c.models && (selector == "model" || Get(c'.settings, "model") == Get(c.settings, "model"))
    ensures Regular(c', selector) == Regular(c, selector)
  {
    hide Names, Tiers, Entry;
  }

  /** The value that a selector shows is one of its choices, unless it is an irregular effort, approval policy or mode. */
  lemma CurrentIsOffered(c: Configuration, selector: string)
    requires OptionOf(c, selector).Some?
    ensures var option := OptionOf(c, selector).value;
            option.current in option.choices <==>
              || option.current in Regular(c, selector)
              || selector in ["model", "serviceTier", "sandbox"]
              || (selector == "mode" && option.current == "backend")
  {
    hide Names, Tiers, Entry;
  }

  /** An approval policy that the backend has and the selector does not know: it is shown, and not among the choices. */
  lemma CurrentNotOffered()
    ensures var c := Configuration(map["approvalPolicy" := Str("granular")], []);
            && OptionOf(c, "approvalPolicy").Some?
            && var option := OptionOf(c, "approvalPolicy").value;
               option.current == "granular" && option.current !in option.choices
               && PatchOf(c, "approvalPolicy", option.current).None?
  {
  }

  /** The patch for a value already found among the selector's choices. */
  function Patch(s: Settings, selector: string, value: string): Option<Settings> {
    if selector == "model" || selector == "effort" || selector == "approvalPolicy" then Some(map[selector := Str(value)])
    else if selector == "serviceTier" then Some(map[selector := if value == "default" then Null else Str(value)])
    else if selector == "sandbox" then
      (match SandboxPreset(value)
       case Some(policy) => Some(map["sandboxPolicy" := policy])
       case None => None)
    else if selector == "mode" then
      (if value == "default" || value == "plan" then
         Some(map["collaborationMode" := Obj(map[
           "mode" := Str(value),
           "settings" := Obj(map["model" := Str(Text(s, "model", "default")),
                                 "reasoning_effort" := Or(Get(s, "effort"), Null),
                                 "developer_instructions" := Null])])])
       else None)
    else None
  }

  /** Effective settings that took the patch over; the backend may write its own instructions into a mode. */
  predicate Takes(before: Settings, patch: Settings, after: Settings) {
    forall key <- patch ::
      && key in after
      && if key == "collaborationMode" && patch[key].Obj? then ModeMatches(after[key], patch[key])
         else after[key] == patch[key]
  }

  lemma PresetIsItself(kind: string)
    requires SandboxPreset(kind).Some?
    ensures var policy := SandboxPreset(kind).value; At(policy, "type") == Str(kind) && SameSandbox(policy, policy)
  {
  }

  lemma PatchIsShown(before: Settings, selector: string, value: string, after: Settings, effortDefault: string)
    requires Patch(before, selector, value).Some?
    requires Takes(before, Patch(before, selector, value).value, after)
    ensures SettingsMatch(after, Patch(before, selector, value).value)
    ensures Shown(after, selector, effortDefault) == value
  {
    hide SameSandbox, SandboxPreset;
    var patch := Patch(before, selector, value).value;
    if selector == "sandbox" {
      assert "sandboxPolicy" in patch;
      PresetIsItself(value);
    } else if selector == "mode" {
      assert "collaborationMode" in patch;
    } else {
      assert selector in patch;
    }
  }

  /**
    Round trip of a selection. Settings that took a choice's patch over match the patch, so the barrier opens,
    and the selector, which is still offered unless another model lists no efforts, shows the choice; it is
    still among the choices if the model is the same.
   */
  lemma PatchShowsChoice(c: Configuration, selector: string, value: string, after: Settings)
    requires PatchOf(c, selector, value).Some?
    requires Takes(c.settings, PatchOf(c, selector, value).value, after)
    ensures var option := OptionOf(Configuration(after, c.models), selector);
            && SettingsMatch(after, PatchOf(c, selector, value).value)
            && (option.Some? ==> option.value.current == value)
            && (option.None? ==> selector == "effort" && Get(after, "model") != Get(c.settings, "model"))
            && (Get(after, "model") == Get(c.settings, "model") ==> value in option.value.choices)
  {
    hide Names, Tiers, Entry, SettingsMatch, Takes, Shown;
    var c' := Configuration(after, c.models);
    PatchIsShown(c.settings, selector, value, after, EffortDefault(c'));
    TakenPolicy(c.settings, selector, value, after);
    assert Get(after, "model") == Get(c.settings, "model") ==> Text(after, "model", "default") == Text(c.settings, "model", "default");
  }

  lemma TakenPolicy(before: Settings, selector: string, value: string, after: Settings)
    requires selector == "approvalPolicy" ==> Patch(before, selector, value).Some? && Takes(before, Patch(before, selector, value).value, after)
    ensures selector == "approvalPolicy" ==> "approvalPolicy" in after && after["approvalPolicy"] == Str(value)
  {
    assert selector == "approvalPolicy" ==> selector in Patch(before, selector, value).value;
  }

  /** The settings after a backend has written the requested values over them. */
  function Written(s: Settings, patch: Settings): Settings {
    s + map key | key in patch && !Ignored(key, patch[key]) :: patch[key]
  }

  /** What a suppressed patch asks for is there already, a null service tier and the two compared ones aside. */
  lemma NoopMatches(s: Settings, patch: Settings, key: string)
    requires IsSettingsNoop(s, patch) && key in patch && !Ignored(key, patch[key])
    requires key != "permissions" && key != "sandboxPolicy" && !(key == "serviceTier" && patch[key].Null?)
    ensures Get(s, key) == Some(patch[key])
  {
    hide SameSandbox, ModeMatches;
    assert KeyMatches(s, key, patch[key]);
  }

  lemma NoopSandbox(s: Settings, patch: Settings)
    requires IsSettingsNoop(s, patch) && "sandboxPolicy" in patch && !Ignored("sandboxPolicy", patch["sandboxPolicy"])
    ensures "sandboxPolicy" in s && At(s["sandboxPolicy"], "type") == At(patch["sandboxPolicy"], "type")
  {
    hide OnlyFields, KnownFields, ModeMatches;
    assert KeyMatches(s, "sandboxPolicy", patch["sandboxPolicy"]);
  }

  lemma NoopTier(s: Settings, patch: Settings)
    requires IsSettingsNoop(s, patch) && "serviceTier" in patch
    ensures Or(Get(s, "serviceTier"), Null) == patch["serviceTier"]
  {
    hide SameSandbox, ModeMatches;
    assert KeyMatches(s, "serviceTier", patch["serviceTier"]);
  }

  /** Suppressing a no-op is invisible: had the backend applied the patch, every selector would show the same. */
  lemma NoopChangesNothing(s: Settings, patch: Settings, selector: string, effortDefault: string)
    requires IsSettingsNoop(s, patch)
    ensures Shown(Written(s, patch), selector, effortDefault) == Shown(s, selector, effortDefault)
  {
    hide IsSettingsNoop;
    var key := if selector == "sandbox" then "sandboxPolicy" else if selector == "mode" then "collaborationMode" else selector;
    if key in patch && !Ignored(key, patch[key]) {
      if key == "sandboxPolicy" {
        NoopSandbox(s, patch);
      } else if key == "serviceTier" {
        NoopTier(s, patch);
      } else if key != "permissions" {
        NoopMatches(s, patch, key);
      }
    }
  }

  /** The two no-op decisions agree: a choice whose patch would be suppressed is the one already shown. */
  lemma NoopIsShown(s: Settings, selector: string, value: string, effortDefault: string)
    requires Patch(s, selector, value).Some? && IsSettingsNoop(s, Patch(s, selector, value).value)
    ensures Shown(s, selector, effortDefault) == value
  {
    hide SameSandbox, ModeMatches, IsSettingsNoop, SandboxPreset;
    var patch := Patch(s, selector, value).value;
    if selector == "sandbox" {
      PresetIsItself(value);
      NoopSandbox(s, patch);
    } else if selector == "serviceTier" {
      NoopTier(s, patch);
    } else {
      NoopMatches(s, patch, if selector == "mode" then "collaborationMode" else selector);
    }
  }

  /** Settings that hold what a patch asks for match it, and the patch is then a no-op. */
  lemma HeldMatches(s: Settings, patch: Settings)
    requires forall key <- patch ::
               || key in ["threadId", "multiAgentMode"] || (patch[key].Null? && key != "serviceTier")
               || (key == "serviceTier" && patch[key].Null? && key !in s)
               || (key == "permissions" && "activePermissionProfile" in s && Field(s["activePermissionProfile"], "id") == Some(patch[key]))
               || (key != "permissions" && Get(s, key) == Some(patch[key]) && (key == "cwd" ==> patch[key].Str?)
                   && (key == "sandboxPolicy" ==> Recognised(patch[key])))
    ensures SettingsMatch(s, patch) && IsSettingsNoop(s, patch)
  {
    forall key | key in patch ensures KeyMatches(s, key, patch[key]) {
      if key == "sandboxPolicy" && key in s {
        SameSandboxIsCanonical(s[key], patch[key]);
      }
    }
  }

  // ---------------------------------------------------------------- what a selection asks for

  /** The setting that a selector writes. */
  function SettingOf(selector: string): string {
    if selector == "sandbox" then "sandboxPolicy" else if selector == "mode" then "collaborationMode" else selector
  }

  /** A mode is asked for with the model and the effort that the session has. */
  lemma ModeKeepsModel(c: Configuration, value: string)
    requires PatchOf(c, "mode", value).Some?
    ensures var patch := PatchOf(c, "mode", value).value;
            && "collaborationMode" in patch
            && var mode, inner := patch["collaborationMode"], At(patch["collaborationMode"], "settings");
               && At(mode, "mode") == Str(value)
               && At(inner, "model") == Str(OptionOf(c, "model").value.current)
               && At(inner, "reasoning_effort") == Or(Get(c.settings, "effort"), Null)
               && At(inner, "developer_instructions") == Null
  {
  }

  /**
    A selection asks for nothing else: had the backend written its patch over the settings, the selector would show the
    value, every other setting would be as before, and so would what every other selector shows, the effort aside
    that a newly selected model has by default.
   */
  lemma SelectionChangesOnlyItself(c: Configuration, selector: string, value: string, other: string, key: string)
    requires PatchOf(c, selector, value).Some? && OptionOf(c, other).Some?
    ensures var c' := Configuration(Written(c.settings, PatchOf(c, selector, value).value), c.models);
            && OptionOf(c', selector).Some? && OptionOf(c', selector).value.current == value
            && (key != SettingOf(selector) ==> Get(c'.settings, key) == Get(c.settings, key))
            && (other != selector && !(selector == "model" && other == "effort")
                ==> OptionOf(c', other).Some? && OptionOf(c', other).value.current == OptionOf(c, other).value.current)
  {
    hide Names, Tiers, Entry, SandboxPreset, Shown, OptionOf, PatchOf, Takes, SettingOf;
    var patch := PatchOf(c, selector, value).value;
    var c' := Configuration(Written(c.settings, patch), c.models);
    PatchWrites(c, selector, value);
    WrittenTakes(c, selector, value);
    PatchShowsChoice(c, selector, value, c'.settings);
    OtherSettings(selector, other);
    Selectors(c, other);
    if other != selector && !(selector == "model" && other == "effort") {
      OthersShow(c, c', other);
    }
  }

  /** Each selector has a setting of its own. */
  lemma OtherSettings(selector: string, other: string)
    requires selector in SELECTORS
    ensures other in SELECTORS && other != selector ==> SettingOf(other) != SettingOf(selector)
    ensures SettingOf("model") == "model" && (SettingOf(selector) == "model" ==> selector == "model")
  {
  }

  const SELECTORS: seq<string> := ["model", "effort", "serviceTier", "approvalPolicy", "sandbox", "mode"]

  /** What a selector shows depends on its own setting, and for the effort on the model. */
  lemma OthersShow(c: Configuration, c': Configuration, other: string)
    requires c'.models == c.models && Get(c'.settings, SettingOf(other)) == Get(c.settings, SettingOf(other))
    requires other == "effort" ==> Get(c'.settings, "model") == Get(c.settings, "model")
    requires OptionOf(c, other).Some?
    ensures OptionOf(c', other).Some? && OptionOf(c', other).value.current == OptionOf(c, other).value.current
    ensures other in SELECTORS
  {
    hide Names, Tiers, Entry;
    assert other == "effort" ==> Catalogue(c') == Catalogue(c);
  }

  lemma Selectors(c: Configuration, selector: string)
    requires OptionOf(c, selector).Some?
    ensures selector in SELECTORS
  {
    hide Names, Tiers, Entry, Shown;
  }

  lemma WrittenTakes(c: Configuration, selector: string, value: string)
    requires PatchOf(c, selector, value).Some?
    ensures Takes(c.settings, PatchOf(c, selector, value).value, Written(c.settings, PatchOf(c, selector, value).value))
  {
    hide Names, Tiers, Entry, OptionOf, KnownFields;
  }

  lemma PatchWrites(c: Configuration, selector: string, value: string)
    requires PatchOf(c, selector, value).Some?
    ensures PatchOf(c, selector, value).value.Keys == {SettingOf(selector)} && selector in SELECTORS
  {
    hide Names, Tiers, Entry, SandboxPreset, OptionOf;
  }

  /** A preset is a policy of its own name; short of full access it grants neither the network nor further roots. */
  lemma PresetsGrantNoNetwork(c: Configuration, value: string)
    requires PatchOf(c, "sandbox", value).Some?
    ensures var patch := PatchOf(c, "sandbox", value).value;
            && "sandboxPolicy" in patch
            && At(patch["sandboxPolicy"], "type") == Str(value)
            && value in ["readOnly", "workspaceWrite", "dangerFullAccess"]
            && (value != "dangerFullAccess" ==> At(patch["sandboxPolicy"], "networkAccess") == Bool(false))
            && (value == "workspaceWrite" ==>
                  && At(patch["sandboxPolicy"], "writableRoots") == Arr([])
                  && At(patch["sandboxPolicy"], "excludeTmpdirEnvVar") == Bool(false)
                  && At(patch["sandboxPolicy"], "excludeSlashTmp") == Bool(false))
  {
    hide OptionOf;
  }

  /**
    Everything that the backend offers can be chosen, and is then asked for by its name: the models of the catalogue,
    the efforts and service tiers of the current model, and the fixed choices.
   */
  lemma EveryChoiceSelectable(c: Configuration, v: Value)
    ensures v in c.models && At(v, "model").Str? ==> PatchOf(c, "model", At(v, "model").s) == Some(map["model" := At(v, "model")])
    ensures v in Items(At(Catalogue(c), "supportedReasoningEfforts")) && At(v, "reasoningEffort").Str?
            ==> PatchOf(c, "effort", At(v, "reasoningEffort").s) == Some(map["effort" := At(v, "reasoningEffort")])
    ensures v in Items(At(Catalogue(c), "serviceTiers")) && At(v, "id").Str? && At(v, "name").Str? && At(v, "id") != Str("default")
            ==> PatchOf(c, "serviceTier", At(v, "id").s) == Some(map["serviceTier" := At(v, "id")])
    ensures PatchOf(c, "serviceTier", "default") == Some(map["serviceTier" := Null])
    ensures "approvalPolicy" in c.settings && c.settings["approvalPolicy"].Str?
            ==> forall p <- ["untrusted", "on-failure", "on-request", "never"] ::
                  PatchOf(c, "approvalPolicy", p) == Some(map["approvalPolicy" := Str(p)])
    ensures forall p <- ["readOnly", "workspaceWrite", "dangerFullAccess"] :: PatchOf(c, "sandbox", p).Some?
    ensures forall m <- ["default", "plan"] :: PatchOf(c, "mode", m).Some?
  {
    hide Entry, SandboxPreset, Shown;
    TiersOffered(Items(At(Catalogue(c), "serviceTiers")), v);
    PresetsExist();
  }

  lemma PresetsExist()
    ensures forall p <- ["readOnly", "workspaceWrite", "dangerFullAccess"] :: SandboxPreset(p).Some?
  {
  }

  lemma {:induction false} TiersOffered(values: seq<Value>, v: Value)
    ensures v in values && At(v, "id").Str? && At(v, "name").Str? ==> At(v, "id").s in Tiers(values)
  {
    if values != [] {
      TiersOffered(values[1..], v);
      assert v in values ==> v == values[0] || v in values[1..];
    }
  }

  /** The catalogue entry of the current model is the first with its name. */
  lemma {:induction false} EntryIsFirst(models: seq<Value>, model: string, k: nat)
    requires k < |models| && At(models[k], "model") == Str(model) && forall i | 0 <= i < k :: At(models[i], "model") != Str(model)
    ensures Entry(models, model) == models[k]
  {
    if k > 0 {
      EntryIsFirst(models[1..], model, k - 1);
    }
  }

  /** Settings that match a selection's patch show it, whoever wrote them. */
  lemma MatchIsShown(before: Settings, selector: string, value: string, after: Settings, effortDefault: string)
    requires Patch(before, selector, value).Some? && SettingsMatch(after, Patch(before, selector, value).value)
    ensures Shown(after, selector, effortDefault) == value
  {
    hide SandboxPreset, KnownFields, OnlyFields;
    var patch := Patch(before, selector, value).value;
    if selector == "sandbox" {
      PresetIsItself(value);
      assert KeyMatches(after, "sandboxPolicy", patch["sandboxPolicy"]);
    } else if selector == "mode" {
      assert KeyMatches(after, "collaborationMode", patch["collaborationMode"]);
    } else {
      assert KeyMatches(after, selector, patch[selector]);
    }
  }

  // ---------------------------------------------------------------- what is compared, offered and shown

  /** When the settings show a requested value, key by key; whatever is not listed here asks for nothing. */
  lemma MatchesExactly(s: Settings, key: string, value: Value)
    ensures key in ["approvalPolicy", "approvalsReviewer", "model", "effort", "summary", "personality"] ==>
              (KeyMatches(s, key, value) <==> value.Null? || Get(s, key) == Some(value))
    ensures key == "serviceTier" ==> (KeyMatches(s, key, value) <==> Get(s, key) == Some(value) || (value.Null? && key !in s))
    ensures key == "cwd" ==> (KeyMatches(s, key, value) <==> value.Null? || (value.Str? && Get(s, key) == Some(value)))
    ensures key == "permissions" ==>
              (KeyMatches(s, key, value)
               <==> value.Null? || ("activePermissionProfile" in s && Field(s["activePermissionProfile"], "id") == Some(value)))
    ensures key == "sandboxPolicy" ==>
              (KeyMatches(s, key, value)
               <==> value.Null? || (key in s && Recognised(s[key]) && Recognised(value) && Canonical(s[key]) == Canonical(value)))
    ensures key == "collaborationMode" ==>
              (KeyMatches(s, key, value)
               <==> value.Null?
                    || (&& key in s && At(s[key], "mode") == At(value, "mode")
                        && var inner, asked := At(s[key], "settings"), At(value, "settings");
                           && At(inner, "model") == At(asked, "model")
                           && At(inner, "reasoning_effort") == At(asked, "reasoning_effort")
                           && (At(asked, "developer_instructions").Null?
                               || At(inner, "developer_instructions") == At(asked, "developer_instructions"))))
    ensures key in ["threadId", "multiAgentMode"] ==> KeyMatches(s, key, value)
  {
    hide SameSandbox, Recognised, Canonical;
    if key == "sandboxPolicy" && key in s {
      SameSandboxIsCanonical(s[key], value);
    }
  }

  /** What the selectors offer whatever is shown: no more than the catalogue and the fixed choices have. */
  lemma RegularExactly(c: Configuration, value: string)
    ensures value in Regular(c, "model") <==> exists v <- c.models :: At(v, "model") == Str(value)
    ensures value in Regular(c, "effort")
            <==> exists v <- Items(At(Catalogue(c), "supportedReasoningEfforts")) :: At(v, "reasoningEffort") == Str(value)
    ensures value in Regular(c, "serviceTier")
            <==> || value == "default"
                 || exists v <- Items(At(Catalogue(c), "serviceTiers")) :: At(v, "id") == Str(value) && At(v, "name").Str?
    ensures value in Regular(c, "approvalPolicy") <==> value in ["untrusted", "on-failure", "on-request", "never"]
    ensures value in Regular(c, "sandbox") <==> value in ["readOnly", "workspaceWrite", "dangerFullAccess"]
    ensures value in Regular(c, "mode") <==> value in ["default", "plan"]
  {
    hide Entry;
    TiersExactly(Items(At(Catalogue(c), "serviceTiers")), value);
  }

  lemma {:induction false} TiersExactly(values: seq<Value>, value: string)
    ensures value in Tiers(values) <==> exists v <- values :: At(v, "id") == Str(value) && At(v, "name").Str?
  {
    if values != [] {
      TiersExactly(values[1..], value);
      assert values == [values[0]] + values[1..];
    }
  }

  /**
    What the selectors show: the setting if it is a text; otherwise a default. The approval policy is offered exactly
    if the settings have it as a text; the others, the effort aside, always are.
   */
  lemma ShownExactly(c: Configuration)
    ensures OptionOf(c, "model").Some? && Str(OptionOf(c, "model").value.current) == TextOr(Get(c.settings, "model"), "default")
    ensures var tier := OptionOf(c, "serviceTier"); tier.Some? && Str(tier.value.current) == TextOr(Get(c.settings, "serviceTier"), "default")
    ensures var policy := OptionOf(c, "approvalPolicy");
            && (policy.Some? <==> "approvalPolicy" in c.settings && c.settings["approvalPolicy"].Str?)
            && (policy.Some? ==> Str(policy.value.current) == c.settings["approvalPolicy"])
    ensures var sandbox := OptionOf(c, "sandbox");
            sandbox.Some? && Str(sandbox.value.current) == TextOr(Inside(Get(c.settings, "sandboxPolicy"), "type"), "readOnly")
    ensures var mode := OptionOf(c, "mode");
            mode.Some? && Str(mode.value.current) == TextOr(Inside(Get(c.settings, "collaborationMode"), "mode"), "backend")
  {
    hide Names, Tiers, Entry, WithCurrent;
  }

  /**
    The effort is offered exactly if the current model's entry in the catalogue lists some, and by default it is the
    one that the entry names.
   */
  lemma EffortShownExactly(c: Configuration)
    ensures var effort := OptionOf(c, "effort");
            && (effort.Some? <==> exists v <- Items(At(Catalogue(c), "supportedReasoningEfforts")) :: At(v, "reasoningEffort").Str?)
            && (effort.Some? ==>
                  Str(effort.value.current) == TextOr(Get(c.settings, "effort"), TextOr(Field(Catalogue(c), "defaultReasoningEffort"), "medium").s))
  {
    hide Names, Tiers, Entry, WithCurrent, Items, Catalogue;
    NamesExist(Items(At(Catalogue(c), "supportedReasoningEfforts")), "reasoningEffort");
  }

  lemma NamesExist(values: seq<Value>, key: string)
    ensures Names(values, key) != [] <==> exists v <- values :: At(v, key).Str?
  {
    if Names(values, key) != [] {
      assert Names(values, key)[0] in Names(values, key);
    }
  }

  function TextOr(v: Option<Value>, default: string): (r: Value)
    ensures r.Str?
  {
    if v.Some? && v.value.Str? then v.value else Str(default)
  }

  function Inside(v: Option<Value>, key: string): Option<Value> { if v.Some? then Field(v.value, key) else None }

  /**
    What an omitted field of a sandbox policy means, and that a field of another kind makes it a policy of its own:
    it is then the same as no other, whatever that is.
   */
  lemma SandboxFields(a: Value, b: Value)
    ensures At(a, "type") == Str("readOnly") && At(b, "type") == Str("readOnly") ==>
              (SameSandbox(a, b)
               <==> && a.fields.Keys + b.fields.Keys <= {"type", "networkAccess"}
                    && (At(a, "networkAccess") == Bool(true) <==> At(b, "networkAccess") == Bool(true)))
    ensures At(a, "type") == Str("externalSandbox") && At(b, "type") == Str("externalSandbox") ==>
              (SameSandbox(a, b)
               <==> && a.fields.Keys + b.fields.Keys <= {"type", "networkAccess"}
                    && TextOr(Field(a, "networkAccess"), "restricted") == TextOr(Field(b, "networkAccess"), "restricted"))
    ensures At(a, "type") == Str("dangerFullAccess") && At(b, "type") == Str("dangerFullAccess") ==>
              (SameSandbox(a, b) <==> a.fields.Keys + b.fields.Keys <= {"type"})
    ensures At(a, "type") == Str("workspaceWrite") && At(b, "type") == Str("workspaceWrite") ==>
              (SameSandbox(a, b)
               <==> && a.fields.Keys + b.fields.Keys <= {"type", "networkAccess", "writableRoots", "excludeTmpdirEnvVar", "excludeSlashTmp"}
                    && (forall key <- ["networkAccess", "excludeTmpdirEnvVar", "excludeSlashTmp"] ::
                          At(a, key) == Bool(true) <==> At(b, key) == Bool(true))
                    && Or(Field(a, "writableRoots"), Arr([])) == Or(Field(b, "writableRoots"), Arr([])))
    ensures !At(b, "type").Str? || At(b, "type").s !in ["readOnly", "externalSandbox", "dangerFullAccess", "workspaceWrite"] ==>
              (SameSandbox(a, b) <==> a == b)
  {
  }
}
