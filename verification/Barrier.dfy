/**
  The settings barrier (src/server/controls.rs, src/server/extension_requests.rs).

  A mutation stays unresolved until a later full snapshot shows it. Whoever holds the session's gate
  waits for that before deciding that a requested value is already in effect.
 */
module Barrier {
  import opened Prelude
  import opened Json
  import opened Config

  datatype Pending = Pending(generation: nat, patch: Settings)

  datatype Data = Data(settings: Settings, generation: nat, pending: Option<Pending>)

  const RECORDED: set<string> :=
    {"cwd", "approvalPolicy", "approvalsReviewer", "sandboxPolicy", "permissions", "model", "serviceTier", "effort",
     "summary", "collaborationMode", "personality"}

  function Relevant(params: Settings): Settings { map key | key in params && key in RECORDED :: params[key] }

  predicate Resolved(d: Data, p: Pending) { d.generation > p.generation && SettingsMatch(d.settings, p.patch) }

  function Record(d: Data, params: Settings): Data {
    if IsSettingsNoop(d.settings, Relevant(params)) then d
    else d.(pending := Some(Pending(d.generation, Relevant(params))))
  }

  /** One look of reconcile_settings at the data, under its lock. */
  function Reconcile(d: Data): Option<Data> {
    match d.pending
    case None => Some(d)
    case Some(p) => if Resolved(d, p) then Some(d.(pending := None)) else None
  }

  class SettingsControl {
    var settings: Settings
    var generation: nat
    var pending: Option<Pending>

    function Model(): Data
      reads this
    {
      Data(settings, generation, pending)
    }

    method RecordSettingsChange(params: Settings)
      modifies this`pending
      ensures Model() == Record(old(Model()), params)
    {
      var patch := Relevant(params);
      if !IsSettingsNoop(settings, patch) {
        pending := Some(Pending(generation, patch));
      }
    }

    method ReconcileOnce() returns (done: bool)
      modifies this`pending
      ensures done <==> Reconcile(old(Model())).Some?
      ensures Model() == if done then Reconcile(old(Model())).value else old(Model())
    {
      if pending.None? {
        return true;
      }
      if generation > pending.value.generation && SettingsMatch(settings, pending.value.patch) {
        pending := None;
        return true;
      }
      return false;
    }
  }

  // ---------------------------------------------------------------- the gate's holder

  datatype Request =
    | Select(selector: string, value: string)   // session/set_config_option
    | Change(params: Settings)                  // settings update, or a turn started with overrides
    | Wait                                      // history mutation and prompt only reconcile

  datatype Gate =
    | Free
    | Reconciling(request: Request)
    | Deciding(request: Request)
    | Outstanding                               // the mutation's RPC has been sent
    | Confirming
    | Resuming

  /** `noops` records, for every decision that a request changes nothing, what was unresolved then. */
  datatype World = World(data: Data, gate: Gate, models: seq<Value>, noops: seq<Option<Pending>>)

  datatype Step =
    | Begin(request: Request)
    | Reconciled
    | Decide
    | Accepted
    | Rejected                                  // an explicit RPC error
    | Confirmed
    | GiveUp                                    // timeout, disconnect or an abandoned request
    | BeginResume
    | Resumed(reply: Settings)
    | Snapshot(settings: Settings)              // "thread/settings/updated"

  predicate Enabled(w: World, step: Step) {
    match step
    case Begin(_) => w.gate.Free?
    case Reconciled => w.gate.Reconciling? && Reconcile(w.data).Some?
    case Decide => w.gate.Deciding?
    case Accepted => w.gate.Outstanding?
    case Rejected => w.gate.Outstanding?
    case Confirmed => w.gate.Confirming? && Reconcile(w.data).Some?
    case GiveUp => !w.gate.Free?
    case BeginResume => w.gate.Free?
    case Resumed(_) => w.gate.Resuming?
    case Snapshot(_) => true
  }

  function Apply(w: World, step: Step): World
    requires Enabled(w, step)
  {
    match step
    case Begin(request) => w.(gate := Reconciling(request))
    case Reconciled => w.(data := Reconcile(w.data).value, gate := Deciding(w.gate.request))
    case Decide =>
      (match w.gate.request
       case Select(selector, value) =>
         var configuration := Configuration(w.data.settings, w.models);
         var option := OptionOf(configuration, selector);
         if option.Some? && option.value.current == value then
           w.(noops := w.noops + [w.data.pending], gate := Free)
         else
           (match PatchOf(configuration, selector, value)
            case None => w.(gate := Free)
            case Some(patch) => w.(gate := Reconciling(Change(patch))))
       case Change(params) =>
         w.(data := Record(w.data, params), gate := Outstanding,
            noops := if IsSettingsNoop(w.data.settings, Relevant(params)) then w.noops + [w.data.pending] else w.noops)
       case Wait => w.(gate := Free))
    case Accepted => w.(gate := Confirming)
    case Rejected => w.(data := w.data.(pending := None), gate := Free)
    case Confirmed => w.(data := Reconcile(w.data).value, gate := Free)
    case GiveUp => w.(gate := Free)
    case BeginResume => w.(gate := Resuming)
    case Resumed(reply) => w.(data := w.data.(settings := w.data.settings + reply, pending := None), gate := Free)
    case Snapshot(settings) => w.(data := w.data.(settings := settings, generation := w.data.generation + 1))
  }

  ghost predicate Legal(w: World, steps: seq<Step>)
    decreases |steps|
  {
    steps == [] || (Enabled(w, steps[0]) && Legal(Apply(w, steps[0]), steps[1..]))
  }

  ghost function Execute(w: World, steps: seq<Step>): World
    requires Legal(w, steps)
    decreases |steps|
  {
    if steps == [] then w else Execute(Apply(w, steps[0]), steps[1..])
  }

  predicate Initial(w: World) { w.data.pending.None? && w.gate.Free? && w.noops == [] }

  ghost predicate Inv(w: World) {
    && (w.gate.Deciding? ==> w.data.pending.None?)
    && (w.data.pending.Some? ==> w.data.pending.value.generation <= w.data.generation)
    && (forall unresolved <- w.noops :: unresolved.None?)
  }

  lemma StepKeeps(w: World, step: Step)
    requires Inv(w) && Enabled(w, step)
    ensures Inv(Apply(w, step))
  {
    hide IsSettingsNoop, SettingsMatch, OptionOf, PatchOf;
  }

  lemma {:induction false} RunKeeps(w: World, steps: seq<Step>)
    requires Inv(w) && Legal(w, steps)
    ensures Inv(Execute(w, steps))
    decreases |steps|
  {
    hide Apply, Enabled, Inv;
    if steps != [] {
      StepKeeps(w, steps[0]);
      RunKeeps(Apply(w, steps[0]), steps[1..]);
    }
  }

  /** Every decision that a request changes nothing was taken with no older mutation unresolved. */
  lemma NoopsSeeResolvedSettings(w: World, steps: seq<Step>)
    requires Initial(w) && Legal(w, steps)
    ensures forall unresolved <- Execute(w, steps).noops :: unresolved.None?
  {
    RunKeeps(w, steps);
  }

  /**
    The only ways out: an unresolved mutation is never overwritten or timed out. It goes away exactly by a
    snapshot of a strictly later generation that matches it, by the backend's rejection, or by a resume.
   */
  lemma BarrierOpensOnly(w: World, steps: seq<Step>, step: Step, p: Pending)
    requires Initial(w) && Legal(w, steps) && Enabled(Execute(w, steps), step)
    requires Execute(w, steps).data.pending == Some(p)
    ensures var before := Execute(w, steps);
            var after := Apply(before, step);
            && (after.data.pending == Some(p) || after.data.pending.None?)
            && (after.data.pending.None? <==>
                  || ((step.Reconciled? || step.Confirmed?) && before.data.generation > p.generation
                      && SettingsMatch(before.data.settings, p.patch))
                  || step.Rejected? || step.Resumed?)
  {
    hide IsSettingsNoop, SettingsMatch, OptionOf, PatchOf;
    RunKeeps(w, steps);
  }

  /** What can happen between a mutation's request and its confirmation without the gate changing hands. */
  predicate WhileWaiting(step: Step) { step.Accepted? || step.Snapshot? }

  /** The run shows these settings to whoever waits. */
  predicate Shows(steps: seq<Step>, settings: Settings) { Snapshot(settings) in steps }

  lemma {:induction false} WaitingRun(w: World, steps: seq<Step>, patch: Settings, generation: nat)
    requires w.gate.Outstanding? || w.gate.Confirming?
    requires w.data.pending == Some(Pending(generation, patch)) && generation <= w.data.generation
    requires Legal(w, steps) && forall s <- steps :: WhileWaiting(s)
    ensures var w' := Execute(w, steps);
            && w'.data.pending == w.data.pending && w'.data.generation >= w.data.generation
            && (w'.data.generation == w.data.generation ==> w'.data == w.data)
            && (w'.data.generation > w.data.generation ==> Shows(steps, w'.data.settings))
    decreases |steps|
  {
    hide Enabled, SettingsMatch;
    if steps != [] {
      assert steps[0] in steps && forall s <- steps[1..] :: s in steps;
      WaitingRun(Apply(w, steps[0]), steps[1..], patch, generation);
    }
  }

  /**
    A mutation is confirmed only by settings that show it: between the request and its confirmation a full
    snapshot was handled that matches everything the request asked for, and no later one has taken it back;
    unless the settings showed it all when the request was made.
   */
  lemma ConfirmationShowsPatch(w: World, before: seq<Step>, params: Settings, during: seq<Step>)
    requires Initial(w) && Legal(w, before) && Execute(w, before).gate == Deciding(Change(params))
    requires Legal(Apply(Execute(w, before), Decide), during) && (forall s <- during :: WhileWaiting(s))
    requires Enabled(Execute(Apply(Execute(w, before), Decide), during), Confirmed)
    ensures var confirmed := Execute(Apply(Execute(w, before), Decide), during);
            || IsSettingsNoop(Execute(w, before).data.settings, Relevant(params))
            || (Shows(during, confirmed.data.settings)
                && forall key <- params | key in RECORDED :: KeyMatches(confirmed.data.settings, key, params[key]))
  {
    hide KeyMatches, IsSettingsNoop;
    RunKeeps(w, before);
    var deciding := Execute(w, before);
    if !IsSettingsNoop(deciding.data.settings, Relevant(params)) {
      WaitingRun(Apply(deciding, Decide), during, Relevant(params), deciding.data.generation);
      var settings := Execute(Apply(deciding, Decide), during).data.settings;
      forall key | key in params && key in RECORDED ensures KeyMatches(settings, key, params[key]) {
        assert key in Relevant(params) && Relevant(params)[key] == params[key];
      }
    }
  }

  /**
    And the barrier does open: once a snapshot shows the unresolved patch, whoever waits for it may go on,
    whether or not other snapshots came before.
   */
  lemma MatchingSnapshotResolves(w: World, steps: seq<Step>, settings: Settings, p: Pending)
    requires Initial(w) && Legal(w, steps) && Execute(w, steps).data.pending == Some(p)
    ensures var after := Apply(Execute(w, steps), Snapshot(settings));
            Reconcile(after.data).Some? <==> SettingsMatch(settings, p.patch)
  {
    hide SettingsMatch;
    RunKeeps(w, steps);
  }

  // ---------------------------------------------------------------- a selection, from the choice to its confirmation

  lemma RelevantIs(patch: Settings)
    requires patch.Keys <= RECORDED
    ensures Relevant(patch) == patch
  {
  }

  lemma SettingRecorded(selector: string)
    requires selector in SELECTORS
    ensures SettingOf(selector) in RECORDED
  {
  }

  /** A choice that the selector does not show yet is always recorded, with its whole patch. */
  lemma ChoiceIsRecorded(d: Data, models: seq<Value>, selector: string, value: string)
    requires PatchOf(Configuration(d.settings, models), selector, value).Some?
    requires OptionOf(Configuration(d.settings, models), selector).value.current != value
    ensures var patch := PatchOf(Configuration(d.settings, models), selector, value).value;
            Record(d, patch) == d.(pending := Some(Pending(d.generation, patch)))
  {
    hide IsSettingsNoop, OptionOf, PatchOf, Patch, SettingOf;
    var c := Configuration(d.settings, models);
    var patch := PatchOf(c, selector, value).value;
    PatchWrites(c, selector, value);
    SettingRecorded(selector);
    RelevantIs(patch);
    ChosenPatch(c, selector, value);
    if IsSettingsNoop(d.settings, patch) {
      NoopIsShown(d.settings, selector, value, EffortDefault(c));
      CurrentIsShown(c, selector);
    }
  }

  lemma ChosenPatch(c: Configuration, selector: string, value: string)
    requires PatchOf(c, selector, value).Some?
    ensures Patch(c.settings, selector, value) == PatchOf(c, selector, value) && OptionOf(c, selector).Some?
  {
    hide OptionOf, Patch;
  }

  lemma CurrentIsShown(c: Configuration, selector: string)
    requires OptionOf(c, selector).Some?
    ensures OptionOf(c, selector).value.current == Shown(c.settings, selector, EffortDefault(c))
  {
    hide Shown, Names, Tiers, Entry;
  }

  /**
    So is every change that a client can make through the extension: whatever else the parameters hold, a value that
    the settings do not match is recorded.
   */
  lemma ChangeIsRecorded(d: Data, params: Settings, key: string)
    requires key in ["cwd", "approvalPolicy", "approvalsReviewer", "sandboxPolicy", "permissions", "model", "serviceTier",
                     "effort", "summary", "collaborationMode", "personality"]
    requires key in params && !KeyMatches(d.settings, key, params[key])
    ensures var d' := Record(d, params);
            && d'.pending.Some? && d' == d.(pending := d'.pending)
            && d'.pending.value.generation == d.generation && Get(d'.pending.value.patch, key) == Some(params[key])
            && forall k <- d'.pending.value.patch :: Get(params, k) == Some(d'.pending.value.patch[k])
  {
    hide KeyMatches;
    assert key in Relevant(params) && Relevant(params)[key] == params[key];
  }

  /** Parameters that are no settings, such as the input of a turn, are not waited for. */
  lemma OtherParametersIgnored(d: Data, params: Settings)
    ensures var asked := map key | key in params
                                   && key in ["cwd", "approvalPolicy", "approvalsReviewer", "sandboxPolicy", "permissions", "model", "serviceTier",
                                              "effort", "summary", "collaborationMode", "personality"] :: params[key];
            && Record(d, params) == Record(d, asked)
            && (asked == map[] ==> Record(d, params) == d)
            && (Record(d, params) != d ==> Record(d, params).pending == Some(Pending(d.generation, asked)))
  {
    var asked := map key | key in params
                           && key in ["cwd", "approvalPolicy", "approvalsReviewer", "sandboxPolicy", "permissions", "model", "serviceTier",
                                      "effort", "summary", "collaborationMode", "personality"] :: params[key];
    assert Relevant(params) == asked == Relevant(asked);
    hide KeyMatches;
  }

  /**
    A change that asks for nothing new needs no snapshot, which the backend would not send: once it is accepted it is
    confirmed. Any other waits for a later one.
   */
  lemma NoopNeedsNoSnapshot(w: World, steps: seq<Step>, params: Settings)
    requires Initial(w) && Legal(w, steps) && Execute(w, steps).gate == Deciding(Change(params))
    ensures var decided := Apply(Execute(w, steps), Decide);
            && decided.gate.Outstanding? && decided.data.settings == Execute(w, steps).data.settings
            && (Enabled(Apply(decided, Accepted), Confirmed) <==> IsSettingsNoop(decided.data.settings, Relevant(params)))
  {
    hide IsSettingsNoop, SettingsMatch;
    RunKeeps(w, steps);
  }

  /**
    What a selection leads to when its turn comes: nothing if the selector shows the value already, a refusal if
    the value cannot be selected, and otherwise the settings change that asks for it.
   */
  lemma SelectionExactly(w: World, steps: seq<Step>, selector: string, value: string)
    requires Initial(w) && Legal(w, steps) && Execute(w, steps).gate == Deciding(Request.Select(selector, value))
    ensures var deciding := Execute(w, steps);
            var c := Configuration(deciding.data.settings, deciding.models);
            var decided := Apply(deciding, Decide);
            && decided.data == deciding.data && deciding.data.pending.None?
            && (decided.gate.Free? && |decided.noops| > |deciding.noops|
                <==> OptionOf(c, selector).Some? && OptionOf(c, selector).value.current == value)
            && (decided.gate.Free? <==> PatchOf(c, selector, value).None? || OptionOf(c, selector).value.current == value)
            && (!decided.gate.Free? ==> decided.gate == Reconciling(Change(PatchOf(c, selector, value).value)))
  {
    hide OptionOf, PatchOf;
    RunKeeps(w, steps);
    var deciding := Execute(w, steps);
    var c := Configuration(deciding.data.settings, deciding.models);
    if PatchOf(c, selector, value).Some? {
      ChosenPatch(c, selector, value);
    }
  }

  /**
    A selection that ends in a confirmation is in effect: a full snapshot handled since the request shows the chosen
    value, and no later one took it back; unless the selector showed it when the request was made.
   */
  lemma SelectionConfirmed(w: World, before: seq<Step>, selector: string, value: string, patch: Settings, requesting: seq<Step>, during: seq<Step>)
    requires Initial(w) && Legal(w, before) && Execute(w, before).gate == Deciding(Request.Select(selector, value))
    requires Apply(Execute(w, before), Decide).gate == Reconciling(Change(patch))
    requires Legal(w, before + [Decide] + requesting) && Execute(w, before + [Decide] + requesting).gate == Deciding(Change(patch))
    requires Legal(Apply(Execute(w, before + [Decide] + requesting), Decide), during) && (forall s <- during :: WhileWaiting(s))
    requires Enabled(Execute(Apply(Execute(w, before + [Decide] + requesting), Decide), during), Confirmed)
    ensures var asked := Execute(w, before + [Decide] + requesting);
            var confirmed := Execute(Apply(asked, Decide), during);
            || Shown(asked.data.settings, selector, "") == value
            || (Shows(during, confirmed.data.settings) && forall effortDefault :: Shown(confirmed.data.settings, selector, effortDefault) == value)
  {
    hide IsSettingsNoop, SettingsMatch, OptionOf, PatchOf, Patch, Shown, Apply;
    SelectionExactly(w, before, selector, value);
    var s := Execute(w, before).data.settings;
    var c := Configuration(s, Execute(w, before).models);
    ChosenPatch(c, selector, value);
    PatchWrites(c, selector, value);
    SettingRecorded(selector);
    RelevantIs(patch);
    var asked := before + [Decide] + requesting;
    ConfirmationShowsPatch(w, asked, patch, during);
    if IsSettingsNoop(Execute(w, asked).data.settings, patch) {
      NoopMatchesPatch(Execute(w, asked).data.settings, patch);
      MatchIsShown(s, selector, value, Execute(w, asked).data.settings, "");
    } else {
      var settings := Execute(Apply(Execute(w, asked), Decide), during).data.settings;
      AllMatch(settings, patch);
      forall effortDefault ensures Shown(settings, selector, effortDefault) == value {
        MatchIsShown(s, selector, value, settings, effortDefault);
      }
    }
  }

  lemma NoopMatchesPatch(s: Settings, patch: Settings)
    requires IsSettingsNoop(s, patch)
    ensures SettingsMatch(s, patch)
  {
    hide KeyMatches;
  }

  lemma AllMatch(s: Settings, patch: Settings)
    requires patch.Keys <= RECORDED && forall key <- patch | key in RECORDED :: KeyMatches(s, key, patch[key])
    ensures SettingsMatch(s, patch)
  {
    hide KeyMatches;
  }

  /** A resume's reply is laid over what was observed: its settings count, the others stay, and nothing is unresolved. */
  lemma ResumedSettings(w: World, steps: seq<Step>, reply: Settings, key: string)
    requires Initial(w) && Legal(w, steps) && Execute(w, steps).gate == Resuming
    ensures var before, after := Execute(w, steps).data, Apply(Execute(w, steps), Resumed(reply)).data;
            && Get(after.settings, key) == (if key in reply then Get(reply, key) else Get(before.settings, key))
            && after.pending.None? && after.generation == before.generation
  {
  }
}
