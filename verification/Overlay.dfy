/**
  Effective settings across a resume (src/server/events.rs, src/server/lifecycle.rs).

  Full settings notifications and the partial reply of "thread/resume" carry the reader's sequence
  numbers, but notifications wait in the session's queue: some that precede the reply are handled after
  it was installed. The overlay keeps the reply's fields above those.
 */
module Overlay {
  import opened Prelude
  import opened Json

  const MODE: string := "collaborationMode"

  datatype Frame = Full(settings: Settings) | Partial(settings: Settings) | Other

  datatype Data = Data(settings: Settings, overlay: Settings, cutoff: nat, generation: nat)

  /** The reply's model and effort inside a late mode. */
  function PatchMode(settings: Settings, overlay: Settings): Settings {
    if MODE in settings && At(settings[MODE], "settings").Obj? then
      var inner := At(settings[MODE], "settings").fields;
      var withModel := if "model" in overlay then inner["model" := overlay["model"]] else inner;
      var withEffort := if "effort" in overlay then withModel["reasoning_effort" := overlay["effort"]] else withModel;
      settings[MODE := Obj(settings[MODE].fields["settings" := Obj(withEffort)])]
    else settings
  }

  /** The "thread/settings/updated" branch of notification. */
  function Observe(d: Data, sequence: nat, full: Settings): Data {
    d.(settings := if sequence <= d.cutoff then PatchMode(full + d.overlay, d.overlay) else full,
       generation := d.generation + 1)
  }

  /** The installation of a resume reply. */
  function Install(d: Data, sequence: nat, reply: Settings): Data {
    d.(settings := d.settings + reply, overlay := reply, cutoff := sequence)
  }

  class SettingsData {
    var settings: Settings
    var overlay: Settings
    var cutoff: nat
    var generation: nat

    function Model(): Data
      reads this
    {
      Data(settings, overlay, cutoff, generation)
    }

    method SettingsUpdated(sequence: nat, full: Settings)
      modifies this`settings, this`generation
      ensures Model() == Observe(old(Model()), sequence, full)
    {
      var next := full;
      if sequence <= cutoff {
        next := next + overlay;
        if MODE in next && At(next[MODE], "settings").Obj? {
          var mode := next[MODE];
          var inner := At(mode, "settings").fields;
          if "model" in overlay {
            inner := inner["model" := overlay["model"]];
          }
          if "effort" in overlay {
            inner := inner["reasoning_effort" := overlay["effort"]];
          }
          next := next[MODE := Obj(mode.fields["settings" := Obj(inner)])];
        }
      }
      settings := next;
      generation := generation + 1;
    }

    method ResumeReply(sequence: nat, reply: Settings)
      modifies this`settings, this`overlay, this`cutoff
      ensures Model() == Install(old(Model()), sequence, reply)
    {
      overlay := reply;
      var observed := settings;
      settings := observed + reply;
      cutoff := sequence;
    }
  }

  // ---------------------------------------------------------------- the reference: last writer wins

  /** All settings frames up to n in frame order; a partial one counts once it has been installed. */
  function Effective(base: Settings, log: seq<Frame>, installed: set<nat>, n: nat): Settings
    requires n <= |log|
  {
    if n == 0 then base
    else
      var before := Effective(base, log, installed, n - 1);
      match log[n - 1]
      case Full(settings) => settings
      case Partial(settings) => if n in installed then before + settings else before
      case Other => before
  }

  ghost predicate Agree(a: Settings, b: Settings) { forall key :: key != MODE ==> Get(a, key) == Get(b, key) }

  datatype World = World(base: Settings, log: seq<Frame>, delivered: nat, installed: set<nat>, data: Data)

  datatype Step = Read(f: Frame) | Deliver | Resume(sequence: nat)

  predicate Enabled(w: World, step: Step) {
    match step
    case Read(_) => true
    case Deliver => w.delivered < |w.log|
    case Resume(sequence) =>
      // The delivery lock is held across the request; the fence before it has drained earlier frames.
      && w.delivered < sequence <= |w.log| && w.log[sequence - 1].Partial?
      && w.data.cutoff <= w.delivered
  }

  function Apply(w: World, step: Step): World
    requires Enabled(w, step)
  {
    match step
    case Read(f) => w.(log := w.log + [f])
    case Deliver =>
      var f, n := w.log[w.delivered], w.delivered + 1;
      w.(delivered := n, data := if f.Full? then Observe(w.data, n, f.settings) else w.data)
    case Resume(sequence) =>
      w.(installed := w.installed + {sequence}, data := Install(w.data, sequence, w.log[sequence - 1].settings))
  }

  ghost predicate Legal(w: World, steps: seq<Step>)
    decreases |steps|
  {
    steps == [] || (Enabled(w, steps[0]) && Legal(Apply(w, steps[0]), steps[1..]))
  }

  ghost function Execute(w: World, steps: seq<Step>): World
    requires Legal(w, steps)
    decreases |steps|
  {
    if steps == [] then w else Execute(Apply(w, steps[0]), steps[1..])
  }

  predicate Initial(w: World) {
    w.log == [] && w.delivered == 0 && w.installed == {} && w.data.settings == w.base && w.data.cutoff == 0
  }

  /** What the session should show: the delivered frames, and the reply on top while it is still ahead. */
  function Expected(w: World): Settings
    requires w.delivered <= |w.log|
  {
    var so := Effective(w.base, w.log, w.installed, w.delivered);
    if w.delivered < w.data.cutoff then so + w.data.overlay else so
  }

  ghost predicate Inv(w: World) {
    && w.delivered <= |w.log| && w.data.cutoff <= |w.log|
    && (forall r <- w.installed :: r <= w.data.cutoff && (r == w.data.cutoff || r <= w.delivered))
    && (w.data.cutoff > 0 ==> w.data.cutoff in w.installed && w.log[w.data.cutoff - 1] == Partial(w.data.overlay))
    && Agree(w.data.settings, Expected(w))
  }

  lemma {:induction false} EffectivePrefix(base: Settings, log: seq<Frame>, f: Frame, installed: set<nat>, n: nat)
    requires n <= |log|
    ensures Effective(base, log + [f], installed, n) == Effective(base, log, installed, n)
  {
    if n > 0 {
      EffectivePrefix(base, log, f, installed, n - 1);
    }
  }

  lemma {:induction false} EffectiveLater(base: Settings, log: seq<Frame>, installed: set<nat>, r: nat, n: nat)
    requires n <= |log| && n < r
    ensures Effective(base, log, installed + {r}, n) == Effective(base, log, installed, n)
  {
    if n > 0 {
      EffectiveLater(base, log, installed, r, n - 1);
    }
  }

  lemma StepKeeps(w: World, step: Step)
    requires Inv(w) && Enabled(w, step)
    ensures Inv(Apply(w, step))
  {
    match step
    case Read(f) => EffectivePrefix(w.base, w.log, f, w.installed, w.delivered);
    case Deliver =>
    case Resume(sequence) =>
      EffectiveLater(w.base, w.log, w.installed, sequence, w.delivered);
      AgreePlus(w.data.settings, Expected(w), w.log[sequence - 1].settings);
  }

  lemma AgreePlus(a: Settings, b: Settings, reply: Settings)
    requires Agree(a, b)
    ensures Agree(a + reply, b + reply)
  {
    forall key | key != MODE ensures Get(a + reply, key) == Get(b + reply, key) {
      assert Get(a, key) == Get(b, key);
    }
  }

  lemma {:induction false} RunKeeps(w: World, steps: seq<Step>)
    requires Inv(w) && Legal(w, steps)
    ensures Inv(Execute(w, steps))
    decreases |steps|
  {
    if steps != [] {
      StepKeeps(w, steps[0]);
      RunKeeps(Apply(w, steps[0]), steps[1..]);
    }
  }

  /**
    Confluence. However late the notifications that precede a resume reply are handled, once none is left
    every setting other than the collaboration mode is what the frames and replies say in frame order.
   */
  lemma OverlayConfluence(w: World, steps: seq<Step>)
    requires Initial(w) && Legal(w, steps)
    ensures var w' := Execute(w, steps);
            && w'.delivered <= |w'.log|
            && (w'.data.cutoff <= w'.delivered
                ==> Agree(w'.data.settings, Effective(w'.base, w'.log, w'.installed, w'.delivered)))
            && (w'.delivered < w'.data.cutoff
                ==> Agree(w'.data.settings,
                          Effective(w'.base, w'.log, w'.installed, w'.delivered) + w'.data.overlay))
  {
    RunKeeps(w, steps);
  }

  /** The full notifications among the first n frames. */
  function FullFrames(log: seq<Frame>, n: nat): nat
    requires n <= |log|
  {
    if n == 0 then 0 else FullFrames(log, n - 1) + if log[n - 1].Full? then 1 else 0
  }

  lemma {:induction false} FullFramesPrefix(log: seq<Frame>, f: Frame, n: nat)
    requires n <= |log|
    ensures FullFrames(log + [f], n) == FullFrames(log, n)
  {
    if n > 0 {
      FullFramesPrefix(log, f, n - 1);
    }
  }

  lemma {:induction false} GenerationRuns(w: World, steps: seq<Step>, first: nat)
    requires Inv(w) && Legal(w, steps) && w.data.generation == first + FullFrames(w.log, w.delivered)
    ensures var w' := Execute(w, steps);
            w'.delivered <= |w'.log| && w'.data.generation == first + FullFrames(w'.log, w'.delivered)
    decreases |steps|
  {
    hide Inv, Agree;
    DeliveredIsRead(w);
    if steps != [] {
      StepKeeps(w, steps[0]);
      DeliveredIsRead(Apply(w, steps[0]));
      if steps[0].Read? {
        FullFramesPrefix(w.log, steps[0].f, w.delivered);
      }
      GenerationRuns(Apply(w, steps[0]), steps[1..], first);
    }
  }

  lemma DeliveredIsRead(w: World)
    requires Inv(w)
    ensures w.delivered <= |w.log|
  {
  }

  /** The generation counts the full notifications that have been handled, whatever their settings, and no reply. */
  lemma GenerationCounts(w: World, steps: seq<Step>)
    requires Initial(w) && Legal(w, steps)
    ensures var w' := Execute(w, steps);
            w'.delivered <= |w'.log| && w'.data.generation == w.data.generation + FullFrames(w'.log, w'.delivered)
  {
    GenerationRuns(w, steps, w.data.generation);
  }

  // ---------------------------------------------------------------- the collaboration mode, exactly

  /** The mode's inner settings agree with the reply's model and effort, or there are none to patch. */
  predicate ModeAgrees(settings: Settings, reply: Settings) {
    MODE in settings && At(settings[MODE], "settings").Obj? ==>
      var inner := At(settings[MODE], "settings").fields;
      && ("model" in reply ==> Get(inner, "model") == Some(reply["model"]))
      && ("effort" in reply ==> Get(inner, "reasoning_effort") == Some(reply["effort"]))
  }

  lemma PatchesExactly(settings: Settings, reply: Settings)
    ensures PatchMode(settings, reply) == settings <==> ModeAgrees(settings, reply)
  {
    if MODE in settings && At(settings[MODE], "settings").Obj? {
      var inner, late := At(settings[MODE], "settings").fields, PatchMode(settings, reply);
      var patched := At(late[MODE], "settings").fields;
      assert late == settings ==> At(settings[MODE], "settings").fields == patched;
      assert "model" in reply ==> "model" in patched && patched["model"] == reply["model"];
      assert "effort" in reply ==> "reasoning_effort" in patched && patched["reasoning_effort"] == reply["effort"];
      if ModeAgrees(settings, reply) {
        assert patched == inner;
        assert settings[MODE].fields["settings" := Obj(inner)] == settings[MODE].fields;
        assert late == settings;
      }
    }
  }

  /** The patched mode has the reply's model and effort and is otherwise the one that was notified. */
  lemma PatchedModeAgrees(settings: Settings, reply: Settings, key: string)
    requires MODE in settings && At(settings[MODE], "settings").Obj?
    ensures var late := PatchMode(settings, reply);
            && late.Keys == settings.Keys && ModeAgrees(late, reply)
            && (key != MODE ==> Get(late, key) == Get(settings, key))
            && At(late[MODE], "settings").Obj?
            && (key != "settings" ==> At(late[MODE], key) == At(settings[MODE], key))
            && (!(key == "model" && "model" in reply) && !(key == "reasoning_effort" && "effort" in reply)
                ==> At(At(late[MODE], "settings"), key) == At(At(settings[MODE], "settings"), key))
  {
  }

  /**
    The nested model and effort are patched only into a mode that is handled late. A notification handled
    before the reply and one handled after it leave the same settings exactly when the resulting mode, the
    reply's own if it has one, already agrees with the reply, or has no inner settings to patch.
   */
  lemma LateModeExact(d: Data, before: nat, sequence: nat, full: Settings, reply: Settings)
    requires d.cutoff < before < sequence
    ensures Install(Observe(d, before, full), sequence, reply).settings
              == Observe(Install(d, sequence, reply), before, full).settings
            <==> ModeAgrees(full + reply, reply)
  {
    hide PatchMode, ModeAgrees;
    PatchesExactly(full + reply, reply);
  }

  /** And they do differ: a mode with a model of its own, read before a reply that names another model. */
  lemma LateModeDiffers() returns (d: Data, full: Settings, reply: Settings)
    ensures d.cutoff < 1 < 2
    ensures Install(Observe(d, 1, full), 2, reply).settings != Observe(Install(d, 2, reply), 1, full).settings
  {
    d := Data(map[], map[], 0, 0);
    full := map[MODE := Obj(map["settings" := Obj(map["model" := Str("a")])])];
    reply := map["model" := Str("b")];
    var inner := At((full + reply)[MODE], "settings").fields;
    assert Get(inner, "model") == Some(Str("a")) && reply["model"] == Str("b");
    assert !ModeAgrees(full + reply, reply);
    LateModeExact(d, 1, 2, full, reply);
  }

  // ---------------------------------------------------------------- what the second fence is for

  /** The last full notification in a stretch of the log. */
  function LastFull(log: seq<Frame>, from: nat, end: nat): Option<Settings>
    requires end <= |log|
    decreases end
  {
    if end <= from then None
    else if log[end - 1].Full? then Some(log[end - 1].settings)
    else LastFull(log, from, end - 1)
  }

  lemma {:induction false} EffectiveFrom(base: Settings, log: seq<Frame>, installed: set<nat>, from: nat, end: nat)
    requires from <= end <= |log| && forall r <- installed :: r <= from || r > end
    ensures Effective(base, log, installed, end)
            == if LastFull(log, from, end).Some? then LastFull(log, from, end).value else Effective(base, log, installed, from)
    decreases end
  {
    if from < end {
      EffectiveFrom(base, log, installed, from, end - 1);
    }
  }

  function Deliveries(n: nat): (r: seq<Step>)
    ensures |r| == n && forall s <- r :: s == Deliver
  {
    seq(n, _ => Deliver)
  }

  /** Notifications up to the cutoff, handled late: the last one counts, under the overlay. */
  lemma {:induction false} LateRun(w: World, n: nat, key: string)
    requires w.delivered + n <= |w.log| && w.delivered + n <= w.data.cutoff && key != MODE
    ensures Legal(w, Deliveries(n))
    ensures var last := LastFull(w.log, w.delivered, w.delivered + n);
            Get(Execute(w, Deliveries(n)).data.settings, key)
            == if last.Some? then Get(last.value + w.data.overlay, key) else Get(w.data.settings, key)
    decreases n
  {
    if n > 0 {
      var next := Apply(w, Deliver);
      assert Deliveries(n)[1..] == Deliveries(n - 1);
      LateRun(next, n - 1, key);
      LastFullFirst(w.log, w.delivered, w.delivered + n);
    }
  }

  lemma {:induction false} LastFullFirst(log: seq<Frame>, from: nat, end: nat)
    requires from < end <= |log|
    ensures LastFull(log, from, end)
            == if LastFull(log, from + 1, end).Some? || !log[from].Full? then LastFull(log, from + 1, end) else Some(log[from].settings)
    decreases end
  {
    if from + 1 < end {
      LastFullFirst(log, from, end - 1);
    }
  }

  /**
    A second resume whose reply is installed while notifications older than the first reply are still queued:
    once they have been handled a setting is right exactly if the first reply says nothing about it, the second
    repeats it, a full notification lies between the replies, none is queued before the first, or the last one
    queued there agrees with the first reply.
   */
  lemma UnfencedResumeExact(w: World, second: nat, key: string)
    requires Inv(w) && key != MODE && w.delivered < w.data.cutoff < second <= |w.log| && w.log[second - 1].Partial?
    ensures var first, a, b := w.data.cutoff, w.data.overlay, w.log[second - 1].settings;
            var resumed := w.(installed := w.installed + {second}, data := Install(w.data, second, b));
            var queued := LastFull(w.log, w.delivered, first);
            && Legal(resumed, Deliveries(second - w.delivered))
            && (Get(Execute(resumed, Deliveries(second - w.delivered)).data.settings, key)
                  == Get(Effective(w.base, w.log, w.installed + {second}, second), key)
                <==> key !in a || key in b || LastFull(w.log, first, second).Some?
                     || queued.None? || Get(queued.value, key) == Some(a[key]))
  {
    var first, b := w.data.cutoff, w.log[second - 1].settings;
    var resumed := w.(installed := w.installed + {second}, data := Install(w.data, second, b));
    LateRun(resumed, second - w.delivered, key);
    EffectiveLater(w.base, w.log, w.installed, second, second - 1);
    EffectiveFrom(w.base, w.log, w.installed, first, second - 1);
    InstalledBefore(w);
    EffectiveFrom(w.base, w.log, w.installed, w.delivered, first - 1);
    LastFullSplit(w.log, w.delivered, first, second);
    var a := w.data.overlay;
    assert LastFull(w.log, first, second) == LastFull(w.log, first, second - 1);
    assert LastFull(w.log, w.delivered, first) == LastFull(w.log, w.delivered, first - 1);
    var more := w.installed + {second};
    assert Effective(w.base, w.log, more, second) == Effective(w.base, w.log, w.installed, second - 1) + b;
    assert Effective(w.base, w.log, w.installed, first) == Effective(w.base, w.log, w.installed, first - 1) + a;
    assert Get(w.data.settings, key) == Get(Expected(w), key);
  }

  lemma InstalledBefore(w: World)
    requires Inv(w) && w.delivered < w.data.cutoff
    ensures forall r <- w.installed :: r <= w.delivered || r > w.data.cutoff - 1
    ensures w.log[w.data.cutoff - 1] == Partial(w.data.overlay) && w.data.cutoff in w.installed
  {
  }

  lemma {:induction false} LastFullSplit(log: seq<Frame>, from: nat, middle: nat, end: nat)
    requires from <= middle <= end <= |log|
    ensures LastFull(log, from, end) == if LastFull(log, middle, end).Some? then LastFull(log, middle, end) else LastFull(log, from, middle)
    decreases end
  {
    if middle < end {
      LastFullSplit(log, from, middle, end - 1);
    }
  }
}
