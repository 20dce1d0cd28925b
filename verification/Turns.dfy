/**
  Which turn is in the foreground (src/server/events.rs, src/server/lifecycle.rs,
  src/server/extension_requests.rs).

  A start's reply and the events of the turn it started are handled by different tasks. The session
  keeps the last completed turn so that a late reply does not bring a finished turn back.
 */
module Turns {
  import opened Prelude

  type Turn = nat

  datatype Event = Started(turn: Turn) | Completed(turn: Turn)

  datatype Data = Data(active: Option<Turn>, lastCompleted: Option<Turn>)

  function Handle(d: Data, e: Event): Data {
    match e
    case Started(turn) => d.(active := Some(turn))
    case Completed(turn) =>
      Data(if d.active == Some(turn) then None else d.active, Some(turn))
  }

  /** A start's reply: prompt leaves an active turn alone, the extension request does not look. */
  function Reply(d: Data, turn: Turn, inProgress: bool, prompt: bool): Data {
    if inProgress && d.lastCompleted != Some(turn) && (prompt ==> d.active.None?) then d.(active := Some(turn)) else d
  }

  class TurnData {
    var activeTurn: Option<Turn>
    var lastCompletedTurn: Option<Turn>

    function Model(): Data
      reads this
    {
      Data(activeTurn, lastCompletedTurn)
    }

    method Notification(e: Event)
      modifies this
      ensures Model() == Handle(old(Model()), e)
    {
      match e {
        case Started(turn) => activeTurn := Some(turn);
        case Completed(turn) =>
          if activeTurn == Some(turn) {
            activeTurn := None;
          }
          lastCompletedTurn := Some(turn);
      }
    }

    method StartReply(turn: Turn, inProgress: bool, prompt: bool)
      modifies this`activeTurn
      ensures Model() == Reply(old(Model()), turn, inProgress, prompt)
    {
      if inProgress && (!prompt || activeTurn.None?) {
        if lastCompletedTurn != Some(turn) {
          activeTurn := Some(turn);
        }
      }
    }
  }

  // ---------------------------------------------------------------- runs

  /** prompt and "turn/start" look for an active turn first; "thread/queue/start" and an inline review do not. */
  datatype Kind = Prompt | TurnStart | Unchecked

  /** A start that holds the gate and the admission lock: the turn it was given, and its status if answered. */
  datatype Start = Start(kind: Kind, turn: Option<Turn>, inProgress: Option<bool>)

  /**
    The backend takes requests in order and runs one turn at a time. `begun` lists the turns in the order in
    which it began them, `due` those it has accepted and not begun; it also begins turns of its own, from its
    queue. `handled` of its events have been processed. `late` counts starts that were given up before the
    backend had accepted them.
   */
  datatype World = World(
    begun: seq<Turn>,
    due: seq<Turn>,
    next: Turn,
    log: seq<Event>,
    handled: nat,
    start: Option<Start>,
    late: nat,
    data: Data)

  datatype Step =
    | BeginStart(kind: Kind)       // gate and admission taken
    | Accept                       // the backend accepts the start under way
    | AcceptLate                   // or one given up before, which it received earlier
    | Answer(inProgress: bool)
    | BeginTurn                    // turn/started for the next accepted turn
    | BeginOwn                     // or for one that the backend had queued itself
    | EndTurn                      // turn/completed
    | HandleEvent
    | HandleReply
    | GiveUp                       // timeout or error: the reply, if any, reaches nobody

  predicate Running(w: World) { |w.log| % 2 == 1 }

  predicate Enabled(w: World, step: Step) {
    match step
    case BeginStart(kind) => w.start.None? && (kind.Unchecked? || w.data.active.None?)
    case Accept => w.start.Some? && w.start.value.turn.None? && w.late == 0
    case AcceptLate => w.late > 0
    case Answer(inProgress) =>
      && w.start.Some? && w.start.value.turn.Some? && w.start.value.inProgress.None?
      && (inProgress ==> w.start.value.turn.value in w.due
                         || (Running(w) && w.begun != [] && w.start.value.turn.value == w.begun[|w.begun| - 1]))
    case BeginTurn => !Running(w) && w.due != []
    case BeginOwn => !Running(w)
    case EndTurn => Running(w) && w.begun != []
    case HandleEvent => w.handled < |w.log|
    case HandleReply => w.start.Some? && w.start.value.turn.Some? && w.start.value.inProgress.Some?
    case GiveUp => w.start.Some?
  }

  function Apply(w: World, step: Step): World
    requires Enabled(w, step)
  {
    match step
    case BeginStart(kind) => w.(start := Some(Start(kind, None, None)))
    case Accept =>
      w.(due := w.due + [w.next], next := w.next + 1, start := Some(w.start.value.(turn := Some(w.next))))
    case AcceptLate => w.(due := w.due + [w.next], next := w.next + 1, late := w.late - 1)
    case Answer(inProgress) => w.(start := Some(w.start.value.(inProgress := Some(inProgress))))
    case BeginTurn => w.(begun := w.begun + [w.due[0]], due := w.due[1..], log := w.log + [Started(w.due[0])])
    case BeginOwn => w.(begun := w.begun + [w.next], next := w.next + 1, log := w.log + [Started(w.next)])
    case EndTurn => w.(log := w.log + [Completed(w.begun[|w.begun| - 1])])
    case HandleEvent => w.(handled := w.handled + 1, data := Handle(w.data, w.log[w.handled]))
    case HandleReply =>
      var s := w.start.value;
      w.(start := None, data := Reply(w.data, s.turn.value, s.inProgress.value, s.kind.Prompt?))
    case GiveUp => w.(start := None, late := if w.start.value.turn.None? then w.late + 1 else w.late)
  }

  ghost predicate Legal(w: World, steps: seq<Step>)
    decreases |steps|
  {
    steps == [] || (Enabled(w, steps[0]) && Legal(Apply(w, steps[0]), steps[1..]))
  }

  ghost function Execute(w: World, steps: seq<Step>): World
    requires Legal(w, steps)
    decreases |steps|
  {
    if steps == [] then w else Execute(Apply(w, steps[0]), steps[1..])
  }

  const Initial: World := World([], [], 0, [], 0, None, 0, Data(None, None))

  /** The accepted turns, begun or due, in the order in which they run unless the backend puts one of its own between. */
  function Accepted(w: World): seq<Turn> { w.begun + w.due }

  ghost predicate Numbered(w: World) {
    && (forall t <- Accepted(w) :: t < w.next)
    && (forall i, j | 0 <= i < j < |Accepted(w)| :: Accepted(w)[i] != Accepted(w)[j])
  }

  /** The events of the begun turns: two each, one for a turn that still runs. */
  ghost predicate Logged(w: World) {
    && |w.begun| == (|w.log| + 1) / 2 && w.handled <= |w.log|
    && forall i | 0 <= i < |w.log| :: w.log[i] == if i % 2 == 0 then Started(w.begun[i / 2]) else Completed(w.begun[i / 2])
  }

  ghost predicate Tracked(w: World) {
    && w.handled / 2 <= |w.begun|
    && w.data.lastCompleted == (if w.handled < 2 then None else Some(w.begun[w.handled / 2 - 1]))
    && (w.data.active.Some? ==> w.data.active.value in Accepted(w))
    && (w.handled % 2 == 1 ==> w.data.active.Some?)
    && (w.start.Some? && w.start.value.turn.Some? ==> w.start.value.turn.value in Accepted(w))
  }

  ghost predicate Inv(w: World) { Numbered(w) && Logged(w) && Tracked(w) }

  lemma AcceptedMoves(w: World, step: Step)
    requires Inv(w) && Enabled(w, step)
    ensures var xs, xs' := Accepted(w), Accepted(Apply(w, step));
            if step.Accept? || step.AcceptLate? then xs' == xs + [w.next]
            else if step.BeginOwn? then xs' == w.begun + [w.next] + w.due
            else xs' == xs
  {
    if step.BeginTurn? {
      assert w.due == [w.due[0]] + w.due[1..];
    }
  }

  lemma NumberedKeeps(w: World, step: Step)
    requires Inv(w) && Enabled(w, step)
    ensures Numbered(Apply(w, step))
    ensures forall t <- Accepted(w) :: t in Accepted(Apply(w, step))
  {
    AcceptedMoves(w, step);
    if step.BeginOwn? {
      Inserted(w.begun, w.next, w.due);
    } else if step.Accept? || step.AcceptLate? {
      var xs := Accepted(w);
      assert xs + [] == xs && xs + [w.next] + [] == xs + [w.next];
      Inserted(xs, w.next, []);
    }
  }

  /** A new number between the others. */
  lemma Inserted(a: seq<Turn>, x: Turn, b: seq<Turn>)
    requires forall t <- a + b :: t < x
    requires forall i, j | 0 <= i < j < |a + b| :: (a + b)[i] != (a + b)[j]
    ensures forall t <- a + [x] + b :: t <= x
    ensures forall i, j | 0 <= i < j < |a + [x] + b| :: (a + [x] + b)[i] != (a + [x] + b)[j]
    ensures forall t <- a + b :: t in a + [x] + b
  {
    var xs, ys, n := a + b, a + [x] + b, |a|;
    forall i | 0 <= i < |ys| && i != n ensures ys[i] == xs[if i < n then i else i - 1] && ys[i] in xs {
    }
    forall t | t in ys ensures t <= x {
      var i :| 0 <= i < |ys| && ys[i] == t;
      assert i != n ==> ys[i] in xs;
    }
    forall t | t in xs ensures t in ys {
      var i :| 0 <= i < |xs| && xs[i] == t;
      assert ys[if i < n then i else i + 1] == t;
    }
    forall i, j | 0 <= i < j < |ys| ensures ys[i] != ys[j] {
      if i != n && j != n {
        assert ys[i] == xs[if i < n then i else i - 1] && ys[j] == xs[if j < n then j else j - 1];
      } else {
        assert ys[n] == x && (i != n ==> ys[i] in xs) && (j != n ==> ys[j] in xs);
      }
    }
  }

  lemma LoggedKeeps(w: World, step: Step)
    requires Inv(w) && Enabled(w, step)
    ensures Logged(Apply(w, step))
  {
    hide Numbered, Handle, Reply;
  }

  lemma TrackedKeeps(w: World, step: Step)
    requires Inv(w) && Enabled(w, step)
    ensures Tracked(Apply(w, step))
  {
    NumberedKeeps(w, step);
    AcceptedMoves(w, step);
  }

  lemma StepKeeps(w: World, step: Step)
    requires Inv(w) && Enabled(w, step)
    ensures Inv(Apply(w, step))
  {
    hide Numbered, Logged, Tracked, Apply, Enabled;
    NumberedKeeps(w, step);
    LoggedKeeps(w, step);
    TrackedKeeps(w, step);
  }

  lemma {:induction false} RunKeeps(w: World, steps: seq<Step>)
    requires Inv(w) && Legal(w, steps)
    ensures Inv(Execute(w, steps))
    decreases |steps|
  {
    hide Inv, Apply, Enabled;
    if steps != [] {
      StepKeeps(w, steps[0]);
      RunKeeps(Apply(w, steps[0]), steps[1..]);
    }
  }

  // ---------------------------------------------------------------- theorems about every run

  /** The active turn is one whose completion has been handled. */
  ghost predicate Revived(w: World) {
    w.data.active.Some? && w.handled <= |w.log| && Completed(w.data.active.value) in w.log[..w.handled]
  }

  /**
    A reply that says "in progress" for a turn whose completion, and another one after it, have been handled
    meanwhile; a prompt's reply must also find no active turn.
   */
  ghost predicate Revives(w: World, step: Step) {
    && step.HandleReply? && Enabled(w, step)
    && var s := w.start.value;
       && s.inProgress == Some(true) && (s.kind.Prompt? ==> w.data.active.None?)
       && exists i, j :: 0 <= i < j < w.handled <= |w.log| && w.log[i] == Completed(s.turn.value) && w.log[j].Completed?
  }

  lemma RevivedMeans(w: World)
    requires Inv(w)
    ensures Revived(w) <==> w.data.active.Some? && w.data.active.value in w.begun[..w.handled / 2]
  {
    var handled := w.log[..w.handled];
    if w.data.active.Some? && w.data.active.value in w.begun[..w.handled / 2] {
      var k :| 0 <= k < w.handled / 2 && w.begun[k] == w.data.active.value;
      assert handled[2 * k + 1] == Completed(w.begun[k]);
    }
    if Revived(w) {
      var i :| 0 <= i < |handled| && handled[i] == Completed(w.data.active.value);
      assert w.begun[..w.handled / 2][i / 2] == w.data.active.value;
    }
  }

  lemma RevivesMeans(w: World)
    requires Inv(w) && Enabled(w, HandleReply)
    ensures Revives(w, HandleReply) <==>
              && w.start.value.inProgress == Some(true) && (w.start.value.kind.Prompt? ==> w.data.active.None?)
              && w.start.value.turn.value in w.begun[..w.handled / 2] && w.data.lastCompleted != w.start.value.turn
  {
    var turn := w.start.value.turn.value;
    if turn in w.begun[..w.handled / 2] && w.data.lastCompleted != Some(turn) {
      var k :| 0 <= k < w.handled / 2 && w.begun[k] == turn;
      var last := w.handled / 2 - 1;
      assert w.log[2 * k + 1] == Completed(turn) && w.log[2 * last + 1].Completed?;
    }
    if i, j :| 0 <= i < j < w.handled <= |w.log| && w.log[i] == Completed(turn) && w.log[j].Completed? {
      assert w.begun[..w.handled / 2][i / 2] == turn;
      assert w.begun[i / 2] == Accepted(w)[i / 2] && w.begun[w.handled / 2 - 1] == Accepted(w)[w.handled / 2 - 1];
    }
  }

  /**
    In every reachable state: a turn that was seen to complete becomes active again exactly by such a reply,
    and by nothing else.
   */
  lemma RevivedExactly(steps: seq<Step>, step: Step)
    requires Legal(Initial, steps) && Enabled(Execute(Initial, steps), step) && !Revived(Execute(Initial, steps))
    ensures Revived(Apply(Execute(Initial, steps), step)) <==> Revives(Execute(Initial, steps), step)
  {
    RunKeeps(Initial, steps);
    RevivalStep(Execute(Initial, steps), step);
  }

  lemma RevivalStep(w: World, step: Step)
    requires Inv(w) && Enabled(w, step) && !Revived(w)
    ensures Revived(Apply(w, step)) <==> Revives(w, step)
  {
    hide Inv, Apply, Enabled, Revived;
    StepKeeps(w, step);
    if step.HandleReply? {
      RevivalReply(w);
    } else {
      NoRevival(w, step);
    }
  }

  lemma RevivalReply(w: World)
    requires Inv(w) && Enabled(w, HandleReply) && !Revived(w) && Inv(Apply(w, HandleReply))
    ensures Revived(Apply(w, HandleReply)) <==> Revives(w, HandleReply)
  {
    hide Numbered, Logged, Revived, Revives;
    RevivedMeans(w);
    RevivedMeans(Apply(w, HandleReply));
    RevivesMeans(w);
    assert forall i | 0 <= i < |w.begun| :: Accepted(w)[i] == w.begun[i];
  }

  lemma NoRevival(w: World, step: Step)
    requires Inv(w) && Enabled(w, step) && !Revived(w) && !step.HandleReply? && Inv(Apply(w, step))
    ensures !Revived(Apply(w, step))
  {
    hide Revived;
    RevivedMeans(w);
    RevivedMeans(Apply(w, step));
    assert forall i | 0 <= i < |w.begun| :: Accepted(w)[i] == w.begun[i];
  }

  ghost predicate NeverRevives(w: World, steps: seq<Step>)
    requires Legal(w, steps)
    decreases |steps|
  {
    steps == [] || (!Revives(w, steps[0]) && NeverRevives(Apply(w, steps[0]), steps[1..]))
  }

  lemma {:induction false} UnrevivedRun(w: World, steps: seq<Step>)
    requires Inv(w) && !Revived(w) && Legal(w, steps) && NeverRevives(w, steps)
    ensures !Revived(Execute(w, steps))
    decreases |steps|
  {
    hide Inv, Apply, Enabled, Revives, Revived;
    if steps != [] {
      RevivalStep(w, steps[0]);
      StepKeeps(w, steps[0]);
      UnrevivedRun(Apply(w, steps[0]), steps[1..]);
    }
  }

  /** The start under way was accepted last, as long as the backend begins no turn of its own. */
  ghost predicate StartIsLast(w: World) {
    w.start.Some? && w.start.value.turn.Some? ==>
      w.late == 0 && Accepted(w) != [] && Accepted(w)[|Accepted(w)| - 1] == w.start.value.turn.value
  }

  lemma StartIsLastKeeps(w: World, step: Step)
    requires Inv(w) && StartIsLast(w) && Enabled(w, step) && step != BeginOwn
    ensures StartIsLast(Apply(w, step)) && !Revives(w, step)
  {
    AcceptedMoves(w, step);
    if step.HandleReply? {
      RevivesMeans(w);
      var turn := w.start.value.turn.value;
      if turn in w.begun[..w.handled / 2] {
        var k :| 0 <= k < w.handled / 2 && w.begun[k] == turn;
        assert Accepted(w)[k] == turn;
      }
    }
  }

  lemma {:induction false} SerialRun(w: World, steps: seq<Step>)
    requires Inv(w) && StartIsLast(w) && Legal(w, steps) && BeginOwn !in steps
    ensures NeverRevives(w, steps)
    decreases |steps|
  {
    hide Inv, Apply, Enabled, Revives, StartIsLast;
    if steps != [] {
      assert steps[0] in steps && forall s <- steps[1..] :: s in steps;
      StartIsLastKeeps(w, steps[0]);
      StepKeeps(w, steps[0]);
      SerialRun(Apply(w, steps[0]), steps[1..]);
    }
  }

  /**
    However a start's reply and the events interleave, a turn seen to complete is never active again unless a
    reply revives it, and no reply does while the backend begins no turn of its own.
   */
  lemma CompletedStaysCompleted(steps: seq<Step>)
    requires Legal(Initial, steps)
    ensures NeverRevives(Initial, steps) || BeginOwn !in steps ==> !Revived(Execute(Initial, steps))
  {
    if BeginOwn !in steps {
      SerialRun(Initial, steps);
    }
    if NeverRevives(Initial, steps) {
      UnrevivedRun(Initial, steps);
    }
  }

  /**
    When every event has been handled and no accepted turn is waiting, the session shows the backend's running
    turn, or none if none runs, exactly if its active turn is not a revived one.
   */
  lemma QuiescentTurnIsRunning(steps: seq<Step>)
    requires Legal(Initial, steps)
    requires var w := Execute(Initial, steps); w.handled == |w.log| && w.due == []
    ensures var w := Execute(Initial, steps);
            var running := if Running(w) && w.begun != [] then Some(w.begun[|w.begun| - 1]) else None;
            w.data.active == running <==> !Revived(w)
  {
    RunKeeps(Initial, steps);
    var w := Execute(Initial, steps);
    RevivedMeans(w);
    hide Revived;
    assert Accepted(w) == w.begun;
  }

  /** The last completion among the first n events. */
  function LastCompletion(log: seq<Event>, n: nat): Option<Turn>
    requires n <= |log|
  {
    if n == 0 then None else if log[n - 1].Completed? then Some(log[n - 1].turn) else LastCompletion(log, n - 1)
  }

  lemma LastCompletionIs(w: World)
    requires Logged(w)
    ensures LastCompletion(w.log, w.handled) == if w.handled < 2 then None else Some(w.begun[w.handled / 2 - 1])
  {
    if w.handled > 1 {
      var n := w.handled;
      assert w.log[n - 1] == if (n - 1) % 2 == 0 then Started(w.begun[(n - 1) / 2]) else Completed(w.begun[(n - 1) / 2]);
      assert w.log[n - 2] == if n % 2 == 0 then Started(w.begun[(n - 2) / 2]) else Completed(w.begun[(n - 2) / 2]);
    }
  }

  /**
    What a start's reply does, in every reachable state: its turn becomes the active one exactly if the status is in
    progress, the last completion that was handled is not the turn's, and, for a prompt, no turn is active.
   */
  lemma ReplyExactly(steps: seq<Step>)
    requires Legal(Initial, steps) && Enabled(Execute(Initial, steps), HandleReply)
    ensures var w := Execute(Initial, steps);
            var start := w.start.value;
            && w.handled <= |w.log|
            && Apply(w, HandleReply).data.active
               == if start.inProgress == Some(true) && LastCompletion(w.log, w.handled) != start.turn
                     && (w.data.active.None? || !start.kind.Prompt?) then start.turn else w.data.active
  {
    hide Legal, Execute;
    RunKeeps(Initial, steps);
    LastCompletionIs(Execute(Initial, steps));
  }

  /**
    What an event does, in every reachable state: the turn that starts is the active one, whatever was active before;
    the turn that completes is not, any more, and another one stays; and it is the one that is remembered.
   */
  lemma EventExactly(steps: seq<Step>)
    requires Legal(Initial, steps) && Enabled(Execute(Initial, steps), HandleEvent)
    ensures var w := Execute(Initial, steps);
            var turn, after := w.log[w.handled].turn, Apply(w, HandleEvent).data;
            && (w.log[w.handled].Started? ==> after.active == Some(turn) && after.lastCompleted == w.data.lastCompleted)
            && (w.log[w.handled].Completed? ==>
                  && after.active != Some(turn) && after.lastCompleted == Some(turn)
                  && (w.data.active != Some(turn) ==> after.active == w.data.active))
            && Apply(w, HandleEvent).handled == w.handled + 1
  {
    hide Legal, Execute;
  }

  /**
    A reply records a live turn: if it says "in progress" and the turn's completion has not been handled, a turn is
    active afterwards, and it is this one unless a prompt found another.
   */
  lemma LiveTurnIsRecorded(steps: seq<Step>)
    requires Legal(Initial, steps) && Enabled(Execute(Initial, steps), HandleReply)
    requires var w := Execute(Initial, steps);
             w.start.value.inProgress == Some(true) && (w.handled <= |w.log| ==> Completed(w.start.value.turn.value) !in w.log[..w.handled])
    ensures var w := Execute(Initial, steps);
            var active := Apply(w, HandleReply).data.active;
            active.Some? && (active == w.start.value.turn || (w.start.value.kind.Prompt? && active == w.data.active))
  {
    hide Legal, Execute;
    ReplyExactly(steps);
    CompletionIsLogged(Execute(Initial, steps).log, Execute(Initial, steps).handled);
  }

  lemma {:induction false} CompletionIsLogged(log: seq<Event>, n: nat)
    requires n <= |log|
    ensures LastCompletion(log, n).Some? ==> Completed(LastCompletion(log, n).value) in log[..n]
  {
    if n > 0 {
      CompletionIsLogged(log, n - 1);
      assert log[..n] == log[..n - 1] + [log[n - 1]];
    }
  }

  /** It happens: between a turn's start and the handling of its reply the backend runs another turn of its own. */
  lemma RevivalHappens() returns (steps: seq<Step>)
    ensures Legal(Initial, steps) && Revived(Execute(Initial, steps))
    ensures var w := Execute(Initial, steps); w.handled == |w.log| && w.due == [] && !Running(w) && w.start.None?
  {
    hide Legal, Execute;
    steps := TwoTurns();
    steps := Then(Initial, steps, HandleEvent);
    steps := Then(Initial, steps, HandleEvent);
    steps := Then(Initial, steps, HandleEvent);
    steps := Then(Initial, steps, HandleEvent);
    steps := Then(Initial, steps, HandleReply);
    assert Execute(Initial, steps).log[..4][1] == Completed(0);
  }

  /**
    A start that does not look for an active turn can be under way beside one, and its reply takes the turn's place; a
    prompt cannot be, and neither can "turn/start".
   */
  lemma StartBesideActive() returns (steps: seq<Step>)
    ensures Legal(Initial, steps)
    ensures var w := Execute(Initial, steps);
            && w.data.active == Some(0) && Enabled(w, HandleReply) && Apply(w, HandleReply).data.active == Some(1)
            && !Enabled(Apply(w, HandleReply), BeginStart(Prompt)) && !Enabled(Apply(w, HandleReply), BeginStart(TurnStart))
            && Enabled(Apply(w, HandleReply), BeginStart(Unchecked))
  {
    hide Legal, Execute;
    NothingYet(Initial);
    steps := Then(Initial, [], BeginStart(Prompt));
    steps := Then(Initial, steps, Accept);
    steps := Then(Initial, steps, BeginTurn);
    steps := Then(Initial, steps, Answer(true));
    steps := Then(Initial, steps, HandleReply);
    steps := Then(Initial, steps, BeginStart(Unchecked));
    steps := Then(Initial, steps, Accept);
    steps := Then(Initial, steps, Answer(true));
  }

  lemma TwoTurns() returns (steps: seq<Step>)
    ensures Legal(Initial, steps)
    ensures Execute(Initial, steps)
            == World([0, 1], [], 2, [Started(0), Completed(0), Started(1), Completed(1)], 0,
                     Some(Start(Prompt, Some(0), Some(true))), 0, Data(None, None))
  {
    hide Legal, Execute;
    NothingYet(Initial);
    steps := Then(Initial, [], BeginStart(Prompt));
    steps := Then(Initial, steps, Accept);
    steps := Then(Initial, steps, BeginTurn);
    steps := Then(Initial, steps, Answer(true));
    steps := Then(Initial, steps, EndTurn);
    steps := Then(Initial, steps, BeginOwn);
    steps := Then(Initial, steps, EndTurn);
  }

  lemma NothingYet(w: World)
    ensures Legal(w, []) && Execute(w, []) == w
  {
  }

  lemma {:induction false} RunsJoin(w: World, before: seq<Step>, after: seq<Step>)
    requires Legal(w, before) && Legal(Execute(w, before), after)
    ensures Legal(w, before + after) && Execute(w, before + after) == Execute(Execute(w, before), after)
    decreases |before|
  {
    hide Apply, Enabled;
    if before == [] {
      assert before + after == after;
    } else {
      assert (before + after)[1..] == before[1..] + after;
      RunsJoin(Apply(w, before[0]), before[1..], after);
    }
  }

  /** One more step of a run. */
  lemma Then(w: World, steps: seq<Step>, step: Step) returns (more: seq<Step>)
    requires Legal(w, steps) && Enabled(Execute(w, steps), step)
    ensures more == steps + [step] && Legal(w, more) && Execute(w, more) == Apply(Execute(w, steps), step)
  {
    hide Apply, Enabled;
    more := steps + [step];
    assert [step][1..] == [];
    RunsJoin(w, steps, [step]);
  }
}
