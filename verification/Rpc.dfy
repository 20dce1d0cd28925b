/**
  RPC correlation on the backend connection (src/backend/mod.rs, src/backend/transport.rs).

  A reader numbers the frames of the backend and either queues them as events or hands them to the request
  future that waits under their id. A supervisor ends the connection: it fails every waiting request and
  uses a channel slot reserved from the start for one terminal event.
 */
module Rpc {
  import opened Prelude
  import opened Json

  type RequestId = nat

  const MAX_U64: int := 0xFFFF_FFFF_FFFF_FFFF
  const MIN_I64: int := -0x8000_0000_0000_0000
  const MAX_I64: int := 0x7FFF_FFFF_FFFF_FFFF

  // ---------------------------------------------------------------- frames

  datatype RpcError = RpcError(code: int, message: string, data: Option<Value>)

  datatype Body = Result(value: Value) | Failure(error: RpcError)

  datatype Frame =
    | Foreign                                              // not an object: not even numbered
    | Malformed
    | Notification(name: string, params: Value)
    | Call(callId: Value, name: string, params: Value)
    | Response(id: RequestId, body: Body)

  predicate ValidId(id: Value) { id.Str? || (id.Num? && MIN_I64 <= id.n <= MAX_U64) }

  predicate IsU64(id: Value) { id.Num? && 0 <= id.n <= MAX_U64 }

  /** An absent and a null `data` are the same. */
  function OptionalData(v: Value): Option<Value> { if v.Null? then None else Some(v) }

  /** The error object of a response; serde also reads it from an array of its fields. */
  function ParseError(v: Value): (r: Option<RpcError>)
    ensures r.Some? ==> MIN_I64 <= r.value.code <= MAX_I64 && r.value.data != Some(Null)
  {
    var code := if v.Arr? && |v.items| > 0 then v.items[0] else At(v, "code");
    var message := if v.Arr? && |v.items| > 1 then v.items[1] else At(v, "message");
    var data := if v.Arr? && |v.items| > 2 then v.items[2] else At(v, "data");
    if code.Num? && MIN_I64 <= code.n <= MAX_I64 && message.Str? && (v.Arr? ==> |v.items| <= 3) then
      Some(RpcError(code.n, message.s, OptionalData(data)))
    else None
  }

  function Classify(v: Value): Frame {
    if !v.Obj? then Foreign
    else if "method" in v.fields then
      if !v.fields["method"].Str? then Malformed
      else if "id" !in v.fields then Notification(v.fields["method"].s, At(v, "params"))
      else if ValidId(v.fields["id"]) then Call(v.fields["id"], v.fields["method"].s, At(v, "params"))
      else Malformed
    else if !IsU64(At(v, "id")) then Malformed
    else
      match (Field(v, "result"), Field(v, "error"))
      case (Some(result), None) => Response(v.fields["id"].n, Result(result))
      case (None, Some(error)) =>
        var parsed := ParseError(error);
        if parsed.Some? then Response(v.fields["id"].n, Failure(parsed.value)) else Malformed
      case _ => Malformed
  }

  function RequestFrame(id: RequestId, name: string, params: Value): Value {
    Obj(map["id" := Num(id), "method" := Str(name), "params" := params])
  }

  function NotifyFrame(name: string, params: Value): Value { Obj(map["method" := Str(name), "params" := params]) }

  function ErrorObject(e: RpcError): Value {
    var fields := map["code" := Num(e.code), "message" := Str(e.message)];
    Obj(if e.data.Some? then fields["data" := e.data.value] else fields)
  }

  function ResponseFrame(id: Value, body: Body): Value {
    match body
    case Result(value) => Obj(map["id" := id, "result" := value])
    case Failure(error) => Obj(map["id" := id, "error" := ErrorObject(error)])
  }

  /** Requests and notifications that are written are read back as what they were. */
  lemma WrittenCallsReadBack(id: RequestId, name: string, params: Value)
    requires id <= MAX_U64
    ensures Classify(RequestFrame(id, name, params)) == Call(Num(id), name, params)
    ensures Classify(NotifyFrame(name, params)) == Notification(name, params)
  {
  }

  /** So are responses, exactly if the id is a 64-bit number and an error has a 64-bit code and no null data. */
  lemma WrittenResponsesReadBack(id: RequestId, body: Body)
    ensures Classify(ResponseFrame(Num(id), body)) == Response(id, body)
            <==> id <= MAX_U64
                 && (body.Failure? ==> MIN_I64 <= body.error.code <= MAX_I64 && body.error.data != Some(Null))
  {
    var v := ResponseFrame(Num(id), body);
    assert "method" !in v.fields && v.fields["id"] == Num(id);
    if body.Failure? {
      var written := ErrorObject(body.error);
      assert v.fields["error"] == written;
      assert At(written, "code") == Num(body.error.code) && At(written, "message") == Str(body.error.message);
      assert Field(written, "data") == body.error.data;
    }
  }

  /**
    Section 5 of the JSON-RPC 2.0 Specification: a response has a result or an error and not both. Here it
    must also carry an id this side can have issued and an error object of the prescribed shape.
   */
  lemma ResponseShape(fields: map<string, Value>)
    requires "method" !in fields
    ensures Classify(Obj(fields)).Response?
            <==> && "id" in fields && IsU64(fields["id"])
                 && ("result" in fields <==> "error" !in fields)
                 && ("error" in fields ==> ParseError(fields["error"]).Some?)
    ensures Classify(Obj(fields)).Response? ==>
              var frame := Classify(Obj(fields));
              && fields["id"] == Num(frame.id)
              && (frame.body.Result? ==> "result" in fields && fields["result"] == frame.body.value)
              && (frame.body.Failure? <==> "error" in fields)
  {
  }

  // ---------------------------------------------------------------- the shared state

  datatype Reply = Answered(body: Body, sequence: nat) | Lost

  datatype Event =
    | Notified(sequence: nat, name: string, params: Value)
    | Requested(callId: Value, name: string, params: Value)
    | Disconnected

  datatype Limits = Limits(inFlight: nat, capacity: nat)

  /** `pending` maps an id to the number of frames read when it was entered. */
  datatype Shared = Shared(
    pending: map<RequestId, nat>,
    disconnected: bool,
    sequence: nat,
    queue: seq<Event>,
    reserved: bool,
    listening: bool)

  function FreeSlots(s: Shared, limits: Limits): int { limits.capacity - |s.queue| - (if s.reserved then 1 else 0) }

  function ToEvent(frame: Frame, sequence: nat): Event
    requires frame.Notification? || frame.Call?
  {
    if frame.Notification? then Notified(sequence, frame.name, frame.params)
    else Requested(frame.callId, frame.name, frame.params)
  }

  datatype Outcome = Fine | Delivered(id: RequestId, reply: Reply) | ProtocolError | QueueFull | ReceiverGone

  predicate Failed(o: Outcome) { o.ProtocolError? || o.QueueFull? || o.ReceiverGone? }

  predicate Numbered(frame: Frame, sequence: nat) { !frame.Foreign? && sequence < MAX_U64 }

  function Verdict(s: Shared, frame: Frame, limits: Limits): Outcome {
    if !Numbered(frame, s.sequence) then ProtocolError
    else
      match frame
      case Foreign => ProtocolError
      case Malformed => ProtocolError
      case Notification(_, _) => if !s.listening then ReceiverGone else if FreeSlots(s, limits) > 0 then Fine else QueueFull
      case Call(_, _, _) => if !s.listening then ReceiverGone else if FreeSlots(s, limits) > 0 then Fine else QueueFull
      case Response(id, body) => if id in s.pending then Delivered(id, Answered(body, s.sequence + 1)) else Fine
  }

  function Dispatched(s: Shared, frame: Frame, limits: Limits): Shared {
    if !Numbered(frame, s.sequence) then s
    else
      var t := s.(sequence := s.sequence + 1);
      if (frame.Notification? || frame.Call?) && Verdict(s, frame, limits).Fine? then
        t.(queue := s.queue + [ToEvent(frame, s.sequence + 1)])
      else if frame.Response? then t.(pending := s.pending - {frame.id})
      else t
  }

  datatype Admission = Admitted | RefusedDisconnected | RefusedLimit

  function Admit(s: Shared, limits: Limits): Admission {
    if s.disconnected then RefusedDisconnected
    else if |s.pending| >= limits.inFlight then RefusedLimit
    else Admitted
  }

  class Connection {
    const limits: Limits
    var pending: map<RequestId, nat>
    var disconnected: bool
    var sequence: nat
    var queue: seq<Event>
    var reserved: bool
    var listening: bool

    function Model(): Shared
      reads this
    {
      Shared(pending, disconnected, sequence, queue, reserved, listening)
    }

    constructor (limits: Limits)
      ensures this.limits == limits && Model() == Shared(map[], false, 0, [], true, true)
    {
      this.limits := limits;
      pending, disconnected, sequence, queue, reserved, listening := map[], false, 0, [], true, true;
    }

    /** The locked region of request_snapshot. */
    method Enter(id: RequestId) returns (admission: Admission)
      modifies this`pending
      ensures admission == Admit(old(Model()), limits)
      ensures Model() == if admission.Admitted? then old(Model()).(pending := old(pending)[id := old(sequence)]) else old(Model())
    {
      if disconnected {
        return RefusedDisconnected;
      }
      if |pending| >= limits.inFlight {
        return RefusedLimit;
      }
      pending := pending[id := sequence];
      return Admitted;
    }

    method TrySend(event: Event) returns (outcome: Outcome)
      modifies this`queue
      ensures outcome == if !listening then ReceiverGone else if FreeSlots(old(Model()), limits) > 0 then Fine else QueueFull
      ensures queue == if outcome.Fine? then old(queue) + [event] else old(queue)
    {
      if !listening {
        return ReceiverGone;
      }
      if |queue| + (if reserved then 1 else 0) >= limits.capacity {
        return QueueFull;
      }
      queue := queue + [event];
      return Fine;
    }

    method Dispatch(value: Value) returns (outcome: Outcome)
      modifies this`pending, this`sequence, this`queue
      ensures outcome == Verdict(old(Model()), Classify(value), limits)
      ensures Model() == Dispatched(old(Model()), Classify(value), limits)
    {
      if !value.Obj? || sequence >= MAX_U64 {
        return ProtocolError;
      }
      sequence := sequence + 1;
      if "method" in value.fields {
        var method_ := value.fields["method"];
        if !method_.Str? {
          return ProtocolError;
        }
        var event;
        if "id" in value.fields {
          if !ValidId(value.fields["id"]) {
            return ProtocolError;
          }
          event := Requested(value.fields["id"], method_.s, At(value, "params"));
        } else {
          event := Notified(sequence, method_.s, At(value, "params"));
        }
        outcome := TrySend(event);
        return;
      }
      if "id" !in value.fields || !IsU64(value.fields["id"]) {
        return ProtocolError;
      }
      var id := value.fields["id"].n;
      var body;
      if "result" in value.fields && "error" !in value.fields {
        body := Result(value.fields["result"]);
      } else if "result" !in value.fields && "error" in value.fields {
        var parsed := ParseError(value.fields["error"]);
        if parsed.None? {
          return ProtocolError;
        }
        body := Failure(parsed.value);
      } else {
        return ProtocolError;
      }
      if id in pending {
        pending := pending - {id};
        outcome := Delivered(id, Answered(body, sequence));
      } else {
        assert pending - {id} == pending;
        outcome := Fine;
      }
    }

    /** The supervisor's region: no request waits any longer, and none will be entered again. */
    method Drain() returns (lost: set<RequestId>)
      modifies this`pending, this`disconnected
      ensures lost == old(pending).Keys
      ensures Model() == old(Model()).(pending := map[], disconnected := true)
    {
      disconnected := true;
      lost := pending.Keys;
      pending := map[];
    }
  }

  // ---------------------------------------------------------------- runs

  datatype Future =
    | Numbering                 // has its id, not yet the lock
    | Refused(admission: Admission)
    | Waiting
    | Replied(reply: Reply)     // the slot is filled, the future has not looked yet
    | Returned(reply: Reply)
    | GivenUp                   // timed out, cancelled or unable to write

  datatype World = World(
    shared: Shared,
    next: RequestId,
    futures: map<RequestId, Future>,
    reading: bool,
    log: seq<Frame>,            // the numbered frames
    accepted: seq<Event>)       // everything that was ever put into the event channel

  datatype Step =
    | TakeId
    | Enter(id: RequestId)
    | Return(id: RequestId)
    | GiveUp(id: RequestId)
    | Read(value: Value)
    | StopReading
    | Receive
    | DropReceiver
    | Disconnect
    | SendTerminal

  predicate Enabled(w: World, step: Step) {
    match step
    case Enter(id) => id in w.futures && w.futures[id].Numbering?
    case Return(id) => id in w.futures && w.futures[id].Replied?
    case GiveUp(id) => id in w.futures && (w.futures[id].Waiting? || w.futures[id].Replied?)
    case Read(_) => w.reading
    case Receive => w.shared.listening && |w.shared.queue| > 0
    case Disconnect => !w.shared.disconnected
    case SendTerminal => w.shared.disconnected && w.shared.reserved
    case TakeId => true
    case StopReading => true
    case DropReceiver => true
  }

  function LoseAll(futures: map<RequestId, Future>, ids: set<RequestId>): (r: map<RequestId, Future>)
    ensures r.Keys == futures.Keys
  {
    map i | i in futures :: if i in ids then Replied(Lost) else futures[i]
  }

  function ReadFrame(w: World, frame: Frame, limits: Limits): World {
    var verdict := Verdict(w.shared, frame, limits);
    var shared := Dispatched(w.shared, frame, limits);
    World(shared, w.next,
          if verdict.Delivered? then w.futures[verdict.id := Replied(verdict.reply)] else w.futures,
          w.reading && !Failed(verdict),
          if Numbered(frame, w.shared.sequence) then w.log + [frame] else w.log,
          w.accepted + shared.queue[|w.shared.queue|..])
  }

  function Apply(w: World, step: Step, limits: Limits): World
    requires Enabled(w, step)
  {
    match step
    case TakeId => w.(next := w.next + 1, futures := w.futures[w.next := Numbering])
    case Enter(id) =>
      var admission := Admit(w.shared, limits);
      if admission.Admitted? then
        w.(shared := w.shared.(pending := w.shared.pending[id := w.shared.sequence]), futures := w.futures[id := Waiting])
      else w.(futures := w.futures[id := Refused(admission)])
    case Return(id) =>
      w.(shared := w.shared.(pending := w.shared.pending - {id}), futures := w.futures[id := Returned(w.futures[id].reply)])
    case GiveUp(id) => w.(shared := w.shared.(pending := w.shared.pending - {id}), futures := w.futures[id := GivenUp])
    case Read(value) => ReadFrame(w, Classify(value), limits)
    case StopReading => w.(reading := false)
    case Receive => w.(shared := w.shared.(queue := w.shared.queue[1..]))
    case DropReceiver => w.(shared := w.shared.(listening := false))
    case Disconnect =>
      w.(futures := LoseAll(w.futures, w.shared.pending.Keys), shared := w.shared.(pending := map[], disconnected := true))
    case SendTerminal =>
      w.(shared := w.shared.(reserved := false, queue := w.shared.queue + [Disconnected]), accepted := w.accepted + [Disconnected])
  }

  ghost predicate Legal(w: World, steps: seq<Step>, limits: Limits)
    decreases |steps|
  {
    steps == [] || (Enabled(w, steps[0]) && Legal(Apply(w, steps[0], limits), steps[1..], limits))
  }

  ghost function Execute(w: World, steps: seq<Step>, limits: Limits): World
    requires Legal(w, steps, limits)
    decreases |steps|
  {
    if steps == [] then w else Execute(Apply(w, steps[0], limits), steps[1..], limits)
  }

  const Initial: World := World(Shared(map[], false, 0, [], true, true), 1, map[], true, [], [])

  // ---------------------------------------------------------------- what every step keeps

  /** No answer to `id` among the frames numbered from `since + 1` up to `until`. */
  ghost predicate Unanswered(log: seq<Frame>, id: RequestId, since: nat, until: nat)
    requires until <= |log|
  {
    forall k | since <= k < until :: log[k].Response? ==> log[k].id != id
  }

  ghost predicate OwnReply(log: seq<Frame>, id: RequestId, reply: Reply, disconnected: bool) {
    match reply
    case Lost => disconnected
    case Answered(body, sequence) => 1 <= sequence <= |log| && log[sequence - 1] == Response(id, body)
  }

  ghost predicate FutureFine(w: World, id: RequestId)
    requires id in w.futures
  {
    match w.futures[id]
    case Numbering => id !in w.shared.pending
    case Refused(admission) => id !in w.shared.pending && !admission.Admitted?
    case Waiting =>
      id in w.shared.pending && w.shared.pending[id] <= |w.log| && Unanswered(w.log, id, w.shared.pending[id], |w.log|)
    case Replied(reply) => id !in w.shared.pending && OwnReply(w.log, id, reply, w.shared.disconnected)
    case Returned(reply) => id !in w.shared.pending && OwnReply(w.log, id, reply, w.shared.disconnected)
    case GivenUp => id !in w.shared.pending
  }

  ghost predicate FuturesFine(w: World) {
    && w.shared.sequence == |w.log|
    && w.shared.pending.Keys <= w.futures.Keys
    && (forall id <- w.futures :: id < w.next && FutureFine(w, id))
    && (w.shared.disconnected ==> w.shared.pending == map[])
  }

  /** The events that the numbered frames stand for, in order. */
  function Events(log: seq<Frame>): (r: seq<Event>) {
    if log == [] then []
    else
      var last := log[|log| - 1];
      Events(log[..|log| - 1]) + (if last.Notification? || last.Call? then [ToEvent(last, |log|)] else [])
  }

  function WithoutTerminal(events: seq<Event>): (r: seq<Event>) {
    if events == [] then []
    else
      var last := events[|events| - 1];
      WithoutTerminal(events[..|events| - 1]) + (if last.Disconnected? then [] else [last])
  }

  function Terminals(events: seq<Event>): nat {
    if events == [] then 0
    else Terminals(events[..|events| - 1]) + (if events[|events| - 1].Disconnected? then 1 else 0)
  }

  ghost predicate EventsFine(w: World, limits: Limits) {
    && |w.shared.queue| + (if w.shared.reserved then 1 else 0) <= limits.capacity
    && Terminals(w.accepted) == (if w.shared.reserved then 0 else 1)
    && (!w.shared.reserved ==> w.shared.disconnected)
    && (WithoutTerminal(w.accepted) == Events(w.log)
        || (!w.reading && w.log != [] && !w.log[|w.log| - 1].Response?
            && WithoutTerminal(w.accepted) == Events(w.log[..|w.log| - 1])))
  }

  lemma Appended(events: seq<Event>, e: Event)
    ensures WithoutTerminal(events + [e]) == WithoutTerminal(events) + (if e.Disconnected? then [] else [e])
    ensures Terminals(events + [e]) == Terminals(events) + (if e.Disconnected? then 1 else 0)
  {
    assert (events + [e])[..|events|] == events;
  }

  lemma Logged(log: seq<Frame>, frame: Frame)
    ensures Events(log + [frame])
            == Events(log) + (if frame.Notification? || frame.Call? then [ToEvent(frame, |log| + 1)] else [])
  {
    assert (log + [frame])[..|log|] == log;
  }

  lemma ReadKeepsEvents(w: World, frame: Frame, limits: Limits)
    requires EventsFine(w, limits) && w.shared.sequence == |w.log| && w.reading
    ensures EventsFine(ReadFrame(w, frame, limits), limits)
  {
    hide Events, WithoutTerminal, Terminals;
    var verdict := Verdict(w.shared, frame, limits);
    var w' := ReadFrame(w, frame, limits);
    if Numbered(frame, w.shared.sequence) {
      Logged(w.log, frame);
      assert w'.log[..|w'.log| - 1] == w.log;
      if (frame.Notification? || frame.Call?) && verdict.Fine? {
        var e := ToEvent(frame, |w.log| + 1);
        Appended(w.accepted, e);
        assert w'.accepted == w.accepted + [e];
      } else {
        assert w'.accepted == w.accepted;
      }
    } else {
      assert w'.accepted == w.accepted;
    }
  }

  lemma StepKeepsEvents(w: World, step: Step, limits: Limits)
    requires FuturesFine(w) && EventsFine(w, limits) && Enabled(w, step)
    ensures EventsFine(Apply(w, step, limits), limits)
  {
    hide Events, WithoutTerminal, Terminals, FuturesFine, ReadFrame, LoseAll, Classify, Verdict, Dispatched;
    SequenceIs(w);
    if step.Read? {
      ReadKeepsEvents(w, Classify(step.value), limits);
    } else if step.SendTerminal? {
      Appended(w.accepted, Disconnected);
    } else {
      OthersLeaveEvents(w, step, limits);
    }
  }

  /** The sequence is the number of frames that have been numbered. */
  lemma SequenceIs(w: World)
    requires FuturesFine(w)
    ensures w.shared.sequence == |w.log|
  {
  }

  lemma OthersLeaveEvents(w: World, step: Step, limits: Limits)
    requires Enabled(w, step) && !step.Read? && !step.SendTerminal?
    ensures var w' := Apply(w, step, limits);
            && |w'.shared.queue| <= |w.shared.queue| && w'.shared.reserved == w.shared.reserved
            && w'.accepted == w.accepted && w'.log == w.log && (w'.reading ==> w.reading)
            && (w.shared.disconnected ==> w'.shared.disconnected) && w'.reading == (w.reading && !step.StopReading?)
  {
    hide ReadFrame, LoseAll, Classify, Verdict, Dispatched;
  }

  lemma ReadKeepsFutures(w: World, frame: Frame, limits: Limits)
    requires FuturesFine(w)
    ensures FuturesFine(ReadFrame(w, frame, limits))
  {
    var w' := ReadFrame(w, frame, limits);
    forall id <- w'.futures ensures id < w'.next && FutureFine(w', id) {
      assert id in w.futures && FutureFine(w, id);
    }
  }

  lemma StepKeepsFutures(w: World, step: Step, limits: Limits)
    requires FuturesFine(w) && Enabled(w, step)
    ensures FuturesFine(Apply(w, step, limits))
  {
    hide ReadFrame, Unanswered, Classify, Verdict, Dispatched, FutureFine;
    if step.Read? {
      ReadKeepsFutures(w, Classify(step.value), limits);
    } else {
      var w' := Apply(w, step, limits);
      forall id <- w'.futures ensures id < w'.next && FutureFine(w', id) {
        OtherStepKeeps(w, step, limits, id);
      }
    }
  }

  lemma OtherStepKeeps(w: World, step: Step, limits: Limits, id: RequestId)
    requires FuturesFine(w) && Enabled(w, step) && !step.Read? && id in Apply(w, step, limits).futures
    ensures id < Apply(w, step, limits).next && FutureFine(Apply(w, step, limits), id)
  {
    hide ReadFrame, Classify, FutureFine, LoseAll;
    var w' := Apply(w, step, limits);
    if step.Disconnect? {
      DisconnectKeeps(w, limits, id);
    } else if (step.TakeId? && id == w.next) || ((step.Enter? || step.Return? || step.GiveUp?) && step.id == id) {
      OwnStepKeeps(w, step, limits, id);
    } else {
      SameFuture(w, w', id);
    }
  }

  /** A future that a step does not concern. */
  lemma SameFuture(w: World, w': World, id: RequestId)
    requires id in w.futures && id in w'.futures && w'.futures[id] == w.futures[id] && FutureFine(w, id)
    requires w'.log == w.log && w'.shared.disconnected == w.shared.disconnected
    requires Get(w'.shared.pending, id) == Get(w.shared.pending, id)
    ensures FutureFine(w', id)
  {
    hide Unanswered, OwnReply;
  }

  lemma OwnStepKeeps(w: World, step: Step, limits: Limits, id: RequestId)
    requires FuturesFine(w) && Enabled(w, step)
    requires (step.TakeId? && id == w.next) || ((step.Enter? || step.Return? || step.GiveUp?) && step.id == id)
    ensures id in Apply(w, step, limits).futures && id < Apply(w, step, limits).next && FutureFine(Apply(w, step, limits), id)
  {
    hide Unanswered, OwnReply, ReadFrame, Classify, LoseAll;
    NothingSince(w.log, id);
    assert id in w.futures ==> id < w.next && FutureFine(w, id);
  }

  lemma DisconnectKeeps(w: World, limits: Limits, id: RequestId)
    requires FuturesFine(w) && Enabled(w, Disconnect) && id in w.futures
    ensures id < w.next && FutureFine(Apply(w, Disconnect, limits), id)
  {
    hide Unanswered, OwnReply;
    assert FutureFine(w, id);
    LostIsOwn(w.log, id);
  }

  lemma LostIsOwn(log: seq<Frame>, id: RequestId)
    ensures OwnReply(log, id, Lost, true)
    ensures forall reply, disconnected :: OwnReply(log, id, reply, disconnected) ==> OwnReply(log, id, reply, true)
  {
  }

  lemma NothingSince(log: seq<Frame>, id: RequestId)
    ensures Unanswered(log, id, |log|, |log|)
  {
  }

  lemma Fewer(m: map<RequestId, nat>, id: RequestId)
    ensures |m - {id}| <= |m|
  {
    assert m.Keys == (m - {id}).Keys + (m.Keys * {id});
    assert |m.Keys| >= |(m - {id}).Keys|;
  }

  lemma OneMore(m: map<RequestId, nat>, id: RequestId, n: nat)
    ensures |m[id := n]| <= |m| + 1
  {
    assert m[id := n].Keys == m.Keys + {id};
    assert |m[id := n].Keys| <= |m.Keys| + 1;
  }

  lemma ReadKeepsBound(s: Shared, frame: Frame, limits: Limits)
    ensures |Dispatched(s, frame, limits).pending| <= |s.pending|
  {
    if frame.Response? {
      Fewer(s.pending, frame.id);
    }
  }

  lemma StepKeepsBound(w: World, step: Step, limits: Limits)
    requires |w.shared.pending| <= limits.inFlight && Enabled(w, step)
    ensures |Apply(w, step, limits).shared.pending| <= limits.inFlight
  {
    hide Classify, Dispatched, Verdict, LoseAll, Numbered, Failed;
    match step
    case Read(value) => ReadKeepsBound(w.shared, Classify(value), limits);
    case Return(id) => Fewer(w.shared.pending, id);
    case GiveUp(id) => Fewer(w.shared.pending, id);
    case Enter(id) => OneMore(w.shared.pending, id, w.shared.sequence);
    case TakeId =>
    case StopReading =>
    case Receive =>
    case DropReceiver =>
    case Disconnect =>
    case SendTerminal =>
  }

  lemma {:induction false} RunKeeps(w: World, steps: seq<Step>, limits: Limits)
    requires FuturesFine(w) && EventsFine(w, limits) && |w.shared.pending| <= limits.inFlight && Legal(w, steps, limits)
    ensures var w' := Execute(w, steps, limits);
            FuturesFine(w') && EventsFine(w', limits) && |w'.shared.pending| <= limits.inFlight
    decreases |steps|
  {
    hide FuturesFine, EventsFine, Apply, Enabled;
    if steps != [] {
      StepKeepsFutures(w, steps[0], limits);
      StepKeepsEvents(w, steps[0], limits);
      StepKeepsBound(w, steps[0], limits);
      RunKeeps(Apply(w, steps[0], limits), steps[1..], limits);
    }
  }

  /** Where a future can still get to. */
  predicate Leads(a: Future, b: Future) {
    match a
    case Numbering => true
    case Refused(_) => b == a
    case Waiting => b.Waiting? || b.Replied? || b.Returned? || b.GivenUp?
    case Replied(reply) => b == a || b == Returned(reply) || b.GivenUp?
    case Returned(_) => b == a
    case GivenUp => b == a
  }

  lemma ReadLeads(w: World, frame: Frame, limits: Limits, id: RequestId)
    requires FuturesFine(w) && id in w.futures
    ensures id in ReadFrame(w, frame, limits).futures && Leads(w.futures[id], ReadFrame(w, frame, limits).futures[id])
  {
    hide Unanswered, OwnReply;
    assert FutureFine(w, id);
  }

  lemma StepLeads(w: World, step: Step, limits: Limits, id: RequestId)
    requires FuturesFine(w) && Enabled(w, step) && id in w.futures
    ensures id in Apply(w, step, limits).futures && Leads(w.futures[id], Apply(w, step, limits).futures[id])
  {
    hide Unanswered, OwnReply, ReadFrame, Classify;
    if step.Read? {
      ReadLeads(w, Classify(step.value), limits, id);
    } else {
      assert id < w.next && FutureFine(w, id);
    }
  }

  // ---------------------------------------------------------------- theorems about every run

  /**
    Correlation. A future holds an answer only if that answer is a response frame of its own id, read while
    the future waited; it fails as lost only after the disconnection. Requests in flight are bounded, and
    after the disconnection none is.
   */
  lemma RepliesBelong(steps: seq<Step>, limits: Limits, id: RequestId)
    requires limits.capacity >= 2 && Legal(Initial, steps, limits) && id in Execute(Initial, steps, limits).futures
    ensures var w := Execute(Initial, steps, limits);
            && (w.futures[id].Replied? || w.futures[id].Returned? ==>
                  OwnReply(w.log, id, w.futures[id].reply, w.shared.disconnected))
            && (id in w.shared.pending <==> w.futures[id].Waiting?)
            && (id in w.shared.pending ==>
                  w.shared.pending[id] <= |w.log| && Unanswered(w.log, id, w.shared.pending[id], |w.log|))
            && |w.shared.pending| <= limits.inFlight
            && (w.shared.disconnected ==> w.shared.pending == map[])
  {
    RunKeeps(Initial, steps, limits);
    assert FutureFine(Execute(Initial, steps, limits), id);
  }

  /** A future resolves once: whatever happens later, an outcome it has taken does not change. */
  lemma {:induction false} ResolvesOnce(w: World, steps: seq<Step>, limits: Limits, id: RequestId)
    requires FuturesFine(w) && Legal(w, steps, limits) && id in w.futures
    ensures id in Execute(w, steps, limits).futures && Leads(w.futures[id], Execute(w, steps, limits).futures[id])
    decreases |steps|
  {
    hide FuturesFine, Apply, Enabled;
    if steps != [] {
      StepLeads(w, steps[0], limits, id);
      StepKeepsFutures(w, steps[0], limits);
      ResolvesOnce(Apply(w, steps[0], limits), steps[1..], limits, id);
    }
  }

  /** A response resolves the future of its id if that one waits, and touches nobody otherwise. */
  lemma ResponseExactly(w: World, value: Value, limits: Limits, other: RequestId)
    requires FuturesFine(w) && w.reading && other in w.futures && Classify(value).Response? && |w.log| < MAX_U64
    ensures var w' := Apply(w, Read(value), limits);
            var frame := Classify(value);
            && w'.futures.Keys == w.futures.Keys
            && w'.futures[other] == (if other == frame.id && w.futures[other].Waiting?
                                     then Replied(Answered(frame.body, |w.log| + 1)) else w.futures[other])
            && w'.reading && w'.accepted == w.accepted
  {
    assert FutureFine(w, other);
    var id := Classify(value).id;
    assert id in w.shared.pending ==> id in w.futures;
  }

  /**
    The event channel. It receives the events of the numbered frames in order and with their numbers, none
    lost except the one whose refusal stopped the reader; one terminal event exactly if it was sent, and
    until then there is room for it.
   */
  lemma EventsInOrder(steps: seq<Step>, limits: Limits)
    requires limits.capacity >= 2 && Legal(Initial, steps, limits)
    ensures EventsFine(Execute(Initial, steps, limits), limits)
  {
    RunKeeps(Initial, steps, limits);
  }

  lemma {:induction false} EventsPrefix(log: seq<Frame>, k: nat)
    requires k <= |log|
    ensures Events(log[..k]) <= Events(log)
    decreases |log|
  {
    if k == |log| {
      assert log[..k] == log;
    } else {
      EventsPrefix(log[..|log| - 1], k);
      assert log[..|log| - 1][..k] == log[..k];
    }
  }

  lemma ReplyFollowsEvents(w: World, limits: Limits, sequence: nat)
    requires EventsFine(w, limits) && 1 <= sequence <= |w.log| && w.log[sequence - 1].Response?
    ensures Events(w.log[..sequence]) <= WithoutTerminal(w.accepted)
  {
    hide Events, WithoutTerminal, Terminals;
    EventsPrefix(w.log, sequence);
    if WithoutTerminal(w.accepted) != Events(w.log) {
      var shorter := w.log[..|w.log| - 1];
      EventsPrefix(shorter, sequence);
      assert shorter[..sequence] == w.log[..sequence];
    }
  }

  /** By the time a reply numbered S is visible, every event numbered below S is in the channel. */
  lemma RepliesFollowEvents(steps: seq<Step>, limits: Limits, id: RequestId)
    requires limits.capacity >= 2 && Legal(Initial, steps, limits) && id in Execute(Initial, steps, limits).futures
    requires var future := Execute(Initial, steps, limits).futures[id];
             (future.Replied? || future.Returned?) && future.reply.Answered?
    ensures var w := Execute(Initial, steps, limits);
            var sequence := w.futures[id].reply.sequence;
            sequence <= |w.log| && Events(w.log[..sequence]) <= WithoutTerminal(w.accepted)
  {
    hide EventsFine, Apply, Enabled, Events, WithoutTerminal;
    EventsInOrder(steps, limits);
    RepliesBelong(steps, limits, id);
    var w := Execute(Initial, steps, limits);
    ReplyFollowsEvents(w, limits, w.futures[id].reply.sequence);
  }

  // ---------------------------------------------------------------- what is accepted, and when

  /**
    Frames with a method: a notification if they have no id, a call if the id is a string or a whole number between
    -2^63 and 2^64 - 1. Frames that are no objects are not even numbered.
   */
  lemma CallShape(fields: map<string, Value>, v: Value)
    requires "method" in fields
    ensures var frame := Classify(Obj(fields));
            && (frame.Notification? <==> fields["method"].Str? && "id" !in fields)
            && (frame.Call? <==> && fields["method"].Str? && "id" in fields
                                 && (fields["id"].Str? || (fields["id"].Num? && -0x8000_0000_0000_0000 <= fields["id"].n <= 0xFFFF_FFFF_FFFF_FFFF)))
            && (frame.Notification? || frame.Call? || frame.Malformed?)
            && (frame.Notification? ==> fields["method"] == Str(frame.name) && frame.params == At(Obj(fields), "params"))
            && (frame.Call? ==> fields["method"] == Str(frame.name) && frame.params == At(Obj(fields), "params") && frame.callId == fields["id"])
    ensures Classify(v).Foreign? <==> !v.Obj?
  {
  }

  /**
    An error is accepted exactly if it has a whole 64-bit code and a string message, as an object or as an array of its
    two or three fields; what it carries is read from there.
   */
  lemma ErrorShape(v: Value)
    ensures var parsed := ParseError(v);
            && (v.Obj? ==> (parsed.Some? <==> && At(v, "code").Num? && -0x8000_0000_0000_0000 <= At(v, "code").n <= 0x7FFF_FFFF_FFFF_FFFF
                                              && At(v, "message").Str?))
            && (v.Obj? && parsed.Some? ==>
                  && Num(parsed.value.code) == At(v, "code") && Str(parsed.value.message) == At(v, "message")
                  && (if At(v, "data").Null? then parsed.value.data.None? else parsed.value.data == Some(At(v, "data"))))
            && (v.Arr? ==> parsed == if 2 <= |v.items| <= 3 then ParseError(ErrorFields(v.items)) else None)
            && (!v.Obj? && !v.Arr? ==> parsed.None?)
  {
    if v.Arr? && 2 <= |v.items| <= 3 {
      var fields := ErrorFields(v.items);
      assert At(fields, "code") == v.items[0] && At(fields, "message") == v.items[1];
      assert At(fields, "data") == if |v.items| == 3 then v.items[2] else Null;
    }
  }

  /** The fields of an error in their order. */
  function ErrorFields(items: seq<Value>): Value
    requires 2 <= |items| <= 3
  {
    var fields := map["code" := items[0], "message" := items[1]];
    Obj(if |items| == 3 then fields["data" := items[2]] else fields)
  }

  lemma InitialFine(limits: Limits)
    requires limits.capacity >= 2
    ensures FuturesFine(Initial) && EventsFine(Initial, limits) && |Initial.shared.pending| <= limits.inFlight
  {
  }

  function WaitingIds(w: World): set<RequestId> { set id | id in w.futures && w.futures[id].Waiting? }

  /**
    A request is admitted exactly if the connection has not ended and fewer requests than the limit wait for a reply;
    it fails at once otherwise, and the reason is the end of the connection exactly if that has come.
   */
  lemma AdmittedExactly(steps: seq<Step>, limits: Limits, id: RequestId)
    requires limits.capacity >= 2 && Legal(Initial, steps, limits) && Enabled(Execute(Initial, steps, limits), Enter(id))
    ensures var w := Execute(Initial, steps, limits);
            var after := Apply(w, Enter(id), limits).futures[id];
            && (after.Waiting? <==> !w.shared.disconnected && |WaitingIds(w)| < limits.inFlight)
            && (!after.Waiting? ==> after == Refused(if w.shared.disconnected then RefusedDisconnected else RefusedLimit))
  {
    hide FutureFine, EventsFine;
    InitialFine(limits);
    RunKeeps(Initial, steps, limits);
    var w := Execute(Initial, steps, limits);
    PendingIsWaiting(w);
  }

  lemma PendingIsWaiting(w: World)
    requires FuturesFine(w)
    ensures WaitingIds(w) == w.shared.pending.Keys && |WaitingIds(w)| == |w.shared.pending|
  {
    forall id ensures id in WaitingIds(w) <==> id in w.shared.pending {
      assert id in w.futures ==> FutureFine(w, id);
    }
    assert WaitingIds(w) == w.shared.pending.Keys;
    assert |w.shared.pending| == |w.shared.pending.Keys|;
  }

  /**
    The reader goes on after a frame exactly if the frame is numbered and well formed and, for an event, somebody
    listens and the channel has room besides the slot kept for the terminal event.
   */
  lemma ReadingGoesOnExactly(steps: seq<Step>, limits: Limits, value: Value)
    requires limits.capacity >= 2 && Legal(Initial, steps, limits) && Execute(Initial, steps, limits).reading
    ensures var w := Execute(Initial, steps, limits);
            var frame := Classify(value);
            Apply(w, Read(value), limits).reading
            <==> && value.Obj? && |w.log| < 0xFFFF_FFFF_FFFF_FFFF && !frame.Malformed?
                 && (frame.Notification? || frame.Call? ==>
                       w.shared.listening && |w.shared.queue| < (if Terminals(w.accepted) == 0 then limits.capacity - 1 else limits.capacity))
  {
    hide FutureFine, Events, WithoutTerminal, Terminals;
    InitialFine(limits);
    RunKeeps(Initial, steps, limits);
    SequenceIs(Execute(Initial, steps, limits));
    ObjectsAreNumbered(value);
  }

  lemma ObjectsAreNumbered(v: Value)
    ensures Classify(v).Foreign? <==> !v.Obj?
  {
  }

  /** The end of the connection fails every waiting request, and touches no other. */
  lemma DisconnectFails(steps: seq<Step>, limits: Limits, id: RequestId)
    requires limits.capacity >= 2 && Legal(Initial, steps, limits) && Enabled(Execute(Initial, steps, limits), Disconnect)
    requires id in Execute(Initial, steps, limits).futures
    ensures var w := Execute(Initial, steps, limits);
            var w' := Apply(w, Disconnect, limits);
            && w'.futures.Keys == w.futures.Keys && w'.shared.disconnected
            && w'.futures[id] == if w.futures[id].Waiting? then Replied(Lost) else w.futures[id]
  {
    hide EventsFine;
    InitialFine(limits);
    RunKeeps(Initial, steps, limits);
    assert FutureFine(Execute(Initial, steps, limits), id);
  }

  /** The channel holds the unread end of what was ever put into it. */
  ghost predicate Unread(w: World) {
    |w.shared.queue| <= |w.accepted| && w.accepted[|w.accepted| - |w.shared.queue|..] == w.shared.queue
  }

  lemma UnreadStep(w: World, step: Step, limits: Limits)
    requires Unread(w) && Enabled(w, step)
    ensures Unread(Apply(w, step, limits))
  {
    hide Classify, Verdict, LoseAll, Numbered;
    if step.Read? {
      ReadAppends(w, Classify(step.value), limits);
    }
  }

  lemma ReadAppends(w: World, frame: Frame, limits: Limits)
    requires Unread(w)
    ensures Unread(ReadFrame(w, frame, limits))
  {
    hide Verdict;
    var queue := Dispatched(w.shared, frame, limits).queue;
    assert queue == w.shared.queue + queue[|w.shared.queue|..];
  }

  lemma {:induction false} UnreadRuns(w: World, steps: seq<Step>, limits: Limits)
    requires Unread(w) && Legal(w, steps, limits)
    ensures Unread(Execute(w, steps, limits))
    decreases |steps|
  {
    hide Unread, Apply, Enabled;
    if steps != [] {
      UnreadStep(w, steps[0], limits);
      UnreadRuns(Apply(w, steps[0], limits), steps[1..], limits);
    }
  }

  /** Events are read from the channel in the order in which they were put there, each once. */
  lemma ChannelIsUnreadEnd(steps: seq<Step>, limits: Limits)
    requires Legal(Initial, steps, limits)
    ensures var w := Execute(Initial, steps, limits);
            && |w.shared.queue| <= |w.accepted| && w.accepted[|w.accepted| - |w.shared.queue|..] == w.shared.queue
            && (Enabled(w, Receive) ==> Apply(w, Receive, limits).accepted == w.accepted
                                        && |Apply(w, Receive, limits).shared.queue| == |w.shared.queue| - 1)
  {
    hide Legal, Execute, Apply, Enabled;
    assert Unread(Initial) by {
      NothingUnread();
    }
    UnreadRuns(Initial, steps, limits);
    if Enabled(Execute(Initial, steps, limits), Receive) {
      ReceiveIs(Execute(Initial, steps, limits), limits);
    }
  }

  lemma NothingUnread()
    ensures Unread(Initial)
  {
  }

  lemma ReceiveIs(w: World, limits: Limits)
    requires Enabled(w, Receive)
    ensures var w' := Apply(w, Receive, limits); w'.accepted == w.accepted && |w'.shared.queue| == |w.shared.queue| - 1
  {
  }

  /** A future that looks at its slot returns the reply that it finds there; one that gives up leaves no entry behind. */
  lemma ReturnsReply(steps: seq<Step>, limits: Limits, id: RequestId)
    requires Legal(Initial, steps, limits) && id in Execute(Initial, steps, limits).futures
    ensures var w := Execute(Initial, steps, limits);
            && (w.futures[id].Replied? ==>
                  Enabled(w, Return(id)) && Apply(w, Return(id), limits).futures[id] == Returned(w.futures[id].reply))
            && (w.futures[id].Waiting? ==>
                  && Enabled(w, GiveUp(id)) && Apply(w, GiveUp(id), limits).futures[id] == GivenUp
                  && id !in Apply(w, GiveUp(id), limits).shared.pending)
  {
    hide Legal, Execute;
  }

  /** The connection's end is told once, behind every event, in the slot that was kept for it; and then the reader's stop is final. */
  lemma TerminalIsLast(steps: seq<Step>, limits: Limits)
    requires Legal(Initial, steps, limits)
    ensures var w := Execute(Initial, steps, limits);
            && (Enabled(w, SendTerminal) ==>
                  Apply(w, SendTerminal, limits).shared.queue == w.shared.queue + [Disconnected]
                  && !Enabled(Apply(w, SendTerminal, limits), SendTerminal))
            && !Apply(w, StopReading, limits).reading
  {
    hide Legal, Execute;
  }
}
