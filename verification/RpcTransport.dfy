// The transport's concurrent behaviour (crates/arky-codex/src/rpc.rs) as a step system.
//
// Callers, the read loop and the write loop share the pending map, the id counter and the
// fatal latch. A step is what one of them does between two points where another may run;
// a run is any list of steps. A step that is not possible where it stands changes nothing.

module TransportSteps {
  import opened Prelude
  import opened Counters
  import opened JsonValues
  import opened Decimal
  import opened RpcFrames

  /** Terminal errors, as the latch keeps them. */
  datatype Fatal =
    | InputClosed
    | ReadFailed
    | BadFrame(why: ParseError)
    | StreamDropped
    | NullResponseId
    | UnknownResponseId(key: string)
    | WriteFailed

  datatype Failure =
    | TransportFailed(fatal: Fatal)
    | NotSerialized
    | WriterGone
    | Rejected(error: ErrorObject)
    | ChannelClosed
    | TimedOut
    | WatcherClosed
    | NoFatalState

  datatype Outcome = Returned(value: Json) | Failed(why: Failure)

  /** A oneshot channel as its receiver finds it. */
  datatype Slot = Empty | Filled(result: Result<Json, ErrorObject>, frame: nat) | Closed

  /** How far a request is. A sending one waits for room in the write queue, with neither
      timeout nor latch watched. `sent` says whether the frame was queued for writing, `filed`
      whether the key had been inserted. */
  datatype Stage =
    | Drawn
    | Inserted
    | Sending
    | Queued
    | Settling(outcome: Outcome)
    | Done(outcome: Outcome, sent: bool)
    | Cancelled(filed: bool)

  datatype Call = Call(stage: Stage, slot: Slot)

  datatype Reader = Reading | Delivering(call: nat, frame: nat) | Clearing(error: Fatal) | Stopped(error: Fatal)

  /** The write loop waits for a frame or writes one, for as long as the peer makes it wait.
      After a failed write the latch is set first and the queue closed later. */
  datatype Writer = Idle | Writing | Failing | Gone

  /** `calls` are the requests that passed the first fatal check, in the order they drew
      their ids; `frames` the messages the read loop accepted, `claims` which request each
      of them took out of `pending`; `notified` and `asked` what the two streams were sent. */
  datatype State = State(
    calls: seq<Call>,
    nextId: nat,
    pending: map<string, nat>,
    fatal: Option<Fatal>,
    version: nat,
    reader: Reader,
    writer: Writer,
    capacity: nat,
    queue: nat,
    frames: seq<Incoming>,
    claims: seq<Option<nat>>,
    notified: seq<Result<Incoming, Fatal>>,
    asked: seq<Result<Incoming, Fatal>>)

  datatype Step =
    | Start
    | Insert(call: nat)
    | Serialize(call: nat)
    | FailToSerialize(call: nat)
    | Send(call: nat)
    | TakeReply(call: nat)
    | TimeOut(call: nat)
    | SeeFatal(call: nat)
    | Remove(call: nat)
    | Cancel(call: nat)
    | Read(message: Incoming, listened: bool)
    | ReadBad(error: Fatal)
    | Deliver
    | Clear
    | SendOther
    | TakeFrame
    | WroteFrame
    | FailToWrite
    | CloseWriter

  /** A transport whose write queue holds `capacity` frames. */
  function Init(capacity: nat): State {
    State([], 0, map[], None, 0, Reading, Idle, capacity, 0, [], [], [], [])
  }

  /** `i64::try_from(..).unwrap_or(i64::MAX)` */
  function IdOf(counter: nat): JsonRpcId {
    NumberId(if counter < I64_LIMIT then counter else I64_LIMIT - 1)
  }

  /** The pending key of the request that drew `k` ids after the first. */
  function KeyAt(k: nat): (key: string)
    ensures RequestKey(IdOf(CounterAfter(k))) == Some(key)
  {
    RequestKey(IdOf(CounterAfter(k))).value
  }

  predicate Finished(stage: Stage) {
    stage.Done? || stage.Cancelled?
  }

  function StageOf(s: State, r: nat): Option<Stage> {
    if r < |s.calls| then Some(s.calls[r].stage) else None
  }

  /** All senders of the fatal watch are gone. */
  predicate WatchAbandoned(s: State) {
    s.reader.Stopped? && s.writer.Gone?
  }

  /** `write_tx.send` comes back once there is room, or once the receiver is gone. */
  predicate CanSend(s: State) {
    s.queue < s.capacity || s.writer.Gone?
  }

  predicate Enabled(s: State, step: Step) {
    match step
    case Start => s.fatal.None?
    case Insert(r) => StageOf(s, r) == Some(Drawn)
    case Serialize(r) => StageOf(s, r) == Some(Inserted)
    case FailToSerialize(r) => StageOf(s, r) == Some(Inserted)
    case Send(r) => StageOf(s, r) == Some(Sending) && CanSend(s)
    case TakeReply(r) => StageOf(s, r) == Some(Queued) && s.calls[r].slot != Empty
    case TimeOut(r) => StageOf(s, r) == Some(Queued)
    case SeeFatal(r) => StageOf(s, r) == Some(Queued) && (s.version > 0 || WatchAbandoned(s))
    case Remove(r) => r < |s.calls| && s.calls[r].stage.Settling?
    case Cancel(r) => r < |s.calls| && !Finished(s.calls[r].stage)
    case Read(_, _) => s.reader.Reading?
    case ReadBad(_) => s.reader.Reading?
    case Deliver => s.reader.Delivering?
    case Clear => s.reader.Clearing?
    case SendOther => s.queue < s.capacity && !s.writer.Gone?
    case TakeFrame => s.writer.Idle? && s.queue > 0
    case WroteFrame => s.writer.Writing?
    case FailToWrite => s.writer.Writing?
    case CloseWriter => s.writer.Failing?
  }

  function SetStage(calls: seq<Call>, r: nat, stage: Stage): (now: seq<Call>)
    requires r < |calls|
    ensures |now| == |calls| && now[r] == Call(stage, calls[r].slot)
    ensures forall q | 0 <= q < |calls| && q != r :: now[q] == calls[q]
  {
    calls[r := Call(stage, calls[r].slot)]
  }

  /** Dropping the senders of `dropped` closes the channels that are still empty. */
  function CloseSlots(calls: seq<Call>, dropped: set<nat>): (now: seq<Call>)
    ensures |now| == |calls|
    ensures forall q | 0 <= q < |calls| ::
              now[q] == if q in dropped && calls[q].slot.Empty? then Call(calls[q].stage, Closed) else calls[q]
  {
    seq(|calls|, q requires 0 <= q < |calls| =>
      if q in dropped && calls[q].slot.Empty? then Call(calls[q].stage, Closed) else calls[q])
  }

  /** Dropping the sender under a key, if there is one. */
  function Evicted(s: State, key: string): State {
    s.(calls := CloseSlots(s.calls, if key in s.pending then {s.pending[key]} else {}), pending := s.pending - {key})
  }

  /** `pending.insert` */
  function AfterInsert(s: State, r: nat): State
    requires r < |s.calls|
  {
    var room := Evicted(s, KeyAt(r));
    room.(calls := SetStage(room.calls, r, Inserted), pending := room.pending[KeyAt(r) := r])
  }

  /** `write_tx.send`: with the writer gone the call returns at once, key or no key. */
  function AfterSend(s: State, r: nat): State
    requires r < |s.calls|
  {
    if s.writer.Gone? then s.(calls := SetStage(s.calls, r, Done(Failed(WriterGone), false)))
    else s.(calls := SetStage(s.calls, r, Queued), queue := s.queue + 1)
  }

  function ReplyOutcome(slot: Slot): Outcome
    requires slot != Empty
  {
    match slot
    case Filled(Ok(value), _) => Returned(value)
    case Filled(Err(error), _) => Failed(Rejected(error))
    case Closed => Failed(ChannelClosed)
  }

  /** The `changed` branch; its two `?` exits skip the removal. */
  function AfterSeeFatal(s: State, r: nat): State
    requires r < |s.calls|
  {
    s.(calls := SetStage(s.calls, r,
      if s.version == 0 then Done(Failed(WatcherClosed), true)
      else match s.fatal
           case Some(error) => Settling(Failed(TransportFailed(error)))
           case None => Done(Failed(NoFatalState), true)))
  }

  /** `pending.remove(&key)` after the wait; whatever is under the key is dropped. */
  function AfterRemove(s: State, r: nat): State
    requires r < |s.calls| && s.calls[r].stage.Settling?
  {
    var room := Evicted(s, KeyAt(r));
    room.(calls := SetStage(room.calls, r, Done(s.calls[r].stage.outcome, true)))
  }

  function Signal(s: State, error: Fatal): State {
    s.(fatal := Some(error), version := s.version + 1, reader := Clearing(error))
  }

  function Accept(s: State, message: Incoming, claim: Option<nat>): State {
    s.(frames := s.frames + [message], claims := s.claims + [claim])
  }

  /** `handle_incoming_message` up to the delivery of a response. */
  function AfterRead(s: State, message: Incoming, listened: bool): (now: State)
    ensures now.calls == s.calls && now.nextId == s.nextId
  {
    match message
    case Notification(_, _) =>
      if listened then Accept(s, message, None).(notified := s.notified + [Ok(message)])
      else Signal(s, StreamDropped)
    case Request(_, _, _) =>
      if listened then Accept(s, message, None).(asked := s.asked + [Ok(message)])
      else Signal(s, StreamDropped)
    case Response(id, _) =>
      match RequestKey(id)
      case None => Signal(Accept(s, message, None), NullResponseId)
      case Some(key) =>
        if key in s.pending then
          Accept(s, message, Some(s.pending[key]))
            .(pending := s.pending - {key}, reader := Delivering(s.pending[key], |s.frames|))
        else Signal(Accept(s, message, None), UnknownResponseId(key))
  }

  /** `sender.send(result)`: lost when the request is over. */
  function AfterDeliver(s: State): State
    requires s.reader.Delivering?
  {
    var r, f := s.reader.call, s.reader.frame;
    if r < |s.calls| && f < |s.frames| && s.frames[f].Response?
       && s.calls[r].slot.Empty? && !Finished(s.calls[r].stage)
    then s.(calls := s.calls[r := Call(s.calls[r].stage, Filled(s.frames[f].result, f))], reader := Reading)
    else s.(reader := Reading)
  }

  function AfterClear(s: State): State
    requires s.reader.Clearing?
  {
    var error := s.reader.error;
    s.(calls := CloseSlots(s.calls, s.pending.Values), pending := map[], reader := Stopped(error),
       notified := s.notified + [Err(error)], asked := s.asked + [Err(error)])
  }

  function Take(s: State, step: Step): State
    requires Enabled(s, step)
  {
    match step
    case Start => s.(calls := s.calls + [Call(Drawn, Empty)], nextId := Bump(s.nextId))
    case Insert(r) => AfterInsert(s, r)
    case Serialize(r) => s.(calls := SetStage(s.calls, r, Sending))
    case FailToSerialize(r) => s.(calls := SetStage(s.calls, r, Done(Failed(NotSerialized), false)))
    case Send(r) => AfterSend(s, r)
    case TakeReply(r) => s.(calls := SetStage(s.calls, r, Settling(ReplyOutcome(s.calls[r].slot))))
    case TimeOut(r) => s.(calls := SetStage(s.calls, r, Settling(Failed(TimedOut))))
    case SeeFatal(r) => AfterSeeFatal(s, r)
    case Remove(r) => AfterRemove(s, r)
    case Cancel(r) => s.(calls := SetStage(s.calls, r, Cancelled(!s.calls[r].stage.Drawn?)))
    case Read(message, listened) => AfterRead(s, message, listened)
    case ReadBad(error) => Signal(s, error)
    case Deliver => AfterDeliver(s)
    case Clear => AfterClear(s)
    case FailToWrite => s.(fatal := Some(WriteFailed), version := s.version + 1, writer := Failing)
    case SendOther => s.(queue := s.queue + 1)
    case TakeFrame => s.(writer := Writing, queue := s.queue - 1)
    case WroteFrame => s.(writer := Idle)
    case CloseWriter => s.(writer := Gone, queue := 0)
  }

  function Apply(s: State, step: Step): State {
    if Enabled(s, step) then Take(s, step) else s
  }

  function Resume(s: State, steps: seq<Step>): State {
    if steps == [] then s else Apply(Resume(s, steps[..|steps| - 1]), steps[|steps| - 1])
  }

  /** The state after a run. */
  function Exec(cap: nat, steps: seq<Step>): State {
    Resume(Init(cap), steps)
  }
}

/** What every run keeps. */
module TransportInvariant {
  import opened Prelude
  import opened Counters
  import opened JsonValues
  import opened Decimal
  import opened RpcFrames
  import opened TransportSteps

  /** The stages a request can be in while its key is in `pending`. */
  predicate HoldsKey(stage: Stage) {
    || stage.Inserted? || stage.Sending? || stage.Queued? || stage.Settling?
    || (stage.Cancelled? && stage.filed) || (stage.Done? && !stage.sent)
  }

  predicate PendingKept(s: State) {
    forall k | k in s.pending ::
      && s.pending[k] < |s.calls| && KeyAt(s.pending[k]) == k
      && HoldsKey(s.calls[s.pending[k]].stage) && s.calls[s.pending[k]].slot.Empty?
  }

  /** `r` was taken out of `pending`, or never will be put there again. */
  predicate Taken(s: State, r: nat) {
    r < |s.calls| && !s.calls[r].stage.Drawn? && (KeyAt(r) in s.pending ==> s.pending[KeyAt(r)] != r)
  }

  predicate Answers(message: Incoming, key: string) {
    message.Response? && RequestKey(message.id) == Some(key)
  }

  predicate ClaimsKept(s: State) {
    && |s.claims| == |s.frames|
    && forall f | 0 <= f < |s.claims| && s.claims[f].Some? ::
         Taken(s, s.claims[f].value) && Answers(s.frames[f], KeyAt(s.claims[f].value))
  }

  predicate ClaimsDistinct(claims: seq<Option<nat>>) {
    forall f, g | 0 <= f < g < |claims| && claims[f].Some? :: claims[f] != claims[g]
  }

  predicate Claimed(s: State, r: nat, f: nat) {
    f < |s.claims| && f < |s.frames| && s.claims[f] == Some(r) && s.frames[f].Response?
  }

  /** What a request's stage and slot say about each other and about the rest. */
  predicate CallKept(s: State, r: nat)
    requires r < |s.calls|
  {
    var c := s.calls[r];
    && (c.slot.Filled? ==> Claimed(s, r, c.slot.frame) && s.frames[c.slot.frame].result == c.slot.result)
    && (c.stage.Drawn? ==> c.slot.Empty?)
    && (c.stage.Settling? || c.stage.Done? ==> OutcomeKept(s, c.slot, c.stage.outcome))
    && (c.stage.Done? && !c.stage.sent ==>
          c.stage.outcome == Failed(NotSerialized) || c.stage.outcome == Failed(WriterGone))
  }

  predicate OutcomeKept(s: State, slot: Slot, outcome: Outcome) {
    match outcome
    case Returned(v) => slot.Filled? && slot.result == Ok(v)
    case Failed(Rejected(e)) => slot.Filled? && slot.result == Err(e)
    case Failed(ChannelClosed) => slot.Closed?
    case Failed(TransportFailed(_)) => s.fatal.Some?
    case Failed(WriterGone) => s.fatal.Some?
    case Failed(WatcherClosed) => false
    case Failed(NoFatalState) => false
    case _ => true
  }

  predicate CallsKept(s: State) {
    forall r | 0 <= r < |s.calls| :: CallKept(s, r)
  }

  predicate ReaderKept(s: State) {
    && (s.reader.Delivering? ==> Claimed(s, s.reader.call, s.reader.frame))
    && (s.reader.Clearing? || s.reader.Stopped? || s.writer.Failing? || s.writer.Gone? ==> s.fatal.Some?)
    && s.queue <= s.capacity
    && (s.fatal.Some? <==> s.version > 0)
    && s.nextId == CounterAfter(|s.calls|)
  }

  predicate Inv(s: State) {
    PendingKept(s) && ClaimsKept(s) && ClaimsDistinct(s.claims) && CallsKept(s) && ReaderKept(s)
  }

  /** What stays true of the old claims and of untouched calls while pending loses entries
      or gains ones drawn but never claimed, and frames and latch only grow. */
  lemma {:induction false} CarryOver(s: State, t: State)
    requires Inv(s) && |t.calls| >= |s.calls|
    requires s.frames <= t.frames && s.claims <= t.claims && |t.claims| == |t.frames|
    requires s.fatal.Some? ==> t.fatal.Some?
    requires forall q | 0 <= q < |s.calls| && t.calls[q].stage.Drawn? :: s.calls[q].stage.Drawn?
    requires forall k | k in t.pending :: (k in s.pending && s.pending[k] == t.pending[k])
                                          || StageOf(s, t.pending[k]) == Some(Drawn)
    ensures forall q | 0 <= q < |s.calls| && t.calls[q] == s.calls[q] :: CallKept(t, q)
    ensures forall f | 0 <= f < |s.claims| && t.claims[f].Some? ::
              Taken(t, t.claims[f].value) && Answers(t.frames[f], KeyAt(t.claims[f].value))
  {
    forall q | 0 <= q < |s.calls| && t.calls[q] == s.calls[q] ensures CallKept(t, q) {
      assert CallKept(s, q);
    }
    forall f | 0 <= f < |s.claims| && t.claims[f].Some?
      ensures Taken(t, t.claims[f].value) && Answers(t.frames[f], KeyAt(t.claims[f].value))
    {
      assert Taken(s, s.claims[f].value);
    }
  }

  /** A step that only moves `r` to a later stage. */
  lemma {:induction false} StageStepKeeps(s: State, r: nat, stage: Stage)
    requires Inv(s) && r < |s.calls| && !stage.Drawn?
    requires HoldsKey(s.calls[r].stage) && HoldsKey(stage)
    requires stage.Settling? || stage.Done? ==> OutcomeKept(s, s.calls[r].slot, stage.outcome)
    requires stage.Done? ==> stage.outcome == Failed(NotSerialized) || stage.outcome == Failed(WriterGone)
    ensures Inv(s.(calls := SetStage(s.calls, r, stage)))
  {
    var t := s.(calls := SetStage(s.calls, r, stage));
    CarryOver(s, t);
    assert CallKept(s, r);
  }

  lemma {:induction false} StartKeeps(s: State)
    requires Inv(s)
    ensures Inv(s.(calls := s.calls + [Call(Drawn, Empty)], nextId := Bump(s.nextId)))
  {
    var t := s.(calls := s.calls + [Call(Drawn, Empty)], nextId := Bump(s.nextId));
    CarryOver(s, t);
    assert CounterAfter(|t.calls|) == Bump(CounterAfter(|s.calls|));
  }

  lemma {:induction false} EvictKeeps(s: State, key: string)
    requires Inv(s)
    ensures Inv(Evicted(s, key))
  {
    var t := Evicted(s, key);
    CarryOver(s, t);
    forall q | 0 <= q < |t.calls| ensures CallKept(t, q) {
      assert CallKept(s, q);
    }
    forall k | k in t.pending ensures t.calls[t.pending[k]] == s.calls[s.pending[k]] {
      assert KeyAt(s.pending[k]) == k;
    }
  }

  lemma {:induction false} InsertKeeps(s: State, r: nat)
    requires Inv(s) && StageOf(s, r) == Some(Drawn)
    ensures Inv(AfterInsert(s, r))
  {
    var room := Evicted(s, KeyAt(r));
    EvictKeeps(s, KeyAt(r));
    CarryOver(room, AfterInsert(s, r));
    assert CallKept(s, r) && CallKept(room, r);
  }

  lemma {:induction false} SeeFatalKeeps(s: State, r: nat)
    requires Inv(s) && StageOf(s, r) == Some(Queued) && (s.version > 0 || WatchAbandoned(s))
    ensures Inv(AfterSeeFatal(s, r))
    ensures s.fatal.Some? && AfterSeeFatal(s, r).calls[r].stage == Settling(Failed(TransportFailed(s.fatal.value)))
  {
    StageStepKeeps(s, r, Settling(Failed(TransportFailed(s.fatal.value))));
  }

  lemma {:induction false} RemoveKeeps(s: State, r: nat)
    requires Inv(s) && r < |s.calls| && s.calls[r].stage.Settling?
    ensures Inv(AfterRemove(s, r))
  {
    var room := Evicted(s, KeyAt(r));
    EvictKeeps(s, KeyAt(r));
    CarryOver(room, AfterRemove(s, r));
    assert CallKept(s, r) && CallKept(room, r);
    forall k | k in room.pending ensures room.pending[k] != r {
      assert KeyAt(room.pending[k]) == k;
    }
  }

  /** Cancelling keeps the key; a request that never inserted one will not. */
  lemma {:induction false} CancelKeeps(s: State, r: nat)
    requires Inv(s) && r < |s.calls| && !Finished(s.calls[r].stage)
    ensures Inv(s.(calls := SetStage(s.calls, r, Cancelled(!s.calls[r].stage.Drawn?))))
  {
    var t := s.(calls := SetStage(s.calls, r, Cancelled(!s.calls[r].stage.Drawn?)));
    assert CallKept(s, r);
    CarryOver(s, t);
  }

  lemma {:induction false} SignalKeeps(s: State, error: Fatal)
    requires Inv(s)
    ensures Inv(Signal(s, error))
  {
    var t := Signal(s, error);
    CarryOver(s, t);
  }

  /** The streams and the write side play no part beyond what the latch says. */
  lemma {:induction false} StreamsKeep(s: State, notified: seq<Result<Incoming, Fatal>>,
          asked: seq<Result<Incoming, Fatal>>, writer: Writer, queue: nat)
    requires Inv(s) && (writer.Failing? || writer.Gone? ==> s.fatal.Some?) && queue <= s.capacity
    ensures Inv(s.(notified := notified, asked := asked, writer := writer, queue := queue))
  {
    CarryOver(s, s.(notified := notified, asked := asked, writer := writer, queue := queue));
  }

  lemma {:induction false} SendKeeps(s: State, r: nat)
    requires Inv(s) && StageOf(s, r) == Some(Sending) && CanSend(s)
    ensures Inv(AfterSend(s, r))
  {
    if s.writer.Gone? {
      StageStepKeeps(s, r, Done(Failed(WriterGone), false));
    } else {
      StageStepKeeps(s, r, Queued);
      StreamsKeep(s.(calls := SetStage(s.calls, r, Queued)), s.notified, s.asked, s.writer, s.queue + 1);
    }
  }

  lemma {:induction false} FailToWriteKeeps(s: State)
    requires Inv(s)
    ensures Inv(s.(fatal := Some(WriteFailed), version := s.version + 1, writer := Failing))
  {
    CarryOver(s, s.(fatal := Some(WriteFailed), version := s.version + 1, writer := Failing));
  }

  lemma {:induction false} UnclaimedKeeps(s: State, message: Incoming)
    requires Inv(s)
    ensures Inv(Accept(s, message, None))
  {
    var t := Accept(s, message, None);
    CarryOver(s, t);
  }

  function Claiming(s: State, message: Incoming, key: string): State
    requires key in s.pending
  {
    Accept(s, message, Some(s.pending[key]))
      .(pending := s.pending - {key}, reader := Delivering(s.pending[key], |s.frames|))
  }

  lemma {:induction false} ClaimedKeeps(s: State, message: Incoming, key: string)
    requires Inv(s) && Answers(message, key) && key in s.pending
    ensures Inv(Claiming(s, message, key))
  {
    var t := Claiming(s, message, key);
    var r := s.pending[key];
    CarryOver(s, t);
    forall f, g | 0 <= f < g < |t.claims| && t.claims[f].Some? ensures t.claims[f] != t.claims[g] {
      assert Taken(s, s.claims[f].value);
    }
    assert t.claims[|s.frames|] == Some(r) && t.frames[|s.frames|] == message;
  }

  lemma {:induction false} ReadKeeps(s: State, message: Incoming, listened: bool)
    requires Inv(s) && s.reader.Reading?
    ensures Inv(AfterRead(s, message, listened))
  {
    UnclaimedKeeps(s, message);
    var heard := Accept(s, message, None);
    match message
    case Notification(_, _) =>
      SignalKeeps(s, StreamDropped);
      StreamsKeep(heard, s.notified + [Ok(message)], s.asked, s.writer, s.queue);
    case Request(_, _, _) =>
      SignalKeeps(s, StreamDropped);
      StreamsKeep(heard, s.notified, s.asked + [Ok(message)], s.writer, s.queue);
    case Response(id, _) =>
      match RequestKey(id)
      case None => SignalKeeps(heard, NullResponseId);
      case Some(key) =>
        if key in s.pending {
          ClaimedKeeps(s, message, key);
        } else {
          SignalKeeps(heard, UnknownResponseId(key));
        }
  }

  lemma {:induction false} DeliverKeeps(s: State)
    requires Inv(s) && s.reader.Delivering?
    ensures Inv(AfterDeliver(s))
  {
    var t := AfterDeliver(s);
    var r, f := s.reader.call, s.reader.frame;
    assert Taken(s, s.claims[f].value) && CallKept(s, r);
    CarryOver(s, t);
  }

  lemma {:induction false} ClearKeeps(s: State)
    requires Inv(s) && s.reader.Clearing?
    ensures Inv(AfterClear(s))
  {
    var t := AfterClear(s);
    CarryOver(s, t);
    forall q | 0 <= q < |t.calls| ensures CallKept(t, q) {
      assert CallKept(s, q);
      if t.calls[q] != s.calls[q] {
        assert PendingKept(s);
      }
    }
  }

  lemma {:induction false} WriteSideKeeps(s: State, step: Step)
    requires Inv(s) && Enabled(s, step)
    requires step.SendOther? || step.TakeFrame? || step.WroteFrame? || step.FailToWrite? || step.CloseWriter?
    ensures Inv(Take(s, step))
  {
    match step
    case SendOther => StreamsKeep(s, s.notified, s.asked, s.writer, s.queue + 1);
    case TakeFrame => StreamsKeep(s, s.notified, s.asked, Writing, s.queue - 1);
    case WroteFrame => StreamsKeep(s, s.notified, s.asked, Idle, s.queue);
    case FailToWrite => FailToWriteKeeps(s);
    case CloseWriter => StreamsKeep(s, s.notified, s.asked, Gone, 0);
  }

  lemma {:induction false} StepKeeps(s: State, step: Step)
    requires Inv(s)
    ensures Inv(Apply(s, step))
  {
    if Enabled(s, step) {
      match step
      case Start => StartKeeps(s);
      case Insert(r) => InsertKeeps(s, r);
      case FailToSerialize(r) => StageStepKeeps(s, r, Done(Failed(NotSerialized), false));
      case Serialize(r) => StageStepKeeps(s, r, Sending);
      case Send(r) => SendKeeps(s, r);
      case TakeReply(r) =>
        assert CallKept(s, r);
        StageStepKeeps(s, r, Settling(ReplyOutcome(s.calls[r].slot)));
      case TimeOut(r) => StageStepKeeps(s, r, Settling(Failed(TimedOut)));
      case SeeFatal(r) => SeeFatalKeeps(s, r);
      case Remove(r) => RemoveKeeps(s, r);
      case Cancel(r) => CancelKeeps(s, r);
      case Read(message, listened) => ReadKeeps(s, message, listened);
      case ReadBad(error) => SignalKeeps(s, error);
      case Deliver => DeliverKeeps(s);
      case Clear => ClearKeeps(s);
      case _ => WriteSideKeeps(s, step);
    }
  }

  lemma {:induction false} ExecKeeps(cap: nat, steps: seq<Step>)
    ensures Inv(Exec(cap, steps))
  {
    if steps != [] {
      ExecKeeps(cap, steps[..|steps| - 1]);
      StepKeeps(Exec(cap, steps[..|steps| - 1]), steps[|steps| - 1]);
    }
  }
}

/** What a caller of the transport can rely on, over every run. */
module TransportTheorems {
  import opened Prelude
  import opened Counters
  import opened JsonValues
  import opened Decimal
  import opened RpcFrames
  import opened TransportSteps
  import opened TransportInvariant

  predicate Settled(stage: Stage, outcome: Outcome) {
    stage == Settling(outcome) || (stage.Done? && stage.outcome == outcome)
  }

  /** Two requests share a key exactly when both drew past the largest 64-bit integer. */
  lemma {:induction false} KeysCollide(i: nat, j: nat)
    requires i < U64 && j < U64
    ensures KeyAt(i) == KeyAt(j) <==> i == j || (i >= I64_LIMIT - 1 && j >= I64_LIMIT - 1)
  {
    ShowNatInjective(IdOf(i).i, IdOf(j).i);
  }

  /** A value handed to a caller came from a response frame with that request's own key. */
  lemma {:induction false} ReturnedValueCameFromOwnResponse(cap: nat, steps: seq<Step>, r: nat, value: Json)
    requires r < |Exec(cap, steps).calls| && Settled(Exec(cap, steps).calls[r].stage, Returned(value))
    ensures var s := Exec(cap, steps);
            exists f :: 0 <= f < |s.frames| && f < |s.claims| && s.claims[f] == Some(r)
              && Answers(s.frames[f], KeyAt(r)) && s.frames[f].result == Ok(value)
  {
    var s := Exec(cap, steps);
    ExecKeeps(cap, steps);
    assert CallKept(s, r);
    var f := s.calls[r].slot.frame;
    assert s.claims[f] == Some(r) && Answers(s.frames[f], KeyAt(r));
  }

  /** No request consumes two frames, and no frame completes two requests. */
  lemma {:induction false} FramesAndRequestsPairUp(cap: nat, steps: seq<Step>, r: nat, q: nat, f: nat, g: nat)
    requires var s := Exec(cap, steps); r < |s.calls| && q < |s.calls| && f < |s.claims| && g < |s.claims|
    ensures var s := Exec(cap, steps); s.claims[f] == s.claims[g] == Some(r) ==> f == g
    ensures var s := Exec(cap, steps);
            s.calls[r].slot.Filled? && s.calls[q].slot.Filled? && s.calls[r].slot.frame == s.calls[q].slot.frame
            ==> r == q
  {
    var s := Exec(cap, steps);
    ExecKeeps(cap, steps);
    assert CallKept(s, r) && CallKept(s, q);
  }

  /** While at most 2^63 ids are drawn, a response can only go to the request that sent its id. */
  lemma {:induction false} ResponseReachesItsOnlySender(cap: nat, steps: seq<Step>, f: nat, r: nat)
    requires var s := Exec(cap, steps);
             |s.calls| <= I64_LIMIT && r < |s.calls| && f < |s.frames| && Answers(s.frames[f], KeyAt(r))
    ensures var s := Exec(cap, steps); f < |s.claims| && (s.claims[f].None? || s.claims[f] == Some(r))
  {
    ExecKeeps(cap, steps);
    var s := Exec(cap, steps);
    if s.claims[f].Some? {
      KeysCollide(s.claims[f].value, r);
    }
  }

  lemma {:induction false} ExecOne(cap: nat, steps: seq<Step>, step: Step)
    ensures Exec(cap, steps + [step]) == Apply(Exec(cap, steps), step)
  {}

  lemma {:induction false} ExecThenResume(cap: nat, a: seq<Step>, b: seq<Step>)
    ensures Exec(cap, a + b) == Resume(Exec(cap, a), b)
    decreases |b|
  {
    if b == [] {
      assert a + b == a;
    } else {
      ExecThenResume(cap, a, b[..|b| - 1]);
      assert (a + b)[..|a + b| - 1] == a + b[..|b| - 1];
    }
  }

  /** Once fatal is set it is never None again. */
  lemma {:induction false} FatalIsALatch(cap: nat, a: seq<Step>, b: seq<Step>)
    requires Exec(cap, a).fatal.Some?
    ensures Exec(cap, a + b).fatal.Some?
    decreases |b|
  {
    ExecThenResume(cap, a, b);
    if b != [] {
      FatalIsALatch(cap, a, b[..|b| - 1]);
      ExecThenResume(cap, a, b[..|b| - 1]);
    }
  }

  /** The read side never comes back: nothing is read, claimed, streamed or delivered. */
  predicate ReadSideFrozen(s: State, t: State) {
    && t.reader == s.reader && t.frames == s.frames && t.claims == s.claims
    && t.notified == s.notified && t.asked == s.asked && |t.calls| == |s.calls|
    && forall r | 0 <= r < |t.calls| && t.calls[r].slot.Filled? :: t.calls[r].slot == s.calls[r].slot
  }

  lemma {:induction false} StepFreezes(s: State, step: Step)
    requires Inv(s) && s.reader.Stopped?
    ensures ReadSideFrozen(s, Apply(s, step))
  {}

  lemma {:induction false} NothingIsDeliveredAfterTheClear(cap: nat, a: seq<Step>, b: seq<Step>)
    requires Exec(cap, a).reader.Stopped?
    ensures ReadSideFrozen(Exec(cap, a), Exec(cap, a + b))
    decreases |b|
  {
    ExecThenResume(cap, a, b);
    if b != [] {
      var front := b[..|b| - 1];
      NothingIsDeliveredAfterTheClear(cap, a, front);
      ExecThenResume(cap, a, front);
      ExecKeeps(cap, a + front);
      StepFreezes(Exec(cap, a + front), b[|b| - 1]);
    }
  }

  /** A request whose frame was queued leaves no key behind when it returns. */
  lemma {:induction false} QueuedRequestLeavesNoKey(cap: nat, steps: seq<Step>, r: nat)
    requires var s := Exec(cap, steps); r < |s.calls| && s.calls[r].stage.Done? && s.calls[r].stage.sent
    ensures r !in Exec(cap, steps).pending.Values
  {
    ExecKeeps(cap, steps);
  }

  /** The two exits that skip the removal after queueing are never taken. */
  lemma {:induction false} WatchNeverMisleads(cap: nat, steps: seq<Step>, r: nat)
    requires r < |Exec(cap, steps).calls|
    ensures !Settled(Exec(cap, steps).calls[r].stage, Failed(WatcherClosed))
    ensures !Settled(Exec(cap, steps).calls[r].stage, Failed(NoFatalState))
  {
    ExecKeeps(cap, steps);
    assert CallKept(Exec(cap, steps), r);
  }

  /** The stages between the insertion of the key and the return. */
  predicate UnderWay(stage: Stage) {
    stage.Inserted? || stage.Sending? || stage.Queued? || stage.Settling?
  }

  /** A request under way is in `pending`, has its answer, or is just being answered. */
  predicate Remembered(s: State, r: nat)
    requires r < |s.calls|
  {
    UnderWay(s.calls[r].stage) && s.calls[r].slot.Empty?
    ==> (KeyAt(r) in s.pending && s.pending[KeyAt(r)] == r) || (s.reader.Delivering? && s.reader.call == r)
  }

  predicate AllRemembered(s: State) {
    forall r | 0 <= r < |s.calls| :: Remembered(s, r)
  }

  lemma {:induction false} StepRemembersOne(s: State, step: Step, r: nat)
    requires Inv(s) && r < |s.calls| && Remembered(s, r)
    ensures Remembered(Apply(s, step), r)
  {
    if Enabled(s, step) {
      match step
      case Insert(q) => EvictRemembers(s, KeyAt(q), r);
      case Remove(q) => EvictRemembers(s, KeyAt(q), r);
      case Read(message, listened) => ReadRemembers(s, message, listened, r);
      case Clear => ClearRemembers(s, r);
      case _ => OtherStepRemembers(s, step, r);
    }
  }

  lemma {:induction false} ClearRemembers(s: State, r: nat)
    requires s.reader.Clearing? && r < |s.calls| && Remembered(s, r)
    ensures Remembered(AfterClear(s), r)
  {}

  lemma {:induction false} OtherStepRemembers(s: State, step: Step, r: nat)
    requires Inv(s) && r < |s.calls| && Remembered(s, r) && Enabled(s, step)
    requires !step.Insert? && !step.Remove? && !step.Read? && !step.Clear?
    ensures r < |Take(s, step).calls| && Remembered(Take(s, step), r)
  {}

  lemma {:induction false} EvictRemembers(s: State, key: string, r: nat)
    requires Inv(s) && r < |s.calls| && Remembered(s, r)
    ensures Remembered(Evicted(s, key), r)
  {}

  lemma {:induction false} ReadRemembers(s: State, message: Incoming, listened: bool, r: nat)
    requires Inv(s) && r < |s.calls| && Remembered(s, r) && s.reader.Reading?
    ensures Remembered(AfterRead(s, message, listened), r)
  {}

  lemma {:induction false} StepRemembers(s: State, step: Step)
    requires Inv(s) && AllRemembered(s)
    ensures AllRemembered(Apply(s, step))
  {
    var t := Apply(s, step);
    forall r | 0 <= r < |t.calls| ensures Remembered(t, r) {
      if r < |s.calls| {
        StepRemembersOne(s, step, r);
      }
    }
  }

  /** No waiting request is ever forgotten. */
  lemma {:induction false} WaitingRequestsAreRemembered(cap: nat, steps: seq<Step>)
    ensures AllRemembered(Exec(cap, steps))
  {
    if steps != [] {
      var front := steps[..|steps| - 1];
      WaitingRequestsAreRemembered(cap, front);
      ExecKeeps(cap, front);
      StepRemembers(Exec(cap, front), steps[|steps| - 1]);
    }
  }

  /** A read-side fatal error empties `pending` and wakes every waiting request. */
  lemma {:induction false} ClearWakesEveryone(cap: nat, steps: seq<Step>, r: nat)
    requires var s := Exec(cap, steps); s.reader.Clearing? && r < |s.calls|
    requires UnderWay(Exec(cap, steps).calls[r].stage)
    ensures var t := Exec(cap, steps + [Clear]);
            && t.reader.Stopped? && t.pending == map[] && |t.calls| == |Exec(cap, steps).calls|
            && t.calls[r].slot != Empty
  {
    var s := Exec(cap, steps);
    ExecOne(cap, steps, Clear);
    WaitingRequestsAreRemembered(cap, steps);
    assert Remembered(s, r);
  }

  /** A request that gives up before its frame is queued, or that is cancelled anywhere,
      leaves its key behind exactly when the key was inserted and no response, clear or request
      with the same key has taken it. */
  lemma {:induction false} EarlyReturnLeavesKey(cap: nat, steps: seq<Step>, r: nat, step: Step)
    requires || step == FailToSerialize(r) || (step == Send(r) && Exec(cap, steps).writer.Gone?)
             || step == Cancel(r)
    requires Enabled(Exec(cap, steps), step)
    ensures var s, t := Exec(cap, steps), Exec(cap, steps + [step]);
            && StageOf(t, r).Some? && Finished(StageOf(t, r).value)
            && (r in t.pending.Values
                <==> !s.calls[r].stage.Drawn? && s.calls[r].slot == Empty
                     && !(s.reader.Delivering? && s.reader.call == r))
  {
    var s := Exec(cap, steps);
    ExecOne(cap, steps, step);
    ExecKeeps(cap, steps);
    WaitingRequestsAreRemembered(cap, steps);
    assert Remembered(s, r);
    var t := Exec(cap, steps + [step]);
    assert t.pending == s.pending;
    if KeyAt(r) in s.pending && s.pending[KeyAt(r)] == r {
      assert r in t.pending.Values;
    }
    if s.reader.Delivering? && s.reader.call == r {
      assert Taken(s, s.claims[s.reader.frame].value);
    }
  }

  /** A request that is cancelled while its frame waits for room leaves its key. */
  lemma {:induction false} CancelledRequestLeavesKey(cap: nat)
    ensures var s := Exec(cap, [Start, Insert(0), Serialize(0), Cancel(0)]);
            StageOf(s, 0) == Some(Cancelled(true)) && s.pending == map[KeyAt(0) := 0]
  {
    ExecOne(cap, [], Start);
    ExecOne(cap, [Start], Insert(0));
    ExecOne(cap, [Start, Insert(0)], Serialize(0));
    ExecOne(cap, [Start, Insert(0), Serialize(0)], Cancel(0));
    assert [] + [Start] == [Start] && [Start] + [Insert(0)] == [Start, Insert(0)];
    assert [Start, Insert(0)] + [Serialize(0)] == [Start, Insert(0), Serialize(0)];
    assert [Start, Insert(0), Serialize(0)] + [Cancel(0)] == [Start, Insert(0), Serialize(0), Cancel(0)];
  }

  /** Request `r` is filed under its key exactly while it holds one that no frame has taken;
      a stopped read side has forgotten everyone before it. */
  predicate FiledExactly(s: State, r: nat)
    requires r < |s.calls|
  {
    s.reader.Stopped?
    || (KeyAt(r) in s.pending && s.pending[KeyAt(r)] == r <==> HoldsKey(s.calls[r].stage) && Some(r) !in s.claims)
  }

  predicate AllFiledExactly(s: State) {
    forall r | 0 <= r < |s.calls| :: FiledExactly(s, r)
  }

  lemma {:induction false} OtherKey(s: State, q: nat, r: nat)
    requires |s.calls| <= I64_LIMIT && q < |s.calls| && r < |s.calls| && q != r
    ensures KeyAt(q) != KeyAt(r)
  {
    KeysCollide(q, r);
  }

  lemma {:induction false} ReadFilesExactly(s: State, message: Incoming, listened: bool, r: nat)
    requires Inv(s) && s.reader.Reading? && |s.calls| <= I64_LIMIT && r < |s.calls| && FiledExactly(s, r)
    ensures FiledExactly(AfterRead(s, message, listened), r)
  {
    var key := if message.Response? then RequestKey(message.id) else None;
    if key.Some? && key.value in s.pending {
      var t, q := AfterRead(s, message, listened), s.pending[key.value];
      assert t.claims == s.claims + [Some(q)];
      if q != r {
        OtherKey(s, q, r);
      }
    } else {
      assert Some(r) in s.claims + [None] <==> Some(r) in s.claims;
    }
  }

  lemma {:induction false} StepFilesExactly(s: State, step: Step, r: nat)
    requires Inv(s) && |s.calls| <= I64_LIMIT && Enabled(s, step) && r < |s.calls| && FiledExactly(s, r)
    ensures r < |Take(s, step).calls| && FiledExactly(Take(s, step), r)
  {
    match step
    case Read(message, listened) => ReadFilesExactly(s, message, listened, r);
    case Insert(q) => InsertFilesExactly(s, q, r);
    case Remove(q) => RemoveFilesExactly(s, q, r);
    case _ => OtherStepFilesExactly(s, step, r);
  }

  lemma {:induction false} InsertFilesExactly(s: State, q: nat, r: nat)
    requires Inv(s) && |s.calls| <= I64_LIMIT && StageOf(s, q) == Some(Drawn)
    requires r < |s.calls| && FiledExactly(s, r)
    ensures FiledExactly(AfterInsert(s, q), r)
  {
    if q != r {
      OtherKey(s, q, r);
    } else {
      NeverClaimedWhileDrawn(s, r);
    }
  }

  lemma {:induction false} RemoveFilesExactly(s: State, q: nat, r: nat)
    requires Inv(s) && |s.calls| <= I64_LIMIT && q < |s.calls| && s.calls[q].stage.Settling?
    requires r < |s.calls| && FiledExactly(s, r)
    ensures FiledExactly(AfterRemove(s, q), r)
  {
    if q != r {
      OtherKey(s, q, r);
    }
  }

  lemma {:induction false} OtherStepFilesExactly(s: State, step: Step, r: nat)
    requires Inv(s) && Enabled(s, step) && r < |s.calls| && FiledExactly(s, r)
    requires !step.Read? && !step.Insert? && !step.Remove?
    ensures r < |Take(s, step).calls| && FiledExactly(Take(s, step), r)
  {}

  lemma {:induction false} NeverClaimedWhileDrawn(s: State, r: nat)
    requires Inv(s) && (r >= |s.calls| || s.calls[r].stage.Drawn?)
    ensures Some(r) !in s.claims
  {}

  lemma {:induction false} RequestsAreFiledExactly(cap: nat, steps: seq<Step>)
    requires |Exec(cap, steps).calls| <= I64_LIMIT
    ensures AllFiledExactly(Exec(cap, steps))
  {
    if steps != [] {
      var front, last := steps[..|steps| - 1], steps[|steps| - 1];
      var s, t := Exec(cap, front), Exec(cap, steps);
      assert |t.calls| >= |s.calls|;
      RequestsAreFiledExactly(cap, front);
      ExecKeeps(cap, front);
      ExecKeeps(cap, steps);
      forall r | 0 <= r < |t.calls| ensures FiledExactly(t, r) {
        if r >= |s.calls| {
          NeverClaimedWhileDrawn(t, r);
        } else if Enabled(s, last) {
          StepFilesExactly(s, last, r);
        }
      }
    }
  }

  /** With at most 2^63 ids drawn, a response with the key of `r` stops the transport exactly
      when `r` has not inserted its key yet, or has returned after its frame was queued, or
      was answered before. A waiting request takes it, and so does one that returned early or
      was cancelled and was never answered. */
  lemma {:induction false} LateResponseIsFatal(cap: nat, steps: seq<Step>, r: nat, message: Incoming, listened: bool)
    requires var s := Exec(cap, steps); |s.calls| <= I64_LIMIT && r < |s.calls| && s.reader.Reading?
    requires Answers(message, KeyAt(r))
    ensures var s, t := Exec(cap, steps), Exec(cap, steps + [Read(message, listened)]);
            if HoldsKey(s.calls[r].stage) && Some(r) !in s.claims then
              t.reader == Delivering(r, |s.frames|) && t.fatal == s.fatal
            else
              t.reader == Clearing(UnknownResponseId(KeyAt(r))) && t.fatal == Some(UnknownResponseId(KeyAt(r)))
  {
    var s := Exec(cap, steps);
    ExecOne(cap, steps, Read(message, listened));
    ExecKeeps(cap, steps);
    RequestsAreFiledExactly(cap, steps);
    assert FiledExactly(s, r);
    if KeyAt(r) in s.pending {
      KeysCollide(s.pending[KeyAt(r)], r);
    }
  }

  const QUEUED_REQUEST: seq<Step> := [Start] + [Insert(0)] + [Serialize(0)] + [Send(0)]
  const TIMED_OUT: seq<Step> := QUEUED_REQUEST + [TimeOut(0)] + [Remove(0)]

  lemma {:induction false} QueuedRequest(cap: nat)
    requires cap > 0
    ensures var s := Exec(cap, QUEUED_REQUEST); s.reader.Reading? && |s.calls| == 1 && StageOf(s, 0) == Some(Queued)
  {
    ExecOne(cap, [], Start);
    assert [] + [Start] == [Start];
    ExecOne(cap, [Start], Insert(0));
    ExecOne(cap, [Start] + [Insert(0)], Serialize(0));
    ExecOne(cap, [Start] + [Insert(0)] + [Serialize(0)], Send(0));
  }

  lemma {:induction false} TimedOutRequest(cap: nat)
    requires cap > 0
    ensures var s := Exec(cap, TIMED_OUT);
            s.reader.Reading? && |s.calls| == 1 && StageOf(s, 0) == Some(Done(Failed(TimedOut), true))
  {
    QueuedRequest(cap);
    ExecOne(cap, QUEUED_REQUEST, TimeOut(0));
    ExecOne(cap, QUEUED_REQUEST + [TimeOut(0)], Remove(0));
  }

  /** The response to a request that has timed out stops the transport for everyone. */
  lemma {:induction false} ResponseAfterTimeoutIsFatal(cap: nat, message: Incoming, listened: bool)
    requires cap > 0 && Answers(message, KeyAt(0))
    ensures Exec(cap, TIMED_OUT + [Read(message, listened)]).reader == Clearing(UnknownResponseId(KeyAt(0)))
  {
    TimedOutRequest(cap);
    LateResponseIsFatal(cap, TIMED_OUT, 0, message, listened);
  }

  /** A closed channel that is not from the request's own clean-up. */
  predicate SawClosed(c: Call) {
    (c.slot.Closed? && !c.stage.Done?) || Settled(c.stage, Failed(ChannelClosed))
  }

  predicate ClosedOnlyWhenStopped(s: State) {
    s.reader.Stopped? || forall r | 0 <= r < |s.calls| :: !SawClosed(s.calls[r])
  }

  /** Nobody else is under a key that is inserted or removed. */
  lemma {:induction false} EvictionHitsOnlyTheOwner(s: State, r: nat, q: nat)
    requires Inv(s) && |s.calls| <= I64_LIMIT && r < |s.calls| && q < |s.calls|
    requires q != r || s.calls[r].stage.Drawn?
    ensures Evicted(s, KeyAt(r)).calls[q] == s.calls[q]
  {
    if KeyAt(r) in s.pending {
      KeysCollide(s.pending[KeyAt(r)], r);
    }
  }

  lemma {:induction false} StepDoesNotClose(s: State, step: Step, r: nat)
    requires Inv(s) && |s.calls| <= I64_LIMIT && !(s.reader.Clearing? && step.Clear?)
    requires r < |s.calls| && !SawClosed(s.calls[r]) && Enabled(s, step)
    ensures r < |Take(s, step).calls| && !SawClosed(Take(s, step).calls[r])
  {
    match step
    case Insert(q) => EvictionHitsOnlyTheOwner(s, q, r);
    case Remove(q) => if q != r { EvictionHitsOnlyTheOwner(s, q, r); }
    case TakeReply(q) =>
    case Deliver =>
    case SeeFatal(q) =>
    case _ =>
  }

  lemma {:induction false} StepClosesOnlyWhenStopped(s: State, step: Step)
    requires Inv(s) && ClosedOnlyWhenStopped(s) && |s.calls| <= I64_LIMIT
    ensures ClosedOnlyWhenStopped(Apply(s, step))
  {
    var t := Apply(s, step);
    if !t.reader.Stopped? {
      forall r | 0 <= r < |t.calls| ensures !SawClosed(t.calls[r]) {
        if r < |s.calls| && Enabled(s, step) {
          StepDoesNotClose(s, step, r);
        }
      }
    }
  }

  /** With at most 2^63 ids drawn, a response channel closes only because the read side
      stopped: no request loses its place to another. */
  lemma {:induction false} ChannelClosesOnlyWhenStopped(cap: nat, steps: seq<Step>)
    requires |Exec(cap, steps).calls| <= I64_LIMIT
    ensures ClosedOnlyWhenStopped(Exec(cap, steps))
  {
    if steps != [] {
      var front, last := steps[..|steps| - 1], steps[|steps| - 1];
      assert |Apply(Exec(cap, front), last).calls| >= |Exec(cap, front).calls|;
      ChannelClosesOnlyWhenStopped(cap, front);
      ExecKeeps(cap, front);
      StepClosesOnlyWhenStopped(Exec(cap, front), last);
    }
  }

  /** The steps by which request `r` gives up once the transport has failed. */
  function WayOut(stage: Stage, gone: bool, r: nat): seq<Step> {
    var sent := if gone then [] else [SeeFatal(r), Remove(r)];
    match stage
    case Drawn => [Insert(r), Serialize(r), Send(r)] + sent
    case Inserted => [Serialize(r), Send(r)] + sent
    case Sending => [Send(r)] + sent
    case Queued => [SeeFatal(r), Remove(r)]
    case Settling(_) => [Remove(r)]
    case _ => []
  }

  /** Anything but what the write loop does, and but a request's own end by cancellation or
      by a frame that cannot be serialized. */
  predicate WithoutWriter(steps: seq<Step>, r: nat) {
    forall i | 0 <= i < |steps| ::
      && !steps[i].TakeFrame? && !steps[i].WroteFrame? && !steps[i].FailToWrite? && !steps[i].CloseWriter?
      && steps[i] != Cancel(r) && steps[i] != FailToSerialize(r)
  }

  predicate FinishedBy(cap: nat, steps: seq<Step>, r: nat) {
    StageOf(Exec(cap, steps), r).Some? && Finished(StageOf(Exec(cap, steps), r).value)
  }

  /** Past the send a request watches the latch; before it, room in the queue has to come. */
  predicate HasWayOut(s: State, stage: Stage) {
    stage.Queued? || stage.Settling? || CanSend(s)
  }

  /** The first step out, and what it leads to. */
  lemma {:induction false} FirstStepOut(s: State, stage: Stage, r: nat) returns (next: Stage)
    requires Inv(s) && s.fatal.Some? && StageOf(s, r) == Some(stage) && !Finished(stage) && HasWayOut(s, stage)
    ensures WayOut(stage, s.writer.Gone?, r) == [WayOut(stage, s.writer.Gone?, r)[0]] + WayOut(next, s.writer.Gone?, r)
    ensures var t := Apply(s, WayOut(stage, s.writer.Gone?, r)[0]);
            && StageOf(t, r) == Some(next) && t.fatal.Some? && t.writer == s.writer
            && (Finished(next) || HasWayOut(t, next))
    ensures if stage.Settling? then next.Done? && next.outcome == stage.outcome
            else if next.Settling? || next.Done? then next.outcome.Failed? else !Finished(next)
  {
    match stage
    case Drawn => next := Inserted;
    case Inserted => next := Sending;
    case Sending => next := if s.writer.Gone? then Done(Failed(WriterGone), false) else Queued;
    case Queued => next := Settling(Failed(TransportFailed(s.fatal.value)));
    case Settling(outcome) => next := Done(outcome, true);
  }

  lemma {:induction false} WayOutLeadsOut(cap: nat, steps: seq<Step>, r: nat, stage: Stage)
    requires Exec(cap, steps).fatal.Some? && StageOf(Exec(cap, steps), r) == Some(stage) && !Finished(stage)
    requires HasWayOut(Exec(cap, steps), stage)
    ensures var way := WayOut(stage, Exec(cap, steps).writer.Gone?, r);
            && WithoutWriter(way, r) && FinishedBy(cap, steps + way, r)
            && StageOf(Exec(cap, steps + way), r).value.Done?
    ensures var way := WayOut(stage, Exec(cap, steps).writer.Gone?, r);
            var outcome := StageOf(Exec(cap, steps + way), r).value.outcome;
            if stage.Settling? then outcome == stage.outcome else outcome.Failed?
    decreases |WayOut(stage, Exec(cap, steps).writer.Gone?, r)|
  {
    var s := Exec(cap, steps);
    ExecKeeps(cap, steps);
    var way := WayOut(stage, s.writer.Gone?, r);
    var next := FirstStepOut(s, stage, r);
    var rest := WayOut(next, s.writer.Gone?, r);
    ExecOne(cap, steps, way[0]);
    if Finished(next) {
      assert rest == [] && steps + way == steps + [way[0]];
    } else {
      WayOutLeadsOut(cap, steps + [way[0]], r, next);
      OneThenRest(steps, way[0], rest);
    }
  }

  lemma {:induction false} OneThenRest(steps: seq<Step>, first: Step, rest: seq<Step>)
    ensures steps + ([first] + rest) == (steps + [first]) + rest
  {}

  /** Before the send, with neither room nor end of the queue in sight. */
  predicate Blocked(s: State, r: nat) {
    && r < |s.calls| && !CanSend(s)
    && (s.calls[r].stage.Drawn? || s.calls[r].stage.Inserted? || s.calls[r].stage.Sending?)
  }

  lemma {:induction false} StepStaysBlocked(s: State, step: Step, r: nat)
    requires Blocked(s, r) && WithoutWriter([step], r)
    ensures Blocked(Apply(s, step), r)
  {
    assert [step][0] == step;
  }

  lemma {:induction false} StaysBlocked(cap: nat, a: seq<Step>, b: seq<Step>, r: nat)
    requires Blocked(Exec(cap, a), r) && WithoutWriter(b, r)
    ensures Blocked(Exec(cap, a + b), r)
    decreases |b|
  {
    ExecThenResume(cap, a, b);
    if b != [] {
      var front, last := b[..|b| - 1], b[|b| - 1];
      StaysBlocked(cap, a, front, r);
      ExecThenResume(cap, a, front);
      StepStaysBlocked(Exec(cap, a + front), last, r);
    }
  }

  /** Once fatal is set, a request can finish without the write loop exactly when it is past
      the send, or the write queue has room, or the write loop is gone; and then its own next
      steps are enough. */
  lemma {:induction false} FatalLetsOutExactly(cap: nat, steps: seq<Step>, r: nat, stage: Stage)
    requires Exec(cap, steps).fatal.Some? && StageOf(Exec(cap, steps), r) == Some(stage) && !Finished(stage)
    ensures (exists b :: WithoutWriter(b, r) && FinishedBy(cap, steps + b, r)) <==> HasWayOut(Exec(cap, steps), stage)
    ensures HasWayOut(Exec(cap, steps), stage) ==>
              FinishedBy(cap, steps + WayOut(stage, Exec(cap, steps).writer.Gone?, r), r)
  {
    if HasWayOut(Exec(cap, steps), stage) {
      WayOutLeadsOut(cap, steps, r, stage);
    } else {
      forall b | WithoutWriter(b, r) ensures !FinishedBy(cap, steps + b, r) {
        StaysBlocked(cap, steps, b, r);
      }
    }
  }

  /** A frame the peer makes the write loop wait for, and `n` more behind it. */
  function Filling(n: nat): seq<Step> {
    if n == 0 then [SendOther, TakeFrame] else Filling(n - 1) + [SendOther]
  }

  lemma {:induction false} FirstFrameTaken(cap: nat)
    requires cap > 0
    ensures Exec(cap, Filling(0)) == Init(cap).(writer := Writing)
  {
    assert Filling(0) == [] + [SendOther] + [TakeFrame];
    ExecOne(cap, [], SendOther);
    ExecOne(cap, [] + [SendOther], TakeFrame);
  }

  lemma {:induction false} FillingFillsTheQueue(cap: nat, n: nat)
    requires n <= cap && cap > 0
    ensures Exec(cap, Filling(n)) == Init(cap).(writer := Writing, queue := n)
  {
    if n == 0 {
      FirstFrameTaken(cap);
    } else {
      FillingFillsTheQueue(cap, n - 1);
      ExecOne(cap, Filling(n - 1), SendOther);
    }
  }

  /** For every capacity there is a run after which a request is stuck: the peer reads no
      more, the queue is full, and then the peer sends something that is no frame. */
  lemma {:induction false} SomeoneCanBeStuck(cap: nat) returns (steps: seq<Step>)
    requires cap > 0
    ensures var s := Exec(cap, steps);
            && s.reader.Stopped? && s.fatal.Some? && s.writer.Writing? && StageOf(s, 0) == Some(Sending)
            && !exists b :: WithoutWriter(b, 0) && FinishedBy(cap, steps + b, 0)
  {
    var full := Filling(cap);
    FillingFillsTheQueue(cap, cap);
    ExecOne(cap, full, Start);
    ExecOne(cap, full + [Start], Insert(0));
    ExecOne(cap, full + [Start] + [Insert(0)], Serialize(0));
    var sending := full + [Start] + [Insert(0)] + [Serialize(0)];
    var s := Exec(cap, sending);
    assert StageOf(s, 0) == Some(Sending) && s.queue == cap && s.writer.Writing? && s.reader.Reading?;
    ExecOne(cap, sending, ReadBad(BadFrame(NotAnObject)));
    ExecOne(cap, sending + [ReadBad(BadFrame(NotAnObject))], Clear);
    steps := sending + [ReadBad(BadFrame(NotAnObject))] + [Clear];
    FatalLetsOutExactly(cap, steps, 0, Sending);
  }

  lemma {:induction false} StepStaysFinished(s: State, step: Step, r: nat)
    requires StageOf(s, r).Some? && Finished(StageOf(s, r).value)
    ensures StageOf(Apply(s, step), r) == StageOf(s, r)
  {}

  lemma {:induction false} StaysFinished(cap: nat, a: seq<Step>, b: seq<Step>, r: nat)
    requires StageOf(Exec(cap, a), r).Some? && Finished(StageOf(Exec(cap, a), r).value)
    ensures StageOf(Exec(cap, a + b), r) == StageOf(Exec(cap, a), r)
    decreases |b|
  {
    ExecThenResume(cap, a, b);
    if b != [] {
      StaysFinished(cap, a, b[..|b| - 1], r);
      ExecThenResume(cap, a, b[..|b| - 1]);
      StepStaysFinished(Exec(cap, a + b[..|b| - 1]), b[|b| - 1], r);
    }
  }

  function Heard(frames: seq<Incoming>, notifications: bool): seq<Result<Incoming, Fatal>> {
    if frames == [] then []
    else
      var last := frames[|frames| - 1];
      Heard(frames[..|frames| - 1], notifications)
      + if (if notifications then last.Notification? else last.Request?) then [Ok(last)] else []
  }

  function Ending(reader: Reader): seq<Result<Incoming, Fatal>> {
    if reader.Stopped? then [Err(reader.error)] else []
  }

  predicate StreamsExact(s: State) {
    && s.notified == Heard(s.frames, true) + Ending(s.reader)
    && s.asked == Heard(s.frames, false) + Ending(s.reader)
  }

  lemma {:induction false} ReadKeepsStreams(s: State, message: Incoming, listened: bool)
    requires StreamsExact(s) && s.reader.Reading?
    ensures StreamsExact(AfterRead(s, message, listened))
  {
    HeardOneMore(s.frames, message);
    var t := AfterRead(s, message, listened);
    assert !t.reader.Stopped?;
  }

  lemma {:induction false} StepKeepsStreams(s: State, step: Step)
    requires StreamsExact(s)
    ensures StreamsExact(Apply(s, step))
  {
    if Enabled(s, step) {
      match step
      case Read(message, listened) => ReadKeepsStreams(s, message, listened);
      case Insert(_) =>
      case _ =>
    }
  }

  lemma {:induction false} HeardOneMore(frames: seq<Incoming>, message: Incoming)
    ensures Heard(frames + [message], true) == Heard(frames, true) + if message.Notification? then [Ok(message)] else []
    ensures Heard(frames + [message], false) == Heard(frames, false) + if message.Request? then [Ok(message)] else []
  {}

  /** The two streams carry exactly the accepted notifications and server requests, in the
      order they were read, and end with the one error that stopped the read side. */
  lemma {:induction false} StreamsCarryEveryFrame(cap: nat, steps: seq<Step>)
    ensures StreamsExact(Exec(cap, steps))
  {
    if steps != [] {
      StreamsCarryEveryFrame(cap, steps[..|steps| - 1]);
      StepKeepsStreams(Exec(cap, steps[..|steps| - 1]), steps[|steps| - 1]);
    }
  }
}

/** The transport itself: each method is one step, taken on the shared fields. */
module Transport {
  import opened Prelude
  import opened Counters
  import opened JsonValues
  import opened RpcFrames
  import opened TransportSteps
  import opened TransportInvariant
  import opened TransportTheorems

  predicate IsEnding(c: char) {
    c == '\n' || c == '\r'
  }

  /** A line without its endings. */
  function WithoutEndings(line: string): (r: string)
    ensures r <= line && (r != "" ==> !IsEnding(r[|r| - 1]))
    ensures forall i | |r| <= i < |line| :: IsEnding(line[i])
  {
    if line != "" && IsEnding(line[|line| - 1]) then WithoutEndings(line[..|line| - 1]) else line
  }

  /** `trim_line_endings` */
  method TrimLineEndings(line: string) returns (trimmed: string)
    ensures trimmed == WithoutEndings(line)
  {
    trimmed := line;
    while trimmed != "" && IsEnding(trimmed[|trimmed| - 1])
      invariant WithoutEndings(trimmed) == WithoutEndings(line)
      decreases |trimmed|
    {
      trimmed := trimmed[..|trimmed| - 1];
    }
  }

  /** What a line of the peer comes to: a message, or the end of reading. */
  function StepOnLine(frame: Option<Json>, listened: bool): Step {
    match frame
    case None => ReadBad(BadFrame(NotJson))
    case Some(json) =>
      match ParseIncoming(json)
      case Ok(message) => Read(message, listened)
      case Err(why) => ReadBad(BadFrame(why))
  }

  class RpcTransport {
    /** What each request holds: its progress and the receiving end of its oneshot channel. */
    var calls: seq<Call>
    var nextId: nat
    /** Keys and the request whose sender is filed under them. */
    var pending: map<string, nat>
    var fatal: Option<Fatal>
    var version: nat
    var reader: Reader
    var writer: Writer
    const capacity: nat
    /** How many frames wait for the write loop. */
    var queue: nat
    var frames: seq<Incoming>
    var claims: seq<Option<nat>>
    var notified: seq<Result<Incoming, Fatal>>
    var asked: seq<Result<Incoming, Fatal>>
    /** Everything that has happened. */
    ghost var steps: seq<Step>

    ghost function Now(): State
      reads this
    {
      State(calls, nextId, pending, fatal, version, reader, writer, capacity, queue, frames, claims, notified,
            asked)
    }

    /** The fields are where the steps so far lead. */
    ghost predicate Valid()
      reads this
    {
      Now() == Exec(capacity, steps)
    }

    constructor (capacity: nat)
      ensures Valid() && steps == [] && this.capacity == capacity
    {
      this.capacity := capacity;
      calls, nextId, pending, fatal, version, reader, writer, queue := [], 0, map[], None, 0, Reading, Idle, 0;
      frames, claims, notified, asked := [], [], [], [];
      steps := [];
    }

    /** Records that the fields were moved as the step says. */
    ghost method Took(step: Step)
      requires Apply(Exec(capacity, steps), step) == Now()
      modifies this`steps
      ensures Valid() && steps == old(steps) + [step]
    {
      ExecOne(capacity, steps, step);
      steps := steps + [step];
    }

    /** The first lines of `request_value`: no id is drawn once the transport has failed. */
    method StartRequest() returns (started: bool, request: nat)
      requires Valid()
      modifies this
      ensures Valid() && started == old(fatal).None? && request == |old(calls)|
      ensures steps == old(steps) + if started then [Start] else []
    {
      request := |calls|;
      started := fatal.None?;
      if started {
        calls := calls + [Call(Drawn, Empty)];
        nextId := Bump(nextId);
        Took(Start);
      }
    }

    /** Drops the sender under a key, if there is one: its receiver finds the channel closed. */
    method DropSender(key: string)
      requires Valid()
      modifies this`calls, this`pending
      ensures Now() == Evicted(old(Now()), key)
    {
      if key in pending {
        ExecKeeps(capacity, steps);
        var owner := pending[key];
        calls := calls[owner := calls[owner].(slot := Closed)];
        pending := pending - {key};
        assert calls == CloseSlots(old(calls), {owner});
      } else {
        assert pending - {key} == pending && CloseSlots(calls, {}) == calls;
      }
    }

    /** `pending.insert`: a sender already under the key is dropped. */
    method InsertPending(request: nat)
      requires Valid() && StageOf(Now(), request) == Some(Drawn)
      modifies this
      ensures Valid() && steps == old(steps) + [Insert(request)]
    {
      DropSender(KeyAt(request));
      calls := SetStage(calls, request, Inserted);
      pending := pending[KeyAt(request) := request];
      Took(Insert(request));
    }

    method SerializeFrame(request: nat, serializes: bool)
      requires Valid() && StageOf(Now(), request) == Some(Inserted)
      modifies this
      ensures Valid() && steps == old(steps) + [if serializes then Serialize(request) else FailToSerialize(request)]
      ensures pending == old(pending)
    {
      if serializes {
        calls := SetStage(calls, request, Sending);
        Took(Serialize(request));
      } else {
        calls := SetStage(calls, request, Done(Failed(NotSerialized), false));
        Took(FailToSerialize(request));
      }
    }

    /** `write_tx.send` coming back: there is room, or the receiver is gone. The early return
        leaves the key where it is. */
    method SendFrame(request: nat) returns (queued: bool)
      requires Valid() && StageOf(Now(), request) == Some(Sending) && CanSend(Now())
      modifies this
      ensures Valid() && steps == old(steps) + [Send(request)]
      ensures queued == !old(writer).Gone? && pending == old(pending)
    {
      queued := !writer.Gone?;
      if queued {
        queue := queue + 1;
        calls := SetStage(calls, request, Queued);
      } else {
        calls := SetStage(calls, request, Done(Failed(WriterGone), false));
      }
      Took(Send(request));
    }

    /** The wait ends with what the channel holds. */
    method TakeResponse(request: nat)
      requires Valid() && StageOf(Now(), request) == Some(Queued) && calls[request].slot != Empty
      modifies this
      ensures Valid() && steps == old(steps) + [TakeReply(request)]
    {
      calls := SetStage(calls, request, Settling(ReplyOutcome(calls[request].slot)));
      Took(TakeReply(request));
    }

    method ExpireRequest(request: nat)
      requires Valid() && StageOf(Now(), request) == Some(Queued)
      modifies this
      ensures Valid() && steps == old(steps) + [TimeOut(request)]
    {
      calls := SetStage(calls, request, Settling(Failed(TimedOut)));
      Took(TimeOut(request));
    }

    /** `fatal_rx.changed()` comes back. Its error and an empty latch cannot happen. */
    method NoticeFatal(request: nat)
      requires Valid() && StageOf(Now(), request) == Some(Queued) && (version > 0 || WatchAbandoned(Now()))
      modifies this
      ensures Valid() && steps == old(steps) + [SeeFatal(request)]
      ensures fatal.Some? && StageOf(Now(), request) == Some(Settling(Failed(TransportFailed(fatal.value))))
    {
      ExecKeeps(capacity, steps);
      SeeFatalKeeps(Now(), request);
      if version == 0 {
        assert false;
      } else if fatal.None? {
        assert false;
      } else {
        calls := SetStage(calls, request, Settling(Failed(TransportFailed(fatal.value))));
      }
      Took(SeeFatal(request));
    }

    /** The removal of the key, and the return of `request_value`. A returned value is the
        result of a frame that answered this very request, and no key is left behind. */
    method FinishRequest(request: nat) returns (outcome: Outcome)
      requires Valid() && request < |calls| && calls[request].stage.Settling?
      modifies this
      ensures Valid() && steps == old(steps) + [Remove(request)]
      ensures outcome == old(calls)[request].stage.outcome && request !in pending.Values
      ensures outcome.Returned? ==>
                exists f :: 0 <= f < |frames| && f < |claims| && claims[f] == Some(request)
                  && Answers(frames[f], KeyAt(request)) && frames[f].result == Ok(outcome.value)
    {
      outcome := calls[request].stage.outcome;
      DropSender(KeyAt(request));
      calls := SetStage(calls, request, Done(outcome, true));
      Took(Remove(request));
      QueuedRequestLeavesNoKey(capacity, steps, request);
      if outcome.Returned? {
        ReturnedValueCameFromOwnResponse(capacity, steps, request, outcome.value);
      }
    }

    /** The caller drops the request's future. */
    method CancelRequest(request: nat)
      requires Valid() && request < |calls| && !Finished(calls[request].stage)
      modifies this
      ensures Valid() && steps == old(steps) + [Cancel(request)] && pending == old(pending)
    {
      calls := SetStage(calls, request, Cancelled(!calls[request].stage.Drawn?));
      Took(Cancel(request));
    }

    /** The body of the read loop on one line: its endings are trimmed, and nothing happens on
        a blank one. `readJson` reads JSON text. */
    method HandleLine(line: string, readJson: string -> Option<Json>, listened: bool)
      requires Valid() && reader.Reading?
      modifies this
      ensures Valid()
      ensures steps == old(steps) + if WithoutEndings(line) == "" then []
                                    else [StepOnLine(readJson(WithoutEndings(line)), listened)]
    {
      var trimmed := TrimLineEndings(line);
      if trimmed == "" {
        return;
      }
      match readJson(trimmed)
      case Some(frame) => HandleIncomingFrame(frame, listened);
      case None => StopReading(BadFrame(NotJson));
    }

    /** `handle_incoming_line` on a line that is JSON; `listened` says whether the stream the
        message is for still has a receiver. */
    method HandleIncomingFrame(frame: Json, listened: bool)
      requires Valid() && reader.Reading?
      modifies this
      ensures Valid()
      ensures steps == old(steps) + [StepOnLine(Some(frame), listened)]
    {
      match ParseIncoming(frame)
      case Ok(message) => HandleIncomingMessage(message, listened);
      case Err(why) => StopReading(BadFrame(why));
    }

    /** `handle_incoming_message`, up to the sending of a response to its request. */
    method HandleIncomingMessage(message: Incoming, listened: bool)
      requires Valid() && reader.Reading?
      modifies this
      ensures Valid() && steps == old(steps) + [Read(message, listened)]
    {
      ghost var step := Read(message, listened);
      if !message.Response? && !listened {
        StartFailing(StreamDropped);
        Took(step);
        return;
      }
      frames := frames + [message];
      var key := if message.Response? then RequestKey(message.id) else None;
      if key.Some? && key.value in pending {
        claims := claims + [Some(pending[key.value])];
        reader := Delivering(pending[key.value], |frames| - 1);
        pending := pending - {key.value};
      } else {
        claims := claims + [None];
        match message {
        case Notification(_, _) => notified := notified + [Ok(message)];
        case Request(_, _, _) => asked := asked + [Ok(message)];
        case Response(_, _) => StartFailing(if key.None? then NullResponseId else UnknownResponseId(key.value));
        }
      }
      Took(step);
    }

    /** `sender.send(result)`: lost when the request is over. */
    method DeliverResponse()
      requires Valid() && reader.Delivering?
      modifies this
      ensures Valid() && steps == old(steps) + [Deliver] && reader.Reading?
    {
      ExecKeeps(capacity, steps);
      var request, frame := reader.call, reader.frame;
      assert Taken(Now(), claims[frame].value);
      if calls[request].slot.Empty? && !Finished(calls[request].stage) {
        calls := calls[request := Call(calls[request].stage, Filled(frames[frame].result, frame))];
      }
      reader := Reading;
      Took(Deliver);
    }

    /** `fatal_tx.send` on the read side. */
    method StartFailing(error: Fatal)
      modifies this`fatal, this`version, this`reader
      ensures Now() == Signal(old(Now()), error)
    {
      fatal, version, reader := Some(error), version + 1, Clearing(error);
    }

    /** A line that is no frame, or no line at all. */
    method StopReading(error: Fatal)
      requires Valid() && reader.Reading?
      modifies this
      ensures Valid() && steps == old(steps) + [ReadBad(error)]
    {
      StartFailing(error);
      Took(ReadBad(error));
    }

    /** The rest of `signal_fatal`: `pending` is cleared, which drops every sender in it. */
    method ClearPending()
      requires Valid() && reader.Clearing?
      modifies this
      ensures Valid() && steps == old(steps) + [Clear] && pending == map[]
    {
      var error := reader.error;
      calls := CloseSlots(calls, pending.Values);
      pending := map[];
      notified, asked := notified + [Err(error)], asked + [Err(error)];
      reader := Stopped(error);
      Took(Clear);
    }

    /** `notify` or `respond` coming back with its frame queued. */
    method SendOtherFrame()
      requires Valid() && queue < capacity && !writer.Gone?
      modifies this
      ensures Valid() && steps == old(steps) + [SendOther]
    {
      queue := queue + 1;
      Took(SendOther);
    }

    /** `write_rx.recv` hands out a frame. */
    method TakeFrameToWrite()
      requires Valid() && writer.Idle? && queue > 0
      modifies this
      ensures Valid() && steps == old(steps) + [TakeFrame]
    {
      writer, queue := Writing, queue - 1;
      Took(TakeFrame);
    }

    /** The end of a write: on to the next frame, or the latch, and the queue later. */
    method EndWrite(written: bool)
      requires Valid() && writer.Writing?
      modifies this
      ensures Valid() && steps == old(steps) + [if written then WroteFrame else FailToWrite]
      ensures !written ==> fatal == Some(WriteFailed)
    {
      if written {
        writer := Idle;
        Took(WroteFrame);
      } else {
        fatal, version, writer := Some(WriteFailed), version + 1, Failing;
        Took(FailToWrite);
      }
    }

    method CloseWriteQueue()
      requires Valid() && writer.Failing?
      modifies this
      ensures Valid() && steps == old(steps) + [CloseWriter]
    {
      writer, queue := Gone, 0;
      Took(CloseWriter);
    }
  }
}
