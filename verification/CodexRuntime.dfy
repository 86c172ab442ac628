// One streamed turn of the Codex provider (crates/arky-codex/src/provider.rs and
// accumulator.rs): normalized notifications in, protocol events out.

/** What the runtime does with one notification, on values. */
module CodexTurns {
  import opened Prelude
  import opened JsonValues
  import opened AgentEvents
  import StableJsonText

  datatype ToolRuntimeState = ToolRuntimeState(call: ToolCall, output: string)

  datatype Note =
    | Ignored
    | MessageStarted(snapshot: Option<string>)
    | MessageDelta(delta: string)
    | MessageComplete(snapshot: Option<string>)
    | ReasoningStarted(id: string)
    | ReasoningAdded(id: string, text: string)
    | ReasoningFinished(id: string, fullText: Option<string>)
    | ToolStart(id: string, name: string, input: Value, parent: Option<string>)
    | ToolUpdate(id: string, name: string, partial: Json)
    | ToolComplete(id: string, name: string, result: Option<Value>, isError: bool)
    | UsageUpdated
    | TurnCompleted
    | TurnFailed(message: string)

  datatype Turn = Turn(
    message: Message,
    tools: map<string, ToolRuntimeState>,
    results: seq<ToolResult>,
    reasoning: map<string, string>,
    started: bool,
    ended: bool,
    finished: bool)

  const NEW_TURN: Turn := Turn([], map[], [], map[], false, false, false)

  /** `push_delta` */
  function PushDelta(message: Message, delta: string): Message {
    if delta == "" then message else AppendText(message, delta)
  }

  /** `apply_snapshot` */
  function Snapshot(message: Message, snapshot: Option<string>): Message {
    match snapshot
    case None => message
    case Some(text) => if text == "" then [] else [TextBlock(text)]
  }

  /** `stringify_value` */
  function Stringify(value: Json): string {
    match value
    case JString(text) => text
    case other => StableJsonText.StableJson(other)
  }

  function AsContent(value: Value): ToolContent {
    match value
    case String(text) => TextContent(text)
    case other => JsonContent(other)
  }

  function StreamedContent(output: string): seq<ToolContent> {
    if output == "" then [] else [TextContent(output)]
  }

  /** `ToolTracker::complete`, for a tool that is open and for one that is not. */
  function Completed(tools: map<string, ToolRuntimeState>, id: string, name: string, result: Option<Value>,
          isError: bool): ToolResult {
    var own := match result case Some(value) => [AsContent(value)] case None => [];
    if id in tools then
      var state := tools[id];
      var content := StreamedContent(state.output) + own;
      ToolResult(state.call.id, state.call.name, if content == [] then [JsonContent(Object(map[]))] else content,
          isError,
                 state.call.parent)
    else ToolResult(id, name, if own == [] then [JsonContent(Object(map[]))] else own, isError, None)
  }

  /** The failure reported for a tool still open at the end. */
  function OpenFailure(state: ToolRuntimeState): ToolResult {
    ToolResult(state.call.id, state.call.name,
               StreamedContent(state.output) + [TextContent("Tool call finished without a completion event")], true,
               state.call.parent)
  }

  /** `drain` lists the open tools once each, in whatever order the map gives them up. */
  predicate Drains(tools: map<string, ToolRuntimeState>, drain: seq<string>) {
    && (forall i | 0 <= i < |drain| :: drain[i] in tools)
    && (forall i, j | 0 <= i < j < |drain| :: drain[i] != drain[j])
    && (forall id | id in tools :: id in drain)
  }

  function OpenFailures(tools: map<string, ToolRuntimeState>, drain: seq<string>): seq<ToolResult>
    requires forall i | 0 <= i < |drain| :: drain[i] in tools
  {
    seq(|drain|, i requires 0 <= i < |drain| => OpenFailure(tools[drain[i]]))
  }

  function ContentValue(item: ToolContent): Value {
    match item
    case TextContent(text) => String(text)
    case JsonContent(value) => value
  }

  /** `tool_result_to_value` */
  function ResultValue(result: ToolResult): Value {
    Object(map["id" := String(result.id), "name" := String(result.name),
               "content" := Array(seq(|result.content|,
                   i requires 0 <= i < |result.content| => ContentValue(result.content[i]))),
               "isError" := Bool(result.isError)])
  }

  function EndOf(result: ToolResult): AgentEvent {
    ToolExecutionEnd(result.id, result.name, ResultValue(result), result.isError)
  }

  function EndsOf(results: seq<ToolResult>): (ends: seq<AgentEvent>)
    ensures |ends| == |results| && forall i | 0 <= i < |ends| :: ends[i] == EndOf(results[i])
  {
    seq(|results|, i requires 0 <= i < |results| => EndOf(results[i]))
  }

  function Begin(s: Turn): (Turn, seq<AgentEvent>) {
    if s.started then (s, []) else (s.(started := true), [MessageStart(s.message)])
  }

  function EndMessage(s: Turn): (Turn, seq<AgentEvent>) {
    if s.ended then (s, []) else (s.(ended := true), [MessageEnd(s.message)])
  }

  /** `finalize_open_state` */
  function FinalizeOpen(s: Turn, drain: seq<string>): (Turn, seq<AgentEvent>)
    requires Drains(s.tools, drain)
  {
    if s.finished then (s, [])
    else
      var failures := OpenFailures(s.tools, drain);
      var t := s.(tools := map[], results := s.results + failures);
      if t.started && !t.ended then (t.(ended := true), EndsOf(failures) + [MessageEnd(t.message)])
      else (t, EndsOf(failures))
  }

  function OnMessageStarted(s: Turn, snapshot: Option<string>): (Turn, seq<AgentEvent>) {
    Begin(s.(message := Snapshot(s.message, snapshot)))
  }

  function OnToolStart(s: Turn, id: string, name: string, input: Value, parent: Option<string>): (Turn,
          seq<AgentEvent>) {
    (s.(tools := s.tools[id := ToolRuntimeState(ToolCall(id, name, input, parent), "")]),
     [ToolExecutionStart(id, name, input)])
  }

  function OnMessageDelta(s: Turn, delta: string): (Turn, seq<AgentEvent>) {
    var (t, begin) := Begin(s);
    var message := PushDelta(t.message, delta);
    (t.(message := message), begin + [MessageUpdate(message, TextAdded(delta))])
  }

  function OnMessageComplete(s: Turn, snapshot: Option<string>): (Turn, seq<AgentEvent>) {
    var (t, begin) := Begin(s.(message := Snapshot(s.message, snapshot)));
    var (u, end) := EndMessage(t);
    (u, begin + end)
  }

  function OutputOf(tools: map<string, ToolRuntimeState>, id: string): string {
    if id in tools then tools[id].output else ""
  }

  function OnToolUpdate(s: Turn, id: string, name: string, partial: Json): (Turn, seq<AgentEvent>) {
    var call := if id in s.tools then s.tools[id].call else ToolCall(id, name, Null, None);
    (s.(tools := s.tools[id := ToolRuntimeState(call, OutputOf(s.tools, id) + Stringify(partial))]),
     [ToolExecutionUpdate(id, name, Output(Denote(partial)))])
  }

  function OnToolComplete(s: Turn, id: string, name: string, result: Option<Value>, isError: bool): (Turn,
          seq<AgentEvent>) {
    var completed := Completed(s.tools, id, name, result, isError);
    (s.(tools := s.tools - {id}, results := s.results + [completed]), [EndOf(completed)])
  }

  function OnTurnCompleted(s: Turn, drain: seq<string>): (Turn, seq<AgentEvent>)
    requires Drains(s.tools, drain)
  {
    var (t, events) := FinalizeOpen(s, drain);
    (t.(finished := true), events + [TurnEnd(t.message, t.results)])
  }

  /** `handle_notification`; a failed turn is an error. */
  function Handle(s: Turn, note: Note, drain: seq<string>): Option<(Turn, seq<AgentEvent>)>
    requires Drains(s.tools, drain)
  {
    match note
    case Ignored => Some((s, []))
    case MessageStarted(snapshot) => Some(OnMessageStarted(s, snapshot))
    case MessageDelta(delta) => Some(OnMessageDelta(s, delta))
    case MessageComplete(snapshot) => Some(OnMessageComplete(s, snapshot))
    case ReasoningStarted(id) =>
      Some((if id in s.reasoning then s else s.(reasoning := s.reasoning[id := ""]), [ReasoningStart(id)]))
    case ReasoningAdded(id, text) =>
      var before := if id in s.reasoning then s.reasoning[id] else "";
      Some((s.(reasoning := s.reasoning[id := before + text]),
            (if id in s.reasoning then [] else [ReasoningStart(id)]) + [ReasoningDelta(id, text)]))
    case ReasoningFinished(id, fullText) =>
      var kept := if id in s.reasoning then s.reasoning[id] else "";
      Some((s.(reasoning := s.reasoning - {id}),
            [ReasoningComplete(id, match fullText case Some(text) => text case None => kept)]))
    case ToolStart(id, name, input, parent) =>
      Some(OnToolStart(s, id, name, input, parent))
    case ToolUpdate(id, name, partial) => Some(OnToolUpdate(s, id, name, partial))
    case ToolComplete(id, name, result, isError) => Some(OnToolComplete(s, id, name, result, isError))
    case UsageUpdated => Some((s, []))
    case TurnCompleted => Some(OnTurnCompleted(s, drain))
    case TurnFailed(_) => None
  }

  /** A notification and the order in which the map would give up its open tools. */
  datatype Input = Input(note: Note, drain: seq<string>)

  predicate Possible(s: Turn, input: Input) {
    Drains(s.tools, input.drain) && (input.note.ToolUpdate? ==> Valid(input.note.partial))
  }

  /** The loop of `build_stream` up to its break: nothing is handled once the turn is
      finished or has failed. Inputs with an impossible drain order, or with a payload no
      JSON value has, do not occur. */
  function Run(inputs: seq<Input>): Option<(Turn, seq<AgentEvent>)> {
    if inputs == [] then Some((NEW_TURN, [TurnStart]))
    else
      match Run(inputs[..|inputs| - 1])
      case None => None
      case Some((s, trace)) =>
        var input := inputs[|inputs| - 1];
        if s.finished || !Possible(s, input) then Some((s, trace))
        else
          match Handle(s, input.note, input.drain)
          case None => None
          case Some((t, emitted)) => Some((t, trace + emitted))
  }
}

/** The order and content of the events of a turn. */
module CodexGrammar {
  import opened Prelude
  import opened JsonValues
  import opened AgentEvents
  import opened EventReading
  import opened CodexTurns
  import StableJsonText

  /** What an update's payload adds to a tool's output. */
  ghost function Fragment(value: Value): string {
    match value
    case String(text) => text
    case other => StableJsonText.ValueText(other)
  }

  lemma {:induction false} FragmentIsStringify(partial: Json)
    requires Valid(partial)
    ensures Fragment(Denote(partial)) == Stringify(partial)
  {
    StableJsonText.StableJsonIsValueText(partial);
  }

  /** A reader of the stream: the text streamed by each open tool, whether the message has
      started and ended, the tool ends so far, and whether the turn is over. */
  datatype Reader = Reader(open: map<string, string>, started: bool, ended: bool, ends: seq<AgentEvent>, done: bool)

  const NEW_READER: Reader := Reader(map[], false, false, [], false)

  function OpenText(g: Reader, id: string): string {
    if id in g.open then g.open[id] else ""
  }

  /** The items of a result's content. */
  function ContentOf(result: Value): seq<Value> {
    if result.Object? && "content" in result.fields && result.fields["content"].Array?
    then result.fields["content"].items else []
  }

  /** The streamed text as a first item, if there is any. */
  function TextItem(text: string): seq<Value> {
    if text == "" then [] else [String(text)]
  }

  /** The result's content is the streamed text, if there is any, with at most one item after
      it, and is never empty. */
  predicate Streams(result: Value, text: string) {
    && TextItem(text) <= ContentOf(result) && ContentOf(result) != []
    && |ContentOf(result)| <= |TextItem(text)| + 1
  }

  /** What may come next: nothing after the turn's end; an end reports what its tool
      streamed; the message starts once and ends once; the turn ends with no tool open, the
      message ended if it started, and exactly the reported ends as its results. */
  ghost function ReadOne(g: Reader, e: AgentEvent): Option<Reader> {
    if g.done then None
    else
      match e
      case ToolExecutionStart(id, _, _) => Some(g.(open := g.open[id := ""]))
      case ToolExecutionUpdate(id, _, Output(value)) => Some(g.(open := g.open[id := OpenText(g, id)
          + Fragment(value)]))
      case ToolExecutionEnd(id, _, result, _) =>
        if Streams(result, OpenText(g, id)) then Some(g.(open := g.open - {id}, ends := g.ends + [e])) else None
      case MessageStart(_) => if g.started then None else Some(g.(started := true))
      case MessageUpdate(_, _) => if g.started then Some(g) else None
      case MessageEnd(_) => if g.started && !g.ended then Some(g.(ended := true)) else None
      case TurnEnd(_, results) =>
        if g.open == map[] && (g.started ==> g.ended) && EndsOf(results) == g.ends then Some(g.(done := true)) else None
      case _ => Some(g)
  }

  ghost function Read(g: Reader, trace: seq<AgentEvent>): Option<Reader> {
    ReadAll(ReadOne, g, trace)
  }

  function Outputs(tools: map<string, ToolRuntimeState>): map<string, string> {
    map id | id in tools :: tools[id].output
  }

  predicate InStep(s: Turn, g: Reader) {
    && g == Reader(Outputs(s.tools), s.started, s.ended, EndsOf(s.results), s.finished)
    && (s.ended ==> s.started)
    && forall id | id in s.tools :: s.tools[id].call.id == id
  }

  /** The reader accepts what a step emits and is in step with the turn after it. */
  ghost predicate Kept(g: Reader, step: (Turn, seq<AgentEvent>)) {
    Read(g, step.1).Some? && InStep(step.0, Read(g, step.1).value)
  }

  lemma {:induction false} CompletedStreams(tools: map<string, ToolRuntimeState>, id: string, name: string,
                                            result: Option<Value>, isError: bool)
    ensures Streams(ResultValue(Completed(tools, id, name, result, isError)), OutputOf(tools, id))
  {}

  lemma {:induction false} OpenFailureStreams(state: ToolRuntimeState)
    ensures Streams(ResultValue(OpenFailure(state)), state.output)
  {}

  lemma {:induction false} EndsOfSnoc(results: seq<ToolResult>, last: ToolResult)
    ensures EndsOf(results + [last]) == EndsOf(results) + [EndOf(last)]
  {}

  lemma {:induction false} EndsOfConcat(a: seq<ToolResult>, b: seq<ToolResult>)
    ensures EndsOf(a + b) == EndsOf(a) + EndsOf(b)
  {}

  lemma {:induction false} ToolCompleteInStep(s: Turn, g: Reader, id: string, name: string, result: Option<Value>,
          isError: bool)
    requires InStep(s, g) && !s.finished
    ensures Kept(g, OnToolComplete(s, id, name, result, isError))
  {
    var completed := Completed(s.tools, id, name, result, isError);
    CompletedStreams(s.tools, id, name, result, isError);
    ReadSingle(ReadOne, g, EndOf(completed));
    EndsOfSnoc(s.results, completed);
    assert Outputs(s.tools) - {id} == Outputs(s.tools - {id});
  }

  function Members(drain: seq<string>): set<string> {
    set id | id in drain
  }

  /** An end of an open tool that reports what the tool streamed. */
  predicate FairEnd(g: Reader, id: string, e: AgentEvent) {
    id in g.open && e.ToolExecutionEnd? && e.id == id && Streams(e.result, g.open[id])
  }

  /** Ends of distinct open tools, in whatever order, close exactly those tools. */
  lemma {:induction false} EndsCloseTools(g: Reader, ids: seq<string>, ends: seq<AgentEvent>)
    requires |ids| == |ends| && !g.done
    requires forall i | 0 <= i < |ids| :: FairEnd(g, ids[i], ends[i])
    requires forall i, j | 0 <= i < j < |ids| :: ids[i] != ids[j]
    ensures Read(g, ends) == Some(g.(open := g.open - Members(ids), ends := g.ends + ends))
    decreases |ids|
  {
    if ids == [] {
      assert Members(ids) == {} && ends == [] && g.ends + ends == g.ends;
      assert g.open - {} == g.open;
    } else {
      var n := |ids| - 1;
      var front, last := ends[..n], ends[n];
      EndsCloseTools(g, ids[..n], front);
      assert ends == front + [last];
      ReadSnoc(ReadOne, g, front, last);
      OneMoreClosed(g, ids, front, last);
    }
  }

  lemma {:induction false} OneMoreClosed(g: Reader, ids: seq<string>, front: seq<AgentEvent>, last: AgentEvent)
    requires ids != [] && !g.done && FairEnd(g, ids[|ids| - 1], last)
    requires forall i | 0 <= i < |ids| - 1 :: ids[i] != ids[|ids| - 1]
    ensures ReadOne(g.(open := g.open - Members(ids[..|ids| - 1]), ends := g.ends + front), last)
         == Some(g.(open := g.open - Members(ids), ends := g.ends + (front + [last])))
  {
    var n := |ids| - 1;
    assert Members(ids) == Members(ids[..n]) + {ids[n]} && ids[n] !in Members(ids[..n]);
    assert g.open - Members(ids) == (g.open - Members(ids[..n])) - {ids[n]};
    assert g.ends + (front + [last]) == (g.ends + front) + [last];
  }

  lemma {:induction false} FailuresAreFair(s: Turn, g: Reader, drain: seq<string>)
    requires InStep(s, g) && Drains(s.tools, drain)
    ensures var ends := EndsOf(OpenFailures(s.tools, drain));
            forall i | 0 <= i < |drain| :: FairEnd(g, drain[i], ends[i])
  {
    forall i | 0 <= i < |drain| ensures FairEnd(g, drain[i], EndsOf(OpenFailures(s.tools, drain))[i]) {
      OpenFailureStreams(s.tools[drain[i]]);
    }
  }

  function CloseTools(s: Turn, drain: seq<string>): (Turn, seq<AgentEvent>)
    requires Drains(s.tools, drain)
  {
    var failures := OpenFailures(s.tools, drain);
    (s.(tools := map[], results := s.results + failures), EndsOf(failures))
  }

  lemma {:induction false} CloseToolsInStep(s: Turn, g: Reader, drain: seq<string>)
    requires InStep(s, g) && !s.finished && Drains(s.tools, drain)
    ensures Kept(g, CloseTools(s, drain))
  {
    var failures := OpenFailures(s.tools, drain);
    FailuresAreFair(s, g, drain);
    EndsCloseTools(g, drain, EndsOf(failures));
    EndsOfConcat(s.results, failures);
    assert g.open - Members(drain) == map[];
  }

  lemma {:induction false} FinalizeInStep(s: Turn, g: Reader, drain: seq<string>)
    requires InStep(s, g) && !s.finished && Drains(s.tools, drain)
    ensures Kept(g, FinalizeOpen(s, drain))
    ensures var t := FinalizeOpen(s, drain).0; t.tools == map[] && (t.started ==> t.ended) && !t.finished
  {
    CloseToolsInStep(s, g, drain);
    var (closed, ends) := CloseTools(s, drain);
    FinalizeShape(s, drain);
    if closed.started && !closed.ended {
      ReadSnoc(ReadOne, g, ends, MessageEnd(closed.message));
    }
  }

  lemma {:induction false} FinalizeShape(s: Turn, drain: seq<string>)
    requires !s.finished && Drains(s.tools, drain)
    ensures var (closed, ends) := CloseTools(s, drain);
            FinalizeOpen(s, drain) == if closed.started && !closed.ended
                                      then (closed.(ended := true), ends + [MessageEnd(closed.message)])
                                          else (closed, ends)
  {}

  lemma {:induction false} TurnCompletedInStep(s: Turn, g: Reader, drain: seq<string>)
    requires InStep(s, g) && !s.finished && Drains(s.tools, drain)
    ensures Kept(g, OnTurnCompleted(s, drain))
  {
    FinalizeInStep(s, g, drain);
    var (t, events) := FinalizeOpen(s, drain);
    var end := TurnEnd(t.message, t.results);
    ReadSnoc(ReadOne, g, events, end);
  }

  lemma {:induction false} BeginInStep(s: Turn, g: Reader)
    requires InStep(s, g) && !s.finished
    ensures var (t, begin) := Begin(s); Read(g, begin) == Some(g.(started := true)) && InStep(t, g.(started := true))
  {
    ReadSingle(ReadOne, g, MessageStart(s.message));
  }

  lemma {:induction false} MessageDeltaInStep(s: Turn, g: Reader, delta: string)
    requires InStep(s, g) && !s.finished
    ensures Kept(g, OnMessageDelta(s, delta))
  {
    BeginInStep(s, g);
    var (b, begin) := Begin(s);
    var update := MessageUpdate(PushDelta(b.message, delta), TextAdded(delta));
    ReadSingle(ReadOne, g.(started := true), update);
    ReadConcat(ReadOne, g, begin, [update]);
  }

  lemma {:induction false} MessageCompleteInStep(s: Turn, g: Reader, snapshot: Option<string>)
    requires InStep(s, g) && !s.finished
    ensures Kept(g, OnMessageComplete(s, snapshot))
  {
    var r := s.(message := Snapshot(s.message, snapshot));
    BeginInStep(r, g);
    var (b, begin) := Begin(r);
    MessageCompleteShape(s, snapshot);
    if !b.ended {
      ReadSnoc(ReadOne, g, begin, MessageEnd(b.message));
    }
  }

  lemma {:induction false} MessageCompleteShape(s: Turn, snapshot: Option<string>)
    ensures var (b, begin) := Begin(s.(message := Snapshot(s.message, snapshot)));
            OnMessageComplete(s, snapshot) == if b.ended then (b, begin)
                else (b.(ended := true), begin + [MessageEnd(b.message)])
  {
    var (_, begin) := Begin(s.(message := Snapshot(s.message, snapshot)));
    assert begin + [] == begin;
  }

  lemma {:induction false} ToolUpdateInStep(s: Turn, g: Reader, id: string, name: string, partial: Json)
    requires InStep(s, g) && !s.finished && Valid(partial)
    ensures Kept(g, OnToolUpdate(s, id, name, partial))
  {
    var (t, emitted) := OnToolUpdate(s, id, name, partial);
    FragmentIsStringify(partial);
    ReadSingle(ReadOne, g, emitted[0]);
    assert Outputs(t.tools) == Outputs(s.tools)[id := OpenText(g, id) + Fragment(Denote(partial))];
  }

  lemma {:induction false} ToolStartInStep(s: Turn, g: Reader, id: string, name: string, input: Value,
          parent: Option<string>)
    requires InStep(s, g) && !s.finished
    ensures Kept(g, OnToolStart(s, id, name, input, parent))
  {
    var (t, _) := OnToolStart(s, id, name, input, parent);
    ReadSingle(ReadOne, g, ToolExecutionStart(id, name, input));
    assert Outputs(t.tools) == Outputs(s.tools)[id := ""];
  }

  predicate Neutral(e: AgentEvent) {
    e.TurnStart? || e.Custom? || e.ReasoningStart? || e.ReasoningDelta? || e.ReasoningComplete?
  }

  lemma {:induction false} ReadNeutral(g: Reader, events: seq<AgentEvent>)
    requires !g.done && forall i | 0 <= i < |events| :: Neutral(events[i])
    ensures Read(g, events) == Some(g)
  {
    if events != [] {
      ReadNeutral(g, events[..|events| - 1]);
    }
  }

  predicate Quiet(note: Note) {
    note.Ignored? || note.UsageUpdated? || note.ReasoningStarted? || note.ReasoningAdded? || note.ReasoningFinished?
  }

  lemma {:induction false} QuietInStep(s: Turn, g: Reader, input: Input)
    requires InStep(s, g) && !s.finished && Possible(s, input) && Quiet(input.note)
    ensures Handle(s, input.note, input.drain).Some? && Kept(g, Handle(s, input.note, input.drain).value)
  {
    ReadNeutral(g, Handle(s, input.note, input.drain).value.1);
  }

  lemma {:induction false} HandleInStep(s: Turn, g: Reader, input: Input)
    requires InStep(s, g) && !s.finished && Possible(s, input) && Handle(s, input.note, input.drain).Some?
    ensures Kept(g, Handle(s, input.note, input.drain).value)
  {
    match input.note
    case MessageStarted(snapshot) => BeginInStep(s.(message := Snapshot(s.message, snapshot)), g);
    case MessageDelta(delta) => MessageDeltaInStep(s, g, delta);
    case MessageComplete(snapshot) => MessageCompleteInStep(s, g, snapshot);
    case ToolStart(id, name, args, parent) => ToolStartInStep(s, g, id, name, args, parent);
    case ToolUpdate(id, name, partial) => ToolUpdateInStep(s, g, id, name, partial);
    case ToolComplete(id, name, result, isError) => ToolCompleteInStep(s, g, id, name, result, isError);
    case TurnCompleted => TurnCompletedInStep(s, g, input.drain);
    case _ => QuietInStep(s, g, input);
  }

  /** Every run that has not failed emits a stream the reader accepts. */
  lemma {:induction false} RunsFollowTheGrammar(inputs: seq<Input>)
    requires Run(inputs).Some?
    ensures Read(NEW_READER, Run(inputs).value.1).Some?
    ensures InStep(Run(inputs).value.0, Read(NEW_READER, Run(inputs).value.1).value)
  {
    if inputs == [] {
      ReadSingle(ReadOne, NEW_READER, TurnStart);
      assert Outputs(NEW_TURN.tools) == map[];
    } else {
      var input := inputs[|inputs| - 1];
      RunsFollowTheGrammar(inputs[..|inputs| - 1]);
      var (s, trace) := Run(inputs[..|inputs| - 1]).value;
      if !s.finished && Possible(s, input) {
        HandleInStep(s, Read(NEW_READER, trace).value, input);
        ReadConcat(ReadOne, NEW_READER, trace, Handle(s, input.note, input.drain).value.1);
      }
    }
  }

  // What the reader's acceptance means for the stream itself.

  predicate MessageStartedIn(trace: seq<AgentEvent>) {
    exists i | 0 <= i < |trace| :: trace[i].MessageStart?
  }

  predicate MessageEndedIn(trace: seq<AgentEvent>) {
    exists i | 0 <= i < |trace| :: trace[i].MessageEnd?
  }

  /** The tool ends of a stream, in order. */
  function ToolEnds(trace: seq<AgentEvent>): seq<AgentEvent> {
    if trace == [] then []
    else
      ToolEnds(trace[..|trace| - 1]) + if trace[|trace| - 1].ToolExecutionEnd? then [trace[|trace| - 1]] else []
  }

  /** The text a tool streamed since its last start or end. */
  ghost function StreamedBy(trace: seq<AgentEvent>, id: string): string {
    if trace == [] then ""
    else
      var before := StreamedBy(trace[..|trace| - 1], id);
      match trace[|trace| - 1]
      case ToolExecutionStart(i, _, _) => if i == id then "" else before
      case ToolExecutionEnd(i, _, _, _) => if i == id then "" else before
      case ToolExecutionUpdate(i, _, Output(value)) => if i == id then before + Fragment(value) else before
      case _ => before
  }

  /** A start of `id` with no end of it so far. */
  predicate LeftOpen(trace: seq<AgentEvent>, id: string) {
    exists i :: 0 <= i < |trace| && trace[i].ToolExecutionStart? && trace[i].id == id && NoEndAfter(trace, i, id)
  }

  predicate NoEndAfter(trace: seq<AgentEvent>, i: nat, id: string) {
    forall j | i < j < |trace| :: !(trace[j].ToolExecutionEnd? && trace[j].id == id)
  }

  lemma {:induction false} ReaderKnowsTexts(trace: seq<AgentEvent>, id: string)
    requires Read(NEW_READER, trace).Some?
    ensures OpenText(Read(NEW_READER, trace).value, id) == StreamedBy(trace, id)
    ensures Read(NEW_READER, trace).value.ends == ToolEnds(trace)
  {
    if trace != [] {
      ReaderKnowsTexts(trace[..|trace| - 1], id);
      assert ToolEnds(trace[..|trace| - 1]) + [] == ToolEnds(trace[..|trace| - 1]);
    }
  }

  lemma {:induction false} ReaderKnowsFlags(trace: seq<AgentEvent>)
    requires Read(NEW_READER, trace).Some?
    ensures Read(NEW_READER, trace).value.started <==> MessageStartedIn(trace)
    ensures Read(NEW_READER, trace).value.ended <==> MessageEndedIn(trace)
    ensures Read(NEW_READER, trace).value.done <==> trace != [] && trace[|trace| - 1].TurnEnd?
    ensures forall i | 0 <= i < |trace| - 1 :: !trace[i].TurnEnd?
  {
    if trace != [] {
      var front := trace[..|trace| - 1];
      ReaderKnowsFlags(front);
      assert forall i | 0 <= i < |front| :: front[i] == trace[i];
    }
  }

  lemma {:induction false} ReaderKnowsOpen(trace: seq<AgentEvent>, id: string)
    requires Read(NEW_READER, trace).Some?
    ensures LeftOpen(trace, id) ==> id in Read(NEW_READER, trace).value.open
  {
    if trace != [] && LeftOpen(trace, id) {
      var n := |trace| - 1;
      var front := trace[..n];
      ReaderKnowsOpen(front, id);
      var i :| 0 <= i < |trace| && trace[i].ToolExecutionStart? && trace[i].id == id && NoEndAfter(trace, i, id);
      if i < n {
        assert front[i] == trace[i] && NoEndAfter(front, i, id);
        assert !(trace[n].ToolExecutionEnd? && trace[n].id == id);
      }
    }
  }

  /** What holds at every position of every run: the message starts at most once and ends at
      most once, after its start, updates come after the start, and each tool end reports
      the text its tool streamed since its last start or end. */
  lemma {:induction false} EventOrder(inputs: seq<Input>, j: nat)
    requires Run(inputs).Some? && j < |Run(inputs).value.1|
    ensures var trace := Run(inputs).value.1;
            && (trace[j].MessageStart? ==> !MessageStartedIn(trace[..j]))
            && (trace[j].MessageUpdate? ==> MessageStartedIn(trace[..j]))
            && (trace[j].MessageEnd? ==> MessageStartedIn(trace[..j]) && !MessageEndedIn(trace[..j]))
            && (trace[j].ToolExecutionEnd? ==> Streams(trace[j].result, StreamedBy(trace[..j], trace[j].id)))
            && (trace[j].TurnEnd? ==> j == |trace| - 1)
  {
    var trace := Run(inputs).value.1;
    RunsFollowTheGrammar(inputs);
    ReadPrefix(ReadOne, NEW_READER, trace, j);
    ReadPrefix(ReadOne, NEW_READER, trace, j + 1);
    assert trace[..j + 1][..j] == trace[..j];
    ReaderKnowsFlags(trace);
    ReaderKnowsFlags(trace[..j]);
    if trace[j].ToolExecutionEnd? {
      ReaderKnowsTexts(trace[..j], trace[j].id);
    }
  }

  /** A finished turn ends its stream with the one turn end, whose results are those of all
      tool ends in order, whatever the drain order; a started message has ended, and no tool
      is left open. */
  lemma {:induction false} FinishedTurn(inputs: seq<Input>, id: string)
    requires Run(inputs).Some? && Run(inputs).value.0.finished
    ensures |Run(inputs).value.1| > 0
    ensures var trace := Run(inputs).value.1;
            var last := trace[|trace| - 1];
            && last.TurnEnd? && (forall i | 0 <= i < |trace| - 1 :: !trace[i].TurnEnd?)
            && EndsOf(last.toolResults) == ToolEnds(trace)
            && (MessageStartedIn(trace) <==> MessageEndedIn(trace))
            && !LeftOpen(trace, id)
  {
    var trace := Run(inputs).value.1;
    RunsFollowTheGrammar(inputs);
    ReaderKnowsFlags(trace);
    ReadPrefix(ReadOne, NEW_READER, trace, |trace| - 1);
    var front := trace[..|trace| - 1];
    ReaderKnowsTexts(front, id);
    ReaderKnowsOpen(trace, id);
    assert ToolEnds(trace) == ToolEnds(front) + [];
    assert Read(NEW_READER, trace) == ReadOne(Read(NEW_READER, front).value, trace[|trace| - 1]);
    StartedMessagesEnd(inputs);
  }

  lemma {:induction false} StartedMessagesEnd(inputs: seq<Input>)
    requires Run(inputs).Some? && Run(inputs).value.0.finished
    ensures MessageStartedIn(Run(inputs).value.1) <==> MessageEndedIn(Run(inputs).value.1)
  {
    var trace := Run(inputs).value.1;
    RunsFollowTheGrammar(inputs);
    ReaderKnowsFlags(trace);
    ReadPrefix(ReadOne, NEW_READER, trace, |trace| - 1);
    assert Read(NEW_READER, trace) == ReadOne(Read(NEW_READER, trace[..|trace| - 1]).value, trace[|trace| - 1]);
  }

  // ------------------------------------------------ updates after the message has ended

  predicate MessageUpdatedIn(trace: seq<AgentEvent>) {
    exists i | 0 <= i < |trace| :: trace[i].MessageUpdate?
  }

  /** An update of the message comes after its end. */
  predicate LateUpdate(trace: seq<AgentEvent>) {
    exists i, j | 0 <= i < j < |trace| :: trace[i].MessageEnd? && trace[j].MessageUpdate?
  }

  /** The loop gets to input `k` and handles it. */
  predicate Handled(inputs: seq<Input>, k: nat)
    requires k < |inputs|
  {
    match Run(inputs[..k])
    case Some((s, _)) => !s.finished && Possible(s, inputs[k])
    case None => false
  }

  /** One of the first `k` inputs, if handled, completes the message. */
  predicate CompletedBefore(inputs: seq<Input>, k: nat)
    requires k <= |inputs|
  {
    exists i | 0 <= i < k :: Handled(inputs, i) && inputs[i].note.MessageComplete?
  }

  predicate DeltaAfterComplete(inputs: seq<Input>) {
    exists k | 0 <= k < |inputs| :: Handled(inputs, k) && inputs[k].note.MessageDelta? && CompletedBefore(inputs, k)
  }

  /** What one notification has to do with the message. */
  lemma {:induction false} MessageStep(s: Turn, input: Input)
    requires Possible(s, input) && !s.finished && Handle(s, input.note, input.drain).Some?
    ensures var (t, emitted) := Handle(s, input.note, input.drain).value;
            && (MessageUpdatedIn(emitted) <==> input.note.MessageDelta?)
            && (MessageUpdatedIn(emitted) ==> !MessageEndedIn(emitted))
            && (!t.finished ==> (t.ended <==> s.ended || input.note.MessageComplete?))
  {
    var (t, emitted) := Handle(s, input.note, input.drain).value;
    match input.note
    case MessageDelta(delta) => assert emitted[|emitted| - 1].MessageUpdate?;
    case TurnCompleted =>
      if !s.finished {
        FinalizeShape(s, input.drain);
      }
    case _ =>
  }

  lemma {:induction false} PrefixHandles(inputs: seq<Input>, n: nat)
    requires n <= |inputs|
    ensures forall k | 0 <= k < n :: Handled(inputs[..n], k) <==> Handled(inputs, k)
    ensures forall k | 0 <= k <= n :: CompletedBefore(inputs[..n], k) <==> CompletedBefore(inputs, k)
  {
    forall k | 0 <= k < n ensures Handled(inputs[..n], k) <==> Handled(inputs, k) {
      assert inputs[..n][..k] == inputs[..k];
    }
  }

  lemma {:induction false} EndedByCompletion(inputs: seq<Input>)
    requires Run(inputs).Some?
    ensures !Run(inputs).value.0.finished ==> (Run(inputs).value.0.ended <==> CompletedBefore(inputs, |inputs|))
  {
    if inputs != [] {
      var n := |inputs| - 1;
      EndedByCompletion(inputs[..n]);
      PrefixHandles(inputs, n);
      var s := Run(inputs[..n]).value.0;
      if Handled(inputs, n) {
        MessageStep(s, inputs[n]);
      }
      assert CompletedBefore(inputs, n + 1)
        <==> CompletedBefore(inputs, n) || (Handled(inputs, n) && inputs[n].note.MessageComplete?);
    }
  }

  lemma {:induction false} LateUpdateConcat(a: seq<AgentEvent>, b: seq<AgentEvent>)
    requires MessageUpdatedIn(b) ==> !MessageEndedIn(b)
    ensures LateUpdate(a + b) <==> LateUpdate(a) || (MessageEndedIn(a) && MessageUpdatedIn(b))
  {
    var c := a + b;
    if LateUpdate(a) {
      var i, j :| 0 <= i < j < |a| && a[i].MessageEnd? && a[j].MessageUpdate?;
      assert c[i].MessageEnd? && c[j].MessageUpdate?;
    }
    if MessageEndedIn(a) && MessageUpdatedIn(b) {
      var i :| 0 <= i < |a| && a[i].MessageEnd?;
      var j :| 0 <= j < |b| && b[j].MessageUpdate?;
      assert c[i].MessageEnd? && c[|a| + j].MessageUpdate?;
    }
    if LateUpdate(c) {
      var i, j :| 0 <= i < j < |c| && c[i].MessageEnd? && c[j].MessageUpdate?;
      if j >= |a| {
        assert b[j - |a|].MessageUpdate?;
        if i >= |a| {
          assert b[i - |a|].MessageEnd?;
        }
      }
    }
  }

  lemma {:induction false} DeltasOneMore(inputs: seq<Input>)
    requires inputs != []
    ensures var n := |inputs| - 1;
            DeltaAfterComplete(inputs)
            <==> DeltaAfterComplete(inputs[..n])
                 || (Handled(inputs, n) && inputs[n].note.MessageDelta? && CompletedBefore(inputs[..n], n))
  {
    var n := |inputs| - 1;
    var front := inputs[..n];
    PrefixHandles(inputs, n);
    if DeltaAfterComplete(front) {
      var k :| 0 <= k < n && Handled(front, k) && front[k].note.MessageDelta? && CompletedBefore(front, k);
      assert Handled(inputs, k) && inputs[k].note.MessageDelta? && CompletedBefore(inputs, k);
    }
    if DeltaAfterComplete(inputs) {
      var k :| 0 <= k <= n && Handled(inputs, k) && inputs[k].note.MessageDelta? && CompletedBefore(inputs, k);
      assert k < n ==> Handled(front, k) && front[k].note.MessageDelta? && CompletedBefore(front, k);
    }
  }

  lemma {:induction false} OneMoreHandled(inputs: seq<Input>)
    requires inputs != [] && Run(inputs).Some? && Handled(inputs, |inputs| - 1)
    ensures var n := |inputs| - 1;
            && Run(inputs[..n]).Some?
            && (LateUpdate(Run(inputs).value.1)
                <==> LateUpdate(Run(inputs[..n]).value.1)
                     || (inputs[n].note.MessageDelta? && CompletedBefore(inputs[..n], n)))
  {
    var n := |inputs| - 1;
    var (s, trace) := Run(inputs[..n]).value;
    MessageStep(s, inputs[n]);
    LateUpdateConcat(trace, Handle(s, inputs[n].note, inputs[n].drain).value.1);
    EndedByCompletion(inputs[..n]);
    RunsFollowTheGrammar(inputs[..n]);
    ReaderKnowsFlags(trace);
  }

  /** The message is updated after its end exactly when a delta is handled after a completion:
      nothing looks whether the message has ended. */
  lemma {:induction false} UpdateFollowsEndExactly(inputs: seq<Input>)
    requires Run(inputs).Some?
    ensures LateUpdate(Run(inputs).value.1) <==> DeltaAfterComplete(inputs)
  {
    if inputs != [] {
      var n := |inputs| - 1;
      var front := inputs[..n];
      UpdateFollowsEndExactly(front);
      if Handled(inputs, n) {
        OneMoreHandled(inputs);
      }
      DeltasOneMore(inputs);
    }
  }

  /** A completion and then a delta. */
  lemma {:induction false} LateDelta()
    ensures Run([Input(MessageComplete(None), []), Input(MessageDelta("more"), [])]).Some?
    ensures LateUpdate(Run([Input(MessageComplete(None), []), Input(MessageDelta("more"), [])]).value.1)
  {
    var inputs := [Input(MessageComplete(None), []), Input(MessageDelta("more"), [])];
    assert inputs[..0] == [] && inputs[..1][..0] == [];
    assert Drains(map[], []);
    assert Handled(inputs, 0) && Handled(inputs, 1) && CompletedBefore(inputs, 1);
    UpdateFollowsEndExactly(inputs);
  }

  lemma {:induction false} RunOneMore(inputs: seq<Input>, input: Input)
    requires Run(inputs + [input]).Some?
    ensures Run(inputs).Some?
    ensures var (s, trace) := Run(inputs).value;
            !s.finished && Possible(s, input) ==>
              && Handle(s, input.note, input.drain).Some?
              && var (t, emitted) := Handle(s, input.note, input.drain).value;
                 Run(inputs + [input]) == Some((t, trace + emitted))
    ensures var (s, trace) := Run(inputs).value;
            s.finished || !Possible(s, input) ==> Run(inputs + [input]) == Run(inputs)
  {
    assert (inputs + [input])[..|inputs|] == inputs;
  }

  /** What a tool streamed is what the runtime has kept for it. */
  lemma {:induction false} KeptOutputIsStreamed(inputs: seq<Input>, id: string)
    requires Run(inputs).Some?
    ensures var (s, trace) := Run(inputs).value;
            OutputOf(s.tools, id) == StreamedBy(trace, id) && (id in s.tools ==> s.tools[id].call.id == id)
  {
    RunsFollowTheGrammar(inputs);
    ReaderKnowsTexts(Run(inputs).value.1, id);
  }

  /** A completion reports its tool's whole streamed text and then its own result, and an
      empty object if there is neither. */
  lemma {:induction false} CompletionReportsEverything(inputs: seq<Input>, id: string, name: string,
          result: Option<Value>, isError: bool, drain: seq<string>)
    requires Run(inputs).Some? && !Run(inputs).value.0.finished && Drains(Run(inputs).value.0.tools, drain)
    ensures var trace := Run(inputs).value.1;
            var now := Run(inputs + [Input(ToolComplete(id, name, result, isError), drain)]);
            var own := match result case Some(value) => [value] case None => [];
            var items := TextItem(StreamedBy(trace, id)) + own;
            && now.Some? && |now.value.1| == |trace| + 1 && trace < now.value.1
            && var end := now.value.1[|trace|];
               && end.ToolExecutionEnd? && end.id == id && end.isError == isError
               && ContentOf(end.result) == if items == [] then [Object(map[])] else items
  {
    var s := Run(inputs).value.0;
    CompletionEmits(inputs, id, name, result, isError, drain);
    KeptOutputIsStreamed(inputs, id);
    CompletedContent(s.tools, id, name, result, isError);
  }

  lemma {:induction false} CompletionEmits(inputs: seq<Input>, id: string, name: string, result: Option<Value>,
          isError: bool, drain: seq<string>)
    requires Run(inputs).Some? && !Run(inputs).value.0.finished && Drains(Run(inputs).value.0.tools, drain)
    ensures var (s, trace) := Run(inputs).value;
            Run(inputs + [Input(ToolComplete(id, name, result, isError), drain)])
            == Some((OnToolComplete(s, id, name, result, isError).0,
                     trace + [EndOf(Completed(s.tools, id, name, result, isError))]))
  {
    assert (inputs + [Input(ToolComplete(id, name, result, isError), drain)])[..|inputs|] == inputs;
  }

  lemma {:induction false} CompletedContent(tools: map<string, ToolRuntimeState>, id: string, name: string,
          result: Option<Value>, isError: bool)
    ensures var own := match result case Some(value) => [value] case None => [];
            var items := TextItem(OutputOf(tools, id)) + own;
            ContentOf(ResultValue(Completed(tools, id, name, result, isError)))
            == if items == [] then [Object(map[])] else items
  {}

  /** A tool still open when the turn completes reports its whole streamed text and that it
      never completed. */
  lemma {:induction false} OpenToolsReportTheirText(inputs: seq<Input>, drain: seq<string>, i: nat)
    requires Run(inputs).Some? && Drains(Run(inputs).value.0.tools, drain) && i < |drain|
    ensures var (s, trace) := Run(inputs).value;
            var end := EndsOf(OpenFailures(s.tools, drain))[i];
            && end.ToolExecutionEnd? && end.id == drain[i] && end.isError
            && ContentOf(end.result)
               == TextItem(StreamedBy(trace, drain[i])) + [String("Tool call finished without a completion event")]
  {
    KeptOutputIsStreamed(inputs, drain[i]);
    OpenFailureContent(Run(inputs).value.0.tools[drain[i]]);
  }

  lemma {:induction false} OpenFailureContent(state: ToolRuntimeState)
    ensures ContentOf(ResultValue(OpenFailure(state)))
         == TextItem(state.output) + [String("Tool call finished without a completion event")]
  {}

  // ------------------------------------------------ the message's text

  /** The text a notification leaves: a delta adds to it, a snapshot replaces it. */
  function TextAfter(text: string, note: Note): string {
    match note
    case MessageDelta(delta) => text + delta
    case MessageStarted(Some(snapshot)) => snapshot
    case MessageComplete(Some(snapshot)) => snapshot
    case _ => text
  }

  /** The text of the notifications handled: the last snapshot, with the deltas since. */
  function Spoken(inputs: seq<Input>): string {
    if inputs == [] then ""
    else
      var front, last := inputs[..|inputs| - 1], inputs[|inputs| - 1];
      match Run(front)
      case None => ""
      case Some((s, _)) =>
        if s.finished || !Possible(s, last) then Spoken(front) else TextAfter(Spoken(front), last.note)
  }

  predicate Carries(e: AgentEvent, text: string) {
    (e.MessageUpdate? || e.MessageEnd? || e.TurnEnd?) ==> TextOf(e.message) == text
  }

  lemma {:induction false} SnapshotText(message: Message, text: string)
    ensures TextOf(CodexTurns.Snapshot(message, Some(text))) == text
  {
    assert [TextBlock(text)][..0] == [];
    assert "" + text == text;
  }

  lemma {:induction false} DeltaText(message: Message, delta: string)
    ensures TextOf(CodexTurns.PushDelta(message, delta)) == TextOf(message) + delta
  {
    assert TextOf(message) + "" == TextOf(message);
  }

  /** The events that update or end the message carry `message` itself. */
  predicate CarriesMessage(emitted: seq<AgentEvent>, message: Message) {
    forall j | 0 <= j < |emitted| && (emitted[j].MessageUpdate? || emitted[j].MessageEnd? || emitted[j].TurnEnd?) ::
      emitted[j].message == message
  }

  predicate AboutMessage(note: Note) {
    note.MessageStarted? || note.MessageDelta? || note.MessageComplete?
  }

  lemma {:induction false} MessageNoteCarries(s: Turn, note: Note, drain: seq<string>)
    requires AboutMessage(note) && Drains(s.tools, drain)
    ensures Handle(s, note, drain).Some?
    ensures var (t, emitted) := Handle(s, note, drain).value;
            && CarriesMessage(emitted, t.message)
            && t.message == if note.MessageDelta? then CodexTurns.PushDelta(s.message, note.delta)
                            else CodexTurns.Snapshot(s.message, note.snapshot)
  {}

  lemma {:induction false} TurnCompletedCarries(s: Turn, drain: seq<string>)
    requires Drains(s.tools, drain)
    ensures var (t, emitted) := OnTurnCompleted(s, drain); t.message == s.message && CarriesMessage(emitted, s.message)
  {}

  lemma {:induction false} OtherNoteCarries(s: Turn, note: Note, drain: seq<string>)
    requires !AboutMessage(note) && Drains(s.tools, drain) && Handle(s, note, drain).Some?
    ensures var (t, emitted) := Handle(s, note, drain).value;
            t.message == s.message && CarriesMessage(emitted, s.message)
  {
    if note.TurnCompleted? {
      TurnCompletedCarries(s, drain);
    }
  }

  lemma {:induction false} HandleText(s: Turn, input: Input)
    requires Possible(s, input) && Handle(s, input.note, input.drain).Some?
    ensures var (t, emitted) := Handle(s, input.note, input.drain).value;
            && TextOf(t.message) == TextAfter(TextOf(s.message), input.note)
            && forall j | 0 <= j < |emitted| :: Carries(emitted[j], TextOf(t.message))
  {
    var (t, emitted) := Handle(s, input.note, input.drain).value;
    if AboutMessage(input.note) {
      MessageNoteCarries(s, input.note, input.drain);
      MessageNoteText(s.message, input.note);
    } else {
      OtherNoteCarries(s, input.note, input.drain);
    }
    CarriesText(emitted, t.message);
  }

  lemma {:induction false} MessageNoteText(message: Message, note: Note)
    requires AboutMessage(note)
    ensures TextOf(if note.MessageDelta? then CodexTurns.PushDelta(message, note.delta)
                   else CodexTurns.Snapshot(message, note.snapshot))
         == TextAfter(TextOf(message), note)
  {
    if note.MessageDelta? {
      DeltaText(message, note.delta);
    } else if note.snapshot.Some? {
      SnapshotText(message, note.snapshot.value);
    }
  }

  lemma {:induction false} CarriesText(emitted: seq<AgentEvent>, message: Message)
    requires CarriesMessage(emitted, message)
    ensures forall j | 0 <= j < |emitted| :: Carries(emitted[j], TextOf(message))
  {}

  /** Every event that updates or ends the message, or ends the turn, carries exactly the text
      of the notifications handled so far: the last snapshot, with the deltas since. */
  lemma {:induction false} MessagesCarryWhatWasSpoken(inputs: seq<Input>, last: Input)
    requires Run(inputs + [last]).Some?
    ensures Run(inputs).Some? && Run(inputs).value.1 <= Run(inputs + [last]).value.1
    ensures TextOf(Run(inputs + [last]).value.0.message) == Spoken(inputs + [last])
    ensures var before, trace := Run(inputs).value.1, Run(inputs + [last]).value.1;
            forall j | |before| <= j < |trace| :: Carries(trace[j], Spoken(inputs + [last]))
  {
    RunOneMore(inputs, last);
    assert (inputs + [last])[..|inputs|] == inputs;
    TurnKeepsWhatWasSpoken(inputs);
    var s := Run(inputs).value.0;
    if !s.finished && Possible(s, last) {
      HandleText(s, last);
    }
  }

  lemma {:induction false} TurnKeepsWhatWasSpoken(inputs: seq<Input>)
    requires Run(inputs).Some?
    ensures TextOf(Run(inputs).value.0.message) == Spoken(inputs)
  {
    if inputs != [] {
      var front, last := inputs[..|inputs| - 1], inputs[|inputs| - 1];
      assert inputs == front + [last];
      RunOneMore(front, last);
      TurnKeepsWhatWasSpoken(front);
      var s := Run(front).value.0;
      if !s.finished && Possible(s, last) {
        HandleText(s, last);
      }
    }
  }

  /** The end of a stream that stops without a terminal notification: `finalize_open_state`
      still closes every tool and the message. */
  lemma {:induction false} InterruptedTurnIsClosed(inputs: seq<Input>, drain: seq<string>)
    requires Run(inputs).Some? && !Run(inputs).value.0.finished && Drains(Run(inputs).value.0.tools, drain)
    ensures var (s, trace) := Run(inputs).value;
            var closed := Read(NEW_READER, trace + FinalizeOpen(s, drain).1);
            && closed.Some? && closed.value.open == map[]
            && (closed.value.started ==> closed.value.ended) && !closed.value.done
  {
    var (s, trace) := Run(inputs).value;
    RunsFollowTheGrammar(inputs);
    FinalizeInStep(s, Read(NEW_READER, trace).value, drain);
    ReadConcat(ReadOne, NEW_READER, trace, FinalizeOpen(s, drain).1);
  }
}

/** The accumulators and the runtime themselves. */
module CodexRuntime {
  import opened Prelude
  import opened JsonValues
  import opened AgentEvents
  import opened CodexTurns

  class TextAccumulator {
    var message: Message

    constructor ()
      ensures message == []
    {
      message := [];
    }

    method PushDelta(delta: string)
      modifies this
      ensures message == CodexTurns.PushDelta(old(message), delta)
      ensures TextOf(message) == TextOf(old(message)) + delta
    {
      if delta == "" {
        assert TextOf(message) + "" == TextOf(message);
        return;
      }
      var n := |message|;
      if n > 0 && message[n - 1].TextBlock? {
        message := message[n - 1 := TextBlock(message[n - 1].text + delta)];
        assert message == AppendText(old(message), delta);
        return;
      }
      message := message + [TextBlock(delta)];
      assert message == AppendText(old(message), delta);
    }

    method ApplySnapshot(snapshot: string)
      modifies this
      ensures message == CodexTurns.Snapshot(old(message), Some(snapshot)) && TextOf(message) == snapshot
    {
      message := [];
      if snapshot != "" {
        message := message + [TextBlock(snapshot)];
        assert message[..0] == [];
      }
    }
  }

  class ToolTracker {
    var active: map<string, ToolRuntimeState>

    constructor ()
      ensures active == map[]
    {
      active := map[];
    }

    method Start(id: string, name: string, input: Value, parent: Option<string>) returns (call: ToolCall)
      modifies this
      ensures call == ToolCall(id, name, input, parent) && active == old(active)[id := ToolRuntimeState(call, "")]
    {
      call := ToolCall(id, name, input, parent);
      active := active[id := ToolRuntimeState(call, "")];
    }

    method PushOutput(id: string, name: string, delta: string) returns (state: ToolRuntimeState)
      modifies this
      ensures state.output == OutputOf(old(active), id) + delta
      ensures state.call == if id in old(active) then old(active)[id].call else ToolCall(id, name, Null, None)
      ensures active == old(active)[id := state]
    {
      if id !in active {
        active := active[id := ToolRuntimeState(ToolCall(id, name, Null, None), "")];
      }
      var entry := active[id];
      if delta == "" {
        assert entry.output + delta == entry.output;
        assert active == active[id := entry];
        return entry;
      }
      state := entry.(output := entry.output + delta);
      active := active[id := state];
    }

    method Complete(id: string, name: string, result: Option<Value>, isError: bool) returns (completed: ToolResult)
      modifies this
      ensures completed == Completed(old(active), id, name, result, isError) && active == old(active) - {id}
    {
      if id !in active {
        return FallbackToolResult(id, name, result, isError);
      }
      var state := active[id];
      active := active - {id};
      var content: seq<ToolContent> := [];
      if state.output != "" {
        content := content + [TextContent(state.output)];
      }
      assert content == StreamedContent(state.output);
      if result.Some? {
        content := content + [AsContent(result.value)];
      } else {
        assert content + [] == content;
      }
      if content == [] {
        content := [JsonContent(Object(map[]))];
      }
      completed := ToolResult(state.call.id, state.call.name, content, isError, state.call.parent);
    }

    /** `fail_open_tools`: `drain` is the order the map gave its entries up in. */
    method FailOpenTools() returns (open: seq<ToolResult>, ghost drain: seq<string>)
      modifies this
      ensures active == map[] && Drains(old(active), drain) && open == OpenFailures(old(active), drain)
    {
      open, drain := [], [];
      while active.Keys != {}
        invariant forall i | 0 <= i < |drain| :: drain[i] in old(active) && drain[i] !in active
        invariant forall i, j | 0 <= i < j < |drain| :: drain[i] != drain[j]
        invariant forall id | id in old(active) :: id in drain || (id in active && active[id] == old(active)[id])
        invariant forall id | id in active :: id in old(active)
        invariant open == OpenFailures(old(active), drain)
        decreases active.Keys
      {
        var id :| id in active.Keys;
        var state := active[id];
        active := active - {id};
        var content: seq<ToolContent> := [];
        if state.output != "" {
          content := content + [TextContent(state.output)];
        }
        assert content == StreamedContent(state.output);
        content := content + [TextContent("Tool call finished without a completion event")];
        var failure := ToolResult(state.call.id, state.call.name, content, true, state.call.parent);
        assert failure == OpenFailure(old(active)[id]);
        OpenFailuresSnoc(old(active), drain, id);
        open := open + [failure];
        drain := drain + [id];
      }
    }
  }

  /** `fallback_tool_result`: a completion for a tool that is not open. */
  function FallbackToolResult(id: string, name: string, result: Option<Value>, isError: bool): (r: ToolResult)
    ensures forall tools: map<string, ToolRuntimeState> | id !in tools ::
              r == Completed(tools, id, name, result, isError)
  {
    var content := match result case Some(value) => [AsContent(value)] case None => [];
    ToolResult(id, name, if content == [] then [JsonContent(Object(map[]))] else content, isError, None)
  }

  class StreamRuntime {
    const text: TextAccumulator
    const tools: ToolTracker
    const emitter: EventEmitter
    var toolResults: seq<ToolResult>
    var reasoning: map<string, string>
    var messageStarted: bool
    var messageFinished: bool
    var finished: bool

    ghost function Now(): Turn
      reads this, text, tools
    {
      Turn(text.message, tools.active, toolResults, reasoning, messageStarted, messageFinished, finished)
    }

    constructor ()
      ensures Now() == NEW_TURN && emitter.sequence == 0
      ensures fresh(text) && fresh(tools) && fresh(emitter)
    {
      text := new TextAccumulator();
      tools := new ToolTracker();
      emitter := new EventEmitter();
      toolResults, reasoning, messageStarted, messageFinished, finished := [], map[], false, false, false;
    }

    method EnsureMessageStarted() returns (emitted: seq<Stamped>)
      modifies this`messageStarted, emitter
      ensures Begin(old(Now())) == (Now(), Events(emitted))
      ensures NumberedFrom(old(emitter.sequence), emitted, emitter.sequence)
    {
      emitted := [];
      if !messageStarted {
        messageStarted := true;
        emitted := emitter.Emit(emitted, MessageStart(text.message), emitter.sequence);
      }
    }

    method HandleMessageStart(snapshot: Option<string>) returns (emitted: seq<Stamped>)
      modifies this`messageStarted, text, emitter
      ensures OnMessageStarted(old(Now()), snapshot) == (Now(), Events(emitted))
      ensures NumberedFrom(old(emitter.sequence), emitted, emitter.sequence)
    {
      if snapshot.Some? {
        text.ApplySnapshot(snapshot.value);
      }
      emitted := EnsureMessageStarted();
    }

    method HandleMessageDelta(delta: string) returns (emitted: seq<Stamped>)
      modifies this`messageStarted, text, emitter
      ensures OnMessageDelta(old(Now()), delta) == (Now(), Events(emitted))
      ensures NumberedFrom(old(emitter.sequence), emitted, emitter.sequence)
    {
      ghost var first := emitter.sequence;
      emitted := EnsureMessageStarted();
      text.PushDelta(delta);
      emitted := emitter.Emit(emitted, MessageUpdate(text.message, TextAdded(delta)), first);
    }

    method HandleMessageComplete(snapshot: Option<string>) returns (emitted: seq<Stamped>)
      modifies this`messageStarted, this`messageFinished, text, emitter
      ensures OnMessageComplete(old(Now()), snapshot) == (Now(), Events(emitted))
      ensures NumberedFrom(old(emitter.sequence), emitted, emitter.sequence)
    {
      ghost var first := emitter.sequence;
      if snapshot.Some? {
        text.ApplySnapshot(snapshot.value);
      }
      emitted := EnsureMessageStarted();
      if !messageFinished {
        messageFinished := true;
        emitted := emitter.Emit(emitted, MessageEnd(text.message), first);
      } else {
        assert Events(emitted) + [] == Events(emitted);
      }
    }

    /** Reasoning: a delta without a start announces one first. */
    method HandleReasoning(note: Note) returns (emitted: seq<Stamped>)
      requires note.ReasoningStarted? || note.ReasoningAdded? || note.ReasoningFinished?
      modifies this`reasoning, emitter
      ensures forall drain | Drains(old(tools.active), drain) ::
                Handle(old(Now()), note, drain) == Some((Now(), Events(emitted)))
      ensures NumberedFrom(old(emitter.sequence), emitted, emitter.sequence)
    {
      ghost var first := emitter.sequence;
      emitted := [];
      match note
      case ReasoningStarted(id) =>
        if id !in reasoning {
          reasoning := reasoning[id := ""];
        }
        emitted := emitter.Emit(emitted, ReasoningStart(id), first);
      case ReasoningAdded(id, added) =>
        var before := "";
        if id in reasoning {
          before := reasoning[id];
        } else {
          emitted := emitter.Emit(emitted, ReasoningStart(id), first);
        }
        reasoning := reasoning[id := before + added];
        emitted := emitter.Emit(emitted, ReasoningDelta(id, added), first);
      case ReasoningFinished(id, fullText) =>
        var kept := if id in reasoning then reasoning[id] else "";
        reasoning := reasoning - {id};
        emitted := emitter.Emit(emitted, ReasoningComplete(id,
            match fullText case Some(full) => full case None => kept), first);
    }

    method HandleToolStart(id: string, name: string, input: Value,
            parent: Option<string>) returns (emitted: seq<Stamped>)
      modifies tools, emitter
      ensures OnToolStart(old(Now()), id, name, input, parent) == (Now(), Events(emitted))
      ensures NumberedFrom(old(emitter.sequence), emitted, emitter.sequence)
    {
      var call := tools.Start(id, name, input, parent);
      emitted := emitter.Emit([], ToolExecutionStart(call.id, call.name, call.input), emitter.sequence);
    }

    method HandleToolUpdate(id: string, name: string, partial: Json) returns (emitted: seq<Stamped>)
      modifies tools, emitter
      ensures OnToolUpdate(old(Now()), id, name, partial) == (Now(), Events(emitted))
      ensures NumberedFrom(old(emitter.sequence), emitted, emitter.sequence)
    {
      var state := tools.PushOutput(id, name, Stringify(partial));
      assert state == ToolRuntimeState(state.call, state.output);
      emitted := emitter.Emit([], ToolExecutionUpdate(id, name, Output(Denote(partial))), emitter.sequence);
    }

    method HandleToolComplete(id: string, name: string, result: Option<Value>,
            isError: bool) returns (emitted: seq<Stamped>)
      modifies this`toolResults, tools, emitter
      ensures OnToolComplete(old(Now()), id, name, result, isError) == (Now(), Events(emitted))
      ensures NumberedFrom(old(emitter.sequence), emitted, emitter.sequence)
    {
      var completed := tools.Complete(id, name, result, isError);
      toolResults := toolResults + [completed];
      emitted := emitter.Emit([], EndOf(completed), emitter.sequence);
    }

    /** Fails every tool still open, in the order the tracker gives them up. */
    method FailOpen() returns (emitted: seq<Stamped>, ghost drain: seq<string>)
      modifies this`toolResults, tools, emitter
      ensures Drains(old(tools.active), drain) && tools.active == map[]
      ensures toolResults == old(toolResults) + OpenFailures(old(tools.active), drain)
      ensures Events(emitted) == EndsOf(OpenFailures(old(tools.active), drain))
      ensures NumberedFrom(old(emitter.sequence), emitted, emitter.sequence)
    {
      ghost var first := emitter.sequence;
      emitted := [];
      var open;
      open, drain := tools.FailOpenTools();
      var i := 0;
      while i < |open|
        invariant 0 <= i <= |open| && tools.active == map[]
        invariant NumberedFrom(first, emitted, emitter.sequence)
        invariant Events(emitted) == EndsOf(open[..i]) && toolResults == old(toolResults) + open[..i]
      {
        emitted := emitter.Emit(emitted, EndOf(open[i]), first);
        toolResults := toolResults + [open[i]];
        assert open[..i + 1] == open[..i] + [open[i]];
        i := i + 1;
      }
      assert open[..i] == open;
    }

    /** `finalize_open_state` */
    method FinalizeOpenState() returns (emitted: seq<Stamped>, ghost drain: seq<string>)
      modifies this`toolResults, this`messageFinished, tools, emitter
      ensures Drains(old(tools.active), drain) && FinalizeOpen(old(Now()), drain) == (Now(), Events(emitted))
      ensures NumberedFrom(old(emitter.sequence), emitted, emitter.sequence)
    {
      ghost var first := emitter.sequence;
      emitted := [];
      if finished {
        drain := SomeDrain(tools.active);
        return;
      }
      emitted, drain := FailOpen();
      if messageStarted && !messageFinished {
        emitted := emitter.Emit(emitted, MessageEnd(text.message), first);
        messageFinished := true;
      }
    }

    method HandleTurnCompleted() returns (emitted: seq<Stamped>, ghost drain: seq<string>)
      requires !finished
      modifies this, tools, emitter
      ensures Drains(old(tools.active), drain) && OnTurnCompleted(old(Now()), drain) == (Now(), Events(emitted))
      ensures NumberedFrom(old(emitter.sequence), emitted, emitter.sequence)
    {
      ghost var first := emitter.sequence;
      emitted, drain := FinalizeOpenState();
      emitted := emitter.Emit(emitted, TurnEnd(text.message, toolResults), first);
      finished := true;
    }

    /** `handle_notification`, with the drain order it met. */
    method HandleNotification(note: Note) returns (r: Option<seq<Stamped>>, ghost drain: seq<string>)
      requires !finished
      modifies this, text, tools, emitter
      ensures Drains(old(tools.active), drain)
      ensures Handle(old(Now()), note, drain) == if r.Some? then Some((Now(), Events(r.value))) else None
      ensures r.Some? ==> NumberedFrom(old(emitter.sequence), r.value, emitter.sequence)
    {
      drain := SomeDrain(tools.active);
      var emitted := [];
      match note {
      case MessageStarted(snapshot) => emitted := HandleMessageStart(snapshot);
      case MessageDelta(delta) => emitted := HandleMessageDelta(delta);
      case MessageComplete(snapshot) => emitted := HandleMessageComplete(snapshot);
      case ToolStart(id, name, input, parent) => emitted := HandleToolStart(id, name, input, parent);
      case ToolUpdate(id, name, partial) => emitted := HandleToolUpdate(id, name, partial);
      case ToolComplete(id, name, result, isError) => emitted := HandleToolComplete(id, name, result, isError);
      case TurnCompleted => emitted, drain := HandleTurnCompleted();
      case TurnFailed(_) => return None, drain;
      case Ignored =>
      case UsageUpdated =>
      case _ => emitted := HandleReasoning(note);
      }
      r := Some(emitted);
    }
  }

  predicate Terminal(note: Note) {
    note.TurnCompleted? || note.TurnFailed?
  }

  /** The first terminal notification completes the turn. */
  predicate Completes(notes: seq<Note>) {
    exists i | 0 <= i < |notes| :: notes[i].TurnCompleted? && forall j | 0 <= j < i :: !Terminal(notes[j])
  }

  predicate Follows(inputs: seq<Input>, notes: seq<Note>) {
    |inputs| <= |notes| && forall i | 0 <= i < |inputs| :: inputs[i].note == notes[i]
  }

  /** The loop of `build_stream`, with what follows it. The turn completes exactly when the
      first terminal notification is a completion. Then the stream is that of a run over the
      notifications up to it; a failure ends the stream where it stands; and without a
      terminal notification everything still open is closed at the end. */
  method StreamTurn(notes: seq<Note>)
    returns (completed: bool, stream: seq<Stamped>, ghost inputs: seq<Input>, ghost drain: seq<string>)
    requires forall i | 0 <= i < |notes| && notes[i].ToolUpdate? :: Valid(notes[i].partial)
    ensures completed == Completes(notes)
    ensures NumberedFrom(0, stream, SaturatingAdd(0, |stream|))
    ensures Follows(inputs, notes) && Run(inputs).Some? && Run(inputs).value.0.finished == completed
    ensures completed ==> Events(stream) == Run(inputs).value.1
    ensures !completed ==> forall j | 0 <= j < |inputs| :: !Terminal(notes[j])
    ensures !completed && |inputs| < |notes| ==> notes[|inputs|].TurnFailed? && Events(stream) == Run(inputs).value.1
    ensures !completed && |inputs| == |notes| ==> ClosesWith(inputs, drain, Events(stream))
  {
    var runtime := new StreamRuntime();
    stream := runtime.emitter.Emit([], TurnStart, 0);
    inputs, drain := [], [];
    var i := 0;
    while i < |notes| && !runtime.finished
      invariant 0 <= i <= |notes| && |inputs| == i && Follows(inputs, notes)
      invariant Run(inputs) == Some((runtime.Now(), Events(stream)))
      invariant NumberedFrom(0, stream, runtime.emitter.sequence)
      invariant fresh(runtime) && fresh(runtime.text) && fresh(runtime.tools) && fresh(runtime.emitter)
      invariant !runtime.finished ==> forall j | 0 <= j < i :: !Terminal(notes[j])
      invariant runtime.finished ==> Completes(notes)
    {
      ghost var first := runtime.emitter.sequence;
      ghost var before := runtime.Now();
      var r;
      r, drain := runtime.HandleNotification(notes[i]);
      if r.None? {
        return false, stream, inputs, drain;
      }
      assert (inputs + [Input(notes[i], drain)])[..i] == inputs;
      inputs := inputs + [Input(notes[i], drain)];
      FinishesOnlyOnCompletion(before, notes[i], drain);
      NumbersContinue(0, stream, first, r.value, runtime.emitter.sequence);
      stream := stream + r.value;
      i := i + 1;
    }
    completed := runtime.finished;
    if !completed {
      ghost var first := runtime.emitter.sequence;
      var rest;
      rest, drain := runtime.FinalizeOpenState();
      NumbersContinue(0, stream, first, rest, runtime.emitter.sequence);
      stream := stream + rest;
    }
  }

  /** The stream of a run that stopped short, closed by `finalize_open_state`. */
  ghost predicate ClosesWith(inputs: seq<Input>, drain: seq<string>, stream: seq<AgentEvent>)
    requires Run(inputs).Some?
  {
    var (s, trace) := Run(inputs).value;
    Drains(s.tools, drain) && stream == trace + FinalizeOpen(s, drain).1
  }

  lemma {:induction false} FinishesOnlyOnCompletion(s: Turn, note: Note, drain: seq<string>)
    requires !s.finished && Drains(s.tools, drain) && Handle(s, note, drain).Some?
    ensures Handle(s, note, drain).value.0.finished <==> note.TurnCompleted?
    ensures !note.TurnFailed?
  {}

  lemma {:induction false} OpenFailuresSnoc(tools: map<string, ToolRuntimeState>, drain: seq<string>, id: string)
    requires id in tools && forall i | 0 <= i < |drain| :: drain[i] in tools
    ensures forall i | 0 <= i < |drain + [id]| :: (drain + [id])[i] in tools
    ensures OpenFailures(tools, drain + [id]) == OpenFailures(tools, drain) + [OpenFailure(tools[id])]
  {}

  ghost function SomeDrain(tools: map<string, ToolRuntimeState>): (drain: seq<string>)
    ensures Drains(tools, drain)
    decreases tools.Keys
  {
    if tools.Keys == {} then []
    else
      var id :| id in tools.Keys;
      SomeDrain(tools - {id}) + [id]
  }
}
