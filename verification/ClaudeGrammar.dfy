// The order of the events the Claude Code provider emits (crates/arky-claude-code/src/provider.rs).

/** The order in which events may appear, and why every accepted run keeps to it. */
module ClaudeGrammar {
  import opened Prelude
  import opened JsonValues
  import opened AgentEvents
  import opened EventReading
  import opened ToolFsm
  import opened TextDedup
  import opened NestedTools
  import opened ClaudeTurns
  import R = ClaudeRecords

  /** A reader of the event stream: the tools open so far and whether the message started. */
  datatype Reader = Reader(open: set<string>, started: bool)

  const NEW_READER: Reader := Reader({}, false)

  /** A reader refuses a start of an open tool, an end of a closed one, an input fragment
      outside its tool, a second message start, and a message update or end before it. */
  function ReadOne(g: Reader, e: AgentEvent): Option<Reader> {
    match e
    case ToolExecutionStart(id, _, _) => if id in g.open then None else Some(g.(open := g.open + {id}))
    case ToolExecutionEnd(id, _, _, _) => if id in g.open then Some(g.(open := g.open - {id})) else None
    case ToolExecutionUpdate(id, _, partial) => if partial.InputFragment? && id !in g.open then None else Some(g)
    case MessageStart(_) => if g.started then None else Some(g.(started := true))
    case MessageUpdate(_, _) => if g.started then Some(g) else None
    case MessageEnd(_) => if g.started then Some(g) else None
    case TurnEnd(_, _) => if g.started then Some(g) else None
    case _ => Some(g)
  }

  ghost function Read(g: Reader, trace: seq<AgentEvent>): Option<Reader> {
    ReadAll(ReadOne, g, trace)
  }

  /** An event the reader accepts without noticing. */
  predicate Neutral(e: AgentEvent) {
    e.Custom? || e.TurnStart? || e.ReasoningStart? || e.ReasoningDelta? || e.ReasoningComplete?
    || (e.ToolExecutionUpdate? && !e.partial.InputFragment?)
  }

  lemma {:induction false} ReadNeutral(g: Reader, events: seq<AgentEvent>)
    requires forall i | 0 <= i < |events| ::
               Neutral(events[i])
               || (g.started && (events[i].MessageUpdate? || events[i].MessageEnd? || events[i].TurnEnd?))
    ensures Read(g, events) == Some(g)
  {
    if events != [] {
      ReadNeutral(g, events[..|events| - 1]);
    }
  }

  predicate Busy(state: ToolState) {
    state.Started? || state.InputReceiving? || state.Executing?
  }

  /** What the runtime's state and the reader's have in common. */
  ghost predicate InStep(s: Turn, g: Reader) {
    && (forall id :: id in g.open <==> Busy(StateOf(s.tools, id)))
    && g.started == s.started
    && (s.tools != map[] ==> s.started)
  }

  lemma {:induction false} BeginInStep(s: Turn, g: Reader)
    requires InStep(s, g)
    ensures var (t, begin) := Begin(s);
            t.started && Read(g, begin) == Some(g.(started := true)) && InStep(t, g.(started := true))
  {
    ReadSingle(ReadOne, g, MessageStart(s.message));
  }

  lemma {:induction false} AnnounceIsNeutral(env: Env, n: Nest, tools: map<string, ToolState>, id: string, name: string,
                                             input: Value, parent: Option<string>)
    ensures var (_, preview) := Announce(env, n, tools, id, name, input, parent);
            forall i | 0 <= i < |preview| :: Neutral(preview[i])
  {}

  lemma {:induction false} StartOpens(s: Turn, g: Reader, id: string, name: string, t: Turn)
    requires InStep(s, g) && s.started && Move(s.tools, id, ToStarted(name)).Some?
    requires t.started && t.tools == Move(s.tools, id, ToStarted(name)).value
    ensures id !in g.open && InStep(t, g.(open := g.open + {id}))
  {}

  lemma {:induction false} ToolStartInStep(env: Env, s: Turn, g: Reader, id: string, name: string, input: Value,
          parent: Option<string>)
    requires InStep(s, g) && OnToolStart(env, s, id, name, input, parent).Some?
    ensures var (t, emitted) := OnToolStart(env, s, id, name, input, parent).value;
            Read(g, emitted).Some? && InStep(t, Read(g, emitted).value)
  {
    BeginInStep(s, g);
    var (b, begin) := Begin(s);
    var h := g.(started := true);
    var tools := Move(s.tools, id, ToStarted(name)).value;
    var (_, preview) := Announce(env, s.nest, tools, id, name, input, parent);
    AnnounceIsNeutral(env, s.nest, tools, id, name, input, parent);
    StartOpens(b, h, id, name, OnToolStart(env, s, id, name, input, parent).value.0);
    ReadStart(g, h, begin, ToolExecutionStart(id, env.canonical(name), input), preview);
  }

  lemma {:induction false} ReadStart(g: Reader, h: Reader, begin: seq<AgentEvent>, start: AgentEvent,
          preview: seq<AgentEvent>)
    requires Read(g, begin) == Some(h) && start.ToolExecutionStart? && start.id !in h.open
    requires forall i | 0 <= i < |preview| :: Neutral(preview[i])
    ensures Read(g, begin + [start] + preview) == Some(h.(open := h.open + {start.id}))
  {
    ReadSingle(ReadOne, h, start);
    ReadConcat(ReadOne, g, begin, [start]);
    ReadNeutral(h.(open := h.open + {start.id}), preview);
    ReadConcat(ReadOne, g, begin + [start], preview);
  }

  lemma {:induction false} ToolInputInStep(s: Turn, g: Reader, id: string, fragment: string)
    requires InStep(s, g) && OnToolInput(s, id, fragment).Some?
    ensures var (t, emitted) := OnToolInput(s, id, fragment).value;
            Read(g, emitted) == Some(g) && InStep(t, g)
  {
    var (t, emitted) := OnToolInput(s, id, fragment).value;
    assert id in s.tools;
    ReadConcat(ReadOne, g, [emitted[0]], [emitted[1]]);
    assert [emitted[0]] + [emitted[1]] == emitted;
    ReadSingle(ReadOne, g, emitted[0]);
    ReadSingle(ReadOne, g, emitted[1]);
    forall other ensures other in g.open <==> Busy(StateOf(t.tools, other)) {
    }
  }

  lemma {:induction false} ToolCompleteInStep(env: Env, s: Turn, g: Reader, id: string, name: string, final: string,
          parent: Option<string>)
    requires InStep(s, g) && OnToolComplete(env, s, id, name, final, parent).Some?
    ensures var (t, emitted) := OnToolComplete(env, s, id, name, final, parent).value;
            Read(g, emitted) == Some(g) && InStep(t, g)
  {
    ReadSingle(ReadOne, g, OnToolComplete(env, s, id, name, final, parent).value.1[0]);
  }

  lemma {:induction false} SettleIsNeutral(env: Env, n: Nest, tools: map<string, ToolState>, id: string, name: string,
                                           result: Value, isError: bool, parent: Option<string>)
    ensures var (_, preview, _) := Settle(env, n, tools, id, name, result, isError, parent);
            forall i | 0 <= i < |preview| :: Neutral(preview[i])
  {}

  lemma {:induction false} FinishCloses(s: Turn, g: Reader, id: string, success: bool, t: Turn)
    requires InStep(s, g) && Move(s.tools, id, ToCompleted(success)).Some?
    requires t.started == s.started && t.tools == Move(s.tools, id, ToCompleted(success)).value
    ensures id in g.open && InStep(t, g.(open := g.open - {id}))
  {}

  lemma {:induction false} ToolResultInStep(env: Env, s: Turn, g: Reader, id: string, name: string,
          content: seq<ToolContent>, result: Value,
                         isError: bool, parent: Option<string>)
    requires InStep(s, g) && OnToolResult(env, s, id, name, content, result, isError, parent).Some?
    ensures var (t, emitted) := OnToolResult(env, s, id, name, content, result, isError, parent).value;
            Read(g, emitted).Some? && InStep(t, Read(g, emitted).value)
  {
    var tools := Move(s.tools, id, ToCompleted(!isError)).value;
    var (t, _) := OnToolResult(env, s, id, name, content, result, isError, parent).value;
    var (_, preview, shown) := Settle(env, s.nest, tools, id, name, result, isError, parent);
    SettleIsNeutral(env, s.nest, tools, id, name, result, isError, parent);
    FinishCloses(s, g, id, !isError, t);
    ReadEnd(g, preview, ToolExecutionEnd(id, env.canonical(name), shown, isError));
  }

  lemma {:induction false} ReadEnd(g: Reader, preview: seq<AgentEvent>, end: AgentEvent)
    requires end.ToolExecutionEnd? && end.id in g.open
    requires forall i | 0 <= i < |preview| :: Neutral(preview[i])
    ensures Read(g, preview + [end]) == Some(g.(open := g.open - {end.id}))
  {
    ReadNeutral(g, preview);
    ReadSnoc(ReadOne, g, preview, end);
  }

  lemma {:induction false} EndingInStep(s: Turn, g: Reader, t: Turn, rest: seq<AgentEvent>)
    requires InStep(s, g) && t.tools == s.tools && t.started == s.started
    requires forall i | 0 <= i < |rest| ::
               Neutral(rest[i]) || rest[i].MessageUpdate? || rest[i].MessageEnd? || rest[i].TurnEnd?
    ensures var (u, begin) := Begin(t);
            Read(g, begin + rest) == Some(g.(started := true)) && InStep(u, g.(started := true))
  {
    BeginInStep(t, g);
    var (_, begin) := Begin(t);
    ReadNeutral(g.(started := true), rest);
    ReadConcat(ReadOne, g, begin, rest);
  }

  lemma {:induction false} TextInStep(s: Turn, g: Reader, source: Source, text: string)
    requires InStep(s, g) && OnText(s, source, text).Some?
    ensures var (t, emitted) := OnText(s, source, text).value;
            Read(g, emitted).Some? && InStep(t, Read(g, emitted).value)
  {
    var (t, emitted) := OnText(s, source, text).value;
    var (_, begin) := Begin(s);
    EndingInStep(s, g, s, emitted[|begin|..]);
    assert begin + emitted[|begin|..] == emitted;
  }

  lemma {:induction false} FinishInStep(s: Turn, g: Reader, isError: bool)
    requires InStep(s, g)
    ensures var (t, emitted) := OnFinish(s, isError); Read(g, emitted).Some? && InStep(t, Read(g, emitted).value)
  {
    var (_, emitted) := OnFinish(s, isError);
    var u := s.(streamed := 0, finished := true, failed := isError);
    var (_, begin) := Begin(u);
    EndingInStep(s, g, u, emitted[|begin|..]);
    assert begin + emitted[|begin|..] == emitted;
  }

  lemma {:induction false} TruncationInStep(s: Turn, g: Reader)
    requires InStep(s, g)
    ensures var (t, emitted) := OnTruncation(s); Read(g, emitted).Some? && InStep(t, Read(g, emitted).value)
  {
    var (_, emitted) := OnTruncation(s);
    var u := s.(finished := true);
    var (_, begin) := Begin(u);
    EndingInStep(s, g, u, emitted[|begin|..]);
    assert begin + emitted[|begin|..] == emitted;
  }

  predicate Quiet(input: Input) {
    input.Parsed? && (input.event.ReasoningStart? || input.event.ReasoningDelta? || input.event.ReasoningComplete?
                      || input.event.ToolProgress? || input.event.Metadata? || input.event.RateLimit?)
  }

  lemma {:induction false} QuietInStep(env: Env, s: Turn, g: Reader, input: Input)
    requires InStep(s, g) && Quiet(input)
    ensures Handle(env, s, input).Some?
    ensures var (t, emitted) := Handle(env, s, input).value; Read(g, emitted) == Some(g) && InStep(t, g)
  {
    var (t, emitted) := Handle(env, s, input).value;
    assert t.tools == s.tools && t.started == s.started && t.message == s.message && |emitted| <= 1;
    assert forall i | 0 <= i < |emitted| :: Neutral(emitted[i]);
    ReadNeutral(g, emitted);
  }

  lemma {:induction false} HandleInStep(env: Env, s: Turn, g: Reader, input: Input)
    requires InStep(s, g) && Handle(env, s, input).Some?
    ensures var (t, emitted) := Handle(env, s, input).value;
            Read(g, emitted).Some? && InStep(t, Read(g, emitted).value)
  {
    match input
    case Parsed(ToolUseStart(_, id, name, args, _, parent)) => ToolStartInStep(env, s, g, id, name, args, parent);
    case Parsed(ToolUseInputDelta(id, delta, _)) => ToolInputInStep(s, g, id, delta);
    case Parsed(ToolUseComplete(_, id, name, final, parent)) => ToolCompleteInStep(env, s, g, id, name, final, parent);
    case Parsed(ToolResult(id, name, content, result, isError, parent)) =>
      ToolResultInStep(env, s, g, id, name, content, result, isError, parent);
    case Parsed(TextDelta(source, text)) => TextInStep(s, g, if source.FromStream? then Streamed else Snapshot, text);
    case Parsed(Finish(_, _, isError, _, _)) => FinishInStep(s, g, isError);
    case Truncated => TruncationInStep(s, g);
    case _ => QuietInStep(env, s, g, input);
  }

  /** Every accepted run emits a stream the reader accepts. */
  lemma {:induction false} AcceptedRunsFollowTheGrammar(env: Env, inputs: seq<Input>)
    requires Run(env, inputs).Some?
    ensures Read(NEW_READER, Run(env, inputs).value.1).Some?
    ensures InStep(Run(env, inputs).value.0, Read(NEW_READER, Run(env, inputs).value.1).value)
  {
    if inputs == [] {
      ReadSingle(ReadOne, NEW_READER, TurnStart);
    } else {
      var front := inputs[..|inputs| - 1];
      AcceptedRunsFollowTheGrammar(env, front);
      var (s, trace) := Run(env, front).value;
      var (_, emitted) := Handle(env, s, inputs[|inputs| - 1]).value;
      HandleInStep(env, s, Read(NEW_READER, trace).value, inputs[|inputs| - 1]);
      ReadConcat(ReadOne, NEW_READER, trace, emitted);
    }
  }

  /** The starts (true) and ends (false) of one tool, in order. */
  function Lifecycle(trace: seq<AgentEvent>, id: string): seq<bool> {
    if trace == [] then []
    else
      Lifecycle(trace[..|trace| - 1], id)
      + match trace[|trace| - 1]
        case ToolExecutionStart(i, _, _) => if i == id then [true] else []
        case ToolExecutionEnd(i, _, _, _) => if i == id then [false] else []
        case _ => []
  }

  predicate Alternates(lifecycle: seq<bool>) {
    forall k | 0 <= k < |lifecycle| :: lifecycle[k] == (k % 2 == 0)
  }

  predicate MessageStarted(trace: seq<AgentEvent>) {
    exists i | 0 <= i < |trace| :: trace[i].MessageStart?
  }

  lemma {:induction false} ReaderKnows(trace: seq<AgentEvent>, id: string)
    requires Read(NEW_READER, trace).Some?
    ensures Alternates(Lifecycle(trace, id))
    ensures id in Read(NEW_READER, trace).value.open <==> |Lifecycle(trace, id)| % 2 == 1
    ensures Read(NEW_READER, trace).value.started <==> MessageStarted(trace)
  {
    if trace != [] {
      var front := trace[..|trace| - 1];
      ReaderKnows(front, id);
      assert forall i | 0 <= i < |front| :: front[i] == trace[i];
    }
  }

  /** For each tool id, starts and ends strictly alternate beginning with a start, and input
      fragments fall only between them; the message starts at most once, and before every
      update and end of it. */
  lemma {:induction false} EventOrder(env: Env, inputs: seq<Input>, id: string, j: nat)
    requires Run(env, inputs).Some? && j < |Run(env, inputs).value.1|
    ensures var trace := Run(env, inputs).value.1;
            && Alternates(Lifecycle(trace, id))
            && (trace[j].ToolExecutionUpdate? && trace[j].partial.InputFragment? && trace[j].id == id ==>
                  |Lifecycle(trace[..j], id)| % 2 == 1)
            && (trace[j].MessageStart? ==> !MessageStarted(trace[..j]))
            && (trace[j].MessageUpdate? || trace[j].MessageEnd? || trace[j].TurnEnd? ==> MessageStarted(trace[..j]))
  {
    var trace := Run(env, inputs).value.1;
    AcceptedRunsFollowTheGrammar(env, inputs);
    ReaderKnows(trace, id);
    ReadPrefix(ReadOne, NEW_READER, trace, j);
    ReadPrefix(ReadOne, NEW_READER, trace, j + 1);
    assert trace[..j + 1][..j] == trace[..j];
    ReaderKnows(trace[..j], id);
  }
}
