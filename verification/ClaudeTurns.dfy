// One streamed turn of the Claude Code provider (crates/arky-claude-code/src/provider.rs):
// normalized parser events in, protocol events out.

/** What the runtime does with one event, on values. */
module ClaudeTurns {
  import opened Prelude
  import opened JsonValues
  import opened AgentEvents
  import opened ToolFsm
  import opened TextDedup
  import opened NestedTools
  import R = ClaudeRecords

  /** The tool codec's canonical names and the JSON reader, as functions of their input. */
  datatype Env = Env(canonical: string -> string, parseJson: string -> Option<Value>)

  datatype PreviewEntry = PreviewEntry(toolName: string, state: string, input: Value, output: Option<Value>,
      error: Option<Value>)

  /** Nested calls by parent: what the result will list, what previews show, and the last
      preview shown. Two previews print alike exactly when they list the same records. */
  datatype Nest = Nest(
    nested: map<string, seq<NestedTool>>,
    preview: map<string, map<string, PreviewEntry>>,
    signatures: map<string, map<string, PreviewRecord>>)

  datatype Turn = Turn(
    tools: map<string, ToolState>,
    streamed: nat,
    reasoning: map<string, string>,
    nest: Nest,
    results: seq<ToolResult>,
    message: Message,
    started: bool,
    finished: bool,
    failed: bool)

  const NEW_TURN: Turn := Turn(map[], 0, map[], Nest(map[], map[], map[]), [], [], false, false, false)

  /** `Truncated` is a line cut off in the middle, from which the stream recovers by ending. */
  datatype Input = Parsed(event: R.Normalized) | Truncated

  function Begin(s: Turn): (Turn, seq<AgentEvent>) {
    if s.started then (s, []) else (s.(started := true), [MessageStart(s.message)])
  }

  function ToolName(state: ToolState): string {
    match state
    case Idle => "unknown"
    case _ => state.toolName
  }

  function Shown(entry: PreviewEntry): PreviewRecord {
    PreviewRecord(entry.toolName, entry.state, entry.input, OrNull(entry.output), OrNull(entry.error))
  }

  function ShownAll(entries: map<string, PreviewEntry>): map<string, PreviewRecord> {
    map id | id in entries :: Shown(entries[id])
  }

  function EntriesOf(preview: map<string, map<string, PreviewEntry>>, parent: string): map<string, PreviewEntry> {
    if parent in preview then preview[parent] else map[]
  }

  /** `emit_nested_preview`: silent when nothing changed since the last preview. */
  function EmitPreview(n: Nest, tools: map<string, ToolState>, parent: string): (Nest, seq<AgentEvent>) {
    if parent !in n.preview then (n, [])
    else
      var shown := ShownAll(n.preview[parent]);
      if parent in n.signatures && n.signatures[parent] == shown then (n, [])
      else
        (n.(signatures := n.signatures[parent := shown]),
         [ToolExecutionUpdate(parent, ToolName(StateOf(tools, parent)), Preview(shown))])
  }

  function OnText(s: Turn, source: Source, text: string): Option<(Turn, seq<AgentEvent>)> {
    var (t, begin) := Begin(s);
    match Fresh(s.streamed, source, text)
    case None => None
    case Some(added) =>
      var u := t.(streamed := StreamedAfter(s.streamed, source, text));
      if added == "" then Some((u, begin))
      else
        var message := AppendText(u.message, added);
        Some((u.(message := message), begin + [MessageUpdate(message, TextAdded(added))]))
  }

  function ReasoningOf(s: Turn, id: string): string {
    if id in s.reasoning then s.reasoning[id] else ""
  }

  function StartInfo(id: string, toolName: string, input: Value): NestedTool {
    NestedTool(id, toolName, Running, Some(input), None, None)
  }

  function ResultInfo(id: string, toolName: string, result: Value, isError: bool): NestedTool {
    NestedTool(id, toolName, if isError then Broken else Succeeded, None,
               if isError then None else Some(result), if isError then Some(result) else None)
  }

  function Registered(n: Nest, parent: string, info: NestedTool): map<string, seq<NestedTool>> {
    n.nested[parent := Upserted(StoreOf(n.nested, parent), info)]
  }

  /** Registers a child under its parent in both trackers. */
  function WithChild(n: Nest, parent: string, info: NestedTool, entry: PreviewEntry): Nest {
    n.(nested := Registered(n, parent, info),
        preview := n.preview[parent := EntriesOf(n.preview, parent)[info.id := entry]])
  }

  /** A started child is registered with its parent, whose preview may change. */
  function Announce(env: Env, n: Nest, tools: map<string, ToolState>, id: string, toolName: string, input: Value,
                    parent: Option<string>): (Nest, seq<AgentEvent>)
  {
    match parent
    case None => (n, [])
    case Some(p) =>
      var entry := PreviewEntry(env.canonical(toolName), "running", input, None, None);
      EmitPreview(WithChild(n, p, StartInfo(id, toolName, input), entry), tools, p)
  }

  function OnToolStart(env: Env, s: Turn, id: string, toolName: string, input: Value,
          parent: Option<string>): Option<(Turn, seq<AgentEvent>)> {
    var (t, begin) := Begin(s);
    match Move(s.tools, id, ToStarted(toolName))
    case None => None
    case Some(tools) =>
      var (nest, preview) := Announce(env, s.nest, tools, id, toolName, input, parent);
      Some((t.(tools := tools, streamed := 0, nest := nest),
            begin + [ToolExecutionStart(id, env.canonical(toolName), input)] + preview))
  }

  function OnToolInput(s: Turn, id: string, fragment: string): Option<(Turn, seq<AgentEvent>)> {
    match Move(s.tools, id, ToInput(fragment))
    case None => None
    case Some(tools) =>
      Some((s.(tools := tools),
            [ToolExecutionUpdate(id, ToolName(StateOf(tools, id)), InputFragment(fragment)),
             MessageUpdate(s.message, ToolInputAdded(id, fragment))]))
  }

  predicate HasCall(message: Message, id: string) {
    exists i | 0 <= i < |message| :: message[i].ToolUseBlock? && message[i].call.id == id
  }

  /** `append_tool_use_block` */
  function AppendCall(message: Message, call: ToolCall): Message {
    if HasCall(message, call.id) then message else message + [ToolUseBlock(call)]
  }

  function CallOf(env: Env, id: string, toolName: string, finalInput: string, parent: Option<string>): ToolCall {
    ToolCall(id, env.canonical(toolName), R.Default(env.parseJson(finalInput), String(finalInput)), parent)
  }

  function OnToolComplete(env: Env, s: Turn, id: string, toolName: string, finalInput: string,
          parent: Option<string>): Option<(Turn, seq<AgentEvent>)> {
    match Move(s.tools, id, ToExecuting(toolName, finalInput))
    case None => None
    case Some(tools) =>
      var call := CallOf(env, id, toolName, finalInput, parent);
      var message := AppendCall(s.message, call);
      Some((s.(tools := tools, streamed := 0, message := message), [MessageUpdate(message, ToolUseAdded(call))]))
  }

  function ResultEntry(n: Nest, parent: string, id: string, canonical: string, result: Value,
          isError: bool): PreviewEntry {
    var entries := EntriesOf(n.preview, parent);
    PreviewEntry(canonical, if isError then "error" else "completed",
                 if id in entries then entries[id].input else Null,
                 if isError then None else Some(result), if isError then Some(result) else None)
  }

  /** A child's result is registered with its parent, whose preview may change. */
  function FileResult(env: Env, n: Nest, tools: map<string, ToolState>, id: string, toolName: string, result: Value,
                      isError: bool, parent: string): (Nest, seq<AgentEvent>)
  {
    var entry := ResultEntry(n, parent, id, env.canonical(toolName), result, isError);
    EmitPreview(WithChild(n, parent, ResultInfo(id, toolName, result, isError), entry), tools, parent)
  }

  /** A child's result goes to its parent's trackers; a parent's takes its children with it. */
  function Settle(env: Env, n: Nest, tools: map<string, ToolState>, id: string, toolName: string, result: Value,
                  isError: bool, parent: Option<string>): (Nest, seq<AgentEvent>, Value)
  {
    match parent
    case Some(p) =>
      var (nest, preview) := FileResult(env, n, tools, id, toolName, result, isError, p);
      (nest, preview, result)
    case None =>
      (Nest(n.nested - {id}, n.preview - {id}, n.signatures - {id}), [], MergedResult(StoreOf(n.nested, id), result))
  }

  function OnToolResult(env: Env, s: Turn, id: string, toolName: string, content: seq<ToolContent>, result: Value,
                        isError: bool, parent: Option<string>): Option<(Turn, seq<AgentEvent>)> {
    match Move(s.tools, id, ToCompleted(!isError))
    case None => None
    case Some(tools) =>
      var (nest, preview, shown) := Settle(env, s.nest, tools, id, toolName, result, isError, parent);
      var results := if parent.Some? then s.results
                     else s.results + [ToolResult(id, env.canonical(toolName), content, isError, None)];
      Some((s.(tools := tools, streamed := 0, nest := nest, results := results),
            preview + [ToolExecutionEnd(id, env.canonical(toolName), shown, isError)]))
  }

  function OnFinish(s: Turn, isError: bool): (Turn, seq<AgentEvent>) {
    var (t, begin) := Begin(s.(streamed := 0, finished := true, failed := isError));
    var ended := begin + [MessageEnd(t.message)];
    (t, (if isError then ended else ended + [TurnEnd(t.message, t.results)]) + [Custom("claude_code.finish")])
  }

  function OnTruncation(s: Turn): (Turn, seq<AgentEvent>) {
    var (t, begin) := Begin(s.(finished := true));
    (t, begin + [MessageEnd(t.message)] + [TurnEnd(t.message, t.results)] + [Custom("claude_code.stream_retry_marker")])
  }

  /** One input: the turn after it and the events emitted, or rejection, which ends the stream. */
  function Handle(env: Env, s: Turn, input: Input): Option<(Turn, seq<AgentEvent>)> {
    match input
    case Truncated => Some(OnTruncation(s))
    case Parsed(TextDelta(source, text)) => OnText(s, if source.FromStream? then Streamed else Snapshot, text)
    case Parsed(ReasoningStart(id)) =>
      Some((s.(reasoning := s.reasoning[id := ReasoningOf(s, id)]), [ReasoningStart(id)]))
    case Parsed(ReasoningDelta(id, text)) =>
      Some((s.(reasoning := s.reasoning[id := ReasoningOf(s, id) + text]), [ReasoningDelta(id, text)]))
    case Parsed(ReasoningComplete(id, fullText)) =>
      Some((s.(reasoning := s.reasoning - {id}),
            [ReasoningComplete(id, if fullText == "" then ReasoningOf(s, id) else fullText)]))
    case Parsed(ToolUseStart(_, id, name, input, _, parent)) => OnToolStart(env, s, id, name, input, parent)
    case Parsed(ToolUseInputDelta(id, delta, _)) => OnToolInput(s, id, delta)
    case Parsed(ToolUseComplete(_, id, name, final, parent)) => OnToolComplete(env, s, id, name, final, parent)
    case Parsed(ToolResult(id, name, content, result, isError, parent)) =>
      OnToolResult(env, s, id, name, content, result, isError, parent)
    case Parsed(ToolProgress(id, name, text)) =>
      Some((s, [ToolExecutionUpdate(id, env.canonical(name), ProgressNote(text))]))
    case Parsed(Metadata(session, model)) =>
      Some((s, if session.None? && model.None? then [] else [Custom("claude_code.metadata")]))
    case Parsed(RateLimit(_)) => Some((s, [Custom("claude_code.rate_limit")]))
    case Parsed(Finish(_, _, isError, _, _)) => Some(OnFinish(s, isError))
  }

  /** A whole run: the turn and everything emitted since the turn started, or None once an
      input was rejected. */
  function Run(env: Env, inputs: seq<Input>): Option<(Turn, seq<AgentEvent>)> {
    if inputs == [] then Some((NEW_TURN, [TurnStart]))
    else
      match Run(env, inputs[..|inputs| - 1])
      case None => None
      case Some((s, trace)) =>
        match Handle(env, s, inputs[|inputs| - 1])
        case None => None
        case Some((t, emitted)) => Some((t, trace + emitted))
  }
}
