// The Claude stream-json parser (crates/arky-claude-code/src/parser.rs), from records whose
// fields have been looked up, and the agreement between it and the tool tracker.

module ClaudeRecords {
  import opened Prelude
  import opened JsonValues
  import AgentEvents

  /** Content blocks; strings are trimmed and a blank one counts as absent. */
  datatype Block =
    | ToolUse(id: Option<string>, name: Option<string>, input: Option<Json>, parent: Option<string>)
    | Thinking(id: Option<string>, thinking: string)
    | Text(text: string)
    | ToolResultBlock(id: Option<string>, name: Option<string>, content: Value, isError: bool, parent: Option<string>)
    | OtherBlock

  datatype Delta = TextFragment(text: string) | InputJson(partialJson: string) | ThinkingFragment(text: string)
      | OtherDelta

  /** `Malformed` stands for a record the parser refuses before looking at its content. */
  datatype Record =
    | Malformed
    | System(init: bool, sessionId: Option<string>)
    | BlockStart(index: Option<nat>, block: Option<Block>, parent: Option<string>)
    | BlockDelta(index: Option<nat>, delta: Option<Delta>)
    | BlockStop(index: Option<nat>)
    | OtherStreamEvent
    | Assistant(content: seq<Block>, parent: Option<string>, error: Option<string>)
    | User(content: seq<Block>, parent: Option<string>)
    | Progress(id: Option<string>, name: Option<string>, text: Option<string>)
    | RateLimited(sessionId: Option<string>)
    | ResultRecord(sessionId: Option<string>, model: Option<string>, stopReason: Option<string>,
                   isError: bool, outcome: Option<string>)

  datatype Source = FromStream | FromSnapshot

  datatype Normalized =
    | TextDelta(source: Source, text: string)
    | ReasoningStart(id: string)
    | ReasoningDelta(id: string, text: string)
    | ReasoningComplete(id: string, fullText: string)
    | ToolUseStart(source: Source, id: string, toolName: string, input: Value, inputSnapshot: string,
        parent: Option<string>)
    | ToolUseInputDelta(id: string, delta: string, parent: Option<string>)
    | ToolUseComplete(source: Source, id: string, toolName: string, finalInput: string, parent: Option<string>)
    | ToolResult(id: string, toolName: string, content: seq<AgentEvents.ToolContent>, result: Value, isError: bool,
        parent: Option<string>)
    | ToolProgress(id: string, toolName: string, text: string)
    | Metadata(sessionId: Option<string>, modelId: Option<string>)
    | RateLimit(sessionId: Option<string>)
    | Finish(reason: string, sessionId: Option<string>, isError: bool, outcome: Option<string>,
        errorCode: Option<string>)

  function Or<T>(a: Option<T>, b: Option<T>): Option<T> {
    if a.Some? then a else b
  }

  function Default<T>(a: Option<T>, d: T): T {
    match a
    case Some(v) => v
    case None => d
  }

  function TextField(fields: map<string, Value>, key: string): string {
    if key in fields && fields[key].String? then fields[key].s else ""
  }

  /** The text items of an array; items of other kinds are dropped. */
  function TextItems(items: seq<Value>): seq<AgentEvents.ToolContent> {
    if items == [] then []
    else
      (match items[0]
       case Object(fields) =>
         if TextField(fields, "type") == "text" then [AgentEvents.TextContent(TextField(fields, "text"))] else []
       case _ => [])
      + TextItems(items[1..])
  }

  /** `parse_tool_content` */
  function ParseToolContent(raw: Value): seq<AgentEvents.ToolContent> {
    match raw
    case String(text) => [AgentEvents.TextContent(text)]
    case Array(items) => TextItems(items)
    case Null => []
    case other => [AgentEvents.JsonContent(other)]
  }

  function ContentItem(item: AgentEvents.ToolContent): Value {
    match item
    case TextContent(text) => Object(map["type" := String("text"), "text" := String(text)])
    case JsonContent(value) => Object(map["type" := String("json"), "value" := value])
  }

  /** `tool_content_to_value` */
  function ContentValue(content: seq<AgentEvents.ToolContent>): Value {
    if content == [] then Null
    else if |content| == 1 then
      (match content[0] case TextContent(text) => String(text) case JsonContent(value) => value)
    else Array(seq(|content|, i requires 0 <= i < |content| => ContentItem(content[i])))
  }
}

/** What the parser does with one record. */
module ClaudeParsing {
  import opened Prelude
  import opened JsonValues
  import opened ClaudeRecords
  import Decimal
  import StableJsonText

  datatype ActiveTool = ActiveTool(id: string, toolName: string, input: string, parent: Option<string>)

  datatype ActiveReasoning = ActiveReasoning(id: string, fullText: string)

  datatype Parser = Parser(
    tools: map<nat, ActiveTool>, reasoning: map<nat, ActiveReasoning>, seen: set<string>,
    sawStream: bool, lastError: Option<string>)

  const FRESH_PARSER: Parser := Parser(map[], map[], {}, false, None)

  function InputOf(block: Block): Json
    requires block.ToolUse?
  {
    Default(block.input, JObject([]))
  }

  /** `serde_json::to_string`, which prints sorted objects exactly as `stable_json` does. */
  function Printed(input: Json): string {
    StableJsonText.StableJson(input)
  }

  function Numbered(n: nat): string {
    "reasoning-" + Decimal.ShowNat(n)
  }

  function OnBlockStart(p: Parser, index: nat, block: Block,
          parent: Option<string>): Option<(Parser, seq<Normalized>)> {
    match block
    case ToolUse(Some(id), Some(name), _, _) =>
      var snapshot := Printed(InputOf(block));
      Some((p.(tools := p.tools[index := ActiveTool(id, name, snapshot, parent)], seen := p.seen + {id}),
            [ToolUseStart(FromStream, id, name, Denote(InputOf(block)), snapshot, parent)]))
    case ToolUse(_, _, _, _) => None
    case Thinking(id, _) =>
      var id := Default(id, Numbered(index));
      Some((p.(reasoning := p.reasoning[index := ActiveReasoning(id, "")]), [ReasoningStart(id)]))
    case _ => Some((p, []))
  }

  function OnBlockDelta(p: Parser, index: nat, delta: Delta): Option<(Parser, seq<Normalized>)> {
    match delta
    case TextFragment(text) => Some((p, [TextDelta(FromStream, text)]))
    case InputJson(partialJson) =>
      if index !in p.tools then None
      else
        var tool := p.tools[index];
        Some((p.(tools := p.tools[index := tool.(input := tool.input + partialJson)]),
              [ToolUseInputDelta(tool.id, partialJson, tool.parent)]))
    case ThinkingFragment(text) =>
      if index !in p.reasoning then Some((p, []))
      else
        var r := p.reasoning[index];
        Some((p.(reasoning := p.reasoning[index := r.(fullText := r.fullText + text)]), [ReasoningDelta(r.id, text)]))
    case OtherDelta => Some((p, []))
  }

  function OnBlockStop(p: Parser, index: nat): (Parser, seq<Normalized>) {
    if index in p.tools then
      var tool := p.tools[index];
      (p.(tools := p.tools - {index}), [ToolUseComplete(FromStream, tool.id, tool.toolName, tool.input, tool.parent)])
    else if index in p.reasoning then
      (p.(reasoning := p.reasoning - {index}), [ReasoningComplete(p.reasoning[index].id, p.reasoning[index].fullText)])
    else (p, [])
  }

  /** What one block of an assistant snapshot adds; `before` counts the events already there. */
  function OnAssistantBlock(p: Parser, block: Block, parent: Option<string>, before: nat): Option<seq<Normalized>> {
    match block
    case Text(text) => Some([TextDelta(FromSnapshot, text)])
    case Thinking(id, text) =>
      if p.sawStream then Some([])
      else
        var id := Default(id, Numbered(before + 1));
        Some([ReasoningStart(id)] + (if text == "" then [] else [ReasoningDelta(id, text)])
            + [ReasoningComplete(id, text)])
    case ToolUse(id, name, _, own) =>
      if id.None? then None
      else if p.sawStream && id.value in p.seen then Some([])
      else if name.None? then None
      else
        var snapshot := Printed(InputOf(block));
        Some([ToolUseStart(FromSnapshot, id.value, name.value, Denote(InputOf(block)), snapshot, Or(own, parent)),
              ToolUseComplete(FromSnapshot, id.value, name.value, snapshot, Or(own, parent))])
    case _ => Some([])
  }

  function OnAssistant(p: Parser, content: seq<Block>, parent: Option<string>): Option<seq<Normalized>> {
    if content == [] then Some([])
    else
      match OnAssistant(p, content[..|content| - 1], parent)
      case None => None
      case Some(events) =>
        match OnAssistantBlock(p, content[|content| - 1], parent, |events|)
        case None => None
        case Some(more) => Some(events + more)
  }

  function OnUserBlock(block: Block, parent: Option<string>): Option<seq<Normalized>> {
    match block
    case ToolResultBlock(id, name, raw, isError, own) =>
      if id.None? then None
      else
        var content := ParseToolContent(raw);
        Some([ToolResult(id.value, Default(name, "unknown"), content, ContentValue(content), isError, Or(own, parent))])
    case _ => Some([])
  }

  function OnUser(content: seq<Block>, parent: Option<string>): Option<seq<Normalized>> {
    if content == [] then Some([])
    else
      match (OnUser(content[..|content| - 1], parent), OnUserBlock(content[|content| - 1], parent))
      case (Some(events), Some(more)) => Some(events + more)
      case _ => None
  }

  /** `parse_value`: the parser after a record and the events it emits, if it accepts. */
  function Parse(p: Parser, r: Record): Option<(Parser, seq<Normalized>)> {
    var q := p.(sawStream := true);
    match r
    case Malformed => None
    case System(init, sessionId) => Some((p, if init || sessionId.Some? then [Metadata(sessionId, None)] else []))
    case BlockStart(Some(index), Some(block), parent) => OnBlockStart(q, index, block, parent)
    case BlockDelta(Some(index), Some(delta)) => OnBlockDelta(q, index, delta)
    case BlockStop(Some(index)) => Some(OnBlockStop(q, index))
    case OtherStreamEvent => Some((q, []))
    case Assistant(content, parent, error) =>
      (match OnAssistant(p, content, parent)
       case Some(events) => Some((p.(lastError := error), events))
       case None => None)
    case User(content, parent) =>
      (match OnUser(content, parent)
       case Some(events) => Some((p, events))
       case None => None)
    case Progress(id, name, text) =>
      if id.None? then None else Some((p, [ToolProgress(id.value, Default(name, "unknown"), Default(text, "running"))]))
    case RateLimited(sessionId) => Some((p, [RateLimit(sessionId)]))
    case ResultRecord(sessionId, model, stopReason, isError, outcome) =>
      Some((p.(lastError := None),
            [Metadata(sessionId, model), Finish(Default(stopReason, "unknown"), sessionId, isError, outcome,
                p.lastError)]))
    case _ => None
  }

  class ClaudeEventParser {
    var tools: map<nat, ActiveTool>
    var reasoning: map<nat, ActiveReasoning>
    var seenStreamToolCallIds: set<string>
    var hasSeenStreamEvents: bool
    var lastErrorCode: Option<string>

    ghost function Now(): Parser
      reads this
    {
      Parser(tools, reasoning, seenStreamToolCallIds, hasSeenStreamEvents, lastErrorCode)
    }

    constructor ()
      ensures Now() == FRESH_PARSER
    {
      tools, reasoning, seenStreamToolCallIds, hasSeenStreamEvents, lastErrorCode := map[], map[], {}, false, None;
    }

    method ParseBlockStart(index: nat, block: Block, parent: Option<string>) returns (events: Option<seq<Normalized>>)
      modifies this
      ensures OnBlockStart(old(Now()), index, block, parent)
           == if events.Some? then Some((Now(), events.value)) else None
    {
      match block
      case ToolUse(id, name, _, _) =>
        if id.None? || name.None? {
          return None;
        }
        var input := InputOf(block);
        var snapshot := Printed(input);
        tools := tools[index := ActiveTool(id.value, name.value, snapshot, parent)];
        seenStreamToolCallIds := seenStreamToolCallIds + {id.value};
        events := Some([ToolUseStart(FromStream, id.value, name.value, Denote(input), snapshot, parent)]);
      case Thinking(id, _) =>
        var reasoningId := Default(id, Numbered(index));
        reasoning := reasoning[index := ActiveReasoning(reasoningId, "")];
        events := Some([ReasoningStart(reasoningId)]);
      case _ => events := Some([]);
    }

    method ParseBlockDelta(index: nat, delta: Delta) returns (events: Option<seq<Normalized>>)
      modifies this
      ensures OnBlockDelta(old(Now()), index, delta) == if events.Some? then Some((Now(), events.value)) else None
    {
      match delta
      case TextFragment(text) => events := Some([TextDelta(FromStream, text)]);
      case InputJson(partialJson) =>
        if index !in tools {
          return None;
        }
        var tool := tools[index];
        tools := tools[index := tool.(input := tool.input + partialJson)];
        events := Some([ToolUseInputDelta(tool.id, partialJson, tool.parent)]);
      case ThinkingFragment(text) =>
        if index !in reasoning {
          return Some([]);
        }
        var active := reasoning[index];
        reasoning := reasoning[index := active.(fullText := active.fullText + text)];
        events := Some([ReasoningDelta(active.id, text)]);
      case OtherDelta => events := Some([]);
    }

    method ParseBlockStop(index: nat) returns (events: seq<Normalized>)
      modifies this
      ensures OnBlockStop(old(Now()), index) == (Now(), events)
    {
      if index in tools {
        var tool := tools[index];
        tools := tools - {index};
        return [ToolUseComplete(FromStream, tool.id, tool.toolName, tool.input, tool.parent)];
      }
      if index !in reasoning {
        return [];
      }
      var active := reasoning[index];
      reasoning := reasoning - {index};
      events := [ReasoningComplete(active.id, active.fullText)];
    }

    method ParseAssistant(content: seq<Block>, parent: Option<string>) returns (events: Option<seq<Normalized>>)
      ensures events == OnAssistant(Now(), content, parent)
    {
      var collected := [];
      var i := 0;
      while i < |content|
        invariant 0 <= i <= |content| && OnAssistant(Now(), content[..i], parent) == Some(collected)
      {
        var more := OnAssistantBlock(Parser(tools, reasoning, seenStreamToolCallIds, hasSeenStreamEvents,
            lastErrorCode),
                                     content[i], parent, |collected|);
        assert content[..i + 1][..i] == content[..i];
        if more.None? {
          AssistantStopsAt(Now(), content, parent, i + 1);
          return None;
        }
        collected := collected + more.value;
        i := i + 1;
      }
      assert content[..i] == content;
      events := Some(collected);
    }

    method ParseUser(content: seq<Block>, parent: Option<string>) returns (events: Option<seq<Normalized>>)
      ensures events == OnUser(content, parent)
    {
      var collected := [];
      var i := 0;
      while i < |content|
        invariant 0 <= i <= |content| && OnUser(content[..i], parent) == Some(collected)
      {
        var more := OnUserBlock(content[i], parent);
        assert content[..i + 1][..i] == content[..i];
        if more.None? {
          UserStopsAt(content, parent, i + 1);
          return None;
        }
        collected := collected + more.value;
        i := i + 1;
      }
      assert content[..i] == content;
      events := Some(collected);
    }

    method ParseRecord(r: Record) returns (events: Option<seq<Normalized>>)
      modifies this
      ensures Parse(old(Now()), r) == if events.Some? then Some((Now(), events.value)) else None
    {
      match r
      case BlockStart(Some(index), Some(block), parent) =>
        hasSeenStreamEvents := true;
        events := ParseBlockStart(index, block, parent);
      case BlockDelta(Some(index), Some(delta)) =>
        hasSeenStreamEvents := true;
        events := ParseBlockDelta(index, delta);
      case BlockStop(Some(index)) =>
        hasSeenStreamEvents := true;
        var stopped := ParseBlockStop(index);
        events := Some(stopped);
      case OtherStreamEvent =>
        hasSeenStreamEvents := true;
        events := Some([]);
      case Assistant(content, parent, error) =>
        ghost var before := Now();
        lastErrorCode := error;
        events := ParseAssistant(content, parent);
        ErrorCodePlaysNoPart(before, error, content, parent);
      case User(content, parent) => events := ParseUser(content, parent);
      case System(init, sessionId) =>
        events := Some(if init || sessionId.Some? then [Metadata(sessionId, None)] else []);
      case Progress(id, name, text) =>
        events := if id.None? then None
                  else Some([ToolProgress(id.value, Default(name, "unknown"), Default(text, "running"))]);
      case RateLimited(sessionId) => events := Some([RateLimit(sessionId)]);
      case ResultRecord(sessionId, model, stopReason, isError, outcome) =>
        var errorCode := lastErrorCode;
        lastErrorCode := None;
        events := Some([Metadata(sessionId, model),
                        Finish(Default(stopReason, "unknown"), sessionId, isError, outcome, errorCode)]);
      case _ => events := None;
    }
  }

  lemma {:induction false} AssistantStopsAt(p: Parser, content: seq<Block>, parent: Option<string>, i: nat)
    requires i <= |content| && OnAssistant(p, content[..i], parent) == None
    ensures OnAssistant(p, content, parent) == None
    decreases |content| - i
  {
    if i == |content| {
      assert content[..i] == content;
    } else {
      assert content[..i + 1][..i] == content[..i];
      AssistantStopsAt(p, content, parent, i + 1);
    }
  }

  lemma {:induction false} UserStopsAt(content: seq<Block>, parent: Option<string>, i: nat)
    requires i <= |content| && OnUser(content[..i], parent) == None
    ensures OnUser(content, parent) == None
    decreases |content| - i
  {
    if i == |content| {
      assert content[..i] == content;
    } else {
      assert content[..i + 1][..i] == content[..i];
      UserStopsAt(content, parent, i + 1);
    }
  }

  lemma {:induction false} ErrorCodePlaysNoPart(p: Parser, error: Option<string>, content: seq<Block>,
          parent: Option<string>)
    ensures OnAssistant(p.(lastError := error), content, parent) == OnAssistant(p, content, parent)
  {
    if content != [] {
      ErrorCodePlaysNoPart(p, error, content[..|content| - 1], parent);
    }
  }
}

/** The parser feeding the tool tracker: which transcripts get through, and what a streamed
    tool input ends up as. */
module ClaudeAgreement {
  import opened Prelude
  import opened JsonValues
  import opened ToolFsm
  import opened ClaudeRecords
  import opened ClaudeParsing

  /** What the tracker makes of one parser event. */
  function TrackOne(states: map<string, ToolState>, e: Normalized): Option<map<string, ToolState>> {
    match e
    case ToolUseStart(_, id, name, _, _, _) => Move(states, id, ToStarted(name))
    case ToolUseInputDelta(id, delta, _) => Move(states, id, ToInput(delta))
    case ToolUseComplete(_, id, name, final, _) => Move(states, id, ToExecuting(name, final))
    case ToolResult(id, _, _, _, isError, _) => Move(states, id, ToCompleted(!isError))
    case _ => Some(states)
  }

  function Track(states: map<string, ToolState>, events: seq<Normalized>): Option<map<string, ToolState>> {
    if events == [] then Some(states)
    else
      match Track(states, events[..|events| - 1])
      case Some(now) => TrackOne(now, events[|events| - 1])
      case None => None
  }

  lemma {:induction false} TrackConcat(states: map<string, ToolState>, a: seq<Normalized>, b: seq<Normalized>)
    ensures Track(states, a + b) == match Track(states, a) case Some(now) => Track(now, b) case None => None
    decreases |b|
  {
    if b == [] {
      assert a + b == a;
    } else {
      TrackConcat(states, a, b[..|b| - 1]);
      assert (a + b)[..|a + b| - 1] == a + b[..|b| - 1];
    }
  }

  lemma {:induction false} TrackTwo(states: map<string, ToolState>, a: Normalized, b: Normalized)
    ensures Track(states, [a]) == TrackOne(states, a)
    ensures Track(states, [a, b]) == match TrackOne(states, a) case Some(now) => TrackOne(now, b) case None => None
  {}

  /** Parser and tracker after a transcript, if neither rejects it. */
  function Pipeline(records: seq<Record>): Option<(Parser, map<string, ToolState>)> {
    if records == [] then Some((FRESH_PARSER, map[]))
    else
      match Pipeline(records[..|records| - 1])
      case None => None
      case Some((p, states)) =>
        match Parse(p, records[|records| - 1])
        case None => None
        case Some((q, events)) =>
          match Track(states, events)
          case None => None
          case Some(now) => Some((q, now))
  }

  /** What a reader of the transcript alone has to keep in mind: the tool of each open block,
      the tools whose input is still coming or whose result is, and those ever streamed. */
  datatype Ledger = Ledger(blocks: map<nat, string>, collecting: set<string>, awaiting: set<string>,
      streamed: set<string>)

  const EMPTY_LEDGER: Ledger := Ledger(map[], {}, {}, {})

  predicate InFlight(l: Ledger, id: string) {
    id in l.collecting || id in l.awaiting
  }

  function LedgerBlock(l: Ledger, block: Block): Option<Ledger> {
    match block
    case ToolUse(id, name, _, _) =>
      if id.None? then None
      else if id.value in l.streamed then Some(l)
      else if name.None? || InFlight(l, id.value) then None
      else Some(l.(awaiting := l.awaiting + {id.value}))
    case _ => Some(l)
  }

  function LedgerResult(l: Ledger, block: Block): Option<Ledger> {
    match block
    case ToolResultBlock(id, _, _, _, _) =>
      if id.Some? && id.value in l.awaiting then Some(l.(awaiting := l.awaiting - {id.value})) else None
    case _ => Some(l)
  }

  function LedgerBlocks(l: Ledger, content: seq<Block>, results: bool): Option<Ledger> {
    if content == [] then Some(l)
    else
      match LedgerBlocks(l, content[..|content| - 1], results)
      case Some(now) =>
        if results then LedgerResult(now, content[|content| - 1]) else LedgerBlock(now, content[|content| - 1])
      case None => None
  }

  /** The rules a transcript has to follow, record by record: no tool starts while it is in
      flight, input fragments belong to an open tool block, a result answers a tool whose
      input is complete, and every record has the fields it needs. */
  function LedgerStep(l: Ledger, r: Record): Option<Ledger> {
    match r
    case Malformed => None
    case BlockStart(Some(index), Some(ToolUse(Some(id), Some(_), _, _)), _) =>
      if InFlight(l, id) then None
      else Some(l.(blocks := l.blocks[index := id], collecting := l.collecting + {id}, streamed := l.streamed + {id}))
    case BlockStart(Some(_), Some(block), _) => if block.ToolUse? then None else Some(l)
    case BlockDelta(Some(index), Some(delta)) => if delta.InputJson? && index !in l.blocks then None else Some(l)
    case BlockStop(Some(index)) =>
      if index in l.blocks then
        Some(l.(blocks := l.blocks - {index}, collecting := l.collecting - {l.blocks[index]},
                awaiting := l.awaiting + {l.blocks[index]}))
      else Some(l)
    case BlockStart(_, _, _) => None
    case BlockDelta(_, _) => None
    case BlockStop(_) => None
    case Assistant(content, _, _) => LedgerBlocks(l, content, false)
    case User(content, _) => LedgerBlocks(l, content, true)
    case Progress(id, _, _) => if id.None? then None else Some(l)
    case _ => Some(l)
  }

  function LedgerOf(records: seq<Record>): Option<Ledger> {
    if records == [] then Some(EMPTY_LEDGER)
    else
      match LedgerOf(records[..|records| - 1])
      case Some(l) => LedgerStep(l, records[|records| - 1])
      case None => None
  }

  predicate BlocksAgree(p: Parser, l: Ledger) {
    && p.tools.Keys == l.blocks.Keys
    && (forall i | i in l.blocks :: p.tools[i].id == l.blocks[i] && l.blocks[i] in l.collecting)
    && (forall i, j | i in l.blocks && j in l.blocks && i != j :: l.blocks[i] != l.blocks[j])
    && p.seen == l.streamed
    && (p.seen != {} ==> p.sawStream)
  }

  predicate Collecting(state: ToolState) {
    state.Started? || state.InputReceiving?
  }

  ghost predicate StatesAgree(states: map<string, ToolState>, l: Ledger) {
    forall id :: (Collecting(StateOf(states, id)) <==> id in l.collecting)
                 && (StateOf(states, id).Executing? <==> id in l.awaiting)
  }

  ghost predicate Agree(p: Parser, states: map<string, ToolState>, l: Ledger) {
    BlocksAgree(p, l) && StatesAgree(states, l)
  }

  /** Both sides accept and agree again, or both refuse. */
  ghost predicate SameVerdict(p: Parser, states: map<string, ToolState>, l: Ledger,
                        parsed: Option<(Parser, seq<Normalized>)>, next: Option<Ledger>)
  {
    match next
    case Some(m) => parsed.Some? && Track(states, parsed.value.1).Some?
        && Agree(parsed.value.0, Track(states, parsed.value.1).value, m)
    case None => parsed.None? || Track(states, parsed.value.1).None?
  }

  lemma {:induction false} BlockStartAgrees(p: Parser, states: map<string, ToolState>, l: Ledger, index: nat,
          block: Block, parent: Option<string>)
    requires Agree(p, states, l)
    ensures var r := BlockStart(Some(index), Some(block), parent);
            SameVerdict(p, states, l, Parse(p, r), LedgerStep(l, r))
  {
    var r := BlockStart(Some(index), Some(block), parent);
    match Parse(p, r)
    case Some((_, events)) =>
      if |events| == 1 {
        TrackTwo(states, events[0], events[0]);
      }
    case None =>
  }

  lemma {:induction false} BlockDeltaAgrees(p: Parser, states: map<string, ToolState>, l: Ledger, index: nat,
          delta: Delta)
    requires Agree(p, states, l)
    ensures var r := BlockDelta(Some(index), Some(delta));
            SameVerdict(p, states, l, Parse(p, r), LedgerStep(l, r))
  {
    var r := BlockDelta(Some(index), Some(delta));
    match Parse(p, r)
    case Some((_, events)) =>
      if |events| == 1 {
        TrackTwo(states, events[0], events[0]);
      }
    case None =>
  }

  lemma {:induction false} InputCompletes(states: map<string, ToolState>, l: Ledger, id: string,
          now: map<string, ToolState>)
    requires StatesAgree(states, l) && id in now && now[id].Executing? && now == states[id := now[id]]
    ensures StatesAgree(now, l.(collecting := l.collecting - {id}, awaiting := l.awaiting + {id}))
  {}

  lemma {:induction false} BlockStopAgrees(p: Parser, states: map<string, ToolState>, l: Ledger, index: nat)
    requires Agree(p, states, l)
    ensures var r := BlockStop(Some(index));
            SameVerdict(p, states, l, Parse(p, r), LedgerStep(l, r))
  {
    if index in l.blocks {
      var tool := p.tools[index];
      var e := ToolUseComplete(FromStream, tool.id, tool.toolName, tool.input, tool.parent);
      TrackTwo(states, e, e);
      InputCompletes(states, l, tool.id, TrackOne(states, e).value);
    } else if index in p.reasoning {
      var e := ReasoningComplete(p.reasoning[index].id, p.reasoning[index].fullText);
      TrackTwo(states, e, e);
    }
  }

  lemma {:induction false} UntrackedEvents(states: map<string, ToolState>, events: seq<Normalized>)
    requires forall i | 0 <= i < |events| :: TrackOne(states, events[i]) == Some(states)
    ensures Track(states, events) == Some(states)
  {
    if events != [] {
      UntrackedEvents(states, events[..|events| - 1]);
    }
  }

  lemma {:induction false} SnapshotToolAgrees(p: Parser, states: map<string, ToolState>, l: Ledger, block: Block,
          parent: Option<string>, before: nat)
    requires Agree(p, states, l) && block.ToolUse?
    ensures var events := OnAssistantBlock(p, block, parent, before);
            SameVerdict(p, states, l, if events.Some? then Some((p, events.value)) else None, LedgerBlock(l, block))
  {
    match OnAssistantBlock(p, block, parent, before)
    case Some(events) =>
      if events != [] {
        TrackTwo(states, events[0], events[1]);
      }
    case None =>
  }

  lemma {:induction false} AssistantBlockAgrees(p: Parser, states: map<string, ToolState>, l: Ledger, block: Block,
          parent: Option<string>, before: nat)
    requires Agree(p, states, l)
    ensures var events := OnAssistantBlock(p, block, parent, before);
            SameVerdict(p, states, l, if events.Some? then Some((p, events.value)) else None, LedgerBlock(l, block))
  {
    if block.ToolUse? {
      SnapshotToolAgrees(p, states, l, block, parent, before);
    } else {
      UntrackedEvents(states, OnAssistantBlock(p, block, parent, before).value);
    }
  }

  lemma {:induction false} AssistantAgrees(p: Parser, states: map<string, ToolState>, l: Ledger, content: seq<Block>,
          parent: Option<string>)
    requires Agree(p, states, l)
    ensures var events := OnAssistant(p, content, parent);
            SameVerdict(p, states, l, if events.Some? then Some((p, events.value)) else None,
                LedgerBlocks(l, content, false))
  {
    if content != [] {
      var front, last := content[..|content| - 1], content[|content| - 1];
      AssistantAgrees(p, states, l, front, parent);
      var events := OnAssistant(p, front, parent);
      if events.Some? {
        var more := OnAssistantBlock(p, last, parent, |events.value|);
        if more.Some? {
          TrackConcat(states, events.value, more.value);
        }
        if LedgerBlocks(l, front, false).Some? {
          AssistantBlockAgrees(p, Track(states, events.value).value, LedgerBlocks(l, front, false).value, last, parent,
              |events.value|);
        }
      }
    }
  }

  lemma {:induction false} UserBlockAgrees(p: Parser, states: map<string, ToolState>, l: Ledger, block: Block,
          parent: Option<string>)
    requires Agree(p, states, l)
    ensures var events := OnUserBlock(block, parent);
            SameVerdict(p, states, l, if events.Some? then Some((p, events.value)) else None, LedgerResult(l, block))
  {
    match OnUserBlock(block, parent)
    case Some(events) =>
      if |events| == 1 {
        TrackTwo(states, events[0], events[0]);
      }
    case None =>
  }

  lemma {:induction false} UserAgrees(p: Parser, states: map<string, ToolState>, l: Ledger, content: seq<Block>,
          parent: Option<string>)
    requires Agree(p, states, l)
    ensures var events := OnUser(content, parent);
            SameVerdict(p, states, l, if events.Some? then Some((p, events.value)) else None,
                LedgerBlocks(l, content, true))
  {
    if content != [] {
      var front, last := content[..|content| - 1], content[|content| - 1];
      UserAgrees(p, states, l, front, parent);
      var events, more := OnUser(front, parent), OnUserBlock(last, parent);
      if events.Some? {
        if more.Some? {
          TrackConcat(states, events.value, more.value);
        }
        if LedgerBlocks(l, front, true).Some? {
          UserBlockAgrees(p, Track(states, events.value).value, LedgerBlocks(l, front, true).value, last, parent);
        }
      }
    }
  }

  lemma {:induction false} StepAgrees(p: Parser, states: map<string, ToolState>, l: Ledger, r: Record)
    requires Agree(p, states, l)
    ensures SameVerdict(p, states, l, Parse(p, r), LedgerStep(l, r))
  {
    if (r.System? || r.OtherStreamEvent? || r.Progress? || r.RateLimited? || r.ResultRecord?) && Parse(p, r).Some? {
      UntrackedEvents(states, Parse(p, r).value.1);
    }
    match r
    case BlockStart(Some(index), Some(block), parent) => BlockStartAgrees(p, states, l, index, block, parent);
    case BlockDelta(Some(index), Some(delta)) => BlockDeltaAgrees(p, states, l, index, delta);
    case BlockStop(Some(index)) => BlockStopAgrees(p, states, l, index);
    case Assistant(content, parent, _) => AssistantAgrees(p, states, l, content, parent);
    case User(content, parent) => UserAgrees(p, states, l, content, parent);
    case _ =>
  }

  /** The parser and the tracker together accept exactly the transcripts that follow the
      rules, and then agree on which tools are in flight. */
  lemma {:induction false} AcceptedExactlyWhenOrderly(records: seq<Record>)
    ensures Pipeline(records).Some? <==> LedgerOf(records).Some?
    ensures Pipeline(records).Some? ==>
              Agree(Pipeline(records).value.0, Pipeline(records).value.1, LedgerOf(records).value)
  {
    if records != [] {
      var front := records[..|records| - 1];
      AcceptedExactlyWhenOrderly(front);
      if Pipeline(front).Some? {
        StepAgrees(Pipeline(front).value.0, Pipeline(front).value.1, LedgerOf(front).value, records[|records| - 1]);
      }
    }
  }

  /** The parser alone over several records. */
  function ParseAll(p: Parser, records: seq<Record>): Option<Parser> {
    if records == [] then Some(p)
    else
      match ParseAll(p, records[..|records| - 1])
      case None => None
      case Some(q) =>
        match Parse(q, records[|records| - 1])
        case Some((now, _)) => Some(now)
        case None => None
  }

  /** The input fragments for one block, in order. */
  function FragmentsAt(records: seq<Record>, index: nat): string {
    if records == [] then ""
    else
      FragmentsAt(records[..|records| - 1], index)
      + FragmentOf(records[|records| - 1], index)
  }

  function FragmentOf(r: Record, index: nat): string {
    match r
    case BlockDelta(Some(i), Some(InputJson(partialJson))) => if i == index then partialJson else ""
    case _ => ""
  }

  /** Neither opens a tool block at `index` nor closes the one there. */
  predicate Leaves(r: Record, index: nat) {
    match r
    case BlockStart(Some(i), Some(ToolUse(_, _, _, _)), _) => i != index
    case BlockStop(Some(i)) => i != index
    case _ => true
  }

  lemma {:induction false} StepLeavesBlock(p: Parser, r: Record, index: nat)
    requires index in p.tools && Leaves(r, index) && Parse(p, r).Some?
    ensures var q := Parse(p, r).value.0;
            index in q.tools
            && q.tools[index] == p.tools[index].(input := p.tools[index].input + FragmentOf(r, index))
  {}

  lemma {:induction false} BlockCollectsFragments(p: Parser, records: seq<Record>, index: nat)
    requires index in p.tools && ParseAll(p, records).Some?
    requires forall i | 0 <= i < |records| :: Leaves(records[i], index)
    ensures var q := ParseAll(p, records).value;
            index in q.tools
            && q.tools[index] == p.tools[index].(input := p.tools[index].input + FragmentsAt(records, index))
  {
    if records == [] {
      assert p.tools[index].input + "" == p.tools[index].input;
    } else {
      var n := |records| - 1;
      var front, r := records[..n], records[n];
      BlockCollectsFragments(p, front, index);
      StepLeavesBlock(ParseAll(p, front).value, r, index);
      assert p.tools[index].input + FragmentsAt(records, index)
          == (p.tools[index].input + FragmentsAt(front, index)) + FragmentOf(r, index);
    }
  }

  /** A streamed tool's completion carries its start snapshot followed by every fragment of
      its block, whatever else the transcript interleaves. */
  lemma {:induction false} StreamedCompletionIsSnapshotPlusFragments(
      p: Parser, index: nat, id: string, name: string, input: Option<Json>, own: Option<string>, parent: Option<string>,
      between: seq<Record>)
    requires forall i | 0 <= i < |between| :: Leaves(between[i], index)
    requires var start := BlockStart(Some(index), Some(ToolUse(Some(id), Some(name), input, own)), parent);
             ParseAll(Parse(p, start).value.0, between).Some?
    ensures var start := BlockStart(Some(index), Some(ToolUse(Some(id), Some(name), input, own)), parent);
            var q := ParseAll(Parse(p, start).value.0, between).value;
            Parse(q, BlockStop(Some(index))).value.1
            == [ToolUseComplete(FromStream, id, name,
                                Printed(Default(input, JObject([]))) + FragmentsAt(between, index), parent)]
  {
    var start := BlockStart(Some(index), Some(ToolUse(Some(id), Some(name), input, own)), parent);
    BlockCollectsFragments(Parse(p, start).value.0, between, index);
  }
}
