// The event protocol both providers emit (crates/arky-protocol), without timestamps and ids.

module AgentEvents {
  import opened Prelude
  import opened JsonValues

  datatype ToolContent = TextContent(text: string) | JsonContent(value: Value)

  datatype ToolCall = ToolCall(id: string, name: string, input: Value, parent: Option<string>)

  datatype ToolResult = ToolResult(id: string, name: string, content: seq<ToolContent>, isError: bool,
      parent: Option<string>)

  datatype ContentBlock = TextBlock(text: string) | ToolUseBlock(call: ToolCall)

  /** The blocks of the assistant message. */
  type Message = seq<ContentBlock>

  datatype StreamDelta = TextAdded(text: string) | ToolInputAdded(id: string, fragment: string)
      | ToolUseAdded(call: ToolCall)

  datatype PreviewRecord = PreviewRecord(tool: string, state: string, input: Value, output: Value, error: Value)

  /** The payload of a tool update. A preview lists its records in the order of their ids. */
  datatype Partial =
    | InputFragment(fragment: string)
    | ProgressNote(text: string)
    | Preview(calls: map<string, PreviewRecord>)
    | Output(value: Value)

  datatype AgentEvent =
    | TurnStart
    | MessageStart(message: Message)
    | MessageUpdate(message: Message, delta: StreamDelta)
    | MessageEnd(message: Message)
    | TurnEnd(message: Message, toolResults: seq<ToolResult>)
    | ReasoningStart(id: string)
    | ReasoningDelta(id: string, text: string)
    | ReasoningComplete(id: string, fullText: string)
    | ToolExecutionStart(id: string, name: string, args: Value)
    | ToolExecutionUpdate(id: string, name: string, partial: Partial)
    | ToolExecutionEnd(id: string, name: string, result: Value, isError: bool)
    | Custom(eventType: string)

  const U64_MAX: nat := 0xFFFF_FFFF_FFFF_FFFF

  type Sequence = n: nat | n <= U64_MAX

  function SaturatingAdd(n: Sequence, k: nat): Sequence {
    if n + k <= U64_MAX then n + k else U64_MAX
  }

  /** An event with its sequence number. */
  datatype Stamped = Stamped(sequence: Sequence, event: AgentEvent)

  function Events(stamped: seq<Stamped>): (r: seq<AgentEvent>)
    ensures |r| == |stamped| && forall i | 0 <= i < |r| :: r[i] == stamped[i].event
    ensures stamped == [] ==> r == []
  {
    seq(|stamped|, i requires 0 <= i < |stamped| => stamped[i].event)
  }

  /** `stamped` carries the numbers after `first`, one by one, up to `last`. */
  predicate NumberedFrom(first: Sequence, stamped: seq<Stamped>, last: Sequence) {
    && last == SaturatingAdd(first, |stamped|)
    && forall i | 0 <= i < |stamped| :: stamped[i].sequence == SaturatingAdd(first, i + 1)
  }

  /** Two runs of stamped events, one after the other. */
  lemma {:induction false} NumbersContinue(first: Sequence, a: seq<Stamped>, middle: Sequence, b: seq<Stamped>,
          last: Sequence)
    requires NumberedFrom(first, a, middle) && NumberedFrom(middle, b, last)
    ensures NumberedFrom(first, a + b, last) && Events(a + b) == Events(a) + Events(b)
  {}

  class EventEmitter {
    var sequence: Sequence

    constructor ()
      ensures sequence == 0
    {
      sequence := 0;
    }

    /** Stamps one more event with the next number. */
    method Emit(emitted: seq<Stamped>, event: AgentEvent, ghost first: Sequence) returns (r: seq<Stamped>)
      requires NumberedFrom(first, emitted, sequence)
      modifies this
      ensures NumberedFrom(first, r, sequence) && Events(r) == Events(emitted) + [event]
      ensures emitted == [] ==> Events(r) == [event]
    {
      sequence := SaturatingAdd(sequence, 1);
      r := emitted + [Stamped(sequence, event)];
    }
  }

  /** All the text of a message. */
  function TextOf(message: Message): string {
    if message == [] then ""
    else
      TextOf(message[..|message| - 1])
      + match message[|message| - 1] case TextBlock(text) => text case ToolUseBlock(_) => ""
  }

  /** `append_text_block`, `push_delta`: extends a last text block or starts one. */
  function AppendText(message: Message, text: string): (r: Message)
    ensures TextOf(r) == TextOf(message) + text
  {
    var n := |message|;
    if n > 0 && message[n - 1].TextBlock? then
      var r := message[n - 1 := TextBlock(message[n - 1].text + text)];
      assert r[..n - 1] == message[..n - 1];
      assert TextOf(message) + text == TextOf(message[..n - 1]) + (message[n - 1].text + text);
      r
    else
      assert (message + [TextBlock(text)])[..n] == message;
      message + [TextBlock(text)]
  }
}

/** Reading a stream event by event: a reader accepts an event and moves on, or refuses it. */
module EventReading {
  import opened Prelude
  import opened AgentEvents

  ghost function ReadAll<G>(one: (G, AgentEvent) -> Option<G>, g: G, trace: seq<AgentEvent>): Option<G> {
    if trace == [] then Some(g)
    else
      match ReadAll(one, g, trace[..|trace| - 1])
      case Some(h) => one(h, trace[|trace| - 1])
      case None => None
  }

  lemma {:induction false} ReadConcat<G>(one: (G, AgentEvent) -> Option<G>, g: G, a: seq<AgentEvent>,
          b: seq<AgentEvent>)
    ensures ReadAll(one, g, a + b) == match ReadAll(one, g, a) case Some(h) => ReadAll(one, h, b) case None => None
    decreases |b|
  {
    if b == [] {
      assert a + b == a;
    } else {
      ReadConcat(one, g, a, b[..|b| - 1]);
      assert (a + b)[..|a + b| - 1] == a + b[..|b| - 1];
    }
  }

  lemma {:induction false} ReadSingle<G>(one: (G, AgentEvent) -> Option<G>, g: G, e: AgentEvent)
    ensures ReadAll(one, g, [e]) == one(g, e)
  {
    assert [e][..0] == [];
  }

  lemma {:induction false} ReadSnoc<G>(one: (G, AgentEvent) -> Option<G>, g: G, trace: seq<AgentEvent>, e: AgentEvent)
    requires ReadAll(one, g, trace).Some?
    ensures ReadAll(one, g, trace + [e]) == one(ReadAll(one, g, trace).value, e)
  {
    assert (trace + [e])[..|trace|] == trace;
  }

  /** A reader that accepts a stream accepts its beginnings. */
  lemma {:induction false} ReadPrefix<G>(one: (G, AgentEvent) -> Option<G>, g: G, trace: seq<AgentEvent>, n: nat)
    requires n <= |trace| && ReadAll(one, g, trace).Some?
    ensures ReadAll(one, g, trace[..n]).Some?
    decreases |trace| - n
  {
    if n == |trace| {
      assert trace[..n] == trace;
    } else {
      ReadPrefix(one, g, trace, n + 1);
      assert trace[..n + 1][..n] == trace[..n];
    }
  }
}
