// The stateful runtime of the Claude Code provider (crates/arky-claude-code/src/provider.rs) and
// the whole way from transcript records to events.

/** The runtime itself. */
module ClaudeRuntime {
  import opened Prelude
  import opened JsonValues
  import opened AgentEvents
  import opened ToolFsm
  import opened TextDedup
  import opened NestedTools
  import opened ClaudeTurns
  import R = ClaudeRecords

  class StreamRuntime {
    const env: Env
    const toolFsm: ToolLifecycleTracker
    const deduplicator: TextDeduplicator
    const nestedTools: NestedToolTracker
    const emitter: EventEmitter
    var reasoningText: map<string, string>
    var nestedPreviewState: map<string, map<string, PreviewEntry>>
    var previewSignatures: map<string, map<string, PreviewRecord>>
    var toolResults: seq<AgentEvents.ToolResult>
    var currentMessage: Message
    var messageStarted: bool
    var finished: bool
    var terminalError: bool

    ghost function Now(): Turn
      reads this, toolFsm, deduplicator, nestedTools
    {
      Turn(toolFsm.states, deduplicator.streamedTextLength, reasoningText,
           Nest(nestedTools.stores, nestedPreviewState, previewSignatures),
           toolResults, currentMessage, messageStarted, finished, terminalError)
    }

    constructor (env: Env)
      ensures Now() == NEW_TURN && emitter.sequence == 0 && this.env == env
      ensures fresh(toolFsm) && fresh(deduplicator) && fresh(nestedTools) && fresh(emitter)
    {
      this.env := env;
      toolFsm := new ToolLifecycleTracker();
      deduplicator := new TextDeduplicator();
      nestedTools := new NestedToolTracker();
      emitter := new EventEmitter();
      reasoningText, nestedPreviewState, previewSignatures := map[], map[], map[];
      toolResults, currentMessage, messageStarted, finished, terminalError := [], [], false, false, false;
    }

    method EnsureMessageStarted() returns (emitted: seq<Stamped>)
      modifies this`messageStarted, emitter
      ensures Begin(old(Now())) == (Now(), Events(emitted))
      ensures NumberedFrom(old(emitter.sequence), emitted, emitter.sequence)
    {
      emitted := [];
      if messageStarted {
        return;
      }
      messageStarted := true;
      emitted := emitter.Emit(emitted, MessageStart(currentMessage), emitter.sequence);
    }

    method HandleTextDelta(source: Source, text: string) returns (r: Option<seq<Stamped>>)
      modifies this, deduplicator, emitter
      ensures var after := OnText(old(Now()), source, text);
              if r.Some? then after == Some((Now(), Events(r.value))) else after == None
      ensures r.Some? ==> NumberedFrom(old(emitter.sequence), r.value, emitter.sequence)
    {
      ghost var first := emitter.sequence;
      var emitted := EnsureMessageStarted();
      var added := deduplicator.Process(source, text);
      if added.None? {
        return None;
      }
      if added.value == "" {
        return Some(emitted);
      }
      currentMessage := AppendText(currentMessage, added.value);
      emitted := emitter.Emit(emitted, MessageUpdate(currentMessage, TextAdded(added.value)), first);
      r := Some(emitted);
    }

    method EmitNestedPreview(parent: string, before: seq<Stamped>,
            ghost first: Sequence) returns (emitted: seq<Stamped>)
      requires NumberedFrom(first, before, emitter.sequence)
      modifies this`previewSignatures, emitter
      ensures var (nest, preview) := EmitPreview(old(Now().nest), toolFsm.states, parent);
              Now() == old(Now()).(nest := nest) && Events(emitted) == Events(before) + preview
      ensures before == [] ==> Events(emitted) == EmitPreview(old(Now().nest), toolFsm.states, parent).1
      ensures NumberedFrom(first, emitted, emitter.sequence)
    {
      emitted := before;
      if parent !in nestedPreviewState {
        return;
      }
      var shown := ShownAll(nestedPreviewState[parent]);
      if parent in previewSignatures && previewSignatures[parent] == shown {
        return;
      }
      previewSignatures := previewSignatures[parent := shown];
      emitted := emitter.Emit(emitted, ToolExecutionUpdate(parent, ToolName(toolFsm.State(parent)), Preview(shown)),
          first);
    }

    /** Registers a child under its parent in both trackers. */
    method FileChild(parent: string, info: NestedTool, entry: PreviewEntry)
      modifies this`nestedPreviewState, nestedTools
      ensures Now() == old(Now()).(nest := WithChild(old(Now().nest), parent, info, entry))
    {
      nestedTools.Upsert(parent, info);
      var entries := if parent in nestedPreviewState then nestedPreviewState[parent] else map[];
      nestedPreviewState := nestedPreviewState[parent := entries[info.id := entry]];
    }

    method HandleToolUseStart(id: string, toolName: string, input: Value,
            parent: Option<string>) returns (r: Option<seq<Stamped>>)
      modifies this, toolFsm, deduplicator, nestedTools, emitter
      ensures var after := OnToolStart(env, old(Now()), id, toolName, input, parent);
              if r.Some? then after == Some((Now(), Events(r.value))) else after == None
      ensures r.Some? ==> NumberedFrom(old(emitter.sequence), r.value, emitter.sequence)
    {
      ghost var first := emitter.sequence;
      var emitted := EnsureMessageStarted();
      deduplicator.Reset();
      var ok := toolFsm.Start(id, toolName);
      if !ok {
        return None;
      }
      if parent.Some? {
        FileChild(parent.value, StartInfo(id, toolName, input),
                  PreviewEntry(env.canonical(toolName), "running", input, None, None));
      }
      emitted := emitter.Emit(emitted, ToolExecutionStart(id, env.canonical(toolName), input), first);
      if parent.Some? {
        emitted := EmitNestedPreview(parent.value, emitted, first);
      } else {
        assert Events(emitted) + [] == Events(emitted);
      }
      r := Some(emitted);
    }

    method HandleToolUseInputDelta(id: string, delta: string) returns (r: Option<seq<Stamped>>)
      modifies toolFsm, emitter
      ensures var after := OnToolInput(old(Now()), id, delta);
              if r.Some? then after == Some((Now(), Events(r.value))) else after == None
      ensures r.Some? ==> NumberedFrom(old(emitter.sequence), r.value, emitter.sequence)
    {
      ghost var first := emitter.sequence;
      var ok := toolFsm.InputDelta(id, delta);
      if !ok {
        return None;
      }
      var emitted := emitter.Emit([], ToolExecutionUpdate(id, ToolName(toolFsm.State(id)), InputFragment(delta)),
          first);
      emitted := emitter.Emit(emitted, MessageUpdate(currentMessage, ToolInputAdded(id, delta)), first);
      assert Events(emitted) == OnToolInput(old(Now()), id, delta).value.1;
      r := Some(emitted);
    }

    method HandleToolUseComplete(id: string, toolName: string, finalInput: string, parent: Option<string>)
      returns (r: Option<seq<Stamped>>)
      modifies this`currentMessage, toolFsm, deduplicator, emitter
      ensures var after := OnToolComplete(env, old(Now()), id, toolName, finalInput, parent);
              if r.Some? then after == Some((Now(), Events(r.value))) else after == None
      ensures r.Some? ==> NumberedFrom(old(emitter.sequence), r.value, emitter.sequence)
    {
      ghost var first := emitter.sequence;
      deduplicator.Reset();
      var ok := toolFsm.CompleteInput(id, toolName, finalInput);
      if !ok {
        return None;
      }
      var call := CallOf(env, id, toolName, finalInput, parent);
      currentMessage := AppendCall(currentMessage, call);
      var emitted := emitter.Emit([], MessageUpdate(currentMessage, ToolUseAdded(call)), first);
      r := Some(emitted);
    }

    /** A child's result, filed under its parent. */
    method FileChildResult(id: string, toolName: string, result: Value, isError: bool, parent: string)
      returns (emitted: seq<Stamped>)
      modifies this`nestedPreviewState, this`previewSignatures, nestedTools, emitter
      ensures var (nest, preview) := FileResult(env, old(Now().nest), toolFsm.states, id, toolName, result, isError,
          parent);
              Now() == old(Now()).(nest := nest) && Events(emitted) == preview
      ensures NumberedFrom(old(emitter.sequence), emitted, emitter.sequence)
    {
      var entries := if parent in nestedPreviewState then nestedPreviewState[parent] else map[];
      var previousInput := if id in entries then entries[id].input else Null;
      var entry := PreviewEntry(env.canonical(toolName), if isError then "error" else "completed", previousInput,
                                if isError then None else Some(result), if isError then Some(result) else None);
      assert entry == ResultEntry(Now().nest, parent, id, env.canonical(toolName), result, isError);
      FileChild(parent, ResultInfo(id, toolName, result, isError), entry);
      emitted := EmitNestedPreview(parent, [], emitter.sequence);
    }

    /** A top-level result takes its children with it. */
    method CloseParent(id: string, toolName: string, content: seq<ToolContent>, result: Value, isError: bool)
      returns (shown: Value)
      modifies this`nestedPreviewState, this`previewSignatures, this`toolResults, nestedTools
      ensures var (nest, _, value) := Settle(env, old(Now().nest), toolFsm.states, id, toolName, result, isError, None);
              Now().nest == nest && shown == value
      ensures toolResults == old(toolResults)
          + [AgentEvents.ToolResult(id, env.canonical(toolName), content, isError, None)]
    {
      nestedPreviewState := nestedPreviewState - {id};
      previewSignatures := previewSignatures - {id};
      shown := nestedTools.MergeIntoParentResult(id, result);
      toolResults := toolResults + [AgentEvents.ToolResult(id, env.canonical(toolName), content, isError, None)];
    }

    method HandleToolResult(id: string, toolName: string, content: seq<ToolContent>, result: Value, isError: bool,
                            parent: Option<string>) returns (r: Option<seq<Stamped>>)
      modifies this, toolFsm, deduplicator, nestedTools, emitter
      ensures var after := OnToolResult(env, old(Now()), id, toolName, content, result, isError, parent);
              if r.Some? then after == Some((Now(), Events(r.value))) else after == None
      ensures r.Some? ==> NumberedFrom(old(emitter.sequence), r.value, emitter.sequence)
    {
      ghost var first := emitter.sequence;
      deduplicator.Reset();
      var ok := toolFsm.Finish(id, !isError);
      if !ok {
        return None;
      }
      var emitted, shown := [], result;
      if parent.Some? {
        emitted := FileChildResult(id, toolName, result, isError, parent.value);
      } else {
        shown := CloseParent(id, toolName, content, result, isError);
      }
      emitted := emitter.Emit(emitted, ToolExecutionEnd(id, env.canonical(toolName), shown, isError), first);
      r := Some(emitted);
    }

    method HandleFinish(isError: bool) returns (emitted: seq<Stamped>)
      modifies this, deduplicator, emitter
      ensures OnFinish(old(Now()), isError) == (Now(), Events(emitted))
      ensures NumberedFrom(old(emitter.sequence), emitted, emitter.sequence)
    {
      ghost var first := emitter.sequence;
      deduplicator.Reset();
      finished := true;
      terminalError := isError;
      emitted := EnsureMessageStarted();
      emitted := emitter.Emit(emitted, MessageEnd(currentMessage), first);
      if !terminalError {
        emitted := emitter.Emit(emitted, TurnEnd(currentMessage, toolResults), first);
      }
      emitted := emitter.Emit(emitted, Custom("claude_code.finish"), first);
    }

    method RecoverFromTruncation() returns (emitted: seq<Stamped>)
      modifies this, emitter
      ensures OnTruncation(old(Now())) == (Now(), Events(emitted))
      ensures NumberedFrom(old(emitter.sequence), emitted, emitter.sequence)
    {
      ghost var first := emitter.sequence;
      finished := true;
      emitted := EnsureMessageStarted();
      emitted := emitter.Emit(emitted, MessageEnd(currentMessage), first);
      emitted := emitter.Emit(emitted, TurnEnd(currentMessage, toolResults), first);
      emitted := emitter.Emit(emitted, Custom("claude_code.stream_retry_marker"), first);
    }

    /** Reasoning, progress and metadata: at most one event, whatever the state. */
    method HandleNote(event: R.Normalized) returns (emitted: seq<Stamped>)
      requires event.ReasoningStart? || event.ReasoningDelta? || event.ReasoningComplete? || event.ToolProgress?
               || event.Metadata? || event.RateLimit?
      modifies this`reasoningText, emitter
      ensures Handle(env, old(Now()), Parsed(event)) == Some((Now(), Events(emitted)))
      ensures NumberedFrom(old(emitter.sequence), emitted, emitter.sequence)
    {
      ghost var first := emitter.sequence;
      emitted := [];
      match event
      case ReasoningStart(id) =>
        if id !in reasoningText {
          reasoningText := reasoningText[id := ""];
        } else {
          assert reasoningText[id := reasoningText[id]] == reasoningText;
        }
        emitted := emitter.Emit([], AgentEvents.ReasoningStart(id), first);
      case ReasoningDelta(id, text) =>
        reasoningText := reasoningText[id := (if id in reasoningText then reasoningText[id] else "") + text];
        emitted := emitter.Emit([], AgentEvents.ReasoningDelta(id, text), first);
      case ReasoningComplete(id, fullText) =>
        var kept := if id in reasoningText then reasoningText[id] else "";
        reasoningText := reasoningText - {id};
        emitted := emitter.Emit([], AgentEvents.ReasoningComplete(id, if fullText == "" then kept else fullText),
            first);
      case ToolProgress(id, name, text) =>
        emitted := emitter.Emit([], ToolExecutionUpdate(id, env.canonical(name), ProgressNote(text)), first);
      case Metadata(session, model) =>
        if session.Some? || model.Some? {
          emitted := emitter.Emit([], Custom("claude_code.metadata"), first);
        }
      case RateLimit(_) => emitted := emitter.Emit([], Custom("claude_code.rate_limit"), first);
    }

    /** `handle_event`, and recovery from a cut-off line. */
    method HandleInput(input: Input) returns (r: Option<seq<Stamped>>)
      modifies this, toolFsm, deduplicator, nestedTools, emitter
      ensures var after := Handle(env, old(Now()), input);
              if r.Some? then after == Some((Now(), Events(r.value))) else after == None
      ensures r.Some? ==> NumberedFrom(old(emitter.sequence), r.value, emitter.sequence)
    {
      match input
      case Truncated =>
        var emitted := RecoverFromTruncation();
        r := Some(emitted);
      case Parsed(event) =>
        match event
        case TextDelta(source, text) => r := HandleTextDelta(if source.FromStream? then Streamed else Snapshot, text);
        case ToolUseStart(_, id, name, args, _, parent) => r := HandleToolUseStart(id, name, args, parent);
        case ToolUseInputDelta(id, delta, _) => r := HandleToolUseInputDelta(id, delta);
        case ToolUseComplete(_, id, name, final, parent) => r := HandleToolUseComplete(id, name, final, parent);
        case ToolResult(id, name, content, result, isError, parent) =>
          r := HandleToolResult(id, name, content, result, isError, parent);
        case Finish(_, _, isError, _, _) =>
          var emitted := HandleFinish(isError);
          r := Some(emitted);
        case _ =>
          var emitted := HandleNote(event);
          r := Some(emitted);
    }
  }

  /** The loop of `build_stream` over one turn's inputs: everything emitted, numbered from
      one. It stops at a rejected input, which is an error, and after a truncated line. */
  method Stream(env: Env, inputs: seq<Input>) returns (accepted: bool, stream: seq<Stamped>, ghost handled: nat)
    ensures handled <= |inputs| && Run(env, inputs[..handled]).Some?
        && Events(stream) == Run(env, inputs[..handled]).value.1
    ensures NumberedFrom(0, stream, SaturatingAdd(0, |stream|))
    ensures forall j | 0 <= j < handled - 1 :: !inputs[j].Truncated?
    ensures accepted ==> handled == |inputs| || (handled > 0 && inputs[handled - 1].Truncated?)
    ensures !accepted ==>
              && handled < |inputs| && (handled > 0 ==> !inputs[handled - 1].Truncated?)
              && Handle(env, Run(env, inputs[..handled]).value.0, inputs[handled]).None?
  {
    var runtime := new StreamRuntime(env);
    stream := runtime.emitter.Emit([], TurnStart, 0);
    var i := 0;
    handled := 0;
    while i < |inputs|
      invariant 0 <= i == handled <= |inputs|
      invariant Run(env, inputs[..i]) == Some((runtime.Now(), Events(stream)))
      invariant NumberedFrom(0, stream, runtime.emitter.sequence)
      invariant forall j | 0 <= j < i :: !inputs[j].Truncated?
      invariant runtime.env == env && fresh(runtime) && fresh(runtime.toolFsm) && fresh(runtime.deduplicator)
                && fresh(runtime.nestedTools) && fresh(runtime.emitter)
    {
      assert inputs[..i + 1][..i] == inputs[..i];
      ghost var first := runtime.emitter.sequence;
      var r := runtime.HandleInput(inputs[i]);
      if r.None? {
        return false, stream, handled;
      }
      NumbersContinue(0, stream, first, r.value, runtime.emitter.sequence);
      stream := stream + r.value;
      handled := i + 1;
      if inputs[i].Truncated? {
        return true, stream, handled;
      }
      i := i + 1;
    }
    accepted := true;
  }
}

/** Parser, tracker and runtime together. */
module ClaudeEndToEnd {
  import opened Prelude
  import opened AgentEvents
  import opened ToolFsm
  import opened TextDedup
  import opened ClaudeTurns
  import R = ClaudeRecords
  import P = ClaudeParsing
  import A = ClaudeAgreement
  import H = ClaudeHistory

  function SourceOf(source: R.Source): Source {
    if source.FromStream? then Streamed else Snapshot
  }

  /** A snapshot that is longer than what was counted, with no place between characters
      there: the program panics on it. */
  predicate CutsCharacter(streamed: nat, e: R.Normalized) {
    e.TextDelta? && e.source.FromSnapshot? && Cuts(streamed, e.text)
  }

  /** The runtime rejects an event exactly when the tracker does or the text is cut inside a
      character, and otherwise its tool states move as the tracker's. */
  lemma {:induction false} RuntimeFollowsTracker(env: Env, s: Turn, e: R.Normalized)
    ensures Handle(env, s, Parsed(e)).None? <==> A.TrackOne(s.tools, e).None? || CutsCharacter(s.streamed, e)
    ensures Handle(env, s, Parsed(e)).Some? ==> A.TrackOne(s.tools, e) == Some(Handle(env, s, Parsed(e)).value.0.tools)
  {
    match e
    case TextDelta(source, text) => FreshExactly(s.streamed, SourceOf(source), text);
    case ToolUseStart(_, id, name, input, _, parent) =>
    case ToolUseComplete(_, id, name, final, parent) =>
    case ToolResult(id, name, content, result, isError, parent) =>
    case _ =>
  }

  function AsInputs(events: seq<R.Normalized>): (r: seq<Input>)
    ensures |r| == |events| && forall i | 0 <= i < |r| :: r[i] == Parsed(events[i])
  {
    seq(|events|, i requires 0 <= i < |events| => Parsed(events[i]))
  }

  /** Everything the parser emits for a transcript it accepts. */
  function EventsOf(records: seq<R.Record>): seq<R.Normalized> {
    if records == [] then []
    else
      EventsOf(records[..|records| - 1])
      + match A.Pipeline(records[..|records| - 1])
        case None => []
        case Some((p, _)) =>
          match P.Parse(p, records[|records| - 1])
          case None => []
          case Some((_, events)) => events
  }

  lemma {:induction false} PipelineTracksItsEvents(records: seq<R.Record>)
    requires A.Pipeline(records).Some?
    ensures A.Track(map[], EventsOf(records)) == Some(A.Pipeline(records).value.1)
  {
    if records != [] {
      var front := records[..|records| - 1];
      PipelineTracksItsEvents(front);
      var (p, _) := A.Pipeline(front).value;
      A.TrackConcat(map[], EventsOf(front), P.Parse(p, records[|records| - 1]).value.1);
    }
  }

  lemma {:induction false} TrackPrefix(events: seq<R.Normalized>, n: nat)
    requires n <= |events| && A.Track(map[], events).Some?
    ensures A.Track(map[], events[..n]).Some?
  {
    A.TrackConcat(map[], events[..n], events[n..]);
    assert events[..n] + events[n..] == events;
  }

  predicate Resets(e: R.Normalized) {
    e.ToolUseStart? || e.ToolUseComplete? || e.ToolResult? || e.Finish?
  }

  /** The texts since the deduplicator was last reset. */
  function Window(events: seq<R.Normalized>): seq<(Source, string)> {
    if events == [] then []
    else
      var front, last := Window(events[..|events| - 1]), events[|events| - 1];
      if last.TextDelta? then front + [(SourceOf(last.source), last.text)]
      else if Resets(last) then []
      else front
  }

  /** The deduplicator counts exactly the window. */
  lemma {:induction false} CountsItsWindow(env: Env, events: seq<R.Normalized>)
    requires Run(env, AsInputs(events)).Some?
    ensures Run(env, AsInputs(events)).value.0.streamed == StreamedBy(Window(events))
  {
    if events != [] {
      var n := |events| - 1;
      var last := events[n];
      assert AsInputs(events)[..n] == AsInputs(events[..n]);
      CountsItsWindow(env, events[..n]);
      var before := Run(env, AsInputs(events[..n])).value.0;
      HandleCounts(env, before, last);
      if last.TextDelta? {
        var window := Window(events);
        assert window[..|window| - 1] == Window(events[..n]);
      }
    }
  }

  lemma {:induction false} HandleCounts(env: Env, s: Turn, e: R.Normalized)
    requires Handle(env, s, Parsed(e)).Some?
    ensures Handle(env, s, Parsed(e)).value.0.streamed
         == if e.TextDelta? then StreamedAfter(s.streamed, SourceOf(e.source), e.text)
            else if Resets(e) then 0 else s.streamed
  {}

  /** Event `k` is a snapshot that is cut inside a character, seen from the texts alone. */
  predicate CutIn(events: seq<R.Normalized>, k: nat)
    requires k < |events|
  {
    CutsCharacter(StreamedBy(Window(events[..k])), events[k])
  }

  predicate NoneIsCut(events: seq<R.Normalized>) {
    forall k | 0 <= k < |events| :: !CutIn(events, k)
  }

  lemma {:induction false} NoneIsCutOneMore(events: seq<R.Normalized>)
    requires events != []
    ensures var n := |events| - 1; NoneIsCut(events) <==> NoneIsCut(events[..n]) && !CutIn(events, n)
  {
    var n := |events| - 1;
    forall k | 0 <= k < n ensures CutIn(events[..n], k) <==> CutIn(events, k) {
      assert events[..n][..k] == events[..k];
    }
  }

  /** If the tracker accepts all events, the runtime accepts them exactly when no snapshot
      among them is cut inside a character. */
  lemma {:induction false} RunFollowsTrack(env: Env, events: seq<R.Normalized>)
    requires A.Track(map[], events).Some?
    ensures Run(env, AsInputs(events)).Some?
        ==> A.Track(map[], events) == Some(Run(env, AsInputs(events)).value.0.tools)
    ensures Run(env, AsInputs(events)).Some? <==> NoneIsCut(events)
  {
    if events != [] {
      var n := |events| - 1;
      var front, last := events[..n], events[n];
      TrackPrefix(events, n);
      RunFollowsTrack(env, front);
      assert AsInputs(events)[..n] == AsInputs(front);
      NoneIsCutOneMore(events);
      if Run(env, AsInputs(front)).Some? {
        CountsItsWindow(env, front);
        RuntimeFollowsTracker(env, Run(env, AsInputs(front)).value.0, last);
      }
    }
  }

  /** A transcript that follows the rules streams to its end through parser, tracker and
      runtime exactly when none of its snapshots is cut inside a character. */
  lemma {:induction false} OrderlyTranscriptsStream(env: Env, records: seq<R.Record>)
    requires A.LedgerOf(records).Some?
    ensures Run(env, AsInputs(EventsOf(records))).Some?
            <==> NoneIsCut(EventsOf(records))
  {
    A.AcceptedExactlyWhenOrderly(records);
    PipelineTracksItsEvents(records);
    RunFollowsTrack(env, EventsOf(records));
  }

  // ------------------------------------------------ transcripts without such a snapshot

  predicate Ascii(text: string) {
    forall i | 0 <= i < |text| :: text[i] as int < 0x80
  }

  lemma {:induction false} AsciiIsNeverCut(text: string, n: nat)
    requires Ascii(text) && n <= ByteLen(text)
    ensures ByteLen(text) == |text| && Boundary(text, n)
  {
    AsciiBytes(text);
    AsciiBytes(text[..n]);
    assert ByteLen(text[..n]) == n;
  }

  lemma {:induction false} AsciiBytes(text: string)
    requires Ascii(text)
    ensures ByteLen(text) == |text|
  {
    if text != "" {
      AsciiBytes(text[1..]);
    }
  }

  predicate AsciiBlocks(content: seq<R.Block>) {
    forall i | 0 <= i < |content| :: content[i].Text? ==> Ascii(content[i].text)
  }

  /** The text blocks of every assistant snapshot are ASCII; streamed text may be any. */
  predicate AsciiSnapshots(records: seq<R.Record>) {
    forall i | 0 <= i < |records| :: records[i].Assistant? ==> AsciiBlocks(records[i].content)
  }

  predicate AsciiEvents(events: seq<R.Normalized>) {
    forall i | 0 <= i < |events| :: events[i].TextDelta? && events[i].source.FromSnapshot? ==> Ascii(events[i].text)
  }

  lemma {:induction false} AssistantEventsAscii(p: P.Parser, content: seq<R.Block>, parent: Option<string>)
    requires AsciiBlocks(content) && P.OnAssistant(p, content, parent).Some?
    ensures AsciiEvents(P.OnAssistant(p, content, parent).value)
  {
    if content != [] {
      AssistantEventsAscii(p, content[..|content| - 1], parent);
    }
  }

  lemma {:induction false} UserEventsAscii(content: seq<R.Block>, parent: Option<string>)
    requires P.OnUser(content, parent).Some?
    ensures AsciiEvents(P.OnUser(content, parent).value)
  {
    if content != [] {
      UserEventsAscii(content[..|content| - 1], parent);
    }
  }

  lemma {:induction false} RecordEventsAscii(p: P.Parser, r: R.Record)
    requires (r.Assistant? ==> AsciiBlocks(r.content)) && P.Parse(p, r).Some?
    ensures AsciiEvents(P.Parse(p, r).value.1)
  {
    match r
    case Assistant(content, parent, _) => AssistantEventsAscii(p, content, parent);
    case User(content, parent) => UserEventsAscii(content, parent);
    case _ =>
  }

  lemma {:induction false} EventsAscii(records: seq<R.Record>)
    requires AsciiSnapshots(records)
    ensures AsciiEvents(EventsOf(records))
  {
    if records != [] {
      var front := records[..|records| - 1];
      EventsAscii(front);
      if A.Pipeline(front).Some? && P.Parse(A.Pipeline(front).value.0, records[|records| - 1]).Some? {
        RecordEventsAscii(A.Pipeline(front).value.0, records[|records| - 1]);
      }
    }
  }

  /** A transcript that follows the rules and whose snapshots are ASCII streams to its end. */
  lemma {:induction false} AsciiTranscriptsStream(env: Env, records: seq<R.Record>)
    requires A.LedgerOf(records).Some? && AsciiSnapshots(records)
    ensures Run(env, AsInputs(EventsOf(records))).Some?
  {
    var events := EventsOf(records);
    OrderlyTranscriptsStream(env, records);
    EventsAscii(records);
    forall k | 0 <= k < |events| ensures !CutIn(events, k) {
      var streamed := StreamedBy(Window(events[..k]));
      if events[k].TextDelta? && events[k].source.FromSnapshot? && streamed < ByteLen(events[k].text) {
        AsciiIsNeverCut(events[k].text, streamed);
      }
    }
  }

  // ------------------------------------------------ each text once, over a whole transcript

  /** How much of the whole text the first `k` events have carried, if each text stands
      between its two places. */
  function HeardUpTo(events: seq<R.Normalized>, places: seq<(nat, nat)>, k: nat): nat
    requires k <= |events| == |places|
  {
    if k == 0 then 0
    else if events[k - 1].TextDelta? then Later(HeardUpTo(events, places, k - 1), places[k - 1].1)
    else HeardUpTo(events, places, k - 1)
  }

  /** How much of it had been carried at the last reset. */
  function HeardAtReset(events: seq<R.Normalized>, places: seq<(nat, nat)>, k: nat): (r: nat)
    requires k <= |events| == |places|
    ensures r <= HeardUpTo(events, places, k)
  {
    if k == 0 then 0
    else if Resets(events[k - 1]) then HeardUpTo(events, places, k - 1)
    else HeardAtReset(events, places, k - 1)
  }

  function PlaceOf(e: R.Normalized, place: (nat, nat)): Place
    requires e.TextDelta?
  {
    Place(SourceOf(e.source), place.0, place.1)
  }

  /** The texts are parts of the whole text, and each begins within what came before it. */
  predicate CarryText(events: seq<R.Normalized>, whole: string, places: seq<(nat, nat)>) {
    && |events| == |places|
    && (forall k | 0 <= k <= |events| :: HeardUpTo(events, places, k) <= |whole|)
    && forall k | 0 <= k < |events| && events[k].TextDelta? ::
         && places[k].0 <= places[k].1 <= |whole| && places[k].0 <= HeardUpTo(events, places, k)
         && events[k].text == whole[places[k].0..places[k].1]
  }

  /** Event `k`, if it is a text, comes once. */
  predicate SaidOnce(events: seq<R.Normalized>, whole: string, places: seq<(nat, nat)>, k: nat)
    requires CarryText(events, whole, places) && k < |events|
  {
    events[k].TextDelta? ==>
      ComesOnce(whole, HeardAtReset(events, places, k), HeardUpTo(events, places, k), PlaceOf(events[k], places[k]))
  }

  /** After `k` events the message holds exactly what they carried. */
  predicate MessageHolds(env: Env, events: seq<R.Normalized>, whole: string, places: seq<(nat, nat)>, k: nat)
    requires CarryText(events, whole, places) && k <= |events|
  {
    match Run(env, AsInputs(events[..k]))
    case Some((s, _)) => TextOf(s.message) == whole[..HeardUpTo(events, places, k)]
    case None => false
  }

  predicate AllHold(env: Env, events: seq<R.Normalized>, whole: string, places: seq<(nat, nat)>, k: nat)
    requires CarryText(events, whole, places) && k <= |events|
  {
    forall j | 0 <= j <= k :: MessageHolds(env, events, whole, places, j)
  }

  predicate AllSaidOnce(events: seq<R.Normalized>, whole: string, places: seq<(nat, nat)>, k: nat)
    requires CarryText(events, whole, places) && k <= |events|
  {
    forall j | 0 <= j < k :: SaidOnce(events, whole, places, j)
  }

  /** What one event adds to the message's text. */
  lemma {:induction false} HandleAddsText(env: Env, s: Turn, e: R.Normalized)
    requires Handle(env, s, Parsed(e)).Some?
    ensures TextOf(Handle(env, s, Parsed(e)).value.0.message)
         == if e.TextDelta? then TextOf(s.message) + Fresh(s.streamed, SourceOf(e.source), e.text).value
            else TextOf(s.message)
  {
    match e
    case TextDelta(source, text) => assert TextOf(s.message) + "" == TextOf(s.message);
    case ToolUseComplete(_, id, name, final, parent) =>
      H.AppendCallText(s.message, CallOf(env, id, name, final, parent));
    case _ =>
  }

  /** The count goes with what was carried since the last reset. */
  predicate CountHolds(env: Env, events: seq<R.Normalized>, whole: string, places: seq<(nat, nat)>, k: nat)
    requires CarryText(events, whole, places) && k <= |events|
  {
    match Run(env, AsInputs(events[..k]))
    case Some((s, _)) =>
      s.streamed == ByteLen(whole[HeardAtReset(events, places, k)..HeardUpTo(events, places, k)])
    case None => false
  }

  lemma {:induction false} RunOneMore(env: Env, events: seq<R.Normalized>, k: nat)
    requires k < |events| && Run(env, AsInputs(events[..k])).Some? && A.Track(map[], events[..k + 1]).Some?
    ensures var s, e := Run(env, AsInputs(events[..k])).value.0, events[k];
            && (Handle(env, s, Parsed(e)).None? <==> CutsCharacter(s.streamed, e))
            && match Run(env, AsInputs(events[..k + 1]))
               case Some((t, _)) => Handle(env, s, Parsed(e)).Some? && t == Handle(env, s, Parsed(e)).value.0
               case None => Handle(env, s, Parsed(e)).None?
  {
    assert events[..k + 1][..k] == events[..k];
    assert AsInputs(events[..k + 1])[..k] == AsInputs(events[..k]);
    TrackPrefix(events[..k + 1], k);
    RunFollowsTrack(env, events[..k]);
    RuntimeFollowsTracker(env, Run(env, AsInputs(events[..k])).value.0, events[k]);
  }

  lemma {:induction false} OneEventMore(env: Env, events: seq<R.Normalized>, whole: string,
          places: seq<(nat, nat)>, k: nat)
    requires CarryText(events, whole, places) && ByteLen(whole) <= USIZE_MAX && k < |events|
    requires A.Track(map[], events[..k + 1]).Some?
    requires MessageHolds(env, events, whole, places, k) && CountHolds(env, events, whole, places, k)
    ensures MessageHolds(env, events, whole, places, k + 1) <==> SaidOnce(events, whole, places, k)
    ensures MessageHolds(env, events, whole, places, k + 1) ==> CountHolds(env, events, whole, places, k + 1)
  {
    var e := events[k];
    var s := Run(env, AsInputs(events[..k])).value.0;
    RunOneMore(env, events, k);
    if Handle(env, s, Parsed(e)).Some? {
      HandleAddsText(env, s, e);
      HandleCounts(env, s, e);
    }
    if e.TextDelta? {
      FreshExactly(s.streamed, SourceOf(e.source), e.text);
      OneMorePlace(whole, HeardAtReset(events, places, k), HeardUpTo(events, places, k), PlaceOf(e, places[k]));
    }
  }

  lemma {:induction false} OneMoreHolds(env: Env, events: seq<R.Normalized>, whole: string,
          places: seq<(nat, nat)>, k: nat)
    requires CarryText(events, whole, places) && k < |events|
    ensures AllHold(env, events, whole, places, k + 1)
            <==> AllHold(env, events, whole, places, k) && MessageHolds(env, events, whole, places, k + 1)
    ensures AllHold(env, events, whole, places, k) ==> MessageHolds(env, events, whole, places, k)
    ensures AllSaidOnce(events, whole, places, k + 1)
            <==> AllSaidOnce(events, whole, places, k) && SaidOnce(events, whole, places, k)
  {}

  lemma {:induction false} FirstEvents(env: Env, events: seq<R.Normalized>, whole: string, places: seq<(nat, nat)>,
          k: nat)
    requires CarryText(events, whole, places) && ByteLen(whole) <= USIZE_MAX && k <= |events|
    requires A.Track(map[], events).Some?
    ensures AllHold(env, events, whole, places, k) <==> AllSaidOnce(events, whole, places, k)
    ensures AllHold(env, events, whole, places, k) ==> CountHolds(env, events, whole, places, k)
  {
    if k == 0 {
      assert events[..0] == [] && AsInputs([]) == [];
      assert MessageHolds(env, events, whole, places, 0);
    } else {
      FirstEvents(env, events, whole, places, k - 1);
      OneMoreHolds(env, events, whole, places, k - 1);
      if AllHold(env, events, whole, places, k - 1) {
        TrackPrefix(events, k);
        OneEventMore(env, events, whole, places, k - 1);
      }
    }
  }

  /** The texts of the first `k` events, one after the other. */
  function TextsUpTo(events: seq<R.Normalized>, k: nat): string
    requires k <= |events|
  {
    if k == 0 then ""
    else TextsUpTo(events, k - 1) + if events[k - 1].TextDelta? then events[k - 1].text else ""
  }

  function EndToEnd(events: seq<R.Normalized>): (places: seq<(nat, nat)>)
    ensures |places| == |events|
    ensures forall k | 0 <= k < |events| :: places[k] == (|TextsUpTo(events, k)|, |TextsUpTo(events, k + 1)|)
  {
    seq(|events|, k requires 0 <= k < |events| => (|TextsUpTo(events, k)|, |TextsUpTo(events, k + 1)|))
  }

  lemma {:induction false} TextsGrow(events: seq<R.Normalized>, k: nat, n: nat)
    requires k <= n <= |events|
    ensures TextsUpTo(events, k) <= TextsUpTo(events, n)
  {
    if k < n {
      TextsGrow(events, k, n - 1);
    }
  }

  lemma {:induction false} HeardEndToEnd(events: seq<R.Normalized>, k: nat)
    requires k <= |events|
    ensures HeardUpTo(events, EndToEnd(events), k) == |TextsUpTo(events, k)|
  {
    if k > 0 {
      HeardEndToEnd(events, k - 1);
    }
  }

  lemma {:induction false} TextStandsEndToEnd(events: seq<R.Normalized>, k: nat)
    requires k < |events| && events[k].TextDelta?
    ensures |TextsUpTo(events, k)| <= |TextsUpTo(events, k + 1)| <= |TextsUpTo(events, |events|)|
    ensures events[k].text == TextsUpTo(events, |events|)[|TextsUpTo(events, k)|..|TextsUpTo(events, k + 1)|]
  {
    var before, after := TextsUpTo(events, k), TextsUpTo(events, k + 1);
    TextsGrow(events, k + 1, |events|);
    assert after == before + events[k].text;
    assert TextsUpTo(events, |events|)[..|after|] == after;
  }

  /** Every transcript can be read as carrying parts of one whole text, if only as one in which
      every text is new. */
  lemma {:induction false} EveryTranscriptCarriesText(events: seq<R.Normalized>)
    ensures CarryText(events, TextsUpTo(events, |events|), EndToEnd(events))
  {
    forall k | 0 <= k <= |events|
      ensures HeardUpTo(events, EndToEnd(events), k) == |TextsUpTo(events, k)| <= |TextsUpTo(events, |events|)|
    {
      HeardEndToEnd(events, k);
      TextsGrow(events, k, |events|);
    }
    forall k | 0 <= k < |events| && events[k].TextDelta?
      ensures |TextsUpTo(events, k)| <= |TextsUpTo(events, k + 1)| <= |TextsUpTo(events, |events|)|
      ensures events[k].text == TextsUpTo(events, |events|)[|TextsUpTo(events, k)|..|TextsUpTo(events, k + 1)|]
    {
      TextStandsEndToEnd(events, k);
    }
  }

  /** A transcript that follows the rules, whose texts are parts of one whole text: at every
      point the message holds exactly what has been carried so far, none of it twice and none
      of it lost, precisely when every streamed text goes on from what came before (or is
      empty), every snapshot that brings more begins where the last reset was, and every other
      snapshot is no longer than what came since that reset. */
  lemma {:induction false} TextComesOutOnceExactly(env: Env, records: seq<R.Record>, whole: string,
          places: seq<(nat, nat)>)
    requires A.LedgerOf(records).Some? && CarryText(EventsOf(records), whole, places) && ByteLen(whole) <= USIZE_MAX
    ensures AllHold(env, EventsOf(records), whole, places, |places|)
            <==> AllSaidOnce(EventsOf(records), whole, places, |places|)
  {
    A.AcceptedExactlyWhenOrderly(records);
    PipelineTracksItsEvents(records);
    FirstEvents(env, EventsOf(records), whole, places, |places|);
  }

  /** Where parser and runtime are after some records. */
  predicate Reached(env: Env, records: seq<R.Record>, p: P.Parser, s: Turn) {
    && A.Pipeline(records) == Some((p, s.tools))
    && match Run(env, AsInputs(EventsOf(records))) case Some((t, _)) => t == s case None => false
  }

  lemma {:induction false} ParsedOneMore(records: seq<R.Record>, p: P.Parser, tools: map<string, ToolState>,
          r: R.Record, e: R.Normalized)
    requires A.Pipeline(records) == Some((p, tools)) && A.TrackOne(tools, e).Some?
    requires P.Parse(p, r).Some? && P.Parse(p, r).value.1 == [e]
    ensures A.Pipeline(records + [r]) == Some((P.Parse(p, r).value.0, A.TrackOne(tools, e).value))
    ensures EventsOf(records + [r]) == EventsOf(records) + [e]
  {
    assert (records + [r])[..|records|] == records && [e][..0] == [];
    assert A.Track(tools, [e]) == A.TrackOne(tools, e);
  }

  lemma {:induction false} OneRecordMore(env: Env, records: seq<R.Record>, p: P.Parser, s: Turn, r: R.Record,
          e: R.Normalized)
    requires Reached(env, records, p, s) && P.Parse(p, r).Some? && P.Parse(p, r).value.1 == [e]
    requires Handle(env, s, Parsed(e)).Some?
    ensures Reached(env, records + [r], P.Parse(p, r).value.0, Handle(env, s, Parsed(e)).value.0)
  {
    var events := EventsOf(records);
    RuntimeFollowsTracker(env, s, e);
    ParsedOneMore(records, p, s.tools, r, e);
    assert AsInputs(events + [e])[..|events|] == AsInputs(events);
  }

  function Says(text: string): R.Record {
    R.Assistant([R.Text(text)], None, None)
  }

  function Streams(text: string): R.Record {
    R.BlockDelta(Some(0), Some(R.TextFragment(text)))
  }

  lemma {:induction false} SaysOne(p: P.Parser, text: string)
    ensures P.Parse(p, Says(text)) == Some((p.(lastError := None), [R.TextDelta(R.FromSnapshot, text)]))
  {
    var content := [R.Text(text)];
    assert content[..0] == [] && P.OnAssistant(p, [], None) == Some([]);
    assert content[|content| - 1] == R.Text(text);
    assert P.OnAssistantBlock(p, R.Text(text), None, 0) == Some([R.TextDelta(R.FromSnapshot, text)]);
    assert [] + [R.TextDelta(R.FromSnapshot, text)] == [R.TextDelta(R.FromSnapshot, text)];
  }

  predicate StandsAt(s: Turn, tools: map<string, ToolState>, streamed: nat, text: string) {
    s.tools == tools && s.streamed == streamed && TextOf(s.message) == text
  }

  /** After some records the tools stand so, so many bytes count, and the message says that. */
  ghost predicate HasSaid(env: Env, records: seq<R.Record>, tools: map<string, ToolState>, streamed: nat,
                          text: string) {
    exists p, s :: Reached(env, records, p, s) && StandsAt(s, tools, streamed, text)
  }

  lemma {:induction false} SaidIsOrderly(env: Env, records: seq<R.Record>, tools: map<string, ToolState>, streamed: nat,
          text: string)
    requires HasSaid(env, records, tools, streamed, text)
    ensures A.LedgerOf(records).Some?
  {
    A.AcceptedExactlyWhenOrderly(records);
  }

  lemma {:induction false} NothingSaid(env: Env)
    ensures HasSaid(env, [], map[], 0, "")
  {
    assert Reached(env, [], P.FRESH_PARSER, NEW_TURN);
  }

  /** A record of one text, streamed or as a snapshot. */
  lemma {:induction false} SaysMore(env: Env, records: seq<R.Record>, tools: map<string, ToolState>, streamed: nat,
          before: string, source: R.Source, text: string)
    requires HasSaid(env, records, tools, streamed, before) && Fresh(streamed, SourceOf(source), text).Some?
    ensures HasSaid(env, records + [if source.FromStream? then Streams(text) else Says(text)], tools,
                    StreamedAfter(streamed, SourceOf(source), text),
                    before + Fresh(streamed, SourceOf(source), text).value)
  {
    var p, s :| Reached(env, records, p, s) && StandsAt(s, tools, streamed, before);
    var r, e := if source.FromStream? then Streams(text) else Says(text), R.TextDelta(source, text);
    SaysOne(p, text);
    OneRecordMore(env, records, p, s, r, e);
    HandleAddsText(env, s, e);
    HandleCounts(env, s, e);
    RuntimeFollowsTracker(env, s, e);
    assert Reached(env, records + [r], P.Parse(p, r).value.0, Handle(env, s, Parsed(e)).value.0);
  }

  const TOOL_START: R.Record :=
    R.BlockStart(Some(1), Some(R.ToolUse(Some("t"), Some("bash"), None, None)), None)

  lemma {:induction false} ToolStartResets(env: Env, records: seq<R.Record>, streamed: nat, text: string)
    requires HasSaid(env, records, map[], streamed, text)
    ensures exists tools :: HasSaid(env, records + [TOOL_START], tools, 0, text)
  {
    var p, s :| Reached(env, records, p, s) && StandsAt(s, map[], streamed, text);
    var e := P.Parse(p, TOOL_START).value.1[0];
    RuntimeFollowsTracker(env, s, e);
    assert A.TrackOne(map[], e).Some?;
    var t := Handle(env, s, Parsed(e)).value.0;
    OneRecordMore(env, records, p, s, TOOL_START, e);
    HandleAddsText(env, s, e);
    HandleCounts(env, s, e);
    assert Reached(env, records + [TOOL_START], P.Parse(p, TOOL_START).value.0, t);
    assert HasSaid(env, records + [TOOL_START], t.tools, 0, text);
  }

  /** Two assistant records of which nothing was streamed follow the rules, and if the second
      is no longer than the first, it leaves nothing in the message. */
  lemma {:induction false} SecondRecordLeavesNoText(env: Env, first: string, second: string)
    requires ByteLen(second) <= ByteLen(first)
    ensures A.LedgerOf([Says(first)] + [Says(second)]).Some?
    ensures HasSaid(env, [Says(first)] + [Says(second)], map[], ByteLen(first), first)
  {
    NothingSaid(env);
    SaysMore(env, [], map[], 0, "", R.FromSnapshot, first);
    EmptyByBytes(first);
    assert [] + [Says(first)] == [Says(first)] && "" + first == first && first + "" == first;
    SaysMore(env, [Says(first)], map[], ByteLen(first), first, R.FromSnapshot, second);
    SaidIsOrderly(env, [Says(first)] + [Says(second)], map[], ByteLen(first), first);
  }

  lemma {:induction false} StreamsThenTool(env: Env, text: string) returns (tools: map<string, ToolState>)
    ensures HasSaid(env, [Streams(text)] + [TOOL_START], tools, 0, text)
  {
    NothingSaid(env);
    SaysMore(env, [], map[], 0, "", R.FromStream, text);
    assert [] + [Streams(text)] == [Streams(text)] && "" + text == text;
    ToolStartResets(env, [Streams(text)], StreamedAfter(0, Streamed, text), text);
    tools :| HasSaid(env, [Streams(text)] + [TOOL_START], tools, 0, text);
  }

  /** A streamed text that a snapshot repeats after a tool has started comes twice. */
  lemma {:induction false} RepeatedAfterToolStart(env: Env, text: string) returns (tools: map<string, ToolState>)
    ensures A.LedgerOf([Streams(text)] + [TOOL_START] + [Says(text)]).Some?
    ensures HasSaid(env, [Streams(text)] + [TOOL_START] + [Says(text)], tools, ByteLen(text), text + text)
  {
    tools := StreamsThenTool(env, text);
    var records := [Streams(text)] + [TOOL_START];
    EmptyByBytes(text);
    SaysMore(env, records, tools, 0, text, R.FromSnapshot, text);
    SaidIsOrderly(env, records + [Says(text)], tools, ByteLen(text), text + text);
  }
}
