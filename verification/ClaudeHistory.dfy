// What the events of a Claude turn carry (crates/arky-claude-code/src/provider.rs, nested.rs).

/** Nested tool calls, message text and results over whole runs. */
module ClaudeHistory {
  import opened Prelude
  import opened JsonValues
  import opened AgentEvents
  import opened EventReading
  import opened ToolFsm
  import opened TextDedup
  import opened NestedTools
  import opened ClaudeTurns
  import R = ClaudeRecords
  import G = ClaudeGrammar

  /** What an input registers, and under which parent. */
  function Registration(input: Input): Option<(string, NestedTool)> {
    match input
    case Parsed(ToolUseStart(_, id, name, args, _, Some(p))) => Some((p, StartInfo(id, name, args)))
    case Parsed(ToolResult(id, name, _, result, isError, Some(p))) => Some((p, ResultInfo(id, name, result, isError)))
    case _ => None
  }

  predicate Closes(input: Input, parent: string) {
    input.Parsed? && input.event.ToolResult? && input.event.id == parent && input.event.parent.None?
  }

  /** The registrations under `parent` since its last own result. */
  function Registrations(inputs: seq<Input>, parent: string): seq<NestedTool> {
    if inputs == [] then []
    else
      var before, last := Registrations(inputs[..|inputs| - 1], parent), inputs[|inputs| - 1];
      if Closes(last, parent) then []
      else
        match Registration(last)
        case Some((p, info)) => if p == parent then before + [info] else before
        case None => before
  }

  /** Both trackers know the same parents with the same children. */
  predicate TrackersAgree(n: Nest) {
    && n.nested.Keys == n.preview.Keys
    && forall p | p in n.nested :: SameChildren(n.nested[p], n.preview[p])
  }

  predicate SameChildren(store: seq<NestedTool>, entries: map<string, PreviewEntry>) {
    && (forall i | 0 <= i < |store| :: store[i].id in entries)
    && (forall id | id in entries :: id in Ids(store))
  }

  lemma {:induction false} UpsertedIds(store: seq<NestedTool>, next: NestedTool)
    ensures forall id :: id in Ids(Upserted(store, next)) <==> id in Ids(store) || id == next.id
  {
    var at := Position(store, next.id);
    UpsertedAt(store, next, at);
    var now := Upserted(store, next);
    forall id | id in Ids(store) ensures id in Ids(now) {
      var i :| 0 <= i < |store| && Ids(store)[i] == id;
      assert Ids(now)[i] == id;
    }
    assert Ids(now)[at] == next.id;
    forall id | id in Ids(now) ensures id in Ids(store) || id == next.id {
      var i :| 0 <= i < |now| && Ids(now)[i] == id;
      if i < |store| {
        assert Ids(store)[i] == id;
      }
    }
  }

  /** Where an input leaves the trackers: a child is filed, a parent's result clears, and
      nothing else touches them. */
  predicate Filed(n: Nest, m: Nest, input: Input) {
    match input
    case Parsed(ToolUseStart(_, id, name, args, _, Some(p))) =>
      m.nested == Registered(n, p, StartInfo(id, name, args)) && ChildFiled(n, m, p, id)
    case Parsed(ToolResult(id, name, _, result, isError, Some(p))) =>
      m.nested == Registered(n, p, ResultInfo(id, name, result, isError)) && ChildFiled(n, m, p, id)
    case Parsed(ToolResult(id, _, _, _, _, None)) => m.nested == n.nested - {id} && m.preview == n.preview - {id}
    case _ => m == n
  }

  predicate ChildFiled(n: Nest, m: Nest, parent: string, id: string) {
    && parent in m.preview
    && m.preview[parent].Keys == EntriesOf(n.preview, parent).Keys + {id}
    && m.preview - {parent} == n.preview - {parent}
  }

  lemma {:induction false} ChildIsFiled(n: Nest, tools: map<string, ToolState>, parent: string, info: NestedTool,
          entry: PreviewEntry)
    ensures var (m, _) := EmitPreview(WithChild(n, parent, info, entry), tools, parent);
            m.nested == Registered(n, parent, info) && ChildFiled(n, m, parent, info.id)
  {
    var (m, _) := EmitPreview(WithChild(n, parent, info, entry), tools, parent);
    assert m.preview - {parent} == n.preview - {parent};
  }

  lemma {:induction false} ToolStartFiles(env: Env, s: Turn, input: Input)
    requires input.Parsed? && input.event.ToolUseStart? && Handle(env, s, input).Some?
    ensures Filed(s.nest, Handle(env, s, input).value.0.nest, input)
  {
    var e := input.event;
    if e.parent.Some? {
      ChildIsFiled(s.nest, Move(s.tools, e.id, ToStarted(e.toolName)).value, e.parent.value,
          StartInfo(e.id, e.toolName, e.input),
                   PreviewEntry(env.canonical(e.toolName), "running", e.input, None, None));
    }
  }

  lemma {:induction false} ToolResultFiles(env: Env, s: Turn, input: Input)
    requires input.Parsed? && input.event.ToolResult? && Handle(env, s, input).Some?
    ensures Filed(s.nest, Handle(env, s, input).value.0.nest, input)
  {
    var e := input.event;
    if e.parent.Some? {
      ChildIsFiled(s.nest, Move(s.tools, e.id, ToCompleted(!e.isError)).value, e.parent.value,
                   ResultInfo(e.id, e.toolName, e.result, e.isError),
                   ResultEntry(s.nest, e.parent.value, e.id, env.canonical(e.toolName), e.result, e.isError));
    }
  }

  lemma {:induction false} HandleFiles(env: Env, s: Turn, input: Input)
    requires Handle(env, s, input).Some?
    ensures Filed(s.nest, Handle(env, s, input).value.0.nest, input)
  {
    match input
    case Parsed(ToolUseStart(_, _, _, _, _, _)) => ToolStartFiles(env, s, input);
    case Parsed(ToolResult(_, _, _, _, _, _)) => ToolResultFiles(env, s, input);
    case _ => assert Handle(env, s, input).value.0.nest == s.nest;
  }

  lemma {:induction false} FiledKeepsTrackers(n: Nest, m: Nest, parent: string, info: NestedTool)
    requires TrackersAgree(n) && m.nested == Registered(n, parent, info) && ChildFiled(n, m, parent, info.id)
    ensures TrackersAgree(m)
  {
    var store, now := StoreOf(n.nested, parent), m.nested[parent];
    UpsertedIds(store, info);
    assert SameChildren(store, EntriesOf(n.preview, parent));
    forall i | 0 <= i < |now| ensures now[i].id in m.preview[parent] {
      assert Ids(now)[i] == now[i].id;
      if now[i].id != info.id {
        assert now[i].id in Ids(store);
        var j :| 0 <= j < |store| && Ids(store)[j] == now[i].id;
        assert store[j].id in EntriesOf(n.preview, parent);
      }
    }
    forall p | p != parent ensures p in m.preview <==> p in n.preview
             ensures p in m.preview ==> m.preview[p] == n.preview[p]
    {
      assert p in m.preview - {parent} <==> p in n.preview - {parent};
    }
  }

  /** The store under each parent is what its registrations amount to. */
  ghost predicate StoresAreHistory(n: Nest, inputs: seq<Input>) {
    && (forall p :: StoreOf(n.nested, p) == Stored(Registrations(inputs, p)))
    && (forall p :: p in n.nested <==> Registrations(inputs, p) != [])
  }

  lemma {:induction false} StepKeepsStores(n: Nest, m: Nest, inputs: seq<Input>, input: Input)
    requires StoresAreHistory(n, inputs) && Filed(n, m, input)
    ensures StoresAreHistory(m, inputs + [input])
  {
    assert (inputs + [input])[..|inputs|] == inputs;
    forall p ensures StoreOf(m.nested, p) == Stored(Registrations(inputs + [input], p))
             ensures p in m.nested <==> Registrations(inputs + [input], p) != []
    {
      var before := Registrations(inputs, p);
      match Registration(input)
      case Some((parent, info)) =>
        if parent == p {
          assert (before + [info])[..|before|] == before;
        }
      case None =>
    }
  }

  /** In every accepted run the two trackers hold the same parents with the same children,
      and each store is the summary of the registrations since the parent's last result. */
  lemma {:induction false} NestedToolsFollowHistory(env: Env, inputs: seq<Input>)
    requires Run(env, inputs).Some?
    ensures TrackersAgree(Run(env, inputs).value.0.nest)
    ensures StoresAreHistory(Run(env, inputs).value.0.nest, inputs)
  {
    if inputs != [] {
      var front, last := inputs[..|inputs| - 1], inputs[|inputs| - 1];
      NestedToolsFollowHistory(env, front);
      var s, t := Run(env, front).value.0, Run(env, inputs).value.0;
      HandleFiles(env, s, last);
      assert front + [last] == inputs;
      StepKeepsStores(s.nest, t.nest, front, last);
      match Registration(last)
      case Some((p, info)) => FiledKeepsTrackers(s.nest, t.nest, p, info);
      case None =>
    }
  }

  /** A parent's result lists each child registered since its last one exactly once, in
      first-registration order, with all its registrations merged. */
  lemma {:induction false} ParentResultListsItsChildren(env: Env, inputs: seq<Input>, id: string, name: string,
                                                        content: seq<ToolContent>, result: Value, isError: bool)
    requires Run(env, inputs + [Parsed(R.ToolResult(id, name, content, result, isError, None))]).Some?
    ensures Run(env, inputs).Some?
    ensures var trace := Run(env, inputs + [Parsed(R.ToolResult(id, name, content, result, isError, None))]).value.1;
            var children := Stored(Registrations(inputs, id));
            && trace == Run(env, inputs).value.1
                + [ToolExecutionEnd(id, env.canonical(name), MergedResult(children, result), isError)]
            && Ids(children) == FirstIds(Registrations(inputs, id))
            && forall i | 0 <= i < |children| ::
                 Combined(Registrations(inputs, id), children[i].id) == Some(children[i])
  {
    var input := Parsed(R.ToolResult(id, name, content, result, isError, None));
    assert (inputs + [input])[..|inputs|] == inputs;
    NestedToolsFollowHistory(env, inputs);
    StoreSummarizesRegistrations(Registrations(inputs, id));
    var s := Run(env, inputs).value.0;
    assert StoreOf(s.nest.nested, id) == Stored(Registrations(inputs, id));
  }

  /** The text an event adds to the message. */
  function TextAddedBy(e: AgentEvent): string {
    if e.MessageUpdate? && e.delta.TextAdded? then e.delta.text else ""
  }

  /** All the text streamed so far. */
  function StreamedText(trace: seq<AgentEvent>): string {
    if trace == [] then "" else StreamedText(trace[..|trace| - 1]) + TextAddedBy(trace[|trace| - 1])
  }

  predicate CarriesMessage(e: AgentEvent) {
    e.MessageStart? || e.MessageUpdate? || e.MessageEnd? || e.TurnEnd?
  }

  /** A reader that keeps the text so far and refuses an event whose message holds another. */
  function ReadText(text: string, e: AgentEvent): Option<string> {
    var now := text + TextAddedBy(e);
    if CarriesMessage(e) && TextOf(e.message) != now then None else Some(now)
  }

  ghost function ReadTexts(text: string, trace: seq<AgentEvent>): Option<string> {
    ReadAll(ReadText, text, trace)
  }

  /** An event that adds no text and, if it carries a message, carries this text. */
  predicate Unchanging(text: string, e: AgentEvent) {
    TextAddedBy(e) == "" && (CarriesMessage(e) ==> TextOf(e.message) == text)
  }

  lemma {:induction false} ReadUnchanging(text: string, events: seq<AgentEvent>)
    requires forall i | 0 <= i < |events| :: Unchanging(text, events[i])
    ensures ReadTexts(text, events) == Some(text)
  {
    if events != [] {
      ReadUnchanging(text, events[..|events| - 1]);
      assert text + "" == text;
    }
  }

  lemma {:induction false} ReadOneAddition(text: string, begin: seq<AgentEvent>, message: Message, added: string)
    requires forall i | 0 <= i < |begin| :: Unchanging(text, begin[i])
    requires TextOf(message) == text + added
    ensures ReadTexts(text, begin + [MessageUpdate(message, TextAdded(added))]) == Some(text + added)
  {
    ReadUnchanging(text, begin);
    ReadSingle(ReadText, text, MessageUpdate(message, TextAdded(added)));
    ReadConcat(ReadText, text, begin, [MessageUpdate(message, TextAdded(added))]);
  }

  lemma {:induction false} TextShape(s: Turn, source: Source, text: string)
    requires OnText(s, source, text).Some?
    ensures var (t, emitted), added := OnText(s, source, text).value, Fresh(s.streamed, source, text).value;
            if added == "" then t.message == s.message && emitted == Begin(s).1
            else t.message == AppendText(s.message, added)
                 && emitted == Begin(s).1 + [MessageUpdate(AppendText(s.message, added), TextAdded(added))]
  {}

  lemma {:induction false} TextStepText(s: Turn, source: Source, text: string)
    requires OnText(s, source, text).Some?
    ensures var (t, emitted) := OnText(s, source, text).value;
            ReadTexts(TextOf(s.message), emitted) == Some(TextOf(t.message))
  {
    TextShape(s, source, text);
    var added := Fresh(s.streamed, source, text).value;
    if added == "" {
      ReadUnchanging(TextOf(s.message), Begin(s).1);
    } else {
      ReadOneAddition(TextOf(s.message), Begin(s).1, AppendText(s.message, added), added);
    }
  }

  lemma {:induction false} AppendCallText(message: Message, call: ToolCall)
    ensures TextOf(AppendCall(message, call)) == TextOf(message)
  {}

  lemma {:induction false} CompleteStepText(env: Env, s: Turn, id: string, name: string, final: string,
          parent: Option<string>)
    requires OnToolComplete(env, s, id, name, final, parent).Some?
    ensures var (t, emitted) := OnToolComplete(env, s, id, name, final, parent).value;
            ReadTexts(TextOf(s.message), emitted) == Some(TextOf(t.message))
  {
    AppendCallText(s.message, CallOf(env, id, name, final, parent));
    ReadUnchanging(TextOf(s.message), OnToolComplete(env, s, id, name, final, parent).value.1);
  }

  lemma {:induction false} ToolStartStepText(env: Env, s: Turn, id: string, name: string, args: Value,
          parent: Option<string>)
    requires OnToolStart(env, s, id, name, args, parent).Some?
    ensures var (t, emitted) := OnToolStart(env, s, id, name, args, parent).value;
            ReadTexts(TextOf(s.message), emitted) == Some(TextOf(t.message))
  {
    var (t, emitted) := OnToolStart(env, s, id, name, args, parent).value;
    G.AnnounceIsNeutral(env, s.nest, t.tools, id, name, args, parent);
    ReadUnchanging(TextOf(s.message), emitted);
  }

  lemma {:induction false} ToolResultStepText(env: Env, s: Turn, id: string, name: string, content: seq<ToolContent>,
          result: Value,
                                              isError: bool, parent: Option<string>)
    requires OnToolResult(env, s, id, name, content, result, isError, parent).Some?
    ensures var (t, emitted) := OnToolResult(env, s, id, name, content, result, isError, parent).value;
            ReadTexts(TextOf(s.message), emitted) == Some(TextOf(t.message))
  {
    var (t, emitted) := OnToolResult(env, s, id, name, content, result, isError, parent).value;
    G.SettleIsNeutral(env, s.nest, t.tools, id, name, result, isError, parent);
    ReadUnchanging(TextOf(s.message), emitted);
  }

  predicate Ending(input: Input) {
    input.Truncated? || input.event.Finish?
  }

  lemma {:induction false} EndingStep(env: Env, s: Turn, input: Input)
    requires Ending(input) && Handle(env, s, input).Some?
    ensures var (t, emitted) := Handle(env, s, input).value;
            && t.results == s.results && t.message == s.message
            && forall j | 0 <= j < |emitted| ::
                 Unchanging(TextOf(s.message), emitted[j])
                     && (emitted[j].TurnEnd? ==> emitted[j].toolResults == s.results)
  {}

  lemma {:induction false} HandleStepText(env: Env, s: Turn, input: Input)
    requires Handle(env, s, input).Some?
    ensures var (t, emitted) := Handle(env, s, input).value;
            ReadTexts(TextOf(s.message), emitted) == Some(TextOf(t.message))
  {
    var (t, emitted) := Handle(env, s, input).value;
    match input
    case Parsed(TextDelta(source, text)) => TextStepText(s, if source.FromStream? then Streamed else Snapshot, text);
    case Parsed(ToolUseComplete(_, id, name, final, parent)) => CompleteStepText(env, s, id, name, final, parent);
    case Parsed(ToolUseStart(_, id, name, args, _, parent)) => ToolStartStepText(env, s, id, name, args, parent);
    case Parsed(ToolResult(id, name, content, result, isError, parent)) =>
      ToolResultStepText(env, s, id, name, content, result, isError, parent);
    case _ =>
      if Ending(input) {
        EndingStep(env, s, input);
      } else {
        PlainStep(env, s, input);
      }
      ReadUnchanging(TextOf(s.message), emitted);
  }

  lemma {:induction false} PlainStep(env: Env, s: Turn, input: Input)
    requires (G.Quiet(input) || (input.Parsed? && input.event.ToolUseInputDelta?)) && Handle(env, s, input).Some?
    ensures var (t, emitted) := Handle(env, s, input).value;
            t.message == s.message && forall j | 0 <= j < |emitted| :: Unchanging(TextOf(s.message), emitted[j])
  {}

  lemma {:induction false} RunReadsItsText(env: Env, inputs: seq<Input>)
    requires Run(env, inputs).Some?
    ensures var (s, trace) := Run(env, inputs).value; ReadTexts("", trace) == Some(TextOf(s.message))
  {
    if inputs == [] {
      ReadUnchanging("", [TurnStart]);
    } else {
      var front, last := inputs[..|inputs| - 1], inputs[|inputs| - 1];
      RunReadsItsText(env, front);
      var (s, trace) := Run(env, front).value;
      HandleStepText(env, s, last);
      ReadConcat(ReadText, "", trace, Handle(env, s, last).value.1);
    }
  }

  lemma {:induction false} ReadTextsAreStreamed(trace: seq<AgentEvent>)
    requires ReadTexts("", trace).Some?
    ensures ReadTexts("", trace) == Some(StreamedText(trace))
  {
    if trace != [] {
      ReadTextsAreStreamed(trace[..|trace| - 1]);
    }
  }

  /** In every accepted run, every event that carries the message carries exactly the text
      streamed up to and with that event: none lost, none twice. */
  lemma {:induction false} MessagesCarryTheStreamedText(env: Env, inputs: seq<Input>, j: nat)
    requires Run(env, inputs).Some? && j < |Run(env, inputs).value.1|
    ensures var (s, trace) := Run(env, inputs).value;
            && (CarriesMessage(trace[j]) ==> TextOf(trace[j].message) == StreamedText(trace[..j + 1]))
            && TextOf(s.message) == StreamedText(trace)
  {
    RunReadsItsText(env, inputs);
    var trace := Run(env, inputs).value.1;
    ReadTextsAreStreamed(trace);
    ReadPrefix(ReadText, "", trace, j + 1);
    ReadTextsAreStreamed(trace[..j + 1]);
    assert ReadTexts("", trace[..j + 1][..j]).Some?;
  }

  function TopResult(env: Env, input: Input): seq<AgentEvents.ToolResult> {
    match input
    case Parsed(ToolResult(id, name, content, _, isError, None)) =>
      [AgentEvents.ToolResult(id, env.canonical(name), content, isError, None)]
    case _ => []
  }

  /** The results of the tools without a parent, in order. */
  function TopResults(env: Env, inputs: seq<Input>): seq<AgentEvents.ToolResult> {
    if inputs == [] then [] else TopResults(env, inputs[..|inputs| - 1]) + TopResult(env, inputs[|inputs| - 1])
  }

  lemma {:induction false} NoTurnEndYet(env: Env, s: Turn, input: Input)
    requires !Ending(input) && Handle(env, s, input).Some?
    ensures var (_, emitted) := Handle(env, s, input).value; forall j | 0 <= j < |emitted| :: !emitted[j].TurnEnd?
  {
    match input
    case Parsed(ToolUseStart(_, _, _, _, _, _)) =>
    case Parsed(ToolResult(_, _, _, _, _, _)) =>
    case _ =>
  }

  lemma {:induction false} StepResults(env: Env, s: Turn, input: Input)
    requires Handle(env, s, input).Some?
    ensures var (t, emitted) := Handle(env, s, input).value;
            && t.results == s.results + TopResult(env, input)
            && forall j | 0 <= j < |emitted| && emitted[j].TurnEnd? :: emitted[j].toolResults == s.results
  {
    if Ending(input) {
      EndingStep(env, s, input);
    } else {
      NoTurnEndYet(env, s, input);
    }
  }

  /** A turn end, wherever it comes, reports the results of the top-level tools finished
      before it, in order. */
  lemma {:induction false} TurnEndsReportTopResults(env: Env, inputs: seq<Input>, last: Input)
    requires Run(env, inputs + [last]).Some?
    ensures Run(env, inputs).Some? && Run(env, inputs).value.1 <= Run(env, inputs + [last]).value.1
    ensures var before, trace := Run(env, inputs).value.1, Run(env, inputs + [last]).value.1;
            forall j | |before| <= j < |trace| && trace[j].TurnEnd? :: trace[j].toolResults == TopResults(env, inputs)
  {
    assert (inputs + [last])[..|inputs|] == inputs;
    ResultsAreTopResults(env, inputs);
    StepResults(env, Run(env, inputs).value.0, last);
  }

  lemma {:induction false} ResultsAreTopResults(env: Env, inputs: seq<Input>)
    requires Run(env, inputs).Some?
    ensures Run(env, inputs).value.0.results == TopResults(env, inputs)
  {
    if inputs != [] {
      ResultsAreTopResults(env, inputs[..|inputs| - 1]);
      StepResults(env, Run(env, inputs[..|inputs| - 1]).value.0, inputs[|inputs| - 1]);
    }
  }
}
