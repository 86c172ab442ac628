// The small stateful helpers of the Claude Code provider: the tool lifecycle tracker
// (tool_fsm.rs), the text deduplicator (dedup.rs) and the nested tool tracker (nested.rs).

/** Tool lifecycle validation. */
module ToolFsm {
  import opened Prelude

  datatype ToolState =
    | Idle
    | Started(toolName: string)
    | InputReceiving(toolName: string, inputSnapshot: string)
    | Executing(toolName: string, finalInput: string)
    | Completed(toolName: string, success: bool)

  datatype Transition =
    | ToStarted(toolName: string)
    | ToInput(delta: string)
    | ToExecuting(toolName: string, finalInput: string)
    | ToCompleted(success: bool)

  function StateOf(states: map<string, ToolState>, id: string): ToolState {
    if id in states then states[id] else Idle
  }

  /** The state after a transition, if the lifecycle allows it. */
  function Advance(state: ToolState, t: Transition): Option<ToolState> {
    match (state, t)
    case (Idle, ToStarted(name)) => Some(Started(name))
    case (Completed(_, _), ToStarted(name)) => Some(Started(name))
    case (Started(name), ToInput(delta)) => Some(InputReceiving(name, delta))
    case (InputReceiving(name, input), ToInput(delta)) => Some(InputReceiving(name, input + delta))
    case (Started(_), ToExecuting(name, final)) => Some(Executing(name, final))
    case (InputReceiving(_, input), ToExecuting(name, final)) => Some(Executing(name, if final == "" then input
        else final))
    case (Executing(name, _), ToCompleted(success)) => Some(Completed(name, success))
    case _ => None
  }

  /** The tracker after a transition of one tool. */
  function Move(states: map<string, ToolState>, id: string, t: Transition): Option<map<string, ToolState>> {
    match Advance(StateOf(states, id), t)
    case Some(next) => Some(states[id := next])
    case None => None
  }

  class ToolLifecycleTracker {
    var states: map<string, ToolState>

    constructor ()
      ensures states == map[]
    {
      states := map[];
    }

    function State(id: string): ToolState
      reads this
    {
      if id in states then states[id] else Idle
    }

    method Start(id: string, toolName: string) returns (ok: bool)
      modifies this
      ensures Move(old(states), id, ToStarted(toolName)) == if ok then Some(states) else None
      ensures !ok ==> states == old(states)
    {
      match State(id)
      case Idle =>
        states := states[id := Started(toolName)];
        ok := true;
      case Completed(_, _) =>
        states := states[id := Started(toolName)];
        ok := true;
      case _ => ok := false;
    }

    method InputDelta(id: string, delta: string) returns (ok: bool)
      modifies this
      ensures Move(old(states), id, ToInput(delta)) == if ok then Some(states) else None
      ensures !ok ==> states == old(states)
    {
      match State(id)
      case Started(name) =>
        states := states[id := InputReceiving(name, delta)];
        ok := true;
      case InputReceiving(name, input) =>
        var snapshot := input + delta;
        states := states[id := InputReceiving(name, snapshot)];
        ok := true;
      case _ => ok := false;
    }

    method CompleteInput(id: string, toolName: string, finalInput: string) returns (ok: bool)
      modifies this
      ensures Move(old(states), id, ToExecuting(toolName, finalInput)) == if ok then Some(states) else None
      ensures !ok ==> states == old(states)
    {
      match State(id)
      case Started(_) =>
        states := states[id := Executing(toolName, finalInput)];
        ok := true;
      case InputReceiving(_, input) =>
        states := states[id := Executing(toolName, if finalInput == "" then input else finalInput)];
        ok := true;
      case _ => ok := false;
    }

    method Finish(id: string, success: bool) returns (ok: bool)
      modifies this
      ensures Move(old(states), id, ToCompleted(success)) == if ok then Some(states) else None
      ensures !ok ==> states == old(states)
    {
      match State(id)
      case Executing(name, _) =>
        states := states[id := Completed(name, success)];
        ok := true;
      case _ => ok := false;
    }
  }
}

/** Text deduplication between streamed deltas and assistant snapshots. Lengths count UTF-8 bytes. */
module TextDedup {
  import opened Prelude

  const USIZE_MAX: nat := 0xFFFF_FFFF_FFFF_FFFF

  /** Bytes of a character in UTF-8. */
  function Width(c: char): nat {
    if c as int < 0x80 then 1 else if c as int < 0x800 then 2 else if c as int < 0x1_0000 then 3 else 4
  }

  function ByteLen(s: string): nat {
    if s == "" then 0 else Width(s[0]) + ByteLen(s[1..])
  }

  /** `s[n..]` by bytes; inside a character, where the program panics, there is no result. */
  function DropBytes(s: string, n: nat): Option<string> {
    if n == 0 then Some(s)
    else if s == "" || n < Width(s[0]) then None
    else DropBytes(s[1..], n - Width(s[0]))
  }

  datatype Source = Streamed | Snapshot

  /** `process`: the text to emit. */
  function Fresh(streamed: nat, source: Source, text: string): Option<string> {
    if source.Streamed? then Some(text)
    else if ByteLen(text) > streamed then DropBytes(text, streamed)
    else Some("")
  }

  function StreamedAfter(streamed: nat, source: Source, text: string): nat {
    if source.Streamed? then
      if streamed + ByteLen(text) <= USIZE_MAX then streamed + ByteLen(text) else USIZE_MAX
    else if ByteLen(text) > streamed then ByteLen(text) else streamed
  }

  lemma {:induction false} ByteLenOfConcat(a: string, b: string)
    ensures ByteLen(a + b) == ByteLen(a) + ByteLen(b)
  {
    if a == "" {
      assert a + b == b;
    } else {
      ByteLenOfConcat(a[1..], b);
      assert (a + b)[1..] == a[1..] + b;
    }
  }

  lemma {:induction false} DropBytesOfConcat(a: string, b: string)
    ensures DropBytes(a + b, ByteLen(a)) == Some(b)
  {
    if a == "" {
      assert a + b == b;
    } else {
      DropBytesOfConcat(a[1..], b);
      assert (a + b)[1..] == a[1..] + b;
    }
  }

  /** What is emitted between two resets: the streamed pieces and what snapshots add. */
  function Emitted(pieces: seq<(Source, string)>): Option<string> {
    if pieces == [] then Some("")
    else
      var (source, text) := pieces[|pieces| - 1];
      match (Emitted(pieces[..|pieces| - 1]), Fresh(StreamedBy(pieces[..|pieces| - 1]), source, text))
      case (Some(before), Some(added)) => Some(before + added)
      case _ => None
  }

  function StreamedBy(pieces: seq<(Source, string)>): nat {
    if pieces == [] then 0
    else
      var (source, text) := pieces[|pieces| - 1];
      StreamedAfter(StreamedBy(pieces[..|pieces| - 1]), source, text)
  }

  /** A place between two characters. */
  predicate Boundary(s: string, n: nat) {
    exists k :: 0 <= k <= |s| && ByteLen(s[..k]) == n
  }

  /** A slice is taken exactly at the places between characters. */
  lemma {:induction false} SlicesExactlyAtBoundaries(s: string, n: nat)
    ensures DropBytes(s, n).Some? <==> Boundary(s, n)
    ensures DropBytes(s, n).Some? ==>
              exists k :: 0 <= k <= |s| && ByteLen(s[..k]) == n && DropBytes(s, n).value == s[k..]
  {
    if n == 0 {
      assert ByteLen(s[..0]) == 0 && s[0..] == s;
    } else if s == "" {
      assert forall k | 0 <= k <= |s| :: s[..k] == "";
    } else {
      forall k | 1 <= k <= |s| ensures ByteLen(s[..k]) == Width(s[0]) + ByteLen(s[1..][..k - 1]) {
        assert s[..k][1..] == s[1..][..k - 1];
      }
      assert ByteLen(s[..0]) == 0;
      if n >= Width(s[0]) {
        var rest := n - Width(s[0]);
        SlicesExactlyAtBoundaries(s[1..], rest);
        if k :| 0 <= k <= |s[1..]| && ByteLen(s[1..][..k]) == rest && DropBytes(s[1..], rest) == Some(s[1..][k..]) {
          assert ByteLen(s[..k + 1]) == n && s[k + 1..] == s[1..][k..];
        }
        if k :| 1 <= k <= |s| && ByteLen(s[..k]) == n {
          assert ByteLen(s[1..][..k - 1]) == rest;
        }
      }
    }
  }

  /** Slicing a longer text behind `streamed` bytes would cut a character in two. */
  predicate Cuts(streamed: nat, text: string) {
    streamed < ByteLen(text) && !Boundary(text, streamed)
  }

  lemma {:induction false} FreshExactly(streamed: nat, source: Source, text: string)
    ensures Fresh(streamed, source, text).None? <==> source.Snapshot? && Cuts(streamed, text)
  {
    SlicesExactlyAtBoundaries(text, streamed);
  }

  predicate CutAt(pieces: seq<(Source, string)>, i: nat)
    requires i < |pieces|
  {
    pieces[i].0.Snapshot? && Cuts(StreamedBy(pieces[..i]), pieces[i].1)
  }

  /** Between two resets the program panics exactly when some snapshot is longer than what
      the pieces before it counted, and has no place between characters there. */
  lemma {:induction false} PanicsExactly(pieces: seq<(Source, string)>)
    ensures Emitted(pieces).None? <==> exists i :: 0 <= i < |pieces| && CutAt(pieces, i)
  {
    if pieces != [] {
      var n := |pieces| - 1;
      PanicsExactly(pieces[..n]);
      FreshExactly(StreamedBy(pieces[..n]), pieces[n].0, pieces[n].1);
      forall i | 0 <= i < n ensures CutAt(pieces[..n], i) <==> CutAt(pieces, i) {
        assert pieces[..n][..i] == pieces[..i];
      }
      if Emitted(pieces).None? && Emitted(pieces[..n]).Some? {
        assert CutAt(pieces, n);
      }
    }
  }

  /** One streamed byte, and a snapshot that begins with a character of two. */
  lemma {:induction false} SnapshotCutsCharacter()
    ensures Emitted([(Streamed, "a"), (Snapshot, "\U{E9}")]) == None
  {
    var pieces := [(Streamed, "a"), (Snapshot, "\U{E9}")];
    assert pieces[..1] == [(Streamed, "a")] && pieces[..1][..0] == [];
    assert ByteLen("a") == 1 && ByteLen("\U{E9}") == 2;
    assert StreamedBy(pieces[..1]) == 1;
    assert DropBytes("\U{E9}", 1) == None;
  }

  lemma {:induction false} EmptyByBytes(s: string)
    ensures ByteLen(s) == 0 <==> s == ""
  {}

  /** A snapshot adds nothing exactly when it is no longer than the count. */
  lemma {:induction false} AddsNothing(streamed: nat, text: string)
    ensures Fresh(streamed, Snapshot, text) == Some("") <==> ByteLen(text) <= streamed
  {
    if ByteLen(text) > streamed && DropBytes(text, streamed).Some? {
      DroppedBytes(text, streamed);
    }
  }

  // ------------------------------------------------ pieces of one text

  /** A piece that carries the text between two places of a whole text. */
  datatype Place = Place(source: Source, from: nat, to: nat)

  function Later(m: nat, n: nat): nat {
    if m < n then n else m
  }

  /** How far the first `k` pieces have carried the whole text. */
  function Heard(places: seq<Place>, k: nat): nat
    requires k <= |places|
  {
    if k == 0 then 0 else Later(Heard(places, k - 1), places[k - 1].to)
  }

  /** The pieces are those parts of the whole text and leave no gap: each begins within what
      was carried before it. */
  predicate Carry(pieces: seq<(Source, string)>, whole: string, places: seq<Place>) {
    && |pieces| == |places|
    && forall i | 0 <= i < |places| ::
         && places[i].from <= places[i].to <= |whole|
         && places[i].from <= Heard(places, i) <= |whole|
         && pieces[i] == (places[i].source, whole[places[i].from..places[i].to])
  }

  /** After `heard` of the whole text, with the last reset at `reset`: a streamed piece goes on
      from there or is empty; a snapshot that brings more repeats everything since the reset,
      and one that brings nothing is no longer than that. */
  predicate ComesOnce(whole: string, reset: nat, heard: nat, place: Place)
    requires reset <= heard <= |whole| && place.from <= place.to <= |whole|
  {
    if place.source.Streamed? then place.from == heard || place.from == place.to
    else if place.to > heard then place.from == reset
    else ByteLen(whole[place.from..place.to]) <= ByteLen(whole[reset..heard])
  }

  lemma {:induction false} SliceSplits(whole: string, i: nat, j: nat, k: nat)
    requires i <= j <= k <= |whole|
    ensures whole[i..k] == whole[i..j] + whole[j..k]
  {}

  lemma {:induction false} BytesBetween(whole: string, i: nat, j: nat, k: nat)
    requires i <= j <= k <= |whole|
    ensures ByteLen(whole[i..k]) == ByteLen(whole[i..j]) + ByteLen(whole[j..k])
    ensures j < k ==> ByteLen(whole[i..j]) < ByteLen(whole[i..k])
  {
    SliceSplits(whole, i, j, k);
    ByteLenOfConcat(whole[i..j], whole[j..k]);
    EmptyByBytes(whole[j..k]);
  }

  /** One more piece: what is added completes what was carried before exactly if it comes once,
      and then the bytes counted are those since the reset. */
  lemma {:induction false} OneMorePlace(whole: string, reset: nat, heard: nat, place: Place)
    requires reset <= heard <= |whole| && place.from <= heard && place.from <= place.to <= |whole|
    requires ByteLen(whole) <= USIZE_MAX
    ensures var count, text := ByteLen(whole[reset..heard]), whole[place.from..place.to];
            var added, now := Fresh(count, place.source, text), Later(heard, place.to);
            && (added.Some? && whole[..heard] + added.value == whole[..now]
                <==> ComesOnce(whole, reset, heard, place))
            && (ComesOnce(whole, reset, heard, place) ==>
                  StreamedAfter(count, place.source, text) == ByteLen(whole[reset..now]))
  {
    var count, text := ByteLen(whole[reset..heard]), whole[place.from..place.to];
    var added, now := Fresh(count, place.source, text), Later(heard, place.to);
    assert whole[..heard] + whole[heard..now] == whole[..now];
    if added.Some? {
      assert whole[..heard] + added.value == whole[..now] <==> added.value == whole[heard..now] by {
        assert (whole[..heard] + added.value)[heard..] == added.value;
        assert whole[..now][heard..] == whole[heard..now];
      }
    }
    if place.source.Streamed? {
      StreamedPlace(whole, reset, heard, place);
    } else if place.to > heard {
      LongerSnapshotPlace(whole, reset, heard, place);
    } else {
      AddsNothing(count, text);
    }
  }

  lemma {:induction false} StreamedPlace(whole: string, reset: nat, heard: nat, place: Place)
    requires reset <= heard <= |whole| && place.from <= heard && place.from <= place.to <= |whole|
    requires ByteLen(whole) <= USIZE_MAX && place.source.Streamed?
    ensures whole[place.from..place.to] == whole[heard..Later(heard, place.to)]
            <==> ComesOnce(whole, reset, heard, place)
    ensures ComesOnce(whole, reset, heard, place) ==>
              ByteLen(whole[reset..heard]) + ByteLen(whole[place.from..place.to])
              == ByteLen(whole[reset..Later(heard, place.to)]) <= USIZE_MAX
  {
    var now := Later(heard, place.to);
    BytesBetween(whole, reset, heard, now);
    BytesBetween(whole, 0, reset, now);
    BytesBetween(whole, 0, now, |whole|);
    assert whole[0..|whole|] == whole;
  }

  lemma {:induction false} LongerSnapshotPlace(whole: string, reset: nat, heard: nat, place: Place)
    requires reset <= heard < place.to <= |whole| && place.from <= heard && place.source.Snapshot?
    ensures var count, text := ByteLen(whole[reset..heard]), whole[place.from..place.to];
            && (Fresh(count, Snapshot, text) == Some(whole[heard..place.to]) <==> place.from == reset)
            && (place.from == reset ==> StreamedAfter(count, Snapshot, text) == ByteLen(whole[reset..place.to]))
  {
    var count, text := ByteLen(whole[reset..heard]), whole[place.from..place.to];
    BytesBetween(whole, reset, heard, place.to);
    BytesBetween(whole, place.from, heard, place.to);
    if place.from == reset {
      SliceSplits(whole, reset, heard, place.to);
      DropBytesOfConcat(whole[reset..heard], whole[heard..place.to]);
    } else {
      if place.from < reset {
        BytesBetween(whole, place.from, reset, place.to);
        BytesBetween(whole, place.from, reset, heard);
      } else {
        BytesBetween(whole, reset, place.from, heard);
      }
      if ByteLen(text) > count && DropBytes(text, count).Some? {
        DroppedBytes(text, count);
      }
    }
  }

  lemma {:induction false} DroppedBytes(s: string, n: nat)
    requires DropBytes(s, n).Some?
    ensures ByteLen(s) == n + ByteLen(DropBytes(s, n).value)
  {
    if n > 0 {
      DroppedBytes(s[1..], n - Width(s[0]));
    }
  }

  /** What the first `k` pieces carry has been emitted, nothing missing and nothing twice. */
  predicate EmittedSoFar(pieces: seq<(Source, string)>, whole: string, places: seq<Place>, k: nat)
    requires k <= |places| == |pieces|
  {
    Heard(places, k) <= |whole| && Emitted(pieces[..k]) == Some(whole[..Heard(places, k)])
  }

  lemma {:induction false} OnePieceMore(pieces: seq<(Source, string)>, k: nat)
    requires k < |pieces|
    ensures StreamedBy(pieces[..k + 1]) == StreamedAfter(StreamedBy(pieces[..k]), pieces[k].0, pieces[k].1)
    ensures Emitted(pieces[..k]).Some? ==>
              Emitted(pieces[..k + 1]) == match Fresh(StreamedBy(pieces[..k]), pieces[k].0, pieces[k].1)
                                          case Some(added) => Some(Emitted(pieces[..k]).value + added)
                                          case None => None
  {
    assert pieces[..k + 1][..k] == pieces[..k];
  }

  /** The first `k` pieces have been emitted and counted exactly. */
  predicate CountedSoFar(pieces: seq<(Source, string)>, whole: string, places: seq<Place>, k: nat)
    requires k <= |places| == |pieces|
  {
    && EmittedSoFar(pieces, whole, places, k)
    && StreamedBy(pieces[..k]) == ByteLen(whole[0..Heard(places, k)])
  }

  lemma {:induction false} OnePlaceOn(pieces: seq<(Source, string)>, whole: string, places: seq<Place>, k: nat)
    requires Carry(pieces, whole, places) && ByteLen(whole) <= USIZE_MAX && k < |places|
    requires CountedSoFar(pieces, whole, places, k)
    ensures EmittedSoFar(pieces, whole, places, k + 1) <==> ComesOnce(whole, 0, Heard(places, k), places[k])
    ensures EmittedSoFar(pieces, whole, places, k + 1) ==> CountedSoFar(pieces, whole, places, k + 1)
  {
    OnePieceMore(pieces, k);
    OneMorePlace(whole, 0, Heard(places, k), places[k]);
  }

  predicate AllEmitted(pieces: seq<(Source, string)>, whole: string, places: seq<Place>, k: nat)
    requires k <= |places| == |pieces|
  {
    forall j | 0 <= j <= k :: EmittedSoFar(pieces, whole, places, j)
  }

  predicate AllComeOnce(pieces: seq<(Source, string)>, whole: string, places: seq<Place>, k: nat)
    requires Carry(pieces, whole, places) && k <= |places|
  {
    forall i | 0 <= i < k :: ComesOnce(whole, 0, Heard(places, i), places[i])
  }

  lemma {:induction false} NoPlaceYet(pieces: seq<(Source, string)>, whole: string, places: seq<Place>)
    requires Carry(pieces, whole, places)
    ensures AllEmitted(pieces, whole, places, 0) && CountedSoFar(pieces, whole, places, 0)
  {
    assert whole[..0] == "" && pieces[..0] == [];
  }

  lemma {:induction false} OnePlaceMore(pieces: seq<(Source, string)>, whole: string, places: seq<Place>, k: nat)
    requires Carry(pieces, whole, places) && k < |places|
    ensures AllEmitted(pieces, whole, places, k + 1)
            <==> AllEmitted(pieces, whole, places, k) && EmittedSoFar(pieces, whole, places, k + 1)
    ensures AllComeOnce(pieces, whole, places, k + 1)
            <==> AllComeOnce(pieces, whole, places, k) && ComesOnce(whole, 0, Heard(places, k), places[k])
  {}

  /** What is claimed of the first `k` pieces. */
  predicate ExactSoFar(pieces: seq<(Source, string)>, whole: string, places: seq<Place>, k: nat)
    requires Carry(pieces, whole, places) && k <= |places|
  {
    && (AllEmitted(pieces, whole, places, k) <==> AllComeOnce(pieces, whole, places, k))
    && (AllEmitted(pieces, whole, places, k) ==> CountedSoFar(pieces, whole, places, k))
  }

  lemma {:induction false} ExactOneMore(pieces: seq<(Source, string)>, whole: string, places: seq<Place>, k: nat)
    requires Carry(pieces, whole, places) && ByteLen(whole) <= USIZE_MAX && k < |places|
    requires ExactSoFar(pieces, whole, places, k)
    ensures ExactSoFar(pieces, whole, places, k + 1)
  {
    OnePlaceMore(pieces, whole, places, k);
    if AllEmitted(pieces, whole, places, k) {
      OnePlaceOn(pieces, whole, places, k);
    }
  }

  lemma {:induction false} FirstPlaces(pieces: seq<(Source, string)>, whole: string, places: seq<Place>, k: nat)
    requires Carry(pieces, whole, places) && ByteLen(whole) <= USIZE_MAX && k <= |places|
    ensures ExactSoFar(pieces, whole, places, k)
  {
    if k == 0 {
      NoPlaceYet(pieces, whole, places);
    } else {
      FirstPlaces(pieces, whole, places, k - 1);
      ExactOneMore(pieces, whole, places, k - 1);
    }
  }

  /** Between two resets, what the pieces of a text carry is emitted at every point, nothing
      missing and nothing twice, precisely when every streamed piece goes on from what came
      before (or is empty) and every snapshot that brings more begins at the beginning. */
  lemma {:induction false} SnapshotsAddOnlyWhatIsMissing(pieces: seq<(Source, string)>, whole: string,
          places: seq<Place>)
    requires Carry(pieces, whole, places) && ByteLen(whole) <= USIZE_MAX
    ensures AllEmitted(pieces, whole, places, |places|)
            <==> forall i | 0 <= i < |places| ::
                   if places[i].source.Streamed? then
                     places[i].from == Heard(places, i) || places[i].from == places[i].to
                   else places[i].from == 0 || places[i].to <= Heard(places, i)
  {
    FirstPlaces(pieces, whole, places, |places|);
    forall i | 0 <= i < |places| && places[i].source.Snapshot? && places[i].to <= Heard(places, i)
      ensures ComesOnce(whole, 0, Heard(places, i), places[i])
    {
      BytesBetween(whole, 0, places[i].from, Heard(places, i));
      BytesBetween(whole, places[i].from, places[i].to, Heard(places, i));
    }
  }

  // ------------------------------------------------ snapshots that are blocks of their own

  function AsSnapshots(blocks: seq<string>): (pieces: seq<(Source, string)>)
    ensures |pieces| == |blocks| && forall i | 0 <= i < |pieces| :: pieces[i] == (Snapshot, blocks[i])
  {
    seq(|blocks|, i requires 0 <= i < |blocks| => (Snapshot, blocks[i]))
  }

  function JoinedBlocks(blocks: seq<string>): string {
    if blocks == [] then "" else JoinedBlocks(blocks[..|blocks| - 1]) + blocks[|blocks| - 1]
  }

  predicate AtMostOneNotEmpty(blocks: seq<string>) {
    forall i, j | 0 <= i < j < |blocks| :: blocks[i] == "" || blocks[j] == ""
  }

  /** The count after blocks is the longest of them, so more than one loses text. */
  lemma {:induction false} BlocksCounted(blocks: seq<string>)
    ensures StreamedBy(AsSnapshots(blocks)) <= ByteLen(JoinedBlocks(blocks))
    ensures StreamedBy(AsSnapshots(blocks)) == ByteLen(JoinedBlocks(blocks)) <==> AtMostOneNotEmpty(blocks)
    ensures StreamedBy(AsSnapshots(blocks)) == 0 <==> forall i | 0 <= i < |blocks| :: blocks[i] == ""
  {
    if blocks != [] {
      var n := |blocks| - 1;
      var front, last := blocks[..n], blocks[n];
      BlocksCounted(front);
      assert AsSnapshots(blocks)[..n] == AsSnapshots(front);
      ByteLenOfConcat(JoinedBlocks(front), last);
      EmptyByBytes(last);
      assert forall i | 0 <= i < n :: front[i] == blocks[i];
    }
  }

  function StreamThenBlocks(streamed: string, blocks: seq<string>): seq<(Source, string)> {
    [(Streamed, streamed)] + AsSnapshots(blocks)
  }

  lemma {:induction false} OneBlockMore(streamed: string, blocks: seq<string>)
    requires blocks != []
    ensures var n := |blocks| - 1;
            && StreamThenBlocks(streamed, blocks)[..n + 1] == StreamThenBlocks(streamed, blocks[..n])
            && StreamThenBlocks(streamed, blocks)[n + 1] == (Snapshot, blocks[n])
  {
    var n := |blocks| - 1;
    assert AsSnapshots(blocks)[..n] == AsSnapshots(blocks[..n]);
  }

  lemma {:induction false} OnlyStreamed(streamed: string)
    requires ByteLen(streamed) <= USIZE_MAX
    ensures var pieces := StreamThenBlocks(streamed, []);
            Emitted(pieces) == Some(streamed) && StreamedBy(pieces) == ByteLen(streamed)
  {
    var pieces := StreamThenBlocks(streamed, []);
    assert pieces == [(Streamed, streamed)] && pieces[..0] == [] && "" + streamed == streamed;
  }

  lemma {:induction false} ShorterBlocksAddNothing(streamed: string, blocks: seq<string>)
    requires ByteLen(streamed) <= USIZE_MAX
    requires forall i | 0 <= i < |blocks| :: ByteLen(blocks[i]) <= ByteLen(streamed)
    ensures var pieces := StreamThenBlocks(streamed, blocks);
            Emitted(pieces) == Some(streamed) && StreamedBy(pieces) == ByteLen(streamed)
  {
    if blocks == [] {
      OnlyStreamed(streamed);
    } else {
      ShorterBlocksAddNothing(streamed, blocks[..|blocks| - 1]);
      OneBlockMore(streamed, blocks);
      assert streamed + "" == streamed;
    }
  }

  lemma {:induction false} BlockAddsItsRest(streamed: string, block: string)
    requires streamed <= block
    ensures var added := Fresh(ByteLen(streamed), Snapshot, block); added.Some? && streamed + added.value == block
  {
    var rest := block[|streamed|..];
    assert block == streamed + rest;
    ByteLenOfConcat(streamed, rest);
    DropBytesOfConcat(streamed, rest);
    EmptyByBytes(rest);
  }

  lemma {:induction false} EmptyBlockAddsNothing(streamed: string, blocks: seq<string>)
    requires blocks != [] && blocks[|blocks| - 1] == ""
    requires Emitted(StreamThenBlocks(streamed, blocks[..|blocks| - 1])) == Some(JoinedBlocks(blocks[..|blocks| - 1]))
    ensures Emitted(StreamThenBlocks(streamed, blocks)) == Some(JoinedBlocks(blocks))
  {
    var front := JoinedBlocks(blocks[..|blocks| - 1]);
    OneBlockMore(streamed, blocks);
    assert front + "" == front && ByteLen("") == 0;
  }

  lemma {:induction false} OneBlockIsEmitted(streamed: string, blocks: seq<string>)
    requires ByteLen(streamed) <= USIZE_MAX && AtMostOneNotEmpty(blocks) && streamed <= JoinedBlocks(blocks)
    ensures Emitted(StreamThenBlocks(streamed, blocks)) == Some(JoinedBlocks(blocks))
  {
    if blocks == [] {
      OnlyStreamed(streamed);
    } else {
      var n := |blocks| - 1;
      var front, last := blocks[..n], blocks[n];
      assert forall i | 0 <= i < n :: front[i] == blocks[i];
      if last == "" {
        OneBlockIsEmitted(streamed, front);
        EmptyBlockAddsNothing(streamed, blocks);
      } else {
        NothingJoined(front);
        OneBlockMore(streamed, blocks);
        assert "" + last == last;
        ShorterBlocksAddNothing(streamed, front);
        BlockAddsItsRest(streamed, last);
      }
    }
  }

  lemma {:induction false} NothingJoined(blocks: seq<string>)
    requires forall i | 0 <= i < |blocks| :: blocks[i] == ""
    ensures JoinedBlocks(blocks) == ""
  {
    if blocks != [] {
      NothingJoined(blocks[..|blocks| - 1]);
    }
  }

  /** The count is the longer of what was streamed and the longest block, and as much comes out. */
  lemma {:induction false} CountIsWhatIsEmitted(streamed: string, blocks: seq<string>)
    requires ByteLen(streamed) <= USIZE_MAX
    ensures var pieces := StreamThenBlocks(streamed, blocks);
            && StreamedBy(pieces) == Later(ByteLen(streamed), StreamedBy(AsSnapshots(blocks)))
            && (Emitted(pieces).Some? ==> ByteLen(Emitted(pieces).value) == StreamedBy(pieces))
  {
    if blocks == [] {
      OnlyStreamed(streamed);
    } else {
      var n := |blocks| - 1;
      var front, last := blocks[..n], blocks[n];
      CountIsWhatIsEmitted(streamed, front);
      OneBlockMore(streamed, blocks);
      assert AsSnapshots(blocks)[..n] == AsSnapshots(front);
      var pieces := StreamThenBlocks(streamed, front);
      var count := StreamedBy(pieces);
      if Emitted(pieces).Some? && Fresh(count, Snapshot, last).Some? {
        ByteLenOfConcat(Emitted(pieces).value, Fresh(count, Snapshot, last).value);
        if ByteLen(last) > count {
          DroppedBytes(last, count);
        }
      }
    }
  }

  lemma {:induction false} BlocksWithinJoined(blocks: seq<string>, i: nat)
    requires i < |blocks|
    ensures ByteLen(blocks[i]) <= ByteLen(JoinedBlocks(blocks))
  {
    var n := |blocks| - 1;
    ByteLenOfConcat(JoinedBlocks(blocks[..n]), blocks[n]);
    if i < n {
      BlocksWithinJoined(blocks[..n], i);
    }
  }

  /** A streamed text and then the blocks of a snapshot that repeats it: all the blocks' text
      comes out exactly when it was all streamed, or when at most one block is not empty.
      Otherwise text is lost, or the program panics. */
  lemma {:induction false} BlocksComeOutWholeExactly(streamed: string, blocks: seq<string>)
    requires streamed <= JoinedBlocks(blocks) && ByteLen(streamed) <= USIZE_MAX
    ensures Emitted(StreamThenBlocks(streamed, blocks)) == Some(JoinedBlocks(blocks))
            <==> streamed == JoinedBlocks(blocks) || AtMostOneNotEmpty(blocks)
  {
    var whole := JoinedBlocks(blocks);
    if streamed == whole {
      forall i | 0 <= i < |blocks| ensures ByteLen(blocks[i]) <= ByteLen(streamed) {
        BlocksWithinJoined(blocks, i);
      }
      ShorterBlocksAddNothing(streamed, blocks);
    } else if AtMostOneNotEmpty(blocks) {
      OneBlockIsEmitted(streamed, blocks);
    } else {
      BytesBetween(whole, 0, |streamed|, |whole|);
      assert whole[0..|streamed|] == streamed && whole[0..|whole|] == whole;
      BlocksCounted(blocks);
      CountIsWhatIsEmitted(streamed, blocks);
    }
  }

  /** Two records of a block each, of which nothing was streamed: the second is lost. */
  lemma {:induction false} SecondRecordIsLost()
    ensures Emitted(AsSnapshots(["hello", "bye"])) == Some("hello")
  {
    var pieces := AsSnapshots(["hello", "bye"]);
    assert pieces[..1] == [(Snapshot, "hello")] && pieces[..1][..0] == [];
    assert ByteLen("hello") == 5 && ByteLen("bye") == 3;
    assert "" + "hello" == "hello" && "hello" + "" == "hello";
  }

  /** Two blocks, of which the second loses its beginning. */
  lemma {:induction false} SecondBlockLosesText()
    ensures Emitted(AsSnapshots(["AA", "BBB"])) == Some("AAB")
  {
    var pieces := AsSnapshots(["AA", "BBB"]);
    assert pieces[..1] == [(Snapshot, "AA")] && pieces[..1][..0] == [];
    assert ByteLen("AA") == 2 && ByteLen("BBB") == 3;
    assert DropBytes("BBB", 2) == Some("B");
    assert "" + "AA" == "AA" && "AA" + "B" == "AAB";
  }

  class TextDeduplicator {
    var streamedTextLength: nat

    constructor ()
      ensures streamedTextLength == 0
    {
      streamedTextLength := 0;
    }

    /** `process`; no result means the slice is not on a character boundary. */
    method Process(source: Source, text: string) returns (added: Option<string>)
      modifies this
      ensures added == Fresh(old(streamedTextLength), source, text)
      ensures streamedTextLength == StreamedAfter(old(streamedTextLength), source, text)
    {
      match source
      case Streamed =>
        var sum := streamedTextLength + ByteLen(text);
        streamedTextLength := if sum <= USIZE_MAX then sum else USIZE_MAX;
        added := Some(text);
      case Snapshot =>
        if ByteLen(text) > streamedTextLength {
          added := DropBytes(text, streamedTextLength);
          streamedTextLength := ByteLen(text);
        } else {
          added := Some("");
        }
    }

    method Reset()
      modifies this
      ensures streamedTextLength == 0
    {
      streamedTextLength := 0;
    }
  }
}

/** Nested tool calls, collected under their parent until its result arrives. */
module NestedTools {
  import opened Prelude
  import opened JsonValues

  datatype Status = Running | Succeeded | Broken

  datatype NestedTool = NestedTool(
    id: string, toolName: string, status: Status,
    input: Option<Value>, output: Option<Value>, error: Option<Value>)

  function Rank(status: Status): nat {
    match status
    case Running => 0
    case Succeeded => 1
    case Broken => 2
  }

  function Later<T>(old_: Option<T>, new_: Option<T>): Option<T> {
    if new_.Some? then new_ else old_
  }

  /** What a second registration changes about the first. */
  function Merge(existing: NestedTool, next: NestedTool): (r: NestedTool)
    ensures r.id == existing.id
    ensures Rank(r.status) >= Rank(existing.status) && Rank(r.status) >= Rank(next.status)
  {
    NestedTool(existing.id,
               if existing.toolName == "unknown" then next.toolName else existing.toolName,
               if Rank(next.status) > Rank(existing.status) then next.status else existing.status,
               Later(existing.input, next.input), Later(existing.output, next.output),
                   Later(existing.error, next.error))
  }

  function Upserted(store: seq<NestedTool>, next: NestedTool): seq<NestedTool> {
    if store == [] then [next]
    else if store[0].id == next.id then [Merge(store[0], next)] + store[1..]
    else [store[0]] + Upserted(store[1..], next)
  }

  /** The store after a list of registrations. */
  function Stored(registered: seq<NestedTool>): seq<NestedTool> {
    if registered == [] then [] else Upserted(Stored(registered[..|registered| - 1]), registered[|registered| - 1])
  }

  function Ids(store: seq<NestedTool>): (ids: seq<string>)
    ensures |ids| == |store| && forall i | 0 <= i < |store| :: ids[i] == store[i].id
  {
    seq(|store|, i requires 0 <= i < |store| => store[i].id)
  }

  /** The registered ids, each once, in the order they first came. */
  function FirstIds(registered: seq<NestedTool>): seq<string> {
    if registered == [] then []
    else
      var ids, id := FirstIds(registered[..|registered| - 1]), registered[|registered| - 1].id;
      if id in ids then ids else ids + [id]
  }

  /** All registrations of one child merged, first to last. */
  function Combined(registered: seq<NestedTool>, id: string): Option<NestedTool> {
    if registered == [] then None
    else
      var before, last := Combined(registered[..|registered| - 1], id), registered[|registered| - 1];
      if last.id != id then before
      else Some(match before case Some(existing) => Merge(existing, last) case None => last)
  }

  lemma {:induction false} UpsertedAt(store: seq<NestedTool>, next: NestedTool, i: nat)
    requires i <= |store| && (i < |store| ==> store[i].id == next.id)
    requires forall j | 0 <= j < i :: store[j].id != next.id
    ensures Upserted(store, next) == if i < |store| then store[i := Merge(store[i], next)] else store + [next]
  {
    if i == 0 {
      if store != [] {
        assert store[0 := Merge(store[0], next)] == [Merge(store[0], next)] + store[1..];
      }
    } else {
      var rest := store[1..];
      UpsertedAt(rest, next, i - 1);
      assert Upserted(store, next) == [store[0]] + Upserted(rest, next);
      if i < |store| {
        assert store[i := Merge(store[i], next)] == [store[0]] + rest[i - 1 := Merge(rest[i - 1], next)];
      } else {
        assert store + [next] == [store[0]] + (rest + [next]);
      }
    }
  }

  lemma {:induction false} FirstIdsDistinct(registered: seq<NestedTool>)
    ensures forall i, j | 0 <= i < j < |FirstIds(registered)| :: FirstIds(registered)[i] != FirstIds(registered)[j]
  {
    if registered != [] {
      FirstIdsDistinct(registered[..|registered| - 1]);
    }
  }

  function Position(store: seq<NestedTool>, id: string): (i: nat)
    ensures i <= |store| && (i < |store| ==> store[i].id == id)
    ensures forall j | 0 <= j < i :: store[j].id != id
  {
    if store == [] || store[0].id == id then 0 else 1 + Position(store[1..], id)
  }

  /** The store lists each registered child once, in first-registration order, with all its
      registrations merged. */
  lemma {:induction false} StoreSummarizesRegistrations(registered: seq<NestedTool>)
    ensures Ids(Stored(registered)) == FirstIds(registered)
    ensures forall i | 0 <= i < |Stored(registered)| ::
              Combined(registered, Stored(registered)[i].id) == Some(Stored(registered)[i])
    ensures forall id | id !in FirstIds(registered) :: Combined(registered, id) == None
  {
    if registered != [] {
      var front, last := registered[..|registered| - 1], registered[|registered| - 1];
      StoreSummarizesRegistrations(front);
      FirstIdsDistinct(front);
      var store := Stored(front);
      var at := Position(store, last.id);
      UpsertedAt(store, last, at);
      assert last.id in FirstIds(front) <==> at < |store| by {
        if at < |store| {
          assert Ids(store)[at] == last.id;
        }
      }
      forall i | 0 <= i < |store| && i != at ensures store[i].id != last.id {
        assert Ids(store)[i] == store[i].id;
        if at < |store| {
          assert Ids(store)[at] == last.id;
        }
      }
    }
  }

  /** A child's status is the highest it was ever registered with. */
  lemma {:induction false} StatusNeverDecreases(registered: seq<NestedTool>, id: string)
    ensures forall i | 0 <= i < |registered| && registered[i].id == id ::
              Combined(registered, id).Some?
              && Rank(registered[i].status) <= Rank(Combined(registered, id).value.status)
    ensures Combined(registered, id).Some? ==>
              exists i :: 0 <= i < |registered| && registered[i].id == id
                && registered[i].status == Combined(registered, id).value.status
  {
    if registered != [] {
      var n := |registered| - 1;
      var front := registered[..n];
      StatusNeverDecreases(front, id);
      if Combined(registered, id).Some? {
        if registered[n].id == id && registered[n].status == Combined(registered, id).value.status {
        } else {
          var i :| 0 <= i < n && front[i].id == id && front[i].status == Combined(front, id).value.status;
          assert registered[i] == front[i];
        }
      }
      forall i | 0 <= i < |registered| && registered[i].id == id
        ensures Combined(registered, id).Some?
                && Rank(registered[i].status) <= Rank(Combined(registered, id).value.status)
      {
        if i < n {
          assert front[i] == registered[i];
        }
      }
    }
  }

  function OrNull(value: Option<Value>): Value {
    match value
    case Some(v) => v
    case None => Null
  }

  function StatusText(status: Status): string {
    match status
    case Running => "running"
    case Succeeded => "completed"
    case Broken => "error"
  }

  function Record(call: NestedTool): Value {
    Object(map["id" := String(call.id), "tool" := String(call.toolName), "state" := String(StatusText(call.status)),
               "input" := OrNull(call.input), "output" := OrNull(call.output), "error" := OrNull(call.error)])
  }

  function Records(store: seq<NestedTool>): Value {
    Array(seq(|store|, i requires 0 <= i < |store| => Record(store[i])))
  }

  /** A parent's result with its children listed; without children it is unchanged. */
  function MergedResult(store: seq<NestedTool>, result: Value): Value {
    if store == [] then result
    else
      match result
      case Object(fields) => Object(fields["toolCalls" := Records(store)])
      case other => Object(map["result" := other, "toolCalls" := Records(store)])
  }

  function StoreOf(stores: map<string, seq<NestedTool>>, parent: string): seq<NestedTool> {
    if parent in stores then stores[parent] else []
  }

  class NestedToolTracker {
    var stores: map<string, seq<NestedTool>>

    constructor ()
      ensures stores == map[]
    {
      stores := map[];
    }

    /** `upsert`: update the entry with the same id, or append a new one. */
    method Upsert(parent: string, next: NestedTool)
      modifies this
      ensures stores == old(stores)[parent := Upserted(StoreOf(old(stores), parent), next)]
    {
      var store := if parent in stores then stores[parent] else [];
      var i := 0;
      while i < |store| && store[i].id != next.id
        invariant 0 <= i <= |store|
        invariant forall j | 0 <= j < i :: store[j].id != next.id
      {
        i := i + 1;
      }
      UpsertedAt(store, next, i);
      if i < |store| {
        var existing := store[i];
        if Rank(next.status) > Rank(existing.status) {
          existing := existing.(status := next.status);
        }
        if next.input.Some? {
          existing := existing.(input := next.input);
        }
        if next.output.Some? {
          existing := existing.(output := next.output);
        }
        if next.error.Some? {
          existing := existing.(error := next.error);
        }
        if existing.toolName == "unknown" {
          existing := existing.(toolName := next.toolName);
        }
        store := store[i := existing];
      } else {
        store := store + [next];
      }
      stores := stores[parent := store];
    }

    method MergeIntoParentResult(parent: string, result: Value) returns (merged: Value)
      modifies this
      ensures merged == MergedResult(StoreOf(old(stores), parent), result)
      ensures stores == old(stores) - {parent}
    {
      var nested := if parent in stores then stores[parent] else [];
      stores := stores - {parent};
      if nested == [] {
        return result;
      }
      match result
      case Object(fields) => merged := Object(fields["toolCalls" := Records(nested)]);
      case other => merged := Object(map["result" := other, "toolCalls" := Records(nested)]);
    }
  }
}
