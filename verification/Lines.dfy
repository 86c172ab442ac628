// The chunked line writers of scripts/markdown/check.go: bytes arrive in arbitrary chunks,
// lines leave.

/** Lines of a byte sequence, independently of any chunking. */
module LineSplitting {

  type Byte = bv8

  const LF: Byte := 10
  const CR: Byte := 13

  /** `bytes.IndexByte(s, '\n')`, or the length if there is none. */
  function IndexOfLf(s: seq<Byte>): (i: nat)
    ensures i <= |s| && (i < |s| ==> s[i] == LF)
    ensures forall j | 0 <= j < i :: s[j] != LF
  {
    if s == [] || s[0] == LF then 0 else 1 + IndexOfLf(s[1..])
  }

  /** The complete lines, without their line feeds. */
  function Lines(s: seq<Byte>): seq<seq<Byte>>
    decreases |s|
  {
    var i := IndexOfLf(s);
    if i == |s| then [] else [s[..i]] + Lines(s[i + 1..])
  }

  /** What follows the last line feed. */
  function Rest(s: seq<Byte>): seq<Byte>
    decreases |s|
  {
    var i := IndexOfLf(s);
    if i == |s| then s else Rest(s[i + 1..])
  }

  /** Lines with their line feeds put back. */
  function Unlines(lines: seq<seq<Byte>>): seq<Byte> {
    if lines == [] then [] else lines[0] + [LF] + Unlines(lines[1..])
  }

  predicate NoLf(s: seq<Byte>) {
    forall i | 0 <= i < |s| :: s[i] != LF
  }

  lemma {:induction false} FirstLf(s: seq<Byte>, i: nat)
    requires i <= |s| && (i < |s| ==> s[i] == LF) && forall j | 0 <= j < i :: s[j] != LF
    ensures i == IndexOfLf(s)
  {}

  /** A first line, and then the rest of the text. */
  lemma {:induction false} PeelLine(line: seq<Byte>, rest: seq<Byte>)
    requires NoLf(line)
    ensures Lines(line + [LF] + rest) == [line] + Lines(rest)
    ensures Rest(line + [LF] + rest) == Rest(rest)
  {
    var s := line + [LF] + rest;
    FirstLf(s, |line|);
    assert s[..|line|] == line && s[|line| + 1..] == rest;
  }

  lemma {:induction false} NoLineLeft(s: seq<Byte>)
    requires NoLf(s)
    ensures Lines(s) == [] && Rest(s) == s
  {}

  /** Every text is one without line feeds, or a first line and the rest. */
  lemma {:induction false} FirstLine(s: seq<Byte>) returns (line: seq<Byte>, rest: seq<Byte>)
    requires !NoLf(s)
    ensures NoLf(line) && s == line + [LF] + rest
  {
    var i := IndexOfLf(s);
    line, rest := s[..i], s[i + 1..];
  }

  /** One more line out of a text. */
  lemma {:induction false} LinesOne(s: seq<Byte>)
    requires IndexOfLf(s) < |s|
    ensures var i := IndexOfLf(s);
            Lines(s) == [s[..i]] + Lines(s[i + 1..]) && Rest(s) == Rest(s[i + 1..])
  {}

  lemma {:induction false} Regroup<T>(a: seq<T>, b: seq<T>, c: seq<T>)
    ensures (a + b) + c == a + (b + c)
  {}

  predicate AllNoLf(lines: seq<seq<Byte>>) {
    forall k | 0 <= k < |lines| :: NoLf(lines[k])
  }

  /** Lines and rest are the text cut at its line feeds, with nothing lost. */
  lemma {:induction false} LinesAndRestAreTheText(s: seq<Byte>)
    ensures Unlines(Lines(s)) + Rest(s) == s
    ensures NoLf(Rest(s)) && AllNoLf(Lines(s))
    decreases |s|
  {
    if NoLf(s) {
      NoLineLeft(s);
      assert [] + s == s;
    } else {
      var line, rest := FirstLine(s);
      PeelLine(line, rest);
      LinesAndRestAreTheText(rest);
      UnlinesPeel(line, Lines(rest));
      Regroup(line + [LF], Unlines(Lines(rest)), Rest(rest));
    }
  }

  lemma {:induction false} UnlinesPeel(line: seq<Byte>, lines: seq<seq<Byte>>)
    ensures Unlines([line] + lines) == line + [LF] + Unlines(lines)
  {}

  /** Cutting a first part on its own and carrying its rest over changes nothing. */
  lemma {:induction false} SplitAnywhere(a: seq<Byte>, b: seq<Byte>)
    ensures Lines(a + b) == Lines(a) + Lines(Rest(a) + b)
    ensures Rest(a + b) == Rest(Rest(a) + b)
    decreases |a|
  {
    if NoLf(a) {
      NoLineLeft(a);
      assert [] + Lines(a + b) == Lines(a + b);
    } else {
      var line, rest := FirstLine(a);
      Regroup(line + [LF], rest, b);
      PeelLine(line, rest);
      PeelLine(line, rest + b);
      SplitAnywhere(rest, b);
      Regroup([line], Lines(rest), Lines(Rest(rest) + b));
    }
  }

  /** `bytes.ReplaceAll(p, "\r", "\n")` */
  function Clean(p: seq<Byte>): (r: seq<Byte>)
    ensures |r| == |p| && forall i | 0 <= i < |r| :: r[i] == if p[i] == CR then LF else p[i]
  {
    seq(|p|, i requires 0 <= i < |p| => if p[i] == CR then LF else p[i])
  }

  lemma {:induction false} CleanConcat(a: seq<Byte>, b: seq<Byte>)
    ensures Clean(a + b) == Clean(a) + Clean(b)
  {}

  /** `bytes.TrimRight(s, "\r\n")` */
  function TrimRight(s: seq<Byte>): (r: seq<Byte>)
    ensures r <= s
  {
    if s != [] && (s[|s| - 1] == CR || s[|s| - 1] == LF) then TrimRight(s[..|s| - 1]) else s
  }

  function Concat(chunks: seq<seq<Byte>>): seq<Byte> {
    if chunks == [] then [] else Concat(chunks[..|chunks| - 1]) + chunks[|chunks| - 1]
  }

  /** A splitter fed chunk by chunk: the lines so far and the bytes still held. */
  function Fed(chunks: seq<seq<Byte>>): (seq<seq<Byte>>, seq<Byte>) {
    if chunks == [] then ([], [])
    else
      var (lines, held) := Fed(chunks[..|chunks| - 1]);
      var now := held + chunks[|chunks| - 1];
      (lines + Lines(now), Rest(now))
  }

  /** Any split of the same bytes into chunks yields the same lines and the same leftover. */
  lemma {:induction false} ChunksDoNotMatter(chunks: seq<seq<Byte>>)
    ensures Fed(chunks) == (Lines(Concat(chunks)), Rest(Concat(chunks)))
  {
    if chunks != [] {
      var front, last := chunks[..|chunks| - 1], chunks[|chunks| - 1];
      ChunksDoNotMatter(front);
      SplitAnywhere(Concat(front), last);
    }
  }

  lemma {:induction false} SameBytesSameLines(a: seq<seq<Byte>>, b: seq<seq<Byte>>)
    requires Concat(a) == Concat(b)
    ensures Fed(a) == Fed(b)
  {
    ChunksDoNotMatter(a);
    ChunksDoNotMatter(b);
  }
}

/** A Go byte slice over its backing array: appending may write in place. */
module ByteSlices {
  import opened LineSplitting

  class ByteBuffer {
    var data: array<Byte>
    var lo: nat
    var hi: nat

    ghost predicate Valid()
      reads this
    {
      lo <= hi <= data.Length
    }

    ghost function Contents(): seq<Byte>
      reads this, data
      requires Valid()
    {
      data[lo..hi]
    }

    constructor (capacity: nat)
      ensures Valid() && Contents() == [] && fresh(data)
    {
      data := new Byte[capacity];
      lo, hi := 0, 0;
    }

    /** `append(buf, p...)`: in place while the capacity lasts, else into a new array with
        some slack. */
    method Append(p: seq<Byte>, slack: nat)
      requires Valid()
      modifies this, data
      ensures Valid() && Contents() == old(Contents()) + p
      ensures data == old(data) || fresh(data)
    {
      ghost var before := Contents();
      if data.Length - hi < |p| {
        var grown := new Byte[hi - lo + |p| + slack];
        forall k | 0 <= k < hi - lo {
          grown[k] := data[lo + k];
        }
        data, lo, hi := grown, 0, hi - lo;
        assert data[lo..hi] == before;
      }
      var start := hi;
      forall k | 0 <= k < |p| {
        data[start + k] := p[k];
      }
      hi := hi + |p|;
      assert data[lo..start] == before && data[start..hi] == p;
    }

    /** `bytes.IndexByte(buf, '\n')` */
    method IndexLf() returns (i: nat)
      requires Valid()
      ensures i == IndexOfLf(Contents())
    {
      i := 0;
      while lo + i < hi && data[lo + i] != LF
        invariant lo + i <= hi
        invariant forall j | lo <= j < lo + i :: data[j] != LF
      {
        i := i + 1;
      }
      FirstLf(Contents(), i);
    }

    /** `append(line, '\n')` for a line ending at `end` inside the backing array: the byte
        after the line is overwritten, and nothing else. */
    method EndLineInPlace(end: nat)
      requires Valid() && end < data.Length
      modifies data
      ensures data[..] == old(data[..])[end := LF]
    {
      data[end] := LF;
    }
  }
}

/** The last lines of a stream. */
module LineRings {
  import opened LineSplitting

  type Line = seq<Byte>

  function NonEmpty(lines: seq<Line>): seq<Line> {
    if lines == [] then []
    else NonEmpty(lines[..|lines| - 1]) + if lines[|lines| - 1] == [] then [] else [lines[|lines| - 1]]
  }

  function Last(n: nat, lines: seq<Line>): seq<Line> {
    if |lines| <= n then lines else lines[|lines| - n..]
  }

  class LineRing {
    const capN: nat
    var lines: seq<Line>
    /** Everything ever offered to the ring. */
    ghost var offered: seq<Line>

    /** The ring holds the last `capN` non-empty lines offered. */
    ghost predicate Valid()
      reads this
    {
      capN >= 1 && lines == Last(capN, NonEmpty(offered))
    }

    constructor (n: int)
      ensures Valid() && offered == [] && capN == if n <= 0 then 1 else n
    {
      capN := if n <= 0 then 1 else n;
      lines, offered := [], [];
    }

    method AppendLine(s: Line)
      requires Valid()
      modifies this
      ensures Valid() && offered == old(offered) + [s]
    {
      assert (offered + [s])[..|offered|] == offered;
      offered := offered + [s];
      if s == [] {
        assert NonEmpty(old(offered)) + [] == NonEmpty(old(offered));
        return;
      }
      LastSnoc(capN, NonEmpty(old(offered)), s);
      lines := lines + [s];
      if |lines| > capN {
        lines := lines[|lines| - capN..];
      }
    }

    method Snapshot() returns (out: seq<Line>)
      requires Valid()
      ensures out == Last(capN, NonEmpty(offered))
    {
      out := lines;
    }
  }

  lemma {:induction false} LastSnoc(n: nat, lines: seq<Line>, s: Line)
    requires n >= 1
    ensures Last(n, lines + [s]) == Last(n, Last(n, lines) + [s])
  {}
}

/** The three writers. */
module LineWriters {
  import opened Prelude
  import opened LineSplitting
  import opened ByteSlices
  import opened LineRings

  predicate IsSpace(c: Byte) {
    c == 32 || c == 9 || c == 10 || c == 11 || c == 12 || c == 13
  }

  function TrimStart(s: seq<Byte>): seq<Byte> {
    if s != [] && IsSpace(s[0]) then TrimStart(s[1..]) else s
  }

  function TrimEnd(s: seq<Byte>): (r: seq<Byte>)
    ensures r <= s
  {
    if s != [] && IsSpace(s[|s| - 1]) then TrimEnd(s[..|s| - 1]) else s
  }

  /** `bytes.TrimSpace` */
  function TrimSpace(s: seq<Byte>): seq<Byte> {
    TrimEnd(TrimStart(s))
  }

  /** What a writer does with a line: filter it, or format it. A line that is not reformatted
      is passed on as it is, trimmed. */
  datatype Sink = Filter(drop: Line -> bool) | Formatter(format: Line -> Option<seq<Byte>>)

  /** The bytes passed on for one raw line. */
  function Passed(line: Line, sink: Sink): seq<Byte> {
    var raw := TrimRight(line);
    match sink
    case Filter(drop) => if drop(raw) then [] else raw + [LF]
    case Formatter(format) =>
      (match format(TrimSpace(raw)) case Some(bytes) => bytes case None => TrimSpace(raw)) + [LF]
  }

  function PassedAll(lines: seq<Line>, sink: Sink): seq<Byte> {
    if lines == [] then [] else Passed(lines[0], sink) + PassedAll(lines[1..], sink)
  }

  lemma {:induction false} PassedPeel(line: Line, lines: seq<Line>, sink: Sink)
    ensures PassedAll([line] + lines, sink) == Passed(line, sink) + PassedAll(lines, sink)
  {}

  lemma {:induction false} PassedConcat(a: seq<Line>, b: seq<Line>, sink: Sink)
    ensures PassedAll(a + b, sink) == PassedAll(a, sink) + PassedAll(b, sink)
  {
    if a == [] {
      assert a + b == b && [] + PassedAll(b, sink) == PassedAll(b, sink);
    } else {
      var first, rest := a[0], a[1..];
      PassedConcat(rest, b, sink);
      assert a == [first] + rest;
      Regroup([first], rest, b);
      PassedPeel(first, rest, sink);
      PassedPeel(first, rest + b, sink);
      Regroup(Passed(first, sink), PassedAll(rest, sink), PassedAll(b, sink));
    }
  }

  /** What is written so far and what the text still holds, before and after one line. */
  lemma {:induction false} PassOne(text: seq<Byte>, next: seq<Byte>, sink: Sink, done: seq<Byte>, written: seq<Byte>)
    requires IndexOfLf(text) < |text| && next == text[IndexOfLf(text) + 1..]
    requires written == done + Passed(text[..IndexOfLf(text)], sink)
    ensures written + PassedAll(Lines(next), sink) == done + PassedAll(Lines(text), sink)
    ensures Rest(next) == Rest(text)
  {
    var i := IndexOfLf(text);
    LinesOne(text);
    PassedPeel(text[..i], Lines(next), sink);
    Regroup(done, Passed(text[..i], sink), PassedAll(Lines(next), sink));
  }

  lemma {:induction false} PassNone(text: seq<Byte>, sink: Sink, written: seq<Byte>)
    requires IndexOfLf(text) == |text|
    ensures written + PassedAll(Lines(text), sink) == written && Rest(text) == text
  {}

  /** The bytes a writer takes from a chunk: the filter turns carriage returns into feeds. */
  function Taken(p: seq<Byte>, sink: Sink): seq<Byte> {
    if sink.Filter? then Clean(p) else p
  }

  /** `lineFilterWriter` and `jsonFormatter`: a buffer and a destination that does not fail. */
  class LineWriter {
    const buf: ByteBuffer
    const sink: Sink
    /** What the destination received. */
    var written: seq<Byte>

    ghost predicate Valid()
      reads this, buf
    {
      buf.Valid()
    }

    constructor (sink: Sink)
      ensures Valid() && written == [] && buf.Contents() == [] && this.sink == sink
      ensures fresh(buf) && fresh(buf.data)
    {
      this.sink := sink;
      buf := new ByteBuffer(1024);
      written := [];
    }

    /** Writes `data[start..end]` and a line feed, which goes in place after `end`. */
    method WriteInPlace(start: nat, end: nat)
      requires Valid() && start <= end < buf.lo && buf.lo <= buf.hi
      modifies this`written, buf.data
      ensures Valid() && buf.data == old(buf.data) && buf.Contents() == old(buf.Contents())
      ensures written == old(written) + (old(buf.data[start..end]) + [LF])
    {
      ghost var line, before := buf.data[start..end], buf.data[..];
      buf.EndLineInPlace(end);
      assert forall k | 0 <= k < buf.data.Length && k != end :: buf.data[k] == before[k];
      assert buf.data[start..end + 1] == line + [LF];
      written := written + buf.data[start..end + 1];
    }

    /** The filter keeps or drops the raw line at `start`. */
    method PassFiltered(start: nat, i: nat)
      requires Valid() && sink.Filter? && start + i < buf.lo
      modifies this`written, buf.data
      ensures Valid() && buf.data == old(buf.data) && buf.Contents() == old(buf.Contents())
      ensures written == old(written) + Passed(old(buf.data[start..start + i]), sink)
    {
      var rawLine := TrimRight(buf.data[start..start + i]);
      if sink.drop(rawLine) {
        assert written + [] == written;
      } else {
        assert buf.data[start..start + |rawLine|] == rawLine;
        WriteInPlace(start, start + |rawLine|);
      }
    }

    /** The formatter writes a new line, or the trimmed one where it stands. */
    method PassFormatted(start: nat, i: nat)
      requires Valid() && sink.Formatter? && start + i < buf.lo
      modifies this`written, buf.data
      ensures Valid() && buf.data == old(buf.data) && buf.Contents() == old(buf.Contents())
      ensures written == old(written) + Passed(old(buf.data[start..start + i]), sink)
    {
      var line := TrimRight(buf.data[start..start + i]);
      var left := TrimStart(line);
      var trimmed := TrimEnd(left);
      TrimStartIsSuffix(line);
      match sink.format(trimmed)
      case Some(bytes) => written := written + (bytes + [LF]);
      case None =>
        var from := start + (|line| - |left|);
        assert buf.data[from..from + |left|] == left;
        assert buf.data[from..from + |trimmed|] == trimmed;
        WriteInPlace(from, from + |trimmed|);
    }

    /** Consumes the first line of the buffer and passes it on. No byte after it is altered.
        (The filter moves its slice on only after the write, the formatter before it; the write
        stays within the consumed bytes, so the order does not show.) */
    method PassLine(i: nat)
      requires Valid() && i == IndexOfLf(buf.Contents()) < |buf.Contents()|
      modifies this`written, buf`lo, buf.data
      ensures Valid() && buf.data == old(buf.data) && buf.lo == old(buf.lo) + i + 1
      ensures buf.Contents() == old(buf.Contents()[i + 1..])
      ensures written == old(written) + Passed(old(buf.Contents()[..i]), sink)
    {
      ghost var before := buf.Contents();
      var start := buf.lo;
      assert buf.data[start..start + i] == before[..i];
      buf.lo := start + i + 1;
      assert buf.Contents() == before[i + 1..];
      if sink.Filter? {
        PassFiltered(start, i);
      } else {
        PassFormatted(start, i);
      }
    }

    /** `Write`, chunk by chunk. */
    method Write(p: seq<Byte>, slack: nat) returns (n: nat)
      requires Valid()
      modifies this`written, buf, buf.data
      ensures Valid() && n == |p| && (buf.data == old(buf.data) || fresh(buf.data))
      ensures buf.Contents() == Rest(old(buf.Contents()) + Taken(p, sink))
      ensures written == old(written) + PassedAll(Lines(old(buf.Contents()) + Taken(p, sink)), sink)
    {
      buf.Append(Taken(p, sink), slack);
      Drain();
      n := |p|;
    }

    /** What will have been passed on once the lines in the buffer are. */
    ghost function Owed(): seq<Byte>
      reads this, buf, buf.data
      requires Valid()
    {
      written + PassedAll(Lines(buf.Contents()), sink)
    }

    method PassNext(i: nat)
      requires Valid() && i == IndexOfLf(buf.Contents()) < |buf.Contents()|
      modifies this`written, buf`lo, buf.data
      ensures Valid() && buf.data == old(buf.data) && buf.lo == old(buf.lo) + i + 1
      ensures Owed() == old(Owed()) && Rest(buf.Contents()) == old(Rest(buf.Contents()))
    {
      ghost var text, done := buf.Contents(), written;
      PassLine(i);
      PassOne(text, buf.Contents(), sink, done, written);
    }

    method Drain()
      requires Valid()
      modifies this`written, buf`lo, buf.data
      ensures Valid() && buf.data == old(buf.data)
      ensures buf.Contents() == Rest(old(buf.Contents()))
      ensures written == old(Owed())
    {
      var i := buf.IndexLf();
      while i < buf.hi - buf.lo
        invariant Valid() && buf.data == old(buf.data)
        invariant i == IndexOfLf(buf.Contents())
        invariant Owed() == old(Owed()) && Rest(buf.Contents()) == Rest(old(buf.Contents()))
        decreases buf.hi - buf.lo
      {
        PassNext(i);
        i := buf.IndexLf();
      }
      PassNone(buf.Contents(), sink, written);
    }

    /** All lines of `bytes` are passed on, and what follows them is held. */
    ghost predicate Served(bytes: seq<Byte>)
      reads this, buf, buf.data
      requires Valid()
    {
      && written == PassedAll(Lines(Taken(bytes, sink)), sink)
      && buf.Contents() == Rest(Taken(bytes, sink))
    }

    method WriteAfter(ghost before: seq<Byte>, p: seq<Byte>)
      requires Valid() && Served(before)
      modifies this`written, buf, buf.data
      ensures Valid() && (buf.data == old(buf.data) || fresh(buf.data))
      ensures Served(before + p)
    {
      OneChunkMore(before, p, sink);
      var _ := Write(p, 0);
    }
  }

  lemma {:induction false} TrimStartIsSuffix(s: seq<Byte>)
    ensures |TrimStart(s)| <= |s| && s[|s| - |TrimStart(s)|..] == TrimStart(s)
  {
    if s != [] && IsSpace(s[0]) {
      TrimStartIsSuffix(s[1..]);
    }
  }

  lemma {:induction false} TakenConcat(a: seq<Byte>, b: seq<Byte>, sink: Sink)
    ensures Taken(a + b, sink) == Taken(a, sink) + Taken(b, sink)
  {}

  lemma {:induction false} ConcatOneMore(chunks: seq<seq<Byte>>, k: nat)
    requires k < |chunks|
    ensures Concat(chunks[..k + 1]) == Concat(chunks[..k]) + chunks[k]
  {
    assert chunks[..k + 1][..k] == chunks[..k];
  }

  /** How a chunk extends what was passed on and held. */
  lemma {:induction false} OneChunkMore(before: seq<Byte>, chunk: seq<Byte>, sink: Sink)
    ensures var held := Rest(Taken(before, sink));
            && PassedAll(Lines(Taken(before + chunk, sink)), sink)
               == PassedAll(Lines(Taken(before, sink)), sink) + PassedAll(Lines(held + Taken(chunk, sink)), sink)
            && Rest(Taken(before + chunk, sink)) == Rest(held + Taken(chunk, sink))
  {
    var a, b := Taken(before, sink), Taken(chunk, sink);
    TakenConcat(before, chunk, sink);
    SplitAnywhere(a, b);
    PassedConcat(Lines(a), Lines(Rest(a) + b), sink);
  }

  /** Whatever the chunks, a writer has passed on the lines of all bytes written to it and
      holds the bytes after the last line feed. */
  method WriteChunks(chunks: seq<seq<Byte>>, sink: Sink) returns (written: seq<Byte>, held: seq<Byte>)
    ensures written == PassedAll(Lines(Taken(Concat(chunks), sink)), sink)
    ensures held == Rest(Taken(Concat(chunks), sink))
  {
    var w := new LineWriter(sink);
    var k := 0;
    assert Taken(Concat(chunks[..0]), sink) == [];
    while k < |chunks|
      invariant 0 <= k <= |chunks| && w.Valid() && fresh(w) && fresh(w.buf) && fresh(w.buf.data) && w.sink == sink
      invariant w.Served(Concat(chunks[..k]))
    {
      ConcatOneMore(chunks, k);
      w.WriteAfter(Concat(chunks[..k]), chunks[k]);
      k := k + 1;
    }
    assert chunks[..k] == chunks;
    written := w.written;
    held := w.buf.data[w.buf.lo..w.buf.hi];
  }

  function TrimmedAll(lines: seq<Line>): (r: seq<Line>)
    ensures |r| == |lines| && forall i | 0 <= i < |r| :: r[i] == TrimRight(lines[i])
  {
    seq(|lines|, i requires 0 <= i < |lines| => TrimRight(lines[i]))
  }

  lemma {:induction false} TrimmedConcat(a: seq<Line>, b: seq<Line>)
    ensures TrimmedAll(a + b) == TrimmedAll(a) + TrimmedAll(b)
  {}

  /** `uiLogTap`: complete lines go into the ring. */
  class UiLogTap {
    const buf: ByteBuffer
    const ring: LineRing

    ghost predicate Valid()
      reads this, buf, ring
    {
      buf.Valid() && ring.Valid()
    }

    constructor (capN: int)
      ensures Valid() && buf.Contents() == [] && ring.offered == [] && ring.capN == if capN <= 0 then 1 else capN
      ensures fresh(buf) && fresh(buf.data) && fresh(ring)
    {
      buf := new ByteBuffer(1024);
      ring := new LineRing(capN);
    }

    /** Moves the first line of the buffer into the ring. */
    method TapLine(i: nat)
      requires Valid() && i == IndexOfLf(buf.Contents()) < |buf.Contents()|
      modifies buf`lo, ring
      ensures Valid() && buf.Contents() == old(buf.Contents()[i + 1..])
      ensures ring.offered == old(ring.offered) + [TrimRight(old(buf.Contents()[..i]))]
    {
      ghost var before := buf.Contents();
      var line := TrimRight(buf.data[buf.lo..buf.lo + i]);
      assert buf.data[buf.lo..buf.lo + i] == before[..i];
      ring.AppendLine(line);
      buf.lo := buf.lo + i + 1;
      assert buf.Contents() == before[i + 1..];
    }

    /** What the ring will have been offered once the lines in the buffer are. */
    ghost function Owed(): seq<Line>
      reads this, buf, buf.data, ring
      requires Valid()
    {
      ring.offered + TrimmedAll(Lines(buf.Contents()))
    }

    method TapNext(i: nat)
      requires Valid() && i == IndexOfLf(buf.Contents()) < |buf.Contents()|
      modifies buf`lo, ring
      ensures Valid() && buf.lo == old(buf.lo) + i + 1
      ensures Owed() == old(Owed()) && Rest(buf.Contents()) == old(Rest(buf.Contents()))
    {
      ghost var text, done := buf.Contents(), ring.offered;
      TapLine(i);
      TapOne(text, buf.Contents(), done, ring.offered);
    }

    method Drain()
      requires Valid()
      modifies buf`lo, ring
      ensures Valid() && buf.Contents() == Rest(old(buf.Contents()))
      ensures ring.offered == old(Owed())
    {
      var i := buf.IndexLf();
      while i < buf.hi - buf.lo
        invariant Valid() && i == IndexOfLf(buf.Contents())
        invariant Owed() == old(Owed()) && Rest(buf.Contents()) == Rest(old(buf.Contents()))
        decreases buf.hi - buf.lo
      {
        TapNext(i);
        i := buf.IndexLf();
      }
      NoLineLeft(buf.Contents());
      assert ring.offered + [] == ring.offered;
    }

    method Write(p: seq<Byte>, slack: nat) returns (n: nat)
      requires Valid()
      modifies buf, buf.data, ring
      ensures Valid() && n == |p| && (buf.data == old(buf.data) || fresh(buf.data))
      ensures buf.Contents() == Rest(old(buf.Contents()) + Clean(p))
      ensures ring.offered == old(ring.offered) + TrimmedAll(Lines(old(buf.Contents()) + Clean(p)))
    {
      buf.Append(Clean(p), slack);
      Drain();
      n := |p|;
    }

    /** All lines of `bytes` were offered to the ring, and what follows them is held. */
    ghost predicate Served(bytes: seq<Byte>)
      reads this, buf, buf.data, ring
      requires Valid()
    {
      && ring.offered == TrimmedAll(Lines(Clean(bytes)))
      && buf.Contents() == Rest(Clean(bytes))
    }

    method WriteAfter(ghost before: seq<Byte>, p: seq<Byte>)
      requires Valid() && Served(before)
      modifies buf, buf.data, ring
      ensures Valid() && (buf.data == old(buf.data) || fresh(buf.data))
      ensures Served(before + p)
    {
      OneChunkTapped(before, p);
      var _ := Write(p, 0);
    }
  }

  lemma {:induction false} TapOne(text: seq<Byte>, next: seq<Byte>, done: seq<Line>, offered: seq<Line>)
    requires IndexOfLf(text) < |text| && next == text[IndexOfLf(text) + 1..]
    requires offered == done + [TrimRight(text[..IndexOfLf(text)])]
    ensures offered + TrimmedAll(Lines(next)) == done + TrimmedAll(Lines(text))
    ensures Rest(next) == Rest(text)
  {
    var i := IndexOfLf(text);
    LinesOne(text);
    TrimmedConcat([text[..i]], Lines(next));
    assert TrimmedAll([text[..i]]) == [TrimRight(text[..i])];
    Regroup(done, [TrimRight(text[..i])], TrimmedAll(Lines(next)));
  }

  lemma {:induction false} OneChunkTapped(before: seq<Byte>, chunk: seq<Byte>)
    ensures var held := Rest(Clean(before));
            && TrimmedAll(Lines(Clean(before + chunk)))
               == TrimmedAll(Lines(Clean(before))) + TrimmedAll(Lines(held + Clean(chunk)))
            && Rest(Clean(before + chunk)) == Rest(held + Clean(chunk))
  {
    var a, b := Clean(before), Clean(chunk);
    CleanConcat(before, chunk);
    SplitAnywhere(a, b);
    TrimmedConcat(Lines(a), Lines(Rest(a) + b));
  }

  /** Whatever the chunks, the ring shows the last non-empty lines of all bytes tapped. */
  method TapChunks(chunks: seq<seq<Byte>>, capN: int) returns (shown: seq<Line>)
    ensures shown == Last(if capN <= 0 then 1 else capN, NonEmpty(TrimmedAll(Lines(Clean(Concat(chunks))))))
  {
    var tap := new UiLogTap(capN);
    var k := 0;
    assert Clean(Concat(chunks[..0])) == [];
    while k < |chunks|
      invariant 0 <= k <= |chunks| && tap.Valid() && tap.ring.capN == (if capN <= 0 then 1 else capN)
      invariant fresh(tap) && fresh(tap.buf) && fresh(tap.buf.data) && fresh(tap.ring)
      invariant tap.Served(Concat(chunks[..k]))
    {
      ConcatOneMore(chunks, k);
      tap.WriteAfter(Concat(chunks[..k]), chunks[k]);
      k := k + 1;
    }
    assert chunks[..k] == chunks;
    shown := tap.ring.Snapshot();
  }
}
