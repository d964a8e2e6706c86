/** The bounded log tail: at most `maxLines` lines of at most `maxBytes` bytes are kept,
    re-bounded after every write.  Bounding after each write loses nothing compared with
    bounding everything once. */
module BoundedLog {
  import opened Bytes

  const MAX_BOUNDED_LOG_BYTES: nat := 1048576

  // One past the first newline, or the end.
  function FirstLineEnd(data: seq<Byte>): (e: nat)
    ensures e <= |data| && (data != [] ==> e > 0)
    ensures forall i :: 0 <= i < e - 1 ==> data[i] != NEWLINE
    ensures e < |data| ==> data[e - 1] == NEWLINE
  {
    if data == [] then 0 else if data[0] == NEWLINE then 1 else 1 + FirstLineEnd(data[1..])
  }

  // bytes.SplitAfter(data, "\n"): the last piece is what follows the last newline.
  function SplitAfter(data: seq<Byte>): seq<seq<Byte>> {
    if NEWLINE !in data then [data]
    else
      var e := FirstLineEnd(data);
      [data[..e]] + (if e == |data| then [[]] else SplitAfter(data[e..]))
  }

  function Join(lines: seq<seq<Byte>>): seq<Byte> {
    if lines == [] then [] else lines[0] + Join(lines[1..])
  }

  function LastBytes(data: seq<Byte>, maxBytes: nat): seq<Byte> {
    if |data| > maxBytes then data[|data| - maxBytes..] else data
  }

  // boundedLastLines
  function Bounded(data: seq<Byte>, maxLines: nat, maxBytes: nat): seq<Byte> {
    Join(LastOf(Whole(SplitAfter(LastBytes(data, maxBytes))), maxLines))
  }

  // Without the empty piece after a final newline.
  function Whole(pieces: seq<seq<Byte>>): seq<seq<Byte>> {
    if |pieces| > 0 && |pieces[|pieces| - 1]| == 0 then pieces[..|pieces| - 1] else pieces
  }

  function LastOf(lines: seq<seq<Byte>>, n: nat): seq<seq<Byte>> {
    if |lines| > n then lines[|lines| - n..] else lines
  }

  // ---------------------------------------------------------------- the simple form

  function LineCount(data: seq<Byte>): nat {
    if data == [] then 0 else 1 + LineCount(data[FirstLineEnd(data)..])
  }

  // Drop whole lines from the front until at most `maxLines` are left.
  function DropLines(data: seq<Byte>, maxLines: nat): seq<Byte> {
    if LineCount(data) <= maxLines then data else DropLines(data[FirstLineEnd(data)..], maxLines)
  }

  lemma {:induction false} DropLinesIsASuffix(data: seq<Byte>, maxLines: nat)
    ensures |DropLines(data, maxLines)| <= |data|
    ensures DropLines(data, maxLines) == data[|data| - |DropLines(data, maxLines)|..]
    decreases |data|
  {
    if LineCount(data) <= maxLines {
      assert data[0..] == data;
    } else {
      var rest := data[FirstLineEnd(data)..];
      DropLinesIsASuffix(rest, maxLines);
      var kept := DropLines(rest, maxLines);
      assert rest[|rest| - |kept|..] == data[|data| - |kept|..];
    }
  }

  lemma {:induction false} DropLinesLeaves(data: seq<Byte>, maxLines: nat)
    ensures LineCount(DropLines(data, maxLines)) == if LineCount(data) <= maxLines then LineCount(data) else maxLines
    decreases |data|
  {
    if LineCount(data) > maxLines {
      DropLinesLeaves(data[FirstLineEnd(data)..], maxLines);
    }
  }

  // The non-empty pieces of SplitAfter.
  function Lines(data: seq<Byte>): seq<seq<Byte>> {
    if data == [] then [] else [data[..FirstLineEnd(data)]] + Lines(data[FirstLineEnd(data)..])
  }

  lemma {:induction false} SplitAfterIsLines(data: seq<Byte>)
    ensures |SplitAfter(data)| > 0 && Whole(SplitAfter(data)) == Lines(data)
    decreases |data|
  {
    if NEWLINE !in data {
      if data != [] {
        assert FirstLineEnd(data) == |data| && data[..|data|] == data && data[|data|..] == [];
      }
    } else {
      var e := FirstLineEnd(data);
      if e < |data| {
        SplitAfterIsLines(data[e..]);
        WholeCons(data[..e], SplitAfter(data[e..]));
      } else {
        assert data[e..] == [];
        assert SplitAfter(data) == [data[..e]] + [[]];
      }
    }
  }

  lemma WholeCons(line: seq<Byte>, pieces: seq<seq<Byte>>)
    requires |pieces| > 0
    ensures Whole([line] + pieces) == [line] + Whole(pieces)
  {
  }

  lemma JoinCons(line: seq<Byte>, rest: seq<seq<Byte>>)
    ensures Join([line] + rest) == line + Join(rest)
  {
    assert ([line] + rest)[1..] == rest;
  }

  lemma {:induction false} LinesAreCounted(data: seq<Byte>)
    ensures |Lines(data)| == LineCount(data)
    decreases |data|
  {
    if data != [] {
      LinesAreCounted(data[FirstLineEnd(data)..]);
    }
  }

  lemma {:induction false} LinesJoin(data: seq<Byte>)
    ensures Join(Lines(data)) == data
    decreases |data|
  {
    if data != [] {
      var e := FirstLineEnd(data);
      LinesJoin(data[e..]);
      JoinCons(data[..e], Lines(data[e..]));
      assert data[..e] + data[e..] == data;
    }
  }

  lemma LinesCountAndJoin(data: seq<Byte>)
    ensures |Lines(data)| == LineCount(data) && Join(Lines(data)) == data
  {
    LinesAreCounted(data);
    LinesJoin(data);
  }

  lemma LastOfTail(lines: seq<seq<Byte>>, n: nat)
    requires |lines| > n
    ensures LastOf(lines, n) == LastOf(lines[1..], n)
  {
  }

  lemma {:induction false} LastLinesAreDropLines(data: seq<Byte>, maxLines: nat)
    ensures Join(LastOf(Lines(data), maxLines)) == DropLines(data, maxLines)
    decreases |data|
  {
    LinesCountAndJoin(data);
    if LineCount(data) > maxLines {
      var rest := data[FirstLineEnd(data)..];
      LastLinesAreDropLines(rest, maxLines);
      LastOfTail(Lines(data), maxLines);
      assert Lines(data)[1..] == Lines(rest);
    }
  }

  // The code keeps the last `maxLines` lines of the last `maxBytes` bytes.
  lemma BoundedKeepsLastLines(data: seq<Byte>, maxLines: nat, maxBytes: nat)
    ensures Bounded(data, maxLines, maxBytes) == DropLines(LastBytes(data, maxBytes), maxLines)
  {
    var last := LastBytes(data, maxBytes);
    SplitAfterIsLines(last);
    LastLinesAreDropLines(last, maxLines);
  }

  // ---------------------------------------------------------------- appending

  lemma {:induction false} FirstLineStays(x: seq<Byte>, d: seq<Byte>)
    requires FirstLineEnd(x) < |x|
    ensures FirstLineEnd(x + d) == FirstLineEnd(x) && (x + d)[FirstLineEnd(x)..] == x[FirstLineEnd(x)..] + d
  {
    if x[0] != NEWLINE {
      assert (x + d)[1..] == x[1..] + d;
      FirstLineStays(x[1..], d);
    }
  }

  lemma {:induction false} AppendingAddsLines(x: seq<Byte>, d: seq<Byte>)
    ensures LineCount(x + d) >= LineCount(x)
    decreases |x|
  {
    if x == [] {
      assert x + d == d;
    } else if FirstLineEnd(x) < |x| {
      FirstLineStays(x, d);
      AppendingAddsLines(x[FirstLineEnd(x)..], d);
    } else {
      assert x[|x|..] == [] && LineCount(x) == 1;
    }
  }

  // Dropping early and then appending is dropping after appending.
  lemma {:induction false} DropThenAppend(x: seq<Byte>, d: seq<Byte>, maxLines: nat)
    requires maxLines >= 1
    ensures DropLines(DropLines(x, maxLines) + d, maxLines) == DropLines(x + d, maxLines)
    decreases |x|
  {
    if LineCount(x) > maxLines {
      var e := FirstLineEnd(x);
      assert e < |x| by { SingleLine(x); }
      FirstLineStays(x, d);
      AppendingAddsLines(x, d);
      DropThenAppend(x[e..], d, maxLines);
    }
  }

  lemma SingleLine(x: seq<Byte>)
    requires LineCount(x) >= 2
    ensures FirstLineEnd(x) < |x|
  {
  }

  // Cutting bytes off the part that is dropped anyway changes nothing.
  lemma {:induction false} CutTheDroppedPart(x: seq<Byte>, c: nat, maxLines: nat)
    requires c + |DropLines(x, maxLines)| <= |x|
    ensures DropLines(x[c..], maxLines) == DropLines(x, maxLines)
    decreases |x|
  {
    if c == 0 {
      assert x[0..] == x;
    } else {
      var e := FirstLineEnd(x);
      if c >= e {
        assert x[c..] == x[e..][c - e..];
        CutTheDroppedPart(x[e..], c - e, maxLines);
      } else {
        CutInsideLine(x, c);
        DropLinesLeaves(x, maxLines);
        assert LineCount(x) > maxLines;
        assert LineCount(x[c..]) == LineCount(x);
      }
    }
  }

  lemma {:induction false} CutInsideLine(x: seq<Byte>, c: nat)
    requires 0 < c < FirstLineEnd(x)
    ensures FirstLineEnd(x[c..]) == FirstLineEnd(x) - c && x[c..][FirstLineEnd(x) - c..] == x[FirstLineEnd(x)..]
    ensures LineCount(x[c..]) == LineCount(x)
    decreases c
  {
  }

  lemma BoundedAgain(x: seq<Byte>, t: seq<Byte>, d: seq<Byte>, maxLines: nat, maxBytes: nat)
    requires maxLines >= 1 && t == DropLines(LastBytes(x, maxBytes), maxLines)
    ensures DropLines(LastBytes(t + d, maxBytes), maxLines) == DropLines(LastBytes(x + d, maxBytes), maxLines)
  {
    var last := LastBytes(x, maxBytes);
    DropLinesIsASuffix(last, maxLines);
    if |t| + |d| >= maxBytes {
      assert t == x[|x| - |t|..];
      SameLastBytes(x, t, d, maxBytes);
    } else {
      var c := if |last| + |d| > maxBytes then |last| + |d| - maxBytes else 0;
      LastBytesOfBoth(x, d, maxBytes, c);
      CutTheDroppedPart(last, c, maxLines);
      DropThenAppend(last[c..], d, maxLines);
    }
  }

  /** One write: bounding the old tail plus the new data is bounding the whole input. */
  lemma BoundingTwiceIsBoundingOnce(x: seq<Byte>, d: seq<Byte>, maxLines: nat, maxBytes: nat)
    requires maxLines >= 1
    ensures Bounded(Bounded(x, maxLines, maxBytes) + d, maxLines, maxBytes) == Bounded(x + d, maxLines, maxBytes)
  {
    var t := Bounded(x, maxLines, maxBytes);
    BoundedKeepsLastLines(x, maxLines, maxBytes);
    BoundedKeepsLastLines(t + d, maxLines, maxBytes);
    BoundedKeepsLastLines(x + d, maxLines, maxBytes);
    BoundedAgain(x, t, d, maxLines, maxBytes);
  }

  lemma LastBytesOfBoth(x: seq<Byte>, d: seq<Byte>, maxBytes: nat, c: nat)
    requires var last := LastBytes(x, maxBytes); |d| <= maxBytes && c == (if |last| + |d| > maxBytes then |last| + |d| - maxBytes else 0)
    ensures c <= |LastBytes(x, maxBytes)| && LastBytes(x + d, maxBytes) == LastBytes(x, maxBytes)[c..] + d
  {
  }

  lemma SameLastBytes(x: seq<Byte>, t: seq<Byte>, d: seq<Byte>, maxBytes: nat)
    requires |t| <= |x| && t == x[|x| - |t|..] && |t| + |d| >= maxBytes
    ensures LastBytes(t + d, maxBytes) == LastBytes(x + d, maxBytes)
  {
  }

  // The tail after a sequence of writes.
  function TailAfter(chunks: seq<seq<Byte>>, maxLines: nat, maxBytes: nat): seq<Byte> {
    if chunks == [] then []
    else Bounded(TailAfter(chunks[..|chunks| - 1], maxLines, maxBytes) + chunks[|chunks| - 1], maxLines, maxBytes)
  }

  /** For every sequence of writes with a positive line limit, the kept tail is the last
      lines of the last bytes of everything ever written. */
  lemma {:induction false} StreamingLosesNothing(chunks: seq<seq<Byte>>, maxLines: nat, maxBytes: nat)
    requires maxLines >= 1
    ensures TailAfter(chunks, maxLines, maxBytes) == DropLines(LastBytes(Concat(chunks), maxBytes), maxLines)
    decreases |chunks|
  {
    if chunks == [] {
      assert DropLines([], maxLines) == [];
    } else {
      var before := chunks[..|chunks| - 1];
      assert chunks == before + [chunks[|chunks| - 1]];
      ConcatSnoc(before, chunks[|chunks| - 1]);
      StreamingLosesNothing(before, maxLines, maxBytes);
      BoundedKeepsLastLines(Concat(before), maxLines, maxBytes);
      BoundingTwiceIsBoundingOnce(Concat(before), chunks[|chunks| - 1], maxLines, maxBytes);
      BoundedKeepsLastLines(Concat(chunks), maxLines, maxBytes);
    }
  }

  // ---------------------------------------------------------------- the writer

  class PassedLogWriter {
    const maxLines: int
    var tail: seq<Byte>
    var file: seq<Byte>
    var closed: bool

    constructor (maxLines: int)
      ensures this.maxLines == maxLines && tail == [] && file == [] && !closed
    {
      this.maxLines := maxLines;
      tail, file, closed := [], [], false;
    }

    /** Outcomes of the three file operations are arguments; `taken` is what the final write
        accepts.  On success the file is the tail; the tail moves on even when the file
        does not follow. */
    method Write(data: seq<Byte>, truncates: bool, seeks: bool, taken: nat) returns (n: nat, err: bool)
      modifies this
      ensures closed == old(closed)
      ensures closed ==> err && n == 0 && tail == old(tail) && file == old(file)
      ensures n <= |data|
      ensures !closed && maxLines <= 0 ==> tail == old(tail) && file == old(file) + data[..n] && err == (n < |data|)
      ensures !closed && maxLines > 0 ==> tail == Bounded(old(tail) + data, maxLines, MAX_BOUNDED_LOG_BYTES)
      ensures !closed && maxLines > 0 && !err ==> file == tail && n == |data|
      ensures !closed && maxLines > 0 && err ==> n == 0 && (file == old(file) || file <= tail)
    {
      if closed {
        return 0, true;
      }
      if maxLines <= 0 {
        n := if taken < |data| then taken else |data|;
        file := file + data[..n];
        err := n < |data|;
        return;
      }
      tail := Bounded(tail + data, maxLines, MAX_BOUNDED_LOG_BYTES);
      if !truncates {
        return 0, true;
      }
      file := [];
      if !seeks {
        return 0, true;
      }
      if taken < |tail| {
        file := tail[..taken];
        return 0, true;
      }
      file := tail;
      return |data|, false;
    }

    method Close()
      modifies this
      ensures closed && tail == old(tail) && file == old(file)
    {
      closed := true;
    }
  }
  /** Writing a list of chunks to a new writer, whatever the file does on the way: the tail is
      the bound of everything written, and the file is the tail if the last write succeeded. */
  method WriteAll(maxLines: nat, chunks: seq<seq<Byte>>) returns (w: PassedLogWriter, failed: bool)
    requires maxLines >= 1
    ensures fresh(w) && w.maxLines == maxLines
    ensures w.tail == DropLines(LastBytes(Concat(chunks), MAX_BOUNDED_LOG_BYTES), maxLines)
    ensures !failed ==> w.file == w.tail
  {
    w := new PassedLogWriter(maxLines);
    failed := false;
    assert chunks[..0] == [];
    for i := 0 to |chunks|
      invariant fresh(w) && w.maxLines == maxLines && !w.closed
      invariant w.tail == TailAfter(chunks[..i], maxLines, MAX_BOUNDED_LOG_BYTES) && (!failed ==> w.file == w.tail)
    {
      var truncates, seeks, taken: nat := *, *, *;
      var n;
      n, failed := w.Write(chunks[i], truncates, seeks, taken);
      assert chunks[..i + 1][..i] == chunks[..i];
    }
    assert chunks[..|chunks|] == chunks;
    StreamingLosesNothing(chunks, maxLines, MAX_BOUNDED_LOG_BYTES);
  }
}
