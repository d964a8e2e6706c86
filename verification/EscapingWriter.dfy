/** The writer of `SafeOutput` as it is written: a loop that fills the output and the
    offset table, and an object that keeps the held-back bytes. */
module EscapingWriter {
  import opened Wrappers
  import opened Bytes
  import opened Utf8
  import opened SafeOutput

  // Where the rune that byte `j` belongs to ends.
  function RuneEnd(p: seq<Byte>, j: nat): (end: nat)
    requires j < |p|
    ensures j < end <= |p|
    decreases |p|
  {
    var n := RuneSize(p);
    if j < n then n else n + RuneEnd(p[n..], j - n)
  }

  // One more rune after a boundary.
  lemma {:induction false} NextRune(p: seq<Byte>, i: nat, j: nat)
    requires i < |p| && Boundary(p, i) && i <= j < i + RuneSize(p[i..])
    ensures Boundary(p, i + RuneSize(p[i..])) && RuneEnd(p, j) == i + RuneSize(p[i..])
    decreases |p|
  {
    if i == 0 {
      assert p[0..] == p && p[RuneSize(p)..] == p[RuneSize(p)..];
    } else {
      var n := RuneSize(p);
      assert p[n..][i - n..] == p[i..];
      NextRune(p[n..], i - n, j - n);
    }
  }

  lemma {:induction false} BoundaryOfPrefix(p: seq<Byte>, i: nat, m: nat)
    requires i <= m <= |p| && Boundary(p, i)
    ensures Boundary(p[..m], i)
    decreases |p|
  {
    if i > 0 {
      var n := RuneSize(p);
      PrefixDecodesAlike(p, m);
      BoundaryOfPrefix(p[n..], i - n, m - n);
      assert p[..m][n..] == p[n..][..m - n];
    }
  }

  // The first rune alone.
  lemma OneRune(q: seq<Byte>)
    requires |q| > 0
    ensures Escape(q[..RuneSize(q)]) == Piece(q)
  {
    var n := RuneSize(q);
    PieceOfPrefix(q, n);
    Unfold(q[..n]);
    assert q[..n][n..] == [];
  }

  lemma PrefixInTwo(p: seq<Byte>, i: nat, m: nat)
    requires i <= m <= |p|
    ensures p[..m] == p[..i] + p[i..m]
  {
  }

  // Cutting at a rune boundary inside a prefix.
  lemma PrefixSplits(p: seq<Byte>, i: nat, m: nat)
    requires i <= m <= |p| && Boundary(p, i)
    ensures Escape(p[..m]) == Escape(p[..i]) + Escape(p[i..m])
  {
    BoundaryOfPrefix(p, i, m);
    PrefixInTwo(p, i, m);
    EscapeCut(p[..m], p[..i], p[i..m]);
  }

  lemma EscapeGrows(p: seq<Byte>, i: nat)
    requires i < |p| && Boundary(p, i)
    ensures Escape(p[..i + RuneSize(p[i..])]) == Escape(p[..i]) + Piece(p[i..])
  {
    var n := RuneSize(p[i..]);
    PrefixSplits(p, i, i + n);
    OneRune(p[i..]);
    assert p[i..][..n] == p[i..i + n];
  }

  // The offset table: the output length once the rune of each byte is out.
  ghost predicate IsOffsetTable(p: seq<Byte>, ends: seq<nat>) {
    |ends| == |p| && forall j :: 0 <= j < |p| ==> ends[j] == |Escape(p[..RuneEnd(p, j)])|
  }

  // The table is right for the first `i` bytes.
  ghost predicate OffsetsUpTo(p: seq<Byte>, ends: seq<nat>, i: nat) {
    i <= |p| && |ends| == i && forall j :: 0 <= j < i ==> ends[j] == |Escape(p[..RuneEnd(p, j)])|
  }

  lemma OffsetsGrow(p: seq<Byte>, ends: seq<nat>, ends': seq<nat>, i: nat, next: nat, value: nat)
    requires i < |p| && Boundary(p, i) && OffsetsUpTo(p, ends, i) && next == i + RuneSize(p[i..])
    requires value == |Escape(p[..next])|
    requires ends' == ends + seq(next - i, _ => value)
    ensures OffsetsUpTo(p, ends', next) && Boundary(p, next)
  {
    NextRune(p, i, i);
    forall j | i <= j < next ensures RuneEnd(p, j) == next {
      NextRune(p, i, j);
    }
    Filled(ends, ends', next - i, value);
  }

  lemma Filled(ends: seq<nat>, ends': seq<nat>, count: nat, value: nat)
    requires ends' == ends + seq(count, _ => value)
    ensures |ends'| == |ends| + count
    ensures forall j :: 0 <= j < |ends'| ==> ends'[j] == if j < |ends| then ends[j] else value
  {
  }

  method EscapeControls(p: seq<Byte>) returns (out: seq<Byte>, ends: seq<nat>)
    ensures out == Escape(p) && IsOffsetTable(p, ends)
  {
    out, ends := [], [];
    var i := 0;
    assert p[..0] == [];
    while i < |p|
      invariant 0 <= i <= |p| && Boundary(p, i) && out == Escape(p[..i]) && OffsetsUpTo(p, ends, i)
    {
      out, ends, i := EscapeNext(p, i, out, ends);
    }
    assert p[..i] == p;
  }

  // One round of the loop.
  method EscapeNext(p: seq<Byte>, i: nat, out: seq<Byte>, ends: seq<nat>) returns (out': seq<Byte>, ends': seq<nat>, next: nat)
    requires i < |p| && Boundary(p, i) && out == Escape(p[..i]) && OffsetsUpTo(p, ends, i)
    ensures i < next <= |p| && Boundary(p, next) && out' == Escape(p[..next]) && OffsetsUpTo(p, ends', next)
  {
    next := i + RuneSize(p[i..]);
    var piece := EmitRune(p[i..]);
    out' := out + piece;
    EscapeGrows(p, i);
    ends' := FillEnds(ends, next - i, |out'|);
    OffsetsGrow(p, ends, ends', i, next, |out'|);
  }

  method EmitRune(p: seq<Byte>) returns (piece: seq<Byte>)
    requires |p| > 0
    ensures piece == Piece(p)
  {
    var size := RuneSize(p);
    if !Complete(p) {
      piece := EscapeBytes(p[..1]);
    } else if Layout(Rune(p)) {
      piece := p[..size];
    } else if Control(Rune(p)) {
      piece := EscapeBytes(p[..size]);
    } else {
      piece := p[..size];
    }
  }

  method FillEnds(ends: seq<nat>, count: nat, value: nat) returns (filled: seq<nat>)
    ensures filled == ends + seq(count, _ => value)
  {
    filled := ends;
    for j := 0 to count
      invariant filled == ends + seq(j, _ => value)
    {
      filled := filled + [value];
    }
  }

  method EscapeBytes(p: seq<Byte>) returns (out: seq<Byte>)
    ensures out == HexEscapes(p)
  {
    out := [];
    for i := 0 to |p|
      invariant out + HexEscapes(p[i..]) == HexEscapes(p)
    {
      assert p[i..][1..] == p[i + 1..];
      out := out + HexEscape(p[i]);
    }
  }

  // ---------------------------------------------------------------- short writes

  lemma {:induction false} NewRuneIsABoundary(p: seq<Byte>, k: nat)
    requires 0 < k < |p| && RuneEnd(p, k - 1) != RuneEnd(p, k)
    ensures Boundary(p, k) && RuneEnd(p, k - 1) == k
    decreases |p|
  {
    var n := RuneSize(p);
    if k > n {
      NewRuneIsABoundary(p[n..], k - n);
    }
  }

  lemma {:induction false} WholeIsABoundary(p: seq<Byte>)
    ensures Boundary(p, |p|) && (p != [] ==> RuneEnd(p, |p| - 1) == |p|)
    decreases |p|
  {
    if p != [] {
      WholeIsABoundary(p[RuneSize(p)..]);
    }
  }

  // `k` input bytes are out completely: whole runes, all within `written`, and no more fit.
  ghost predicate LongestWritten(p: seq<Byte>, k: nat, written: nat) {
    && k <= |p| && Boundary(p, k) && |Escape(p[..k])| <= written
    && forall m :: k < m <= |p| && Boundary(p, m) ==> |Escape(p[..m])| > written
  }

  // Beyond the first rune that does not fit, no longer prefix fits either.
  lemma LongerNeedsMore(p: seq<Byte>, k: nat, m: nat)
    requires k < m <= |p| && Boundary(p, k) && Boundary(p, m)
    ensures |Escape(p[..RuneEnd(p, k)])| <= |Escape(p[..m])|
  {
    NextRune(p, k, k);
    EndsBefore(p, k, m);
    PrefixSplits(p, RuneEnd(p, k), m);
  }

  lemma {:induction false} EndsBefore(p: seq<Byte>, k: nat, m: nat)
    requires k < m <= |p| && Boundary(p, m)
    ensures RuneEnd(p, k) <= m
    decreases |p|
  {
    var n := RuneSize(p);
    if k >= n {
      EndsBefore(p[n..], k - n, m - n);
    }
  }

  method CountWritten(ghost p: seq<Byte>, ends: seq<nat>, written: nat) returns (done: nat)
    requires IsOffsetTable(p, ends)
    ensures LongestWritten(p, done, written)
  {
    done := 0;
    while done < |ends| && ends[done] <= written
      invariant done <= |ends|
      invariant forall j :: 0 <= j < done ==> ends[j] <= written
    {
      done := done + 1;
    }
    CountIsLongest(p, ends, written, done);
  }

  // The count at which the offsets first exceed what was written.
  lemma CountIsLongest(p: seq<Byte>, ends: seq<nat>, written: nat, done: nat)
    requires IsOffsetTable(p, ends) && done <= |p| && (done > 0 ==> ends[done - 1] <= written) && (done < |p| ==> ends[done] > written)
    ensures LongestWritten(p, done, written)
  {
    CountIsABoundary(p, ends, written, done);
    if done < |p| {
      forall m | done < m <= |p| && Boundary(p, m) ensures |Escape(p[..m])| > written {
        LongerNeedsMore(p, done, m);
      }
    }
  }

  lemma CountIsABoundary(p: seq<Byte>, ends: seq<nat>, written: nat, done: nat)
    requires IsOffsetTable(p, ends) && done <= |p| && (done > 0 ==> ends[done - 1] <= written) && (done < |p| ==> ends[done] > written)
    ensures Boundary(p, done) && |Escape(p[..done])| <= written
  {
    assert p[..0] == [];
    if done == |p| {
      WholeIsABoundary(p);
    } else if done > 0 {
      NewRuneIsABoundary(p, done);
    }
  }

  // A later byte is never out before an earlier one.
  lemma {:induction false} OffsetsNondecreasing(p: seq<Byte>, ends: seq<nat>, i: nat, j: nat)
    requires IsOffsetTable(p, ends) && i <= j < |p|
    ensures ends[i] <= ends[j]
  {
    RuneEndIsABoundary(p, i);
    RuneEndIsABoundary(p, j);
    EndsBefore(p, i, RuneEnd(p, j));
    PrefixSplits(p, RuneEnd(p, i), RuneEnd(p, j));
  }

  lemma {:induction false} RuneEndIsABoundary(p: seq<Byte>, j: nat)
    requires j < |p|
    ensures Boundary(p, RuneEnd(p, j))
    decreases |p|
  {
    var n := RuneSize(p);
    if j >= n {
      RuneEndIsABoundary(p[n..], j - n);
    } else {
      assert Boundary(p[n..], 0);
    }
  }

  class ControlEscapingWriter {
    var pending: seq<Byte>
    ghost var sink: seq<Byte>  // everything the underlying writer took

    constructor ()
      ensures pending == [] && sink == []
    {
      pending := [];
      sink := [];
    }

    /** The underlying writer takes `limit` bytes, or all of them, and may also report an error.
        On success the escaped body is out and the unfinished tail is kept.  On failure the
        count is what was written of the longest completely written prefix `done`, less the
        bytes held back before, and nothing is held any more. */
    method Write(p: seq<Byte>, limit: Option<nat>, fails: bool) returns (n: nat, err: bool, ghost done: nat)
      modifies this
      ensures var data := old(pending) + p; var out := Escape(Body(data)); var written := Taken(|out|, limit);
              && err == (fails || written < |out|)
              && sink == old(sink) + out[..written]
              && pending == (if err then [] else Pending(data))
              && (!err ==> n == |p|)
              && (err ==> LongestWritten(Body(data), done, written) && n == Reported(|old(pending)|, done))
    {
      var data := pending + p;
      var body, out, ends := EscapeBody(data);
      var written := Taken(|out|, limit);
      sink := sink + out[..written];
      err := fails || written < |out|;
      done := 0;
      if err {
        var doneBody := CountWritten(body, ends, written);
        done := doneBody;
        var previouslyPending := |data| - |p|;
        pending := [];
        n := if doneBody > previouslyPending then doneBody - previouslyPending else 0;
        return;
      }
      pending := data[|body|..];
      n := |p|;
    }

    /** Whatever the underlying writer does, nothing is held afterwards. */
    method Flush(limit: Option<nat>, fails: bool) returns (err: bool)
      modifies this
      ensures pending == [] && err == (fails && old(pending) != [])
      ensures sink == old(sink) + HexEscapes(old(pending))[..Taken(|HexEscapes(old(pending))|, limit)]
    {
      if |pending| == 0 {
        return false;
      }
      var out := EscapeBytes(pending);
      pending := [];
      sink := sink + out[..Taken(|out|, limit)];
      err := fails;
    }
  }

  method EscapeBody(data: seq<Byte>) returns (body: seq<Byte>, out: seq<Byte>, ends: seq<nat>)
    ensures body == Body(data) && data[|body|..] == Pending(data) && out == Escape(body) && IsOffsetTable(body, ends)
  {
    var held := IncompleteRuneSuffix(data);
    body := data[..|data| - held];
    out, ends := EscapeControls(body);
  }

  // What a writer that takes at most `limit` bytes takes of `size`.
  function Taken(size: nat, limit: Option<nat>): (taken: nat)
    ensures taken <= size
  {
    if limit.Some? && limit.value < size then limit.value else size
  }

  // The count reported after a failure.
  function Reported(held: nat, done: nat): nat { if done > held then done - held else 0 }

  // Retrying from the reported count goes on where the completely written part ends.
  ghost predicate GoesOn(held: seq<Byte>, p: seq<Byte>, done: nat) {
    done <= |held + p| && p[Reported(|held|, done)..] == (held + p)[done..]
  }

  lemma GoesOnWhenHeldIsOut(held: seq<Byte>, p: seq<Byte>, done: nat)
    requires done <= |held + p|
    ensures GoesOn(held, p, done) <==> done >= |held|
    ensures done < |held| ==> (held + p)[done..] == held[done..] + p[Reported(|held|, done)..]
  {
    if done < |held| {
      assert |p[Reported(|held|, done)..]| < |(held + p)[done..]|;
    }
  }

  /** The condition a caller can check before the call: whatever the underlying writer does, a
      retry from the reported count loses no input, if and only if nothing was held back. */
  lemma RetryIsSafeExactlyWhenNothingHeld(held: seq<Byte>, p: seq<Byte>)
    ensures (forall done, written :: LongestWritten(Body(held + p), done, written) ==> GoesOn(held, p, done)) <==> held == []
  {
    if held == [] {
      forall done, written | LongestWritten(Body(held + p), done, written) ensures GoesOn(held, p, done) {
        GoesOnWhenHeldIsOut(held, p, done);
      }
    } else {
      NothingOut(Body(held + p));
      GoesOnWhenHeldIsOut(held, p, 0);
    }
  }

  /** For one failed write with bytes held back: the retry goes on where the output stopped if and
      only if the write got as far as the end of the rune that the last held byte belongs to. */
  lemma RetryGoesOnExactlyWhenHeldRuneIsOut(held: seq<Byte>, p: seq<Byte>, done: nat, written: nat)
    requires held != [] && LongestWritten(Body(held + p), done, written)
    ensures var body := Body(held + p);
            GoesOn(held, p, done) <==> |held| <= |body| && |Escape(body[..RuneEnd(body, |held| - 1)])| <= written
  {
    var body := Body(held + p);
    GoesOnWhenHeldIsOut(held, p, done);
    if |held| <= |body| {
      var e := RuneEnd(body, |held| - 1);
      RuneEndIsABoundary(body, |held| - 1);
      if done >= |held| {
        EndsBefore(body, |held| - 1, done);
        PrefixSplits(body, e, done);
      }
    }
  }

  /** What reached the terminal, followed by a retry that goes on, is the escape of everything if
      and only if the write stopped between two runes; otherwise a fragment comes twice. */
  lemma RetryPrintsAllExactlyBetweenRunes(held: seq<Byte>, p: seq<Byte>, done: nat, written: nat)
    requires LongestWritten(Body(held + p), done, written) && GoesOn(held, p, done) && written <= |Escape(Body(held + p))|
    ensures var data := held + p;
            Escape(Body(data))[..written] + Escape(p[Reported(|held|, done)..]) == Escape(data) <==> written == |Escape(data[..done])|
  {
    var data, body := held + p, Body(held + p);
    DoneIsABoundary(data, done, written);
    CutAt(data, done);
    CutAt(body, done);
    assert body[..done] == data[..done];
    SamePrefixExactly(Escape(body), Escape(data[..done]), Escape(data[done..]), written);
  }

  lemma SamePrefixExactly(out: seq<Byte>, a: seq<Byte>, b: seq<Byte>, n: nat)
    requires n <= |out| && a <= out
    ensures out[..n] + b == a + b <==> n == |a|
  {
    if n != |a| {
      assert |out[..n] + b| != |a + b|;
    }
  }

  lemma LoneEscape(p: seq<Byte>)
    requires p == [0x1B]
    ensures |Escape(p)| == 4 && RuneSize(p) == 1
  {
    Unfold(p);
    assert p[..1] == p && p[1..] == [] && Escape([]) == [];
    assert HexEscapes(p) == HexEscape(p[0]) + HexEscapes(p[1..]);
  }

  lemma LoneEscapeIsWhole(p: seq<Byte>)
    requires p == [0x1B]
    ensures Body(p) == p
  {
    assert p[|p| - 1..] == p && FullRune(p);
    HeldFromFinds(p, 1, 1);
  }

  /** An escape character of which two bytes of four come out: nothing was held and no input is
      lost, but the retry prints those two bytes again. */
  lemma FragmentComesTwice() returns (p: seq<Byte>)
    ensures Body(p) == p && |Escape(p)| == 4 && LongestWritten(p, 0, 2)
    ensures Escape(p)[..2] + Escape(p[Reported(0, 0)..]) != Escape(p)
  {
    p := [0x1B];
    LoneEscape(p);
    LoneEscapeIsWhole(p);
    assert p[..0] == [] && p[..1] == p && p[0..] == p;
    assert |Escape(p)[..2] + Escape(p)| != |Escape(p)|;
  }

  lemma DoneIsABoundary(data: seq<Byte>, done: nat, written: nat)
    requires LongestWritten(Body(data), done, written)
    ensures done <= |data| && Boundary(data, done)
  {
    HeldBackIsABoundary(data, []);
    assert data + [] == data;
    BoundaryInside(data, |Body(data)|, done);
  }

  lemma CutAt(data: seq<Byte>, k: nat)
    requires k <= |data| && Boundary(data, k)
    ensures Escape(data) == Escape(data[..k]) + Escape(data[k..])
  {
    assert data == data[..k] + data[k..];
    EscapeCut(data, data[..k], data[k..]);
  }

  // A boundary of a prefix that ends at a boundary is a boundary of the whole.
  lemma {:induction false} BoundaryInside(p: seq<Byte>, k: nat, i: nat)
    requires k <= |p| && Boundary(p, k) && i <= k && Boundary(p[..k], i)
    ensures Boundary(p, i)
    decreases |p|
  {
    if i > 0 {
      var n := RuneSize(p);
      PrefixDecodesAlike(p, k);
      assert p[..k][n..] == p[n..][..k - n];
      BoundaryInside(p[n..], k - n, i - n);
    }
  }

  /** Bytes are lost in practice: the first two bytes of a three-byte rune are held back, the
      write of the third fails before anything is out, and a retry sends the third alone. */
  lemma RetryCanLose() returns (held: seq<Byte>, p: seq<Byte>)
    ensures Pending(held) == held && Body(held + p) == held + p && LongestWritten(held + p, 0, 0)
    ensures p[Reported(|held|, 0)..] == p && (held + p)[0..] != p
  {
    held, p := [0xE2, 0x82], [0xAC];
    assert held + p == [0xE2, 0x82, 0xAC];
    TwoBytesHeld(held);
    ThreeBytesWhole(held + p);
    NothingOut(held + p);
  }

  lemma TwoBytesHeld(data: seq<Byte>)
    requires data == [0xE2, 0x82]
    ensures Pending(data) == data
  {
    assert data[|data| - 2..] == data && !FullRune(data);
    HeldFromFinds(data, 1, 2);
  }

  lemma ThreeBytesWhole(data: seq<Byte>)
    requires data == [0xE2, 0x82, 0xAC]
    ensures Body(data) == data
  {
    assert data[|data| - 3..] == data && FullRune(data);
    HeldFromFinds(data, 1, 3);
  }

  // No byte written means no rune written.
  lemma NothingOut(data: seq<Byte>)
    ensures LongestWritten(data, 0, 0)
  {
    assert data[..0] == [];
    forall m | 0 < m <= |data| && Boundary(data, m) ensures |Escape(data[..m])| > 0 {
      PieceIsClean(data[..m]);
      Unfold(data[..m]);
    }
  }

  /** Printing a list of chunks through a new writer and flushing it, when the underlying writer
      takes everything: what comes out is the escape of the whole input. */
  method PrintAll(chunks: seq<seq<Byte>>) returns (writer: ControlEscapingWriter)
    ensures fresh(writer) && writer.sink == Escape(Concat(chunks)) && writer.pending == []
  {
    writer := new ControlEscapingWriter();
    assert chunks[0..] == chunks;
    for i := 0 to |chunks|
      invariant fresh(writer) && writer.sink + Stream(writer.pending, chunks[i..]) == Stream([], chunks)
    {
      PrintNext(writer, chunks, i);
    }
    assert chunks[|chunks|..] == [];
    var _ := writer.Flush(None, false);
    StreamingEqualsEscaping(chunks);
  }

  // What is out and what the rest will bring out are together the same after the write.
  method PrintNext(writer: ControlEscapingWriter, chunks: seq<seq<Byte>>, i: nat)
    requires i < |chunks|
    modifies writer
    ensures writer.sink + Stream(writer.pending, chunks[i + 1..]) == old(writer.sink + Stream(writer.pending, chunks[i..]))
  {
    assert chunks[i..][0] == chunks[i] && chunks[i..][1..] == chunks[i + 1..];
    ghost var before, data := writer.sink, writer.pending + chunks[i];
    var n, err, done := writer.Write(chunks[i], None, false);
    assert writer.sink == before + Escape(Body(data));
    Associate(before, Escape(Body(data)), Stream(writer.pending, chunks[i + 1..]));
  }

  method IncompleteRuneSuffix(data: seq<Byte>) returns (held: nat)
    ensures held == HeldBack(data)
  {
    var n := 1;
    while n < 4 && n <= |data|
      invariant 1 <= n <= 4 && HeldFrom(data, n) == HeldBack(data)
    {
      var start := |data| - n;
      if RuneStart(data[start]) {
        if FullRune(data[start..]) {
          return 0;
        }
        return n;
      }
      n := n + 1;
    }
    return 0;
  }
}
