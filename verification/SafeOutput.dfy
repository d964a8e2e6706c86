/** The terminal-escaping writer: control characters and invalid bytes leave as `\xNN`,
    and a rune split over two writes is held back until it is whole. */
module SafeOutput {
  import opened Bytes
  import opened Utf8

  function HexDigit(n: int): (d: Byte)
    requires 0 <= n < 16
    ensures '0' as int <= d <= '9' as int || 'a' as int <= d <= 'f' as int
  {
    if n < 10 then '0' as int + n else 'a' as int + (n - 10)
  }

  // `\x%02x`
  function HexEscape(b: Byte): seq<Byte> {
    ['\\' as int, 'x' as int, HexDigit(b / 16), HexDigit(b % 16)]
  }

  function HexEscapes(p: seq<Byte>): seq<Byte> {
    if p == [] then [] else HexEscape(p[0]) + HexEscapes(p[1..])
  }

  predicate Layout(r: int) { r == '\n' as int || r == '\t' as int }

  // C0, DEL and C1, newline and tab excepted.
  predicate Control(r: int) { !Layout(r) && (r < 0x20 || r == 0x7F || 0x80 <= r < 0xA0) }

  // What one decoded rune, or one invalid byte, becomes.
  function Piece(p: seq<Byte>): (piece: seq<Byte>)
    requires |p| > 0
  {
    if Complete(p) && !Control(Rune(p)) then p[..RuneSize(p)] else HexEscapes(p[..RuneSize(p)])
  }

  // The whole input at once.
  function Escape(p: seq<Byte>): seq<Byte> {
    if p == [] then [] else Piece(p) + Escape(p[RuneSize(p)..])
  }

  // incompleteRuneSuffix: trailing bytes that start a valid but unfinished sequence.
  function HeldBack(data: seq<Byte>): (n: nat)
    ensures n <= 3 && n <= |data|
  {
    HeldFrom(data, 1)
  }

  function HeldFrom(data: seq<Byte>, n: nat): (held: nat)
    requires 1 <= n <= 4
    ensures held <= 3 && held <= |data|
    decreases 4 - n
  {
    if n >= 4 || n > |data| then 0
    else if !RuneStart(data[|data| - n]) then HeldFrom(data, n + 1)
    else if FullRune(data[|data| - n..]) then 0
    else n
  }

  function Body(data: seq<Byte>): seq<Byte> { data[..|data| - HeldBack(data)] }

  function Pending(data: seq<Byte>): seq<Byte> { data[|data| - HeldBack(data)..] }

  // ---------------------------------------------------------------- cutting

  lemma PieceOfPrefix(p: seq<Byte>, k: nat)
    requires 0 < k <= |p| && RuneSize(p) <= k
    ensures Piece(p[..k]) == Piece(p) && RuneSize(p[..k]) == RuneSize(p)
  {
    PrefixDecodesAlike(p, k);
  }

  lemma Unfold(p: seq<Byte>)
    requires |p| > 0
    ensures Escape(p) == Piece(p) + Escape(p[RuneSize(p)..])
  {
  }

  lemma BoundaryStep(p: seq<Byte>, k: nat)
    requires 0 < k <= |p| && Boundary(p, k)
    ensures RuneSize(p) <= k && Boundary(p[RuneSize(p)..], k - RuneSize(p))
  {
  }

  /** Escaping works piece by piece: no rune crosses a boundary. */
  lemma {:induction false} EscapeCut(p: seq<Byte>, a: seq<Byte>, b: seq<Byte>)
    requires p == a + b && Boundary(p, |a|)
    ensures Escape(p) == Escape(a) + Escape(b)
    decreases |a|
  {
    if a == [] {
      NothingBefore(p, b);
    } else {
      var n := RuneSize(p);
      RestOfCut(p, a, b);
      EscapeCut(p[n..], a[n..], b);
      CutStep(p, a, b, n);
    }
  }

  lemma NothingBefore(p: seq<Byte>, b: seq<Byte>)
    requires p == [] + b
    ensures Escape(p) == Escape([]) + Escape(b)
  {
    assert p == b;
  }

  lemma RestOfCut(p: seq<Byte>, a: seq<Byte>, b: seq<Byte>)
    requires p == a + b && a != [] && Boundary(p, |a|)
    ensures var n := RuneSize(p); n <= |a| && p[n..] == a[n..] + b && Boundary(p[n..], |a[n..]|)
  {
    BoundaryStep(p, |a|);
  }

  lemma CutStep(p: seq<Byte>, a: seq<Byte>, b: seq<Byte>, n: nat)
    requires p == a + b && a != [] && n == RuneSize(p) <= |a| && Escape(p[n..]) == Escape(a[n..]) + Escape(b)
    ensures Escape(p) == Escape(a) + Escape(b)
  {
    FirstPieces(p, a, b);
    Associate(Piece(p), Escape(a[n..]), Escape(b));
  }

  // A whole and its nonempty part up to a boundary start with the same piece.
  lemma FirstPieces(p: seq<Byte>, a: seq<Byte>, b: seq<Byte>)
    requires p == a + b && a != [] && RuneSize(p) <= |a|
    ensures RuneSize(a) == RuneSize(p) && Escape(a) == Piece(p) + Escape(a[RuneSize(p)..])
    ensures Escape(p) == Piece(p) + Escape(p[RuneSize(p)..])
  {
    assert p[..|a|] == a;
    PieceOfPrefix(p, |a|);
    Unfold(a);
    Unfold(p);
  }

  // The suffix search stops at the first start byte from the end.
  lemma {:induction false} HeldFromFinds(data: seq<Byte>, n: nat, m: nat)
    requires 1 <= n <= m < 4 && m <= |data|
    requires forall i :: |data| - m < i <= |data| - n ==> Continuation(data[i])
    requires RuneStart(data[|data| - m])
    ensures HeldFrom(data, n) == if FullRune(data[|data| - m..]) then 0 else m
    decreases m - n
  {
    if n < m {
      HeldFromFinds(data, n + 1, m);
    }
  }

  lemma {:induction false} HeldFromStarts(data: seq<Byte>, n: nat)
    requires 1 <= n <= 4 && HeldFrom(data, n) > 0
    ensures RuneStart(data[|data| - HeldFrom(data, n)]) && !FullRune(data[|data| - HeldFrom(data, n)..])
    decreases 4 - n
  {
    if n < 4 && n <= |data| && !RuneStart(data[|data| - n]) {
      HeldFromStarts(data, n + 1);
    }
  }

  // A rune never extends over a byte that starts another one.
  lemma StartStopsRune(p: seq<Byte>, i: nat, k: nat)
    requires i < k < |p| && RuneStart(p[k])
    ensures i + RuneSize(p[i..]) <= k
  {
  }

  // A rune that runs past the end of the data is exactly what is held back.
  lemma UnfinishedIsHeld(data: seq<Byte>, more: seq<Byte>, i: nat)
    requires i < |data| && i + RuneSize((data + more)[i..]) > |data|
    ensures HeldBack(data) == |data| - i
  {
    var q, m := (data + more)[i..], |data| - i;
    assert Complete(q) && m <= 3;
    assert data[i..] == q[..m];
    forall j | i < j < |data| ensures Continuation(data[j]) {
      assert data[j] == q[j - i];
    }
    assert data[|data| - m] == q[0];
    HeldFromFinds(data, 1, m);
  }

  // However the input goes on, no rune reaches from the written part into the held part.
  lemma HeldBackIsABoundary(data: seq<Byte>, more: seq<Byte>)
    ensures Boundary(data + more, |Body(data)|)
  {
    var p, k := data + more, |Body(data)|;
    forall i | 0 <= i < k ensures i + RuneSize(p[i..]) <= k {
      if HeldBack(data) > 0 {
        HeldFromStarts(data, 1);
        assert p[k] == data[k];
        StartStopsRune(p, i, k);
      } else if i + RuneSize(p[i..]) > k {
        UnfinishedIsHeld(data, more, i);
      }
    }
    NoRuneCrosses(p, k);
  }

  lemma BodyAndPending(data: seq<Byte>, more: seq<Byte>)
    ensures Body(data) + (Pending(data) + more) == data + more
  {
  }

  /** However the input goes on, holding back the unfinished rune is a safe place to cut. */
  lemma CutAnywhere(data: seq<Byte>, more: seq<Byte>)
    ensures Escape(data + more) == Escape(Body(data)) + Escape(Pending(data) + more)
  {
    HeldBackIsABoundary(data, more);
    BodyAndPending(data, more);
    EscapeCut(data + more, Body(data), Pending(data) + more);
  }

  // Flush writes held bytes one by one, which is what escaping them amounts to.
  lemma PendingEscapesBytewise(data: seq<Byte>)
    ensures Escape(Pending(data)) == HexEscapes(Pending(data))
  {
    var h := Pending(data);
    if h != [] {
      HeldFromStarts(data, 1);
      InvalidByte(h);
      assert |h| <= 3 && (|h| >= 2 ==> Continuation(h[1])) && (|h| >= 3 ==> Continuation(h[2]));
      StrayBytes(h[1..]);
    }
  }

  lemma InvalidByte(p: seq<Byte>)
    requires |p| > 0 && !Complete(p)
    ensures RuneSize(p) == 1 && Piece(p) == HexEscape(p[0])
  {
    assert p[..1] == [p[0]] && [p[0]][1..] == [];
    assert HexEscapes([p[0]]) == HexEscape(p[0]) + HexEscapes([]);
  }

  lemma {:induction false} StrayBytes(p: seq<Byte>)
    requires forall i :: 0 <= i < |p| ==> Continuation(p[i])
    ensures Escape(p) == HexEscapes(p)
  {
    if p != [] {
      InvalidByte(p);
      StrayBytes(p[1..]);
    }
  }

  // ---------------------------------------------------------------- streaming

  // Everything that reaches the terminal when each chunk is written and then flushed.
  function Stream(pending: seq<Byte>, chunks: seq<seq<Byte>>): seq<Byte>
    decreases |chunks|
  {
    if chunks == [] then HexEscapes(pending)
    else var data := pending + chunks[0]; Escape(Body(data)) + Stream(Pending(data), chunks[1..])
  }

  /** For every input and every way of splitting it into writes, writing the pieces and
      flushing prints exactly what escaping the whole input at once prints. */
  lemma StreamingEqualsEscaping(chunks: seq<seq<Byte>>)
    ensures Stream([], chunks) == Escape(Concat(chunks))
  {
    assert Pending([]) == [] && [] + Concat(chunks) == Concat(chunks);
    StreamFrom([], chunks);
  }

  lemma {:induction false} StreamFrom(earlier: seq<Byte>, chunks: seq<seq<Byte>>)
    ensures Stream(Pending(earlier), chunks) == Escape(Pending(earlier) + Concat(chunks))
    decreases |chunks|
  {
    var pending := Pending(earlier);
    if chunks == [] {
      assert pending + Concat(chunks) == pending;
      PendingEscapesBytewise(earlier);
    } else {
      var data := pending + chunks[0];
      assert pending + Concat(chunks) == data + Concat(chunks[1..]);
      CutAnywhere(data, Concat(chunks[1..]));
      StreamFrom(data, chunks[1..]);
    }
  }

  // ---------------------------------------------------------------- what comes out

  // Valid UTF-8 without any control character.
  predicate CleanText(s: seq<Byte>) {
    s == [] || (Complete(s) && !Control(Rune(s)) && CleanText(s[RuneSize(s)..]))
  }

  lemma {:induction false} CleanConcat(a: seq<Byte>, b: seq<Byte>)
    requires CleanText(a) && CleanText(b)
    ensures CleanText(a + b)
    decreases |a|
  {
    if a == [] {
      assert a + b == b;
    } else {
      ExtensionDecodesAlike(a, b);
      CleanConcat(a[RuneSize(a)..], b);
    }
  }

  lemma {:induction false} HexEscapesAreClean(p: seq<Byte>)
    ensures CleanText(HexEscapes(p))
  {
    if p != [] {
      AsciiIsClean(HexEscape(p[0]));
      HexEscapesAreClean(p[1..]);
      CleanConcat(HexEscape(p[0]), HexEscapes(p[1..]));
    }
  }

  lemma {:induction false} AsciiIsClean(s: seq<Byte>)
    requires forall i :: 0 <= i < |s| ==> 0x20 <= s[i] < 0x7F
    ensures CleanText(s)
  {
    if s != [] {
      AsciiIsClean(s[1..]);
    }
  }

  /** Whatever goes in, what comes out is valid UTF-8 with no C0 (but newline and tab), no
      DEL and no C1 character. */
  lemma {:induction false} EscapedIsClean(p: seq<Byte>)
    ensures CleanText(Escape(p))
    decreases |p|
  {
    if p != [] {
      var n := RuneSize(p);
      PieceIsClean(p);
      EscapedIsClean(p[n..]);
      CleanConcat(Piece(p), Escape(p[n..]));
    }
  }

  lemma PieceIsClean(p: seq<Byte>)
    requires |p| > 0
    ensures CleanText(Piece(p)) && |Piece(p)| > 0
  {
    var n := RuneSize(p);
    if Complete(p) && !Control(Rune(p)) {
      PrefixDecodesAlike(p, n);
      assert p[..n][n..] == [];
    } else {
      HexEscapesAreClean(p[..n]);
      assert HexEscapes(p[..n]) == HexEscape(p[0]) + HexEscapes(p[..n][1..]);
    }
  }

  // Printable text passes through unchanged.
  lemma {:induction false} CleanPassesThrough(p: seq<Byte>)
    requires CleanText(p)
    ensures Escape(p) == p
    decreases |p|
  {
    if p != [] {
      CleanPassesThrough(p[RuneSize(p)..]);
    }
  }
}
