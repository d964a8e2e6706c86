/** UTF-8 decoding one rune at a time (sections 3 and 4 of RFC 3629). */
module Utf8 {
  import opened Bytes

  predicate Continuation(b: Byte) { 0x80 <= b < 0xC0 }

  predicate RuneStart(b: Byte) { !Continuation(b) }

  // Length announced by a first byte; 0 for bytes no sequence starts with.
  function Announced(b: Byte): nat {
    if b < 0x80 then 1
    else if 0xC2 <= b < 0xE0 then 2
    else if 0xE0 <= b < 0xF0 then 3
    else if 0xF0 <= b < 0xF5 then 4
    else 0
  }

  // The second byte rules out overlong forms, surrogates and code points past U+10FFFF.
  predicate SecondAllowed(first: Byte, second: Byte) {
    match first
    case 0xE0 => 0xA0 <= second < 0xC0
    case 0xED => 0x80 <= second < 0xA0
    case 0xF0 => 0x90 <= second < 0xC0
    case 0xF4 => 0x80 <= second < 0x90
    case _ => Continuation(second)
  }

  // `p` starts with a whole valid sequence.
  predicate Complete(p: seq<Byte>) {
    |p| > 0 && var n := Announced(p[0]);
    && 0 < n <= |p|
    && (n >= 2 ==> SecondAllowed(p[0], p[1]))
    && (n >= 3 ==> Continuation(p[2]))
    && (n >= 4 ==> Continuation(p[3]))
  }

  // How many bytes decoding consumes: a whole sequence, or one invalid byte.
  function RuneSize(p: seq<Byte>): (n: nat)
    requires |p| > 0
    ensures 1 <= n <= |p| && n <= 4
  {
    if Complete(p) then Announced(p[0]) else 1
  }

  // The code point of a complete sequence.
  function Rune(p: seq<Byte>): int
    requires Complete(p)
  {
    var b: int := p[0];
    match Announced(p[0])
    case 1 => b
    case 2 => 64 * (b - 0xC0) + Low(p[1])
    case 3 => 4096 * (b - 0xE0) + 64 * Low(p[1]) + Low(p[2])
    case _ => 262144 * (b - 0xF0) + 4096 * Low(p[1]) + 64 * Low(p[2]) + Low(p[3])
  }

  // The six payload bits of a continuation byte.
  function Low(b: Byte): int { b - 0x80 }

  // utf8.FullRune: decoding `p` would not change if more bytes followed.
  predicate FullRune(p: seq<Byte>) {
    |p| > 0 &&
    ( || |p| >= (if Announced(p[0]) == 0 then 1 else Announced(p[0]))
      || (|p| > 1 && !SecondAllowed(p[0], p[1]))
      || (|p| > 2 && !Continuation(p[2])))
  }

  // Position `k` of `p` is where a rune ends and the next one starts.
  predicate Boundary(p: seq<Byte>, k: nat)
    requires k <= |p|
  {
    k == 0 || (RuneSize(p) <= k && Boundary(p[RuneSize(p)..], k - RuneSize(p)))
  }

  // Decoding looks no further than the rune it returns.
  lemma PrefixDecodesAlike(p: seq<Byte>, k: nat)
    requires 0 < k <= |p| && RuneSize(p) <= k
    ensures Complete(p[..k]) == Complete(p) && RuneSize(p[..k]) == RuneSize(p)
    ensures p[..RuneSize(p)] == p[..k][..RuneSize(p)]
    ensures Complete(p) ==> Rune(p[..k]) == Rune(p)
  {
  }

  lemma ExtensionDecodesAlike(a: seq<Byte>, b: seq<Byte>)
    requires Complete(a)
    ensures Complete(a + b) && RuneSize(a + b) == RuneSize(a) && Rune(a + b) == Rune(a)
    ensures (a + b)[RuneSize(a)..] == a[RuneSize(a)..] + b
  {
  }

  lemma {:induction false} NoRuneCrosses(p: seq<Byte>, k: nat)
    requires k <= |p|
    requires forall i :: 0 <= i < k ==> i + RuneSize(p[i..]) <= k
    ensures Boundary(p, k)
    decreases |p|
  {
    if k > 0 {
      var n := RuneSize(p);
      assert p[0..] == p;
      forall i | 0 <= i < k - n ensures i + RuneSize(p[n..][i..]) <= k - n {
        assert p[n..][i..] == p[n + i..];
      }
      NoRuneCrosses(p[n..], k - n);
    }
  }
}
