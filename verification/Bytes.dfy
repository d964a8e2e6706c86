/** Bytes, and where a byte string stands inside a larger one, told position by position. */
module Bytes {
  type Byte = x: int | 0 <= x < 256

  const NEWLINE: Byte := 10

  function Value(b: Byte): nat { b }

  function Min(a: nat, b: nat): nat { if a < b then a else b }

  function Concat(chunks: seq<seq<Byte>>): seq<Byte> {
    if chunks == [] then [] else chunks[0] + Concat(chunks[1..])
  }

  lemma {:induction false} ConcatSnoc(chunks: seq<seq<Byte>>, last: seq<Byte>)
    ensures Concat(chunks + [last]) == Concat(chunks) + last
  {
    if chunks == [] {
      assert chunks + [last] == [last] && Concat([]) == [];
    } else {
      assert (chunks + [last])[1..] == chunks[1..] + [last];
      ConcatSnoc(chunks[1..], last);
    }
  }

  lemma Associate<T>(a: seq<T>, b: seq<T>, c: seq<T>)
    ensures a + (b + c) == (a + b) + c
  {
  }

  function Nth(v: seq<Byte>, i: nat): Byte
    requires i < |v|
  {
    v[i]
  }

  // `v` is what stands in the bytes from `pos` to `end`.
  ghost predicate Here(data: seq<Byte>, pos: nat, end: nat, v: seq<Byte>) {
    pos + |v| == end <= |data| && forall i {:trigger Nth(v, i)} :: 0 <= i < |v| ==> data[pos + i] == Nth(v, i)
  }

  // A concatenation stands where its parts stand side by side.
  lemma Split(data: seq<Byte>, pos: nat, end: nat, a: seq<Byte>, b: seq<Byte>)
    requires Here(data, pos, end, a + b)
    ensures Here(data, pos, pos + |a|, a) && Here(data, pos + |a|, end, b)
  {
    var both := a + b;
    assert forall i :: 0 <= i < |a| ==> Nth(both, i) == Nth(a, i);
    assert forall i :: 0 <= i < |b| ==> Nth(both, |a| + i) == Nth(b, i);
  }
}
