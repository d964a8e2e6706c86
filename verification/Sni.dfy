/** The gate's ClientHello parser (section 4.1.2 of RFC 8446, section 3 of RFC 6066).

    `SniOf` is what the parser computes at absolute positions, with every read in bounds;
    the method is the parser's own loops.  `Encode` serialises a hello, and the main
    theorem reads the requested host name back from the serialised bytes. */
module Sni {
  import opened Bytes

  function U16(data: seq<Byte>, pos: nat): nat
    requires pos + 2 <= |data|
  {
    256 * Value(data[pos]) + Value(data[pos + 1])
  }

  function U24(data: seq<Byte>, pos: nat): nat
    requires pos + 3 <= |data|
  {
    65536 * Value(data[pos]) + 256 * Value(data[pos + 1]) + Value(data[pos + 2])
  }

  function LowerByte(b: Byte): Byte { if 'A' as int <= b <= 'Z' as int then b + 32 else b }

  // decode("ascii", "ignore").lower()
  function AsciiLower(name: seq<Byte>): seq<Byte> {
    if name == [] then []
    else (if name[0] < 128 then [LowerByte(name[0])] else []) + AsciiLower(name[1..])
  }

  datatype Search = Continue | Return(name: seq<Byte>)

  function Otherwise(found: Search, rest: seq<Byte>): seq<Byte> { if found.Return? then found.name else rest }

  // The inner loop over a server name list.
  function WalkNames(data: seq<Byte>, pos: nat, end: nat): Search
    requires end <= |data|
    decreases end - pos
  {
    if pos + 3 > end then Continue
    else
      var len := U16(data, pos + 1);
      if pos + 3 + len > end then Return([])
      else if data[pos] == 0 then Return(AsciiLower(data[pos + 3..pos + 3 + len]))
      else WalkNames(data, pos + 3 + len, end)
  }

  // The outer loop over the extensions.
  function WalkExtensions(data: seq<Byte>, pos: nat, end: nat): seq<Byte>
    requires end <= |data|
    decreases end - pos
  {
    if pos + 4 > end then []
    else
      var extEnd := pos + 4 + U16(data, pos + 2);
      if extEnd > end then []
      else if U16(data, pos) != 0 then WalkExtensions(data, extEnd, end)
      else if pos + 6 > extEnd then []
      else Otherwise(WalkNames(data, pos + 6, Min(extEnd, pos + 6 + U16(data, pos + 4))), WalkExtensions(data, extEnd, end))
  }

  function SniOf(data: seq<Byte>): seq<Byte> {
    if |data| < 9 || data[0] != 0x16 || data[5] != 0x01 then []
    else
      var end := Min(|data|, 9 + U24(data, 6));
      if 43 >= end then []
      else
        var ciphers := 44 + Value(data[43]);
        if ciphers + 2 > end then []
        else
          var compression := ciphers + 2 + U16(data, ciphers);
          if compression >= end then []
          else
            var extensions := compression + 1 + Value(data[compression]);
            if extensions + 2 > end then []
            else WalkExtensions(data, extensions + 2, Min(end, extensions + 2 + U16(data, extensions)))
  }

  /** The parser itself, its two loops as two methods.  Every index is in bounds on every
      byte string, so the catch-all of the original is never reached. */
  method ParseSni(data: seq<Byte>) returns (name: seq<Byte>)
    ensures name == SniOf(data)
  {
    if |data| < 9 || data[0] != 0x16 {
      return [];
    }
    var pos := 5;
    if data[pos] != 0x01 {
      return [];
    }
    var end := Min(|data|, pos + 4 + U24(data, pos + 1));
    pos := pos + 4;
    pos := pos + 2 + 32;
    if pos >= end {
      return [];
    }
    pos := pos + 1 + Value(data[pos]);
    if pos + 2 > end {
      return [];
    }
    pos := pos + 2 + U16(data, pos);
    if pos >= end {
      return [];
    }
    pos := pos + 1 + Value(data[pos]);
    if pos + 2 > end {
      return [];
    }
    name := ParseExtensions(data, pos + 2, Min(end, pos + 2 + U16(data, pos)));
  }

  method ParseExtensions(data: seq<Byte>, start: nat, end: nat) returns (name: seq<Byte>)
    requires end <= |data|
    ensures name == WalkExtensions(data, start, end)
  {
    var pos := start;
    while pos + 4 <= end
      invariant WalkExtensions(data, pos, end) == WalkExtensions(data, start, end)
      decreases end - pos
    {
      var extType := U16(data, pos);
      var extEnd := pos + 4 + U16(data, pos + 2);
      pos := pos + 4;
      if extEnd > end {
        return [];
      }
      if extType == 0 {
        if pos + 2 > extEnd {
          return [];
        }
        var search := ParseNames(data, pos + 2, Min(extEnd, pos + 2 + U16(data, pos)));
        if search.Return? {
          return search.name;
        }
      }
      pos := extEnd;
    }
    return [];
  }

  method ParseNames(data: seq<Byte>, start: nat, end: nat) returns (search: Search)
    requires end <= |data|
    ensures search == WalkNames(data, start, end)
  {
    var pos := start;
    while pos + 3 <= end
      invariant WalkNames(data, pos, end) == WalkNames(data, start, end)
      decreases end - pos
    {
      var nameType := data[pos];
      var nameLen := U16(data, pos + 1);
      pos := pos + 3;
      if pos + nameLen > end {
        return Return([]);
      }
      if nameType == 0 {
        return Return(AsciiLower(data[pos..pos + nameLen]));
      }
      pos := pos + nameLen;
    }
    return Continue;
  }

  // ---------------------------------------------------------------- serialisation

  datatype NameEntry = NameEntry(kind: Byte, name: seq<Byte>)

  datatype Extension = Other(kind: nat, body: seq<Byte>) | ServerName(names: seq<NameEntry>)

  datatype Hello = Hello(
    version: seq<Byte>, random: seq<Byte>, session: seq<Byte>,
    ciphers: seq<Byte>, compression: seq<Byte>, extensions: seq<Extension>)

  // The big-endian bytes of a number.
  ghost function Put16(n: nat): (b: seq<Byte>)
    requires n < 65536
    ensures |b| == 2 && U16(b, 0) == n
  {
    assert U16([n / 256, n % 256], 0) == n;
    var b: seq<Byte> :| |b| == 2 && U16(b, 0) == n;
    b
  }

  ghost function Put24(n: nat): (b: seq<Byte>)
    requires n < 16777216
    ensures |b| == 3 && U24(b, 0) == n
  {
    assert U24([n / 65536, n / 256 % 256, n % 256], 0) == n;
    var b: seq<Byte> :| |b| == 3 && U24(b, 0) == n;
    b
  }

  // A vector behind a one-byte or a two-byte length, and what follows it.
  ghost function Vec8(v: seq<Byte>, rest: seq<Byte>): seq<Byte>
    requires |v| < 256
  {
    [|v|] + (v + rest)
  }

  ghost function Vec16(v: seq<Byte>, rest: seq<Byte>): seq<Byte>
    requires |v| < 65536
  {
    Put16(|v|) + (v + rest)
  }

  ghost function Last16(v: seq<Byte>): seq<Byte>
    requires |v| < 65536
  {
    Put16(|v|) + v
  }

  predicate FitsName(e: NameEntry) { |e.name| < 65536 }

  predicate FitNames(names: seq<NameEntry>) { forall i :: 0 <= i < |names| ==> FitsName(names[i]) }

  ghost function EncodeNames(names: seq<NameEntry>): seq<Byte>
    requires FitNames(names)
  {
    if names == [] then [] else [names[0].kind] + Vec16(names[0].name, EncodeNames(names[1..]))
  }

  ghost predicate FitsExtension(e: Extension) {
    match e
    case Other(kind, body) => 0 < kind < 65536 && |body| < 65536
    case ServerName(names) => FitNames(names) && |EncodeNames(names)| < 65534
  }

  ghost function ExtensionBody(e: Extension): (b: seq<Byte>)
    requires FitsExtension(e)
    ensures |b| < 65536
  {
    match e
    case Other(_, body) => body
    case ServerName(names) => Last16(EncodeNames(names))
  }

  function Kind(e: Extension): nat { if e.Other? then e.kind else 0 }

  ghost predicate FitExtensions(es: seq<Extension>) { forall i :: 0 <= i < |es| ==> FitsExtension(es[i]) }

  ghost function EncodeExtensions(es: seq<Extension>): seq<Byte>
    requires FitExtensions(es)
  {
    if es == [] then [] else Put16(Kind(es[0])) + Vec16(ExtensionBody(es[0]), EncodeExtensions(es[1..]))
  }

  ghost predicate Fits(h: Hello) {
    && |h.version| == 2 && |h.random| == 32 && |h.session| < 256
    && |h.ciphers| < 65536 && |h.compression| < 256
    && FitExtensions(h.extensions) && |EncodeExtensions(h.extensions)| < 65536
  }

  // The handshake body around any extension bytes.
  ghost function Body(fixed: seq<Byte>, session: seq<Byte>, ciphers: seq<Byte>, compression: seq<Byte>, ext: seq<Byte>): seq<Byte>
    requires |session| < 256 && |ciphers| < 65536 && |compression| < 256 && |ext| < 65536
  {
    fixed + Vec8(session, Vec16(ciphers, Vec8(compression, Last16(ext))))
  }

  ghost function HandshakeBody(h: Hello): seq<Byte>
    requires Fits(h)
  {
    Body(h.version + h.random, h.session, h.ciphers, h.compression, EncodeExtensions(h.extensions))
  }

  // One TLS record holding the whole hello.
  ghost predicate OneRecord(h: Hello) { Fits(h) && |HandshakeBody(h)| + 4 < 65536 }

  ghost function RecordFront(recordVersion: seq<Byte>, length: nat): (front: seq<Byte>)
    requires |recordVersion| == 2 && length + 4 < 65536
    ensures |front| == 9 && front[0] == 0x16 && front[5] == 0x01 && U24(front, 6) == length
  {
    [0x16] + recordVersion + Put16(length + 4) + [0x01] + Put24(length)
  }

  ghost function Encode(recordVersion: seq<Byte>, h: Hello): seq<Byte>
    requires |recordVersion| == 2 && OneRecord(h)
  {
    RecordFront(recordVersion, |HandshakeBody(h)|) + HandshakeBody(h)
  }

  // ---------------------------------------------------------------- reading back

  // What the hello asks for: the first host_name of the first list that has one.
  function Requested(es: seq<Extension>): seq<Byte> {
    if es == [] then []
    else Otherwise(HostOf(es[0]), Requested(es[1..]))
  }

  function HostOf(e: Extension): Search { if e.Other? then Continue else FirstHost(e.names) }

  function FirstHost(names: seq<NameEntry>): Search {
    if names == [] then Continue
    else if names[0].kind == 0 then Return(AsciiLower(names[0].name))
    else FirstHost(names[1..])
  }

  lemma ByteAt(data: seq<Byte>, pos: nat, end: nat, b: Byte, rest: seq<Byte>)
    requires Here(data, pos, end, [b] + rest)
    ensures pos + 1 <= end && data[pos] == b && Here(data, pos + 1, end, rest)
  {
    Split(data, pos, end, [b], rest);
    assert Nth([b], 0) == data[pos];
  }

  lemma U16At(data: seq<Byte>, pos: nat, end: nat, n: nat, rest: seq<Byte>)
    requires n < 65536 && Here(data, pos, end, Put16(n) + rest)
    ensures pos + 2 <= end && U16(data, pos) == n && Here(data, pos + 2, end, rest)
  {
    var b := Put16(n);
    Split(data, pos, end, b, rest);
    assert Nth(b, 0) == data[pos] && Nth(b, 1) == data[pos + 1];
  }

  lemma Vec8At(data: seq<Byte>, pos: nat, end: nat, v: seq<Byte>, rest: seq<Byte>)
    requires |v| < 256 && Here(data, pos, end, Vec8(v, rest))
    ensures pos + 1 + |v| <= end && data[pos] == |v|
    ensures Here(data, pos + 1, pos + 1 + |v|, v) && Here(data, pos + 1 + |v|, end, rest)
  {
    ByteAt(data, pos, end, |v|, v + rest);
    Split(data, pos + 1, end, v, rest);
  }

  lemma Vec16At(data: seq<Byte>, pos: nat, end: nat, v: seq<Byte>, rest: seq<Byte>)
    requires |v| < 65536 && Here(data, pos, end, Vec16(v, rest))
    ensures pos + 2 + |v| <= end && U16(data, pos) == |v|
    ensures Here(data, pos + 2, pos + 2 + |v|, v) && Here(data, pos + 2 + |v|, end, rest)
  {
    U16At(data, pos, end, |v|, v + rest);
    Split(data, pos + 2, end, v, rest);
  }

  lemma NameStep(data: seq<Byte>, pos: nat, end: nat, kind: Byte, name: seq<Byte>, rest: seq<Byte>)
    requires |name| < 65536 && Here(data, pos, end, [kind] + Vec16(name, rest))
    ensures pos + 3 + |name| <= end && Here(data, pos + 3 + |name|, end, rest)
    ensures WalkNames(data, pos, end) == if kind == 0 then Return(AsciiLower(name)) else WalkNames(data, pos + 3 + |name|, end)
  {
    ByteAt(data, pos, end, kind, Vec16(name, rest));
    Vec16At(data, pos + 1, end, name, rest);
    forall i | 0 <= i < |name| ensures data[pos + 3 + i] == name[i] {
      assert Nth(name, i) == name[i];
    }
    assert data[pos + 3..pos + 3 + |name|] == name;
  }

  lemma {:induction false} NamesReadBack(data: seq<Byte>, pos: nat, end: nat, names: seq<NameEntry>)
    requires FitNames(names) && Here(data, pos, end, EncodeNames(names))
    ensures WalkNames(data, pos, end) == FirstHost(names)
    decreases |names|
  {
    if names != [] {
      NameStep(data, pos, end, names[0].kind, names[0].name, EncodeNames(names[1..]));
      NamesReadBack(data, pos + 3 + |names[0].name|, end, names[1..]);
    }
  }

  lemma ExtensionHeader(data: seq<Byte>, pos: nat, end: nat, kind: nat, body: seq<Byte>, rest: seq<Byte>)
    requires kind < 65536 && |body| < 65536
    requires Here(data, pos, end, Put16(kind) + Vec16(body, rest))
    ensures pos + 4 + |body| <= end && U16(data, pos) == kind && U16(data, pos + 2) == |body|
    ensures Here(data, pos + 4, pos + 4 + |body|, body) && Here(data, pos + 4 + |body|, end, rest)
  {
    U16At(data, pos, end, kind, Vec16(body, rest));
    Vec16At(data, pos + 2, end, body, rest);
  }

  // Extension `e` stands in the bytes from `pos` to `next`.
  ghost predicate ExtensionHere(data: seq<Byte>, pos: nat, next: nat, e: Extension) {
    && FitsExtension(e) && pos + 4 <= next <= |data| && U16(data, pos) == Kind(e) && pos + 4 + U16(data, pos + 2) == next
    && match e
       case Other(_, _) => true
       case ServerName(names) =>
         pos + 6 <= next && pos + 6 + U16(data, pos + 4) == next && Here(data, pos + 6, next, EncodeNames(names))
  }

  ghost predicate ExtensionsHere(data: seq<Byte>, pos: nat, end: nat, es: seq<Extension>)
    decreases |es|
  {
    if es == [] then pos == end <= |data|
    else exists next: nat :: next <= end && ExtensionHere(data, pos, next, es[0]) && ExtensionsHere(data, next, end, es[1..])
  }

  lemma ExtensionLaid(data: seq<Byte>, pos: nat, end: nat, e: Extension, rest: seq<Byte>) returns (next: nat)
    requires FitsExtension(e) && Here(data, pos, end, Put16(Kind(e)) + Vec16(ExtensionBody(e), rest))
    ensures next <= end && ExtensionHere(data, pos, next, e) && Here(data, next, end, rest)
  {
    next := pos + 4 + |ExtensionBody(e)|;
    ExtensionHeader(data, pos, end, Kind(e), ExtensionBody(e), rest);
    if e.ServerName? {
      U16At(data, pos + 4, next, |EncodeNames(e.names)|, EncodeNames(e.names));
    }
  }

  lemma {:induction false} ExtensionsLaid(data: seq<Byte>, pos: nat, end: nat, es: seq<Extension>)
    requires FitExtensions(es) && Here(data, pos, end, EncodeExtensions(es))
    ensures ExtensionsHere(data, pos, end, es)
    decreases |es|
  {
    if es != [] {
      var next := ExtensionLaid(data, pos, end, es[0], EncodeExtensions(es[1..]));
      ExtensionsLaid(data, next, end, es[1..]);
    }
  }

  // What one extension makes of the walk: found there, or left to the others.
  lemma ExtensionStep(data: seq<Byte>, pos: nat, next: nat, end: nat, e: Extension)
    requires ExtensionHere(data, pos, next, e) && next <= end <= |data|
    ensures WalkExtensions(data, pos, end) == Otherwise(HostOf(e), WalkExtensions(data, next, end))
  {
    if e.ServerName? {
      NamesReadBack(data, pos + 6, next, e.names);
    }
  }

  lemma {:induction false} ExtensionsReadBack(data: seq<Byte>, pos: nat, end: nat, es: seq<Extension>)
    requires end <= |data| && ExtensionsHere(data, pos, end, es)
    ensures WalkExtensions(data, pos, end) == Requested(es)
    decreases |es|
  {
    if es != [] {
      var next: nat :| next <= end && ExtensionHere(data, pos, next, es[0]) && ExtensionsHere(data, next, end, es[1..]);
      ExtensionStep(data, pos, next, end, es[0]);
      ExtensionsReadBack(data, next, end, es[1..]);
    }
  }

  lemma TailReadsBack(data: seq<Byte>, pos: nat, end: nat, compression: seq<Byte>, ext: seq<Byte>)
    requires |compression| < 256 && |ext| < 65536
    requires Here(data, pos, end, Vec8(compression, Last16(ext)))
    ensures pos < end && data[pos] == |compression| && pos + 3 + |compression| + |ext| == end
    ensures U16(data, pos + 1 + |compression|) == |ext| && Here(data, pos + 3 + |compression|, end, ext)
  {
    Vec8At(data, pos, end, compression, Last16(ext));
    U16At(data, pos + 1 + |compression|, end, |ext|, ext);
  }

  lemma HeadReadsBack(data: seq<Byte>, end: nat, fixed: seq<Byte>, session: seq<Byte>, ciphers: seq<Byte>, tail: seq<Byte>)
    requires |fixed| == 34 && |session| < 256 && |ciphers| < 65536 && 9 <= end <= |data|
    requires Here(data, 9, end, fixed + Vec8(session, Vec16(ciphers, tail)))
    ensures 44 <= end && data[43] == |session| && 46 + |session| + |ciphers| <= end
    ensures U16(data, 44 + |session|) == |ciphers| && Here(data, 46 + |session| + |ciphers|, end, tail)
  {
    Split(data, 9, end, fixed, Vec8(session, Vec16(ciphers, tail)));
    Vec8At(data, 43, end, session, Vec16(ciphers, tail));
    Vec16At(data, 44 + |session|, end, ciphers, tail);
  }

  // The fields before the extensions have these sizes, and the whole ends at `end`.
  ghost predicate FieldsHere(data: seq<Byte>, end: nat, session: nat, ciphers: nat, compression: nat) {
    && 44 <= end <= |data| && data[0] == 0x16 && data[5] == 0x01 && 9 + U24(data, 6) == end
    && Value(data[43]) == session && 44 + session + 2 <= end && U16(data, 44 + session) == ciphers
    && 46 + session + ciphers < end && Value(data[46 + session + ciphers]) == compression
    && 49 + session + ciphers + compression <= end
    && 49 + session + ciphers + compression + U16(data, 47 + session + ciphers + compression) == end
  }

  // Whatever the other fields hold, the extension bytes are found behind them.
  lemma FieldsLaid(data: seq<Byte>, end: nat, fixed: seq<Byte>, session: seq<Byte>, ciphers: seq<Byte>, compression: seq<Byte>, ext: seq<Byte>)
    requires |fixed| == 34 && |session| < 256 && |ciphers| < 65536 && |compression| < 256 && |ext| < 65536
    requires 9 <= end <= |data| && data[0] == 0x16 && data[5] == 0x01 && 9 + U24(data, 6) == end
    requires Here(data, 9, end, Body(fixed, session, ciphers, compression, ext))
    ensures FieldsHere(data, end, |session|, |ciphers|, |compression|)
    ensures Here(data, 49 + |session| + |ciphers| + |compression|, end, ext)
  {
    HeadReadsBack(data, end, fixed, session, ciphers, Vec8(compression, Last16(ext)));
    TailReadsBack(data, 46 + |session| + |ciphers|, end, compression, ext);
  }

  // The cursor moves over the fields to the extensions.
  lemma FieldsLeadTo(data: seq<Byte>, end: nat, session: nat, ciphers: nat, compression: nat)
    requires FieldsHere(data, end, session, ciphers, compression)
    ensures SniOf(data) == WalkExtensions(data, 49 + session + ciphers + compression, end)
  {
  }

  // Wherever these extension bytes stand, the walk over them finds `host`.
  ghost predicate Carry(ext: seq<Byte>, host: seq<Byte>) {
    forall data, pos, end :: Here(data, pos, end, ext) ==> WalkExtensions(data, pos, end) == host
  }

  lemma ExtensionsCarry(es: seq<Extension>)
    requires FitExtensions(es)
    ensures Carry(EncodeExtensions(es), Requested(es))
  {
    forall data, pos, end | Here(data, pos, end, EncodeExtensions(es)) ensures WalkExtensions(data, pos, end) == Requested(es) {
      ExtensionsLaid(data, pos, end, es);
      ExtensionsReadBack(data, pos, end, es);
    }
  }

  lemma FieldsReadBack(data: seq<Byte>, end: nat, fixed: seq<Byte>, session: seq<Byte>, ciphers: seq<Byte>, compression: seq<Byte>, ext: seq<Byte>, host: seq<Byte>)
    requires |fixed| == 34 && |session| < 256 && |ciphers| < 65536 && |compression| < 256 && |ext| < 65536
    requires 9 <= end <= |data| && data[0] == 0x16 && data[5] == 0x01 && 9 + U24(data, 6) == end
    requires Here(data, 9, end, Body(fixed, session, ciphers, compression, ext)) && Carry(ext, host)
    ensures SniOf(data) == host
  {
    FieldsLaid(data, end, fixed, session, ciphers, compression, ext);
    FieldsLeadTo(data, end, |session|, |ciphers|, |compression|);
  }

  lemma RecordReadsBack(front: seq<Byte>, body: seq<Byte>, trailing: seq<Byte>)
    requires |front| == 9
    ensures var data := front + body + trailing;
            data[0] == front[0] && data[5] == front[5] && U24(data, 6) == U24(front, 6) && Here(data, 9, 9 + |body|, body)
  {
  }

  /** For every hello that fits in one record, whatever its extensions and wherever the
      server name stands, and whatever follows the record: parsing the serialised bytes
      returns the first host name it carries, lower-cased. */
  lemma HelloReadsBack(recordVersion: seq<Byte>, h: Hello, trailing: seq<Byte>)
    requires |recordVersion| == 2 && OneRecord(h)
    ensures SniOf(Encode(recordVersion, h) + trailing) == Requested(h.extensions)
  {
    var front, body := RecordFront(recordVersion, |HandshakeBody(h)|), HandshakeBody(h);
    RecordReadsBack(front, body, trailing);
    ExtensionsCarry(h.extensions);
    FieldsReadBack(front + body + trailing, 9 + |body|, h.version + h.random, h.session, h.ciphers, h.compression,
                   EncodeExtensions(h.extensions), Requested(h.extensions));
  }

  // The ordinary case: one server name extension with one ASCII host name.
  lemma {:induction false} SingleHostRequested(before: seq<Extension>, name: seq<Byte>, after: seq<Extension>)
    requires forall i :: 0 <= i < |before| ==> before[i].Other?
    ensures Requested(before + [ServerName([NameEntry(0, name)])] + after) == AsciiLower(name)
    decreases |before|
  {
    var es := before + [ServerName([NameEntry(0, name)])] + after;
    if before != [] {
      assert es[1..] == before[1..] + [ServerName([NameEntry(0, name)])] + after;
      SingleHostRequested(before[1..], name, after);
    }
  }

  lemma {:induction false} AsciiLowerOfAscii(name: seq<Byte>)
    requires forall i :: 0 <= i < |name| ==> name[i] < 128
    ensures |AsciiLower(name)| == |name| && forall i :: 0 <= i < |name| ==> AsciiLower(name)[i] == LowerByte(name[i])
  {
    if name != [] {
      AsciiLowerOfAscii(name[1..]);
    }
  }
}
