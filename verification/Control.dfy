/** Descriptors passed over the daemon's socket: the control-message walker on Darwin's
    layout, and the accounting for every descriptor while a request is read. */
module Control {
  import opened Wrappers
  import opened Bytes

  // cmsghdr on Darwin: three 32-bit words, payloads padded to 4 bytes, little-endian.
  const HEADER: nat := 12
  const SOL_SOCKET: nat := 0xffff
  const SCM_RIGHTS: nat := 1
  const WORD: nat := 0x1_0000_0000
  const SIGN: nat := 0x8000_0000

  function U32(data: seq<Byte>, pos: nat): (n: nat)
    requires pos + 4 <= |data|
    ensures n < WORD
  {
    Value(data[pos]) + 256 * Value(data[pos + 1]) + 65536 * Value(data[pos + 2]) + 16777216 * Value(data[pos + 3])
  }

  function Align(n: nat): (a: nat)
    ensures n <= a < n + 4
  {
    (n + 3) / 4 * 4
  }

  // What a walker sees of a buffer: the word at every position.
  type Words = nat -> nat

  function Reader(data: seq<Byte>): Words { (p: nat) => if p + 4 <= |data| then U32(data, p) else 0 }

  // The complete descriptor slots between `offset` and `end` that hold a non-negative int32.
  function Slots(w: Words, offset: nat, end: nat): seq<nat>
    decreases end - offset
  {
    if offset + 4 > end then []
    else Kept(w(offset)) + Slots(w, offset + 4, end)
  }

  function Kept(fd: nat): seq<nat> { if fd < SIGN then [fd] else [] }

  // The descriptors of the message at `pos`, and the distance to the next one.
  function Own(w: Words, pos: nat, end: nat): seq<nat>
    requires pos + HEADER <= end
  {
    if w(pos + 4) == SOL_SOCKET && w(pos + 8) == SCM_RIGHTS
    then Slots(w, pos + HEADER, Min(pos + w(pos), end)) else []
  }

  function Step(messageLen: nat): (n: nat)
    requires messageLen >= HEADER
    ensures messageLen <= n
  {
    HEADER + Align(messageLen - HEADER)
  }

  // Every descriptor found from `pos` on in the bytes before `end`, in order.
  function Walk(w: Words, pos: nat, end: nat): seq<nat>
    decreases end - pos
  {
    if pos + HEADER > end || w(pos) < HEADER then []
    else Own(w, pos, end) + After(w, pos + Step(w(pos)), pos, end)
  }

  function After(w: Words, next: nat, pos: nat, end: nat): seq<nat>
    requires pos < next && pos < end
    decreases end - pos, 0
  {
    if next > end then [] else Walk(w, next, end)
  }

  function Rights(oob: seq<Byte>): seq<nat> { Walk(Reader(oob), 0, |oob|) }

  /** rightsFromControl, with a cursor for the rest of the buffer: terminates and stays in
      bounds on any buffer. */
  method RightsFromControl(oob: seq<Byte>) returns (fds: seq<nat>)
    ensures fds == Rights(oob)
  {
    fds := [];
    var pos, end := 0, |oob|;
    ghost var all := Rights(oob);
    RightsLeadTo(oob);
    while pos + HEADER <= end
      invariant pos <= end && Leads(fds, Reader(oob), pos, end, all)
      decreases end - pos
    {
      var more;
      fds, pos, more := ReadMessage(oob, pos, fds, all);
      if !more {
        return;
      }
    }
  }

  // One round of the loop: the descriptors of the message at `pos`, and whether to go on.
  method ReadMessage(oob: seq<Byte>, pos: nat, fds: seq<nat>, ghost all: seq<nat>)
    returns (fds': seq<nat>, next: nat, more: bool)
    requires pos + HEADER <= |oob| && Leads(fds, Reader(oob), pos, |oob|, all)
    ensures pos <= next && if more then pos < next <= |oob| && Leads(fds', Reader(oob), next, |oob|, all) else fds' == all
  {
    var messageLen := ReadWord(oob, pos);
    if messageLen < HEADER {
      return fds, pos, false;
    }
    var own := ReadOwn(oob, pos, |oob|);
    next := pos + HEADER + Align(messageLen - HEADER);
    LeadsOn(fds, own, Reader(oob), pos, next, |oob|, all);
    return fds + own, next, next <= |oob|;
  }

  method ReadWord(data: seq<Byte>, pos: nat) returns (n: nat)
    requires pos + 4 <= |data|
    ensures n == Reader(data)(pos)
  {
    n := U32(data, pos);
  }

  // With `fds` found before `pos`, the walk ends with `all`.
  ghost predicate Leads(fds: seq<nat>, w: Words, pos: nat, end: nat, all: seq<nat>)
    decreases end - pos
  {
    if pos + HEADER > end || w(pos) < HEADER then all == fds
    else
      var more := fds + Own(w, pos, end);
      if pos + Step(w(pos)) > end then all == more else Leads(more, w, pos + Step(w(pos)), end, all)
  }

  lemma LeadsOn(fds: seq<nat>, own: seq<nat>, w: Words, pos: nat, next: nat, end: nat, all: seq<nat>)
    requires Leads(fds, w, pos, end, all) && pos + HEADER <= end && w(pos) >= HEADER
    requires own == Own(w, pos, end) && next == pos + Step(w(pos))
    ensures if next > end then all == fds + own else Leads(fds + own, w, next, end, all)
  {
  }

  lemma {:induction false} WalkLeads(fds: seq<nat>, w: Words, pos: nat, end: nat, all: seq<nat>)
    requires all == fds + Walk(w, pos, end)
    ensures Leads(fds, w, pos, end, all)
    decreases end - pos
  {
    if pos + HEADER <= end && w(pos) >= HEADER {
      var next := pos + Step(w(pos));
      Associate(fds, Own(w, pos, end), After(w, next, pos, end));
      if next <= end {
        WalkLeads(fds + Own(w, pos, end), w, next, end, all);
      }
    }
  }

  lemma RightsLeadTo(oob: seq<Byte>)
    ensures Leads([], Reader(oob), 0, |oob|, Rights(oob))
  {
    Nothing(Rights(oob));
    WalkLeads([], Reader(oob), 0, |oob|, Rights(oob));
  }

  method ReadOwn(data: seq<Byte>, pos: nat, end: nat) returns (own: seq<nat>)
    requires pos + HEADER <= end <= |data|
    ensures own == Own(Reader(data), pos, end)
  {
    own := [];
    var level := ReadWord(data, pos + 4);
    var kind := ReadWord(data, pos + 8);
    if level == SOL_SOCKET && kind == SCM_RIGHTS {
      var messageLen := ReadWord(data, pos);
      own := ReadSlots(data, pos + HEADER, Min(pos + messageLen, end));
    }
  }

  method ReadSlots(data: seq<Byte>, start: nat, end: nat) returns (fds: seq<nat>)
    requires end <= |data|
    ensures fds == Slots(Reader(data), start, end)
  {
    fds := [];
    var offset := start;
    ghost var all := Slots(Reader(data), start, end);
    Nothing(all);
    SlotsLead([], Reader(data), start, end, all);
    while offset + 4 <= end
      invariant LeadsSlots(fds, Reader(data), offset, end, all)
      decreases end - offset
    {
      var fd := ReadWord(data, offset);
      if fd < SIGN {
        fds := fds + [fd];
      }
      offset := offset + 4;
    }
  }

  ghost predicate LeadsSlots(fds: seq<nat>, w: Words, offset: nat, end: nat, all: seq<nat>)
    decreases end - offset
  {
    if offset + 4 > end then all == fds
    else LeadsSlots(if w(offset) < SIGN then fds + [w(offset)] else fds, w, offset + 4, end, all)
  }

  lemma {:induction false} SlotsLead(fds: seq<nat>, w: Words, offset: nat, end: nat, all: seq<nat>)
    requires all == fds + Slots(w, offset, end)
    ensures LeadsSlots(fds, w, offset, end, all)
    decreases end - offset
  {
    if offset + 4 <= end {
      Associate(fds, Kept(w(offset)), Slots(w, offset + 4, end));
      Nothing(fds);
      SlotsLead(fds + Kept(w(offset)), w, offset + 4, end, all);
    }
  }

  // ---------------------------------------------------------------- truncation

  // With fewer bytes available, a walk finds a prefix; `more` is what it misses.
  lemma {:induction false} SlotsOfPrefix(w: Words, offset: nat, k: nat, end: nat) returns (more: seq<nat>)
    requires k <= end
    ensures Slots(w, offset, end) == Slots(w, offset, k) + more
    decreases end - offset
  {
    if offset + 4 <= k {
      more := SlotsOfPrefix(w, offset + 4, k, end);
      Associate(Kept(w(offset)), Slots(w, offset + 4, k), more);
    } else {
      more := Slots(w, offset, end);
      Nothing(more);
    }
  }

  lemma Nothing(a: seq<nat>)
    ensures [] + a == a && a + [] == a
  {
  }

  lemma OwnOfPrefix(w: Words, pos: nat, k: nat, end: nat) returns (more: seq<nat>)
    requires pos + HEADER <= k <= end
    ensures Own(w, pos, end) == Own(w, pos, k) + more
    ensures pos + w(pos) <= k ==> Own(w, pos, k) == Own(w, pos, end)
  {
    var stop := pos + w(pos);
    more := [];
    if w(pos + 4) == SOL_SOCKET && w(pos + 8) == SCM_RIGHTS {
      more := SlotsOfPrefix(w, pos + HEADER, Min(stop, k), Min(stop, end));
    }
  }

  lemma {:induction false} WalkOfPrefix(w: Words, pos: nat, k: nat, end: nat) returns (more: seq<nat>)
    requires k <= end
    ensures Walk(w, pos, end) == Walk(w, pos, k) + more
    decreases end - pos
  {
    if pos + HEADER > k || w(pos) < HEADER {
      more := Walk(w, pos, end);
      Nothing(more);
    } else {
      var next := pos + Step(w(pos));
      if next > k {
        more := OwnOfPrefix(w, pos, k, end);
        Associate(Own(w, pos, k), more, After(w, next, pos, end));
        Nothing(Own(w, pos, k));
        more := more + After(w, next, pos, end);
      } else {
        var _ := OwnOfPrefix(w, pos, k, end);
        more := WalkOfPrefix(w, next, k, end);
        Associate(Own(w, pos, k), Walk(w, next, k), more);
      }
    }
  }

  // Two buffers read alike before `k`.
  ghost predicate AgreeUpTo(a: Words, b: Words, k: nat) {
    forall p: nat :: p + 4 <= k ==> a(p) == b(p)
  }

  lemma {:induction false} SlotsAgree(a: Words, b: Words, k: nat, offset: nat, end: nat)
    requires AgreeUpTo(a, b, k) && end <= k
    ensures Slots(a, offset, end) == Slots(b, offset, end)
    decreases end - offset
  {
    if offset + 4 <= end {
      SlotsAgree(a, b, k, offset + 4, end);
    }
  }

  lemma OwnAgrees(a: Words, b: Words, k: nat, pos: nat)
    requires AgreeUpTo(a, b, k) && pos + HEADER <= k
    ensures Own(a, pos, k) == Own(b, pos, k)
  {
    SlotsAgree(a, b, k, pos + HEADER, Min(pos + a(pos), k));
  }

  lemma {:induction false} WalkAgrees(a: Words, b: Words, k: nat, pos: nat)
    requires AgreeUpTo(a, b, k)
    ensures Walk(a, pos, k) == Walk(b, pos, k)
    decreases k - pos
  {
    if pos + HEADER <= k {
      OwnAgrees(a, b, k, pos);
      if a(pos) >= HEADER && pos + Step(a(pos)) <= k {
        WalkAgrees(a, b, k, pos + Step(a(pos)));
      }
    }
  }

  /** A truncated buffer yields a prefix of what the whole buffer yields: no descriptor is
      invented, skipped or reordered. */
  lemma TruncationGivesPrefix(oob: seq<Byte>, k: nat)
    requires k <= |oob|
    ensures Rights(oob[..k]) <= Rights(oob)
  {
    WalkAgrees(Reader(oob[..k]), Reader(oob), k, 0);
    var more := WalkOfPrefix(Reader(oob), 0, k, |oob|);
  }

  // ---------------------------------------------------------------- round trip

  datatype Message = Passed(fds: seq<nat>) | Unrelated(level: nat, kind: nat, payload: seq<Byte>)

  predicate Descriptors(fds: seq<nat>) { forall i :: 0 <= i < |fds| ==> fds[i] < SIGN }

  predicate Encodable(m: Message) {
    match m
    case Passed(fds) => Descriptors(fds) && HEADER + 4 * |fds| < WORD
    case Unrelated(level, kind, payload) =>
      level < WORD && kind < WORD && !(level == SOL_SOCKET && kind == SCM_RIGHTS) && HEADER + |payload| < WORD
  }

  function FourBytes(n: nat): (b: seq<Byte>)
    requires n < WORD
    ensures |b| == 4 && U32(b, 0) == n
  {
    var n1 := n / 256;
    var n2 := n1 / 256;
    [n % 256, n1 % 256, n2 % 256, n2 / 256]
  }

  // The little-endian bytes of a number.
  ghost function Put32(n: nat): (b: seq<Byte>)
    requires n < WORD
    ensures |b| == 4 && U32(b, 0) == n
  {
    assert U32(FourBytes(n), 0) == n;
    var b: seq<Byte> :| |b| == 4 && U32(b, 0) == n;
    b
  }

  ghost function PutAll(fds: seq<nat>): (b: seq<Byte>)
    requires Descriptors(fds)
    ensures |b| == 4 * |fds|
  {
    if fds == [] then [] else Put32(fds[0]) + PutAll(fds[1..])
  }

  ghost function Payload(m: Message): (p: seq<Byte>)
    requires Encodable(m)
    ensures HEADER + |p| < WORD
  {
    if m.Passed? then PutAll(m.fds) else m.payload
  }

  function Level(m: Message): nat { if m.Passed? then SOL_SOCKET else m.level }

  function Kind(m: Message): nat { if m.Passed? then SCM_RIGHTS else m.kind }

  function Passing(m: Message): seq<nat> { if m.Passed? then m.fds else [] }

  function Padding(n: nat): seq<Byte> { seq(Align(n) - n, _ => 0) }

  // A header, a padded payload, and what follows.
  ghost function Framed(level: nat, kind: nat, payload: seq<Byte>, rest: seq<Byte>): seq<Byte>
    requires level < WORD && kind < WORD && HEADER + |payload| < WORD
  {
    Put32(HEADER + |payload|) + (Put32(level) + (Put32(kind) + (payload + (Padding(|payload|) + rest))))
  }

  ghost function Encode(ms: seq<Message>): seq<Byte>
    requires forall i :: 0 <= i < |ms| ==> Encodable(ms[i])
  {
    if ms == [] then [] else Framed(Level(ms[0]), Kind(ms[0]), Payload(ms[0]), Encode(ms[1..]))
  }

  function Sent(ms: seq<Message>): seq<nat> {
    if ms == [] then [] else Passing(ms[0]) + Sent(ms[1..])
  }

  lemma U32At(data: seq<Byte>, pos: nat, end: nat, n: nat, rest: seq<Byte>)
    requires n < WORD && Here(data, pos, end, Put32(n) + rest)
    ensures pos + 4 <= end && U32(data, pos) == n && Here(data, pos + 4, end, rest)
  {
    var b := Put32(n);
    Split(data, pos, end, b, rest);
    assert Nth(b, 0) == data[pos] && Nth(b, 1) == data[pos + 1] && Nth(b, 2) == data[pos + 2] && Nth(b, 3) == data[pos + 3];
  }

  lemma {:induction false} SlotsReadBack(data: seq<Byte>, pos: nat, end: nat, fds: seq<nat>)
    requires Descriptors(fds) && Here(data, pos, end, PutAll(fds))
    ensures Slots(Reader(data), pos, end) == fds
    decreases |fds|
  {
    if fds != [] {
      U32At(data, pos, end, fds[0], PutAll(fds[1..]));
      SlotsReadBack(data, pos + 4, end, fds[1..]);
    }
  }

  lemma FrameAt(data: seq<Byte>, pos: nat, end: nat, level: nat, kind: nat, payload: seq<Byte>, rest: seq<Byte>)
    requires level < WORD && kind < WORD && HEADER + |payload| < WORD
    requires Here(data, pos, end, Framed(level, kind, payload, rest))
    ensures var len := HEADER + |payload|; var next := pos + Step(len);
            && pos + len <= next <= end && U32(data, pos) == len && U32(data, pos + 4) == level && U32(data, pos + 8) == kind
            && Here(data, pos + HEADER, pos + len, payload) && Here(data, next, end, rest)
  {
    var padded := payload + (Padding(|payload|) + rest);
    U32At(data, pos, end, HEADER + |payload|, Put32(level) + (Put32(kind) + padded));
    U32At(data, pos + 4, end, level, Put32(kind) + padded);
    U32At(data, pos + 8, end, kind, padded);
    Split(data, pos + 12, end, payload, Padding(|payload|) + rest);
    Split(data, pos + 12 + |payload|, end, Padding(|payload|), rest);
  }

  // Wherever these bytes stand, the walk over them finds `fds`.
  ghost predicate Carry(bytes: seq<Byte>, fds: seq<nat>) {
    forall data, pos, end :: Here(data, pos, end, bytes) ==> Walk(Reader(data), pos, end) == fds
  }

  // Wherever a payload stands, its descriptor slots are `fds`.
  ghost predicate Slotted(payload: seq<Byte>, fds: seq<nat>) {
    forall data, pos, end :: Here(data, pos, end, payload) ==> Slots(Reader(data), pos, end) == fds
  }

  lemma FrameCarries(level: nat, kind: nat, payload: seq<Byte>, rest: seq<Byte>, own: seq<nat>, found: seq<nat>)
    requires level < WORD && kind < WORD && HEADER + |payload| < WORD && Carry(rest, found)
    requires if level == SOL_SOCKET && kind == SCM_RIGHTS then Slotted(payload, own) else own == []
    ensures Carry(Framed(level, kind, payload, rest), own + found)
  {
    forall data, pos, end | Here(data, pos, end, Framed(level, kind, payload, rest)) ensures Walk(Reader(data), pos, end) == own + found {
      FrameAt(data, pos, end, level, kind, payload, rest);
      assert Own(Reader(data), pos, end) == own;
    }
  }

  lemma PayloadSlotted(m: Message)
    requires Encodable(m) && m.Passed?
    ensures Slotted(Payload(m), m.fds)
  {
    forall data, pos, end | Here(data, pos, end, Payload(m)) ensures Slots(Reader(data), pos, end) == m.fds {
      SlotsReadBack(data, pos, end, m.fds);
    }
  }

  lemma {:induction false} MessagesCarry(ms: seq<Message>)
    requires forall i :: 0 <= i < |ms| ==> Encodable(ms[i])
    ensures Carry(Encode(ms), Sent(ms))
    decreases |ms|
  {
    if ms != [] {
      MessagesCarry(ms[1..]);
      if ms[0].Passed? {
        PayloadSlotted(ms[0]);
      }
      FrameCarries(Level(ms[0]), Kind(ms[0]), Payload(ms[0]), Encode(ms[1..]), Passing(ms[0]), Sent(ms[1..]));
    }
  }

  lemma WholeIsHere(data: seq<Byte>)
    ensures Here(data, 0, |data|, data)
  {
  }

  /** Walking well-formed messages returns exactly the descriptors they pass, in order. */
  lemma MessagesReadBack(ms: seq<Message>)
    requires forall i :: 0 <= i < |ms| ==> Encodable(ms[i])
    ensures Rights(Encode(ms)) == Sent(ms)
  {
    MessagesCarry(ms);
    WholeIsHere(Encode(ms));
  }

  // ---------------------------------------------------------------- reading a request

  const MAX_REQUEST_BYTES: nat := 1048576

  // One successful or failed recvmsg; `parses` is the verdict of the strict parser.
  datatype Received = ReadError | Eof | Message_(data: seq<Byte>, oob: seq<Byte>, parses: bool, truncated: bool)

  // What is found once a whole line is in.
  datatype Judgement = Judgement(
    trailingBlank: bool, decodes: bool, single: bool, knownAction: bool, shaped: bool,
    wantsLog: bool, stats: bool, regular: bool, wraps: bool)

  datatype ReadResult = Refused | Accepted(log: Option<nat>)

  // The descriptors whose numbers the messages received so far show.
  function Visible(messages: seq<Received>): seq<nat> {
    if messages == [] then []
    else Visible(messages[..|messages| - 1]) + (var m := messages[|messages| - 1]; if m.Message_? then Rights(m.oob) else [])
  }

  // What the kernel has installed: the descriptors the peer passed in each message.
  function Delivered(carried: seq<seq<Message>>): seq<nat> {
    if carried == [] then [] else Delivered(carried[..|carried| - 1]) + Sent(carried[|carried| - 1])
  }

  // The control buffer is what the kernel writes for these messages, cut short only if it says so.
  ghost predicate Arrived(m: Received, sent: seq<Message>) {
    && m.Message_? && (forall i :: 0 <= i < |sent| ==> Encodable(sent[i]))
    && m.oob <= Encode(sent) && (!m.truncated ==> m.oob == Encode(sent))
  }

  predicate Whole(m: Received) { m.Message_? && !m.truncated }

  // The message shows a prefix of what it carried, and all of it unless it was cut short.
  ghost predicate Shows(m: Received, sent: seq<Message>) {
    m.Message_? && Rights(m.oob) <= Sent(sent) && (!m.truncated ==> Rights(m.oob) == Sent(sent))
  }

  lemma ArrivedShows(m: Received, sent: seq<Message>)
    requires Arrived(m, sent)
    ensures Shows(m, sent)
  {
    MessagesReadBack(sent);
    TruncationGivesPrefix(Encode(sent), |m.oob|);
    assert Encode(sent)[..|m.oob|] == m.oob;
  }

  lemma VisibleStep(messages: seq<Received>, carried: seq<seq<Message>>)
    requires |messages| == |carried| > 0 && messages[|messages| - 1].Message_?
    ensures Visible(messages) == Visible(messages[..|messages| - 1]) + Rights(messages[|messages| - 1].oob)
    ensures Delivered(carried) == Delivered(carried[..|messages| - 1]) + Sent(carried[|messages| - 1])
  {
  }

  // Messages that arrived whole show everything they carried.
  lemma {:induction false} WholeMessagesShowAll(messages: seq<Received>, carried: seq<seq<Message>>)
    requires |messages| == |carried| && forall i :: 0 <= i < |messages| ==> Shows(messages[i], carried[i]) && Whole(messages[i])
    ensures Visible(messages) == Delivered(carried)
    decreases |messages|
  {
    if messages != [] {
      var n := |messages| - 1;
      WholeMessagesShowAll(messages[..n], carried[..n]);
      VisibleStep(messages, carried);
      assert Shows(messages[n], carried[n]) && Whole(messages[n]);
    }
  }

  // Only the last message may have been cut short, and then it shows a prefix.
  lemma AllButTheLastShowAll(messages: seq<Received>, carried: seq<seq<Message>>)
    requires |messages| == |carried| && forall i :: 0 <= i < |messages| ==> Shows(messages[i], carried[i])
    requires forall i :: 0 <= i < |messages| - 1 ==> Whole(messages[i])
    ensures Visible(messages) <= Delivered(carried)
    ensures messages == [] || Whole(messages[|messages| - 1]) ==> Visible(messages) == Delivered(carried)
  {
    if messages != [] {
      var n := |messages| - 1;
      WholeMessagesShowAll(messages[..n], carried[..n]);
      VisibleStep(messages, carried);
      assert Shows(messages[n], carried[n]);
      PrefixAfter(Delivered(carried[..n]), Rights(messages[n].oob), Sent(carried[n]));
    }
  }

  lemma PrefixAfter(a: seq<nat>, x: seq<nat>, y: seq<nat>)
    requires x <= y
    ensures a + x <= a + y
  {
  }

  /** Whatever arrives and whatever is wrong with it: on every exit each descriptor the kernel
      installed has been closed exactly once or is the one log file returned, and a log file is
      returned exactly for the request that wants one.  Only when the kernel itself cut a control
      buffer short are the closed ones a prefix of those installed; the request is then refused. */
  method ReadRequest(incoming: seq<Received>, j: Judgement, ghost carried: seq<seq<Message>>)
    returns (result: ReadResult, closed: seq<nat>, ghost used: nat)
    requires |carried| == |incoming| && forall i :: 0 <= i < |incoming| && incoming[i].Message_? ==> Arrived(incoming[i], carried[i])
    ensures used <= |incoming|
    ensures result.Refused? ==> closed <= Delivered(carried[..used])
    ensures result.Refused? && closed != Delivered(carried[..used]) ==> used > 0 && incoming[used - 1].Message_? && incoming[used - 1].truncated
    ensures result.Accepted? ==> closed == [] && result.log.Some? == j.wantsLog
    ensures result.Accepted? ==> Delivered(carried[..used]) == if result.log.Some? then [result.log.value] else []
  {
    result, closed, used := ReadVisible(incoming, j);
    forall i | 0 <= i < used ensures Shows(incoming[..used][i], carried[..used][i]) {
      ArrivedShows(incoming[i], carried[i]);
    }
    AllButTheLastShowAll(incoming[..used], carried[..used]);
  }

  /** The same about the descriptors the walker finds, for control buffers of any content. */
  method ReadVisible(incoming: seq<Received>, j: Judgement) returns (result: ReadResult, closed: seq<nat>, ghost used: nat)
    ensures used <= |incoming| && forall i :: 0 <= i < used ==> incoming[i].Message_? && (Whole(incoming[i]) || (i == used - 1 && result.Refused?))
    ensures result.Refused? ==> closed == Visible(incoming[..used])
    ensures result.Accepted? ==> closed == [] && result.log.Some? == j.wantsLog
    ensures result.Accepted? ==> Visible(incoming[..used]) == if result.log.Some? then [result.log.value] else []
  {
    var received, ok;
    received, ok, used := ReceiveLine(incoming);
    if !ok {
      return Refused, received, used;
    }
    result, closed := Judge(received, j);
  }

  // Messages until a line is in or something is wrong.
  method ReceiveLine(incoming: seq<Received>) returns (received: seq<nat>, ok: bool, ghost used: nat)
    ensures used <= |incoming| && received == Visible(incoming[..used])
    ensures forall i :: 0 <= i < used ==> incoming[i].Message_? && (Whole(incoming[i]) || (i == used - 1 && !ok))
  {
    var payload: seq<Byte> := [];
    var i := 0;
    received, ok, used := [], true, 0;
    while ok && NEWLINE !in payload
      invariant 0 <= i <= |incoming| && used == i && received == Visible(incoming[..i])
      invariant forall k :: 0 <= k < i ==> incoming[k].Message_? && (Whole(incoming[k]) || (k == i - 1 && !ok))
      decreases |incoming| - i, ok
    {
      if i == |incoming| || incoming[i].ReadError? || incoming[i].Eof? {
        ok := false;
      } else {
        received := ReceiveNext(incoming, i, received);
        payload, ok := Take(incoming[i], received, payload);
        i := i + 1;
        used := i;
      }
    }
  }

  // The checks on one message; its data joins the payload when they pass.
  method Take(m: Received, received: seq<nat>, payload: seq<Byte>) returns (more: seq<Byte>, ok: bool)
    requires m.Message_?
    ensures ok ==> !m.truncated && |received| <= 1 && (|m.oob| > 0 ==> m.parses) && more == payload + m.data && |more| <= MAX_REQUEST_BYTES
  {
    more := payload;
    if |m.oob| > 0 && !m.parses {
      return more, false;
    }
    if |received| > 1 {
      return more, false;
    }
    if m.truncated {
      return more, false;
    }
    more := payload + m.data;
    ok := |more| <= MAX_REQUEST_BYTES;
  }

  method ReceiveNext(incoming: seq<Received>, i: nat, received: seq<nat>) returns (more: seq<nat>)
    requires i < |incoming| && incoming[i].Message_? && received == Visible(incoming[..i])
    ensures more == Visible(incoming[..i + 1])
  {
    var fds := RightsFromControl(incoming[i].oob);
    more := received + fds;
    assert incoming[..i + 1][..i] == incoming[..i];
  }

  // A whole line is in: the request is judged, and the descriptors are closed or one is kept.
  method Judge(received: seq<nat>, j: Judgement) returns (result: ReadResult, closed: seq<nat>)
    ensures result.Refused? ==> closed == received
    ensures result.Accepted? ==> closed == [] && result.log.Some? == j.wantsLog
    ensures result.Accepted? ==> received == if result.log.Some? then [result.log.value] else []
  {
    if !j.trailingBlank || !j.decodes || !j.single || !j.knownAction || !j.shaped {
      return Refused, received;
    }
    if j.wantsLog && |received| != 1 {
      return Refused, received;
    }
    if !j.wantsLog && |received| != 0 {
      return Refused, received;
    }
    if !j.wantsLog {
      return Accepted(None), [];
    }
    if !j.stats || !j.regular || !j.wraps {
      return Refused, received;
    }
    return Accepted(Some(received[0])), [];
  }
}
