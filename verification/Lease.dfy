/** The maintenance lease as a value, and what one call of the daemon does to it.

    A lease lives in two places: the daemon's memory (`drainToken`, `drainUntil`) and
    the file `maintenance.lease`.  `Store` holds both.  The functions below say what a
    whole call does to the pair, with every clock reading and every outcome of a file
    operation as an argument.  `ServiceDaemon` implements them, and the step system
    of `LeaseProtocol` splits them at every point where the daemon may be killed. */
module Lease {
  import opened Wrappers
  type Token = string

  // maintenanceDrainTTL, in nanoseconds.
  const TTL: int := 60_000_000_000

  // The zero time.Time that an empty lease carries; every real reading is later.
  const ZERO_TIME: int := 0

  predicate LowerHex(c: char) { '0' <= c <= '9' || 'a' <= c <= 'f' }

  predicate ValidToken(token: Token) {
    |token| == 64 && forall i :: 0 <= i < |token| ==> LowerHex(token[i])
  }

  datatype Lease = Lease(token: Token, until: int)

  // The in-memory pair; the empty token stands for "no lease".
  datatype Memory = Memory(token: Token, until: int)

  const NO_LEASE := Memory("", ZERO_TIME)

  datatype Store = Store(mem: Memory, file: Option<Lease>)

  function Remember(lease: Lease): Memory { Memory(lease.token, lease.until) }

  // What admission decides: the token field first, then the deadline.
  predicate Draining(mem: Memory, now: int) { mem.token != "" && now < mem.until }

  // What ping reports: the deadline alone, read without the mutation lock.
  predicate PingActive(mem: Memory, now: int) { now < mem.until }

  predicate Unexpired(file: Option<Lease>, now: int) { file.Some? && now < file.value.until }

  predicate Accepts(mem: Memory, token: Token, now: int) {
    Draining(mem, now) && token != "" && token == mem.token
  }

  // drainActive: an expired lease is cleared in memory even if its file cannot be removed.
  function ObserveExpiry(s: Store, now: int, unlinked: bool): Store {
    if s.mem.token == "" || now < s.mem.until then s
    else Store(NO_LEASE, if unlinked then None else s.file)
  }

  // drain, reached only after admission found no live lease.
  function DrainCall(s: Store, idle: bool, minted: Option<Token>, now: int, persisted: bool): (r: (Option<Token>, Store)) {
    if idle && minted.Some? && persisted
    then (minted, Store(Memory(minted.value, now + TTL), Some(Lease(minted.value, now + TTL))))
    else (None, s)
  }

  function UndrainCall(s: Store, token: Token, now: int, swept: bool, unlinked: bool): (r: (bool, Store)) {
    if !Accepts(s.mem, token, now) then (false, ObserveExpiry(s, now, swept))
    else if unlinked then (true, Store(NO_LEASE, None))
    else (false, s)
  }

  // The three clock readings of one renewal: the ownership check, the second check
  // under the idle locks, and the one the new deadline is computed from.
  datatype RenewTimes = RenewTimes(check: int, recheck: int, stamp: int)

  function RenewCall(s: Store, token: Token, t: RenewTimes, swept: bool, idle: bool, reswept: bool, persisted: bool): (r: (bool, Store)) {
    if !Accepts(s.mem, token, t.check) then (false, ObserveExpiry(s, t.check, swept))
    else if !idle then (false, s)
    else if !Accepts(s.mem, token, t.recheck) then (false, ObserveExpiry(s, t.recheck, reswept))
    else if !persisted then (false, s)
    else (true, Store(Memory(token, t.stamp + TTL), Some(Lease(token, t.stamp + TTL))))
  }

  // What startup can find: storage it refuses to read, no file, bytes that do not
  // decode to a lease, or a decoded lease.
  datatype Found = Unsafe | Absent | Malformed | Decoded(lease: Lease)

  predicate Restorable(found: Found, now: int) {
    found.Decoded? && ValidToken(found.lease.token) && now < found.lease.until
  }

  function RestoreMemory(found: Found, now: int): Memory {
    if Restorable(found, now) then Remember(found.lease) else NO_LEASE
  }

  // The lease file after startup: discarded when unusable, left alone when unsafe.
  function RestoreFile(file: Option<Lease>, found: Found, now: int, unlinked: bool): Option<Lease> {
    if found.Unsafe? || found.Absent? || Restorable(found, now) || !unlinked then file else None
  }

  // What untampered storage shows at startup.
  function Find(file: Option<Lease>): Found {
    if file.Some? then Decoded(file.value) else Absent
  }
}
