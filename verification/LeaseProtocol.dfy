/** The maintenance lease as a step system: one clock, one lease file, one daemon that
    may be killed between any two of its steps, and any number of connections.

    Handlers are split at every clock reading, every file operation and every write of
    the in-memory lease.  The nondeterminism of a step (which file operation failed,
    which token was drawn) is an argument of the step, so a run is a list of steps and
    the theorems quantify over all lists. */
module LeaseProtocol {
  import opened Wrappers
  import opened Lease

  type RequestId = nat
  type Handle = nat

  // `Start` stands for singbox.start and tcpdump.start, `Typed` for the remaining
  // mutating actions, which touch neither the lease nor the registry.
  datatype Action = Ping | Drain | Undrain(token: Token) | Renew(token: Token) | Start | Typed

  // How far the handler holding the mutation lock has come.
  datatype Pc =
    | Locked                      // lock taken, request still queued
    | Admit                       // next: drainActive, for everything but undrain and renew
    | Check                       // next: requireDrainToken
    | IdleCheck                   // next: take both locks of withIdle and count
    | Issue                       // next: draw a token, compute the deadline
    | Recheck                     // next: requireDrainToken again, under the idle locks
    | Stamp                       // next: read the clock for the renewed deadline
    | Persist(lease: Lease)       // next: write and rename the file
    | Publish(lease: Lease)       // file renamed; next: set the in-memory pair
    | Unlink                      // undrain: next: remove the file
    | Clear                       // file removed; next: clear the in-memory pair
    | SweepFile(idle: bool)       // expiry observed; next: best-effort file removal
    | SweepMemory(idle: bool)     // next: clear the in-memory pair
    | Spawn                       // admitted start; next: exec
    | Register                    // process runs; next: add it to the registry
    | Watch(handle: Handle)       // registered; next: watch its exit
    | Other                       // admitted typed action
    | Finish(ok: bool)            // next: complete in the tracker
    | Respond(ok: bool)           // next: answer and release the lock

  datatype Holder = Holder(id: RequestId, action: Action, pc: Pc)

  datatype Phase = Unread | Ready(action: Action) | Held | Pinging | Closing

  datatype Mode = Down | Starting | Serving

  datatype State = State(
    now: int,
    file: Option<Lease>,
    hidden: bool,                 // the running daemon could not read the file when it started
    mode: Mode,
    mem: Memory,
    children: set<Handle>,
    accepting: bool,              // slot taken, request not yet enqueued
    slots: nat,
    nextID: nat,
    queued: set<RequestId>,
    active: set<RequestId>,
    conns: map<RequestId, Phase>,
    holder: Option<Holder>,
    issued: set<Token>,           // history: every token ever drawn
    undrainSent: set<Token>,      // history: tokens some undrain request carried
    released: set<Token>)         // history: tokens whose owned undrain removed the file

  const MAX_CONNECTIONS: nat := 16

  datatype Choice = Choice(ok: bool, token: Token, handle: Handle)

  datatype Step =
    | Tick(delta: nat)
    | ChildExit(handle: Handle)
    | TakeSlot | Enqueue
    | Read(id: RequestId, action: Action) | Abandon(id: RequestId)
    | AcquireLock(id: RequestId)
    | PingBegin(id: RequestId) | PingComplete(id: RequestId)
    | CloseConn(id: RequestId)
    | Handler(choice: Choice)
    | Crash | Relaunch(readable: bool, unlinked: bool) | Serve

  predicate Init(s: State) {
    && s.now > ZERO_TIME && s.file == None && !s.hidden && s.mode == Down && s.mem == NO_LEASE
    && s.children == {} && !s.accepting && s.slots == 0 && s.nextID == 0
    && s.queued == {} && s.active == {} && s.conns == map[] && s.holder == None
    && s.issued == {} && s.undrainSent == {} && s.released == {}
  }

  // ---------------------------------------------------------------- steps

  // Both mutexes of withIdle are held: no exit, accept or completion can run.
  predicate IdleLocked(s: State) {
    s.holder.Some? && match s.holder.value.pc {
      case Issue | Recheck | Stamp | Persist(_) | Publish(_) => true
      case SweepFile(idle) => idle
      case SweepMemory(idle) => idle
      case _ => false
    }
  }

  predicate InPhase(s: State, id: RequestId, phase: Phase) {
    id in s.conns && s.conns[id] == phase
  }

  // validateRequestShape: undrain and renew need a well-formed token.
  predicate WellShaped(action: Action) {
    match action
    case Undrain(token) => ValidToken(token)
    case Renew(token) => ValidToken(token)
    case _ => true
  }

  predicate Enabled(s: State, step: Step) {
    match step
    case Tick(_) => true
    case ChildExit(h) => s.mode == Serving && h in s.children && !IdleLocked(s)
    case TakeSlot => s.mode == Serving && !s.accepting && s.slots < MAX_CONNECTIONS
    case Enqueue => s.mode == Serving && s.accepting && !IdleLocked(s)
    case Read(id, action) => InPhase(s, id, Unread) && WellShaped(action)
    case Abandon(id) => InPhase(s, id, Unread) && !IdleLocked(s)
    case AcquireLock(id) =>
      id in s.conns && s.conns[id].Ready? && s.conns[id].action != Ping && s.holder.None?
    case PingBegin(id) => InPhase(s, id, Ready(Ping)) && !IdleLocked(s)
    case PingComplete(id) => InPhase(s, id, Pinging) && !IdleLocked(s)
    case CloseConn(id) => InPhase(s, id, Closing) && s.slots > 0
    case Handler(c) => s.holder.Some? && ChoiceAllowed(s, s.holder.value, c)
    case Crash => s.mode != Down
    case Relaunch(_, _) => s.mode == Down
    case Serve => s.mode == Starting
  }

  // Tokens and child handles are random and long enough never to repeat.
  predicate ChoiceAllowed(s: State, h: Holder, c: Choice) {
    match h.pc
    case Issue => c.ok ==> ValidToken(c.token) && c.token !in s.issued
    case Register => c.ok ==> c.handle !in s.children
    case _ => true
  }

  function Apply(s: State, step: Step): State
    requires Enabled(s, step)
  {
    match step
    case Tick(d) => s.(now := s.now + d)
    case ChildExit(h) => s.(children := s.children - {h})
    case TakeSlot => s.(slots := s.slots + 1, accepting := true)
    case Enqueue =>
      var id := s.nextID + 1;
      s.(nextID := id, accepting := false, queued := s.queued + {id}, conns := s.conns[id := Unread])
    case Read(id, action) =>
      s.(conns := s.conns[id := Ready(action)],
         undrainSent := if action.Undrain? then s.undrainSent + {action.token} else s.undrainSent)
    case Abandon(id) => s.(queued := s.queued - {id}, conns := s.conns[id := Closing])
    case AcquireLock(id) =>
      s.(conns := s.conns[id := Held], holder := Some(Holder(id, s.conns[id].action, Locked)))
    case PingBegin(id) =>
      s.(queued := s.queued - {id}, active := s.active + {id}, conns := s.conns[id := Pinging])
    case PingComplete(id) => s.(active := s.active - {id}, conns := s.conns[id := Closing])
    case CloseConn(id) => s.(slots := s.slots - 1, conns := s.conns - {id})
    case Handler(c) => Advance(s, s.holder.value, c)
    case Crash =>
      s.(mode := Down, mem := NO_LEASE, hidden := false, children := {}, accepting := false, slots := 0, nextID := 0,
         queued := {}, active := {}, conns := map[], holder := None)
    case Relaunch(readable, unlinked) =>
      // Storage that cannot be opened, verified or read is left alone, and startup goes on without a lease.
      var found := if readable then Find(s.file) else Unsafe;
      s.(mode := Starting, mem := RestoreMemory(found, s.now), file := RestoreFile(s.file, found, s.now, unlinked),
         hidden := !readable && s.file.Some?)
    case Serve => s.(mode := Serving)
  }

  function At(s: State, h: Holder, pc: Pc): State { s.(holder := Some(h.(pc := pc))) }

  // requireDrainToken up to the point where it would sweep an expired lease.
  function AfterCheck(s: State, h: Holder, token: Token, pass: Pc, idle: bool): Pc {
    if Accepts(s.mem, token, s.now) then pass
    else if s.mem.token == "" || Draining(s.mem, s.now) then Finish(false)
    else SweepFile(idle)
  }

  function AfterAdmission(action: Action): Pc {
    match action
    case Drain => IdleCheck
    case Start => Spawn
    case _ => Other
  }

  predicate OwnerAction(action: Action) { action.Undrain? || action.Renew? }

  function OtherRequests(s: State, id: RequestId): int {
    |s.queued| + |s.active| - if id in s.active then 1 else 0
  }

  predicate Idle(s: State, id: RequestId) { s.children == {} && OtherRequests(s, id) == 0 }

  // One step of the handler that holds the mutation lock.
  function Advance(s: State, h: Holder, c: Choice): State {
    match h.pc
    case Locked =>
      At(s.(queued := s.queued - {h.id}, active := s.active + {h.id}), h, if OwnerAction(h.action) then Check else Admit)
    case Admit =>
      if s.mem.token == "" then At(s, h, AfterAdmission(h.action))
      else if s.now < s.mem.until then At(s, h, Finish(false))
      else At(s, h, SweepFile(false))
    case Check =>
      (match h.action
       case Undrain(token) => At(s, h, AfterCheck(s, h, token, Unlink, false))
       case Renew(token) => At(s, h, AfterCheck(s, h, token, IdleCheck, false))
       case _ => At(s, h, Finish(false)))
    case IdleCheck =>
      if !Idle(s, h.id) then At(s, h, Finish(false))
      else At(s, h, if h.action.Renew? then Recheck else Issue)
    case Issue =>
      if !c.ok then At(s, h, Finish(false))
      else At(s.(issued := s.issued + {c.token}), h, Persist(Lease(c.token, s.now + TTL)))
    case Recheck =>
      if h.action.Renew? then At(s, h, AfterCheck(s, h, h.action.token, Stamp, true)) else At(s, h, Finish(false))
    case Stamp => At(s, h, Persist(Lease(s.mem.token, s.now + TTL)))
    case Persist(lease) =>
      if c.ok then At(s.(file := Some(lease), hidden := false), h, Publish(lease)) else At(s, h, Finish(false))
    case Publish(lease) => At(s.(mem := Remember(lease)), h, Finish(true))
    case Unlink =>
      if c.ok then At(s.(file := None, released := s.released + {s.mem.token}), h, Clear)
      else At(s, h, Finish(false))
    case Clear => At(s.(mem := NO_LEASE), h, Finish(true))
    case SweepFile(idle) => At(if c.ok then s.(file := None) else s, h, SweepMemory(idle))
    case SweepMemory(_) =>
      At(s.(mem := NO_LEASE), h, if OwnerAction(h.action) then Finish(false) else AfterAdmission(h.action))
    case Spawn => At(s, h, if c.ok then Register else Finish(false))
    case Register =>
      if c.ok then At(s.(children := s.children + {c.handle}), h, Watch(c.handle)) else At(s, h, Finish(false))
    case Watch(handle) =>
      if c.ok then At(s, h, Finish(true)) else At(s.(children := s.children - {handle}), h, Finish(false))
    case Other => At(s, h, Finish(c.ok))
    case Finish(ok) => At(s.(active := s.active - {h.id}), h, Respond(ok))
    case Respond(_) => s.(conns := s.conns[h.id := Closing], holder := None)
  }

  // ---------------------------------------------------------------- runs

  ghost predicate Possible(s: State, steps: seq<Step>)
    decreases |steps|
  {
    steps == [] || (Enabled(s, steps[0]) && Possible(Apply(s, steps[0]), steps[1..]))
  }

  ghost function Run(s: State, steps: seq<Step>): State
    requires Possible(s, steps)
    decreases |steps|
  {
    if steps == [] then s else Run(Apply(s, steps[0]), steps[1..])
  }

  ghost predicate Reachable(s: State) {
    exists s0: State, steps: seq<Step> :: Init(s0) && Possible(s0, steps) && Run(s0, steps) == s
  }

  // ---------------------------------------------------------------- invariants

  // A live lease in the file that the running daemon does not know of.
  predicate Overlooked(s: State) { s.hidden && Unexpired(s.file, s.now) }

  // Outside the windows between a file operation and the matching memory write, the file
  // mirrors memory; without a lease in memory the file is absent, expired or overlooked.
  predicate Agree(s: State) {
    if s.mem.token != "" then s.file == Some(Lease(s.mem.token, s.mem.until)) else s.hidden || !Unexpired(s.file, s.now)
  }

  predicate NoOtherWork(s: State, id: RequestId) {
    s.children == {} && s.queued == {} && s.active == {id}
  }

  predicate GoodLease(s: State, token: Token, until: int) {
    ValidToken(token) && token in s.issued && ZERO_TIME < until <= s.now + TTL
  }

  // The lease a drain or renewal is about to write, against the lease in memory.
  predicate Successor(s: State, action: Action, lease: Lease) {
    && GoodLease(s, lease.token, lease.until)
    && (action.Drain? || action.Renew?)
    && (action.Drain? ==> s.mem.token == "")
    && (action.Renew? ==> s.mem.token == action.token == lease.token && s.mem.until <= lease.until)
  }

  predicate Expiring(s: State) { s.mem.token != "" && s.mem.until <= s.now }

  // What a positive answer to a request tells its client.
  predicate Achieved(s: State, action: Action) {
    match action
    case Ping => true
    case Drain => s.mem.token != ""
    case Renew(token) => token != "" && s.mem.token == token
    case _ => s.mem.token == ""
  }

  predicate HandlerInv(s: State, h: Holder) {
    match h.pc
    case Locked => Agree(s)
    case Admit => Agree(s) && !OwnerAction(h.action)
    case Check => Agree(s) && OwnerAction(h.action)
    case IdleCheck =>
      Agree(s) && ((h.action.Renew? && s.mem.token == h.action.token != "") || (h.action.Drain? && s.mem.token == ""))
    case Issue => Agree(s) && h.action.Drain? && s.mem.token == "" && NoOtherWork(s, h.id)
    case Recheck => Agree(s) && h.action.Renew? && s.mem.token == h.action.token != "" && NoOtherWork(s, h.id)
    case Stamp => Agree(s) && h.action.Renew? && s.mem.token == h.action.token != "" && NoOtherWork(s, h.id)
    case Persist(lease) => Agree(s) && Successor(s, h.action, lease) && NoOtherWork(s, h.id)
    case Publish(lease) => s.file == Some(lease) && !s.hidden && Successor(s, h.action, lease) && NoOtherWork(s, h.id)
    case Unlink => Agree(s) && h.action.Undrain? && s.mem.token == h.action.token != ""
    case Clear => s.file == None && h.action.Undrain? && s.mem.token == h.action.token != "" && s.mem.token in s.released
    case SweepFile(idle) => Agree(s) && Expiring(s) && (idle ==> NoOtherWork(s, h.id))
    case SweepMemory(idle) => Expiring(s) && !Unexpired(s.file, s.now) && (idle ==> NoOtherWork(s, h.id))
    case Spawn => s.mem.token == "" && Agree(s) && h.action.Start?
    case Register => s.mem.token == "" && Agree(s) && h.action.Start?
    case Watch(_) => s.mem.token == "" && Agree(s) && h.action.Start?
    case Other => s.mem.token == "" && Agree(s) && (h.action.Typed? || h.action.Ping?)
    case Finish(ok) => Agree(s) && (ok ==> Achieved(s, h.action))
    case Respond(ok) => Agree(s) && (ok ==> Achieved(s, h.action))
  }

  predicate LeaseInv(s: State) {
    && s.now > ZERO_TIME
    && (s.mem.token == "" <==> s.mem.until == ZERO_TIME)
    && (s.mem.token != "" ==> GoodLease(s, s.mem.token, s.mem.until))
    && (s.file.Some? ==> GoodLease(s, s.file.value.token, s.file.value.until))
    && (s.hidden ==> s.mem.token == "" && s.file.Some? && s.mode != Down)
    && (s.mem.token != "" || (Unexpired(s.file, s.now) && !s.hidden) ==> s.children == {})
    && (s.mode != Serving ==> s.holder.None? && s.children == {})
    && (s.mode == Down ==> s.mem == NO_LEASE)
    && (s.mode != Down && s.holder.None? ==> Agree(s))
    && (s.holder.Some? ==> HandlerInv(s, s.holder.value))
  }

  // The tracker sets are exactly what the connection phases say.
  predicate CountsAsQueued(s: State, id: RequestId) {
    id in s.conns && (s.conns[id].Unread? || s.conns[id].Ready? || (s.conns[id].Held? && HolderAt(s, id) && s.holder.value.pc.Locked?))
  }

  predicate CountsAsActive(s: State, id: RequestId) {
    id in s.conns && (s.conns[id].Pinging? || (s.conns[id].Held? && HolderAt(s, id) && !s.holder.value.pc.Locked? && !s.holder.value.pc.Respond?))
  }

  predicate HolderAt(s: State, id: RequestId) { s.holder.Some? && s.holder.value.id == id }

  ghost predicate TrackerInv(s: State) {
    && (s.mode != Serving ==> s.conns == map[] && s.slots == 0 && !s.accepting)
    && s.slots == |s.conns| + (if s.accepting then 1 else 0)
    && s.slots <= MAX_CONNECTIONS
    && (forall id :: id in s.conns ==> 1 <= id <= s.nextID)
    && (forall id :: id in s.queued <==> CountsAsQueued(s, id))
    && (forall id :: id in s.active <==> CountsAsActive(s, id))
    && (forall id :: id in s.conns && s.conns[id].Held? ==> HolderAt(s, id))
    && (s.holder.Some? ==> InPhase(s, s.holder.value.id, Held))
  }

  ghost predicate HistoryInv(s: State) {
    && s.released <= s.undrainSent
    && (forall id :: id in s.conns && s.conns[id].Ready? && s.conns[id].action.Undrain? ==> s.conns[id].action.token in s.undrainSent)
    && (s.holder.Some? && s.holder.value.action.Undrain? ==> s.holder.value.action.token in s.undrainSent)
  }

  ghost predicate Inv(s: State) { LeaseInv(s) && TrackerInv(s) && HistoryInv(s) }

  lemma InitInv(s: State)
    requires Init(s)
    ensures Inv(s)
  {
  }
}
