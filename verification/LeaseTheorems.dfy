/** What the maintenance lease guarantees over whole runs, with any number of clients and
    any number of daemon crashes and relaunches. */
module LeaseTheorems {
  import opened Wrappers
  import opened Lease
  import opened LeaseProtocol
  import opened LeaseInvariants

  // The lease in force: memory while a daemon runs, the file while none does.
  function Effective(s: State): Option<Lease> {
    if s.mode != Down then
      if Draining(s.mem, s.now) then Some(Lease(s.mem.token, s.mem.until)) else None
    else if Unexpired(s.file, s.now) then s.file
    else None
  }

  // No registered child, and no start past admission that could register one.
  predicate Protected(s: State) {
    s.children == {} && !(s.holder.Some? && StartingPc(s.holder.value.pc))
  }

  predicate StartingPc(pc: Pc) { pc.Spawn? || pc.Register? || pc.Watch? }

  predicate SameOwner(before: Option<Lease>, after: Option<Lease>) {
    before.Some? && after.Some? && after.value.token == before.value.token && after.value.until >= before.value.until
  }

  // ---------------------------------------------------------------- one step

  // A relaunch that cannot read the lease file.
  predicate Blind(step: Step) { step.Relaunch? && !step.readable }

  lemma HandlerKeepsGrip(s: State, c: Choice)
    requires LeaseInv(s) && s.holder.Some? && ChoiceAllowed(s, s.holder.value, c) && Effective(s).Some?
    requires Effective(s).value.token !in Advance(s, s.holder.value, c).released
    ensures SameOwner(Effective(s), Effective(Advance(s, s.holder.value, c)))
  {
    assert HandlerInv(s, s.holder.value);
  }

  /** A lease in force that has not run out and that its owner has not released survives a step
      if and only if the step is not a relaunch that cannot read the file. */
  lemma StepKeepsGrip(s: State, step: Step)
    requires Inv(s) && Enabled(s, step) && Effective(s).Some?
    requires Apply(s, step).now < Effective(s).value.until
    requires Effective(s).value.token !in Apply(s, step).released
    ensures SameOwner(Effective(s), Effective(Apply(s, step))) <==> !Blind(step)
    ensures Blind(step) ==> Effective(Apply(s, step)).None? && Overlooked(Apply(s, step))
  {
    match step
    case Handler(c) => HandlerKeepsGrip(s, c);
    case Crash => if s.holder.Some? { assert HandlerInv(s, s.holder.value); }
    case _ =>
  }

  predicate Forward(s: State, s': State) {
    s.now <= s'.now && s.released <= s'.released && s.undrainSent <= s'.undrainSent && s.issued <= s'.issued
  }

  lemma DecidingMovesForward(s: State, c: Choice)
    requires s.holder.Some? && DecidingPc(s.holder.value.pc)
    ensures Forward(s, Advance(s, s.holder.value, c))
  {
  }

  lemma GrantingMovesForward(s: State, c: Choice)
    requires s.holder.Some? && GrantingPc(s.holder.value.pc)
    ensures Forward(s, Advance(s, s.holder.value, c))
  {
  }

  lemma HandlerMovesForward(s: State, c: Choice)
    requires s.holder.Some?
    ensures Forward(s, Advance(s, s.holder.value, c))
  {
    if DecidingPc(s.holder.value.pc) {
      DecidingMovesForward(s, c);
    } else if GrantingPc(s.holder.value.pc) {
      GrantingMovesForward(s, c);
    }
  }

  lemma StepMovesForward(s: State, step: Step)
    requires Enabled(s, step)
    ensures Forward(s, Apply(s, step))
  {
    if step.Handler? {
      HandlerMovesForward(s, step.choice);
    }
  }

  lemma {:induction false} RunMovesForward(s: State, steps: seq<Step>)
    requires Possible(s, steps)
    ensures Forward(s, Run(s, steps))
    decreases |steps|
  {
    if steps != [] {
      StepMovesForward(s, steps[0]);
      RunMovesForward(Apply(s, steps[0]), steps[1..]);
    }
  }

  // ---------------------------------------------------------------- whole runs

  // Every relaunch in the run could read the lease file.
  predicate Sighted(steps: seq<Step>) { forall i :: 0 <= i < |steps| ==> !Blind(steps[i]) }

  /** Whatever clients, crashes and relaunches that can read the file do, a lease stays with its
      owner until its deadline or until an owned undrain removed it. */
  lemma {:induction false} LeaseHeldUntilExpiryOrRelease(s: State, steps: seq<Step>)
    requires Inv(s) && Possible(s, steps) && Effective(s).Some? && Sighted(steps)
    requires Run(s, steps).now < Effective(s).value.until
    requires Effective(s).value.token !in Run(s, steps).released
    ensures SameOwner(Effective(s), Effective(Run(s, steps)))
    decreases |steps|
  {
    if steps != [] {
      var mid := Apply(s, steps[0]);
      RunMovesForward(mid, steps[1..]);
      StepKeepsGrip(s, steps[0]);
      StepKeepsInv(s, steps[0]);
      LeaseHeldUntilExpiryOrRelease(mid, steps[1..]);
    }
  }

  // A lease in force, or an unexpired one on disk that the daemon has not overlooked, means
  // nothing to protect is running.
  lemma LeaseProtects(s: State)
    requires Reachable(s)
    ensures Effective(s).Some? || (Unexpired(s.file, s.now) && !s.hidden) ==> Protected(s)
  {
    ReachableInv(s);
    if s.holder.Some? {
      assert HandlerInv(s, s.holder.value);
    }
  }

  /** End to end: from the positive answer to a renewal until the deadline that renewal
      set, a bootout finds no registered child and none about to be registered, even if
      the daemon died and was relaunched in between, unless a relaunch could not read the
      file or someone sent an undrain with the token. */
  lemma RenewalHolds(s: State, steps: seq<Step>, token: Token)
    requires Reachable(s) && Possible(s, steps) && Sighted(steps)
    requires s.holder.Some? && s.holder.value.action == Renew(token) && s.holder.value.pc == Respond(true)
    requires Run(s, steps).now < s.mem.until && token !in Run(s, steps).undrainSent
    ensures Protected(Run(s, steps)) && Effective(Run(s, steps)).Some? && Effective(Run(s, steps)).value.token == token
  {
    ReachableInv(s);
    assert HandlerInv(s, s.holder.value);
    RunMovesForward(s, steps);
    RunKeepsInv(s, steps);
    LeaseHeldUntilExpiryOrRelease(s, steps);
    InvProtects(Run(s, steps));
  }

  lemma InvProtects(s: State)
    requires Inv(s) && Effective(s).Some?
    ensures Protected(s)
  {
  }

  /** At most one token is usable: the one memory accepts and the one a daemon relaunched
      at this instant would accept are the same. */
  lemma OneTokenAccepted(s: State, first: Token, second: Token)
    requires Reachable(s)
    requires Accepts(s.mem, first, s.now)
    requires Accepts(s.mem, second, s.now) || Accepts(RestoreMemory(Find(s.file), s.now), second, s.now)
    ensures first == second
  {
    ReachableInv(s);
    if s.holder.Some? {
      assert HandlerInv(s, s.holder.value);
    }
  }

  // The owner's own requests: the only ones that may touch a lease in force.
  predicate OwnedRequest(action: Action, token: Token) { action in {Undrain(token), Renew(token)} }

  // The request that holds the lock is not the owner's and is on its way to a refusal.
  predicate Refusing(s: State, id: RequestId) {
    && HolderAt(s, id) && Effective(s).Some? && !OwnedRequest(s.holder.value.action, Effective(s).value.token)
    && s.holder.value.pc in {Locked, Admit, Check, Finish(false), Respond(false)}
  }

  predicate SameStore(s: State, s': State) { s'.mem == s.mem && s'.file == s.file && s'.children == s.children }

  lemma RefusingGoesOn(s: State, step: Step, id: RequestId)
    requires Inv(s) && Enabled(s, step) && Refusing(s, id) && HolderAt(Apply(s, step), id)
    requires Apply(s, step).now < Effective(s).value.until
    ensures Refusing(Apply(s, step), id) && SameStore(s, Apply(s, step))
  {
    assert HandlerInv(s, s.holder.value);
  }

  // Request `id` holds the lock from here to the end of the run.
  ghost predicate HoldsThroughout(s: State, steps: seq<Step>, id: RequestId)
    requires Possible(s, steps)
    decreases |steps|
  {
    HolderAt(s, id) && (steps == [] || HoldsThroughout(Apply(s, steps[0]), steps[1..], id))
  }

  /** While a lease is in force, a request other than its owner's undrain or renew that takes
      the mutation lock changes neither memory, file nor registry up to its answer, and the
      answer is a refusal, whatever happens around it. */
  lemma {:induction false} OthersRefusedWhileHeld(s: State, steps: seq<Step>, id: RequestId)
    requires Inv(s) && Possible(s, steps) && Effective(s).Some? && HolderAt(s, id)
    requires s.holder.value.pc.Locked? && !OwnedRequest(s.holder.value.action, Effective(s).value.token)
    requires HoldsThroughout(s, steps, id) && Run(s, steps).now < Effective(s).value.until
    ensures SameStore(s, Run(s, steps)) && Refusing(Run(s, steps), id)
  {
    RefusingThroughout(s, steps, id);
  }

  lemma {:induction false} RefusingThroughout(s: State, steps: seq<Step>, id: RequestId)
    requires Inv(s) && Possible(s, steps) && Refusing(s, id)
    requires HoldsThroughout(s, steps, id) && Run(s, steps).now < Effective(s).value.until
    ensures SameStore(s, Run(s, steps)) && Refusing(Run(s, steps), id)
    decreases |steps|
  {
    if steps != [] {
      var mid := Apply(s, steps[0]);
      RunMovesForward(mid, steps[1..]);
      RefusingGoesOn(s, steps[0], id);
      StepKeepsInv(s, steps[0]);
      RefusingThroughout(mid, steps[1..], id);
    }
  }

  // ---------------------------------------------------------------- disk and memory

  // Between a file operation and the matching memory write the two may differ.
  predicate InWindow(s: State) {
    s.holder.Some? && (s.holder.value.pc.Publish? || s.holder.value.pc.Clear? || s.holder.value.pc.SweepMemory?)
  }

  function Relaunched(s: State, readable: bool, unlinked: bool): State
    requires s.mode != Down
  {
    Apply(Apply(s, Crash), Relaunch(readable, unlinked))
  }

  /** Killing and relaunching the daemon at any point restores exactly the unexpired lease of the
      file if it can be read, never an expired one, and none if it cannot; either way a live
      lease stays in the file. */
  lemma RestartRestoresTheFile(s: State, readable: bool, unlinked: bool)
    requires Reachable(s) && s.mode != Down
    ensures Effective(Relaunched(s, readable, unlinked)) == (if readable && Unexpired(s.file, s.now) then s.file else None)
    ensures Unexpired(Relaunched(s, readable, unlinked).file, s.now) <==> Unexpired(s.file, s.now)
    ensures Overlooked(Relaunched(s, readable, unlinked)) <==> !readable && Unexpired(s.file, s.now)
  {
    ReachableInv(s);
  }

  /** Outside a window, a restart leaves the lease in force as it was if and only if it can read
      the file, or there is none in force and none that was overlooked before. */
  lemma RestartIsInvisible(s: State, readable: bool, unlinked: bool)
    requires Reachable(s) && s.mode != Down && !InWindow(s)
    ensures Effective(Relaunched(s, readable, unlinked)) == Effective(s) <==>
            if Effective(s).Some? then readable else !readable || !Overlooked(s)
    ensures Draining(s.mem, s.now) ==> s.file == Some(Lease(s.mem.token, s.mem.until))
  {
    ReachableInv(s);
    if s.holder.Some? {
      assert HandlerInv(s, s.holder.value);
    }
  }

  /** Inside a window a restart that can read the file completes the pending write: a grant or
      renewal whose file is in place takes effect, an undrain whose file is gone has released.
      One that cannot read it starts without a lease. */
  lemma RestartCompletesTheWindow(s: State, readable: bool, unlinked: bool)
    requires Reachable(s) && InWindow(s)
    ensures s.mode == Serving
    ensures match s.holder.value.pc {
              case Publish(lease) =>
                Effective(Relaunched(s, readable, unlinked)) == (if readable && s.now < lease.until then Some(lease) else None)
              case _ => Effective(Relaunched(s, readable, unlinked)) == None
            }
  {
    ReachableInv(s);
    assert HandlerInv(s, s.holder.value);
  }

  // Ping reads the deadline without the mutation lock; admission reads the token first.
  lemma PingAgreesWithAdmission(s: State)
    requires Reachable(s)
    ensures PingActive(s.mem, s.now) <==> Draining(s.mem, s.now)
  {
    ReachableInv(s);
  }

  // A lease never runs further ahead of the clock than one TTL.
  lemma BlockageIsBounded(s: State)
    requires Reachable(s) && Effective(s).Some?
    ensures Effective(s).value.until <= s.now + TTL
  {
    ReachableInv(s);
  }

  /** While memory holds a live lease, the file differs from it exactly between an undrain's
      unlink and its clearing of memory, and between a renewal's rename and its publishing.
      Without a live lease in memory, the file holds one exactly when a grant or renewal has
      been written and not yet published, or the daemon could not read it when it started. */
  lemma CopiesDifferExactly(s: State)
    requires Reachable(s) && s.mode != Down
    ensures Draining(s.mem, s.now) ==>
            (s.file != Some(Lease(s.mem.token, s.mem.until)) <==>
             s.holder.Some? && (s.holder.value.pc.Clear? || (s.holder.value.pc.Publish? && s.holder.value.pc.lease.until != s.mem.until)))
    ensures !Draining(s.mem, s.now) ==>
            (Unexpired(s.file, s.now) <==>
             Overlooked(s) || (s.holder.Some? && s.holder.value.pc.Publish? && s.now < s.holder.value.pc.lease.until))
  {
    ReachableInv(s);
    if s.holder.Some? {
      assert HandlerInv(s, s.holder.value);
    }
  }

  // ---------------------------------------------------------------- revival

  const PROCEED := Handler(Choice(true, "", 0))

  predicate InForce(s: State, token: Token) { Effective(s).Some? && Effective(s).value.token == token }

  predicate Publishing(s: State) { s.holder.Some? && s.holder.value.pc.Publish? }

  // A lease has been written, is not yet published, and has not run out.
  predicate Arriving(s: State) { Publishing(s) && s.now < s.holder.value.pc.lease.until }

  lemma HandlerBringsIntoForce(s: State, c: Choice)
    requires Inv(s) && s.holder.Some? && Effective(s).None?
    ensures Effective(Advance(s, s.holder.value, c)) == if Arriving(s) then Some(s.holder.value.pc.lease) else None
  {
    assert HandlerInv(s, s.holder.value);
  }

  lemma OtherStepsBringIntoForce(s: State, step: Step)
    requires Inv(s) && Enabled(s, step) && !step.Handler? && Effective(s).None?
    ensures Effective(Apply(s, step)) == if !step.Crash? then None
                                         else if Arriving(s) then Some(s.holder.value.pc.lease)
                                         else if Overlooked(s) then s.file else None
  {
    if s.holder.Some? {
      assert HandlerInv(s, s.holder.value);
    }
  }

  /** With no lease in force, a step brings one into force exactly when a written lease that is
      still unexpired is published, the daemon dies before publishing it, or a daemon that had
      overlooked the lease in the file dies.  When it is a renewal that is published, the same
      token had run out. */
  lemma StepBringsIntoForce(s: State, step: Step)
    requires Inv(s) && Enabled(s, step) && Effective(s).None?
    ensures Effective(Apply(s, step)) ==
            if Arriving(s) && (step.Handler? || step.Crash?) then Some(s.holder.value.pc.lease)
            else if Overlooked(s) && step.Crash? then s.file else None
    ensures Arriving(s) ==> s.children == {}
    ensures Arriving(s) && s.holder.value.action.Renew? ==> s.mem.until <= s.now && s.mem.token == s.holder.value.pc.lease.token
  {
    if step.Handler? {
      HandlerBringsIntoForce(s, step.choice);
    } else {
      OtherStepsBringIntoForce(s, step);
    }
    if s.holder.Some? {
      assert HandlerInv(s, s.holder.value);
    }
  }

  // A live lease with this token was overlooked.
  predicate Waiting(s: State, token: Token) { Overlooked(s) && s.file.value.token == token }

  // A write of a lease with this token is under way and would still be in time.
  predicate Underway(s: State, token: Token) {
    s.holder.Some? && match s.holder.value.pc {
      case Stamp => s.mem.token == token
      case Persist(lease) => lease.token == token && s.now < lease.until
      case Publish(lease) => lease.token == token && s.now < lease.until
      case _ => false
    }
  }

  ghost predicate CanComeIntoForce(s: State, token: Token) {
    exists steps :: Possible(s, steps) && InForce(Run(s, steps), token)
  }

  // A token that is neither in force, nor about to be written, nor overlooked.
  predicate Lapsed(s: State, token: Token) { token in s.issued && !InForce(s, token) && !Underway(s, token) && !Waiting(s, token) }

  lemma WritingKeepsLapsed(s: State, c: Choice, token: Token)
    requires Inv(s) && s.holder.Some? && ChoiceAllowed(s, s.holder.value, c) && Lapsed(s, token)
    requires GrantingPc(s.holder.value.pc)
    ensures Lapsed(Advance(s, s.holder.value, c), token)
  {
    assert HandlerInv(s, s.holder.value);
  }

  lemma DecidingKeepsLapsed(s: State, c: Choice, token: Token)
    requires Inv(s) && s.holder.Some? && Lapsed(s, token)
    requires DecidingPc(s.holder.value.pc)
    ensures Lapsed(Advance(s, s.holder.value, c), token)
  {
    assert HandlerInv(s, s.holder.value);
  }

  lemma EndingKeepsLapsed(s: State, c: Choice, token: Token)
    requires Inv(s) && s.holder.Some? && Lapsed(s, token) && !GrantingPc(s.holder.value.pc) && !DecidingPc(s.holder.value.pc)
    ensures Lapsed(Advance(s, s.holder.value, c), token)
  {
    assert HandlerInv(s, s.holder.value);
  }

  lemma HandlerKeepsLapsed(s: State, c: Choice, token: Token)
    requires Inv(s) && s.holder.Some? && ChoiceAllowed(s, s.holder.value, c) && Lapsed(s, token)
    ensures Lapsed(Advance(s, s.holder.value, c), token)
  {
    var pc := s.holder.value.pc;
    if GrantingPc(pc) {
      WritingKeepsLapsed(s, c, token);
    } else if DecidingPc(pc) {
      DecidingKeepsLapsed(s, c, token);
    } else {
      EndingKeepsLapsed(s, c, token);
    }
  }

  lemma StepKeepsLapsed(s: State, step: Step, token: Token)
    requires Inv(s) && Enabled(s, step) && Lapsed(s, token)
    ensures Lapsed(Apply(s, step), token)
  {
    if step.Handler? {
      HandlerKeepsLapsed(s, step.choice, token);
    } else if s.holder.Some? {
      assert HandlerInv(s, s.holder.value);
    }
  }

  lemma {:induction false} RunKeepsLapsed(s: State, steps: seq<Step>, token: Token)
    requires Inv(s) && Possible(s, steps) && Lapsed(s, token)
    ensures Lapsed(Run(s, steps), token)
    decreases |steps|
  {
    if steps != [] {
      StepKeepsLapsed(s, steps[0], token);
      StepKeepsInv(s, steps[0]);
      RunKeepsLapsed(Apply(s, steps[0]), steps[1..], token);
    }
  }

  /** A token that was drawn and is not in force can come into force, by whatever run of
      clients, crashes and relaunches, if and only if its write is under way (a renewal past its
      second check, or a grant or renewal whose new deadline has not passed), or its live lease
      is in the file and the running daemon could not read it. */
  lemma RevivedOnlyByWriteUnderway(s: State, token: Token)
    requires Reachable(s) && token in s.issued && !InForce(s, token)
    ensures CanComeIntoForce(s, token) <==> Underway(s, token) || Waiting(s, token)
  {
    ReachableInv(s);
    if CanComeIntoForce(s, token) && !Underway(s, token) && !Waiting(s, token) {
      var steps :| Possible(s, steps) && InForce(Run(s, steps), token);
      RunKeepsLapsed(s, steps, token);
    }
    if Underway(s, token) {
      WriteFinishes(s, token);
    }
    if Waiting(s, token) {
      assert InForce(Apply(s, Crash), token);
      assert Possible(Apply(s, Crash), []) && Run(Apply(s, Crash), []) == Apply(s, Crash);
      OneStepEarlier(s, Crash, token);
    }
  }

  function StepsLeft(pc: Pc): nat { if pc.Stamp? then 2 else if pc.Persist? then 1 else 0 }

  lemma WriteGoesOn(s: State, token: Token)
    requires Inv(s) && Underway(s, token) && !s.holder.value.pc.Publish?
    ensures Enabled(s, PROCEED) && Underway(Apply(s, PROCEED), token)
    ensures StepsLeft(Apply(s, PROCEED).holder.value.pc) < StepsLeft(s.holder.value.pc)
  {
    assert HandlerInv(s, s.holder.value);
  }

  lemma WriteEnds(s: State, token: Token)
    requires Inv(s) && Underway(s, token) && s.holder.value.pc.Publish?
    ensures Enabled(s, PROCEED) && InForce(Apply(s, PROCEED), token)
  {
    assert HandlerInv(s, s.holder.value);
  }

  // Left alone, the write is published in at most three steps.
  lemma {:induction false} WriteFinishes(s: State, token: Token)
    requires Inv(s) && Underway(s, token)
    ensures CanComeIntoForce(s, token)
    decreases StepsLeft(s.holder.value.pc)
  {
    if s.holder.value.pc.Publish? {
      WriteEnds(s, token);
      var next := Apply(s, PROCEED);
      assert Possible(next, []) && InForce(Run(next, []), token);
    } else {
      WriteGoesOn(s, token);
      StepKeepsInv(s, PROCEED);
      WriteFinishes(Apply(s, PROCEED), token);
    }
    OneStepEarlier(s, PROCEED, token);
  }

  lemma OneStepEarlier(s: State, step: Step, token: Token)
    requires Enabled(s, step) && CanComeIntoForce(Apply(s, step), token)
    ensures CanComeIntoForce(s, token)
  {
    var steps :| Possible(Apply(s, step), steps) && InForce(Run(Apply(s, step), steps), token);
    var all := [step] + steps;
    assert all[0] == step && all[1..] == steps;
    assert Possible(s, all) && Run(s, all) == Run(Apply(s, step), steps);
  }

  // ---------------------------------------------------------------- request tracker

  lemma TrackedWithinConnections(s: State)
    requires TrackerInv(s)
    ensures s.queued !! s.active && s.queued + s.active <= s.conns.Keys
    ensures |s.queued| + |s.active| <= |s.conns|
  {
    forall id | id in s.queued ensures id !in s.active && id in s.conns { assert CountsAsQueued(s, id); }
    forall id | id in s.active ensures id in s.conns { assert CountsAsActive(s, id); }
    assert |s.queued + s.active| == |s.queued| + |s.active|;
    CardinalityMonotone(s.queued + s.active, s.conns.Keys);
  }

  lemma {:induction false} CardinalityMonotone(a: set<RequestId>, b: set<RequestId>)
    requires a <= b
    ensures |a| <= |b|
    decreases |b|
  {
    assert b == a + (b - a);
  }

  // Answered or abandoned: the connection only waits to be closed.
  predicate Settled(s: State, id: RequestId) {
    id in s.conns && (s.conns[id].Closing? || (HolderAt(s, id) && s.holder.value.pc.Respond?))
  }

  /** Every accepted connection is in exactly one of queued or active until it is settled,
      and the two together never exceed the connection slots. */
  lemma TrackerPartition(s: State, id: RequestId)
    requires Reachable(s) && id in s.conns
    ensures s.queued !! s.active && |s.queued| + |s.active| <= s.slots <= MAX_CONNECTIONS
    ensures (id in s.queued || id in s.active) <==> !Settled(s, id)
  {
    ReachableInv(s);
    TrackedWithinConnections(s);
    assert id in s.queued <==> CountsAsQueued(s, id);
    assert id in s.active <==> CountsAsActive(s, id);
  }

  /** The idle check of the holder succeeds exactly when no child is registered and every
      other accepted request, read or unread, has been settled. */
  lemma IdleMeansEveryoneElseSettled(s: State)
    requires Reachable(s) && s.holder.Some? && s.holder.value.pc == IdleCheck
    ensures Idle(s, s.holder.value.id) <==>
            s.children == {} && forall id :: id in s.conns && id != s.holder.value.id ==> Settled(s, id)
  {
    ReachableInv(s);
    var me := s.holder.value.id;
    assert CountsAsActive(s, me) && !CountsAsQueued(s, me);
    IdleMeansAlone(s, me);
    forall id | id in s.conns ensures (id in s.queued || id in s.active) <==> !Settled(s, id) {
      TrackerPartition(s, id);
    }
    if s.children == {} && forall id :: id in s.conns && id != me ==> Settled(s, id) {
      assert s.queued <= s.conns.Keys && s.active <= s.conns.Keys by { TrackedWithinConnections(s); }
      assert s.queued <= {me} && s.active <= {me};
    }
  }

  // A request id is larger than every id this daemon instance handed out before it.
  lemma {:induction false} IdsNeverReused(s: State, steps: seq<Step>)
    requires Inv(s) && Possible(s, steps) && Crash !in steps
    ensures s.nextID <= Run(s, steps).nextID
    ensures Enabled(Run(s, steps), Enqueue) ==>
            var next := Apply(Run(s, steps), Enqueue).nextID;
            s.nextID < next && next !in s.conns && next !in Run(s, steps).conns
    decreases |steps|
  {
    if steps != [] {
      assert steps[0] != Crash;
      StepKeepsInv(s, steps[0]);
      NextIdGrows(s, steps[0]);
      IdsNeverReused(Apply(s, steps[0]), steps[1..]);
    }
  }

  lemma NextIdGrows(s: State, step: Step)
    requires Enabled(s, step) && step != Crash
    ensures s.nextID <= Apply(s, step).nextID
  {
  }
}
