/** Runs of the daemon with its clients: one with a bootout that the theorem is about, and what
    exactly follows when a relaunch cannot read the lease file. */
module LeaseClientRuns {
  import opened Wrappers
  import opened Lease
  import opened LeaseGrip
  import opened LeaseProtocol
  import opened LeaseTheorems
  import opened LeaseClients

  // No relaunch among these moves fails to read the lease file.
  predicate Sees(moves: seq<Move>) { forall i :: 0 <= i < |moves| ==> !(moves[i].Base? && Blind(moves[i].step)) }

  // By such moves `o` can become `w`.
  ghost predicate Led(o: World, w: World) {
    exists moves :: Playable(o, moves) && Sees(moves) && Play(o, moves) == w
  }

  ghost predicate Played(w: World) {
    exists start, moves :: Begins(start) && Playable(start, moves) && Play(start, moves) == w
  }

  lemma {:induction false} PlayAppend(w: World, moves: seq<Move>, more: seq<Move>)
    requires Playable(w, moves) && Playable(Play(w, moves), more)
    ensures Playable(w, moves + more) && Play(w, moves + more) == Play(Play(w, moves), more)
    decreases |moves|
  {
    var all := moves + more;
    if moves == [] {
      assert all == more;
    } else {
      assert all[0] == moves[0] && all[1..] == moves[1..] + more;
      PlayAppend(Do(w, moves[0]), moves[1..], more);
    }
  }

  lemma PlaySnoc(w: World, moves: seq<Move>, last: Move)
    requires Playable(w, moves) && Able(Play(w, moves), last)
    ensures Playable(w, moves + [last]) && Play(w, moves + [last]) == Do(Play(w, moves), last)
  {
    assert [last][1..] == [];
    PlayAppend(w, moves, [last]);
  }

  lemma LedIsPlayed(o: World, w: World)
    requires Played(o) && Led(o, w)
    ensures Played(w)
  {
    var start, moves :| Begins(start) && Playable(start, moves) && Play(start, moves) == o;
    var more :| Playable(o, more) && Sees(more) && Play(o, more) == w;
    PlayAppend(start, moves, more);
  }

  lemma PlayOn(w: World, move: Move)
    requires Played(w) && Able(w, move)
    ensures Played(Do(w, move))
  {
    var start, moves :| Begins(start) && Playable(start, moves) && Play(start, moves) == w;
    PlaySnoc(start, moves, move);
  }

  lemma Moves(o: World, w: World, move: Move) returns (w': World)
    requires Led(o, w) && Able(w, move) && !(move.Base? && Blind(move.step))
    ensures Led(o, w') && w' == Do(w, move)
  {
    var moves :| Playable(o, moves) && Sees(moves) && Play(o, moves) == w;
    PlaySnoc(o, moves, move);
    assert Sees(moves + [move]);
    w' := Do(w, move);
  }

  predicate LockedBy(s: State, id: RequestId, action: Action, pc: Pc) { s.holder == Some(Holder(id, action, pc)) }

  // Nothing else goes on in the daemon.
  predicate Quiet(s: State, active: set<RequestId>) {
    s.mode == Serving && s.children == {} && s.queued == {} && s.active == active && !s.accepting
  }

  // The handler moves on to `next`.
  lemma Advances(o: World, w: World, token: Token, next: State) returns (w': World)
    requires Led(o, w) && w.base.holder.Some? && !w.base.holder.value.pc.Respond?
    requires ChoiceAllowed(w.base, w.base.holder.value, Choice(true, token, 0))
    requires w.base.holder.value.pc.Issue? ==> token !in w.base.undrainSent && token !in w.foreign
    requires Advance(w.base, w.base.holder.value, Choice(true, token, 0)) == next
    ensures Led(o, w') && w' == w.(base := next)
  {
    w' := Moves(o, w, Base(Handler(Choice(true, token, 0))));
    assert w.foreign + {} == w.foreign;
  }

  // Something else happens to the daemon.
  lemma Happens(o: World, w: World, step: Step, next: State) returns (w': World)
    requires Led(o, w) && Enabled(w.base, step) && !step.Handler? && !step.Crash? && !step.Read? && !Blind(step)
    requires Apply(w.base, step) == next
    ensures Led(o, w') && w' == w.(base := next)
  {
    w' := Moves(o, w, Base(step));
    assert w.foreign + {} == w.foreign;
  }

  function To(s: State, pc: Pc): State
    requires s.holder.Some?
  {
    At(s, s.holder.value, pc)
  }

  lemma DrainDecides(o: World, w: World, id: RequestId) returns (w': World)
    requires Led(o, w) && LockedBy(w.base, id, Drain, Admit) && Quiet(w.base, {id}) && w.base.mem == NO_LEASE
    ensures Led(o, w') && w' == w.(base := To(w.base, Issue))
  {
    w' := Advances(o, w, "", To(w.base, IdleCheck));
    assert Idle(w'.base, id);
    w' := Advances(o, w', "", To(w.base, Issue));
  }

  lemma RenewDecides(o: World, w: World, id: RequestId, token: Token) returns (w': World)
    requires Led(o, w) && LockedBy(w.base, id, Renew(token), Check) && Quiet(w.base, {id})
    requires Accepts(w.base.mem, token, w.base.now)
    ensures Led(o, w') && w' == w.(base := To(w.base, Stamp))
  {
    w' := Advances(o, w, "", To(w.base, IdleCheck));
    assert Idle(w'.base, id);
    w' := Advances(o, w', "", To(w.base, Recheck));
    w' := Advances(o, w', "", To(w.base, Stamp));
  }

  lemma Writes(o: World, w: World, lease: Lease) returns (w': World)
    requires Led(o, w) && w.base.holder.Some? && w.base.holder.value.pc == Persist(lease)
    ensures Led(o, w') && w' == w.(base := To(w.base.(file := Some(lease), hidden := false, mem := Remember(lease)), Finish(true)))
  {
    w' := Advances(o, w, "", To(w.base.(file := Some(lease), hidden := false), Publish(lease)));
    w' := Advances(o, w', "", To(w.base.(file := Some(lease), hidden := false, mem := Remember(lease)), Finish(true)));
  }

  function Heard(w: World): Act
    requires w.wait.ForRenew? ==> !w.grip.Free?
  {
    if w.wait.ForRenew? then Renewed(w.grip.token) else Granted(w.base.mem.token)
  }

  // The answer arrives and the lock is free.
  lemma Replies(o: World, w: World, id: RequestId) returns (w': World)
    requires Led(o, w) && w.base.holder.Some? && w.base.holder.value.id == id && w.base.holder.value.pc == Respond(true)
    requires w.wait == ForDrain(id) || (w.wait == ForRenew(id) && !w.grip.Free?)
    ensures Led(o, w') && w'.wait.Nothing? && w'.foreign == w.foreign
    ensures w'.base == w.base.(conns := w.base.conns[id := Closing], holder := None)
    ensures w'.grip == Grasp(w.grip, Heard(w)) && w'.acts == w.acts + [Heard(w)]
    ensures w.wait.ForRenew? ==> w'.deadline == w.base.mem.until && !w'.blinded
  {
    assert PROCEED == Handler(Choice(true, "", 0));
    w' := Moves(o, w, Base(PROCEED));
  }

  lemma Leaves(o: World, w: World, id: RequestId, action: Action) returns (w': World)
    requires Led(o, w) && LockedBy(w.base, id, action, Finish(true)) && w.base.active == {id}
    ensures Led(o, w') && w' == w.(base := To(w.base.(active := {}), Respond(true)))
  {
    assert w.base.active - {id} == {};
    w' := Advances(o, w, "", To(w.base.(active := {}), Respond(true)));
  }

  // The request leaves the tracker first.
  lemma IsAnswered(o: World, w: World, id: RequestId, action: Action) returns (w': World)
    requires Led(o, w) && LockedBy(w.base, id, action, Finish(true)) && Quiet(w.base, {id}) && id in w.base.conns
    requires (w.wait == ForDrain(id) || (w.wait == ForRenew(id) && !w.grip.Free?))
    ensures Led(o, w') && w'.wait.Nothing? && w'.base.holder.None? && Quiet(w'.base, {}) && w'.base.conns.Keys == w.base.conns.Keys
    ensures w'.grip == Grasp(w.grip, Heard(w)) && w'.acts == w.acts + [Heard(w)] && w'.foreign == w.foreign
    ensures w.wait.ForRenew? ==> w'.deadline == w.base.mem.until && !w'.blinded
    ensures SameMoment(w.base, w'.base)
  {
    w' := Leaves(o, w, id, action);
    w' := Replies(o, w', id);
  }

  predicate SameMoment(s: State, s': State) {
    s'.now == s.now && s'.mem == s.mem && s'.file == s.file && s'.undrainSent == s.undrainSent && s'.nextID == s.nextID && s'.slots == s.slots
  }

  // A new connection.
  lemma TakesSlot(o: World, w: World) returns (w': World)
    requires Led(o, w) && w.base.mode == Serving && !w.base.accepting && w.base.slots < MAX_CONNECTIONS
    ensures Led(o, w') && w' == w.(base := w.base.(slots := w.base.slots + 1, accepting := true))
  {
    w' := Happens(o, w, TakeSlot, w.base.(slots := w.base.slots + 1, accepting := true));
  }

  lemma Connects(o: World, w: World) returns (w': World)
    requires Led(o, w) && Quiet(w.base, {}) && w.base.holder.None? && w.base.slots < MAX_CONNECTIONS
    ensures var id := w.base.nextID + 1;
            Led(o, w') && w' == w.(base := w.base.(slots := w.base.slots + 1, nextID := id, queued := {id}, conns := w.base.conns[id := Unread]))
  {
    var s, id := w.base, w.base.nextID + 1;
    w' := TakesSlot(o, w);
    assert s.queued + {id} == {id};
    w' := Happens(o, w', Enqueue, s.(slots := s.slots + 1, nextID := id, queued := {id}, conns := s.conns[id := Unread]));
  }

  // A request that has been read takes the lock and leaves the queue.
  lemma TakesLock(o: World, w: World, id: RequestId, action: Action) returns (w': World)
    requires Led(o, w) && w.base.holder.None? && w.base.mode == Serving && action != Ping
    requires w.base.queued == {id} && w.base.active == {} && InPhase(w.base, id, Phase.Ready(action))
    ensures Led(o, w')
    ensures w' == w.(base := w.base.(conns := w.base.conns[id := Held], queued := {}, active := {id},
                                     holder := Some(Holder(id, action, if OwnerAction(action) then Check else Admit))))
  {
    var s := w.base.(conns := w.base.conns[id := Held], holder := Some(Holder(id, action, Locked)));
    w' := Happens(o, w, AcquireLock(id), s);
    assert s.queued - {id} == {} && s.active + {id} == {id};
    w' := Advances(o, w', "", To(s.(queued := {}, active := {id}), if OwnerAction(action) then Check else Admit));
  }

  // The client's request on a new connection.
  lemma Asks(o: World, w: World, id: RequestId, renew: bool) returns (w': World)
    requires Led(o, w) && w.wait.Nothing? && w.base.holder.None? && w.base.mode == Serving && !w.base.accepting && w.base.children == {}
    requires w.base.queued == {id} && w.base.active == {} && InPhase(w.base, id, Unread)
    requires renew ==> !w.grip.Free? && ValidToken(w.grip.token)
    ensures Led(o, w') && Quiet(w'.base, {id}) && w'.base.conns.Keys == w.base.conns.Keys
    ensures w'.grip == w.grip && w'.acts == w.acts && w'.foreign == w.foreign
    ensures SameMoment(w.base, w'.base) && w'.base.issued == w.base.issued
    ensures if renew then w'.wait == ForRenew(id) && LockedBy(w'.base, id, Renew(w.grip.token), Check)
            else w'.wait == ForDrain(id) && LockedBy(w'.base, id, Drain, Admit)
  {
    w' := Moves(o, w, if renew then AskRenew(id) else AskDrain(id));
    w' := TakesLock(o, w', id, if renew then Renew(w.grip.token) else Drain);
  }

  lemma DrainGoesThrough(o: World, w: World, token: Token, id: RequestId) returns (w': World)
    requires Led(o, w) && w.wait == ForDrain(id) && LockedBy(w.base, id, Drain, Admit) && Quiet(w.base, {id}) && id in w.base.conns
    requires w.base.mem == NO_LEASE && ValidToken(token) && token !in w.base.issued && w.base.undrainSent == {} && w.foreign == {}
    ensures Led(o, w') && w'.grip == Holding(token) && w'.acts == w.acts + [Granted(token)] && w'.foreign == {} && w'.wait.Nothing? && w'.base.holder.None? && Quiet(w'.base, {})
    ensures w'.base.mem == Memory(token, w.base.now + TTL) && w'.base.now == w.base.now && w'.base.undrainSent == {}
    ensures w'.base.nextID == w.base.nextID && w'.base.slots == w.base.slots && w'.base.conns.Keys == w.base.conns.Keys
  {
    var lease := Lease(token, w.base.now + TTL);
    w' := DrainDecides(o, w, id);
    w' := Advances(o, w', token, To(w'.base.(issued := w.base.issued + {token}), Persist(lease)));
    w' := Writes(o, w', lease);
    w' := IsAnswered(o, w', id, Drain);
  }

  lemma RenewGoesThrough(o: World, w: World, id: RequestId) returns (w': World)
    requires Led(o, w) && w.wait == ForRenew(id) && w.grip.Holding? && LockedBy(w.base, id, Renew(w.grip.token), Check)
    requires Quiet(w.base, {id}) && id in w.base.conns && Accepts(w.base.mem, w.grip.token, w.base.now)
    ensures Led(o, w') && w'.grip == Grip.Ready(w.grip.token) && w'.acts == w.acts + [Renewed(w.grip.token)] && w'.wait.Nothing?
    ensures w'.deadline == w.base.now + TTL && w'.base.now == w.base.now && !w'.blinded && w'.foreign == w.foreign
    ensures Quiet(w'.base, {}) && w'.base.holder.None? && w'.base.file == Some(Lease(w.grip.token, w'.deadline))
  {
    w' := RenewIsReady(o, w, id);
    w' := IsAnswered(o, w', id, Renew(w.grip.token));
  }

  lemma RenewIsReady(o: World, w: World, id: RequestId) returns (w': World)
    requires Led(o, w) && !w.grip.Free? && LockedBy(w.base, id, Renew(w.grip.token), Check) && Quiet(w.base, {id})
    requires Accepts(w.base.mem, w.grip.token, w.base.now)
    ensures var lease := Lease(w.grip.token, w.base.now + TTL);
            && Led(o, w') && Quiet(w'.base, {id}) && LockedBy(w'.base, id, Renew(w.grip.token), Finish(true)) && w'.base.conns == w.base.conns
            && w'.base.file == Some(lease) && w'.base.mem == Remember(lease) && w'.base.now == w.base.now
            && w'.grip == w.grip && w'.acts == w.acts && w'.wait == w.wait && w'.foreign == w.foreign
  {
    w' := RenewDecides(o, w, id, w.grip.token);
    w' := RenewIsWritten(o, w', Lease(w.base.mem.token, w.base.now + TTL));
  }

  lemma RenewIsWritten(o: World, w: World, lease: Lease) returns (w': World)
    requires Led(o, w) && w.base.holder.Some? && w.base.holder.value.pc == Stamp && lease == Lease(w.base.mem.token, w.base.now + TTL)
    ensures Led(o, w') && w' == w.(base := To(w.base.(file := Some(lease), hidden := false, mem := Remember(lease)), Finish(true)))
  {
    w' := Advances(o, w, "", To(w.base, Persist(lease)));
    w' := Writes(o, w', lease);
  }

  lemma FirstLaunch() returns (o: World, w: World)
    ensures Begins(o) && Led(o, w) && w.foreign == {} && w.acts == [] && w.base.undrainSent == {} && w.base.issued == {} && w.base.mem == NO_LEASE
    ensures Quiet(w.base, {}) && w.base.holder.None? && w.wait.Nothing? && w.base.slots == 0 && w.base.nextID == 0 && w.base.conns == map[]
  {
    var s0 := State(1, None, false, Down, NO_LEASE, {}, false, 0, 0, {}, {}, map[], None, {}, {}, {});
    o := World(s0, Free, [], Nothing, 0, false, {}, {});
    Stays(o);
    w := Happens(o, o, Relaunch(true, true), s0.(mode := Starting));
    w := Happens(o, w, Serve, s0.(mode := Serving));
  }

  lemma Stays(o: World)
    ensures Led(o, o)
  {
    assert Playable(o, []) && Sees([]) && Play(o, []) == o;
  }

  /** The theorem is about something: a client alone with a fresh daemon drains, renews and may
      issue its bootout well before the deadline. */
  lemma BootoutIsReachable(token: Token) returns (w: World)
    requires ValidToken(token)
    ensures Played(w) && Able(w, Bootout) && w.grip.token == token && w.acts == [Granted(token), Renewed(token)]
    ensures w.base.now + TTL == w.deadline && !w.blinded && w.foreign == {} && w.base.mode == Serving
  {
    var o;
    o, w := DrainIsReachable(token);
    w := Connects(o, w);
    w := Asks(o, w, 2, true);
    w := RenewGoesThrough(o, w, 2);
  }

  lemma DrainIsReachable(token: Token) returns (o: World, w: World)
    requires ValidToken(token)
    ensures Begins(o) && Led(o, w) && w.grip == Holding(token) && w.acts == [Granted(token)] && w.foreign == {} && w.wait.Nothing?
    ensures Quiet(w.base, {}) && w.base.holder.None? && w.base.mem == Memory(token, w.base.now + TTL)
    ensures w.base.slots == 1 && w.base.nextID == 1
  {
    o, w := FirstLaunch();
    w := Connects(o, w);
    w := Asks(o, w, 1, false);
    w := DrainGoesThrough(o, w, token, 1);
  }

  // ---------------------------------------------------------------- a lease that is overlooked

  predicate SameClient(w: World, w': World) {
    w'.grip == w.grip && w'.acts == w.acts && w'.wait == w.wait && w'.deadline == w.deadline && w'.base.now == w.base.now
  }

  // Another client starts a child.
  lemma StartsAChild(o: World, w: World, id: RequestId) returns (w': World)
    requires Led(o, w) && Quiet(w.base, {id}) && LockedBy(w.base, id, Start, Admit) && w.base.mem == NO_LEASE
    ensures Led(o, w') && SameClient(w, w') && w'.base.children == {0}
  {
    w' := Advances(o, w, "", To(w.base, Spawn));
    w' := Advances(o, w', "", To(w.base, Register));
    w' := Registers(o, w');
  }

  lemma Registers(o: World, w: World) returns (w': World)
    requires Led(o, w) && w.base.holder.Some? && w.base.holder.value.pc == Register && w.base.children == {}
    ensures Led(o, w') && w' == w.(base := To(w.base.(children := {0}), Watch(0)))
  {
    assert w.base.children + {0} == {0};
    w' := Advances(o, w, "", To(w.base.(children := {0}), Watch(0)));
  }

  lemma OtherAsksToStart(o: World, w: World, id: RequestId) returns (w': World)
    requires Led(o, w) && w.base.holder.None? && w.base.mode == Serving && !w.base.accepting && w.base.children == {}
    requires w.base.queued == {id} && w.base.active == {} && InPhase(w.base, id, Unread)
    ensures Led(o, w') && SameClient(w, w') && Quiet(w'.base, {id}) && LockedBy(w'.base, id, Start, Admit) && w'.base.mem == w.base.mem
  {
    w' := Moves(o, w, Base(Read(id, Start)));
    assert w'.base == w.base.(conns := w.base.conns[id := Phase.Ready(Start)]);
    assert w.foreign + {} == w.foreign;
    w' := TakesLock(o, w', id, Start);
  }

  lemma OtherStarts(o: World, w: World) returns (w': World)
    requires Led(o, w) && Quiet(w.base, {}) && w.base.holder.None? && w.base.mem == NO_LEASE && w.base.slots < MAX_CONNECTIONS
    ensures Led(o, w') && SameClient(w, w') && w'.base.children == {0}
  {
    w' := Connects(o, w);
    w' := OtherAsksToStart(o, w', w.base.nextID + 1);
    w' := StartsAChild(o, w', w.base.nextID + 1);
  }

  // The daemon comes up without a lease, and another client starts a child.
  lemma ComesUpExposed(o: World) returns (w: World)
    requires Sound(o) && o.base.mode == Starting && o.base.mem == NO_LEASE
    ensures Led(o, w) && SameClient(o, w) && w.base.children == {0}
  {
    StartsEmpty(o.base);
    Stays(o);
    w := Happens(o, o, Serve, o.base.(mode := Serving));
    w := OtherStarts(o, w);
  }

  lemma StartsEmpty(s: State)
    requires Inv(s) && s.mode == Starting
    ensures Quiet(s.(mode := Serving), {}) && s.holder.None? && s.slots == 0
  {
  }

  // From here on, every bootout the client may issue before its deadline finds no child, as long
  // as relaunches from here on can read the file.
  ghost predicate SafeFrom(o: World) {
    forall w :: Led(o, w) && Able(w, Bootout) && w.base.now < w.deadline ==> Protected(w.base)
  }

  lemma {:induction false} SeesStaysUnblinded(o: World, moves: seq<Move>)
    requires Playable(o, moves) && Sees(moves) && !o.blinded
    ensures !Play(o, moves).blinded
    decreases |moves|
  {
    if moves != [] {
      assert !(moves[0].Base? && Blind(moves[0].step));
      assert forall i :: 0 <= i < |moves[1..]| ==> moves[1..][i] == moves[i + 1];
      SeesStaysUnblinded(Do(o, moves[0]), moves[1..]);
    }
  }

  lemma UnblindedIsSafe(o: World)
    requires Sound(o) && !o.blinded
    ensures SafeFrom(o)
  {
    forall w | Led(o, w) && Able(w, Bootout) && w.base.now < w.deadline ensures Protected(w.base) {
      var moves :| Playable(o, moves) && Sees(moves) && Play(o, moves) == w;
      PlayKeepsSound(o, moves);
      SeesStaysUnblinded(o, moves);
      InvProtects(w.base);
    }
  }

  lemma BlindIsUnsafe(o: World)
    requires Sound(o) && o.base.mode == Starting && o.base.mem == NO_LEASE && Able(o, Bootout) && o.base.now < o.deadline
    ensures !SafeFrom(o)
  {
    var w := ComesUpExposed(o);
    assert 0 in w.base.children;
  }

  /** The proviso is exact.  Whenever the daemon is down while a client may still issue its bootout
      in time, the bootout stays safe after the relaunch if and only if the relaunch can read the
      lease file.  If it cannot, another client can start a child before the deadline. */
  lemma SafeExactlyWhenRelaunchReads(w: World, readable: bool, unlinked: bool)
    requires Played(w) && Able(w, Bootout) && w.base.now < w.deadline && !w.blinded && w.base.mode == Down
    ensures SafeFrom(Do(w, Base(Relaunch(readable, unlinked)))) <==> readable
  {
    PlayedIsSound(w);
    var o := Do(w, Base(Relaunch(readable, unlinked)));
    MoveKeepsSound(w, Base(Relaunch(readable, unlinked)));
    if readable {
      UnblindedIsSafe(o);
    } else {
      BlindIsUnsafe(o);
    }
  }

  lemma PlayedIsSound(w: World)
    requires Played(w)
    ensures Sound(w)
  {
    var start, moves :| Begins(start) && Playable(start, moves) && Play(start, moves) == w;
    InitInv(start.base);
    PlayKeepsSound(start, moves);
  }

  /** Such a moment exists: the daemon dies right after a renewal was answered. */
  lemma DownInTimeIsReachable(token: Token) returns (w: World)
    requires ValidToken(token)
    ensures Played(w) && Able(w, Bootout) && w.grip.token == token && w.base.now < w.deadline && !w.blinded && w.base.mode == Down
  {
    var up := BootoutIsReachable(token);
    PlayOn(up, Base(Crash));
    w := Do(up, Base(Crash));
  }

  /** And with it a run in which the bootout of a client that did everything right finds a child. */
  lemma OverlookedLeaseExposes(token: Token) returns (w: World)
    requires ValidToken(token)
    ensures Played(w) && Able(w, Bootout) && w.grip.token == token && w.base.now < w.deadline && w.base.children != {}
  {
    var down := DownInTimeIsReachable(token);
    var o := Do(down, Base(Relaunch(false, true)));
    PlayOn(down, Base(Relaunch(false, true)));
    PlayedIsSound(o);
    w := ComesUpExposed(o);
    LedIsPlayed(o, w);
    assert 0 in w.base.children;
  }
}
