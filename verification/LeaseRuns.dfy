/** Runs built step by step: the whole-call functions of `Lease` are what the handler's
    steps add up to; when exactly a renewal revives a lease that has run out; and concrete
    reachable runs. */
module LeaseRuns {
  import opened Wrappers
  import opened Lease
  import opened LeaseProtocol
  import opened LeaseInvariants
  import opened LeaseTheorems

  lemma {:induction false} RunSnoc(s: State, steps: seq<Step>, last: Step)
    requires Possible(s, steps) && Enabled(Run(s, steps), last)
    ensures Possible(s, steps + [last]) && Run(s, steps + [last]) == Apply(Run(s, steps), last)
    decreases |steps|
  {
    var all := steps + [last];
    if steps == [] {
      assert all == [last] && all[1..] == [];
    } else {
      assert all[0] == steps[0] && all[1..] == steps[1..] + [last];
      RunSnoc(Apply(s, steps[0]), steps[1..], last);
    }
  }

  lemma StepStaysReachable(s: State, step: Step)
    requires Reachable(s) && Enabled(s, step)
    ensures Reachable(Apply(s, step))
  {
    var s0: State, steps :| Init(s0) && Possible(s0, steps) && Run(s0, steps) == s;
    RunSnoc(s0, steps, step);
  }

  lemma Handles(s: State, c: Choice) returns (s': State)
    requires Reachable(s) && s.holder.Some? && ChoiceAllowed(s, s.holder.value, c)
    ensures Reachable(s') && s' == Advance(s, s.holder.value, c)
  {
    StepStaysReachable(s, Handler(c));
    s' := Apply(s, Handler(c));
  }

  lemma Waits(s: State, delta: nat) returns (s': State)
    requires Reachable(s)
    ensures Reachable(s') && s' == s.(now := s.now + delta)
  {
    StepStaysReachable(s, Tick(delta));
    s' := Apply(s, Tick(delta));
  }

  function Copies(s: State): Store { Store(s.mem, s.file) }

  predicate HandlerAt(s: State, pc: Pc) { s.holder.Some? && s.holder.value.pc == pc }

  // What a handler's own steps never touch between its admission and its answer.
  predicate SameSurroundings(s: State, s': State) {
    && s'.mode == s.mode && s'.children == s.children && s'.queued == s.queued && s'.active == s.active
    && s'.conns == s.conns && s'.slots == s.slots && s'.accepting == s.accepting && s'.nextID == s.nextID
    && s'.holder.Some? && s.holder.Some? && s'.holder.value.id == s.holder.value.id
    && s'.holder.value.action == s.holder.value.action
  }

  function Outcome(ok: bool): Choice { Choice(ok, "", 0) }

  /** The steps of an admitted drain add up to `DrainCall`. */
  lemma DrainStepsAddUp(s: State, minted: Option<Token>, persisted: bool) returns (s': State)
    requires Reachable(s) && HandlerAt(s, IdleCheck) && s.holder.value.action == Drain
    requires minted.Some? ==> ValidToken(minted.value) && minted.value !in s.issued
    ensures Reachable(s') && SameSurroundings(s, s') && s'.now == s.now
    ensures var r := DrainCall(Copies(s), Idle(s, s.holder.value.id), minted, s.now, persisted);
            HandlerAt(s', Finish(r.0.Some?)) && Copies(s') == r.1
  {
    s' := Handles(s, Outcome(true));
    if Idle(s, s.holder.value.id) {
      s' := IssueStepsAddUp(s', minted, persisted);
    }
  }

  lemma IssueStepsAddUp(s: State, minted: Option<Token>, persisted: bool) returns (s': State)
    requires Reachable(s) && HandlerAt(s, Issue)
    requires minted.Some? ==> ValidToken(minted.value) && minted.value !in s.issued
    ensures Reachable(s') && SameSurroundings(s, s') && s'.now == s.now
    ensures var granted := minted.Some? && persisted;
            && HandlerAt(s', Finish(granted))
            && Copies(s') == if granted then Store(Memory(minted.value, s.now + TTL), Some(Lease(minted.value, s.now + TTL))) else Copies(s)
  {
    s' := Handles(s, Choice(minted.Some?, if minted.Some? then minted.value else "", 0));
    if minted.Some? {
      assert HandlerAt(s', Persist(Lease(minted.value, s.now + TTL)));
      s' := Handles(s', Outcome(persisted));
      if persisted {
        assert HandlerAt(s', Publish(Lease(minted.value, s.now + TTL)));
        s' := Handles(s', Outcome(true));
      }
    }
  }

  // An expired lease is swept in two steps, after which the handler refuses.
  lemma SweepStepsAddUp(s: State, unlinked: bool) returns (s': State)
    requires Reachable(s) && s.holder.Some? && s.holder.value.pc.SweepFile? && OwnerAction(s.holder.value.action)
    requires s.mem.token != "" && s.mem.until <= s.now
    ensures Reachable(s') && SameSurroundings(s, s') && s'.now == s.now
    ensures HandlerAt(s', Finish(false)) && Copies(s') == ObserveExpiry(Copies(s), s.now, unlinked)
  {
    s' := Handles(s, Outcome(unlinked));
    assert s'.holder.value.pc.SweepMemory?;
    s' := Handles(s', Outcome(true));
  }

  /** The steps of an undrain add up to `UndrainCall`. */
  lemma UndrainStepsAddUp(s: State, swept: bool, unlinked: bool) returns (s': State)
    requires Reachable(s) && HandlerAt(s, Check) && s.holder.value.action.Undrain?
    ensures Reachable(s') && SameSurroundings(s, s') && s'.now == s.now
    ensures var r := UndrainCall(Copies(s), s.holder.value.action.token, s.now, swept, unlinked);
            HandlerAt(s', Finish(r.0)) && Copies(s') == r.1
  {
    s' := Handles(s, Outcome(true));
    if s'.holder.value.pc.SweepFile? {
      s' := SweepStepsAddUp(s', swept);
    } else if s'.holder.value.pc.Unlink? {
      s' := Handles(s', Outcome(unlinked));
      if unlinked {
        assert HandlerAt(s', Clear);
        s' := Handles(s', Outcome(true));
      }
    }
  }

  /** The steps of a renewal add up to `RenewCall`, for every delay between its clock readings. */
  lemma RenewStepsAddUp(s: State, wait: nat, late: nat, swept: bool, reswept: bool, persisted: bool) returns (s': State)
    requires Reachable(s) && HandlerAt(s, Check) && s.holder.value.action.Renew?
    ensures Reachable(s') && SameSurroundings(s, s')
    ensures var times := RenewTimes(s.now, s.now + wait, s.now + wait + late);
            var r := RenewCall(Copies(s), s.holder.value.action.token, times, swept, Idle(s, s.holder.value.id), reswept, persisted);
            HandlerAt(s', Finish(r.0)) && Copies(s') == r.1
  {
    s' := Handles(s, Outcome(true));
    if s'.holder.value.pc.SweepFile? {
      s' := SweepStepsAddUp(s', swept);
    } else if s'.holder.value.pc.IdleCheck? {
      s' := IdleStepsAddUp(s', wait, late, reswept, persisted);
    }
  }

  lemma IdleStepsAddUp(s: State, wait: nat, late: nat, reswept: bool, persisted: bool) returns (s': State)
    requires Reachable(s) && HandlerAt(s, IdleCheck) && s.holder.value.action.Renew?
    ensures Reachable(s') && SameSurroundings(s, s')
    ensures var r := if Idle(s, s.holder.value.id) then Rechecked(Copies(s), s.holder.value.action.token, s.now + wait, s.now + wait + late, reswept, persisted)
                     else (false, Copies(s));
            HandlerAt(s', Finish(r.0)) && Copies(s') == r.1
  {
    s' := Handles(s, Outcome(true));
    if s'.holder.value.pc.Recheck? {
      s' := Waits(s', wait);
      s' := RecheckStepsAddUp(s', late, reswept, persisted);
    }
  }

  // What a renewal does from its second check on.
  function Rechecked(store: Store, token: Token, second: int, stamp: int, reswept: bool, persisted: bool): (bool, Store) {
    if !Accepts(store.mem, token, second) then (false, ObserveExpiry(store, second, reswept))
    else if !persisted then (false, store)
    else (true, Store(Memory(token, stamp + TTL), Some(Lease(token, stamp + TTL))))
  }

  lemma RecheckStepsAddUp(s: State, late: nat, reswept: bool, persisted: bool) returns (s': State)
    requires Reachable(s) && HandlerAt(s, Recheck) && s.holder.value.action.Renew?
    ensures Reachable(s') && SameSurroundings(s, s')
    ensures var r := Rechecked(Copies(s), s.holder.value.action.token, s.now, s.now + late, reswept, persisted);
            HandlerAt(s', Finish(r.0)) && Copies(s') == r.1
  {
    s' := Handles(s, Outcome(true));
    if s'.holder.value.pc.SweepFile? {
      s' := SweepStepsAddUp(s', reswept);
    } else if s'.holder.value.pc.Stamp? {
      s' := Waits(s', late);
      s' := StampStepsAddUp(s', persisted);
    }
  }

  lemma StampStepsAddUp(s: State, persisted: bool) returns (s': State)
    requires Reachable(s) && HandlerAt(s, Stamp)
    ensures Reachable(s') && SameSurroundings(s, s') && HandlerAt(s', Finish(persisted))
    ensures Copies(s') == if persisted then Store(Memory(s.mem.token, s.now + TTL), Some(Lease(s.mem.token, s.now + TTL))) else Copies(s)
  {
    s' := Handles(s, Outcome(true));
    assert HandlerAt(s', Persist(Lease(s.mem.token, s.now + TTL)));
    s' := Handles(s', Outcome(persisted));
    if persisted {
      assert HandlerAt(s', Publish(Lease(s.mem.token, s.now + TTL)));
      s' := Handles(s', Outcome(true));
    }
  }

  // ---------------------------------------------------------------- a concrete run

  lemma Connects(s: State, action: Action) returns (s': State)
    requires Reachable(s) && s.mode == Serving && s.holder.None? && !s.accepting && s.slots < MAX_CONNECTIONS
    requires action != Ping && WellShaped(action)
    ensures Reachable(s') && s'.holder.Some? && s'.holder.value.action == action && s'.holder.value.pc == Locked
    ensures s'.mode == Serving && s'.children == s.children && !s'.accepting
    ensures s'.mem == s.mem && s'.file == s.file && s'.now == s.now && s'.issued == s.issued
    ensures s'.slots == s.slots + 1 && s'.active == s.active && s'.queued == s.queued + {s'.holder.value.id}
  {
    StepStaysReachable(s, TakeSlot);
    var a := Apply(s, TakeSlot);
    StepStaysReachable(a, Enqueue);
    var b := Apply(a, Enqueue);
    var id := b.nextID;
    StepStaysReachable(b, Read(id, action));
    var c := Apply(b, Read(id, action));
    StepStaysReachable(c, AcquireLock(id));
    s' := Apply(c, AcquireLock(id));
  }

  lemma Answers(s: State) returns (s': State)
    requires Reachable(s) && s.holder.Some? && s.holder.value.pc.Finish? && s.active == {s.holder.value.id}
    ensures Reachable(s') && s'.holder.None? && Copies(s') == Copies(s) && s'.active == {} && s'.queued == s.queued
    ensures s'.now == s.now && s'.mode == s.mode && s'.children == s.children && s'.slots == s.slots && s'.accepting == s.accepting
  {
    s' := Handles(s, Outcome(true));
    assert s'.holder.value.pc.Respond?;
    s' := Handles(s', Outcome(true));
  }

  // A lone drain in a fresh daemon passes admission.
  lemma DrainAdmitted(s: State) returns (s': State)
    requires Reachable(s) && HandlerAt(s, Locked) && s.holder.value.action == Drain && s.mem == NO_LEASE
    requires s.queued == {s.holder.value.id} && s.active == {}
    ensures Reachable(s') && HandlerAt(s', IdleCheck)
    ensures s' == s.(queued := {}, active := {s.holder.value.id}, holder := s'.holder)
    ensures s'.holder.value == s.holder.value.(pc := IdleCheck)
  {
    s' := Handles(s, Outcome(true));
    assert HandlerAt(s', Admit);
    s' := Handles(s', Outcome(true));
  }

  lemma FirstBoot() returns (s: State)
    ensures Reachable(s) && s.mode == Serving && s.holder.None? && !s.accepting && s.slots == 0 && s.issued == {}
    ensures s.mem == NO_LEASE && s.children == {} && s.queued == {} && s.active == {}
  {
    s := State(1, None, false, Down, NO_LEASE, {}, false, 0, 0, {}, {}, map[], None, {}, {}, {});
    assert Possible(s, []) && Run(s, []) == s;
    StepStaysReachable(s, Relaunch(true, true));
    s := Apply(s, Relaunch(true, true));
    StepStaysReachable(s, Serve);
    s := Apply(s, Serve);
  }

  // The state of a renewal that has taken its new deadline and written it.
  function Written(s: State, now: int, lease: Lease): State
    requires s.holder.Some?
  {
    s.(now := now, file := Some(lease), hidden := false, holder := Some(s.holder.value.(pc := Publish(lease))))
  }

  // From the second check on: `toStamp` passes before the new deadline is computed, `toRename`
  // while the file is written, `toPublish` between the rename and the memory write.
  lemma WriteWithDelays(s: State, toStamp: nat, toRename: nat, toPublish: nat) returns (before: State)
    requires Reachable(s) && HandlerAt(s, Stamp)
    ensures Reachable(before)
    ensures before == Written(s, s.now + toStamp + toRename + toPublish, Lease(s.mem.token, s.now + toStamp + TTL))
  {
    before := Waits(s, toStamp);
    before := Handles(before, Outcome(true));
    assert HandlerAt(before, Persist(Lease(s.mem.token, s.now + toStamp + TTL)));
    before := Waits(before, toRename);
    before := Handles(before, Outcome(true));
    before := Waits(before, toPublish);
  }

  /** The second ownership check of a renewal reads the clock before the new deadline is computed
      and the file is written.  Publishing the renewal revives a lease that had run out exactly
      when those delays together reach the old deadline while writing and publishing stay within
      one TTL; dying before publishing and being relaunched at once does the same.  No child can
      have started meanwhile. */
  lemma RenewRevivesExactlyWhenLate(s: State, toStamp: nat, toRename: nat, toPublish: nat) returns (before: State)
    requires Reachable(s) && HandlerAt(s, Stamp)
    ensures Reachable(before)
    ensures before == Written(s, s.now + toStamp + toRename + toPublish, Lease(s.mem.token, s.now + toStamp + TTL))
    ensures Enabled(before, PROCEED) && before.mode == Serving
    ensures var late := toStamp + toRename + toPublish >= s.mem.until - s.now && toRename + toPublish < TTL;
            && (Effective(before).None? && InForce(Apply(before, PROCEED), s.mem.token) <==> late)
            && (Effective(before).None? && InForce(Relaunched(before, true, true), s.mem.token) <==> late)
    ensures before.children == {} && Apply(before, PROCEED).children == {}
  {
    before := WriteWithDelays(s, toStamp, toRename, toPublish);
    StampFacts(s);
    PublishingFacts(before);
  }

  lemma StampFacts(s: State)
    requires Reachable(s) && HandlerAt(s, Stamp)
    ensures s.mode == Serving && s.children == {} && s.mem.token != ""
  {
    ReachableInv(s);
    assert HandlerInv(s, s.holder.value);
  }

  // What publishing a written lease, or dying before it, leaves in force.
  lemma PublishingFacts(s: State)
    requires Reachable(s) && s.holder.Some? && s.holder.value.pc.Publish?
    ensures s.mode == Serving && s.children == {} && Enabled(s, PROCEED)
    ensures var lease := s.holder.value.pc.lease; var kept := if s.now < lease.until then Some(lease) else None;
            Effective(Apply(s, PROCEED)) == kept && Effective(Relaunched(s, true, true)) == kept
  {
    ReachableInv(s);
    assert HandlerInv(s, s.holder.value);
  }

  // One nanosecond after a first drain was answered, its owner renews and gets past both checks.
  lemma FirstRenewal(token: Token) returns (s: State)
    requires ValidToken(token)
    ensures Reachable(s) && HandlerAt(s, Stamp) && s.mem.token == token && s.now == s.mem.until - TTL + 1 && s.mode == Serving
  {
    s := DrainAnswered(token);
    s := Waits(s, 1);
    s := Connects(s, Renew(token));
    s := RenewReachesStamp(s);
  }

  lemma DrainAnswered(token: Token) returns (s: State)
    requires ValidToken(token)
    ensures Reachable(s) && s.holder.None? && s.mode == Serving && s.mem == Memory(token, s.now + TTL)
    ensures s.children == {} && s.active == {} && s.queued == {} && !s.accepting && s.slots < MAX_CONNECTIONS - 1
  {
    s := FirstBoot();
    s := Connects(s, Drain);
    s := DrainAdmitted(s);
    s := DrainStepsAddUp(s, Some(token), true);
    s := Answers(s);
  }

  /** Revival is no artefact: with no time between the two clock readings, a file write that
      lasts just under one TTL is enough.  The lease is in force, runs out during the write, and
      is in force again under the same token once it is published. */
  lemma SlowWriteRevives(token: Token) returns (s: State, before: State)
    requires ValidToken(token)
    ensures Reachable(s) && HandlerAt(s, Stamp) && InForce(s, token)
    ensures Reachable(before) && Enabled(before, PROCEED) && before.now == s.now + TTL - 1
    ensures Effective(before).None? && InForce(Apply(before, PROCEED), token)
  {
    s := FirstRenewal(token);
    before := RenewRevivesExactlyWhenLate(s, 0, TTL - 1, 0);
  }

  /** Disk and memory do differ: between the unlink and the clearing of an undrain, memory holds
      a live lease and there is no file. */
  lemma CopiesDoDiffer(token: Token) returns (s: State)
    requires ValidToken(token)
    ensures Reachable(s) && s.mode == Serving && Draining(s.mem, s.now) && s.file == None
  {
    s := DrainAnswered(token);
    s := Connects(s, Undrain(token));
    s := Handles(s, Outcome(true));
    assert HandlerAt(s, Check);
    s := Handles(s, Outcome(true));
    assert HandlerAt(s, Unlink);
    s := Handles(s, Outcome(true));
  }

  lemma RenewReachesStamp(s: State) returns (s': State)
    requires Reachable(s) && s.holder.Some? && s.holder.value.action.Renew? && s.holder.value.pc == Locked
    requires Accepts(s.mem, s.holder.value.action.token, s.now)
    requires s.children == {} && s.active == {} && s.queued == {s.holder.value.id}
    ensures Reachable(s') && s'.holder.Some? && s'.holder.value.pc == Stamp && s'.mem == s.mem && s'.now == s.now
    ensures s'.mode == s.mode
  {
    s' := Handles(s, Outcome(true));
    assert s'.holder.value.pc == Check;
    s' := ChecksPass(s');
  }

  lemma ChecksPass(s: State) returns (s': State)
    requires Reachable(s) && s.holder.Some? && s.holder.value.action.Renew? && s.holder.value.pc == Check
    requires Accepts(s.mem, s.holder.value.action.token, s.now)
    requires s.children == {} && s.queued == {} && s.active == {s.holder.value.id}
    ensures Reachable(s') && s' == At(s, s.holder.value, Stamp)
  {
    s' := Handles(s, Outcome(true));
    assert s' == At(s, s.holder.value, IdleCheck) && Idle(s', s.holder.value.id);
    s' := Handles(s', Outcome(true));
    assert s' == At(s, s.holder.value, Recheck);
    s' := Handles(s', Outcome(true));
  }
}
