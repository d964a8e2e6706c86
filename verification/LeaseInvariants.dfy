/** Every step of the protocol keeps the invariants, so they hold in every reachable state. */
module LeaseInvariants {
  import opened Wrappers
  import opened LeaseProtocol

  lemma SingletonSet(ids: set<RequestId>, id: RequestId)
    requires id in ids && |ids| == 1
    ensures ids == {id}
  {
    assert |ids - {id}| == 0;
  }

  // Counting zero other requests means the tracker holds the asking request and nothing else.
  lemma IdleMeansAlone(s: State, id: RequestId)
    requires id in s.active && id !in s.queued
    ensures Idle(s, id) <==> NoOtherWork(s, id)
  {
    if Idle(s, id) {
      assert |s.active| >= 1 by { assert s.active == (s.active - {id}) + {id}; }
      SingletonSet(s.active, id);
    }
  }

  // The handler enters or leaves the tracker, or answers.
  predicate TrackerPc(pc: Pc) { pc.Locked? || pc.Finish? || pc.Respond? }

  // It decides, changing neither file nor memory.
  predicate DecidingPc(pc: Pc) { pc.Admit? || pc.Check? || pc.IdleCheck? || pc.Recheck? }

  // It grants or extends a lease.
  predicate GrantingPc(pc: Pc) { pc.Issue? || pc.Stamp? || pc.Persist? || pc.Publish? }

  // It ends one.
  predicate EndingPc(pc: Pc) { pc.Unlink? || pc.Clear? || pc.SweepFile? || pc.SweepMemory? }

  lemma TrackerPcKeepsLease(s: State, c: Choice)
    requires LeaseInv(s) && s.holder.Some? && s.mode == Serving && TrackerPc(s.holder.value.pc)
    ensures LeaseInv(Advance(s, s.holder.value, c))
  {
  }

  // A handler that only moves on keeps the invariant if it arrives where it may be.
  lemma MovingOnKeepsLease(s: State, pc: Pc)
    requires LeaseInv(s) && s.holder.Some?
    requires HandlerInv(At(s, s.holder.value, pc), s.holder.value.(pc := pc))
    ensures LeaseInv(At(s, s.holder.value, pc))
  {
  }

  lemma AdmissionKeepsLease(s: State, c: Choice)
    requires LeaseInv(s) && s.holder.Some? && s.holder.value.pc.Admit?
    ensures LeaseInv(Advance(s, s.holder.value, c))
  {
    assert HandlerInv(s, s.holder.value);
    MovingOnKeepsLease(s, Advance(s, s.holder.value, c).holder.value.pc);
  }

  lemma CheckKeepsLease(s: State, c: Choice)
    requires LeaseInv(s) && s.holder.Some? && (s.holder.value.pc.Check? || s.holder.value.pc.Recheck?)
    ensures LeaseInv(Advance(s, s.holder.value, c))
  {
    var h := s.holder.value;
    assert HandlerInv(s, h);
    var idle := h.pc.Recheck?;
    var pass := if idle then Stamp else if h.action.Undrain? then Unlink else IdleCheck;
    CheckArrives(s, h, pass, idle);
    MovingOnKeepsLease(s, AfterCheck(s, h, h.action.token, pass, idle));
  }

  // Wherever the ownership check leads, the handler may be there.
  lemma CheckArrives(s: State, h: Holder, pass: Pc, idle: bool)
    requires HandlerInv(s, h) && OwnerAction(h.action) && (if idle then h.pc.Recheck? else h.pc.Check?)
    requires pass == if idle then Stamp else if h.action.Undrain? then Unlink else IdleCheck
    ensures var pc := AfterCheck(s, h, h.action.token, pass, idle); HandlerInv(At(s, h, pc), h.(pc := pc))
  {
  }

  lemma IdleCheckKeepsLease(s: State, c: Choice)
    requires LeaseInv(s) && s.holder.Some? && s.holder.value.pc.IdleCheck?
    requires s.holder.value.id in s.active && s.holder.value.id !in s.queued
    ensures LeaseInv(Advance(s, s.holder.value, c))
  {
    IdleMeansAlone(s, s.holder.value.id);
  }

  lemma GrantKeepsLease(s: State, c: Choice)
    requires LeaseInv(s) && s.holder.Some? && ChoiceAllowed(s, s.holder.value, c) && GrantingPc(s.holder.value.pc)
    ensures LeaseInv(Advance(s, s.holder.value, c))
  {
  }

  lemma EndKeepsLease(s: State, c: Choice)
    requires LeaseInv(s) && s.holder.Some? && EndingPc(s.holder.value.pc)
    ensures LeaseInv(Advance(s, s.holder.value, c))
  {
  }

  // Starting a child happens without a lease in memory or an unexpired one on disk.
  lemma StartKeepsLease(s: State, c: Choice)
    requires LeaseInv(s) && s.holder.Some?
    requires var pc := s.holder.value.pc; pc.Spawn? || pc.Register? || pc.Watch? || pc.Other?
    ensures LeaseInv(Advance(s, s.holder.value, c))
  {
  }

  lemma HandlerKeepsLease(s: State, step: Step)
    requires LeaseInv(s) && TrackerInv(s) && Enabled(s, step) && step.Handler?
    ensures LeaseInv(Apply(s, step))
  {
    var pc, c := s.holder.value.pc, step.choice;
    if TrackerPc(pc) {
      TrackerPcKeepsLease(s, c);
    } else if pc.IdleCheck? {
      assert CountsAsActive(s, s.holder.value.id) && !CountsAsQueued(s, s.holder.value.id);
      IdleCheckKeepsLease(s, c);
    } else if pc.Admit? {
      AdmissionKeepsLease(s, c);
    } else if pc.Check? || pc.Recheck? {
      CheckKeepsLease(s, c);
    } else if GrantingPc(pc) {
      GrantKeepsLease(s, c);
    } else if EndingPc(pc) {
      EndKeepsLease(s, c);
    } else {
      StartKeepsLease(s, c);
    }
  }

  lemma CrashKeepsLease(s: State, step: Step)
    requires LeaseInv(s) && Enabled(s, step) && (step.Crash? || step.Serve?)
    ensures LeaseInv(Apply(s, step))
  {
  }

  lemma RelaunchKeepsLease(s: State, step: Step)
    requires LeaseInv(s) && Enabled(s, step) && step.Relaunch?
    ensures LeaseInv(Apply(s, step))
  {
  }

  lemma ClockKeepsLease(s: State, step: Step)
    requires LeaseInv(s) && step.Tick?
    ensures LeaseInv(Apply(s, step))
  {
  }

  // Lease and holder are the same, no child is new, and under the idle locks nothing moved.
  predicate SameLease(s: State, s': State) {
    && s'.now == s.now && s'.file == s.file && s'.hidden == s.hidden && s'.mode == s.mode && s'.mem == s.mem && s'.issued == s.issued
    && s'.holder == s.holder && s'.released == s.released && s'.children <= s.children
    && (IdleLocked(s) ==> s'.children == s.children && s'.queued == s.queued && s'.active == s.active)
  }

  lemma SameLeaseKeeps(s: State, s': State)
    requires LeaseInv(s) && SameLease(s, s')
    ensures LeaseInv(s')
  {
  }

  lemma LockKeepsLease(s: State, step: Step)
    requires LeaseInv(s) && Enabled(s, step) && step.AcquireLock? && s.mode == Serving
    ensures LeaseInv(Apply(s, step))
  {
  }

  // The remaining steps touch neither file nor memory and never add a child.
  lemma ConnectionKeepsLease(s: State, step: Step)
    requires LeaseInv(s) && Enabled(s, step)
    requires !step.Handler? && !step.Tick? && !step.Crash? && !step.Relaunch? && !step.Serve? && !step.AcquireLock?
    ensures LeaseInv(Apply(s, step))
  {
    assert SameLease(s, Apply(s, step));
    SameLeaseKeeps(s, Apply(s, step));
  }

  lemma StepKeepsLease(s: State, step: Step)
    requires LeaseInv(s) && TrackerInv(s) && Enabled(s, step)
    ensures LeaseInv(Apply(s, step))
  {
    if step.Handler? {
      HandlerKeepsLease(s, step);
    } else if step.Tick? {
      ClockKeepsLease(s, step);
    } else if step.Crash? || step.Serve? {
      CrashKeepsLease(s, step);
    } else if step.Relaunch? {
      RelaunchKeepsLease(s, step);
    } else if step.AcquireLock? {
      LockKeepsLease(s, step);
    } else {
      ConnectionKeepsLease(s, step);
    }
  }

  lemma HandlerKeepsTracker(s: State, c: Choice)
    requires TrackerInv(s) && s.holder.Some? && s.mode == Serving
    ensures TrackerInv(Advance(s, s.holder.value, c))
  {
    if TrackerPc(s.holder.value.pc) {
      TrackerPcKeepsTracker(s, c);
    } else {
      OtherPcsLeaveTracker(s, c);
      HolderMoves(s, Advance(s, s.holder.value, c));
    }
  }

  predicate SameTracker(s: State, s': State) {
    && s'.conns == s.conns && s'.queued == s.queued && s'.active == s.active && s'.mode == s.mode
    && s'.slots == s.slots && s'.accepting == s.accepting && s'.nextID == s.nextID
  }

  predicate LeavesTracker(s: State, s': State) {
    && SameTracker(s, s') && s.holder.Some? && s'.holder.Some? && s'.holder.value.id == s.holder.value.id
    && !s'.holder.value.pc.Locked? && !s'.holder.value.pc.Respond?
  }

  lemma DecidingLeavesTracker(s: State, c: Choice)
    requires s.holder.Some? && DecidingPc(s.holder.value.pc)
    ensures LeavesTracker(s, Advance(s, s.holder.value, c))
  {
  }

  lemma GrantingLeavesTracker(s: State, c: Choice)
    requires s.holder.Some? && GrantingPc(s.holder.value.pc)
    ensures LeavesTracker(s, Advance(s, s.holder.value, c))
  {
  }

  lemma OtherPcsLeaveTracker(s: State, c: Choice)
    requires s.holder.Some? && !TrackerPc(s.holder.value.pc)
    ensures LeavesTracker(s, Advance(s, s.holder.value, c))
  {
    if DecidingPc(s.holder.value.pc) {
      DecidingLeavesTracker(s, c);
    } else if GrantingPc(s.holder.value.pc) {
      GrantingLeavesTracker(s, c);
    }
  }

  lemma TrackerPcKeepsTracker(s: State, c: Choice)
    requires TrackerInv(s) && s.holder.Some? && s.mode == Serving && TrackerPc(s.holder.value.pc)
    ensures TrackerInv(Advance(s, s.holder.value, c))
  {
  }

  // Moving the holder between two counted pcs changes no membership.
  lemma HolderMoves(s: State, s': State)
    requires TrackerInv(s) && s.mode == Serving && s.holder.Some? && s'.holder.Some?
    requires s'.holder.value.id == s.holder.value.id
    requires !TrackerPc(s.holder.value.pc) && !s'.holder.value.pc.Locked? && !s'.holder.value.pc.Respond?
    requires SameTracker(s, s')
    ensures TrackerInv(s')
  {
  }

  predicate SameStanding(s: State, s': State, id: RequestId) {
    && (id in s.conns <==> id in s'.conns)
    && (id in s.conns ==> s'.conns[id] == s.conns[id] && (HolderAt(s', id) <==> HolderAt(s, id)))
    && (id in s.queued <==> id in s'.queued)
    && (id in s.active <==> id in s'.active)
    && (HolderAt(s, id) && HolderAt(s', id) ==> s'.holder == s.holder)
  }

  predicate Placed(s: State, id: RequestId) {
    && (id in s.queued <==> CountsAsQueued(s, id))
    && (id in s.active <==> CountsAsActive(s, id))
    && (id in s.conns ==> 1 <= id <= s.nextID && (s.conns[id].Held? ==> HolderAt(s, id)))
  }

  // Membership is decided request by request: it is enough to look at those that moved.
  lemma PhasesDecide(s: State, s': State, moved: set<RequestId>)
    requires TrackerInv(s) && s.nextID <= s'.nextID
    requires s'.mode != Serving ==> s'.conns == map[] && s'.slots == 0 && !s'.accepting
    requires forall id :: id !in moved ==> SameStanding(s, s', id)
    requires forall id :: id in moved ==> Placed(s', id)
    requires s'.slots == |s'.conns| + (if s'.accepting then 1 else 0) && s'.slots <= MAX_CONNECTIONS
    requires s'.holder.Some? ==> InPhase(s', s'.holder.value.id, Held)
    ensures TrackerInv(s')
  {
    forall id ensures Placed(s', id) {
      if id !in moved {
        assert SameStanding(s, s', id);
        assert Placed(s, id);
      }
    }
    forall id ensures id in s'.queued <==> CountsAsQueued(s', id) { assert Placed(s', id); }
    forall id ensures id in s'.active <==> CountsAsActive(s', id) { assert Placed(s', id); }
    forall id | id in s'.conns ensures 1 <= id <= s'.nextID && (s'.conns[id].Held? ==> HolderAt(s', id)) {
      assert Placed(s', id);
    }
  }

  // A request changing phase keeps the number of connections; only enqueue and close change it.
  lemma ConnectionKeepsTracker(s: State, step: Step)
    requires TrackerInv(s) && Enabled(s, step) && !step.Handler?
    requires s.mode != Serving ==> s.holder.None?
    ensures TrackerInv(Apply(s, step))
  {
    if step.Enqueue? {
      EnqueueKeepsTracker(s);
    } else if step.CloseConn? {
      CloseKeepsTracker(s, step.id);
    } else if step.Read? || step.Abandon? || step.AcquireLock? || step.PingBegin? || step.PingComplete? {
      PhaseChangeKeepsTracker(s, step, step.id);
    } else {
      SideStepKeepsTracker(s, step);
    }
  }

  lemma SideStepKeepsTracker(s: State, step: Step)
    requires TrackerInv(s) && Enabled(s, step) && (s.mode != Serving ==> s.holder.None?)
    requires step.Tick? || step.ChildExit? || step.TakeSlot? || step.Crash? || step.Relaunch? || step.Serve?
    ensures TrackerInv(Apply(s, step))
  {
    if !step.Crash? {
      PhasesDecide(s, Apply(s, step), {});
    }
  }

  lemma EnqueueKeepsTracker(s: State)
    requires TrackerInv(s) && Enabled(s, Enqueue)
    ensures TrackerInv(Apply(s, Enqueue))
  {
  }

  lemma CloseKeepsTracker(s: State, id: RequestId)
    requires TrackerInv(s) && Enabled(s, CloseConn(id))
    ensures TrackerInv(Apply(s, CloseConn(id)))
  {
  }

  lemma PhaseChangeKeepsTracker(s: State, step: Step, id: RequestId)
    requires TrackerInv(s) && Enabled(s, step)
    requires step in {Abandon(id), AcquireLock(id), PingBegin(id), PingComplete(id)} || (step.Read? && step.id == id)
    ensures TrackerInv(Apply(s, step))
  {
    var s' := Apply(s, step);
    assert s'.conns.Keys == s.conns.Keys;
    assert Placed(s, id);
    forall other | other !in {id} ensures SameStanding(s, s', other) {}
    PhasesDecide(s, s', {id});
  }

  // What the histories depend on does not change.
  predicate SameHistory(s: State, s': State) {
    && s'.conns == s.conns && s'.undrainSent == s.undrainSent && s'.released == s.released
    && s.holder.Some? && s'.holder.Some? && s'.holder.value.action == s.holder.value.action
  }

  lemma DecidingKeepsHistory(s: State, c: Choice)
    requires s.holder.Some? && DecidingPc(s.holder.value.pc)
    ensures SameHistory(s, Advance(s, s.holder.value, c))
  {
  }

  lemma GrantingKeepsHistory(s: State, c: Choice)
    requires s.holder.Some? && GrantingPc(s.holder.value.pc)
    ensures SameHistory(s, Advance(s, s.holder.value, c))
  {
  }

  lemma HandlerKeepsHistory(s: State, c: Choice)
    requires HistoryInv(s) && s.holder.Some? && HandlerInv(s, s.holder.value)
    ensures HistoryInv(Advance(s, s.holder.value, c))
  {
    if DecidingPc(s.holder.value.pc) {
      DecidingKeepsHistory(s, c);
    } else if GrantingPc(s.holder.value.pc) {
      GrantingKeepsHistory(s, c);
    }
  }

  lemma StepKeepsHistory(s: State, step: Step)
    requires HistoryInv(s) && Enabled(s, step)
    requires s.holder.Some? ==> HandlerInv(s, s.holder.value)
    ensures HistoryInv(Apply(s, step))
  {
    if step.Handler? {
      HandlerKeepsHistory(s, step.choice);
    }
  }

  lemma StepKeepsInv(s: State, step: Step)
    requires Inv(s) && Enabled(s, step)
    ensures Inv(Apply(s, step))
  {
    StepKeepsLease(s, step);
    StepKeepsHistory(s, step);
    if step.Handler? {
      HandlerKeepsTracker(s, step.choice);
    } else {
      ConnectionKeepsTracker(s, step);
    }
  }

  lemma {:induction false} RunKeepsInv(s: State, steps: seq<Step>)
    requires Inv(s) && Possible(s, steps)
    ensures Inv(Run(s, steps))
    decreases |steps|
  {
    if steps != [] {
      StepKeepsInv(s, steps[0]);
      RunKeepsInv(Apply(s, steps[0]), steps[1..]);
    }
  }

  lemma ReachableInv(s: State)
    requires Reachable(s)
    ensures Inv(s)
  {
    var s0: State, steps :| Init(s0) && Possible(s0, steps) && Run(s0, steps) == s;
    InitInv(s0);
    RunKeepsInv(s0, steps);
  }
}
