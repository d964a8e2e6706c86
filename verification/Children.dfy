/** Managed children and process ids.

    A process id names whatever process the kernel last gave it to, so a registered id is
    safe to signal only while its process has not been reaped.  The model has the kernel
    hand out ids again after reaping, foreign processes come and go, and children fork;
    the registry drops a handle before its process is reaped. */
module Children {
  import opened Wrappers

  type Pid = nat
  type Uid = nat      // one per process ever created; never reused
  type Handle = string

  datatype Status = Alive | Zombie

  // `family` is the managed child a process descends from, or FOREIGN.
  datatype Proc = Proc(uid: Uid, status: Status, pgid: Pid, family: Uid)

  const FOREIGN: Uid := 0

  datatype Record = Record(pid: Pid, setPGID: bool)

  // startManagedChild and its exit watcher.
  datatype Phase =
    | Spawned                      // started, no handle yet
    | Registered(handle: Handle)   // in the registry, not yet watched
    | Watched(handle: Handle)
    | Noticed(handle: Handle)      // the watcher fired; next: drop the handle
    | Dropped                      // no handle; next: wait for the process
    | Reaped

  datatype Task = Task(record: Record, phase: Phase)

  datatype State = State(
    daemon: Pid,
    procs: map<Pid, Proc>,
    nextUid: Uid,
    tasks: map<Uid, Task>,
    registry: map<Handle, Record>,
    spawnedFor: map<Handle, Uid>)  // history: the child each handle was issued for

  datatype Step =
    | Spawn(pid: Pid, setPGID: bool)
    | Register(uid: Uid, handle: Handle) | RegisterFails(uid: Uid)
    | Watch(uid: Uid) | WatchFails(uid: Uid)
    | Notice(uid: Uid) | Drop(uid: Uid) | Reap(uid: Uid)
    | Exit(pid: Pid)
    | Vanish(pid: Pid)                    // a process that is no managed child is reaped by its parent
    | Fork(parent: Pid, pid: Pid)
    | NewGroup(pid: Pid)
    | Foreign(pid: Pid)

  predicate Init(s: State) {
    && s.daemon in s.procs && s.nextUid > FOREIGN
    && (forall p :: p in s.procs ==> s.procs[p].uid < s.nextUid && s.procs[p].family == FOREIGN)
    && s.tasks == map[] && s.registry == map[] && s.spawnedFor == map[]
  }

  // The kernel gives out an id only when no process and no process group has it.
  predicate Free(s: State, pid: Pid) {
    pid !in s.procs && forall p :: p in s.procs ==> s.procs[p].pgid != pid
  }

  predicate AtPhase(s: State, uid: Uid, phase: Phase) { uid in s.tasks && s.tasks[uid].phase == phase }

  predicate Managed(s: State, pid: Pid) {
    pid in s.procs && s.procs[pid].uid in s.tasks && s.tasks[s.procs[pid].uid].phase != Reaped
  }

  predicate Enabled(s: State, step: Step) {
    match step
    case Spawn(pid, _) => Free(s, pid) && s.daemon in s.procs
    case Register(uid, handle) => AtPhase(s, uid, Spawned) && handle !in s.spawnedFor
    case RegisterFails(uid) => AtPhase(s, uid, Spawned)
    case Watch(uid) => uid in s.tasks && s.tasks[uid].phase.Registered?
    case WatchFails(uid) => uid in s.tasks && s.tasks[uid].phase.Registered?
    case Notice(uid) => uid in s.tasks && s.tasks[uid].phase.Watched?
    case Drop(uid) => uid in s.tasks && s.tasks[uid].phase.Noticed?
    case Reap(uid) =>
      AtPhase(s, uid, Dropped) && s.tasks[uid].record.pid in s.procs && s.procs[s.tasks[uid].record.pid].status == Zombie
    case Exit(pid) => pid in s.procs && pid != s.daemon && s.procs[pid].status == Alive
    case Vanish(pid) => pid in s.procs && pid != s.daemon && s.procs[pid].status == Zombie && !Managed(s, pid)
    case Fork(parent, pid) => parent in s.procs && s.procs[parent].status == Alive && Free(s, pid)
    case NewGroup(pid) => pid in s.procs && !Managed(s, pid) && s.procs[pid].status == Alive
    case Foreign(pid) => Free(s, pid)
  }

  function Move(s: State, uid: Uid, phase: Phase): State
    requires uid in s.tasks
  {
    s.(tasks := s.tasks[uid := s.tasks[uid].(phase := phase)])
  }

  function Apply(s: State, step: Step): State
    requires Enabled(s, step)
  {
    match step
    case Spawn(pid, setPGID) =>
      var pgid := if setPGID then pid else s.procs[s.daemon].pgid;
      s.(procs := s.procs[pid := Proc(s.nextUid, Alive, pgid, s.nextUid)], nextUid := s.nextUid + 1,
         tasks := s.tasks[s.nextUid := Task(Record(pid, setPGID), Spawned)])
    case Register(uid, handle) =>
      Move(s, uid, Registered(handle))
      .(registry := s.registry[handle := s.tasks[uid].record], spawnedFor := s.spawnedFor[handle := uid])
    case RegisterFails(uid) => Move(s, uid, Dropped)
    case Watch(uid) => Move(s, uid, Watched(s.tasks[uid].phase.handle))
    case WatchFails(uid) => Move(s, uid, Dropped).(registry := s.registry - {s.tasks[uid].phase.handle})
    case Notice(uid) => Move(s, uid, Noticed(s.tasks[uid].phase.handle))
    case Drop(uid) => Move(s, uid, Dropped).(registry := s.registry - {s.tasks[uid].phase.handle})
    case Reap(uid) => Move(s, uid, Reaped).(procs := s.procs - {s.tasks[uid].record.pid})
    case Exit(pid) => s.(procs := s.procs[pid := s.procs[pid].(status := Zombie)])
    case Vanish(pid) => s.(procs := s.procs - {pid})
    case Fork(parent, pid) =>
      s.(procs := s.procs[pid := Proc(s.nextUid, Alive, s.procs[parent].pgid, s.procs[parent].family)], nextUid := s.nextUid + 1)
    case NewGroup(pid) => s.(procs := s.procs[pid := s.procs[pid].(pgid := pid)])
    case Foreign(pid) => s.(procs := s.procs[pid := Proc(s.nextUid, Alive, pid, FOREIGN)], nextUid := s.nextUid + 1)
  }

  // The processes kill(2) reaches for a record: one process, or a process group.
  function Reached(s: State, record: Record): set<Pid> {
    if record.setPGID then set p | p in s.procs && s.procs[p].pgid == record.pid
    else set p | p in s.procs && p == record.pid
  }

  ghost predicate Possible(s: State, steps: seq<Step>)
    decreases |steps|
  {
    steps == [] || (Enabled(s, steps[0]) && Possible(Apply(s, steps[0]), steps[1..]))
  }

  ghost function Run(s: State, steps: seq<Step>): State
    requires Possible(s, steps)
    decreases |steps|
  {
    if steps == [] then s else Run(Apply(s, steps[0]), steps[1..])
  }

  // ---------------------------------------------------------------- invariant

  predicate HasHandle(phase: Phase) { phase.Registered? || phase.Watched? || phase.Noticed? }

  // An unreaped child still owns its process id, and its group holds only its descendants.
  ghost predicate TaskInv(s: State, uid: Uid)
    requires uid in s.tasks
  {
    var t := s.tasks[uid];
    && uid != FOREIGN && uid < s.nextUid
    && (t.phase != Reaped ==>
          && t.record.pid in s.procs && t.record.pid != s.daemon && s.procs[t.record.pid].uid == uid
          && s.procs[t.record.pid].family == uid
          && (t.record.setPGID ==> forall p :: p in s.procs && s.procs[p].pgid == t.record.pid ==> s.procs[p].family == uid)
          && (t.record.setPGID ==> s.procs[t.record.pid].pgid == t.record.pid))
    && (HasHandle(t.phase) ==> t.phase.handle in s.registry && t.phase.handle in s.spawnedFor && s.spawnedFor[t.phase.handle] == uid)
  }

  ghost predicate HandleInv(s: State, handle: Handle)
    requires handle in s.registry
  {
    && handle in s.spawnedFor && s.spawnedFor[handle] in s.tasks
    && var t := s.tasks[s.spawnedFor[handle]];
    HasHandle(t.phase) && t.phase.handle == handle && t.record == s.registry[handle]
  }

  ghost predicate Inv(s: State) {
    && s.daemon in s.procs && s.nextUid > FOREIGN && s.procs[s.daemon].family == FOREIGN
    && (forall p :: p in s.procs ==> s.procs[p].uid < s.nextUid)
    && (forall uid :: uid in s.tasks ==> TaskInv(s, uid))
    && (forall h :: h in s.registry ==> HandleInv(s, h))
  }

  lemma InitInv(s: State)
    requires Init(s)
    ensures Inv(s)
  {
  }

  // Steps of the kernel and of other processes leave tasks and registry alone.
  predicate KernelStep(step: Step) { step.Exit? || step.Vanish? || step.Fork? || step.NewGroup? || step.Foreign? }

  lemma KernelKeepsTask(s: State, step: Step, uid: Uid)
    requires Inv(s) && Enabled(s, step) && KernelStep(step) && uid in s.tasks
    ensures TaskInv(Apply(s, step), uid)
  {
    var s', t := Apply(s, step), s.tasks[uid];
    assert TaskInv(s, uid);
    if t.phase != Reaped {
      assert Managed(s, t.record.pid);
      forall p | t.record.setPGID && p in s'.procs && s'.procs[p].pgid == t.record.pid ensures s'.procs[p].family == uid {
        if p in s.procs && s.procs[p].pgid == s'.procs[p].pgid {
          assert s.procs[p].family == s'.procs[p].family;
        }
      }
    }
  }

  lemma SpawnKeepsTask(s: State, step: Step, uid: Uid)
    requires Inv(s) && Enabled(s, step) && step.Spawn? && uid in Apply(s, step).tasks
    ensures TaskInv(Apply(s, step), uid)
  {
  }

  // The child's own life: start, registration, watching, dropping, reaping.
  predicate LifeStep(step: Step) { !KernelStep(step) && !step.Spawn? }

  lemma LifeKeepsTask(s: State, step: Step, uid: Uid)
    requires Inv(s) && Enabled(s, step) && LifeStep(step) && uid in s.tasks
    ensures TaskInv(Apply(s, step), uid)
  {
    assert TaskInv(s, uid) && TaskInv(s, step.uid);
    if HasHandle(s.tasks[step.uid].phase) {
      assert HandleInv(s, s.tasks[step.uid].phase.handle);
    }
    if HasHandle(s.tasks[uid].phase) {
      assert HandleInv(s, s.tasks[uid].phase.handle);
    }
  }

  lemma StepKeepsHandle(s: State, step: Step, handle: Handle)
    requires Inv(s) && Enabled(s, step) && handle in Apply(s, step).registry
    ensures HandleInv(Apply(s, step), handle)
  {
    if handle in s.registry {
      assert HandleInv(s, handle);
      assert TaskInv(s, s.spawnedFor[handle]);
    }
  }

  lemma StepKeepsInv(s: State, step: Step)
    requires Inv(s) && Enabled(s, step)
    ensures Inv(Apply(s, step))
  {
    var s' := Apply(s, step);
    forall uid | uid in s'.tasks ensures TaskInv(s', uid) {
      if KernelStep(step) {
        KernelKeepsTask(s, step, uid);
      } else if step.Spawn? {
        SpawnKeepsTask(s, step, uid);
      } else {
        LifeKeepsTask(s, step, uid);
      }
    }
    forall h | h in s'.registry ensures HandleInv(s', h) {
      StepKeepsHandle(s, step, h);
    }
    if step.Reap? {
      assert TaskInv(s, step.uid);
    }
  }

  lemma {:induction false} RunKeepsInv(s: State, steps: seq<Step>)
    requires Inv(s) && Possible(s, steps)
    ensures Inv(Run(s, steps))
    decreases |steps|
  {
    if steps != [] {
      StepKeepsInv(s, steps[0]);
      RunKeepsInv(Apply(s, steps[0]), steps[1..]);
    }
  }

  // What a signal through a registered handle reaches.
  ghost predicate ReachesOwnOnly(s: State, handle: Handle)
    requires handle in s.registry
  {
    var record := s.registry[handle];
    && handle in s.spawnedFor && record.pid in s.procs && record.pid in Reached(s, record)
    && s.procs[record.pid].uid == s.spawnedFor[handle] != FOREIGN
    && s.daemon !in Reached(s, record)
    && forall p :: p in Reached(s, record) ==> s.procs[p].family == s.spawnedFor[handle]
  }

  lemma InvReachesOwnOnly(s: State, handle: Handle)
    requires Inv(s) && handle in s.registry
    ensures ReachesOwnOnly(s, handle)
  {
    assert HandleInv(s, handle);
    assert TaskInv(s, s.spawnedFor[handle]);
  }

  /** In every reachable state, under every interleaving of starts, exits, watchers, reaping
      and id reuse: a registered handle names the unreaped process that was spawned for it,
      and a signal through it reaches that process and its descendants and nothing else. */
  lemma SignalReachesOwnChildOnly(s0: State, steps: seq<Step>, handle: Handle)
    requires Init(s0) && Possible(s0, steps) && handle in Run(s0, steps).registry
    ensures ReachesOwnOnly(Run(s0, steps), handle)
  {
    InitInv(s0);
    RunKeepsInv(s0, steps);
    InvReachesOwnOnly(Run(s0, steps), handle);
  }

  /** Two registered handles never reach a common process. */
  lemma HandlesAreDisjoint(s0: State, steps: seq<Step>, first: Handle, second: Handle)
    requires Init(s0) && Possible(s0, steps) && first != second
    requires first in Run(s0, steps).registry && second in Run(s0, steps).registry
    ensures var s := Run(s0, steps); Reached(s, s.registry[first]) !! Reached(s, s.registry[second])
  {
    var s := Run(s0, steps);
    InitInv(s0);
    RunKeepsInv(s0, steps);
    SignalReachesOwnChildOnly(s0, steps, first);
    SignalReachesOwnChildOnly(s0, steps, second);
    assert HandleInv(s, first) && HandleInv(s, second);
  }

  // Once a child is reaped no handle stands for it any more, and none ever will again.
  lemma {:induction false} ReapedStaysGone(s: State, steps: seq<Step>, uid: Uid)
    requires Inv(s) && Possible(s, steps) && AtPhase(s, uid, Reaped)
    ensures var s' := Run(s, steps);
            AtPhase(s', uid, Reaped) && forall h :: h in s'.registry ==> h in s'.spawnedFor && s'.spawnedFor[h] != uid
    decreases |steps|
  {
    if steps == [] {
      forall h | h in s.registry ensures h in s.spawnedFor && s.spawnedFor[h] != uid {
        assert HandleInv(s, h);
      }
    } else {
      assert TaskInv(s, uid);
      StepKeepsInv(s, steps[0]);
      ReapedStaysGone(Apply(s, steps[0]), steps[1..], uid);
    }
  }

  // ---------------------------------------------------------------- the registry object

  datatype ChildRecord = ChildRecord(kind: string, pid: Pid, setPGID: bool, resultPath: string)

  function RecordOf(child: ChildRecord): Record { Record(child.pid, child.setPGID) }

  // kill(2): a negative target names a process group.
  function KillReaches(s: State, target: int): set<Pid> {
    if target < 0 then set p | p in s.procs && s.procs[p].pgid == -target else set p | p in s.procs && p == target
  }

  /** The registry object, on the machine it lives on.  Each method is one or two steps of the
      machine; everything else on the machine may move between calls. */
  class ChildRegistry {
    var children: map<Handle, ChildRecord>
    ghost var machine: State

    ghost predicate Valid()
      reads this
    {
      && Inv(machine) && children.Keys == machine.registry.Keys
      && (forall h :: h in children ==> machine.registry[h] == RecordOf(children[h]))
      && (forall h :: h in children ==> children[h].pid > 0)
    }

    constructor (ghost s: State)
      requires Init(s)
      ensures Valid() && machine == s && children == map[]
    {
      children := map[];
      machine := s;
      new;
      InitInv(s);
    }

    // Anything else that happens on the machine: processes start, fork and end, a watch is set
    // up, an exit is noticed, a process without a handle is reaped.
    ghost method Happens(step: Step)
      requires Valid() && Enabled(machine, step) && !step.Register? && !step.WatchFails? && !step.Drop?
      modifies this`machine
      ensures Valid() && machine == Apply(old(machine), step)
    {
      StepKeepsInv(machine, step);
      machine := Apply(machine, step);
    }

    // `drawn` is the random handle, absent when the generator fails.
    method Add(child: ChildRecord, drawn: Option<Handle>, ghost uid: Uid) returns (handle: Option<Handle>)
      requires Valid() && AtPhase(machine, uid, Spawned) && machine.tasks[uid].record == RecordOf(child) && child.pid > 0
      requires drawn.Some? ==> drawn.value !in machine.spawnedFor
      modifies this
      ensures Valid() && handle == drawn
      ensures machine == Apply(old(machine), if drawn.Some? then Register(uid, drawn.value) else RegisterFails(uid))
      ensures children == if drawn.Some? then old(children)[drawn.value := child] else old(children)
    {
      ghost var step := if drawn.Some? then Register(uid, drawn.value) else RegisterFails(uid);
      StepKeepsInv(machine, step);
      if drawn.Some? {
        children := children[drawn.value := child];
      }
      machine := Apply(machine, step);
      handle := drawn;
    }

    // The watch could not be set up: the handle goes before the process is killed.
    method Remove(handle: Handle, ghost uid: Uid)
      requires Valid() && AtPhase(machine, uid, Registered(handle))
      modifies this
      ensures Valid() && machine == Apply(old(machine), WatchFails(uid)) && children == old(children) - {handle}
    {
      StepKeepsInv(machine, WatchFails(uid));
      children := children - {handle};
      machine := Apply(machine, WatchFails(uid));
    }

    /** The exited child's handle is dropped first and its process reaped second: the two steps of
        the machine in the only order in which the handle never names a reaped process. */
    method RemoveBeforeReap(handle: Handle, ghost uid: Uid)
      requires Valid() && AtPhase(machine, uid, Noticed(handle))
      requires machine.tasks[uid].record.pid in machine.procs && machine.procs[machine.tasks[uid].record.pid].status == Zombie
      modifies this
      ensures Enabled(old(machine), Drop(uid)) && Enabled(Apply(old(machine), Drop(uid)), Reap(uid))
      ensures Valid() && machine == Apply(Apply(old(machine), Drop(uid)), Reap(uid)) && children == old(children) - {handle}
    {
      StepKeepsInv(machine, Drop(uid));
      children := children - {handle};
      machine := Apply(machine, Drop(uid));
      StepKeepsInv(machine, Reap(uid));
      machine := Apply(machine, Reap(uid));
    }

    /** Looks up and kills under one lock.  An unknown handle reaches nothing; a known one reaches
        the child spawned for it and its descendants, and no other process. */
    method Signal(handle: Handle, delivered: bool) returns (path: Option<string>, ghost hit: set<Pid>)
      requires Valid()
      ensures handle !in children ==> path == None && hit == {}
      ensures handle in children ==>
                && path == (if delivered then Some(children[handle].resultPath) else None)
                && hit == Reached(machine, RecordOf(children[handle])) && ReachesOwnOnly(machine, handle)
    {
      if handle !in children {
        return None, {};
      }
      var child := children[handle];
      var target: int := child.pid;
      if child.setPGID {
        target := 0 - target;
      }
      hit := KillReaches(machine, target);
      InvReachesOwnOnly(machine, handle);
      path := if delivered then Some(child.resultPath) else None;
    }
  }

  // The registered child `uid` gets its exit watcher; when that fails the handle goes again.
  method WatchOrRemove(r: ChildRegistry, handle: Handle, watches: bool, ghost uid: Uid)
    requires r.Valid() && AtPhase(r.machine, uid, Registered(handle))
    modifies r
    ensures r.Valid() && (watches ==> AtPhase(r.machine, uid, Watched(handle)))
    ensures r.children == if watches then old(r.children) else old(r.children) - {handle}
  {
    if watches {
      r.Happens(Watch(uid));
    } else {
      r.Remove(handle, uid);
    }
  }

  lemma WatchedReachesOwn(s: State, uid: Uid, handle: Handle)
    requires Inv(s) && AtPhase(s, uid, Watched(handle))
    ensures handle in s.registry && ReachesOwnOnly(s, handle) && s.spawnedFor[handle] == uid
  {
    assert TaskInv(s, uid);
    InvReachesOwnOnly(s, handle);
  }

  // The started child `uid` gets a handle.
  method Enter(r: ChildRegistry, child: ChildRecord, drawn: Option<Handle>, ghost uid: Uid)
    requires r.Valid() && AtPhase(r.machine, uid, Spawned) && r.machine.tasks[uid].record == RecordOf(child) && child.pid > 0
    requires drawn.Some? ==> drawn.value !in r.machine.spawnedFor
    modifies r
    ensures r.Valid() && r.children == if drawn.Some? then old(r.children)[drawn.value := child] else old(r.children)
    ensures drawn.Some? ==> AtPhase(r.machine, uid, Registered(drawn.value))
  {
    var _ := r.Add(child, drawn, uid);
  }

  // The started child `uid` gets a handle and a watcher.
  method Enlist(r: ChildRegistry, child: ChildRecord, drawn: Option<Handle>, watches: bool, ghost uid: Uid)
    returns (handle: Option<Handle>)
    requires r.Valid() && AtPhase(r.machine, uid, Spawned) && r.machine.tasks[uid].record == RecordOf(child) && child.pid > 0
    requires drawn.Some? ==> drawn.value !in r.machine.spawnedFor && drawn.value !in r.children
    modifies r
    ensures r.Valid() && handle == if watches then drawn else None
    ensures r.children == if handle.Some? then old(r.children)[handle.value := child] else old(r.children)
    ensures handle.Some? ==> AtPhase(r.machine, uid, Watched(handle.value))
  {
    Enter(r, child, drawn, uid);
    if drawn.Some? {
      WatchOrRemove(r, drawn.value, watches, uid);
    }
    handle := if watches then drawn else None;
  }

  /** startManagedChild: a child that starts, gets a handle and can be watched is in the registry
      under that handle, and a signal through it reaches only that child; a failure at any point
      leaves the registry as it was. */
  method StartManagedChild(r: ChildRegistry, child: ChildRecord, starts: bool, drawn: Option<Handle>, watches: bool, ghost uid: Uid)
    returns (handle: Option<Handle>)
    requires r.Valid() && child.pid > 0 && uid == r.machine.nextUid
    requires starts ==> Free(r.machine, child.pid)
    requires drawn.Some? ==> drawn.value !in r.machine.spawnedFor
    modifies r
    ensures r.Valid() && (handle.Some? <==> starts && drawn.Some? && watches)
    ensures handle.None? ==> r.children == old(r.children)
    ensures handle.Some? ==>
              && handle == drawn && r.children == old(r.children)[handle.value := child]
              && AtPhase(r.machine, uid, Watched(handle.value)) && ReachesOwnOnly(r.machine, handle.value)
              && r.machine.spawnedFor[handle.value] == uid
  {
    if !starts {
      return None;
    }
    assert drawn.Some? && drawn.value in r.children ==> HandleInv(r.machine, drawn.value);
    r.Happens(Spawn(child.pid, child.setPGID));
    handle := Enlist(r, child, drawn, watches, uid);
    if handle.Some? {
      WatchedReachesOwn(r.machine, uid, handle.value);
    }
  }

  /** The end of a watched child: it exits, the watcher notices, the handle goes and only then is
      the process reaped. */
  method ChildEnds(r: ChildRegistry, handle: Handle, ghost uid: Uid)
    requires r.Valid() && AtPhase(r.machine, uid, Watched(handle)) && uid in r.machine.tasks
    requires var pid := r.machine.tasks[uid].record.pid; pid in r.machine.procs && r.machine.procs[pid].status == Alive && pid != r.machine.daemon
    modifies r
    ensures r.Valid() && r.children == old(r.children) - {handle} && AtPhase(r.machine, uid, Reaped)
  {
    r.Happens(Exit(r.machine.tasks[uid].record.pid));
    r.Happens(Notice(uid));
    r.RemoveBeforeReap(handle, uid);
  }
}
