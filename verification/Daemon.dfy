/** The daemon's objects as they are written: the request tracker, the child table and
    the lease fields, updated in place.  Each method is proved against the whole-call
    functions of `Lease`; clock readings and outcomes of file operations are arguments. */
module Daemon {
  import opened Wrappers
  import opened Lease
  import opened LeaseStorage
  import Children

  type ChildRecord = Children.ChildRecord

  datatype TrackedRequest = TrackedRequest(id: nat, action: string, started: int)

  datatype CompletedRequest = CompletedRequest(action: string, ok: bool, duration: int, completed: int)

  const KNOWN_ACTIONS: set<string> := {
    "ping", "maintenance.drain", "maintenance.undrain", "maintenance.renew", "singbox.start", "dns.scutil",
    "dns.networksetup", "resolver.cleanup", "tcpdump.start", "signal", "pending", "other"}

  // safeRequestAction: what a client sent is never recorded as it came; `trim` is strings.TrimSpace.
  function SafeRequestAction(trim: string -> string, action: string): (safe: string)
    ensures safe in KNOWN_ACTIONS && (safe != "other" ==> safe == trim(action))
  {
    if trim(action) in KNOWN_ACTIONS then trim(action) else "other"
  }

  class RequestTracker {
    var nextID: nat
    var queued: map<nat, TrackedRequest>
    var active: map<nat, TrackedRequest>
    var lastCompleted: Option<CompletedRequest>

    ghost predicate Valid()
      reads this
    {
      && queued.Keys !! active.Keys
      && (forall id :: id in queued || id in active ==> 1 <= id <= nextID)
    }

    constructor ()
      ensures Valid() && nextID == 0 && queued == map[] && active == map[] && lastCompleted == None
    {
      nextID, queued, active, lastCompleted := 0, map[], map[], None;
    }

    method Enqueue(now: int) returns (id: nat)
      requires Valid()
      modifies this
      ensures Valid() && id == old(nextID) + 1 == nextID && id !in old(queued) && id !in old(active)
      ensures queued == old(queued)[id := TrackedRequest(id, "pending", now)]
      ensures active == old(active) && lastCompleted == old(lastCompleted)
    {
      nextID := nextID + 1;
      id := nextID;
      queued := queued[id := TrackedRequest(id, "pending", now)];
    }

    method Begin(id: nat, action: string, now: int, trim: string -> string)
      requires Valid() && id in queued
      modifies this
      ensures Valid() && queued == old(queued) - {id}
      ensures active == old(active)[id := TrackedRequest(id, SafeRequestAction(trim, action), now)] && active[id].action in KNOWN_ACTIONS
      ensures nextID == old(nextID) && lastCompleted == old(lastCompleted)
    {
      queued := queued - {id};
      var safe := SafeRequestAction(trim, action);
      active := active[id := TrackedRequest(id, safe, now)];
    }

    method Abandon(id: nat)
      requires Valid()
      modifies this
      ensures Valid() && queued == old(queued) - {id}
      ensures active == old(active) && nextID == old(nextID) && lastCompleted == old(lastCompleted)
    {
      queued := queued - {id};
    }

    // A completed ping leaves no record; an unknown id changes nothing.
    method Complete(id: nat, ok: bool, now: int)
      requires Valid()
      modifies this
      ensures Valid() && active == old(active) - {id} && queued == old(queued) && nextID == old(nextID)
      ensures lastCompleted ==
              if id in old(active) && old(active[id]).action != "ping"
              then Some(CompletedRequest(old(active[id]).action, ok, now - old(active[id]).started, now))
              else old(lastCompleted)
    {
      if id !in active {
        assert active - {id} == active;
        return;
      }
      var request := active[id];
      active := active - {id};
      if request.action == "ping" {
        return;
      }
      lastCompleted := Some(CompletedRequest(request.action, ok, now - request.started, now));
    }
  }

  datatype Action = Drain | Undrain(token: Token) | Renew(token: Token) | Start(handle: string, child: ChildRecord) | Typed

  // Everything a mutating request meets outside the daemon: clock readings and outcomes.
  datatype World = World(
    admission: int, times: RenewTimes, minted: Option<Token>,
    swept: bool, reswept: bool, disk: Outcomes, unlinked: bool, started: bool)

  predicate Owned(action: Action) { action.Undrain? || action.Renew? }

  function DispatchCall(s: Store, action: Action, idle: bool, w: World, persisted: bool): (r: (bool, Store)) {
    match action
    case Drain => var r := DrainCall(s, idle, w.minted, w.times.stamp, persisted); (r.0.Some?, r.1)
    case Undrain(token) => UndrainCall(s, token, w.admission, w.swept, w.unlinked)
    case Renew(token) => RenewCall(s, token, w.times, w.swept, idle, w.reswept, persisted)
    case _ => (w.started, s)
  }

  // Admission, then the action: what one mutating request does to the lease.
  function HandleCall(s: Store, action: Action, idle: bool, w: World, persisted: bool): (r: (bool, Store)) {
    if Owned(action) then DispatchCall(s, action, idle, w, persisted)
    else if Draining(s.mem, w.admission) then (false, s)
    else DispatchCall(ObserveExpiry(s, w.admission, w.swept), action, idle, w, persisted)
  }

  class ServiceDaemon {
    const storage: LeaseDirectory
    const requests: RequestTracker
    var drainToken: Token
    var drainUntil: int
    var children: map<string, ChildRecord>

    ghost predicate Valid()
      reads this, requests, storage
    {
      requests.Valid() && storage.Valid()
    }

    // The two copies of the lease.
    ghost function Copies(): Store
      reads this, storage
    {
      Store(Memory(drainToken, drainUntil), LeaseIn(storage.entries))
    }

    // No child, and no tracked request besides `requestID` itself being served.
    ghost predicate Idle(requestID: nat)
      reads this, requests
    {
      children == map[] && requests.queued == map[] && requests.active.Keys <= {requestID}
    }

    constructor (storage: LeaseDirectory)
      requires storage.Valid()
      ensures Valid() && fresh(requests) && this.storage == storage
      ensures Copies() == Store(NO_LEASE, LeaseIn(storage.entries)) && children == map[]
      ensures requests.queued == map[] && requests.active == map[]
    {
      this.storage := storage;
      requests := new RequestTracker();
      drainToken, drainUntil, children := "", ZERO_TIME, map[];
    }

    method SetMaintenanceState(token: Token, until: int)
      modifies this`drainToken, this`drainUntil
      ensures Copies() == old(Copies()).(mem := Memory(token, until))
    {
      drainToken := token;
      drainUntil := until;
    }

    method MaintenanceDrainState(now: int) returns (active: bool, expiresAt: int)
      ensures active == PingActive(Copies().mem, now)
      ensures expiresAt == if active then drainUntil else ZERO_TIME
    {
      active := now < drainUntil;
      expiresAt := if active then drainUntil else ZERO_TIME;
    }

    /** The file is replaced as a whole or left as it was, at every moment on the way; see
        `LeaseDirectory.Persist`. */
    method PersistMaintenanceLease(token: Token, until: int, disk: Outcomes) returns (ok: bool)
      requires storage.Valid()
      modifies storage
      ensures storage.Valid() && ok == old(Succeeds(storage.entries, disk))
      ensures LeaseIn(storage.entries) == if ok then Some(Lease(token, until)) else old(LeaseIn(storage.entries))
      ensures old(storage.moments) <= storage.moments
      ensures forall i :: |old(storage.moments)| <= i < |storage.moments| ==> OldOrNew(old(storage.entries), storage.moments[i], Lease(token, until))
    {
      ok := storage.Persist(Lease(token, until), disk);
    }

    method RemoveMaintenanceLease(unlinked: bool) returns (ok: bool)
      requires storage.Valid()
      modifies storage
      ensures storage.Valid() && ok == unlinked && storage.entries == if ok then old(storage.entries) - {LEASE_NAME} else old(storage.entries)
    {
      ok := storage.Remove(unlinked);
    }

    method DrainActive(now: int, unlinked: bool) returns (active: bool)
      requires storage.Valid()
      modifies this`drainToken, this`drainUntil, storage
      ensures storage.Valid() && SameTemporaries(old(storage.entries), storage.entries)
      ensures active == old(Draining(Copies().mem, now))
      ensures Copies() == ObserveExpiry(old(Copies()), now, unlinked)
    {
      if drainToken == "" {
        return false;
      }
      if now < drainUntil {
        return true;
      }
      var _ := RemoveMaintenanceLease(unlinked);
      SetMaintenanceState("", ZERO_TIME);
      return false;
    }

    method RequireDrainToken(token: Token, now: int, unlinked: bool) returns (ok: bool)
      requires storage.Valid()
      modifies this`drainToken, this`drainUntil, storage
      ensures storage.Valid() && SameTemporaries(old(storage.entries), storage.entries)
      ensures ok == old(Accepts(Copies().mem, token, now))
      ensures Copies() == ObserveExpiry(old(Copies()), now, unlinked)
    {
      var active := DrainActive(now, unlinked);
      if !active {
        return false;
      }
      return token != "" && token == drainToken;
    }

    // withIdle's check: counts children and every tracked request but this one.
    method IsIdle(requestID: nat) returns (idle: bool)
      requires Valid()
      ensures idle <==> Idle(requestID)
    {
      var busy := |children| != 0;
      var otherRequests := |requests.queued| + |requests.active|;
      if requestID in requests.active {
        otherRequests := otherRequests - 1;
      }
      busy := busy || otherRequests != 0;
      idle := !busy;
      OthersAreZero(requests.queued.Keys, requests.active.Keys, requestID);
    }

    method Drain(requestID: nat, now: int, minted: Option<Token>, disk: Outcomes) returns (token: Option<Token>)
      requires Valid() && requestID in requests.active
      modifies this`drainToken, this`drainUntil, storage
      ensures Valid() && (token, Copies()) == DrainCall(old(Copies()), Idle(requestID), minted, now, old(Succeeds(storage.entries, disk)))
    {
      var idle := IsIdle(requestID);
      if !idle || minted.None? {
        return None;
      }
      var until := now + TTL;
      var ok := PersistMaintenanceLease(minted.value, until, disk);
      if !ok {
        return None;
      }
      SetMaintenanceState(minted.value, until);
      return minted;
    }

    method Undrain(token: Token, now: int, swept: bool, unlinked: bool) returns (ok: bool)
      requires storage.Valid()
      modifies this`drainToken, this`drainUntil, storage
      ensures storage.Valid() && (ok, Copies()) == UndrainCall(old(Copies()), token, now, swept, unlinked)
    {
      ok := RequireDrainToken(token, now, swept);
      if !ok {
        return;
      }
      ok := RemoveMaintenanceLease(unlinked);
      if !ok {
        return;
      }
      SetMaintenanceState("", ZERO_TIME);
    }

    method Renew(token: Token, requestID: nat, times: RenewTimes, swept: bool, reswept: bool, disk: Outcomes) returns (ok: bool)
      requires Valid() && requestID in requests.active
      modifies this`drainToken, this`drainUntil, storage
      ensures Valid()
      ensures (ok, Copies()) == RenewCall(old(Copies()), token, times, swept, Idle(requestID), reswept, old(Succeeds(storage.entries, disk)))
    {
      ok := RequireDrainToken(token, times.check, swept);
      if !ok {
        return;
      }
      ok := IsIdle(requestID);
      if !ok {
        return;
      }
      // Time has passed since the first check: waiting for the locks may have outlasted the lease.
      ok := RequireDrainToken(token, times.recheck, reswept);
      if !ok {
        return;
      }
      var until := times.stamp + TTL;
      ok := PersistMaintenanceLease(token, until, disk);
      if !ok {
        return;
      }
      SetMaintenanceState(token, until);
    }

    /** Whatever startup finds; in particular, when it can read the file, memory holds exactly the
        valid unexpired lease of the file, and when it cannot, nothing changes. */
    method RestoreMaintenanceLease(found: Found, now: int, unlinked: bool)
      requires Copies().mem == NO_LEASE && storage.Valid()
      modifies this`drainToken, this`drainUntil, storage
      ensures storage.Valid() && Copies().mem == RestoreMemory(found, now)
      ensures Copies().file == RestoreFile(old(LeaseIn(storage.entries)), found, now, unlinked)
      ensures found == old(FindIn(storage.entries)) ==>
                && Copies().mem == (if old(Unexpired(LeaseIn(storage.entries), now)) && ValidToken(old(LeaseIn(storage.entries)).value.token)
                                    then Remember(old(LeaseIn(storage.entries)).value) else NO_LEASE)
                && (Copies().mem != NO_LEASE ==> Copies().file == old(LeaseIn(storage.entries)))
      ensures found.Unsafe? ==> Copies() == old(Copies())
    {
      if found.Unsafe? || found.Absent? {
        return;
      }
      if found.Malformed? || !ValidToken(found.lease.token) || !(now < found.lease.until) {
        var _ := RemoveMaintenanceLease(unlinked);
        return;
      }
      SetMaintenanceState(found.lease.token, found.lease.until);
    }

    // A refused start leaves the table alone; a started child is in it.
    method StartManagedChild(handle: string, child: ChildRecord, started: bool) returns (ok: bool)
      modifies this`children
      ensures ok == started && children == if ok then old(children)[handle := child] else old(children)
    {
      if started {
        children := children[handle := child];
      }
      ok := started;
    }

    // The switch of handleConn, after admission.
    method Dispatch(id: nat, action: Action, w: World) returns (ok: bool)
      requires Valid() && id in requests.active
      requires drainToken == "" || action.Undrain? || action.Renew?
      modifies this`drainToken, this`drainUntil, this`children, storage
      ensures Valid()
      ensures (ok, Copies()) == DispatchCall(old(Copies()), action, old(Idle(id)), w, old(Succeeds(storage.entries, w.disk)))
      ensures children == if action.Start? && ok then old(children)[action.handle := action.child] else old(children)
      ensures action.Start? || action.Typed? ==> drainToken == ""
      ensures drainToken != "" && old(drainToken) == "" ==> children == map[]
    {
      match action {
        case Drain =>
          var token := Drain(id, w.times.stamp, w.minted, w.disk);
          ok := token.Some?;
        case Undrain(token) =>
          ok := Undrain(token, w.admission, w.swept, w.unlinked);
        case Renew(token) =>
          ok := Renew(token, id, w.times, w.swept, w.reswept, w.disk);
        case Start(handle, child) =>
          ok := StartManagedChild(handle, child, w.started);
        case Typed =>
          ok := w.started;
      }
    }

    // Admission and the action, for a request that has begun.
    method Serve(id: nat, action: Action, w: World) returns (ok: bool)
      requires Valid() && id in requests.active
      modifies this`drainToken, this`drainUntil, this`children, storage
      ensures Valid()
      ensures (ok, Copies()) == HandleCall(old(Copies()), action, old(Idle(id)), w, old(Succeeds(storage.entries, w.disk)))
      ensures old(Draining(Copies().mem, w.admission)) && !Owned(action) ==> !ok && Copies() == old(Copies()) && children == old(children)
      ensures children == old(children) || (action.Start? && ok && drainToken == "" && children == old(children)[action.handle := action.child])
      ensures old(drainToken != "" ==> children == map[]) ==> (drainToken != "" ==> children == map[])
    {
      if !Owned(action) {
        var active := DrainActive(w.admission, w.swept);
        if active {
          return false;
        }
        SameTemporariesSucceedAlike(old(storage.entries), storage.entries, w.disk);
      }
      ok := Dispatch(id, action, w);
    }

    /** The part of handleConn that runs under the mutation lock.  A live lease turns away
        everything but its owner's undrain and renew, untouched; whatever the request was,
        a lease in memory afterwards means an empty child table if it did before; and the
        request has left the tracker. */
    method HandleMutating(id: nat, action: Action, name: string, w: World, now: int, trim: string -> string) returns (ok: bool)
      requires Valid() && id in requests.queued
      modifies this`drainToken, this`drainUntil, this`children, storage, requests
      ensures Valid() && requests.queued == old(requests.queued) - {id} && requests.active == old(requests.active)
      ensures (ok, Copies()) == HandleCall(old(Copies()), action, old(AloneWith(id)), w, old(Succeeds(storage.entries, w.disk)))
      ensures old(Draining(Copies().mem, w.admission)) && !Owned(action) ==> !ok && Copies() == old(Copies()) && children == old(children)
      ensures children == old(children) || (action.Start? && ok && drainToken == "" && children == old(children)[action.handle := action.child])
      ensures old(drainToken != "" ==> children == map[]) ==> (drainToken != "" ==> children == map[])
    {
      requests.Begin(id, name, now, trim);
      assert Idle(id) == old(AloneWith(id)) by {
        assert requests.queued.Keys == old(requests.queued.Keys) - {id};
        assert requests.active.Keys == old(requests.active.Keys) + {id};
      }
      ok := Serve(id, action, w);
      requests.Complete(id, ok, now);
    }

    // `id` is still queued and is the only tracked request; no child runs.
    ghost predicate AloneWith(id: nat)
      reads this, requests
    {
      children == map[] && requests.queued.Keys == {id} && requests.active == map[]
    }
  }

  // Only the lease file may differ, so the same temporary name is free.
  predicate SameTemporaries(d: Dir, d': Dir) { d' == d || d' == d - {LEASE_NAME} }

  lemma SameTemporariesSucceedAlike(d: Dir, d': Dir, o: Outcomes)
    requires SameTemporaries(d, d')
    ensures Succeeds(d', o) <==> Succeeds(d, o)
  {
    if o.suffix.Some? {
      TempIsNotTheLease(o);
    }
  }

  // Counting the others as zero leaves the asking request alone in the tracker.
  lemma OthersAreZero(queued: set<nat>, active: set<nat>, id: nat)
    ensures |queued| + |active| - (if id in active then 1 else 0) == 0
            <==> queued == {} && active <= {id}
  {
    if id in active {
      assert active == (active - {id}) + {id};
    }
  }
}
