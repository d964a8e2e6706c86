/** Uninstalling a list of services that may share runtime directories,
    under a maintenance guard. */
module Uninstall {
  import opened Lease
  import opened Trace
  import opened Guard

  // The most launchd is asked before giving up.
  const MAX_POLLS: nat := 101

  // bootout, then poll launchd until it has forgotten the service or ten seconds passed.
  method ForgetLaunchdLabel(w: World, service: Service) returns (ok: bool)
    modifies w
    ensures |w.trace| > |old(w.trace)| && old(w.trace) + [Bootout(service)] <= w.trace
    ensures forall i :: |old(w.trace)| < i < |w.trace| ==> w.trace[i].Print? && w.trace[i].service == service
    ensures forall i :: |old(w.trace)| < i < |w.trace| ==> (w.trace[i].absent <==> ok && i == |w.trace| - 1)
    ensures |old(w.trace)| + 2 <= |w.trace| <= |old(w.trace)| + 1 + MAX_POLLS
    ensures ok ==> Outstanding(w.trace) == set l | l in old(Outstanding(w.trace)) && l.0 != service
    ensures !ok ==> Outstanding(w.trace) == old(Outstanding(w.trace)) && w.now >= old(w.now) + FORGET_TIMEOUT
    ensures SameTokens(old(w.trace), w.trace)
  {
    var _ := w.Privileged(Bootout(service));
    ok := AwaitForgotten(w, service, w.now + FORGET_TIMEOUT);
  }

  method AwaitForgotten(w: World, service: Service, deadline: int) returns (ok: bool)
    requires deadline == w.now + FORGET_TIMEOUT
    modifies w
    ensures old(w.trace) < w.trace && |w.trace| <= |old(w.trace)| + MAX_POLLS
    ensures forall i :: |old(w.trace)| <= i < |w.trace| ==>
              w.trace[i].Print? && w.trace[i].service == service && (w.trace[i].absent <==> ok && i == |w.trace| - 1)
    ensures ok ==> Outstanding(w.trace) == set l | l in old(Outstanding(w.trace)) && l.0 != service
    ensures !ok ==> Outstanding(w.trace) == old(Outstanding(w.trace)) && w.now >= deadline
    ensures SameTokens(old(w.trace), w.trace)
  {
    ghost var polls := 0;
    while true
      invariant old(w.trace) <= w.trace && |w.trace| == |old(w.trace)| + polls
      invariant forall i :: |old(w.trace)| <= i < |w.trace| ==> w.trace[i].Print? && w.trace[i].service == service && !w.trace[i].absent
      invariant Outstanding(w.trace) == old(Outstanding(w.trace)) && SameTokens(old(w.trace), w.trace)
      invariant w.now >= old(w.now) + polls * POLL_DELAY && polls < MAX_POLLS
      decreases deadline - w.now
    {
      var absent := w.Print(service);
      polls := polls + 1;
      if absent {
        return true;
      }
      if !(w.now < deadline) {
        return false;
      }
      w.Sleep(POLL_DELAY);
    }
  }

  // Clearing with the guard, bootout, and the wait for launchd to forget.
  method ForgetUnderGuard(guard: MaintenanceGuard, service: Service, ghost base: set<(Service, Token)>)
    returns (cleared: bool, forgot: bool)
    requires guard.Accounts(base) && guard.Holds()
    modifies guard`leases, guard.world
    ensures guard.Accounts(base) && guard.Holds() && old(guard.world.trace) <= guard.world.trace
    ensures !cleared ==> !forgot && RpcOnly(guard.world.trace, |old(guard.world.trace)|)
    ensures forgot ==> |guard.world.trace| > |old(guard.world.trace)| && guard.world.trace[|guard.world.trace| - 1] == Print(service, true)
    ensures forgot ==> forall l :: l in Outstanding(guard.world.trace) ==> l.0 != service
    ensures cleared && !guard.override ==> NoRefusal(guard.world.trace, |old(guard.world.trace)|)
    ensures !guard.override ==> BootoutsGuarded(guard.world.trace, |old(guard.world.trace)|)
    ensures forall i :: |old(guard.world.trace)| <= i < |guard.world.trace| ==> !guard.world.trace[i].RemoveRuntime?
  {
    cleared := guard.BeforeBootout(service, base);
    if !cleared {
      return false, false;
    }
    ghost var ready := guard.world.trace;
    forgot := ForgetLaunchdLabel(guard.world, service);
    if !guard.override {
      AppendBootout(old(guard.world.trace), ready, guard.world.trace, service);
    }
  }

  // A cleared bootout followed by launchd queries keeps the trace guarded and free of refusals.
  lemma AppendBootout(start: seq<Event>, ready: seq<Event>, after: seq<Event>, service: Service)
    requires start <= ready && |start| < |ready| && ReadyFor(ready, service)
    requires RpcOnly(ready, |start|) && NoRefusal(ready, |start|)
    requires ready + [Bootout(service)] <= after
    requires forall i :: |ready| < i < |after| ==> after[i].Print?
    ensures BootoutsGuarded(after, |start|) && NoRefusal(after, |start|)
  {
    assert after[..|ready|] == ready;
  }

  // No launchd command, no RPC, no lease.
  predicate FileRemoval(e: Event) { e.RemovePaths? || e.RemoveRuntime? || e.RemoveHelper? }

  function RuntimeRemoval(cfg: ServiceConfig, confirmed: bool): seq<Event> {
    if cfg.runtimeDir != "" && confirmed then [RemoveRuntime(cfg.runtimeDir)] else []
  }

  function HelperRemoval(cfg: ServiceConfig): seq<Event> {
    if cfg.helperDir != "" then [RemoveHelper(cfg.service)] else []
  }

  ghost predicate Removed(gone: seq<Event>, after: seq<Event>, cfg: ServiceConfig, confirmed: bool) {
    after == gone + [RemovePaths(cfg.service)] + RuntimeRemoval(cfg, confirmed) + HelperRemoval(cfg)
  }

  // The helper goes last: it may be running the runtime's removal.
  method RemoveServiceFiles(w: World, cfg: ServiceConfig, confirmed: bool) returns (ok: bool)
    modifies w
    ensures Outstanding(w.trace) == old(Outstanding(w.trace)) && SameTokens(old(w.trace), w.trace)
    ensures Removed(old(w.trace), w.trace, cfg, confirmed)
    ensures ok ==> cfg.runtimeDir == "" || confirmed
  {
    var _ := w.Privileged(RemovePaths(cfg.service));
    ok := RemoveRuntimeDirectory(w, cfg, confirmed);
    if cfg.helperDir != "" {
      var _ := w.Privileged(RemoveHelper(cfg.service));
    }
  }

  method RemoveRuntimeDirectory(w: World, cfg: ServiceConfig, confirmed: bool) returns (ok: bool)
    modifies w
    ensures w.trace == old(w.trace) + RuntimeRemoval(cfg, confirmed)
    ensures Outstanding(w.trace) == old(Outstanding(w.trace)) && SameTokens(old(w.trace), w.trace)
    ensures ok ==> cfg.runtimeDir == "" || confirmed
  {
    if cfg.runtimeDir == "" {
      return true;
    }
    if !confirmed {
      return false;
    }
    ok := w.Privileged(RemoveRuntime(cfg.runtimeDir));
  }

  lemma RemovalsAreFileRemovals(gone: seq<Event>, after: seq<Event>, cfg: ServiceConfig, confirmed: bool)
    requires Removed(gone, after, cfg, confirmed)
    ensures gone <= after && forall i :: |gone| <= i < |after| ==> FileRemoval(after[i])
    ensures forall i :: |gone| <= i < |after| && after[i].RemoveRuntime? ==>
              i == |gone| + 1 && confirmed && after[i].dir == cfg.runtimeDir != ""
  {
  }

  lemma RemovalsOccur(gone: seq<Event>, after: seq<Event>, cfg: ServiceConfig, confirmed: bool)
    requires Removed(gone, after, cfg, confirmed)
    ensures Occurs(after, |gone|, RemovePaths(cfg.service))
    ensures cfg.runtimeDir != "" && confirmed ==> Occurs(after, |gone|, RemoveRuntime(cfg.runtimeDir))
  {
    assert after[|gone|] == RemovePaths(cfg.service);
    if cfg.runtimeDir != "" && confirmed {
      assert after[|gone| + 1] == RemoveRuntime(cfg.runtimeDir);
    }
  }

  // Everything that a successful removal of one service did.
  ghost predicate RemovalDone(trace: seq<Event>, from: nat, cfg: ServiceConfig) {
    && ConfirmedAbsent(trace, from, |trace|, cfg.service)
    && Occurs(trace, from, RemovePaths(cfg.service))
    && (cfg.runtimeDir != "" ==> Occurs(trace, from, RemoveRuntime(cfg.runtimeDir)))
  }

  // What one service's removal may add to the trace.
  ghost predicate RemovalStep(trace: seq<Event>, from: nat, cfg: ServiceConfig, mayRemoveRuntime: bool) {
    forall i :: from <= i < |trace| && trace[i].RemoveRuntime? ==>
      && trace[i].dir == cfg.runtimeDir != "" && mayRemoveRuntime && ConfirmedAbsent(trace, from, i, cfg.service)
      && (forall j :: from <= j < |trace| && trace[j].RemoveRuntime? ==> j == i)
  }

  method UninstallExactService(guard: MaintenanceGuard, cfg: ServiceConfig, earlierFailed: bool, ghost base: set<(Service, Token)>)
    returns (forgot: bool, result: Outcome)
    requires guard.Accounts(base) && guard.Holds()
    modifies guard`leases, guard.world
    ensures guard.Accounts(base) && guard.Holds() && old(guard.world.trace) <= guard.world.trace
    ensures forgot ==> ConfirmedAbsent(guard.world.trace, |old(guard.world.trace)|, |guard.world.trace|, cfg.service)
    ensures result.Refused? ==> !forgot && RpcOnly(guard.world.trace, |old(guard.world.trace)|)
    ensures !result.Refused? && !guard.override ==> NoRefusal(guard.world.trace, |old(guard.world.trace)|)
    ensures !guard.override ==> BootoutsGuarded(guard.world.trace, |old(guard.world.trace)|)
    ensures RemovalStep(guard.world.trace, |old(guard.world.trace)|, cfg, !earlierFailed)
    ensures result.Done? ==> forgot && RemovalDone(guard.world.trace, |old(guard.world.trace)|, cfg)
  {
    var w := guard.world;
    if cfg.helperDir != "" {
      var safe := w.Check();
      if !safe {
        return false, Failed;
      }
    }
    var cleared;
    cleared, forgot := ForgetUnderGuard(guard, cfg.service, base);
    if !cleared {
      return false, Refused;
    }
    if forgot {
      guard.Forgotten(cfg.service);
    }
    var removed := FinishRemoval(w, cfg, forgot, forgot && !earlierFailed, old(w.trace), guard.override);
    var absent := w.Check();
    result := if forgot && removed && absent then Done else Failed;
  }

  // The files go once launchd was asked to forget the service; what held of the trace so far holds on.
  method FinishRemoval(w: World, cfg: ServiceConfig, forgot: bool, confirmed: bool, ghost start: seq<Event>, ghost override: bool)
    returns (removed: bool)
    requires start <= w.trace && (confirmed ==> forgot)
    requires forgot ==> |w.trace| > |start| && w.trace[|w.trace| - 1] == Print(cfg.service, true)
    requires forall i :: |start| <= i < |w.trace| ==> !w.trace[i].RemoveRuntime?
    requires !override ==> BootoutsGuarded(w.trace, |start|) && NoRefusal(w.trace, |start|)
    modifies w
    ensures start <= w.trace && Outstanding(w.trace) == old(Outstanding(w.trace)) && SameTokens(old(w.trace), w.trace)
    ensures RemovalStep(w.trace, |start|, cfg, confirmed)
    ensures forgot ==> ConfirmedAbsent(w.trace, |start|, |w.trace|, cfg.service)
    ensures !override ==> BootoutsGuarded(w.trace, |start|) && NoRefusal(w.trace, |start|)
    ensures forgot && removed ==> RemovalDone(w.trace, |start|, cfg)
  {
    removed := RemoveServiceFiles(w, cfg, confirmed);
    AfterRemovals(start, old(w.trace), w.trace, cfg, forgot, confirmed, override);
    RemovalsOccur(old(w.trace), w.trace, cfg, confirmed);
    OccursGrows(w.trace, w.trace, |old(w.trace)|, |start|, RemovePaths(cfg.service));
    if removed && cfg.runtimeDir != "" {
      OccursGrows(w.trace, w.trace, |old(w.trace)|, |start|, RemoveRuntime(cfg.runtimeDir));
    }
  }

  lemma AfterRemovals(start: seq<Event>, gone: seq<Event>, after: seq<Event>, cfg: ServiceConfig, forgot: bool, confirmed: bool, override: bool)
    requires start <= gone && Removed(gone, after, cfg, confirmed) && (confirmed ==> forgot)
    requires forgot ==> |gone| > |start| && gone[|gone| - 1] == Print(cfg.service, true)
    requires forall i :: |start| <= i < |gone| ==> !gone[i].RemoveRuntime?
    requires !override ==> BootoutsGuarded(gone, |start|) && NoRefusal(gone, |start|)
    ensures start <= after && RemovalStep(after, |start|, cfg, confirmed)
    ensures forgot ==> ConfirmedAbsent(after, |start|, |after|, cfg.service)
    ensures !override ==> BootoutsGuarded(after, |start|) && NoRefusal(after, |start|)
  {
    RemovalsAreFileRemovals(gone, after, cfg, confirmed);
    AppendRemovals(start, gone, after, cfg, forgot, confirmed);
    if !override {
      AppendQuiet(start, gone, after);
    }
  }

  lemma AppendRemovals(start: seq<Event>, gone: seq<Event>, after: seq<Event>, cfg: ServiceConfig, forgot: bool, confirmed: bool)
    requires start <= gone <= after && (confirmed ==> forgot)
    requires forgot ==> |gone| > |start| && gone[|gone| - 1] == Print(cfg.service, true)
    requires forall i :: |start| <= i < |gone| ==> !gone[i].RemoveRuntime?
    requires forall i :: |gone| <= i < |after| && after[i].RemoveRuntime? ==>
               i == |gone| + 1 && confirmed && after[i].dir == cfg.runtimeDir != ""
    ensures RemovalStep(after, |start|, cfg, confirmed)
    ensures forgot ==> ConfirmedAbsent(after, |start|, |after|, cfg.service)
  {
  }

  lemma AppendQuiet(start: seq<Event>, gone: seq<Event>, after: seq<Event>)
    requires start <= gone <= after && BootoutsGuarded(gone, |start|) && NoRefusal(gone, |start|)
    requires forall i :: |gone| <= i < |after| ==> !after[i].Bootout? && !Refusal(after[i])
    ensures BootoutsGuarded(after, |start|) && NoRefusal(after, |start|)
  {
    GuardedGoesOn(gone, after, |start|);
  }

  // ---------------------------------------------------------------- the list

  ghost predicate IsLastUser(configs: seq<ServiceConfig>, runtime: string, index: nat) {
    && index < |configs| && configs[index].runtimeDir == runtime
    && forall j :: index < j < |configs| ==> configs[j].runtimeDir != runtime
  }

  method LastRuntimeUsers(configs: seq<ServiceConfig>) returns (last: map<string, nat>)
    ensures LastUsers(configs, last)
  {
    last := map[];
    for index := 0 to |configs|
      invariant forall i :: 0 <= i < index ==> configs[i].runtimeDir in last
      invariant forall r :: r in last ==> last[r] < index && configs[last[r]].runtimeDir == r
      invariant forall r, j :: r in last && last[r] < j < index ==> configs[j].runtimeDir != r
    {
      last := last[configs[index].runtimeDir := index];
    }
  }

  // A runtime tree is removed only after every service that uses it is confirmed gone.
  ghost predicate RemovalJustified(trace: seq<Event>, from: nat, at: nat, configs: seq<ServiceConfig>, preserved: string)
    requires from <= at < |trace| && trace[at].RemoveRuntime?
  {
    && trace[at].dir != "" && trace[at].dir != preserved
    && (exists k :: 0 <= k < |configs| && configs[k].runtimeDir == trace[at].dir)
    && forall k :: 0 <= k < |configs| && configs[k].runtimeDir == trace[at].dir ==> ConfirmedAbsent(trace, from, at, configs[k].service)
  }

  ghost predicate RemovalsJustified(trace: seq<Event>, from: nat, configs: seq<ServiceConfig>, preserved: string) {
    && (forall i :: from <= i < |trace| && trace[i].RemoveRuntime? ==> RemovalJustified(trace, from, i, configs, preserved))
    && (forall i, j :: from <= i < j < |trace| && trace[i].RemoveRuntime? && trace[j].RemoveRuntime? ==> trace[i].dir != trace[j].dir)
  }

  /** For every list of services and every behaviour of the outside world: each runtime
      tree is removed at most once, never when preserved, and only after every service
      sharing it was confirmed absent; every bootout was cleared right before; and after
      a refusal no privileged command follows.  Success means that every service is gone and
      every tree that was not preserved was removed. */
  method UninstallServiceConfigs(guard: MaintenanceGuard, configs: seq<ServiceConfig>, preserved: string, ghost base: set<(Service, Token)>)
    returns (result: Outcome)
    requires guard.Accounts(base) && guard.Holds()
    modifies guard`leases, guard.world
    ensures guard.Accounts(base) && guard.Holds() && old(guard.world.trace) <= guard.world.trace
    ensures !guard.override ==> BootoutsGuarded(guard.world.trace, |old(guard.world.trace)|)
    ensures !guard.override ==> RefusalIsFinal(guard.world.trace, |old(guard.world.trace)|)
    ensures !guard.override && !result.Refused? ==> NoRefusal(guard.world.trace, |old(guard.world.trace)|)
    ensures RemovalsJustified(guard.world.trace, |old(guard.world.trace)|, configs, preserved)
    ensures result.Done? ==> AllRemoved(guard.world.trace, |old(guard.world.trace)|, configs, preserved)
  {
    var w := guard.world;
    ghost var from := |w.trace|;
    var last := LastRuntimeUsers(configs);
    var failedForget: set<string> := {};
    result := Done;
    for index := 0 to |configs|
      invariant guard.Accounts(base) && guard.Holds() && old(w.trace) <= w.trace && !result.Refused?
      invariant Progress(w.trace, from, configs, preserved, last, index, failedForget, guard.override, result.Done?)
    {
      var forgot, one := UninstallNext(guard, configs, preserved, last, index, failedForget, base, from, result.Done?);
      if one.Refused? {
        return one;
      }
      if !forgot {
        failedForget := failedForget + {configs[index].runtimeDir};
      }
      if one != Done {
        result := one;
      }
    }
  }

  // One round of the loop.
  method UninstallNext(guard: MaintenanceGuard, configs: seq<ServiceConfig>, preserved: string, last: map<string, nat>, index: nat,
                       failedForget: set<string>, ghost base: set<(Service, Token)>, ghost from: nat, ghost clean: bool)
    returns (forgot: bool, one: Outcome)
    requires guard.Accounts(base) && guard.Holds() && index < |configs|
    requires Progress(guard.world.trace, from, configs, preserved, last, index, failedForget, guard.override, clean)
    modifies guard`leases, guard.world
    ensures guard.Accounts(base) && guard.Holds() && old(guard.world.trace) <= guard.world.trace
    ensures one.Refused? ==> Stopped(guard.world.trace, from, configs, preserved, guard.override)
    ensures !one.Refused? ==>
              Progress(guard.world.trace, from, configs, preserved, last, index + 1,
                       if forgot then failedForget else failedForget + {configs[index].runtimeDir}, guard.override, clean && one.Done?)
  {
    var cfg := configs[index];
    var runtime := cfg.runtimeDir;
    if last[runtime] != index || runtime == preserved {
      cfg := cfg.(runtimeDir := "");
    }
    ghost var before := guard.world.trace;
    forgot, one := UninstallExactService(guard, cfg, runtime in failedForget, base);
    if one.Refused? {
      ProgressRefused(before, guard.world.trace, from, configs, preserved, last, index, failedForget, guard.override, clean);
    } else {
      ProgressStep(before, guard.world.trace, from, configs, preserved, last, index, failedForget, guard.override, clean, cfg, forgot, one.Done?);
    }
  }

  // What holds of the trace when the work ends, for whatever reason.
  ghost predicate Stopped(trace: seq<Event>, from: nat, configs: seq<ServiceConfig>, preserved: string, override: bool) {
    RemovalsJustified(trace, from, configs, preserved) && (!override ==> BootoutsGuarded(trace, from) && RefusalIsFinal(trace, from))
  }

  // What holds of the trace once the first `index` services have been handled.
  ghost predicate Progress(trace: seq<Event>, from: nat, configs: seq<ServiceConfig>, preserved: string, last: map<string, nat>,
                           index: nat, failed: set<string>, override: bool, clean: bool) {
    && index <= |configs| && from <= |trace| && LastUsers(configs, last)
    && (!override ==> BootoutsGuarded(trace, from) && NoRefusal(trace, from))
    && (forall j :: 0 <= j < index && configs[j].runtimeDir !in failed ==> ConfirmedAbsent(trace, from, |trace|, configs[j].service))
    && RemovalsPassed(trace, from, configs, preserved, last, index)
    && RemovalsJustified(trace, from, configs, preserved)
    && (clean ==> RemovedUpTo(trace, from, configs, preserved, last, index))
  }

  lemma ProgressStep(before: seq<Event>, after: seq<Event>, from: nat, configs: seq<ServiceConfig>, preserved: string, last: map<string, nat>,
                     index: nat, failed: set<string>, override: bool, clean: bool, cfg: ServiceConfig, forgot: bool, done: bool)
    requires Progress(before, from, configs, preserved, last, index, failed, override, clean) && before <= after && index < |configs|
    requires cfg.service == configs[index].service
    requires var runtime := configs[index].runtimeDir;
             cfg.runtimeDir == (if last[runtime] != index || runtime == preserved then "" else runtime)
    requires !override ==> BootoutsGuarded(after, |before|) && NoRefusal(after, |before|)
    requires RemovalStep(after, |before|, cfg, configs[index].runtimeDir !in failed)
    requires forgot ==> ConfirmedAbsent(after, |before|, |after|, cfg.service)
    requires done ==> RemovalDone(after, |before|, cfg)
    ensures Progress(after, from, configs, preserved, last, index + 1, if forgot then failed else failed + {configs[index].runtimeDir},
                     override, clean && done)
  {
    ConfirmationsPersist(before, after, from);
    NewRemovals(before, after, from, configs, preserved, index, cfg, last, failed);
    if clean && done {
      RemovedOneMore(before, after, from, configs, preserved, last, index, cfg);
    }
    if !override {
      QuietJoin(before, after, from);
    }
  }

  lemma QuietJoin(before: seq<Event>, after: seq<Event>, from: nat)
    requires from <= |before| && before <= after
    requires BootoutsGuarded(before, from) && NoRefusal(before, from) && BootoutsGuarded(after, |before|) && NoRefusal(after, |before|)
    ensures BootoutsGuarded(after, from) && NoRefusal(after, from)
  {
    GuardedGoesOn(before, after, from);
  }

  // A refusal ends the work: only the exchange that was refused follows.
  lemma ProgressRefused(before: seq<Event>, after: seq<Event>, from: nat, configs: seq<ServiceConfig>, preserved: string, last: map<string, nat>,
                        index: nat, failed: set<string>, override: bool, clean: bool)
    requires Progress(before, from, configs, preserved, last, index, failed, override, clean)
    requires before <= after && RpcOnly(after, |before|)
    ensures Stopped(after, from, configs, preserved, override)
  {
    JustifiedGoesOn(before, after, from, from, configs, preserved);
    if !override {
      RefusedLast(before, after, from);
    }
  }

  lemma RefusedLast(before: seq<Event>, after: seq<Event>, from: nat)
    requires from <= |before| && before <= after && RpcOnly(after, |before|) && BootoutsGuarded(before, from) && NoRefusal(before, from)
    ensures BootoutsGuarded(after, from) && RefusalIsFinal(after, from)
  {
    GuardedGoesOn(before, after, from);
    assert forall i :: 0 <= i < |before| ==> after[i] == before[i];
  }

  // RPC around a stretch of work changes nothing about its runtime removals.
  lemma JustifiedGoesOn(before: seq<Event>, after: seq<Event>, from: nat, from': nat, configs: seq<ServiceConfig>, preserved: string)
    requires from' <= from <= |before| && before <= after && RpcOnly(after, |before|) && RemovalsJustified(before, from, configs, preserved)
    requires forall i :: from' <= i < from ==> !before[i].RemoveRuntime?
    ensures RemovalsJustified(after, from', configs, preserved)
  {
    assert forall i :: 0 <= i < |before| ==> after[i] == before[i];
    forall i | from' <= i < |after| && after[i].RemoveRuntime? ensures RemovalJustified(after, from', i, configs, preserved) {
      assert RemovalJustified(before, from, i, configs, preserved);
      forall k | 0 <= k < |configs| && configs[k].runtimeDir == after[i].dir ensures ConfirmedAbsent(after, from', i, configs[k].service) {
        var at :| from <= at < i && before[at] == Print(configs[k].service, true);
        assert after[at] == before[at];
      }
    }
  }

  ghost predicate AllRemoved(trace: seq<Event>, from: nat, configs: seq<ServiceConfig>, preserved: string) {
    forall j :: 0 <= j < |configs| ==> ServiceRemoved(trace, from, configs[j], preserved)
  }

  ghost predicate ServiceRemoved(trace: seq<Event>, from: nat, cfg: ServiceConfig, preserved: string) {
    && Occurs(trace, from, Print(cfg.service, true)) && Occurs(trace, from, RemovePaths(cfg.service))
    && (cfg.runtimeDir != "" && cfg.runtimeDir != preserved ==> Occurs(trace, from, RemoveRuntime(cfg.runtimeDir)))
  }

  // The first `index` services are removed, apart from trees that a later service still uses.
  ghost predicate RemovedUpTo(trace: seq<Event>, from: nat, configs: seq<ServiceConfig>, preserved: string, last: map<string, nat>, index: nat) {
    forall j :: 0 <= j < index <= |configs| ==>
      ServiceRemoved(trace, from, WithoutSharedTree(configs[j], last, index), preserved)
  }

  // The service without its tree when another one from `index` on uses it too.
  function WithoutSharedTree(cfg: ServiceConfig, last: map<string, nat>, index: nat): ServiceConfig {
    if cfg.runtimeDir in last && last[cfg.runtimeDir] >= index then cfg.(runtimeDir := "") else cfg
  }

  lemma RemovedGrows(before: seq<Event>, after: seq<Event>, from: nat, from': nat, cfg: ServiceConfig, preserved: string)
    requires before <= after && from' <= from && ServiceRemoved(before, from, cfg, preserved)
    ensures ServiceRemoved(after, from', cfg, preserved)
  {
  }

  lemma RemovedOneMore(before: seq<Event>, after: seq<Event>, from: nat, configs: seq<ServiceConfig>, preserved: string,
                       last: map<string, nat>, index: nat, cfg: ServiceConfig)
    requires from <= |before| && before <= after && index < |configs| && LastUsers(configs, last)
    requires RemovedUpTo(before, from, configs, preserved, last, index) && RemovalDone(after, |before|, cfg)
    requires cfg.service == configs[index].service
    requires var runtime := configs[index].runtimeDir;
             cfg.runtimeDir == (if last[runtime] != index || runtime == preserved then "" else runtime)
    ensures RemovedUpTo(after, from, configs, preserved, last, index + 1)
  {
    assert ServiceRemoved(after, |before|, cfg, preserved);
    RemovedGrows(after, after, |before|, from, cfg, preserved);
    forall j | 0 <= j < index + 1 ensures ServiceRemoved(after, from, WithoutSharedTree(configs[j], last, index + 1), preserved) {
      if j < index {
        RemovedGrows(before, after, from, from, WithoutSharedTree(configs[j], last, index), preserved);
      }
    }
  }

  lemma ConfirmationsPersist(before: seq<Event>, after: seq<Event>, from: nat)
    requires before <= after && from <= |before|
    ensures forall s, to :: from <= to <= |before| && ConfirmedAbsent(before, from, to, s) ==> ConfirmedAbsent(after, from, to, s)
    ensures forall s :: ConfirmedAbsent(before, from, |before|, s) ==> ConfirmedAbsent(after, from, |after|, s)
    ensures forall s :: ConfirmedAbsent(after, |before|, |after|, s) ==> ConfirmedAbsent(after, from, |after|, s)
  {
  }

  ghost predicate LastUsers(configs: seq<ServiceConfig>, last: map<string, nat>) {
    forall i :: 0 <= i < |configs| ==>
      configs[i].runtimeDir in last && IsLastUser(configs, configs[i].runtimeDir, last[configs[i].runtimeDir])
  }

  // Every removal so far is justified, and of a tree whose last user has been passed.
  ghost predicate RemovalsPassed(trace: seq<Event>, from: nat, configs: seq<ServiceConfig>, preserved: string, last: map<string, nat>, index: nat) {
    forall i :: from <= i < |trace| && trace[i].RemoveRuntime? ==>
      RemovalJustified(trace, from, i, configs, preserved) && trace[i].dir in last && last[trace[i].dir] < index
  }

  // The step that handles service `index` keeps every removal justified.
  lemma NewRemovals(before: seq<Event>, after: seq<Event>, from: nat, configs: seq<ServiceConfig>, preserved: string,
                    index: nat, cfg: ServiceConfig, last: map<string, nat>, failed: set<string>)
    requires from <= |before| && before <= after && index < |configs| && LastUsers(configs, last)
    requires RemovalsPassed(before, from, configs, preserved, last, index) && RemovalsJustified(before, from, configs, preserved)
    requires cfg.service == configs[index].service
    requires var runtime := configs[index].runtimeDir;
             cfg.runtimeDir == (if last[runtime] != index || runtime == preserved then "" else runtime)
    requires RemovalStep(after, |before|, cfg, configs[index].runtimeDir !in failed)
    requires forall j :: 0 <= j < index && configs[j].runtimeDir !in failed ==> ConfirmedAbsent(before, from, |before|, configs[j].service)
    ensures RemovalsPassed(after, from, configs, preserved, last, index + 1) && RemovalsJustified(after, from, configs, preserved)
  {
  }
}
