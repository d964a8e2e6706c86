/** The two operator commands.  Whatever happens outside, every lease taken on the way is
    sent an undrain or belongs to a service launchd has confirmed gone; every bootout
    directly follows a renewal; and a refusal ends all privileged work. */
module Install {
  import opened Lease
  import opened Trace
  import opened Guard
  import opened Uninstall

  const DEFAULT_SERVICE := ServiceConfig(
    "works.relux.vpn-core", "/Library/LaunchDaemons/works.relux.vpn-core.plist",
    "/private/var/run/works.relux.vpn-core.sock", "/Library/PrivilegedHelperTools/works.relux.vpn-core",
    "/private/var/run/works.relux.vpn-core")

  const LEGACY_HELPER := ServiceConfig(
    "works.relux.openconnect-tun-helper", "/Library/LaunchDaemons/works.relux.openconnect-tun-helper.plist",
    "/var/run/works.relux.openconnect-tun-helper.sock", "", "")

  function CompatibilityConfigs(cfg: ServiceConfig): seq<ServiceConfig> {
    if cfg == DEFAULT_SERVICE then [LEGACY_HELPER] else []
  }

  function MaintenanceConfigs(cfg: ServiceConfig): (r: seq<ServiceConfig>)
    ensures DistinctServices(r) && cfg in r
  {
    assert |DEFAULT_SERVICE.service| != |LEGACY_HELPER.service|;
    [cfg] + CompatibilityConfigs(cfg)
  }

  ghost predicate Orderly(trace: seq<Event>, from: nat) {
    BootoutsGuarded(trace, from) && RefusalIsFinal(trace, from)
  }

  method UninstallService(w: World, cfg: ServiceConfig, allowDisruption: bool) returns (ok: bool)
    modifies w
    ensures old(w.trace) <= w.trace && Outstanding(w.trace) <= old(Outstanding(w.trace))
    ensures !allowDisruption ==> Orderly(w.trace, |old(w.trace)|)
    ensures RemovalsJustified(w.trace, |old(w.trace)|, CompatibilityConfigs(cfg) + [cfg], "")
    ensures ok ==> AllRemoved(w.trace, |old(w.trace)|, CompatibilityConfigs(cfg) + [cfg], "")
  {
    ghost var base := Outstanding(w.trace);
    if cfg.helperDir != "" {
      var safe := w.Check();
      if !safe {
        return false;
      }
    }
    var guard, drained, dropped := DrainServices(w, MaintenanceConfigs(cfg), allowDisruption);
    DistinctRepeatsNothing(MaintenanceConfigs(cfg), dropped);
    if !drained {
      return false;
    }
    ghost var start := w.trace;
    var sudo := w.Check();
    ok := sudo;
    if sudo {
      var result := UninstallServiceConfigs(guard, CompatibilityConfigs(cfg) + [cfg], "", base);
      ok := result.Done?;
    }
    ghost var done := w.trace;
    guard.Release(base);
    RpcAround(old(w.trace), start, done, w.trace, CompatibilityConfigs(cfg) + [cfg], "", sudo);
    if ok {
      AllRemovedGrows(done, w.trace, |start|, |old(w.trace)|, CompatibilityConfigs(cfg) + [cfg], "");
    }
    if !allowDisruption {
      OrderlyAround(old(w.trace), start, done, w.trace);
    }
  }

  lemma AllRemovedGrows(before: seq<Event>, after: seq<Event>, from: nat, from': nat, configs: seq<ServiceConfig>, preserved: string)
    requires before <= after && from' <= from && AllRemoved(before, from, configs, preserved)
    ensures AllRemoved(after, from', configs, preserved)
  {
  }

  // RPC before and after a stretch of work changes nothing about its runtime removals.
  lemma RpcAround(old_: seq<Event>, start: seq<Event>, done: seq<Event>, end: seq<Event>, configs: seq<ServiceConfig>, preserved: string, worked: bool)
    requires old_ <= start <= done <= end && RpcOnly(start, |old_|) && RpcOnly(end, |done|)
    requires if worked then RemovalsJustified(done, |start|, configs, preserved) else done == start
    ensures RemovalsJustified(end, |old_|, configs, preserved)
  {
    assert forall i :: 0 <= i < |start| ==> done[i] == start[i];
    JustifiedGoesOn(done, end, |start|, |old_|, configs, preserved);
  }

  lemma OrderlyAround(old_: seq<Event>, start: seq<Event>, done: seq<Event>, end: seq<Event>)
    requires old_ <= start <= done <= end
    requires RpcOnly(start, |old_|) && NoRefusal(start, |old_|) && Orderly(done, |start|)
    requires RpcOnly(end, |done|)
    ensures Orderly(end, |old_|)
  {
    GuardedGoesOn(start, done, |old_|);
    GuardedGoesOn(done, end, |old_|);
    assert forall i :: 0 <= i < |done| ==> end[i] == done[i];
    assert forall i :: 0 <= i < |start| ==> end[i] == start[i];
  }

  // Orderly work after orderly work that met no refusal.
  lemma OrderlyJoin(s0: seq<Event>, s1: seq<Event>, s2: seq<Event>)
    requires s0 <= s1 <= s2 && BootoutsGuarded(s1, |s0|) && NoRefusal(s1, |s0|) && Orderly(s2, |s1|)
    ensures Orderly(s2, |s0|)
  {
    GuardedGoesOn(s1, s2, |s0|);
    assert forall i :: 0 <= i < |s1| ==> s2[i] == s1[i];
  }

  lemma NoRefusalJoin(s0: seq<Event>, s1: seq<Event>, s2: seq<Event>)
    requires s0 <= s1 <= s2 && NoRefusal(s1, |s0|) && NoRefusal(s2, |s1|)
    ensures NoRefusal(s2, |s0|)
  {
  }

  // ---------------------------------------------------------------- install

  // nil, an ordinary error, or InstallMaintenanceError.
  datatype InstallResult = Clean | Error | MaintenanceError(installed: bool, drainActive: bool)

  const MAX_PINGS: nat := 100

  // Authenticated pings until the daemon answers or ten seconds have passed: the last one is
  // the first that was answered, or none was and the time is up.
  method AwaitReady(w: World, service: Service) returns (ready: bool)
    modifies w
    ensures old(w.trace) <= w.trace && |w.trace| <= |old(w.trace)| + MAX_PINGS && Outstanding(w.trace) == old(Outstanding(w.trace))
    ensures forall i :: |old(w.trace)| <= i < |w.trace| ==>
              w.trace[i].Ping? && w.trace[i].service == service && (w.trace[i].ok <==> ready && i == |w.trace| - 1)
    ensures if ready then |w.trace| > |old(w.trace)| else w.now >= old(w.now) + READY_TIMEOUT
  {
    var deadline := w.now + READY_TIMEOUT;
    ghost var pings := 0;
    while true
      invariant old(w.trace) <= w.trace && |w.trace| == |old(w.trace)| + pings && Outstanding(w.trace) == old(Outstanding(w.trace))
      invariant forall i :: |old(w.trace)| <= i < |w.trace| ==> w.trace[i].Ping? && w.trace[i].service == service && !w.trace[i].ok
      invariant pings <= MAX_PINGS && (w.now >= old(w.now) + pings * POLL_DELAY || w.now >= deadline)
      decreases deadline - w.now
    {
      if deadline - w.now <= 0 {
        return false;
      }
      var answered, _ := w.Ping(service);
      pings := pings + 1;
      if answered {
        return true;
      }
      var remaining := deadline - w.now;
      if remaining <= 0 {
        return false;
      }
      w.Sleep(if POLL_DELAY < remaining then POLL_DELAY else remaining);
    }
  }

  // Release the lease a replacement restored, then look at its status.
  method ReleaseReplacement(guard: MaintenanceGuard, service: Service, ghost base: set<(Service, Token)>) returns (result: InstallResult)
    requires guard.Accounts(base)
    modifies guard`leases, guard.world
    ensures guard.Accounts(base) && old(guard.world.trace) <= guard.world.trace
    ensures RpcOnly(guard.world.trace, |old(guard.world.trace)|) && NoRefusal(guard.world.trace, |old(guard.world.trace)|)
    ensures Outstanding(guard.world.trace) <= old(Outstanding(guard.world.trace))
    ensures result.Clean? ==> service !in guard.leases
    ensures result.Clean? && service in old(guard.leases) ==>
              Occurs(guard.world.trace, |old(guard.world.trace)|, SendUndrain(service, old(guard.leases)[service].token))
    ensures result.MaintenanceError? ==> result.installed && result.drainActive
    ensures !result.Error? ==> |guard.world.trace| > |old(guard.world.trace)|
                               && guard.world.trace[|guard.world.trace| - 1] == Ping(service, true, result.MaintenanceError?)
  {
    var w := guard.world;
    var ready := AwaitReady(w, service);
    if !ready {
      return Error;
    }
    ghost var pinged := w.trace;
    var released := UndrainHeld(guard, service, base);
    if !released {
      return Error;
    }
    ghost var undrained := w.trace;
    result := Inspect(w, service);
    if service in old(guard.leases) {
      assert undrained[|pinged|] == SendUndrain(service, old(guard.leases)[service].token);
      assert w.trace[|pinged|] == undrained[|pinged|];
    }
  }

  method UndrainHeld(guard: MaintenanceGuard, service: Service, ghost base: set<(Service, Token)>) returns (ok: bool)
    requires guard.Accounts(base)
    modifies guard`leases, guard.world
    ensures guard.Accounts(base) && Outstanding(guard.world.trace) <= old(Outstanding(guard.world.trace))
    ensures guard.world.trace == old(guard.world.trace) +
              if service in old(guard.leases) then [SendUndrain(service, old(guard.leases)[service].token)] else []
    ensures ok ==> service !in guard.leases
  {
    if service !in guard.leases {
      return true;
    }
    ok := guard.world.SendUndrain(service, guard.leases[service].token);
    if ok {
      guard.Forgotten(service);
    }
  }

  // The replacement's own word on whether it is still draining.
  method Inspect(w: World, service: Service) returns (result: InstallResult)
    modifies w
    ensures Outstanding(w.trace) == old(Outstanding(w.trace))
    ensures exists ok, draining :: w.trace == old(w.trace) + [Ping(service, ok, draining)]
              && result == if !ok then Error else if draining then MaintenanceError(true, true) else Clean
  {
    var ok, draining := w.Ping(service);
    if !ok {
      return Error;
    }
    result := if draining then MaintenanceError(true, true) else Clean;
  }

  // Commands 0 to `n` - 1 were issued in order and succeeded.
  ghost predicate Installed(trace: seq<Event>, from: nat, n: nat) {
    from + n <= |trace| && forall i :: from <= i < from + n ==> trace[i] == InstallCommand(i - from, true)
  }

  predicate Undoes(e: Event, step: nat) { e.InstallCommand? && e.step == step }

  // What the copies into place may leave in the trace: all of them; all up to the first that
  // failed; or all of them and the two removals that follow when the result does not verify.
  ghost predicate InstallTrace(trace: seq<Event>, from: nat, commands: nat, ok: bool) {
    if ok then Installed(trace, from, commands) && |trace| == from + commands
    else
      || (|trace| > from && var k := |trace| - from - 1; k < commands && Installed(trace, from, k) && trace[from + k] == InstallCommand(k, false))
      || (Installed(trace, from, commands) && |trace| == from + commands + 2
          && Undoes(trace[from + commands], commands) && Undoes(trace[from + commands + 1], commands + 1))
  }

  // Privileged copies into place; stops at the first failure.
  method InstallFiles(w: World, commands: nat) returns (ok: bool)
    modifies w
    ensures old(w.trace) <= w.trace && Outstanding(w.trace) == old(Outstanding(w.trace)) && SameTokens(old(w.trace), w.trace)
    ensures InstallTrace(w.trace, |old(w.trace)|, commands, ok)
  {
    for i := 0 to commands
      invariant old(w.trace) <= w.trace && Outstanding(w.trace) == old(Outstanding(w.trace)) && SameTokens(old(w.trace), w.trace)
      invariant |w.trace| == |old(w.trace)| + i && Installed(w.trace, |old(w.trace)|, i)
    {
      ok := w.Install(i);
      if !ok {
        return;
      }
    }
    ok := w.Check();
    if !ok {
      var _ := w.Install(commands);
      var _ := w.Install(commands + 1);
    }
  }

  lemma OnlyInstallCommands(trace: seq<Event>, from: nat, commands: nat, ok: bool)
    requires InstallTrace(trace, from, commands, ok)
    ensures forall i :: from <= i < |trace| ==> trace[i].InstallCommand?
  {
  }

  // The old daemon was confirmed gone before the new one was started.
  ghost predicate Replaced(trace: seq<Event>, from: nat, service: Service) {
    exists i, j :: from <= i < j < |trace| && trace[i] == Print(service, true) && trace[j] == Bootstrap(service)
  }

  lemma ReplacedGrows(before: seq<Event>, after: seq<Event>, from: nat, from': nat, service: Service)
    requires before <= after && from' <= from && Replaced(before, from, service)
    ensures Replaced(after, from', service)
  {
  }

  // Install between drain and the deferred release.
  method InstallUnderGuard(guard: MaintenanceGuard, cfg: ServiceConfig, commands: nat, ghost base: set<(Service, Token)>)
    returns (result: InstallResult, primaryForgotten: bool, bootstrapped: bool)
    requires guard.Accounts(base) && guard.Holds()
    modifies guard`leases, guard.world
    ensures guard.Accounts(base) && old(guard.world.trace) <= guard.world.trace
    ensures primaryForgotten ==> forall l :: l in Outstanding(guard.world.trace) ==> l.0 != cfg.service
    ensures !guard.override ==> Orderly(guard.world.trace, |old(guard.world.trace)|)
    ensures bootstrapped ==> primaryForgotten
    ensures result.Clean? ==> bootstrapped
    ensures result.MaintenanceError? ==> bootstrapped && result.installed
    ensures bootstrapped ==> Replaced(guard.world.trace, |old(guard.world.trace)|, cfg.service)
    ensures bootstrapped ==> AllRemoved(guard.world.trace, |old(guard.world.trace)|, CompatibilityConfigs(cfg), cfg.runtimeDir)
  {
    var w := guard.world;
    ghost var s0 := w.trace;
    primaryForgotten, bootstrapped := false, false;
    var copied := InstallFiles(w, commands);
    ghost var s1 := w.trace;
    OnlyInstallCommands(s1, |s0|, commands, copied);
    AppendQuiet(s0, s0, s1);
    if !copied {
      return Error, false, false;
    }
    // The primary is still known to launchd, so its runtime tree is preserved.
    var cleaned := UninstallServiceConfigs(guard, CompatibilityConfigs(cfg), cfg.runtimeDir, base);
    ghost var s2 := w.trace;
    if !guard.override {
      OrderlyJoin(s0, s1, s2);
    }
    if !cleaned.Done? {
      return Error, false, false;
    }
    result, primaryForgotten, bootstrapped := ReplacePrimary(guard, cfg.service, base);
    if bootstrapped {
      ReplacedGrows(w.trace, w.trace, |s2|, |s0|, cfg.service);
      AllRemovedGrows(s2, w.trace, |s1|, |s0|, CompatibilityConfigs(cfg), cfg.runtimeDir);
    }
    if !guard.override {
      NoRefusalJoin(s0, s1, s2);
      OrderlyJoin(s0, s2, w.trace);
    }
  }

  // Make launchd forget the old daemon and start the new one.
  method ReplacePrimary(guard: MaintenanceGuard, service: Service, ghost base: set<(Service, Token)>)
    returns (result: InstallResult, primaryForgotten: bool, bootstrapped: bool)
    requires guard.Accounts(base) && guard.Holds()
    modifies guard`leases, guard.world
    ensures guard.Accounts(base) && old(guard.world.trace) <= guard.world.trace
    ensures primaryForgotten ==> forall l :: l in Outstanding(guard.world.trace) ==> l.0 != service
    ensures !guard.override ==> Orderly(guard.world.trace, |old(guard.world.trace)|)
    ensures bootstrapped ==> primaryForgotten && Replaced(guard.world.trace, |old(guard.world.trace)|, service)
    ensures result.Clean? ==> bootstrapped
    ensures result.MaintenanceError? ==> bootstrapped && result.installed
  {
    var w := guard.world;
    var cleared, forgot := ForgetUnderGuard(guard, service, base);
    if !cleared || !forgot {
      return Error, false, false;
    }
    ghost var gone := w.trace;
    result, bootstrapped := Replace(guard, service, base);
    primaryForgotten := true;
    if bootstrapped {
      BootstrapAfter(gone, w.trace, service);
      ReplacedGrows(w.trace, w.trace, |gone| - 1, |old(w.trace)|, service);
    }
    if !guard.override {
      OrderlyJoin(old(w.trace), gone, w.trace);
    }
  }

  lemma BootstrapAfter(gone: seq<Event>, after: seq<Event>, service: Service)
    requires |gone| > 0 && gone <= after && gone[|gone| - 1] == Print(service, true) && Occurs(after, |gone|, Bootstrap(service))
    ensures Replaced(after, |gone| - 1, service)
  {
  }

  // enable, bootstrap, and the wait for the new daemon.
  method Replace(guard: MaintenanceGuard, service: Service, ghost base: set<(Service, Token)>) returns (result: InstallResult, bootstrapped: bool)
    requires guard.Accounts(base)
    modifies guard`leases, guard.world
    ensures guard.Accounts(base) && old(guard.world.trace) <= guard.world.trace
    ensures Orderly(guard.world.trace, |old(guard.world.trace)|)
    ensures Outstanding(guard.world.trace) <= old(Outstanding(guard.world.trace))
    ensures result.Clean? ==> bootstrapped
    ensures result.MaintenanceError? ==> bootstrapped && result.installed
    ensures bootstrapped ==> Occurs(guard.world.trace, |old(guard.world.trace)|, Bootstrap(service))
  {
    var w := guard.world;
    bootstrapped := false;
    var enabled := w.Privileged(Enable(service));
    if !enabled {
      return Error, false;
    }
    bootstrapped := w.Privileged(Bootstrap(service));
    if !bootstrapped {
      return Error, false;
    }
    assert w.trace[|old(w.trace)| + 1] == Bootstrap(service);
    result := ReleaseReplacement(guard, service, base);
  }

  /** Install: a completed replacement is never reported as an ordinary failure, and on
      every way out the deferred release leaves no lease unaccounted for. */
  method InstallService(w: World, cfg: ServiceConfig, commands: nat, allowDisruption: bool) returns (result: InstallResult, bootstrapped: bool)
    modifies w
    ensures old(w.trace) <= w.trace && Outstanding(w.trace) <= old(Outstanding(w.trace))
    ensures !allowDisruption ==> Orderly(w.trace, |old(w.trace)|)
    ensures result.Clean? ==> bootstrapped
    ensures bootstrapped && !result.Clean? ==> result.MaintenanceError? && result.installed
    ensures result.MaintenanceError? ==> result.installed == bootstrapped
    ensures bootstrapped ==> Replaced(w.trace, |old(w.trace)|, cfg.service)
    ensures bootstrapped ==> AllRemoved(w.trace, |old(w.trace)|, CompatibilityConfigs(cfg), cfg.runtimeDir)
  {
    ghost var base := Outstanding(w.trace);
    bootstrapped := false;
    // Digests, arguments and the staged plist are validated first.
    var valid := w.Check();
    if !valid {
      return Error, false;
    }
    var guard, drained, dropped := DrainServices(w, MaintenanceConfigs(cfg), allowDisruption);
    DistinctRepeatsNothing(MaintenanceConfigs(cfg), dropped);
    if !drained {
      return Error, false;
    }
    ghost var start := w.trace;
    var primaryForgotten := false;
    result := Error;
    var sudo := w.Check();
    if sudo {
      result, primaryForgotten, bootstrapped := InstallUnderGuard(guard, cfg, commands, base);
    }
    ghost var done := w.trace;
    result := RollBack(guard, cfg.service, result, primaryForgotten, bootstrapped, base);
    if bootstrapped {
      ReplacedGrows(done, w.trace, |start|, |old(w.trace)|, cfg.service);
      AllRemovedGrows(done, w.trace, |start|, |old(w.trace)|, CompatibilityConfigs(cfg), cfg.runtimeDir);
    }
    if !allowDisruption {
      OrderlyAround(old(w.trace), start, done, w.trace);
    }
  }

  // The deferred part: a failure after the primary was forgotten says so, and every lease on a
  // service that is still there is released.
  method RollBack(guard: MaintenanceGuard, service: Service, outcome: InstallResult, primaryForgotten: bool, bootstrapped: bool,
                  ghost base: set<(Service, Token)>) returns (result: InstallResult)
    requires guard.Accounts(base) && (primaryForgotten ==> forall l :: l in Outstanding(guard.world.trace) ==> l.0 != service)
    modifies guard`leases, guard.world
    ensures old(guard.world.trace) <= guard.world.trace && Outstanding(guard.world.trace) <= base
    ensures RpcOnly(guard.world.trace, |old(guard.world.trace)|) && NoRefusal(guard.world.trace, |old(guard.world.trace)|)
    ensures result == if primaryForgotten && outcome.Error? && (service in old(guard.leases) || bootstrapped)
                      then MaintenanceError(bootstrapped, false) else outcome
  {
    result := outcome;
    if primaryForgotten {
      if result.Error? && (service in guard.leases || bootstrapped) {
        result := MaintenanceError(bootstrapped, false);
      }
      guard.Forgotten(service);
    }
    guard.Release(base);
  }
}
