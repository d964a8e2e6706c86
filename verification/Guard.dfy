/** The client side of maintenance: a guard that drains services before an operator
    command changes them and accounts for every lease on every way out.

    `World` is everything outside the client.  Its answers are arbitrary, so what the
    methods promise holds for every behaviour of daemons, launchd and the file system.
    It keeps the trace of what was asked of it. */
module Guard {
  import opened Wrappers
  import opened Lease
  import opened Trace

  const FORGET_TIMEOUT: int := 10_000_000_000
  const POLL_DELAY: int := 100_000_000
  const READY_TIMEOUT: int := 10_000_000_000

  class World {
    ghost var trace: seq<Event>
    var now: int

    constructor (now: int)
      ensures trace == [] && this.now == now
    {
      this.now := now;
      trace := [];
    }

    // Something happens outside, and time passes.
    method Record(ghost e: Event)
      modifies this
      ensures trace == old(trace) + [e] && now >= old(now)
      ensures Outstanding(trace) == After(old(Outstanding(trace)), e)
      ensures forall s :: GripOn(trace, s) == GripAfter(GripOn(old(trace), s), e, s)
    {
      OutstandingSnoc(trace, e);
      forall s ensures GripOn(trace + [e], s) == GripAfter(GripOn(trace, s), e, s) {
        GripSnoc(trace, e, s);
      }
      trace := trace + [e];
      var passed: nat :| true;
      now := now + passed;
    }

    method AskDrain(service: Service) returns (reply: Reply)
      modifies this
      ensures trace == old(trace) + [Event.AskDrain(service, reply)] && now >= old(now)
      ensures Outstanding(trace) == After(old(Outstanding(trace)), Event.AskDrain(service, reply))
      ensures forall s :: GripOn(trace, s) == GripAfter(GripOn(old(trace), s), Event.AskDrain(service, reply), s)
    {
      reply := *;
      Record(Event.AskDrain(service, reply));
    }

    method AskRenew(service: Service, token: Token) returns (reply: Reply)
      modifies this
      ensures trace == old(trace) + [Event.AskRenew(service, token, reply)] && now >= old(now)
      ensures Outstanding(trace) == old(Outstanding(trace))
      ensures forall s :: GripOn(trace, s) == GripAfter(GripOn(old(trace), s), Event.AskRenew(service, token, reply), s)
    {
      reply := *;
      Record(Event.AskRenew(service, token, reply));
    }

    method SendUndrain(service: Service, token: Token) returns (ok: bool)
      modifies this
      ensures trace == old(trace) + [Event.SendUndrain(service, token)] && now >= old(now)
      ensures Outstanding(trace) == old(Outstanding(trace)) - {(service, token)}
    {
      ok := *;
      Record(Event.SendUndrain(service, token));
    }

    method Ping(service: Service) returns (ok: bool, draining: bool)
      modifies this
      ensures trace == old(trace) + [Event.Ping(service, ok, draining)] && now >= old(now)
      ensures Outstanding(trace) == old(Outstanding(trace)) && SameTokens(old(trace), trace)
    {
      ok, draining := *, *;
      Record(Event.Ping(service, ok, draining));
    }

    method Print(service: Service) returns (absent: bool)
      modifies this
      ensures trace == old(trace) + [Event.Print(service, absent)] && now >= old(now)
      ensures Outstanding(trace) == After(old(Outstanding(trace)), Event.Print(service, absent)) && SameTokens(old(trace), trace)
    {
      absent := *;
      Record(Event.Print(service, absent));
    }

    // A privileged command that neither asks about launchd nor touches a lease.
    method Privileged(ghost e: Event) returns (ok: bool)
      requires Trace.Privileged(e) && !e.Print?
      modifies this
      ensures trace == old(trace) + [e] && now >= old(now)
      ensures Outstanding(trace) == old(Outstanding(trace)) && SameTokens(old(trace), trace)
    {
      ok := *;
      Record(e);
    }

    method Install(step: nat) returns (ok: bool)
      modifies this
      ensures trace == old(trace) + [InstallCommand(step, ok)] && now >= old(now)
      ensures Outstanding(trace) == old(Outstanding(trace)) && SameTokens(old(trace), trace)
    {
      ok := *;
      Record(InstallCommand(step, ok));
    }

    method Sleep(delay: int)
      requires delay >= 0
      modifies this`now
      ensures now >= old(now) + delay
    {
      var extra: nat :| true;
      now := now + delay + extra;
    }

    // A check that reads and changes nothing.
    method Check() returns (ok: bool) {
      ok := *;
    }
  }

  datatype ServiceConfig = ServiceConfig(service: Service, plistPath: string, socketPath: string, helperDir: string, runtimeDir: string)

  datatype HeldLease = HeldLease(token: Token, until: int)

  datatype Outcome = Done | Failed | Refused

  ghost predicate RpcOnly(trace: seq<Event>, from: nat) {
    forall i :: from <= i < |trace| ==> !Trace.Privileged(trace[i])
  }

  class MaintenanceGuard {
    const world: World
    var leases: map<Service, HeldLease>
    var configs: map<Service, ServiceConfig>
    var override: bool

    // Every lease still owed a release is one of `base` or one the guard holds.
    ghost predicate Accounts(base: set<(Service, Token)>)
      reads this, world
    {
      && (forall l :: l in Outstanding(world.trace) ==> l in base || (l.0 in leases && leases[l.0].token == l.1))
      && (forall s :: s in configs ==> configs[s].service == s)
    }

    // Every recorded lease is one the client may still call its own.
    ghost predicate Holds()
      reads this, world
    {
      forall s :: s in leases ==> TokenOf(GripOn(world.trace, s)) == Some(leases[s].token)
    }

    constructor (world: World, override: bool)
      ensures this.world == world && leases == map[] && configs == map[] && this.override == override
    {
      this.world := world;
      leases, configs := map[], map[];
      this.override := override;
    }

    // An unreachable socket is no error here; the final probe asks again.  A lease that was
    // held before, if the service grants another one, drops out of the record.
    method Acquire(cfg: ServiceConfig, ghost base: set<(Service, Token)>) returns (ok: bool, ghost dropped: set<(Service, Token)>)
      requires Accounts(base) && Holds()
      modifies this`leases, world
      ensures Accounts(base + dropped) && Holds() && old(world.trace) <= world.trace && |world.trace| == |old(world.trace)| + 1
      ensures dropped <= if cfg.service in old(leases) then {(cfg.service, old(leases)[cfg.service].token)} else {}
      ensures world.trace[|old(world.trace)|].AskDrain? && world.trace[|old(world.trace)|].service == cfg.service
      ensures var e := world.trace[|old(world.trace)|];
              (ok <==> !Refusal(e)) && (ok && cfg.service !in leases ==> e.reply.Unreachable?)
      ensures leases == old(leases) || (ok && leases.Keys == old(leases.Keys) + {cfg.service})
    {
      dropped := {};
      var reply := world.AskDrain(cfg.service);
      if reply.Unreachable? {
        return true, {};
      }
      if reply.CallError? || !reply.ok || reply.hasError || !ValidToken(reply.token) {
        return false, {};
      }
      if cfg.service in leases {
        dropped := {(cfg.service, leases[cfg.service].token)};
      }
      leases := leases[cfg.service := HeldLease(reply.token, world.now + TTL)];
      ok := true;
    }

    /** Success means a bootout may come next: the last thing that happened is a renewal of the
        lease held on this service, or a probe that found no socket, and nothing privileged
        came in between.  Failure is a refusal. */
    method BeforeBootout(service: Service, ghost base: set<(Service, Token)>) returns (ok: bool)
      requires Accounts(base) && Holds()
      modifies this`leases, world
      ensures Accounts(base) && Holds() && old(world.trace) <= world.trace && RpcOnly(world.trace, |old(world.trace)|)
      ensures override ==> ok && world.trace == old(world.trace) && leases == old(leases)
      ensures !override && ok ==>
                |old(world.trace)| < |world.trace| && ReadyFor(world.trace, service) && NoRefusal(world.trace, |old(world.trace)|)
      ensures !override && ok && service in leases ==>
                world.trace[|world.trace| - 1].AskRenew? && world.trace[|world.trace| - 1].token == leases[service].token
      ensures old(leases.Keys) <= leases.Keys
    {
      if override {
        return true;
      }
      if service !in configs {
        return false;
      }
      if service !in leases {
        ok := Probe(service, base);
        if !ok || service !in leases {
          return;
        }
      }
      ok := Renew(service, base);
    }

    // The last chance to find the service and take a lease on it.
    method Probe(service: Service, ghost base: set<(Service, Token)>) returns (ok: bool)
      requires Accounts(base) && Holds() && service !in leases && service in configs
      modifies this`leases, world
      ensures Accounts(base) && Holds() && old(leases.Keys) <= leases.Keys
      ensures old(world.trace) <= world.trace && |world.trace| == |old(world.trace)| + 1 && world.trace[|old(world.trace)|].AskDrain?
      ensures ok <==> !Refusal(world.trace[|old(world.trace)|])
      ensures ok && service !in leases ==> ReadyFor(world.trace, service)
    {
      ghost var dropped;
      ok, dropped := Acquire(configs[service], base);
      assert base + dropped == base;
    }

    method Renew(service: Service, ghost base: set<(Service, Token)>) returns (ok: bool)
      requires Accounts(base) && Holds() && service in leases
      modifies this`leases, world
      ensures Accounts(base) && Holds() && leases.Keys == old(leases.Keys) && leases[service].token == old(leases)[service].token
      ensures old(world.trace) <= world.trace && |world.trace| == |old(world.trace)| + 1
      ensures var e := world.trace[|old(world.trace)|]; e.AskRenew? && e.token == leases[service].token && (ok <==> !Refusal(e))
      ensures ok ==> ReadyFor(world.trace, service)
    {
      var lease := leases[service];
      var reply := world.AskRenew(service, lease.token);
      if !(reply.Answer? && reply.ok && !reply.hasError && reply.token == lease.token) {
        return false;
      }
      leases := leases[service := lease.(until := world.now + TTL)];
      return true;
    }

    method Forgotten(service: Service)
      modifies this`leases
      ensures leases == old(leases) - {service}
    {
      leases := leases - {service};
    }

    /** Sends an undrain for every lease held, in whatever order: nothing is owed afterwards
        beyond what was owed before the operation. */
    method Release(ghost base: set<(Service, Token)>)
      requires Accounts(base)
      modifies world
      ensures Outstanding(world.trace) <= base
      ensures old(world.trace) <= world.trace && RpcOnly(world.trace, |old(world.trace)|)
      ensures NoRefusal(world.trace, |old(world.trace)|)
    {
      var rest := leases.Keys;
      while rest != {}
        invariant rest <= leases.Keys
        invariant forall l :: l in Outstanding(world.trace) ==> l in base || (l.0 in rest && leases[l.0].token == l.1)
        invariant old(world.trace) <= world.trace && RpcOnly(world.trace, |old(world.trace)|)
        invariant NoRefusal(world.trace, |old(world.trace)|)
        decreases rest
      {
        var service :| service in rest;
        var _ := world.SendUndrain(service, leases[service].token);
        rest := rest - {service};
      }
    }
  }

  predicate DistinctServices(configs: seq<ServiceConfig>) {
    forall i, j :: 0 <= i < j < |configs| ==> configs[i].service != configs[j].service
  }

  // The service was asked for a lease and granted it or could not be reached.
  ghost predicate Asked(trace: seq<Event>, from: nat, service: Service) {
    exists i :: from <= i < |trace| && trace[i].AskDrain? && trace[i].service == service && !Refusal(trace[i])
  }

  lemma AskedOneMore(before: seq<Event>, after: seq<Event>, from: nat, configs: seq<ServiceConfig>, n: nat)
    requires n < |configs| && from <= |before| && before <= after && |after| == |before| + 1
    requires forall j :: 0 <= j < n ==> Asked(before, from, configs[j].service)
    requires var e := after[|before|]; e.AskDrain? && e.service == configs[n].service && !Refusal(e)
    ensures forall j :: 0 <= j < n + 1 ==> Asked(after, from, configs[j].service)
  {
  }

  // The service is named more than once.
  ghost predicate Repeated(configs: seq<ServiceConfig>, service: Service) {
    exists i, j :: 0 <= i < j < |configs| && configs[i].service == configs[j].service == service
  }

  /** Drains every service or none: on failure every lease already taken has been sent an
      undrain, and nothing privileged has happened either way.  Only a service named more than
      once can have a lease drop out of the record: the one a second grant replaces. */
  method DrainServices(world: World, configs: seq<ServiceConfig>, allowDisruption: bool)
    returns (guard: MaintenanceGuard, ok: bool, ghost dropped: set<(Service, Token)>)
    modifies world
    ensures fresh(guard) && guard.world == world && guard.override == allowDisruption
    ensures old(world.trace) <= world.trace && RpcOnly(world.trace, |old(world.trace)|)
    ensures forall l :: l in dropped ==> Repeated(configs, l.0)
    ensures ok ==> guard.Accounts(old(Outstanding(world.trace)) + dropped) && guard.Holds() && NoRefusal(world.trace, |old(world.trace)|)
    ensures ok && !allowDisruption ==> guard.configs.Keys == set i | 0 <= i < |configs| :: configs[i].service
    ensures ok && !allowDisruption ==> forall i :: 0 <= i < |configs| ==> Asked(world.trace, |old(world.trace)|, configs[i].service)
    ensures !ok ==> Outstanding(world.trace) <= old(Outstanding(world.trace)) + dropped
  {
    ghost var base := Outstanding(world.trace);
    dropped := {};
    guard := new MaintenanceGuard(world, allowDisruption);
    if allowDisruption {
      return guard, true, {};
    }
    for i := 0 to |configs|
      invariant guard.world == world && !guard.override && guard.Accounts(base + dropped) && guard.Holds() && fresh(guard)
      invariant old(world.trace) <= world.trace && RpcOnly(world.trace, |old(world.trace)|)
      invariant NoRefusal(world.trace, |old(world.trace)|)
      invariant guard.configs.Keys == set j | 0 <= j < i :: configs[j].service
      invariant guard.leases.Keys <= guard.configs.Keys
      invariant forall l :: l in dropped ==> Repeated(configs, l.0)
      invariant forall j :: 0 <= j < i ==> Asked(world.trace, |old(world.trace)|, configs[j].service)
    {
      ghost var before := world.trace;
      ghost var again := configs[i].service in guard.leases;
      ok, dropped := DrainNext(guard, configs[i], base, dropped);
      assert again ==> Repeated(configs, configs[i].service);
      if !ok {
        guard.Release(base + dropped);
        return;
      }
      AskedOneMore(before, world.trace, |old(world.trace)|, configs, i);
    }
    ok := true;
  }

  // One round of the loop.
  method DrainNext(guard: MaintenanceGuard, cfg: ServiceConfig, ghost base: set<(Service, Token)>, ghost dropped: set<(Service, Token)>)
    returns (ok: bool, ghost dropped': set<(Service, Token)>)
    requires guard.Accounts(base + dropped) && guard.Holds()
    modifies guard`leases, guard`configs, guard.world
    ensures guard.Accounts(base + dropped') && guard.Holds() && guard.configs == old(guard.configs)[cfg.service := cfg]
    ensures guard.leases.Keys <= old(guard.leases.Keys) + {cfg.service}
    ensures forall l :: l in dropped' - dropped ==> l.0 == cfg.service && cfg.service in old(guard.leases)
    ensures var before, after := old(guard.world.trace), guard.world.trace;
            && before <= after && |after| == |before| + 1 && after[|before|].AskDrain? && after[|before|].service == cfg.service
            && (ok <==> !Refusal(after[|before|]))
  {
    guard.configs := guard.configs[cfg.service := cfg];
    ghost var more;
    ok, more := guard.Acquire(cfg, base + dropped);
    dropped' := dropped + more;
    assert base + dropped' == base + dropped + more;
  }

  lemma DistinctRepeatsNothing(configs: seq<ServiceConfig>, dropped: set<(Service, Token)>)
    requires DistinctServices(configs) && forall l :: l in dropped ==> Repeated(configs, l.0)
    ensures dropped == {}
  {
  }
}
