/** The two halves together: the operator command, whose contracts speak of its own trace, and
    the daemon with the client that stands for the command.  They meet in the acts by which
    both describe the command's lease on the service. */
module EndToEnd {
  import opened Wrappers
  import opened Lease
  import opened LeaseGrip
  import opened LeaseTheorems
  import opened LeaseClients
  import opened LeaseClientRuns
  import Trace
  import opened Install
  import Guard

  function Listed(act: Option<Act>): seq<Act> { if act.Some? then [act.value] else [] }

  // ---------------------------------------------------------------- the command

  function ActsOn(trace: seq<Trace.Event>, service: Trace.Service): seq<Act> {
    if trace == [] then []
    else ActsOn(trace[..|trace| - 1], service) + Listed(Trace.ActOf(trace[|trace| - 1], service))
  }

  lemma {:induction false} TraceGrip(trace: seq<Trace.Event>, service: Trace.Service)
    ensures Trace.GripOn(trace, service) == GraspAll(Free, ActsOn(trace, service))
    decreases |trace|
  {
    if trace != [] {
      var before, act := trace[..|trace| - 1], Trace.ActOf(trace[|trace| - 1], service);
      TraceGrip(before, service);
      if act.Some? {
        GraspSnoc(Free, ActsOn(before, service), act.value);
      } else {
        assert ActsOn(before, service) + [] == ActsOn(before, service);
      }
    }
  }

  // ---------------------------------------------------------------- together

  // In this run the client did and heard about its lease what the trace up to the bootout says.
  ghost predicate Agrees(trace: seq<Trace.Event>, i: nat, start: World, moves: seq<Move>)
    requires i < |trace| && trace[i].Bootout?
  {
    Begins(start) && Playable(start, moves) && Play(start, moves).wait.Nothing? && Play(start, moves).acts == ActsOn(trace[..i], trace[i].service)
  }

  // The deadline of the last renewal has not passed, and every relaunch since could read the file.
  predicate InTime(w: World) { w.base.now < w.deadline && !w.blinded }

  /** Take any trace with guarded bootouts and any run of the daemon that agrees with it up to a
      bootout.  Unless the bootout followed a probe that found no socket, and as long as the
      deadline of the renewal just before it has not passed and no relaunch since failed to read
      the lease file, the daemon has no registered child and none about to be registered. */
  lemma GuardedBootoutFindsNoChild(trace: seq<Trace.Event>, from: nat, i: nat, start: World, moves: seq<Move>)
    requires Trace.BootoutsGuarded(trace, from) && from <= i < |trace| && trace[i].Bootout?
    requires trace[i - 1] != Trace.AskDrain(trace[i].service, Trace.Unreachable)
    requires Agrees(trace, i, start, moves) && InTime(Play(start, moves))
    ensures Protected(Play(start, moves).base) && InForce(Play(start, moves).base, trace[i - 1].token)
  {
    Trace.BootoutHoldsItsLease(trace, from, i);
    TraceGrip(trace[..i], trace[i].service);
    GripIsItsActs(start, moves);
    BootoutFindsNoChild(start, moves);
  }

  /** Guarded traces have such runs: a client drains, renews and boots out, and the daemon's run
      agrees with it, in time. */
  lemma AgreementExists(service: Trace.Service, token: Token) returns (trace: seq<Trace.Event>, start: World, moves: seq<Move>)
    requires ValidToken(token)
    ensures |trace| == 3 && Trace.BootoutsGuarded(trace, 0) && trace[2] == Trace.Bootout(service)
    ensures Agrees(trace, 2, start, moves) && InTime(Play(start, moves))
  {
    var w := BootoutIsReachable(token);
    start, moves :| Begins(start) && Playable(start, moves) && Play(start, moves) == w;
    trace := DrainRenewBootout(service, token);
  }

  lemma DrainRenewBootout(service: Trace.Service, token: Token) returns (trace: seq<Trace.Event>)
    requires ValidToken(token)
    ensures |trace| == 3 && trace[2] == Trace.Bootout(service) && Trace.BootoutsGuarded(trace, 0)
    ensures ActsOn(trace[..2], service) == [Granted(token), Renewed(token)]
  {
    var reply := Trace.Answer(true, false, token);
    var before := [Trace.AskDrain(service, reply)] + [Trace.AskRenew(service, token, reply)];
    TwoActs(service, token, reply);
    trace := before + [Trace.Bootout(service)];
    assert trace[..2] == before;
    assert Trace.ReadyFor(before, service);
  }

  lemma ActsSnoc(trace: seq<Trace.Event>, e: Trace.Event, service: Trace.Service)
    ensures ActsOn(trace + [e], service) == ActsOn(trace, service) + Listed(Trace.ActOf(e, service))
  {
    assert (trace + [e])[..|trace|] == trace;
  }

  lemma TwoActs(service: Trace.Service, token: Token, reply: Trace.Reply)
    requires ValidToken(token) && reply == Trace.Answer(true, false, token)
    ensures var before := [Trace.AskDrain(service, reply)] + [Trace.AskRenew(service, token, reply)];
            ActsOn(before, service) == [Granted(token), Renewed(token)] && Trace.GripOn(before, service) == Ready(token)
  {
    var drain, renew := Trace.AskDrain(service, reply), Trace.AskRenew(service, token, reply);
    assert [] + [drain] == [drain];
    ActsSnoc([], drain, service);
    ActsSnoc([drain], renew, service);
    Trace.GripSnoc([], drain, service);
    Trace.GripSnoc([drain], renew, service);
  }

  /** In particular every bootout of an uninstall without the override. */
  method UninstallIsShielded(w: Guard.World, cfg: Guard.ServiceConfig) returns (ok: bool)
    modifies w
    ensures old(w.trace) <= w.trace && forall i :: |old(w.trace)| <= i < |w.trace| && w.trace[i].Bootout? ==> ShieldedAt(w.trace, i)
  {
    ok := UninstallService(w, cfg, false);
    forall i | |old(w.trace)| <= i < |w.trace| && w.trace[i].Bootout? ensures ShieldedAt(w.trace, i) {
      BootoutShielded(w.trace, |old(w.trace)|, i);
    }
  }

  /** And of an install. */
  method InstallIsShielded(w: Guard.World, cfg: Guard.ServiceConfig, commands: nat) returns (result: InstallResult, bootstrapped: bool)
    modifies w
    ensures old(w.trace) <= w.trace && forall i :: |old(w.trace)| <= i < |w.trace| && w.trace[i].Bootout? ==> ShieldedAt(w.trace, i)
  {
    result, bootstrapped := InstallService(w, cfg, commands, false);
    forall i | |old(w.trace)| <= i < |w.trace| && w.trace[i].Bootout? ensures ShieldedAt(w.trace, i) {
      BootoutShielded(w.trace, |old(w.trace)|, i);
    }
  }

  // The daemon behind the service, if it could be reached, has nothing running at this bootout
  // in any run that agrees with the trace and is in time.
  ghost predicate ShieldedAt(trace: seq<Trace.Event>, i: nat)
    requires i < |trace| && trace[i].Bootout?
  {
    || (i > 0 && trace[i - 1] == Trace.AskDrain(trace[i].service, Trace.Unreachable))
    || (forall start, moves :: Agrees(trace, i, start, moves) && InTime(Play(start, moves)) ==> Protected(Play(start, moves).base))
  }

  lemma BootoutShielded(trace: seq<Trace.Event>, from: nat, i: nat)
    requires Trace.BootoutsGuarded(trace, from) && from <= i < |trace| && trace[i].Bootout?
    ensures ShieldedAt(trace, i)
  {
    if trace[i - 1] != Trace.AskDrain(trace[i].service, Trace.Unreachable) {
      forall start, moves | Agrees(trace, i, start, moves) && InTime(Play(start, moves)) ensures Protected(Play(start, moves).base) {
        GuardedBootoutFindsNoChild(trace, from, i, start, moves);
      }
    }
  }
}
