/** What an install or uninstall does to the outside world, in order, and the properties
    of such a trace that the maintenance guard is there to secure. */
module Trace {
  import opened Wrappers
  import opened Lease
  import opened LeaseGrip

  type Service = string

  // A reply to a maintenance call: the socket was missing or refused, the call failed
  // (any other error, including a refusal by the daemon), or an answer arrived.
  datatype Reply = Unreachable | CallError | Answer(ok: bool, hasError: bool, token: Token)

  datatype Event =
    | AskDrain(service: Service, reply: Reply)
    | AskRenew(service: Service, token: Token, reply: Reply)
    | SendUndrain(service: Service, token: Token)
    | Ping(service: Service, ok: bool, draining: bool)
    | Bootout(service: Service)
    | Print(service: Service, absent: bool)
    | RemovePaths(service: Service)
    | RemoveRuntime(dir: string)
    | RemoveHelper(service: Service)
    | InstallCommand(step: nat, ok: bool)
    | Enable(service: Service)
    | Bootstrap(service: Service)

  predicate Privileged(e: Event) {
    !(e.AskDrain? || e.AskRenew? || e.SendUndrain? || e.Ping?)
  }

  predicate GrantingReply(reply: Reply) {
    reply.Answer? && reply.ok && !reply.hasError && ValidToken(reply.token)
  }

  predicate RenewingReply(reply: Reply, token: Token) {
    reply.Answer? && reply.ok && !reply.hasError && reply.token == token
  }

  predicate RenewalOf(e: Event, service: Service) { e.AskRenew? && e.service == service && RenewingReply(e.reply, e.token) }

  // A reachable daemon that did not grant or did not renew.
  predicate Refusal(e: Event) {
    || (e.AskDrain? && !e.reply.Unreachable? && !GrantingReply(e.reply))
    || (e.AskRenew? && !RenewingReply(e.reply, e.token))
  }

  // Leases somebody still owes a release: granted, no undrain sent since, and launchd
  // has not confirmed since that the service is gone.
  function Outstanding(trace: seq<Event>): set<(Service, Token)> {
    if trace == [] then {} else After(Outstanding(trace[..|trace| - 1]), trace[|trace| - 1])
  }

  function After(owed: set<(Service, Token)>, e: Event): set<(Service, Token)> {
    match e
    case AskDrain(service, reply) => if GrantingReply(reply) then owed + {(service, reply.token)} else owed
    case SendUndrain(service, token) => owed - {(service, token)}
    case Print(service, absent) => if absent then set l | l in owed && l.0 != service else owed
    case _ => owed
  }

  lemma OutstandingSnoc(trace: seq<Event>, e: Event)
    ensures Outstanding(trace + [e]) == After(Outstanding(trace), e)
  {
  }

  // ---------------------------------------------------------------- the client's grip

  // What an event means for the client's lease on a service.
  function ActOf(e: Event, service: Service): Option<Act> {
    match e
    case AskDrain(s, reply) => if s == service && GrantingReply(reply) then Some(Granted(reply.token)) else None
    case AskRenew(s, token, reply) =>
      if s != service then None else if RenewingReply(reply, token) then Some(Renewed(token)) else Some(RenewFailed(token))
    case SendUndrain(s, token) => if s == service then Some(Undrained(token)) else None
    case Bootout(s) => if s == service then Some(Booted) else None
    case _ => None
  }

  function GripAfter(g: Grip, e: Event, service: Service): Grip {
    match ActOf(e, service)
    case None => g
    case Some(act) => Grasp(g, act)
  }

  function GripOn(trace: seq<Event>, service: Service): Grip {
    if trace == [] then Free else GripAfter(GripOn(trace[..|trace| - 1], service), trace[|trace| - 1], service)
  }

  function TokenOf(g: Grip): Option<Token> { if g.Free? then None else Some(g.token) }

  lemma GripSnoc(trace: seq<Event>, e: Event, service: Service)
    ensures GripOn(trace + [e], service) == GripAfter(GripOn(trace, service), e, service)
  {
    assert (trace + [e])[..|trace|] == trace;
  }

  // The leases the client may still call its own are the same.
  ghost predicate SameTokens(before: seq<Event>, after: seq<Event>) {
    forall s :: TokenOf(GripOn(after, s)) == TokenOf(GripOn(before, s))
  }

  ghost predicate GrantedAt(trace: seq<Event>, k: nat, service: Service, token: Token) {
    k < |trace| && trace[k].AskDrain? && trace[k].service == service && GrantingReply(trace[k].reply) && trace[k].reply.token == token
  }

  // The lease was granted in this trace and has been sent no undrain since.
  ghost predicate Kept(trace: seq<Event>, service: Service, token: Token) {
    exists k: nat :: GrantedAt(trace, k, service, token) && forall j :: k < j < |trace| ==> trace[j] != SendUndrain(service, token)
  }

  lemma KeptGoesOn(trace: seq<Event>, e: Event, service: Service, token: Token)
    requires Kept(trace, service, token) && e != SendUndrain(service, token)
    ensures Kept(trace + [e], service, token)
  {
    var k: nat :| GrantedAt(trace, k, service, token) && forall j :: k < j < |trace| ==> trace[j] != SendUndrain(service, token);
    assert GrantedAt(trace + [e], k, service, token);
  }

  /** What a grip means: the token was granted by this service and never undrained since. */
  lemma {:induction false} GripMeansKept(trace: seq<Event>, service: Service)
    ensures !GripOn(trace, service).Free? ==> Kept(trace, service, GripOn(trace, service).token)
    decreases |trace|
  {
    if trace != [] {
      var before, e := trace[..|trace| - 1], trace[|trace| - 1];
      assert trace == before + [e];
      GripMeansKept(before, service);
      var g := GripOn(trace, service);
      if ActOf(e, service).Some? && ActOf(e, service).value.Granted? {
        assert GrantedAt(trace, |before|, service, g.token);
      } else if !g.Free? {
        KeptGoesOn(before, e, service, g.token);
      }
    }
  }

  // ---------------------------------------------------------------- bootouts

  // Every bootout follows directly on the renewal of a lease the client holds on that service,
  // or on a probe that found no socket.
  ghost predicate BootoutsGuarded(trace: seq<Event>, from: nat) {
    forall i :: from <= i < |trace| && trace[i].Bootout? ==> i > from && BootoutCleared(trace, i)
  }

  ghost predicate BootoutCleared(trace: seq<Event>, i: nat)
    requires 0 < i < |trace| && trace[i].Bootout?
  {
    ReadyFor(trace[..i], trace[i].service)
  }

  ghost predicate ReadyFor(trace: seq<Event>, service: Service) {
    trace != [] && Cleared(trace[|trace| - 1], service) && (trace[|trace| - 1].AskRenew? ==> GripOn(trace, service) == Ready(trace[|trace| - 1].token))
  }

  predicate Cleared(e: Event, service: Service) {
    RenewalOf(e, service) || e == AskDrain(service, Unreachable)
  }

  /** Before a guarded bootout that no missing socket explains: the event just before renewed a
      lease that this service granted, and no undrain with its token was sent since the grant. */
  lemma BootoutHoldsItsLease(trace: seq<Event>, from: nat, i: nat)
    requires BootoutsGuarded(trace, from) && from <= i < |trace| && trace[i].Bootout?
    requires trace[i - 1] != AskDrain(trace[i].service, Unreachable)
    ensures var service := trace[i].service;
            && trace[i - 1].AskRenew? && trace[i - 1].service == service && RenewingReply(trace[i - 1].reply, trace[i - 1].token)
            && GripOn(trace[..i], service) == Ready(trace[i - 1].token) && Kept(trace[..i], service, trace[i - 1].token)
  {
    assert trace[..i][|trace[..i]| - 1] == trace[i - 1];
    GripMeansKept(trace[..i], trace[i].service);
  }

  // No privileged command after a reachable daemon refused.
  ghost predicate RefusalIsFinal(trace: seq<Event>, from: nat) {
    forall i, j :: from <= i < j < |trace| && Refusal(trace[i]) ==> !Privileged(trace[j])
  }

  ghost predicate NoRefusal(trace: seq<Event>, from: nat) {
    forall i :: from <= i < |trace| ==> !Refusal(trace[i])
  }

  ghost predicate ConfirmedAbsent(trace: seq<Event>, from: nat, to: nat, service: Service)
    requires to <= |trace|
  {
    exists i :: from <= i < to && trace[i] == Print(service, true)
  }

  ghost predicate Occurs(trace: seq<Event>, from: nat, e: Event) {
    exists i :: from <= i < |trace| && trace[i] == e
  }

  // What occurred in a piece occurred in the whole.
  lemma OccursGrows(before: seq<Event>, after: seq<Event>, from: nat, from': nat, e: Event)
    requires before <= after && from' <= from && Occurs(before, from, e)
    ensures Occurs(after, from', e)
  {
  }

  // Guarded work stays guarded when work without bootouts, or guarded work, follows.
  lemma GuardedGoesOn(before: seq<Event>, after: seq<Event>, from: nat)
    requires from <= |before| && before <= after && BootoutsGuarded(before, from) && BootoutsGuarded(after, |before|)
    ensures BootoutsGuarded(after, from)
  {
    forall i | from <= i < |after| && after[i].Bootout? ensures i > from && BootoutCleared(after, i) {
      if i < |before| {
        assert before[i] == after[i] && before[..i] == after[..i];
        assert BootoutCleared(before, i);
      }
    }
  }
}
