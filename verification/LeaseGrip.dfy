/** What a client knows of its own lease on one service.

    The automaton is shared: `LeaseClients` puts a client that follows it next to the daemon's
    step system, and the contracts of `Guard`, `Uninstall` and `Install` say that the operator
    commands follow it. */
module LeaseGrip {
  import opened Lease

  datatype Grip =
    | Free                     // no lease
    | Holding(token: Token)    // granted
    | Ready(token: Token)      // the last request about it was a renewal that was answered
    | Owing(token: Token)      // a renewal failed or went unanswered
    | Spent(token: Token)      // bootout was issued

  datatype Act = Granted(token: Token) | Renewed(token: Token) | RenewFailed(token: Token) | Undrained(token: Token) | Booted

  predicate Owns(g: Grip, token: Token) { !g.Free? && g.token == token }

  // Only the token held counts; sending an undrain for it gives it up.
  function Grasp(g: Grip, act: Act): Grip {
    match act
    case Granted(token) => Holding(token)
    case Renewed(token) => if Owns(g, token) then Ready(token) else g
    case RenewFailed(token) => if Owns(g, token) then Owing(token) else g
    case Undrained(token) => if Owns(g, token) then Free else g
    case Booted => if g.Ready? then Spent(g.token) else g
  }

  function GraspAll(g: Grip, acts: seq<Act>): Grip
    decreases |acts|
  {
    if acts == [] then g else Grasp(GraspAll(g, acts[..|acts| - 1]), acts[|acts| - 1])
  }

  lemma GraspSnoc(g: Grip, acts: seq<Act>, last: Act)
    ensures GraspAll(g, acts + [last]) == Grasp(GraspAll(g, acts), last)
  {
    assert (acts + [last])[..|acts|] == acts;
  }
}
