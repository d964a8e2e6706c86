/** The daemon's step system with its clients: one that follows the grip automaton, and the rest
    of the world, which may send anything it likes.

    Tokens are secrets: one that was drawn is known only to the client whose drain was answered
    with it, so nobody else can send it.  The followed client stands for any operator command;
    every other command is part of the rest of the world. */
module LeaseClients {
  import opened Wrappers
  import opened Lease
  import opened LeaseGrip
  import opened LeaseProtocol
  import opened LeaseInvariants
  import opened LeaseTheorems

  // The request of the followed client that has not been answered.
  datatype Wait = Nothing | ForDrain(id: RequestId) | ForRenew(id: RequestId)

  datatype World = World(
    base: State,
    grip: Grip,
    acts: seq<Act>,        // history: what the client did and heard about its lease
    wait: Wait,
    deadline: int,         // the deadline the daemon had set when it answered the last renewal
    blinded: bool,         // since then, a relaunch could not read the lease file
    others: set<Token>,    // tokens the rest of the world was given
    foreign: set<Token>)   // history: tokens the rest of the world has sent

  datatype Move =
    | Base(step: Step)     // the clock, the daemon, or another client
    | AskDrain(id: RequestId)
    | AskRenew(id: RequestId)
    | SendUndrain(id: RequestId)
    | GiveUp               // the answer did not arrive
    | Bootout

  // What the rest of the world can send: tokens it was given, or ones nobody has drawn.
  predicate Foreign(w: World, action: Action) {
    OwnerAction(action) ==> action.token in w.others || action.token !in w.base.issued
  }

  // A drawn token is none that anybody has sent before.
  predicate FreshDraw(w: World, step: Step) {
    step.Handler? && w.base.holder.Some? && w.base.holder.value.pc.Issue? ==>
      step.choice.token !in w.base.undrainSent && step.choice.token !in w.foreign
  }

  predicate Able(w: World, move: Move) {
    match move
    case Base(step) => Enabled(w.base, step) && FreshDraw(w, step) && (step.Read? ==> Foreign(w, step.action))
    case AskDrain(id) => w.wait.Nothing? && Enabled(w.base, Read(id, Drain))
    case AskRenew(id) => w.wait.Nothing? && !w.grip.Free? && Enabled(w.base, Read(id, Renew(w.grip.token)))
    case SendUndrain(id) => w.wait.Nothing? && !w.grip.Free? && Enabled(w.base, Read(id, Undrain(w.grip.token)))
    case GiveUp => !w.wait.Nothing?
    case Bootout => w.wait.Nothing? && w.grip.Ready?
  }

  function Do(w: World, move: Move): World
    requires Able(w, move)
  {
    match move
    case Base(step) =>
      var w' := if step.Crash? then Unanswered(w) else if step.Handler? && w.base.holder.value.pc.Respond? then Answered(w) else w;
      w'.(base := Apply(w.base, step), blinded := w'.blinded || Blind(step), foreign := w.foreign + Carried(step))
    case AskDrain(id) => w.(base := Apply(w.base, Read(id, Drain)), wait := ForDrain(id))
    case AskRenew(id) => w.(base := Apply(w.base, Read(id, Renew(w.grip.token))), wait := ForRenew(id))
    case SendUndrain(id) => Acts(w.(base := Apply(w.base, Read(id, Undrain(w.grip.token)))), Undrained(w.grip.token))
    case GiveUp => Unanswered(w)
    case Bootout => Acts(w, Booted)
  }

  function Acts(w: World, act: Act): World { w.(grip := Grasp(w.grip, act), acts := w.acts + [act]) }

  // The token a request on its way to the daemon carries.
  function Carried(step: Step): set<Token> { if step.Read? && OwnerAction(step.action) then {step.action.token} else {} }

  function Unanswered(w: World): World {
    if w.wait.ForRenew? && !w.grip.Free? then Acts(w.(wait := Nothing), RenewFailed(w.grip.token)) else w.(wait := Nothing)
  }

  // The daemon answers the request that holds the lock.  The lock is still held, so the token
  // of a granted drain is the one in memory.
  function Answered(w: World): World
    requires w.base.holder.Some? && w.base.holder.value.pc.Respond?
  {
    var h, mem := w.base.holder.value, w.base.mem;
    if w.wait == ForDrain(h.id) then
      if h.pc.ok then Acts(w.(wait := Nothing), Granted(mem.token)) else w.(wait := Nothing)
    else if w.wait == ForRenew(h.id) && !w.grip.Free? && h.pc.ok then
      Acts(w.(wait := Nothing, deadline := mem.until, blinded := false), Renewed(w.grip.token))
    else if w.wait == ForRenew(h.id) then Unanswered(w)
    else if h.action.Drain? && h.pc.ok then w.(others := w.others + {mem.token})
    else w
  }

  // ---------------------------------------------------------------- what every move keeps

  // The token of a drain that has been drawn and not yet answered.
  function Undelivered(s: State): Option<Token> {
    if s.holder.None? || !s.holder.value.action.Drain? then None
    else match s.holder.value.pc
      case Persist(lease) => Some(lease.token)
      case Publish(lease) => Some(lease.token)
      case Finish(ok) => if ok then Some(s.mem.token) else None
      case Respond(ok) => if ok then Some(s.mem.token) else None
      case _ => None
  }

  predicate Secret(w: World, token: Token) {
    token in w.base.issued && token !in w.others && token !in w.foreign && token !in w.base.undrainSent
  }

  ghost predicate Secrets(w: World) {
    && w.others <= w.base.issued && (forall t :: t in w.foreign && t in w.base.issued ==> t in w.others)
    && (!w.grip.Free? ==> Secret(w, w.grip.token))
    && (Undelivered(w.base).Some? ==> Secret(w, Undelivered(w.base).value) && !Owns(w.grip, Undelivered(w.base).value))
  }

  predicate Carries(s: State, id: RequestId, action: Action) {
    InPhase(s, id, Phase.Ready(action)) || (HolderAt(s, id) && s.holder.value.action == action)
  }

  predicate WaitsRightly(w: World) {
    match w.wait
    case Nothing => true
    case ForDrain(id) => Carries(w.base, id, Drain)
    case ForRenew(id) => !w.grip.Free? && Carries(w.base, id, Renew(w.grip.token))
  }

  predicate Shielded(w: World) {
    w.grip.Ready? && w.base.now < w.deadline && !w.blinded ==>
      InForce(w.base, w.grip.token) && Effective(w.base).value.until >= w.deadline
  }

  ghost predicate Sound(w: World) {
    Inv(w.base) && Secrets(w) && WaitsRightly(w) && Shielded(w) && w.grip == GraspAll(Free, w.acts)
  }

  function Only(token: Option<Token>): set<Token> { if token.Some? then {token.value} else {} }

  // No token comes out but `token`, which was not drawn before.
  predicate BringsOutOnly(s: State, s': State, token: Option<Token>) {
    && s'.undrainSent == s.undrainSent && s'.issued == s.issued + Only(token) && Only(token) !! s.issued
    && (Undelivered(s').None? || Undelivered(s') == Undelivered(s) || (token.Some? && Undelivered(s') == token))
  }

  function Drawn(s: State, c: Choice): Option<Token>
    requires s.holder.Some?
  {
    if s.holder.value.pc.Issue? && c.ok then Some(c.token) else None
  }

  lemma WritingBringsOut(s: State, c: Choice)
    requires s.holder.Some? && HandlerInv(s, s.holder.value) && GrantingPc(s.holder.value.pc) && ChoiceAllowed(s, s.holder.value, c)
    ensures BringsOutOnly(s, Advance(s, s.holder.value, c), Drawn(s, c))
  {
  }

  lemma DecidingBringsOut(s: State, c: Choice)
    requires s.holder.Some? && HandlerInv(s, s.holder.value) && !GrantingPc(s.holder.value.pc) && !s.holder.value.pc.Respond?
    ensures BringsOutOnly(s, Advance(s, s.holder.value, c), Drawn(s, c))
  {
  }

  lemma SecretsCarryOver(w: World, s': State, token: Option<Token>)
    requires Secrets(w) && BringsOutOnly(w.base, s', token) && Only(token) !! w.base.undrainSent && Only(token) !! w.foreign
    ensures Secrets(w.(base := s'))
  {
  }

  // The tokens stay secret under the daemon's own steps.
  lemma DaemonKeepsSecrets(w: World, step: Step)
    requires Sound(w) && Able(w, Base(step)) && step.Handler? && !w.base.holder.value.pc.Respond?
    ensures Secrets(w.(base := Apply(w.base, step)))
  {
    if GrantingPc(w.base.holder.value.pc) {
      WritingBringsOut(w.base, step.choice);
    } else {
      DecidingBringsOut(w.base, step.choice);
    }
    SecretsCarryOver(w, Apply(w.base, step), Drawn(w.base, step.choice));
  }

  lemma OtherStepsKeepSecrets(w: World, step: Step)
    requires Sound(w) && Able(w, Base(step)) && !step.Handler?
    ensures Secrets(w.(base := Apply(w.base, step), foreign := w.foreign + Carried(step)))
  {
  }

  lemma StepKeepsWaiting(w: World, step: Step)
    requires Sound(w) && Able(w, Base(step)) && !step.Crash?
    requires step.Handler? ==> !w.base.holder.value.pc.Respond?
    ensures WaitsRightly(w.(base := Apply(w.base, step)))
  {
    var id := match w.wait case Nothing => 0 case ForDrain(id) => id case ForRenew(id) => id;
    CarriedOn(w.base, step, id, Drain);
    if !w.grip.Free? {
      CarriedOn(w.base, step, id, Renew(w.grip.token));
    }
  }

  lemma CarriedOn(s: State, step: Step, id: RequestId, action: Action)
    requires Inv(s) && Enabled(s, step) && !step.Crash? && action != Ping
    requires step.Handler? ==> !s.holder.value.pc.Respond?
    ensures Carries(s, id, action) ==> Carries(Apply(s, step), id, action)
  {
    if step.Handler? {
      HandlerCarriesOn(s, step.choice);
    }
  }

  lemma HandlerCarriesOn(s: State, c: Choice)
    requires s.holder.Some? && !s.holder.value.pc.Respond?
    ensures var s' := Advance(s, s.holder.value, c);
            s'.conns == s.conns && s'.holder.Some? && s'.holder.value.id == s.holder.value.id
            && s'.holder.value.action == s.holder.value.action
  {
    if DecidingPc(s.holder.value.pc) {
      DecidingLeavesTracker(s, c);
      DecidingKeepsHistory(s, c);
    } else if GrantingPc(s.holder.value.pc) {
      GrantingLeavesTracker(s, c);
      GrantingKeepsHistory(s, c);
    }
  }

  lemma StepKeepsShield(w: World, step: Step)
    requires Sound(w) && Enabled(w.base, step)
    requires !w.grip.Free? ==> w.grip.token !in Apply(w.base, step).undrainSent
    ensures Shielded(w.(base := Apply(w.base, step), blinded := w.blinded || Blind(step)))
  {
    var s' := Apply(w.base, step);
    StepKeepsInv(w.base, step);
    StepMovesForward(w.base, step);
    if w.grip.Ready? && s'.now < w.deadline && !w.blinded && !Blind(step) {
      StepKeepsGrip(w.base, step);
    }
  }

  // Answering leaves the lock and the tracker, and nothing about the lease.
  function AfterAnswer(s: State): State
    requires s.holder.Some?
  {
    s.(conns := s.conns[s.holder.value.id := Closing], holder := None)
  }

  predicate Answering(w: World, step: Step) { step.Handler? && w.base.holder.Some? && w.base.holder.value.pc.Respond? }

  // The answer to the client's drain: a token that was nobody's is now its own.
  lemma DrainAnswerKeepsSound(w: World, step: Step)
    requires Sound(w) && Able(w, Base(step)) && Answering(w, step) && w.wait == ForDrain(w.base.holder.value.id)
    ensures var w' := Do(w, Base(step)); Secrets(w') && WaitsRightly(w') && w'.grip == GraspAll(Free, w'.acts)
  {
    assert HandlerInv(w.base, w.base.holder.value);
    assert Apply(w.base, step) == AfterAnswer(w.base);
    GraspSnoc(Free, w.acts, Granted(w.base.mem.token));
  }

  lemma RenewAnswerKeepsSound(w: World, step: Step)
    requires Sound(w) && Able(w, Base(step)) && Answering(w, step) && w.wait == ForRenew(w.base.holder.value.id)
    ensures var w' := Do(w, Base(step)); Secrets(w') && WaitsRightly(w') && w'.grip == GraspAll(Free, w'.acts)
  {
    assert Apply(w.base, step) == AfterAnswer(w.base);
    if w.base.holder.value.pc.ok {
      GraspSnoc(Free, w.acts, Renewed(w.grip.token));
    } else {
      GraspSnoc(Free, w.acts, RenewFailed(w.grip.token));
    }
  }

  // An answer to somebody else: the token of a granted drain is known to the rest of the world.
  lemma OtherAnswerKeepsSound(w: World, step: Step)
    requires Sound(w) && Able(w, Base(step)) && Answering(w, step)
    requires w.wait != ForDrain(w.base.holder.value.id) && w.wait != ForRenew(w.base.holder.value.id)
    ensures var w' := Do(w, Base(step)); Secrets(w') && WaitsRightly(w') && w'.grip == GraspAll(Free, w'.acts)
  {
    assert HandlerInv(w.base, w.base.holder.value);
    assert Apply(w.base, step) == AfterAnswer(w.base);
  }

  lemma AnswerKeepsShield(w: World, step: Step)
    requires Sound(w) && Able(w, Base(step)) && Answering(w, step)
    ensures Shielded(Do(w, Base(step)))
  {
    assert HandlerInv(w.base, w.base.holder.value);
    StepKeepsShield(w, step);
  }

  lemma AnswerKeepsSound(w: World, step: Step)
    requires Sound(w) && Able(w, Base(step)) && Answering(w, step)
    ensures Sound(Do(w, Base(step)))
  {
    StepKeepsInv(w.base, step);
    AnswerKeepsShield(w, step);
    if w.wait == ForDrain(w.base.holder.value.id) {
      DrainAnswerKeepsSound(w, step);
    } else if w.wait == ForRenew(w.base.holder.value.id) {
      RenewAnswerKeepsSound(w, step);
    } else {
      OtherAnswerKeepsSound(w, step);
    }
  }

  // A renewal that goes unanswered leaves the client owing.
  lemma UnansweredKeepsSound(w: World)
    requires Sound(w)
    ensures Sound(Unanswered(w))
  {
    if !w.grip.Free? {
      GraspSnoc(Free, w.acts, RenewFailed(w.grip.token));
    }
  }

  lemma CrashKeepsSound(w: World)
    requires Sound(w) && Able(w, Base(Crash))
    ensures Sound(Do(w, Base(Crash)))
  {
    UnansweredKeepsSound(w);
    var v := Unanswered(w);
    StepKeepsInv(v.base, Crash);
    OtherStepsKeepSecrets(v, Crash);
    StepKeepsShield(v, Crash);
    assert v.foreign + {} == v.foreign;
  }

  lemma OrdinaryStepKeepsSound(w: World, step: Step)
    requires Sound(w) && Able(w, Base(step)) && !step.Crash? && !Answering(w, step)
    ensures Sound(Do(w, Base(step)))
  {
    StepKeepsInv(w.base, step);
    if step.Handler? {
      DaemonKeepsSecrets(w, step);
      assert w.foreign + Carried(step) == w.foreign;
    } else {
      OtherStepsKeepSecrets(w, step);
    }
    StepKeepsWaiting(w, step);
    StepKeepsShield(w, step);
  }

  lemma StepKeepsSound(w: World, step: Step)
    requires Sound(w) && Able(w, Base(step))
    ensures Sound(Do(w, Base(step)))
  {
    if step.Crash? {
      CrashKeepsSound(w);
    } else if Answering(w, step) {
      AnswerKeepsSound(w, step);
    } else {
      OrdinaryStepKeepsSound(w, step);
    }
  }

  // A request of the client's own that is no undrain gives nothing away.
  lemma OwnRequestKeepsSecrets(w: World, id: RequestId, action: Action)
    requires Sound(w) && Enabled(w.base, Read(id, action)) && !action.Undrain?
    ensures Secrets(w.(base := Apply(w.base, Read(id, action)))) && Shielded(w.(base := Apply(w.base, Read(id, action))))
  {
    StepKeepsShield(w, Read(id, action));
  }

  lemma AskDrainKeepsSound(w: World, id: RequestId)
    requires Sound(w) && Able(w, AskDrain(id))
    ensures Sound(Do(w, AskDrain(id)))
  {
    StepKeepsInv(w.base, Read(id, Drain));
    OwnRequestKeepsSecrets(w, id, Drain);
  }

  lemma AskRenewKeepsSound(w: World, id: RequestId)
    requires Sound(w) && Able(w, AskRenew(id))
    ensures Sound(Do(w, AskRenew(id)))
  {
    StepKeepsInv(w.base, Read(id, Renew(w.grip.token)));
    OwnRequestKeepsSecrets(w, id, Renew(w.grip.token));
  }

  lemma UndrainKeepsSound(w: World, id: RequestId)
    requires Sound(w) && Able(w, SendUndrain(id))
    ensures Sound(Do(w, SendUndrain(id)))
  {
    StepKeepsInv(w.base, Read(id, Undrain(w.grip.token)));
    UndrainKeepsSecrets(w, id);
    GraspSnoc(Free, w.acts, Undrained(w.grip.token));
  }

  lemma UndrainKeepsSecrets(w: World, id: RequestId)
    requires Sound(w) && Able(w, SendUndrain(id))
    ensures Secrets(Do(w, SendUndrain(id)))
  {
  }

  lemma BootoutKeepsSound(w: World)
    requires Sound(w) && Able(w, Bootout)
    ensures Sound(Do(w, Bootout))
  {
    GraspSnoc(Free, w.acts, Booted);
  }

  lemma MoveKeepsSound(w: World, move: Move)
    requires Sound(w) && Able(w, move)
    ensures Sound(Do(w, move))
  {
    if move.Base? {
      StepKeepsSound(w, move.step);
    } else if move.AskDrain? {
      AskDrainKeepsSound(w, move.id);
    } else if move.AskRenew? {
      AskRenewKeepsSound(w, move.id);
    } else if move.SendUndrain? {
      UndrainKeepsSound(w, move.id);
    } else if move.GiveUp? {
      UnansweredKeepsSound(w);
    } else {
      BootoutKeepsSound(w);
    }
  }

  // ---------------------------------------------------------------- runs

  ghost predicate Begins(w: World) {
    Init(w.base) && w.grip == Free && w.acts == [] && w.wait == Nothing && w.others == {} && w.foreign == {}
  }

  ghost predicate Playable(w: World, moves: seq<Move>)
    decreases |moves|
  {
    moves == [] || (Able(w, moves[0]) && Playable(Do(w, moves[0]), moves[1..]))
  }

  ghost function Play(w: World, moves: seq<Move>): World
    requires Playable(w, moves)
    decreases |moves|
  {
    if moves == [] then w else Play(Do(w, moves[0]), moves[1..])
  }

  lemma {:induction false} PlayKeepsSound(w: World, moves: seq<Move>)
    requires Sound(w) && Playable(w, moves)
    ensures Sound(Play(w, moves))
    decreases |moves|
  {
    if moves != [] {
      MoveKeepsSound(w, moves[0]);
      PlayKeepsSound(Do(w, moves[0]), moves[1..]);
    }
  }

  /** End to end: in every run of the daemon, with any number of crashes and relaunches and
      whatever the rest of the world sends, a bootout that the client may issue (its last
      renewal was answered and it has sent no undrain since) finds no registered child and none
      about to be registered, if it comes before the deadline of that renewal and no relaunch
      since failed to read the lease file. */
  lemma BootoutFindsNoChild(start: World, moves: seq<Move>)
    requires Begins(start) && Playable(start, moves) && Able(Play(start, moves), Bootout)
    requires Play(start, moves).base.now < Play(start, moves).deadline && !Play(start, moves).blinded
    ensures var w := Play(start, moves); Protected(w.base) && InForce(w.base, w.grip.token)
  {
    InitInv(start.base);
    PlayKeepsSound(start, moves);
    InvProtects(Play(start, moves).base);
  }

  /** Nobody but the followed client ever sends its token, in an undrain or in a renewal, and
      the client itself has sent no undrain with it. */
  lemma TokenStaysSecret(start: World, moves: seq<Move>)
    requires Begins(start) && Playable(start, moves) && !Play(start, moves).grip.Free?
    ensures var w := Play(start, moves); w.grip.token !in w.foreign && w.grip.token !in w.others && w.grip.token !in w.base.undrainSent
  {
    InitInv(start.base);
    PlayKeepsSound(start, moves);
  }

  // What the client holds is what its acts amount to.
  lemma GripIsItsActs(start: World, moves: seq<Move>)
    requires Begins(start) && Playable(start, moves)
    ensures Play(start, moves).grip == GraspAll(Free, Play(start, moves).acts)
  {
    InitInv(start.base);
    PlayKeepsSound(start, moves);
  }
}
