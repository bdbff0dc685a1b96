/**
 Who answers a server request: the owner's button, a typed form, expiry after fifteen minutes or
 Codex itself, in src/discord/bot.rs. Every operation on one of the shared maps, and the test, the
 write and the failure of every reply sent to Codex, is one step; the steps of any number of
 handlers interleave with each other and with the loss of connections.
 */
module PendingReplies {
  import opened Wrappers

  type Thread = nat
  type Token = string

  // ---- requests and the replies that can be built for them -------------------------------------

  /** What a request asks for; an approval may say which decisions it offers, and these go by their indexes. */
  datatype Kind = Approval(offered: Option<seq<nat>>) | LegacyApproval | Permissions | McpUrl | McpEmptyForm | McpForm | UserInput | Other

  /** A request and the process that made it. */
  datatype Request = Request(kind: Kind, generation: nat)

  datatype Decision = Accept | AcceptForSession | Decline | Cancel | Offered(index: nat)

  /** Whether `resolve_approval` makes a reply of the decision. */
  predicate Builds(kind: Kind, decision: Decision) {
    match kind
    case Approval(offered) => decision.Offered? ==> offered.Some? && decision.index in offered.value
    case LegacyApproval => !decision.Offered?
    case Permissions => !decision.Offered?
    case McpUrl => decision.Accept? || decision.Decline? || decision.Cancel?
    case McpEmptyForm => decision.Accept? || decision.Decline? || decision.Cancel?
    case McpForm => decision.Decline? || decision.Cancel?
    case UserInput => decision.Decline? || decision.Cancel?
    case Other => true
  }

  /** The most buttons that fit on a card. */
  const MAX_BUTTONS: nat := 25

  /** The decisions that the buttons of the request's card stand for; the button of a form's answer is none of them. */
  predicate Offers(kind: Kind, decision: Decision) {
    match kind
    case Approval(Some(offered)) =>
      decision.Offered? && decision.index in offered[..if |offered| <= MAX_BUTTONS then |offered| else MAX_BUTTONS]
    case McpUrl => decision.Accept? || decision.Cancel? || decision.Decline?
    case McpEmptyForm => decision.Accept? || decision.Decline?
    case McpForm => decision.Decline?
    case UserInput => decision.Decline?
    case _ => !decision.Offered?
  }

  /** An approval that offers nothing the relay knows is answered with an error and never registered. */
  predicate Refused(kind: Kind) {
    kind == Approval(Some([]))
  }

  /** Whether `answer_server_request` can make a reply of a form's text. */
  predicate Answerable(kind: Kind) {
    kind.UserInput? || kind.McpEmptyForm? || kind.McpForm?
  }

  // ---- the steps -------------------------------------------------------------------------------

  /** An owner's decision by button, or a typed answer. */
  datatype Role = Owner(decision: Decision) | Typed

  /** How a request that no longer waits was settled. */
  datatype Fate = Accepted | Retired | ExpiredUnanswered

  datatype Pc =
    | Idle
    | SetupInsert(token: Token, request: Request) | SetupStarted(token: Token) | SetupTombstone(token: Token)
    | SetupWithdraw(token: Token) | SetupWithdrawStarted(token: Token) | SetupCard(token: Token) | SetupRecheck(token: Token)
    | Take(role: Role, token: Token) | TakeStarted(role: Role, token: Token) | TakeCard(role: Role, token: Token)
    | Build(role: Role, token: Token, card: bool)
    | Send(token: Token, card: bool) | Write(token: Token, card: bool) | GiveUp(token: Token, card: bool)
    | RestorePending(token: Token, card: bool) | RestoreStarted(token: Token, card: bool) | RestoreCard(token: Token)
    | ExpireStarted(token: Token) | ExpireTake(token: Token) | ExpireCard(token: Token)
    | ExpireSend(token: Token) | ExpireWrite(token: Token) | ExpireGiveUp(token: Token) | ExpireEnd(token: Token)
    | Retain(token: Token)
    | RetirePending(token: Token) | RetireStarted(token: Token) | RetireCard(token: Token)
    | Disconnect(generation: nat)

  /**
   The three maps by their keys, and the generations that no reply can be sent to any more. The
   other fields record what happened: the requests made, how they were settled, the replies that
   Codex received and the decisions the owner took.
   */
  datatype State = State(
    pending: set<Token>, started: set<Token>, cards: set<Token>, gone: set<nat>,
    requests: map<Token, Request>, fates: map<Token, Fate>, received: seq<Token>, decided: set<(Token, Decision)>,
    threads: map<Thread, Pc>)

  /** What an idle handler begins, whether a call succeeds, and a second way to fail. */
  datatype Choice = Choice(begin: Pc, ok: bool, other: bool)

  function PcOf(s: State, t: Thread): Pc {
    if t in s.threads then s.threads[t] else Idle
  }

  function At(s: State, t: Thread, pc: Pc): State {
    s.(threads := s.threads[t := pc])
  }

  predicate Begins(pc: Pc) {
    (pc.SetupInsert? && !Refused(pc.request.kind)) || pc.Take? || pc.ExpireStarted? || pc.Retain? || pc.RetirePending? || pc.Disconnect?
  }

  /** The request leaves the map for good. */
  function Withdraw(s: State, token: Token): State {
    if token in s.pending then s.(pending := s.pending - {token}, fates := s.fates[token := Retired]) else s
  }

  function Settle(s: State, token: Token, fate: Fate): State {
    s.(fates := s.fates[token := fate])
  }

  function Receive(s: State, token: Token): State {
    s.(received := s.received + [token])
  }

  function GenerationOf(s: State, token: Token): nat {
    if token in s.requests then s.requests[token].generation else 0
  }

  /** Registering a request; tokens are fresh identifiers. */
  function Setup(s: State, t: Thread, pc: Pc, c: Choice): State {
    match pc
    case SetupInsert(token, request) =>
      if token in s.requests then At(s, t, Idle)
      else At(s.(requests := s.requests[token := request], pending := s.pending + {token}), t, SetupStarted(token))
    case SetupStarted(token) => At(s.(started := s.started + {token}), t, SetupTombstone(token))
    case SetupTombstone(token) => At(s, t, if c.ok || token !in s.pending then SetupWithdraw(token) else SetupCard(token))
    case SetupWithdraw(token) => At(Withdraw(s, token), t, SetupWithdrawStarted(token))
    case SetupWithdrawStarted(token) => At(s.(started := s.started - {token}), t, Idle)
    case SetupCard(token) => At(s.(cards := s.cards + {token}), t, SetupRecheck(token))
    case SetupRecheck(token) => At(if token in s.pending then s else s.(cards := s.cards - {token}), t, Idle)
    case _ => s
  }

  /** `resolve_approval` and `answer_server_request` up to their reply, and putting the request back. */
  function Answer(s: State, t: Thread, pc: Pc, c: Choice): State {
    match pc
    case Take(role, token) =>
      if token in s.pending then At(s.(pending := s.pending - {token}), t, TakeStarted(role, token)) else At(s, t, Idle)
    case TakeStarted(role, token) => At(s.(started := s.started - {token}), t, TakeCard(role, token))
    case TakeCard(role, token) => At(s.(cards := s.cards - {token}), t, Build(role, token, role.Owner? || token in s.cards))
    case Build(Owner(decision), token, card) =>
      var built := token in s.requests && Builds(s.requests[token].kind, decision);
      At(s.(decided := s.decided + {(token, decision)}), t, if built then Send(token, card) else Idle)
    case Build(Typed, token, card) =>
      var built := c.ok && token in s.requests && Answerable(s.requests[token].kind);
      At(s, t, if built then Send(token, card) else RestorePending(token, card))
    case RestorePending(token, card) => At(s.(pending := s.pending + {token}), t, RestoreStarted(token, card))
    case RestoreStarted(token, card) => At(s.(started := s.started + {token}), t, if card then RestoreCard(token) else Idle)
    case RestoreCard(token) => At(s.(cards := s.cards + {token}), t, Idle)
    case _ => s
  }

  /**
   `send_server_reply`. A reply to a generation that is gone goes nowhere. Any other may be received
   or not when the call fails, and the call does not return before it has given the generation up;
   a reply that cannot be serialized fails without that.
   */
  function Reply(s: State, t: Thread, pc: Pc, c: Choice): State {
    match pc
    case Send(token, card) =>
      if GenerationOf(s, token) in s.gone || (!c.ok && c.other) then At(s, t, RestorePending(token, card))
      else At(s, t, if c.ok then Write(token, card) else GiveUp(token, card))
    case Write(token, card) =>
      if c.ok then At(Settle(Receive(s, token), token, Accepted), t, Idle)
      else At(if c.other then Receive(s, token) else s, t, GiveUp(token, card))
    case GiveUp(token, card) => At(s.(gone := s.gone + {GenerationOf(s, token)}), t, RestorePending(token, card))
    case ExpireSend(token) =>
      if GenerationOf(s, token) in s.gone || (!c.ok && c.other) then At(s, t, ExpireEnd(token))
      else At(s, t, if c.ok then ExpireWrite(token) else ExpireGiveUp(token))
    case ExpireWrite(token) =>
      if c.ok then At(Settle(Receive(s, token), token, Accepted), t, Idle)
      else At(if c.other then Receive(s, token) else s, t, ExpireGiveUp(token))
    case ExpireGiveUp(token) => At(s.(gone := s.gone + {GenerationOf(s, token)}), t, ExpireEnd(token))
    case ExpireEnd(token) => At(Settle(s, token, ExpiredUnanswered), t, Idle)
    case _ => s
  }

  /** `expire_live_pending_requests` up to its reply, one expired token at a time. */
  function Expire(s: State, t: Thread, pc: Pc): State {
    match pc
    case ExpireStarted(token) => At(s.(started := s.started - {token}), t, ExpireTake(token))
    case ExpireTake(token) =>
      if token in s.pending then At(s.(pending := s.pending - {token}), t, ExpireCard(token)) else At(s, t, Idle)
    case ExpireCard(token) => At(s.(cards := s.cards - {token}), t, ExpireSend(token))
    case Retain(token) => At(if token in s.pending then s else s.(started := s.started - {token}), t, Idle)
    case _ => s
  }

  /** `retire_resolved_request`: Codex had its answer from elsewhere. A connection may go at any time. */
  function Retire(s: State, t: Thread, pc: Pc): State {
    match pc
    case RetirePending(token) => At(Withdraw(s, token), t, RetireStarted(token))
    case RetireStarted(token) => At(s.(started := s.started - {token}), t, RetireCard(token))
    case RetireCard(token) => At(s.(cards := s.cards - {token}), t, Idle)
    case Disconnect(generation) => At(s.(gone := s.gone + {generation}), t, Idle)
    case _ => s
  }

  predicate IsSetup(pc: Pc) {
    || pc.SetupInsert? || pc.SetupStarted? || pc.SetupTombstone? || pc.SetupWithdraw? || pc.SetupWithdrawStarted?
    || pc.SetupCard? || pc.SetupRecheck?
  }

  predicate IsAnswer(pc: Pc) {
    || pc.Take? || pc.TakeStarted? || pc.TakeCard? || pc.Build?
    || pc.RestorePending? || pc.RestoreStarted? || pc.RestoreCard?
  }

  predicate IsReply(pc: Pc) {
    pc.Send? || pc.Write? || pc.GiveUp? || pc.ExpireSend? || pc.ExpireWrite? || pc.ExpireGiveUp? || pc.ExpireEnd?
  }

  predicate IsExpire(pc: Pc) {
    pc.ExpireStarted? || pc.ExpireTake? || pc.ExpireCard? || pc.Retain?
  }

  function Step(s: State, t: Thread, c: Choice): State {
    var pc := PcOf(s, t);
    if pc.Idle? then if Begins(c.begin) then At(s, t, c.begin) else s
    else if IsSetup(pc) then Setup(s, t, pc, c)
    else if IsAnswer(pc) then Answer(s, t, pc, c)
    else if IsReply(pc) then Reply(s, t, pc, c)
    else if IsExpire(pc) then Expire(s, t, pc)
    else Retire(s, t, pc)
  }

  // ---- where a request is ------------------------------------------------------------------------

  /** The handler has taken the request out of the map and not yet settled it, lost it or put it back. */
  predicate Holds(pc: Pc, token: Token) {
    (|| pc.TakeStarted? || pc.TakeCard? || pc.Build? || pc.Send? || pc.Write? || pc.GiveUp? || pc.RestorePending?
     || pc.ExpireCard? || pc.ExpireSend? || pc.ExpireWrite? || pc.ExpireGiveUp? || pc.ExpireEnd?)
    && pc.token == token
  }

  /** The owner took a decision on the request of which no reply can be made. */
  ghost predicate Misdecided(s: State, token: Token) {
    token in s.requests && exists d :: (token, d) in s.decided && !Builds(s.requests[token].kind, d)
  }

  /** A request waits, is held by one handler, is settled or was misdecided, and only one of these. */
  ghost predicate Placed(s: State, token: Token) {
    && (token in s.pending || token in s.fates ==> token in s.requests)
    && !(token in s.pending && token in s.fates)
    && (Misdecided(s, token) ==> token !in s.pending && token !in s.fates)
    && (forall t: Thread :: Holds(PcOf(s, t), token) ==>
          token in s.requests && token !in s.pending && token !in s.fates && !Misdecided(s, token))
    && (forall t: Thread, u: Thread :: Holds(PcOf(s, t), token) && Holds(PcOf(s, u), token) ==> t == u)
    && (token in s.requests ==>
          token in s.pending || token in s.fates || Misdecided(s, token) || exists t: Thread :: Holds(PcOf(s, t), token))
  }

  /** How a step of one handler may move one request from one place to another. */
  ghost predicate Moves(s: State, n: State, t: Thread, token: Token) {
    && (forall u: Thread :: u != t ==> PcOf(n, u) == PcOf(s, u))
    && var held, holds := Holds(PcOf(s, t), token), Holds(PcOf(n, t), token);
       || Stays(s, n, token, held, holds)
       || (token !in s.requests && Waits(n, token) && !holds)
       || (Waits(s, token) && !held && ((HeldOnly(n, token) && holds) || (SettledOnly(n, token) && !holds)))
       || (HeldOnly(s, token) && held && !holds && (Waits(n, token) || SettledOnly(n, token) || MisdecidedOnly(n, token)))
  }

  ghost predicate Stays(s: State, n: State, token: Token, held: bool, holds: bool) {
    && (token in n.requests <==> token in s.requests) && (token in n.pending <==> token in s.pending)
    && (token in n.fates <==> token in s.fates) && (Misdecided(n, token) <==> Misdecided(s, token)) && (holds <==> held)
  }

  ghost predicate Waits(s: State, token: Token) {
    token in s.requests && token in s.pending && token !in s.fates && !Misdecided(s, token)
  }

  ghost predicate HeldOnly(s: State, token: Token) {
    token in s.requests && token !in s.pending && token !in s.fates && !Misdecided(s, token)
  }

  ghost predicate SettledOnly(s: State, token: Token) {
    token in s.requests && token !in s.pending && token in s.fates && !Misdecided(s, token)
  }

  ghost predicate MisdecidedOnly(s: State, token: Token) {
    token in s.requests && token !in s.pending && token !in s.fates && Misdecided(s, token)
  }

  /** Decisions are of known requests, so a fresh token was never decided on. */
  ghost predicate DecidedAreKnown(s: State) {
    forall token, d :: (token, d) in s.decided ==> token in s.requests
  }

  /** What its place in the program says of one request and one handler. */
  ghost predicate PlacedHere(s: State, t: Thread, token: Token) {
    && (token in s.pending || token in s.fates ==> token in s.requests)
    && !(token in s.pending && token in s.fates)
    && (Misdecided(s, token) ==> token !in s.pending && token !in s.fates)
    && (Holds(PcOf(s, t), token) ==> HeldOnly(s, token))
  }

  lemma Here(s: State, t: Thread, token: Token)
    requires Placed(s, token)
    ensures PlacedHere(s, t, token)
  {
  }

  lemma SameDecisions(s: State, n: State, token: Token)
    requires n.decided == s.decided && (token in s.requests ==> token in n.requests && n.requests[token] == s.requests[token])
    requires n.requests == s.requests || DecidedAreKnown(s)
    ensures Misdecided(n, token) <==> Misdecided(s, token)
  {
  }

  lemma RegisterMoves(s: State, t: Thread, c: Choice, token: Token)
    requires PlacedHere(s, t, token) && DecidedAreKnown(s) && PcOf(s, t).SetupInsert?
    ensures Moves(s, Setup(s, t, PcOf(s, t), c), t, token)
  {
    SameDecisions(s, Setup(s, t, PcOf(s, t), c), token);
  }

  lemma WithdrawMoves(s: State, t: Thread, c: Choice, token: Token)
    requires PlacedHere(s, t, token) && PcOf(s, t).SetupWithdraw?
    ensures Moves(s, Setup(s, t, PcOf(s, t), c), t, token)
  {
    SameDecisions(s, Setup(s, t, PcOf(s, t), c), token);
  }

  lemma SetupMoves(s: State, t: Thread, c: Choice, token: Token)
    requires PlacedHere(s, t, token) && IsSetup(PcOf(s, t)) && !PcOf(s, t).SetupInsert? && !PcOf(s, t).SetupWithdraw?
    ensures Moves(s, Setup(s, t, PcOf(s, t), c), t, token)
  {
    SameDecisions(s, Setup(s, t, PcOf(s, t), c), token);
  }

  lemma DecisionRecorded(s: State, n: State, token: Token, decided: Token, d: Decision)
    requires n.decided == s.decided + {(decided, d)} && n.requests == s.requests
    ensures Misdecided(n, token) <==>
              Misdecided(s, token) || (token == decided && token in s.requests && !Builds(s.requests[token].kind, d))
  {
    if token == decided {
      assert (token, d) in n.decided;
    }
    if Misdecided(s, token) {
      var e :| (token, e) in s.decided && !Builds(s.requests[token].kind, e);
      assert (token, e) in n.decided;
    }
  }

  lemma DecisionMoves(s: State, t: Thread, c: Choice, token: Token)
    requires PlacedHere(s, t, token) && PcOf(s, t).Build? && PcOf(s, t).role.Owner?
    ensures Moves(s, Answer(s, t, PcOf(s, t), c), t, token)
  {
    DecisionRecorded(s, Answer(s, t, PcOf(s, t), c), token, PcOf(s, t).token, PcOf(s, t).role.decision);
  }

  lemma TakeMoves(s: State, t: Thread, c: Choice, token: Token)
    requires PlacedHere(s, t, token) && (PcOf(s, t).Take? || PcOf(s, t).TakeStarted? || PcOf(s, t).TakeCard?)
    ensures Moves(s, Answer(s, t, PcOf(s, t), c), t, token)
  {
    SameDecisions(s, Answer(s, t, PcOf(s, t), c), token);
  }

  lemma AnswerMoves(s: State, t: Thread, c: Choice, token: Token)
    requires PlacedHere(s, t, token)
    requires var pc := PcOf(s, t); (pc.Build? && pc.role.Typed?) || pc.RestorePending? || pc.RestoreStarted? || pc.RestoreCard?
    ensures Moves(s, Answer(s, t, PcOf(s, t), c), t, token)
  {
    SameDecisions(s, Answer(s, t, PcOf(s, t), c), token);
  }

  lemma SendMoves(s: State, t: Thread, c: Choice, token: Token)
    requires PlacedHere(s, t, token) && (PcOf(s, t).Send? || PcOf(s, t).ExpireSend?)
    ensures Moves(s, Reply(s, t, PcOf(s, t), c), t, token)
  {
    SameDecisions(s, Reply(s, t, PcOf(s, t), c), token);
  }

  lemma WriteMoves(s: State, t: Thread, c: Choice, token: Token)
    requires PlacedHere(s, t, token) && (PcOf(s, t).Write? || PcOf(s, t).ExpireWrite?)
    ensures Moves(s, Reply(s, t, PcOf(s, t), c), t, token)
  {
    SameDecisions(s, Reply(s, t, PcOf(s, t), c), token);
  }

  lemma GiveUpMoves(s: State, t: Thread, c: Choice, token: Token)
    requires PlacedHere(s, t, token) && (PcOf(s, t).GiveUp? || PcOf(s, t).ExpireGiveUp? || PcOf(s, t).ExpireEnd?)
    ensures Moves(s, Reply(s, t, PcOf(s, t), c), t, token)
  {
    SameDecisions(s, Reply(s, t, PcOf(s, t), c), token);
  }

  lemma ExpireMoves(s: State, t: Thread, token: Token)
    requires PlacedHere(s, t, token) && IsExpire(PcOf(s, t))
    ensures Moves(s, Expire(s, t, PcOf(s, t)), t, token)
  {
    SameDecisions(s, Expire(s, t, PcOf(s, t)), token);
  }

  predicate IsRetire(pc: Pc) {
    pc.RetirePending? || pc.RetireStarted? || pc.RetireCard? || pc.Disconnect?
  }

  lemma RetireMoves(s: State, t: Thread, token: Token)
    requires PlacedHere(s, t, token) && IsRetire(PcOf(s, t))
    ensures Moves(s, Retire(s, t, PcOf(s, t)), t, token)
  {
    SameDecisions(s, Retire(s, t, PcOf(s, t)), token);
  }

  lemma BeginMoves(s: State, t: Thread, begin: Pc, token: Token)
    requires PcOf(s, t).Idle? && Begins(begin)
    ensures Moves(s, At(s, t, begin), t, token)
  {
    SameDecisions(s, At(s, t, begin), token);
  }

  lemma NothingMoves(s: State, t: Thread, token: Token)
    ensures Moves(s, s, t, token)
  {
  }

  lemma HolderMoves(s: State, t: Thread, c: Choice, token: Token)
    requires PlacedHere(s, t, token) && (IsAnswer(PcOf(s, t)) || IsReply(PcOf(s, t)))
    ensures Moves(s, Step(s, t, c), t, token)
  {
    var pc := PcOf(s, t);
    if pc.Send? || pc.ExpireSend? {
      SendMoves(s, t, c, token);
    } else if pc.Write? || pc.ExpireWrite? {
      WriteMoves(s, t, c, token);
    } else if IsReply(pc) {
      GiveUpMoves(s, t, c, token);
    } else if pc.Take? || pc.TakeStarted? || pc.TakeCard? {
      TakeMoves(s, t, c, token);
    } else if pc.Build? && pc.role.Owner? {
      DecisionMoves(s, t, c, token);
    } else {
      AnswerMoves(s, t, c, token);
    }
  }

  lemma StepMoves(s: State, t: Thread, c: Choice, token: Token)
    requires PlacedHere(s, t, token) && DecidedAreKnown(s)
    ensures Moves(s, Step(s, t, c), t, token)
  {
    var pc := PcOf(s, t);
    if pc.Idle? {
      if Begins(c.begin) { BeginMoves(s, t, c.begin, token); } else { NothingMoves(s, t, token); }
    } else if pc.SetupInsert? {
      RegisterMoves(s, t, c, token);
    } else if pc.SetupWithdraw? {
      WithdrawMoves(s, t, c, token);
    } else if IsSetup(pc) {
      SetupMoves(s, t, c, token);
    } else if IsAnswer(pc) || IsReply(pc) {
      HolderMoves(s, t, c, token);
    } else if IsExpire(pc) {
      ExpireMoves(s, t, token);
    } else {
      RetireMoves(s, t, token);
    }
  }

  lemma MovesKeepPlace(s: State, n: State, t: Thread, token: Token)
    requires Placed(s, token) && Moves(s, n, t, token)
    ensures Placed(n, token)
  {
    if token in n.requests && token !in n.pending && token !in n.fates && !Misdecided(n, token) && !Holds(PcOf(n, t), token) {
      var u: Thread :| Holds(PcOf(s, u), token);
      assert Holds(PcOf(n, u), token);
    }
  }

  // ---- how often a reply is received ---------------------------------------------------------------

  predicate Writing(pc: Pc, token: Token) {
    (pc.Write? || pc.ExpireWrite?) && pc.token == token
  }

  predicate GivingUp(pc: Pc, token: Token) {
    (pc.GiveUp? || pc.ExpireGiveUp?) && pc.token == token
  }

  /** What was received was accepted, or its generation is gone or about to be given up; nothing received is being written. */
  ghost predicate Accounted(s: State, token: Token) {
    && (token in s.received ==>
          || (token in s.fates && s.fates[token].Accepted?)
          || (token in s.requests && GenerationOf(s, token) in s.gone)
          || exists t: Thread :: GivingUp(PcOf(s, t), token))
    && (forall t: Thread :: Writing(PcOf(s, t), token) ==> token !in s.received)
    && (token in s.fates && s.fates[token].Accepted? ==> token in s.received)
    && (token in s.received ==> token in s.requests)
  }

  predicate Once(received: seq<Token>) {
    forall i, j :: 0 <= i < j < |received| ==> received[i] != received[j]
  }

  ghost predicate Invariant(s: State) {
    Once(s.received) && DecidedAreKnown(s) && forall token: Token :: Placed(s, token) && Accounted(s, token)
  }

  /** What a step that writes nothing may do to one request's account. */
  ghost predicate Unwritten(s: State, n: State, t: Thread, token: Token) {
    && (token in n.received <==> token in s.received) && s.gone <= n.gone
    && (token in s.requests ==> token in n.requests && n.requests[token] == s.requests[token])
    && (token in s.fates && s.fates[token].Accepted? <==> token in n.fates && n.fates[token].Accepted?)
    && (forall u: Thread :: u != t ==> PcOf(n, u) == PcOf(s, u))
    && (GivingUp(PcOf(s, t), token) ==> GivingUp(PcOf(n, t), token) || (token in n.requests && GenerationOf(n, token) in n.gone))
    && (Writing(PcOf(n, t), token) ==> token !in n.received)
  }

  lemma UnwrittenKeepsAccount(s: State, n: State, t: Thread, token: Token)
    requires Accounted(s, token) && Unwritten(s, n, t, token)
    ensures Accounted(n, token)
  {
    if token in n.received && !(token in n.fates && n.fates[token].Accepted?) && !(token in n.requests && GenerationOf(n, token) in n.gone) {
      var u: Thread :| GivingUp(PcOf(s, u), token);
      assert GivingUp(PcOf(n, u), token);
    }
  }

  lemma SetupUnwritten(s: State, t: Thread, c: Choice, token: Token)
    requires PlacedHere(s, t, token) && IsSetup(PcOf(s, t))
    ensures Unwritten(s, Setup(s, t, PcOf(s, t), c), t, token)
  {
  }

  lemma TakeUnwritten(s: State, t: Thread, c: Choice, token: Token)
    requires PcOf(s, t).Take? || PcOf(s, t).TakeStarted? || PcOf(s, t).TakeCard?
    ensures Unwritten(s, Answer(s, t, PcOf(s, t), c), t, token)
  {
  }

  lemma AnswerUnwritten(s: State, t: Thread, c: Choice, token: Token)
    requires PcOf(s, t).Build? || PcOf(s, t).RestorePending? || PcOf(s, t).RestoreStarted? || PcOf(s, t).RestoreCard?
    ensures Unwritten(s, Answer(s, t, PcOf(s, t), c), t, token)
  {
  }

  lemma ExpireUnwritten(s: State, t: Thread, token: Token)
    requires IsExpire(PcOf(s, t))
    ensures Unwritten(s, Expire(s, t, PcOf(s, t)), t, token)
  {
  }

  lemma RetireUnwritten(s: State, t: Thread, token: Token)
    requires PlacedHere(s, t, token) && IsRetire(PcOf(s, t))
    ensures Unwritten(s, Retire(s, t, PcOf(s, t)), t, token)
  {
  }

  /** A reply is written only for a request that was not received: its generation is not gone, and no one else holds it. */
  lemma SendingIsUnwritten(s: State, t: Thread, token: Token)
    requires Placed(s, token) && Accounted(s, token) && Holds(PcOf(s, t), token) && !GivingUp(PcOf(s, t), token)
    requires GenerationOf(s, token) !in s.gone
    ensures token !in s.received
  {
    forall u: Thread ensures !GivingUp(PcOf(s, u), token) {
      if u != t {
        assert GivingUp(PcOf(s, u), token) ==> Holds(PcOf(s, u), token);
      }
    }
  }

  lemma SendUnwritten(s: State, t: Thread, c: Choice, token: Token)
    requires PlacedHere(s, t, token) && (PcOf(s, t).Send? || PcOf(s, t).ExpireSend?)
    requires Holds(PcOf(s, t), token) && GenerationOf(s, token) !in s.gone ==> token !in s.received
    ensures Unwritten(s, Reply(s, t, PcOf(s, t), c), t, token)
  {
  }

  lemma GiveUpUnwritten(s: State, t: Thread, c: Choice, token: Token)
    requires PlacedHere(s, t, token) && (PcOf(s, t).GiveUp? || PcOf(s, t).ExpireGiveUp? || PcOf(s, t).ExpireEnd?)
    ensures Unwritten(s, Reply(s, t, PcOf(s, t), c), t, token)
  {
    assert PcOf(s, t).token == token ==> Holds(PcOf(s, t), token);
  }

  lemma BeginUnwritten(s: State, t: Thread, begin: Pc, token: Token)
    requires PcOf(s, t).Idle? && Begins(begin)
    ensures Unwritten(s, At(s, t, begin), t, token)
  {
  }

  lemma ReplyUnwritten(s: State, t: Thread, c: Choice, token: Token)
    requires Placed(s, token) && Accounted(s, token) && IsReply(PcOf(s, t)) && !PcOf(s, t).Write? && !PcOf(s, t).ExpireWrite?
    ensures Unwritten(s, Reply(s, t, PcOf(s, t), c), t, token)
  {
    Here(s, t, token);
    if PcOf(s, t).Send? || PcOf(s, t).ExpireSend? {
      if Holds(PcOf(s, t), token) && GenerationOf(s, token) !in s.gone {
        SendingIsUnwritten(s, t, token);
      }
      SendUnwritten(s, t, c, token);
    } else {
      GiveUpUnwritten(s, t, c, token);
    }
  }

  /** The request whose reply is written: received or not, it is settled, or its generation is given up next. */
  lemma WriteAccounts(s: State, t: Thread, c: Choice, token: Token)
    requires Placed(s, token) && Accounted(s, token) && Writing(PcOf(s, t), token)
    ensures Accounted(Reply(s, t, PcOf(s, t), c), token)
  {
    var n := Reply(s, t, PcOf(s, t), c);
    assert Holds(PcOf(s, t), token);
    forall u: Thread ensures !Writing(PcOf(n, u), token) {
      if u != t {
        assert Writing(PcOf(s, u), token) ==> Holds(PcOf(s, u), token);
      }
    }
    assert c.ok || GivingUp(PcOf(n, t), token);
  }

  lemma OthersUnwritten(s: State, t: Thread, c: Choice, token: Token)
    requires (PcOf(s, t).Write? || PcOf(s, t).ExpireWrite?) && PcOf(s, t).token != token
    ensures Unwritten(s, Reply(s, t, PcOf(s, t), c), t, token)
  {
    var n := Reply(s, t, PcOf(s, t), c);
    assert n.received == s.received || n.received == s.received + [PcOf(s, t).token];
    assert token in n.received <==> token in s.received;
  }

  lemma StepUnwritten(s: State, t: Thread, c: Choice, token: Token)
    requires Placed(s, token) && Accounted(s, token) && !Writing(PcOf(s, t), token)
    ensures Unwritten(s, Step(s, t, c), t, token)
  {
    var pc := PcOf(s, t);
    Here(s, t, token);
    if pc.Idle? {
      if Begins(c.begin) { BeginUnwritten(s, t, c.begin, token); }
    } else if IsSetup(pc) {
      SetupUnwritten(s, t, c, token);
    } else if pc.Take? || pc.TakeStarted? || pc.TakeCard? {
      TakeUnwritten(s, t, c, token);
    } else if IsAnswer(pc) {
      AnswerUnwritten(s, t, c, token);
    } else if pc.Write? || pc.ExpireWrite? {
      OthersUnwritten(s, t, c, token);
    } else if IsReply(pc) {
      ReplyUnwritten(s, t, c, token);
    } else if IsExpire(pc) {
      ExpireUnwritten(s, t, token);
    } else {
      RetireUnwritten(s, t, token);
    }
  }

  lemma StepAccounts(s: State, t: Thread, c: Choice, token: Token)
    requires Placed(s, token) && Accounted(s, token)
    ensures Accounted(Step(s, t, c), token)
  {
    if Writing(PcOf(s, t), token) {
      WriteAccounts(s, t, c, token);
    } else {
      StepUnwritten(s, t, c, token);
      UnwrittenKeepsAccount(s, Step(s, t, c), t, token);
    }
  }

  lemma NothingReceived(s: State, t: Thread, c: Choice)
    requires !PcOf(s, t).Write? && !PcOf(s, t).ExpireWrite?
    ensures Step(s, t, c).received == s.received
  {
  }

  lemma StepReceives(s: State, t: Thread, c: Choice)
    requires Invariant(s)
    ensures Once(Step(s, t, c).received) && s.received <= Step(s, t, c).received
  {
    var pc := PcOf(s, t);
    if pc.Write? || pc.ExpireWrite? {
      assert Accounted(s, pc.token) && Writing(pc, pc.token);
      assert Step(s, t, c).received == s.received || Step(s, t, c).received == s.received + [pc.token];
    } else {
      NothingReceived(s, t, c);
    }
  }

  lemma SetupDecides(s: State, t: Thread, c: Choice)
    requires IsSetup(PcOf(s, t))
    ensures Step(s, t, c).decided == s.decided && s.requests.Keys <= Step(s, t, c).requests.Keys
  {
  }

  lemma ReplyDecides(s: State, t: Thread, c: Choice)
    requires IsReply(PcOf(s, t))
    ensures Step(s, t, c).decided == s.decided && Step(s, t, c).requests == s.requests
  {
  }

  lemma NothingDecided(s: State, t: Thread, c: Choice)
    requires !PcOf(s, t).Build?
    ensures Step(s, t, c).decided == s.decided && s.requests.Keys <= Step(s, t, c).requests.Keys
  {
    if IsSetup(PcOf(s, t)) {
      SetupDecides(s, t, c);
    } else if IsReply(PcOf(s, t)) {
      ReplyDecides(s, t, c);
    }
  }

  lemma StepDecides(s: State, t: Thread, c: Choice)
    requires Invariant(s)
    ensures DecidedAreKnown(Step(s, t, c))
  {
    var pc := PcOf(s, t);
    if pc.Build? {
      assert Placed(s, pc.token) && Holds(pc, pc.token);
    } else {
      NothingDecided(s, t, c);
    }
  }

  // ---- runs --------------------------------------------------------------------------------------

  function Start(): State {
    State({}, {}, {}, {}, map[], map[], [], {}, map[])
  }

  function Run(steps: seq<(Thread, Choice)>): State {
    if steps == [] then Start() else Step(Run(steps[..|steps| - 1]), steps[|steps| - 1].0, steps[|steps| - 1].1)
  }

  lemma InvariantKept(s: State, t: Thread, c: Choice)
    requires Invariant(s)
    ensures Invariant(Step(s, t, c))
  {
    StepReceives(s, t, c);
    StepDecides(s, t, c);
    forall token: Token ensures Placed(Step(s, t, c), token) && Accounted(Step(s, t, c), token) {
      Here(s, t, token);
      StepMoves(s, t, c, token);
      MovesKeepPlace(s, Step(s, t, c), t, token);
      StepAccounts(s, t, c, token);
    }
  }

  lemma {:induction false} RunsKeepInvariant(steps: seq<(Thread, Choice)>)
    ensures Invariant(Run(steps))
  {
    if steps != [] {
      RunsKeepInvariant(steps[..|steps| - 1]);
      InvariantKept(Run(steps[..|steps| - 1]), steps[|steps| - 1].0, steps[|steps| - 1].1);
    }
  }

  // ---- what follows --------------------------------------------------------------------------------

  /**
   In every interleaving Codex receives at most one reply to a request, whether the owner, a form or
   expiry made it, whether or not the call that sent it was reported as failed, retries included.
   */
  lemma AtMostOneReply(steps: seq<(Thread, Choice)>, i: nat, j: nat)
    requires i < |Run(steps).received| && j < |Run(steps).received| && Run(steps).received[i] == Run(steps).received[j]
    ensures i == j
  {
    RunsKeepInvariant(steps);
  }

  /** A reply that was received was reported as accepted, or no other can be sent: its generation is gone or being given up. */
  lemma ReceivedIsFinal(steps: seq<(Thread, Choice)>, token: Token)
    requires token in Run(steps).received
    ensures var s := Run(steps);
            && token in s.requests
            && (|| (token in s.fates && s.fates[token].Accepted?)
                || s.requests[token].generation in s.gone
                || exists t: Thread :: GivingUp(PcOf(s, t), token))
  {
    RunsKeepInvariant(steps);
    assert Accounted(Run(steps), token);
  }

  /** The request is known, and neither waits nor was settled nor is in any handler's hands. */
  ghost predicate Lost(s: State, token: Token) {
    token in s.requests && token !in s.pending && token !in s.fates && forall t: Thread :: !Holds(PcOf(s, t), token)
  }

  /** For the handler alone: a request is lost exactly if the owner took a decision on it of which no reply can be made for its kind. */
  lemma LostExactlyWhenMisdecided(steps: seq<(Thread, Choice)>, token: Token)
    ensures var s := Run(steps);
            Lost(s, token) <==> token in s.requests && exists d :: (token, d) in s.decided && !Builds(s.requests[token].kind, d)
  {
    RunsKeepInvariant(steps);
    assert Placed(Run(steps), token);
  }

  // ---- decisions come from buttons -----------------------------------------------------------------

  /** Which decisions a request's card offers. */
  type Card = (Kind, Decision) -> bool

  /** With the `i`-th step the owner presses the button of a decision on the request. */
  predicate Pressed(steps: seq<(Thread, Choice)>, i: nat, token: Token, d: Decision) {
    i < |steps| && PcOf(Run(steps[..i]), steps[i].0).Idle? && steps[i].1.begin == Take(Owner(d), token)
  }

  /** Whatever the owner decides on a request is on its card. */
  ghost predicate FollowsCards(steps: seq<(Thread, Choice)>, card: Card) {
    forall i: nat, token, d :: Pressed(steps, i, token, d) && token in Run(steps).requests ==> card(Run(steps).requests[token].kind, d)
  }

  predicate Deciding(pc: Pc, token: Token, d: Decision) {
    (pc.Take? || pc.TakeStarted? || pc.TakeCard? || pc.Build?) && pc.token == token && pc.role == Owner(d)
  }

  /** The decision was taken, or is being taken by the handler. */
  predicate DecidedBy(s: State, t: Thread, token: Token, d: Decision) {
    (token, d) in s.decided || Deciding(PcOf(s, t), token, d)
  }

  lemma StepsDecideNothingNew(s: State, t: Thread, c: Choice, u: Thread, token: Token, d: Decision)
    requires DecidedBy(Step(s, t, c), u, token, d) && !DecidedBy(s, u, token, d) && !DecidedBy(s, t, token, d)
    ensures PcOf(s, t).Idle? && c.begin == Take(Owner(d), token)
  {
    var pc := PcOf(s, t);
    if IsAnswer(pc) {
      AnswersDecideNothingNew(s, t, c, u, token, d);
    } else if !pc.Idle? {
      OthersDecideNothingNew(s, t, c, u, token, d);
    }
  }

  lemma AnswersDecideNothingNew(s: State, t: Thread, c: Choice, u: Thread, token: Token, d: Decision)
    requires IsAnswer(PcOf(s, t)) && !DecidedBy(s, t, token, d) && !DecidedBy(s, u, token, d)
    ensures !DecidedBy(Answer(s, t, PcOf(s, t), c), u, token, d)
  {
  }

  lemma SetupsDecideNothingNew(s: State, t: Thread, c: Choice, u: Thread, token: Token, d: Decision)
    requires IsSetup(PcOf(s, t)) && !DecidedBy(s, u, token, d)
    ensures !DecidedBy(Setup(s, t, PcOf(s, t), c), u, token, d)
  {
  }

  lemma RepliesDecideNothingNew(s: State, t: Thread, c: Choice, u: Thread, token: Token, d: Decision)
    requires IsReply(PcOf(s, t)) && !DecidedBy(s, u, token, d)
    ensures !DecidedBy(Reply(s, t, PcOf(s, t), c), u, token, d)
  {
  }

  lemma RetirementsDecideNothingNew(s: State, t: Thread, c: Choice, u: Thread, token: Token, d: Decision)
    requires (IsExpire(PcOf(s, t)) || IsRetire(PcOf(s, t))) && !DecidedBy(s, u, token, d)
    ensures !DecidedBy(Step(s, t, c), u, token, d)
  {
  }

  lemma OthersDecideNothingNew(s: State, t: Thread, c: Choice, u: Thread, token: Token, d: Decision)
    requires !PcOf(s, t).Idle? && !IsAnswer(PcOf(s, t)) && !DecidedBy(s, u, token, d)
    ensures !DecidedBy(Step(s, t, c), u, token, d)
  {
    if IsSetup(PcOf(s, t)) {
      SetupsDecideNothingNew(s, t, c, u, token, d);
    } else if IsReply(PcOf(s, t)) {
      RepliesDecideNothingNew(s, t, c, u, token, d);
    } else {
      RetirementsDecideNothingNew(s, t, c, u, token, d);
    }
  }

  /** Every decision was a press of a button. */
  lemma {:induction false} DecisionsArePressed(steps: seq<(Thread, Choice)>, t: Thread, token: Token, d: Decision) returns (i: nat)
    requires DecidedBy(Run(steps), t, token, d)
    ensures Pressed(steps, i, token, d)
  {
    assert steps != [];
    var n := |steps| - 1;
    var before, last := Run(steps[..n]), steps[n];
    if DecidedBy(before, t, token, d) {
      i := DecisionsArePressed(steps[..n], t, token, d);
      assert steps[..n][..i] == steps[..i];
    } else if DecidedBy(before, last.0, token, d) {
      i := DecisionsArePressed(steps[..n], last.0, token, d);
      assert steps[..n][..i] == steps[..i];
    } else {
      StepsDecideNothingNew(before, last.0, last.1, t, token, d);
      i := n;
    }
  }

  /** The cards of the relay offer only decisions of which a reply can be made, and every registered request gets such a one. */
  lemma CardsCanBeAnswered(kind: Kind)
    ensures forall d :: Offers(kind, d) ==> Builds(kind, d)
    ensures !Refused(kind) ==> exists d :: Offers(kind, d)
  {
    if !Refused(kind) {
      var d := if kind.Approval? && kind.offered.Some? then Offered(kind.offered.value[0]) else Decline;
      assert Offers(kind, d);
    }
  }

  ghost predicate NoneRefused(s: State) {
    && (forall token :: token in s.requests ==> !Refused(s.requests[token].kind))
    && (forall t: Thread :: PcOf(s, t).SetupInsert? ==> !Refused(PcOf(s, t).request.kind))
  }

  lemma StepRefuses(s: State, t: Thread, c: Choice)
    requires Invariant(s) && NoneRefused(s)
    ensures NoneRefused(Step(s, t, c))
  {
    var n := Step(s, t, c);
    assert forall u: Thread :: u != t ==> PcOf(n, u) == PcOf(s, u) by {
      Here(s, t, "");
      StepMoves(s, t, c, "");
    }
    if PcOf(n, t).SetupInsert? {
      StepInserts(s, t, c);
    }
    if !IsSetup(PcOf(s, t)) {
      OthersRegisterNothing(s, t, c);
    }
  }

  lemma StepInserts(s: State, t: Thread, c: Choice)
    requires PcOf(Step(s, t, c), t).SetupInsert?
    ensures PcOf(Step(s, t, c), t) == PcOf(s, t) || (Begins(c.begin) && PcOf(Step(s, t, c), t) == c.begin)
  {
    if IsAnswer(PcOf(s, t)) || IsReply(PcOf(s, t)) {
      HoldersInsertNothing(s, t, c);
    }
  }

  lemma HoldersInsertNothing(s: State, t: Thread, c: Choice)
    requires IsAnswer(PcOf(s, t)) || IsReply(PcOf(s, t))
    ensures !PcOf(Step(s, t, c), t).SetupInsert?
  {
  }

  lemma OthersRegisterNothing(s: State, t: Thread, c: Choice)
    requires !IsSetup(PcOf(s, t))
    ensures Step(s, t, c).requests == s.requests
  {
  }

  lemma {:induction false} RefusedAreUnknown(steps: seq<(Thread, Choice)>)
    ensures NoneRefused(Run(steps))
  {
    if steps != [] {
      RunsKeepInvariant(steps[..|steps| - 1]);
      RefusedAreUnknown(steps[..|steps| - 1]);
      StepRefuses(Run(steps[..|steps| - 1]), steps[|steps| - 1].0, steps[|steps| - 1].1);
    }
  }

  /** With cards that offer only decisions of which a reply can be made, no run loses a request. */
  lemma SoundCardsLoseNothing(steps: seq<(Thread, Choice)>, card: Card, token: Token)
    requires FollowsCards(steps, card) && forall kind, d :: !Refused(kind) && card(kind, d) ==> Builds(kind, d)
    ensures !Lost(Run(steps), token)
  {
    var s := Run(steps);
    LostExactlyWhenMisdecided(steps, token);
    if Lost(s, token) {
      var d :| (token, d) in s.decided && !Builds(s.requests[token].kind, d);
      var i := DecisionsArePressed(steps, 0, token, d);
      RefusedAreUnknown(steps);
    }
  }

  /** No request is lost: in every run in which the owner presses only buttons of the cards, a known request waits, is settled or is in a handler's hands. */
  lemma NoRequestIsLost(steps: seq<(Thread, Choice)>, token: Token)
    requires FollowsCards(steps, Offers)
    ensures !Lost(Run(steps), token)
  {
    forall kind, d | Offers(kind, d) ensures Builds(kind, d) {
      CardsCanBeAnswered(kind);
    }
    SoundCardsLoseNothing(steps, Offers, token);
  }

  // ---- and no weaker demand on the cards would do -----------------------------------------------------

  /** The request is registered by handler 0, and handler 1 deals with the owner's decision. */
  function Scene(token: Token, kind: Kind, waits: bool, pc: Pc): State {
    Start().(requests := map[token := Request(kind, 1)], pending := if waits then {token} else {},
             threads := map[0 := SetupStarted(token), 1 := pc])
  }

  /** No button is pressed but this one. */
  predicate OnlyBegins(steps: seq<(Thread, Choice)>, take: Pc) {
    forall i :: 0 <= i < |steps| && steps[i].1.begin.Take? ==> steps[i].1.begin == take
  }

  lemma Goes(steps: seq<(Thread, Choice)>, s: State, t: Thread, begin: Pc, n: State, take: Pc) returns (more: seq<(Thread, Choice)>)
    requires Run(steps) == s && Step(s, t, Choice(begin, true, false)) == n
    requires OnlyBegins(steps, take) && (begin.Take? ==> begin == take)
    ensures Run(more) == n && OnlyBegins(more, take)
  {
    more := steps + [(t, Choice(begin, true, false))];
    assert more[..|steps|] == steps;
  }

  lemma GoesOn(steps: seq<(Thread, Choice)>, token: Token, kind: Kind, waits: bool, pc: Pc, waitsNext: bool, next: Pc, take: Pc)
    returns (more: seq<(Thread, Choice)>)
    requires Run(steps) == Scene(token, kind, waits, pc) && IsAnswer(pc) && OnlyBegins(steps, take)
    requires Answer(Scene(token, kind, waits, pc), 1, pc, Choice(Idle, true, false))
          == Scene(token, kind, waitsNext, pc).(threads := Scene(token, kind, waits, pc).threads[1 := next])
    ensures Run(more) == Scene(token, kind, waitsNext, next) && OnlyBegins(more, take)
  {
    var n := Scene(token, kind, waitsNext, next);
    assert Scene(token, kind, waits, pc).threads[1 := next] == n.threads;
    more := Goes(steps, Scene(token, kind, waits, pc), 1, Idle, n, take);
  }

  lemma Decided(token: Token, kind: Kind, d: Decision) returns (steps: seq<(Thread, Choice)>)
    requires !Refused(kind)
    ensures Run(steps) == Scene(token, kind, true, Take(Owner(d), token)) && OnlyBegins(steps, Take(Owner(d), token))
  {
    var insert, take := SetupInsert(token, Request(kind, 1)), Take(Owner(d), token);
    steps := Goes([], Start(), 0, insert, Start().(threads := map[0 := insert]), take);
    var registered := Scene(token, kind, true, Idle).(threads := map[0 := SetupStarted(token)]);
    steps := Goes(steps, Start().(threads := map[0 := insert]), 0, Idle, registered, take);
    steps := Goes(steps, registered, 1, take, Scene(token, kind, true, take), take);
  }

  lemma Building(token: Token, kind: Kind, d: Decision) returns (steps: seq<(Thread, Choice)>)
    requires !Refused(kind)
    ensures Run(steps) == Scene(token, kind, false, Build(Owner(d), token, true)) && OnlyBegins(steps, Take(Owner(d), token))
  {
    var role, take := Owner(d), Take(Owner(d), token);
    steps := Decided(token, kind, d);
    steps := GoesOn(steps, token, kind, true, take, false, TakeStarted(role, token), take);
    steps := GoesOn(steps, token, kind, false, TakeStarted(role, token), false, TakeCard(role, token), take);
    steps := GoesOn(steps, token, kind, false, TakeCard(role, token), false, Build(role, token, true), take);
  }

  lemma BuildingFails(token: Token, kind: Kind, d: Decision)
    requires !Builds(kind, d)
    ensures Lost(Step(Scene(token, kind, false, Build(Owner(d), token, true)), 1, Choice(Idle, true, false)), token)
  {
  }

  /** A decision of which no reply can be made would lose its request, were it ever taken. */
  lemma UnsoundDecisionsLose(token: Token, kind: Kind, d: Decision) returns (steps: seq<(Thread, Choice)>)
    requires !Refused(kind) && !Builds(kind, d)
    ensures Lost(Run(steps), token) && Run(steps).requests == map[token := Request(kind, 1)]
    ensures OnlyBegins(steps, Take(Owner(d), token))
  {
    steps := Building(token, kind, d);
    var s := Scene(token, kind, false, Build(Owner(d), token, true));
    BuildingFails(token, kind, d);
    steps := Goes(steps, s, 1, Idle, Step(s, 1, Choice(Idle, true, false)), Take(Owner(d), token));
  }

  /** Cards lose no request in any run exactly if they offer only decisions of which a reply can be made. */
  lemma NothingIsLostExactlyBySoundCards(card: Card)
    ensures (forall steps, token :: FollowsCards(steps, card) ==> !Lost(Run(steps), token))
       <==> forall kind, d :: !Refused(kind) && card(kind, d) ==> Builds(kind, d)
  {
    if forall kind, d :: !Refused(kind) && card(kind, d) ==> Builds(kind, d) {
      forall steps, token | FollowsCards(steps, card) ensures !Lost(Run(steps), token) {
        SoundCardsLoseNothing(steps, card, token);
      }
    } else {
      var kind, d :| !Refused(kind) && card(kind, d) && !Builds(kind, d);
      var steps := UnsoundDecisionsLose("", kind, d);
      assert FollowsCards(steps, card);
    }
  }

  lemma OthersSettle(s: State, t: Thread, c: Choice)
    requires !IsReply(PcOf(s, t)) && !PcOf(s, t).SetupWithdraw? && !PcOf(s, t).RetirePending?
    ensures Step(s, t, c).fates == s.fates
  {
  }

  lemma WithdrawalSettles(s: State, t: Thread, c: Choice)
    requires PcOf(s, t).SetupWithdraw? || PcOf(s, t).RetirePending?
    ensures var n := Step(s, t, c);
            n.fates == if PcOf(s, t).token in s.pending then s.fates[PcOf(s, t).token := Retired] else s.fates
  {
  }

  lemma ReplySettles(s: State, t: Thread, c: Choice)
    requires IsReply(PcOf(s, t))
    ensures var pc, n := PcOf(s, t), Step(s, t, c);
            || n.fates == s.fates
            || (n.fates == s.fates[pc.token := Accepted] && n.received == s.received + [pc.token])
            || (n.fates == s.fates[pc.token := ExpiredUnanswered] && pc.ExpireEnd?)
  {
  }

  lemma RepliesPutNothingBack(s: State, t: Thread, c: Choice)
    requires IsReply(PcOf(s, t)) || IsExpire(PcOf(s, t))
    ensures Step(s, t, c).pending <= s.pending
  {
  }

  lemma SetupPending(s: State, t: Thread, c: Choice, token: Token)
    requires IsSetup(PcOf(s, t)) && token in Step(s, t, c).pending && token !in s.pending
    ensures PcOf(s, t).SetupInsert? && token !in s.requests
  {
  }

  lemma OnlyThePutBackWait(s: State, t: Thread, c: Choice, token: Token)
    requires token in Step(s, t, c).pending && token !in s.pending
    ensures (PcOf(s, t).RestorePending? && PcOf(s, t).token == token) || (PcOf(s, t).SetupInsert? && token !in s.requests)
  {
    if IsReply(PcOf(s, t)) || IsExpire(PcOf(s, t)) {
      RepliesPutNothingBack(s, t, c);
    } else if IsSetup(PcOf(s, t)) {
      SetupPending(s, t, c, token);
    }
  }

  /** A settled request never waits again, and what settled it stays. */
  lemma FatesAreFinal(s: State, t: Thread, c: Choice, token: Token)
    requires Invariant(s) && token in s.fates
    ensures token in Step(s, t, c).fates && Step(s, t, c).fates[token] == s.fates[token] && token !in Step(s, t, c).pending
  {
    var pc := PcOf(s, t);
    assert Placed(s, token) && !Holds(pc, token);
    if IsReply(pc) {
      ReplySettles(s, t, c);
    } else if pc.SetupWithdraw? || pc.RetirePending? {
      WithdrawalSettles(s, t, c);
    } else {
      OthersSettle(s, t, c);
    }
    if token in Step(s, t, c).pending {
      OnlyThePutBackWait(s, t, c, token);
    }
  }

  /** The handler of a reply that failed, or of a form that made no reply, puts the request back next. */
  predicate PutsBack(pc: Pc, c: Choice, kind: Kind) {
    pc.GiveUp? || (pc.Build? && pc.role.Typed? && !(c.ok && Answerable(kind)))
  }

  /** A reply that failed, received or not, and a form that made no reply, put the request back for another try. */
  lemma FailuresRestore(s: State, t: Thread, c: Choice, next: Choice)
    requires Invariant(s) && (PcOf(s, t).GiveUp? || PcOf(s, t).Build?) && PcOf(s, t).token in s.requests
    requires PutsBack(PcOf(s, t), c, s.requests[PcOf(s, t).token].kind)
    ensures var token := PcOf(s, t).token;
            token in Step(Step(s, t, c), t, next).pending && token !in Step(Step(s, t, c), t, next).fates
  {
    assert Placed(s, PcOf(s, t).token);
  }

  /** A request is settled only by an accepted reply, by an expiry whose reply failed, or by Codex's own word. */
  lemma HowRequestsEnd(s: State, t: Thread, c: Choice, token: Token)
    requires token !in s.fates && token in Step(s, t, c).fates
    ensures match Step(s, t, c).fates[token]
            case Accepted => Step(s, t, c).received == s.received + [token]
            case ExpiredUnanswered => PcOf(s, t) == ExpireEnd(token)
            case Retired => (PcOf(s, t) == RetirePending(token) || PcOf(s, t) == SetupWithdraw(token)) && token in s.pending
  {
    var pc := PcOf(s, t);
    if IsReply(pc) {
      ReplySettles(s, t, c);
    } else if pc.SetupWithdraw? || pc.RetirePending? {
      WithdrawalSettles(s, t, c);
    } else {
      OthersSettle(s, t, c);
    }
  }
}
