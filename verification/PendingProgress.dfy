/**
 What becomes of a server request when nothing else interferes: whatever its owner or a form answers
 reaches Codex once and settles it, so does its expiry, and an answer that fails can be given again.
 */
module PendingProgress {
  import opened Wrappers
  import opened PendingReplies

  /** The thread alone makes these steps. */
  function Alone(s: State, t: Thread, choices: seq<Choice>): State {
    if choices == [] then s else Step(Alone(s, t, choices[..|choices| - 1]), t, choices[|choices| - 1])
  }

  /** No new handler is begun on the way. */
  predicate Quiet(choices: seq<Choice>) {
    forall i :: 0 <= i < |choices| ==> choices[i].begin.Idle?
  }

  /** The thread alone gets there, and no button is pressed on the way. */
  ghost predicate Leads(s: State, t: Thread, next: State) {
    exists choices :: Quiet(choices) && Alone(s, t, choices) == next
  }

  const GOOD: Choice := Choice(Idle, true, false)
  const BAD: Choice := Choice(Idle, false, false)
  const UNSENT: Choice := Choice(Idle, false, true)

  lemma Here(s: State, t: Thread)
    ensures Leads(s, t, s)
  {
    assert Alone(s, t, []) == s && Quiet([]);
  }

  lemma Then(s: State, t: Thread, now: State, c: Choice, next: State)
    requires Leads(s, t, now) && c.begin.Idle? && Step(now, t, c) == next
    ensures Leads(s, t, next)
  {
    var choices :| Quiet(choices) && Alone(s, t, choices) == now;
    var more := choices + [c];
    assert more[..|more| - 1] == choices;
    assert Quiet(more) && Alone(s, t, more) == next;
  }

  function Steps(t: Thread, choices: seq<Choice>): seq<(Thread, Choice)> {
    seq(|choices|, i requires 0 <= i < |choices| => (t, choices[i]))
  }

  lemma StepsSnoc(steps: seq<(Thread, Choice)>, t: Thread, choices: seq<Choice>)
    requires choices != []
    ensures steps + Steps(t, choices) == steps + Steps(t, choices[..|choices| - 1]) + [(t, choices[|choices| - 1])]
  {
    assert Steps(t, choices) == Steps(t, choices[..|choices| - 1]) + [(t, choices[|choices| - 1])];
  }

  lemma RunSnoc(steps: seq<(Thread, Choice)>, t: Thread, c: Choice)
    ensures Run(steps + [(t, c)]) == Step(Run(steps), t, c)
  {
    assert (steps + [(t, c)])[..|steps|] == steps;
  }

  lemma {:induction false} AloneIsRun(steps: seq<(Thread, Choice)>, t: Thread, choices: seq<Choice>)
    ensures Run(steps + Steps(t, choices)) == Alone(Run(steps), t, choices)
  {
    if choices == [] {
      assert steps + Steps(t, []) == steps;
    } else {
      var n := |choices| - 1;
      AloneIsRun(steps, t, choices[..n]);
      StepsSnoc(steps, t, choices);
      RunSnoc(steps + Steps(t, choices[..n]), t, choices[n]);
    }
  }

  /** What a thread gets to alone a run gets to, and no button more is pressed in it. */
  lemma LeadsIsRun(steps: seq<(Thread, Choice)>, t: Thread, next: State, take: Pc) returns (more: seq<(Thread, Choice)>)
    requires Leads(Run(steps), t, next) && OnlyBegins(steps, take)
    ensures Run(more) == next && OnlyBegins(more, take)
  {
    var choices :| Quiet(choices) && Alone(Run(steps), t, choices) == next;
    AloneIsRun(steps, t, choices);
    more := steps + Steps(t, choices);
  }

  /** A step that takes the thread from `a` to `b` and turns the rest of the state from `base` into `after`. */
  ghost predicate Turns(result: State, base: State, t: Thread, a: Pc, after: State, b: Pc) {
    && result.(threads := base.threads) == after && after.threads == base.threads
    && result.threads == At(base, t, a).threads[t := b]
  }

  lemma Turned(result: State, base: State, t: Thread, a: Pc, after: State, b: Pc)
    requires Turns(result, base, t, a, after, b)
    ensures result == At(after, t, b)
  {
    assert base.threads[t := a][t := b] == base.threads[t := b];
  }

  lemma SetupGoes(s: State, t: Thread, base: State, a: Pc, c: Choice, after: State, b: Pc)
    requires Leads(s, t, At(base, t, a)) && IsSetup(a) && c.begin.Idle? && Turns(Setup(At(base, t, a), t, a, c), base, t, a, after, b)
    ensures Leads(s, t, At(after, t, b))
  {
    Turned(Setup(At(base, t, a), t, a, c), base, t, a, after, b);
    Then(s, t, At(base, t, a), c, At(after, t, b));
  }

  lemma AnswerGoes(s: State, t: Thread, base: State, a: Pc, c: Choice, after: State, b: Pc)
    requires Leads(s, t, At(base, t, a)) && IsAnswer(a) && c.begin.Idle? && Turns(Answer(At(base, t, a), t, a, c), base, t, a, after, b)
    ensures Leads(s, t, At(after, t, b))
  {
    Turned(Answer(At(base, t, a), t, a, c), base, t, a, after, b);
    Then(s, t, At(base, t, a), c, At(after, t, b));
  }

  lemma ReplyGoes(s: State, t: Thread, base: State, a: Pc, c: Choice, after: State, b: Pc)
    requires Leads(s, t, At(base, t, a)) && IsReply(a) && c.begin.Idle? && Turns(Reply(At(base, t, a), t, a, c), base, t, a, after, b)
    ensures Leads(s, t, At(after, t, b))
  {
    Turned(Reply(At(base, t, a), t, a, c), base, t, a, after, b);
    Then(s, t, At(base, t, a), c, At(after, t, b));
  }

  lemma ExpireGoes(s: State, t: Thread, base: State, a: Pc, c: Choice, after: State, b: Pc)
    requires Leads(s, t, At(base, t, a)) && IsExpire(a) && c.begin.Idle? && Turns(Expire(At(base, t, a), t, a), base, t, a, after, b)
    ensures Leads(s, t, At(after, t, b))
  {
    Turned(Expire(At(base, t, a), t, a), base, t, a, after, b);
    Then(s, t, At(base, t, a), c, At(after, t, b));
  }

  lemma RetireGoes(s: State, t: Thread, base: State, a: Pc, c: Choice, after: State, b: Pc)
    requires Leads(s, t, At(base, t, a)) && IsRetire(a) && c.begin.Idle? && Turns(Retire(At(base, t, a), t, a), base, t, a, after, b)
    ensures Leads(s, t, At(after, t, b))
  {
    Turned(Retire(At(base, t, a), t, a), base, t, a, after, b);
    Then(s, t, At(base, t, a), c, At(after, t, b));
  }

  lemma HereAt(s: State, t: Thread, pc: Pc)
    requires PcOf(s, t) == pc && !pc.Idle?
    ensures s == At(s, t, pc) && Leads(s, t, At(s, t, pc))
  {
    assert s.threads[t := pc] == s.threads;
    Here(s, t);
  }

  // ---- answers -------------------------------------------------------------------------------------

  /** The request is in no map any more. */
  function Taken(s: State, token: Token): State {
    s.(pending := s.pending - {token}, started := s.started - {token}, cards := s.cards - {token})
  }

  /** Codex has the reply, and the request is settled by it. */
  function Replied(s: State, token: Token): State {
    s.(received := s.received + [token], fates := s.fates[token := Accepted])
  }

  /** A handler takes a waiting request out of all maps; a typed answer remembers whether there was a card. */
  lemma RequestsAreTaken(s: State, t: Thread, role: Role, token: Token)
    requires PcOf(s, t) == Take(role, token) && token in s.pending
    ensures Leads(s, t, At(Taken(s, token), t, Build(role, token, role.Owner? || token in s.cards)))
  {
    var a := s.(pending := s.pending - {token});
    var b := a.(started := s.started - {token});
    HereAt(s, t, Take(role, token));
    AnswerGoes(s, t, s, Take(role, token), GOOD, a, TakeStarted(role, token));
    AnswerGoes(s, t, a, TakeStarted(role, token), GOOD, b, TakeCard(role, token));
    AnswerGoes(s, t, b, TakeCard(role, token), GOOD, Taken(s, token), Build(role, token, role.Owner? || token in s.cards));
  }

  lemma RepliesAreSent(s: State, t: Thread, base: State, token: Token, card: bool)
    requires Leads(s, t, At(base, t, Send(token, card))) && GenerationOf(base, token) !in base.gone
    ensures Leads(s, t, At(Replied(base, token), t, Idle))
  {
    ReplyGoes(s, t, base, Send(token, card), GOOD, base, Write(token, card));
    ReplyGoes(s, t, base, Write(token, card), GOOD, Replied(base, token), Idle);
  }

  lemma DecisionsAreBuilt(s: State, t: Thread, token: Token, d: Decision)
    requires PcOf(s, t) == Take(Owner(d), token) && token in s.pending && token in s.requests && Builds(s.requests[token].kind, d)
    ensures Leads(s, t, At(Taken(s, token).(decided := s.decided + {(token, d)}), t, Send(token, true)))
  {
    var taken := Taken(s, token);
    RequestsAreTaken(s, t, Owner(d), token);
    AnswerGoes(s, t, taken, Build(Owner(d), token, true), GOOD, taken.(decided := s.decided + {(token, d)}), Send(token, true));
  }

  /** What the owner decides on a waiting request reaches Codex once and settles it, if a reply can be made of it. */
  lemma DecisionsReachCodex(s: State, t: Thread, token: Token, d: Decision)
    requires PcOf(s, t) == Take(Owner(d), token) && token in s.pending && token in s.requests
    requires Builds(s.requests[token].kind, d) && GenerationOf(s, token) !in s.gone
    ensures Leads(s, t, At(Replied(Taken(s, token), token).(decided := s.decided + {(token, d)}), t, Idle))
  {
    DecisionsAreBuilt(s, t, token, d);
    RepliesAreSent(s, t, Taken(s, token).(decided := s.decided + {(token, d)}), token, true);
  }

  /** So does what a form answers to a request that takes typed answers. */
  lemma FormsReachCodex(s: State, t: Thread, token: Token)
    requires PcOf(s, t) == Take(Typed, token) && token in s.pending && token in s.requests
    requires Answerable(s.requests[token].kind) && GenerationOf(s, token) !in s.gone
    ensures Leads(s, t, At(Replied(Taken(s, token), token), t, Idle))
  {
    var taken, card := Taken(s, token), token in s.cards;
    RequestsAreTaken(s, t, Typed, token);
    AnswerGoes(s, t, taken, Build(Typed, token, card), GOOD, taken, Send(token, card));
    RepliesAreSent(s, t, taken, token, card);
  }

  lemma ExpiryTakes(s: State, t: Thread, token: Token)
    requires PcOf(s, t) == ExpireStarted(token) && token in s.pending
    ensures Leads(s, t, At(Taken(s, token), t, ExpireSend(token)))
  {
    var a := s.(started := s.started - {token});
    var b := a.(pending := s.pending - {token});
    HereAt(s, t, ExpireStarted(token));
    ExpireGoes(s, t, s, ExpireStarted(token), GOOD, a, ExpireTake(token));
    ExpireGoes(s, t, a, ExpireTake(token), GOOD, b, ExpireCard(token));
    ExpireGoes(s, t, b, ExpireCard(token), GOOD, Taken(s, token), ExpireSend(token));
  }

  /** And so does the reply that expiry makes. */
  lemma ExpiriesReachCodex(s: State, t: Thread, token: Token)
    requires PcOf(s, t) == ExpireStarted(token) && token in s.pending && GenerationOf(s, token) !in s.gone
    ensures Leads(s, t, At(Replied(Taken(s, token), token), t, Idle))
  {
    var taken := Taken(s, token);
    ExpiryTakes(s, t, token);
    ReplyGoes(s, t, taken, ExpireSend(token), GOOD, taken, ExpireWrite(token));
    ReplyGoes(s, t, taken, ExpireWrite(token), GOOD, Replied(taken, token), Idle);
  }

  /** A request whose process is gone expires without a reply. */
  lemma ExpiriesOfTheGone(s: State, t: Thread, token: Token)
    requires PcOf(s, t) == ExpireStarted(token) && token in s.pending && GenerationOf(s, token) in s.gone
    ensures Leads(s, t, At(Settle(Taken(s, token), token, ExpiredUnanswered), t, Idle))
  {
    var taken := Taken(s, token);
    ExpiryTakes(s, t, token);
    ReplyGoes(s, t, taken, ExpireSend(token), GOOD, taken, ExpireEnd(token));
    ExpiryEnds(s, t, taken, token);
  }

  // ---- answers that fail -----------------------------------------------------------------------------

  /** The request waits again, with its card if it had one. */
  function PutBack(s: State, token: Token, card: bool): State {
    s.(pending := s.pending + {token}, started := s.started + {token}, cards := if card then s.cards + {token} else s.cards)
  }

  lemma Restores(s: State, t: Thread, base: State, token: Token, card: bool)
    requires Leads(s, t, At(base, t, RestorePending(token, card)))
    ensures Leads(s, t, At(PutBack(base, token, card), t, Idle))
  {
    var a := base.(pending := base.pending + {token});
    var b := a.(started := base.started + {token});
    AnswerGoes(s, t, base, RestorePending(token, card), GOOD, a, RestoreStarted(token, card));
    if card {
      AnswerGoes(s, t, a, RestoreStarted(token, card), GOOD, b, RestoreCard(token));
      AnswerGoes(s, t, b, RestoreCard(token), GOOD, PutBack(base, token, card), Idle);
    } else {
      AnswerGoes(s, t, a, RestoreStarted(token, card), GOOD, PutBack(base, token, card), Idle);
    }
  }

  /** A form whose text makes no reply leaves the request waiting as it was. */
  lemma UnusableFormsChangeNothing(s: State, t: Thread, token: Token)
    requires PcOf(s, t) == Take(Typed, token) && token in s.pending
    ensures Leads(s, t, At(PutBack(Taken(s, token), token, token in s.cards), t, Idle))
    ensures token in s.started ==> PutBack(Taken(s, token), token, token in s.cards) == s
  {
    var taken, card := Taken(s, token), token in s.cards;
    RequestsAreTaken(s, t, Typed, token);
    AnswerGoes(s, t, taken, Build(Typed, token, card), BAD, taken, RestorePending(token, card));
    Restores(s, t, taken, token, card);
    assert s.pending - {token} + {token} == s.pending;
    assert token in s.started ==> s.started - {token} + {token} == s.started;
    assert card ==> s.cards - {token} + {token} == s.cards;
    assert !card ==> s.cards - {token} == s.cards;
  }

  /** A decision that could not be sent, be it that its process is gone, leaves the request waiting. */
  lemma UnsentDecisionsWaitAgain(s: State, t: Thread, token: Token, d: Decision)
    requires PcOf(s, t) == Take(Owner(d), token) && token in s.pending && token in s.requests && Builds(s.requests[token].kind, d)
    ensures Leads(s, t, At(PutBack(Taken(s, token).(decided := s.decided + {(token, d)}), token, true), t, Idle))
  {
    var decided := Taken(s, token).(decided := s.decided + {(token, d)});
    DecisionsAreBuilt(s, t, token, d);
    ReplyGoes(s, t, decided, Send(token, true), UNSENT, decided, RestorePending(token, true));
    Restores(s, t, decided, token, true);
  }

  /** The state after a reply failed: it may have arrived, and its generation is given up. */
  function Failed(s: State, token: Token, arrived: bool): State {
    s.(gone := s.gone + {GenerationOf(s, token)}, received := if arrived then s.received + [token] else s.received)
  }

  lemma SendersGiveUp(s: State, t: Thread, base: State, token: Token, card: bool, arrived: bool)
    requires Leads(s, t, At(if arrived then Receive(base, token) else base, t, GiveUp(token, card)))
    ensures Leads(s, t, At(Failed(base, token, arrived), t, RestorePending(token, card)))
  {
    var heard := if arrived then Receive(base, token) else base;
    ReplyGoes(s, t, heard, GiveUp(token, card), GOOD, Failed(base, token, arrived), RestorePending(token, card));
  }

  lemma WritesFail(s: State, t: Thread, base: State, token: Token, card: bool, arrived: bool)
    requires Leads(s, t, At(base, t, Send(token, card))) && GenerationOf(base, token) !in base.gone
    ensures Leads(s, t, At(Failed(base, token, arrived), t, RestorePending(token, card)))
  {
    var heard := if arrived then Receive(base, token) else base;
    ReplyGoes(s, t, base, Send(token, card), GOOD, base, Write(token, card));
    ReplyGoes(s, t, base, Write(token, card), if arrived then UNSENT else BAD, heard, GiveUp(token, card));
    SendersGiveUp(s, t, base, token, card, arrived);
  }

  /** A reply whose write fails may have arrived or not; its generation is given up, and the request waits again. */
  lemma FailedDecisionsWaitAgain(s: State, t: Thread, token: Token, d: Decision, arrived: bool)
    requires PcOf(s, t) == Take(Owner(d), token) && token in s.pending && token in s.requests
    requires Builds(s.requests[token].kind, d) && GenerationOf(s, token) !in s.gone
    ensures Leads(s, t, At(PutBack(Failed(Taken(s, token).(decided := s.decided + {(token, d)}), token, arrived), token, true), t, Idle))
  {
    var decided := Taken(s, token).(decided := s.decided + {(token, d)});
    DecisionsAreBuilt(s, t, token, d);
    WritesFail(s, t, decided, token, true, arrived);
    Restores(s, t, Failed(decided, token, arrived), token, true);
  }

  /** One that can not even be begun to be written gives it up as well. */
  lemma UnwrittenDecisionsWaitAgain(s: State, t: Thread, token: Token, d: Decision)
    requires PcOf(s, t) == Take(Owner(d), token) && token in s.pending && token in s.requests
    requires Builds(s.requests[token].kind, d) && GenerationOf(s, token) !in s.gone
    ensures Leads(s, t, At(PutBack(Failed(Taken(s, token).(decided := s.decided + {(token, d)}), token, false), token, true), t, Idle))
  {
    var decided := Taken(s, token).(decided := s.decided + {(token, d)});
    DecisionsAreBuilt(s, t, token, d);
    ReplyGoes(s, t, decided, Send(token, true), BAD, decided, GiveUp(token, true));
    SendersGiveUp(s, t, decided, token, true, false);
    Restores(s, t, Failed(decided, token, false), token, true);
  }

  lemma ExpiryGivesUp(s: State, t: Thread, base: State, token: Token, arrived: bool)
    requires Leads(s, t, At(if arrived then Receive(base, token) else base, t, ExpireGiveUp(token)))
    ensures Leads(s, t, At(Failed(base, token, arrived), t, ExpireEnd(token)))
  {
    var heard := if arrived then Receive(base, token) else base;
    ReplyGoes(s, t, heard, ExpireGiveUp(token), GOOD, Failed(base, token, arrived), ExpireEnd(token));
  }

  lemma ExpiryEnds(s: State, t: Thread, base: State, token: Token)
    requires Leads(s, t, At(base, t, ExpireEnd(token)))
    ensures Leads(s, t, At(Settle(base, token, ExpiredUnanswered), t, Idle))
  {
    ReplyGoes(s, t, base, ExpireEnd(token), GOOD, Settle(base, token, ExpiredUnanswered), Idle);
  }

  lemma ExpiryWritesFail(s: State, t: Thread, base: State, token: Token, arrived: bool)
    requires Leads(s, t, At(base, t, ExpireSend(token))) && GenerationOf(base, token) !in base.gone
    ensures Leads(s, t, At(if arrived then Receive(base, token) else base, t, ExpireGiveUp(token)))
  {
    var heard := if arrived then Receive(base, token) else base;
    ReplyGoes(s, t, base, ExpireSend(token), GOOD, base, ExpireWrite(token));
    ReplyGoes(s, t, base, ExpireWrite(token), if arrived then UNSENT else BAD, heard, ExpireGiveUp(token));
  }

  /** An expiry whose reply fails, arrived or not, settles the request all the same and gives its generation up. */
  lemma FailedExpiriesSettle(s: State, t: Thread, token: Token, arrived: bool)
    requires PcOf(s, t) == ExpireStarted(token) && token in s.pending && GenerationOf(s, token) !in s.gone
    ensures Leads(s, t, At(Settle(Failed(Taken(s, token), token, arrived), token, ExpiredUnanswered), t, Idle))
  {
    ExpiryTakes(s, t, token);
    ExpiryWritesFail(s, t, Taken(s, token), token, arrived);
    ExpiryGivesUp(s, t, Taken(s, token), token, arrived);
    ExpiryEnds(s, t, Failed(Taken(s, token), token, arrived), token);
  }

  lemma ExpiryIsNotWritten(s: State, t: Thread, base: State, token: Token)
    requires Leads(s, t, At(base, t, ExpireSend(token))) && GenerationOf(base, token) !in base.gone
    ensures Leads(s, t, At(base, t, ExpireGiveUp(token)))
  {
    ReplyGoes(s, t, base, ExpireSend(token), BAD, base, ExpireGiveUp(token));
  }

  /** So does one whose reply can not even be begun to be written. */
  lemma UnwrittenExpiriesSettle(s: State, t: Thread, token: Token)
    requires PcOf(s, t) == ExpireStarted(token) && token in s.pending && GenerationOf(s, token) !in s.gone
    ensures Leads(s, t, At(Settle(Failed(Taken(s, token), token, false), token, ExpiredUnanswered), t, Idle))
  {
    ExpiryTakes(s, t, token);
    ExpiryIsNotWritten(s, t, Taken(s, token), token);
    ExpiryGivesUp(s, t, Taken(s, token), token, false);
    ExpiryEnds(s, t, Failed(Taken(s, token), token, false), token);
  }

  /** One that can not be serialized settles it and leaves the generation alone. */
  lemma UnsentExpiriesSettle(s: State, t: Thread, token: Token)
    requires PcOf(s, t) == ExpireStarted(token) && token in s.pending
    ensures Leads(s, t, At(Settle(Taken(s, token), token, ExpiredUnanswered), t, Idle))
  {
    var taken := Taken(s, token);
    ExpiryTakes(s, t, token);
    ReplyGoes(s, t, taken, ExpireSend(token), UNSENT, taken, ExpireEnd(token));
    ExpiryEnds(s, t, taken, token);
  }

  // ---- registering and retiring ------------------------------------------------------------------------

  /** A new request waits, with its card. */
  lemma RequestsAreRegistered(s: State, t: Thread, token: Token, request: Request)
    requires PcOf(s, t) == SetupInsert(token, request) && token !in s.requests
    ensures var n := s.(requests := s.requests[token := request], pending := s.pending + {token},
                        started := s.started + {token}, cards := s.cards + {token});
            Leads(s, t, At(n, t, Idle))
  {
    var a := s.(requests := s.requests[token := request], pending := s.pending + {token});
    var b := a.(started := s.started + {token});
    var c := b.(cards := s.cards + {token});
    HereAt(s, t, SetupInsert(token, request));
    SetupGoes(s, t, s, SetupInsert(token, request), GOOD, a, SetupStarted(token));
    SetupGoes(s, t, a, SetupStarted(token), GOOD, b, SetupTombstone(token));
    SetupGoes(s, t, b, SetupTombstone(token), BAD, b, SetupCard(token));
    SetupGoes(s, t, b, SetupCard(token), GOOD, c, SetupRecheck(token));
    SetupGoes(s, t, c, SetupRecheck(token), GOOD, c, Idle);
  }

  /** A request that was resolved before it was registered is withdrawn at once. */
  lemma ResolvedEarlyIsWithdrawn(s: State, t: Thread, token: Token, request: Request)
    requires PcOf(s, t) == SetupInsert(token, request) && token !in s.requests
    ensures var n := s.(requests := s.requests[token := request], pending := s.pending - {token},
                        started := s.started - {token}, fates := s.fates[token := Retired]);
            Leads(s, t, At(n, t, Idle))
  {
    var a := s.(requests := s.requests[token := request], pending := s.pending + {token});
    var b := a.(started := s.started + {token});
    var c := Withdraw(b, token);
    var d := c.(started := s.started - {token});
    HereAt(s, t, SetupInsert(token, request));
    SetupGoes(s, t, s, SetupInsert(token, request), GOOD, a, SetupStarted(token));
    SetupGoes(s, t, a, SetupStarted(token), GOOD, b, SetupTombstone(token));
    SetupGoes(s, t, b, SetupTombstone(token), GOOD, b, SetupWithdraw(token));
    SetupGoes(s, t, b, SetupWithdraw(token), GOOD, c, SetupWithdrawStarted(token));
    assert c.started - {token} == s.started - {token} && c.pending == s.pending - {token};
    SetupGoes(s, t, c, SetupWithdrawStarted(token), GOOD, d, Idle);
  }

  /** One that no longer waits while it is being registered gets no card that stays. */
  lemma ResolvedLateGetsNoCard(s: State, t: Thread, token: Token)
    requires token !in s.pending
    ensures PcOf(s, t) == SetupTombstone(token) ==> Leads(s, t, At(s.(started := s.started - {token}), t, Idle))
    ensures PcOf(s, t) == SetupCard(token) ==> Leads(s, t, At(s.(cards := s.cards - {token}), t, Idle))
  {
    if PcOf(s, t) == SetupTombstone(token) {
      HereAt(s, t, SetupTombstone(token));
      SetupGoes(s, t, s, SetupTombstone(token), BAD, s, SetupWithdraw(token));
      SetupGoes(s, t, s, SetupWithdraw(token), GOOD, s, SetupWithdrawStarted(token));
      SetupGoes(s, t, s, SetupWithdrawStarted(token), GOOD, s.(started := s.started - {token}), Idle);
    } else if PcOf(s, t) == SetupCard(token) {
      var a := s.(cards := s.cards + {token});
      HereAt(s, t, SetupCard(token));
      SetupGoes(s, t, s, SetupCard(token), GOOD, a, SetupRecheck(token));
      assert a.cards - {token} == s.cards - {token};
      SetupGoes(s, t, a, SetupRecheck(token), GOOD, s.(cards := s.cards - {token}), Idle);
    }
  }

  /** The clocks of requests that wait are kept, and those of others dropped. */
  lemma ClocksAreKeptForTheWaiting(s: State, t: Thread, token: Token)
    requires PcOf(s, t) == Retain(token)
    ensures Leads(s, t, At(if token in s.pending then s else s.(started := s.started - {token}), t, Idle))
  {
    HereAt(s, t, Retain(token));
    ExpireGoes(s, t, s, Retain(token), GOOD, if token in s.pending then s else s.(started := s.started - {token}), Idle);
  }

  lemma RetirementEnds(s: State, t: Thread, base: State, token: Token)
    requires Leads(s, t, At(base, t, RetireCard(token)))
    ensures Leads(s, t, At(base.(cards := base.cards - {token}), t, Idle))
  {
    RetireGoes(s, t, base, RetireCard(token), GOOD, base.(cards := base.cards - {token}), Idle);
  }

  /** A request that Codex resolved otherwise is in no map any more and will not be answered. */
  lemma ResolvedRequestsRetire(s: State, t: Thread, token: Token)
    requires PcOf(s, t) == RetirePending(token) && token in s.pending
    ensures Leads(s, t, At(Settle(Taken(s, token), token, Retired), t, Idle))
  {
    var a := Withdraw(s, token);
    var b := a.(started := s.started - {token});
    HereAt(s, t, RetirePending(token));
    RetireGoes(s, t, s, RetirePending(token), GOOD, a, RetireStarted(token));
    RetireGoes(s, t, a, RetireStarted(token), GOOD, b, RetireCard(token));
    RetirementEnds(s, t, b, token);
    assert b.(cards := b.cards - {token}) == Settle(Taken(s, token), token, Retired);
  }

  /** A card of choices shows the first twenty-five and nothing else; any other can be declined, and accepted if a reply can be made of that. */
  lemma CardsOfferWhatFits(kind: Kind, d: Decision)
    ensures kind.Approval? && kind.offered.Some? ==>
              (Offers(kind, d) <==> d.Offered? && exists i :: 0 <= i < |kind.offered.value| && i < 25 && kind.offered.value[i] == d.index)
    ensures !(kind.Approval? && kind.offered.Some?) ==>
              !Offers(kind, Offered(0)) && Offers(kind, Decline) && (Offers(kind, Accept) <==> Builds(kind, Accept))
  {
  }

  // ---- from the start ------------------------------------------------------------------------------------

  lemma Begin(steps: seq<(Thread, Choice)>, t: Thread, pc: Pc, take: Pc) returns (more: seq<(Thread, Choice)>)
    requires PcOf(Run(steps), t).Idle? && Begins(pc) && OnlyBegins(steps, take) && (pc.Take? ==> pc == take)
    ensures Run(more) == At(Run(steps), t, pc) && OnlyBegins(more, take)
  {
    more := steps + [(t, Choice(pc, true, false))];
    assert more[..|steps|] == steps;
  }

  /** A run that registers the request and does nothing else. */
  lemma Registered(token: Token, request: Request, take: Pc) returns (steps: seq<(Thread, Choice)>)
    requires !Refused(request.kind)
    ensures OnlyBegins(steps, take) && PcOf(Run(steps), 1).Idle?
    ensures var s := Run(steps);
            s.requests == map[token := request] && s.pending == {token} && s.gone == {} && s.received == [] && s.fates == map[]
  {
    steps := Begin([], 0, SetupInsert(token, request), take);
    var s := Run(steps);
    RequestsAreRegistered(s, 0, token, request);
    steps := LeadsIsRun(steps, 0, At(s.(requests := s.requests[token := request], pending := s.pending + {token},
                                        started := s.started + {token}, cards := s.cards + {token}), 0, Idle), take);
  }

  /** For every kind of request and every decision that its card offers there is a run in which that decision alone is taken, and reaches Codex. */
  lemma OfferedDecisionsHappen(token: Token, request: Request, d: Decision) returns (steps: seq<(Thread, Choice)>)
    requires !Refused(request.kind) && Offers(request.kind, d)
    ensures Run(steps).received == [token] && Run(steps).fates == map[token := Accepted] && Run(steps).gone == {}
    ensures OnlyBegins(steps, Take(Owner(d), token))
  {
    var take := Take(Owner(d), token);
    CardsCanBeAnswered(request.kind);
    steps := Registered(token, request, take);
    steps := Begin(steps, 1, take, take);
    var s := Run(steps);
    DecisionsReachCodex(s, 1, token, d);
    steps := LeadsIsRun(steps, 1, At(Replied(Taken(s, token), token).(decided := s.decided + {(token, d)}), 1, Idle), take);
  }

  /** So there is one in which a form is answered, for every kind of request that takes typed answers. */
  lemma FormsHappen(token: Token, request: Request) returns (steps: seq<(Thread, Choice)>)
    requires Answerable(request.kind)
    ensures Run(steps).received == [token] && Run(steps).fates == map[token := Accepted] && Run(steps).gone == {}
  {
    var take := Take(Typed, token);
    steps := Registered(token, request, take);
    steps := Begin(steps, 1, take, take);
    var s := Run(steps);
    FormsReachCodex(s, 1, token);
    steps := LeadsIsRun(steps, 1, At(Replied(Taken(s, token), token), 1, Idle), take);
  }

  /** And one in which no one answers and the expiry reaches Codex. */
  lemma ExpiriesHappen(token: Token, request: Request) returns (steps: seq<(Thread, Choice)>)
    requires !Refused(request.kind)
    ensures Run(steps).received == [token] && Run(steps).fates == map[token := Accepted] && Run(steps).gone == {}
  {
    steps := Registered(token, request, Take(Typed, token));
    steps := Begin(steps, 1, ExpireStarted(token), Take(Typed, token));
    var s := Run(steps);
    ExpiriesReachCodex(s, 1, token);
    steps := LeadsIsRun(steps, 1, At(Replied(Taken(s, token), token), 1, Idle), Take(Typed, token));
  }

  // ---- why a generation is given up ------------------------------------------------------------------------

  /** The generation is gone, or a handler is about to give it up, or to notice its loss. */
  predicate Doomed(s: State, t: Thread, g: nat) {
    || g in s.gone
    || (GivesUp(PcOf(s, t)) && GenerationOf(s, PcOf(s, t).token) == g)
    || PcOf(s, t) == Disconnect(g)
  }

  predicate GivesUp(pc: Pc) {
    pc.GiveUp? || pc.ExpireGiveUp?
  }

  /** The step begins the loss of the connection, or a reply to a request of the generation fails in it. */
  predicate Fails(s: State, t: Thread, c: Choice, g: nat) {
    var pc := PcOf(s, t);
    || (pc.Idle? && c.begin == Disconnect(g))
    || (!c.ok && (pc.Send? || pc.Write? || pc.ExpireSend? || pc.ExpireWrite?) && GenerationOf(s, pc.token) == g)
  }

  lemma ReplyDooms(s: State, t: Thread, c: Choice, g: nat)
    requires IsReply(PcOf(s, t)) && Doomed(Step(s, t, c), t, g)
    ensures Doomed(s, t, g) || Fails(s, t, c, g)
  {
  }

  lemma OthersDoom(s: State, t: Thread, c: Choice, g: nat)
    requires !IsReply(PcOf(s, t)) && Doomed(Step(s, t, c), t, g)
    ensures Doomed(s, t, g) || Fails(s, t, c, g)
  {
    var pc := PcOf(s, t);
    if IsSetup(pc) {
      SetupDoomsNothing(s, t, c);
    } else if IsAnswer(pc) {
      AnswerDoomsNothing(s, t, c);
    } else if IsExpire(pc) {
      ExpiryDoomsNothing(s, t);
    }
  }

  lemma SetupDoomsNothing(s: State, t: Thread, c: Choice)
    requires IsSetup(PcOf(s, t))
    ensures var n := Setup(s, t, PcOf(s, t), c); n.gone == s.gone && !GivesUp(PcOf(n, t)) && !PcOf(n, t).Disconnect?
  {
  }

  lemma AnswerDoomsNothing(s: State, t: Thread, c: Choice)
    requires IsAnswer(PcOf(s, t))
    ensures var n := Answer(s, t, PcOf(s, t), c); n.gone == s.gone && !GivesUp(PcOf(n, t)) && !PcOf(n, t).Disconnect?
  {
  }

  lemma ExpiryDoomsNothing(s: State, t: Thread)
    requires IsExpire(PcOf(s, t))
    ensures var n := Expire(s, t, PcOf(s, t)); n.gone == s.gone && !GivesUp(PcOf(n, t)) && !PcOf(n, t).Disconnect?
  {
  }

  lemma SameRequest(s: State, t: Thread, c: Choice, token: Token)
    requires Invariant(s) && token in s.requests
    ensures token in Step(s, t, c).requests && Step(s, t, c).requests[token] == s.requests[token]
  {
    if Writing(PcOf(s, t), token) {
      assert Step(s, t, c).requests == s.requests;
    } else {
      assert Placed(s, token) && Accounted(s, token);
      StepUnwritten(s, t, c, token);
    }
  }

  lemma StepDooms(s: State, t: Thread, c: Choice, u: Thread, g: nat)
    requires Invariant(s) && Doomed(Step(s, t, c), u, g)
    ensures Doomed(s, u, g) || Doomed(s, t, g) || Fails(s, t, c, g)
  {
    var n := Step(s, t, c);
    if Doomed(n, t, g) {
      if IsReply(PcOf(s, t)) { ReplyDooms(s, t, c, g); } else { OthersDoom(s, t, c, g); }
    } else if GivesUp(PcOf(n, u)) {
      var token := PcOf(n, u).token;
      OthersStay(s, t, c);
      assert Holds(PcOf(s, u), token) && Placed(s, token);
      SameRequest(s, t, c, token);
    } else {
      OthersStay(s, t, c);
    }
  }

  lemma OthersStay(s: State, t: Thread, c: Choice)
    requires Invariant(s)
    ensures forall u: Thread :: u != t ==> PcOf(Step(s, t, c), u) == PcOf(s, u)
  {
    assert Placed(s, "");
    PendingReplies.Here(s, t, "");
    StepMoves(s, t, c, "");
  }

  lemma {:induction false} DoomHasACause(steps: seq<(Thread, Choice)>, u: Thread, g: nat) returns (i: nat)
    requires Doomed(Run(steps), u, g)
    ensures i < |steps| && Fails(Run(steps[..i]), steps[i].0, steps[i].1, g)
  {
    assert steps != [];
    var n := |steps| - 1;
    var before, last := Run(steps[..n]), steps[n];
    RunsKeepInvariant(steps[..n]);
    StepDooms(before, last.0, last.1, u, g);
    if Fails(before, last.0, last.1, g) {
      i := n;
    } else {
      i := DoomHasACause(steps[..n], if Doomed(before, u, g) then u else last.0, g);
      assert steps[..n][..i] == steps[..i];
    }
  }

  /** A generation is given up only because its connection was lost or a reply to one of its requests failed. */
  lemma GenerationsGoByFailure(steps: seq<(Thread, Choice)>, g: nat) returns (i: nat)
    requires g in Run(steps).gone
    ensures i < |steps| && Fails(Run(steps[..i]), steps[i].0, steps[i].1, g)
  {
    i := DoomHasACause(steps, 0, g);
  }
}
