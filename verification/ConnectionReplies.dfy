/**
 Retrying a reply: `write_json_for_generation` may report failure for a frame that got through, but
 only by giving up the generation, and a reply for a generation that was given up is never sent.
 */
module ConnectionReplies {
  import opened Wrappers
  import opened Connection
  import opened ConnectionSafety

  /** The server request a task is answering, or has answered. */
  function TokenOf(a: Task): Option<Token> {
    match a
    case Answer(_, k, _) => Some(k)
    case Replied(_, k, _) => Some(k)
    case Tear(_, _, AfterReply(_, k)) => Some(k)
    case _ => None
  }

  function GenerationOf(a: Task): nat
    requires TokenOf(a).Some?
  {
    match a
    case Answer(g, _, _) => g
    case Replied(g, _, _) => g
    case Tear(_, _, AfterReply(g, _)) => g
  }

  predicate Replies(a: Task, k: Token) {
    TokenOf(a) == Some(k)
  }

  /** The reply has not ended for its caller. */
  predicate UnderWay(a: Task, k: Token) {
    Replies(a, k) && !a.Replied?
  }

  /** The reply has failed, though its caller does not know it yet. */
  predicate Failing(a: Task, k: Token) {
    Replies(a, k) && (a.Tear? || (a.Answer? && a.reply.ReplyFailed?))
  }

  predicate WasDelivered(a: Task, k: Token) {
    Replies(a, k) && a.Replied? && a.end.Delivered?
  }

  /** The connection was seen up, or the generation was seen to be the current one as well. */
  predicate Armed(a: Task, k: Token) {
    Replies(a, k) && a.Answer? && !a.reply.ReplyTestConnected? && !a.reply.ReplyTestGeneration? && !a.reply.ReplyFailed?
  }

  predicate IsArrival(e: Event, k: Token) {
    e.Received? && e.frame.Reply? && e.frame.token == k
  }

  /** How often a reply to the request arrived on this pipe. */
  function Arrivals(h: seq<Event>, k: Token): nat {
    if h == [] then 0 else Arrivals(h[..|h| - 1], k) + if IsArrival(h[|h| - 1], k) then 1 else 0
  }

  lemma ArrivalsNext(h: seq<Event>, e: Event, k: Token)
    ensures Arrivals(h + [e], k) == Arrivals(h, k) + if IsArrival(e, k) then 1 else 0
  {
    assert (h + [e])[..|h|] == h;
  }

  function Heard(link: Link, p: nat, k: Token): nat {
    if p in link.processes then Arrivals(link.processes[p].history, k) else 0
  }

  // ---- who can make a reply arrive -------------------------------------------------------------

  ghost predicate Silent(link: Link, link': Link, k: Token) {
    forall p: nat {:trigger Heard(link', p, k)} :: Heard(link', p, k) == Heard(link, p, k)
  }

  lemma RecordHeard(link: Link, p: nat, e: Event, k: Token, q: nat)
    requires p in link.processes
    ensures Heard(link.Record(p, e), q, k) == Heard(link, q, k) + if q == p && IsArrival(e, k) then 1 else 0
  {
    ArrivalsNext(link.processes[p].history, e, k);
  }

  lemma RecordIsSilent(link: Link, p: nat, e: Event, k: Token)
    requires p in link.processes && !IsArrival(e, k)
    ensures Silent(link, link.Record(p, e), k)
  {
    forall q: nat ensures Heard(link.Record(p, e), q, k) == Heard(link, q, k) {
      RecordHeard(link, p, e, k, q);
    }
  }

  lemma WordlessIsSilent(link: Link, link': Link, k: Token)
    requires Wordless(link, link')
    ensures Silent(link, link', k)
  {
  }

  lemma SendIsSilent(v: View, job: Job, epoch: nat, g: nat, v': View, b: Task, k: Token)
    requires SendMove(v, job, epoch, g, v', b)
    ensures Silent(v.link, v'.link, k)
  {
    var stdin := v.link.stdin;
    if stdin.Some? && stdin.value in v.link.processes {
      RecordIsSilent(v.link, stdin.value, Received(JobFrame(job)), k);
      RecordIsSilent(v.link, stdin.value, Torn(JobFrame(job)), k);
    }
  }

  lemma AnswerIsSilent(t: TaskId, v: View, g: nat, own: Token, stage: ReplyStage, v': View, b: Task, k: Token)
    requires AnswerMove(t, v, g, own, stage, v', b) && (own != k || !stage.ReplySend?)
    ensures Silent(v.link, v'.link, k)
  {
    var stdin := v.link.stdin;
    if stage.ReplySend? && stdin.Some? && stdin.value in v.link.processes {
      RecordIsSilent(v.link, stdin.value, Received(Reply(g, own)), k);
      RecordIsSilent(v.link, stdin.value, Torn(Reply(g, own)), k);
    }
  }

  lemma WriteIsWordless(t: TaskId, v: View, job: Job, stage: WriteStage, v': View, b: Task)
    requires WriteMove(t, v, job, stage, v', b) && !stage.HoldStdin?
    ensures Wordless(v.link, v'.link)
  {
  }

  lemma EnsureIsWordless(t: TaskId, v: View, stage: EnsureStage, v': View, b: Task)
    requires EnsureMove(t, v, stage, v', b)
    ensures Wordless(v.link, v'.link)
  {
  }

  lemma ReaderIsWordless(v: View, g: nat, v': View, b: Task)
    requires ReaderMove(v, g, v', b)
    ensures Wordless(v.link, v'.link)
  {
  }

  /** No move but the sending of a reply to the request makes one arrive. */
  lemma OtherMovesAreSilent(t: TaskId, v: View, a: Task, v': View, b: Task, child: Option<Task>, k: Token)
    requires LinkOk(v.link) && Move(t, v, a, v', b, child) && !(Armed(a, k) && a.reply.ReplySend?)
    ensures Silent(v.link, v'.link, k)
  {
    match a {
      case Write(job, HoldStdin(epoch, g)) => SendIsSilent(v, job, epoch, g, v', b, k);
      case Answer(g, own, stage) => AnswerIsSilent(t, v, g, own, stage, v', b, k);
      case _ =>
        WordlessMove(t, v, a, v', b, child);
        WordlessIsSilent(v.link, v'.link, k);
    }
  }

  lemma WordlessMove(t: TaskId, v: View, a: Task, v': View, b: Task, child: Option<Task>)
    requires LinkOk(v.link) && Move(t, v, a, v', b, child) && !a.Answer? && !(a.Write? && a.write.HoldStdin?)
    ensures Wordless(v.link, v'.link)
  {
    match a
    case Ensure(stage) =>
      if EnsureMove(t, v, stage, v', b) { EnsureIsWordless(t, v, stage, v', b); } else { SpawnIsQuiet(t, v, stage, v', b); }
    case Write(job, stage) => WriteIsWordless(t, v, job, stage, v', b);
    case Tear(scope, stage, after) => TearIsQuiet(t, v, scope, stage, after, v', b);
    case Reader(g) => ReaderIsWordless(v, g, v', b);
    case _ =>
  }

  // ---- replies made one at a time -----------------------------------------------------------------

  /** A reply to the request is begun only when every earlier one has failed, and for the generation that asked. */
  ghost predicate OneAtATime(states: seq<State>, g: nat, k: Token) {
    forall i, t: TaskId, task: Task {:trigger StartStep(states[i], states[i + 1], t, task)} ::
      0 <= i < |states| - 1 && StartStep(states[i], states[i + 1], t, task) && Replies(task, k) ==>
        MayBegin(states[i], g, k, task)
  }

  /** The reply ended without being delivered. */
  predicate Spent(a: Task) {
    a.Replied? && !a.end.Delivered?
  }

  ghost predicate MayBegin(s: State, g: nat, k: Token, task: Task)
    requires Replies(task, k)
  {
    GenerationOf(task) == g && forall u :: u in s.tasks && Replies(s.tasks[u], k) ==> Spent(s.tasks[u])
  }

  /** One reply at most is under way, and none once one was delivered. */
  ghost predicate Single(tasks: map<TaskId, Task>, g: nat, k: Token) {
    && (forall u :: u in tasks && Replies(tasks[u], k) ==> GenerationOf(tasks[u]) == g)
    && (forall u, w :: u in tasks && w in tasks && UnderWay(tasks[u], k) && Replies(tasks[w], k) && !Spent(tasks[w]) ==> w == u)
  }

  /** What an unfinished reply knows of earlier arrivals. */
  predicate Fresh(link: Link, a: Task, g: nat, k: Token) {
    && (Armed(a, k) ==> Heard(link, g, k) == 0)
    && (a == Answer(g, k, ReplyTestGeneration) ==> Heard(link, g, k) == 0 || g < link.generation)
  }

  /** The reply arrived and is about to be reported, as delivered or as failed. */
  predicate Accounts(a: Task, k: Token) {
    Failing(a, k) || WasDelivered(a, k)
  }

  /** Any arrival is in some task's account, or its generation is gone. */
  ghost predicate Explained(s: State, g: nat, k: Token) {
    Heard(s.view.link, g, k) == 0 || Gone(s.view.link, g) || exists u :: u in s.tasks && Accounts(s.tasks[u], k)
  }

  ghost predicate HeardOnce(link: Link, g: nat, k: Token) {
    Heard(link, g, k) <= 1 && forall p: nat {:trigger Heard(link, p, k)} :: p != g ==> Heard(link, p, k) == 0
  }

  ghost predicate OnceOnly(s: State, g: nat, k: Token) {
    && Single(s.tasks, g, k) && Explained(s, g, k) && HeardOnce(s.view.link, g, k)
    && (forall u :: u in s.tasks ==> Fresh(s.view.link, s.tasks[u], g, k))
  }

  // ---- one step at a time ----------------------------------------------------------------------

  lemma SilentKeeps(link: Link, link': Link, g: nat, k: Token, a: Task)
    requires Silent(link, link', k) && link.generation <= link'.generation
    ensures HeardOnce(link, g, k) ==> HeardOnce(link', g, k)
    ensures Heard(link', g, k) == Heard(link, g, k)
    ensures Fresh(link, a, g, k) ==> Fresh(link', a, g, k)
  {
  }

  lemma GoneStays(link: Link, link': Link, g: nat)
    requires Gone(link, g) && link.generation <= link'.generation && StaysDown(link, link')
    ensures Gone(link', g)
  {
  }

  predicate SameToken(a: Task, b: Task) {
    TokenOf(b) == TokenOf(a) && (TokenOf(a).Some? ==> GenerationOf(b) == GenerationOf(a))
  }

  lemma CallKeepsToken(t: TaskId, v: View, a: Task, v': View, b: Task, child: Option<Task>)
    requires (a.Ensure? || a.Write?) && Move(t, v, a, v', b, child)
    ensures SameToken(a, b)
  {
  }

  lemma TearKeepsToken(t: TaskId, v: View, a: Task, v': View, b: Task, child: Option<Task>)
    requires a.Tear? && Move(t, v, a, v', b, child)
    ensures SameToken(a, b)
  {
  }

  lemma AnswerKeepsToken(t: TaskId, v: View, a: Task, v': View, b: Task, child: Option<Task>)
    requires a.Answer? && Move(t, v, a, v', b, child)
    ensures SameToken(a, b)
  {
  }

  /** A task keeps its token, and only entry points begin replies. */
  lemma MoveKeepsToken(t: TaskId, v: View, a: Task, v': View, b: Task, child: Option<Task>)
    requires Move(t, v, a, v', b, child)
    ensures SameToken(a, b) && !a.Replied?
    ensures child.Some? ==> TokenOf(child.value).None?
  {
    if a.Ensure? || a.Write? {
      CallKeepsToken(t, v, a, v', b, child);
    } else if a.Tear? {
      TearKeepsToken(t, v, a, v', b, child);
    } else if a.Answer? {
      AnswerKeepsToken(t, v, a, v', b, child);
    }
  }

  lemma SendArrives(v: View, g: nat, k: Token, v': View, b: Task, t: TaskId)
    requires AnswerMove(t, v, g, k, ReplySend, v', b) && v.link.stdin == Some(g)
    requires HeardOnce(v.link, g, k) && Heard(v.link, g, k) == 0
    ensures HeardOnce(v'.link, g, k) && Accounts(b, k)
  {
    if g in v.link.processes {
      forall p: nat
        ensures Heard(v.link.Record(g, Received(Reply(g, k))), p, k) == Heard(v.link, p, k) + if p == g then 1 else 0
        ensures Heard(v.link.Record(g, Torn(Reply(g, k))), p, k) == Heard(v.link, p, k)
      {
        RecordHeard(v.link, g, Received(Reply(g, k)), k, p);
        RecordHeard(v.link, g, Torn(Reply(g, k)), k, p);
      }
    }
  }

  /** The reply arrived only if its generation is gone or the task accounts for it. */
  predicate InAccount(link: Link, a: Task, g: nat, k: Token) {
    Heard(link, g, k) == 0 || Gone(link, g) || Accounts(a, k)
  }

  /** A reply's own step: it sends only what has not arrived, and a failed one leaves its generation gone. */
  lemma ReplyStep(t: TaskId, v: View, a: Task, v': View, b: Task, g: nat, k: Token)
    requires ViewOk(v) && TaskOk(t, v, a) && Move(t, v, a, v', b, None)
    requires UnderWay(a, k) && GenerationOf(a) == g && HeardOnce(v.link, g, k) && Fresh(v.link, a, g, k)
    requires InAccount(v.link, a, g, k)
    ensures HeardOnce(v'.link, g, k) && Fresh(v'.link, b, g, k) && InAccount(v'.link, b, g, k)
  {
    if a.Answer? && a.reply.ReplySend? {
      SendArrives(v, g, k, v', b, t);
    } else {
      OtherMovesAreSilent(t, v, a, v', b, None, k);
      if a.Tear? {
        TearStep(t, v, a, v', b, g, k);
      } else {
        AnswerEnds(t, v, a.reply, v', b, g, k);
      }
    }
  }

  lemma TearStep(t: TaskId, v: View, a: Task, v': View, b: Task, g: nat, k: Token)
    requires ViewOk(v) && TaskOk(t, v, a) && Move(t, v, a, v', b, None) && Silent(v.link, v'.link, k)
    requires a.Tear? && UnderWay(a, k) && GenerationOf(a) == g && HeardOnce(v.link, g, k)
    ensures HeardOnce(v'.link, g, k) && Fresh(v'.link, b, g, k) && InAccount(v'.link, b, g, k)
  {
    MoveGuarantees(t, v, a, v', b, None);
    MoveKeepsTask(t, v, a, v', b, None);
    SilentKeeps(v.link, v'.link, g, k, b);
    TearEnds(t, v, a, v', b, g, k);
  }

  lemma TearEnds(t: TaskId, v: View, a: Task, v': View, b: Task, g: nat, k: Token)
    requires a.Tear? && UnderWay(a, k) && GenerationOf(a) == g && Move(t, v, a, v', b, None) && TaskOk(t, v', b)
    ensures Failing(b, k) || (b == Replied(g, k, Failed) && Gone(v'.link, g))
  {
  }

  lemma AnswerEnds(t: TaskId, v: View, stage: ReplyStage, v': View, b: Task, g: nat, k: Token)
    requires AnswerMove(t, v, g, k, stage, v', b) && !stage.ReplySend? && AnswerOk(v.link, g, stage)
    requires Fresh(v.link, Answer(g, k, stage), g, k)
    requires Heard(v.link, g, k) == 0 || Gone(v.link, g) || stage.ReplyFailed?
    ensures v'.link == v.link && Fresh(v.link, b, g, k)
    ensures Heard(v.link, g, k) == 0 || Gone(v.link, g) || Failing(b, k)
  {
  }

  /** Tasks but `t` are as before; a new one answers nothing. */
  ghost predicate OthersSame(tasks: map<TaskId, Task>, tasks': map<TaskId, Task>, t: TaskId) {
    && t in tasks && t in tasks'
    && (forall u :: u in tasks && u != t ==> u in tasks' && tasks'[u] == tasks[u])
    && (forall u :: u in tasks' && u !in tasks ==> TokenOf(tasks'[u]).None?)
  }

  lemma SingleStays(tasks: map<TaskId, Task>, tasks': map<TaskId, Task>, t: TaskId, g: nat, k: Token)
    requires Single(tasks, g, k) && OthersSame(tasks, tasks', t)
    requires TokenOf(tasks'[t]) == TokenOf(tasks[t])
    requires Replies(tasks[t], k) ==> UnderWay(tasks[t], k) && GenerationOf(tasks'[t]) == GenerationOf(tasks[t])
    ensures Single(tasks', g, k)
  {
    forall u | u in tasks' && Replies(tasks'[u], k) ensures u in tasks && Replies(tasks[u], k) && GenerationOf(tasks'[u]) == g {
    }
    forall u, w | u in tasks' && w in tasks' && UnderWay(tasks'[u], k) && Replies(tasks'[w], k) && !Spent(tasks'[w]) ensures w == u {
      assert u in tasks && UnderWay(tasks[u], k);
      assert w in tasks && Replies(tasks[w], k) && !Spent(tasks[w]);
    }
  }

  /** While a reply is under way, an arrival can only be gone or its own. */
  lemma OnlyItsOwn(s: State, t: TaskId, g: nat, k: Token)
    requires Single(s.tasks, g, k) && Explained(s, g, k) && t in s.tasks && UnderWay(s.tasks[t], k)
    ensures Heard(s.view.link, g, k) == 0 || Gone(s.view.link, g) || Failing(s.tasks[t], k)
  {
    if u :| u in s.tasks && Accounts(s.tasks[u], k) {
      assert Replies(s.tasks[u], k) && !Spent(s.tasks[u]);
    }
  }

  /** The other tasks have no reply under way, so they know nothing of arrivals. */
  lemma OthersAreSpent(s: State, s': State, t: TaskId, g: nat, k: Token)
    requires Single(s.tasks, g, k) && t in s.tasks && UnderWay(s.tasks[t], k) && OthersSame(s.tasks, s'.tasks, t)
    ensures forall u :: u in s'.tasks && u != t ==> Fresh(s'.view.link, s'.tasks[u], g, k)
  {
    forall u | u in s'.tasks && u != t ensures Fresh(s'.view.link, s'.tasks[u], g, k) {
      if u in s.tasks && Replies(s.tasks[u], k) {
        assert Spent(s.tasks[u]);
      }
    }
  }

  lemma OwnReplyStep(s: State, s': State, t: TaskId, g: nat, k: Token)
    requires Invariant(s) && OnceOnly(s, g, k) && t in s.tasks && t in s'.tasks && UnderWay(s.tasks[t], k)
    requires Move(t, s.view, s.tasks[t], s'.view, s'.tasks[t], None)
    ensures var link', b := s'.view.link, s'.tasks[t]; HeardOnce(link', g, k) && Fresh(link', b, g, k) && InAccount(link', b, g, k)
  {
    assert TaskOk(t, s.view, s.tasks[t]) && Fresh(s.view.link, s.tasks[t], g, k);
    OnlyItsOwn(s, t, g, k);
    ReplyStep(t, s.view, s.tasks[t], s'.view, s'.tasks[t], g, k);
  }

  lemma OwnStepKeeps(s: State, s': State, t: TaskId, g: nat, k: Token)
    requires Invariant(s) && OnceOnly(s, g, k) && t in s.tasks && UnderWay(s.tasks[t], k)
    requires OthersSame(s.tasks, s'.tasks, t) && Move(t, s.view, s.tasks[t], s'.view, s'.tasks[t], None)
    ensures OnceOnly(s', g, k)
  {
    OwnReplyStep(s, s', t, g, k);
    OthersAreSpent(s, s', t, g, k);
    MoveKeepsToken(t, s.view, s.tasks[t], s'.view, s'.tasks[t], None);
    SingleStays(s.tasks, s'.tasks, t, g, k);
  }

  lemma OtherStepKeeps(s: State, s': State, t: TaskId, child: Option<Task>, g: nat, k: Token)
    requires Invariant(s) && OnceOnly(s, g, k) && t in s.tasks && !Replies(s.tasks[t], k)
    requires OthersSame(s.tasks, s'.tasks, t) && Move(t, s.view, s.tasks[t], s'.view, s'.tasks[t], child)
    ensures OnceOnly(s', g, k)
  {
    var a, b := s.tasks[t], s'.tasks[t];
    assert TaskOk(t, s.view, a);
    MoveKeepsToken(t, s.view, a, s'.view, b, child);
    SingleStays(s.tasks, s'.tasks, t, g, k);
    OtherMovesAreSilent(t, s.view, a, s'.view, b, child, k);
    MoveGuarantees(t, s.view, a, s'.view, b, child);
    QuietStepKeeps(s, s', t, g, k);
  }

  lemma QuietStepKeeps(s: State, s': State, t: TaskId, g: nat, k: Token)
    requires OnceOnly(s, g, k) && Single(s'.tasks, g, k) && OthersSame(s.tasks, s'.tasks, t)
    requires !Replies(s.tasks[t], k) && !Replies(s'.tasks[t], k)
    requires Silent(s.view.link, s'.view.link, k)
    requires s.view.link.generation <= s'.view.link.generation && StaysDown(s.view.link, s'.view.link)
    ensures OnceOnly(s', g, k)
  {
    SilentKeeps(s.view.link, s'.view.link, g, k, s.tasks[t]);
    forall u | u in s'.tasks ensures Fresh(s'.view.link, s'.tasks[u], g, k) {
      if u in s.tasks && u != t {
        SilentKeeps(s.view.link, s'.view.link, g, k, s.tasks[u]);
      }
    }
    if Gone(s.view.link, g) {
      GoneStays(s.view.link, s'.view.link, g);
    } else if u :| u in s.tasks && Accounts(s.tasks[u], k) {
      assert u in s'.tasks && Accounts(s'.tasks[u], k);
    }
  }

  lemma BeginKeeps(s: State, s': State, t: TaskId, task: Task, g: nat, k: Token)
    requires OnceOnly(s, g, k) && StartStep(s, s', t, task) && (Replies(task, k) ==> MayBegin(s, g, k, task))
    ensures OnceOnly(s', g, k)
  {
    forall u | u in s'.tasks ensures Fresh(s'.view.link, s'.tasks[u], g, k) {
      if u != t {
        assert Fresh(s.view.link, s.tasks[u], g, k);
      }
    }
    if Heard(s.view.link, g, k) != 0 && !Gone(s.view.link, g) {
      var u :| u in s.tasks && Accounts(s.tasks[u], k);
      assert u in s'.tasks && Accounts(s'.tasks[u], k);
    }
  }

  lemma PipeStepKeeps(s: State, s': State, g: nat, k: Token)
    requires OnceOnly(s, g, k) && s'.tasks == s.tasks && Silent(s.view.link, s'.view.link, k)
    requires s'.view.link.generation == s.view.link.generation && StaysDown(s.view.link, s'.view.link)
    ensures OnceOnly(s', g, k)
  {
    forall u | u in s'.tasks ensures Fresh(s'.view.link, s'.tasks[u], g, k) {
      SilentKeeps(s.view.link, s'.view.link, g, k, s.tasks[u]);
    }
    SilentKeeps(s.view.link, s'.view.link, g, k, Finished);
    if Gone(s.view.link, g) {
      GoneStays(s.view.link, s'.view.link, g);
    }
  }

  lemma TaskMoveKeeps(s: State, s': State, t: TaskId, child: Option<Task>, g: nat, k: Token)
    requires Invariant(s) && OnceOnly(s, g, k) && t in s.tasks && OthersSame(s.tasks, s'.tasks, t)
    requires Move(t, s.view, s.tasks[t], s'.view, s'.tasks[t], child)
    ensures OnceOnly(s', g, k)
  {
    MoveKeepsToken(t, s.view, s.tasks[t], s'.view, s'.tasks[t], child);
    if Replies(s.tasks[t], k) {
      OwnStepKeeps(s, s', t, g, k);
    } else {
      OtherStepKeeps(s, s', t, child, g, k);
    }
  }

  lemma PipeMovesKeep(s: State, s': State, g: nat, k: Token)
    requires OnceOnly(s, g, k) && exists p: nat :: PipeStep(s, s', p)
    ensures OnceOnly(s', g, k)
  {
    var p: nat :| PipeStep(s, s', p);
    if ExitStep(s, s', p) {
      WordlessIsSilent(s.view.link, s'.view.link, k);
    } else {
      var id: RequestId, accepted: bool :| AnsweredStep(s, s', p, id, accepted);
      RecordIsSilent(s.view.link, p, Event.Answered(id, accepted), k);
    }
    PipeStepKeeps(s, s', g, k);
  }

  /** A process dies or answers. */
  ghost predicate PipeStep(s: State, s': State, p: nat) {
    ExitStep(s, s', p) || exists id: RequestId, accepted: bool :: AnsweredStep(s, s', p, id, accepted)
  }

  lemma StepKeepsOnce(states: seq<State>, i: nat, g: nat, k: Token)
    requires i + 1 < |states| && Next(states[i], states[i + 1]) && OneAtATime(states, g, k)
    requires Invariant(states[i]) && OnceOnly(states[i], g, k)
    ensures OnceOnly(states[i + 1], g, k)
  {
    var s, s' := states[i], states[i + 1];
    if t: TaskId :| TaskStep(s, s', t) {
      TaskMoveKeeps(s, s', t, None, g, k);
    } else if t: TaskId, r: TaskId :| SpawnStep(s, s', t, r) {
      SpawnKeepsOnce(s, s', t, r, g, k);
    } else if t: TaskId, task: Task :| StartStep(s, s', t, task) {
      assert StartStep(states[i], states[i + 1], t, task);
      BeginKeeps(s, s', t, task, g, k);
    } else if p: nat :| ExitStep(s, s', p) {
      assert PipeStep(s, s', p);
      PipeMovesKeep(s, s', g, k);
    } else {
      var p: nat, id: RequestId, accepted: bool :| AnsweredStep(s, s', p, id, accepted);
      assert PipeStep(s, s', p);
      PipeMovesKeep(s, s', g, k);
    }
  }

  lemma SpawnKeepsOnce(s: State, s': State, t: TaskId, r: TaskId, g: nat, k: Token)
    requires Invariant(s) && OnceOnly(s, g, k) && SpawnStep(s, s', t, r)
    ensures OnceOnly(s', g, k)
  {
    MoveKeepsToken(t, s.view, s.tasks[t], s'.view, s'.tasks[t], Some(s'.tasks[r]));
    TaskMoveKeeps(s, s', t, Some(s'.tasks[r]), g, k);
  }

  lemma RunStepKeepsOnce(states: seq<State>, i: nat, g: nat, k: Token)
    requires Run(states) && OneAtATime(states, g, k) && i + 1 < |states| && OnceOnly(states[i], g, k)
    ensures OnceOnly(states[i + 1], g, k)
  {
    RunsKeepInvariant(states, i);
    assert Steps(states, i);
    StepKeepsOnce(states, i, g, k);
  }

  lemma NothingHeardAtFirst(g: nat, k: Token)
    ensures OnceOnly(InitialState, g, k)
  {
  }

  lemma OnceOnlyThroughout(states: seq<State>, i: nat, g: nat, k: Token)
    requires Run(states) && OneAtATime(states, g, k) && i < |states|
    ensures OnceOnly(states[i], g, k)
  {
    NothingHeardAtFirst(g, k);
    for j := 0 to i
      invariant OnceOnly(states[j], g, k)
    {
      RunStepKeepsOnce(states, j, g, k);
    }
  }

  /**
   At most one reply to a request ever arrives, failed and retried replies included, as long as its
   replies are made one at a time: on the pipe of the process that asked, and on no other.
   */
  lemma RetriesNeverArriveTwice(states: seq<State>, i: nat, g: nat, k: Token, p: nat)
    requires Run(states) && OneAtATime(states, g, k) && i < |states| && p in states[i].view.link.processes
    ensures Arrivals(states[i].view.link.processes[p].history, k) <= if p == g then 1 else 0
  {
    OnceOnlyThroughout(states, i, g, k);
    assert Heard(states[i].view.link, p, k) == Arrivals(states[i].view.link.processes[p].history, k);
  }

  lemma TaskKeepsGone(s: State, s': State, t: TaskId, child: Option<Task>, g: nat)
    requires Invariant(s) && t in s.tasks && t in s'.tasks && Gone(s.view.link, g)
    requires Move(t, s.view, s.tasks[t], s'.view, s'.tasks[t], child)
    ensures Gone(s'.view.link, g)
  {
    assert TaskOk(t, s.view, s.tasks[t]);
    assert s.view.link.generation <= s'.view.link.generation && StaysDown(s.view.link, s'.view.link) by {
      MoveGuarantees(t, s.view, s.tasks[t], s'.view, s'.tasks[t], child);
    }
    GoneStays(s.view.link, s'.view.link, g);
  }

  lemma PipeKeepsGone(s: State, s': State, p: nat, g: nat)
    requires PipeStep(s, s', p) && Gone(s.view.link, g)
    ensures Gone(s'.view.link, g)
  {
    if !ExitStep(s, s', p) {
      var id: RequestId, accepted: bool :| AnsweredStep(s, s', p, id, accepted);
    }
  }

  lemma StepKeepsGone(s: State, s': State, g: nat)
    requires Invariant(s) && Next(s, s') && Gone(s.view.link, g)
    ensures Gone(s'.view.link, g)
  {
    if t: TaskId :| TaskStep(s, s', t) {
      TaskKeepsGone(s, s', t, None, g);
    } else if t: TaskId, r: TaskId :| SpawnStep(s, s', t, r) {
      TaskKeepsGone(s, s', t, Some(s'.tasks[r]), g);
    } else if t: TaskId, task: Task :| StartStep(s, s', t, task) {
      assert s'.view == s.view;
    } else if p: nat :| ExitStep(s, s', p) {
      assert PipeStep(s, s', p);
      PipeKeepsGone(s, s', p, g);
    } else {
      var p: nat, id: RequestId, accepted: bool :| AnsweredStep(s, s', p, id, accepted);
      assert PipeStep(s, s', p);
      PipeKeepsGone(s, s', p, g);
    }
  }

  lemma RunStepKeepsGone(states: seq<State>, j: nat, g: nat)
    requires Run(states) && 0 < j < |states|
    ensures Gone(states[j - 1].view.link, g) ==> Gone(states[j].view.link, g)
  {
    if Gone(states[j - 1].view.link, g) {
      assert Invariant(states[j - 1]) by {
        RunsKeepInvariant(states, j - 1);
      }
      assert Steps(states, j - 1);
      StepKeepsGone(states[j - 1], states[j], g);
    }
  }

  /** A generation that is superseded, or was connected and is no longer, stays so. */
  lemma GoneForGood(states: seq<State>, i: nat, j: nat, g: nat)
    requires Run(states) && i <= j < |states| && Gone(states[i].view.link, g)
    ensures Gone(states[j].view.link, g)
  {
    for k := i to j
      invariant Gone(states[k].view.link, g)
    {
      RunStepKeepsGone(states, k + 1, g);
    }
  }

  /** A reply that has failed for its caller has given its generation up. */
  lemma FailureGivesUpTheGeneration(states: seq<State>, i: nat, t: TaskId)
    requires Run(states) && i < |states| && t in states[i].tasks
    requires states[i].tasks[t].Replied? && states[i].tasks[t].end.Failed?
    ensures Gone(states[i].view.link, states[i].tasks[t].generation)
  {
    RunsKeepInvariant(states, i);
    assert TaskOk(t, states[i].view, states[i].tasks[t]);
  }
}
