/**
 What a request returns has a cause: a response that its reader delivered, a wait that ran out, or a
 connection that was seen to be lost; and what a waiter was told is what it returns.
 */
module ConnectionOutcomes {
  import opened Wrappers
  import opened Connection
  import opened ConnectionSafety
  import opened ConnectionTheorems
  import opened ConnectionReplies

  // ---- leaving the wait ----------------------------------------------------------------------

  predicate Waits(a: Task, id: RequestId) {
    a.Write? && a.write.Await? && JobId(a.job) == Some(id)
  }

  predicate Withdraws(a: Task, id: RequestId, o: Outcome) {
    a.Write? && a.write == Withdraw(o) && JobId(a.job) == Some(id)
  }

  lemma ToldWaiterReturns(s: State, s': State, t: TaskId, id: RequestId)
    requires Next(s, s') && t in s.tasks && t in s'.tasks && Waits(s.tasks[t], id)
    requires id in s.view.desk.inbox && s'.tasks[t] != s.tasks[t]
    ensures s'.view.desk.returned == s.view.desk.returned[id := s.view.desk.inbox[id]]
    ensures RequestOf(s'.tasks[t]).None?
  {
    assert Move(t, s.view, s.tasks[t], s'.view, s'.tasks[t], None) by {
      if u: TaskId :| TaskStep(s, s', u) {
        assert u == t;
      } else if u: TaskId, r: TaskId :| SpawnStep(s, s', u, r) {
        assert false;
      }
    }
  }

  /** A waiter whose outcome is there when it leaves its wait returns exactly that outcome, for good. */
  lemma WaitersReturnWhatTheyWereTold(states: seq<State>, i: nat, j: nat, t: TaskId, id: RequestId)
    requires Run(states) && i + 1 <= j < |states| && t in states[i].tasks && t in states[i + 1].tasks
    requires Waits(states[i].tasks[t], id) && id in states[i].view.desk.inbox && states[i + 1].tasks[t] != states[i].tasks[t]
    ensures id in states[j].view.desk.returned && states[j].view.desk.returned[id] == states[i].view.desk.inbox[id]
  {
    assert Steps(states, i);
    ToldWaiterReturns(states[i], states[i + 1], t, id);
    OneOutcome(states, i + 1, j, id);
  }

  // ---- where outcomes come from ----------------------------------------------------------------

  /** The reader of process `g` hands over an answer that the process gave. */
  ghost predicate Delivers(s: State, s': State, t: TaskId, id: RequestId, g: nat, accepted: bool) {
    && t in s.tasks && s.tasks[t] == Reader(g) && id in s.view.desk.pending
    && g in s.view.link.processes && Answered(id, accepted) in s.view.link.processes[g].history
  }

  /** The time of a wait is over while nothing has come. */
  predicate RunsOut(s: State, s': State, t: TaskId, id: RequestId) {
    && t in s.tasks && t in s'.tasks && Waits(s.tasks[t], id) && id !in s.view.desk.inbox && Withdraws(s'.tasks[t], id, TimedOut)
  }

  /** The client is not connected when the request is to be written, or its write has failed. */
  predicate FailsToWrite(s: State, s': State, t: TaskId, id: RequestId) {
    && t in s.tasks && t in s'.tasks && Withdraws(s'.tasks[t], id, ConnectionLost)
    && match s.tasks[t]
       case Write(job, Test) => !s.view.link.connected && JobId(job) == Some(id)
       case Tear(_, Release, AfterWrite(job, _)) => JobId(job) == Some(id)
       case _ => false
  }

  /** A teardown tells a waiter that it took out of the pending map. */
  predicate Tells(s: State, s': State, t: TaskId, id: RequestId) {
    t in s.tasks && s.tasks[t].Tear? && s.tasks[t].tear.Tell? && id in s.view.desk.taken
  }

  ghost predicate Caused(s: State, s': State, t: TaskId, id: RequestId, o: Outcome) {
    match o
    case Response(g, accepted) => Delivers(s, s', t, id, g, accepted)
    case TimedOut => RunsOut(s, s', t, id)
    case ConnectionLost => FailsToWrite(s, s', t, id) || Tells(s, s', t, id)
  }

  /** The outcome is about to be returned: it is in the inbox, or its request is being withdrawn with it. */
  ghost predicate Decided(s: State, t: TaskId, id: RequestId, o: Outcome) {
    || (id in s.view.desk.inbox && s.view.desk.inbox[id] == o)
    || (id in s.view.desk.returned && s.view.desk.returned[id] == o)
    || (t in s.tasks && Withdraws(s.tasks[t], id, o))
  }

  lemma WriteDecides(t: TaskId, v: View, job: Job, stage: WriteStage, v': View, b: Task, id: RequestId)
    requires WriteMove(t, v, job, stage, v', b)
    ensures v'.desk.inbox == v.desk.inbox
    ensures id in v'.desk.returned && (id in v.desk.returned ==> v'.desk.returned[id] != v.desk.returned[id]) ==>
              || (id in v.desk.inbox && v.desk.inbox[id] == v'.desk.returned[id])
              || Withdraws(Write(job, stage), id, v'.desk.returned[id])
  {
  }

  lemma WriteWithdraws(t: TaskId, v: View, job: Job, stage: WriteStage, v': View, b: Task, id: RequestId, o: Outcome)
    requires WriteMove(t, v, job, stage, v', b) && Withdraws(b, id, o)
    ensures JobId(job) == Some(id)
    ensures (stage.Await? && id !in v.desk.inbox && o.TimedOut?) || (stage.Test? && !v.link.connected && o.ConnectionLost?)
  {
  }

  lemma TearDecides(t: TaskId, v: View, scope: Scope, stage: TearStage, after: After, v': View, b: Task, id: RequestId, o: Outcome)
    requires TearMove(t, v, scope, stage, after, v', b)
    ensures v'.desk.returned == v.desk.returned
    ensures id in v'.desk.inbox && (id in v.desk.inbox ==> v'.desk.inbox[id] != v.desk.inbox[id]) ==>
              stage.Tell? && id in v.desk.taken && v'.desk.inbox[id] == ConnectionLost
    ensures Withdraws(b, id, o) ==> stage.Release? && after.AfterWrite? && JobId(after.job) == Some(id) && o == ConnectionLost
  {
  }

  lemma OthersDecideNothing(t: TaskId, v: View, a: Task, v': View, b: Task, child: Option<Task>)
    requires Move(t, v, a, v', b, child) && !a.Write? && !a.Tear? && !a.Reader?
    ensures v'.desk.inbox == v.desk.inbox && v'.desk.returned == v.desk.returned
    ensures !(b.Write? && b.write.Withdraw?)
  {
  }

  /** One move decides on an outcome only with its cause. */
  lemma MoveDecides(s: State, s': State, t: TaskId, child: Option<Task>, id: RequestId, o: Outcome)
    requires t in s.tasks && t in s'.tasks && Move(t, s.view, s.tasks[t], s'.view, s'.tasks[t], child)
    requires Decided(s', t, id, o) && !Decided(s, t, id, o)
    ensures Caused(s, s', t, id, o)
  {
    var v, a, v', b := s.view, s.tasks[t], s'.view, s'.tasks[t];
    match a
    case Write(job, stage) =>
      WriteDecides(t, v, job, stage, v', b, id);
      if Withdraws(b, id, o) {
        WriteWithdraws(t, v, job, stage, v', b, id, o);
      }
    case Tear(scope, stage, after) =>
      TearDecides(t, v, scope, stage, after, v', b, id, o);
    case Reader(g) =>
      if v'.desk.inbox != v.desk.inbox {
        var i: RequestId, accepted: bool :| ReaderDelivers(v, g, v', b, i, accepted);
      }
    case _ => OthersDecideNothing(t, v, a, v', b, child);
  }

  lemma QuietStepDecidesNothing(s: State, s': State, u: TaskId, id: RequestId, o: Outcome)
    requires (exists t: TaskId, task: Task :: StartStep(s, s', t, task)) || (exists p: nat :: PipeStep(s, s', p))
    requires Decided(s', u, id, o)
    ensures Decided(s, u, id, o)
  {
  }

  /** The task whose step made the difference. */
  lemma StepDecides(s: State, s': State, u: TaskId, id: RequestId, o: Outcome) returns (t: TaskId)
    requires Next(s, s') && Decided(s', u, id, o)
    ensures Decided(s, t, id, o) || Caused(s, s', t, id, o)
  {
    t := u;
    if w: TaskId :| TaskStep(s, s', w) {
      t := TaskStepDecides(s, s', w, None, u, id, o);
    } else if w: TaskId, r: TaskId :| SpawnStep(s, s', w, r) {
      t := TaskStepDecides(s, s', w, Some(s'.tasks[r]), u, id, o);
    } else if w: TaskId, task: Task :| StartStep(s, s', w, task) {
      QuietStepDecidesNothing(s, s', u, id, o);
    } else if p: nat :| ExitStep(s, s', p) {
      assert PipeStep(s, s', p);
      QuietStepDecidesNothing(s, s', u, id, o);
    } else {
      var p: nat, i: RequestId, accepted: bool :| AnsweredStep(s, s', p, i, accepted);
      assert PipeStep(s, s', p);
      QuietStepDecidesNothing(s, s', u, id, o);
    }
  }

  lemma TaskStepDecides(s: State, s': State, w: TaskId, child: Option<Task>, u: TaskId, id: RequestId, o: Outcome) returns (t: TaskId)
    requires w in s.tasks && w in s'.tasks && Move(w, s.view, s.tasks[w], s'.view, s'.tasks[w], child) && Decided(s', u, id, o)
    requires forall x :: x in s.tasks && x != w ==> x in s'.tasks && s'.tasks[x] == s.tasks[x]
    requires forall x :: x in s'.tasks && x !in s.tasks ==> s'.tasks[x].Reader?
    ensures Decided(s, t, id, o) || Caused(s, s', t, id, o)
  {
    t := if Decided(s, u, id, o) then u else w;
    if !Decided(s, u, id, o) && !Decided(s, w, id, o) {
      assert Decided(s', w, id, o);
      MoveDecides(s, s', w, child, id, o);
    }
  }

  lemma {:induction false} DecisionsHaveCauses(states: seq<State>, n: nat, u: TaskId, id: RequestId, o: Outcome) returns (i: nat, t: TaskId)
    requires Run(states) && n < |states| && Decided(states[n], u, id, o)
    ensures i < n && Caused(states[i], states[i + 1], t, id, o)
  {
    assert n > 0;
    assert Steps(states, n - 1);
    t := StepDecides(states[n - 1], states[n], u, id, o);
    if Decided(states[n - 1], t, id, o) {
      i, t := DecisionsHaveCauses(states, n - 1, t, id, o);
    } else {
      i := n - 1;
    }
  }

  /**
   Every outcome that a request returned has its cause earlier in the run: a response was delivered by
   the reader of the process that gave it, a timeout ran out while nothing had come, a loss was seen
   before the write, by the write, or told by a teardown.
   */
  lemma OutcomesHaveCauses(states: seq<State>, n: nat, id: RequestId) returns (i: nat, t: TaskId)
    requires Run(states) && n < |states| && id in states[n].view.desk.returned
    ensures i < n && Caused(states[i], states[i + 1], t, id, states[n].view.desk.returned[id])
  {
    i, t := DecisionsHaveCauses(states, n, 0, id, states[n].view.desk.returned[id]);
  }

  // ---- how replies end -------------------------------------------------------------------------

  /** The last thing that happened on the pipe of process `p`. */
  predicate JustHappened(link: Link, p: nat, e: Event) {
    p in link.processes && |link.processes[p].history| > 0 && link.processes[p].history[|link.processes[p].history| - 1] == e
  }

  /**
   A reply is reported as delivered when its frame has just gone into the pipe of its own process, as
   unsent when the client was found down or with another process, and as failed after it was begun.
   */
  predicate EndsReply(s: State, s': State, t: TaskId, g: nat, k: Token, end: ReplyEnd) {
    && t in s.tasks && t in s'.tasks && s'.tasks[t] == Replied(g, k, end)
    && match end
       case Delivered => s.tasks[t] == Answer(g, k, ReplySend) && JustHappened(s'.view.link, g, Received(Reply(g, k)))
       case Unsent =>
         || (s.tasks[t] == Answer(g, k, ReplyTestConnected) && !s.view.link.connected)
         || (s.tasks[t] == Answer(g, k, ReplyTestGeneration) && s.view.link.generation != g)
       case Failed =>
         || (s.tasks[t] == Answer(g, k, ReplyFailed) && s.view.link.generation != g)
         || s.tasks[t] == Tear(Only(g), Release, AfterReply(g, k))
  }

  lemma AnswerEnds(t: TaskId, v: View, g: nat, k: Token, stage: ReplyStage, v': View, b: Task) returns (p: nat)
    requires AnswerMove(t, v, g, k, stage, v', b) && b.Replied?
    ensures b.generation == g && b.token == k
    ensures b.end.Delivered? ==> stage.ReplySend? && JustHappened(v'.link, p, Received(Reply(g, k)))
    ensures b.end.Unsent? ==> (stage.ReplyTestConnected? && !v.link.connected) || (stage.ReplyTestGeneration? && v.link.generation != g)
    ensures b.end.Failed? ==> stage.ReplyFailed? && v.link.generation != g
  {
    p := v.link.stdin.GetOr(0);
  }

  lemma OthersEndNoReply(t: TaskId, v: View, a: Task, v': View, b: Task, child: Option<Task>)
    requires Move(t, v, a, v', b, child) && b.Replied? && !a.Answer?
    ensures a.Tear? && a.tear.Release? && a.after.AfterReply? && b == Replied(a.after.generation, a.after.token, Failed)
  {
  }

  lemma EndHasCause(states: seq<State>, n: nat, t: TaskId, child: Option<Task>)
    requires Run(states) && 0 < n < |states| && t in states[n - 1].tasks && t in states[n].tasks && states[n].tasks[t].Replied?
    requires Move(t, states[n - 1].view, states[n - 1].tasks[t], states[n].view, states[n].tasks[t], child)
    ensures var b := states[n].tasks[t]; EndsReply(states[n - 1], states[n], t, b.generation, b.token, b.end)
  {
    var v, a, v', b := states[n - 1].view, states[n - 1].tasks[t], states[n].view, states[n].tasks[t];
    if a.Answer? {
      var p := AnswerEnds(t, v, a.generation, a.token, a.reply, v', b);
      if b.end.Delivered? {
        RepliesStayInTheirGeneration(states, n, p, a.generation, a.token);
      }
    } else {
      OthersEndNoReply(t, v, a, v', b, child);
      RunsKeepInvariant(states, n - 1);
      assert TaskOk(t, v, a);
    }
  }

  /** Every reply that ended did so for its cause, earlier in the run. */
  lemma {:induction false} RepliesEndForACause(states: seq<State>, n: nat, t: TaskId) returns (i: nat)
    requires Run(states) && n < |states| && t in states[n].tasks && states[n].tasks[t].Replied?
    ensures i < n && EndsReply(states[i], states[i + 1], t, states[n].tasks[t].generation, states[n].tasks[t].token, states[n].tasks[t].end)
  {
    assert n > 0 && Steps(states, n - 1);
    var s, s' := states[n - 1], states[n];
    if t in s.tasks && s.tasks[t] == s'.tasks[t] {
      i := RepliesEndForACause(states, n - 1, t);
    } else {
      i := n - 1;
      if w: TaskId :| TaskStep(s, s', w) {
        assert w == t;
        EndHasCause(states, n, t, None);
      } else if w: TaskId, r: TaskId :| SpawnStep(s, s', w, r) {
        assert s'.tasks[r].Reader?;
        assert w == t;
        EndHasCause(states, n, t, Some(s'.tasks[r]));
      }
    }
  }
}
