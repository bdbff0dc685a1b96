/**
 What every run of the connection protocol satisfies, whatever the interleaving.
 */
module ConnectionTheorems {
  import opened Wrappers
  import opened Connection
  import opened ConnectionSafety

  /** At most one process the client has not killed is alive. */
  lemma AtMostOneChild(states: seq<State>, i: nat, p: nat, q: nat)
    requires Run(states) && i < |states|
    requires p in states[i].view.link.processes && states[i].view.link.processes[p].alive
    requires q in states[i].view.link.processes && states[i].view.link.processes[q].alive
    ensures p == q
  {
    RunsKeepInvariant(states, i);
  }

  /** While connected, the generation, the stdin slot and the child slot name the same process. */
  lemma ConnectedIsOneProcess(states: seq<State>, i: nat)
    requires Run(states) && i < |states| && states[i].view.link.connected
    ensures var link := states[i].view.link;
            && link.generation in link.processes
            && link.stdin == Some(link.generation) && link.child == Some(link.generation)
  {
    RunsKeepInvariant(states, i);
  }

  /** An initialized generation is a process that answered `initialize` and was sent `initialized` after that. */
  lemma InitializedMeansHandshake(states: seq<State>, i: nat)
    requires Run(states) && i < |states| && states[i].view.link.initialized != 0
    ensures var link := states[i].view.link;
            link.initialized in link.processes && HandshakeDone(link.processes[link.initialized].history)
  {
    RunsKeepInvariant(states, i);
  }

  /** Not one byte of a reply bound to generation `g` reaches any process but the one spawned as `g`. */
  lemma RepliesStayInTheirGeneration(states: seq<State>, i: nat, p: nat, g: nat, k: Token)
    requires Run(states) && i < |states| && p in states[i].view.link.processes
    requires var h := states[i].view.link.processes[p].history; Received(Reply(g, k)) in h || Torn(Reply(g, k)) in h
    ensures p == g
  {
    RunsKeepInvariant(states, i);
    var h := states[i].view.link.processes[p].history;
    assert RepliesBound(p, h);
    if Received(Reply(g, k)) in h {
      assert !Received(Reply(g, k)).Answered?;
    } else {
      assert !Torn(Reply(g, k)).Answered?;
    }
  }

  /** A `lose_connection(g)` that finds a newer generation changes neither the connection nor any waiter. */
  lemma StaleLossChangesNothing(states: seq<State>, i: nat, t: TaskId)
    requires Run(states) && i + 1 < |states| && TaskStep(states[i], states[i + 1], t)
    requires states[i].tasks[t].Tear? && states[i].tasks[t].scope.Only?
    requires states[i].tasks[t].scope.g < states[i].view.link.generation
    ensures states[i + 1].view.link == states[i].view.link && states[i + 1].view.desk == states[i].view.desk
  {
    RunsKeepInvariant(states, i);
  }

  lemma StaleAnswer(t: TaskId, v: View, g: nat, k: Token, stage: ReplyStage, v': View, b: Task)
    requires AnswerOk(v.link, g, stage) && AnswerMove(t, v, g, k, stage, v', b) && g != v.link.generation
    ensures v'.desk == v.desk && v'.link == v.link.(processes := v'.link.processes) && !b.Tear?
    ensures v'.link.processes.Keys == v.link.processes.Keys
    ensures forall p :: p in v.link.processes && p != g ==> v'.link.processes[p] == v.link.processes[p]
  {
  }

  /** A reply task for an older generation can change nothing but that generation's own pipe. */
  lemma StaleReplyChangesNothing(states: seq<State>, i: nat, t: TaskId)
    requires Run(states) && i + 1 < |states| && TaskStep(states[i], states[i + 1], t)
    requires states[i].tasks[t].Answer? && states[i].tasks[t].generation < states[i].view.link.generation
    ensures var g, link, link' := states[i].tasks[t].generation, states[i].view.link, states[i + 1].view.link;
            && states[i + 1].view.desk == states[i].view.desk
            && link' == link.(processes := link'.processes) && link'.processes.Keys == link.processes.Keys
            && (forall p :: p in link.processes && p != g ==> link'.processes[p] == link.processes[p])
            && !states[i + 1].tasks[t].Tear?
  {
    RunsKeepInvariant(states, i);
    var a := states[i].tasks[t];
    StaleAnswer(t, states[i].view, a.generation, a.token, a.reply, states[i + 1].view, states[i + 1].tasks[t]);
  }

  /** A teardown has cleared `connected` and is on its way to `fail_pending`. */
  ghost predicate DrainAhead(s: State) {
    exists t :: t in s.tasks && s.tasks[t].Tear? && (s.tasks[t].tear.Uninitialize? || s.tasks[t].tear.Drain?)
  }

  /**
   No waiter is orphaned: a request that saw `connected` is in the pending map only while that very
   generation is connected or is about to be drained.
   */
  lemma NoOrphanedWaiter(states: seq<State>, i: nat, t: TaskId, id: RequestId)
    requires Run(states) && i < |states| && t in states[i].tasks
    requires RequestOf(states[i].tasks[t]) == Some(id) && EpochOf(states[i].tasks[t]).Some?
    requires id in states[i].view.desk.pending
    ensures EpochOf(states[i].tasks[t]).value == states[i].view.link.generation
    ensures states[i].view.link.connected || DrainAhead(states[i])
  {
    RunsKeepInvariant(states, i);
    var s := states[i];
    assert TaskOk(t, s.view, s.tasks[t]);
    if !s.view.link.connected {
      var u := s.view.locks.lifecycle.value;
      assert TaskOk(u, s.view, s.tasks[u]);
      assert s.tasks[u].Tear? && (s.tasks[u].tear.Uninitialize? || s.tasks[u].tear.Drain?);
    }
  }

  /**
   A waiting request is in the pending map, or its channel has been used, or a teardown that is
   telling the waiters has its sender: the channel never just closes.
   */
  lemma WaitersAreKnown(states: seq<State>, i: nat, t: TaskId)
    requires Run(states) && i < |states| && t in states[i].tasks
    requires states[i].tasks[t].Write? && states[i].tasks[t].write.Await?
    ensures JobId(states[i].tasks[t].job).Some?
    ensures var id, desk := JobId(states[i].tasks[t].job).value, states[i].view.desk;
            && (id in desk.pending || id in desk.inbox || (id in desk.taken && TellingIsAhead(states[i])))
            && !(id in desk.pending && id in desk.inbox) && !(id in desk.taken && (id in desk.pending || id in desk.inbox))
  {
    RunsKeepInvariant(states, i);
    var s := states[i];
    assert TaskOk(t, s.view, s.tasks[t]);
    if s.view.desk.taken != {} {
      var u := s.view.locks.lifecycle.value;
      assert TaskOk(u, s.view, s.tasks[u]);
    }
  }

  /** A teardown is going through the waiters it took. */
  ghost predicate TellingIsAhead(s: State) {
    exists t :: t in s.tasks && s.tasks[t].Tear? && s.tasks[t].tear.Tell?
  }

  /** Every pending id belongs to a request that is still running, and to one task only. */
  lemma PendingIsOwned(states: seq<State>, i: nat, id: RequestId)
    requires Run(states) && i < |states| && id in states[i].view.desk.pending
    ensures id !in states[i].view.desk.returned
    ensures exists t :: t in states[i].tasks && RequestOf(states[i].tasks[t]) == Some(id) &&
              forall u :: u in states[i].tasks && RequestOf(states[i].tasks[u]) == Some(id) ==> u == t
  {
    RunsKeepInvariant(states, i);
    var s := states[i];
    var t := s.view.desk.owner[id];
    assert t in s.tasks && RequestOf(s.tasks[t]) == Some(id);
    forall u | u in s.tasks && RequestOf(s.tasks[u]) == Some(id) ensures u == t {
      assert TaskOk(u, s.view, s.tasks[u]);
    }
  }

  ghost predicate HistoryKept(v: View, v': View) {
    && v.link.generation <= v'.link.generation && Grown(v.link, v'.link)
    && (forall id :: id in v.desk.returned ==> id in v'.desk.returned && v'.desk.returned[id] == v.desk.returned[id])
    && (forall id :: id in v.desk.inbox ==> id in v'.desk.inbox && v'.desk.inbox[id] == v.desk.inbox[id])
  }

  lemma MoveKeepsHistory(t: TaskId, v: View, a: Task, v': View, b: Task, child: Option<Task>)
    requires ViewOk(v) && TaskOk(t, v, a) && Move(t, v, a, v', b, child)
    ensures HistoryKept(v, v')
  {
    assert Guarantee(t, v, a, v') by { MoveGuarantees(t, v, a, v', b, child); }
    assert OwnersKept(t, v.desk, a, v'.desk, b) by { MoveKeepsOwners(t, v, a, v', b, child); }
  }

  lemma TaskStepKeepsHistory(s: State, s': State, t: TaskId, child: Option<Task>)
    requires Invariant(s) && t in s.tasks && t in s'.tasks
    requires Move(t, s.view, s.tasks[t], s'.view, s'.tasks[t], child)
    ensures HistoryKept(s.view, s'.view)
  {
    assert TaskOk(t, s.view, s.tasks[t]);
    MoveKeepsHistory(t, s.view, s.tasks[t], s'.view, s'.tasks[t], child);
  }

  lemma ExitKeepsHistory(s: State, s': State, p: nat)
    requires ExitStep(s, s', p)
    ensures HistoryKept(s.view, s'.view)
  {
  }

  lemma AnsweredKeepsHistory(s: State, s': State, p: nat, id: RequestId, accepted: bool)
    requires AnsweredStep(s, s', p, id, accepted)
    ensures HistoryKept(s.view, s'.view)
  {
  }

  lemma StepKeepsHistory(s: State, s': State)
    requires Invariant(s) && Next(s, s')
    ensures HistoryKept(s.view, s'.view)
  {
    if t: TaskId :| TaskStep(s, s', t) {
      TaskStepKeepsHistory(s, s', t, None);
    } else if t: TaskId, r: TaskId :| SpawnStep(s, s', t, r) {
      TaskStepKeepsHistory(s, s', t, Some(s'.tasks[r]));
    } else if t: TaskId, task: Task :| StartStep(s, s', t, task) {
    } else if p: nat :| ExitStep(s, s', p) {
      ExitKeepsHistory(s, s', p);
    } else {
      var p: nat, id: RequestId, accepted: bool :| AnsweredStep(s, s', p, id, accepted);
      AnsweredKeepsHistory(s, s', p, id, accepted);
    }
  }

  lemma GrownChains(a: Link, b: Link, c: Link)
    requires Grown(a, b) && Grown(b, c)
    ensures Grown(a, c)
  {
    forall p | p in a.processes ensures p in c.processes && a.processes[p].history <= c.processes[p].history {
      assert p in b.processes;
    }
  }

  lemma HistoryChains(a: View, b: View, c: View)
    requires HistoryKept(a, b) && HistoryKept(b, c)
    ensures HistoryKept(a, c)
  {
    GrownChains(a.link, b.link, c.link);
  }

  lemma RunStepKeepsHistory(states: seq<State>, j: nat)
    requires Run(states) && 0 < j < |states|
    ensures HistoryKept(states[j - 1].view, states[j].view)
  {
    RunsKeepInvariant(states, j - 1);
    assert Steps(states, j - 1);
    StepKeepsHistory(states[j - 1], states[j]);
  }

  lemma HistoryOfNothing(v: View)
    ensures HistoryKept(v, v)
  {
  }

  /** Generations never fall, pipes are never rewritten, and no outcome is ever changed. */
  lemma {:induction false} HistoryIsKept(states: seq<State>, i: nat, j: nat)
    requires Run(states) && i <= j < |states|
    ensures HistoryKept(states[i].view, states[j].view)
  {
    if i == j {
      HistoryOfNothing(states[i].view);
    } else {
      assert HistoryKept(states[i].view, states[j - 1].view) by {
        HistoryIsKept(states, i, j - 1);
      }
      assert HistoryKept(states[j - 1].view, states[j].view) by {
        RunStepKeepsHistory(states, j);
      }
      HistoryChains(states[i].view, states[j - 1].view, states[j].view);
    }
  }

  /** A request returns once: its outcome stays, and its id is out of the pending map for good. */
  lemma OneOutcome(states: seq<State>, i: nat, j: nat, id: RequestId)
    requires Run(states) && i <= j < |states| && id in states[i].view.desk.returned
    ensures id in states[j].view.desk.returned && states[j].view.desk.returned[id] == states[i].view.desk.returned[id]
    ensures id !in states[j].view.desk.pending
    ensures forall t :: t in states[j].tasks ==> RequestOf(states[j].tasks[t]) != Some(id)
  {
    HistoryIsKept(states, i, j);
    RunsKeepInvariant(states, j);
    forall t | t in states[j].tasks ensures RequestOf(states[j].tasks[t]) != Some(id) {
      assert TaskOk(t, states[j].view, states[j].tasks[t]);
    }
  }

  /** A response comes from a process that was sent the request and then answered it; no other process saw it. */
  lemma ResponsesAreGenuine(states: seq<State>, i: nat, id: RequestId)
    requires Run(states) && i < |states| && id in states[i].view.desk.returned
    requires states[i].view.desk.returned[id].Response?
    ensures var Response(p, accepted) := states[i].view.desk.returned[id];
            var processes := states[i].view.link.processes;
            && p in processes
            && (exists k, j, b :: 0 <= k < j < |processes[p].history|
                               && processes[p].history[k] == Received(Request(id, b))
                               && processes[p].history[j] == Event.Answered(id, accepted))
            && (forall q, b :: q in processes && Received(Request(id, b)) in processes[q].history ==> q == p)
  {
    RunsKeepInvariant(states, i);
    var v := states[i].view;
    var Response(p, accepted) := v.desk.returned[id];
    assert GenuineAnswer(v.link, id, v.desk.returned[id]);
    var h := v.link.processes[p].history;
    var j :| 0 <= j < |h| && h[j] == Event.Answered(id, accepted);
    assert h[j].Answered?;
    var k, b :| 0 <= k < j && h[k] == Received(Request(h[j].id, b));
    assert Received(Request(id, b)) in h;
    forall q, c | q in v.link.processes && Received(Request(id, c)) in v.link.processes[q].history ensures q == p {
      assert PipeOk(q, v.link.processes[q].history, v.desk.sent);
      assert PipeOk(p, h, v.desk.sent);
    }
  }
}
