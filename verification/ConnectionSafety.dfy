/**
 One inductive invariant of the connection protocol, and what it gives for every run.

 The invariant has a part for the shared memory and one for every task. `SlotsOk` says which process
 the generation, the stdin slot, the child slot and the hands of a spawn or a teardown can name, and
 what is free when the lifecycle lock is. `TrafficOk` says of every pipe that answers follow their
 requests, that replies are on the pipe of their own generation and that `sent` has every request;
 and of every outcome that it was really given. `TaskOk` is what one task may count on at its stage:
 the locks it holds, the facts about the connection that those locks freeze, the state of its own
 request, and that a request which saw `connected` is of the current generation or about to be drained.

 The proof is by rely and guarantee: `Guarantee` bounds what a move changes, `Rely` is how the others
 may change the view behind a task's back, the first gives the second for all other tasks
 (`OthersMayRely`), what a task counts on survives it (`TaskStable`), and every move keeps both parts.
 */
module ConnectionSafety {
  import opened Wrappers
  import opened Connection

  // ---- what a task holds -----------------------------------------------------------------

  predicate HoldsConnect(a: Task) {
    match a
    case Ensure(stage) => !stage.Start? && !stage.WantConnect? && !stage.Ready?
    case Write(job, _) => UnderConnectLock(job)
    case Tear(_, _, AfterWrite(job, _)) => UnderConnectLock(job)
    case _ => false
  }

  predicate HoldsLifecycle(a: Task) {
    match a
    case Ensure(stage) =>
      || stage.TakePrevious? || stage.KillPrevious? || stage.Fork?
      || stage.PutStdin? || stage.PutChild? || stage.Publish? || stage.StartReader?
    case Tear(_, stage, _) => !stage.WantLifecycle?
    case _ => false
  }

  predicate HoldsStdin(a: Task) {
    match a
    case Write(_, stage) => stage.HoldStdin?
    case Answer(_, _, stage) => stage.ReplyHoldStdin? || stage.ReplyRetest? || stage.ReplySend?
    case _ => false
  }

  function RequestOf(a: Task): Option<RequestId> {
    match a
    case Write(job, _) => JobId(job)
    case Tear(_, _, AfterWrite(job, _)) => JobId(job)
    case _ => None
  }

  /** The generation under which a task last saw `connected`, once it has. */
  function EpochOf(a: Task): Option<nat> {
    match a
    case Write(_, Stamp(e)) => Some(e)
    case Write(_, WantStdin(e, _)) => Some(e)
    case Write(_, HoldStdin(e, _)) => Some(e)
    case Write(_, Await(e)) => Some(e)
    case Tear(_, _, AfterWrite(_, e)) => Some(e)
    case _ => None
  }

  predicate MayStillSend(a: Task) {
    a.Write? && !a.write.Await? && !a.write.Withdraw?
  }

  // ---- what went through the pipes ---------------------------------------------------------

  ghost predicate InitializeAnswered(h: seq<Event>) {
    exists i, j, id :: 0 <= i < j < |h| && h[i] == Received(Request(id, true)) && h[j] == Answered(id, true)
  }

  /** `initialize` was received, then answered, and `initialized` was received after that. */
  ghost predicate HandshakeDone(h: seq<Event>) {
    exists k :: 0 <= k < |h| && h[k] == Received(Initialized) && InitializeAnswered(h[..k])
  }

  /** A process answers only what it has received. */
  ghost predicate Honest(h: seq<Event>) {
    forall j :: 0 <= j < |h| && h[j].Answered? ==>
      exists i, b :: 0 <= i < j && h[i] == Received(Request(h[j].id, b))
  }

  /** Replies for a generation reach only the process of that generation, even in part. */
  ghost predicate RepliesBound(p: nat, h: seq<Event>) {
    forall e :: e in h && !e.Answered? && e.frame.Reply? ==> e.frame.generation == p
  }

  ghost predicate RequestsLogged(p: nat, h: seq<Event>, sent: map<RequestId, (nat, bool)>) {
    forall id, b :: Received(Request(id, b)) in h ==> id in sent && sent[id] == (p, b)
  }

  ghost predicate PipeOk(p: nat, h: seq<Event>, sent: map<RequestId, (nat, bool)>) {
    Honest(h) && RepliesBound(p, h) && RequestsLogged(p, h, sent)
  }

  ghost predicate Pipes(link: Link, desk: Desk) {
    forall p :: p in link.processes ==> PipeOk(p, link.processes[p].history, desk.sent)
  }

  ghost predicate Genuine(link: Link, outcomes: map<RequestId, Outcome>) {
    forall id :: id in outcomes && outcomes[id].Response? ==> GenuineAnswer(link, id, outcomes[id])
  }

  /** The response really was given by the process it is said to come from. */
  ghost predicate GenuineAnswer(link: Link, id: RequestId, o: Outcome)
    requires o.Response?
  {
    o.from in link.processes && Answered(id, o.accepted) in link.processes[o.from].history
  }

  // ---- the invariant, memory by memory -----------------------------------------------------

  ghost predicate LinkOk(link: Link) {
    && (forall p :: p in link.processes <==> 1 <= p <= link.generation)
    && (link.stdin.Some? ==> link.stdin.value in link.processes)
    && (link.connected ==> 1 <= link.generation && link.stdin == Some(link.generation) && link.child == Some(link.generation))
    && (forall p :: p in link.processes && link.processes[p].alive ==> link.child == Some(p) || link.hand == Some(p))
    && (link.hand.Some? ==> link.child.None?)
    && link.published <= link.generation && (link.connected ==> link.published == link.generation)
  }

  /** No reply for this generation can be sent any more: it is superseded, or was connected and is no longer. */
  predicate Gone(link: Link, g: nat) {
    g < link.generation || (g == link.generation == link.published && !link.connected)
  }

  ghost predicate HandshakeOk(link: Link) {
    link.initialized != 0 ==>
      link.initialized in link.processes && HandshakeDone(link.processes[link.initialized].history)
  }

  ghost predicate DeskOk(desk: Desk) {
    && 1 <= desk.nextId
    && (forall id :: id in desk.owner <==> 1 <= id < desk.nextId)
    && desk.pending <= desk.owner.Keys && desk.inbox.Keys <= desk.owner.Keys && desk.taken <= desk.owner.Keys
    && desk.returned.Keys <= desk.owner.Keys && desk.sent.Keys <= desk.owner.Keys
    && desk.pending !! desk.inbox.Keys && desk.pending !! desk.returned.Keys
    && desk.taken !! desk.pending && desk.taken !! desk.inbox.Keys
  }

  ghost predicate SlotsOk(v: View) {
    && LinkOk(v.link)
    && (v.locks.lifecycle.None? ==>
          v.link.hand.None? && !v.link.draining && v.link.published == v.link.generation && v.desk.taken == {})
  }

  ghost predicate TrafficOk(link: Link, desk: Desk) {
    && HandshakeOk(link) && DeskOk(desk) && Pipes(link, desk)
    && Genuine(link, desk.inbox) && Genuine(link, desk.returned)
  }

  ghost predicate ViewOk(v: View) {
    SlotsOk(v) && TrafficOk(v.link, v.desk)
  }

  // ---- the invariant, task by task ---------------------------------------------------------

  ghost predicate LocksOk(t: TaskId, locks: Locks, a: Task) {
    && (HoldsConnect(a) <==> locks.connect == Some(t))
    && (HoldsLifecycle(a) <==> locks.lifecycle == Some(t))
    && (HoldsStdin(a) <==> locks.stdin == Some(t))
  }

  /** The connect lock pins the generation, so the stdin slot can only hold that process or nothing. */
  ghost predicate Bound(link: Link, g: nat) {
    g == link.generation && g in link.processes && (link.stdin.None? || link.stdin == Some(g))
  }

  ghost predicate EnsureOk(link: Link, stage: EnsureStage) {
    var idle := link.hand.None? && !link.draining && !link.connected;
    match stage
    case LoadGeneration => Bound(link, link.generation)
    case WantSpawn => !link.connected
    case TakePrevious => idle && link.published == link.generation
    case KillPrevious(p) =>
      && !link.connected && !link.draining && link.child.None? && link.hand == Some(p) && link.published == link.generation
    case Fork => idle && link.child.None? && link.published == link.generation
    case PutStdin(g) =>
      && !link.connected && !link.draining && link.hand == Some(g) && g == link.generation && g in link.processes
      && link.published < g
    case PutChild(g) =>
      && !link.connected && !link.draining && link.hand == Some(g) && g == link.generation && g in link.processes
      && link.stdin == Some(g) && link.published < g
    case Publish(g) => idle && Bound(link, g) && link.stdin == Some(g) && link.child == Some(g) && link.published < g
    case StartReader(g) => link.hand.None? && !link.draining && Bound(link, g) && link.published == g
    case TestInitialized(g) => Bound(link, g)
    case StoreInitialized(g) => Bound(link, g) && HandshakeDone(link.processes[g].history)
    case _ => true
  }

  ghost predicate JobOk(link: Link, job: Job) {
    match job
    case Initialize(_, g) => Bound(link, g)
    case Acknowledge(g) => Bound(link, g) && InitializeAnswered(link.processes[g].history)
    case _ => true
  }

  ghost predicate AnswerOk(link: Link, g: nat, stage: ReplyStage) {
    match stage
    case ReplyWantStdin => g <= link.generation
    case ReplyHoldStdin => g <= link.generation
    case ReplyRetest => g <= link.generation && (link.generation == g ==> link.stdin == Some(g))
    case ReplySend => g <= link.generation && link.stdin == Some(g)
    case ReplyFailed => g <= link.generation
    case _ => true
  }

  ghost predicate TearOk(link: Link, scope: Scope, stage: TearStage) {
    && (scope.Only? && !stage.WantLifecycle? && !stage.CheckGeneration? && !stage.Release? ==> link.generation == scope.g)
    && (!stage.WantLifecycle? ==> link.published == link.generation)
    && match stage
       case WantLifecycle => true
       case CheckGeneration => link.hand.None? && !link.draining
       case Unset => link.hand.None? && !link.draining
       case Uninitialize => link.hand.None? && link.draining && !link.connected
       case Drain => link.hand.None? && link.draining && !link.connected
       case Tell => link.hand.None? && !link.draining && !link.connected
       case TakeChild => link.hand.None? && !link.draining && !link.connected
       case Kill(p) => link.hand == Some(p) && !link.draining && !link.connected
       case DropStdin => link.hand.None? && !link.draining && !link.connected
       case Release => link.hand.None? && !link.draining && (scope.Only? && scope.g == link.generation ==> !link.connected)
  }

  ghost predicate AfterOk(link: Link, scope: Scope, after: After) {
    match after
    case AfterWrite(job, _) => JobOk(link, job)
    case AfterReply(g, _) => scope == Only(g) && g <= link.generation
    case _ => true
  }

  ghost predicate StageOk(link: Link, a: Task) {
    match a
    case Ensure(stage) => EnsureOk(link, stage)
    case Write(job, stage) =>
      && JobOk(link, job)
      && (stage.Enroll? || stage.Await? || stage.Withdraw? ==> JobId(job).Some?)
      && (stage.Withdraw? ==> !stage.outcome.Response?)
    case Answer(g, _, stage) => AnswerOk(link, g, stage)
    case Replied(g, _, end) => end.Failed? ==> Gone(link, g)
    case Tear(scope, stage, after) => TearOk(link, scope, stage) && AfterOk(link, scope, after)
    case _ => true
  }

  predicate InitializeFor(a: Task, id: RequestId, g: nat) {
    || (a.Write? && a.job == Initialize(id, g))
    || (a.Tear? && a.after.AfterWrite? && a.after.job == Initialize(id, g))
  }

  /** The request's sender is in the map, or was taken out to be told, or has been used. */
  predicate Enrolled(desk: Desk, id: RequestId) {
    id in desk.pending || id in desk.taken || id in desk.inbox
  }

  ghost predicate RequestOk(t: TaskId, desk: Desk, a: Task) {
    RequestOf(a).Some? ==>
      var id := RequestOf(a).value;
      && id in desk.owner && desk.owner[id] == t && id !in desk.returned
      && (if a.Write? && a.write.Enroll? then !Enrolled(desk, id) else Enrolled(desk, id))
      && (MayStillSend(a) ==> id !in desk.sent)
      && (id in desk.sent ==> forall g: nat :: InitializeFor(a, id, g) ==> desk.sent[id] == (g, true))
  }

  /** A waiter that saw `connected` is still of this generation, unless it is about to be drained. */
  ghost predicate WaitOk(v: View, a: Task) {
    RequestOf(a).Some? && EpochOf(a).Some? && RequestOf(a).value in v.desk.pending ==>
      EpochOf(a).value == v.link.generation && (v.link.connected || v.link.draining)
  }

  /** Only a teardown that is telling them has taken any waiters. */
  predicate TellOk(desk: Desk, a: Task) {
    HoldsLifecycle(a) && !(a.Tear? && a.tear.Tell?) ==> desk.taken == {}
  }

  ghost predicate TaskOk(t: TaskId, v: View, a: Task) {
    LocksOk(t, v.locks, a) && StageOk(v.link, a) && RequestOk(t, v.desk, a) && WaitOk(v, a) && TellOk(v.desk, a)
  }

  /** Every request id in use belongs to a task that has not returned yet. */
  ghost predicate Owned(s: State) {
    forall id :: id in s.view.desk.owner && id !in s.view.desk.returned ==>
      var t := s.view.desk.owner[id];
      t in s.tasks && RequestOf(s.tasks[t]) == Some(id)
  }

  predicate HeldBy(locks: Locks, tasks: set<TaskId>) {
    && (locks.connect.Some? ==> locks.connect.value in tasks)
    && (locks.lifecycle.Some? ==> locks.lifecycle.value in tasks)
    && (locks.stdin.Some? ==> locks.stdin.value in tasks)
  }

  ghost predicate HeldByTasks(s: State) {
    HeldBy(s.view.locks, s.tasks.Keys)
  }

  ghost predicate Invariant(s: State) {
    ViewOk(s.view) && Owned(s) && HeldByTasks(s) && forall t :: t in s.tasks ==> TaskOk(t, s.view, s.tasks[t])
  }

  // ---- the invariant holds throughout ------------------------------------------------------

  lemma StartIsOk()
    ensures Invariant(InitialState)
  {
  }

  lemma RunStepKeepsInvariant(states: seq<State>, i: nat)
    requires Run(states) && i + 1 < |states| && Invariant(states[i])
    ensures Invariant(states[i + 1])
  {
    assert Steps(states, i);
    StepKeeps(states[i], states[i + 1]);
  }

  /** The invariant holds in every state of every interleaving. */
  lemma RunsKeepInvariant(states: seq<State>, i: nat)
    requires Run(states) && i < |states|
    ensures Invariant(states[i])
  {
    StartIsOk();
    for j := 0 to i
      invariant Invariant(states[j])
    {
      RunStepKeepsInvariant(states, j);
    }
  }

  // ---- rely: what the others may change ------------------------------------------------------

  ghost predicate Grown(link: Link, link': Link) {
    forall p :: p in link.processes ==>
      p in link'.processes && link.processes[p].history <= link'.processes[p].history
  }

  /** A generation that lost its connection does not get it back. */
  predicate StaysDown(link: Link, link': Link) {
    link.generation == link.published && !link.connected && link'.generation == link.generation ==>
      link'.published == link.published && !link'.connected
  }

  ghost predicate LinkRely(link: Link, link': Link, a: Task) {
    && link.generation <= link'.generation && Grown(link, link') && StaysDown(link, link')
    && (HoldsConnect(a) ==>
          && link'.generation == link.generation && (link'.connected ==> link.connected)
          && (link'.stdin == link.stdin || link'.stdin.None?))
    && (HoldsLifecycle(a) ==>
          && link'.generation == link.generation && link'.connected == link.connected && link'.stdin == link.stdin
          && link'.child == link.child && link'.hand == link.hand && link'.draining == link.draining
          && link'.published == link.published)
    && (HoldsStdin(a) ==> link'.stdin == link.stdin)
  }

  ghost predicate DeskRely(desk: Desk, desk': Desk, id: RequestId)
    requires id in desk.owner
  {
    && id in desk'.owner && desk'.owner[id] == desk.owner[id]
    && (id in desk'.returned <==> id in desk.returned)
    && (Enrolled(desk', id) <==> Enrolled(desk, id))
    && (id in desk'.pending ==> id in desk.pending)
    && (id in desk'.sent <==> id in desk.sent) && (id in desk.sent ==> desk'.sent[id] == desk.sent[id])
  }

  ghost predicate WaitRely(v: View, v': View, id: RequestId) {
    id in v'.desk.pending && (v.link.connected || v.link.draining) ==>
      v'.link.generation == v.link.generation && (v'.link.connected || v'.link.draining)
  }

  ghost predicate LocksRely(locks: Locks, locks': Locks, u: TaskId) {
    && (locks'.connect == Some(u) <==> locks.connect == Some(u))
    && (locks'.lifecycle == Some(u) <==> locks.lifecycle == Some(u))
    && (locks'.stdin == Some(u) <==> locks.stdin == Some(u))
  }

  ghost predicate Rely(v: View, v': View, u: TaskId, a: Task) {
    && LocksRely(v.locks, v'.locks, u) && LinkRely(v.link, v'.link, a)
    && (HoldsLifecycle(a) ==> v'.desk.taken == v.desk.taken)
    && (RequestOf(a).Some? && RequestOf(a).value in v.desk.owner ==>
          DeskRely(v.desk, v'.desk, RequestOf(a).value) && WaitRely(v, v', RequestOf(a).value))
  }

  lemma PrefixesKeep(h: seq<Event>, h': seq<Event>)
    requires h <= h'
    ensures InitializeAnswered(h) ==> InitializeAnswered(h')
    ensures HandshakeDone(h) ==> HandshakeDone(h')
  {
    if InitializeAnswered(h) {
      var i, j, id :| 0 <= i < j < |h| && h[i] == Received(Request(id, true)) && h[j] == Answered(id, true);
      assert h'[i] == Received(Request(id, true)) && h'[j] == Answered(id, true);
    }
    if HandshakeDone(h) {
      var k :| 0 <= k < |h| && h[k] == Received(Initialized) && InitializeAnswered(h[..k]);
      assert h'[k] == Received(Initialized) && h'[..k] == h[..k];
    }
  }

  lemma StageStable(link: Link, link': Link, a: Task)
    requires StageOk(link, a) && LinkRely(link, link', a)
    ensures StageOk(link', a)
  {
    var job := if a.Write? then a.job else if a.Tear? && a.after.AfterWrite? then a.after.job else Notify;
    if job.Acknowledge? {
      PrefixesKeep(link.processes[job.g].history, link'.processes[job.g].history);
    }
    if a.Ensure? && a.stage.StoreInitialized? {
      PrefixesKeep(link.processes[a.stage.g].history, link'.processes[a.stage.g].history);
    }
  }

  lemma TaskStable(v: View, v': View, u: TaskId, a: Task)
    requires TaskOk(u, v, a) && Rely(v, v', u, a)
    ensures TaskOk(u, v', a)
  {
    StageStable(v.link, v'.link, a);
  }

  // ---- guarantee: what one move changes --------------------------------------------------------

  predicate OwnLock(lock: Option<TaskId>, lock': Option<TaskId>, t: TaskId) {
    || lock' == lock
    || (lock.None? && lock' == Some(t))
    || (lock == Some(t) && lock'.None?)
  }

  ghost predicate Guarantee(t: TaskId, v: View, a: Task, v': View) {
    && OwnLock(v.locks.connect, v'.locks.connect, t)
    && OwnLock(v.locks.lifecycle, v'.locks.lifecycle, t)
    && OwnLock(v.locks.stdin, v'.locks.stdin, t)
    && v.link.generation <= v'.link.generation && Grown(v.link, v'.link) && StaysDown(v.link, v'.link)
    && (v'.link.generation != v.link.generation || (v'.link.connected && !v.link.connected) ==>
          HoldsConnect(a) && HoldsLifecycle(a))
    && (HoldsLifecycle(a) ||
          (&& v'.link.connected == v.link.connected && v'.link.stdin == v.link.stdin && v'.link.child == v.link.child
           && v'.link.hand == v.link.hand && v'.link.draining == v.link.draining
           && v'.link.published == v.link.published && v'.desk.taken == v.desk.taken))
    && (v'.link.stdin != v.link.stdin ==> v.locks.stdin.None? && (v'.link.stdin.Some? ==> HoldsConnect(a)))
    && (forall id :: id in v.desk.owner && v.desk.owner[id] != t ==> DeskRely(v.desk, v'.desk, id) && WaitRely(v, v', id))
  }

  predicate OwnLocks(t: TaskId, locks: Locks, locks': Locks) {
    OwnLock(locks.connect, locks'.connect, t) && OwnLock(locks.lifecycle, locks'.lifecycle, t) && OwnLock(locks.stdin, locks'.stdin, t)
  }

  lemma OnlyLocks(t: TaskId, v: View, a: Task, v': View)
    requires OwnLocks(t, v.locks, v'.locks) && v'.link == v.link && v'.desk == v.desk
    ensures Guarantee(t, v, a, v')
  {
  }

  /** The desk changes in what it says of one request. */
  ghost predicate OnlyAbout(id: RequestId, desk: Desk, desk': Desk) {
    && desk'.owner == desk.owner && desk'.taken == desk.taken && desk'.inbox == desk.inbox && desk'.sent == desk.sent
    && desk'.pending - {id} == desk.pending - {id} && desk'.returned - {id} == desk.returned - {id}
  }

  lemma OnlyOwnRequest(t: TaskId, v: View, a: Task, v': View, id: RequestId)
    requires OwnLocks(t, v.locks, v'.locks) && v'.link == v.link
    requires id in v.desk.owner && v.desk.owner[id] == t && OnlyAbout(id, v.desk, v'.desk)
    ensures Guarantee(t, v, a, v')
  {
    forall i | i in v.desk.owner && v.desk.owner[i] != t ensures DeskRely(v.desk, v'.desk, i) && WaitRely(v, v', i) {
      assert i in v'.desk.pending - {id} <==> i in v.desk.pending - {id};
      assert i in v'.desk.returned - {id} <==> i in v.desk.returned - {id};
    }
  }

  lemma OthersMayRely(t: TaskId, v: View, a: Task, v': View, u: TaskId, o: Task)
    requires u != t && LocksOk(t, v.locks, a) && Guarantee(t, v, a, v')
    requires TaskOk(u, v, o)
    ensures Rely(v, v', u, o)
  {
  }

  // ---- a frame or an answer on a pipe ----------------------------------------------------------

  /** An event that may be added to the history of process `p`. */
  ghost predicate Admissible(v: View, p: nat, e: Event) {
    && p in v.link.processes
    && match e
       case Received(Request(id, _)) => id in v.desk.owner && id !in v.desk.sent
       case Received(Reply(g, _)) => g == p
       case Torn(Reply(g, _)) => g == p
       case Answered(id, _) => exists b :: Received(Request(id, b)) in v.link.processes[p].history
       case _ => true
  }

  function DeskAfter(desk: Desk, p: nat, e: Event): Desk {
    if e.Received? then desk.Log(e.frame, p) else desk
  }

  lemma HonestyKept(h: seq<Event>, e: Event)
    requires Honest(h)
    requires e.Answered? ==> exists b :: Received(Request(e.id, b)) in h
    ensures Honest(h + [e])
  {
    var h' := h + [e];
    forall j | 0 <= j < |h'| && h'[j].Answered?
      ensures exists i, b :: 0 <= i < j && h'[i] == Received(Request(h'[j].id, b))
    {
      if j < |h| {
        var i, b :| 0 <= i < j && h[i] == Received(Request(h[j].id, b));
        assert h'[i] == Received(Request(h'[j].id, b));
      } else {
        var b :| Received(Request(e.id, b)) in h;
        var i :| 0 <= i < |h| && h[i] == Received(Request(e.id, b));
        assert h'[i] == Received(Request(h'[j].id, b));
      }
    }
  }

  lemma PipesKept(v: View, p: nat, e: Event)
    requires Pipes(v.link, v.desk) && Admissible(v, p, e)
    ensures Pipes(v.link.Record(p, e), DeskAfter(v.desk, p, e))
  {
    var desk := DeskAfter(v.desk, p, e);
    forall q | q in v.link.processes ensures PipeOk(q, v.link.Record(p, e).processes[q].history, desk.sent) {
      assert PipeOk(q, v.link.processes[q].history, v.desk.sent);
      OtherPipeKept(v, p, e, q);
      if q == p {
        HonestyKept(v.link.processes[p].history, e);
      }
    }
  }

  /** An admissible event names no request that another pipe has seen. */
  lemma OtherPipeKept(v: View, p: nat, e: Event, q: nat)
    requires Admissible(v, p, e) && q in v.link.processes && PipeOk(q, v.link.processes[q].history, v.desk.sent)
    ensures RequestsLogged(q, v.link.processes[q].history, DeskAfter(v.desk, p, e).sent)
  {
  }

  lemma RecordKeepsView(v: View, p: nat, e: Event)
    requires ViewOk(v) && Admissible(v, p, e)
    ensures ViewOk(v.(link := v.link.Record(p, e), desk := DeskAfter(v.desk, p, e)))
  {
    PipesKept(v, p, e);
    PrefixesKeep(v.link.processes[p].history, v.link.processes[p].history + [e]);
    RecordKeepsAnswers(v.link, p, e, v.desk.inbox);
    RecordKeepsAnswers(v.link, p, e, v.desk.returned);
  }

  lemma RecordKeepsAnswers(link: Link, p: nat, e: Event, outcomes: map<RequestId, Outcome>)
    requires p in link.processes && Genuine(link, outcomes)
    ensures Genuine(link.Record(p, e), outcomes)
  {
    forall id | id in outcomes && outcomes[id].Response? ensures GenuineAnswer(link.Record(p, e), id, outcomes[id]) {
      assert GenuineAnswer(link, id, outcomes[id]);
    }
  }

  /** Processes may start and die without a word on their pipes. */
  ghost predicate Wordless(link: Link, link': Link) {
    && (forall p :: p in link.processes ==> p in link'.processes && link'.processes[p].history == link.processes[p].history)
    && (forall p :: p in link'.processes && p !in link.processes ==> link'.processes[p].history == [])
  }

  ghost predicate Quiet(link: Link, link': Link) {
    Wordless(link, link') && (link'.initialized == link.initialized || link'.initialized == 0)
  }

  lemma TrafficKept(link: Link, link': Link, desk: Desk)
    requires TrafficOk(link, desk) && Quiet(link, link')
    ensures TrafficOk(link', desk)
  {
  }

  lemma SameMemory(v: View, v': View)
    requires ViewOk(v) && v'.link == v.link && v'.desk == v.desk && v'.locks.lifecycle == v.locks.lifecycle
    ensures ViewOk(v')
  {
  }

  // ---- ensure_initialized and spawn_locked ---------------------------------------------------

  lemma EnsureGuarantees(t: TaskId, v: View, stage: EnsureStage, v': View, b: Task)
    requires LinkOk(v.link) && DeskOk(v.desk) && LocksOk(t, v.locks, Ensure(stage)) && EnsureOk(v.link, stage)
    requires EnsureMove(t, v, stage, v', b)
    ensures Guarantee(t, v, Ensure(stage), v')
  {
  }

  lemma EnsureKeepsView(t: TaskId, v: View, stage: EnsureStage, v': View, b: Task)
    requires ViewOk(v) && EnsureOk(v.link, stage) && EnsureMove(t, v, stage, v', b)
    ensures ViewOk(v')
  {
  }

  /** A new request has an id of its own that nothing knows yet. */
  lemma AllocatedIsOk(t: TaskId, v: View, job: Job)
    requires DeskOk(v.desk) && JobId(job) == Some(v.desk.nextId)
    ensures RequestOk(t, v.desk.Allocate(t), Write(job, Enroll)) && WaitOk(v.(desk := v.desk.Allocate(t)), Write(job, Enroll))
  {
  }

  lemma EnsureKeepsLocks(t: TaskId, v: View, stage: EnsureStage, v': View, b: Task)
    requires LocksOk(t, v.locks, Ensure(stage)) && EnsureMove(t, v, stage, v', b)
    ensures LocksOk(t, v'.locks, b) && TellOk(v'.desk, b)
  {
  }

  lemma EnsureKeepsStage(t: TaskId, v: View, stage: EnsureStage, v': View, b: Task)
    requires LinkOk(v.link) && HandshakeOk(v.link) && EnsureOk(v.link, stage) && EnsureMove(t, v, stage, v', b)
    ensures StageOk(v'.link, b)
  {
  }

  lemma EnsureKeepsRequest(t: TaskId, v: View, stage: EnsureStage, v': View, b: Task)
    requires DeskOk(v.desk) && EnsureMove(t, v, stage, v', b)
    ensures RequestOk(t, v'.desk, b) && WaitOk(v', b)
  {
    if b.Write? && b.write.Enroll? {
      AllocatedIsOk(t, v, b.job);
    }
  }

  lemma EnsureKeepsTask(t: TaskId, v: View, stage: EnsureStage, v': View, b: Task)
    requires LinkOk(v.link) && HandshakeOk(v.link) && DeskOk(v.desk)
    requires LocksOk(t, v.locks, Ensure(stage)) && EnsureOk(v.link, stage) && EnsureMove(t, v, stage, v', b)
    ensures TaskOk(t, v', b)
  {
    EnsureKeepsLocks(t, v, stage, v', b);
    EnsureKeepsStage(t, v, stage, v', b);
    EnsureKeepsRequest(t, v, stage, v', b);
  }

  lemma ForkGuarantees(t: TaskId, v: View, v': View, b: Task)
    requires LinkOk(v.link) && LocksOk(t, v.locks, Ensure(Fork)) && EnsureOk(v.link, Fork) && SpawnMove(t, v, Fork, v', b)
    ensures Guarantee(t, v, Ensure(Fork), v')
  {
    if b.Finished? {
      OnlyLocks(t, v, Ensure(Fork), v');
    } else {
      assert v.link.generation + 1 !in v.link.processes;
    }
  }

  lemma SpawnGuarantees(t: TaskId, v: View, stage: EnsureStage, v': View, b: Task)
    requires LinkOk(v.link) && LocksOk(t, v.locks, Ensure(stage)) && EnsureOk(v.link, stage)
    requires SpawnMove(t, v, stage, v', b)
    ensures Guarantee(t, v, Ensure(stage), v')
  {
    if stage.Fork? {
      ForkGuarantees(t, v, v', b);
    } else if stage.WantSpawn? || stage.StartReader? {
      OnlyLocks(t, v, Ensure(stage), v');
    }
  }

  lemma SpawnKeepsSlots(t: TaskId, v: View, stage: EnsureStage, v': View, b: Task)
    requires SlotsOk(v) && TellOk(v.desk, Ensure(stage))
    requires LocksOk(t, v.locks, Ensure(stage)) && EnsureOk(v.link, stage) && SpawnMove(t, v, stage, v', b)
    ensures SlotsOk(v')
  {
  }

  lemma ForkIsQuiet(link: Link, link': Link)
    requires LinkOk(link)
    requires link'.processes == link.processes[link.generation + 1 := Process(true, [])] && link'.initialized == link.initialized
    ensures Quiet(link, link')
  {
    assert link.generation + 1 !in link.processes;
  }

  lemma SpawnIsQuiet(t: TaskId, v: View, stage: EnsureStage, v': View, b: Task)
    requires LinkOk(v.link) && SpawnMove(t, v, stage, v', b)
    ensures Quiet(v.link, v'.link) && v'.desk == v.desk
  {
    if stage.Fork? && b.Ensure? {
      ForkIsQuiet(v.link, v'.link);
    }
  }

  lemma SpawnKeepsTraffic(t: TaskId, v: View, stage: EnsureStage, v': View, b: Task)
    requires LinkOk(v.link) && TrafficOk(v.link, v.desk) && SpawnMove(t, v, stage, v', b)
    ensures TrafficOk(v'.link, v'.desk)
  {
    SpawnIsQuiet(t, v, stage, v', b);
    TrafficKept(v.link, v'.link, v.desk);
  }

  lemma SpawnKeepsView(t: TaskId, v: View, stage: EnsureStage, v': View, b: Task)
    requires ViewOk(v) && LocksOk(t, v.locks, Ensure(stage)) && EnsureOk(v.link, stage) && TellOk(v.desk, Ensure(stage))
    requires SpawnMove(t, v, stage, v', b)
    ensures ViewOk(v')
  {
    SpawnKeepsSlots(t, v, stage, v', b);
    SpawnKeepsTraffic(t, v, stage, v', b);
  }

  lemma SpawnKeepsTask(t: TaskId, v: View, stage: EnsureStage, v': View, b: Task)
    requires SlotsOk(v) && TellOk(v.desk, Ensure(stage))
    requires LocksOk(t, v.locks, Ensure(stage)) && EnsureOk(v.link, stage) && SpawnMove(t, v, stage, v', b)
    ensures TaskOk(t, v', b)
  {
  }

  // ---- request_raw and write_json --------------------------------------------------------------

  /** The answer to `initialize` that reaches its waiter was given by the process it went to. */
  lemma InitializeWasAnswered(t: TaskId, v: View, id: RequestId, g: nat, a: Task)
    requires ViewOk(v) && RequestOk(t, v.desk, a) && InitializeFor(a, id, g) && JobOk(v.link, Initialize(id, g))
    requires id in v.desk.inbox && v.desk.inbox[id].Response? && v.desk.inbox[id].accepted
    ensures InitializeAnswered(v.link.processes[g].history)
  {
    var p := v.desk.inbox[id].from;
    var h := v.link.processes[p].history;
    assert GenuineAnswer(v.link, id, v.desk.inbox[id]);
    var j :| 0 <= j < |h| && h[j] == Answered(id, true);
    assert h[j].Answered?;
    var i, b :| 0 <= i < j && h[i] == Received(Request(h[j].id, b));
    assert Received(Request(id, b)) in h;
  }

  lemma DeliverGuarantees(t: TaskId, v: View, job: Job, stage: WriteStage, v': View, b: Task)
    requires LocksOk(t, v.locks, Write(job, stage)) && RequestOk(t, v.desk, Write(job, stage))
    requires (stage.Await? || stage.Withdraw?) && WriteMove(t, v, job, stage, v', b)
    ensures Guarantee(t, v, Write(job, stage), v')
  {
    OnlyOwnRequest(t, v, Write(job, stage), v', JobId(job).value);
  }

  lemma WriteGuarantees(t: TaskId, v: View, job: Job, stage: WriteStage, v': View, b: Task)
    requires LocksOk(t, v.locks, Write(job, stage)) && RequestOk(t, v.desk, Write(job, stage)) && !stage.HoldStdin?
    requires WriteMove(t, v, job, stage, v', b)
    ensures Guarantee(t, v, Write(job, stage), v')
  {
    if stage.Await? || stage.Withdraw? {
      DeliverGuarantees(t, v, job, stage, v', b);
    } else if stage.Enroll? {
      OnlyOwnRequest(t, v, Write(job, stage), v', JobId(job).value);
    } else {
      OnlyLocks(t, v, Write(job, stage), v');
    }
  }

  lemma DeliveryReturned(v: View, job: Job, outcome: Outcome, v': View, b: Task)
    requires ViewOk(v) && JobId(job).Some? && JobId(job).value in v.desk.owner && JobId(job).value !in v.desk.pending
    requires (outcome.Response? ==> GenuineAnswer(v.link, JobId(job).value, outcome)) && Deliver(v, job, outcome, v', b)
    ensures ViewOk(v')
  {
    var done := v.desk.(returned := v.desk.returned[JobId(job).value := outcome]);
    assert Genuine(v.link, done.returned) && DeskOk(done) && Pipes(v.link, done);
    assert v'.desk == done && v'.link == v.link;
  }

  lemma PendingKeepsView(v: View, pending: set<RequestId>)
    requires ViewOk(v) && pending <= v.desk.owner.Keys
    requires pending !! v.desk.inbox.Keys && pending !! v.desk.returned.Keys && pending !! v.desk.taken
    ensures ViewOk(v.(desk := v.desk.(pending := pending)))
  {
  }

  lemma WriteKeepsView(t: TaskId, v: View, job: Job, stage: WriteStage, v': View, b: Task)
    requires ViewOk(v) && StageOk(v.link, Write(job, stage)) && RequestOk(t, v.desk, Write(job, stage))
    requires !stage.HoldStdin? && WriteMove(t, v, job, stage, v', b)
    ensures ViewOk(v')
  {
    if stage.Await? {
      var id := JobId(job).value;
      if id in v.desk.inbox {
        DeliveryReturned(v, job, v.desk.inbox[id], v', b);
      }
    } else if stage.Withdraw? {
      var left := v.desk.pending - {JobId(job).value};
      PendingKeepsView(v, left);
      DeliveryReturned(v.(desk := v.desk.(pending := left)), job, stage.outcome, v', b);
    } else if stage.Enroll? {
      PendingKeepsView(v, v.desk.pending + {JobId(job).value});
    } else {
      SameMemory(v, v');
    }
  }

  lemma WriteKeepsStage(t: TaskId, v: View, job: Job, stage: WriteStage, v': View, b: Task)
    requires ViewOk(v) && LocksOk(t, v.locks, Write(job, stage)) && StageOk(v.link, Write(job, stage))
    requires RequestOk(t, v.desk, Write(job, stage)) && !stage.HoldStdin? && WriteMove(t, v, job, stage, v', b)
    ensures LocksOk(t, v'.locks, b) && StageOk(v'.link, b)
  {
    if stage.Await? && job.Initialize? && job.id in v.desk.inbox {
      var o := v.desk.inbox[job.id];
      if o.Response? && o.accepted {
        InitializeWasAnswered(t, v, job.id, job.g, Write(job, stage));
      }
    }
  }

  lemma WriteKeepsRequest(t: TaskId, v: View, job: Job, stage: WriteStage, v': View, b: Task)
    requires LinkOk(v.link) && DeskOk(v.desk) && RequestOk(t, v.desk, Write(job, stage)) && WaitOk(v, Write(job, stage))
    requires !stage.HoldStdin? && WriteMove(t, v, job, stage, v', b)
    ensures RequestOk(t, v'.desk, b) && WaitOk(v', b)
  {
  }

  lemma WriteKeepsTask(t: TaskId, v: View, job: Job, stage: WriteStage, v': View, b: Task)
    requires ViewOk(v) && TaskOk(t, v, Write(job, stage)) && !stage.HoldStdin? && WriteMove(t, v, job, stage, v', b)
    ensures TaskOk(t, v', b)
  {
    WriteKeepsStage(t, v, job, stage, v', b);
    WriteKeepsRequest(t, v, job, stage, v', b);
  }

  // ---- the write itself --------------------------------------------------------------------------

  lemma HandshakeCompletes(h: seq<Event>)
    requires InitializeAnswered(h)
    ensures HandshakeDone(h + [Received(Initialized)])
  {
    var h' := h + [Received(Initialized)];
    assert h'[..|h|] == h && h'[|h|] == Received(Initialized);
  }

  ghost predicate Sending(t: TaskId, v: View, job: Job, epoch: nat, g: nat) {
    ViewOk(v) && TaskOk(t, v, Write(job, HoldStdin(epoch, g)))
  }

  /** A write touches nothing but histories and the two locks it may hold. */
  ghost predicate Sent(v: View, job: Job, v': View) {
    && Grown(v.link, v'.link) && v'.link == v.link.(processes := v'.link.processes)
    && v'.desk == v.desk.(sent := v'.desk.sent)
    && (forall id :: JobId(job) != Some(id) && id in v.desk.sent ==> id in v'.desk.sent && v'.desk.sent[id] == v.desk.sent[id])
    && (forall id :: JobId(job) != Some(id) && id in v'.desk.sent ==> id in v.desk.sent)
    && v'.locks.lifecycle == v.locks.lifecycle && v'.locks.stdin.None?
    && (v'.locks.connect == v.locks.connect || (v'.locks.connect.None? && UnderConnectLock(job)))
  }

  /** Nothing of the frame got through, all of it, or a part. */
  predicate Written(v: View, job: Job, v': View) {
    || (v'.link == v.link && v'.desk == v.desk)
    || (&& v.link.stdin.Some? && v.link.stdin.value in v.link.processes
        && var p := v.link.stdin.value;
           || (v'.link == v.link.Record(p, Received(JobFrame(job))) && v'.desk == v.desk.Log(JobFrame(job), p))
           || (v'.link == v.link.Record(p, Torn(JobFrame(job))) && v'.desk == v.desk))
  }

  lemma SendWrites(v: View, job: Job, epoch: nat, g: nat, v': View, b: Task)
    requires SendMove(v, job, epoch, g, v', b)
    ensures Written(v, job, v') && v'.locks.lifecycle == v.locks.lifecycle && v'.locks.stdin.None?
    ensures v'.locks.connect == v.locks.connect || (v'.locks.connect.None? && UnderConnectLock(job))
  {
  }

  lemma SendEffects(v: View, job: Job, epoch: nat, g: nat, v': View, b: Task)
    requires SendMove(v, job, epoch, g, v', b)
    ensures Sent(v, job, v')
  {
    SendWrites(v, job, epoch, g, v', b);
  }

  lemma SentGuarantees(t: TaskId, v: View, job: Job, epoch: nat, g: nat, v': View)
    requires LocksOk(t, v.locks, Write(job, HoldStdin(epoch, g)))
    requires RequestOk(t, v.desk, Write(job, HoldStdin(epoch, g))) && Sent(v, job, v')
    ensures Guarantee(t, v, Write(job, HoldStdin(epoch, g)), v')
  {
  }

  lemma SendGuarantees(t: TaskId, v: View, job: Job, epoch: nat, g: nat, v': View, b: Task)
    requires LocksOk(t, v.locks, Write(job, HoldStdin(epoch, g)))
    requires RequestOk(t, v.desk, Write(job, HoldStdin(epoch, g))) && SendMove(v, job, epoch, g, v', b)
    ensures Guarantee(t, v, Write(job, HoldStdin(epoch, g)), v')
  {
    SendEffects(v, job, epoch, g, v', b);
    SentGuarantees(t, v, job, epoch, g, v');
  }

  lemma WrittenKeepsView(v: View, job: Job, v': View)
    requires ViewOk(v) && Written(v, job, v') && v'.locks.lifecycle == v.locks.lifecycle
    requires JobId(job).Some? ==> JobId(job).value in v.desk.owner && JobId(job).value !in v.desk.sent
    ensures ViewOk(v')
  {
    if v'.link == v.link && v'.desk == v.desk {
      SameMemory(v, v');
    } else {
      var p := v.link.stdin.value;
      var whole := v'.link == v.link.Record(p, Received(JobFrame(job))) && v'.desk == v.desk.Log(JobFrame(job), p);
      var e := if whole then Received(JobFrame(job)) else Torn(JobFrame(job));
      RecordKeepsView(v, p, e);
      SameMemory(v.(link := v.link.Record(p, e), desk := DeskAfter(v.desk, p, e)), v');
    }
  }

  lemma SendKeepsView(t: TaskId, v: View, job: Job, epoch: nat, g: nat, v': View, b: Task)
    requires Sending(t, v, job, epoch, g) && SendMove(v, job, epoch, g, v', b)
    ensures ViewOk(v')
  {
    SendWrites(v, job, epoch, g, v', b);
    WrittenKeepsView(v, job, v');
  }

  lemma SendKeepsLocks(t: TaskId, v: View, job: Job, epoch: nat, g: nat, v': View, b: Task)
    requires LocksOk(t, v.locks, Write(job, HoldStdin(epoch, g))) && SendMove(v, job, epoch, g, v', b)
    ensures LocksOk(t, v'.locks, b)
  {
  }

  lemma SentKeepsJob(v: View, job: Job, v': View)
    requires JobOk(v.link, job) && Sent(v, job, v')
    ensures JobOk(v'.link, job)
  {
    if job.Acknowledge? {
      PrefixesKeep(v.link.processes[job.g].history, v'.link.processes[job.g].history);
    }
  }

  /** The notification that goes through completes the handshake. */
  lemma AcknowledgmentCompletes(v: View, job: Job, epoch: nat, g: nat, v': View, b: Task)
    requires LinkOk(v.link) && JobOk(v.link, job) && job.Acknowledge? && b.Ensure?
    requires SendMove(v, job, epoch, g, v', b)
    ensures StageOk(v'.link, b)
  {
    HandshakeCompletes(v.link.processes[job.g].history);
  }

  lemma SendKeepsStage(t: TaskId, v: View, job: Job, epoch: nat, g: nat, v': View, b: Task)
    requires LinkOk(v.link) && JobOk(v.link, job) && SendMove(v, job, epoch, g, v', b)
    ensures StageOk(v'.link, b)
  {
    SendEffects(v, job, epoch, g, v', b);
    SentKeepsJob(v, job, v');
    if job.Acknowledge? && b.Ensure? {
      AcknowledgmentCompletes(v, job, epoch, g, v', b);
    }
  }

  lemma SendKeepsRequest(t: TaskId, v: View, job: Job, epoch: nat, g: nat, v': View, b: Task)
    requires JobOk(v.link, job) && RequestOk(t, v.desk, Write(job, HoldStdin(epoch, g)))
    requires WaitOk(v, Write(job, HoldStdin(epoch, g))) && SendMove(v, job, epoch, g, v', b)
    ensures RequestOk(t, v'.desk, b) && WaitOk(v', b)
  {
  }

  lemma SendKeepsTask(t: TaskId, v: View, job: Job, epoch: nat, g: nat, v': View, b: Task)
    requires LinkOk(v.link) && TaskOk(t, v, Write(job, HoldStdin(epoch, g))) && SendMove(v, job, epoch, g, v', b)
    ensures TaskOk(t, v', b)
  {
    SendKeepsLocks(t, v, job, epoch, g, v', b);
    SendKeepsStage(t, v, job, epoch, g, v', b);
    SendKeepsRequest(t, v, job, epoch, g, v', b);
  }

  // ---- write_json_for_generation -----------------------------------------------------------------

  lemma ReplyGuarantees(t: TaskId, v: View, g: nat, k: Token, v': View, b: Task)
    requires LocksOk(t, v.locks, Answer(g, k, ReplySend)) && AnswerMove(t, v, g, k, ReplySend, v', b)
    ensures Guarantee(t, v, Answer(g, k, ReplySend), v')
  {
  }

  lemma AnswerGuarantees(t: TaskId, v: View, g: nat, k: Token, stage: ReplyStage, v': View, b: Task)
    requires LocksOk(t, v.locks, Answer(g, k, stage)) && AnswerMove(t, v, g, k, stage, v', b)
    ensures Guarantee(t, v, Answer(g, k, stage), v')
  {
    if stage.ReplySend? {
      ReplyGuarantees(t, v, g, k, v', b);
    } else {
      OnlyLocks(t, v, Answer(g, k, stage), v');
    }
  }

  lemma AnswerKeepsView(t: TaskId, v: View, g: nat, k: Token, stage: ReplyStage, v': View, b: Task)
    requires ViewOk(v) && AnswerOk(v.link, g, stage) && AnswerMove(t, v, g, k, stage, v', b)
    ensures ViewOk(v')
  {
    if stage.ReplySend? && g in v.link.processes {
      var open := v.(locks := v.locks.(stdin := None));
      RecordKeepsView(open, g, Received(Reply(g, k)));
      RecordKeepsView(open, g, Torn(Reply(g, k)));
    }
  }

  lemma AnswerKeepsTask(t: TaskId, v: View, g: nat, k: Token, stage: ReplyStage, v': View, b: Task)
    requires LinkOk(v.link) && TaskOk(t, v, Answer(g, k, stage)) && AnswerMove(t, v, g, k, stage, v', b)
    ensures TaskOk(t, v', b)
  {
  }

  // ---- disconnect, lose_connection and the readers -------------------------------------------------

  /** A teardown drains under the lifecycle lock, and what it takes it tells. */
  lemma DrainGuarantees(t: TaskId, v: View, scope: Scope, stage: TearStage, after: After, v': View, b: Task)
    requires DeskOk(v.desk) && LocksOk(t, v.locks, Tear(scope, stage, after)) && TearOk(v.link, scope, stage)
    requires TellOk(v.desk, Tear(scope, stage, after)) && (stage.Drain? || stage.Tell?)
    requires TearMove(t, v, scope, stage, after, v', b)
    ensures Guarantee(t, v, Tear(scope, stage, after), v')
  {
  }

  lemma LinkTearGuarantees(t: TaskId, v: View, scope: Scope, stage: TearStage, after: After, v': View, b: Task)
    requires LocksOk(t, v.locks, Tear(scope, stage, after)) && TearOk(v.link, scope, stage)
    requires stage.Unset? || stage.Uninitialize? || stage.TakeChild? || stage.Kill? || stage.DropStdin?
    requires TearMove(t, v, scope, stage, after, v', b)
    ensures Guarantee(t, v, Tear(scope, stage, after), v')
  {
  }

  lemma TearGuarantees(t: TaskId, v: View, scope: Scope, stage: TearStage, after: After, v': View, b: Task)
    requires DeskOk(v.desk) && LocksOk(t, v.locks, Tear(scope, stage, after)) && TearOk(v.link, scope, stage)
    requires TellOk(v.desk, Tear(scope, stage, after))
    requires TearMove(t, v, scope, stage, after, v', b)
    ensures Guarantee(t, v, Tear(scope, stage, after), v')
  {
    if stage.Drain? || stage.Tell? {
      DrainGuarantees(t, v, scope, stage, after, v', b);
    } else if stage.WantLifecycle? || stage.CheckGeneration? || stage.Release? {
      OnlyLocks(t, v, Tear(scope, stage, after), v');
    } else {
      LinkTearGuarantees(t, v, scope, stage, after, v', b);
    }
  }

  lemma TearKeepsSlots(t: TaskId, v: View, scope: Scope, stage: TearStage, after: After, v': View, b: Task)
    requires SlotsOk(v) && TellOk(v.desk, Tear(scope, stage, after))
    requires LocksOk(t, v.locks, Tear(scope, stage, after)) && TearOk(v.link, scope, stage)
    requires TearMove(t, v, scope, stage, after, v', b)
    ensures SlotsOk(v')
  {
  }

  lemma TearIsQuiet(t: TaskId, v: View, scope: Scope, stage: TearStage, after: After, v': View, b: Task)
    requires TearMove(t, v, scope, stage, after, v', b)
    ensures Quiet(v.link, v'.link)
  {
  }

  /** A teardown moves waiters from one place to the next, and tells them nothing else than that the connection is lost. */
  ghost predicate OnlyLosses(desk: Desk, desk': Desk) {
    && desk'.sent == desk.sent && desk'.returned == desk.returned && desk'.owner == desk.owner
    && desk.inbox.Keys <= desk'.inbox.Keys
    && forall id :: id in desk'.inbox ==> desk'.inbox[id] == if id in desk.inbox then desk.inbox[id] else ConnectionLost
  }

  lemma TearKeepsDesk(t: TaskId, v: View, scope: Scope, stage: TearStage, after: After, v': View, b: Task)
    requires DeskOk(v.desk) && (stage.Drain? ==> v.desk.taken == {}) && TearMove(t, v, scope, stage, after, v', b)
    ensures DeskOk(v'.desk) && OnlyLosses(v.desk, v'.desk)
  {
  }

  lemma LossesAreGenuine(link: Link, desk: Desk, desk': Desk)
    requires TrafficOk(link, desk) && OnlyLosses(desk, desk') && DeskOk(desk')
    ensures TrafficOk(link, desk')
  {
    forall id | id in desk'.inbox && desk'.inbox[id].Response? ensures GenuineAnswer(link, id, desk'.inbox[id]) {
      assert GenuineAnswer(link, id, desk.inbox[id]);
    }
    forall p | p in link.processes ensures PipeOk(p, link.processes[p].history, desk'.sent) {
      assert PipeOk(p, link.processes[p].history, desk.sent);
    }
  }

  lemma TearKeepsTraffic(t: TaskId, v: View, scope: Scope, stage: TearStage, after: After, v': View, b: Task)
    requires TrafficOk(v.link, v.desk) && (stage.Drain? ==> v.desk.taken == {}) && TearMove(t, v, scope, stage, after, v', b)
    ensures TrafficOk(v'.link, v'.desk)
  {
    TearIsQuiet(t, v, scope, stage, after, v', b);
    TearKeepsDesk(t, v, scope, stage, after, v', b);
    TrafficKept(v.link, v'.link, v.desk);
    LossesAreGenuine(v'.link, v.desk, v'.desk);
  }

  lemma TearKeepsView(t: TaskId, v: View, scope: Scope, stage: TearStage, after: After, v': View, b: Task)
    requires ViewOk(v) && LocksOk(t, v.locks, Tear(scope, stage, after)) && TearOk(v.link, scope, stage)
    requires TellOk(v.desk, Tear(scope, stage, after)) && TearMove(t, v, scope, stage, after, v', b)
    ensures ViewOk(v')
  {
    TearKeepsSlots(t, v, scope, stage, after, v', b);
    TearKeepsTraffic(t, v, scope, stage, after, v', b);
  }

  lemma AfterStable(link: Link, link': Link, scope: Scope, after: After)
    requires AfterOk(link, scope, after) && link'.generation == link.generation && Quiet(link, link')
    requires link'.stdin.None? || link'.stdin == link.stdin
    ensures AfterOk(link', scope, after)
  {
  }

  lemma TearStepKeepsStage(t: TaskId, v: View, scope: Scope, stage: TearStage, after: After, v': View, b: Task)
    requires SlotsOk(v) && TearOk(v.link, scope, stage) && AfterOk(v.link, scope, after) && !stage.Release?
    requires TearMove(t, v, scope, stage, after, v', b)
    ensures StageOk(v'.link, b)
  {
    TearIsQuiet(t, v, scope, stage, after, v', b);
    AfterStable(v.link, v'.link, scope, after);
  }

  lemma TearStepKeepsLocks(t: TaskId, v: View, scope: Scope, stage: TearStage, after: After, v': View, b: Task)
    requires LocksOk(t, v.locks, Tear(scope, stage, after)) && !stage.Release?
    requires TearMove(t, v, scope, stage, after, v', b)
    ensures LocksOk(t, v'.locks, b)
  {
  }

  lemma TearStepTells(t: TaskId, v: View, scope: Scope, stage: TearStage, after: After, v': View, b: Task)
    requires (v.locks.lifecycle.None? ==> v.desk.taken == {}) && !stage.Release?
    requires TellOk(v.desk, Tear(scope, stage, after)) && TearMove(t, v, scope, stage, after, v', b)
    ensures TellOk(v'.desk, b)
  {
  }

  lemma TearStepKeepsRequest(t: TaskId, v: View, scope: Scope, stage: TearStage, after: After, v': View, b: Task)
    requires DeskOk(v.desk) && (stage.Drain? ==> v.desk.taken == {}) && !stage.Release?
    requires RequestOk(t, v.desk, Tear(scope, stage, after)) && TearMove(t, v, scope, stage, after, v', b)
    ensures RequestOk(t, v'.desk, b)
  {
  }

  lemma TearStepKeepsWait(t: TaskId, v: View, scope: Scope, stage: TearStage, after: After, v': View, b: Task)
    requires WaitOk(v, Tear(scope, stage, after)) && !stage.Release?
    requires TearMove(t, v, scope, stage, after, v', b)
    ensures WaitOk(v', b)
  {
  }

  lemma TearStepKeepsTask(t: TaskId, v: View, scope: Scope, stage: TearStage, after: After, v': View, b: Task)
    requires SlotsOk(v) && DeskOk(v.desk) && TaskOk(t, v, Tear(scope, stage, after)) && !stage.Release?
    requires TearMove(t, v, scope, stage, after, v', b)
    ensures TaskOk(t, v', b)
  {
    TearStepKeepsStage(t, v, scope, stage, after, v', b);
    TearStepKeepsLocks(t, v, scope, stage, after, v', b);
    TearStepTells(t, v, scope, stage, after, v', b);
    TearStepKeepsRequest(t, v, scope, stage, after, v', b);
    TearStepKeepsWait(t, v, scope, stage, after, v', b);
  }

  lemma TearEndKeepsTask(t: TaskId, v: View, scope: Scope, after: After, v': View, b: Task)
    requires SlotsOk(v) && DeskOk(v.desk) && TaskOk(t, v, Tear(scope, Release, after))
    requires TearMove(t, v, scope, Release, after, v', b)
    ensures TaskOk(t, v', b)
  {
  }

  lemma TearKeepsTask(t: TaskId, v: View, scope: Scope, stage: TearStage, after: After, v': View, b: Task)
    requires SlotsOk(v) && DeskOk(v.desk) && TaskOk(t, v, Tear(scope, stage, after))
    requires TearMove(t, v, scope, stage, after, v', b)
    ensures TaskOk(t, v', b)
  {
    if stage.Release? {
      TearEndKeepsTask(t, v, scope, after, v', b);
    } else {
      TearStepKeepsTask(t, v, scope, stage, after, v', b);
    }
  }

  lemma DeliveryGuarantees(t: TaskId, v: View, g: nat, v': View, b: Task, id: RequestId, accepted: bool)
    requires DeskOk(v.desk) && ReaderDelivers(v, g, v', b, id, accepted)
    ensures Guarantee(t, v, Reader(g), v')
  {
  }

  lemma DeliveryKeepsView(v: View, g: nat, v': View, b: Task, id: RequestId, accepted: bool)
    requires ViewOk(v) && ReaderDelivers(v, g, v', b, id, accepted)
    ensures ViewOk(v')
  {
    assert GenuineAnswer(v.link, id, Response(g, accepted));
  }

  lemma ReaderGuarantees(t: TaskId, v: View, g: nat, v': View, b: Task)
    requires DeskOk(v.desk) && ReaderMove(v, g, v', b)
    ensures Guarantee(t, v, Reader(g), v')
  {
    if v' == v {
      OnlyLocks(t, v, Reader(g), v');
    } else {
      var id: RequestId, accepted: bool :| ReaderDelivers(v, g, v', b, id, accepted);
      DeliveryGuarantees(t, v, g, v', b, id, accepted);
    }
  }

  lemma ReaderKeepsView(t: TaskId, v: View, g: nat, v': View, b: Task)
    requires ViewOk(v) && ReaderMove(v, g, v', b)
    ensures ViewOk(v')
  {
    if v' != v {
      var id: RequestId, accepted: bool :| ReaderDelivers(v, g, v', b, id, accepted);
      DeliveryKeepsView(v, g, v', b, id, accepted);
    }
  }

  lemma ReaderKeepsTask(t: TaskId, v: View, g: nat, v': View, b: Task)
    requires TaskOk(t, v, Reader(g)) && ReaderMove(v, g, v', b)
    ensures TaskOk(t, v', b)
  {
  }

  lemma ReaderKeepsOwners(t: TaskId, v: View, g: nat, v': View, b: Task)
    requires DeskOk(v.desk) && ReaderMove(v, g, v', b)
    ensures OwnersKept(t, v.desk, Reader(g), v'.desk, b)
  {
  }

  // ---- every move of every task ----------------------------------------------------------------

  lemma MoveGuarantees(t: TaskId, v: View, a: Task, v': View, b: Task, child: Option<Task>)
    requires ViewOk(v) && TaskOk(t, v, a) && Move(t, v, a, v', b, child)
    ensures Guarantee(t, v, a, v')
  {
    match a
    case Ensure(stage) =>
      if EnsureMove(t, v, stage, v', b) { EnsureGuarantees(t, v, stage, v', b); } else { SpawnGuarantees(t, v, stage, v', b); }
    case Write(job, HoldStdin(epoch, g)) => SendGuarantees(t, v, job, epoch, g, v', b);
    case Write(job, stage) => WriteGuarantees(t, v, job, stage, v', b);
    case Answer(g, k, stage) => AnswerGuarantees(t, v, g, k, stage, v', b);
    case Tear(scope, stage, after) => TearGuarantees(t, v, scope, stage, after, v', b);
    case Reader(g) => ReaderGuarantees(t, v, g, v', b);
    case _ =>
  }

  lemma EnsureMoveKeepsView(t: TaskId, v: View, stage: EnsureStage, v': View, b: Task)
    requires ViewOk(v) && TaskOk(t, v, Ensure(stage)) && (EnsureMove(t, v, stage, v', b) || SpawnMove(t, v, stage, v', b))
    ensures ViewOk(v')
  {
    if EnsureMove(t, v, stage, v', b) { EnsureKeepsView(t, v, stage, v', b); } else { SpawnKeepsView(t, v, stage, v', b); }
  }

  lemma EnsureMoveKeepsTask(t: TaskId, v: View, stage: EnsureStage, v': View, b: Task)
    requires ViewOk(v) && TaskOk(t, v, Ensure(stage)) && (EnsureMove(t, v, stage, v', b) || SpawnMove(t, v, stage, v', b))
    ensures TaskOk(t, v', b)
  {
    if EnsureMove(t, v, stage, v', b) { EnsureKeepsTask(t, v, stage, v', b); } else { SpawnKeepsTask(t, v, stage, v', b); }
  }

  lemma WriteMoveKeepsView(t: TaskId, v: View, job: Job, stage: WriteStage, v': View, b: Task)
    requires ViewOk(v) && TaskOk(t, v, Write(job, stage)) && WriteMove(t, v, job, stage, v', b)
    ensures ViewOk(v')
  {
    if stage.HoldStdin? {
      SendKeepsView(t, v, job, stage.epoch, stage.g, v', b);
    } else {
      WriteKeepsView(t, v, job, stage, v', b);
    }
  }

  lemma WriteMoveKeepsTask(t: TaskId, v: View, job: Job, stage: WriteStage, v': View, b: Task)
    requires ViewOk(v) && TaskOk(t, v, Write(job, stage)) && WriteMove(t, v, job, stage, v', b)
    ensures TaskOk(t, v', b)
  {
    if stage.HoldStdin? {
      SendKeepsTask(t, v, job, stage.epoch, stage.g, v', b);
    } else {
      WriteKeepsTask(t, v, job, stage, v', b);
    }
  }

  lemma MoveKeepsView(t: TaskId, v: View, a: Task, v': View, b: Task, child: Option<Task>)
    requires ViewOk(v) && TaskOk(t, v, a) && Move(t, v, a, v', b, child)
    ensures ViewOk(v')
  {
    match a
    case Ensure(stage) => EnsureMoveKeepsView(t, v, stage, v', b);
    case Write(job, stage) => WriteMoveKeepsView(t, v, job, stage, v', b);
    case Answer(g, k, stage) => AnswerKeepsView(t, v, g, k, stage, v', b);
    case Tear(scope, stage, after) => TearKeepsView(t, v, scope, stage, after, v', b);
    case Reader(g) => ReaderKeepsView(t, v, g, v', b);
    case _ => SameMemory(v, v');
  }

  /** Closing and reopening set a flag. */
  lemma FlagKeepsTask(t: TaskId, v: View, a: Task, v': View, b: Task)
    requires TaskOk(t, v, a) && (a.Close? || a.Reopen?) && Move(t, v, a, v', b, None)
    ensures TaskOk(t, v', b)
  {
  }

  lemma CallKeepsTask(t: TaskId, v: View, a: Task, v': View, b: Task, child: Option<Task>)
    requires ViewOk(v) && TaskOk(t, v, a) && Move(t, v, a, v', b, child) && (a.Ensure? || a.Write?)
    ensures TaskOk(t, v', b)
  {
    if a.Ensure? {
      EnsureMoveKeepsTask(t, v, a.stage, v', b);
    } else {
      WriteMoveKeepsTask(t, v, a.job, a.write, v', b);
    }
  }

  lemma MoveKeepsTask(t: TaskId, v: View, a: Task, v': View, b: Task, child: Option<Task>)
    requires ViewOk(v) && TaskOk(t, v, a) && Move(t, v, a, v', b, child)
    ensures TaskOk(t, v', b)
  {
    if a.Ensure? || a.Write? {
      CallKeepsTask(t, v, a, v', b, child);
    } else if a.Close? || a.Reopen? {
      FlagKeepsTask(t, v, a, v', b);
    } else if a.Answer? {
      AnswerKeepsTask(t, v, a.generation, a.token, a.reply, v', b);
    } else if a.Tear? {
      TearKeepsTask(t, v, a.scope, a.tear, a.after, v', b);
    } else {
      ReaderKeepsTask(t, v, a.generation, v', b);
    }
  }

  /** An id stays with its task until its request returns, and a result is never rewritten. */
  ghost predicate OwnersKept(t: TaskId, desk: Desk, a: Task, desk': Desk, b: Task) {
    && (forall id :: id in desk'.owner && id !in desk'.returned ==>
          || (desk'.owner[id] == t && RequestOf(b) == Some(id))
          || (id in desk.owner && id !in desk.returned && desk'.owner[id] == desk.owner[id]
              && RequestOf(a) != Some(id)))
    && (forall id :: id in desk.returned ==> id in desk'.returned && desk'.returned[id] == desk.returned[id])
    && (forall id :: id in desk.inbox ==> id in desk'.inbox && desk'.inbox[id] == desk.inbox[id])
  }

  lemma EnsureKeepsOwners(t: TaskId, v: View, stage: EnsureStage, v': View, b: Task)
    requires DeskOk(v.desk) && (EnsureMove(t, v, stage, v', b) || SpawnMove(t, v, stage, v', b))
    ensures OwnersKept(t, v.desk, Ensure(stage), v'.desk, b)
  {
  }

  lemma SendKeepsOwners(t: TaskId, v: View, job: Job, epoch: nat, g: nat, v': View, b: Task)
    requires DeskOk(v.desk) && RequestOk(t, v.desk, Write(job, HoldStdin(epoch, g))) && SendMove(v, job, epoch, g, v', b)
    ensures OwnersKept(t, v.desk, Write(job, HoldStdin(epoch, g)), v'.desk, b)
  {
  }

  lemma WriteKeepsOwners(t: TaskId, v: View, job: Job, stage: WriteStage, v': View, b: Task)
    requires DeskOk(v.desk) && RequestOk(t, v.desk, Write(job, stage))
    requires !stage.HoldStdin? && WriteMove(t, v, job, stage, v', b)
    ensures OwnersKept(t, v.desk, Write(job, stage), v'.desk, b)
  {
  }

  lemma LossesKeepOwners(t: TaskId, desk: Desk, a: Task, desk': Desk, b: Task)
    requires OnlyLosses(desk, desk') && RequestOf(b) == RequestOf(a) && RequestOk(t, desk, a)
    ensures OwnersKept(t, desk, a, desk', b)
  {
  }

  lemma TearKeepsOwners(t: TaskId, v: View, scope: Scope, stage: TearStage, after: After, v': View, b: Task)
    requires DeskOk(v.desk) && TellOk(v.desk, Tear(scope, stage, after)) && RequestOk(t, v.desk, Tear(scope, stage, after)) && TearMove(t, v, scope, stage, after, v', b)
    ensures OwnersKept(t, v.desk, Tear(scope, stage, after), v'.desk, b)
  {
    TearKeepsDesk(t, v, scope, stage, after, v', b);
    LossesKeepOwners(t, v.desk, Tear(scope, stage, after), v'.desk, b);
  }

  lemma AnswerKeepsOwners(t: TaskId, v: View, g: nat, k: Token, stage: ReplyStage, v': View, b: Task)
    requires AnswerMove(t, v, g, k, stage, v', b)
    ensures OwnersKept(t, v.desk, Answer(g, k, stage), v'.desk, b)
  {
    assert v'.desk == v.desk;
  }

  lemma MoveKeepsOwners(t: TaskId, v: View, a: Task, v': View, b: Task, child: Option<Task>)
    requires DeskOk(v.desk) && RequestOk(t, v.desk, a) && TellOk(v.desk, a) && Move(t, v, a, v', b, child)
    ensures OwnersKept(t, v.desk, a, v'.desk, b)
  {
    match a
    case Ensure(stage) => EnsureKeepsOwners(t, v, stage, v', b);
    case Write(job, HoldStdin(epoch, g)) => SendKeepsOwners(t, v, job, epoch, g, v', b);
    case Write(job, stage) => WriteKeepsOwners(t, v, job, stage, v', b);
    case Tear(scope, stage, after) => TearKeepsOwners(t, v, scope, stage, after, v', b);
    case Reader(g) => ReaderKeepsOwners(t, v, g, v', b);
    case Answer(g, k, stage) => AnswerKeepsOwners(t, v, g, k, stage, v', b);
    case _ =>
  }

  // ---- every step of the whole client ------------------------------------------------------------

  lemma OthersKeep(s: State, s': State, t: TaskId)
    requires Invariant(s) && t in s.tasks && Guarantee(t, s.view, s.tasks[t], s'.view)
    ensures forall u :: u in s.tasks && u != t ==> TaskOk(u, s'.view, s.tasks[u])
  {
    forall u | u in s.tasks && u != t
      ensures TaskOk(u, s'.view, s.tasks[u])
    {
      OthersMayRely(t, s.view, s.tasks[t], s'.view, u, s.tasks[u]);
      TaskStable(s.view, s'.view, u, s.tasks[u]);
    }
  }

  lemma OwnedKept(s: State, s': State, t: TaskId)
    requires Owned(s) && t in s.tasks && t in s'.tasks
    requires OwnersKept(t, s.view.desk, s.tasks[t], s'.view.desk, s'.tasks[t])
    requires forall u :: u in s.tasks && u != t ==> u in s'.tasks && s'.tasks[u] == s.tasks[u]
    ensures Owned(s')
  {
  }

  lemma LocksKept(s: State, s': State, t: TaskId)
    requires HeldByTasks(s) && t in s.tasks && Guarantee(t, s.view, s.tasks[t], s'.view) && s.tasks.Keys <= s'.tasks.Keys
    ensures HeldByTasks(s') && HeldBy(s'.view.locks, s.tasks.Keys)
  {
  }

  /** A task the locks do not know and that has made no request yet. */
  lemma NewcomerOk(s: State, u: TaskId, known: set<TaskId>, task: Task)
    requires HeldBy(s.view.locks, known) && u !in known && (EntryPoint(task) || task.Reader?)
    ensures TaskOk(u, s.view, task)
  {
  }

  lemma NewcomersOk(s: State, s': State, child: Option<Task>)
    requires HeldBy(s'.view.locks, s.tasks.Keys) && (child.Some? ==> child.value.Reader?)
    requires forall u :: u in s'.tasks && u !in s.tasks ==> child == Some(s'.tasks[u])
    ensures forall u :: u in s'.tasks && u !in s.tasks ==> TaskOk(u, s'.view, s'.tasks[u])
  {
    forall u | u in s'.tasks && u !in s.tasks ensures TaskOk(u, s'.view, s'.tasks[u]) {
      NewcomerOk(s', u, s.tasks.Keys, s'.tasks[u]);
    }
  }

  /** What one move keeps: the shared memory, the mover, the others and the owners. */
  lemma MoverKeeps(s: State, s': State, t: TaskId, child: Option<Task>)
    requires Invariant(s) && t in s.tasks && t in s'.tasks
    requires Move(t, s.view, s.tasks[t], s'.view, s'.tasks[t], child)
    ensures Guarantee(t, s.view, s.tasks[t], s'.view) && ViewOk(s'.view) && TaskOk(t, s'.view, s'.tasks[t])
    ensures OwnersKept(t, s.view.desk, s.tasks[t], s'.view.desk, s'.tasks[t]) && (child.Some? ==> child.value.Reader?)
  {
    assert TaskOk(t, s.view, s.tasks[t]);
    MoveGuarantees(t, s.view, s.tasks[t], s'.view, s'.tasks[t], child);
    MoveKeepsView(t, s.view, s.tasks[t], s'.view, s'.tasks[t], child);
    MoveKeepsTask(t, s.view, s.tasks[t], s'.view, s'.tasks[t], child);
    MoveKeepsOwners(t, s.view, s.tasks[t], s'.view, s'.tasks[t], child);
  }

  lemma TaskStepKeeps(s: State, s': State, t: TaskId, child: Option<Task>)
    requires Invariant(s) && t in s.tasks && t in s'.tasks
    requires Move(t, s.view, s.tasks[t], s'.view, s'.tasks[t], child)
    requires forall u :: u in s.tasks && u != t ==> u in s'.tasks && s'.tasks[u] == s.tasks[u]
    requires forall u :: u in s'.tasks && u !in s.tasks ==> child == Some(s'.tasks[u])
    ensures Invariant(s')
  {
    MoverKeeps(s, s', t, child);
    OthersKeep(s, s', t);
    OwnedKept(s, s', t);
    LocksKept(s, s', t);
    NewcomersOk(s, s', child);
  }

  lemma ExitKeeps(s: State, s': State, p: nat)
    requires Invariant(s) && ExitStep(s, s', p)
    ensures Invariant(s')
  {
    TrafficKept(s.view.link, s'.view.link, s.view.desk);
    forall u | u in s'.tasks ensures TaskOk(u, s'.view, s'.tasks[u]) {
      TaskStable(s.view, s'.view, u, s.tasks[u]);
    }
  }

  lemma AnsweredKeeps(s: State, s': State, p: nat, id: RequestId, accepted: bool)
    requires Invariant(s) && AnsweredStep(s, s', p, id, accepted)
    ensures Invariant(s')
  {
    RecordKeepsView(s.view, p, Event.Answered(id, accepted));
    forall u | u in s'.tasks ensures TaskOk(u, s'.view, s'.tasks[u]) {
      TaskStable(s.view, s'.view, u, s.tasks[u]);
    }
  }

  lemma StartKeeps(s: State, s': State, t: TaskId, task: Task)
    requires Invariant(s) && StartStep(s, s', t, task)
    ensures Invariant(s')
  {
    NewcomerOk(s, t, s.tasks.Keys, task);
  }

  lemma StepKeeps(s: State, s': State)
    requires Invariant(s) && Next(s, s')
    ensures Invariant(s')
  {
    if t: TaskId :| TaskStep(s, s', t) {
      TaskStepKeeps(s, s', t, None);
    } else if t: TaskId, r: TaskId :| SpawnStep(s, s', t, r) {
      TaskStepKeeps(s, s', t, Some(s'.tasks[r]));
    } else if t: TaskId, task: Task :| StartStep(s, s', t, task) {
      StartKeeps(s, s', t, task);
    } else if p: nat :| ExitStep(s, s', p) {
      ExitKeeps(s, s', p);
    } else {
      var p: nat, id: RequestId, accepted: bool :| AnsweredStep(s, s', p, id, accepted);
      AnsweredKeeps(s, s', p, id, accepted);
    }
  }
}
