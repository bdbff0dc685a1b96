/**
 What the client can do from every state in which it is connected and at rest: a request is sent,
 answered and returned with its answer, a notification is sent, a reply is delivered, and a wait
 that gets no answer runs out.
 */
module ConnectionProgress {
  import opened Wrappers
  import opened Connection
  import opened ConnectionSafety
  import opened ConnectionWitnesses

  /** Connected and initialized, with all locks free and the process alive. */
  ghost predicate AtRest(v: View) {
    var g := v.link.generation;
    && !v.closed && v.locks == Locks(None, None, None) && v.link.connected && v.link.initialized == g
    && v.link.stdin == Some(g) && g in v.link.processes && v.link.processes[g].alive
  }

  /** The others as they are, and task `t` at `a`. */
  function With(tasks: map<TaskId, Task>, t: TaskId, a: Task, v: View): State {
    State(tasks[t := a], v)
  }

  ghost predicate Reaches(states: seq<State>, more: seq<State>, s: State) {
    states <= more && At(more, s)
  }

  lemma Steps1(states: seq<State>, tasks: map<TaskId, Task>, t: TaskId, a: Task, v: View, v': View, b: Task) returns (more: seq<State>)
    requires At(states, With(tasks, t, a, v)) && Move(t, v, a, v', b, None)
    ensures Reaches(states, more, With(tasks, t, b, v'))
  {
    var s, s' := With(tasks, t, a, v), With(tasks, t, b, v');
    assert s.tasks[t := s'.tasks[t]] == s'.tasks;
    assert TaskStep(s, s', t);
    Extended(states, s');
    more := states + [s'];
  }

  lemma Begins(states: seq<State>, tasks: map<TaskId, Task>, t: TaskId, a: Task, v: View) returns (more: seq<State>)
    requires At(states, State(tasks, v)) && t !in tasks && EntryPoint(a)
    ensures Reaches(states, more, With(tasks, t, a, v))
  {
    assert StartStep(State(tasks, v), With(tasks, t, a, v), t, a);
    Extended(states, With(tasks, t, a, v));
    more := states + [With(tasks, t, a, v)];
  }

  // ---- requests and notifications ------------------------------------------------------------

  function Locked(v: View, connect: Option<TaskId>, stdin: Option<TaskId>): View {
    v.(locks := Locks(connect, None, stdin))
  }

  /** Finding the client connected and initialized takes no more than the connect lock. */
  lemma FindsItReady(states: seq<State>, tasks: map<TaskId, Task>, t: TaskId, v: View) returns (more: seq<State>)
    requires At(states, State(tasks, v)) && AtRest(v) && t !in tasks
    ensures Reaches(states, more, With(tasks, t, Ensure(Ready), v))
  {
    var g, locked := v.link.generation, Locked(v, Some(t), None);
    more := EntersEnsure(states, tasks, t, v);
    more := Steps1(more, tasks, t, Ensure(TestConnected), locked, locked, Ensure(LoadGeneration));
    more := Steps1(more, tasks, t, Ensure(LoadGeneration), locked, locked, Ensure(TestInitialized(g)));
    more := Steps1(more, tasks, t, Ensure(TestInitialized(g)), locked, v, Ensure(Ready));
  }

  lemma EntersEnsure(states: seq<State>, tasks: map<TaskId, Task>, t: TaskId, v: View) returns (more: seq<State>)
    requires At(states, State(tasks, v)) && !v.closed && v.locks == Locks(None, None, None) && t !in tasks
    ensures Reaches(states, more, With(tasks, t, Ensure(TestConnected), Locked(v, Some(t), None)))
  {
    var locked := Locked(v, Some(t), None);
    more := Begins(states, tasks, t, Ensure(Start), v);
    more := Steps1(more, tasks, t, Ensure(Start), v, v, Ensure(WantConnect));
    more := Steps1(more, tasks, t, Ensure(WantConnect), v, locked, Ensure(Recheck));
    more := Steps1(more, tasks, t, Ensure(Recheck), locked, locked, Ensure(TestConnected));
  }

  /** A frame can be written to the current process. */
  predicate Writable(v: View) {
    v.link.connected && v.locks.stdin.None? && v.link.stdin == Some(v.link.generation) && v.link.generation in v.link.processes
  }

  lemma HoldsStdin(states: seq<State>, tasks: map<TaskId, Task>, t: TaskId, v: View, job: Job) returns (more: seq<State>)
    requires At(states, With(tasks, t, Write(job, Test), v)) && Writable(v)
    ensures Reaches(states, more, With(tasks, t, Write(job, HoldStdin(v.link.generation, v.link.generation)),
                                       v.(locks := v.locks.(stdin := Some(t)))))
  {
    var g := v.link.generation;
    more := Steps1(states, tasks, t, Write(job, Test), v, v, Write(job, Stamp(g)));
    more := Steps1(more, tasks, t, Write(job, Stamp(g)), v, v, Write(job, WantStdin(g, g)));
    more := Steps1(more, tasks, t, Write(job, WantStdin(g, g)), v, v.(locks := v.locks.(stdin := Some(t))), Write(job, HoldStdin(g, g)));
  }

  /** The frame of the job is on the pipe. */
  function Through(v: View, job: Job): View
    requires v.link.generation in v.link.processes
  {
    var g := v.link.generation;
    v.(link := v.link.Record(g, Received(JobFrame(job))), desk := v.desk.Log(JobFrame(job), g))
  }

  lemma Writes(states: seq<State>, tasks: map<TaskId, Task>, t: TaskId, v: View, job: Job, b: Task) returns (more: seq<State>)
    requires At(states, With(tasks, t, Write(job, Test), v)) && Writable(v)
    requires Conclude(Through(v, job), job, v.link.generation, true, Through(v, job), b)
    ensures Reaches(states, more, With(tasks, t, b, Through(v, job)))
  {
    var g := v.link.generation;
    var held := v.(locks := v.locks.(stdin := Some(t)));
    more := HoldsStdin(states, tasks, t, v, job);
    assert held.(locks := held.locks.(stdin := None)) == v;
    assert SendMove(held, job, g, g, Through(v, job), b);
    more := Steps1(more, tasks, t, Write(job, HoldStdin(g, g)), held, Through(v, job), b);
  }

  /** From rest, a notification reaches the process. */
  lemma NotificationsAreSent(states: seq<State>, tasks: map<TaskId, Task>, t: TaskId, v: View) returns (more: seq<State>)
    requires At(states, State(tasks, v)) && AtRest(v) && t !in tasks
    ensures Reaches(states, more, With(tasks, t, Finished, v.(link := v.link.Record(v.link.generation, Received(Message)))))
  {
    more := FindsItReady(states, tasks, t, v);
    more := Steps1(more, tasks, t, Ensure(Ready), v, v, Write(Notify, Test));
    more := Writes(more, tasks, t, v, Notify, Finished);
  }

  /** The request has its number and its sender in the pending map. */
  function Enlisted(v: View, t: TaskId): View {
    var desk := v.desk.Allocate(t);
    v.(desk := desk.(pending := desk.pending + {v.desk.nextId}))
  }

  /** From rest, a request is sent and waits for its answer. */
  lemma RequestsAreSent(states: seq<State>, tasks: map<TaskId, Task>, t: TaskId, v: View) returns (more: seq<State>)
    requires At(states, State(tasks, v)) && AtRest(v) && t !in tasks
    ensures var job := Call(v.desk.nextId);
            Reaches(states, more, With(tasks, t, Write(job, Await(v.link.generation)), Through(Enlisted(v, t), job)))
  {
    var job := Call(v.desk.nextId);
    var numbered := v.(desk := v.desk.Allocate(t));
    more := FindsItReady(states, tasks, t, v);
    more := Steps1(more, tasks, t, Ensure(Ready), v, numbered, Write(job, Enroll));
    more := Steps1(more, tasks, t, Write(job, Enroll), numbered, Enlisted(v, t), Write(job, Test));
    more := Writes(more, tasks, t, Enlisted(v, t), job, Write(job, Await(v.link.generation)));
  }

  // ---- answers ---------------------------------------------------------------------------------

  /** The process has answered the request. */
  function AnsweredBy(v: View, id: RequestId, accepted: bool): View
    requires v.link.generation in v.link.processes
  {
    v.(link := v.link.Record(v.link.generation, Event.Answered(id, accepted)))
  }

  /** The reader has handed the answer over. */
  function HandedOver(v: View, id: RequestId, accepted: bool): View {
    v.(desk := v.desk.(pending := v.desk.pending - {id}, inbox := v.desk.inbox[id := Response(v.link.generation, accepted)]))
  }

  function ReturnedAs(v: View, id: RequestId, o: Outcome): View {
    v.(desk := v.desk.(returned := v.desk.returned[id := o]))
  }

  lemma ProcessAnswers(states: seq<State>, tasks: map<TaskId, Task>, v: View, id: RequestId, initialize: bool, accepted: bool)
    returns (more: seq<State>)
    requires At(states, State(tasks, v)) && v.link.generation in v.link.processes && v.link.processes[v.link.generation].alive
    requires Received(Request(id, initialize)) in v.link.processes[v.link.generation].history
    ensures Reaches(states, more, State(tasks, AnsweredBy(v, id, accepted)))
  {
    var s, s' := State(tasks, v), State(tasks, AnsweredBy(v, id, accepted));
    assert AnsweredStep(s, s', v.link.generation, id, accepted);
    Extended(states, s');
    more := states + [s'];
  }

  lemma ReaderHandsOver(states: seq<State>, tasks: map<TaskId, Task>, r: TaskId, v: View, id: RequestId, accepted: bool)
    returns (more: seq<State>)
    requires At(states, State(tasks, v)) && r in tasks && tasks[r] == Reader(v.link.generation) && id in v.desk.pending
    requires v.link.generation in v.link.processes
    requires Event.Answered(id, accepted) in v.link.processes[v.link.generation].history
    ensures Reaches(states, more, State(tasks, HandedOver(v, id, accepted)))
  {
    var reader, v' := tasks[r], HandedOver(v, id, accepted);
    assert ReaderDelivers(v, v.link.generation, v', reader, id, accepted);
    assert tasks == tasks[r := reader];
    more := Steps1(states, tasks, r, reader, v, v', reader);
  }

  /** The memory after a request that was sent, answered and returned. */
  function Completed(v: View, t: TaskId, accepted: bool): View
    requires v.link.generation in v.link.processes
  {
    var id := v.desk.nextId;
    var sent := Through(Enlisted(v, t), Call(id));
    ReturnedAs(HandedOver(AnsweredBy(sent, id, accepted), id, accepted), id, Response(v.link.generation, accepted))
  }

  /** From rest, a request returns the answer it gets, be it a result or an error. */
  lemma RequestsReturnTheirAnswers(states: seq<State>, tasks: map<TaskId, Task>, t: TaskId, r: TaskId, v: View, accepted: bool)
    returns (more: seq<State>)
    requires At(states, State(tasks, v)) && AtRest(v) && t !in tasks && r in tasks && tasks[r] == Reader(v.link.generation)
    ensures Reaches(states, more, With(tasks, t, Finished, Completed(v, t, accepted)))
    ensures Completed(v, t, accepted).desk.returned == v.desk.returned[v.desk.nextId := Response(v.link.generation, accepted)]
    ensures Completed(v, t, accepted).link.processes[v.link.generation].history
         == v.link.processes[v.link.generation].history + [Received(Request(v.desk.nextId, false)), Event.Answered(v.desk.nextId, accepted)]
  {
    var id, g := v.desk.nextId, v.link.generation;
    var job := Call(id);
    var sent := Through(Enlisted(v, t), job);
    var answered := AnsweredBy(sent, id, accepted);
    var all := tasks[t := Write(job, Await(g))];
    more := RequestsAreSent(states, tasks, t, v);
    more := ProcessAnswers(more, all, sent, id, false, accepted);
    more := ReaderHandsOver(more, all, r, answered, id, accepted);
    more := Steps1(more, tasks, t, Write(job, Await(g)), HandedOver(answered, id, accepted), Completed(v, t, accepted), Finished);
  }

  /** From rest, a request that gets no answer times out, and its sender is withdrawn. */
  lemma RequestsTimeOut(states: seq<State>, tasks: map<TaskId, Task>, t: TaskId, v: View) returns (more: seq<State>)
    requires At(states, State(tasks, v)) && AtRest(v) && t !in tasks && v.desk.nextId !in v.desk.inbox && v.desk.nextId !in v.desk.pending
    ensures var sent := Through(Enlisted(v, t), Call(v.desk.nextId));
            var n := ReturnedAs(sent.(desk := sent.desk.(pending := v.desk.pending)), v.desk.nextId, TimedOut);
            Reaches(states, more, With(tasks, t, Finished, n))
  {
    var id, g := v.desk.nextId, v.link.generation;
    var job := Call(id);
    var sent := Through(Enlisted(v, t), job);
    var gone := sent.(desk := sent.desk.(pending := v.desk.pending));
    assert sent.desk.pending - {id} == v.desk.pending;
    more := RequestsAreSent(states, tasks, t, v);
    more := Steps1(more, tasks, t, Write(job, Await(g)), sent, sent, Write(job, Withdraw(TimedOut)));
    more := Steps1(more, tasks, t, Write(job, Withdraw(TimedOut)), sent, ReturnedAs(gone, id, TimedOut), Finished);
  }

  // ---- replies -----------------------------------------------------------------------------------

  /** From rest, a reply to a request of the current generation is delivered. */
  lemma RepliesAreDelivered(states: seq<State>, tasks: map<TaskId, Task>, t: TaskId, v: View, k: Token) returns (more: seq<State>)
    requires At(states, State(tasks, v)) && AtRest(v) && t !in tasks
    ensures var g := v.link.generation;
            Reaches(states, more, With(tasks, t, Replied(g, k, Delivered), v.(link := v.link.Record(g, Received(Reply(g, k))))))
  {
    var g, held := v.link.generation, Locked(v, None, Some(t));
    more := Begins(states, tasks, t, Answer(g, k, ReplyTestConnected), v);
    more := Steps1(more, tasks, t, Answer(g, k, ReplyTestConnected), v, v, Answer(g, k, ReplyTestGeneration));
    more := Steps1(more, tasks, t, Answer(g, k, ReplyTestGeneration), v, v, Answer(g, k, ReplyWantStdin));
    more := Steps1(more, tasks, t, Answer(g, k, ReplyWantStdin), v, held, Answer(g, k, ReplyHoldStdin));
    more := Steps1(more, tasks, t, Answer(g, k, ReplyHoldStdin), held, held, Answer(g, k, ReplyRetest));
    more := Steps1(more, tasks, t, Answer(g, k, ReplyRetest), held, held, Answer(g, k, ReplySend));
    more := Steps1(more, tasks, t, Answer(g, k, ReplySend), held, v.(link := v.link.Record(g, Received(Reply(g, k)))),
                   Replied(g, k, Delivered));
  }

  // ---- connecting --------------------------------------------------------------------------------

  /** Not connected, open, and with all locks free. */
  predicate Down(v: View) {
    !v.closed && v.locks == Locks(None, None, None) && !v.link.connected && v.link.hand.None?
  }

  /** The child that is left over, if any, is dead. */
  function Cleared(link: Link): Link {
    if link.child.Some? then link.Bury(link.child.value).(child := None) else link
  }

  /** A process more, not yet connected. */
  function Forked(link: Link): Link {
    var g := link.generation + 1;
    Cleared(link).(generation := g, hand := Some(g), processes := Cleared(link).processes[g := Process(true, [])])
  }

  function Connected(link: Link): Link {
    var g := link.generation + 1;
    Forked(link).(stdin := Some(g), child := Some(g), hand := None, connected := true, published := g)
  }

  lemma ClearsTheOldChild(states: seq<State>, tasks: map<TaskId, Task>, t: TaskId, v: View) returns (more: seq<State>)
    requires At(states, With(tasks, t, Ensure(TakePrevious), v)) && v.link.hand.None?
    ensures Reaches(states, more, With(tasks, t, Ensure(Fork), v.(link := Cleared(v.link))))
  {
    var link, taken := v.link, v.link.(child := None, hand := v.link.child);
    if link.child.Some? {
      var p := link.child.value;
      assert taken.Bury(p).(hand := None) == Cleared(link);
      more := Steps1(states, tasks, t, Ensure(TakePrevious), v, v.(link := taken), Ensure(KillPrevious(p)));
      more := Steps1(more, tasks, t, Ensure(KillPrevious(p)), v.(link := taken), v.(link := Cleared(link)), Ensure(Fork));
    } else {
      assert taken == link;
      more := Steps1(states, tasks, t, Ensure(TakePrevious), v, v, Ensure(Fork));
    }
  }

  lemma PublishesTheNewOne(states: seq<State>, tasks: map<TaskId, Task>, t: TaskId, v: View, link: Link) returns (more: seq<State>)
    requires At(states, With(tasks, t, Ensure(Fork), v.(link := Cleared(link)))) && v.locks.stdin.None? && v.link == link
    ensures Reaches(states, more, With(tasks, t, Ensure(StartReader(link.generation + 1)), v.(link := Connected(link))))
  {
    var g, forked := link.generation + 1, Forked(link);
    var first := forked.(stdin := Some(g));
    var second := first.(child := Some(g), hand := None);
    more := Steps1(states, tasks, t, Ensure(Fork), v.(link := Cleared(link)), v.(link := forked), Ensure(PutStdin(g)));
    more := Steps1(more, tasks, t, Ensure(PutStdin(g)), v.(link := forked), v.(link := first), Ensure(PutChild(g)));
    more := Steps1(more, tasks, t, Ensure(PutChild(g)), v.(link := first), v.(link := second), Ensure(Publish(g)));
    more := Steps1(more, tasks, t, Ensure(Publish(g)), v.(link := second), v.(link := Connected(link)), Ensure(StartReader(g)));
  }

  /** Whenever the client is down, a request to connect gets it a new process, and a reader for it. */
  lemma DownClientsConnect(states: seq<State>, tasks: map<TaskId, Task>, t: TaskId, r: TaskId, v: View) returns (more: seq<State>)
    requires At(states, State(tasks, v)) && Down(v) && t !in tasks && r !in tasks && r != t
    ensures var g := v.link.generation + 1;
            Reaches(states, more, State(tasks[t := Ensure(TestInitialized(g))][r := Reader(g)],
                                        Locked(v, Some(t), None).(link := Connected(v.link))))
  {
    var g := v.link.generation + 1;
    var connecting := Locked(v, Some(t), None);
    var spawning := v.(locks := Locks(Some(t), Some(t), None));
    more := EntersEnsure(states, tasks, t, v);
    more := Steps1(more, tasks, t, Ensure(TestConnected), connecting, connecting, Ensure(WantSpawn));
    more := Steps1(more, tasks, t, Ensure(WantSpawn), connecting, spawning, Ensure(TakePrevious));
    more := ClearsTheOldChild(more, tasks, t, spawning);
    more := PublishesTheNewOne(more, tasks, t, spawning, v.link);
    more := ReaderStartsToo(more, tasks, t, r, spawning.(link := Connected(v.link)), g);
  }

  lemma ReaderStartsToo(states: seq<State>, tasks: map<TaskId, Task>, t: TaskId, r: TaskId, v: View, g: nat) returns (more: seq<State>)
    requires At(states, With(tasks, t, Ensure(StartReader(g)), v)) && r !in tasks && r != t
    ensures Reaches(states, more, State(tasks[t := Ensure(TestInitialized(g))][r := Reader(g)], v.(locks := v.locks.(lifecycle := None))))
  {
    var v' := v.(locks := v.locks.(lifecycle := None));
    var s, s' := With(tasks, t, Ensure(StartReader(g)), v), State(tasks[t := Ensure(TestInitialized(g))][r := Reader(g)], v');
    assert SpawnMove(t, v, StartReader(g), v', Ensure(TestInitialized(g)));
    assert Move(t, v, Ensure(StartReader(g)), v', Ensure(TestInitialized(g)), Some(Reader(g)));
    assert s.tasks[t := s'.tasks[t]][r := s'.tasks[r]] == s'.tasks;
    assert SpawnStep(s, s', t, r);
    Extended(states, s');
    more := states + [s'];
  }

  // ---- the handshake -----------------------------------------------------------------------------

  /** The memory after `initialize` was answered and the answer returned. */
  function Agreed(v: View, t: TaskId): View
    requires v.link.generation in v.link.processes
  {
    var id := v.desk.nextId;
    var sent := Through(Enlisted(v, t), Initialize(id, v.link.generation));
    ReturnedAs(HandedOver(AnsweredBy(sent, id, true), id, true), id, Response(v.link.generation, true))
  }

  function HandshakeOver(v: View, t: TaskId): View
    requires v.link.generation in v.link.processes
  {
    var g := v.link.generation;
    var greeted := Through(Agreed(v, t), Acknowledge(g));
    greeted.(link := greeted.link.(initialized := g), locks := greeted.locks.(connect := None))
  }

  lemma InitializeIsAnswered(states: seq<State>, tasks: map<TaskId, Task>, t: TaskId, r: TaskId, v: View) returns (more: seq<State>)
    requires At(states, With(tasks, t, Ensure(TestInitialized(v.link.generation)), v)) && Writable(v)
    requires v.link.initialized != v.link.generation && v.link.processes[v.link.generation].alive
    requires r in tasks && r != t && tasks[r] == Reader(v.link.generation)
    ensures Reaches(states, more, With(tasks, t, Write(Acknowledge(v.link.generation), Test), Agreed(v, t)))
  {
    var id, g := v.desk.nextId, v.link.generation;
    var job, numbered := Initialize(id, g), v.(desk := v.desk.Allocate(t));
    var sent := Through(Enlisted(v, t), job);
    var answered := AnsweredBy(sent, id, true);
    var all := tasks[t := Write(job, Await(g))];
    more := Steps1(states, tasks, t, Ensure(TestInitialized(g)), v, numbered, Write(job, Enroll));
    more := Steps1(more, tasks, t, Write(job, Enroll), numbered, Enlisted(v, t), Write(job, Test));
    more := Writes(more, tasks, t, Enlisted(v, t), job, Write(job, Await(g)));
    more := ProcessAnswers(more, all, sent, id, true, true);
    more := ReaderHandsOver(more, all, r, answered, id, true);
    more := Steps1(more, tasks, t, Write(job, Await(g)), HandedOver(answered, id, true), Agreed(v, t), Write(Acknowledge(g), Test));
  }

  /** A new connection is initialized: request, answer, notification, and then the generation is recorded. */
  lemma HandshakesComplete(states: seq<State>, tasks: map<TaskId, Task>, t: TaskId, r: TaskId, v: View) returns (more: seq<State>)
    requires At(states, With(tasks, t, Ensure(TestInitialized(v.link.generation)), v)) && Writable(v)
    requires v.link.initialized != v.link.generation && v.link.processes[v.link.generation].alive
    requires r in tasks && r != t && tasks[r] == Reader(v.link.generation)
    ensures Reaches(states, more, With(tasks, t, Ensure(Ready), HandshakeOver(v, t)))
    ensures HandshakeOver(v, t).link.initialized == v.link.generation
    ensures HandshakeOver(v, t).link.processes[v.link.generation].history
         == v.link.processes[v.link.generation].history
            + [Received(Request(v.desk.nextId, true)), Event.Answered(v.desk.nextId, true), Received(Initialized)]
  {
    var g := v.link.generation;
    var greeted := Through(Agreed(v, t), Acknowledge(g));
    more := InitializeIsAnswered(states, tasks, t, r, v);
    more := Writes(more, tasks, t, Agreed(v, t), Acknowledge(g), Ensure(StoreInitialized(g)));
    more := Steps1(more, tasks, t, Ensure(StoreInitialized(g)), greeted, HandshakeOver(v, t), Ensure(Ready));
  }

  // ---- losing the connection -----------------------------------------------------------------------

  /** Every waiter has been told. */
  function AllTold(desk: Desk, waiters: set<RequestId>): Desk {
    desk.(taken := desk.taken - waiters, inbox := map id | id in desk.inbox.Keys + waiters ::
            if id in waiters then ConnectionLost else desk.inbox[id])
  }

  lemma ToldWithTheRest(desk: Desk, id: RequestId)
    requires id in desk.taken
    ensures AllTold(desk.Told(id), desk.Told(id).taken) == AllTold(desk, desk.taken)
  {
    assert AllTold(desk.Told(id), desk.Told(id).taken).inbox == AllTold(desk, desk.taken).inbox;
  }

  lemma WaitersAreTold(states: seq<State>, tasks: map<TaskId, Task>, t: TaskId, scope: Scope, after: After, v: View) returns (more: seq<State>)
    requires At(states, With(tasks, t, Tear(scope, Tell, after), v))
    ensures Reaches(states, more, With(tasks, t, Tear(scope, Tell, after), v.(desk := AllTold(v.desk, v.desk.taken))))
    decreases v.desk.taken
  {
    if v.desk.taken == {} {
      assert AllTold(v.desk, {}) == v.desk;
      more := states;
    } else {
      var id :| id in v.desk.taken;
      var told := v.(desk := v.desk.Told(id));
      more := Steps1(states, tasks, t, Tear(scope, Tell, after), v, told, Tear(scope, Tell, after));
      more := WaitersAreTold(more, tasks, t, scope, after, told);
      ToldWithTheRest(v.desk, id);
    }
  }

  /** The connection is gone: nothing connected or initialized, no waiter, no child, no stdin. */
  function TornDown(v: View): View {
    var link := v.link.(connected := false, initialized := 0, draining := false);
    v.(desk := AllTold(v.desk.(taken := v.desk.pending, pending := {}), v.desk.pending), link := Cleared(link).(stdin := None))
  }

  lemma TakesTheWaiters(states: seq<State>, tasks: map<TaskId, Task>, t: TaskId, scope: Scope, after: After, v: View) returns (more: seq<State>)
    requires At(states, With(tasks, t, Tear(scope, CheckGeneration, after), v)) && (scope.Any? || scope.g == v.link.generation)
    ensures var link := v.link.(connected := false, initialized := 0, draining := false);
            var desk := v.desk.(taken := v.desk.pending, pending := {});
            Reaches(states, more, With(tasks, t, Tear(scope, Tell, after), v.(link := link, desk := desk)))
  {
    var unset := v.(link := v.link.(connected := false, draining := true));
    var cleared := v.(link := unset.link.(initialized := 0));
    var drained := v.(link := cleared.link.(draining := false), desk := v.desk.(taken := v.desk.pending, pending := {}));
    more := Steps1(states, tasks, t, Tear(scope, CheckGeneration, after), v, v, Tear(scope, Unset, after));
    more := Steps1(more, tasks, t, Tear(scope, Unset, after), v, unset, Tear(scope, Uninitialize, after));
    more := Steps1(more, tasks, t, Tear(scope, Uninitialize, after), unset, cleared, Tear(scope, Drain, after));
    more := Steps1(more, tasks, t, Tear(scope, Drain, after), cleared, drained, Tear(scope, Tell, after));
  }

  lemma BuriesTheChild(states: seq<State>, tasks: map<TaskId, Task>, t: TaskId, scope: Scope, after: After, v: View) returns (more: seq<State>)
    requires At(states, With(tasks, t, Tear(scope, TakeChild, after), v)) && v.link.hand.None? && v.locks.stdin.None?
    ensures Reaches(states, more, With(tasks, t, Tear(scope, Release, after), v.(link := Cleared(v.link).(stdin := None))))
  {
    var link, taken := v.link, v.link.(child := None, hand := v.link.child);
    var buried := v.(link := Cleared(link));
    if link.child.Some? {
      var p := link.child.value;
      assert taken.Bury(p).(hand := None) == Cleared(link);
      more := Steps1(states, tasks, t, Tear(scope, TakeChild, after), v, v.(link := taken), Tear(scope, Kill(p), after));
      more := Steps1(more, tasks, t, Tear(scope, Kill(p), after), v.(link := taken), buried, Tear(scope, DropStdin, after));
    } else {
      assert taken == link;
      more := Steps1(states, tasks, t, Tear(scope, TakeChild, after), v, v, Tear(scope, DropStdin, after));
    }
    more := Steps1(more, tasks, t, Tear(scope, DropStdin, after), buried, buried.(link := buried.link.(stdin := None)),
                   Tear(scope, Release, after));
  }

  /** A teardown of the current connection, or of any, leaves no waiter, no child and no stdin behind. */
  lemma TeardownsComplete(states: seq<State>, tasks: map<TaskId, Task>, t: TaskId, scope: Scope, after: After, v: View) returns (more: seq<State>)
    requires At(states, With(tasks, t, Tear(scope, WantLifecycle, after), v)) && (scope.Any? || scope.g == v.link.generation)
    requires v.locks.lifecycle.None? && v.locks.stdin.None? && v.link.hand.None?
    ensures var locked := v.(locks := v.locks.(lifecycle := Some(t)));
            Reaches(states, more, With(tasks, t, Tear(scope, Release, after), TornDown(locked)))
  {
    var locked := v.(locks := v.locks.(lifecycle := Some(t)));
    var link := v.link.(connected := false, initialized := 0, draining := false);
    var drained := locked.(link := link, desk := v.desk.(taken := v.desk.pending, pending := {}));
    var told := drained.(desk := AllTold(drained.desk, v.desk.pending));
    more := Steps1(states, tasks, t, Tear(scope, WantLifecycle, after), v, locked, Tear(scope, CheckGeneration, after));
    more := TakesTheWaiters(more, tasks, t, scope, after, locked);
    more := WaitersAreTold(more, tasks, t, scope, after, drained);
    assert told.desk.taken == {};
    more := Steps1(more, tasks, t, Tear(scope, Tell, after), told, told, Tear(scope, TakeChild, after));
    more := BuriesTheChild(more, tasks, t, scope, after, told);
  }

  /** Reconnecting tears the connection down and opens the client again for a new one. */
  lemma ReconnectingReopens(states: seq<State>, tasks: map<TaskId, Task>, t: TaskId, v: View) returns (more: seq<State>)
    requires At(states, State(tasks, v)) && t !in tasks && v.locks == Locks(None, None, None) && v.link.hand.None?
    ensures Reaches(states, more, With(tasks, t, Ensure(Start), TornDown(v).(closed := false)))
  {
    var a := Tear(Any, WantLifecycle, AfterReconnect);
    var locked := v.(locks := v.locks.(lifecycle := Some(t)));
    more := Begins(states, tasks, t, a, v);
    more := TeardownsComplete(more, tasks, t, Any, AfterReconnect, v);
    more := Steps1(more, tasks, t, Tear(Any, Release, AfterReconnect), TornDown(locked), TornDown(v), Reopen);
    more := Steps1(more, tasks, t, Reopen, TornDown(v), TornDown(v).(closed := false), Ensure(Start));
  }

  /** Closing tears it down too, and then no request gets past its first test. */
  lemma ClosingShutsTheClient(states: seq<State>, tasks: map<TaskId, Task>, t: TaskId, u: TaskId, v: View) returns (more: seq<State>)
    requires At(states, State(tasks, v)) && t !in tasks && u !in tasks && u != t && v.locks == Locks(None, None, None) && v.link.hand.None?
    ensures var closed := TornDown(v).(closed := true);
            Reaches(states, more, State(tasks[t := Finished][u := Finished], closed))
  {
    var shut := v.(closed := true);
    var locked := shut.(locks := v.locks.(lifecycle := Some(t)));
    more := Begins(states, tasks, t, Close, v);
    more := Steps1(more, tasks, t, Close, v, shut, Tear(Any, WantLifecycle, AfterAll));
    more := TeardownsComplete(more, tasks, t, Any, AfterAll, shut);
    more := Steps1(more, tasks, t, Tear(Any, Release, AfterAll), TornDown(locked), TornDown(shut), Finished);
    var over := tasks[t := Finished];
    more := Begins(more, over, u, Ensure(Start), TornDown(shut));
    more := Steps1(more, over, u, Ensure(Start), TornDown(shut), TornDown(shut), Finished);
  }

  // ---- from a fresh client -------------------------------------------------------------------------

  /** A run of a fresh client that ends with a request that returned its answer, result or error. */
  lemma CallsHappen(accepted: bool) returns (states: seq<State>, id: RequestId)
    ensures Run(states) && id in states[|states| - 1].view.desk.returned
    ensures states[|states| - 1].view.desk.returned[id] == Response(1, accepted)
    ensures 1 in states[|states| - 1].view.link.processes
    ensures Received(Request(id, false)) in states[|states| - 1].view.link.processes[1].history
  {
    states := HandshakesHappen();
    var s := states[|states| - 1];
    id := s.view.desk.nextId;
    states := RequestsReturnTheirAnswers(states, s.tasks, 2, 1, s.view, accepted);
  }
}
