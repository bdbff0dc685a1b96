/**
 Runs of the connection protocol that connect, complete the handshake, and fail a waiting request:
 the steps are not idle, and the theorems about them are not empty.
 */
module ConnectionWitnesses {
  import opened Wrappers
  import opened Connection
  import opened ConnectionSafety

  ghost predicate At(states: seq<State>, s: State) {
    Run(states) && states[|states| - 1] == s
  }

  lemma Extended(states: seq<State>, s: State)
    requires Run(states) && Next(states[|states| - 1], s)
    ensures At(states + [s], s)
  {
    var more := states + [s];
    forall i | 0 <= i < |more| - 1 ensures Steps(more, i) {
      if i < |states| - 1 {
        assert Steps(states, i);
      }
    }
  }

  // ---- a client with one task, from its start to a connection ------------------------------------

  function One(a: Task, v: View): State {
    State(map[0 := a], v)
  }

  lemma OneMoves(states: seq<State>, v: View, stage: EnsureStage, v': View, next: EnsureStage) returns (more: seq<State>)
    requires At(states, One(Ensure(stage), v)) && !stage.StartReader?
    requires EnsureMove(0, v, stage, v', Ensure(next)) || SpawnMove(0, v, stage, v', Ensure(next))
    ensures At(more, One(Ensure(next), v'))
  {
    var s, s' := One(Ensure(stage), v), One(Ensure(next), v');
    assert Move(0, v, Ensure(stage), v', Ensure(next), None);
    assert s.tasks[0 := s'.tasks[0]] == s'.tasks;
    assert TaskStep(s, s', 0);
    Extended(states, s');
    more := states + [s'];
  }

  lemma Begun() returns (states: seq<State>)
    ensures At(states, One(Ensure(Start), InitialState.view))
  {
    var s := One(Ensure(Start), InitialState.view);
    assert s.tasks == InitialState.tasks[0 := Ensure(Start)];
    assert StartStep(InitialState, s, 0, Ensure(Start));
    Extended([InitialState], s);
    states := [InitialState] + [s];
  }

  /** The shared memory once process 1 is connected; task 0 holds `connect_lock` and perhaps others. */
  function Up(lifecycle: Option<TaskId>, stdin: Option<TaskId>, history: seq<Event>, desk: Desk): View {
    View(Locks(Some(0), lifecycle, stdin), Link(1, 0, true, Some(1), Some(1), map[1 := Process(true, history)], None, false, 1), desk, false)
  }

  const NO_REQUESTS: Desk := InitialState.view.desk

  lemma Spawned() returns (states: seq<State>)
    ensures At(states, One(Ensure(PutStdin(1)), Spawning()))
  {
    var v0 := InitialState.view;
    var v1 := v0.(locks := v0.locks.(connect := Some(0)));
    var v2 := v1.(locks := v1.locks.(lifecycle := Some(0)));
    states := Begun();
    states := OneMoves(states, v0, Start, v0, WantConnect);
    states := OneMoves(states, v0, WantConnect, v1, Recheck);
    states := OneMoves(states, v1, Recheck, v1, TestConnected);
    states := OneMoves(states, v1, TestConnected, v1, WantSpawn);
    states := OneMoves(states, v1, WantSpawn, v2, TakePrevious);
    states := OneMoves(states, v2, TakePrevious, v2, Fork);
    states := OneMoves(states, v2, Fork, Spawning(), PutStdin(1));
  }

  function Spawning(): View {
    View(Locks(Some(0), Some(0), None), Link(1, 0, false, None, None, map[1 := Process(true, [])], Some(1), false, 0), NO_REQUESTS, false)
  }

  /** A client that is asked to connect does connect, with the process it spawned. */
  lemma ConnectionsHappen() returns (states: seq<State>)
    ensures At(states, One(Ensure(StartReader(1)), Up(Some(0), None, [], NO_REQUESTS)))
    ensures states[|states| - 1].view.link.connected
  {
    var v := Spawning();
    var l1 := v.link.(stdin := Some(1));
    var l2 := l1.(child := Some(1), hand := None);
    states := Spawned();
    states := OneMoves(states, v, PutStdin(1), v.(link := l1), PutChild(1));
    states := OneMoves(states, v.(link := l1), PutChild(1), v.(link := l2), Publish(1));
    states := OneMoves(states, v.(link := l2), Publish(1), Up(Some(0), None, [], NO_REQUESTS), StartReader(1));
  }

  // ---- with a reader: the handshake ------------------------------------------------------------

  function Two(a: Task, r: Task, v: View): State {
    State(map[0 := a, 1 := r], v)
  }

  lemma FirstMoves(states: seq<State>, a: Task, r: Task, v: View, v': View, b: Task) returns (more: seq<State>)
    requires At(states, Two(a, r, v)) && Move(0, v, a, v', b, None)
    ensures At(more, Two(b, r, v'))
  {
    var s, s' := Two(a, r, v), Two(b, r, v');
    assert s.tasks[0 := s'.tasks[0]] == s'.tasks;
    assert TaskStep(s, s', 0);
    Extended(states, s');
    more := states + [s'];
  }

  lemma SecondMoves(states: seq<State>, a: Task, r: Task, v: View, v': View, b: Task) returns (more: seq<State>)
    requires At(states, Two(a, r, v)) && Move(1, v, r, v', b, None)
    ensures At(more, Two(a, b, v'))
  {
    var s, s' := Two(a, r, v), Two(a, b, v');
    assert s.tasks[1 := s'.tasks[1]] == s'.tasks;
    assert TaskStep(s, s', 1);
    Extended(states, s');
    more := states + [s'];
  }

  lemma ReaderStarts() returns (states: seq<State>)
    ensures At(states, Two(Ensure(TestInitialized(1)), Reader(1), Up(None, None, [], NO_REQUESTS)))
  {
    states := ConnectionsHappen();
    var v, v' := Up(Some(0), None, [], NO_REQUESTS), Up(None, None, [], NO_REQUESTS);
    var s, s' := One(Ensure(StartReader(1)), v), Two(Ensure(TestInitialized(1)), Reader(1), v');
    assert SpawnMove(0, v, StartReader(1), v', Ensure(TestInitialized(1)));
    assert Move(0, v, Ensure(StartReader(1)), v', Ensure(TestInitialized(1)), Some(Reader(1)));
    assert s.tasks[0 := s'.tasks[0]][1 := s'.tasks[1]] == s'.tasks;
    assert SpawnStep(s, s', 0, 1);
    Extended(states, s');
    states := states + [s'];
  }

  const ASKING: Job := Initialize(1, 1)
  const ASKED: seq<Event> := [Received(Request(1, true))]

  /** Request 1 is enrolled. */
  function Enrolling(): Desk {
    NO_REQUESTS.(nextId := 2, owner := map[1 := 0], pending := {1})
  }

  /** Request 1 was sent to process 1. */
  function Asking(): Desk {
    Enrolling().(sent := map[1 := (1, true)])
  }

  /** A frame that gets through is one more event on the pipe of process 1. */
  lemma SendsThrough(history: seq<Event>, desk: Desk, job: Job, b: Task, lifecycle: Option<TaskId>)
    requires Conclude(Up(lifecycle, None, history + [Received(JobFrame(job))], desk.Log(JobFrame(job), 1)), job, 1, true,
                      Up(lifecycle, None, history + [Received(JobFrame(job))], desk.Log(JobFrame(job), 1)), b)
    ensures SendMove(Up(lifecycle, Some(0), history, desk), job, 1, 1,
                     Up(lifecycle, None, history + [Received(JobFrame(job))], desk.Log(JobFrame(job), 1)), b)
  {
    var v := Up(lifecycle, Some(0), history, desk);
    assert v.link.Record(1, Received(JobFrame(job))).processes == map[1 := Process(true, history + [Received(JobFrame(job))])];
  }

  /** `initialize` is sent and awaited. */
  lemma InitializeIsSent() returns (states: seq<State>)
    ensures At(states, Two(Write(ASKING, Await(1)), Reader(1), Up(None, None, ASKED, Asking())))
  {
    states := ReaderStarts();
    var v0, r := Up(None, None, [], NO_REQUESTS), Reader(1);
    var v1 := Up(None, None, [], NO_REQUESTS.Allocate(0));
    var v2, v3 := Up(None, None, [], Enrolling()), Up(None, Some(0), [], Enrolling());
    states := FirstMoves(states, Ensure(TestInitialized(1)), r, v0, v1, Write(ASKING, Enroll));
    states := FirstMoves(states, Write(ASKING, Enroll), r, v1, v2, Write(ASKING, Test));
    states := FirstMoves(states, Write(ASKING, Test), r, v2, v2, Write(ASKING, Stamp(1)));
    states := FirstMoves(states, Write(ASKING, Stamp(1)), r, v2, v2, Write(ASKING, WantStdin(1, 1)));
    states := FirstMoves(states, Write(ASKING, WantStdin(1, 1)), r, v2, v3, Write(ASKING, HoldStdin(1, 1)));
    assert [] + ASKED == ASKED && Enrolling().Log(JobFrame(ASKING), 1) == Asking();
    SendsThrough([], Enrolling(), ASKING, Write(ASKING, Await(1)), None);
    states := FirstMoves(states, Write(ASKING, HoldStdin(1, 1)), r, v3, Up(None, None, ASKED, Asking()), Write(ASKING, Await(1)));
  }

  const ANSWERED: seq<Event> := ASKED + [Event.Answered(1, true)]
  const GREETED: seq<Event> := ANSWERED + [Received(Initialized)]

  function Heard(): Desk {
    Asking().(pending := {}, inbox := map[1 := Response(1, true)])
  }

  function AllAnswered(): Desk {
    Heard().(returned := map[1 := Response(1, true)])
  }

  lemma InitializeIsAnswered() returns (states: seq<State>)
    ensures At(states, Two(Write(ASKING, Await(1)), Reader(1), Up(None, None, ANSWERED, Heard())))
  {
    states := InitializeIsSent();
    var a, v, v' := Write(ASKING, Await(1)), Up(None, None, ASKED, Asking()), Up(None, None, ANSWERED, Asking());
    var s, s' := Two(a, Reader(1), v), Two(a, Reader(1), v');
    assert v.link.Record(1, Event.Answered(1, true)).processes == v'.link.processes;
    assert ASKED[0] == Received(Request(1, true)) && Received(Request(1, true)) in v.link.processes[1].history;
    assert AnsweredStep(s, s', 1, 1, true);
    Extended(states, s');
    states := states + [s'];
    assert ANSWERED[1] == Event.Answered(1, true);
    assert ReaderDelivers(v', 1, Up(None, None, ANSWERED, Heard()), Reader(1), 1, true);
    states := SecondMoves(states, a, Reader(1), v', Up(None, None, ANSWERED, Heard()), Reader(1));
  }

  /** `initialized` is about to be sent. */
  lemma AnswerIsTaken() returns (states: seq<State>)
    ensures At(states, Two(Write(Acknowledge(1), HoldStdin(1, 1)), Reader(1), Up(None, Some(0), ANSWERED, AllAnswered())))
  {
    states := InitializeIsAnswered();
    var r, ack := Reader(1), Acknowledge(1);
    var v0, v1, v2 := Up(None, None, ANSWERED, Heard()), Up(None, None, ANSWERED, AllAnswered()), Up(None, Some(0), ANSWERED, AllAnswered());
    states := FirstMoves(states, Write(ASKING, Await(1)), r, v0, v1, Write(ack, Test));
    states := FirstMoves(states, Write(ack, Test), r, v1, v1, Write(ack, Stamp(1)));
    states := FirstMoves(states, Write(ack, Stamp(1)), r, v1, v1, Write(ack, WantStdin(1, 1)));
    states := FirstMoves(states, Write(ack, WantStdin(1, 1)), r, v1, v2, Write(ack, HoldStdin(1, 1)));
  }

  /** The handshake is complete and all locks are free. */
  function Greeted(): View {
    var v := Up(None, None, GREETED, AllAnswered());
    v.(link := v.link.(initialized := 1), locks := v.locks.(connect := None))
  }

  /** A client that is asked to connect completes the handshake: generation 1 is initialized. */
  lemma HandshakesHappen() returns (states: seq<State>)
    ensures At(states, Two(Ensure(Ready), Reader(1), Greeted()))
    ensures Run(states) && states[|states| - 1].view.link.connected && states[|states| - 1].view.link.initialized == 1
  {
    states := AnswerIsTaken();
    var r, ack, v, v' := Reader(1), Acknowledge(1), Up(None, Some(0), ANSWERED, AllAnswered()), Up(None, None, GREETED, AllAnswered());
    SendsThrough(ANSWERED, AllAnswered(), ack, Ensure(StoreInitialized(1)), None);
    states := FirstMoves(states, Write(ack, HoldStdin(1, 1)), r, v, v', Ensure(StoreInitialized(1)));
    states := FirstMoves(states, Ensure(StoreInitialized(1)), r, v', Greeted(), Ensure(Ready));
  }

  // ---- with a reader: a waiter that is drained -----------------------------------------------------

  lemma TearMoves(states: seq<State>, stage: TearStage, v: View, v': View, next: TearStage) returns (more: seq<State>)
    requires At(states, Two(Write(ASKING, Await(1)), Tear(Only(1), stage, AfterAll), v))
    requires TearMove(1, v, Only(1), stage, AfterAll, v', Tear(Only(1), next, AfterAll))
    ensures At(more, Two(Write(ASKING, Await(1)), Tear(Only(1), next, AfterAll), v'))
  {
    more := SecondMoves(states, Write(ASKING, Await(1)), Tear(Only(1), stage, AfterAll), v, v', Tear(Only(1), next, AfterAll));
  }

  /** A waiting request whose process ends its output is told that the connection is lost. */
  lemma WaitersAreDrained() returns (states: seq<State>)
    ensures Run(states) && states[|states| - 1].view.desk.returned == map[1 := ConnectionLost]
  {
    states := InitializeIsSent();
    var a, v0 := Write(ASKING, Await(1)), Up(None, None, ASKED, Asking());
    states := SecondMoves(states, a, Reader(1), v0, v0, Tear(Only(1), WantLifecycle, AfterAll));
    var v1 := Up(Some(1), None, ASKED, Asking());
    states := TearMoves(states, WantLifecycle, v0, v1, CheckGeneration);
    states := TearMoves(states, CheckGeneration, v1, v1, Unset);
    var v2 := v1.(link := v1.link.(connected := false, draining := true));
    states := TearMoves(states, Unset, v1, v2, Uninitialize);
    states := TearMoves(states, Uninitialize, v2, v2, Drain);
    var v3 := v2.(link := v2.link.(draining := false), desk := v2.desk.(taken := {1}, pending := {}));
    states := TearMoves(states, Drain, v2, v3, Tell);
    var v4 := v3.(desk := v3.desk.Told(1));
    states := TearMoves(states, Tell, v3, v4, Tell);
    var v5 := v4.(desk := v4.desk.(returned := map[1 := ConnectionLost]), locks := v4.locks.(connect := None));
    states := FirstMoves(states, a, Tear(Only(1), Tell, AfterAll), v4, v5, Finished);
  }

  // ---- with a reader: a reply that arrives and is reported as failed ---------------------------------

  function Three(b: Task, v: View): State {
    State(map[0 := Ensure(TestInitialized(1)), 1 := Reader(1), 2 := b], v)
  }

  lemma ThirdMoves(states: seq<State>, a: Task, v: View, v': View, b: Task) returns (more: seq<State>)
    requires At(states, Three(a, v)) && Move(2, v, a, v', b, None)
    ensures At(more, Three(b, v'))
  {
    var s, s' := Three(a, v), Three(b, v');
    assert s.tasks[2 := s'.tasks[2]] == s'.tasks;
    assert TaskStep(s, s', 2);
    Extended(states, s');
    more := states + [s'];
  }

  /** The reply is about to be written. */
  lemma ReplyIsReady(k: Token) returns (states: seq<State>)
    ensures At(states, Three(Answer(1, k, ReplySend), Up(None, Some(2), [], NO_REQUESTS)))
  {
    states := ReaderStarts();
    var v, held := Up(None, None, [], NO_REQUESTS), Up(None, Some(2), [], NO_REQUESTS);
    var s, s' := Two(Ensure(TestInitialized(1)), Reader(1), v), Three(Answer(1, k, ReplyTestConnected), v);
    assert s'.tasks == s.tasks[2 := Answer(1, k, ReplyTestConnected)];
    assert StartStep(s, s', 2, Answer(1, k, ReplyTestConnected));
    Extended(states, s');
    states := states + [s'];
    states := ThirdMoves(states, Answer(1, k, ReplyTestConnected), v, v, Answer(1, k, ReplyTestGeneration));
    states := ThirdMoves(states, Answer(1, k, ReplyTestGeneration), v, v, Answer(1, k, ReplyWantStdin));
    states := ThirdMoves(states, Answer(1, k, ReplyWantStdin), v, held, Answer(1, k, ReplyHoldStdin));
    states := ThirdMoves(states, Answer(1, k, ReplyHoldStdin), held, held, Answer(1, k, ReplyRetest));
    states := ThirdMoves(states, Answer(1, k, ReplyRetest), held, held, Answer(1, k, ReplySend));
  }

  /** A reply that got through may be reported as failed: the deadline can pass after the write. */
  lemma ArrivedRepliesCanFail(k: Token) returns (states: seq<State>)
    ensures At(states, Three(Answer(1, k, ReplyFailed), Up(None, None, [Received(Reply(1, k))], NO_REQUESTS)))
  {
    states := ReplyIsReady(k);
    var held := Up(None, Some(2), [], NO_REQUESTS);
    var through := Up(None, None, [Received(Reply(1, k))], NO_REQUESTS);
    assert [] + [Received(Reply(1, k))] == [Received(Reply(1, k))];
    assert held.link.Record(1, Received(Reply(1, k))).processes == through.link.processes;
    states := ThirdMoves(states, Answer(1, k, ReplySend), held, through, Answer(1, k, ReplyFailed));
  }
}
