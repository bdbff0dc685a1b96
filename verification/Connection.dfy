/**
 The app-server connection of src/codex/client.rs as a step system.

 Every lock acquisition, atomic load or store, and map operation is one move of one task;
 an interleaving is any sequence of moves. A process is known by the generation it was
 spawned as and is modelled by a liveness bit and the history of its pipes.
 A timeout, a failing write and a dying process are moves that may be made at any time.
 */
module Connection {
  import opened Wrappers

  type TaskId = nat
  type RequestId = nat

  /** A request that Codex made of the client, for life. */
  type Token = nat

  /** One JSON line on an app-server's stdin. */
  datatype Frame =
    | Request(id: RequestId, initialize: bool)
    | Initialized
    | Message                  // a notification or a reply that is not bound to a generation
    | Reply(generation: nat, token: Token)   // a reply to the server request `token` of that generation

  /** What happened on the pipes of one process; a torn frame was written only in part. */
  datatype Event =
    | Received(frame: Frame)
    | Torn(frame: Frame)
    | Answered(id: RequestId, accepted: bool)

  datatype Process = Process(alive: bool, history: seq<Event>)

  datatype Outcome =
    | Response(from: nat, accepted: bool)
    | ConnectionLost
    | TimedOut

  /** What `write_json` is writing, and for whom. The middle two run under `connect_lock`. */
  datatype Job =
    | Call(id: RequestId)
    | Initialize(id: RequestId, g: nat)
    | Acknowledge(g: nat)
    | Notify

  datatype EnsureStage =
    | Start | WantConnect | Recheck | TestConnected | LoadGeneration
    | WantSpawn | TakePrevious | KillPrevious(previous: nat) | Fork
    | PutStdin(g: nat) | PutChild(g: nat) | Publish(g: nat) | StartReader(g: nat)
    | TestInitialized(g: nat) | StoreInitialized(g: nat) | Ready

  /** `epoch` is the generation at the moment the task saw `connected`. */
  datatype WriteStage =
    | Enroll | Test
    | Stamp(epoch: nat) | WantStdin(epoch: nat, g: nat) | HoldStdin(epoch: nat, g: nat)
    | Await(epoch: nat) | Withdraw(outcome: Outcome)

  datatype ReplyStage =
    | ReplyTestConnected | ReplyTestGeneration | ReplyWantStdin
    | ReplyHoldStdin | ReplyRetest | ReplySend | ReplyFailed

  /** How a reply ended for its caller; a failed one may still have got through. */
  datatype ReplyEnd = Delivered | Unsent | Failed

  /** `lose_connection(g)` is `Only(g)`; `disconnect` is `Any`. */
  datatype Scope = Only(g: nat) | Any

  datatype TearStage =
    | WantLifecycle | CheckGeneration | Unset | Uninitialize | Drain | Tell
    | TakeChild | Kill(victim: nat) | DropStdin | Release

  /** What the caller of a teardown does next. */
  datatype After = AfterWrite(job: Job, epoch: nat) | AfterReply(generation: nat, token: Token) | AfterReconnect | AfterAll

  datatype Task =
    | Ensure(stage: EnsureStage)
    | Write(job: Job, write: WriteStage)
    | Answer(generation: nat, token: Token, reply: ReplyStage)
    | Replied(generation: nat, token: Token, end: ReplyEnd)
    | Reader(generation: nat)
    | Tear(scope: Scope, tear: TearStage, after: After)
    | Close
    | Reopen
    | Finished

  datatype Locks = Locks(connect: Option<TaskId>, lifecycle: Option<TaskId>, stdin: Option<TaskId>)

  /**
   The atomics, the stdin and child slots, and the processes. Three fields are histories the code
   does not store: `hand` is a child handle that is out of its slot, `draining` says that a
   teardown has cleared `connected` but not yet taken the waiters, `published` is the last
   generation for which `connected` was set.
   */
  datatype Link = Link(
    generation: nat, initialized: nat, connected: bool,
    stdin: Option<nat>, child: Option<nat>,
    processes: map<nat, Process>,
    hand: Option<nat>, draining: bool, published: nat)
  {
    function Record(p: nat, e: Event): Link
      requires p in processes
    {
      this.(processes := processes[p := processes[p].(history := processes[p].history + [e])])
    }

    function Bury(p: nat): Link {
      if p in processes then this.(processes := processes[p := processes[p].(alive := false)]) else this
    }
  }

  /**
   The pending map (`pending` holds the senders, `inbox` what was sent), the senders that
   `fail_pending` has taken out of it and not told yet, and the id counter.
   `owner`, `sent` and `returned` are histories: which task allocated an id, which process
   its frame went to, and what its `request_raw` returned.
   */
  datatype Desk = Desk(
    nextId: RequestId, pending: set<RequestId>, taken: set<RequestId>, inbox: map<RequestId, Outcome>,
    owner: map<RequestId, TaskId>, sent: map<RequestId, (nat, bool)>, returned: map<RequestId, Outcome>)
  {
    function Allocate(t: TaskId): Desk {
      this.(nextId := nextId + 1, owner := owner[nextId := t])
    }

    /** `fail_pending` tells one of the waiters it has taken. */
    function Told(id: RequestId): Desk {
      this.(taken := taken - {id}, inbox := inbox[id := ConnectionLost])
    }

    function Log(frame: Frame, p: nat): Desk {
      if frame.Request? then this.(sent := sent[frame.id := (p, frame.initialize)]) else this
    }
  }

  /** All shared memory of the client. */
  datatype View = View(locks: Locks, link: Link, desk: Desk, closed: bool)

  datatype State = State(tasks: map<TaskId, Task>, view: View)

  const InitialState := State(map[], View(
                                Locks(None, None, None),
                                Link(0, 0, false, None, None, map[], None, false, 0),
                                Desk(1, {}, {}, map[], map[], map[], map[]), false))

  function JobFrame(job: Job): Frame {
    match job
    case Call(id) => Request(id, false)
    case Initialize(id, _) => Request(id, true)
    case Acknowledge(_) => Initialized
    case Notify => Message
  }

  function JobId(job: Job): Option<RequestId> {
    match job
    case Call(id) => Some(id)
    case Initialize(id, _) => Some(id)
    case _ => None
  }

  predicate UnderConnectLock(job: Job) {
    job.Initialize? || job.Acknowledge?
  }

  // ---- ensure_initialized and spawn_locked ---------------------------------------------

  predicate EnsureMove(t: TaskId, v: View, stage: EnsureStage, v': View, b: Task) {
    var locks, link := v.locks, v.link;
    var unlocked := v.(locks := locks.(connect := None));
    match stage
    case Start => v' == v && b == if v.closed then Finished else Ensure(WantConnect)
    case WantConnect =>
      locks.connect.None? && v' == v.(locks := locks.(connect := Some(t))) && b == Ensure(Recheck)
    case Recheck =>
      if v.closed then v' == unlocked && b == Finished else v' == v && b == Ensure(TestConnected)
    case TestConnected => v' == v && b == Ensure(if link.connected then LoadGeneration else WantSpawn)
    case LoadGeneration => v' == v && b == Ensure(TestInitialized(link.generation))
    case TestInitialized(g) =>
      if link.initialized == g then v' == unlocked && b == Ensure(Ready)
      else v' == v.(desk := v.desk.Allocate(t)) && b == Write(Initialize(v.desk.nextId, g), Enroll)
    case StoreInitialized(g) => v' == unlocked.(link := link.(initialized := g)) && b == Ensure(Ready)
    case Ready =>
      || (v' == v && (b == Finished || b == Write(Notify, Test)))
      || (v' == v.(desk := v.desk.Allocate(t)) && b == Write(Call(v.desk.nextId), Enroll))
    case _ => false
  }

  /** `spawn_locked`; its last move starts the reader task of the new process. */
  predicate SpawnMove(t: TaskId, v: View, stage: EnsureStage, v': View, b: Task) {
    var locks, link := v.locks, v.link;
    match stage
    case WantSpawn =>
      locks.lifecycle.None? && v' == v.(locks := locks.(lifecycle := Some(t))) && b == Ensure(TakePrevious)
    case TakePrevious =>
      && v' == v.(link := link.(child := None, hand := link.child))
      && b == Ensure(if link.child.Some? then KillPrevious(link.child.value) else Fork)
    case KillPrevious(p) => v' == v.(link := link.Bury(p).(hand := None)) && b == Ensure(Fork)
    case Fork =>
      || (v' == v.(locks := locks.(connect := None, lifecycle := None)) && b == Finished)   // the spawn failed
      || (&& b == Ensure(PutStdin(link.generation + 1))
          && v' == v.(link := link.(
                        generation := link.generation + 1, hand := Some(link.generation + 1),
                        processes := link.processes[link.generation + 1 := Process(true, [])])))
    case PutStdin(g) => locks.stdin.None? && v' == v.(link := link.(stdin := Some(g))) && b == Ensure(PutChild(g))
    case PutChild(g) => v' == v.(link := link.(child := Some(g), hand := None)) && b == Ensure(Publish(g))
    case Publish(g) => v' == v.(link := link.(connected := true, published := g)) && b == Ensure(StartReader(g))
    case StartReader(g) => v' == v.(locks := locks.(lifecycle := None)) && b == Ensure(TestInitialized(g))
    case _ => false
  }

  // ---- request_raw and write_json ------------------------------------------------------

  /** How `write_json` ends, for the caller that started it. */
  predicate Conclude(v: View, job: Job, epoch: nat, written: bool, v': View, b: Task) {
    match job
    case Acknowledge(g) =>
      if written then v' == v && b == Ensure(StoreInitialized(g))
      else v' == v.(locks := v.locks.(connect := None)) && b == Finished
    case Notify => v' == v && b == Finished
    case _ => v' == v && b == Write(job, if written then Await(epoch) else Withdraw(ConnectionLost))
  }

  /** `request_raw` hands its result to its caller, which gives up `connect_lock` on an error. */
  predicate Deliver(v: View, job: Job, outcome: Outcome, v': View, b: Task)
    requires JobId(job).Some?
  {
    var done := v.(desk := v.desk.(returned := v.desk.returned[JobId(job).value := outcome]));
    if job.Initialize? && outcome.Response? && outcome.accepted then v' == done && b == Write(Acknowledge(job.g), Test)
    else if job.Initialize? then v' == done.(locks := v.locks.(connect := None)) && b == Finished
    else v' == done && b == Finished
  }

  predicate WriteMove(t: TaskId, v: View, job: Job, stage: WriteStage, v': View, b: Task) {
    var locks, link, desk := v.locks, v.link, v.desk;
    match stage
    case Enroll =>
      && JobId(job).Some?
      && v' == v.(desk := desk.(pending := desk.pending + {JobId(job).value})) && b == Write(job, Test)
    case Test =>
      if link.connected then v' == v && b == Write(job, Stamp(link.generation))
      else Conclude(v, job, 0, false, v', b)
    case Stamp(epoch) => v' == v && b == Write(job, WantStdin(epoch, link.generation))
    case WantStdin(epoch, g) =>
      || (locks.stdin.None? && v' == v.(locks := locks.(stdin := Some(t))) && b == Write(job, HoldStdin(epoch, g)))
      || (v' == v && b == Tear(Only(g), WantLifecycle, AfterWrite(job, epoch)))   // the deadline passed
    case HoldStdin(epoch, g) => SendMove(v, job, epoch, g, v', b)
    case Await(_) =>
      && JobId(job).Some?
      && var id := JobId(job).value;
         if id in desk.inbox then Deliver(v, job, desk.inbox[id], v', b)
         else v' == v && b == Write(job, Withdraw(TimedOut))
    case Withdraw(outcome) =>
      && JobId(job).Some?
      && Deliver(v.(desk := desk.(pending := desk.pending - {JobId(job).value})), job, outcome, v', b)
  }

  /** The write itself, under the stdin lock: the whole frame, a part of it, or nothing gets through. */
  predicate SendMove(v: View, job: Job, epoch: nat, g: nat, v': View, b: Task) {
    var open := v.(locks := v.locks.(stdin := None));
    var lost := Tear(Only(g), WantLifecycle, AfterWrite(job, epoch));
    if v.link.stdin.None? || v.link.stdin.value !in v.link.processes then v' == open && b == lost
    else
      var p := v.link.stdin.value;
      var through := open.(link := v.link.Record(p, Received(JobFrame(job))), desk := v.desk.Log(JobFrame(job), p));
      || Conclude(through, job, epoch, true, v', b)
      || (b == lost && (v' == open || v' == through || v' == open.(link := v.link.Record(p, Torn(JobFrame(job))))))
  }

  // ---- write_json_for_generation -------------------------------------------------------

  predicate AnswerMove(t: TaskId, v: View, g: nat, k: Token, stage: ReplyStage, v': View, b: Task) {
    var locks, link := v.locks, v.link;
    var open := v.(locks := locks.(stdin := None));
    match stage
    case ReplyTestConnected => v' == v && b == if link.connected then Answer(g, k, ReplyTestGeneration) else Replied(g, k, Unsent)
    case ReplyTestGeneration => v' == v && b == if link.generation == g then Answer(g, k, ReplyWantStdin) else Replied(g, k, Unsent)
    case ReplyWantStdin =>
      || (locks.stdin.None? && v' == v.(locks := locks.(stdin := Some(t))) && b == Answer(g, k, ReplyHoldStdin))
      || (v' == v && b == Answer(g, k, ReplyFailed))   // the deadline passed
    case ReplyHoldStdin =>
      if link.connected then v' == v && b == Answer(g, k, ReplyRetest) else v' == open && b == Answer(g, k, ReplyFailed)
    case ReplyRetest =>
      if link.generation == g then v' == v && b == Answer(g, k, ReplySend) else v' == open && b == Answer(g, k, ReplyFailed)
    case ReplySend =>
      if link.stdin.None? || link.stdin.value !in link.processes then v' == open && b == Answer(g, k, ReplyFailed)
      else
        var through := open.(link := link.Record(link.stdin.value, Received(Reply(g, k))));
        var torn := open.(link := link.Record(link.stdin.value, Torn(Reply(g, k))));
        || (v' == through && b == Replied(g, k, Delivered))
        || (b == Answer(g, k, ReplyFailed) && (v' == open || v' == through || v' == torn))
    case ReplyFailed =>
      v' == v && b == if link.generation == g then Tear(Only(g), WantLifecycle, AfterReply(g, k)) else Replied(g, k, Failed)
  }

  // ---- disconnect and lose_connection --------------------------------------------------

  predicate TearMove(t: TaskId, v: View, scope: Scope, stage: TearStage, after: After, v': View, b: Task) {
    var locks, link := v.locks, v.link;
    match stage
    case WantLifecycle =>
      && locks.lifecycle.None?
      && v' == v.(locks := locks.(lifecycle := Some(t))) && b == Tear(scope, CheckGeneration, after)
    case CheckGeneration =>
      v' == v && b == Tear(scope, if scope.Any? || scope.g == link.generation then Unset else Release, after)
    case Unset =>
      v' == v.(link := link.(connected := false, draining := true)) && b == Tear(scope, Uninitialize, after)
    case Uninitialize => v' == v.(link := link.(initialized := 0)) && b == Tear(scope, Drain, after)
    case Drain =>
      && v' == v.(desk := v.desk.(taken := v.desk.pending, pending := {}), link := link.(draining := false))
      && b == Tear(scope, Tell, after)
    case Tell =>
      if v.desk.taken == {} then v' == v && b == Tear(scope, TakeChild, after)
      else b == Tear(scope, Tell, after) && exists id :: id in v.desk.taken && v' == v.(desk := v.desk.Told(id))
    case TakeChild =>
      && v' == v.(link := link.(child := None, hand := link.child))
      && b == Tear(scope, if link.child.Some? then Kill(link.child.value) else DropStdin, after)
    case Kill(p) => v' == v.(link := link.Bury(p).(hand := None)) && b == Tear(scope, DropStdin, after)
    case DropStdin =>
      && (v' == v || (locks.stdin.None? && v' == v.(link := link.(stdin := None))))   // or the lock was not free in time
      && b == Tear(scope, Release, after)
    case Release =>
      var released := v.(locks := locks.(lifecycle := None));
      match after
      case AfterWrite(job, epoch) => Conclude(released, job, epoch, false, v', b)
      case AfterReply(g, k) => v' == released && b == Replied(g, k, Failed)
      case AfterReconnect => v' == released && b == Reopen
      case AfterAll => v' == released && b == Finished
  }

  // ---- the reader task, and one move of any task -----------------------------------------

  /** A reader delivers an answer its own process gave, meets the end of its pipe, or is aborted. */
  ghost predicate ReaderMove(v: View, g: nat, v': View, b: Task) {
    || (v' == v && (b == Finished || b == Tear(Only(g), WantLifecycle, AfterAll)))
    || exists id: RequestId, accepted: bool :: ReaderDelivers(v, g, v', b, id, accepted)
  }

  predicate ReaderDelivers(v: View, g: nat, v': View, b: Task, id: RequestId, accepted: bool) {
    && g in v.link.processes && Answered(id, accepted) in v.link.processes[g].history && id in v.desk.pending
    && v' == v.(desk := v.desk.(pending := v.desk.pending - {id},
                                inbox := v.desk.inbox[id := Response(g, accepted)]))
    && b == Reader(g)
  }

  /** Task `t` at stage `a` turns `v` into `v'` and goes on at `b`; it may start another task. */
  ghost predicate Move(t: TaskId, v: View, a: Task, v': View, b: Task, child: Option<Task>) {
    && child == (if a.Ensure? && a.stage.StartReader? then Some(Reader(a.stage.g)) else None)
    && match a
       case Ensure(stage) => EnsureMove(t, v, stage, v', b) || SpawnMove(t, v, stage, v', b)
       case Write(job, stage) => WriteMove(t, v, job, stage, v', b)
       case Answer(g, k, stage) => AnswerMove(t, v, g, k, stage, v', b)
       case Reader(g) => ReaderMove(v, g, v', b)
       case Tear(scope, stage, after) => TearMove(t, v, scope, stage, after, v', b)
       case Close => v' == v.(closed := true) && b == Tear(Any, WantLifecycle, AfterAll)
       case Reopen => v' == v.(closed := false) && b == Ensure(Start)
       case _ => false
  }

  // ---- runs --------------------------------------------------------------------------------

  ghost predicate TaskStep(s: State, s': State, t: TaskId) {
    && t in s.tasks && t in s'.tasks
    && Move(t, s.view, s.tasks[t], s'.view, s'.tasks[t], None)
    && s'.tasks == s.tasks[t := s'.tasks[t]]
  }

  ghost predicate SpawnStep(s: State, s': State, t: TaskId, r: TaskId) {
    && t in s.tasks && t in s'.tasks && r !in s.tasks && r in s'.tasks
    && Move(t, s.view, s.tasks[t], s'.view, s'.tasks[t], Some(s'.tasks[r]))
    && s'.tasks == s.tasks[t := s'.tasks[t]][r := s'.tasks[r]]
  }

  /** The entry points: request and notify, generation-bound reply, unbound reply, close, reconnect. */
  predicate EntryPoint(task: Task) {
    || task == Ensure(Start)
    || (task.Answer? && task.reply.ReplyTestConnected?)
    || task == Write(Notify, Test)
    || task == Close
    || task == Tear(Any, WantLifecycle, AfterReconnect)
  }

  predicate StartStep(s: State, s': State, t: TaskId, task: Task) {
    t !in s.tasks && EntryPoint(task) && s' == s.(tasks := s.tasks[t := task])
  }

  predicate ExitStep(s: State, s': State, p: nat) {
    p in s.view.link.processes && s' == s.(view := s.view.(link := s.view.link.Bury(p)))
  }

  /** Codex answers only requests it was sent; JSON-RPC 2.0, section 5. */
  ghost predicate AnsweredStep(s: State, s': State, p: nat, id: RequestId, accepted: bool) {
    var link := s.view.link;
    && p in link.processes && link.processes[p].alive
    && (exists initialize: bool :: Received(Request(id, initialize)) in link.processes[p].history)
    && s' == s.(view := s.view.(link := link.Record(p, Answered(id, accepted))))
  }

  ghost predicate Next(s: State, s': State) {
    || (exists t: TaskId :: TaskStep(s, s', t))
    || (exists t: TaskId, r: TaskId :: SpawnStep(s, s', t, r))
    || (exists t: TaskId, task: Task :: StartStep(s, s', t, task))
    || (exists p: nat :: ExitStep(s, s', p))
    || (exists p: nat, id: RequestId, accepted: bool :: AnsweredStep(s, s', p, id, accepted))
  }

  ghost predicate Steps(states: seq<State>, i: nat)
    requires i + 1 < |states|
  {
    Next(states[i], states[i + 1])
  }

  /** A run is any interleaving that starts from a fresh client. */
  ghost predicate Run(states: seq<State>) {
    && |states| > 0 && states[0] == InitialState
    && forall i :: 0 <= i < |states| - 1 ==> Steps(states, i)
  }
}
