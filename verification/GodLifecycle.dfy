/**
 The GOD lifecycle of src/discord/bot.rs as a step system: dispatches under the read side of the
 dispatch barrier, enabling, revoking and expiring a session under its write side, and cleanups
 under a lease per task. Every lock operation, set or map operation, store call and request to
 Codex is one step, and the steps of any number of threads interleave.
 */
module GodLifecycle {
  import opened Wrappers

  type Thread = nat
  type Task = string

  datatype Session = Session(task: Task, epoch: nat)

  /** What happened, in order; only for stating what must have come before what. */
  datatype Event =
    | Ended(epoch: nat)
    | MarkedDirty(who: Thread, task: Task)
    | ReadFailed(who: Thread, task: Task)   // the session is active for the task, and the read did not show it
    | Started(who: Thread, task: Task, seen: Option<nat>, mark: nat)
    | PermissionsReset(who: Thread, task: Task)
    | Audited(who: Thread, task: Task)

  /** Where a thread goes on after a cleanup. */
  datatype Back = ToIdle | ToEnable(task: Task) | ToUnlock

  datatype Stage = TakeLease | Quarantine | Interrupt | Normalize | Audit | ClearDirty | Finish | Unquarantine | Requarantine | Drop

  /** A cleanup under way: what was confirmed since the lease was taken, as places in the history. */
  datatype Cleanup = Cleanup(
    task: Task, stage: Stage, interrupts: bool, since: nat, stopped: bool, reset: Option<nat>, audited: Option<nat>, ok: bool, back: Back)

  /**
   The places of a thread. A dispatch remembers which session it saw, and as a place in the history where
   it read none (`read`) or marked its task (`mark`, which without a session is where it read none).
   */
  datatype Pc =
    | Idle
    | DispatchWait(task: Task) | DispatchCheck(task: Task) | DispatchRead(task: Task) | DispatchRecheck(task: Task, seen: Option<nat>, read: nat)
    | DispatchMark(task: Task, seen: Option<nat>) | DispatchSend(task: Task, seen: Option<nat>, mark: nat) | DispatchAwait(task: Task)
    | EnableWait(task: Task) | EnableCheck(task: Task) | EnableEnd(task: Task) | EnableQuarantine(task: Task, previous: Task)
    | EnableDirty(task: Task, previous: Task) | EnableActivate(task: Task)
    | OffWait | OffRead | OffQuarantine(previous: Task) | OffDirty(previous: Task) | OffRevoke(revoking: Option<Task>)
    | MonitorWait | MonitorExpire | MonitorQuarantine(previous: Task) | MonitorRelease(previous: Task) | MonitorDirty(previous: Task)
    | Recover(task: Task)
    | Cleaning(job: Cleanup)
    | Unlock

  datatype State = State(
    readers: set<Thread>, writer: Option<Thread>,
    session: Option<Session>, nextEpoch: nat, required: set<Task>,
    quarantined: set<Task>, dirty: set<Task>, leases: map<Task, Thread>,
    log: seq<Event>, threads: map<Thread, Pc>)

  /** How a step turns out: what an idle thread begins, whether a call succeeds, and a second way to fail. */
  datatype Choice = Choice(begin: Pc, ok: bool, other: bool)

  function PcOf(s: State, t: Thread): Pc {
    if t in s.threads then s.threads[t] else Idle
  }

  function At(s: State, t: Thread, pc: Pc): State {
    s.(threads := s.threads[t := pc])
  }

  function NewCleanup(task: Task, interrupts: bool, back: Back): Pc {
    Cleaning(Cleanup(task, TakeLease, interrupts, 0, !interrupts, None, None, false, back))
  }

  predicate Begins(pc: Pc) {
    || pc.DispatchWait? || pc.EnableWait? || pc.OffWait? || pc.MonitorWait? || pc.Recover?
    || (pc.Cleaning? && exists interrupts :: pc == NewCleanup(pc.job.task, interrupts, ToIdle))
  }

  /** `ensure_task_not_god_quarantined`. */
  predicate Blocked(s: State, task: Task) {
    task in s.quarantined || task in s.required
  }

  /** The session ends and its task is marked for cleanup by the session service. */
  function EndSession(s: State): State {
    if s.session.None? then s
    else s.(session := None, required := s.required + {s.session.value.task}, log := s.log + [Ended(s.session.value.epoch)])
  }

  function LeaveDispatch(s: State, t: Thread): State {
    At(s.(readers := s.readers - {t}), t, Idle)
  }

  // ---- dispatch_task_input -------------------------------------------------------------------

  function Dispatch(s: State, t: Thread, pc: Pc, c: Choice): State {
    match pc
    case DispatchWait(task) =>
      if s.writer.Some? then s else At(s.(readers := s.readers + {t}), t, DispatchCheck(task))
    case DispatchCheck(task) =>
      if Blocked(s, task) then LeaveDispatch(s, t) else At(s, t, DispatchRead(task))
    case DispatchRead(task) =>
      if s.session.Some? && s.session.value.task == task then
        if c.ok then At(s, t, DispatchRecheck(task, Some(s.session.value.epoch), |s.log|))
        else
          var required := if c.other then s.required + {task} else s.required;
          At(s.(required := required, log := s.log + [ReadFailed(t, task)]), t, DispatchRecheck(task, None, |s.log|))
      else
        var required := if c.other && s.session.Some? then s.required + {s.session.value.task} else s.required;
        At(s.(required := required), t, DispatchRecheck(task, None, |s.log|))
    case DispatchRecheck(task, seen, read) =>
      if Blocked(s, task) then LeaveDispatch(s, t)
      else At(s, t, if seen.Some? then DispatchMark(task, seen) else DispatchSend(task, seen, read))
    case DispatchMark(task, seen) =>
      if !c.ok then LeaveDispatch(s, t)
      else At(s.(dirty := s.dirty + {task}, log := s.log + [MarkedDirty(t, task)]), t, DispatchSend(task, seen, |s.log|))
    case DispatchSend(task, seen, mark) =>
      if !c.ok then LeaveDispatch(s, t)
      else At(s.(log := s.log + [Started(t, task, seen, mark)]), t, DispatchAwait(task))
    case DispatchAwait(_) => LeaveDispatch(s, t)
    case _ => s
  }

  // ---- the write-guarded sections --------------------------------------------------------------

  function Lock(s: State, t: Thread, pc: Pc): State {
    if s.writer.Some? || s.readers != {} then s else At(s.(writer := Some(t)), t, pc)
  }

  function Enable(s: State, t: Thread, pc: Pc, c: Choice): State {
    match pc
    case EnableWait(task) => Lock(s, t, EnableCheck(task))
    case EnableCheck(task) => At(s, t, if Blocked(s, task) || !c.ok then Unlock else EnableEnd(task))
    case EnableEnd(task) =>
      if s.session.None? then At(s, t, EnableActivate(task))
      else if c.ok then At(EndSession(s), t, EnableQuarantine(task, s.session.value.task))
      else if c.other then At(EndSession(s), t, Unlock)
      else At(s, t, Unlock)
    case EnableQuarantine(task, previous) => At(s.(quarantined := s.quarantined + {previous}), t, EnableDirty(task, previous))
    case EnableDirty(task, previous) =>
      if !c.ok then At(s, t, Unlock)
      else At(s.(dirty := s.dirty + {previous}, log := s.log + [MarkedDirty(t, previous)]), t, NewCleanup(previous, true, ToEnable(task)))
    case EnableActivate(task) =>
      if !c.ok then At(s, t, Unlock)
      else At(EndSession(s).(session := Some(Session(task, s.nextEpoch)), nextEpoch := s.nextEpoch + 1), t, Unlock)
    case _ => s
  }

  function Off(s: State, t: Thread, pc: Pc, c: Choice): State {
    match pc
    case OffWait => Lock(s, t, OffRead)
    case OffRead =>
      if s.session.None? then At(s, t, OffRevoke(None))
      else if c.ok then At(s, t, OffQuarantine(s.session.value.task))
      else At(s.(required := s.required + {s.session.value.task}), t, OffRevoke(None))
    case OffQuarantine(previous) => At(s.(quarantined := s.quarantined + {previous}), t, OffDirty(previous))
    case OffDirty(previous) =>
      if !c.ok then At(s, t, Unlock)
      else At(s.(dirty := s.dirty + {previous}, log := s.log + [MarkedDirty(t, previous)]), t, OffRevoke(Some(previous)))
    case OffRevoke(previous) =>
      var after := if previous.Some? && (c.ok || c.other) then NewCleanup(previous.value, true, ToUnlock) else Unlock;
      At(if c.ok then EndSession(s) else s, t, after)
    case _ => s
  }

  function Monitor(s: State, t: Thread, pc: Pc, c: Choice): State {
    match pc
    case MonitorWait => Lock(s, t, MonitorExpire)
    case MonitorExpire =>
      if s.session.Some? && c.ok then At(EndSession(s), t, MonitorQuarantine(s.session.value.task)) else At(s, t, Unlock)
    case MonitorQuarantine(previous) => At(s.(quarantined := s.quarantined + {previous}), t, MonitorRelease(previous))
    case MonitorRelease(previous) => At(s.(writer := None), t, MonitorDirty(previous))
    case MonitorDirty(previous) =>
      var after := NewCleanup(previous, true, ToIdle);
      if c.ok then At(s.(dirty := s.dirty + {previous}, log := s.log + [MarkedDirty(t, previous)]), t, after) else At(s, t, after)
    case _ => s
  }

  // ---- cleanup_god_thread and normalize_completed_god_turn -------------------------------------

  function Return(back: Back, ok: bool): Pc {
    match back
    case ToIdle => Idle
    case ToUnlock => Unlock
    case ToEnable(task) => if ok then EnableActivate(task) else Unlock
  }

  function Clean(s: State, t: Thread, job: Cleanup, c: Choice): State {
    var task := job.task;
    match job.stage
    case TakeLease =>
      if task in s.leases then At(s, t, Return(job.back, false))
      else At(s.(leases := s.leases[task := t]), t, Cleaning(job.(stage := Quarantine, since := |s.log|)))
    case Quarantine =>
      At(s.(quarantined := s.quarantined + {task}), t, Cleaning(job.(stage := if job.interrupts then Interrupt else Normalize)))
    case Interrupt => At(s, t, Cleaning(job.(stage := Normalize, stopped := c.ok)))
    case Normalize =>
      if !c.ok then At(s, t, Cleaning(job.(stage := Audit)))
      else At(s.(log := s.log + [PermissionsReset(t, task)]), t, Cleaning(job.(stage := Audit, reset := Some(|s.log|))))
    case Audit =>
      if !c.ok then At(s, t, Cleaning(job.(stage := Requarantine)))
      else
        var next := if job.stopped && job.reset.Some? then ClearDirty else Requarantine;
        At(s.(log := s.log + [Audited(t, task)]), t, Cleaning(job.(stage := next, audited := Some(|s.log|))))
    case ClearDirty =>
      if !c.ok then At(s, t, Cleaning(job.(stage := Drop)))
      else At(s.(dirty := s.dirty - {task}), t, Cleaning(job.(stage := Finish)))
    case Finish => At(s.(required := s.required - {task}), t, Cleaning(job.(stage := Unquarantine)))
    case Unquarantine => At(s.(quarantined := s.quarantined - {task}), t, Cleaning(job.(stage := Drop, ok := true)))
    case Requarantine => At(s.(quarantined := s.quarantined + {task}), t, Cleaning(job.(stage := Drop)))
    case Drop => At(s.(leases := s.leases - {task}), t, Return(job.back, job.ok))
  }

  predicate IsDispatch(pc: Pc) {
    pc.DispatchWait? || pc.DispatchCheck? || pc.DispatchRead? || pc.DispatchRecheck? || pc.DispatchMark? || pc.DispatchSend? || pc.DispatchAwait?
  }

  predicate IsEnable(pc: Pc) {
    pc.EnableWait? || pc.EnableCheck? || pc.EnableEnd? || pc.EnableQuarantine? || pc.EnableDirty? || pc.EnableActivate?
  }

  predicate IsOff(pc: Pc) {
    pc.OffWait? || pc.OffRead? || pc.OffQuarantine? || pc.OffDirty? || pc.OffRevoke?
  }

  predicate IsMonitor(pc: Pc) {
    pc.MonitorWait? || pc.MonitorExpire? || pc.MonitorQuarantine? || pc.MonitorRelease? || pc.MonitorDirty?
  }

  function Step(s: State, t: Thread, c: Choice): State {
    var pc := PcOf(s, t);
    if pc.Idle? then if Begins(c.begin) then At(s, t, c.begin) else s
    else if pc.Recover? then At(s.(quarantined := s.quarantined + {pc.task}), t, NewCleanup(pc.task, true, ToIdle))
    else if pc.Unlock? then At(s.(writer := None), t, Idle)
    else if pc.Cleaning? then Clean(s, t, pc.job, c)
    else if IsDispatch(pc) then Dispatch(s, t, pc, c)
    else if IsEnable(pc) then Enable(s, t, pc, c)
    else if IsOff(pc) then Off(s, t, pc, c)
    else Monitor(s, t, pc, c)
  }

  // ---- the invariant ---------------------------------------------------------------------------

  predicate HoldsRead(pc: Pc) {
    IsDispatch(pc) && !pc.DispatchWait?
  }

  predicate HoldsWrite(pc: Pc) {
    || (IsEnable(pc) && !pc.EnableWait?) || (IsOff(pc) && !pc.OffWait?)
    || pc.MonitorExpire? || pc.MonitorQuarantine? || pc.MonitorRelease? || pc.Unlock?
    || (pc.Cleaning? && pc.job.back != ToIdle)
  }

  predicate HoldsLease(pc: Pc, task: Task) {
    pc.Cleaning? && pc.job.task == task && pc.job.stage != TakeLease
  }

  /** The barrier and the leases say of this thread what its place in the program says. */
  ghost predicate Accounted(s: State, t: Thread, pc: Pc) {
    && (t in s.readers <==> HoldsRead(pc)) && (s.writer == Some(t) <==> HoldsWrite(pc))
    && (forall task: Task {:trigger task in s.leases} :: task in s.leases && s.leases[task] == t <==> HoldsLease(pc, task))
  }

  /** No session is active for the task, or the read of it failed. */
  predicate ReadNone(s: State, t: Thread, task: Task, read: nat) {
    s.session.Some? && s.session.value.task == task ==> read < |s.log| && s.log[read] == ReadFailed(t, task)
  }

  /** The session that a dispatch saw is still the session, and its dirty mark was written. */
  predicate DispatchHolds(s: State, t: Thread, pc: Pc) {
    && (pc.DispatchRecheck? || pc.DispatchMark? || pc.DispatchSend? ==> pc.seen.Some? ==> s.session == Some(Session(pc.task, pc.seen.value)))
    && (pc.DispatchSend? && pc.seen.Some? ==> pc.mark < |s.log| && s.log[pc.mark] == MarkedDirty(t, pc.task))
    && (pc.DispatchMark? ==> pc.seen.Some?)
    && (pc.DispatchRecheck? && pc.seen.None? ==> ReadNone(s, t, pc.task, pc.read))
    && (pc.DispatchSend? && pc.seen.None? ==> ReadNone(s, t, pc.task, pc.mark))
  }

  predicate Happened(log: seq<Event>, since: nat, at: Option<nat>, event: Event) {
    at.Some? ==> since <= at.value < |log| && log[at.value] == event
  }

  predicate Confirmed(job: Cleanup) {
    job.stopped && job.reset.Some? && job.audited.Some?
  }

  /** The task stays quarantined until the cleanup has everything confirmed. */
  predicate CleanupHolds(s: State, t: Thread, job: Cleanup) {
    && job.since <= |s.log|
    && Happened(s.log, job.since, job.reset, PermissionsReset(t, job.task))
    && Happened(s.log, job.since, job.audited, Audited(t, job.task))
    && (job.ok ==> job.stage == Drop)
    && (job.stage == TakeLease || job.stage == Quarantine || (job.stage == Drop && job.ok) || job.task in s.quarantined)
    && (job.stage == ClearDirty || job.stage == Finish || job.stage == Unquarantine || (job.stage == Drop && job.ok) ==> Confirmed(job))
    && (job.stage == TakeLease || job.stage == Quarantine || job.stage == Interrupt || job.stage == Normalize ==> job.reset.None? && job.audited.None?)
  }

  ghost predicate Own(s: State, t: Thread) {
    var pc := PcOf(s, t);
    Accounted(s, t, pc) && DispatchHolds(s, t, pc) && (pc.Cleaning? ==> CleanupHolds(s, t, pc.job))
  }

  predicate Exclusive(s: State) {
    s.writer.Some? ==> s.readers == {}
  }

  /** Ended sessions are over; a privileged start came after its mark and before its session's end. */
  predicate History(s: State) {
    && (s.session.Some? ==> s.session.value.epoch < s.nextEpoch)
    && (forall i :: 0 <= i < |s.log| && s.log[i].Ended? ==>
          s.log[i].epoch < s.nextEpoch && (s.session.Some? ==> s.log[i].epoch != s.session.value.epoch))
    && (forall i :: 0 <= i < |s.log| ==> StartedInTime(s.log, i))
  }

  predicate StartedInTime(log: seq<Event>, i: nat)
    requires i < |log|
  {
    log[i].Started? && log[i].seen.Some? ==>
      && log[i].mark < i && log[log[i].mark] == MarkedDirty(log[i].who, log[i].task)
      && forall j :: 0 <= j < i ==> log[j] != Ended(log[i].seen.value)
  }

  ghost predicate Invariant(s: State) {
    Exclusive(s) && History(s) && forall t: Thread :: Own(s, t)
  }
}
