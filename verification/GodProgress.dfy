/**
 What the threads of the GOD lifecycle do when nothing stands in their way and every call succeeds:
 a dispatch takes the privilege of its task's session, sessions begin and end, and cleanups lift.
 */
module GodProgress {
  import opened Wrappers
  import opened GodLifecycle
  import opened GodSafety

  const GOOD: Choice := Choice(Idle, true, false)

  /** The thread alone makes `n` steps, and every call succeeds. */
  function Solo(s: State, t: Thread, n: nat): State {
    if n == 0 then s else Step(Solo(s, t, n - 1), t, GOOD)
  }

  /** The thread alone gets there. */
  ghost predicate Leads(s: State, t: Thread, next: State) {
    exists n: nat :: Solo(s, t, n) == next
  }

  lemma Here(s: State, t: Thread)
    ensures Leads(s, t, s)
  {
    assert Solo(s, t, 0) == s;
  }

  lemma Then(s: State, t: Thread, now: State, next: State)
    requires Leads(s, t, now) && Step(now, t, GOOD) == next
    ensures Leads(s, t, next)
  {
    var n: nat :| Solo(s, t, n) == now;
    assert Solo(s, t, n + 1) == next;
  }

  function Alone(t: Thread, n: nat): seq<(Thread, Choice)> {
    if n == 0 then [] else Alone(t, n - 1) + [(t, GOOD)]
  }

  lemma {:induction false} SoloIsRun(s: State, steps: seq<(Thread, Choice)>, t: Thread, n: nat)
    ensures Run(s, steps + Alone(t, n)) == Solo(Run(s, steps), t, n)
  {
    if n == 0 {
      assert steps + [] == steps;
    } else {
      SoloIsRun(s, steps, t, n - 1);
      assert (steps + Alone(t, n))[..|steps + Alone(t, n)| - 1] == steps + Alone(t, n - 1);
    }
  }

  /** What a thread gets to alone, a run gets to. */
  lemma LeadsIsRun(s: State, steps: seq<(Thread, Choice)>, t: Thread, next: State) returns (more: seq<(Thread, Choice)>)
    requires Leads(Run(s, steps), t, next)
    ensures Run(s, more) == next
  {
    var n: nat :| Solo(Run(s, steps), t, n) == next;
    SoloIsRun(s, steps, t, n);
    more := steps + Alone(t, n);
  }

  /** A step that takes the thread from `a` to `b` and turns the rest of the state from `base` into `after`. */
  ghost predicate Turns(result: State, base: State, t: Thread, a: Pc, after: State, b: Pc) {
    && result.(threads := base.threads) == after && after.threads == base.threads
    && result.threads == At(base, t, a).threads[t := b]
  }

  lemma Turned(result: State, base: State, t: Thread, a: Pc, after: State, b: Pc)
    requires Turns(result, base, t, a, after, b)
    ensures result == At(after, t, b)
  {
    assert base.threads[t := a][t := b] == base.threads[t := b];
  }

  lemma DispatchGoes(s: State, t: Thread, base: State, a: Pc, after: State, b: Pc)
    requires Leads(s, t, At(base, t, a)) && IsDispatch(a) && Turns(Dispatch(At(base, t, a), t, a, GOOD), base, t, a, after, b)
    ensures Leads(s, t, At(after, t, b))
  {
    Turned(Dispatch(At(base, t, a), t, a, GOOD), base, t, a, after, b);
    Then(s, t, At(base, t, a), At(after, t, b));
  }

  lemma CleanGoes(s: State, t: Thread, base: State, a: Pc, after: State, b: Pc)
    requires Leads(s, t, At(base, t, a)) && a.Cleaning? && Turns(Clean(At(base, t, a), t, a.job, GOOD), base, t, a, after, b)
    ensures Leads(s, t, At(after, t, b))
  {
    Turned(Clean(At(base, t, a), t, a.job, GOOD), base, t, a, after, b);
    Then(s, t, At(base, t, a), At(after, t, b));
  }

  lemma EnableGoes(s: State, t: Thread, base: State, a: Pc, after: State, b: Pc)
    requires Leads(s, t, At(base, t, a)) && IsEnable(a) && Turns(Enable(At(base, t, a), t, a, GOOD), base, t, a, after, b)
    ensures Leads(s, t, At(after, t, b))
  {
    Turned(Enable(At(base, t, a), t, a, GOOD), base, t, a, after, b);
    Then(s, t, At(base, t, a), At(after, t, b));
  }

  lemma OffGoes(s: State, t: Thread, base: State, a: Pc, after: State, b: Pc)
    requires Leads(s, t, At(base, t, a)) && IsOff(a) && Turns(Off(At(base, t, a), t, a, GOOD), base, t, a, after, b)
    ensures Leads(s, t, At(after, t, b))
  {
    Turned(Off(At(base, t, a), t, a, GOOD), base, t, a, after, b);
    Then(s, t, At(base, t, a), At(after, t, b));
  }

  lemma MonitorGoes(s: State, t: Thread, base: State, a: Pc, after: State, b: Pc)
    requires Leads(s, t, At(base, t, a)) && IsMonitor(a) && Turns(Monitor(At(base, t, a), t, a, GOOD), base, t, a, after, b)
    ensures Leads(s, t, At(after, t, b))
  {
    Turned(Monitor(At(base, t, a), t, a, GOOD), base, t, a, after, b);
    Then(s, t, At(base, t, a), At(after, t, b));
  }

  /** Letting go of the barrier. */
  lemma Unlocks(s: State, t: Thread, base: State)
    requires Leads(s, t, At(base, t, Unlock))
    ensures Leads(s, t, At(base.(writer := None), t, Idle))
  {
    assert base.threads[t := Unlock][t := Idle] == base.threads[t := Idle];
    Then(s, t, At(base, t, Unlock), At(base.(writer := None), t, Idle));
  }

  lemma HereAt(s: State, t: Thread, pc: Pc)
    requires PcOf(s, t) == pc && !pc.Idle?
    ensures s == At(s, t, pc) && Leads(s, t, At(s, t, pc))
  {
    assert s.threads[t := pc] == s.threads;
    Here(s, t);
  }

  // ---- dispatches --------------------------------------------------------------------------------

  lemma DispatchEnters(s: State, t: Thread, task: Task)
    requires PcOf(s, t) == DispatchWait(task) && s.writer.None? && !Blocked(s, task)
    ensures Leads(s, t, At(s.(readers := s.readers + {t}), t, DispatchRead(task)))
  {
    var inside := s.(readers := s.readers + {t});
    HereAt(s, t, DispatchWait(task));
    DispatchGoes(s, t, s, DispatchWait(task), inside, DispatchCheck(task));
    DispatchGoes(s, t, inside, DispatchCheck(task), inside, DispatchRead(task));
  }

  lemma DispatchMarks(s: State, t: Thread, base: State, task: Task, epoch: nat)
    requires Leads(s, t, At(base, t, DispatchRead(task))) && base.session == Some(Session(task, epoch)) && !Blocked(base, task)
    ensures Leads(s, t, At(base.(dirty := base.dirty + {task}, log := base.log + [MarkedDirty(t, task)]), t,
                           DispatchSend(task, Some(epoch), |base.log|)))
  {
    var recheck, mark := DispatchRecheck(task, Some(epoch), |base.log|), DispatchMark(task, Some(epoch));
    DispatchGoes(s, t, base, DispatchRead(task), base, recheck);
    DispatchGoes(s, t, base, recheck, base, mark);
    DispatchGoes(s, t, base, mark, base.(dirty := base.dirty + {task}, log := base.log + [MarkedDirty(t, task)]),
                 DispatchSend(task, Some(epoch), |base.log|));
  }

  /** A dispatch for the task of the active session sees the session, marks its task and starts with its privilege. */
  lemma DispatchTakesThePrivilege(s: State, t: Thread, task: Task, epoch: nat)
    requires PcOf(s, t) == DispatchWait(task) && s.writer.None? && s.session == Some(Session(task, epoch)) && !Blocked(s, task)
    ensures Leads(s, t, At(s.(readers := s.readers + {t}, dirty := s.dirty + {task},
                              log := s.log + [MarkedDirty(t, task), Started(t, task, Some(epoch), |s.log|)]), t, DispatchAwait(task)))
  {
    var inside := s.(readers := s.readers + {t});
    var marked := inside.(dirty := s.dirty + {task}, log := s.log + [MarkedDirty(t, task)]);
    var started := marked.(log := s.log + [MarkedDirty(t, task), Started(t, task, Some(epoch), |s.log|)]);
    DispatchEnters(s, t, task);
    DispatchMarks(s, t, inside, task, epoch);
    assert marked.log + [Started(t, task, Some(epoch), |s.log|)] == started.log;
    DispatchGoes(s, t, marked, DispatchSend(task, Some(epoch), |s.log|), started, DispatchAwait(task));
  }

  /** A dispatch for any other task starts without privilege, and marks nothing. */
  lemma DispatchWithoutSession(s: State, t: Thread, task: Task)
    requires PcOf(s, t) == DispatchWait(task) && s.writer.None? && !Blocked(s, task)
    requires s.session.Some? ==> s.session.value.task != task
    ensures Leads(s, t, At(s.(readers := s.readers + {t}, log := s.log + [Started(t, task, None, |s.log|)]), t, DispatchAwait(task)))
  {
    var n, inside := |s.log|, s.(readers := s.readers + {t});
    var started := inside.(log := s.log + [Started(t, task, None, n)]);
    DispatchEnters(s, t, task);
    DispatchGoes(s, t, inside, DispatchRead(task), inside, DispatchRecheck(task, None, n));
    DispatchGoes(s, t, inside, DispatchRecheck(task, None, n), inside, DispatchSend(task, None, n));
    DispatchGoes(s, t, inside, DispatchSend(task, None, n), started, DispatchAwait(task));
  }

  /** A dispatch for a quarantined task, or one that awaits cleanup, gives up and lets go of the barrier. */
  lemma BlockedDispatchGivesUp(s: State, t: Thread, task: Task)
    requires PcOf(s, t) == DispatchWait(task) && s.writer.None? && Blocked(s, task)
    ensures Leads(s, t, At(s.(readers := s.readers - {t}), t, Idle))
  {
    var inside, outside := s.(readers := s.readers + {t}), s.(readers := s.readers - {t});
    HereAt(s, t, DispatchWait(task));
    DispatchGoes(s, t, s, DispatchWait(task), inside, DispatchCheck(task));
    assert inside.readers - {t} == outside.readers;
    DispatchGoes(s, t, inside, DispatchCheck(task), outside, Idle);
  }

  // ---- cleanups ------------------------------------------------------------------------------------

  /** Every mark of the task is lifted, and both confirmations are in the history. */
  function Lifted(s: State, t: Thread, task: Task): State {
    s.(quarantined := s.quarantined - {task}, required := s.required - {task}, dirty := s.dirty - {task},
       log := s.log + [PermissionsReset(t, task), Audited(t, task)])
  }

  /** The state with the task's lease taken, and what was confirmed under it. */
  function Held(s: State, t: Thread, task: Task): State {
    s.(leases := s.leases[task := t], quarantined := s.quarantined + {task}, log := s.log + [PermissionsReset(t, task), Audited(t, task)])
  }

  /** A cleanup at some stage, with everything that was confirmed so far. */
  function Job(task: Task, interrupts: bool, stage: Stage, back: Back, since: nat, stopped: bool, reset: Option<nat>, audited: Option<nat>, ok: bool): Pc {
    Cleaning(Cleanup(task, stage, interrupts, since, stopped, reset, audited, ok, back))
  }

  /** It is quarantined and its running turn, if there may be one, interrupted. */
  lemma CleanupInterrupts(s: State, t: Thread, base: State, task: Task, interrupts: bool, back: Back)
    requires Leads(s, t, At(base, t, NewCleanup(task, interrupts, back))) && task !in base.leases
    ensures Leads(s, t, At(base.(leases := base.leases[task := t], quarantined := base.quarantined + {task}), t,
                           Job(task, interrupts, Normalize, back, |base.log|, true, None, None, false)))
  {
    var n := |base.log|;
    var leased := base.(leases := base.leases[task := t]);
    var marked := leased.(quarantined := base.quarantined + {task});
    var a := Job(task, interrupts, Quarantine, back, n, !interrupts, None, None, false);
    var b := Job(task, interrupts, Interrupt, back, n, false, None, None, false);
    var c := Job(task, interrupts, Normalize, back, n, true, None, None, false);
    CleanGoes(s, t, base, NewCleanup(task, interrupts, back), leased, a);
    if interrupts {
      CleanGoes(s, t, leased, a, marked, b);
      CleanGoes(s, t, marked, b, marked, c);
    } else {
      CleanGoes(s, t, leased, a, marked, c);
    }
  }

  lemma CleanupConfirms(s: State, t: Thread, base: State, task: Task, interrupts: bool, back: Back, since: nat)
    requires Leads(s, t, At(base, t, Job(task, interrupts, Normalize, back, since, true, None, None, false)))
    ensures Leads(s, t, At(base.(log := base.log + [PermissionsReset(t, task), Audited(t, task)]), t,
                           Job(task, interrupts, ClearDirty, back, since, true, Some(|base.log|), Some(|base.log| + 1), false)))
  {
    var n := |base.log|;
    var reset := base.(log := base.log + [PermissionsReset(t, task)]);
    var audited := base.(log := base.log + [PermissionsReset(t, task), Audited(t, task)]);
    var a, b := Job(task, interrupts, Normalize, back, since, true, None, None, false), Job(task, interrupts, Audit, back, since, true, Some(n), None, false);
    CleanGoes(s, t, base, a, reset, b);
    assert reset.log + [Audited(t, task)] == audited.log;
    CleanGoes(s, t, reset, b, audited, Job(task, interrupts, ClearDirty, back, since, true, Some(n), Some(n + 1), false));
  }

  lemma CleanupClears(s: State, t: Thread, base: State, task: Task, interrupts: bool, back: Back, since: nat, reset: nat, audited: nat)
    requires Leads(s, t, At(base, t, Job(task, interrupts, ClearDirty, back, since, true, Some(reset), Some(audited), false)))
    ensures Leads(s, t, At(base.(dirty := base.dirty - {task}, required := base.required - {task}), t,
                           Job(task, interrupts, Unquarantine, back, since, true, Some(reset), Some(audited), false)))
  {
    var cleared := base.(dirty := base.dirty - {task});
    var finished := cleared.(required := base.required - {task});
    var a, b := Job(task, interrupts, ClearDirty, back, since, true, Some(reset), Some(audited), false), Job(task, interrupts, Finish, back, since, true, Some(reset), Some(audited), false);
    CleanGoes(s, t, base, a, cleared, b);
    CleanGoes(s, t, cleared, b, finished, Job(task, interrupts, Unquarantine, back, since, true, Some(reset), Some(audited), false));
  }

  lemma CleanupEnds(s: State, t: Thread, base: State, task: Task, interrupts: bool, back: Back, since: nat, reset: nat, audited: nat)
    requires Leads(s, t, At(base, t, Job(task, interrupts, Unquarantine, back, since, true, Some(reset), Some(audited), false)))
    ensures Leads(s, t, At(base.(quarantined := base.quarantined - {task}, leases := base.leases - {task}), t, Return(back, true)))
  {
    var lifted := base.(quarantined := base.quarantined - {task});
    var a, b := Job(task, interrupts, Unquarantine, back, since, true, Some(reset), Some(audited), false), Job(task, interrupts, Drop, back, since, true, Some(reset), Some(audited), true);
    CleanGoes(s, t, base, a, lifted, b);
    CleanGoes(s, t, lifted, b, lifted.(leases := base.leases - {task}), Return(back, true));
  }

  lemma MarksCancelOut(s: State, t: Thread, task: Task)
    requires task !in s.leases
    ensures var n := Held(s, t, task);
            n.(dirty := n.dirty - {task}, required := n.required - {task}, quarantined := n.quarantined - {task}, leases := n.leases - {task})
            == Lifted(s, t, task)
  {
    assert s.leases[task := t] - {task} == s.leases;
    assert s.quarantined + {task} - {task} == s.quarantined - {task};
  }

  /** A cleanup whose calls succeed lifts every mark of its task, confirms both events and gives its lease back. */
  lemma CleanupsLift(s: State, t: Thread, base: State, task: Task, interrupts: bool, back: Back)
    requires Leads(s, t, At(base, t, NewCleanup(task, interrupts, back))) && task !in base.leases
    ensures Leads(s, t, At(Lifted(base, t, task), t, Return(back, true)))
  {
    var n := |base.log|;
    var marked := base.(leases := base.leases[task := t], quarantined := base.quarantined + {task});
    var held := Held(base, t, task);
    var cleared := held.(dirty := held.dirty - {task}, required := held.required - {task});
    CleanupInterrupts(s, t, base, task, interrupts, back);
    CleanupConfirms(s, t, marked, task, interrupts, back, n);
    CleanupClears(s, t, held, task, interrupts, back, n, n, n + 1);
    CleanupEnds(s, t, cleared, task, interrupts, back, n, n, n + 1);
    MarksCancelOut(base, t, task);
  }

  /** A cleanup of a task that another thread is cleaning up gives up; what it was to enable is not enabled. */
  lemma CleanupsYield(s: State, t: Thread, task: Task, interrupts: bool, back: Back)
    requires PcOf(s, t) == NewCleanup(task, interrupts, back) && task in s.leases
    ensures Leads(s, t, At(s, t, if back.ToIdle? then Idle else Unlock))
  {
    HereAt(s, t, NewCleanup(task, interrupts, back));
    CleanGoes(s, t, s, NewCleanup(task, interrupts, back), s, if back.ToIdle? then Idle else Unlock);
  }

  // ---- sessions --------------------------------------------------------------------------------------

  predicate Free(s: State) {
    s.writer.None? && s.readers == {}
  }

  lemma EnableEnters(s: State, t: Thread, task: Task)
    requires PcOf(s, t) == EnableWait(task) && Free(s) && !Blocked(s, task)
    ensures Leads(s, t, At(s.(writer := Some(t)), t, EnableEnd(task)))
  {
    var inside := s.(writer := Some(t));
    HereAt(s, t, EnableWait(task));
    EnableGoes(s, t, s, EnableWait(task), inside, EnableCheck(task));
    EnableGoes(s, t, inside, EnableCheck(task), inside, EnableEnd(task));
  }

  /** Enabling a task with no session active begins a session of its own epoch. */
  lemma SessionsBegin(s: State, t: Thread, task: Task)
    requires PcOf(s, t) == EnableWait(task) && Free(s) && s.session.None? && !Blocked(s, task)
    ensures Leads(s, t, At(s.(session := Some(Session(task, s.nextEpoch)), nextEpoch := s.nextEpoch + 1), t, Idle))
  {
    var inside := s.(writer := Some(t));
    var active := inside.(session := Some(Session(task, s.nextEpoch)), nextEpoch := s.nextEpoch + 1);
    EnableEnters(s, t, task);
    EnableGoes(s, t, inside, EnableEnd(task), inside, EnableActivate(task));
    EnableGoes(s, t, inside, EnableActivate(task), active, Unlock);
    Unlocks(s, t, active);
  }

  /** The session is over, and its task is marked everywhere. */
  function Over(s: State, previous: Session, log: seq<Event>): State {
    s.(session := None, required := s.required + {previous.task}, quarantined := s.quarantined + {previous.task},
       dirty := s.dirty + {previous.task}, log := log)
  }

  lemma EnableEnds(s: State, t: Thread, task: Task, previous: Session)
    requires PcOf(s, t) == EnableWait(task) && Free(s) && s.session == Some(previous) && !Blocked(s, task)
    ensures Leads(s, t, At(EndSession(s.(writer := Some(t))), t, EnableQuarantine(task, previous.task)))
  {
    var inside := s.(writer := Some(t));
    EnableEnters(s, t, task);
    EnableGoes(s, t, inside, EnableEnd(task), EndSession(inside), EnableQuarantine(task, previous.task));
  }

  lemma EnableMarks(s: State, t: Thread, base: State, task: Task, previous: Task)
    requires Leads(s, t, At(base, t, EnableQuarantine(task, previous)))
    ensures Leads(s, t, At(base.(quarantined := base.quarantined + {previous}, dirty := base.dirty + {previous},
                                 log := base.log + [MarkedDirty(t, previous)]), t, NewCleanup(previous, true, ToEnable(task))))
  {
    var quarantined := base.(quarantined := base.quarantined + {previous});
    EnableGoes(s, t, base, EnableQuarantine(task, previous), quarantined, EnableDirty(task, previous));
    EnableGoes(s, t, quarantined, EnableDirty(task, previous),
               quarantined.(dirty := base.dirty + {previous}, log := base.log + [MarkedDirty(t, previous)]),
               NewCleanup(previous, true, ToEnable(task)));
  }

  /** Nothing is left of the session but its history. */
  function Settled(s: State, t: Thread, previous: Session, log: seq<Event>): State {
    s.(session := None, required := s.required - {previous.task}, quarantined := s.quarantined - {previous.task},
       dirty := s.dirty - {previous.task}, log := log + [PermissionsReset(t, previous.task), Audited(t, previous.task)])
  }

  lemma OverThenLifted(s: State, t: Thread, previous: Session, log: seq<Event>)
    ensures Lifted(Over(s, previous, log), t, previous.task) == Settled(s, t, previous, log)
  {
    var task := previous.task;
    assert s.required + {task} - {task} == s.required - {task} && s.dirty + {task} - {task} == s.dirty - {task};
    assert s.quarantined + {task} - {task} == s.quarantined - {task};
  }

  /** Enabling another task ends the session before, cleans up after it, and only then begins the new one. */
  lemma SessionsChangeHands(s: State, t: Thread, task: Task, previous: Session)
    requires PcOf(s, t) == EnableWait(task) && Free(s) && s.session == Some(previous) && !Blocked(s, task) && previous.task !in s.leases
    ensures Leads(s, t, At(Settled(s, t, previous, s.log + [Ended(previous.epoch), MarkedDirty(t, previous.task)])
                           .(session := Some(Session(task, s.nextEpoch)), nextEpoch := s.nextEpoch + 1), t, Idle))
  {
    var inside, log := s.(writer := Some(t)), s.log + [Ended(previous.epoch), MarkedDirty(t, previous.task)];
    var settled := Settled(inside, t, previous, log);
    var active := settled.(session := Some(Session(task, s.nextEpoch)), nextEpoch := s.nextEpoch + 1);
    EnableEnds(s, t, task, previous);
    EnableMarks(s, t, EndSession(inside), task, previous.task);
    assert EndSession(inside).log + [MarkedDirty(t, previous.task)] == log;
    CleanupsLift(s, t, Over(inside, previous, log), previous.task, true, ToEnable(task));
    OverThenLifted(inside, t, previous, log);
    EnableGoes(s, t, settled, EnableActivate(task), active, Unlock);
    Unlocks(s, t, active);
  }

  lemma RevokingMarks(s: State, t: Thread, previous: Session)
    requires PcOf(s, t) == OffWait && Free(s) && s.session == Some(previous)
    ensures Leads(s, t, At(s.(writer := Some(t), quarantined := s.quarantined + {previous.task}), t, OffDirty(previous.task)))
  {
    var inside := s.(writer := Some(t));
    HereAt(s, t, OffWait);
    OffGoes(s, t, s, OffWait, inside, OffRead);
    OffGoes(s, t, inside, OffRead, inside, OffQuarantine(previous.task));
    OffGoes(s, t, inside, OffQuarantine(previous.task), inside.(quarantined := s.quarantined + {previous.task}), OffDirty(previous.task));
  }

  lemma RevokingEnds(s: State, t: Thread, base: State, previous: Session)
    requires Leads(s, t, At(base, t, OffDirty(previous.task))) && base.session == Some(previous)
    ensures var dirty := base.(dirty := base.dirty + {previous.task}, log := base.log + [MarkedDirty(t, previous.task)]);
            Leads(s, t, At(EndSession(dirty), t, NewCleanup(previous.task, true, ToUnlock)))
  {
    var dirty := base.(dirty := base.dirty + {previous.task}, log := base.log + [MarkedDirty(t, previous.task)]);
    OffGoes(s, t, base, OffDirty(previous.task), dirty, OffRevoke(Some(previous.task)));
    OffGoes(s, t, dirty, OffRevoke(Some(previous.task)), EndSession(dirty), NewCleanup(previous.task, true, ToUnlock));
  }

  /** Revoking ends the session and cleans up after it under the barrier. */
  lemma SessionsAreRevoked(s: State, t: Thread, previous: Session)
    requires PcOf(s, t) == OffWait && Free(s) && s.session == Some(previous) && previous.task !in s.leases
    ensures Leads(s, t, At(Settled(s, t, previous, s.log + [MarkedDirty(t, previous.task), Ended(previous.epoch)]), t, Idle))
  {
    var inside, log := s.(writer := Some(t)), s.log + [MarkedDirty(t, previous.task), Ended(previous.epoch)];
    RevokingMarks(s, t, previous);
    RevokingEnds(s, t, inside.(quarantined := s.quarantined + {previous.task}), previous);
    assert s.log + [MarkedDirty(t, previous.task)] + [Ended(previous.epoch)] == log;
    CleanupsLift(s, t, Over(inside, previous, log), previous.task, true, ToUnlock);
    OverThenLifted(inside, t, previous, log);
    Unlocks(s, t, Settled(inside, t, previous, log));
  }

  lemma ExpiryEnds(s: State, t: Thread, previous: Session)
    requires PcOf(s, t) == MonitorWait && Free(s) && s.session == Some(previous)
    ensures Leads(s, t, At(EndSession(s.(writer := Some(t))), t, MonitorQuarantine(previous.task)))
  {
    var inside := s.(writer := Some(t));
    HereAt(s, t, MonitorWait);
    MonitorGoes(s, t, s, MonitorWait, inside, MonitorExpire);
    MonitorGoes(s, t, inside, MonitorExpire, EndSession(inside), MonitorQuarantine(previous.task));
  }

  lemma ExpiryMarks(s: State, t: Thread, base: State, previous: Task)
    requires Leads(s, t, At(base, t, MonitorQuarantine(previous)))
    ensures Leads(s, t, At(base.(writer := None, quarantined := base.quarantined + {previous}, dirty := base.dirty + {previous},
                                 log := base.log + [MarkedDirty(t, previous)]), t, NewCleanup(previous, true, ToIdle)))
  {
    var quarantined := base.(quarantined := base.quarantined + {previous});
    var released := quarantined.(writer := None);
    MonitorGoes(s, t, base, MonitorQuarantine(previous), quarantined, MonitorRelease(previous));
    MonitorGoes(s, t, quarantined, MonitorRelease(previous), released, MonitorDirty(previous));
    MonitorGoes(s, t, released, MonitorDirty(previous),
                released.(dirty := base.dirty + {previous}, log := base.log + [MarkedDirty(t, previous)]), NewCleanup(previous, true, ToIdle));
  }

  /** An expired session is ended under the barrier; the cleanup after it holds the barrier no longer. */
  lemma SessionsExpire(s: State, t: Thread, previous: Session)
    requires PcOf(s, t) == MonitorWait && Free(s) && s.session == Some(previous) && previous.task !in s.leases
    ensures var log := s.log + [Ended(previous.epoch), MarkedDirty(t, previous.task)];
            && Leads(s, t, At(Over(s, previous, log), t, NewCleanup(previous.task, true, ToIdle)))
            && Leads(s, t, At(Settled(s, t, previous, log), t, Idle))
  {
    var log := s.log + [Ended(previous.epoch), MarkedDirty(t, previous.task)];
    ExpiryEnds(s, t, previous);
    ExpiryMarks(s, t, EndSession(s.(writer := Some(t))), previous.task);
    assert EndSession(s).log + [MarkedDirty(t, previous.task)] == log;
    CleanupsLift(s, t, Over(s, previous, log), previous.task, true, ToIdle);
    OverThenLifted(s, t, previous, log);
  }

  /** A task that an earlier run of the program left dirty is quarantined first and then cleaned up. */
  lemma DirtyTasksRecover(s: State, t: Thread, task: Task)
    requires PcOf(s, t) == Recover(task) && task !in s.leases
    ensures Leads(s, t, At(s.(quarantined := s.quarantined + {task}), t, NewCleanup(task, true, ToIdle)))
    ensures Leads(s, t, At(Lifted(s, t, task), t, Idle))
  {
    var quarantined := s.(quarantined := s.quarantined + {task});
    HereAt(s, t, Recover(task));
    assert s.threads[t := Recover(task)][t := NewCleanup(task, true, ToIdle)] == s.threads[t := NewCleanup(task, true, ToIdle)];
    Then(s, t, s, At(quarantined, t, NewCleanup(task, true, ToIdle)));
    CleanupsLift(s, t, quarantined, task, true, ToIdle);
    assert Lifted(quarantined, t, task).quarantined == s.quarantined - {task};
  }

  // ---- when something stands in the way ------------------------------------------------------------------

  /** No session begins for a task that is quarantined or awaits cleanup, nor without authentication. */
  lemma EnablingIsRefused(s: State, t: Thread, task: Task, c: Choice)
    requires PcOf(s, t) == EnableCheck(task) && (Blocked(s, task) || !c.ok)
    ensures Step(s, t, c) == At(s, t, Unlock)
  {
  }

  /** A read that shows the session to be over marks its task for cleanup; one that fails otherwise marks nothing. */
  lemma ReadsMarkTheOver(s: State, t: Thread, task: Task, c: Choice)
    requires PcOf(s, t) == DispatchRead(task) && s.session.Some? && !c.ok
    ensures Step(s, t, c).required == if c.other then s.required + {s.session.value.task} else s.required
    ensures Step(s, t, c).session == s.session
  {
  }

  /** Revoking without knowing the session marks its task for cleanup; knowing it, it cleans up if anything was revoked. */
  lemma RevokingNeverForgets(s: State, t: Thread, c: Choice)
    ensures PcOf(s, t) == OffRead && s.session.Some? && !c.ok ==> s.session.value.task in Step(s, t, c).required
    ensures PcOf(s, t).OffRevoke? && PcOf(s, t).revoking.Some? && (c.ok || c.other) ==>
              PcOf(Step(s, t, c), t) == NewCleanup(PcOf(s, t).revoking.value, true, ToUnlock)
  {
  }

  // ---- from the start ----------------------------------------------------------------------------------

  /** An idle thread begins something. */
  lemma Begin(s: State, steps: seq<(Thread, Choice)>, t: Thread, pc: Pc) returns (more: seq<(Thread, Choice)>)
    requires PcOf(Run(s, steps), t).Idle? && Begins(pc)
    ensures Run(s, more) == At(Run(s, steps), t, pc)
  {
    more := steps + [(t, Choice(pc, true, false))];
    assert more[..|steps|] == steps;
  }

  /** From the start, a task is enabled and a dispatch for it takes the privilege. */
  lemma PrivilegedTurnsHappen(task: Task) returns (steps: seq<(Thread, Choice)>)
    ensures Run(Start({}), steps).session == Some(Session(task, 0))
    ensures Run(Start({}), steps).log == [MarkedDirty(1, task), Started(1, task, Some(0), 0)]
  {
    var s0 := Start({});
    var first := Begin(s0, [], 0, EnableWait(task));
    SessionsBegin(Run(s0, first), 0, task);
    var active := At(Run(s0, first).(session := Some(Session(task, 0)), nextEpoch := 1), 0, Idle);
    var second := LeadsIsRun(s0, first, 0, active);
    var third := Begin(s0, second, 1, DispatchWait(task));
    var s := Run(s0, third);
    DispatchTakesThePrivilege(s, 1, task, 0);
    steps := LeadsIsRun(s0, third, 1,
      At(s.(readers := s.readers + {1}, dirty := s.dirty + {task},
            log := s.log + [MarkedDirty(1, task), Started(1, task, Some(0), |s.log|)]), 1, DispatchAwait(task)));
  }

  /** From the start, a task that was left dirty is cleaned up: nothing bars it any more. */
  lemma CleanupsHappen(task: Task) returns (steps: seq<(Thread, Choice)>)
    ensures var s := Run(Start({task}), steps);
            !Blocked(s, task) && s.dirty == {} && s.leases == map[] && s.log == [PermissionsReset(0, task), Audited(0, task)]
  {
    var s0 := Start({task});
    var first := Begin(s0, [], 0, Recover(task));
    var s := Run(s0, first);
    DirtyTasksRecover(s, 0, task);
    steps := LeadsIsRun(s0, first, 0, At(Lifted(s, 0, task), 0, Idle));
  }
}
