/** The invariant of the GOD lifecycle holds in every interleaving, and what follows from it. */
module GodSafety {
  import opened Wrappers
  import opened GodLifecycle

  /** What a step of one thread leaves alone as far as the other threads rely on it. */
  ghost predicate Guarantee(s: State, n: State, t: Thread) {
    && s.log <= n.log
    && (forall u: Thread :: u != t ==> (u in n.readers <==> u in s.readers) && (n.writer == Some(u) <==> s.writer == Some(u)))
    && (n.session != s.session ==> s.writer == Some(t))
    && (forall task: Task :: task in s.quarantined && task !in n.quarantined ==> task in s.leases && s.leases[task] == t)
    && (forall task: Task :: task in s.leases && s.leases[task] != t ==> task in n.leases && n.leases[task] == s.leases[task])
    && (forall task: Task :: task in n.leases && n.leases[task] != t ==> task in s.leases && s.leases[task] == n.leases[task])
    && (forall u: Thread :: u != t ==> PcOf(n, u) == PcOf(s, u))
  }

  lemma DispatchEntryKeeps(s: State, t: Thread, c: Choice)
    requires Exclusive(s) && Own(s, t) && (PcOf(s, t).DispatchWait? || PcOf(s, t).DispatchCheck? || PcOf(s, t).DispatchAwait?)
    ensures var n := Dispatch(s, t, PcOf(s, t), c); Exclusive(n) && Own(n, t)
  {
  }

  lemma DispatchReadKeeps(s: State, t: Thread, c: Choice)
    requires Exclusive(s) && Own(s, t) && PcOf(s, t).DispatchRead?
    ensures var n := Dispatch(s, t, PcOf(s, t), c); Exclusive(n) && Own(n, t)
  {
  }

  lemma DispatchRecheckKeeps(s: State, t: Thread, c: Choice)
    requires Exclusive(s) && Own(s, t) && PcOf(s, t).DispatchRecheck?
    ensures var n := Dispatch(s, t, PcOf(s, t), c); Exclusive(n) && Own(n, t)
  {
  }

  lemma DispatchSendKeeps(s: State, t: Thread, c: Choice)
    requires Exclusive(s) && Own(s, t) && (PcOf(s, t).DispatchMark? || PcOf(s, t).DispatchSend?)
    ensures var n := Dispatch(s, t, PcOf(s, t), c); Exclusive(n) && Own(n, t)
  {
  }

  lemma DispatchKeeps(s: State, t: Thread, c: Choice)
    requires Exclusive(s) && Own(s, t) && IsDispatch(PcOf(s, t))
    ensures var n := Dispatch(s, t, PcOf(s, t), c); Exclusive(n) && Own(n, t)
  {
    var pc := PcOf(s, t);
    if pc.DispatchRead? {
      DispatchReadKeeps(s, t, c);
    } else if pc.DispatchRecheck? {
      DispatchRecheckKeeps(s, t, c);
    } else if pc.DispatchMark? || pc.DispatchSend? {
      DispatchSendKeeps(s, t, c);
    } else {
      DispatchEntryKeeps(s, t, c);
    }
  }

  lemma DispatchGuarantees(s: State, t: Thread, c: Choice)
    requires Exclusive(s) && Own(s, t) && IsDispatch(PcOf(s, t))
    ensures Guarantee(s, Dispatch(s, t, PcOf(s, t), c), t)
  {
  }

  lemma EnableKeeps(s: State, t: Thread, c: Choice)
    requires Exclusive(s) && Own(s, t) && IsEnable(PcOf(s, t))
    ensures var n := Enable(s, t, PcOf(s, t), c); Exclusive(n) && Own(n, t)
  {
  }

  lemma EnableGuarantees(s: State, t: Thread, c: Choice)
    requires Exclusive(s) && Own(s, t) && IsEnable(PcOf(s, t))
    ensures Guarantee(s, Enable(s, t, PcOf(s, t), c), t)
  {
  }

  lemma OffKeeps(s: State, t: Thread, c: Choice)
    requires Exclusive(s) && Own(s, t) && IsOff(PcOf(s, t))
    ensures var n := Off(s, t, PcOf(s, t), c); Exclusive(n) && Own(n, t)
  {
  }

  lemma OffGuarantees(s: State, t: Thread, c: Choice)
    requires Exclusive(s) && Own(s, t) && IsOff(PcOf(s, t))
    ensures Guarantee(s, Off(s, t, PcOf(s, t), c), t)
  {
  }

  lemma MonitorKeeps(s: State, t: Thread, c: Choice)
    requires Exclusive(s) && Own(s, t) && IsMonitor(PcOf(s, t))
    ensures var n := Monitor(s, t, PcOf(s, t), c); Exclusive(n) && Own(n, t)
  {
  }

  lemma MonitorGuarantees(s: State, t: Thread, c: Choice)
    requires Exclusive(s) && Own(s, t) && IsMonitor(PcOf(s, t))
    ensures Guarantee(s, Monitor(s, t, PcOf(s, t), c), t)
  {
  }

  /** The thread is at this stage of a cleanup. */
  ghost predicate Cleans(s: State, t: Thread, stage: Stage) {
    Exclusive(s) && Own(s, t) && PcOf(s, t).Cleaning? && PcOf(s, t).job.stage == stage
  }

  function Cleaned(s: State, t: Thread, c: Choice): State
    requires PcOf(s, t).Cleaning?
  {
    Clean(s, t, PcOf(s, t).job, c)
  }

  /** A cleanup that goes on changes neither the barrier nor the leases. */
  lemma StillCleaning(s: State, n: State, t: Thread, job: Cleanup, next: Cleanup)
    requires Exclusive(s) && Own(s, t) && PcOf(s, t) == Cleaning(job) && job.stage != TakeLease
    requires n.readers == s.readers && n.writer == s.writer && n.leases == s.leases && PcOf(n, t) == Cleaning(next)
    requires next.task == job.task && next.back == job.back && next.stage != TakeLease && CleanupHolds(n, t, next)
    ensures Exclusive(n) && Own(n, t)
  {
    assert Accounted(s, t, Cleaning(job));
    forall task: Task ensures task in n.leases && n.leases[task] == t <==> HoldsLease(Cleaning(next), task) {
      assert HoldsLease(Cleaning(next), task) <==> HoldsLease(Cleaning(job), task);
    }
    assert Accounted(n, t, Cleaning(next));
  }

  lemma TakeLeaseKeeps(s: State, t: Thread, c: Choice)
    requires Cleans(s, t, TakeLease)
    ensures Exclusive(Cleaned(s, t, c)) && Own(Cleaned(s, t, c), t)
  {
    var n, pc, task := Cleaned(s, t, c), PcOf(s, t), PcOf(s, t).job.task;
    assert Accounted(s, t, pc);
    forall k: Task ensures k in n.leases && n.leases[k] == t <==> HoldsLease(PcOf(n, t), k) {
      assert HoldsLease(pc, k) <==> k in s.leases && s.leases[k] == t;
    }
    assert Accounted(n, t, PcOf(n, t));
  }

  lemma QuarantineKeeps(s: State, t: Thread, c: Choice)
    requires Cleans(s, t, Quarantine)
    ensures Exclusive(Cleaned(s, t, c)) && Own(Cleaned(s, t, c), t)
  {
    var n := Cleaned(s, t, c);
    StillCleaning(s, n, t, PcOf(s, t).job, PcOf(n, t).job);
  }

  lemma InterruptKeeps(s: State, t: Thread, c: Choice)
    requires Cleans(s, t, Interrupt)
    ensures Exclusive(Cleaned(s, t, c)) && Own(Cleaned(s, t, c), t)
  {
    var n := Cleaned(s, t, c);
    StillCleaning(s, n, t, PcOf(s, t).job, PcOf(n, t).job);
  }

  lemma NormalizeKeeps(s: State, t: Thread, c: Choice)
    requires Cleans(s, t, Normalize)
    ensures Exclusive(Cleaned(s, t, c)) && Own(Cleaned(s, t, c), t)
  {
    var n := Cleaned(s, t, c);
    StillCleaning(s, n, t, PcOf(s, t).job, PcOf(n, t).job);
  }

  lemma AuditKeeps(s: State, t: Thread, c: Choice)
    requires Cleans(s, t, Audit)
    ensures Exclusive(Cleaned(s, t, c)) && Own(Cleaned(s, t, c), t)
  {
    var n := Cleaned(s, t, c);
    StillCleaning(s, n, t, PcOf(s, t).job, PcOf(n, t).job);
  }

  lemma ClearDirtyKeeps(s: State, t: Thread, c: Choice)
    requires Cleans(s, t, ClearDirty)
    ensures Exclusive(Cleaned(s, t, c)) && Own(Cleaned(s, t, c), t)
  {
    var n := Cleaned(s, t, c);
    StillCleaning(s, n, t, PcOf(s, t).job, PcOf(n, t).job);
  }

  lemma FinishKeeps(s: State, t: Thread, c: Choice)
    requires Cleans(s, t, Finish)
    ensures Exclusive(Cleaned(s, t, c)) && Own(Cleaned(s, t, c), t)
  {
    var n := Cleaned(s, t, c);
    StillCleaning(s, n, t, PcOf(s, t).job, PcOf(n, t).job);
  }

  lemma UnquarantineKeeps(s: State, t: Thread, c: Choice)
    requires Cleans(s, t, Unquarantine) || Cleans(s, t, Requarantine)
    ensures Exclusive(Cleaned(s, t, c)) && Own(Cleaned(s, t, c), t)
  {
    var n := Cleaned(s, t, c);
    StillCleaning(s, n, t, PcOf(s, t).job, PcOf(n, t).job);
  }

  lemma DropKeeps(s: State, t: Thread, c: Choice)
    requires Cleans(s, t, Drop)
    ensures Exclusive(Cleaned(s, t, c)) && Own(Cleaned(s, t, c), t)
  {
  }

  lemma CleanKeeps(s: State, t: Thread, c: Choice)
    requires Exclusive(s) && Own(s, t) && PcOf(s, t).Cleaning?
    ensures Exclusive(Cleaned(s, t, c)) && Own(Cleaned(s, t, c), t)
  {
    match PcOf(s, t).job.stage
    case TakeLease => TakeLeaseKeeps(s, t, c);
    case Quarantine => QuarantineKeeps(s, t, c);
    case Interrupt => InterruptKeeps(s, t, c);
    case Normalize => NormalizeKeeps(s, t, c);
    case Audit => AuditKeeps(s, t, c);
    case ClearDirty => ClearDirtyKeeps(s, t, c);
    case Finish => FinishKeeps(s, t, c);
    case Unquarantine => UnquarantineKeeps(s, t, c);
    case Requarantine => UnquarantineKeeps(s, t, c);
    case Drop => DropKeeps(s, t, c);
  }

  lemma CleanLeaseGuarantees(s: State, t: Thread, c: Choice)
    requires Cleans(s, t, TakeLease) || Cleans(s, t, Drop)
    ensures Guarantee(s, Cleaned(s, t, c), t)
  {
    assert Accounted(s, t, PcOf(s, t));
    var task := PcOf(s, t).job.task;
    assert HoldsLease(PcOf(s, t), task) <==> task in s.leases && s.leases[task] == t;
  }

  /** Between taking the lease and dropping it a cleanup changes neither barrier, leases nor session. */
  lemma MarkGuarantees(s: State, n: State, t: Thread, task: Task)
    requires task in s.leases && s.leases[task] == t && s.log <= n.log && s.quarantined - {task} <= n.quarantined
    requires n.readers == s.readers && n.writer == s.writer && n.leases == s.leases && n.session == s.session
    requires n.threads == s.threads[t := PcOf(n, t)]
    ensures Guarantee(s, n, t)
  {
  }

  lemma CleanMarkGuarantees(s: State, t: Thread, c: Choice)
    requires Exclusive(s) && Own(s, t) && PcOf(s, t).Cleaning? && PcOf(s, t).job.stage !in {TakeLease, Drop}
    ensures Guarantee(s, Cleaned(s, t, c), t)
  {
    var n, task := Cleaned(s, t, c), PcOf(s, t).job.task;
    assert HoldsLease(PcOf(s, t), task);
    MarkGuarantees(s, n, t, task);
  }

  lemma CleanGuarantees(s: State, t: Thread, c: Choice)
    requires Exclusive(s) && Own(s, t) && PcOf(s, t).Cleaning?
    ensures Guarantee(s, Cleaned(s, t, c), t)
  {
    if PcOf(s, t).job.stage in {TakeLease, Drop} {
      CleanLeaseGuarantees(s, t, c);
    } else {
      CleanMarkGuarantees(s, t, c);
    }
  }

  /** The places that are neither in a cleanup nor in one of the four programs. */
  ghost predicate Between(pc: Pc) {
    pc.Idle? || pc.Recover? || pc.Unlock?
  }

  lemma BeginningKeeps(s: State, t: Thread, c: Choice)
    requires Exclusive(s) && Own(s, t) && PcOf(s, t).Idle?
    ensures Exclusive(Step(s, t, c)) && Own(Step(s, t, c), t)
  {
  }

  lemma BetweenKeeps(s: State, t: Thread, c: Choice)
    requires Exclusive(s) && Own(s, t) && (PcOf(s, t).Recover? || PcOf(s, t).Unlock?)
    ensures Exclusive(Step(s, t, c)) && Own(Step(s, t, c), t)
  {
  }

  lemma BetweenGuarantees(s: State, t: Thread, c: Choice)
    requires Exclusive(s) && Own(s, t) && Between(PcOf(s, t))
    ensures Guarantee(s, Step(s, t, c), t)
  {
  }

  lemma StepKeeps(s: State, t: Thread, c: Choice)
    requires Exclusive(s) && Own(s, t)
    ensures Exclusive(Step(s, t, c)) && Own(Step(s, t, c), t)
  {
    var pc := PcOf(s, t);
    if pc.Cleaning? {
      CleanKeeps(s, t, c);
    } else if pc.Idle? {
      BeginningKeeps(s, t, c);
    } else if Between(pc) {
      BetweenKeeps(s, t, c);
    } else if IsDispatch(pc) {
      DispatchKeeps(s, t, c);
    } else if IsEnable(pc) {
      EnableKeeps(s, t, c);
    } else if IsOff(pc) {
      OffKeeps(s, t, c);
    } else {
      MonitorKeeps(s, t, c);
    }
  }

  lemma StepGuarantees(s: State, t: Thread, c: Choice)
    requires Exclusive(s) && Own(s, t)
    ensures Guarantee(s, Step(s, t, c), t)
  {
    var pc := PcOf(s, t);
    if pc.Cleaning? {
      CleanGuarantees(s, t, c);
    } else if Between(pc) {
      BetweenGuarantees(s, t, c);
    } else if IsDispatch(pc) {
      DispatchGuarantees(s, t, c);
    } else if IsEnable(pc) {
      EnableGuarantees(s, t, c);
    } else if IsOff(pc) {
      OffGuarantees(s, t, c);
    } else {
      MonitorGuarantees(s, t, c);
    }
  }

  lemma OthersKeep(s: State, n: State, t: Thread, u: Thread)
    requires Exclusive(s) && Own(s, t) && Own(s, u) && u != t && Guarantee(s, n, t)
    ensures Own(n, u)
  {
    var pc := PcOf(s, u);
    if IsDispatch(pc) && !pc.DispatchWait? {
      assert u in s.readers;
    }
    if pc.Cleaning? {
      assert HoldsLease(pc, pc.job.task) <==> pc.job.task in s.leases && s.leases[pc.job.task] == u;
    }
  }

  // ---- history -------------------------------------------------------------------------------

  /** Marks, resets and audits say nothing about sessions. */
  lemma PlainEvent(s: State, n: State, event: Event)
    requires History(s) && n.log == s.log + [event] && n.session == s.session && n.nextEpoch == s.nextEpoch
    requires !event.Ended? && !event.Started?
    ensures History(n)
  {
    forall i | 0 <= i < |n.log| ensures StartedInTime(n.log, i) {
      if i < |s.log| {
        assert StartedInTime(s.log, i);
      }
    }
  }

  lemma SameLog(s: State, n: State)
    requires History(s) && n.log == s.log && n.session == s.session && n.nextEpoch == s.nextEpoch
    ensures History(n)
  {
  }

  lemma Ending(s: State)
    requires History(s)
    ensures History(EndSession(s)) && EndSession(s).session.None? && EndSession(s).nextEpoch == s.nextEpoch
  {
    var n := EndSession(s);
    forall i | 0 <= i < |n.log| ensures StartedInTime(n.log, i) {
      if i < |s.log| {
        assert StartedInTime(s.log, i);
      }
    }
  }

  lemma Starting(s: State, n: State, t: Thread)
    requires History(s) && Own(s, t) && PcOf(s, t).DispatchSend? && n.session == s.session && n.nextEpoch == s.nextEpoch
    requires n.log == s.log + [Started(t, PcOf(s, t).task, PcOf(s, t).seen, PcOf(s, t).mark)]
    ensures History(n)
  {
    forall i | 0 <= i < |n.log| ensures StartedInTime(n.log, i) {
      if i < |s.log| {
        assert StartedInTime(s.log, i);
      }
    }
  }

  lemma Activating(s: State, task: Task)
    requires History(s)
    ensures History(EndSession(s).(session := Some(Session(task, s.nextEpoch)), nextEpoch := s.nextEpoch + 1))
  {
    Ending(s);
  }

  lemma DispatchHistory(s: State, t: Thread, c: Choice)
    requires History(s) && Own(s, t) && IsDispatch(PcOf(s, t))
    ensures History(Dispatch(s, t, PcOf(s, t), c))
  {
    var pc, n := PcOf(s, t), Dispatch(s, t, PcOf(s, t), c);
    if pc.DispatchSend? && c.ok {
      Starting(s, n, t);
    } else if pc.DispatchMark? && c.ok {
      PlainEvent(s, n, MarkedDirty(t, pc.task));
    } else if n.log == s.log + [ReadFailed(t, pc.task)] {
      PlainEvent(s, n, ReadFailed(t, pc.task));
    } else {
      SameLog(s, n);
    }
  }

  lemma EnableHistory(s: State, t: Thread, c: Choice)
    requires History(s) && IsEnable(PcOf(s, t))
    ensures History(Enable(s, t, PcOf(s, t), c))
  {
    var pc, n := PcOf(s, t), Enable(s, t, PcOf(s, t), c);
    if pc.EnableActivate? && c.ok {
      Activating(s, pc.task);
      SameLog(EndSession(s).(session := Some(Session(pc.task, s.nextEpoch)), nextEpoch := s.nextEpoch + 1), n);
    } else if pc.EnableEnd? && (c.ok || c.other) {
      Ending(s);
      SameLog(EndSession(s), n);
    } else if pc.EnableDirty? && c.ok {
      PlainEvent(s, n, MarkedDirty(t, pc.previous));
    } else {
      SameLog(s, n);
    }
  }

  lemma OffHistory(s: State, t: Thread, c: Choice)
    requires History(s) && IsOff(PcOf(s, t))
    ensures History(Off(s, t, PcOf(s, t), c))
  {
    var pc, n := PcOf(s, t), Off(s, t, PcOf(s, t), c);
    if pc.OffRevoke? && c.ok {
      Ending(s);
      SameLog(EndSession(s), n);
    } else if pc.OffDirty? && c.ok {
      PlainEvent(s, n, MarkedDirty(t, pc.previous));
    } else {
      SameLog(s, n);
    }
  }

  lemma MonitorHistory(s: State, t: Thread, c: Choice)
    requires History(s) && IsMonitor(PcOf(s, t))
    ensures History(Monitor(s, t, PcOf(s, t), c))
  {
    var pc, n := PcOf(s, t), Monitor(s, t, PcOf(s, t), c);
    if pc.MonitorExpire? && c.ok {
      Ending(s);
      SameLog(EndSession(s), n);
    } else if pc.MonitorDirty? && c.ok {
      PlainEvent(s, n, MarkedDirty(t, pc.previous));
    } else {
      SameLog(s, n);
    }
  }

  lemma CleanHistory(s: State, t: Thread, c: Choice)
    requires History(s) && PcOf(s, t).Cleaning?
    ensures History(Clean(s, t, PcOf(s, t).job, c))
  {
    var job, n := PcOf(s, t).job, Clean(s, t, PcOf(s, t).job, c);
    if job.stage == Normalize && c.ok {
      PlainEvent(s, n, PermissionsReset(t, job.task));
    } else if job.stage == Audit && c.ok {
      PlainEvent(s, n, Audited(t, job.task));
    } else {
      SameLog(s, n);
    }
  }

  lemma StepHistory(s: State, t: Thread, c: Choice)
    requires History(s) && Own(s, t)
    ensures History(Step(s, t, c))
  {
    var pc := PcOf(s, t);
    if pc.Cleaning? {
      CleanHistory(s, t, c);
    } else if IsDispatch(pc) {
      DispatchHistory(s, t, c);
    } else if IsEnable(pc) {
      EnableHistory(s, t, c);
    } else if IsOff(pc) {
      OffHistory(s, t, c);
    } else if IsMonitor(pc) {
      MonitorHistory(s, t, c);
    } else {
      SameLog(s, Step(s, t, c));
    }
  }

  // ---- runs ----------------------------------------------------------------------------------

  /** Nothing runs and no session is active; some tasks may be dirty from an earlier run of the program. */
  function Start(dirty: set<Task>): State {
    State({}, None, None, 0, {}, {}, dirty, map[], [], map[])
  }

  function Run(s: State, steps: seq<(Thread, Choice)>): State {
    if steps == [] then s else Step(Run(s, steps[..|steps| - 1]), steps[|steps| - 1].0, steps[|steps| - 1].1)
  }

  lemma InvariantKept(s: State, t: Thread, c: Choice)
    requires Invariant(s)
    ensures Invariant(Step(s, t, c))
  {
    StepKeeps(s, t, c);
    StepGuarantees(s, t, c);
    StepHistory(s, t, c);
    forall u: Thread ensures Own(Step(s, t, c), u) {
      if u != t {
        OthersKeep(s, Step(s, t, c), t, u);
      }
    }
  }

  lemma {:induction false} RunsKeepInvariant(dirty: set<Task>, steps: seq<(Thread, Choice)>)
    ensures Invariant(Run(Start(dirty), steps))
  {
    if steps != [] {
      RunsKeepInvariant(dirty, steps[..|steps| - 1]);
      InvariantKept(Run(Start(dirty), steps[..|steps| - 1]), steps[|steps| - 1].0, steps[|steps| - 1].1);
    }
  }

  // ---- what follows --------------------------------------------------------------------------

  /**
   A privileged dispatch reaches Codex only after its own dirty mark was written and before the
   session it saw was ended by enabling, revoking or expiry.
   */
  lemma NoStartAfterTheEnd(dirty: set<Task>, steps: seq<(Thread, Choice)>, i: nat, j: nat)
    requires var log := Run(Start(dirty), steps).log; i < |log| && j < |log| && log[i].Started? && log[i].seen.Some?
    ensures var log := Run(Start(dirty), steps).log;
            && log[i].mark < i && log[log[i].mark] == MarkedDirty(log[i].who, log[i].task)
            && (log[j] == Ended(log[i].seen.value) ==> i < j)
  {
    RunsKeepInvariant(dirty, steps);
    assert StartedInTime(Run(Start(dirty), steps).log, i);
  }

  /** When a privileged dispatch is sent, its session is active for its task, and no transition holds the barrier. */
  lemma StartsAreLive(s: State, t: Thread)
    requires Invariant(s) && PcOf(s, t).DispatchSend? && PcOf(s, t).seen.Some?
    ensures s.session == Some(Session(PcOf(s, t).task, PcOf(s, t).seen.value)) && s.writer.None? && t in s.readers
  {
    assert Own(s, t);
  }

  /** A dispatch that is sent without privilege while a session is active for its task is one whose read of the session failed. */
  lemma UnprivilegedStartsReadNone(s: State, t: Thread)
    requires Invariant(s) && PcOf(s, t).DispatchSend? && PcOf(s, t).seen.None?
    requires s.session.Some? && s.session.value.task == PcOf(s, t).task
    ensures PcOf(s, t).mark < |s.log| && s.log[PcOf(s, t).mark] == ReadFailed(t, PcOf(s, t).task)
  {
    assert Own(s, t);
  }

  /** At most one cleanup per task is past its lease. */
  lemma LeasesAreExclusive(s: State, t: Thread, u: Thread, task: Task)
    requires Invariant(s) && HoldsLease(PcOf(s, t), task) && HoldsLease(PcOf(s, u), task)
    ensures t == u
  {
    assert Own(s, t) && Own(s, u);
    assert task in s.leases && s.leases[task] == t;
  }

  /** The lease holder's confirmations: both events lie after the lease was taken. */
  predicate ConfirmedByHolder(s: State, t: Thread, task: Task) {
    && HoldsLease(PcOf(s, t), task) && task in s.leases && s.leases[task] == t
    && var job := PcOf(s, t).job;
    && job.stopped && (exists i :: job.since <= i < |s.log| && s.log[i] == PermissionsReset(t, task))
    && (exists i :: job.since <= i < |s.log| && s.log[i] == Audited(t, task))
  }

  lemma MarksAreLiftedInCleanups(s: State, t: Thread, c: Choice, task: Task)
    requires (task in s.quarantined && task !in Step(s, t, c).quarantined) || (task in s.dirty && task !in Step(s, t, c).dirty)
    ensures PcOf(s, t).Cleaning? && PcOf(s, t).job.task == task && PcOf(s, t).job.stage in {ClearDirty, Unquarantine}
  {
  }

  lemma LeasesAreDroppedByHolders(s: State, t: Thread, c: Choice, task: Task)
    requires task in s.leases && task !in Step(s, t, c).leases
    ensures PcOf(s, t).Cleaning? && PcOf(s, t).job.task == task && PcOf(s, t).job.stage == Drop
    ensures Step(s, t, c).quarantined == s.quarantined
  {
  }

  lemma LiftersHaveConfirmed(s: State, t: Thread, task: Task)
    requires Own(s, t) && HoldsLease(PcOf(s, t), task) && Confirmed(PcOf(s, t).job)
    ensures ConfirmedByHolder(s, t, task)
  {
    var job := PcOf(s, t).job;
    assert Accounted(s, t, PcOf(s, t)) && CleanupHolds(s, t, job);
    assert s.log[job.reset.value] == PermissionsReset(t, task) && s.log[job.audited.value] == Audited(t, task);
  }

  /** A quarantine mark or a dirty row goes only by the lease holder's hand, after a confirmed reset and a persisted audit. */
  lemma OnlyConfirmedCleanupsLift(s: State, t: Thread, c: Choice, task: Task)
    requires Invariant(s)
    requires (task in s.quarantined && task !in Step(s, t, c).quarantined) || (task in s.dirty && task !in Step(s, t, c).dirty)
    ensures ConfirmedByHolder(s, t, task)
  {
    assert Own(s, t);
    MarksAreLiftedInCleanups(s, t, c, task);
    LiftersHaveConfirmed(s, t, task);
  }

  /** A lease that is dropped without success leaves its task quarantined, and free for the next attempt. */
  lemma FailedCleanupsStayQuarantined(s: State, t: Thread, c: Choice, task: Task)
    requires Invariant(s) && task in s.leases && task !in Step(s, t, c).leases
    ensures HoldsLease(PcOf(s, t), task) && PcOf(s, t).job.stage == Drop
    ensures !PcOf(s, t).job.ok ==> task in Step(s, t, c).quarantined
    ensures PcOf(s, t).job.ok ==> ConfirmedByHolder(s, t, task)
  {
    assert Own(s, t);
    LeasesAreDroppedByHolders(s, t, c, task);
    if PcOf(s, t).job.ok {
      LiftersHaveConfirmed(s, t, task);
    }
  }

  /** A task under cleanup is quarantined until the lifting step, so no new dispatch for it passes its checks. */
  lemma CleanupsBlockDispatch(s: State, t: Thread, u: Thread, c: Choice)
    requires Invariant(s) && PcOf(s, t).Cleaning? && PcOf(s, t).job.stage !in {TakeLease, Quarantine, Drop}
    requires PcOf(s, u).DispatchRecheck? && PcOf(s, u).task == PcOf(s, t).job.task
    ensures PcOf(Step(s, u, c), u) == Idle
  {
    assert Own(s, t);
  }
}
