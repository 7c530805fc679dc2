/** When timeouts fire, for runs whose clock does not go backwards. */
module SchedulerTime {
  import opened CallStack
  import opened TimerLog
  import opened EpollLists
  import opened PollEvents
  import opened Scheduler
  import opened SchedulerInv
  import opened Wrappers

  /** The clock reading of an event, if it has one, is not before the last. */
  predicate Timely(s: State, e: Event) {
    match e
    case TakeTimeouts(now) => s.clock <= now
    case Poll(_, _, now, _) => s.clock <= now
    case TimedWait(_, _, now) => s.clock <= now
    case _ => true
  }

  predicate TimelyRuns(s: State, es: seq<Event>)
    decreases |es|
  {
    es != [] ==> Enabled(s, es[0]) && Timely(s, es[0]) && TimelyRuns(Step(s, es[0]), es[1..])
  }

  function Start(s: State): nat { s.lists.timers.start }
  function Size(s: State): nat { s.lists.timers.size }

  ghost predicate ClockInv(s: State) {
    && 1 <= Size(s) && 0 < Start(s) <= s.clock
    && (s.phase.Draining? ==> s.phase.now == Start(s) && s.phase.firstNew <= s.nextRid)
  }

  /** `w` was last filed when the wheel started at `lastStart`, under its expiry or,
      if that was out of reach, under the last slot; and each time it was put back
      the start had moved on by all the slots but one. */
  ghost predicate FiledOk(s: State, w: Wait) {
    && w.firstStart + w.refiles * (Size(s) - 1) <= w.lastStart <= w.ullExpireTime
    && w.lastStart <= Start(s)
  }

  ghost predicate DueInv(s: State) {
    && (forall r :: r in s.waits && s.waits[r].timed ==> FiledOk(s, s.waits[r]))
    && (forall r, due: nat :: DueAt(s.lists, r, due) && r in s.waits ==>
          due == FiledAtOr(Size(s), s.waits[r].lastStart, s.waits[r].ullExpireTime))
    && (forall r :: r in s.waits && s.waits[r].bTimeout && s.phase.Draining? ==>
          FiledAtOr(Size(s), s.waits[r].lastStart, s.waits[r].ullExpireTime) <= s.phase.now)
  }

  /** FiledAt, where it is defined. */
  function FiledAtOr(size: nat, start: nat, expire: nat): nat {
    if start <= expire && 1 <= size then FiledAt(size, start, expire) else 0
  }

  /** During a pass, what is older than the pass and still pending expires later. */
  ghost predicate PassInv(s: State) {
    s.phase.Draining? ==>
      forall r :: r in s.waits && r < s.phase.firstNew && Pending(s.lists, r) ==> s.phase.now < s.waits[r].ullExpireTime
  }

  /** No timeout fired before its time. */
  ghost predicate FiredInv(s: State) {
    forall i :: 0 <= i < |s.log| && s.log[i].byLoop && s.log[i].wait.bTimeout ==>
      s.log[i].wait.ullExpireTime <= s.log[i].at
  }

  ghost predicate TimeInv(s: State) {
    ClockInv(s) && DueInv(s) && PassInv(s) && FiredInv(s)
  }

  lemma InitTime(size: nat, now: nat, shared: set<Co>)
    requires 1 <= size && 0 < now
    ensures TimeInv(Init(size, now, shared))
  {
  }

  /** Nothing about the wheel, the clock or the waits changed, but some waits may be
      gone, off the wheel, or signalled. */
  lemma FewerTimers(s: State, t: State)
    requires TimeInv(s) && t.lists.timers.size == s.lists.timers.size && t.lists.timers.start == s.lists.timers.start
    requires t.clock == s.clock && t.nextRid == s.nextRid
    requires t.phase == s.phase || !t.phase.Draining?
    requires forall r :: r in t.waits ==> r in s.waits && SameTimes(s.waits[r], t.waits[r])
    requires forall r, due: nat :: DueAt(t.lists, r, due) ==> DueAt(s.lists, r, due)
    requires forall r :: Pending(t.lists, r) ==> Pending(s.lists, r)
    requires FiredInv(t)
    ensures TimeInv(t)
  {
    hide DueAt, Pending, FiledAt;
    forall r | r in t.waits && t.waits[r].timed ensures FiledOk(t, t.waits[r]) {
      assert FiledOk(s, s.waits[r]);
    }
  }

  predicate SameTimes(v: Wait, w: Wait) {
    && w.timed == v.timed && w.ullExpireTime == v.ullExpireTime && w.bTimeout == v.bTimeout
    && w.firstStart == v.firstStart && w.lastStart == v.lastStart && w.refiles == v.refiles
  }

  lemma ResumeTime(s: State, co: Co, byLoop: bool)
    requires TimeInv(s) && WaitInv(s) && Good(s.lists)
    requires co !in s.pCallStack && co !in s.ended && |s.pCallStack| < CALL_STACK_SIZE
    requires byLoop && co in s.blocked && s.waits[s.blocked[co]].bTimeout ==>
             s.waits[s.blocked[co]].ullExpireTime <= s.clock
    ensures TimeInv(ResumeCo(s, co, byLoop))
  {
    var t := ResumeCo(s, co, byLoop);
    if co in s.blocked {
      var rid := s.blocked[co];
      assert rid in s.waits;
      DetachMoves(s.lists, rid);
      ResumeEffect(s, co, byLoop);
      hide Good, Pending, DueAt, ClockInv, DueInv, PassInv, Detach, WaitInv, ResumeCo;
      FewerTimers(s, t);
    } else {
      hide Good, Pending, DueAt, ClockInv, DueInv, PassInv;
      FewerTimers(s, t);
    }
  }

  /** A record of co_poll_inner or co_cond_timedwait is filed, or refused. */
  lemma ArmTime(s: State, t: State, expire: nat, now: nat)
    requires TimeInv(s) && WaitInv(s) && Good(s.lists) && s.clock <= now && s.nextRid !in s.waits
    requires !Pending(s.lists, s.nextRid) && s.nextRid !in s.lists.active
    requires t.lists == Arm(s.lists, s.nextRid, expire, now).0 && t.clock == now && t.phase == s.phase && t.log == s.log
    requires if Arm(s.lists, s.nextRid, expire, now).1 != Added then t.waits == s.waits && t.nextRid == s.nextRid
             else
               && t.nextRid == s.nextRid + 1 && s.nextRid in t.waits
                  && t.waits == s.waits[s.nextRid := t.waits[s.nextRid]]
               && var w := t.waits[s.nextRid];
                  && w.timed && !w.bTimeout && w.ullExpireTime == expire && w.refiles == 0
                  && w.firstStart == w.lastStart == Start(t)
    ensures TimeInv(t)
  {
    ArmMoves(s.lists, s.nextRid, expire, now);
    hide Good, Pending, DueAt, Arm;
    forall r | r in t.waits && t.waits[r].timed ensures FiledOk(t, t.waits[r]) {
      if r != s.nextRid {
        assert FiledOk(s, s.waits[r]);
      }
    }
  }

  lemma PollTime(s: State, fds: seq<PollFd>, timeout: int, now: nat, accepted: set<int>)
    requires Inv(s) && TimeInv(s) && CanPoll(s, fds, timeout, now, accepted) && s.clock <= now
    ensures TimeInv(PollCo(s, fds, timeout, now, accepted))
  {
    var expire := ExpireTime(now, if timeout > MAX_TIMEOUT then MAX_TIMEOUT else timeout);
    assert s.nextRid !in s.waits;
    var t := PollCo(s, fds, timeout, now, accepted);
    hide Good, Pending, Arm, Register, RecInv, DueInv, PassInv, ClockInv, FiredInv;
    ArmTime(s, t, expire, now);
  }

  lemma WaitTime(s: State, c: Cond, ms: int, now: nat)
    requires Inv(s) && TimeInv(s) && InUserCode(s) && Top(s) != MAIN && 1 <= s.lists.timers.size && s.clock <= now
    ensures TimeInv(WaitOn(s, c, ms, now))
  {
    assert s.nextRid !in s.waits && |s.pCallStack| > 1;
    var t := WaitOn(s, c, ms, now);
    if ms > 0 {
      hide Good, Pending, Arm, RecInv, DueInv, PassInv, ClockInv, FiredInv;
      ArmTime(s, t, ExpireTime(now, ms), now);
    } else {
      UntimedWait(s, t);
    }
  }

  lemma UntimedWait(s: State, t: State)
    requires TimeInv(s) && t.lists == s.lists && t.clock == s.clock && t.phase == s.phase && t.log == s.log
    requires t.nextRid == s.nextRid + 1 && s.nextRid !in s.waits && !Pending(s.lists, s.nextRid)
    requires s.nextRid in t.waits && t.waits == s.waits[s.nextRid := t.waits[s.nextRid]]
    requires !t.waits[s.nextRid].timed && !t.waits[s.nextRid].bTimeout
    ensures TimeInv(t)
  {
    PendingIsDue(s.lists, s.nextRid);
    hide Pending, DueAt;
    forall r | r in t.waits && t.waits[r].timed ensures FiledOk(t, t.waits[r]) {
      assert FiledOk(s, s.waits[r]);
    }
  }

  lemma SignalTime(s: State, c: Cond)
    requires Inv(s) && TimeInv(s)
    ensures TimeInv(SignalOn(s, c))
  {
    if Queue(s, c) != [] {
      var r := Queue(s, c)[0];
      assert c in s.conds && r in s.conds[c];
      ReadyMoves(s.lists, r);
      var t := SignalOn(s, c);
      assert Good(s.lists);
      hide Good, Pending, DueAt, Ready, LinkInv, RecInv, DueInv, PassInv, ClockInv, Early;
      FewerTimers(s, t);
    }
  }

  lemma {:induction false} BroadcastTime(s: State, c: Cond)
    requires Inv(s) && TimeInv(s) && !s.phase.Preparing?
    ensures TimeInv(BroadcastOn(s, c))
    decreases |Queue(s, c)|
  {
    if Queue(s, c) != [] {
      SignalTime(s, c);
      SignalKeeps(s, c);
      BroadcastTime(SignalOn(s, c), c);
    }
  }

  lemma OnlyMutexTime(s: State, m: nat, mu: Mutex)
    requires TimeInv(s)
    ensures TimeInv(s.(mutexes := s.mutexes[m := mu]))
  {
    hide ClockInv, DueInv, PassInv;
    FewerTimers(s, s.(mutexes := s.mutexes[m := mu]));
  }

  lemma LockTime(s: State, m: nat)
    requires Inv(s) && TimeInv(s) && CanLock(s, m)
    ensures TimeInv(LockCo(s, m))
  {
    hide Inv, WaitOn, TimeInv;
    var mu := MutexOf(s, m);
    var mu' := mu.(m_iWaitItemCnt := mu.m_iWaitItemCnt + 1, arrivals := mu.arrivals + [Top(s)]);
    if mu.m_iWaitItemCnt > 0 {
      MutexKeeps(s, m, mu');
      OnlyMutexTime(s, m, mu');
      WaitTime(s.(mutexes := s.mutexes[m := mu']), MutexCond(m), -1, s.clock);
    } else {
      OnlyMutexTime(s, m, mu'.(owner := Some(Top(s)), grants := mu.grants + [Top(s)]));
    }
  }

  lemma UnlockTime(s: State, m: nat)
    requires Inv(s) && TimeInv(s) && CanUnlock(s, m)
    ensures TimeInv(UnlockCo(s, m))
  {
    hide Inv, SignalOn, TimeInv;
    var mu := MutexOf(s, m);
    var q := Queue(s, MutexCond(m));
    var mu' := mu.(m_iWaitItemCnt := mu.m_iWaitItemCnt - 1, owner := None, unlocks := mu.unlocks + 1,
                   pending := if q == [] then None else Some(q[0]));
    MutexKeeps(s, m, mu');
    OnlyMutexTime(s, m, mu');
    SignalTime(s.(mutexes := s.mutexes[m := mu']), MutexCond(m));
  }

  lemma ReportTime(s: State, fd: int, events: bv32)
    requires Inv(s) && TimeInv(s) && CanReport(s, fd, events)
    ensures TimeInv(ReportFd(s, fd, events))
  {
    assert RegOk(s, fd, s.regs[fd]);
    ReadyMoves(s.lists, s.regs[fd].rid);
    var t := ReportFd(s, fd, events);
    assert Good(s.lists);
    hide Good, Pending, DueAt, Ready, LinkInv, RecInv, DueInv, PassInv, ClockInv, EpollEvent2Poll;
    FewerTimers(s, t);
  }

  lemma TakeTime(s: State, now: nat)
    requires Inv(s) && TimeInv(s) && CanTake(s) && s.clock <= now
    ensures TimeInv(TakeAt(s, now))
  {
    var (ls, taken) := Collect(s.lists, now);
    CollectMoves(s.lists, now);
    CollectTakesDue(s.lists, now);
    var t := TakeAt(s, now);
    assert forall r :: r in s.waits ==> !s.waits[r].bTimeout by {
      forall r | r in s.waits ensures !s.waits[r].bTimeout {
        assert RecOk(s, r, s.waits[r]);
      }
    }
    forall r | Pending(t.lists, r) ensures exists due: nat :: DueAt(t.lists, r, due) {
      PendingIsDue(t.lists, r);
    }
    hide Good, Pending, DueAt, Collect, LinkInv, RecInv, StackInv, WaitInv, DueInv;
    TakeDue(s, t, taken, now);
    TakePass(s, t, now);
  }

  lemma TakeDue(s: State, t: State, taken: seq<Rid>, now: nat)
    requires DueInv(s) && t.waits == MarkAll(s.waits, taken) && Start(s) <= Start(t) && Size(t) == Size(s)
    requires forall r :: r in s.waits ==> !s.waits[r].bTimeout
    requires forall r :: r in taken <==> exists due: nat :: DueAt(s.lists, r, due) && due <= now
    requires forall r, due: nat :: DueAt(t.lists, r, due) ==> DueAt(s.lists, r, due)
    requires t.phase.Draining? && t.phase.now == now
    ensures DueInv(t)
  {
    hide DueAt;
    forall r | r in t.waits && t.waits[r].timed ensures FiledOk(t, t.waits[r]) {
      assert FiledOk(s, s.waits[r]);
    }
  }

  lemma TakePass(s: State, t: State, now: nat)
    requires DueInv(s) && t.waits.Keys == s.waits.Keys
    requires forall r :: r in t.waits ==> t.waits[r].ullExpireTime == s.waits[r].ullExpireTime
    requires forall r :: Pending(t.lists, r) ==> exists due: nat :: DueAt(t.lists, r, due)
    requires forall r, due: nat :: DueAt(t.lists, r, due) ==> DueAt(s.lists, r, due) && due > now
    requires t.phase.Draining? && t.phase.now == now
    ensures PassInv(t)
  {
    hide Pending, DueAt;
    forall r | r in t.waits && Pending(t.lists, r) ensures now < t.waits[r].ullExpireTime {
      var due: nat :| DueAt(t.lists, r, due);
      assert r in t.waits.Keys;
      assert DueAt(s.lists, r, due) && r in s.waits;
    }
  }

  /** Putting a timer back always succeeds, and it waits for a later tick: it cannot
      come back in the same pass. */
  lemma RefileSucceeds(s: State)
    requires Inv(s) && TimeInv(s) && CanDrain(s)
    requires var w := s.waits[s.lists.active[0]]; w.bTimeout && s.phase.now < w.ullExpireTime
    ensures var r := s.lists.active[0]; var t := DrainOne(s);
            && Arm(Pop(s.lists), r, s.waits[r].ullExpireTime, s.phase.now).1 == Added
            && r in t.waits && Pending(t.lists, r) && r !in t.lists.active
            && (2 <= Size(s) ==> forall due: nat :: DueAt(t.lists, r, due) ==> s.phase.now < due)
  {
    var r := s.lists.active[0];
    PopMoves(s.lists);
    ArmMoves(Pop(s.lists), r, s.waits[r].ullExpireTime, s.phase.now);
    PendingIsDue(Pop(s.lists), r);
  }

  /** What a timer that was taken early says about how it was filed: out of reach of
      the wheel, the start of which has since moved on by all its slots but one. */
  lemma EarlyIsClamped(s: State, r: Rid)
    requires TimeInv(s) && r in s.waits && s.waits[r].timed && Early(s, s.waits[r])
    ensures s.waits[r].ullExpireTime - s.waits[r].lastStart >= Size(s)
    ensures s.waits[r].lastStart + (Size(s) - 1) <= s.phase.now
  {
    assert FiledOk(s, s.waits[r]);
  }

  lemma RefileTime(s: State)
    requires Inv(s) && TimeInv(s) && CanDrain(s)
    requires var w := s.waits[s.lists.active[0]]; w.bTimeout && s.phase.now < w.ullExpireTime
    ensures TimeInv(DrainOne(s))
  {
    hide Inv, Good, Pending, DueAt, DrainOne, DueInv, PassInv;
    var r := s.lists.active[0];
    var t := DrainOne(s);
    RefileFacts(s);
    RefileMoves(s);
    EarlyIsClamped(s, r);
    RefileDue(s, t, r);
    RefilePass(s, t, r);
  }

  lemma RefileMoves(s: State)
    requires Inv(s) && TimeInv(s) && CanDrain(s)
    requires var w := s.waits[s.lists.active[0]]; w.bTimeout && s.phase.now < w.ullExpireTime
    ensures var r := s.lists.active[0]; var w := s.waits[r]; var t := DrainOne(s);
            && r in s.waits && Start(t) == Start(s) && Size(t) == Size(s) && w.lastStart <= w.ullExpireTime
            && t.phase == s.phase && t.clock == s.clock && t.nextRid == s.nextRid && t.log == s.log
            && t.waits == s.waits[r := w.(bTimeout := false, lastStart := Start(t), refiles := w.refiles + 1)]
            && (forall x :: Pending(t.lists, x) <==> Pending(s.lists, x) || x == r)
            && (forall due: nat :: !DueAt(s.lists, r, due))
            && (forall x, due: nat :: DueAt(t.lists, x, due) <==>
                  DueAt(s.lists, x, due) || (x == r && due == FiledAt(Size(t), Start(t), w.ullExpireTime)))
  {
    hide Inv, TimeInv, Pending, DueAt, Good;
    RefileFacts(s);
    RefileSucceeds(s);
    var r := s.lists.active[0];
    PendingIsDue(s.lists, r);
    PopMoves(s.lists);
    ArmMoves(Pop(s.lists), r, s.waits[r].ullExpireTime, s.phase.now);
    PopSame(s.lists);
  }

  lemma PopSame(ls: Lists<Rid>)
    requires ls.active != []
    ensures forall x :: Pending(Pop(ls), x) <==> Pending(ls, x)
    ensures forall x, due: nat :: DueAt(Pop(ls), x, due) <==> DueAt(ls, x, due)
  {
  }

  lemma RefileFacts(s: State)
    requires Inv(s) && TimeInv(s) && CanDrain(s)
    requires var w := s.waits[s.lists.active[0]]; w.bTimeout && s.phase.now < w.ullExpireTime
    ensures var r := s.lists.active[0];
            && r in s.waits && Good(s.lists) && !Pending(s.lists, r) && FiledOk(s, s.waits[r]) && s.waits[r].timed
            && WaitInv(s) && s.phase.now == Start(s) > 0
  {
    var r := s.lists.active[0];
    assert r in s.lists.active && RecOk(s, r, s.waits[r]);
  }

  lemma RefileDue(s: State, t: State, r: Rid)
    requires ClockInv(s) && DueInv(s) && s.phase.Draining? && r in s.waits && s.waits[r].timed && Early(s, s.waits[r])
    requires Start(t) == Start(s) && Size(t) == Size(s) && t.phase == s.phase
    requires t.waits == s.waits[r := s.waits[r].(bTimeout := false, lastStart := Start(t),
             refiles := s.waits[r].refiles + 1)]
    requires s.waits[r].lastStart + (Size(s) - 1) <= s.phase.now
    requires forall x, due: nat :: DueAt(t.lists, x, due) <==>
               DueAt(s.lists, x, due) || (x == r && due == FiledAtOr(Size(t), Start(t), s.waits[r].ullExpireTime))
    requires forall due: nat :: !DueAt(s.lists, r, due)
    ensures DueInv(t)
  {
    hide DueAt;
    var w := s.waits[r];
    var k := Size(s) - 1;
    assert (w.refiles + 1) * k == w.refiles * k + k;
    forall x | x in t.waits && t.waits[x].timed ensures FiledOk(t, t.waits[x]) {
      assert FiledOk(s, s.waits[x]);
    }
  }

  lemma RefilePass(s: State, t: State, r: Rid)
    requires PassInv(s) && r in s.waits && t.phase == s.phase && s.phase.Draining?
             && s.phase.now < s.waits[r].ullExpireTime
    requires t.waits.Keys == s.waits.Keys && forall x :: x in s.waits ==>
             t.waits[x].ullExpireTime == s.waits[x].ullExpireTime
    requires forall x :: Pending(t.lists, x) <==> Pending(s.lists, x) || x == r
    ensures PassInv(t)
  {
    hide Pending;
    forall x | x in t.waits && x < t.phase.firstNew && Pending(t.lists, x)
      ensures t.phase.now < t.waits[x].ullExpireTime
    {
      assert x in s.waits.Keys;
    }
  }

  lemma DrainTime(s: State)
    requires Inv(s) && TimeInv(s) && CanDrain(s)
    ensures TimeInv(DrainOne(s))
  {
    var r := s.lists.active[0];
    assert r in s.lists.active && r in s.waits;
    var w := s.waits[r];
    if w.bTimeout && s.phase.now < w.ullExpireTime {
      RefileTime(s);
    } else {
      PopMoves(s.lists);
      var u := s.(lists := Pop(s.lists));
      assert Good(u.lists) && w.co in s.blocked && s.blocked[w.co] == r;
      hide Good, Pending, DueAt, Pop, LinkInv, RecInv, DueInv, PassInv, ResumeCo;
      FewerTimers(s, u);
      ResumeTime(u, w.co, true);
    }
  }

  lemma StepTime(s: State, e: Event)
    requires Inv(s) && TimeInv(s) && Enabled(s, e) && Timely(s, e)
    ensures TimeInv(Step(s, e))
  {
    hide Inv, TimeInv, ResumeCo, PollCo, WaitOn, SignalOn, BroadcastOn, LockCo, UnlockCo, ReportFd, TakeAt, DrainOne;
    match e
    case BeginPass => QuietTime(s, Step(s, e));
    case Report(fd, events) => ReportTime(s, fd, events);
    case TakeTimeouts(now) => TakeTime(s, now);
    case Drain => DrainTime(s);
    case EndPass => QuietTime(s, Step(s, e));
    case Resume(co) => UserResumeTime(s, co);
    case Yield => QuietTime(s, Step(s, e));
    case End => QuietTime(s, Step(s, e));
    case Poll(fds, timeout, now, accepted) => PollTime(s, fds, timeout, now, accepted);
    case TimedWait(c, ms, now) => WaitTime(s, UserCond(c), ms, now);
    case Signal(c) => SignalTime(s, UserCond(c));
    case Broadcast(c) => BroadcastUserTime(s, c);
    case Lock(m) => LockTime(s, m);
    case Unlock(m) => UnlockTime(s, m);
  }

  lemma QuietTime(s: State, t: State)
    requires TimeInv(s) && t.lists == s.lists && t.waits == s.waits && t.clock == s.clock && t.nextRid == s.nextRid
    requires t.log == s.log && (t.phase == s.phase || !t.phase.Draining?)
    ensures TimeInv(t)
  {
    hide DueInv, PassInv;
    FewerTimers(s, t);
  }

  lemma UserResumeTime(s: State, co: Co)
    requires Inv(s) && TimeInv(s) && CanResume(s, co)
    ensures TimeInv(ResumeCo(s, co, false))
  {
    ResumeTime(s, co, false);
  }

  lemma BroadcastUserTime(s: State, c: nat)
    requires Inv(s) && TimeInv(s) && InUserCode(s)
    ensures TimeInv(BroadcastOn(s, UserCond(c)))
  {
    BroadcastTime(s, UserCond(c));
  }

  lemma {:induction false} RunTime(s: State, es: seq<Event>)
    requires Inv(s) && TimeInv(s) && TimelyRuns(s, es)
    ensures Runs(s, es) && Inv(Exec(s, es)) && TimeInv(Exec(s, es))
    decreases |es|
  {
    if es != [] {
      StepKeeps(s, es[0]);
      StepTime(s, es[0]);
      RunTime(Step(s, es[0]), es[1..]);
    }
  }

  // ----- the wheel keeps its size

  lemma ResumeSize(s: State, co: Co, byLoop: bool)
    ensures Size(ResumeCo(s, co, byLoop)) == Size(s)
  {
  }

  lemma {:induction false} BroadcastSize(s: State, c: Cond)
    ensures Size(BroadcastOn(s, c)) == Size(s)
    decreases |Queue(s, c)|
  {
    if Queue(s, c) != [] {
      BroadcastSize(SignalOn(s, c), c);
    }
  }

  lemma DrainSize(s: State)
    requires CanDrain(s)
    ensures Size(DrainOne(s)) == Size(s)
  {
    hide ResumeCo;
    var r := s.lists.active[0];
    if r in s.waits {
      ResumeSize(s.(lists := Pop(s.lists)), s.waits[r].co, true);
      ResumeSize(s.(lists := Arm(Pop(s.lists), r, s.waits[r].ullExpireTime, s.phase.now).0), s.waits[r].co, true);
    }
  }

  lemma WaitSize(s: State, c: Cond, ms: int, now: nat)
    requires 1 <= Size(s) && s.pCallStack != []
    ensures Size(WaitOn(s, c, ms, now)) == Size(s)
  {
  }

  lemma PollSize(s: State, fds: seq<PollFd>, timeout: int, now: nat, accepted: set<int>)
    requires 1 <= Size(s) && s.pCallStack != []
    ensures Size(PollCo(s, fds, timeout, now, accepted)) == Size(s)
  {
  }

  lemma StepSize(s: State, e: Event)
    requires Enabled(s, e)
    ensures Size(Step(s, e)) == Size(s)
  {
    hide ResumeCo, DrainOne, BroadcastOn, WaitOn, PollCo;
    match e
    case Drain => DrainSize(s);
    case Resume(co) => ResumeSize(s, co, false);
    case Broadcast(c) => BroadcastSize(s, UserCond(c));
    case Poll(fds, timeout, now, accepted) => PollSize(s, fds, timeout, now, accepted);
    case TimedWait(c, ms, now) => WaitSize(s, UserCond(c), ms, now);
    case Lock(m) =>
      var mu := MutexOf(s, m);
      var mu' := mu.(m_iWaitItemCnt := mu.m_iWaitItemCnt + 1, arrivals := mu.arrivals + [Top(s)]);
      WaitSize(s.(mutexes := s.mutexes[m := mu']), MutexCond(m), -1, s.clock);
    case _ =>
  }

  lemma {:induction false} SameSize(s: State, es: seq<Event>)
    requires Runs(s, es)
    ensures Size(Exec(s, es)) == Size(s)
    decreases |es|
  {
    if es != [] {
      StepSize(s, es[0]);
      SameSize(Step(s, es[0]), es[1..]);
    }
  }

  // ----- what follows for every run from the start

  lemma FromStart(size: nat, now: nat, shared: set<Co>, es: seq<Event>)
    requires 1 <= size && 0 < now && TimelyRuns(Init(size, now, shared), es)
    ensures var s := Init(size, now, shared);
            Runs(s, es) && Inv(Exec(s, es)) && TimeInv(Exec(s, es)) && Size(Exec(s, es)) == size
  {
    InitInv(size, now, shared);
    InitTime(size, now, shared);
    RunTime(Init(size, now, shared), es);
    SameSize(Init(size, now, shared), es);
  }

  /** No timeout fires before its expiry. */
  lemma NeverEarly(size: nat, now: nat, shared: set<Co>, es: seq<Event>, i: nat)
    requires 1 <= size && 0 < now && TimelyRuns(Init(size, now, shared), es)
    ensures Runs(Init(size, now, shared), es)
    ensures var s := Exec(Init(size, now, shared), es);
            i < |s.log| && s.log[i].byLoop && s.log[i].wait.bTimeout ==> s.log[i].wait.ullExpireTime <= s.log[i].at
  {
    FromStart(size, now, shared, es);
  }

  /** Nor later than the first pass whose clock reaches it: when a pass ends, every
      timed wait that began before the pass and is still there expires after the
      pass's clock. */
  lemma NeverLate(size: nat, now: nat, shared: set<Co>, es: seq<Event>)
    requires 1 <= size && 0 < now && TimelyRuns(Init(size, now, shared), es)
    ensures Runs(Init(size, now, shared), es)
    ensures var s := Exec(Init(size, now, shared), es);
            Enabled(s, EndPass) ==>
              forall r :: r in s.waits && s.waits[r].timed && r < s.phase.firstNew ==>
                s.phase.now < s.waits[r].ullExpireTime
  {
    FromStart(size, now, shared, es);
    var s := Exec(Init(size, now, shared), es);
    if Enabled(s, EndPass) {
      NothingOverdue(s);
    }
  }

  lemma NothingOverdue(s: State)
    requires Inv(s) && TimeInv(s) && s.phase.Draining? && s.lists.active == []
    ensures forall r :: r in s.waits && s.waits[r].timed && r < s.phase.firstNew ==>
            s.phase.now < s.waits[r].ullExpireTime
  {
    forall r | r in s.waits && s.waits[r].timed && r < s.phase.firstNew
      ensures s.phase.now < s.waits[r].ullExpireTime
    {
      assert RecOk(s, r, s.waits[r]);
    }
  }

  /** While all timeouts fit the span of the wheel, a pass appends those that are due
      in the order of their expiries, after what is ready already. */
  lemma TimeoutsInOrder(s: State, now: nat)
    requires Inv(s) && TimeInv(s) && CanTake(s)
    requires forall r :: r in s.waits && Pending(s.lists, r) ==>
             s.waits[r].ullExpireTime - s.waits[r].lastStart < Size(s)
    ensures var t := TakeAt(s, now); var n := |s.lists.active|;
            && s.lists.active <= t.lists.active
            && (forall i :: 0 <= i < |t.lists.active| ==> t.lists.active[i] in s.waits)
            && forall i, j :: n <= i < j < |t.lists.active| ==>
                 s.waits[t.lists.active[i]].ullExpireTime <= s.waits[t.lists.active[j]].ullExpireTime
  {
    var t := TakeAt(s, now);
    var n := |s.lists.active|;
    if now >= Start(s) {
      var due := DueBy(s.lists.timers.log, now);
      var out := SortByDue(due);
      SortIsStable(due, 0);
      Members(s.lists.timers.log, now);
      assert t.lists.active == s.lists.active + Names(out);
      forall i | 0 <= i < |out| ensures out[i].item in s.waits && s.waits[out[i].item].ullExpireTime == out[i].due {
        var r := out[i].item;
        assert out[i] in due && DueAt(s.lists, r, out[i].due);
        PendingIsDue(s.lists, r);
        assert RecOk(s, r, s.waits[r]) && FiledOk(s, s.waits[r]);
      }
    }
  }

  /** A wait first filed when the wheel started at S and expiring at E is put back
      at most (E - S) / (iItemSize - 1) times. */
  lemma RefileBound(size: nat, now: nat, shared: set<Co>, es: seq<Event>, r: Rid)
    requires 2 <= size && 0 < now && TimelyRuns(Init(size, now, shared), es)
    ensures Runs(Init(size, now, shared), es)
    ensures var s := Exec(Init(size, now, shared), es);
            r in s.waits && s.waits[r].timed ==>
              var w := s.waits[r];
              w.firstStart <= w.ullExpireTime && w.refiles <= (w.ullExpireTime - w.firstStart) / (size - 1)
  {
    FromStart(size, now, shared, es);
    var s := Exec(Init(size, now, shared), es);
    if r in s.waits && s.waits[r].timed {
      BoundOf(s, r);
    }
  }

  lemma BoundOf(s: State, r: Rid)
    requires TimeInv(s) && 2 <= Size(s) && r in s.waits && s.waits[r].timed
    ensures var w := s.waits[r];
            w.firstStart <= w.ullExpireTime && w.refiles <= (w.ullExpireTime - w.firstStart) / (Size(s) - 1)
  {
    var w := s.waits[r];
    assert FiledOk(s, w);
    Quotient(w.refiles, Size(s) - 1, w.ullExpireTime - w.firstStart);
  }

  lemma Quotient(a: nat, b: nat, c: int)
    requires 0 < b && a * b <= c
    ensures a <= c / b
  {
    var q := c / b;
    assert c < b * (q + 1);
    assert q + 1 <= a ==> b * (q + 1) <= b * a;
  }
}
