/** What becomes of a signal: the pass that should resume the waiter does so, unless
    the waiter is a long timer that the wheel has just handed out too early. */
module SchedulerSignals {
  import opened CallStack
  import opened Sequences
  import opened TimerLog
  import opened EpollLists
  import opened PollEvents
  import opened Scheduler
  import opened SchedulerInv
  import opened SchedulerTime
  import opened Wrappers

  ghost predicate SignalOk(s: State, r: Rid, w: Wait) {
    match w.signal
    case NotSignalled => true
    case Signalled(early, pass) =>
      && w.kind.CondWait?
      && if early then
           && pass <= s.pass && (s.phase.Preparing? ==> pass < s.pass)
           && (s.phase.Draining? && pass == s.pass && r in s.lists.active ==> Early(s, w))
         else
           r in s.lists.active && !Early(s, w) && pass == NextPass(s)
  }

  /** A signalled waiter is resumed by the loop, in the pass the signal was for iff
      it was not early. */
  predicate OutcomeOk(x: Resumption) {
    x.wait.signal.Signalled? ==> x.byLoop && (x.pass == x.wait.signal.pass <==> !x.wait.signal.early)
  }

  ghost predicate SignalInv(s: State) {
    && (forall r :: r in s.waits ==> SignalOk(s, r, s.waits[r]))
    && (forall i :: 0 <= i < |s.log| ==> OutcomeOk(s.log[i]))
  }

  /** Signalled waiters stay where they are while other records come, go and move. */
  lemma OtherRecords(s: State, t: State, but: set<Rid>)
    requires SignalInv(s) && t.phase == s.phase && t.pass == s.pass
    requires forall i :: 0 <= i < |t.log| ==> OutcomeOk(t.log[i])
    requires forall r :: r in t.waits && r !in but ==> r in s.waits && SameSignal(s.waits[r], t.waits[r])
    requires forall r :: r in t.waits && r !in but ==> (r in t.lists.active <==> r in s.lists.active)
    requires forall r :: r in but && r in t.waits ==> SignalOk(t, r, t.waits[r])
    ensures SignalInv(t)
  {
    forall r | r in t.waits ensures SignalOk(t, r, t.waits[r]) {
      if r !in but {
        assert SignalOk(s, r, s.waits[r]);
      }
    }
  }

  predicate SameSignal(v: Wait, w: Wait) {
    w.signal == v.signal && w.kind.CondWait? == v.kind.CondWait? && w.bTimeout == v.bTimeout
      && w.ullExpireTime == v.ullExpireTime
  }

  lemma SignalSignals(s: State, c: Cond)
    requires Inv(s) && SignalInv(s) && !s.phase.Preparing?
    ensures SignalInv(SignalOn(s, c))
  {
    if Queue(s, c) != [] {
      hide Good, Pending, Ready, RecInv, SignalOk, SignalInv, Early;
      var r := Queue(s, c)[0];
      assert c in s.conds && r in s.conds[c];
      ReadyMoves(s.lists, r);
      ServedOk(s, c);
      OtherRecords(s, SignalOn(s, c), {r});
    }
  }

  /** The waiter that a signal serves. */
  lemma ServedOk(s: State, c: Cond)
    requires Inv(s) && SignalInv(s) && !s.phase.Preparing? && Queue(s, c) != []
    ensures var t := SignalOn(s, c); var r := Queue(s, c)[0]; r in t.waits && SignalOk(t, r, t.waits[r])
  {
    hide Good, Pending, Ready;
    var r := Queue(s, c)[0];
    assert c in s.conds && r in s.conds[c];
    ReadyMoves(s.lists, r);
  }

  lemma {:induction false} BroadcastSignals(s: State, c: Cond)
    requires Inv(s) && SignalInv(s) && !s.phase.Preparing?
    ensures SignalInv(BroadcastOn(s, c))
    decreases |Queue(s, c)|
  {
    if Queue(s, c) != [] {
      SignalSignals(s, c);
      SignalKeeps(s, c);
      BroadcastSignals(SignalOn(s, c), c);
    }
  }

  lemma ResumeSignals(s: State, co: Co, byLoop: bool)
    requires SignalInv(s) && WaitInv(s) && Good(s.lists)
    requires co !in s.pCallStack && co !in s.ended && |s.pCallStack| < CALL_STACK_SIZE
    requires co in s.blocked ==>
               var rid := s.blocked[co];
               OutcomeOk(Resumption(rid, s.waits[rid], byLoop, s.clock, s.pass))
    ensures SignalInv(ResumeCo(s, co, byLoop))
  {
    var t := ResumeCo(s, co, byLoop);
    if co in s.blocked {
      var rid := s.blocked[co];
      assert rid in s.waits;
      DetachMoves(s.lists, rid);
      ResumeEffect(s, co, byLoop);
      hide Good, Pending, Detach, WaitInv, ResumeCo, SignalOk, OutcomeOk;
      OtherRecords(s, t, {});
    } else {
      hide Good, SignalOk, OutcomeOk;
      OtherRecords(s, t, {});
    }
  }

  lemma DrainSignals(s: State)
    requires Inv(s) && TimeInv(s) && SignalInv(s) && CanDrain(s)
    ensures SignalInv(DrainOne(s))
  {
    var r := s.lists.active[0];
    assert r in s.lists.active && r in s.waits;
    var w := s.waits[r];
    assert SignalOk(s, r, w);
    if w.bTimeout && s.phase.now < w.ullExpireTime {
      RefileSignals(s, r);
    } else {
      PopMoves(s.lists);
      var u := s.(lists := Pop(s.lists));
      assert w.co in s.blocked && s.blocked[w.co] == r && Good(s.lists);
      assert OutcomeOk(Resumption(r, w, true, s.clock, s.pass));
      hide Good, Pending, Pop, LinkInv, RecInv, TimeInv, SignalInv, ResumeCo, OutcomeOk, SignalOk;
      ProcessSignals(s, u, r);
    }
  }

  lemma RefileSignals(s: State, r: Rid)
    requires Inv(s) && TimeInv(s) && SignalInv(s) && CanDrain(s) && r == s.lists.active[0]
    requires r in s.waits && SignalOk(s, r, s.waits[r]) && s.waits[r].bTimeout && s.phase.now < s.waits[r].ullExpireTime
    ensures SignalInv(DrainOne(s))
  {
    hide Inv, TimeInv, DrainOne, Good, Pending, Pop, Arm, OutcomeOk, SignalOk, Early;
    RefileMoves(s);
    RefileSucceeds(s);
    RefileActive(s);
    RefiledOk(s, r);
    OtherRecords(s, DrainOne(s), {r});
  }

  /** The record that is put back: it was signalled, if at all, while it was early. */
  lemma RefiledOk(s: State, r: Rid)
    requires Inv(s) && TimeInv(s) && CanDrain(s) && r == s.lists.active[0]
    requires r in s.waits && SignalOk(s, r, s.waits[r]) && s.waits[r].bTimeout && s.phase.now < s.waits[r].ullExpireTime
    ensures var t := DrainOne(s); r in t.waits && SignalOk(t, r, t.waits[r])
  {
    hide Inv, TimeInv, DrainOne, Good, Pending, Pop, Arm;
    RefileMoves(s);
    RefileSucceeds(s);
    RefileActive(s);
  }

  lemma RefileActive(s: State)
    requires Inv(s) && TimeInv(s) && CanDrain(s)
    requires var w := s.waits[s.lists.active[0]]; w.bTimeout && s.phase.now < w.ullExpireTime
    ensures var t := DrainOne(s);
            t.pass == s.pass && forall x :: x in t.lists.active <==> x in s.lists.active && x != s.lists.active[0]
  {
    RefileSucceeds(s);
    PopMoves(s.lists);
    hide TimeInv, LinkInv, RecInv, WaitInv;
  }

  lemma ProcessSignals(s: State, u: State, r: Rid)
    requires Inv(s) && SignalInv(s) && r in s.waits && u.(lists := s.lists) == s
    requires Good(u.lists) && forall x :: x in u.lists.active <==> x in s.lists.active && x != r
    requires OutcomeOk(Resumption(r, s.waits[r], true, s.clock, s.pass))
    requires s.waits[r].co !in s.pCallStack && s.waits[r].co !in s.ended && |s.pCallStack| < CALL_STACK_SIZE
    ensures SignalInv(ResumeCo(u, s.waits[r].co, true))
  {
    var co := s.waits[r].co;
    var t := ResumeCo(u, co, true);
    assert co in s.blocked && s.blocked[co] == r;
    DetachMoves(u.lists, r);
    ResumeEffect(u, co, true);
    hide Good, Pending, Detach, Inv, ResumeCo, SignalOk, OutcomeOk;
    OtherRecords(s, t, {});
  }

  lemma TakeSignals(s: State, now: nat)
    requires Inv(s) && SignalInv(s) && CanTake(s)
    ensures SignalInv(TakeAt(s, now))
  {
    var taken := Collect(s.lists, now).1;
    CollectMoves(s.lists, now);
    var t := TakeAt(s, now);
    assert forall x :: x in t.lists.active <==> x in s.lists.active || x in taken;
    assert Good(s.lists);
    forall r | r in t.waits ensures SignalOk(t, r, t.waits[r]) {
      assert SignalOk(s, r, s.waits[r]) && RecOk(s, r, s.waits[r]);
    }
  }

  lemma StepSignals(s: State, e: Event)
    requires Inv(s) && TimeInv(s) && SignalInv(s) && Enabled(s, e)
    ensures SignalInv(Step(s, e))
  {
    assert Top(s) == MAIN || |s.pCallStack| > 1;
    hide Inv, TimeInv, SignalInv, ResumeCo, PollCo, WaitOn, SignalOn, BroadcastOn, LockCo, UnlockCo, ReportFd, TakeAt,
         DrainOne;
    match e
    case BeginPass =>
      PhaseSignals(s, Step(s, e));
    case Report(fd, events) => ReportSignals(s, fd, events);
    case TakeTimeouts(now) => TakeSignals(s, now);
    case Drain => DrainSignals(s);
    case EndPass => PhaseSignals(s, Step(s, e));
    case Resume(co) => UserResumeSignals(s, co);
    case Yield => QuietSignals(s, Step(s, e));
    case End => QuietSignals(s, Step(s, e));
    case Poll(fds, timeout, now, accepted) => PollSignals(s, fds, timeout, now, accepted);
    case TimedWait(c, ms, now) => WaitSignals(s, UserCond(c), ms, now);
    case Signal(c) => SignalSignals(s, UserCond(c));
    case Broadcast(c) => BroadcastSignals(s, UserCond(c));
    case Lock(m) => LockSignals(s, m);
    case Unlock(m) => UnlockSignals(s, m);
  }

  lemma QuietSignals(s: State, t: State)
    requires SignalInv(s) && t.waits == s.waits && t.lists == s.lists && t.log == s.log
    requires t.phase == s.phase && t.pass == s.pass
    ensures SignalInv(t)
  {
    hide OutcomeOk;
    OtherRecords(s, t, {});
  }

  lemma PhaseSignals(s: State, t: State)
    requires SignalInv(s) && t.waits == s.waits && t.lists == s.lists && t.log == s.log
    requires (s.phase.Body? && t.phase.Preparing? && t.pass == s.pass + 1)
             || (s.phase.Draining? && s.lists.active == [] && t.phase.Body? && t.pass == s.pass)
    ensures SignalInv(t)
  {
    forall r | r in t.waits ensures SignalOk(t, r, t.waits[r]) {
      assert SignalOk(s, r, s.waits[r]);
    }
  }

  lemma ReportSignals(s: State, fd: int, events: bv32)
    requires Inv(s) && SignalInv(s) && CanReport(s, fd, events)
    ensures SignalInv(ReportFd(s, fd, events))
  {
    assert RegOk(s, fd, s.regs[fd]);
    var rid := s.regs[fd].rid;
    ReadyMoves(s.lists, rid);
    var t := ReportFd(s, fd, events);
    assert SignalOk(s, rid, s.waits[rid]);
    hide Good, Pending, Ready, LinkInv, RecInv, EpollEvent2Poll;
    forall r | r in t.waits ensures SignalOk(t, r, t.waits[r]) {
      assert SignalOk(s, r, s.waits[r]);
    }
  }

  lemma UserResumeSignals(s: State, co: Co)
    requires Inv(s) && SignalInv(s) && CanResume(s, co)
    ensures SignalInv(ResumeCo(s, co, false))
  {
    if co in s.blocked {
      assert SignalOk(s, s.blocked[co], s.waits[s.blocked[co]]);
    }
    ResumeSignals(s, co, false);
  }

  lemma PollSignals(s: State, fds: seq<PollFd>, timeout: int, now: nat, accepted: set<int>)
    requires SignalInv(s) && |s.pCallStack| > 1 && 1 <= s.lists.timers.size
    ensures SignalInv(PollCo(s, fds, timeout, now, accepted))
  {
    PollEffect(s, fds, timeout, now, accepted);
    hide SignalInv, PollCo;
    NewSignals(s, PollCo(s, fds, timeout, now, accepted));
  }

  lemma WaitSignals(s: State, c: Cond, ms: int, now: nat)
    requires SignalInv(s) && |s.pCallStack| > 1 && 1 <= s.lists.timers.size
    ensures SignalInv(WaitOn(s, c, ms, now))
  {
    if ms > 0 && Arm(s.lists, s.nextRid, ExpireTime(now, ms), now).1 != Added {
      hide SignalInv, AddTimer, ExpireTime;
      NewSignals(s, WaitOn(s, c, ms, now));
    } else {
      hide SignalInv, AddTimer, ExpireTime, Block;
      var (ls, expire) := if ms > 0 then (Arm(s.lists, s.nextRid, ExpireTime(now, ms), now).0, ExpireTime(now, ms))
        else (s.lists, 0);
      var start := if ms > 0 then ls.timers.start else 0;
      EnqueueSignals(s, Wait(Top(s), CondWait(c), ms > 0, expire, false, NotSignalled, start, start, 0), ls,
                     if ms > 0 then now else s.clock);
    }
  }

  lemma EnqueueSignals(s: State, w: Wait, ls: Lists<Rid>, now: nat)
    requires SignalInv(s) && |s.pCallStack| > 1 && w.kind.CondWait? && w.signal == NotSignalled
             && ls.active == s.lists.active
    ensures SignalInv(Enqueue(s, w, ls, now))
  {
    hide SignalInv;
    NewSignals(s, Enqueue(s, w, ls, now));
  }

  lemma PollEffect(s: State, fds: seq<PollFd>, timeout: int, now: nat, accepted: set<int>)
    requires |s.pCallStack| > 1 && 1 <= s.lists.timers.size
    ensures var t := PollCo(s, fds, timeout, now, accepted);
            && (t.waits == s.waits || (s.nextRid in t.waits && t.waits == s.waits[s.nextRid := t.waits[s.nextRid]]
                                       && t.waits[s.nextRid].signal == NotSignalled))
            && t.lists.active == s.lists.active && t.log == s.log && t.phase == s.phase && t.pass == s.pass
  {
    hide ExpireTime, AddTimer, Register;
  }

  /** A new record is not signalled. */
  lemma NewSignals(s: State, t: State)
    requires SignalInv(s) && t.lists.active == s.lists.active && t.log == s.log && t.phase == s.phase
             && t.pass == s.pass
    requires t.waits == s.waits || (s.nextRid in t.waits && t.waits == s.waits[s.nextRid := t.waits[s.nextRid]]
                                    && t.waits[s.nextRid].signal == NotSignalled)
    ensures SignalInv(t)
  {
    hide OutcomeOk, Early;
    OtherRecords(s, t, if t.waits == s.waits then {} else {s.nextRid});
  }

  lemma LockSignals(s: State, m: nat)
    requires Inv(s) && SignalInv(s) && CanLock(s, m)
    ensures SignalInv(LockCo(s, m))
  {
    hide WaitOn, OutcomeOk, SignalOk;
    var mu := MutexOf(s, m);
    var mu' := mu.(m_iWaitItemCnt := mu.m_iWaitItemCnt + 1, arrivals := mu.arrivals + [Top(s)]);
    if mu.m_iWaitItemCnt > 0 {
      var u := s.(mutexes := s.mutexes[m := mu']);
      MutexSignals(s, u);
      WaitSignals(u, MutexCond(m), -1, s.clock);
    } else {
      MutexSignals(s, LockCo(s, m));
    }
  }

  lemma MutexSignals(s: State, t: State)
    requires SignalInv(s) && t.(mutexes := s.mutexes) == s
    ensures SignalInv(t)
  {
    hide OutcomeOk;
    OtherRecords(s, t, {});
  }

  lemma UnlockSignals(s: State, m: nat)
    requires Inv(s) && SignalInv(s) && CanUnlock(s, m)
    ensures SignalInv(UnlockCo(s, m))
  {
    hide Inv, SignalOn, SignalInv;
    var mu := MutexOf(s, m);
    var q := Queue(s, MutexCond(m));
    var mu' := mu.(m_iWaitItemCnt := mu.m_iWaitItemCnt - 1, owner := None, unlocks := mu.unlocks + 1,
                   pending := if q == [] then None else Some(q[0]));
    var u := s.(mutexes := s.mutexes[m := mu']);
    MutexKeeps(s, m, mu');
    MutexSignals(s, u);
    SignalSignals(u, MutexCond(m));
  }

  lemma {:induction false} RunSignals(s: State, es: seq<Event>)
    requires Inv(s) && TimeInv(s) && SignalInv(s) && TimelyRuns(s, es)
    ensures Runs(s, es) && Inv(Exec(s, es)) && TimeInv(Exec(s, es)) && SignalInv(Exec(s, es))
    decreases |es|
  {
    if es != [] {
      StepKeeps(s, es[0]);
      StepTime(s, es[0]);
      StepSignals(s, es[0]);
      RunSignals(Step(s, es[0]), es[1..]);
    }
  }

  /** Whatever the run: when a pass ends, the signalled waiters still there are those
      that were early; and those that were resumed were resumed by the pass their
      signal was for exactly if they were not. */
  lemma SignalOutcome(size: nat, now: nat, shared: set<Co>, es: seq<Event>)
    requires 1 <= size && 0 < now && TimelyRuns(Init(size, now, shared), es)
    ensures Runs(Init(size, now, shared), es)
    ensures var s := Exec(Init(size, now, shared), es);
            && (Enabled(s, EndPass) ==>
                  forall r :: r in s.waits && s.waits[r].signal.Signalled? ==> s.waits[r].signal.early)
            && forall i :: 0 <= i < |s.log| ==> OutcomeOk(s.log[i])
  {
    InitInv(size, now, shared);
    InitTime(size, now, shared);
    RunSignals(Init(size, now, shared), es);
    var s := Exec(Init(size, now, shared), es);
    forall r | Enabled(s, EndPass) && r in s.waits && s.waits[r].signal.Signalled?
      ensures s.waits[r].signal.early
    {
      assert SignalOk(s, r, s.waits[r]);
    }
  }

  /** A waiter whose timeout fits the span of the wheel is never early, so its signal
      is never lost. */
  lemma ShortWaitsAreNotLost(s: State, c: Cond)
    requires Inv(s) && TimeInv(s) && Queue(s, c) != []
    requires var w := s.waits[Queue(s, c)[0]]; w.timed ==> w.ullExpireTime - w.lastStart < Size(s)
    ensures var r := Queue(s, c)[0]; var t := SignalOn(s, c);
            r in t.waits && t.waits[r].signal == Signalled(false, NextPass(s)) && r in t.lists.active
  {
    var r := Queue(s, c)[0];
    assert c in s.conds && r in s.conds[c];
    assert RecOk(s, r, s.waits[r]);
    if Early(s, s.waits[r]) {
      EarlyIsClamped(s, r);
    }
  }

  // ----- the order of a broadcast

  /** co_cond_broadcast is one co_cond_signal for each waiter, in queue order. */
  lemma {:induction false} BroadcastIsReadyAll(s: State, c: Cond)
    requires Inv(s) && !s.phase.Preparing?
    ensures var t := BroadcastOn(s, c); Queue(t, c) == [] && t.lists == ReadyAll(s.lists, Queue(s, c))
    decreases |Queue(s, c)|
  {
    var q := Queue(s, c);
    if q != [] {
      var u := SignalOn(s, c);
      assert c in s.conds && q[0] in s.conds[c];
      SignalKeeps(s, c);
      assert u.phase == s.phase;
      hide Inv, Ready;
      BroadcastIsReadyAll(u, c);
    }
  }

  /** co_cond_broadcast moves all waiters, also those that timed out but have not
      run yet, to the end of the active list, in the order they waited, and off the
      wheel; every other record is where it was. */
  lemma BroadcastOrder(s: State, c: Cond)
    requires Inv(s) && !s.phase.Preparing?
    ensures var t := BroadcastOn(s, c); var q := Queue(s, c);
            && Queue(t, c) == [] && t.lists.active == Outside(s.lists.active, q) + q
            && forall e :: e in t.lists.timers.log <==> e in s.lists.timers.log && e.item !in q
  {
    QueueDistinct(s, c);
    hide Inv, ReadyAll, Good;
    BroadcastIsReadyAll(s, c);
    ReadyAllMoves(s.lists, Queue(s, c));
  }

  lemma QueueDistinct(s: State, c: Cond)
    requires Inv(s)
    ensures Distinct(Queue(s, c)) && Good(s.lists)
  {
  }
}
