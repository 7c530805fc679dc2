/** Every wait ends exactly once, for one reason, and a poll returns what it saw. */
module SchedulerLog {
  import opened CallStack
  import opened TimerLog
  import opened EpollLists
  import opened Scheduler
  import opened SchedulerInv
  import opened Wrappers

  /** Conservation: each wait ever begun is either live or in the log, once. */
  ghost predicate LogInv(s: State) {
    && (forall i :: 0 <= i < |s.log| ==> s.log[i].rid < s.nextRid && s.log[i].rid !in s.waits)
    && (forall i, j :: 0 <= i < j < |s.log| ==> s.log[i].rid != s.log[j].rid)
    && (forall r: Rid :: r < s.nextRid ==> r in s.waits || Logged(s, r))
    && (forall i :: 0 <= i < |s.log| ==> ResultOk(s.log[i]))
  }

  predicate Logged(s: State, r: Rid) {
    exists i :: 0 <= i < |s.log| && s.log[i].rid == r
  }

  /** The poll's result, its iRaiseCnt, is the number of entries with something to
      report; one the loop resumed returns 0 iff its timeout was what woke it. */
  ghost predicate ResultOk(x: Resumption) {
    x.wait.kind.PollWait? ==>
      && x.wait.kind.iRaiseCnt == CountNonzero(x.wait.kind.revents)
      && |x.wait.kind.revents| == |x.wait.kind.fds|
      && (x.byLoop ==> (x.wait.kind.iRaiseCnt == 0 <==> x.wait.bTimeout))
  }

  lemma SameKeys(s: State, t: State)
    requires LogInv(s) && t.log == s.log && t.nextRid == s.nextRid && t.waits.Keys == s.waits.Keys
    ensures LogInv(t)
  {
    forall r: Rid | r < t.nextRid ensures r in t.waits || Logged(t, r) {
      assert r in s.waits || Logged(s, r);
      if r !in s.waits {
        var i :| 0 <= i < |s.log| && s.log[i].rid == r;
        assert t.log[i].rid == r;
      }
    }
    forall i | 0 <= i < |t.log| ensures t.log[i].rid !in t.waits {
      assert s.log[i].rid !in s.waits.Keys;
    }
  }

  lemma OneMore(s: State, t: State)
    requires LogInv(s) && t.log == s.log && t.nextRid == s.nextRid + 1 && t.waits.Keys == s.waits.Keys + {s.nextRid}
    ensures LogInv(t)
  {
    forall r: Rid | r < t.nextRid ensures r in t.waits || Logged(t, r) {
      if r == s.nextRid {
        assert r in t.waits.Keys;
      } else {
        assert r in s.waits || Logged(s, r);
        if r in s.waits {
          assert r in t.waits.Keys;
        } else {
          var i :| 0 <= i < |s.log| && s.log[i].rid == r;
          assert t.log[i].rid == r;
        }
      }
    }
    forall i | 0 <= i < |t.log| ensures t.log[i].rid !in t.waits {
      assert s.log[i].rid !in t.waits.Keys;
    }
  }

  lemma OneEnds(s: State, t: State, x: Resumption)
    requires LogInv(s) && x.rid in s.waits && x.rid < s.nextRid && ResultOk(x)
    requires t.log == s.log + [x] && t.nextRid == s.nextRid && t.waits.Keys == s.waits.Keys - {x.rid}
    ensures LogInv(t)
  {
    assert t.log[|s.log|] == x;
    forall r: Rid | r < t.nextRid ensures r in t.waits || Logged(t, r) {
      assert r in s.waits || Logged(s, r);
      if r in s.waits {
        assert r == x.rid || r in t.waits.Keys;
      } else {
        var i :| 0 <= i < |s.log| && s.log[i].rid == r;
        assert t.log[i].rid == r;
      }
    }
    forall i | 0 <= i < |t.log| ensures t.log[i].rid !in t.waits {
      assert t.log[i].rid !in t.waits.Keys;
    }
  }

  /** Switching a coroutine in logs the wait it was blocked on, if any. */
  lemma ResumeLogs(s: State, co: Co, byLoop: bool)
    requires LogInv(s) && WaitInv(s) && co !in s.pCallStack && co !in s.ended && |s.pCallStack| < CALL_STACK_SIZE
    requires co in s.blocked ==>
               var w := s.waits[s.blocked[co]];
               ResultOk(Resumption(s.blocked[co], w, byLoop, s.clock, s.pass))
    ensures LogInv(ResumeCo(s, co, byLoop))
  {
    var t := ResumeCo(s, co, byLoop);
    if co in s.blocked {
      var rid := s.blocked[co];
      assert rid in s.waits && rid < s.nextRid;
      ResumeEffect(s, co, byLoop);
      hide LogInv, ResultOk, WaitInv, ResumeCo;
      var x := Resumption(rid, s.waits[rid], byLoop, s.clock, s.pass);
      OneEnds(s, t, x);
    } else {
      hide LogInv, WaitInv;
      SameKeys(s, t);
    }
  }

  lemma DrainLogs(s: State)
    requires Inv(s) && LogInv(s) && CanDrain(s)
    ensures LogInv(DrainOne(s))
  {
    var r := s.lists.active[0];
    assert r in s.lists.active && r in s.waits;
    var w := s.waits[r];
    assert RecOk(s, r, w);
    assert ResultOk(Resumption(r, w, true, s.clock, s.pass));
    hide LogInv, LinkInv, RecInv, ResultOk, Pop, Arm, Good;
    var ls := Pop(s.lists);
    var (armed, res) := Arm(ls, r, w.ullExpireTime, s.phase.now);
    if w.bTimeout && s.phase.now < w.ullExpireTime {
      if res == Added {
        SameKeys(s, DrainOne(s));
      } else {
        SameKeys(s, s.(lists := armed));
        ResumeLogs(s.(lists := armed), w.co, true);
      }
    } else {
      SameKeys(s, s.(lists := ls));
      ResumeLogs(s.(lists := ls), w.co, true);
    }
  }

  lemma {:induction false} BroadcastLogs(s: State, c: Cond)
    requires Inv(s) && LogInv(s) && !s.phase.Preparing?
    ensures LogInv(BroadcastOn(s, c))
    decreases |Queue(s, c)|
  {
    if Queue(s, c) != [] {
      SignalLogs(s, c);
      SignalKeeps(s, c);
      BroadcastLogs(SignalOn(s, c), c);
    }
  }

  lemma SignalLogs(s: State, c: Cond)
    requires Inv(s) && LogInv(s)
    ensures LogInv(SignalOn(s, c))
  {
    hide LogInv, Ready;
    if Queue(s, c) != [] {
      assert c in s.conds && Queue(s, c)[0] in s.conds[c];
    }
    SameKeys(s, SignalOn(s, c));
  }

  lemma WaitLogs(s: State, c: Cond, ms: int, now: nat)
    requires LogInv(s) && |s.pCallStack| > 1 && 1 <= s.lists.timers.size
    ensures LogInv(WaitOn(s, c, ms, now))
  {
    hide LogInv, Arm;
    var t := WaitOn(s, c, ms, now);
    if ms > 0 && Arm(s.lists, s.nextRid, ExpireTime(now, ms), now).1 != Added {
      SameKeys(s, t);
    } else {
      OneMore(s, t);
    }
  }

  lemma ReportLogs(s: State, fd: int, events: bv32)
    requires Inv(s) && LogInv(s) && CanReport(s, fd, events)
    ensures LogInv(ReportFd(s, fd, events))
  {
    assert RegOk(s, fd, s.regs[fd]);
    hide LogInv, Ready;
    SameKeys(s, ReportFd(s, fd, events));
  }

  lemma PollLogs(s: State, fds: seq<PollFd>, timeout: int, now: nat, accepted: set<int>)
    requires LogInv(s) && CanPoll(s, fds, timeout, now, accepted) && |s.pCallStack| > 1
    ensures LogInv(PollCo(s, fds, timeout, now, accepted))
  {
    hide LogInv, Arm, Register;
    var t := PollCo(s, fds, timeout, now, accepted);
    if t.nextRid == s.nextRid { SameKeys(s, t); } else { OneMore(s, t); }
  }

  lemma UserResumeLogs(s: State, co: Co)
    requires Inv(s) && LogInv(s) && CanResume(s, co)
    ensures LogInv(ResumeCo(s, co, false))
  {
    if co in s.blocked {
      assert RecOk(s, s.blocked[co], s.waits[s.blocked[co]]);
    }
    ResumeLogs(s, co, false);
  }

  lemma StepLogs(s: State, e: Event)
    requires Inv(s) && LogInv(s) && Enabled(s, e)
    ensures LogInv(Step(s, e))
  {
    assert Top(s) == MAIN || |s.pCallStack| > 1;
    hide Inv, LogInv, ResumeCo, PollCo, WaitOn, SignalOn, BroadcastOn, LockCo, UnlockCo, ReportFd, DrainOne;
    match e
    case Report(fd, events) => ReportLogs(s, fd, events);
    case Drain => DrainLogs(s);
    case Resume(co) => UserResumeLogs(s, co);
    case Poll(fds, timeout, now, accepted) => PollLogs(s, fds, timeout, now, accepted);
    case TimedWait(c, ms, now) => WaitLogs(s, UserCond(c), ms, now);
    case Signal(c) => SignalLogs(s, UserCond(c));
    case Broadcast(c) => BroadcastLogs(s, UserCond(c));
    case Lock(m) => LockLogs(s, m);
    case Unlock(m) => UnlockLogs(s, m);
    case _ => SameKeys(s, Step(s, e));
  }

  lemma LockLogs(s: State, m: nat)
    requires Inv(s) && LogInv(s) && CanLock(s, m)
    ensures LogInv(LockCo(s, m))
  {
    hide LogInv, WaitOn;
    var mu := MutexOf(s, m);
    var mu' := mu.(m_iWaitItemCnt := mu.m_iWaitItemCnt + 1, arrivals := mu.arrivals + [Top(s)]);
    if mu.m_iWaitItemCnt > 0 {
      SameKeys(s, s.(mutexes := s.mutexes[m := mu']));
      WaitLogs(s.(mutexes := s.mutexes[m := mu']), MutexCond(m), -1, s.clock);
    } else {
      SameKeys(s, LockCo(s, m));
    }
  }

  lemma UnlockLogs(s: State, m: nat)
    requires Inv(s) && LogInv(s) && CanUnlock(s, m)
    ensures LogInv(UnlockCo(s, m))
  {
    hide LogInv, SignalOn, Inv;
    var mu := MutexOf(s, m);
    var q := Queue(s, MutexCond(m));
    var mu' := mu.(m_iWaitItemCnt := mu.m_iWaitItemCnt - 1, owner := None, unlocks := mu.unlocks + 1,
                   pending := if q == [] then None else Some(q[0]));
    var u := s.(mutexes := s.mutexes[m := mu']);
    MutexKeeps(s, m, mu');
    SameKeys(s, u);
    SignalLogs(u, MutexCond(m));
  }

  lemma {:induction false} RunLogs(s: State, es: seq<Event>)
    requires Inv(s) && LogInv(s) && Runs(s, es)
    ensures LogInv(Exec(s, es))
    decreases |es|
  {
    if es != [] {
      StepLogs(s, es[0]);
      StepKeeps(s, es[0]);
      RunLogs(Step(s, es[0]), es[1..]);
    }
  }

  /** Over any run: each wait begun is live or has ended, never both and never twice;
      and every poll that ended returned the number of its entries with something to
      report, 0 exactly if the loop resumed it for its timeout. */
  lemma EveryWaitEndsOnce(size: nat, now: nat, shared: set<Co>, es: seq<Event>)
    requires 1 <= size && Runs(Init(size, now, shared), es)
    ensures var s := Exec(Init(size, now, shared), es);
            && (forall r: Rid :: r < s.nextRid ==> (r in s.waits <==> !Logged(s, r)))
            && (forall i, j :: 0 <= i < j < |s.log| ==> s.log[i].rid != s.log[j].rid)
            && (forall i :: 0 <= i < |s.log| ==> ResultOk(s.log[i]))
  {
    InitInv(size, now, shared);
    RunLogs(Init(size, now, shared), es);
    var s := Exec(Init(size, now, shared), es);
    forall r: Rid | r < s.nextRid ensures r in s.waits <==> !Logged(s, r) {
      assert Logged(s, r) ==> r !in s.waits;
    }
  }

  /** co_poll_inner cleans up after itself: when its coroutine is switched in, the
      record is on no list and none of the call's fds is registered. */
  lemma PollReturnsClean(s: State, co: Co, byLoop: bool)
    requires co in s.blocked && InvBut(s, {s.blocked[co]}) && !s.phase.Preparing?
    requires co !in s.pCallStack && |s.pCallStack| < CALL_STACK_SIZE && s.waits[s.blocked[co]].kind.PollWait?
    ensures var rid := s.blocked[co]; var t := ResumeCo(s, co, byLoop);
            && rid !in t.waits && co !in t.blocked && !Pending(t.lists, rid) && rid !in t.lists.active
            && (forall i :: 0 <= i < |s.waits[rid].kind.fds| && s.waits[rid].kind.fds[i].fd > -1 ==>
                  s.waits[rid].kind.fds[i].fd !in t.regs)
            && (forall fd :: fd in t.regs ==> t.regs[fd].rid != rid)
  {
    ResumeBlocked(s, co, byLoop);
    DetachMoves(s.lists, s.blocked[co]);
    var t := ResumeCo(s, co, byLoop);
    forall fd | fd in t.regs ensures t.regs[fd].rid != s.blocked[co] {
      assert RegOk(t, fd, t.regs[fd]);
    }
  }
}
