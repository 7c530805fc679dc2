/** What a step of the scheduler does to the call stack and to the waits: it leaves both
    alone, or the running coroutine yields and may begin a wait, or one is switched in
    and its wait ends. */
module SchedulerShape {
  import opened CallStack
  import opened EpollLists
  import opened PollEvents
  import opened Scheduler
  import opened SchedulerInv
  import opened Wrappers

  /** The parts of a wait that never change. */
  predicate SameShape(v: Wait, w: Wait) {
    && w.co == v.co && w.timed == v.timed && w.ullExpireTime == v.ullExpireTime
    && match v.kind
       case PollWait(fds, _, _, _, onStack) => w.kind.PollWait? && w.kind.fds == fds && w.kind.itemsOnStack == onStack
       case CondWait(_) => w.kind == v.kind
  }

  /** A poll has seen nothing new. */
  predicate SameResults(v: Wait, w: Wait) {
    v.kind.PollWait? && w.kind.PollWait? ==> w.kind.revents == v.kind.revents
  }

  predicate SameWaits(s: State, t: State) {
    && t.waits.Keys == s.waits.Keys
    && forall r :: r in s.waits ==> SameShape(s.waits[r], t.waits[r]) && SameResults(s.waits[r], t.waits[r])
  }

  /** No wait begins or ends, and no poll sees anything. */
  predicate Quiet(s: State, t: State) {
    t.nextRid == s.nextRid && t.blocked == s.blocked && t.log == s.log && SameWaits(s, t)
  }

  /** One poll sees what epoll reports for one of its entries, as poll bits. */
  predicate Notes(s: State, e: Event, t: State) {
    && e.Report? && e.fd in s.regs
    && var r, i := s.regs[e.fd].rid, s.regs[e.fd].idx;
       && t.nextRid == s.nextRid && t.blocked == s.blocked && t.log == s.log
       && r in s.waits && r in t.waits && t.waits == s.waits[r := t.waits[r]] && SameShape(s.waits[r], t.waits[r])
       && s.waits[r].kind.PollWait? && i < |s.waits[r].kind.revents|
       && t.waits[r].kind.revents == s.waits[r].kind.revents[i := EpollEvent2Poll(e.events)]
  }

  /** `e` is a call that waits on condition `c`. */
  predicate WaitsBy(e: Event, c: Cond) {
    (e.TimedWait? && c == UserCond(e.cond)) || (e.Lock? && c == MutexCond(e.m))
  }

  /** The running coroutine begins a wait. */
  predicate Begins(s: State, e: Event, t: State) {
    && s.pCallStack != [] && t.nextRid == s.nextRid + 1 && t.log == s.log && s.nextRid in t.waits
       && t.waits == s.waits[s.nextRid := t.waits[s.nextRid]]
    && t.blocked == s.blocked[Top(s) := s.nextRid] && t.waits[s.nextRid].co == Top(s)
    && match t.waits[s.nextRid].kind
       case PollWait(fds, revents, raised, detached, onStack) =>
         && e.Poll? && fds == e.fds && revents == Zeroes(|fds|) && (onStack <==> |fds| < 2 && Top(s) !in s.shared)
       case CondWait(c) => WaitsBy(e, c)
  }

  /** `co` is switched in, and its wait, if it has one, ends. */
  predicate Ends(s: State, t: State, co: Co, byLoop: bool) {
    && t.nextRid == s.nextRid && t.blocked == s.blocked - {co}
    && if co in s.blocked then
         && s.blocked[co] in s.waits && t.waits == s.waits - {s.blocked[co]}
         && t.log == s.log + [Resumption(s.blocked[co], s.waits[s.blocked[co]], byLoop, s.clock, s.pass)]
       else
         t.waits == s.waits && t.log == s.log
  }

  ghost predicate Shape(s: State, e: Event, t: State) {
    && s.pCallStack != [] && t.shared == s.shared && t.ended == s.ended + (if e.End? then {Top(s)} else {})
    && (|| (t.pCallStack == s.pCallStack && !e.Yield? && !e.End? && if e.Report? then Notes(s, e, t) else Quiet(s, t))
        || (2 <= |s.pCallStack| && t.pCallStack == s.pCallStack[..|s.pCallStack| - 1]
            && if e.Yield? || e.End? then Quiet(s, t) else Begins(s, e, t))
        || (&& t.pCallStack != [] && t.pCallStack == s.pCallStack + [Top(t)] && |s.pCallStack| < CALL_STACK_SIZE
            && Top(t) !in s.pCallStack && Top(t) !in s.ended && Ends(s, t, Top(t), e.Drain?) && !e.Poll?
            && (e == Resume(Top(t)) || (e.Drain? && Top(t) in s.blocked))))
  }

  lemma ResumeShape(s: State, co: Co, byLoop: bool)
    requires co in s.blocked ==> s.blocked[co] in s.waits
    requires co !in s.pCallStack && co !in s.ended && |s.pCallStack| < CALL_STACK_SIZE
    ensures var t := ResumeCo(s, co, byLoop);
            && t.shared == s.shared && t.ended == s.ended && t.pCallStack == s.pCallStack + [co]
               && Ends(s, t, co, byLoop)
  {
    if co in s.blocked {
      ResumeEffect(s, co, byLoop);
    }
  }

  lemma DrainShape(s: State)
    requires Inv(s) && CanDrain(s)
    ensures Shape(s, Drain, DrainOne(s))
  {
    hide ResumeCo, Good, RecInv, Pending;
    var r := s.lists.active[0];
    assert r in s.lists.active && r in s.waits && s.waits[r].co in s.blocked && s.blocked[s.waits[r].co] == r;
    ResumeShape(s.(lists := Pop(s.lists)), s.waits[r].co, true);
    ResumeShape(s.(lists := Arm(Pop(s.lists), r, s.waits[r].ullExpireTime, s.phase.now).0), s.waits[r].co, true);
  }

  lemma ReportShape(s: State, fd: int, events: bv32)
    requires Inv(s) && CanReport(s, fd, events)
    ensures Shape(s, Report(fd, events), ReportFd(s, fd, events))
  {
    assert RegOk(s, fd, s.regs[fd]);
    hide EpollEvent2Poll, Ready, Good;
  }

  lemma TakeShape(s: State, now: nat)
    requires s.pCallStack != []
    ensures Shape(s, TakeTimeouts(now), TakeAt(s, now))
  {
    hide Collect;
  }

  lemma SignalShape(s: State, c: Cond)
    ensures var t := SignalOn(s, c);
            t.shared == s.shared && t.ended == s.ended && t.pCallStack == s.pCallStack && Quiet(s, t)
  {
    hide Ready, Early;
  }

  lemma {:induction false} BroadcastShape(s: State, c: Cond)
    ensures var t := BroadcastOn(s, c);
            t.shared == s.shared && t.ended == s.ended && t.pCallStack == s.pCallStack && Quiet(s, t)
    decreases |Queue(s, c)|
  {
    if Queue(s, c) != [] {
      hide SignalOn;
      var u := SignalOn(s, c);
      SignalShape(s, c);
      BroadcastShape(u, c);
      SameTwice(s, u, BroadcastOn(u, c));
    }
  }

  lemma SameTwice(s: State, t: State, u: State)
    requires SameWaits(s, t) && SameWaits(t, u)
    ensures SameWaits(s, u)
  {
    forall r | r in s.waits ensures SameShape(s.waits[r], u.waits[r]) {
      assert r in t.waits.Keys;
    }
  }

  lemma PollShape(s: State, fds: seq<PollFd>, timeout: int, now: nat, accepted: set<int>)
    requires Inv(s) && CanYield(s)
    ensures Shape(s, Poll(fds, timeout, now, accepted), PollCo(s, fds, timeout, now, accepted))
  {
    Above(s);
    hide Inv, Arm, Register, ExpireTime, Notes, Ends;
  }

  lemma Above(s: State)
    requires Inv(s) && CanYield(s)
    ensures 2 <= |s.pCallStack|
  {
  }

  lemma EnqueueShape(s: State, e: Event, w: Wait, ls: Lists<Rid>, now: nat)
    requires 2 <= |s.pCallStack| && w.kind.CondWait? && w.co == Top(s) && WaitsBy(e, w.kind.cond)
    ensures var t := Enqueue(s, w, ls, now);
            && t.shared == s.shared && t.ended == s.ended && t.pCallStack == s.pCallStack[..|s.pCallStack| - 1]
            && Begins(s, e, t)
  {
  }

  lemma UntimedShape(s: State, e: Event, c: Cond, ms: int, now: nat)
    requires CanYield(s) && 2 <= |s.pCallStack| && WaitsBy(e, c) && ms <= 0
    ensures Shape(s, e, WaitOn(s, c, ms, now))
  {
    hide Enqueue, Quiet, Notes, Ends, Arm;
    EnqueueShape(s, e, Wait(Top(s), CondWait(c), false, 0, false, NotSignalled, 0, 0, 0), s.lists, s.clock);
  }

  lemma TimedShape(s: State, e: Event, c: Cond, ms: int, now: nat)
    requires CanYield(s) && 2 <= |s.pCallStack| && WaitsBy(e, c) && e.TimedWait? && ms > 0
    ensures Shape(s, e, WaitOn(s, c, ms, now))
  {
    hide Arm, ExpireTime, Enqueue, Notes, Ends;
    var expire := ExpireTime(now, ms);
    var (ls, res) := Arm(s.lists, s.nextRid, expire, now);
    if res.Added? {
      EnqueueShape(s, e, Wait(Top(s), CondWait(c), true, expire, false, NotSignalled,
                              ls.timers.start, ls.timers.start, 0),
                   ls, now);
    }
  }

  lemma WaitShape(s: State, e: Event, c: Cond, ms: int, now: nat)
    requires Inv(s) && CanYield(s) && WaitsBy(e, c) && (e.Lock? ==> ms <= 0)
    ensures Shape(s, e, WaitOn(s, c, ms, now))
  {
    hide Inv, Shape, WaitOn;
    Above(s);
    if ms <= 0 {
      UntimedShape(s, e, c, ms, now);
    } else {
      TimedShape(s, e, c, ms, now);
    }
  }

  lemma LockShape(s: State, m: nat)
    requires Inv(s) && CanLock(s, m)
    ensures Shape(s, Lock(m), LockCo(s, m))
  {
    hide Inv, WaitOn;
    var mu := MutexOf(s, m);
    var mu' := mu.(m_iWaitItemCnt := mu.m_iWaitItemCnt + 1, arrivals := mu.arrivals + [Top(s)]);
    if mu.m_iWaitItemCnt > 0 {
      MutexKeeps(s, m, mu');
      WaitShape(s.(mutexes := s.mutexes[m := mu']), Lock(m), MutexCond(m), -1, s.clock);
    }
  }

  lemma UnlockShape(s: State, m: nat)
    requires s.pCallStack != []
    ensures Shape(s, Unlock(m), UnlockCo(s, m))
  {
    hide SignalOn;
    var mu := MutexOf(s, m);
    var q := Queue(s, MutexCond(m));
    var mu' := mu.(m_iWaitItemCnt := mu.m_iWaitItemCnt - 1, owner := None, unlocks := mu.unlocks + 1,
                   pending := if q == [] then None else Some(q[0]));
    SignalShape(s.(mutexes := s.mutexes[m := mu']), MutexCond(m));
  }

  lemma YieldShape(s: State, e: Event)
    requires Inv(s) && CanYield(s) && (e.Yield? || e.End?)
    ensures Shape(s, e, Step(s, e))
  {
    Above(s);
    hide Inv;
  }

  lemma UserResumeShape(s: State, co: Co)
    requires Inv(s) && CanResume(s, co)
    ensures Shape(s, Resume(co), ResumeCo(s, co, false))
  {
    hide Inv, ResumeCo;
    ResumeShape(s, co, false);
  }

  lemma StepShape(s: State, e: Event)
    requires Inv(s) && Enabled(s, e)
    ensures Shape(s, e, Step(s, e))
  {
    hide Inv, ResumeCo, DrainOne, BroadcastOn, WaitOn, PollCo, SignalOn, LockCo, UnlockCo, ReportFd, TakeAt;
    match e
    case BeginPass =>
    case Report(fd, events) => ReportShape(s, fd, events);
    case TakeTimeouts(now) => TakeShape(s, now);
    case Drain => DrainShape(s);
    case EndPass =>
    case Resume(co) => UserResumeShape(s, co);
    case Yield => YieldShape(s, e);
    case End => YieldShape(s, e);
    case Poll(fds, timeout, now, accepted) => PollShape(s, fds, timeout, now, accepted);
    case TimedWait(c, ms, now) => WaitShape(s, e, UserCond(c), ms, now);
    case Signal(c) => SignalShape(s, UserCond(c));
    case Broadcast(c) => BroadcastShape(s, UserCond(c));
    case Lock(m) => LockShape(s, m);
    case Unlock(m) => UnlockShape(s, m);
  }
}
