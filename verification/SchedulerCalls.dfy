/** What single calls of the library do, in the terms of their documentation. */
module SchedulerCalls {
  import opened EpollLists
  import opened PollEvents
  import opened Scheduler
  import opened SchedulerInv
  import opened Sequences
  import opened TimerLog

  /** When the wheel starts, as a call at `now` finds it. */
  function WheelStart(s: State, now: nat): nat {
    if s.lists.timers.start == 0 then now else s.lists.timers.start
  }

  /** When a poll called at `now` with `timeout` times out: no timeout is longer than 40
      seconds, and a negative one is not infinite. */
  function PollExpiry(now: nat, timeout: int): nat {
    (now + if timeout > 40000 then 40000 else timeout) % 0x1_0000_0000_0000_0000
  }

  /** The caller, now off the call stack, has a wait of its own; no other wait, queue or
      timer is concerned. */
  ghost predicate CallerWaits(s: State, t: State, timed: bool, expire: nat) {
    var r := s.nextRid;
    && 2 <= |s.pCallStack| && t.pCallStack == s.pCallStack[..|s.pCallStack| - 1]
    && r !in s.waits && r in t.waits && t.waits == s.waits[r := t.waits[r]] && t.nextRid == r + 1
    && t.blocked == s.blocked[Top(s) := r] && t.log == s.log
    && t.waits[r].co == Top(s) && t.waits[r].timed == timed && (timed ==> t.waits[r].ullExpireTime == expire)
    && !t.waits[r].bTimeout && t.waits[r].signal == NotSignalled
    && t.lists.active == s.lists.active
    && forall x :: Pending(t.lists, x) <==> Pending(s.lists, x) || (timed && x == r)
  }

  /** The call has returned at once, and nobody waits because of it. */
  ghost predicate CallerGoesOn(s: State, t: State) {
    && t.pCallStack == s.pCallStack && t.waits == s.waits && t.blocked == s.blocked && t.log == s.log
    && t.regs == s.regs && t.conds == s.conds && t.lists.active == s.lists.active
    && forall x :: Pending(t.lists, x) <==> Pending(s.lists, x)
  }

  /** co_poll: the caller waits until its timeout, with nothing seen yet, unless the wheel
      refuses the timer. */
  lemma PollWaits(s: State, fds: seq<PollFd>, timeout: int, now: nat, accepted: set<int>)
    requires Inv(s) && CanPoll(s, fds, timeout, now, accepted)
    ensures var t := Step(s, Poll(fds, timeout, now, accepted)); var expire := PollExpiry(now, timeout);
            && t.clock == now
            && if WheelStart(s, now) <= now <= expire then
              && CallerWaits(s, t, true, expire) && t.conds == s.conds
              && var k := t.waits[s.nextRid].kind;
                 && k.PollWait? && k.fds == fds && k.iRaiseCnt == 0 && |k.revents| == |fds|
                 && forall i :: 0 <= i < |fds| ==> k.revents[i] == 0
            else CallerGoesOn(s, t)
  {
    hide FdSet, Arm, Pending, Good, LinkInv, RecInv, WaitInv, StackInv;
    Facts(s);
    ArmMoves(s.lists, s.nextRid, PollExpiry(now, timeout), now);
    if !(WheelStart(s, now) <= now <= PollExpiry(now, timeout)) {
      NothingToRegister(s.regs, fds, s.nextRid, accepted);
    }
  }

  lemma Facts(s: State)
    requires Inv(s)
    ensures Good(s.lists) && s.nextRid !in s.waits && !Pending(s.lists, s.nextRid) && s.nextRid !in s.lists.active
    ensures s.pCallStack != [] && s.pCallStack[0] == MAIN
  {
  }

  /** co_cond_timedwait: the caller is last in the condition's queue, until its timeout if
      it gives one, unless the wheel refuses the timer. */
  lemma TimedWaitWaits(s: State, c: nat, ms: int, now: nat)
    requires Inv(s) && CanYield(s)
    ensures var t := Step(s, TimedWait(c, ms, now)); var expire := (now + ms) % 0x1_0000_0000_0000_0000;
            && t.clock == (if ms > 0 then now else s.clock)
            && if ms <= 0 || WheelStart(s, now) <= now <= expire then
              && CallerWaits(s, t, ms > 0, expire) && t.waits[s.nextRid].kind == CondWait(UserCond(c))
              && t.conds == s.conds[UserCond(c) := Queue(s, UserCond(c)) + [s.nextRid]] && t.regs == s.regs
            else CallerGoesOn(s, t)
  {
    hide Arm, Pending, Good, LinkInv, RecInv, WaitInv, StackInv, Enqueue, CallerWaits;
    Facts(s);
    var expire := (now + ms) % ULL_RANGE;
    if ms > 0 {
      ArmMoves(s.lists, s.nextRid, expire, now);
      var (ls, res) := Arm(s.lists, s.nextRid, expire, now);
      if res == Added {
        EnqueueWaits(s, Wait(Top(s), CondWait(UserCond(c)), true, expire, false, NotSignalled,
                             ls.timers.start, ls.timers.start, 0), expire, ls, now);
      }
    } else {
      EnqueueWaits(s, Wait(Top(s), CondWait(UserCond(c)), false, 0, false, NotSignalled, 0, 0, 0), expire, s.lists,
                   s.clock);
    }
  }

  lemma EnqueueWaits(s: State, w: Wait, expire: nat, ls: Lists<Rid>, now: nat)
    requires 2 <= |s.pCallStack| && s.nextRid !in s.waits && w.co == Top(s) && w.kind.CondWait?
    requires (w.timed ==> w.ullExpireTime == expire) && !w.bTimeout && w.signal == NotSignalled
             && ls.active == s.lists.active
    requires forall x :: Pending(ls, x) <==> Pending(s.lists, x) || (w.timed && x == s.nextRid)
    ensures var t := Enqueue(s, w, ls, now);
            && CallerWaits(s, t, w.timed, expire) && t.waits[s.nextRid].kind == w.kind && t.regs == s.regs
            && t.conds == s.conds[w.kind.cond := Queue(s, w.kind.cond) + [s.nextRid]] && t.clock == now
  {
    hide Pending;
  }

  /** co_cond_signal: the longest waiter, if there is one, leaves the queue and the wheel
      and is last on the active list; nothing else changes hands. */
  lemma SignalServes(s: State, c: nat)
    requires Inv(s) && InUserCode(s)
    ensures var t := Step(s, Signal(c)); var q := Queue(s, UserCond(c));
            && t.pCallStack == s.pCallStack && t.waits.Keys == s.waits.Keys && t.blocked == s.blocked
               && t.regs == s.regs
            && t.log == s.log
            && if q == [] then
                 t.conds == s.conds && t.lists == s.lists
               else
                 && t.conds == s.conds[UserCond(c) := q[1..]]
                 && t.lists.active == Without(s.lists.active, q[0]) + [q[0]]
                 && forall x :: Pending(t.lists, x) <==> Pending(s.lists, x) && x != q[0]
  {
    var q := Queue(s, UserCond(c));
    if q != [] {
      assert UserCond(c) in s.conds && q[0] in s.conds[UserCond(c)];
      ReadyMoves(s.lists, q[0]);
    }
    hide Good, Pending, Forget, RecInv, StackInv;
  }

  /** co_resume pushes the coroutine, and a wait that it was in is over now; yielding and
      ending pop the caller and concern no wait. */
  lemma SwitchesCallStack(s: State, co: Co)
    requires Inv(s)
    ensures Enabled(s, Resume(co)) ==>
              var t := Step(s, Resume(co));
              && t.pCallStack == s.pCallStack + [co] && t.ended == s.ended && t.blocked == s.blocked - {co}
              && if co in s.blocked then
                   var r := s.blocked[co];
                   && r in s.waits && t.waits == s.waits - {r}
                   && t.log == s.log + [Resumption(r, s.waits[r], false, s.clock, s.pass)]
                 else t.waits == s.waits && t.log == s.log
    ensures Enabled(s, Yield) ==>
              && 2 <= |s.pCallStack| && Step(s, Yield) == s.(pCallStack := s.pCallStack[..|s.pCallStack| - 1])
              && Step(s, End) == s.(pCallStack := s.pCallStack[..|s.pCallStack| - 1], ended := s.ended + {Top(s)})
  {
    hide LinkInv, RecInv, Detach, Without, Deregister, MutexOf;
    Facts(s);
    if Enabled(s, Resume(co)) && co in s.blocked {
      ResumeEffect(s, co, false);
    }
  }

  // ----- the passes of the event loop

  /** A pass marks as timed out what it takes off the wheel, and nothing else. */
  lemma TakeMarks(s: State, now: nat, r: Rid)
    requires Inv(s) && Enabled(s, TakeTimeouts(now)) && r in s.waits
    ensures var t := Step(s, TakeTimeouts(now));
            && t.waits.Keys == s.waits.Keys && t.regs == s.regs && t.conds == s.conds && t.pCallStack == s.pCallStack
            && var taken := Pending(s.lists, r) && !Pending(t.lists, r);
               t.waits[r] == s.waits[r].(bTimeout := s.waits[r].bTimeout || taken)
  {
    Facts(s);
    hide Collect, Good, RecInv, Pending;
    CollectMoves(s.lists, now);
  }

  /** A pass hands out all that epoll has: once it has begun, each registration can be
      reported, whatever others report first, and then the timeouts can be taken. */
  lemma EachCanBeReported(s: State, fd: int, events: bv32)
    requires Inv(s) && Enabled(s, BeginPass)
    ensures var t := Step(s, BeginPass);
            && t.pass == s.pass + 1 && Enabled(t, TakeTimeouts(0))
            && (fd in s.regs && EpollEvent2Poll(events) != 0 ==> Enabled(t, Report(fd, events)))
  {
    hide EpollEvent2Poll;
  }

  lemma OthersCanBeReported(s: State, fd: int, events: bv32, other: int, bits: bv32)
    requires Inv(s) && Enabled(s, Report(other, bits))
    ensures var t := Step(s, Report(other, bits));
            && t.regs == s.regs && t.pass == s.pass && Enabled(t, TakeTimeouts(0))
            && (Enabled(s, Report(fd, events)) && fd != other ==> Enabled(t, Report(fd, events)))
  {
    hide EpollEvent2Poll, RecInv, StackInv;
    assert RegOk(s, other, s.regs[other]);
  }

  /** A report is written, as poll bits, into the entry that the registration points to,
      and the poll is off the wheel and active; no other wait and no other entry is
      concerned. */
  lemma ReportNotes(s: State, fd: int, events: bv32)
    requires Inv(s) && Enabled(s, Report(fd, events))
    ensures var t := Step(s, Report(fd, events)); var r := s.regs[fd].rid; var i := s.regs[fd].idx;
            && r in s.waits && r in t.waits && s.waits[r].kind.PollWait? && t.waits[r].kind.PollWait?
            && t.waits == s.waits[r := t.waits[r]] && i < |s.waits[r].kind.revents| && s.waits[r].kind.fds[i].fd == fd
            && t.waits[r].kind.revents == s.waits[r].kind.revents[i := EpollEvent2Poll(events)]
            && t.waits[r].kind.iRaiseCnt == s.waits[r].kind.iRaiseCnt + 1
            && r in t.lists.active && (forall x :: Pending(t.lists, x) <==> Pending(s.lists, x) && x != r)
            && t.regs == s.regs && t.conds == s.conds && t.blocked == s.blocked && t.pCallStack == s.pCallStack
            && t.log == s.log
  {
    var r := s.regs[fd].rid;
    assert RegOk(s, fd, s.regs[fd]);
    assert RecOk(s, r, s.waits[r]);
    ReadyMoves(s.lists, r);
    hide EpollEvent2Poll, Ready, Good, RecInv, CountNonzero;
  }

  /** And then it drains the active list until nothing is left, and is over. */
  lemma PassGoesOn(s: State, now: nat)
    requires Inv(s) && Enabled(s, TakeTimeouts(now))
    ensures var t := Step(s, TakeTimeouts(now));
            && t.phase.Draining? && t.phase.now == now && t.pass == s.pass && t.clock == now
            && (Enabled(t, Drain) <==> t.lists.active != []) && (Enabled(t, EndPass) <==> t.lists.active == [])
            && (Enabled(t, EndPass) ==> InUserCode(Step(t, EndPass)) && Step(t, EndPass) == t.(phase := Body))
  {
    Facts(s);
    hide Collect, Good, RecInv;
    CollectMoves(s.lists, now);
    GoodSize(Collect(s.lists, now).0);
  }

  lemma GoodSize(ls: Lists<Rid>)
    requires Good(ls)
    ensures 1 <= ls.timers.size
  {
  }
}
