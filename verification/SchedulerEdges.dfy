/** Where the library keeps its invariant only if the caller is careful, and exactly
    when: polls that AddTimeout refuses, and condition waiters that are resumed by
    hand. */
module SchedulerEdges {
  import opened CallStack
  import opened EpollLists
  import opened PollEvents
  import opened Scheduler
  import opened SchedulerInv

  /** co_poll_inner returns at once when AddTimeout refuses its record (the timeout is
      negative, say), but leaves in epoll what it has registered: the invariant is
      kept exactly if the timer is accepted or nothing was registered. */
  lemma PollLeavesRegistrations(s: State, fds: seq<PollFd>, timeout: int, now: nat, accepted: set<int>)
    requires Inv(s) && CanYield(s)
    ensures Inv(PollCo(s, fds, timeout, now, accepted)) <==>
              PollAccepted(s, timeout, now) || FdSet(fds) * accepted <= s.regs.Keys
  {
    if CanPoll(s, fds, timeout, now, accepted) {
      PollKeeps(s, fds, timeout, now, accepted);
    } else {
      var fd :| fd in FdSet(fds) * accepted && fd !in s.regs.Keys;
      DanglingReport(s, fds, timeout, now, accepted, fd, EPOLLIN);
      assert !RegOk(PollCo(s, fds, timeout, now, accepted), fd, Reg(s.nextRid, FirstIndex(fds, fd)));
    }
  }

  /** What is left points to the freed record, and the loop touches it as soon as
      epoll reports the fd. */
  lemma DanglingReport(s: State, fds: seq<PollFd>, timeout: int, now: nat, accepted: set<int>, fd: int, events: bv32)
    requires Inv(s) && CanYield(s) && !PollAccepted(s, timeout, now)
    requires fd in FdSet(fds) * accepted && fd !in s.regs
    ensures var t := PollCo(s, fds, timeout, now, accepted);
            && fd in t.regs && t.regs[fd] == Reg(s.nextRid, FirstIndex(fds, fd)) && t.regs[fd].rid !in t.waits
            && ReportFd(t, fd, events).fault
  {
    var expire := ExpireTime(now, if timeout > MAX_TIMEOUT then MAX_TIMEOUT else timeout);
    assert s.nextRid !in s.waits;
    ArmMoves(s.lists, s.nextRid, expire, now);
  }

  /** A timeout below zero is never accepted, unless the clock is still smaller. */
  lemma NegativeTimeout(s: State, timeout: int, now: nat)
    requires 1 <= s.lists.timers.size && timeout < 0 <= now + timeout && now < ULL_RANGE
    ensures !PollAccepted(s, timeout, now)
  {
    assert ExpireTime(now, timeout) == now + timeout;
  }

  /** co_resume on a coroutine that waits on a condition frees its record and takes
      it off the queue, but not off the wheel or the active list: the invariant is
      kept exactly if it was on neither. */
  lemma ResumeOfCondWaiter(s: State, co: Co)
    requires Inv(s) && InUserCode(s) && co !in s.pCallStack && |s.pCallStack| < CALL_STACK_SIZE
    requires co in s.blocked && s.waits[s.blocked[co]].kind.CondWait?
    ensures var rid := s.blocked[co];
            Inv(ResumeCo(s, co, false)) <==> !Pending(s.lists, rid) && rid !in s.lists.active
  {
    var rid := s.blocked[co];
    if !Pending(s.lists, rid) && rid !in s.lists.active {
      assert RecInv(s, {rid});
      ResumeBlocked(s, co, false);
    } else {
      ResumeEffect(s, co, false);
      var t := ResumeCo(s, co, false);
      assert rid !in t.waits && t.lists == s.lists;
    }
  }
}
