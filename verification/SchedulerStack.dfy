/** Resume and yield match like parentheses. */
module SchedulerStack {
  import opened EpollLists
  import opened Scheduler

  /** `t`'s call stack is `s`'s, or has one more coroutine, or one less. */
  predicate OneCall(s: State, t: State) {
    || t.pCallStack == s.pCallStack
    || (s.pCallStack <= t.pCallStack && |t.pCallStack| == |s.pCallStack| + 1)
    || (t.pCallStack <= s.pCallStack && |t.pCallStack| + 1 == |s.pCallStack|)
  }

  lemma ResumeCalls(s: State, co: Co, byLoop: bool)
    ensures OneCall(s, ResumeCo(s, co, byLoop))
  {
  }

  lemma {:induction false} BroadcastCalls(s: State, c: Cond)
    ensures BroadcastOn(s, c).pCallStack == s.pCallStack
    decreases |Queue(s, c)|
  {
    if Queue(s, c) != [] {
      BroadcastCalls(SignalOn(s, c), c);
    }
  }

  lemma WaitCalls(s: State, c: Cond, ms: int, now: nat)
    requires 1 <= s.lists.timers.size && s.pCallStack != []
    ensures OneCall(s, WaitOn(s, c, ms, now))
  {
  }

  lemma PollCalls(s: State, fds: seq<PollFd>, timeout: int, now: nat, accepted: set<int>)
    requires 1 <= s.lists.timers.size && s.pCallStack != []
    ensures OneCall(s, PollCo(s, fds, timeout, now, accepted))
  {
  }

  lemma DrainCalls(s: State)
    requires CanDrain(s)
    ensures OneCall(s, DrainOne(s))
  {
    hide ResumeCo, OneCall;
    var r := s.lists.active[0];
    if r in s.waits {
      ResumeCalls(s.(lists := Pop(s.lists)), s.waits[r].co, true);
      ResumeCalls(s.(lists := Arm(Pop(s.lists), r, s.waits[r].ullExpireTime, s.phase.now).0), s.waits[r].co, true);
    }
    SameCall(s, DrainOne(s));
  }

  lemma SameCall(s: State, t: State)
    ensures t.pCallStack == s.pCallStack ==> OneCall(s, t)
    ensures forall u: State :: u.pCallStack == s.pCallStack && OneCall(u, t) ==> OneCall(s, t)
  {
  }

  lemma StepCalls(s: State, e: Event)
    requires Enabled(s, e)
    ensures OneCall(s, Step(s, e))
  {
    hide ResumeCo, DrainOne, BroadcastOn, WaitOn, PollCo;
    match e
    case Drain => DrainCalls(s);
    case Resume(co) => ResumeCalls(s, co, false);
    case Poll(fds, timeout, now, accepted) => PollCalls(s, fds, timeout, now, accepted);
    case TimedWait(c, ms, now) => WaitCalls(s, UserCond(c), ms, now);
    case Broadcast(c) => BroadcastCalls(s, UserCond(c));
    case Lock(m) =>
      var mu := MutexOf(s, m);
      var mu' := mu.(m_iWaitItemCnt := mu.m_iWaitItemCnt + 1, arrivals := mu.arrivals + [Top(s)]);
      WaitCalls(s.(mutexes := s.mutexes[m := mu']), MutexCond(m), -1, s.clock);
    case _ =>
  }

  /** `es` runs from `s` without the call stack ever getting shorter than `n`. */
  predicate StaysAbove(s: State, es: seq<Event>, n: nat)
    decreases |es|
  {
    n <= |s.pCallStack| && (es != [] ==> Enabled(s, es[0]) && StaysAbove(Step(s, es[0]), es[1..], n))
  }

  /** However the coroutines above level `n` resume, yield, wait and end, the first
      `n` levels are as they were: a call of co_resume returns, when the stack is
      back to its height, to the very stack it was made from.  With n = 1 this is
      the event loop's call of pfnProcess. */
  lemma {:induction false} CallsNest(s: State, es: seq<Event>, n: nat)
    requires StaysAbove(s, es, n)
    ensures Runs(s, es) && n <= |Exec(s, es).pCallStack|
    ensures Exec(s, es).pCallStack[..n] == s.pCallStack[..n]
    decreases |es|
  {
    if es != [] {
      StepCalls(s, es[0]);
      CallsNest(Step(s, es[0]), es[1..], n);
    }
  }
}
