/** What becomes of a poll's registrations in epoll while other polls end: two polls may
    name the same fd, and only the first to come has it registered. */
module SchedulerRegs {
  import opened CallStack
  import opened EpollLists
  import opened Scheduler
  import opened SchedulerInv
  import opened Sequences
  import opened Wrappers

  /** The fds that are registered for poll `r`. */
  function RegsOf(s: State, r: Rid): set<int> {
    set fd | fd in s.regs && s.regs[fd].rid == r
  }

  /** The fds that the waits in `log`, which have ended, took out of epoll. */
  function Dropped(log: seq<Resumption>): set<int> {
    if log == [] then {}
    else
      var w := log[|log| - 1].wait;
      Dropped(log[..|log| - 1]) + if w.kind.PollWait? then FdSet(w.kind.fds) else {}
  }

  lemma {:induction false} DroppedConcat(a: seq<Resumption>, b: seq<Resumption>)
    ensures Dropped(a + b) == Dropped(a) + Dropped(b)
  {
    if b == [] {
      assert a + b == a;
    } else {
      assert (a + b)[..|a + b| - 1] == a + b[..|b| - 1];
      DroppedConcat(a, b[..|b| - 1]);
    }
  }

  /** The polls that live since `s` have in `t` what those that ended meanwhile left them. */
  ghost predicate LeftFrom(s: State, t: State) {
    && s.log <= t.log && s.nextRid <= t.nextRid
    && (forall r: Rid :: r < s.nextRid ==> RegsOf(t, r) == RegsOf(s, r) - Dropped(t.log[|s.log|..]))
    && forall fd :: fd in t.regs && t.regs[fd].rid < s.nextRid ==> fd in s.regs && t.regs[fd] == s.regs[fd]
  }

  lemma NothingEnded(s: State, t: State)
    requires SameRegs(s, t)
    ensures LeftFrom(s, t)
  {
    assert t.log[|s.log|..] == [];
  }

  lemma ResumeLeaves(s: State, co: Co, byLoop: bool)
    requires co in s.blocked ==> s.blocked[co] in s.waits
    requires co !in s.pCallStack && co !in s.ended && |s.pCallStack| < CALL_STACK_SIZE
    ensures LeftFrom(s, ResumeCo(s, co, byLoop))
  {
    var t := ResumeCo(s, co, byLoop);
    if co in s.blocked {
      ResumeEffect(s, co, byLoop);
      hide ResumeCo, Detach, Without;
      var rid := s.blocked[co];
      var x := Resumption(rid, s.waits[rid], byLoop, s.clock, s.pass);
      assert t.log[|s.log|..] == [x] && [x][..0] == [];
      assert Dropped([x]) == if x.wait.kind.PollWait? then FdSet(x.wait.kind.fds) else {};
    } else {
      NothingEnded(s, t);
    }
  }

  lemma DrainLeaves(s: State)
    requires Inv(s) && CanDrain(s)
    ensures LeftFrom(s, DrainOne(s))
  {
    hide ResumeCo, Good, LeftFrom, RecInv;
    var r := s.lists.active[0];
    assert r in s.lists.active && r in s.waits && s.waits[r].co in s.blocked && s.blocked[s.waits[r].co] == r;
    var u := s.(lists := Pop(s.lists));
    var v := s.(lists := Arm(Pop(s.lists), r, s.waits[r].ullExpireTime, s.phase.now).0);
    ResumeLeaves(u, s.waits[r].co, true);
    ResumeLeaves(v, s.waits[r].co, true);
    SameBefore(s, u, ResumeCo(u, s.waits[r].co, true));
    SameBefore(s, v, ResumeCo(v, s.waits[r].co, true));
    var t := DrainOne(s);
    if t.log == s.log && t.regs == s.regs && t.nextRid == s.nextRid {
      NothingEnded(s, t);
    }
  }

  lemma SameBefore(s: State, u: State, t: State)
    requires u.log == s.log && u.regs == s.regs && u.nextRid == s.nextRid && LeftFrom(u, t)
    ensures LeftFrom(s, t)
  {
    forall r: Rid | r < s.nextRid ensures RegsOf(t, r) == RegsOf(s, r) - Dropped(t.log[|s.log|..]) {
      assert RegsOf(u, r) == RegsOf(s, r);
    }
  }

  lemma PollRegs(s: State, fds: seq<PollFd>, timeout: int, now: nat, accepted: set<int>)
    requires CanYield(s)
    ensures var t := PollCo(s, fds, timeout, now, accepted);
            t.regs == Register(s.regs, fds, s.nextRid, accepted) && t.log == s.log && s.nextRid <= t.nextRid
  {
    hide Arm, Register, ExpireTime;
  }

  lemma PollLeaves(s: State, fds: seq<PollFd>, timeout: int, now: nat, accepted: set<int>)
    requires CanYield(s)
    ensures LeftFrom(s, PollCo(s, fds, timeout, now, accepted))
  {
    hide PollCo, FdSet, FirstFor, Register;
    PollRegs(s, fds, timeout, now, accepted);
    RegisterAdds(s.regs, fds, s.nextRid, accepted);
    var t := PollCo(s, fds, timeout, now, accepted);
    assert t.log[|s.log|..] == [];
    forall r: Rid, fd | r < s.nextRid ensures fd in RegsOf(t, r) <==> fd in RegsOf(s, r) {
      assert fd in s.regs.Keys ==> fd in t.regs.Keys;
    }
  }

  lemma {:induction false} BroadcastLeaves(s: State, c: Cond)
    ensures var t := BroadcastOn(s, c); t.log == s.log && t.regs == s.regs && t.nextRid == s.nextRid
    decreases |Queue(s, c)|
  {
    if Queue(s, c) != [] {
      BroadcastLeaves(SignalOn(s, c), c);
    }
  }

  predicate SameRegs(s: State, t: State) {
    t.log == s.log && t.regs == s.regs && s.nextRid <= t.nextRid
  }

  lemma EnqueueLeaves(s: State, w: Wait, ls: Lists<Rid>, now: nat)
    requires w.kind.CondWait? && |s.pCallStack| > 1
    ensures SameRegs(s, Enqueue(s, w, ls, now))
  {
  }

  lemma WaitLeaves(s: State, c: Cond, ms: int, now: nat)
    requires CanYield(s) && |s.pCallStack| > 1
    ensures SameRegs(s, WaitOn(s, c, ms, now))
  {
    hide Enqueue, Arm, ExpireTime;
    if ms <= 0 {
      EnqueueLeaves(s, Wait(Top(s), CondWait(c), false, 0, false, NotSignalled, 0, 0, 0), s.lists, s.clock);
    } else {
      var expire := ExpireTime(now, ms);
      var (ls, res) := Arm(s.lists, s.nextRid, expire, now);
      EnqueueLeaves(s, Wait(Top(s), CondWait(c), true, expire, false, NotSignalled, ls.timers.start, ls.timers.start,
        0), ls, now);
    }
  }

  lemma SignalLeaves(s: State, c: Cond)
    ensures SameRegs(s, SignalOn(s, c))
  {
  }

  lemma UnlockLeaves(s: State, m: nat)
    ensures SameRegs(s, UnlockCo(s, m))
  {
    hide SignalOn;
    var mu := MutexOf(s, m);
    var q := Queue(s, MutexCond(m));
    var mu' := mu.(m_iWaitItemCnt := mu.m_iWaitItemCnt - 1, owner := None, unlocks := mu.unlocks + 1,
                   pending := if q == [] then None else Some(q[0]));
    SignalLeaves(s.(mutexes := s.mutexes[m := mu']), MutexCond(m));
  }

  lemma YieldersAreAbove(s: State)
    requires Inv(s) && CanYield(s)
    ensures |s.pCallStack| > 1
  {
  }

  lemma LockLeaves(s: State, m: nat)
    requires Inv(s) && CanLock(s, m)
    ensures SameRegs(s, LockCo(s, m))
  {
    hide Inv, WaitOn;
    var mu := MutexOf(s, m);
    var mu' := mu.(m_iWaitItemCnt := mu.m_iWaitItemCnt + 1, arrivals := mu.arrivals + [Top(s)]);
    if mu.m_iWaitItemCnt > 0 {
      YieldersAreAbove(s);
      WaitLeaves(s.(mutexes := s.mutexes[m := mu']), MutexCond(m), -1, s.clock);
    }
  }

  lemma StepLeaves(s: State, e: Event)
    requires Inv(s) && Enabled(s, e)
    ensures LeftFrom(s, Step(s, e))
  {
    hide Inv, LeftFrom, ResumeCo, DrainOne, BroadcastOn, WaitOn, PollCo, SignalOn, LockCo, UnlockCo, Ready, Collect,
         MarkAll;
    match e
    case Drain => DrainLeaves(s);
    case Resume(co) => ResumeLeaves(s, co, false);
    case Poll(fds, timeout, now, accepted) => PollLeaves(s, fds, timeout, now, accepted);
    case TimedWait(c, ms, now) =>
      YieldersAreAbove(s);
      WaitLeaves(s, UserCond(c), ms, now);
      NothingEnded(s, Step(s, e));
    case Broadcast(c) =>
      BroadcastLeaves(s, UserCond(c));
      NothingEnded(s, Step(s, e));
    case Lock(m) =>
      LockLeaves(s, m);
      NothingEnded(s, Step(s, e));
    case Signal(c) =>
      SignalLeaves(s, UserCond(c));
      NothingEnded(s, Step(s, e));
    case Unlock(m) =>
      UnlockLeaves(s, m);
      NothingEnded(s, Step(s, e));
    case _ => NothingEnded(s, Step(s, e));
  }

  lemma LeftTwice(s: State, t: State, u: State)
    requires LeftFrom(s, t) && LeftFrom(t, u)
    ensures LeftFrom(s, u)
  {
    assert u.log[|s.log|..] == t.log[|s.log|..] + u.log[|t.log|..];
    DroppedConcat(t.log[|s.log|..], u.log[|t.log|..]);
  }

  lemma {:induction false} RunLeaves(s: State, es: seq<Event>)
    requires Inv(s) && Runs(s, es)
    ensures LeftFrom(s, Exec(s, es))
    decreases |es|
  {
    hide Inv, Step, Enabled, LeftFrom;
    if es == [] {
      NothingEnded(s, s);
    } else {
      StepKeeps(s, es[0]);
      StepLeaves(s, es[0]);
      RunLeaves(Step(s, es[0]), es[1..]);
      LeftTwice(s, Step(s, es[0]), Exec(s, es));
    }
  }

  /** `x` is a poll that has ended and names none of `fds`. */
  predicate Spares(x: Resumption, fds: set<int>) {
    x.wait.kind.PollWait? ==> FdSet(x.wait.kind.fds) !! fds
  }

  lemma {:induction false} DroppedFrom(log: seq<Resumption>, fds: set<int>)
    ensures Dropped(log) !! fds <==> forall i :: 0 <= i < |log| ==> Spares(log[i], fds)
  {
    if log != [] {
      DroppedFrom(log[..|log| - 1], fds);
    }
  }

  /** Over any run: a poll keeps all its registrations exactly if no poll that ends
      meanwhile names one of its fds. */
  lemma KeepsRegistrationsExactlyIf(
      size: nat, now: nat, shared: set<Co>, before: seq<Event>, s: State, r: Rid, es: seq<Event>)
    requires 1 <= size && Runs(Init(size, now, shared), before) && s == Exec(Init(size, now, shared), before)
    requires r in s.waits && Runs(s, es)
    ensures var t := Exec(s, es);
            && |s.log| <= |t.log|
            && (RegsOf(t, r) == RegsOf(s, r) <==> forall i :: |s.log| <= i < |t.log| ==> Spares(t.log[i], RegsOf(s, r)))
  {
    hide Inv, Step, Enabled, RegsOf, LeftFrom, Dropped, Spares, Runs, Exec;
    InitInv(size, now, shared);
    RunKeeps(Init(size, now, shared), before);
    RunLeaves(s, es);
    NamedBelow(s, r);
    LeftRegs(s, Exec(s, es), r);
    NoneDropped(Exec(s, es).log, |s.log|, RegsOf(s, r));
  }

  lemma NamedBelow(s: State, r: Rid)
    requires Inv(s) && r in s.waits
    ensures r < s.nextRid
  {
  }

  lemma LeftRegs(s: State, t: State, r: Rid)
    requires LeftFrom(s, t) && r < s.nextRid
    ensures |s.log| <= |t.log| && RegsOf(t, r) == RegsOf(s, r) - Dropped(t.log[|s.log|..])
  {
  }

  lemma NoneDropped(log: seq<Resumption>, n: nat, fds: set<int>)
    requires n <= |log|
    ensures fds - Dropped(log[n..]) == fds <==> forall i :: n <= i < |log| ==> Spares(log[i], fds)
  {
    hide Spares, Dropped;
    var ended := log[n..];
    DroppedFrom(ended, fds);
    assert fds - Dropped(ended) == fds <==> Dropped(ended) !! fds;
    assert forall i :: 0 <= i < |ended| ==> ended[i] == log[n + i];
    assert forall i :: n <= i < |log| ==> log[i] == ended[i - n];
  }

  /** A poll that has lost them all gets no report any more: it ends by its timeout or
      by hand. */
  lemma NeverReportedAgain(s: State, r: Rid, es: seq<Event>, fd: int, events: bv32)
    requires Inv(s) && r in s.waits && RegsOf(s, r) == {} && Runs(s, es)
    requires CanReport(Exec(s, es), fd, events)
    ensures Exec(s, es).regs[fd].rid != r
  {
    RunLeaves(s, es);
    var t := Exec(s, es);
    assert RegsOf(t, r) == {};
    assert t.regs[fd].rid == r ==> fd in RegsOf(t, r);
  }

  // ----- from the call on

  /** Is `i` the first entry of `fds` for `fd`? */
  predicate FirstFor(fds: seq<PollFd>, i: nat, fd: int) {
    i < |fds| && fds[i].fd == fd && forall j :: 0 <= j < i ==> fds[j].fd != fd
  }

  /** A poll that waits has added each of its fds that was not registered yet and that
      epoll takes, pointing to its first entry for it, and has left the others alone. */
  lemma PollRegisters(s: State, fds: seq<PollFd>, timeout: int, now: nat, accepted: set<int>)
    requires CanPoll(s, fds, timeout, now, accepted) && PollAccepted(s, timeout, now)
    ensures var t := Step(s, Poll(fds, timeout, now, accepted));
            && t.regs.Keys == s.regs.Keys + FdSet(fds) * accepted
            && (forall fd :: fd in s.regs ==> t.regs[fd] == s.regs[fd])
            && forall fd :: fd in t.regs && fd !in s.regs ==>
                 t.regs[fd].rid == s.nextRid && FirstFor(fds, t.regs[fd].idx, fd)
  {
    hide PollCo, Register, FdSet, PollAccepted;
    PollRegs(s, fds, timeout, now, accepted);
    RegisterAdds(s.regs, fds, s.nextRid, accepted);
  }

  lemma RegisterAdds(regs: map<int, Reg>, fds: seq<PollFd>, rid: Rid, accepted: set<int>)
    ensures var t := Register(regs, fds, rid, accepted);
            && t.Keys == regs.Keys + FdSet(fds) * accepted
            && (forall fd :: fd in regs ==> t[fd] == regs[fd])
            && forall fd :: fd in t && fd !in regs ==> t[fd].rid == rid && FirstFor(fds, t[fd].idx, fd)
  {
  }

  /** Over any run: what is registered for a poll is what it added when it was called,
      less the fds of the polls that ended since, each still pointing to its first entry
      for that fd. */
  lemma RegisteredWhileLive(
      size: nat, start: nat, shared: set<Co>, before: seq<Event>, s: State,
      fds: seq<PollFd>, timeout: int, now: nat, accepted: set<int>, es: seq<Event>)
    requires 1 <= size && Runs(Init(size, start, shared), before) && s == Exec(Init(size, start, shared), before)
    requires CanPoll(s, fds, timeout, now, accepted) && PollAccepted(s, timeout, now)
    requires Runs(Step(s, Poll(fds, timeout, now, accepted)), es)
    ensures var t := Exec(Step(s, Poll(fds, timeout, now, accepted)), es);
            && |s.log| <= |t.log|
            && RegsOf(t, s.nextRid) == FdSet(fds) * accepted - s.regs.Keys - Dropped(t.log[|s.log|..])
            && forall fd :: fd in RegsOf(t, s.nextRid) ==> FirstFor(fds, t.regs[fd].idx, fd)
  {
    hide Inv, Step, RegsOf, FdSet, LeftFrom, FirstFor;
    InitInv(size, start, shared);
    RunKeeps(Init(size, start, shared), before);
    StepKeeps(s, Poll(fds, timeout, now, accepted));
    PollAdds(s, fds, timeout, now, accepted);
    RunLeaves(Step(s, Poll(fds, timeout, now, accepted)), es);
    StillFirst(s, Step(s, Poll(fds, timeout, now, accepted)), Exec(Step(s, Poll(fds, timeout, now, accepted)), es),
      fds);
  }

  lemma PollAdds(s: State, fds: seq<PollFd>, timeout: int, now: nat, accepted: set<int>)
    requires Inv(s) && CanPoll(s, fds, timeout, now, accepted) && PollAccepted(s, timeout, now)
    ensures var t := Step(s, Poll(fds, timeout, now, accepted));
            && t.log == s.log && t.nextRid == s.nextRid + 1
            && RegsOf(t, s.nextRid) == FdSet(fds) * accepted - s.regs.Keys
            && forall fd :: fd in RegsOf(t, s.nextRid) ==> FirstFor(fds, t.regs[fd].idx, fd)
  {
    PollRegisters(s, fds, timeout, now, accepted);
    YieldersAreAbove(s);
    forall fd | fd in s.regs ensures s.regs[fd].rid != s.nextRid {
      assert RegOk(s, fd, s.regs[fd]);
    }
  }

  lemma StillFirst(s: State, u: State, t: State, fds: seq<PollFd>)
    requires LeftFrom(u, t) && u.log == s.log && u.nextRid == s.nextRid + 1
    requires forall fd :: fd in RegsOf(u, s.nextRid) ==> FirstFor(fds, u.regs[fd].idx, fd)
    ensures RegsOf(t, s.nextRid) == RegsOf(u, s.nextRid) - Dropped(t.log[|s.log|..])
    ensures forall fd :: fd in RegsOf(t, s.nextRid) ==> FirstFor(fds, t.regs[fd].idx, fd)
    ensures |s.log| <= |t.log|
  {
  }
}
