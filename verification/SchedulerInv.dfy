/** What every step of the scheduler keeps. */
module SchedulerInv {
  import opened CallStack
  import opened Sequences
  import opened TimerLog
  import opened EpollLists
  import opened PollEvents
  import opened Scheduler
  import opened Wrappers

  /** Main is at the bottom of the call stack, no coroutine is on it twice, and what
      is on it is neither blocked nor ended. */
  ghost predicate StackInv(s: State) {
    && 1 <= |s.pCallStack| <= CALL_STACK_SIZE && s.pCallStack[0] == MAIN && Distinct(s.pCallStack)
    && (forall c :: c in s.pCallStack ==> c !in s.blocked && c !in s.ended)
    && (forall c :: c in s.blocked ==> c !in s.ended)
    && (s.phase.Preparing? ==> InLoop(s))
  }

  /** Wait records and blocked coroutines correspond one to one. */
  ghost predicate WaitInv(s: State) {
    && (forall r :: r in s.waits ==> r < s.nextRid && s.waits[r].co in s.blocked && s.blocked[s.waits[r].co] == r)
    && (forall c :: c in s.blocked ==> s.blocked[c] in s.waits && s.waits[s.blocked[c]].co == c)
  }

  /** The wheel, the active list, the condition queues and epoll refer to live
      records only, and each record is on at most one list, once. */
  ghost predicate LinkInv(s: State) {
    && Good(s.lists)
    && (forall r :: Pending(s.lists, r) ==> r in s.waits)
    && (forall r :: r in s.lists.active ==> r in s.waits)
    && (forall c :: c in s.conds ==> Distinct(s.conds[c]))
    && (forall c, r :: c in s.conds && r in s.conds[c] ==> r in s.waits && s.waits[r].kind == CondWait(c))
    && (forall fd :: fd in s.regs ==> RegOk(s, fd, s.regs[fd]))
  }

  /** A registration points into a live poll, at the entry for its fd. */
  ghost predicate RegOk(s: State, fd: int, g: Reg) {
    && g.rid in s.waits && s.waits[g.rid].kind.PollWait?
    && var k := s.waits[g.rid].kind;
       && g.idx < |k.fds| == |k.revents| && k.fds[g.idx].fd == fd && fd > -1
       && (s.phase.Preparing? && fd !in s.phase.reported ==> k.revents[g.idx] == 0)
  }

  /** Where a live record is, and what its flags say about it. */
  ghost predicate RecOk(s: State, r: Rid, w: Wait) {
    && (w.timed <==> Pending(s.lists, r) || (r in s.lists.active && w.timed))
    && (w.bTimeout ==> w.timed && r in s.lists.active && s.phase.Draining?)
    && match w.kind
       case CondWait(c) => CondOk(s, r, w, c)
       case PollWait(fds, revents, raised, detached, onStack) =>
         && w.timed && PollOk(s, r, w, fds, revents, raised, detached)
         && (onStack ==> w.co !in s.shared)
  }

  /** A waiter that nobody has signalled is on its queue, and active only because of
      its timeout; one without a timeout is active once signalled. */
  ghost predicate CondOk(s: State, r: Rid, w: Wait, c: Cond) {
    && (w.signal.NotSignalled? <==> c in s.conds && r in s.conds[c])
    && (w.signal.NotSignalled? && r in s.lists.active ==> w.bTimeout)
    && (!w.timed && w.signal.Signalled? ==> r in s.lists.active)
    && (c.MutexCond? ==> !w.timed)
  }

  /** A poll is active because of I/O or because of its timeout, never both, and its
      counter counts the entries with something to report. */
  ghost predicate PollOk(s: State, r: Rid, w: Wait, fds: seq<PollFd>, revents: seq<bv16>, raised: nat, detached: bool) {
    && |revents| == |fds|
    && (detached <==> raised > 0)
    && raised == CountNonzero(revents)
    && (detached ==> r in s.lists.active && !w.bTimeout && !s.phase.Body?)
    && (r in s.lists.active ==> detached || w.bTimeout)
  }

  function CountNonzero(rs: seq<bv16>): nat {
    if rs == [] then 0 else (if rs[0] != 0 then 1 else 0) + CountNonzero(rs[1..])
  }

  /** The invariant, with the records in `skip` in transit. */
  ghost predicate InvBut(s: State, skip: set<Rid>) {
    StackInv(s) && WaitInv(s) && LinkInv(s) && RecInv(s, skip) && !s.fault
  }

  ghost predicate RecInv(s: State, skip: set<Rid>) {
    forall r :: r in s.waits && r !in skip ==> RecOk(s, r, s.waits[r])
  }

  ghost predicate Inv(s: State) {
    InvBut(s, {})
  }

  lemma {:induction false} CountZeroes(rs: seq<bv16>)
    requires forall i :: 0 <= i < |rs| ==> rs[i] == 0
    ensures CountNonzero(rs) == 0
  {
    if rs != [] {
      CountZeroes(rs[1..]);
    }
  }

  lemma {:induction false} CountSet(rs: seq<bv16>, i: nat, x: bv16)
    requires i < |rs| && rs[i] == 0 && x != 0
    ensures CountNonzero(rs[i := x]) == CountNonzero(rs) + 1
  {
    if i == 0 {
      assert rs[i := x][1..] == rs[1..];
    } else {
      assert rs[i := x][1..] == rs[1..][i - 1 := x];
      CountSet(rs[1..], i - 1, x);
    }
  }

  lemma InitInv(size: nat, now: nat, shared: set<Co>)
    requires 1 <= size
    ensures Inv(Init(size, now, shared))
  {
  }

  // ----- the call stack

  lemma PopDistinct<X>(s: seq<X>)
    requires s != [] && Distinct(s)
    ensures Distinct(s[..|s| - 1])
    ensures forall x :: x in s[..|s| - 1] ==> x in s && x != s[|s| - 1]
  {
    forall x | x in s[..|s| - 1] ensures x in s && x != s[|s| - 1] {
      var i :| 0 <= i < |s| - 1 && s[i] == x;
    }
  }

  lemma PushDistinct<X>(s: seq<X>, x: X)
    requires Distinct(s) && x !in s
    ensures Distinct(s + [x])
  {
  }

  // ----- switching

  /** The records do not depend on who is running. */
  lemma OnlyStack(s: State, t: State, skip: set<Rid>)
    requires WaitInv(s) && LinkInv(s) && RecInv(s, skip)
    requires t.(pCallStack := s.pCallStack, started := s.started, ended := s.ended) == s
    ensures WaitInv(t) && LinkInv(t) && RecInv(t, skip)
  {
    forall r | r in t.waits && r !in skip ensures RecOk(t, r, t.waits[r]) {
      assert RecOk(s, r, s.waits[r]);
    }
    forall fd | fd in t.regs ensures RegOk(t, fd, t.regs[fd]) {
      assert RegOk(s, fd, s.regs[fd]);
    }
  }

  lemma ResumePlain(s: State, co: Co, byLoop: bool)
    requires Inv(s) && co !in s.pCallStack && co !in s.ended && |s.pCallStack| < CALL_STACK_SIZE
    requires co !in s.blocked && !s.phase.Preparing?
    ensures Inv(ResumeCo(s, co, byLoop))
  {
    hide WaitInv, LinkInv, RecInv;
    PushDistinct(s.pCallStack, co);
    OnlyStack(s, ResumeCo(s, co, byLoop), {});
  }

  lemma YieldKeeps(s: State, ended: set<Co>)
    requires Inv(s) && |s.pCallStack| > 1 && (ended == {} || ended == {Top(s)})
    ensures Inv(YieldCo(s).(ended := s.ended + ended))
  {
    hide WaitInv, LinkInv, RecInv;
    PopDistinct(s.pCallStack);
    OnlyStack(s, YieldCo(s).(ended := s.ended + ended), {});
    assert Top(s) in s.pCallStack;
  }

  /** Switching in a blocked coroutine ends its wait: the record is on no list, no
      registration points to it, and nothing else changes. */
  lemma ResumeBlocked(s: State, co: Co, byLoop: bool)
    requires co in s.blocked && InvBut(s, {s.blocked[co]}) && !s.phase.Preparing?
    requires co !in s.pCallStack && |s.pCallStack| < CALL_STACK_SIZE
    requires s.waits[s.blocked[co]].kind.CondWait? ==>
             !Pending(s.lists, s.blocked[co]) && s.blocked[co] !in s.lists.active
    ensures Inv(ResumeCo(s, co, byLoop))
  {
    hide Good, Pending, Detach, Without, WaitInv, LinkInv, RecInv;
    PushDistinct(s.pCallStack, co);
    var rid := s.blocked[co];
    var t := s.(pCallStack := s.pCallStack + [co], started := s.started + {co});
    OnlyStack(s, t, {rid});
    FinishRecords(t, co, byLoop);
  }

  lemma FinishRecords(s: State, co: Co, byLoop: bool)
    requires co in s.blocked && WaitInv(s) && LinkInv(s) && RecInv(s, {s.blocked[co]})
    requires s.waits[s.blocked[co]].kind.CondWait? ==>
             !Pending(s.lists, s.blocked[co]) && s.blocked[co] !in s.lists.active
    ensures var t := Finish(s, co, byLoop);
            WaitInv(t) && LinkInv(t) && RecInv(t, {}) && t.blocked == s.blocked - {co} && t.fault == s.fault
  {
    hide WaitInv, LinkInv, RecInv, Pending, Finish, FinishPoll, FinishCond;
    var rid := s.blocked[co];
    BlockedHasWait(s, co);
    FinishByKind(s, co, byLoop);
    if s.waits[rid].kind.PollWait? {
      FinishPollRecords(s, co, rid, byLoop);
    } else {
      FinishCondRecords(s, co, rid, byLoop);
    }
  }

  lemma BlockedHasWait(s: State, co: Co)
    requires WaitInv(s) && co in s.blocked
    ensures s.blocked[co] in s.waits && s.waits[s.blocked[co]].co == co
  {
  }

  lemma FinishByKind(s: State, co: Co, byLoop: bool)
    requires co in s.blocked && s.blocked[co] in s.waits
    ensures var rid := s.blocked[co]; var t := Finish(s, co, byLoop);
            && t == (if s.waits[rid].kind.PollWait? then FinishPoll(s, co, rid, byLoop)
               else FinishCond(s, co, rid, byLoop))
            && t.blocked == s.blocked - {co} && t.fault == s.fault
  {
    hide Detach, Without, Deregister, MutexOf;
  }

  lemma FinishPollRecords(s: State, co: Co, rid: Rid, byLoop: bool)
    requires WaitInv(s) && LinkInv(s) && RecInv(s, {rid})
    requires rid in s.waits && s.waits[rid].kind.PollWait? && s.waits[rid].co == co
    ensures var t := FinishPoll(s, co, rid, byLoop); WaitInv(t) && LinkInv(t) && RecInv(t, {})
  {
    hide Good, Pending, Detach;
    DetachMoves(s.lists, rid);
    var t := FinishPoll(s, co, rid, byLoop);
    WaitsFreed(s, t, rid);
    forall fd | fd in t.regs ensures RegOk(t, fd, t.regs[fd]) {
      assert RegOk(s, fd, s.regs[fd]);
    }
    forall r | r in t.waits ensures RecOk(t, r, t.waits[r]) {
      assert RecOk(s, r, s.waits[r]);
    }
  }

  lemma FinishCondRecords(s: State, co: Co, rid: Rid, byLoop: bool)
    requires WaitInv(s) && LinkInv(s) && RecInv(s, {rid})
    requires rid in s.waits && s.waits[rid].kind.CondWait? && s.waits[rid].co == co
    requires !Pending(s.lists, rid) && rid !in s.lists.active
    ensures var t := FinishCond(s, co, rid, byLoop); WaitInv(t) && LinkInv(t) && RecInv(t, {})
  {
    var c := s.waits[rid].kind.cond;
    var u := Free(s, co, rid, byLoop).(conds := s.conds[c := Without(Queue(s, c), rid)]);
    FreeCondRecords(s, co, rid, byLoop);
    hide WaitInv, LinkInv, RecInv;
    var t := FinishCond(s, co, rid, byLoop);
    OnlyMutexes(u, t, {});
  }

  lemma OnlyMutexes(s: State, t: State, skip: set<Rid>)
    requires WaitInv(s) && LinkInv(s) && RecInv(s, skip) && t.(mutexes := s.mutexes) == s
    ensures WaitInv(t) && LinkInv(t) && RecInv(t, skip)
  {
    forall r | r in t.waits && r !in skip ensures RecOk(t, r, t.waits[r]) {
      assert RecOk(s, r, s.waits[r]);
    }
    forall fd | fd in t.regs ensures RegOk(t, fd, t.regs[fd]) {
      assert RegOk(s, fd, s.regs[fd]);
    }
  }

  lemma WaitsFreed(s: State, t: State, rid: Rid)
    requires WaitInv(s) && rid in s.waits && t.nextRid == s.nextRid
    requires t.waits == s.waits - {rid} && t.blocked == s.blocked - {s.waits[rid].co}
    ensures WaitInv(t)
  {
  }

  lemma FreeCondRecords(s: State, co: Co, rid: Rid, byLoop: bool)
    requires WaitInv(s) && LinkInv(s) && RecInv(s, {rid})
    requires rid in s.waits && s.waits[rid].kind.CondWait? && s.waits[rid].co == co
    requires !Pending(s.lists, rid) && rid !in s.lists.active
    ensures var c := s.waits[rid].kind.cond;
            var t := Free(s, co, rid, byLoop).(conds := s.conds[c := Without(Queue(s, c), rid)]);
            WaitInv(t) && LinkInv(t) && RecInv(t, {})
  {
    var c := s.waits[rid].kind.cond;
    var q := Without(Queue(s, c), rid);
    assert Distinct(Queue(s, c));
    WithoutMembers(Queue(s, c), rid);
    var t := Free(s, co, rid, byLoop).(conds := s.conds[c := q]);
    WaitsFreed(s, t, rid);
    FreeCondLinks(s, t, c, rid, q);
    FreeCondRecs(s, t, c, rid, q);
  }

  lemma FreeCondLinks(s: State, t: State, c: Cond, rid: Rid, q: seq<Rid>)
    requires LinkInv(s) && rid in s.waits && s.waits[rid].kind == CondWait(c)
    requires !Pending(s.lists, rid) && rid !in s.lists.active
    requires Distinct(q) && forall r :: r in q <==> r in Queue(s, c) && r != rid
    requires t.conds == s.conds[c := q] && t.waits == s.waits - {rid}
    requires t.lists == s.lists && t.regs == s.regs && t.phase == s.phase
    ensures LinkInv(t)
  {
    hide Good, Pending;
    forall d, r | d in t.conds && r in t.conds[d] ensures r in t.waits && t.waits[r].kind == CondWait(d) {
      assert d in s.conds && r in s.conds[d];
    }
    forall fd | fd in t.regs ensures RegOk(t, fd, t.regs[fd]) {
      assert RegOk(s, fd, s.regs[fd]);
    }
  }

  lemma FreeCondRecs(s: State, t: State, c: Cond, rid: Rid, q: seq<Rid>)
    requires RecInv(s, {rid}) && rid in s.waits
    requires forall r :: r in q <==> r in Queue(s, c) && r != rid
    requires t.conds == s.conds[c := q] && t.waits == s.waits - {rid}
    requires t.lists == s.lists && t.shared == s.shared && t.phase == s.phase
    ensures RecInv(t, {})
  {
    hide Good, Pending;
    forall r | r in t.waits ensures RecOk(t, r, t.waits[r]) {
      assert RecOk(s, r, s.waits[r]);
    }
  }

  // ----- waiting

  lemma WaitsAdded(s: State, t: State, w: Wait)
    requires WaitInv(s) && w.co !in s.blocked && t.nextRid == s.nextRid + 1
    requires t.waits == s.waits[s.nextRid := w] && t.blocked == s.blocked[w.co := s.nextRid]
    ensures WaitInv(t) && s.nextRid !in s.waits
  {
  }

  lemma BlockStack(s: State, t: State, w: Wait)
    requires StackInv(s) && |s.pCallStack| > 1 && w.co == Top(s) && !s.phase.Preparing?
    requires t.pCallStack == s.pCallStack[..|s.pCallStack| - 1] && t.blocked == s.blocked[w.co := s.nextRid]
    requires t.ended == s.ended && t.phase == s.phase
    ensures StackInv(t) && w.co !in s.blocked
  {
    PopDistinct(s.pCallStack);
    assert Top(s) in s.pCallStack;
  }

  /** The wheel may start, or refuse a timer, without anything else changing. */
  lemma OnlyWheel(s: State, t: State, skip: set<Rid>)
    requires WaitInv(s) && LinkInv(s) && RecInv(s, skip)
    requires t.(lists := s.lists, clock := s.clock) == s
    requires Good(t.lists) && t.lists.active == s.lists.active
    requires forall r :: Pending(t.lists, r) <==> Pending(s.lists, r)
    ensures WaitInv(t) && LinkInv(t) && RecInv(t, skip)
  {
    hide Good, Pending;
    forall r | r in t.waits && r !in skip ensures RecOk(t, r, t.waits[r]) {
      assert RecOk(s, r, s.waits[r]);
    }
    forall fd | fd in t.regs ensures RegOk(t, fd, t.regs[fd]) {
      assert RegOk(s, fd, s.regs[fd]);
    }
  }

  lemma NothingToRegister(regs: map<int, Reg>, fds: seq<PollFd>, rid: Rid, accepted: set<int>)
    requires FdSet(fds) * accepted <= regs.Keys
    ensures Register(regs, fds, rid, accepted) == regs
  {
    assert regs.Keys + (FdSet(fds) * accepted) == regs.Keys;
  }

  lemma PollKeeps(s: State, fds: seq<PollFd>, timeout: int, now: nat, accepted: set<int>)
    requires Inv(s) && CanPoll(s, fds, timeout, now, accepted)
    ensures Inv(PollCo(s, fds, timeout, now, accepted))
  {
    var expire := ExpireTime(now, if timeout > MAX_TIMEOUT then MAX_TIMEOUT else timeout);
    var (ls, res) := Arm(s.lists, s.nextRid, expire, now);
    var t := PollCo(s, fds, timeout, now, accepted);
    assert s.nextRid !in s.waits && |s.pCallStack| > 1;
    ArmMoves(s.lists, s.nextRid, expire, now);
    if res != Added {
      NothingToRegister(s.regs, fds, s.nextRid, accepted);
      hide LinkInv, RecInv, WaitInv, Register, Good, Pending, Arm, FdSet;
      OnlyWheel(s, t, {});
    } else {
      var w := t.waits[s.nextRid];
      CountZeroes(w.kind.revents);
      hide Good, Pending, Arm, Register, FdSet, PollOk, CondOk, LinkInv, RecInv, WaitInv, StackInv, ExpireTime;
      BlockStack(s, t, w);
      WaitsAdded(s, t, w);
      PollLinks(s, t, fds, accepted, w);
      PollRecs(s, t, w);
    }
  }

  lemma PollLinks(s: State, t: State, fds: seq<PollFd>, accepted: set<int>, w: Wait)
    requires LinkInv(s) && s.nextRid !in s.waits && !s.phase.Preparing?
    requires w.kind.PollWait? && w.kind.fds == fds && |w.kind.revents| == |fds|
    requires t.waits == s.waits[s.nextRid := w] && t.regs == Register(s.regs, fds, s.nextRid, accepted)
    requires Good(t.lists) && t.lists.active == s.lists.active
    requires forall r :: Pending(t.lists, r) <==> Pending(s.lists, r) || r == s.nextRid
    requires t.conds == s.conds && t.phase == s.phase
    ensures LinkInv(t)
  {
    hide Good, Pending;
    forall fd | fd in t.regs ensures RegOk(t, fd, t.regs[fd]) {
      if fd in s.regs {
        assert RegOk(s, fd, s.regs[fd]);
      }
    }
  }

  lemma PollRecs(s: State, t: State, w: Wait)
    requires LinkInv(s) && RecInv(s, {}) && s.nextRid !in s.waits
    requires w.kind.PollWait? && w.timed && !w.bTimeout && w.kind.iRaiseCnt == 0 == CountNonzero(w.kind.revents)
    requires !w.kind.iAllEventDetach && |w.kind.revents| == |w.kind.fds| && (w.kind.itemsOnStack ==> w.co !in s.shared)
    requires t.waits == s.waits[s.nextRid := w] && t.lists.active == s.lists.active
    requires forall r :: Pending(t.lists, r) <==> Pending(s.lists, r) || r == s.nextRid
    requires t.conds == s.conds && t.phase == s.phase && t.shared == s.shared
    ensures RecInv(t, {})
  {
    hide Good, Pending, CountNonzero;
    forall r | r in t.waits ensures RecOk(t, r, t.waits[r]) {
      if r != s.nextRid {
        assert RecOk(s, r, s.waits[r]);
      }
    }
  }

  lemma UntimedWaitKeeps(s: State, c: Cond, ms: int, now: nat)
    requires Inv(s) && InUserCode(s) && Top(s) != MAIN && 1 <= s.lists.timers.size && ms <= 0
    ensures Inv(WaitOn(s, c, ms, now))
  {
    var t := WaitOn(s, c, ms, now);
    var w := t.waits[s.nextRid];
    assert s.nextRid !in s.waits && Good(s.lists) && |s.pCallStack| > 1;
    hide Good, Pending, LinkInv, RecInv, WaitInv, StackInv;
    BlockStack(s, t, w);
    WaitsAdded(s, t, w);
    WaitLinks(s, t, c, w);
    WaitRecs(s, t, c, w);
  }

  lemma TimedWaitKeeps(s: State, c: Cond, ms: int, now: nat)
    requires Inv(s) && InUserCode(s) && Top(s) != MAIN && 1 <= s.lists.timers.size && ms > 0 && !c.MutexCond?
    requires Arm(s.lists, s.nextRid, ExpireTime(now, ms), now).1 == Added
    ensures Inv(WaitOn(s, c, ms, now))
  {
    var ls := Arm(s.lists, s.nextRid, ExpireTime(now, ms), now).0;
    assert s.nextRid !in s.waits && |s.pCallStack| > 1;
    ArmMoves(s.lists, s.nextRid, ExpireTime(now, ms), now);
    hide Good, Pending, Arm, LinkInv, RecInv, WaitInv, StackInv, ExpireTime;
    var t := WaitOn(s, c, ms, now);
    var w := t.waits[s.nextRid];
    BlockStack(s, t, w);
    WaitsAdded(s, t, w);
    WaitLinks(s, t, c, w);
    WaitRecs(s, t, c, w);
  }

  lemma WaitKeeps(s: State, c: Cond, ms: int, now: nat)
    requires Inv(s) && InUserCode(s) && Top(s) != MAIN && 1 <= s.lists.timers.size && (c.MutexCond? ==> ms <= 0)
    ensures Inv(WaitOn(s, c, ms, now))
  {
    if ms <= 0 {
      UntimedWaitKeeps(s, c, ms, now);
    } else {
      var expire := ExpireTime(now, ms);
      if Arm(s.lists, s.nextRid, expire, now).1 == Added {
        TimedWaitKeeps(s, c, ms, now);
      } else {
        assert s.nextRid !in s.waits;
        ArmMoves(s.lists, s.nextRid, expire, now);
        hide LinkInv, RecInv, WaitInv, Good, Pending, Arm;
        OnlyWheel(s, WaitOn(s, c, ms, now), {});
      }
    }
  }

  lemma WaitLinks(s: State, t: State, c: Cond, w: Wait)
    requires LinkInv(s) && s.nextRid !in s.waits && w.kind == CondWait(c)
    requires t.waits == s.waits[s.nextRid := w] && t.conds == s.conds[c := Queue(s, c) + [s.nextRid]]
    requires Good(t.lists) && t.lists.active == s.lists.active
    requires forall r :: Pending(t.lists, r) <==> Pending(s.lists, r) || (w.timed && r == s.nextRid)
    requires t.regs == s.regs && t.phase == s.phase
    ensures LinkInv(t)
  {
    hide Good, Pending;
    var q := Queue(s, c);
    forall r | r in q ensures r in s.waits && s.waits[r].kind == CondWait(c) {
      assert c in s.conds && r in s.conds[c];
    }
    PushDistinct(q, s.nextRid);
    forall fd | fd in t.regs ensures RegOk(t, fd, t.regs[fd]) {
      assert RegOk(s, fd, s.regs[fd]);
    }
  }

  lemma WaitRecs(s: State, t: State, c: Cond, w: Wait)
    requires LinkInv(s) && RecInv(s, {}) && s.nextRid !in s.waits
    requires w.kind == CondWait(c) && !w.bTimeout && w.signal == NotSignalled && (c.MutexCond? ==> !w.timed)
    requires t.waits == s.waits[s.nextRid := w] && t.conds == s.conds[c := Queue(s, c) + [s.nextRid]]
    requires t.lists.active == s.lists.active
    requires forall r :: Pending(t.lists, r) <==> Pending(s.lists, r) || (w.timed && r == s.nextRid)
    requires t.phase == s.phase && t.shared == s.shared
    ensures RecInv(t, {})
  {
    hide Good, Pending;
    forall r | r in t.waits ensures RecOk(t, r, t.waits[r]) {
      if r != s.nextRid {
        assert RecOk(s, r, s.waits[r]);
      }
    }
  }

  // ----- waking

  lemma SignalKeeps(s: State, c: Cond)
    requires Inv(s) && !s.phase.Preparing?
    ensures Inv(SignalOn(s, c))
  {
    var q := Queue(s, c);
    if q != [] {
      var r := q[0];
      assert c in s.conds && r in s.conds[c];
      var w := s.waits[r].(signal := Signalled(Early(s, s.waits[r]), NextPass(s)));
      var t := SignalOn(s, c);
      ReadyMoves(s.lists, r);
      assert Distinct(q);
      hide Good, Pending, Ready, LinkInv, RecInv, Early;
      SignalWaits(s, t, r, w);
      SignalLinks(s, t, c, r, w);
      SignalRecs(s, t, c, r, w);
    }
  }

  lemma SignalWaits(s: State, t: State, r: Rid, w: Wait)
    requires WaitInv(s) && r in s.waits && w.co == s.waits[r].co
    requires t.waits == s.waits[r := w] && t.blocked == s.blocked && t.nextRid == s.nextRid
    ensures WaitInv(t)
  {
  }

  lemma SignalLinks(s: State, t: State, c: Cond, r: Rid, w: Wait)
    requires LinkInv(s) && Queue(s, c) != [] && r == Queue(s, c)[0]
    requires r in s.waits && w.kind == s.waits[r].kind
    requires t.waits == s.waits[r := w] && t.conds == s.conds[c := Queue(s, c)[1..]]
    requires Good(t.lists) && forall x :: x in t.lists.active <==> x in s.lists.active || x == r
    requires forall x :: Pending(t.lists, x) <==> Pending(s.lists, x) && x != r
    requires t.regs == s.regs && t.phase == s.phase
    ensures LinkInv(t)
  {
    hide Good, Pending;
    forall d, x | d in t.conds && x in t.conds[d] ensures x in t.waits && t.waits[x].kind == CondWait(d) {
      assert d in s.conds && x in s.conds[d];
    }
    forall fd | fd in t.regs ensures RegOk(t, fd, t.regs[fd]) {
      assert RegOk(s, fd, s.regs[fd]);
    }
  }

  lemma SignalRecs(s: State, t: State, c: Cond, r: Rid, w: Wait)
    requires LinkInv(s) && RecInv(s, {}) && Queue(s, c) != [] && r == Queue(s, c)[0] && Distinct(Queue(s, c))
    requires r in s.waits && w.signal.Signalled? && w == s.waits[r].(signal := w.signal) && w.kind == CondWait(c)
    requires t.waits == s.waits[r := w] && t.conds == s.conds[c := Queue(s, c)[1..]]
    requires forall x :: x in t.lists.active <==> x in s.lists.active || x == r
    requires forall x :: Pending(t.lists, x) <==> Pending(s.lists, x) && x != r
    requires t.phase == s.phase && t.shared == s.shared
    ensures RecInv(t, {})
  {
    hide Good, Pending;
    var q := Queue(s, c);
    assert q == [r] + q[1..] && r !in q[1..];
    forall x | x in t.waits ensures RecOk(t, x, t.waits[x]) {
      assert RecOk(s, x, s.waits[x]);
    }
  }

  lemma {:induction false} BroadcastKeeps(s: State, c: Cond)
    requires Inv(s) && !s.phase.Preparing?
    ensures Inv(BroadcastOn(s, c))
    decreases |Queue(s, c)|
  {
    if Queue(s, c) != [] {
      SignalKeeps(s, c);
      BroadcastKeeps(SignalOn(s, c), c);
    }
  }

  lemma MutexKeeps(s: State, m: nat, mu: Mutex)
    requires Inv(s)
    ensures Inv(s.(mutexes := s.mutexes[m := mu]))
  {
    hide LinkInv, RecInv, WaitInv;
    OnlyMutexes(s, s.(mutexes := s.mutexes[m := mu]), {});
  }

  lemma LockKeeps(s: State, m: nat)
    requires Inv(s) && CanLock(s, m)
    ensures Inv(LockCo(s, m))
  {
    hide Inv, WaitOn;
    var t := LockCo(s, m);
    var mu := MutexOf(s, m);
    var mu' := mu.(m_iWaitItemCnt := mu.m_iWaitItemCnt + 1, arrivals := mu.arrivals + [Top(s)]);
    if mu.m_iWaitItemCnt > 0 {
      MutexKeeps(s, m, mu');
      WaitKeeps(s.(mutexes := s.mutexes[m := mu']), MutexCond(m), -1, s.clock);
    } else {
      MutexKeeps(s, m, mu'.(owner := Some(Top(s)), grants := mu.grants + [Top(s)]));
    }
  }

  lemma UnlockKeeps(s: State, m: nat)
    requires Inv(s) && CanUnlock(s, m)
    ensures Inv(UnlockCo(s, m))
  {
    hide Inv, SignalOn;
    var mu := MutexOf(s, m);
    var q := Queue(s, MutexCond(m));
    var mu' := mu.(m_iWaitItemCnt := mu.m_iWaitItemCnt - 1, owner := None, unlocks := mu.unlocks + 1,
                   pending := if q == [] then None else Some(q[0]));
    MutexKeeps(s, m, mu');
    SignalKeeps(s.(mutexes := s.mutexes[m := mu']), MutexCond(m));
  }

  // ----- the event loop

  lemma ReportKeeps(s: State, fd: int, events: bv32)
    requires Inv(s) && CanReport(s, fd, events)
    ensures Inv(ReportFd(s, fd, events))
  {
    var rid, idx := s.regs[fd].rid, s.regs[fd].idx;
    var bits := EpollEvent2Poll(events);
    assert RegOk(s, fd, s.regs[fd]);
    CountSet(s.waits[rid].kind.revents, idx, bits);
    var t := ReportFd(s, fd, events);
    ReadyMoves(s.lists, rid);
    hide Good, Pending, Ready, LinkInv, RecInv, EpollEvent2Poll, CountNonzero;
    SignalWaits(s, t, rid, t.waits[rid]);
    ReportLinks(s, t, fd, rid, idx, bits);
    ReportRecs(s, t, rid, idx, bits);
  }

  lemma ReportLinks(s: State, t: State, fd: int, rid: Rid, idx: nat, bits: bv16)
    requires LinkInv(s) && s.phase.Preparing? && fd in s.regs && s.regs[fd] == Reg(rid, idx)
    requires rid in s.waits && s.waits[rid].kind.PollWait? && idx < |s.waits[rid].kind.revents|
    requires t.waits == s.waits[rid := Note(s.waits[rid], idx, bits)]
    requires Good(t.lists) && forall x :: x in t.lists.active ==> x in s.lists.active || x == rid
    requires forall x :: Pending(t.lists, x) ==> Pending(s.lists, x)
    requires t.phase == Preparing(s.phase.reported + {fd}) && t.regs == s.regs && t.conds == s.conds
    ensures LinkInv(t)
  {
    hide Good, Pending;
    assert RegOk(s, fd, s.regs[fd]);
    forall f | f in t.regs ensures RegOk(t, f, t.regs[f]) {
      assert RegOk(s, f, s.regs[f]);
    }
  }

  lemma ReportRecs(s: State, t: State, rid: Rid, idx: nat, bits: bv16)
    requires RecInv(s, {}) && s.phase.Preparing? && t.phase.Preparing?
    requires rid in s.waits && s.waits[rid].kind.PollWait? && idx < |s.waits[rid].kind.revents|
    requires t.waits == s.waits[rid := Note(s.waits[rid], idx, bits)]
    requires var k := s.waits[rid].kind;
             && CountNonzero(k.revents[idx := bits]) == CountNonzero(k.revents) + 1
             && (if k.iAllEventDetach then t.lists == s.lists
                 else (forall x :: x in t.lists.active <==> x in s.lists.active || x == rid)
                      && forall x :: Pending(t.lists, x) <==> Pending(s.lists, x) && x != rid)
    requires t.conds == s.conds && t.shared == s.shared
    ensures RecInv(t, {})
  {
    hide Pending, CountNonzero;
    assert RecOk(s, rid, s.waits[rid]);
    forall r | r in t.waits ensures RecOk(t, r, t.waits[r]) {
      assert RecOk(s, r, s.waits[r]);
    }
  }

  lemma TakeKeeps(s: State, now: nat)
    requires Inv(s) && CanTake(s)
    ensures Inv(TakeAt(s, now))
  {
    CollectMoves(s.lists, now);
    var (ls, taken) := Collect(s.lists, now);
    var t := TakeAt(s, now);
    assert forall x :: x in ls.active <==> x in s.lists.active || x in taken;
    assert forall x :: x in taken ==> x in s.waits;
    hide Good, Pending, Collect, LinkInv, RecInv;
    TakeWaits(s, t, taken);
    TakeLinks(s, t, taken);
    TakeRecs(s, t, taken);
  }

  lemma TakeWaits(s: State, t: State, taken: seq<Rid>)
    requires WaitInv(s) && t.waits == MarkAll(s.waits, taken) && t.blocked == s.blocked && t.nextRid == s.nextRid
    ensures WaitInv(t)
  {
  }

  lemma TakeLinks(s: State, t: State, taken: seq<Rid>)
    requires LinkInv(s) && t.waits == MarkAll(s.waits, taken) && t.phase.Draining?
    requires Good(t.lists) && (forall x :: x in t.lists.active <==> x in s.lists.active || x in taken)
    requires forall x :: Pending(s.lists, x) <==> Pending(t.lists, x) || x in taken
    requires t.regs == s.regs && t.conds == s.conds
    ensures LinkInv(t)
  {
    hide Good, Pending;
    forall fd | fd in t.regs ensures RegOk(t, fd, t.regs[fd]) {
      assert RegOk(s, fd, s.regs[fd]);
    }
  }

  lemma TakeRecs(s: State, t: State, taken: seq<Rid>)
    requires LinkInv(s) && RecInv(s, {}) && t.waits == MarkAll(s.waits, taken) && t.phase.Draining?
    requires forall x :: x in t.lists.active <==> x in s.lists.active || x in taken
    requires forall x :: Pending(s.lists, x) <==> Pending(t.lists, x) || x in taken
    requires forall x :: x in taken ==> !Pending(t.lists, x)
    requires t.conds == s.conds && t.shared == s.shared
    ensures RecInv(t, {})
  {
    hide Pending;
    forall r | r in t.waits ensures RecOk(t, r, t.waits[r]) {
      assert RecOk(s, r, s.waits[r]);
      if r in taken {
        assert Pending(s.lists, r) && r !in s.lists.active;
      }
    }
  }

  /** Handing a timer back to the wheel early: the wheel takes it, because it starts
      no later than the clock of the pass and the timer expires after it. */
  lemma RefileKeeps(s: State)
    requires Inv(s) && CanDrain(s)
    requires var r := s.lists.active[0];
             && s.waits[r].bTimeout && s.phase.now < s.waits[r].ullExpireTime
             && Arm(Pop(s.lists), r, s.waits[r].ullExpireTime, s.phase.now).1 == Added
    ensures Inv(DrainOne(s))
  {
    var r := s.lists.active[0];
    var t := DrainOne(s);
    PopMoves(s.lists);
    ArmMoves(Pop(s.lists), r, s.waits[r].ullExpireTime, s.phase.now);
    assert forall x :: x in t.lists.active <==> x in s.lists.active && x != r;
    assert forall x :: Pending(t.lists, x) <==> Pending(s.lists, x) || x == r;
    assert r in s.waits && Good(t.lists);
    hide Good, Pending, Pop, Arm, LinkInv, RecInv;
    SignalWaits(s, t, r, t.waits[r]);
    RefileLinks(s, t, r);
    RefileRecs(s, t, r);
  }

  lemma RefileLinks(s: State, t: State, r: Rid)
    requires LinkInv(s) && r in s.waits && r in t.waits && t.waits == s.waits[r := t.waits[r]]
    requires t.waits[r].kind == s.waits[r].kind
    requires Good(t.lists) && forall x :: x in t.lists.active <==> x in s.lists.active && x != r
    requires forall x :: Pending(t.lists, x) <==> Pending(s.lists, x) || x == r
    requires t.regs == s.regs && t.conds == s.conds && t.phase == s.phase
    ensures LinkInv(t)
  {
    hide Good, Pending;
    forall fd | fd in t.regs ensures RegOk(t, fd, t.regs[fd]) {
      assert RegOk(s, fd, s.regs[fd]);
    }
  }

  lemma RefileRecs(s: State, t: State, r: Rid)
    requires RecInv(s, {}) && r in s.waits && s.waits[r].bTimeout && r in t.waits
    requires t.waits == s.waits[r := s.waits[r].(
               bTimeout := false, lastStart := t.waits[r].lastStart, refiles := t.waits[r].refiles)]
    requires forall x :: x in t.lists.active <==> x in s.lists.active && x != r
    requires forall x :: Pending(t.lists, x) <==> Pending(s.lists, x) || x == r
    requires t.conds == s.conds && t.shared == s.shared && t.phase == s.phase
    ensures RecInv(t, {})
  {
    hide Pending;
    assert RecOk(s, r, s.waits[r]);
    forall x | x in t.waits ensures RecOk(t, x, t.waits[x]) {
      assert RecOk(s, x, s.waits[x]);
    }
  }

  /** The lists with the first active record, or that record's place in the wheel,
      taken away: only that record is in transit. */
  lemma PoppedInv(s: State, t: State, r: Rid)
    requires WaitInv(s) && LinkInv(s) && RecInv(s, {}) && r in s.waits && t.(lists := s.lists) == s
    requires Good(t.lists) && forall x :: x in t.lists.active <==> x in s.lists.active && x != r
    requires forall x :: Pending(t.lists, x) <==> Pending(s.lists, x)
    ensures WaitInv(t) && LinkInv(t) && RecInv(t, {r})
  {
    hide Good, Pending;
    forall x | x in t.waits && x != r ensures RecOk(t, x, t.waits[x]) {
      assert RecOk(s, x, s.waits[x]);
    }
    forall fd | fd in t.regs ensures RegOk(t, fd, t.regs[fd]) {
      assert RegOk(s, fd, s.regs[fd]);
    }
  }

  lemma ProcessKeeps(s: State, t: State, r: Rid)
    requires Inv(s) && InLoop(s) && s.phase.Draining? && s.lists.active != [] && r == s.lists.active[0]
    requires t.(lists := s.lists) == s
    requires Good(t.lists) && forall x :: x in t.lists.active <==> x in s.lists.active && x != r
    requires forall x :: Pending(t.lists, x) <==> Pending(s.lists, x)
    ensures Inv(ResumeCo(t, s.waits[r].co, true))
  {
    assert r in s.lists.active;
    var co := s.waits[r].co;
    assert Good(s.lists) && !Pending(s.lists, r);
    hide Good, Pending, LinkInv, RecInv;
    PoppedInv(s, t, r);
    ResumeBlocked(t, co, true);
  }

  lemma DrainKeeps(s: State)
    requires Inv(s) && CanDrain(s)
    ensures Inv(DrainOne(s))
  {
    var r := s.lists.active[0];
    assert r in s.lists.active && r in s.waits;
    var w := s.waits[r];
    PopMoves(s.lists);
    ArmMoves(Pop(s.lists), r, w.ullExpireTime, s.phase.now);
    var ls := Pop(s.lists);
    var (armed, res) := Arm(ls, r, w.ullExpireTime, s.phase.now);
    if w.bTimeout && s.phase.now < w.ullExpireTime {
      if res == Added {
        RefileKeeps(s);
      } else {
        hide Good, Pending, Pop, Arm, LinkInv, RecInv, WaitInv, StackInv, ResumeCo;
        ProcessKeeps(s, s.(lists := armed), r);
      }
    } else {
      hide Good, Pending, Pop, Arm, LinkInv, RecInv, WaitInv, StackInv, ResumeCo;
      ProcessKeeps(s, s.(lists := ls), r);
    }
  }

  lemma BeginKeeps(s: State)
    requires Inv(s) && Enabled(s, BeginPass)
    ensures Inv(Step(s, BeginPass))
  {
    var t := Step(s, BeginPass);
    forall r | r in t.waits ensures RecOk(t, r, t.waits[r]) {
      assert RecOk(s, r, s.waits[r]);
    }
    forall fd | fd in t.regs ensures RegOk(t, fd, t.regs[fd]) {
      assert RegOk(s, fd, s.regs[fd]);
      NothingReported(s, s.regs[fd].rid);
    }
  }

  lemma NothingReported(s: State, r: Rid)
    requires RecInv(s, {}) && s.phase.Body? && r in s.waits && s.waits[r].kind.PollWait?
    ensures forall i :: 0 <= i < |s.waits[r].kind.revents| ==> s.waits[r].kind.revents[i] == 0
  {
    assert RecOk(s, r, s.waits[r]);
    AllZero(s.waits[r].kind.revents);
  }

  lemma {:induction false} AllZero(rs: seq<bv16>)
    requires CountNonzero(rs) == 0
    ensures forall i :: 0 <= i < |rs| ==> rs[i] == 0
  {
    if rs != [] {
      AllZero(rs[1..]);
      assert rs == [rs[0]] + rs[1..];
    }
  }

  lemma EndPassKeeps(s: State)
    requires Inv(s) && Enabled(s, EndPass)
    ensures Inv(Step(s, EndPass))
  {
    var t := Step(s, EndPass);
    forall r | r in t.waits ensures RecOk(t, r, t.waits[r]) {
      assert RecOk(s, r, s.waits[r]);
    }
    forall fd | fd in t.regs ensures RegOk(t, fd, t.regs[fd]) {
      assert RegOk(s, fd, s.regs[fd]);
    }
  }

  lemma ResumeKeeps(s: State, co: Co)
    requires Inv(s) && CanResume(s, co)
    ensures Inv(ResumeCo(s, co, false))
  {
    if co in s.blocked {
      assert RecInv(s, {s.blocked[co]});
      hide LinkInv, RecInv, WaitInv;
      ResumeBlocked(s, co, false);
    } else {
      ResumePlain(s, co, false);
    }
  }

  /** Every step keeps the invariant. */
  lemma StepKeeps(s: State, e: Event)
    requires Inv(s) && Enabled(s, e)
    ensures Inv(Step(s, e))
  {
    hide Inv, ResumeCo, PollCo, WaitOn, SignalOn, BroadcastOn, LockCo, UnlockCo, ReportFd, TakeAt, DrainOne;
    match e
    case BeginPass => BeginKeeps(s);
    case Report(fd, events) => ReportKeeps(s, fd, events);
    case TakeTimeouts(now) => TakeKeeps(s, now);
    case Drain => DrainKeeps(s);
    case EndPass => EndPassKeeps(s);
    case Resume(co) => ResumeKeeps(s, co);
    case Yield => YieldEvent(s, e);
    case End => YieldEvent(s, e);
    case Poll(fds, timeout, now, accepted) => PollKeeps(s, fds, timeout, now, accepted);
    case TimedWait(c, ms, now) => WaitKeeps(s, UserCond(c), ms, now);
    case Signal(c) => SignalEvent(s, c);
    case Broadcast(c) => BroadcastEvent(s, c);
    case Lock(m) => LockKeeps(s, m);
    case Unlock(m) => UnlockKeeps(s, m);
  }

  lemma YieldEvent(s: State, e: Event)
    requires Inv(s) && Enabled(s, e) && (e == Yield || e == End)
    ensures Inv(Step(s, e))
  {
    YieldKeeps(s, if e == End then {Top(s)} else {});
    assert s.ended + {} == s.ended;
  }

  lemma SignalEvent(s: State, c: nat)
    requires Inv(s) && InUserCode(s)
    ensures Inv(SignalOn(s, UserCond(c)))
  {
    SignalKeeps(s, UserCond(c));
  }

  lemma BroadcastEvent(s: State, c: nat)
    requires Inv(s) && InUserCode(s)
    ensures Inv(BroadcastOn(s, UserCond(c)))
  {
    BroadcastKeeps(s, UserCond(c));
  }

  /** And so does every run: in whatever order epoll reports, timers expire and
      coroutines call, no step touches a wait record that is gone, resumes a
      coroutine that is running or has ended, or loses track of a record. */
  lemma {:induction false} RunKeeps(s: State, es: seq<Event>)
    requires Inv(s) && Runs(s, es)
    ensures Inv(Exec(s, es))
    decreases |es|
  {
    if es != [] {
      StepKeeps(s, es[0]);
      RunKeeps(Step(s, es[0]), es[1..]);
    }
  }

  /** In every reachable state: the call stack starts with the main coroutine and has
      no coroutine twice; the waits belong to different coroutines, none of which is
      on the call stack or has ended; and what is on the wheel or on the active list
      is a live wait, and not on both. */
  lemma Safety(size: nat, now: nat, shared: set<Co>, es: seq<Event>)
    requires 1 <= size && Runs(Init(size, now, shared), es)
    ensures var s := Exec(Init(size, now, shared), es);
            && !s.fault && s.pCallStack != [] && s.pCallStack[0] == MAIN && Distinct(s.pCallStack)
               && Distinct(s.lists.active)
            && (forall r :: r in s.waits ==> s.waits[r].co !in s.pCallStack && s.waits[r].co !in s.ended)
            && (forall q, r :: q in s.waits && r in s.waits && q != r ==> s.waits[q].co != s.waits[r].co)
            && (forall r :: Pending(s.lists, r) ==> r in s.waits && r !in s.lists.active)
            && (forall r :: r in s.lists.active ==> r in s.waits)
            && (forall r :: r in s.waits && s.waits[r].kind.PollWait? && s.waits[r].kind.itemsOnStack ==>
                s.waits[r].co !in s.shared)
  {
    InitInv(size, now, shared);
    RunKeeps(Init(size, now, shared), es);
    var s := Exec(Init(size, now, shared), es);
    forall r | r in s.waits && s.waits[r].kind.PollWait? && s.waits[r].kind.itemsOnStack
      ensures s.waits[r].co !in s.shared
    {
      assert RecOk(s, r, s.waits[r]);
    }
  }
}
