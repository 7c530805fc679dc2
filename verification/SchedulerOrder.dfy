/** In which order timeouts of the same expiry run: that in which their waits began. */
module SchedulerOrder {
  import opened CallStack
  import opened EpollLists
  import opened PollEvents
  import opened Scheduler
  import opened SchedulerInv
  import opened SchedulerTime
  import opened Sequences
  import opened TimerLog
  import opened Wrappers

  /** A live wait whose timer was never put back. */
  predicate Young(waits: map<Rid, Wait>, r: Rid) {
    r in waits && waits[r].refiles == 0
  }

  /** `h` began before all young waits of `s`, if it is young itself. */
  ghost predicate Before(waits: map<Rid, Wait>, h: Rid, s: seq<Entry<Rid>>) {
    Young(waits, h) ==> forall e :: e in s && Young(waits, e.item) ==> h < e.item
  }

  /** The young waits are filed in the order they began. */
  ghost predicate Ordered(waits: map<Rid, Wait>, s: seq<Entry<Rid>>) {
    s != [] ==> Before(waits, s[0].item, s[1..]) && Ordered(waits, s[1..])
  }

  /** A timer that was put back did not fit the wheel when it was filed first. */
  ghost predicate StampOk(s: State, w: Wait) {
    && (w.refiles == 0 ==> w.lastStart == w.firstStart)
    && (w.refiles > 0 ==> w.ullExpireTime - w.firstStart >= Size(s))
  }

  ghost predicate OrderInv(s: State) {
    && Ordered(s.waits, s.lists.timers.log)
    && forall r :: r in s.waits && s.waits[r].timed ==> StampOk(s, s.waits[r])
  }

  // ----- sub-sequences of an ordered log are ordered

  lemma {:induction false} OrderedForget(waits: map<Rid, Wait>, s: seq<Entry<Rid>>, x: Rid)
    requires Ordered(waits, s)
    ensures Ordered(waits, Forget(s, x))
  {
    if s != [] {
      OrderedForget(waits, s[1..], x);
      ForgetMembers(s[1..], x);
      var f := Forget(s[1..], x);
      assert [] + f == f && ([s[0]] + f)[1..] == f;
    }
  }

  lemma {:induction false} OrderedDueAfter(waits: map<Rid, Wait>, s: seq<Entry<Rid>>, now: nat)
    requires Ordered(waits, s)
    ensures Ordered(waits, DueAfter(s, now))
  {
    if s != [] {
      OrderedDueAfter(waits, s[1..], now);
      Members(s[1..], now);
      var f := DueAfter(s[1..], now);
      assert [] + f == f && ([s[0]] + f)[1..] == f;
    }
  }

  lemma {:induction false} OrderedAtTick(waits: map<Rid, Wait>, s: seq<Entry<Rid>>, due: nat)
    requires Ordered(waits, s)
    ensures Ordered(waits, AtTick(s, due))
  {
    if s != [] {
      OrderedAtTick(waits, s[1..], due);
      Members(s[1..], due);
      var f := AtTick(s[1..], due);
      assert [] + f == f && ([s[0]] + f)[1..] == f;
    }
  }

  lemma {:induction false} OrderedFewer(v: map<Rid, Wait>, w: map<Rid, Wait>, s: seq<Entry<Rid>>)
    requires Ordered(v, s) && forall e :: e in s && Young(w, e.item) ==> Young(v, e.item)
    ensures Ordered(w, s)
  {
    if s != [] {
      OrderedFewer(v, w, s[1..]);
    }
  }

  lemma {:induction false} OrderedAppend(waits: map<Rid, Wait>, s: seq<Entry<Rid>>, e: Entry<Rid>)
    requires Ordered(waits, s)
    requires Young(waits, e.item) ==> forall f :: f in s && Young(waits, f.item) ==> f.item < e.item
    ensures Ordered(waits, s + [e])
  {
    if s == [] {
      assert s + [e] == [e];
    } else {
      assert (s + [e])[1..] == s[1..] + [e];
      OrderedAppend(waits, s[1..], e);
    }
  }

  /** Two young waits in an ordered list. */
  lemma {:induction false} OrderedAt(waits: map<Rid, Wait>, s: seq<Entry<Rid>>, i: nat, j: nat)
    requires Ordered(waits, s) && i < j < |s| && Young(waits, s[i].item) && Young(waits, s[j].item)
    ensures s[i].item < s[j].item
  {
    if i == 0 {
      assert s[j] == s[1..][j - 1];
    } else {
      OrderedAt(waits, s[1..], i - 1, j - 1);
    }
  }

  // ----- every step keeps the order

  predicate SameStamps(v: Wait, w: Wait) {
    && w.timed == v.timed && w.ullExpireTime == v.ullExpireTime
    && w.firstStart == v.firstStart && w.lastStart == v.lastStart && w.refiles == v.refiles
  }

  predicate FewerWaits(s: State, t: State) {
    && Size(t) == Size(s)
    && forall r :: r in t.waits ==> r in s.waits && SameStamps(s.waits[r], t.waits[r])
  }

  lemma FewerOrder(s: State, t: State)
    requires OrderInv(s) && FewerWaits(s, t) && t.lists.timers.log == s.lists.timers.log
    ensures OrderInv(t)
  {
    OrderedFewer(s.waits, t.waits, s.lists.timers.log);
    forall r | r in t.waits && t.waits[r].timed ensures StampOk(t, t.waits[r]) {
      assert StampOk(s, s.waits[r]);
    }
  }

  lemma ForgetOrder(s: State, t: State, x: Rid)
    requires OrderInv(s) && FewerWaits(s, t) && t.lists.timers.log == Forget(s.lists.timers.log, x)
    ensures OrderInv(t)
  {
    hide Ordered, Forget;
    OrderedForget(s.waits, s.lists.timers.log, x);
    FewerOrder(s.(lists := t.lists), t);
  }

  lemma ResumeOrder(s: State, co: Co, byLoop: bool)
    requires WaitInv(s) && OrderInv(s) && co !in s.pCallStack && co !in s.ended && |s.pCallStack| < CALL_STACK_SIZE
    ensures OrderInv(ResumeCo(s, co, byLoop))
  {
    hide OrderInv, ResumeCo, Forget, Without;
    var t := ResumeCo(s, co, byLoop);
    if co in s.blocked {
      ResumeEffect(s, co, byLoop);
      if s.waits[s.blocked[co]].kind.PollWait? {
        ForgetOrder(s, t, s.blocked[co]);
      } else {
        FewerOrder(s, t);
      }
    } else {
      ResumeOther(s, co, byLoop);
      FewerOrder(s, t);
    }
  }

  lemma ResumeOther(s: State, co: Co, byLoop: bool)
    requires co !in s.blocked && co !in s.pCallStack && co !in s.ended && |s.pCallStack| < CALL_STACK_SIZE
    ensures var t := ResumeCo(s, co, byLoop); t.waits == s.waits && t.lists == s.lists
  {
  }

  lemma SignalOrder(s: State, c: Cond)
    requires OrderInv(s)
    ensures OrderInv(SignalOn(s, c))
  {
    hide OrderInv, Forget, Without;
    var t := SignalOn(s, c);
    if Queue(s, c) != [] && Queue(s, c)[0] in s.waits {
      ForgetOrder(s, t, Queue(s, c)[0]);
    } else {
      FewerOrder(s, t);
    }
  }

  lemma {:induction false} BroadcastOrder(s: State, c: Cond)
    requires OrderInv(s)
    ensures OrderInv(BroadcastOn(s, c))
    decreases |Queue(s, c)|
  {
    if Queue(s, c) != [] {
      SignalOrder(s, c);
      hide OrderInv;
      BroadcastOrder(SignalOn(s, c), c);
    }
  }

  lemma ReportOrder(s: State, fd: int, events: bv32)
    requires OrderInv(s)
    ensures OrderInv(ReportFd(s, fd, events))
  {
    hide OrderInv, Forget, Without, EpollEvent2Poll;
    var t := ReportFd(s, fd, events);
    if t.lists == s.lists {
      FewerOrder(s, t);
    } else {
      ForgetOrder(s, t, s.regs[fd].rid);
    }
  }

  lemma TakeOrder(s: State, now: nat)
    requires TimeInv(s) && OrderInv(s)
    ensures OrderInv(TakeAt(s, now))
  {
    hide Ordered, DueAfter, Expired;
    OrderedDueAfter(s.waits, s.lists.timers.log, now);
    var t := TakeAt(s, now);
    FewerOrder(s.(lists := t.lists), t);
  }

  /** A timer filed for the first time is the youngest. */
  lemma ArmOrder(s: State, t: State, expire: nat, now: nat)
    requires OrderInv(s) && TimeInv(s) && WaitInv(s) && LinkInv(s) && s.nextRid !in s.waits
             && t.lists == Arm(s.lists, s.nextRid, expire, now).0
    requires if Arm(s.lists, s.nextRid, expire, now).1 != Added then t.waits == s.waits
             else
               && s.nextRid in t.waits && t.waits == s.waits[s.nextRid := t.waits[s.nextRid]]
               && t.waits[s.nextRid].refiles == 0 && t.waits[s.nextRid].lastStart == t.waits[s.nextRid].firstStart
    ensures OrderInv(t)
  {
    hide Ordered, Good;
    var log := s.lists.timers.log;
    if Arm(s.lists, s.nextRid, expire, now).1 == Added {
      var e := Entry(s.nextRid, FiledAt(Size(s), Start(s), expire));
      forall f | f in log ensures f.item in s.waits && f.item < s.nextRid {
        assert DueAt(s.lists, f.item, f.due);
        PendingIsDue(s.lists, f.item);
      }
      OrderedFewer(s.waits, t.waits, log);
      OrderedAppend(t.waits, log, e);
      assert t.lists.timers.log == log + [e];
    }
    forall r | r in t.waits && t.waits[r].timed ensures StampOk(t, t.waits[r]) {
      assert r in s.waits ==> StampOk(s, s.waits[r]);
    }
  }

  lemma PollOrder(s: State, fds: seq<PollFd>, timeout: int, now: nat, accepted: set<int>)
    requires Inv(s) && TimeInv(s) && OrderInv(s) && CanYield(s)
    ensures OrderInv(PollCo(s, fds, timeout, now, accepted))
  {
    hide OrderInv, TimeInv, Arm, Register, LinkInv, RecInv;
    var expire := ExpireTime(now, if timeout > MAX_TIMEOUT then MAX_TIMEOUT else timeout);
    var t := PollCo(s, fds, timeout, now, accepted);
    ArmOrder(s, t, expire, now);
  }

  lemma WaitOrder(s: State, c: Cond, ms: int, now: nat)
    requires Inv(s) && TimeInv(s) && OrderInv(s) && CanYield(s)
    ensures OrderInv(WaitOn(s, c, ms, now))
  {
    hide TimeInv, Arm, LinkInv, RecInv, Ordered, StampOk;
    var t := WaitOn(s, c, ms, now);
    if ms > 0 {
      ArmOrder(s, t, ExpireTime(now, ms), now);
    } else {
      UntimedOrder(s, t);
    }
  }

  lemma UntimedOrder(s: State, t: State)
    requires OrderInv(s) && Inv(s) && s.nextRid !in s.waits && t.lists == s.lists
    requires s.nextRid in t.waits && t.waits == s.waits[s.nextRid := t.waits[s.nextRid]] && !t.waits[s.nextRid].timed
    ensures OrderInv(t)
  {
    hide Ordered, Good, RecInv;
    var log := s.lists.timers.log;
    forall f | f in log ensures f.item in s.waits {
      assert DueAt(s.lists, f.item, f.due);
      PendingIsDue(s.lists, f.item);
    }
    OrderedFewer(s.waits, t.waits, log);
    forall r | r in t.waits && t.waits[r].timed ensures StampOk(t, t.waits[r]) {
      assert StampOk(s, s.waits[r]);
    }
  }

  lemma RefileOrder(s: State)
    requires Inv(s) && TimeInv(s) && OrderInv(s) && CanDrain(s)
    requires var w := s.waits[s.lists.active[0]]; w.bTimeout && s.phase.now < w.ullExpireTime
    ensures OrderInv(DrainOne(s))
  {
    hide Ordered, Good, Inv, TimeInv, LinkInv, RecInv;
    var r := s.lists.active[0];
    var t := DrainOne(s);
    RefileFacts(s);
    RefileSucceeds(s);
    EarlyIsClamped(s, r);
    assert StampOk(s, s.waits[r]);
    var log := s.lists.timers.log;
    var e := Entry(r, FiledAt(Size(s), Start(s), s.waits[r].ullExpireTime));
    assert t.lists.timers.log == log + [e];
    OrderedFewer(s.waits, t.waits, log);
    OrderedAppend(t.waits, log, e);
    forall x | x in t.waits && t.waits[x].timed ensures StampOk(t, t.waits[x]) {
      assert StampOk(s, s.waits[x]);
    }
  }

  lemma DrainOrder(s: State)
    requires Inv(s) && TimeInv(s) && OrderInv(s) && CanDrain(s)
    ensures OrderInv(DrainOne(s))
  {
    var r := s.lists.active[0];
    assert r in s.lists.active && r in s.waits;
    var w := s.waits[r];
    if w.bTimeout && s.phase.now < w.ullExpireTime {
      RefileOrder(s);
    } else {
      var u := s.(lists := Pop(s.lists));
      hide Ordered, Good, Pending, LinkInv, RecInv, ResumeCo;
      FewerOrder(s, u);
      ResumeOrder(u, w.co, true);
    }
  }

  lemma StepOrder(s: State, e: Event)
    requires Inv(s) && TimeInv(s) && OrderInv(s) && Enabled(s, e)
    ensures OrderInv(Step(s, e))
  {
    hide Inv, TimeInv, OrderInv, ResumeCo, PollCo, WaitOn, SignalOn, BroadcastOn, ReportFd, TakeAt, DrainOne;
    match e
    case Report(fd, events) => ReportOrder(s, fd, events);
    case TakeTimeouts(now) => TakeOrder(s, now);
    case Drain => DrainOrder(s);
    case Resume(co) => UserResumeOrder(s, co);
    case Poll(fds, timeout, now, accepted) => PollOrder(s, fds, timeout, now, accepted);
    case TimedWait(c, ms, now) => WaitOrder(s, UserCond(c), ms, now);
    case Signal(c) => SignalOrder(s, UserCond(c));
    case Broadcast(c) => BroadcastOrder(s, UserCond(c));
    case Lock(m) => LockOrder(s, m);
    case Unlock(m) => UnlockOrder(s, m);
    case _ => FewerOrder(s, Step(s, e));
  }

  lemma UserResumeOrder(s: State, co: Co)
    requires Inv(s) && OrderInv(s) && CanResume(s, co)
    ensures OrderInv(ResumeCo(s, co, false))
  {
    hide OrderInv, ResumeCo;
    ResumeOrder(s, co, false);
  }

  lemma LockOrder(s: State, m: nat)
    requires Inv(s) && TimeInv(s) && OrderInv(s) && CanLock(s, m)
    ensures OrderInv(LockCo(s, m))
  {
    hide Inv, TimeInv, OrderInv, WaitOn;
    var mu := MutexOf(s, m);
    var mu' := mu.(m_iWaitItemCnt := mu.m_iWaitItemCnt + 1, arrivals := mu.arrivals + [Top(s)]);
    var u := s.(mutexes := s.mutexes[m := mu']);
    if mu.m_iWaitItemCnt > 0 {
      MutexKeeps(s, m, mu');
      OnlyMutexTime(s, m, mu');
      FewerOrder(s, u);
      WaitOrder(u, MutexCond(m), -1, s.clock);
    } else {
      FewerOrder(s, LockCo(s, m));
    }
  }

  lemma UnlockOrder(s: State, m: nat)
    requires OrderInv(s)
    ensures OrderInv(UnlockCo(s, m))
  {
    hide OrderInv, SignalOn;
    var mu := MutexOf(s, m);
    var q := Queue(s, MutexCond(m));
    var mu' := mu.(m_iWaitItemCnt := mu.m_iWaitItemCnt - 1, owner := None, unlocks := mu.unlocks + 1,
                   pending := if q == [] then None else Some(q[0]));
    var u := s.(mutexes := s.mutexes[m := mu']);
    FewerOrder(s, u);
    SignalOrder(u, MutexCond(m));
  }

  lemma {:induction false} RunOrder(s: State, es: seq<Event>)
    requires Inv(s) && TimeInv(s) && OrderInv(s) && TimelyRuns(s, es)
    ensures Runs(s, es) && OrderInv(Exec(s, es))
    decreases |es|
  {
    hide Inv, TimeInv, OrderInv, Step, Enabled, Timely;
    if es != [] {
      StepKeeps(s, es[0]);
      StepTime(s, es[0]);
      StepOrder(s, es[0]);
      RunOrder(Step(s, es[0]), es[1..]);
    }
  }

  // ----- what follows for the passes of the event loop

  lemma {:induction false} AtTickPlaces(s: seq<Entry<Rid>>, i: nat, j: nat) returns (a: nat, b: nat)
    requires i < j < |s| && s[i].due == s[j].due
    ensures var f := AtTick(s, s[i].due); a < b < |f| && f[a] == s[i] && f[b] == s[j]
  {
    var f := AtTick(s[1..], s[i].due);
    if i == 0 {
      var k := AtTickPlace(s[1..], j - 1);
      a, b := 0, k + 1;
    } else {
      a, b := AtTickPlaces(s[1..], i - 1, j - 1);
      if s[0].due == s[i].due {
        a, b := a + 1, b + 1;
      } else {
        assert [] + f == f;
      }
    }
  }

  lemma {:induction false} AtTickPlace(s: seq<Entry<Rid>>, i: nat) returns (a: nat)
    requires i < |s|
    ensures a < |AtTick(s, s[i].due)| && AtTick(s, s[i].due)[a] == s[i]
  {
    if i == 0 {
      a := 0;
    } else {
      a := AtTickPlace(s[1..], i - 1);
      if s[0].due == s[i].due {
        a := a + 1;
      } else {
        var f := AtTick(s[1..], s[i].due);
        assert [] + f == f;
      }
    }
  }

  /** `r` runs before `q`: it expires earlier, or at the same time and began earlier. */
  predicate Earlier(s: State, r: Rid, q: Rid)
    requires r in s.waits && q in s.waits
  {
    s.waits[r].ullExpireTime < s.waits[q].ullExpireTime
      || (s.waits[r].ullExpireTime == s.waits[q].ullExpireTime && r < q)
  }

  /** `r` fitted the wheel when its wait began. */
  predicate Fits(s: State, r: Rid) {
    r in s.waits && s.waits[r].ullExpireTime - s.waits[r].firstStart < Size(s)
  }

  lemma FittingIsYoung(s: State, r: Rid)
    requires Inv(s) && TimeInv(s) && OrderInv(s) && Pending(s.lists, r) && Fits(s, r)
    ensures Young(s.waits, r) && s.waits[r].timed && s.waits[r].lastStart == s.waits[r].firstStart
  {
    assert RecOk(s, r, s.waits[r]) && StampOk(s, s.waits[r]);
  }

  /** What is taken, with its expiry. */
  lemma TakenExpiry(s: State, now: nat, e: Entry<Rid>)
    requires Inv(s) && TimeInv(s) && OrderInv(s) && e in s.lists.timers.log && Fits(s, e.item)
    ensures Young(s.waits, e.item) && s.waits[e.item].ullExpireTime == e.due
  {
    assert DueAt(s.lists, e.item, e.due);
    PendingIsDue(s.lists, e.item);
    FittingIsYoung(s, e.item);
    assert FiledOk(s, s.waits[e.item]);
  }

  lemma SortedPair(s: seq<Entry<Rid>>, i: nat, j: nat)
    requires Sorted(s) && i < j < |s|
    ensures s[i].due <= s[j].due
  {
  }

  lemma TiesInOrder(s: State, now: nat, i: nat, j: nat)
    requires Ordered(s.waits, s.lists.timers.log)
    requires var out := SortByDue(DueBy(s.lists.timers.log, now));
             i < j < |out| && out[i].due == out[j].due <= now && Young(s.waits, out[i].item)
               && Young(s.waits, out[j].item)
    ensures var out := SortByDue(DueBy(s.lists.timers.log, now)); out[i].item < out[j].item
  {
    hide Ordered, SortByDue, DueBy, AtTick;
    var log := s.lists.timers.log;
    var out := SortByDue(DueBy(log, now));
    var d := out[i].due;
    SortIsStable(DueBy(log, now), d);
    AtTickSub(log, now, d);
    OrderedAtTick(s.waits, log, d);
    var a, b := AtTickPlaces(out, i, j);
    OrderedAt(s.waits, AtTick(log, d), a, b);
  }

  lemma StableFacts(s: State, now: nat)
    requires Inv(s) && TimeInv(s) && OrderInv(s) && CanTake(s) && s.clock <= now
    requires forall r :: r in s.waits && Pending(s.lists, r) ==> Fits(s, r)
    ensures Ordered(s.waits, s.lists.timers.log) && forall e :: e in s.lists.timers.log ==> Fits(s, e.item)
    ensures TakeAt(s, now).lists.active == s.lists.active + Expired(s.lists.timers, now)
    ensures forall r :: Pending(s.lists, r) ==> r in s.waits && exists e :: e in s.lists.timers.log && e.item == r
    ensures forall e :: e in s.lists.timers.log ==> Pending(s.lists, e.item)
  {
    hide Ordered, SortByDue, DueBy, Names, Good, RecInv, DueInv;
    forall e | e in s.lists.timers.log ensures Fits(s, e.item) && Pending(s.lists, e.item) {
      NamesMembers(s.lists.timers.log, e.item);
    }
    forall r | Pending(s.lists, r) ensures exists e :: e in s.lists.timers.log && e.item == r {
      NamesMembers(s.lists.timers.log, r);
    }
  }

  /** What a pass takes, as entries of the wheel. */
  lemma TakenEntries(s: State, now: nat) returns (out: seq<Entry<Rid>>)
    ensures out == SortByDue(DueBy(s.lists.timers.log, now)) && Sorted(out)
    ensures var taken := Expired(s.lists.timers, now);
            |taken| == |out| && forall i :: 0 <= i < |out| ==> taken[i] == out[i].item
    ensures forall e :: e in out <==> e in s.lists.timers.log && e.due <= now
  {
    hide Sorted, SortByDue, DueBy;
    var due := DueBy(s.lists.timers.log, now);
    out := SortByDue(due);
    SortIsStable(due, 0);
    Members(s.lists.timers.log, now);
  }

  lemma TakenInOrder(s: State, now: nat)
    requires Inv(s) && TimeInv(s) && OrderInv(s) && Ordered(s.waits, s.lists.timers.log)
    requires forall e :: e in s.lists.timers.log ==> Fits(s, e.item)
    ensures var taken := Expired(s.lists.timers, now);
            && (forall i :: 0 <= i < |taken| ==> taken[i] in s.waits)
            && (forall i, j :: 0 <= i < j < |taken| ==> Earlier(s, taken[i], taken[j]))
  {
    hide Inv, TimeInv, OrderInv, Ordered, SortByDue, DueBy, Expired, Fits, Young, Sorted;
    var taken := Expired(s.lists.timers, now);
    var out := TakenEntries(s, now);
    forall i | 0 <= i < |out|
      ensures taken[i] in s.waits && Young(s.waits, taken[i]) && s.waits[taken[i]].ullExpireTime == out[i].due <= now
    {
      assert out[i] in out;
      TakenExpiry(s, now, out[i]);
      YoungIsLive(s.waits, taken[i]);
    }
    forall i, j | 0 <= i < j < |taken| ensures Earlier(s, taken[i], taken[j]) {
      SortedPair(out, i, j);
      if out[i].due == out[j].due {
        TiesInOrder(s, now, i, j);
      }
    }
  }

  lemma YoungIsLive(waits: map<Rid, Wait>, r: Rid)
    requires Young(waits, r)
    ensures r in waits
  {
  }

  lemma TakenExactly(s: State, now: nat, r: Rid)
    requires Inv(s) && TimeInv(s) && OrderInv(s)
    requires forall e :: e in s.lists.timers.log ==> Fits(s, e.item) && Pending(s.lists, e.item)
    requires Pending(s.lists, r) ==> r in s.waits && exists e :: e in s.lists.timers.log && e.item == r
    ensures r in Expired(s.lists.timers, now) <==>
            Pending(s.lists, r) && r in s.waits && s.waits[r].ullExpireTime <= now
  {
    hide Inv, TimeInv, OrderInv, Ordered, SortByDue, DueBy, Expired, Fits, Young, Pending, Sorted;
    var taken := Expired(s.lists.timers, now);
    var out := TakenEntries(s, now);
    if r in taken {
      var i :| 0 <= i < |taken| && taken[i] == r;
      assert out[i] in out;
      TakenExpiry(s, now, out[i]);
    }
    if Pending(s.lists, r) && s.waits[r].ullExpireTime <= now {
      var e :| e in s.lists.timers.log && e.item == r;
      TakenExpiry(s, now, e);
      assert e in out;
      var i :| 0 <= i < |out| && out[i] == e;
      assert taken[i] == r;
    }
  }

  lemma TakenStably(s: State, now: nat)
    requires Inv(s) && TimeInv(s) && OrderInv(s) && CanTake(s) && s.clock <= now
    requires forall r :: r in s.waits && Pending(s.lists, r) ==> Fits(s, r)
    ensures var taken := Expired(s.lists.timers, now);
            && (forall i :: 0 <= i < |taken| ==> taken[i] in s.waits)
            && (forall i, j :: 0 <= i < j < |taken| ==> Earlier(s, taken[i], taken[j]))
            && (forall r :: r in taken <==> Pending(s.lists, r) && r in s.waits && s.waits[r].ullExpireTime <= now)
  {
    hide Inv, TimeInv, OrderInv, Ordered, Expired, Fits, Pending, Earlier, TakeAt;
    StableFacts(s, now);
    TakenInOrder(s, now);
    forall r
      ensures r in Expired(s.lists.timers, now) <==>
              Pending(s.lists, r) && r in s.waits && s.waits[r].ullExpireTime <= now
    {
      TakenExactly(s, now, r);
    }
  }

  /** In `t` the active list is what it was in `s`, and then the timeouts of `s` that
      expire by `now`, each before those that expire later or began later. */
  ghost predicate StablePass(s: State, t: State, now: nat) {
    var n := |s.lists.active|;
    && s.lists.active <= t.lists.active && (forall i :: 0 <= i < |t.lists.active| ==> t.lists.active[i] in s.waits)
    && (forall i, j :: n <= i < j < |t.lists.active| ==> Earlier(s, t.lists.active[i], t.lists.active[j]))
    && (forall r :: r in t.lists.active[n..] <==>
        Pending(s.lists, r) && r in s.waits && s.waits[r].ullExpireTime <= now)
  }

  lemma TakesStably(s: State, now: nat)
    requires Inv(s) && TimeInv(s) && OrderInv(s) && CanTake(s) && s.clock <= now
    requires forall r :: r in s.waits && Pending(s.lists, r) ==> Fits(s, r)
    ensures StablePass(s, TakeAt(s, now), now)
  {
    hide TimeInv, OrderInv, TakeAt, Expired, Earlier, Fits, Pending, RecInv;
    TakenStably(s, now);
    StableFacts(s, now);
    Stacked(s, TakeAt(s, now), Expired(s.lists.timers, now));
  }

  lemma Stacked(s: State, t: State, taken: seq<Rid>)
    requires t.lists.active == s.lists.active + taken && LinkInv(s)
    requires (forall i :: 0 <= i < |taken| ==> taken[i] in s.waits) && forall i, j :: 0 <= i < j < |taken| ==>
             Earlier(s, taken[i], taken[j])
    ensures var n := |s.lists.active|;
            && s.lists.active <= t.lists.active && t.lists.active[n..] == taken
            && (forall i :: 0 <= i < |t.lists.active| ==> t.lists.active[i] in s.waits)
            && (forall i, j :: n <= i < j < |t.lists.active| ==> Earlier(s, t.lists.active[i], t.lists.active[j]))
  {
    hide Good, Pending, RegOk, Earlier;
    var n := |s.lists.active|;
    forall i | 0 <= i < |t.lists.active| ensures t.lists.active[i] in s.waits {
      if i < n { assert t.lists.active[i] in s.lists.active; } else { assert t.lists.active[i] == taken[i - n]; }
    }
    forall i, j | n <= i < j < |t.lists.active| ensures Earlier(s, t.lists.active[i], t.lists.active[j]) {
      assert t.lists.active[i] == taken[i - n] && t.lists.active[j] == taken[j - n];
    }
  }

  /** The draining loop takes the active list from its head: unless the record there is
      a timer that came too early, its coroutine runs next, and its wait is over. */
  lemma DrainsHead(s: State)
    requires Inv(s) && CanDrain(s)
    requires var w := s.waits[s.lists.active[0]]; !(w.bTimeout && s.phase.now < w.ullExpireTime)
    ensures var r := s.lists.active[0]; var t := DrainOne(s);
            && r in s.waits && t.pCallStack == [MAIN, s.waits[r].co] && t.lists.active == s.lists.active[1..]
            && t.waits == s.waits - {r} && t.log == s.log + [Resumption(r, s.waits[r], true, s.clock, s.pass)]
  {
    var r := s.lists.active[0];
    assert r in s.lists.active && r in s.waits;
    PopMoves(s.lists);
    var u := s.(lists := Pop(s.lists));
    hide Good, Pending, LinkInv, RecInv, Without, Forget, ResumeCo;
    ResumeEffect(u, s.waits[r].co, true);
    WithoutAbsent(s.lists.active[1..], r);
  }

  /** Over every run with a clock that does not go back, while all pending timeouts fit
      the span of the wheel, a pass is a stable sort by expiry: after what is ready
      already it appends exactly the timeouts that have expired, by expiry and, where
      that is equal, in the order in which the waits began. */
  lemma StableTimeouts(size: nat, start: nat, shared: set<Co>, es: seq<Event>, now: nat)
    requires 1 <= size && 0 < start && TimelyRuns(Init(size, start, shared), es)
    ensures Runs(Init(size, start, shared), es)
    ensures var s := Exec(Init(size, start, shared), es);
            CanTake(s) && s.clock <= now && (forall r :: r in s.waits && Pending(s.lists, r) ==> Fits(s, r)) ==>
              StablePass(s, TakeAt(s, now), now)
  {
    InitInv(size, start, shared);
    InitTime(size, start, shared);
    RunTime(Init(size, start, shared), es);
    RunOrder(Init(size, start, shared), es);
    var s := Exec(Init(size, start, shared), es);
    if CanTake(s) && s.clock <= now && forall r :: r in s.waits && Pending(s.lists, r) ==> Fits(s, r) {
      TakesStably(s, now);
    }
  }
}
