/** clsCoMutex over every run of the scheduler: mutual exclusion, first come first
    served, and no waiter forgotten. */
module SchedulerMutex {
  import opened CallStack
  import opened Sequences
  import opened TimerLog
  import opened EpollLists
  import opened PollEvents
  import opened Scheduler
  import opened SchedulerInv
  import opened Wrappers

  /** The coroutines of the wait records in `q`. */
  function Cos(waits: map<Rid, Wait>, q: seq<Rid>): seq<Co> {
    if q == [] then [] else (if q[0] in waits then [waits[q[0]].co] else []) + Cos(waits, q[1..])
  }

  /** Who has asked for the mutex and not got it yet, in order: the coroutine it was
      handed to but that has not run yet, then the queue. */
  function Waiting(s: State, m: nat): seq<Co> {
    var mu := MutexOf(s, m);
    (if mu.pending.Some? then Cos(s.waits, [mu.pending.value]) else []) + Cos(s.waits, Queue(s, MutexCond(m)))
  }

  predicate WaitsFor(w: Wait, m: nat) {
    w.kind == CondWait(MutexCond(m))
  }

  predicate ForMutex(w: Wait) {
    w.kind.CondWait? && w.kind.cond.MutexCond?
  }

  ghost predicate MutexOk(s: State, m: nat, mu: Mutex, q: seq<Rid>) {
    && mu.m_iWaitItemCnt == |q| + (if mu.owner.Some? || mu.pending.Some? then 1 else 0)
    && !(mu.owner.Some? && mu.pending.Some?)
    && (mu.owner.None? && mu.pending.None? ==> q == [])
    && (mu.pending.Some? ==>
          var r := mu.pending.value; r in s.waits && WaitsFor(s.waits[r], m) && r !in q)
    && (forall r :: r in s.waits && WaitsFor(s.waits[r], m) && r !in q ==> mu.pending == Some(r))
    && mu.arrivals == mu.grants + Waiting(s, m)
    && mu.unlocks + (if mu.owner.Some? then 1 else 0) == |mu.grants|
    && (mu.owner.Some? ==> mu.grants != [] && mu.owner.value == mu.grants[|mu.grants| - 1])
  }

  ghost predicate MutexInv(s: State) {
    forall m: nat {:trigger MutexOf(s, m)} :: MutexOk(s, m, MutexOf(s, m), Queue(s, MutexCond(m)))
  }

  // ----- steps that do not concern the mutexes

  lemma {:induction false} SameCos(v: map<Rid, Wait>, w: map<Rid, Wait>, q: seq<Rid>)
    requires forall r :: r in q ==> r in v && r in w && v[r].co == w[r].co
    ensures Cos(v, q) == Cos(w, q)
  {
    if q != [] {
      assert q[0] in q;
      SameCos(v, w, q[1..]);
    }
  }

  /** `t` has the same mutexes, queues and mutex waiters as `s`. */
  ghost predicate SameMutexes(s: State, t: State) {
    && t.mutexes == s.mutexes
    && (forall m: nat :: Queue(t, MutexCond(m)) == Queue(s, MutexCond(m)))
    && (forall r, m: nat :: r in s.waits && WaitsFor(s.waits[r], m) ==> r in t.waits && t.waits[r].co == s.waits[r].co)
    && (forall r, m: nat :: r in t.waits && WaitsFor(t.waits[r], m) ==> r in s.waits && WaitsFor(s.waits[r], m))
    && (forall r, m: nat :: r in s.waits && WaitsFor(s.waits[r], m) && r in t.waits ==> WaitsFor(t.waits[r], m))
  }

  lemma OtherMutexes(s: State, t: State)
    requires MutexInv(s) && LinkInv(s) && SameMutexes(s, t)
    ensures MutexInv(t)
  {
    hide Good, Pending;
    forall m: nat ensures MutexOk(t, m, MutexOf(t, m), Queue(t, MutexCond(m))) {
      OneMutexSame(s, t, m);
    }
  }

  lemma OneMutexSame(s: State, t: State, m: nat)
    requires MutexOk(s, m, MutexOf(s, m), Queue(s, MutexCond(m))) && LinkInv(s) && SameMutexes(s, t)
    ensures MutexOk(t, m, MutexOf(t, m), Queue(t, MutexCond(m)))
  {
    var mu, q := MutexOf(s, m), Queue(s, MutexCond(m));
    assert MutexOf(t, m) == mu && Queue(t, MutexCond(m)) == q;
    forall r | r in q ensures r in t.waits && r in s.waits && s.waits[r].co == t.waits[r].co {
      assert MutexCond(m) in s.conds && r in s.conds[MutexCond(m)] && WaitsFor(s.waits[r], m);
    }
    SameCos(s.waits, t.waits, q);
    hide Good, Pending, LinkInv;
    if mu.pending.Some? {
      SameCos(s.waits, t.waits, [mu.pending.value]);
    }
  }

  /** One record that is not a mutex waiter is new or changed. */
  lemma OneRecord(s: State, t: State, r: Rid)
    requires MutexInv(s) && LinkInv(s) && t.mutexes == s.mutexes
    requires r in t.waits && t.waits == s.waits[r := t.waits[r]] && !ForMutex(t.waits[r])
    requires r in s.waits ==> !ForMutex(s.waits[r])
    requires forall m: nat :: Queue(t, MutexCond(m)) == Queue(s, MutexCond(m))
    ensures MutexInv(t)
  {
    hide MutexInv, LinkInv;
    OtherMutexes(s, t);
  }

  /** Signals to user conditions, timeouts, reports and polls are such steps. */
  lemma UserSignal(s: State, c: nat)
    requires Inv(s) && MutexInv(s)
    ensures MutexInv(SignalOn(s, UserCond(c)))
  {
    hide MutexInv, RecInv, WaitInv, StackInv, Ready, LinkInv;
    var d := UserCond(c);
    QueuedFacts(s, d);
    OtherMutexes(s, SignalOn(s, d));
  }

  lemma QueuedFacts(s: State, c: Cond)
    requires LinkInv(s)
    ensures Queue(s, c) != [] ==> Queue(s, c)[0] in s.waits && s.waits[Queue(s, c)[0]].kind == CondWait(c)
  {
    if Queue(s, c) != [] {
      assert c in s.conds && Queue(s, c)[0] in s.conds[c];
    }
  }

  lemma {:induction false} UserBroadcast(s: State, c: nat)
    requires Inv(s) && MutexInv(s) && !s.phase.Preparing?
    ensures MutexInv(BroadcastOn(s, UserCond(c)))
    decreases |Queue(s, UserCond(c))|
  {
    if Queue(s, UserCond(c)) != [] {
      UserSignal(s, c);
      SignalKeeps(s, UserCond(c));
      UserBroadcast(SignalOn(s, UserCond(c)), c);
    }
  }

  // ----- the mutex operations

  /** A mutex changes; the others see the same queues and waiters. */
  lemma ButOne(s: State, t: State, m: nat, mu: Mutex)
    requires MutexInv(s) && LinkInv(s) && t.mutexes == s.mutexes[m := mu]
    requires forall k: nat :: k != m ==> Queue(t, MutexCond(k)) == Queue(s, MutexCond(k))
    requires forall r, k: nat :: k != m && r in s.waits && WaitsFor(s.waits[r], k) ==>
               r in t.waits && t.waits[r].co == s.waits[r].co && WaitsFor(t.waits[r], k)
    requires forall r, k: nat :: k != m && r in t.waits && WaitsFor(t.waits[r], k) ==>
             r in s.waits && WaitsFor(s.waits[r], k)
    requires MutexOk(t, m, mu, Queue(t, MutexCond(m)))
    ensures MutexInv(t)
  {
    hide LinkInv, MutexOk, Queue, WaitsFor, Cos;
    forall k: nat ensures MutexOk(t, k, MutexOf(t, k), Queue(t, MutexCond(k))) {
      if k != m {
        OtherThan(s, t, k);
      }
    }
  }

  lemma OtherThan(s: State, t: State, k: nat)
    requires MutexOk(s, k, MutexOf(s, k), Queue(s, MutexCond(k))) && LinkInv(s)
    requires MutexOf(t, k) == MutexOf(s, k) && Queue(t, MutexCond(k)) == Queue(s, MutexCond(k))
    requires forall r :: r in s.waits && WaitsFor(s.waits[r], k) ==>
             r in t.waits && t.waits[r].co == s.waits[r].co && WaitsFor(t.waits[r], k)
    requires forall r :: r in t.waits && WaitsFor(t.waits[r], k) ==> r in s.waits && WaitsFor(s.waits[r], k)
    ensures MutexOk(t, k, MutexOf(t, k), Queue(t, MutexCond(k)))
  {
    hide Good, Pending;
    var v, q := MutexOf(s, k), Queue(s, MutexCond(k));
    forall r | r in q ensures r in t.waits && r in s.waits && s.waits[r].co == t.waits[r].co {
      assert MutexCond(k) in s.conds && r in s.conds[MutexCond(k)] && WaitsFor(s.waits[r], k);
    }
    SameCos(s.waits, t.waits, q);
    if v.pending.Some? {
      SameCos(s.waits, t.waits, [v.pending.value]);
    }
  }

  lemma {:induction false} CosConcat(w: map<Rid, Wait>, p: seq<Rid>, q: seq<Rid>)
    ensures Cos(w, p + q) == Cos(w, p) + Cos(w, q)
  {
    if p == [] {
      assert p + q == q;
    } else {
      assert (p + q)[1..] == p[1..] + q;
      CosConcat(w, p[1..], q);
    }
  }

  /** CoLock on a free mutex: the caller owns it. */
  lemma LockFree(s: State, m: nat)
    requires Inv(s) && MutexInv(s) && CanLock(s, m) && MutexOf(s, m).m_iWaitItemCnt <= 0
    ensures MutexInv(LockCo(s, m))
  {
    var t := LockCo(s, m);
    var mu := MutexOf(s, m);
    assert MutexOk(s, m, mu, Queue(s, MutexCond(m)));
    assert Queue(t, MutexCond(m)) == Queue(s, MutexCond(m)) == [];
    assert mu.arrivals == mu.grants + [];
    hide Good, Pending, RecInv, WaitInv, StackInv;
    ButOne(s, t, m, t.mutexes[m]);
  }

  lemma IsOk(s: State, m: nat)
    requires MutexInv(s)
    ensures MutexOk(s, m, MutexOf(s, m), Queue(s, MutexCond(m)))
  {
  }

  lemma CanBlock(s: State, m: nat)
    requires Inv(s) && CanLock(s, m) && MutexOf(s, m).m_iWaitItemCnt > 0
    ensures s.nextRid !in s.waits && |s.pCallStack| > 1
  {
  }

  /** CoLock on a mutex that is taken: the caller waits behind all others. */
  lemma LockTaken(s: State, m: nat)
    requires Inv(s) && MutexInv(s) && CanLock(s, m) && MutexOf(s, m).m_iWaitItemCnt > 0
    ensures MutexInv(LockCo(s, m))
  {
    hide Good, Pending, RecInv, WaitInv, StackInv, LinkInv, MutexInv, LockCo;
    IsOk(s, m);
    CanBlock(s, m);
    var t := LockCo(s, m);
    LockTakenEffect(s, m);
    var w := t.waits[s.nextRid];
    LockTakenWaiting(s, t, m, w);
    LockTakenOk(s, t, m, w);
    ButOne(s, t, m, t.mutexes[m]);
  }

  lemma LockTakenEffect(s: State, m: nat)
    requires CanLock(s, m) && |s.pCallStack| > 1 && MutexOf(s, m).m_iWaitItemCnt > 0
    ensures var t := LockCo(s, m); var mu := MutexOf(s, m);
            && s.nextRid in t.waits && t.waits == s.waits[s.nextRid := t.waits[s.nextRid]]
            && WaitsFor(t.waits[s.nextRid], m) && t.waits[s.nextRid].co == Top(s)
            && t.conds == s.conds[MutexCond(m) := Queue(s, MutexCond(m)) + [s.nextRid]]
            && t.mutexes == s.mutexes[m := mu.(m_iWaitItemCnt := mu.m_iWaitItemCnt + 1,
               arrivals := mu.arrivals + [Top(s)])]
  {
  }

  lemma LockTakenWaiting(s: State, t: State, m: nat, w: Wait)
    requires LinkInv(s) && MutexOk(s, m, MutexOf(s, m), Queue(s, MutexCond(m))) && s.nextRid !in s.waits
    requires t.waits == s.waits[s.nextRid := w] && MutexOf(t, m).pending == MutexOf(s, m).pending
    requires Queue(t, MutexCond(m)) == Queue(s, MutexCond(m)) + [s.nextRid]
    ensures Waiting(t, m) == Waiting(s, m) + [w.co]
  {
    hide Good, Pending;
    var c := MutexCond(m);
    var mu, q := MutexOf(s, m), Queue(s, c);
    forall r | r in q ensures r in s.waits {
      assert c in s.conds && r in s.conds[c];
    }
    CosConcat(t.waits, q, [s.nextRid]);
    SameCos(s.waits, t.waits, q);
    LastOne(t.waits, s.nextRid);
    var handed := if mu.pending.Some? then Cos(s.waits, [mu.pending.value]) else [];
    if mu.pending.Some? {
      SameCos(s.waits, t.waits, [mu.pending.value]);
    }
    hide Cos;
    ConcatAssociative(handed, Cos(s.waits, q), [w.co]);
  }

  lemma LastOne(w: map<Rid, Wait>, r: Rid)
    requires r in w
    ensures Cos(w, [r]) == [w[r].co]
  {
  }

  lemma LockTakenOk(s: State, t: State, m: nat, w: Wait)
    requires MutexOk(s, m, MutexOf(s, m), Queue(s, MutexCond(m))) && MutexOf(s, m).m_iWaitItemCnt > 0
    requires s.nextRid !in s.waits && t.waits == s.waits[s.nextRid := w] && WaitsFor(w, m)
    requires Queue(t, MutexCond(m)) == Queue(s, MutexCond(m)) + [s.nextRid]
    requires var mu := MutexOf(s, m);
             MutexOf(t, m) == mu.(m_iWaitItemCnt := mu.m_iWaitItemCnt + 1, arrivals := mu.arrivals + [w.co])
    requires Waiting(t, m) == Waiting(s, m) + [w.co]
    ensures MutexOk(t, m, MutexOf(t, m), Queue(t, MutexCond(m)))
  {
    hide Waiting;
    var mu := MutexOf(s, m);
    ConcatAssociative(mu.grants, Waiting(s, m), [w.co]);
    var q, p := Queue(s, MutexCond(m)), Queue(t, MutexCond(m));
    assert forall r :: r in p <==> r in q || r == s.nextRid;
  }

  /** CoUnLock: the longest waiter, if any, is next. */
  lemma Unlocked(s: State, m: nat)
    requires Inv(s) && MutexInv(s) && CanUnlock(s, m)
    ensures MutexInv(UnlockCo(s, m))
  {
    hide Good, Pending, RecInv, WaitInv, StackInv, UnlockCo, SignalOn, MutexInv, LinkInv;
    IsOk(s, m);
    var t := UnlockCo(s, m);
    UnlockEffect(s, m);
    UnlockWaiting(s, t, m);
    UnlockOk(s, t, m);
    ButOne(s, t, m, t.mutexes[m]);
  }

  lemma UnlockEffect(s: State, m: nat)
    requires LinkInv(s)
    ensures var t := UnlockCo(s, m); var mu := MutexOf(s, m); var q := Queue(s, MutexCond(m));
            && t.waits.Keys == s.waits.Keys
            && (forall r :: r in s.waits ==>
                r in t.waits && t.waits[r].co == s.waits[r].co && t.waits[r].kind == s.waits[r].kind)
            && t.mutexes == s.mutexes[m := mu.(m_iWaitItemCnt := mu.m_iWaitItemCnt - 1, owner := None,
                              unlocks := mu.unlocks + 1, pending := if q == [] then None else Some(q[0]))]
            && (q == [] ==> t.conds == s.conds)
            && (q != [] ==> t.conds == s.conds[MutexCond(m) := q[1..]])
  {
    hide Good, Pending, Ready;
    var q := Queue(s, MutexCond(m));
    if q != [] {
      assert MutexCond(m) in s.conds && q[0] in s.conds[MutexCond(m)];
    }
  }

  lemma UnlockWaiting(s: State, t: State, m: nat)
    requires LinkInv(s) && t.waits.Keys == s.waits.Keys
    requires forall r :: r in s.waits ==> r in t.waits && t.waits[r].co == s.waits[r].co
    requires MutexOf(s, m).pending == None
    requires var q := Queue(s, MutexCond(m));
             if q == [] then Queue(t, MutexCond(m)) == [] && MutexOf(t, m).pending == None
             else Queue(t, MutexCond(m)) == q[1..] && MutexOf(t, m).pending == Some(q[0])
    ensures Waiting(t, m) == Waiting(s, m)
  {
    hide Good, Pending;
    var c := MutexCond(m);
    var q := Queue(s, c);
    if q != [] {
      forall r | r in q ensures r in s.waits {
        assert c in s.conds && r in s.conds[c];
      }
      assert q == [q[0]] + q[1..];
      CosConcat(s.waits, [q[0]], q[1..]);
      SameWaiters(s, t, [q[0]]);
      SameWaiters(s, t, q[1..]);
    }
  }

  lemma UnlockOk(s: State, t: State, m: nat)
    requires LinkInv(s) && MutexOk(s, m, MutexOf(s, m), Queue(s, MutexCond(m))) && MutexOf(s, m).owner.Some?
    requires t.waits.Keys == s.waits.Keys && Waiting(t, m) == Waiting(s, m)
    requires forall r :: r in s.waits ==> r in t.waits && t.waits[r].kind == s.waits[r].kind
    requires var q := Queue(s, MutexCond(m)); var mu := MutexOf(s, m);
             && MutexOf(t, m) == mu.(m_iWaitItemCnt := mu.m_iWaitItemCnt - 1, owner := None, unlocks := mu.unlocks + 1,
                                     pending := if q == [] then None else Some(q[0]))
             && Queue(t, MutexCond(m)) == if q == [] then [] else q[1..]
    ensures MutexOk(t, m, MutexOf(t, m), Queue(t, MutexCond(m)))
  {
    hide Good, Pending, Waiting;
    var c := MutexCond(m);
    var q := Queue(s, c);
    assert forall r :: r in t.waits ==> r in t.waits.Keys;
    if q != [] {
      assert c in s.conds && q[0] in s.conds[c] && Distinct(q);
      assert q == [q[0]] + q[1..] && q[0] !in q[1..];
    }
  }

  lemma SameWaiters(s: State, t: State, q: seq<Rid>)
    requires t.waits.Keys == s.waits.Keys && forall r :: r in q ==> r in s.waits
    requires forall r :: r in s.waits ==> t.waits[r].co == s.waits[r].co
    ensures Cos(t.waits, q) == Cos(s.waits, q)
  {
    assert forall r :: r in s.waits ==> r in s.waits.Keys;
    SameCos(s.waits, t.waits, q);
  }

  /** Switching in the waiter the mutex was handed to: it owns the mutex. */
  lemma Granted(s: State, co: Co, rid: Rid, m: nat, byLoop: bool)
    requires WaitInv(s) && LinkInv(s) && MutexInv(s)
    requires rid in s.waits && WaitsFor(s.waits[rid], m) && s.waits[rid].co == co
    requires rid !in Queue(s, MutexCond(m))
    ensures MutexInv(FinishCond(s, co, rid, byLoop))
    ensures MutexOf(s, m).owner == None && MutexOf(s, m).pending == Some(rid)
            && MutexOf(FinishCond(s, co, rid, byLoop), m).owner == Some(co)
  {
    var c := MutexCond(m);
    var q := Queue(s, c);
    assert MutexOk(s, m, MutexOf(s, m), q);
    WithoutAbsent(q, rid);
    var t := FinishCond(s, co, rid, byLoop);
    assert Queue(t, c) == q && t.waits == s.waits - {rid} && t.mutexes == s.mutexes[m := t.mutexes[m]];
    hide Good, Pending, WaitInv, Without, FinishCond;
    GrantedOk(s, t, co, rid, m);
    hide MutexInv, MutexOk;
    ButOne(s, t, m, t.mutexes[m]);
  }

  lemma GrantedOk(s: State, t: State, co: Co, rid: Rid, m: nat)
    requires LinkInv(s) && MutexOk(s, m, MutexOf(s, m), Queue(s, MutexCond(m)))
    requires rid in s.waits && WaitsFor(s.waits[rid], m) && s.waits[rid].co == co && rid !in Queue(s, MutexCond(m))
    requires t.waits == s.waits - {rid} && Queue(t, MutexCond(m)) == Queue(s, MutexCond(m))
    requires var mu := MutexOf(s, m);
             MutexOf(t, m) == mu.(owner := Some(co), pending := None, grants := mu.grants + [co])
    ensures MutexOk(t, m, MutexOf(t, m), Queue(t, MutexCond(m)))
  {
    hide Good, Pending;
    var c := MutexCond(m);
    var mu, q := MutexOf(s, m), Queue(s, c);
    forall r | r in q ensures r in s.waits && r in t.waits && s.waits[r].co == t.waits[r].co {
      assert c in s.conds && r in s.conds[c];
    }
    SameCos(s.waits, t.waits, q);
    LastOne(s.waits, rid);
    ConcatAssociative(mu.grants, [co], Cos(s.waits, q));
    assert [] + Cos(t.waits, q) == Cos(t.waits, q);
  }

  // ----- every step

  /** Ending a wait on anything but a mutex. */
  lemma OtherEnds(s: State, co: Co, byLoop: bool)
    requires WaitInv(s) && LinkInv(s) && MutexInv(s) && co in s.blocked
    requires co !in s.pCallStack && co !in s.ended && |s.pCallStack| < CALL_STACK_SIZE
    requires !ForMutex(s.waits[s.blocked[co]])
    ensures MutexInv(ResumeCo(s, co, byLoop))
  {
    ResumeEffect(s, co, byLoop);
    hide Good, Pending, WaitInv, MutexInv, ResumeCo, Detach, Without;
    OtherMutexes(s, ResumeCo(s, co, byLoop));
  }

  lemma OnlyStackMutexes(s: State, t: State)
    requires MutexInv(s) && LinkInv(s) && t.mutexes == s.mutexes && t.waits == s.waits && t.conds == s.conds
    ensures MutexInv(t)
  {
    hide Good, Pending, MutexInv;
    OtherMutexes(s, t);
  }

  lemma ResumeMutexes(s: State, co: Co, byLoop: bool)
    requires WaitInv(s) && LinkInv(s) && MutexInv(s)
    requires co !in s.pCallStack && co !in s.ended && |s.pCallStack| < CALL_STACK_SIZE
    requires co in s.blocked && s.waits[s.blocked[co]].kind.CondWait? && s.waits[s.blocked[co]].kind.cond.MutexCond? ==>
               s.blocked[co] !in Queue(s, s.waits[s.blocked[co]].kind.cond)
    ensures MutexInv(ResumeCo(s, co, byLoop))
  {
    if co !in s.blocked {
      OnlyStackMutexes(s, ResumeCo(s, co, byLoop));
    } else {
      var rid := s.blocked[co];
      assert rid in s.waits;
      var w := s.waits[rid];
      if w.kind.CondWait? && w.kind.cond.MutexCond? {
        var u := s.(pCallStack := s.pCallStack + [co], started := s.started + {co});
        assert WaitInv(u);
        LinksSame(s, u);
        hide Good, Pending, WaitInv, LinkInv, MutexInv;
        OnlyStackMutexes(s, u);
        Granted(u, co, rid, w.kind.cond.id, byLoop);
      } else {
        hide Good, Pending, LinkInv, MutexInv, ResumeCo;
        OtherEnds(s, co, byLoop);
      }
    }
  }

  lemma LinksSame(s: State, t: State)
    requires LinkInv(s) && t.lists == s.lists && t.waits == s.waits && t.conds == s.conds && t.regs == s.regs
             && t.phase == s.phase
    ensures LinkInv(t)
  {
    hide Good, Pending;
    forall fd | fd in t.regs ensures RegOk(t, fd, t.regs[fd]) {
      assert RegOk(s, fd, s.regs[fd]);
    }
  }

  lemma DrainMutexes(s: State)
    requires Inv(s) && MutexInv(s) && CanDrain(s)
    ensures MutexInv(DrainOne(s))
  {
    var r := s.lists.active[0];
    assert r in s.lists.active && r in s.waits;
    var w := s.waits[r];
    assert RecOk(s, r, w) && (w.bTimeout ==> !ForMutex(w));
    PopMoves(s.lists);
    ArmMoves(Pop(s.lists), r, w.ullExpireTime, s.phase.now);
    var (armed, res) := Arm(Pop(s.lists), r, w.ullExpireTime, s.phase.now);
    var u := s.(lists := if w.bTimeout && s.phase.now < w.ullExpireTime then armed else Pop(s.lists));
    if w.bTimeout && s.phase.now < w.ullExpireTime && res == Added {
      hide Inv, LinkInv, MutexInv, Pop, Arm, RecOk;
      OneRecord(s, PutBack(s, r, armed), r);
    } else {
      assert forall x :: x in u.lists.active ==> x in s.lists.active;
      assert forall x :: Pending(u.lists, x) ==> Pending(s.lists, x);
      hide Inv, LinkInv, RecOk, Good, Pending, Pop, Arm, MutexInv, ResumeCo;
      ProcessMutexes(s, u, r);
    }
  }

  lemma ProcessMutexes(s: State, u: State, r: Rid)
    requires Inv(s) && MutexInv(s) && InLoop(s) && r in s.waits && r in s.lists.active && RecOk(s, r, s.waits[r])
    requires u.(lists := s.lists) == s && Good(u.lists)
    requires forall x :: x in u.lists.active ==> x in s.lists.active
    requires forall x :: Pending(u.lists, x) ==> Pending(s.lists, x)
    ensures MutexInv(ResumeCo(u, s.waits[r].co, true))
  {
    var w := s.waits[r];
    assert w.co in s.blocked && s.blocked[w.co] == r;
    assert w.kind.CondWait? && w.kind.cond.MutexCond? ==> r !in Queue(s, w.kind.cond);
    hide Good, Pending, RecInv;
    assert LinkInv(u) by {
      forall fd | fd in u.regs ensures RegOk(u, fd, u.regs[fd]) {
        assert RegOk(s, fd, s.regs[fd]);
      }
    }
    OnlyStackMutexes(s, u);
    hide LinkInv, MutexInv, ResumeCo;
    ResumeMutexes(u, w.co, true);
  }

  lemma YieldFacts(s: State)
    requires Inv(s) && CanYield(s)
    ensures s.nextRid !in s.waits && |s.pCallStack| > 1 && LinkInv(s)
  {
  }

  lemma EnqueueMutexes(s: State, w: Wait, ls: Lists<Rid>, now: nat)
    requires Inv(s) && MutexInv(s) && CanYield(s) && w.kind.CondWait? && w.kind.cond.UserCond?
    ensures MutexInv(Enqueue(s, w, ls, now))
  {
    hide Inv, LinkInv, MutexInv;
    YieldFacts(s);
    OneRecord(s, Enqueue(s, w, ls, now), s.nextRid);
  }

  lemma WaitMutexes(s: State, c: nat, ms: int, now: nat)
    requires Inv(s) && MutexInv(s) && CanYield(s)
    ensures MutexInv(WaitOn(s, UserCond(c), ms, now))
  {
    hide Inv, LinkInv, MutexInv, Arm, ExpireTime, Enqueue;
    YieldFacts(s);
    var t := WaitOn(s, UserCond(c), ms, now);
    if ms <= 0 {
      EnqueueMutexes(s, Wait(Top(s), CondWait(UserCond(c)), false, 0, false, NotSignalled, 0, 0, 0), s.lists, s.clock);
    } else {
      var expire := ExpireTime(now, ms);
      var (ls, res) := Arm(s.lists, s.nextRid, expire, now);
      if res != Added {
        OnlyStackMutexes(s, t);
      } else {
        var w := Wait(Top(s), CondWait(UserCond(c)), true, expire, false, NotSignalled, ls.timers.start,
          ls.timers.start, 0);
        EnqueueMutexes(s, w, ls, now);
      }
    }
  }

  lemma PollMutexes(s: State, fds: seq<PollFd>, timeout: int, now: nat, accepted: set<int>)
    requires Inv(s) && MutexInv(s) && CanYield(s)
    ensures MutexInv(PollCo(s, fds, timeout, now, accepted))
  {
    hide Inv, LinkInv, MutexInv, Arm, ExpireTime, Register;
    YieldFacts(s);
    var t := PollCo(s, fds, timeout, now, accepted);
    if t.nextRid == s.nextRid {
      OnlyStackMutexes(s, t);
    } else {
      OneRecord(s, t, s.nextRid);
    }
  }

  lemma ReportMutexes(s: State, fd: int, events: bv32)
    requires Inv(s) && MutexInv(s) && CanReport(s, fd, events)
    ensures MutexInv(ReportFd(s, fd, events))
  {
    assert RegOk(s, fd, s.regs[fd]);
    var t := ReportFd(s, fd, events);
    hide Inv, LinkInv, MutexInv, Ready, EpollEvent2Poll;
    OneRecord(s, t, s.regs[fd].rid);
  }

  lemma TakeMutexes(s: State, now: nat)
    requires Inv(s) && MutexInv(s)
    ensures MutexInv(TakeAt(s, now))
  {
    var t := TakeAt(s, now);
    hide Good, Pending, RecInv, WaitInv, StackInv, MutexInv, Collect;
    OtherMutexes(s, t);
  }

  lemma UserResumeMutexes(s: State, co: Co)
    requires Inv(s) && MutexInv(s) && CanResume(s, co)
    ensures MutexInv(ResumeCo(s, co, false))
  {
    hide LinkInv, RecInv, MutexInv, ResumeCo;
    ResumeMutexes(s, co, false);
  }

  lemma StepMutexes(s: State, e: Event)
    requires Inv(s) && MutexInv(s) && Enabled(s, e)
    ensures MutexInv(Step(s, e))
  {
    hide Inv, LinkInv, MutexInv, ResumeCo, PollCo, WaitOn, SignalOn, BroadcastOn, LockCo, UnlockCo, ReportFd, TakeAt,
         DrainOne;
    InvLinks(s);
    match e
    case Report(fd, events) => ReportMutexes(s, fd, events);
    case TakeTimeouts(now) => TakeMutexes(s, now);
    case Drain => DrainMutexes(s);
    case Resume(co) => UserResumeMutexes(s, co);
    case Poll(fds, timeout, now, accepted) => PollMutexes(s, fds, timeout, now, accepted);
    case TimedWait(c, ms, now) => WaitMutexes(s, c, ms, now);
    case Signal(c) => UserSignal(s, c);
    case Broadcast(c) => UserBroadcast(s, c);
    case Lock(m) => if MutexOf(s, m).m_iWaitItemCnt > 0 { LockTaken(s, m); } else { LockFree(s, m); }
    case Unlock(m) => Unlocked(s, m);
    case _ => OnlyStackMutexes(s, Step(s, e));
  }

  lemma InvLinks(s: State)
    requires Inv(s)
    ensures LinkInv(s)
  {
  }

  lemma {:induction false} RunMutexes(s: State, es: seq<Event>)
    requires Inv(s) && MutexInv(s) && Runs(s, es)
    ensures Inv(Exec(s, es)) && MutexInv(Exec(s, es))
    decreases |es|
  {
    if es != [] {
      StepKeeps(s, es[0]);
      StepMutexes(s, es[0]);
      RunMutexes(Step(s, es[0]), es[1..]);
    }
  }

  // ----- one call

  /** CoLock: a free mutex is the caller's at once; else the caller is last in the queue
      and off the call stack. */
  lemma LockTakes(s: State, m: nat)
    requires Inv(s) && CanLock(s, m)
    ensures var t := Step(s, Lock(m)); var c := MutexOf(s, m).m_iWaitItemCnt;
            && MutexOf(t, m).m_iWaitItemCnt == c + 1 && t.lists == s.lists
            && (forall n: nat :: n != m ==> MutexOf(t, n) == MutexOf(s, n))
            && if c <= 0 then
                 MutexOf(t, m).owner == Some(Top(s)) && t.pCallStack == s.pCallStack && t.waits == s.waits
                   && t.conds == s.conds
               else
                 && |s.pCallStack| >= 2 && t.pCallStack == s.pCallStack[..|s.pCallStack| - 1]
                 && MutexOf(t, m).owner == MutexOf(s, m).owner
                 && s.nextRid !in s.waits && s.nextRid in t.waits && t.waits[s.nextRid].co == Top(s)
                 && t.blocked == s.blocked[Top(s) := s.nextRid] && !t.waits[s.nextRid].timed
                 && Queue(t, MutexCond(m)) == Queue(s, MutexCond(m)) + [s.nextRid]
  {
    hide Good, Pending, LinkInv, RecInv;
  }

  /** CoUnLock: the mutex is handed to the longest waiter, which is off the queue and last
      on the active list; the caller goes on. */
  lemma UnlockHands(s: State, m: nat)
    requires Inv(s) && CanUnlock(s, m)
    ensures var t := Step(s, Unlock(m)); var q := Queue(s, MutexCond(m));
            && MutexOf(t, m).m_iWaitItemCnt == MutexOf(s, m).m_iWaitItemCnt - 1 && MutexOf(t, m).owner == None
            && (forall n: nat :: n != m ==> MutexOf(t, n) == MutexOf(s, n)) && t.pCallStack == s.pCallStack
            && if q == [] then
                 MutexOf(t, m).pending == None && Queue(t, MutexCond(m)) == [] && t.lists == s.lists
               else
                 && MutexOf(t, m).pending == Some(q[0]) && Queue(t, MutexCond(m)) == q[1..]
                 && t.lists.active == Without(s.lists.active, q[0]) + [q[0]] && !Pending(t.lists, q[0])
  {
    QueuedFacts(s, MutexCond(m));
    hide Good, Forget, RecInv, WaitInv, StackInv;
    if Queue(s, MutexCond(m)) != [] {
      ReadyMoves(s.lists, Queue(s, MutexCond(m))[0]);
    }
  }

  // ----- what the run's events say

  /** Who asks for mutex `m`, by event. */
  function RequestedBy(s: State, e: Event, m: nat): seq<Co> {
    if e == Lock(m) && s.pCallStack != [] then [Top(s)] else []
  }

  /** Who comes out of CoLock for mutex `m` in a step from `s` to `t`: a caller that goes
      on at once, or a waiter that is switched in. */
  function EnteredBy(s: State, e: Event, t: State, m: nat): seq<Co> {
    if e == Lock(m) && s.pCallStack != [] && t.pCallStack == s.pCallStack then [Top(s)]
    else if |t.pCallStack| > |s.pCallStack| && Top(t) in s.blocked && s.blocked[Top(t)] in s.waits
            && WaitsFor(s.waits[s.blocked[Top(t)]], m) then [Top(t)]
    else []
  }

  /** The callers of CoLock(m), in order, in the run `es`. */
  function Requests(s: State, es: seq<Event>, m: nat): seq<Co>
    requires Runs(s, es)
    decreases |es|
  {
    if es == [] then [] else RequestedBy(s, es[0], m) + Requests(Step(s, es[0]), es[1..], m)
  }

  /** Those for whom it has returned, in order. */
  function Entries(s: State, es: seq<Event>, m: nat): seq<Co>
    requires Runs(s, es)
    decreases |es|
  {
    if es == [] then [] else EnteredBy(s, es[0], Step(s, es[0]), m) + Entries(Step(s, es[0]), es[1..], m)
  }

  /** How often CoUnLock(m) was called. */
  function Unlocks(es: seq<Event>, m: nat): nat {
    if es == [] then 0 else (if es[0] == Unlock(m) then 1 else 0) + Unlocks(es[1..], m)
  }

  /** The history that a mutex keeps is that of the events. */
  predicate Noted(mu: Mutex, mu': Mutex, asked: seq<Co>, entered: seq<Co>, unlocked: nat) {
    mu'.arrivals == mu.arrivals + asked && mu'.grants == mu.grants + entered && mu'.unlocks == mu.unlocks + unlocked
  }

  ghost predicate StepNoted(s: State, e: Event, t: State, m: nat) {
    Noted(MutexOf(s, m), MutexOf(t, m), RequestedBy(s, e, m), EnteredBy(s, e, t, m), if e == Unlock(m) then 1 else 0)
  }

  lemma NothingNoted(s: State, e: Event, t: State, m: nat)
    requires t.mutexes == s.mutexes && |t.pCallStack| <= |s.pCallStack| && !e.Lock? && !e.Unlock?
    ensures StepNoted(s, e, t, m)
  {
  }

  lemma ResumeNoted(s: State, u: State, e: Event, co: Co, byLoop: bool, m: nat)
    requires e.Drain? || e.Resume?
    requires u.mutexes == s.mutexes && u.waits == s.waits && u.blocked == s.blocked && u.pCallStack == s.pCallStack
    requires co !in u.pCallStack && co !in u.ended && |u.pCallStack| < CALL_STACK_SIZE
    requires co in u.blocked ==> u.blocked[co] in u.waits
    ensures StepNoted(s, e, ResumeCo(u, co, byLoop), m)
  {
    if co in u.blocked {
      ResumeEffect(u, co, byLoop);
      hide ResumeCo;
    }
  }

  lemma DrainNoted(s: State, m: nat)
    requires Inv(s) && CanDrain(s)
    ensures StepNoted(s, Drain, DrainOne(s), m)
  {
    hide ResumeCo, StepNoted, Good, RecInv, Pending;
    var r := s.lists.active[0];
    assert r in s.lists.active && r in s.waits && s.waits[r].co in s.blocked && s.blocked[s.waits[r].co] == r;
    ResumeNoted(s, s.(lists := Pop(s.lists)), Drain, s.waits[r].co, true, m);
    ResumeNoted(s, s.(lists := Arm(Pop(s.lists), r, s.waits[r].ullExpireTime, s.phase.now).0), Drain, s.waits[r].co,
      true, m);
    var t := DrainOne(s);
    if t.mutexes == s.mutexes && t.pCallStack == s.pCallStack {
      NothingNoted(s, Drain, t, m);
    }
  }

  lemma {:induction false} BroadcastLeaves(s: State, c: Cond)
    ensures BroadcastOn(s, c).mutexes == s.mutexes && BroadcastOn(s, c).pCallStack == s.pCallStack
    decreases |Queue(s, c)|
  {
    if Queue(s, c) != [] {
      BroadcastLeaves(SignalOn(s, c), c);
    }
  }

  lemma LockNoted(s: State, k: nat, m: nat)
    requires Inv(s) && CanLock(s, k)
    ensures StepNoted(s, Lock(k), LockCo(s, k), m)
  {
    hide Inv;
    LockTakes(s, k);
  }

  lemma UnlockNoted(s: State, k: nat, m: nat)
    requires Inv(s) && CanUnlock(s, k)
    ensures StepNoted(s, Unlock(k), UnlockCo(s, k), m)
  {
    hide Ready, Inv;
  }

  predicate Unconcerned(s: State, t: State) {
    t.mutexes == s.mutexes && |t.pCallStack| <= |s.pCallStack|
  }

  lemma WaitUnconcerned(s: State, c: Cond, ms: int, now: nat)
    requires CanYield(s)
    ensures Unconcerned(s, WaitOn(s, c, ms, now))
  {
    hide Arm, ExpireTime, Enqueue;
    var (ls, res) := Arm(s.lists, s.nextRid, ExpireTime(now, ms), now);
    EnqueueUnconcerned(s, Wait(Top(s), CondWait(c), false, 0, false, NotSignalled, 0, 0, 0), s.lists, s.clock);
    EnqueueUnconcerned(
      s, Wait(Top(s), CondWait(c), true, ExpireTime(now, ms), false, NotSignalled, ls.timers.start, ls.timers.start, 0),
      ls, now);
  }

  lemma EnqueueUnconcerned(s: State, w: Wait, ls: Lists<Rid>, now: nat)
    requires w.kind.CondWait?
    ensures Unconcerned(s, Enqueue(s, w, ls, now))
  {
  }

  lemma PollUnconcerned(s: State, fds: seq<PollFd>, timeout: int, now: nat, accepted: set<int>)
    requires CanYield(s)
    ensures Unconcerned(s, PollCo(s, fds, timeout, now, accepted))
  {
    hide Arm, Register, ExpireTime;
  }

  lemma SignalUnconcerned(s: State, c: Cond)
    ensures Unconcerned(s, SignalOn(s, c))
  {
  }

  lemma LoopUnconcerned(s: State, fd: int, events: bv32, now: nat)
    ensures Unconcerned(s, ReportFd(s, fd, events)) && Unconcerned(s, TakeAt(s, now))
  {
    hide Ready, EpollEvent2Poll, Collect;
  }

  lemma OthersUnconcerned(s: State, e: Event)
    requires Enabled(s, e) && !e.Drain? && !e.Resume? && !e.Lock? && !e.Unlock?
    ensures Unconcerned(s, Step(s, e))
  {
    hide BroadcastOn, WaitOn, PollCo, SignalOn, ReportFd, TakeAt, LockCo, UnlockCo, ResumeCo, DrainOne;
    match e
    case Report(fd, events) => LoopUnconcerned(s, fd, events, 0);
    case TakeTimeouts(now) => LoopUnconcerned(s, 0, 0, now);
    case Signal(c) => SignalUnconcerned(s, UserCond(c));
    case Broadcast(c) => BroadcastLeaves(s, UserCond(c));
    case TimedWait(c, ms, now) => WaitUnconcerned(s, UserCond(c), ms, now);
    case Poll(fds, timeout, now, accepted) => PollUnconcerned(s, fds, timeout, now, accepted);
    case _ =>
  }

  lemma StepNotes(s: State, e: Event, m: nat)
    requires Inv(s) && Enabled(s, e)
    ensures StepNoted(s, e, Step(s, e), m)
  {
    hide StepNoted, Inv, ResumeCo, DrainOne, BroadcastOn, LockCo, UnlockCo, WaitOn, PollCo, SignalOn, ReportFd, TakeAt;
    match e
    case Drain => DrainNoted(s, m);
    case Resume(co) => ResumeNoted(s, s, e, co, false, m);
    case Lock(k) => LockNoted(s, k, m);
    case Unlock(k) => UnlockNoted(s, k, m);
    case _ =>
      OthersUnconcerned(s, e);
      NothingNoted(s, e, Step(s, e), m);
  }

  lemma {:induction false} RunNotes(s: State, es: seq<Event>, m: nat)
    requires Inv(s) && Runs(s, es)
    ensures Noted(MutexOf(s, m), MutexOf(Exec(s, es), m), Requests(s, es, m), Entries(s, es, m), Unlocks(es, m))
    decreases |es|
  {
    hide Inv, Step, Enabled, RequestedBy, EnteredBy;
    if es != [] {
      StepKeeps(s, es[0]);
      StepNotes(s, es[0], m);
      RunNotes(Step(s, es[0]), es[1..], m);
    }
  }

  /** In every run and for every mutex: CoLock returns to its callers in the order they
      called it, and to none before all that it returned to earlier have unlocked, so
      with `u` unlocks so far either all are out, or the one with `u` requests before it
      is inside and is the holder; and the counter counts the holder, or the one the
      mutex was handed to, and the queue. */
  lemma MutualExclusion(size: nat, now: nat, shared: set<Co>, es: seq<Event>, m: nat)
    requires 1 <= size && Runs(Init(size, now, shared), es)
    ensures var s := Exec(Init(size, now, shared), es); var mu := MutexOf(s, m);
            var asked := Requests(Init(size, now, shared), es, m);
            var entered := Entries(Init(size, now, shared), es, m);
            var u := Unlocks(es, m);
            && entered <= asked && asked == entered + Waiting(s, m)
            && mu.arrivals == asked && mu.grants == entered && mu.unlocks == u
            && (mu.owner.Some? ==> |entered| == u + 1 && mu.owner.value == asked[u])
            && (mu.owner.None? ==> |entered| == u)
            && !(mu.owner.Some? && mu.pending.Some?)
            && mu.m_iWaitItemCnt == |Queue(s, MutexCond(m))| + (if mu.owner.Some? || mu.pending.Some? then 1 else 0)
  {
    hide Inv, Step, Enabled, Requests, Entries, Unlocks, Runs, Exec, MutexInv;
    InitInv(size, now, shared);
    InitMutexes(size, now, shared);
    RunMutexes(Init(size, now, shared), es);
    RunNotes(Init(size, now, shared), es, m);
    var s := Exec(Init(size, now, shared), es);
    IsOk(s, m);
    assert MutexOf(Init(size, now, shared), m) == Mutex(0, None, None, [], [], 0);
    assert MutexOf(s, m).arrivals == Requests(Init(size, now, shared), es, m);
    assert MutexOf(s, m).grants == Entries(Init(size, now, shared), es, m);
  }

  lemma InitMutexes(size: nat, now: nat, shared: set<Co>)
    requires 1 <= size
    ensures MutexInv(Init(size, now, shared))
  {
  }
}
