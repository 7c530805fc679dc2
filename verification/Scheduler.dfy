/** The scheduler of one thread as a state machine: coroutines that resume, yield,
    poll and wait on conditions and mutexes, and the event loop run by the main
    coroutine.  A step is one call of the library or one stretch of the event loop;
    what epoll reports, what the clock reads and which calls the coroutines make
    are arbitrary.  The fields named like the source's are what the source keeps;
    the others are history that no step looks at. */
module Scheduler {
  import opened CallStack
  import opened Sequences
  import opened TimerLog
  import opened EpollLists
  import opened PollEvents
  import opened Wrappers

  /** Coroutines; the main coroutine is number 0. */
  type Co = nat

  /** Addresses of wait records (stPoll_t, stCoCondItem_t): never reused here. */
  type Rid = nat

  const MAIN: Co := 0
  const MAX_TIMEOUT: int := 40 * 1000
  const ULL_RANGE: nat := 0x1_0000_0000_0000_0000

  /** A condition of the user's, or the private one of a mutex. */
  datatype Cond = UserCond(id: nat) | MutexCond(id: nat)

  datatype PollFd = PollFd(fd: int, events: bv16)

  datatype Kind =
    | PollWait(fds: seq<PollFd>, revents: seq<bv16>, iRaiseCnt: nat, iAllEventDetach: bool, itemsOnStack: bool)
    | CondWait(cond: Cond)

  /** History: `early` says that the waiter had been taken off the wheel before its
      expiry and not yet put back; `pass` is the pass of the event loop that should
      resume it, the current one or the next. */
  datatype SignalState = NotSignalled | Signalled(early: bool, pass: nat)

  /** A wait record, with its coroutine (`pArg`) and what co_cond_signal, the wheel
      and the draining loop did to it so far. */
  datatype Wait = Wait(
    co: Co, kind: Kind, timed: bool, ullExpireTime: nat, bTimeout: bool,
    signal: SignalState, firstStart: nat, lastStart: nat, refiles: nat)

  /** What epoll keeps for a registered fd: which entry of which poll it points to. */
  datatype Reg = Reg(rid: Rid, idx: nat)

  /** Where the main coroutine is: in user code, handing out epoll's reports, or
      draining the active list. */
  datatype Phase = Body | Preparing(reported: set<int>) | Draining(now: nat, firstNew: Rid)

  /** History: a wait that ended, as it was when its coroutine was switched in. */
  datatype Resumption = Resumption(rid: Rid, wait: Wait, byLoop: bool, at: nat, pass: nat)

  /** clsCoMutex: its counter, and the history of who asked for it and who got it. */
  datatype Mutex = Mutex(
    m_iWaitItemCnt: int, owner: Option<Co>, pending: Option<Rid>,
    arrivals: seq<Co>, grants: seq<Co>, unlocks: nat)

  datatype State = State(
    shared: set<Co>, started: set<Co>, ended: set<Co>, pCallStack: seq<Co>,
    blocked: map<Co, Rid>, waits: map<Rid, Wait>, nextRid: Rid,
    regs: map<int, Reg>, lists: Lists<Rid>, conds: map<Cond, seq<Rid>>, mutexes: map<nat, Mutex>,
    phase: Phase, pass: nat, clock: nat, log: seq<Resumption>, fault: bool)

  datatype Event =
    | BeginPass
    | Report(fd: int, events: bv32)
    | TakeTimeouts(now: nat)
    | Drain
    | EndPass
    | Resume(co: Co)
    | Yield
    | End
    | Poll(fds: seq<PollFd>, timeout: int, now: nat, accepted: set<int>)
    | TimedWait(cond: nat, ms: int, now: nat)
    | Signal(cond: nat)
    | Broadcast(cond: nat)
    | Lock(m: nat)
    | Unlock(m: nat)

  function Init(size: nat, now: nat, shared: set<Co>): State {
    State(shared, {}, {}, [MAIN], map[], map[], 0, map[], Lists(Timers(size, now, []), []), map[], map[], Body, 0, now,
      [], false)
  }

  function Queue(s: State, c: Cond): seq<Rid> {
    if c in s.conds then s.conds[c] else []
  }

  function MutexOf(s: State, m: nat): Mutex {
    if m in s.mutexes then s.mutexes[m] else Mutex(0, None, None, [], [], 0)
  }

  function Top(s: State): Co
    requires s.pCallStack != []
  {
    s.pCallStack[|s.pCallStack| - 1]
  }

  // ----- switching

  /** The wait of `co` with record `rid` is over and its record freed. */
  function Free(s: State, co: Co, rid: Rid, byLoop: bool): State
    requires rid in s.waits
  {
    s.(waits := s.waits - {rid}, blocked := s.blocked - {co},
      log := s.log + [Resumption(rid, s.waits[rid], byLoop, s.clock, s.pass)])
  }

  /** The end of co_poll_inner. */
  function FinishPoll(s: State, co: Co, rid: Rid, byLoop: bool): State
    requires rid in s.waits && s.waits[rid].kind.PollWait?
  {
    Free(s, co, rid, byLoop).(lists := Detach(s.lists, rid), regs := Deregister(s.regs, s.waits[rid].kind.fds))
  }

  /** The end of co_cond_timedwait, and of CoLock if that is what waited. */
  function FinishCond(s: State, co: Co, rid: Rid, byLoop: bool): State
    requires rid in s.waits && s.waits[rid].kind.CondWait?
  {
    var c := s.waits[rid].kind.cond;
    var t := Free(s, co, rid, byLoop).(conds := s.conds[c := Without(Queue(s, c), rid)]);
    if c.MutexCond? then Grant(t, c.id, co) else t
  }

  /** `co` owns the mutex now. */
  function Grant(s: State, m: nat, co: Co): State {
    var mu := MutexOf(s, m);
    s.(mutexes := s.mutexes[m := mu.(owner := Some(co), pending := None, grants := mu.grants + [co])])
  }

  /** What a coroutine does first when it is switched in while blocked. */
  function Finish(s: State, co: Co, byLoop: bool): State
    requires co in s.blocked
  {
    var rid := s.blocked[co];
    if rid !in s.waits then s.(fault := true)
    else if s.waits[rid].kind.PollWait? then FinishPoll(s, co, rid, byLoop)
    else FinishCond(s, co, rid, byLoop)
  }

  /** co_resume, and what the resumed coroutine does first. */
  function ResumeCo(s: State, co: Co, byLoop: bool): State {
    if co in s.pCallStack || co in s.ended || |s.pCallStack| >= CALL_STACK_SIZE then s.(fault := true)
    else
      var t := s.(pCallStack := s.pCallStack + [co], started := s.started + {co});
      if co in s.blocked then Finish(t, co, byLoop) else t
  }

  /** The parts of the state that switching a coroutine in leaves alone. */
  predicate SameBackground(s: State, t: State) {
    && t.shared == s.shared && t.ended == s.ended && t.nextRid == s.nextRid
    && t.phase == s.phase && t.pass == s.pass && t.clock == s.clock && t.fault == s.fault
  }

  lemma FinishEffect(s: State, co: Co, byLoop: bool)
    requires co in s.blocked && s.blocked[co] in s.waits
    ensures var rid := s.blocked[co]; var w := s.waits[rid]; var t := Finish(s, co, byLoop);
            && SameBackground(s, t) && t.pCallStack == s.pCallStack
            && t.waits == s.waits - {rid} && t.blocked == s.blocked - {co}
            && t.log == s.log + [Resumption(rid, w, byLoop, s.clock, s.pass)]
            && (w.kind.PollWait? ==>
                  && t.lists == Detach(s.lists, rid) && t.regs == Deregister(s.regs, w.kind.fds)
                  && t.conds == s.conds && t.mutexes == s.mutexes)
            && (w.kind.CondWait? ==>
                  && t.lists == s.lists && t.regs == s.regs
                  && t.conds == s.conds[w.kind.cond := Without(Queue(s, w.kind.cond), rid)]
                  && t.mutexes == if w.kind.cond.MutexCond? then Grant(s, w.kind.cond.id, co).mutexes else s.mutexes)
  {
    hide Detach, Without, Deregister;
  }

  lemma ResumeEffect(s: State, co: Co, byLoop: bool)
    requires co in s.blocked && s.blocked[co] in s.waits
    requires co !in s.pCallStack && co !in s.ended && |s.pCallStack| < CALL_STACK_SIZE
    ensures var rid := s.blocked[co]; var w := s.waits[rid]; var t := ResumeCo(s, co, byLoop);
            && SameBackground(s, t) && t.pCallStack == s.pCallStack + [co]
            && t.waits == s.waits - {rid} && t.blocked == s.blocked - {co}
            && t.log == s.log + [Resumption(rid, w, byLoop, s.clock, s.pass)]
            && (w.kind.PollWait? ==>
                  && t.lists == Detach(s.lists, rid) && t.regs == Deregister(s.regs, w.kind.fds)
                  && t.conds == s.conds && t.mutexes == s.mutexes)
            && (w.kind.CondWait? ==>
                  && t.lists == s.lists && t.regs == s.regs
                  && t.conds == s.conds[w.kind.cond := Without(Queue(s, w.kind.cond), rid)]
                  && t.mutexes == if w.kind.cond.MutexCond? then Grant(s, w.kind.cond.id, co).mutexes else s.mutexes)
  {
    hide Detach, Without, Deregister, Finish;
    FinishEffect(s.(pCallStack := s.pCallStack + [co], started := s.started + {co}), co, byLoop);
  }

  /** co_yield_env. */
  function YieldCo(s: State): State {
    if |s.pCallStack| < 2 then s.(fault := true)
    else s.(pCallStack := s.pCallStack[..|s.pCallStack| - 1])
  }

  // ----- waiting

  /** The coroutine on top of the call stack yields with wait record `w`. */
  function Block(s: State, w: Wait): State {
    YieldCo(s).(waits := s.waits[s.nextRid := w], blocked := s.blocked[w.co := s.nextRid], nextRid := s.nextRid + 1)
  }

  /** `now + timeout` in the source's unsigned 64-bit arithmetic. */
  function ExpireTime(now: nat, timeout: int): nat {
    (now + timeout) % ULL_RANGE
  }

  function FdSet(fds: seq<PollFd>): set<int> {
    set i | 0 <= i < |fds| && fds[i].fd > -1 :: fds[i].fd
  }

  /** The index of the first entry for `fd`: the one epoll_ctl gets to add. */
  function FirstIndex(fds: seq<PollFd>, fd: int): (i: nat)
    requires fd in FdSet(fds)
    ensures i < |fds| && fds[i].fd == fd && forall j :: 0 <= j < i ==> fds[j].fd != fd
  {
    if fds[0].fd == fd then 0 else
      assert fd in FdSet(fds[1..]) by {
        var i :| 0 <= i < |fds| && fds[i].fd > -1 && fds[i].fd == fd;
        assert fds[1..][i - 1] == fds[i];
      }
      1 + FirstIndex(fds[1..], fd)
  }

  /** The loop of EPOLL_CTL_ADDs: an fd that is already registered, or that the
      kernel rejects, is passed over. */
  function Register(regs: map<int, Reg>, fds: seq<PollFd>, rid: Rid, accepted: set<int>): map<int, Reg> {
    map fd | fd in regs.Keys + (FdSet(fds) * accepted) :: if fd in regs then regs[fd] else Reg(rid, FirstIndex(fds, fd))
  }

  /** The loop of EPOLL_CTL_DELs. */
  function Deregister(regs: map<int, Reg>, fds: seq<PollFd>): map<int, Reg> {
    regs - FdSet(fds)
  }

  function Zeroes(n: nat): (r: seq<bv16>)
    ensures |r| == n && forall i :: 0 <= i < n ==> r[i] == 0
  {
    seq(n, _ => 0)
  }

  /** co_poll_inner up to its yield, or up to its return when AddTimeout refuses. */
  function PollCo(s: State, fds: seq<PollFd>, timeout: int, now: nat, accepted: set<int>): State
    requires 1 <= s.lists.timers.size && s.pCallStack != []
  {
    var expire := ExpireTime(now, if timeout > MAX_TIMEOUT then MAX_TIMEOUT else timeout);
    var (ls, res) := Arm(s.lists, s.nextRid, expire, now);
    var t := s.(regs := Register(s.regs, fds, s.nextRid, accepted), lists := ls, clock := now);
    if res != Added then t
    else
      var onStack := |fds| < 2 && Top(s) !in s.shared;
      Block(t, Wait(Top(s), PollWait(fds, Zeroes(|fds|), 0, false, onStack), true, expire, false,
                    NotSignalled, ls.timers.start, ls.timers.start, 0))
  }

  /** The end of co_cond_timedwait's first half: onto the queue, and yield. */
  function Enqueue(s: State, w: Wait, ls: Lists<Rid>, now: nat): State
    requires w.kind.CondWait?
  {
    var c := w.kind.cond;
    Block(s.(conds := s.conds[c := Queue(s, c) + [s.nextRid]], lists := ls, clock := now), w)
  }

  /** co_cond_timedwait up to its yield, or its early return when AddTimeout refuses. */
  function WaitOn(s: State, c: Cond, ms: int, now: nat): State
    requires 1 <= s.lists.timers.size && s.pCallStack != []
  {
    if ms <= 0 then
      Enqueue(s, Wait(Top(s), CondWait(c), false, 0, false, NotSignalled, 0, 0, 0), s.lists, s.clock)
    else
      var expire := ExpireTime(now, ms);
      var (ls, res) := Arm(s.lists, s.nextRid, expire, now);
      if res != Added then s.(lists := ls, clock := now)
      else Enqueue(s, Wait(Top(s), CondWait(c), true, expire, false, NotSignalled, ls.timers.start, ls.timers.start, 0),
        ls, now)
  }

  // ----- waking

  /** History: is `w` off the wheel before its expiry, waiting to be put back? */
  predicate Early(s: State, w: Wait) {
    w.bTimeout && s.phase.Draining? && s.phase.now < w.ullExpireTime
  }

  /** History: the pass that drains what is on the active list now. */
  function NextPass(s: State): nat {
    if s.phase.Body? then s.pass + 1 else s.pass
  }

  /** co_cond_signal. */
  function SignalOn(s: State, c: Cond): (t: State)
    ensures Queue(s, c) != [] ==> |Queue(t, c)| < |Queue(s, c)|
  {
    var q := Queue(s, c);
    if q == [] then s
    else
      var r := q[0];
      var t := s.(conds := s.conds[c := q[1..]]);
      if r !in s.waits then t.(fault := true)
      else
        var w := s.waits[r];
        t.(lists := Ready(s.lists, r), waits := s.waits[r := w.(signal := Signalled(Early(s, w), NextPass(s)))])
  }

  /** co_cond_broadcast. */
  function BroadcastOn(s: State, c: Cond): State
    decreases |Queue(s, c)|
  {
    if Queue(s, c) == [] then s else BroadcastOn(SignalOn(s, c), c)
  }

  /** clsCoMutex::CoLock. */
  function LockCo(s: State, m: nat): State
    requires 1 <= s.lists.timers.size && s.pCallStack != []
  {
    var mu := MutexOf(s, m);
    var mu' := mu.(m_iWaitItemCnt := mu.m_iWaitItemCnt + 1, arrivals := mu.arrivals + [Top(s)]);
    if mu.m_iWaitItemCnt > 0 then
      WaitOn(s.(mutexes := s.mutexes[m := mu']), MutexCond(m), -1, s.clock)
    else
      s.(mutexes := s.mutexes[m := mu'.(owner := Some(Top(s)), grants := mu.grants + [Top(s)])])
  }

  /** clsCoMutex::CoUnLock. */
  function UnlockCo(s: State, m: nat): State {
    var mu := MutexOf(s, m);
    var q := Queue(s, MutexCond(m));
    var mu' := mu.(m_iWaitItemCnt := mu.m_iWaitItemCnt - 1, owner := None, unlocks := mu.unlocks + 1,
                   pending := if q == [] then None else Some(q[0]));
    SignalOn(s.(mutexes := s.mutexes[m := mu']), MutexCond(m))
  }

  // ----- the event loop

  /** What OnPollPreparePfn writes into the poll. */
  function Note(w: Wait, idx: nat, bits: bv16): Wait
    requires w.kind.PollWait? && idx < |w.kind.revents|
  {
    w.(kind := w.kind.(revents := w.kind.revents[idx := bits], iRaiseCnt := w.kind.iRaiseCnt + 1,
      iAllEventDetach := true))
  }

  /** OnPollPreparePfn for the registration that epoll reported. */
  function ReportFd(s: State, fd: int, events: bv32): State {
    if fd !in s.regs || s.regs[fd].rid !in s.waits then s.(fault := true)
    else
      var rid := s.regs[fd].rid;
      var idx := s.regs[fd].idx;
      var w := s.waits[rid];
      if !w.kind.PollWait? || idx >= |w.kind.revents| then s.(fault := true)
      else
        s.(waits := s.waits[rid := Note(w, idx, EpollEvent2Poll(events))],
           lists := if w.kind.iAllEventDetach then s.lists else Ready(s.lists, rid),
           phase := if s.phase.Preparing? then Preparing(s.phase.reported + {fd}) else s.phase)
  }

  function MarkAll(waits: map<Rid, Wait>, taken: seq<Rid>): map<Rid, Wait> {
    map r | r in waits :: if r in taken then waits[r].(bTimeout := true) else waits[r]
  }

  /** The middle of a pass: take what is due off the wheel and mark it. */
  function TakeAt(s: State, now: nat): State {
    var (ls, taken) := Collect(s.lists, now);
    s.(lists := ls, waits := MarkAll(s.waits, taken), phase := Draining(now, s.nextRid), clock := now,
       fault := s.fault || exists r :: r in taken && r !in s.waits)
  }

  /** A timer that came off the wheel early is back on it. */
  function PutBack(s: State, r: Rid, armed: Lists<Rid>): State
    requires r in s.waits
  {
    var w := s.waits[r];
    s.(lists := armed,
       waits := s.waits[r := w.(bTimeout := false, lastStart := armed.timers.start, refiles := w.refiles + 1)])
  }

  /** One turn of the draining loop. */
  function DrainOne(s: State): State
    requires s.phase.Draining? && s.lists.active != [] && 1 <= s.lists.timers.size
  {
    var r := s.lists.active[0];
    var ls := Pop(s.lists);
    if r !in s.waits then s.(lists := ls, fault := true)
    else
      var w := s.waits[r];
      if w.bTimeout && s.phase.now < w.ullExpireTime then
        var (armed, res) := Arm(ls, r, w.ullExpireTime, s.phase.now);
        if res == Added then PutBack(s, r, armed)
        else ResumeCo(s.(lists := armed), w.co, true)
      else ResumeCo(s.(lists := ls), w.co, true)
  }

  // ----- the machine

  /** Some coroutine other than the event loop is running. */
  predicate InUserCode(s: State) {
    s.phase.Body? || (s.phase.Draining? && |s.pCallStack| > 1)
  }

  predicate InLoop(s: State) {
    s.pCallStack == [MAIN]
  }

  predicate PollAccepted(s: State, timeout: int, now: nat)
    requires 1 <= s.lists.timers.size
  {
    var expire := ExpireTime(now, if timeout > MAX_TIMEOUT then MAX_TIMEOUT else timeout);
    Started(s.lists.timers, now).start <= now <= expire
  }

  predicate Sane(s: State) {
    s.pCallStack != [] && 1 <= s.lists.timers.size
  }

  predicate CanReport(s: State, fd: int, events: bv32) {
    && Sane(s) && InLoop(s) && s.phase.Preparing? && fd in s.regs && fd !in s.phase.reported
    && EpollEvent2Poll(events) != 0
  }

  predicate CanTake(s: State) {
    Sane(s) && InLoop(s) && s.phase.Preparing?
  }

  predicate CanDrain(s: State) {
    Sane(s) && InLoop(s) && s.phase.Draining? && s.lists.active != []
  }

  predicate CanResume(s: State, co: Co) {
    && Sane(s) && InUserCode(s) && co !in s.pCallStack && co !in s.ended && |s.pCallStack| < CALL_STACK_SIZE
    && (co in s.blocked ==> s.blocked[co] in s.waits && s.waits[s.blocked[co]].kind.PollWait?)
  }

  predicate CanYield(s: State) {
    Sane(s) && InUserCode(s) && Top(s) != MAIN
  }

  predicate CanPoll(s: State, fds: seq<PollFd>, timeout: int, now: nat, accepted: set<int>) {
    CanYield(s) && (PollAccepted(s, timeout, now) || FdSet(fds) * accepted <= s.regs.Keys)
  }

  predicate CanLock(s: State, m: nat) {
    Sane(s) && InUserCode(s) && (Top(s) != MAIN || MutexOf(s, m).m_iWaitItemCnt <= 0)
  }

  predicate CanUnlock(s: State, m: nat) {
    Sane(s) && InUserCode(s) && MutexOf(s, m).owner == Some(Top(s))
  }

  /** What the source takes for granted about its callers and about epoll: depth below
      128, no resumption of what runs, ended or waits on a condition, main never
      yields, a mutex is unlocked by its owner, a registration is reported at most
      once per batch and with a bit the library knows; and polls whose timeout
      AddTimeout accepts, unless they register nothing (see PollLeavesRegistrations). */
  predicate Enabled(s: State, e: Event) {
    match e
    case BeginPass => Sane(s) && InLoop(s) && s.phase.Body?
    case Report(fd, events) => CanReport(s, fd, events)
    case TakeTimeouts(now) => CanTake(s)
    case Drain => CanDrain(s)
    case EndPass => Sane(s) && InLoop(s) && s.phase.Draining? && s.lists.active == []
    case Resume(co) => CanResume(s, co)
    case Yield => CanYield(s)
    case End => CanYield(s)
    case Poll(fds, timeout, now, accepted) => CanPoll(s, fds, timeout, now, accepted)
    case TimedWait(_, _, _) => CanYield(s)
    case Signal(_) => Sane(s) && InUserCode(s)
    case Broadcast(_) => Sane(s) && InUserCode(s)
    case Lock(m) => CanLock(s, m)
    case Unlock(m) => CanUnlock(s, m)
  }

  function Step(s: State, e: Event): State
    requires Enabled(s, e)
  {
    match e
    case BeginPass => s.(phase := Preparing({}), pass := s.pass + 1)
    case Report(fd, events) => ReportFd(s, fd, events)
    case TakeTimeouts(now) => TakeAt(s, now)
    case Drain => DrainOne(s)
    case EndPass => s.(phase := Body)
    case Resume(co) => ResumeCo(s, co, false)
    case Yield => YieldCo(s)
    case End => YieldCo(s).(ended := s.ended + {Top(s)})
    case Poll(fds, timeout, now, accepted) => PollCo(s, fds, timeout, now, accepted)
    case TimedWait(c, ms, now) => WaitOn(s, UserCond(c), ms, now)
    case Signal(c) => SignalOn(s, UserCond(c))
    case Broadcast(c) => BroadcastOn(s, UserCond(c))
    case Lock(m) => LockCo(s, m)
    case Unlock(m) => UnlockCo(s, m)
  }

  /** `es` can happen one after the other from `s`. */
  predicate Runs(s: State, es: seq<Event>)
    decreases |es|
  {
    es != [] ==> Enabled(s, es[0]) && Runs(Step(s, es[0]), es[1..])
  }

  function Exec(s: State, es: seq<Event>): State
    requires Runs(s, es)
    decreases |es|
  {
    if es == [] then s else Exec(Step(s, es[0]), es[1..])
  }
}
