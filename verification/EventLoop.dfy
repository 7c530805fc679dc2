/** The scheduler's data structure stCoEpoll_t and the pieces of the event loop and
    of the condition variables that move wait records about, on the heap, each
    proved against the functions of module EpollLists.  What the coroutines do
    between the pieces is the subject of module Scheduler. */
module EventLoop {
  import opened Sequences
  import opened IntrusiveList
  import opened TimerLog
  import opened TimingWheel
  import EL = EpollLists
  import opened PollEvents

  /** stCoCondItem_t: a node of a condition queue that embeds its timeout item. */
  type CondItem = Node<Item>
  type CondLink = Link<Item>

  class CoEpoll {
    const pTimeout: Timeout
    const pstActiveList: ItemLink
    const pstTimeoutList: ItemLink

    /** AllocEpoll: the wheel has `size` slots (60 * 1000 in the source). */
    constructor (size: nat, now: nat)
      requires 1 <= size
      ensures fresh(pTimeout) && fresh(pstActiveList) && fresh(pstTimeoutList)
      ensures Valid(Links(), {}) && Lists() == EL.Lists(Timers(size, now, []), [])
    {
      hide Consistent;
      var wheel := new Timeout(size, now);
      var active := new Link<Timer>();
      var timeout := new Link<Timer>();
      pTimeout := wheel;
      pstActiveList := active;
      pstTimeoutList := timeout;
      new;
      pTimeout.EmptyRing(Links());
    }

    /** The lists of this scheduler: the ring, the active and the timeout list. */
    ghost function Links(): set<ItemLink> {
      (set l | l in pTimeout.ring) + {pstActiveList, pstTimeoutList}
    }

    ghost function Lists(): EL.Lists<Item>
      reads pTimeout, pstActiveList
    {
      EL.Lists(pTimeout.timers, pstActiveList.items)
    }

    ghost predicate Shape(links: set<ItemLink>, nodes: set<Item>)
      reads pTimeout, pTimeout.pItems, links, nodes, pTimeout.ring
    {
      && pTimeout.Valid(links, nodes)
      && pstActiveList in links && pstActiveList !in pTimeout.ring
      && pstTimeoutList in links && pstTimeoutList !in pTimeout.ring
      && pstActiveList != pstTimeoutList
    }

    /** Outside a pass the timeout list is empty. */
    ghost predicate Valid(links: set<ItemLink>, nodes: set<Item>)
      reads pTimeout, pTimeout.pItems, links, nodes, pTimeout.ring, pstTimeoutList
    {
      Shape(links, nodes) && pstTimeoutList.items == []
    }

    /** A record is on the wheel or on the active list, once. */
    lemma GoodLists(links: set<ItemLink>, nodes: set<Item>)
      requires Valid(links, nodes)
      ensures EL.Good(Lists())
      ensures forall x :: x in pstActiveList.items ==> x in nodes && x.pLink == pstActiveList
    {
      hide AtTick, Names;
      assert pstActiveList.Valid();
      forall x | x in pstActiveList.items
        ensures x in nodes && x.pLink == pstActiveList && x !in Names(pTimeout.timers.log)
      {
        if x in Names(pTimeout.timers.log) {
          pTimeout.PendingIsLinked(x, links, nodes);
        }
      }
    }

    /** RemoveFromLink on a wait record: it is neither pending nor active after. */
    method Detach(ap: Item, ghost links: set<ItemLink>, ghost nodes: set<Item>)
      requires Valid(links, nodes) && ap in nodes
      modifies pTimeout, links, nodes`pPrev, nodes`pNext, nodes`pLink
      ensures Valid(links, nodes) && Lists() == EL.Detach(old(Lists()), ap) && ap.pLink == null
      ensures forall n :: n in nodes && n != ap ==> n.pLink == old(n.pLink)
    {
      hide Without;
      Owned(links, nodes);
      if pstActiveList != ap.pLink {
        WithoutAbsent(pstActiveList.items, ap);
      }
      pTimeout.Remove(ap, links, nodes);
    }

    /** RemoveFromLink, then AddTail on the active list. */
    method MakeReady(ap: Item, ghost links: set<ItemLink>, ghost nodes: set<Item>)
      requires Valid(links, nodes) && ap in nodes
      modifies pTimeout, links, nodes`pPrev, nodes`pNext, nodes`pLink
      ensures Valid(links, nodes) && Lists() == EL.Ready(old(Lists()), ap) && ap.pLink == pstActiveList
      ensures forall n :: n in nodes && n != ap ==> n.pLink == old(n.pLink)
    {
      assert pstActiveList in links;
      hide Shape, WellFormed, Without, Forget;
      Detach(ap, links, nodes);
      Activate(ap, links, nodes);
    }

    /** AddTail on the active list. */
    method Activate(ap: Item, ghost links: set<ItemLink>, ghost nodes: set<Item>)
      requires Valid(links, nodes) && ap in nodes && ap.pLink == null
      modifies pstActiveList, nodes`pPrev, nodes`pNext, nodes`pLink
      ensures Valid(links, nodes) && ap.pLink == pstActiveList
      ensures pstActiveList.items == old(pstActiveList.items) + [ap]
      ensures forall n :: n in nodes && n != ap ==> n.pLink == old(n.pLink)
    {
      AddTail(pstActiveList, ap, links, nodes);
    }

    /** The memset of the timeout list; a pass leaves it empty, so nothing is lost. */
    method ClearTimeoutList(ghost links: set<ItemLink>, ghost nodes: set<Item>)
      requires Valid(links, nodes)
      modifies pstTimeoutList`head, pstTimeoutList`tail
      ensures Valid(links, nodes)
    {
      assert pstTimeoutList.Valid();
      assert pstTimeoutList.head == null && pstTimeoutList.tail == null;
      pstTimeoutList.head, pstTimeoutList.tail := null, null;
    }

    /** The loop of co_eventloop that marks what the wheel handed out. */
    method MarkTimeouts(ghost links: set<ItemLink>, ghost nodes: set<Item>)
      requires Shape(links, nodes)
      modifies nodes`data
      ensures Shape(links, nodes)
      ensures forall n :: n in nodes ==>
                n.data == if n in pstTimeoutList.items then old(n.data).(bTimeout := true) else old(n.data)
    {
      assert pstTimeoutList.Valid();
      Mark(pstTimeoutList);
    }

    method Mark(timeout: ItemLink)
      requires timeout.Valid()
      modifies timeout.items`data
      ensures forall n :: n in timeout.items ==> n.data == old(n.data).(bTimeout := true)
    {
      ghost var s := timeout.items;
      var lp := timeout.head;
      ghost var i := 0;
      while lp != null
        invariant 0 <= i <= |s| && (lp == null <==> i == |s|) && (i < |s| ==> lp == s[i])
        invariant forall j :: 0 <= j < |s| ==>
                  s[j].data == if j < i then old(s[j].data).(bTimeout := true) else old(s[j].data)
        decreases |s| - i
      {
        lp.data := lp.data.(bTimeout := true);
        lp := lp.pNext;
        i := i + 1;
      }
    }

    /** The Join that ends the collection. */
    method JoinTimeouts(ghost links: set<ItemLink>, ghost nodes: set<Item>)
      requires Shape(links, nodes)
      modifies links, nodes`pPrev, nodes`pNext, nodes`pLink
      ensures Valid(links, nodes)
      ensures pstActiveList.items == old(pstActiveList.items) + old(pstTimeoutList.items)
    {
      Owned(links, nodes);
      Join(pstActiveList, pstTimeoutList, links, nodes);
    }

    method PopActive(ghost links: set<ItemLink>, ghost nodes: set<Item>) returns (lp: Item)
      requires Valid(links, nodes) && pstActiveList.items != []
      modifies links, nodes`pPrev, nodes`pNext, nodes`pLink
      ensures Valid(links, nodes) && lp in nodes && lp.pLink == null
      ensures lp == old(pstActiveList.items)[0] && Lists() == EL.Pop(old(Lists()))
    {
      assert pstActiveList.Valid();
      lp := pstActiveList.head;
      PopHead(pstActiveList, links, nodes);
    }

    method ClearTimeoutFlag(lp: Item, ghost links: set<ItemLink>, ghost nodes: set<Item>)
      requires Valid(links, nodes)
      modifies lp`data
      ensures Valid(links, nodes) && lp.data == old(lp.data).(bTimeout := false)
    {
      lp.data := lp.data.(bTimeout := false);
    }

    /** One pass of co_eventloop up to the draining loop: clear the timeout list,
        take what is due, mark it and append it to the active list. */
    method CollectTimeouts(now: nat, ghost links: set<ItemLink>, ghost nodes: set<Item>)
      requires Valid(links, nodes)
      requires 0 < pTimeout.ullStart <= now ==> SlotsCounted(pTimeout.ullStart, now) != 0
      modifies pTimeout, links, nodes
      ensures Valid(links, nodes)
      ensures var (t, taken) := TakeCounted(old(Lists()).timers, now);
              && Lists() == EL.Lists(t, old(Lists()).active + taken)
              && (now - old(pTimeout.ullStart) + 1 < INT_RANGE / 2 ==>
                  (Lists(), taken) == EL.Collect(old(Lists()), now))
              && forall n :: n in nodes ==> n.data == if n in taken then old(n.data).(bTimeout := true) else old(n.data)
    {
      assert pstActiveList in links && pstTimeoutList in links;
      if now - pTimeout.ullStart + 1 < INT_RANGE / 2 {
        CountFits(pTimeout.timers, now);
      }
      hide Shape, WellFormed, TakeCounted;
      ClearTimeoutList(links, nodes);
      TakeTimeouts(now, links, nodes);
      MarkTimeouts(links, nodes);
      JoinTimeouts(links, nodes);
    }

    method TakeTimeouts(now: nat, ghost links: set<ItemLink>, ghost nodes: set<Item>)
      requires Valid(links, nodes)
      requires 0 < pTimeout.ullStart <= now ==> SlotsCounted(pTimeout.ullStart, now) != 0
      modifies pTimeout, links, nodes`pPrev, nodes`pNext, nodes`pLink
      ensures Shape(links, nodes) && pstActiveList.items == old(pstActiveList.items)
      ensures (pTimeout.timers, pstTimeoutList.items) == TakeCounted(old(pTimeout.timers), now)
    {
      hide Without, DueBy, DueAfter, SortByDue, Names, Shift, TakeCounted;
      pTimeout.TakeAllTimeout(now, pstTimeoutList, links, nodes);
      ghost var taken := TakeCounted(old(pTimeout.timers), now).1;
      assert [] + taken == taken;
    }

    /** One turn of the draining loop, short of calling pfnProcess: the popped
        record and whether it is to be processed now or went back to the wheel. */
    method NextActive(now: nat, ghost links: set<ItemLink>, ghost nodes: set<Item>) returns (lp: Item, process: bool)
      requires Valid(links, nodes) && Lists().active != []
      modifies pTimeout, links, nodes
      ensures Valid(links, nodes) && lp == old(Lists()).active[0] && lp.pLink != pstActiveList
      ensures var expire := old(lp.data.ullExpireTime);
              var popped := EL.Pop(old(Lists()));
              var (rearmed, ret) := EL.Arm(popped, lp, expire, now);
              if old(lp.data.bTimeout) && now < expire
              then Lists() == rearmed && process == (ret != Added)
              else Lists() == popped && process
      ensures lp.data == if process then old(lp.data) else old(lp.data).(bTimeout := false)
      ensures forall n :: n in nodes && n != lp ==> n.data == old(n.data)
    {
      hide Shift, Names;
      lp := PopActive(links, nodes);
      process := true;
      if lp.data.bTimeout && now < lp.data.ullExpireTime {
        var ret := pTimeout.AddTimeout(lp, now, links, nodes);
        if ret == Added {
          ClearTimeoutFlag(lp, links, nodes);
          process := false;
        }
      }
    }
  }

  /** stPoll_t: what one call of co_poll_inner waits for. */
  class Poll {
    const item: Item
    var revents: seq<bv16>
    var iAllEventDetach: bool
    var iRaiseCnt: nat

    constructor (item: Item, nfds: nat)
      ensures this.item == item && !iAllEventDetach && iRaiseCnt == 0
      ensures |revents| == nfds && forall i :: 0 <= i < nfds ==> revents[i] == 0
    {
      this.item := item;
      revents := seq(nfds, _ => 0);
      iAllEventDetach := false;
      iRaiseCnt := 0;
    }
  }

  /** OnPollPreparePfn: record what fd number `idx` of `lPoll` reported and move the
      poll from the wheel to the active list, the first time only. */
  method OnPollPreparePfn(ep: CoEpoll, lPoll: Poll, idx: nat, events: bv32, ghost links: set<ItemLink>,
      ghost nodes: set<Item>)
    requires ep.Valid(links, nodes) && lPoll.item in nodes && idx < |lPoll.revents|
    modifies lPoll, ep.pTimeout, links, nodes`pPrev, nodes`pNext, nodes`pLink
    ensures ep.Valid(links, nodes)
    ensures lPoll.revents == old(lPoll.revents)[idx := EpollEvent2Poll(events)]
    ensures lPoll.iRaiseCnt == old(lPoll.iRaiseCnt) + 1 && lPoll.iAllEventDetach
    ensures ep.Lists() == if old(lPoll.iAllEventDetach) then old(ep.Lists()) else EL.Ready(old(ep.Lists()), lPoll.item)
  {
    lPoll.revents := lPoll.revents[idx := EpollEvent2Poll(events)];
    lPoll.iRaiseCnt := lPoll.iRaiseCnt + 1;
    if !lPoll.iAllEventDetach {
      lPoll.iAllEventDetach := true;
      ep.MakeReady(lPoll.item, links, nodes);
    }
  }

  /** The condition queues: lists over nodes that embed timeout items of `nodes`, each
      its own. */
  ghost predicate Queues(conds: set<CondLink>, waiters: set<CondItem>, nodes: set<Item>)
    reads conds, waiters
  {
    && WellFormed(conds, waiters)
    && (forall w :: w in waiters ==> w.data in nodes)
    && forall v, w :: v in waiters && w in waiters && v != w ==> v.data != w.data
  }

  ghost function TimersOf(ws: seq<CondItem>): (r: seq<Item>)
    reads ws
    ensures |r| == |ws| && forall i :: 0 <= i < |ws| ==> r[i] == ws[i].data
  {
    if ws == [] then [] else [ws[0].data] + TimersOf(ws[1..])
  }

  /** co_cond_pop. */
  method CondPop(si: CondLink, ghost conds: set<CondLink>, ghost waiters: set<CondItem>, ghost nodes: set<Item>)
    returns (p: Node?<Item>)
    requires Queues(conds, waiters, nodes) && si in conds
    modifies si, si.items`pPrev, si.items`pNext, si.items`pLink
    ensures Queues(conds, waiters, nodes)
    ensures if old(si.items) == [] then p == null && si.items == []
            else p != null && p == old(si.items)[0] && si.items == old(si.items)[1..] && p.data in nodes
    ensures forall c :: c in conds && c != si ==> c.items == old(c.items)
  {
    assert si.Valid();
    p := si.head;
    if p != null {
      PopHead(si, conds, waiters);
    }
  }

  /** co_cond_signal: wake the longest waiter, if there is one. */
  method CondSignal(ep: CoEpoll, si: CondLink, ghost conds: set<CondLink>, ghost waiters: set<CondItem>,
                    ghost links: set<ItemLink>, ghost nodes: set<Item>)
    returns (woken: bool)
    requires ep.Valid(links, nodes) && Queues(conds, waiters, nodes) && si in conds
    modifies ep.pTimeout, links, nodes`pPrev, nodes`pNext, nodes`pLink
    modifies si, si.items`pPrev, si.items`pNext, si.items`pLink
    ensures ep.Valid(links, nodes) && Queues(conds, waiters, nodes)
    ensures woken == (old(si.items) != [])
    ensures if woken then
              && si.items == old(si.items)[1..]
              && ep.Lists() == EL.Ready(old(ep.Lists()), old(si.items)[0].data)
            else
              si.items == [] && ep.Lists() == old(ep.Lists())
    ensures forall c :: c in conds && c != si ==> c.items == old(c.items)
  {
    hide WellFormed, CoEpoll.Shape, Without, Forget;
    var sp := CondPop(si, conds, waiters, nodes);
    if sp == null {
      return false;
    }
    ep.MakeReady(sp.data, links, nodes);
    return true;
  }

  lemma DifferentTimers(si: CondLink, conds: set<CondLink>, waiters: set<CondItem>, nodes: set<Item>)
    requires Queues(conds, waiters, nodes) && si in conds
    ensures Distinct(TimersOf(si.items)) && forall w :: w in TimersOf(si.items) ==> w in nodes
  {
    assert si.Valid();
    var ws := TimersOf(si.items);
    forall i, j | 0 <= i < j < |ws| ensures ws[i] != ws[j] {
      assert si.items[i] in waiters && si.items[j] in waiters;
    }
    forall w | w in ws ensures w in nodes {
      var i :| 0 <= i < |ws| && ws[i] == w;
      assert si.items[i] in waiters;
    }
  }

  /** co_cond_broadcast: wake every waiter, in queue order. */
  method CondBroadcast(ep: CoEpoll, si: CondLink, ghost conds: set<CondLink>, ghost waiters: set<CondItem>,
                       ghost links: set<ItemLink>, ghost nodes: set<Item>)
    requires ep.Valid(links, nodes) && Queues(conds, waiters, nodes) && si in conds
    modifies ep.pTimeout, links, nodes`pPrev, nodes`pNext, nodes`pLink
    modifies si, si.items`pPrev, si.items`pNext, si.items`pLink
    ensures ep.Valid(links, nodes) && Queues(conds, waiters, nodes)
    ensures si.items == [] && ep.Lists() == EL.ReadyAll(old(ep.Lists()), old(TimersOf(si.items)))
    ensures var ws := old(TimersOf(si.items));
            && ep.pstActiveList.items == EL.Outside(old(ep.pstActiveList.items), ws) + ws
            && (forall w :: w in ws ==> w.pLink == ep.pstActiveList && w !in Names(ep.pTimeout.timers.log))
            && forall e :: e in ep.pTimeout.timers.log <==> e in old(ep.pTimeout.timers.log) && e.item !in ws
    ensures forall c :: c in conds && c != si ==> c.items == old(c.items)
  {
    hide WellFormed, CoEpoll.Shape, CoEpoll.Valid, Queues, Without, Forget, Names, EL.Ready, EL.Good, EL.Outside;
    ghost var all := si.items;
    ghost var ws := TimersOf(all);
    ghost var n := 0;
    ghost var ls := ep.Lists();
    DifferentTimers(si, conds, waiters, nodes);
    ep.GoodLists(links, nodes);
    while true
      invariant 0 <= n <= |all| && si.items == all[n..]
      invariant ep.Valid(links, nodes) && Queues(conds, waiters, nodes)
      invariant EL.ReadyAll(ep.Lists(), ws[n..]) == EL.ReadyAll(ls, ws)
      invariant forall c :: c in conds && c != si ==> c.items == old(c.items)
      decreases |all| - n
    {
      var woken := CondSignal(ep, si, conds, waiters, links, nodes);
      if !woken {
        break;
      }
      assert all[n..][1..] == all[n + 1..] && ws[n..][1..] == ws[n + 1..];
      n := n + 1;
    }
    ep.GoodLists(links, nodes);
    EL.ReadyAllMoves(ls, ws);
    forall w | w in ws ensures w.pLink == ep.pstActiveList && w !in Names(ep.pTimeout.timers.log) {
      NamesMembers(ep.pTimeout.timers.log, w);
    }
  }

  /** clsCoMutex: a counter and a condition queue. */
  class CoMutex {
    const m_ptCondSignal: CondLink
    var m_iWaitItemCnt: int

    constructor ()
      ensures fresh(m_ptCondSignal) && m_ptCondSignal.Valid() && m_ptCondSignal.items == [] && m_iWaitItemCnt == 0
    {
      m_ptCondSignal := new Link<Item>();
      m_iWaitItemCnt := 0;
    }

    /** CoLock, up to the point where it has the lock or yields: `psi` is the queue
        node that co_cond_timedwait allocates; without a timeout it is filed nowhere. */
    method CoLock(psi: CondItem, ghost conds: set<CondLink>, ghost waiters: set<CondItem>) returns (wait: bool)
      requires WellFormed(conds, waiters) && m_ptCondSignal in conds && psi in waiters && psi.pLink == null
      modifies this, m_ptCondSignal, psi`pPrev, psi`pNext, psi`pLink, m_ptCondSignal.items`pNext
      ensures WellFormed(conds, waiters) && m_iWaitItemCnt == old(m_iWaitItemCnt) + 1
      ensures wait == (old(m_iWaitItemCnt) > 0)
      ensures m_ptCondSignal.items == old(m_ptCondSignal.items) + (if wait then [psi] else [])
      ensures forall c :: c in conds && c != m_ptCondSignal ==> c.items == old(c.items)
    {
      if m_iWaitItemCnt > 0 {
        m_iWaitItemCnt := m_iWaitItemCnt + 1;
        AddTail(m_ptCondSignal, psi, conds, waiters);
        return true;
      } else {
        m_iWaitItemCnt := m_iWaitItemCnt + 1;
        return false;
      }
    }

    /** CoUnLock: count down and wake the longest waiter. */
    method CoUnLock(ep: CoEpoll, ghost conds: set<CondLink>, ghost waiters: set<CondItem>,
                    ghost links: set<ItemLink>, ghost nodes: set<Item>)
      requires ep.Valid(links, nodes) && Queues(conds, waiters, nodes) && m_ptCondSignal in conds
      modifies this, ep.pTimeout, links, nodes`pPrev, nodes`pNext, nodes`pLink
      modifies m_ptCondSignal, m_ptCondSignal.items`pPrev, m_ptCondSignal.items`pNext, m_ptCondSignal.items`pLink
      ensures ep.Valid(links, nodes) && Queues(conds, waiters, nodes)
      ensures m_iWaitItemCnt == old(m_iWaitItemCnt) - 1
      ensures var q := old(m_ptCondSignal.items);
              if q == [] then m_ptCondSignal.items == [] && ep.Lists() == old(ep.Lists())
              else m_ptCondSignal.items == q[1..] && ep.Lists() == EL.Ready(old(ep.Lists()), old(q[0].data))
      ensures forall c :: c in conds && c != m_ptCondSignal ==> c.items == old(c.items)
    {
      hide WellFormed, CoEpoll.Shape, Queues, Without, Forget;
      m_iWaitItemCnt := m_iWaitItemCnt - 1;
      var woken := CondSignal(ep, m_ptCondSignal, conds, waiters, links, nodes);
    }
  }
}
