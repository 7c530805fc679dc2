/** The single-level timing wheel of co_routine.cc: a ring of lists, one per
    millisecond, whose origin `ullStart`/`llStartIdx` slides forward.  The ghost
    field `timers` is what the ring holds; the methods are proved against the
    functions of module TimerLog. */
module TimingWheel {
  import opened Sequences
  import opened IntrusiveList
  import opened TimerLog
  import opened TimerSlots

  /** The fields of stTimeoutItem_t that the wheel and the event loop look at. */
  datatype Timer = Timer(ullExpireTime: nat, bTimeout: bool, pArg: nat)

  type Item = Node<Timer>
  type ItemLink = Link<Timer>

  const INT_RANGE: nat := 0x1_0000_0000

  /** `n` stored in an `int`: only the low 32 bits are kept. */
  function ToInt(n: nat): int {
    var low := n % INT_RANGE;
    if low < INT_RANGE / 2 then low else low - INT_RANGE
  }

  /** The slots that TakeAllTimeout counts from `start` to `now`, in an `int`. */
  function SlotsCounted(start: nat, now: nat): int
    requires start <= now
  {
    ToInt(now - start + 1)
  }

  /** The tick of the last slot that a pass visits, or its clock if it visits them all. */
  function Visited(size: nat, start: nat, now: nat): (tick: nat)
    requires start <= now && 0 < SlotsCounted(start, now)
    ensures start <= tick <= now
  {
    if SlotsCounted(start, now) > size then now else start + SlotsCounted(start, now) - 1
  }

  /** The wheel with its start set to `now` without a look at what it holds. */
  function SetOn<X>(ts: Timers<X>, now: nat): Timers<X>
    requires ts.start <= now
  {
    if ts.start == now then ts else Timers(ts.size, now, Shift(ts.log, now - ts.start))
  }

  /** What a pass does to the wheel: nothing if its count is negative, else it takes what
      is due by the last slot it visits. */
  function TakeCounted<X>(ts: Timers<X>, now: nat): (Timers<X>, seq<X>) {
    var t := Started(ts, now);
    if now < t.start || SlotsCounted(t.start, now) <= 0 then (t, [])
    else
      var tick := Visited(t.size, t.start, now);
      (SetOn(Remaining(t, tick), now), Expired(t, tick))
  }

  lemma CountFits<X>(ts: Timers<X>, now: nat)
    requires now - ts.start + 1 < INT_RANGE / 2
    ensures TakeCounted(ts, now) == TakeTimers(ts, now)
    ensures ts.start <= now ==> 0 < SlotsCounted(ts.start, now)
  {
  }

  /** A pass whose count comes out negative takes nothing and leaves the wheel as it is. */
  lemma NegativeCountSkips<X>(ts: Timers<X>, now: nat)
    requires 0 < ts.start <= now && (now - ts.start + 1) % 0x1_0000_0000 >= 0x8000_0000
    ensures TakeCounted(ts, now) == (ts, [])
  {
  }

  lemma {:induction false} Shifted<X>(s: seq<Entry<X>>, offset: nat, e: Entry<X>)
    requires e in s
    ensures Entry(e.item, e.due + offset) in Shift(s, offset)
  {
    ShiftAt(s, offset);
    var i :| 0 <= i < |s| && s[i] == e;
    assert Shift(s, offset)[i] == Entry(e.item, e.due + offset);
  }

  lemma DelayIsMultiple(start: nat, now: nat)
    requires start <= now && 0 < SlotsCounted(start, now)
    ensures var delay := now - (start + SlotsCounted(start, now) - 1); delay >= 0 && delay % INT_RANGE == 0
  {
  }

  /** After a gap that does not fit the count, whatever the pass leaves on the wheel is
      late by a multiple of 2^32 milliseconds. */
  lemma MiscountDelays<X>(ts: Timers<X>, now: nat, e: Entry<X>)
    requires Consistent(ts) && 0 < ts.start <= now && 0 < SlotsCounted(ts.start, now) <= ts.size && e in ts.log
    ensures var delay := now - (ts.start + SlotsCounted(ts.start, now) - 1); var (t, taken) := TakeCounted(ts, now);
            && delay >= 0 && delay % INT_RANGE == 0
            && (delay == 0 <==> now - ts.start + 1 == SlotsCounted(ts.start, now))
            && if e.due <= now - delay then e.item in taken else Entry(e.item, e.due + delay) in t.log
  {
    hide SlotsCounted, DueBy, DueAfter, SortByDue, Names, Consistent, Shift;
    DelayIsMultiple(ts.start, now);
    var tick := Visited(ts.size, ts.start, now);
    TakeTimersExact(ts, tick);
    if e.due > tick {
      assert e in Remaining(ts, tick).log;
      Shifted(Remaining(ts, tick).log, now - tick, e);
    }
  }

  // ----- arithmetic of the ring

  lemma MulMonotone(a: int, b: int, n: nat)
    ensures a <= b ==> n * a <= n * b
  {
  }

  lemma ModUnique(x: nat, n: nat, q: nat, r: nat)
    requires 0 < n && r < n && x == n * q + r
    ensures x % n == r
  {
    MulMonotone(x / n + 1, q, n);
    MulMonotone(q + 1, x / n, n);
  }

  /** Where slot `d` of a ring that starts at `k` is stored. */
  lemma RingIndex(k: nat, d: nat, n: nat)
    requires 0 < n && d < n
    ensures (k + d) % n == if k % n + d < n then k % n + d else k % n + d - n
  {
    var q := k / n;
    assert k == n * q + k % n;
    if k % n + d < n {
      ModUnique(k + d, n, q, k % n + d);
    } else {
      assert n * (q + 1) == n * q + n;
      ModUnique(k + d, n, q + 1, k % n + d - n);
    }
  }

  lemma RingDistinct(k: nat, d: nat, e: nat, n: nat)
    requires d < e < n
    ensures (k + d) % n != (k + e) % n
  {
    RingIndex(k, d, n);
    RingIndex(k, e, n);
  }

  /** Slot `d` after the origin moved on by `m` is slot `m + d`, modulo the ring. */
  lemma RingMoved(k: nat, m: nat, d: nat, n: nat)
    requires m < n && d < n
    ensures (k + m + d) % n == (k + (if m + d < n then m + d else m + d - n)) % n
  {
    RingIndex(k, m, n);
    RingIndex(k + m, d, n);
    RingIndex(k, if m + d < n then m + d else m + d - n, n);
  }

  /** Every place of the ring is some number of slots away from the origin. */
  lemma RingPlace(k: nat, i: nat, n: nat) returns (d: nat)
    requires i < n
    ensures d < n && (k + d) % n == i
  {
    d := if i >= k % n then i - k % n else i + n - k % n;
    RingIndex(k, d, n);
  }

  class Timeout {
    const pItems: array<ItemLink>
    const iItemSize: nat
    var ullStart: nat
    var llStartIdx: nat
    /** The lists `pItems` points at; they never change. */
    ghost const ring: seq<ItemLink>
    /** What the lists hold, from the origin on. */
    ghost var slots: seq<seq<Item>>
    /** The pending timers this stands for. */
    ghost var timers: Timers<Item>

    /** AllocTimeout: a ring of empty lists starting now. */
    constructor (iSize: nat, now: nat)
      requires 1 <= iSize
      ensures ullStart == now && llStartIdx == 0 && iItemSize == iSize
      ensures timers == Timers(iSize, now, []) && fresh(pItems) && Shape()
      ensures Distinct(ring) && forall l :: l in ring ==> fresh(l) && l.Valid() && l.items == []
    {
      var first := new Link<Timer>();
      var items := new ItemLink[iSize](_ => first);
      var i := 1;
      while i < iSize
        invariant 1 <= i <= iSize && items[0] == first && fresh(items)
        invariant forall j :: 0 <= j < i ==> fresh(items[j]) && items[j].Valid() && items[j].items == []
        invariant forall j, k :: 0 <= j < k < i ==> items[j] != items[k]
      {
        var l := new Link<Timer>();
        items[i] := l;
        i := i + 1;
      }
      pItems := items;
      ring := items[..];
      iItemSize := iSize;
      ullStart := now;
      llStartIdx := 0;
      slots := seq(iSize, _ => []);
      timers := Timers(iSize, now, []);
    }

    ghost predicate Shape()
      reads this, pItems
    {
      && pItems[..] == ring && |ring| == iItemSize == timers.size && ullStart == timers.start
      && Consistent(timers) && Agrees(slots, timers) && |slots| == iItemSize
      && (ullStart == 0 ==> llStartIdx == 0)
    }

    /** The list `d` places after index `k`. */
    ghost function SlotAt(k: nat, d: nat): (l: ItemLink)
      requires d < |ring|
      ensures l in ring
    {
      ring[(k + d) % |ring|]
    }

    /** The ring is made of different lists of the family; with the origin at `k`
        they hold `s`. */
    ghost predicate Ring(k: nat, s: seq<seq<Item>>, links: set<ItemLink>, nodes: set<Item>)
      reads links, nodes, ring
    {
      && WellFormed(links, nodes)
      && Distinct(ring) && (forall l :: l in ring ==> l in links)
      && |s| == |ring|
      && forall d: nat {:trigger SlotAt(k, d)} :: d < |s| ==> SlotAt(k, d).items == s[d]
    }

    ghost predicate Valid(links: set<ItemLink>, nodes: set<Item>)
      reads this, pItems, links, nodes, ring
    {
      Shape() && Ring(llStartIdx, slots, links, nodes)
    }

    /** Empty lists are the ring of an empty wheel. */
    lemma EmptyRing(links: set<ItemLink>)
      requires Shape() && timers.log == [] && Distinct(ring) && forall l :: l in ring ==> l in links
      requires forall l :: l in links ==> l.Valid() && l.items == []
      ensures Valid(links, {})
    {
      hide Consistent;
      assert AtTick(timers.log, 0) == [];
      forall d: nat | d < |slots| ensures slots[d] == [] {
        assert slots[d] == Names(AtTick(timers.log, timers.start + d));
      }
    }

    /** Two places of the ring are two lists. */
    lemma SlotsDiffer(k: nat, d: nat, e: nat)
      requires Distinct(ring) && d < |ring| && e < |ring| && d != e
      ensures SlotAt(k, d) != SlotAt(k, e)
    {
      if d < e {
        RingDistinct(k, d, e, |ring|);
      } else {
        RingDistinct(k, e, d, |ring|);
      }
    }

    /** A pending timer is on the list of its tick, and only those are on a slot. */
    lemma PendingIsLinked(x: Item, links: set<ItemLink>, nodes: set<Item>)
      requires Valid(links, nodes) && x in Names(timers.log)
      ensures x in nodes && x.pLink != null && x.pLink in ring
    {
      hide AtTick, Names, Shift, Consistent, Agrees;
      var d := PendingPlace(slots, timers, x);
      Owned(links, nodes);
      assert SlotAt(llStartIdx, d) in links;
    }

    lemma LinkedIsPending(x: Item, links: set<ItemLink>, nodes: set<Item>)
      requires Valid(links, nodes) && x in nodes && x.pLink != null && x.pLink in ring
      ensures x in Names(timers.log)
    {
      hide AtTick, Names, Shift, Consistent, Agrees;
      var i :| 0 <= i < |ring| && ring[i] == x.pLink;
      var d := RingPlace(llStartIdx, i, |ring|);
      assert SlotAt(llStartIdx, d) == x.pLink;
      PlacedIsPending(slots, timers, x, d);
    }

    /** `pLink` tells whether a timer is pending: exactly if it names a slot of the ring. */
    lemma PendingExactlyIfLinked(x: Item, links: set<ItemLink>, nodes: set<Item>)
      requires Valid(links, nodes) && x in nodes
      ensures x in Names(timers.log) <==> x.pLink != null && x.pLink in ring
    {
      hide AtTick, Names, Valid;
      if x in Names(timers.log) {
        PendingIsLinked(x, links, nodes);
      } else if x.pLink != null && x.pLink in ring {
        LinkedIsPending(x, links, nodes);
      }
    }

    /** The opening of AddTimeout and of TakeAllTimeout. */
    method Start(allNow: nat, ghost links: set<ItemLink>, ghost nodes: set<Item>)
      requires Valid(links, nodes)
      modifies this
      ensures Valid(links, nodes) && timers == Started(old(timers), allNow)
    {
      hide AtTick, Names, Shift, Consistent, Agrees;
      if ullStart == 0 {
        StartedValid(timers, allNow);
        AgreesStarted(slots, timers, allNow);
        timers := Started(timers, allNow);
        ullStart := allNow;
        llStartIdx := 0;
      }
    }

    /** The last step of AddTimeout: append to the slot `diff` ticks away. */
    method AppendAt(k: nat, diff: nat, apItem: Item, ghost s: seq<seq<Item>>,
                    ghost links: set<ItemLink>, ghost nodes: set<Item>)
      requires pItems[..] == ring && |ring| == iItemSize && Ring(k, s, links, nodes)
      requires apItem in nodes && apItem.pLink == null && diff < iItemSize
      modifies links, nodes`pPrev, nodes`pNext, nodes`pLink
      ensures Ring(k, s[diff := s[diff] + [apItem]], links, nodes)
      ensures forall l :: l in links && l !in ring ==> l.items == old(l.items)
      ensures forall n :: n in nodes && n != apItem ==> n.pLink == old(n.pLink)
    {
      var slot := pItems[(k + diff) % iItemSize];
      assert slot == SlotAt(k, diff);
      forall d: nat | d < iItemSize && d != diff ensures SlotAt(k, d) != slot {
        SlotsDiffer(k, d, diff);
      }
      AddTail(slot, apItem, links, nodes);
    }

    method File(apItem: Item, diff: nat, ghost links: set<ItemLink>, ghost nodes: set<Item>)
      requires Valid(links, nodes) && apItem in nodes && apItem.pLink == null && diff < iItemSize
      modifies this`timers, this`slots, links, nodes`pPrev, nodes`pNext, nodes`pLink
      ensures Valid(links, nodes)
      ensures timers == FileTimer(old(timers), apItem, ullStart + diff)
      ensures forall l :: l in links && l !in ring ==> l.items == old(l.items)
      ensures forall n :: n in nodes && n != apItem ==> n.pLink == old(n.pLink)
    {
      hide AtTick, Names, Shift, Consistent, Agrees;
      if apItem in Names(timers.log) {
        PendingIsLinked(apItem, links, nodes);
      }
      AgreesAdded(slots, timers, apItem, diff);
      FileConsistent(timers, apItem, ullStart + diff);
      ghost var s := slots;
      timers := FileTimer(timers, apItem, ullStart + diff);
      slots := s[diff := s[diff] + [apItem]];
      AppendAt(llStartIdx, diff, apItem, s, links, nodes);
    }

    /** AddTimeout: file `apItem` under its expiry, or under the last slot.  An item that
        is on some list already is accepted or refused alike, but stays where it is. */
    method AddTimeout(apItem: Item, allNow: nat, ghost links: set<ItemLink>, ghost nodes: set<Item>)
      returns (ret: AddResult)
      requires Valid(links, nodes) && apItem in nodes
      modifies this, links, nodes`pPrev, nodes`pNext, nodes`pLink
      ensures Valid(links, nodes)
      ensures old(apItem.pLink) == null ==>
              (timers, ret) == AddTimer(old(timers), apItem, apItem.data.ullExpireTime, allNow)
      ensures old(apItem.pLink) != null ==>
                && timers == Started(old(timers), allNow)
                && ret == AddTimer(old(timers), apItem, apItem.data.ullExpireTime, allNow).1
      ensures forall l :: l in links && (l !in ring || old(apItem.pLink) != null) ==> l.items == old(l.items)
      ensures forall n :: n in nodes && n != apItem ==> n.pLink == old(n.pLink)
      ensures ret != Added || old(apItem.pLink) != null ==> apItem.pLink == old(apItem.pLink)
    {
      hide AtTick, Names, Shift, Agrees;
      Start(allNow, links, nodes);
      if allNow < ullStart {
        return BeforeStart;
      }
      if apItem.data.ullExpireTime < allNow {
        return AlreadyExpired;
      }
      var diff := apItem.data.ullExpireTime - ullStart;
      if diff >= iItemSize {
        diff := iItemSize - 1;
      }
      if apItem.pLink == null {
        File(apItem, diff, links, nodes);
      }
      return Added;
    }

    /** RemoveFromLink on a timer, wherever it is: if pending, it no longer is. */
    method Remove(ap: Item, ghost links: set<ItemLink>, ghost nodes: set<Item>)
      requires Valid(links, nodes) && ap in nodes
      modifies this`timers, this`slots
      modifies ap.pLink, Siblings(ap)`pPrev, Siblings(ap)`pNext, Siblings(ap)`pLink
      ensures Valid(links, nodes) && timers == RemoveTimer(old(timers), ap)
      ensures ap.pLink == null && ap.pPrev == null && ap.pNext == null
      ensures forall l :: l in links && l !in ring ==>
                l.items == if l == old(ap.pLink) then Without(old(l.items), ap) else old(l.items)
      ensures forall n :: n in nodes && n != ap ==> n.pLink == old(n.pLink)
    {
      hide AtTick, Names, Forget, Agrees, Without;
      RemoveTimerValid(timers, ap);
      AgreesRemoved(slots, timers, ap);
      ghost var s := slots;
      slots := AllWithout(slots, ap);
      timers := RemoveTimer(timers, ap);
      Unfile(ap, s, links, nodes);
    }

    method Unfile(ap: Item, ghost s: seq<seq<Item>>, ghost links: set<ItemLink>, ghost nodes: set<Item>)
      requires Ring(llStartIdx, s, links, nodes) && ap in nodes
      modifies ap.pLink, Siblings(ap)`pPrev, Siblings(ap)`pNext, Siblings(ap)`pLink
      ensures Ring(llStartIdx, AllWithout(s, ap), links, nodes)
      ensures ap.pLink == null && ap.pPrev == null && ap.pNext == null
      ensures forall l :: l in links && l !in ring ==>
                l.items == if l == old(ap.pLink) then Without(old(l.items), ap) else old(l.items)
      ensures forall n :: n in nodes && n != ap ==> n.pLink == old(n.pLink)
    {
      hide Without;
      Owned(links, nodes);
      forall d: nat | d < |s| && SlotAt(llStartIdx, d) != ap.pLink ensures Without(s[d], ap) == s[d] {
        WithoutAbsent(s[d], ap);
      }
      RemoveFromLink(ap, links, nodes);
    }

    /** The loop of TakeAllTimeout: join the first `cnt` slots to `apResult`. */
    method Drain(cnt: nat, apResult: ItemLink, ghost links: set<ItemLink>, ghost nodes: set<Item>)
      requires pItems[..] == ring && |ring| == iItemSize && Ring(llStartIdx, slots, links, nodes)
      requires |slots| == iItemSize && cnt <= iItemSize && apResult in links && apResult !in ring
      modifies links, nodes`pPrev, nodes`pNext, nodes`pLink
      ensures Ring(llStartIdx, Emptied(slots, cnt), links, nodes)
      ensures apResult.items == old(apResult.items) + Concat(slots, cnt)
      ensures forall l :: l in links && l !in ring && l != apResult ==> l.items == old(l.items)
      ensures forall n :: n in nodes ==> n.pLink == old(n.pLink) || (old(n.pLink) in ring && n.pLink == apResult)
    {
      hide Emptied, Concat, Ring;
      ghost var r := apResult.items;
      ConcatStep(slots, 0);
      assert Emptied(slots, 0) == slots && r + [] == r;
      var i := 0;
      while i < cnt
        invariant 0 <= i <= cnt
        invariant Ring(llStartIdx, Emptied(slots, i), links, nodes)
        invariant apResult.items == r + Concat(slots, i)
        invariant forall l :: l in links && l !in ring && l != apResult ==> l.items == old(l.items)
        invariant forall n :: n in nodes ==> n.pLink == old(n.pLink) || (old(n.pLink) in ring && n.pLink == apResult)
      {
        JoinSlot(i, apResult, Emptied(slots, i), links, nodes);
        assert Emptied(slots, i)[i := []] == Emptied(slots, i + 1);
        i := i + 1;
        ConcatStep(slots, i);
        ConcatAssociative(r, Concat(slots, i - 1), slots[i - 1]);
      }
    }

    method JoinSlot(i: nat, apResult: ItemLink, ghost s: seq<seq<Item>>, ghost links: set<ItemLink>,
        ghost nodes: set<Item>)
      requires pItems[..] == ring && |ring| == iItemSize && Ring(llStartIdx, s, links, nodes)
      requires i < iItemSize && apResult in links && apResult !in ring
      modifies links, nodes`pPrev, nodes`pNext, nodes`pLink
      ensures Ring(llStartIdx, s[i := []], links, nodes)
      ensures apResult.items == old(apResult.items) + s[i]
      ensures forall l :: l in links && l !in ring && l != apResult ==> l.items == old(l.items)
      ensures forall n :: n in nodes ==> n.pLink == old(n.pLink) || (old(n.pLink) in ring && n.pLink == apResult)
    {
      var idx := (llStartIdx + i) % iItemSize;
      var slot := pItems[idx];
      assert slot == SlotAt(llStartIdx, i);
      forall d: nat | d < iItemSize && d != i ensures SlotAt(llStartIdx, d) != slot {
        SlotsDiffer(llStartIdx, d, i);
      }
      Owned(links, nodes);
      Join(apResult, slot, links, nodes);
      Owned(links, nodes);
    }

    /** The ring seen from the last emptied slot. */
    lemma Turned(k: nat, s: seq<seq<Item>>, cnt: nat, links: set<ItemLink>, nodes: set<Item>)
      requires 1 <= cnt <= |s| && Ring(k, Emptied(s, cnt), links, nodes)
      ensures Ring(k + cnt - 1, Advanced(s, cnt), links, nodes)
    {
      forall d: nat | d < |s|
        ensures SlotAt(k + cnt - 1, d).items == Advanced(s, cnt)[d]
      {
        RingMoved(k, cnt - 1, d, |s|);
        var e := if cnt - 1 + d < |s| then cnt - 1 + d else cnt - 1 + d - |s|;
        assert SlotAt(k + cnt - 1, d) == SlotAt(k, e);
      }
    }

    /** TakeAllTimeout: append what is due to `apResult` and move the origin to now. */
    method TakeAllTimeout(allNow: nat, apResult: ItemLink, ghost links: set<ItemLink>, ghost nodes: set<Item>)
      requires Valid(links, nodes) && apResult in links && apResult !in ring
      requires 0 < ullStart <= allNow ==> SlotsCounted(ullStart, allNow) != 0
      modifies this, links, nodes`pPrev, nodes`pNext, nodes`pLink
      ensures Valid(links, nodes)
      ensures var (t, taken) := TakeCounted(old(timers), allNow);
              timers == t && apResult.items == old(apResult.items) + taken
      ensures forall l :: l in links && l !in ring && l != apResult ==> l.items == old(l.items)
      ensures forall n :: n in nodes ==> n.pLink == old(n.pLink) || (old(n.pLink) in ring && n.pLink == apResult)
    {
      hide AtTick, Names, Shift, Agrees, SortByDue, DueBy, DueAfter, Concat, Emptied, Advanced, Ring;
      Start(allNow, links, nodes);
      if allNow < ullStart {
        return;
      }
      var cnt := ToInt(allNow - ullStart + 1);
      if cnt > iItemSize {
        cnt := iItemSize;
      }
      if cnt < 0 {
        return;
      }
      ghost var tick := Visited(iItemSize, ullStart, allNow);
      CollectedIsExpired(slots, timers, tick);
      Drain(cnt, apResult, links, nodes);
      Advance(cnt, tick, allNow, links, nodes);
    }

    /** The end of TakeAllTimeout: the origin becomes the last emptied slot. */
    method Advance(cnt: nat, ghost tick: nat, allNow: nat, ghost links: set<ItemLink>, ghost nodes: set<Item>)
      requires Shape() && 0 < iItemSize && ullStart <= tick <= allNow && cnt == SlotCount(iItemSize, ullStart, tick)
      requires Ring(llStartIdx, Emptied(slots, cnt), links, nodes)
      modifies this
      ensures Valid(links, nodes) && timers == SetOn(Remaining(old(timers), tick), allNow)
    {
      hide AtTick, Names, Agrees, DueAfter, Emptied, Advanced, Shift, Consistent;
      AdvancedIsSetOn(slots, timers, tick, allNow);
      Turned(llStartIdx, slots, cnt, links, nodes);
      slots := Advanced(slots, cnt);
      timers := SetOn(Remaining(timers, tick), allNow);
      ullStart := allNow;
      llStartIdx := llStartIdx + (cnt - 1);
    }
  }

  lemma SetOnValid<X>(slots: seq<seq<X>>, ts: Timers<X>, now: nat)
    requires Agrees(slots, ts) && Consistent(ts) && ts.start <= now
    ensures Agrees(slots, SetOn(ts, now)) && Consistent(SetOn(ts, now))
  {
    hide AtTick, Shift;
    var gap := now - ts.start;
    ShiftAt(ts.log, gap);
    forall d: nat | d < |slots|
      ensures slots[d] == Names(AtTick(Shift(ts.log, gap), now + d))
    {
      AtTickShift(ts.log, gap, ts.start + d);
      assert ts.start + d + gap == now + d;
    }
  }

  lemma AdvancedIsSetOn<X>(slots: seq<seq<X>>, ts: Timers<X>, tick: nat, now: nat)
    requires Agrees(slots, ts) && Consistent(ts) && ts.start <= tick <= now
    ensures |slots| == ts.size && 1 <= SlotCount(ts.size, ts.start, tick) <= |slots|
    ensures var t := SetOn(Remaining(ts, tick), now);
            && t.size == ts.size && t.start == now && Consistent(t)
            && Agrees(Advanced(slots, SlotCount(ts.size, ts.start, tick)), t)
  {
    hide AtTick, Names, DueAfter, Advanced, Shift;
    AdvancedIsRemaining(slots, ts, tick);
    RemainingConsistent(ts, tick);
    SetOnValid(Advanced(slots, SlotCount(ts.size, ts.start, tick)), Remaining(ts, tick), now);
  }
}
