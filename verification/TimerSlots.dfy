/** How a ring of slots stores the timers of module TimerLog: slot `d` holds those
    due `d` ticks after the start, in the order they were added. */
module TimerSlots {
  import opened Sequences
  import opened TimerLog

  ghost predicate Agrees<X>(slots: seq<seq<X>>, ts: Timers<X>) {
    && |slots| == ts.size
    && forall d :: 0 <= d < |slots| ==> slots[d] == Names(AtTick(ts.log, ts.start + d))
  }

  // ----- reading the slots one after the other

  /** The entries of the `n` ticks from `lo` on, tick by tick. */
  function TickRange<X>(s: seq<Entry<X>>, lo: nat, n: nat): seq<Entry<X>> {
    if n == 0 then [] else TickRange(s, lo, n - 1) + AtTick(s, lo + (n - 1))
  }

  lemma {:induction false} TickRangeAt<X>(s: seq<Entry<X>>, lo: nat, n: nat, t: nat)
    ensures AtTick(TickRange(s, lo, n), t) == if lo <= t < lo + n then AtTick(s, t) else []
  {
    hide AtTick;
    AtTickStep<X>([], t);
    if n > 0 {
      TickRangeAt(s, lo, n - 1, t);
      AtTickConcat(TickRange(s, lo, n - 1), AtTick(s, lo + (n - 1)), t);
      AtTickTwice(s, lo + (n - 1), t);
    }
  }

  lemma {:induction false} AtTickTwice<X>(s: seq<Entry<X>>, u: nat, t: nat)
    ensures AtTick(AtTick(s, u), t) == if u == t then AtTick(s, t) else []
    ensures forall i :: 0 <= i < |AtTick(s, u)| ==> AtTick(s, u)[i].due == u
  {
    if s != [] {
      AtTickTwice(s[1..], u, t);
      AtTickConcat(if s[0].due == u then [s[0]] else [], AtTick(s[1..], u), t);
    }
  }

  lemma {:induction false} TickRangeSorted<X>(s: seq<Entry<X>>, lo: nat, n: nat)
    ensures Sorted(TickRange(s, lo, n))
    ensures Within(TickRange(s, lo, n), lo, lo + n)
  {
    hide AtTick;
    if n > 0 {
      TickRangeSorted(s, lo, n - 1);
      AtTickTwice(s, lo + (n - 1), 0);
    }
  }

  lemma {:induction false} OutOfRange<X>(s: seq<Entry<X>>, lo: nat, hi: nat, t: nat)
    requires Within(s, lo, hi) && !(lo <= t < hi)
    ensures AtTick(s, t) == []
  {
    if s != [] {
      OutOfRange(s[1..], lo, hi, t);
    }
  }

  /** How many slots TakeAllTimeout visits. */
  function SlotCount(size: nat, start: nat, now: nat): nat
    requires start <= now
  {
    if now - start + 1 > size then size else now - start + 1
  }

  /** Emptying the slots from the origin on is sorting what is due. */
  lemma TickRangeIsSort<X>(s: seq<Entry<X>>, size: nat, start: nat, now: nat)
    requires start <= now && Within(s, start, start + size)
    ensures TickRange(s, start, SlotCount(size, start, now)) == SortByDue(DueBy(s, now))
  {
    hide AtTick, DueBy, SortByDue, TickRange;
    var n := SlotCount(size, start, now);
    var a, b := TickRange(s, start, n), SortByDue(DueBy(s, now));
    TickRangeSorted(s, start, n);
    SortIsStable(DueBy(s, now), 0);
    forall t: nat ensures AtTick(a, t) == AtTick(b, t) {
      TickRangeAt(s, start, n, t);
      SortIsStable(DueBy(s, now), t);
      AtTickSub(s, now, t);
      if !(start <= t < start + size) {
        OutOfRange(s, start, start + size, t);
      }
    }
    StableSortUnique(a, b);
  }

  lemma {:induction false} AtTickHas<X>(s: seq<Entry<X>>, i: nat)
    requires i < |s|
    ensures s[i].item in Names(AtTick(s, s[i].due))
  {
    var t := s[i].due;
    var h := if s[0].due == t then [s[0]] else [];
    NamesConcat(h, AtTick(s[1..], t));
    if i == 0 {
      assert Names(h)[0] == s[0].item;
    } else {
      AtTickHas(s[1..], i - 1);
    }
  }

  lemma {:induction false} AtTickNamed<X>(s: seq<Entry<X>>, t: nat, x: X)
    requires x in Names(AtTick(s, t))
    ensures x in Names(s)
  {
    var h := if s[0].due == t then [s[0]] else [];
    NamesConcat(h, AtTick(s[1..], t));
    NamesConcat([s[0]], s[1..]);
    assert s == [s[0]] + s[1..];
    if x !in Names(h) {
      AtTickNamed(s[1..], t, x);
    } else {
      assert Names(h) == [s[0].item] == Names([s[0]]);
    }
  }

  /** The slots after TakeAllTimeout has emptied the first `cnt` and moved the
      origin to the last of those. */
  function Advanced<X>(slots: seq<seq<X>>, cnt: nat): (r: seq<seq<X>>)
    requires 1 <= cnt <= |slots|
    ensures |r| == |slots|
    ensures forall d :: 0 <= d < |r| ==> r[d] == if d == 0 || d + cnt - 1 >= |slots| then [] else slots[d + cnt - 1]
  {
    seq(|slots|, d requires 0 <= d < |slots| => if d == 0 || d + cnt - 1 >= |slots| then [] else slots[d + cnt - 1])
  }

  /** The slots once the first `n` have been emptied. */
  function Emptied<X>(slots: seq<seq<X>>, n: nat): (r: seq<seq<X>>)
    requires n <= |slots|
    ensures |r| == |slots| && forall d :: 0 <= d < |r| ==> r[d] == if d < n then [] else slots[d]
  {
    seq(|slots|, d requires 0 <= d < |slots| => if d < n then [] else slots[d])
  }

  /** What a loop over the first `n` slots collects. */
  function Concat<X>(slots: seq<seq<X>>, n: nat): seq<X>
    requires n <= |slots|
  {
    if n == 0 then [] else Concat(slots, n - 1) + slots[n - 1]
  }

  lemma ConcatStep<X>(slots: seq<seq<X>>, n: nat)
    requires n <= |slots|
    ensures Concat(slots, n) == if n == 0 then [] else Concat(slots, n - 1) + slots[n - 1]
  {
  }

  lemma AgreesStarted<X>(slots: seq<seq<X>>, ts: Timers<X>, now: nat)
    requires Agrees(slots, ts) && ts.start == 0
    ensures Agrees(slots, Started(ts, now))
  {
    hide AtTick, Names, Shift;
    forall d: nat | d < |slots|
      ensures slots[d] == Names(AtTick(Shift(ts.log, now), now + d))
    {
      AtTickShift(ts.log, now, d);
      assert slots[d] == Names(AtTick(ts.log, 0 + d));
    }
  }

  lemma TickAdded<X>(log: seq<Entry<X>>, e: Entry<X>, t: nat)
    ensures Names(AtTick(log + [e], t)) == Names(AtTick(log, t)) + (if e.due == t then [e.item] else [])
  {
    AtTickConcat(log, [e], t);
    NamesConcat(AtTick(log, t), AtTick([e], t));
    assert AtTick([e], t) == if e.due == t then [e] else [];
  }

  lemma FileConsistent<X>(ts: Timers<X>, x: X, due: nat)
    requires Consistent(ts) && x !in Names(ts.log) && ts.start <= due < ts.start + ts.size
    ensures Consistent(FileTimer(ts, x, due))
  {
    hide Names;
    NamesConcat(ts.log, [Entry(x, due)]);
    OneName(Entry(x, due));
  }

  lemma AgreesAdded<X>(slots: seq<seq<X>>, ts: Timers<X>, x: X, diff: nat)
    requires Agrees(slots, ts) && diff < |slots|
    ensures Agrees(slots[diff := slots[diff] + [x]], FileTimer(ts, x, ts.start + diff))
  {
    hide AtTick, Names;
    var e := Entry(x, ts.start + diff);
    var s := slots[diff := slots[diff] + [x]];
    forall d: nat | d < |slots|
      ensures s[d] == Names(AtTick(ts.log + [e], ts.start + d))
    {
      TickAdded(ts.log, e, ts.start + d);
    }
  }

  function AllWithout<X(==)>(slots: seq<seq<X>>, x: X): (r: seq<seq<X>>)
    ensures |r| == |slots| && forall d :: 0 <= d < |r| ==> r[d] == Without(slots[d], x)
  {
    seq(|slots|, d requires 0 <= d < |slots| => Without(slots[d], x))
  }

  lemma AgreesRemoved<X>(slots: seq<seq<X>>, ts: Timers<X>, x: X)
    requires Agrees(slots, ts) && Consistent(ts)
    ensures Agrees(AllWithout(slots, x), RemoveTimer(ts, x))
  {
    hide AtTick, Names, Forget, Without;
    forall d: nat | d < |slots|
      ensures AllWithout(slots, x)[d] == Names(AtTick(Forget(ts.log, x), ts.start + d))
    {
      AtTickForget(ts.log, x, ts.start + d);
    }
  }

  lemma {:induction false} ConcatIsRange<X>(slots: seq<seq<X>>, ts: Timers<X>, n: nat)
    requires Agrees(slots, ts) && n <= |slots|
    ensures Concat(slots, n) == Names(TickRange(ts.log, ts.start, n))
  {
    hide AtTick, Names;
    NoNames<X>();
    if n > 0 {
      ConcatIsRange(slots, ts, n - 1);
      NamesConcat(TickRange(ts.log, ts.start, n - 1), AtTick(ts.log, ts.start + (n - 1)));
    }
  }

  /** Emptying the first slots collects what is due, in the order of TimerLog. */
  lemma CollectedIsExpired<X>(slots: seq<seq<X>>, ts: Timers<X>, now: nat)
    requires Agrees(slots, ts) && Consistent(ts) && ts.start <= now
    ensures Concat(slots, SlotCount(ts.size, ts.start, now)) == Expired(ts, now)
  {
    hide AtTick, DueBy, SortByDue, TickRange, Names, Concat;
    ConcatIsRange(slots, ts, SlotCount(ts.size, ts.start, now));
    TickRangeIsSort(ts.log, ts.size, ts.start, now);
  }

  lemma TickKept<X>(ts: Timers<X>, now: nat, t: nat)
    requires Consistent(ts) && ts.start <= now <= t
    ensures AtTick(DueAfter(ts.log, now), t) == if t == now || t >= ts.start + ts.size then [] else AtTick(ts.log, t)
  {
    hide AtTick, DueAfter;
    AtTickSub(ts.log, now, t);
    if t >= ts.start + ts.size {
      OutOfRange(ts.log, ts.start, ts.start + ts.size, t);
    }
  }

  /** Advancing the origin past the emptied slots keeps the rest where it is due. */
  lemma AdvancedIsRemaining<X>(slots: seq<seq<X>>, ts: Timers<X>, now: nat)
    requires Agrees(slots, ts) && Consistent(ts) && ts.start <= now
    ensures Agrees(Advanced(slots, SlotCount(ts.size, ts.start, now)), Remaining(ts, now))
  {
    hide AtTick, Names, DueAfter;
    forall d: nat | d < |slots|
      ensures Advanced(slots, SlotCount(ts.size, ts.start, now))[d] == Names(AtTick(DueAfter(ts.log, now), now + d))
    {
      AdvancedAt(slots, ts, now, d);
    }
  }

  lemma AdvancedAt<X>(slots: seq<seq<X>>, ts: Timers<X>, now: nat, d: nat)
    requires Agrees(slots, ts) && Consistent(ts) && ts.start <= now && d < |slots|
    ensures Advanced(slots, SlotCount(ts.size, ts.start, now))[d] == Names(AtTick(DueAfter(ts.log, now), now + d))
  {
    hide AtTick, Names, DueAfter, Advanced;
    NoNames<X>();
    TickKept(ts, now, now + d);
    if d > 0 && now + d < ts.start + ts.size {
      var e := now + d - ts.start;
      assert slots[e] == Names(AtTick(ts.log, ts.start + e));
    }
  }

  /** The members of the slots are the pending timers. */
  lemma PendingPlace<X>(slots: seq<seq<X>>, ts: Timers<X>, x: X) returns (d: nat)
    requires Agrees(slots, ts) && Consistent(ts) && x in Names(ts.log)
    ensures d < |slots| && x in slots[d]
  {
    hide AtTick, Names;
    var i :| 0 <= i < |ts.log| && Names(ts.log)[i] == x;
    AtTickHas(ts.log, i);
    d := ts.log[i].due - ts.start;
    assert slots[d] == Names(AtTick(ts.log, ts.start + d));
  }

  lemma PlacedIsPending<X>(slots: seq<seq<X>>, ts: Timers<X>, x: X, d: nat)
    requires Agrees(slots, ts) && d < |slots| && x in slots[d]
    ensures x in Names(ts.log)
  {
    hide AtTick, Names;
    AtTickNamed(ts.log, ts.start + d, x);
  }
}
