/** What the timing wheel of co_routine.cc keeps, without slots or pointers: the
    pending timers in the order they were added, each with the tick at which the
    wheel will hand it out.  `AddTimer`, `RemoveTimer` and `TakeTimers` say what
    AddTimeout, RemoveFromLink and TakeAllTimeout do to it. */
module TimerLog {
  import opened Sequences

  datatype Entry<X> = Entry(item: X, due: nat)

  /** `size` is iItemSize and `start` is ullStart. */
  datatype Timers<X> = Timers(size: nat, start: nat, log: seq<Entry<X>>)

  /** The three ways out of AddTimeout. */
  datatype AddResult = Added | BeforeStart | AlreadyExpired

  // ----- the pending entries

  function Names<X>(s: seq<Entry<X>>): (r: seq<X>)
    ensures |r| == |s| && forall i :: 0 <= i < |s| ==> r[i] == s[i].item
  {
    if s == [] then [] else [s[0].item] + Names(s[1..])
  }

  /** The entries due exactly at tick `t`, in order. */
  function AtTick<X>(s: seq<Entry<X>>, t: nat): seq<Entry<X>> {
    if s == [] then [] else (if s[0].due == t then [s[0]] else []) + AtTick(s[1..], t)
  }

  function DueBy<X>(s: seq<Entry<X>>, now: nat): seq<Entry<X>> {
    if s == [] then [] else (if s[0].due <= now then [s[0]] else []) + DueBy(s[1..], now)
  }

  function DueAfter<X>(s: seq<Entry<X>>, now: nat): seq<Entry<X>> {
    if s == [] then [] else (if s[0].due > now then [s[0]] else []) + DueAfter(s[1..], now)
  }

  function Forget<X(==)>(s: seq<Entry<X>>, x: X): seq<Entry<X>> {
    if s == [] then [] else (if s[0].item == x then [] else [s[0]]) + Forget(s[1..], x)
  }

  function Shift<X>(s: seq<Entry<X>>, offset: nat): seq<Entry<X>> {
    if s == [] then [] else [Entry(s[0].item, s[0].due + offset)] + Shift(s[1..], offset)
  }

  // ----- sorting by tick, first come first served within a tick

  predicate Sorted<X>(s: seq<Entry<X>>) {
    forall i, j :: 0 <= i < j < |s| ==> s[i].due <= s[j].due
  }

  function Insert<X>(e: Entry<X>, s: seq<Entry<X>>): seq<Entry<X>> {
    if s == [] || e.due <= s[0].due then [e] + s else [s[0]] + Insert(e, s[1..])
  }

  function SortByDue<X>(s: seq<Entry<X>>): seq<Entry<X>> {
    if s == [] then [] else Insert(s[0], SortByDue(s[1..]))
  }

  // ----- the operations

  /** A start of 0 means the wheel was never used: the first reading of the clock
      becomes its start, and whatever is in it moves along. */
  function Started<X>(ts: Timers<X>, now: nat): Timers<X> {
    if ts.start == 0 then Timers(ts.size, now, Shift(ts.log, now)) else ts
  }

  /** The tick a timer is filed under: its expiry, or the last one the wheel spans. */
  function FiledAt(size: nat, start: nat, expire: nat): nat
    requires start <= expire && 1 <= size
  {
    if expire - start >= size then start + (size - 1) else expire
  }

  function AddTimer<X>(ts: Timers<X>, x: X, expire: nat, now: nat): (Timers<X>, AddResult)
    requires 1 <= ts.size
  {
    var t := Started(ts, now);
    if now < t.start then (t, BeforeStart)
    else if expire < now then (t, AlreadyExpired)
    else (FileTimer(t, x, FiledAt(t.size, t.start, expire)), Added)
  }

  function FileTimer<X>(ts: Timers<X>, x: X, due: nat): Timers<X> {
    ts.(log := ts.log + [Entry(x, due)])
  }

  function RemoveTimer<X(==)>(ts: Timers<X>, x: X): Timers<X> {
    ts.(log := Forget(ts.log, x))
  }

  /** The timers that stay, and the ones handed out in the order of their ticks. */
  function TakeTimers<X>(ts: Timers<X>, now: nat): (Timers<X>, seq<X>) {
    var t := Started(ts, now);
    if now < t.start then (t, []) else (Remaining(t, now), Expired(t, now))
  }

  function Remaining<X>(ts: Timers<X>, now: nat): Timers<X> {
    Timers(ts.size, now, DueAfter(ts.log, now))
  }

  function Expired<X>(ts: Timers<X>, now: nat): seq<X> {
    Names(SortByDue(DueBy(ts.log, now)))
  }

  /** What every wheel satisfies: no timer twice, every tick within the span. */
  ghost predicate Consistent<X>(ts: Timers<X>) {
    && 1 <= ts.size
    && Distinct(Names(ts.log))
    && Within(ts.log, ts.start, ts.start + ts.size)
  }

  ghost predicate Within<X>(s: seq<Entry<X>>, lo: nat, hi: nat) {
    forall i :: 0 <= i < |s| ==> lo <= s[i].due < hi
  }

  // ----- lemmas about the sub-sequences

  lemma {:induction false} Members<X>(s: seq<Entry<X>>, now: nat)
    ensures forall e :: e in DueBy(s, now) <==> e in s && e.due <= now
    ensures forall e :: e in DueAfter(s, now) <==> e in s && e.due > now
    ensures forall e :: e in AtTick(s, now) <==> e in s && e.due == now
  {
    if s != [] {
      assert s == [s[0]] + s[1..];
      Members(s[1..], now);
    }
  }

  lemma {:induction false} ForgetMembers<X>(s: seq<Entry<X>>, x: X)
    ensures forall e :: e in Forget(s, x) <==> e in s && e.item != x
  {
    if s != [] {
      assert s == [s[0]] + s[1..];
      ForgetMembers(s[1..], x);
    }
  }

  lemma NamesMembers<X>(s: seq<Entry<X>>, x: X)
    ensures x in Names(s) <==> exists e :: e in s && e.item == x
  {
    if x in Names(s) {
      var i :| 0 <= i < |s| && Names(s)[i] == x;
      assert s[i] in s && s[i].item == x;
    }
    if e :| e in s && e.item == x {
      var i :| 0 <= i < |s| && s[i] == e;
      assert Names(s)[i] == x;
    }
  }

  /** Distinct names: an entry is determined by its item. */
  lemma OneEntry<X>(s: seq<Entry<X>>, e: Entry<X>, f: Entry<X>)
    requires Distinct(Names(s)) && e in s && f in s && e.item == f.item
    ensures e == f
  {
    var i :| 0 <= i < |s| && s[i] == e;
    var j :| 0 <= j < |s| && s[j] == f;
    assert Names(s)[i] == Names(s)[j];
  }

  lemma DistinctCons<X>(x: X, s: seq<X>)
    ensures Distinct([x] + s) <==> x !in s && Distinct(s)
  {
    var t := [x] + s;
    if Distinct(t) {
      forall i, j | 0 <= i < j < |s| ensures s[i] != s[j] { assert t[i + 1] != t[j + 1]; }
      forall i | 0 <= i < |s| ensures s[i] != x { assert t[0] != t[i + 1]; }
    }
  }

  /** `q` comes from `r` by leaving entries out; so it does with `h` in front. */
  lemma ConsDistinct<X>(h: Entry<X>, r: seq<Entry<X>>, q: seq<Entry<X>>)
    requires Distinct(Names([h] + r)) && Distinct(Names(q))
    requires forall i :: 0 <= i < |q| ==> q[i] in r
    ensures Distinct(Names([h] + q))
  {
    assert Names([h] + r) == [h.item] + Names(r);
    assert Names([h] + q) == [h.item] + Names(q);
    DistinctCons(h.item, Names(r));
    forall i | 0 <= i < |q| ensures q[i].item != h.item {
      var j :| 0 <= j < |r| && r[j] == q[i];
      assert Names(r)[j] == q[i].item;
    }
    DistinctCons(h.item, Names(q));
  }

  lemma TailDistinct<X>(s: seq<Entry<X>>)
    requires s != [] && Distinct(Names(s))
    ensures Distinct(Names(s[1..])) && s == [s[0]] + s[1..]
  {
    assert Names(s) == [s[0].item] + Names(s[1..]);
    DistinctCons(s[0].item, Names(s[1..]));
  }

  lemma {:induction false} DueByDistinct<X>(s: seq<Entry<X>>, now: nat)
    requires Distinct(Names(s))
    ensures Distinct(Names(DueBy(s, now)))
    ensures forall i :: 0 <= i < |DueBy(s, now)| ==> DueBy(s, now)[i] in s
  {
    if s != [] {
      TailDistinct(s);
      DueByDistinct(s[1..], now);
      ConsDistinct(s[0], s[1..], DueBy(s[1..], now));
      assert [] + DueBy(s[1..], now) == DueBy(s[1..], now);
    }
  }

  lemma {:induction false} DueAfterDistinct<X>(s: seq<Entry<X>>, now: nat)
    requires Distinct(Names(s))
    ensures Distinct(Names(DueAfter(s, now)))
    ensures forall i :: 0 <= i < |DueAfter(s, now)| ==> DueAfter(s, now)[i] in s
  {
    if s != [] {
      TailDistinct(s);
      DueAfterDistinct(s[1..], now);
      ConsDistinct(s[0], s[1..], DueAfter(s[1..], now));
      assert [] + DueAfter(s[1..], now) == DueAfter(s[1..], now);
    }
  }

  lemma {:induction false} ForgetDistinct<X>(s: seq<Entry<X>>, x: X)
    requires Distinct(Names(s))
    ensures Distinct(Names(Forget(s, x)))
    ensures forall i :: 0 <= i < |Forget(s, x)| ==> Forget(s, x)[i] in s
  {
    if s != [] {
      TailDistinct(s);
      ForgetDistinct(s[1..], x);
      ConsDistinct(s[0], s[1..], Forget(s[1..], x));
      assert [] + Forget(s[1..], x) == Forget(s[1..], x);
    }
  }

  lemma AtTickStep<X>(s: seq<Entry<X>>, t: nat)
    ensures AtTick(s, t) == if s == [] then [] else (if s[0].due == t then [s[0]] else []) + AtTick(s[1..], t)
  {
  }

  lemma {:induction false} AtTickConcat<X>(a: seq<Entry<X>>, b: seq<Entry<X>>, t: nat)
    ensures AtTick(a + b, t) == AtTick(a, t) + AtTick(b, t)
  {
    hide AtTick;
    AtTickStep(a, t);
    if a == [] {
      assert a + b == b;
    } else {
      AtTickConcat(a[1..], b, t);
      AtTickStep(a + b, t);
      assert (a + b)[1..] == a[1..] + b;
    }
  }

  lemma NoNames<X>()
    ensures Names<X>([]) == []
  {
  }

  lemma OneName<X>(e: Entry<X>)
    ensures Names([e]) == [e.item]
  {
  }

  lemma NamesConcat<X>(a: seq<Entry<X>>, b: seq<Entry<X>>)
    ensures Names(a + b) == Names(a) + Names(b)
  {
  }

  lemma {:induction false} AtTickSub<X>(s: seq<Entry<X>>, now: nat, t: nat)
    ensures AtTick(DueBy(s, now), t) == if t <= now then AtTick(s, t) else []
    ensures AtTick(DueAfter(s, now), t) == if t > now then AtTick(s, t) else []
  {
    if s != [] {
      AtTickSub(s[1..], now, t);
      AtTickConcat(if s[0].due <= now then [s[0]] else [], DueBy(s[1..], now), t);
      AtTickConcat(if s[0].due > now then [s[0]] else [], DueAfter(s[1..], now), t);
    }
  }

  /** Removing a timer takes it out of its tick and leaves every tick in order. */
  lemma {:induction false} AtTickForget<X>(s: seq<Entry<X>>, x: X, t: nat)
    requires Distinct(Names(s))
    ensures Names(AtTick(Forget(s, x), t)) == Without(Names(AtTick(s, t)), x)
  {
    if s != [] {
      var h, r := s[0], s[1..];
      assert Names(s) == [h.item] + Names(r);
      DistinctCons(h.item, Names(r));
      AtTickForget(r, x, t);
      AtTickConcat(if h.item == x then [] else [h], Forget(r, x), t);
      var a, f := AtTick(r, t), AtTick(Forget(r, x), t);
      if h.item == x {
        NotNamed(r, x, t);
      }
      assert AtTick([h], t) == if h.due == t then [h] else [];
      assert AtTick(s, t) == if h.due == t then [h] + a else a;
      assert AtTick(Forget(s, x), t) == if h.item == x || h.due != t then f else [h] + f;
      NamesConcat([h], a);
      NamesConcat([h], f);
      WithoutCons(h.item, Names(a), x);
    }
  }

  lemma NotNamed<X>(s: seq<Entry<X>>, x: X, t: nat)
    requires x !in Names(s)
    ensures Without(Names(AtTick(s, t)), x) == Names(AtTick(s, t))
  {
    NamesMembers(s, x);
    Members(s, t);
    NamesMembers(AtTick(s, t), x);
    WithoutAbsent(Names(AtTick(s, t)), x);
  }

  lemma WithoutCons<X>(h: X, s: seq<X>, x: X)
    ensures Without([h] + s, x) == if h == x then s else [h] + Without(s, x)
  {
    assert ([h] + s)[1..] == s;
  }

  lemma {:induction false} AtTickShift<X>(s: seq<Entry<X>>, offset: nat, t: nat)
    ensures Names(AtTick(Shift(s, offset), t + offset)) == Names(AtTick(s, t))
  {
    if s != [] {
      AtTickShift(s[1..], offset, t);
      AtTickConcat([Entry(s[0].item, s[0].due + offset)], Shift(s[1..], offset), t + offset);
    }
  }

  // ----- lemmas about the order

  lemma {:induction false} InsertProperties<X>(e: Entry<X>, s: seq<Entry<X>>, t: nat)
    requires Sorted(s)
    ensures Sorted(Insert(e, s))
    ensures forall f :: f in Insert(e, s) <==> f == e || f in s
    ensures AtTick(Insert(e, s), t) == AtTick([e], t) + AtTick(s, t)
  {
    if s == [] || e.due <= s[0].due {
      AtTickConcat([e], s, t);
    } else {
      InsertProperties(e, s[1..], t);
      assert s == [s[0]] + s[1..];
      AtTickConcat([s[0]], Insert(e, s[1..]), t);
      AtTickConcat([s[0]], s[1..], t);
      if s[0].due == t {
        assert AtTick([e], t) == [];
      }
    }
  }

  /** SortByDue is the stable sort: sorted, with each tick's entries as they came. */
  lemma {:induction false} SortIsStable<X>(s: seq<Entry<X>>, t: nat)
    ensures Sorted(SortByDue(s))
    ensures AtTick(SortByDue(s), t) == AtTick(s, t)
    ensures forall e :: e in SortByDue(s) <==> e in s
  {
    if s != [] {
      SortIsStable(s[1..], t);
      InsertProperties(s[0], SortByDue(s[1..]), t);
      assert s == [s[0]] + s[1..];
      AtTickConcat([s[0]], s[1..], t);
    }
  }

  lemma {:induction false} HeadTick<X>(s: seq<Entry<X>>)
    requires s != []
    ensures AtTick(s, s[0].due) == [s[0]] + AtTick(s[1..], s[0].due)
    ensures forall t :: t != s[0].due ==> AtTick(s, t) == AtTick(s[1..], t)
  {
  }

  /** There is only one stable sort. */
  lemma {:induction false} StableSortUnique<X>(a: seq<Entry<X>>, b: seq<Entry<X>>)
    requires Sorted(a) && Sorted(b)
    requires forall t :: AtTick(a, t) == AtTick(b, t)
    ensures a == b
  {
    if a == [] || b == [] {
      if a != [] { HeadTick(a); }
      if b != [] { HeadTick(b); }
    } else {
      SameHead(a, b);
      forall t ensures AtTick(a[1..], t) == AtTick(b[1..], t) {
        SameTail(a, b, t);
      }
      StableSortUnique(a[1..], b[1..]);
      assert a == [a[0]] + a[1..] && b == [b[0]] + b[1..];
    }
  }

  lemma SameHead<X>(a: seq<Entry<X>>, b: seq<Entry<X>>)
    requires Sorted(a) && Sorted(b) && a != [] && b != []
    requires forall t :: AtTick(a, t) == AtTick(b, t)
    ensures a[0] == b[0]
  {
    HeadTick(a);
    HeadTick(b);
    var fa, fb := AtTick(b, a[0].due)[0], AtTick(a, b[0].due)[0];
    Members(b, a[0].due);
    Members(a, b[0].due);
    assert fa in AtTick(b, a[0].due) && fb in AtTick(a, b[0].due);
    assert fa in b && fb in a;
    assert a[0].due == b[0].due;
  }

  lemma SameTail<X>(a: seq<Entry<X>>, b: seq<Entry<X>>, t: nat)
    requires a != [] && b != [] && a[0] == b[0] && AtTick(a, t) == AtTick(b, t)
    ensures AtTick(a[1..], t) == AtTick(b[1..], t)
  {
    HeadTick(a);
    HeadTick(b);
    if t == a[0].due {
      assert AtTick(a[1..], t) == AtTick(a, t)[1..];
      assert AtTick(b[1..], t) == AtTick(b, t)[1..];
    }
  }

  // ----- the operations keep the wheel valid and do what a set of timers would

  lemma {:induction false} ShiftAt<X>(s: seq<Entry<X>>, offset: nat)
    ensures |Shift(s, offset)| == |s|
    ensures forall i :: 0 <= i < |s| ==> Shift(s, offset)[i] == Entry(s[i].item, s[i].due + offset)
  {
    if s != [] {
      ShiftAt(s[1..], offset);
    }
  }

  lemma StartedValid<X>(ts: Timers<X>, now: nat)
    requires Consistent(ts)
    ensures Consistent(Started(ts, now)) && Names(Started(ts, now).log) == Names(ts.log)
    ensures ts.start > 0 ==> Started(ts, now) == ts
  {
    ShiftAt(ts.log, now);
  }

  /** A timer that fits the span is filed under its expiry, one that does not
      under the last tick, which is earlier. */
  lemma AddTimerValid<X>(ts: Timers<X>, x: X, expire: nat, now: nat)
    requires Consistent(ts) && x !in Names(ts.log)
    ensures var (t, r) := AddTimer(ts, x, expire, now);
            && Consistent(t)
            && (r == Added <==> Started(ts, now).start <= now <= expire)
            && (r == Added ==> var due := FiledAt(t.size, t.start, expire);
                  && t.start <= due <= expire
                  && (due < expire <==> expire - t.start >= t.size)
                  && forall e :: e in t.log <==> e in Started(ts, now).log || e == Entry(x, due))
            && (r != Added ==> t == Started(ts, now))
  {
    StartedValid(ts, now);
    var s := Started(ts, now);
    var (t, r) := AddTimer(ts, x, expire, now);
    if r == Added {
      assert Names(t.log) == Names(s.log) + [x];
    }
  }

  lemma RemoveTimerValid<X>(ts: Timers<X>, x: X)
    requires Consistent(ts)
    ensures Consistent(RemoveTimer(ts, x))
    ensures forall e :: e in RemoveTimer(ts, x).log <==> e in ts.log && e.item != x
  {
    ForgetMembers(ts.log, x);
    ForgetDistinct(ts.log, x);
    ForgetWithin(ts.log, x, ts.start, ts.start + ts.size);
  }

  lemma {:induction false} ForgetWithin<X>(s: seq<Entry<X>>, x: X, lo: nat, hi: nat)
    requires Within(s, lo, hi)
    ensures Within(Forget(s, x), lo, hi)
  {
    if s != [] {
      ForgetWithin(s[1..], x, lo, hi);
    }
  }

  lemma RemainingConsistent<X>(ts: Timers<X>, now: nat)
    requires Consistent(ts) && ts.start <= now
    ensures Consistent(Remaining(ts, now))
  {
    DueAfterDistinct(ts.log, now);
    DueAfterWithin(ts.log, now, ts.start, ts.start + ts.size);
  }

  lemma {:induction false} DueAfterWithin<X>(s: seq<Entry<X>>, now: nat, lo: nat, hi: nat)
    requires Within(s, lo, hi) && lo <= now
    ensures Within(DueAfter(s, now), now, now + hi - lo)
  {
    if s != [] {
      DueAfterWithin(s[1..], now, lo, hi);
    }
  }

  /** TakeAllTimeout hands out exactly the timers whose tick has come, each once,
      and keeps the others unchanged; what is kept is due strictly later. */
  lemma TakeTimersExact<X>(ts: Timers<X>, now: nat)
    requires Consistent(ts)
    ensures var (t, taken) := TakeTimers(ts, now); var s := Started(ts, now);
            && Consistent(t) && Distinct(taken)
            && (now < s.start ==> t == s && taken == [])
            && (s.start <= now ==>
                  && t.start == now
                  && (forall x :: x in taken <==> exists e :: e in s.log && e.item == x && e.due <= now)
                  && (forall e :: e in t.log <==> e in s.log && e.due > now))
  {
    StartedValid(ts, now);
    var (t, taken) := TakeTimers(ts, now);
    var s := Started(ts, now);
    if s.start <= now {
      var due := DueBy(s.log, now);
      var out := SortByDue(due);
      Members(s.log, now);
      SortIsStable(due, 0);
      forall x ensures x in taken <==> exists e :: e in s.log && e.item == x && e.due <= now {
        NamesMembers(out, x);
      }
      DueByDistinct(s.log, now);
      DueAfterDistinct(s.log, now);
      SortKeepsDistinct(due);
    }
  }

  lemma {:induction false} SortKeepsDistinct<X>(s: seq<Entry<X>>)
    requires Distinct(Names(s))
    ensures Distinct(Names(SortByDue(s)))
  {
    if s != [] {
      assert Names(s) == [s[0].item] + Names(s[1..]);
      DistinctCons(s[0].item, Names(s[1..]));
      SortKeepsDistinct(s[1..]);
      SortIsStable(s[1..], 0);
      NamesMembers(SortByDue(s[1..]), s[0].item);
      NamesMembers(s[1..], s[0].item);
      InsertKeepsDistinct(s[0], SortByDue(s[1..]));
    }
  }

  lemma {:induction false} InsertKeepsDistinct<X>(e: Entry<X>, s: seq<Entry<X>>)
    requires Distinct(Names(s)) && e.item !in Names(s)
    ensures Distinct(Names(Insert(e, s)))
    ensures forall x :: x in Names(Insert(e, s)) <==> x == e.item || x in Names(s)
  {
    DistinctCons(e.item, Names(s));
    if s == [] || e.due <= s[0].due {
      assert Names([e] + s) == [e.item] + Names(s);
    } else {
      assert Names(s) == [s[0].item] + Names(s[1..]);
      DistinctCons(s[0].item, Names(s[1..]));
      InsertKeepsDistinct(e, s[1..]);
      assert Names([s[0]] + Insert(e, s[1..])) == [s[0].item] + Names(Insert(e, s[1..]));
      DistinctCons(s[0].item, Names(Insert(e, s[1..])));
    }
  }
}
