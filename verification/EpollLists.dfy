/** The two places a wait record of the event loop can be: pending in the timing
    wheel, or on the active list.  The functions say what co_routine.cc does to
    them; module EventLoop proves the pointer code against them and module
    Scheduler runs on them. */
module EpollLists {
  import opened Sequences
  import opened TimerLog

  datatype Lists<X> = Lists(timers: Timers<X>, active: seq<X>)

  /** RemoveFromLink followed by AddTail on the active list: how both readiness
      (OnPollPreparePfn) and a signal wake a waiter. */
  function Ready<X(==)>(ls: Lists<X>, x: X): Lists<X> {
    Lists(RemoveTimer(ls.timers, x), Without(ls.active, x) + [x])
  }

  function ReadyAll<X(==)>(ls: Lists<X>, xs: seq<X>): Lists<X>
    decreases |xs|
  {
    if xs == [] then ls else ReadyAll(Ready(ls, xs[0]), xs[1..])
  }

  /** The members of `s` that are not in `xs`, in their order. */
  function Outside<X(==)>(s: seq<X>, xs: seq<X>): seq<X> {
    if s == [] then [] else (if s[0] in xs then [] else [s[0]]) + Outside(s[1..], xs)
  }

  /** RemoveFromLink alone: how co_poll_inner cleans up. */
  function Detach<X(==)>(ls: Lists<X>, x: X): Lists<X> {
    Lists(RemoveTimer(ls.timers, x), Without(ls.active, x))
  }

  /** The timeouts of one pass of the event loop: taken off the wheel and appended
      to the active list.  The second result is what was taken. */
  function Collect<X>(ls: Lists<X>, now: nat): (Lists<X>, seq<X>) {
    var (t, taken) := TakeTimers(ls.timers, now);
    (Lists(t, ls.active + taken), taken)
  }

  /** PopHead on the active list. */
  function Pop<X>(ls: Lists<X>): Lists<X>
    requires ls.active != []
  {
    ls.(active := ls.active[1..])
  }

  function Arm<X>(ls: Lists<X>, x: X, expire: nat, now: nat): (Lists<X>, AddResult)
    requires 1 <= ls.timers.size
  {
    var (t, r) := AddTimer(ls.timers, x, expire, now);
    (ls.(timers := t), r)
  }

  predicate Pending<X(==)>(ls: Lists<X>, x: X) { x in Names(ls.timers.log) }

  /** Each record is in at most one place, once. */
  ghost predicate Good<X>(ls: Lists<X>) {
    && Consistent(ls.timers)
    && Distinct(ls.active)
    && forall x :: x in ls.active ==> !Pending(ls, x)
  }

  /** `x` is pending and due at `due`. */
  ghost predicate DueAt<X>(ls: Lists<X>, x: X, due: nat) {
    Entry(x, due) in ls.timers.log
  }

  // ----- what the operations do to membership

  lemma PendingIsDue<X>(ls: Lists<X>, x: X)
    ensures Pending(ls, x) <==> exists due: nat :: DueAt(ls, x, due)
  {
    NamesMembers(ls.timers.log, x);
    if e :| e in ls.timers.log && e.item == x {
      assert DueAt(ls, x, e.due);
    }
    if due: nat :| DueAt(ls, x, due) {
      assert Entry(x, due).item == x;
    }
  }

  lemma RemovePending<X(!new)>(ts: Timers<X>, x: X)
    requires Consistent(ts)
    ensures Consistent(RemoveTimer(ts, x))
    ensures forall y :: y in Names(RemoveTimer(ts, x).log) <==> y in Names(ts.log) && y != x
    ensures forall y, due: nat :: Entry(y, due) in RemoveTimer(ts, x).log <==> Entry(y, due) in ts.log && y != x
  {
    RemoveTimerValid(ts, x);
    forall y ensures y in Names(RemoveTimer(ts, x).log) <==> y in Names(ts.log) && y != x {
      NamesMembers(ts.log, y);
      NamesMembers(RemoveTimer(ts, x).log, y);
    }
  }

  lemma DetachMoves<X(!new)>(ls: Lists<X>, x: X)
    requires Good(ls)
    ensures var r := Detach(ls, x);
            && Good(r) && r.timers.start == ls.timers.start && r.timers.size == ls.timers.size
            && (forall y :: Pending(r, y) <==> Pending(ls, y) && y != x)
            && (forall y :: y in r.active <==> y in ls.active && y != x)
            && (forall y, due: nat :: DueAt(r, y, due) <==> DueAt(ls, y, due) && y != x)
  {
    RemovePending(ls.timers, x);
    WithoutMembers(ls.active, x);
  }

  lemma ReadyMoves<X(!new)>(ls: Lists<X>, x: X)
    requires Good(ls)
    ensures var r := Ready(ls, x);
            && Good(r) && r.timers.start == ls.timers.start && r.timers.size == ls.timers.size
            && (forall y :: Pending(r, y) <==> Pending(ls, y) && y != x)
            && (forall y :: y in r.active <==> y in ls.active || y == x)
            && (forall y, due: nat :: DueAt(r, y, due) <==> DueAt(ls, y, due) && y != x)
  {
    RemovePending(ls.timers, x);
    WithoutMembers(ls.active, x);
  }

  lemma PopMoves<X(!new)>(ls: Lists<X>)
    requires Good(ls) && ls.active != []
    ensures var r := Pop(ls);
            && Good(r) && r.timers == ls.timers
            && (forall y :: y in r.active <==> y in ls.active && y != ls.active[0])
            && !Pending(r, ls.active[0])
  {
    var s := ls.active;
    assert s[0] in s;
    forall y ensures y in s[1..] <==> y in s && y != s[0] {
      if y in s && y != s[0] {
        var i :| 0 <= i < |s| && s[i] == y;
        assert s[1..][i - 1] == y;
      }
    }
  }

  lemma ArmMoves<X(!new)>(ls: Lists<X>, x: X, expire: nat, now: nat)
    requires Good(ls) && !Pending(ls, x) && x !in ls.active
    ensures var (r, res) := Arm(ls, x, expire, now);
            && Good(r) && r.active == ls.active && r.timers.size == ls.timers.size
            && r.timers.start == Started(ls.timers, now).start
            && (res == Added <==> r.timers.start <= now <= expire)
            && (forall y :: Pending(r, y) <==> Pending(ls, y) || (res == Added && y == x))
            && (ls.timers.start > 0 ==> forall y, due: nat :: DueAt(r, y, due) <==>
                  DueAt(ls, y, due) || (res == Added && y == x
                    && due == FiledAt(r.timers.size, r.timers.start, expire)))
  {
    var (r, res) := Arm(ls, x, expire, now);
    AddTimerValid(ls.timers, x, expire, now);
    StartedValid(ls.timers, now);
    if res == Added {
      var e := Entry(x, FiledAt(r.timers.size, r.timers.start, expire));
      NamesConcat(Started(ls.timers, now).log, [e]);
      OneName(e);
    }
  }

  lemma CollectMoves<X(!new)>(ls: Lists<X>, now: nat)
    requires Good(ls)
    ensures var (r, taken) := Collect(ls, now);
            && Good(r) && r.timers.size == ls.timers.size
            && r.active == ls.active + taken && Distinct(taken)
            && (forall y :: y in taken ==> Pending(ls, y) && !Pending(r, y))
            && (forall y :: Pending(ls, y) <==> Pending(r, y) || y in taken)
  {
    hide DueBy, DueAfter, SortByDue, Shift;
    var (r, taken) := Collect(ls, now);
    var s := Started(ls.timers, now);
    TakeTimersExact(ls.timers, now);
    StartedValid(ls.timers, now);
    forall y
      ensures y in taken ==> Pending(ls, y) && !Pending(r, y)
      ensures Pending(ls, y) <==> Pending(r, y) || y in taken
    {
      NamesMembers(s.log, y);
      NamesMembers(r.timers.log, y);
      if now >= s.start && y in taken && Pending(r, y) {
        var e :| e in s.log && e.item == y && e.due <= now;
        var f :| f in r.timers.log && f.item == y;
        OneEntry(s.log, e, f);
      }
    }
    var a := ls.active + taken;
    forall i, j | 0 <= i < j < |a| ensures a[i] != a[j] {
      if i < |ls.active| <= j {
        assert a[i] in ls.active && a[j] in taken;
      }
    }
  }

  /** With the clock running forward, a pass takes what is due and nothing else,
      and the wheel then starts at the pass's clock. */
  lemma CollectTakesDue<X(!new)>(ls: Lists<X>, now: nat)
    requires Good(ls) && 0 < ls.timers.start <= now
    ensures var (r, taken) := Collect(ls, now);
            && r.timers.start == now
            && (forall y :: y in taken <==> exists due: nat :: DueAt(ls, y, due) && due <= now)
            && (forall y, due: nat :: DueAt(r, y, due) <==> DueAt(ls, y, due) && due > now)
  {
    hide DueBy, DueAfter, SortByDue, Names, Shift, Consistent;
    var (r, taken) := Collect(ls, now);
    TakeTimersExact(ls.timers, now);
    StartedValid(ls.timers, now);
    forall y ensures y in taken <==> exists due: nat :: DueAt(ls, y, due) && due <= now {
      if y in taken {
        var e :| e in ls.timers.log && e.item == y && e.due <= now;
        assert DueAt(ls, y, e.due);
      }
      if due: nat :| DueAt(ls, y, due) && due <= now {
        assert Entry(y, due).item == y && Entry(y, due).due <= now;
      }
    }
  }

  // ----- waking several

  lemma {:induction false} OutsideConcat<X>(s: seq<X>, t: seq<X>, xs: seq<X>)
    ensures Outside(s + t, xs) == Outside(s, xs) + Outside(t, xs)
  {
    if s == [] {
      assert s + t == t;
    } else {
      assert (s + t)[1..] == s[1..] + t;
      OutsideConcat(s[1..], t, xs);
    }
  }

  lemma {:induction false} OutsideNone<X>(s: seq<X>)
    ensures Outside(s, []) == s
  {
    if s != [] {
      OutsideNone(s[1..]);
    }
  }

  /** Leaving out `x` and then `xs` is leaving out all of them. */
  lemma {:induction false} OutsideWithout<X>(s: seq<X>, x: X, xs: seq<X>)
    requires Distinct(s)
    ensures Outside(Without(s, x), xs) == Outside(s, [x] + xs)
  {
    if s != [] {
      if s[0] == x {
        OutsideAbsent(s[1..], x, xs);
      } else {
        OutsideWithout(s[1..], x, xs);
      }
    }
  }

  lemma {:induction false} OutsideAbsent<X>(s: seq<X>, x: X, xs: seq<X>)
    requires x !in s
    ensures Outside(s, xs) == Outside(s, [x] + xs)
  {
    if s != [] {
      assert s[0] in s;
      OutsideAbsent(s[1..], x, xs);
    }
  }

  lemma StillPending<X>(ts: Timers<X>, x: X, y: X)
    requires Consistent(ts)
    ensures y in Names(RemoveTimer(ts, x).log) <==> y in Names(ts.log) && y != x
  {
    hide Forget, Names, Consistent;
    var t := RemoveTimer(ts, x);
    RemoveTimerValid(ts, x);
    NamesMembers(ts.log, y);
    NamesMembers(t.log, y);
    if e :| e in t.log && e.item == y {
      assert e in ts.log && e.item != x;
    }
    if e :| e in ts.log && e.item == y && y != x {
      assert e in t.log;
    }
  }

  /** `ReadyMoves` for records that are objects. */
  lemma ReadyEntries<X>(ls: Lists<X>, x: X)
    requires Good(ls)
    ensures Good(Ready(ls, x))
    ensures forall e :: e in Ready(ls, x).timers.log <==> e in ls.timers.log && e.item != x
  {
    hide Forget, Names, Without, Consistent;
    RemoveTimerValid(ls.timers, x);
    WithoutMembers(ls.active, x);
    forall y | y in Ready(ls, x).active ensures !Pending(Ready(ls, x), y) {
      StillPending(ls.timers, x, y);
    }
  }

  /** All of `xs` are off the wheel and last on the active list, in their order; every
      other record is where it was. */
  lemma {:induction false} ReadyAllMoves<X>(ls: Lists<X>, xs: seq<X>)
    requires Good(ls) && Distinct(xs)
    ensures var r := ReadyAll(ls, xs);
            && Good(r) && r.active == Outside(ls.active, xs) + xs
            && forall e :: e in r.timers.log <==> e in ls.timers.log && e.item !in xs
    decreases |xs|
  {
    hide Good;
    if xs == [] {
      OutsideNone(ls.active);
    } else {
      var x := xs[0];
      var u := Ready(ls, x);
      ReadyEntries(ls, x);
      ReadyAllMoves(u, xs[1..]);
      ActiveDistinct(ls);
      OutsideWithout(ls.active, x, xs[1..]);
      OutsideConcat(Without(ls.active, x), [x], xs[1..]);
      assert Outside([x], xs[1..]) == [x];
      assert [x] + xs[1..] == xs;
    }
  }

  lemma ActiveDistinct<X>(ls: Lists<X>)
    requires Good(ls)
    ensures Distinct(ls.active)
  {
  }
}
