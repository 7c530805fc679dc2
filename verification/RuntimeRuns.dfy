/** Polls and condition waits over every run of scheduler and stacks together: nobody
    writes to the stack of a coroutine that is away, its poll items stay readable, and
    the results of a poll reach the caller's array after it is switched back in. */
module RuntimeRuns {
  import opened Runtime
  import opened RuntimeInv
  import opened SchedulerShape
  import opened Wrappers
  import K = SharedStack
  import KI = SharedStackInv
  import KR = SharedStackRuns
  import S = Scheduler
  import SI = SchedulerInv
  import SR = SchedulerReports

  /** `m` is reached from the start by the run `before`. */
  ghost predicate Reached(size: nat, now: nat, shared: set<S.Co>, b: seq<Byte>, before: seq<Event>, m: Machine) {
    1 <= size && S.MAIN !in shared && Runs(Init(size, now, shared, b), before)
      && m == Exec(Init(size, now, shared, b), before)
  }

  ghost predicate Reachable(m: Machine) {
    exists size, now, shared, b, before :: Reached(size, now, shared, b, before, m)
  }

  lemma ReachableInv(m: Machine) returns (h: History)
    requires Reachable(m)
    ensures Inv(m, h)
  {
    hide Inv, Runs, Exec, SeenAfter;
    var size, now, shared, b, before :| Reached(size, now, shared, b, before, m);
    InitInv(size, now, shared, b);
    RunKeeps(Init(size, now, shared, b), map[], before);
    h := SeenAfter(Init(size, now, shared, b), map[], before);
  }

  // ----- whose stack is written

  /** A step of the scheduler writes to the stack of a waiting coroutine exactly if it
      switches it in: neither its poll items nor the caller's array is touched before. */
  lemma WritesExactlyIfSwitchedIn(m: Machine, e: S.Event, d: Detail, co: S.Co)
    requires Reachable(m) && Enabled(m, Sched(e, d)) && co in m.s.blocked
    ensures (exists p :: p in Writes(m, e, d) && p.place.OnStack? && p.place.co == co) <==>
            SwitchedIn(m.s, S.Step(m.s, e)) == Some(co)
  {
    hide KI.Inv, S.Step, S.Enabled, Reachable;
    var h := ReachableInv(m);
    LibraryOnHeap(m, h);
    BlockedIsAway(m, h, co);
    var t := S.Step(m.s, e);
    if SwitchedIn(m.s, t) == Some(co) {
      assert StackSpan(m.w, co) in Writes(m, e, d);
    }
  }

  /** Is byte `i` of the stack buffer that `c` uses among the bytes of `p`? */
  predicate Covers(w: World, p: Span, c: S.Co, i: nat)
    requires c in w.cos
  {
    && p.place.OnStack? && p.place.co in w.cos && w.cos[p.place.co].stack_mem == w.cos[c].stack_mem
    && p.place.at <= i < p.place.at + p.length
  }

  /** From `w` to `t`, stack buffers have changed in the spans `ps` only. */
  ghost predicate OnlyIn(w: World, t: World, ps: set<Span>) {
    && K.Sane(w) && K.Sane(t) && t.cos.Keys == w.cos.Keys
    && forall c :: c in w.cos ==>
         && t.cos[c].stack_mem == w.cos[c].stack_mem && |K.Buffer(t, c)| == |K.Buffer(w, c)|
         && forall i :: 0 <= i < |K.Buffer(w, c)| && K.Buffer(t, c)[i] != K.Buffer(w, c)[i] ==>
            exists p :: p in ps && Covers(w, p, c, i)
  }

  lemma OnlyInTwice(w: World, t: World, u: World, ps: set<Span>, qs: set<Span>)
    requires OnlyIn(w, t, ps) && OnlyIn(t, u, qs)
    ensures OnlyIn(w, u, ps + qs)
  {
    forall c, i | c in w.cos && 0 <= i < |K.Buffer(w, c)| && K.Buffer(u, c)[i] != K.Buffer(w, c)[i]
      ensures exists p :: p in ps + qs && Covers(w, p, c, i)
    {
      if K.Buffer(t, c)[i] != K.Buffer(w, c)[i] {
        var p :| p in ps && Covers(w, p, c, i);
        assert p in ps + qs;
      } else {
        var p :| p in qs && Covers(t, p, c, i);
        assert p in ps + qs && Covers(w, p, c, i);
      }
    }
  }

  lemma OnlyInMore(w: World, t: World, ps: set<Span>, qs: set<Span>)
    requires OnlyIn(w, t, ps) && ps <= qs
    ensures OnlyIn(w, t, qs)
  {
  }

  lemma NothingWritten(w: World)
    requires K.Sane(w)
    ensures OnlyIn(w, w, {})
  {
  }

  /** Other bytes for `co`'s buffer, equal outside a span of it. */
  lemma BufferWritten(w: World, co: S.Co, b: seq<Byte>, p: Span)
    requires K.Sane(w) && co in w.cos && |b| == |K.Buffer(w, co)| && p.place.OnStack? && p.place.co == co
    requires forall i :: 0 <= i < |b| && !(p.place.at <= i < p.place.at + p.length) ==> b[i] == K.Buffer(w, co)[i]
    ensures OnlyIn(w, KR.WithBuffer(w, co, b), {p})
  {
    var t := KR.WithBuffer(w, co, b);
    forall c, i | c in w.cos && 0 <= i < |K.Buffer(w, c)| && K.Buffer(t, c)[i] != K.Buffer(w, c)[i]
      ensures exists q :: q in {p} && Covers(w, q, c, i)
    {
      assert p in {p} && Covers(w, p, c, i);
    }
  }

  /** The first half of what an entry's result is, and the entry that it lands in. */
  lemma {:induction false} PutRest(b: seq<Byte>, at: nat, rs: seq<bv16>, j: nat)
    requires at + POLLFD_SIZE * |rs| <= |b| && j < |b|
             && !(at <= j < at + POLLFD_SIZE * |rs| && (j - at) % POLLFD_SIZE >= 6)
    ensures PutRevents(b, at, rs)[j] == b[j]
    decreases |rs|
  {
    if rs != [] {
      PutRest(b[at + 6 := Low(rs[0])][at + 7 := High(rs[0])], at + POLLFD_SIZE, rs[1..], j);
    }
  }

  /** The revents field of entry `i` of an array of struct pollfd at `at`. */
  function ReventsAt(b: seq<Byte>, at: nat, i: nat): int
    requires at + POLLFD_SIZE * (i + 1) <= |b|
  {
    Joined(b[at + POLLFD_SIZE * i + 6], b[at + POLLFD_SIZE * i + 7])
  }

  function Joined(low: int, high: int): int { low + 256 * high }

  lemma Halves(x: bv16)
    ensures Joined(Low(x), High(x)) == x as int
  {
    HalvesOf(x as int);
  }

  lemma HalvesOf(n: nat)
    requires n < 0x1_0000
    ensures Joined(n % 256, n / 256 % 256) == n
  {
  }

  /** What poll hands out is what the caller reads: each entry's revents, and every
      other byte as it was. */
  lemma {:induction false} ResultsReadBack(b: seq<Byte>, at: nat, rs: seq<bv16>, i: nat)
    requires at + POLLFD_SIZE * |rs| <= |b| && i < |rs|
    ensures ReventsAt(PutRevents(b, at, rs), at, i) == rs[i] as int
    decreases i
  {
    hide Low, High, Joined;
    var b1 := b[at + 6 := Low(rs[0])][at + 7 := High(rs[0])];
    if i == 0 {
      PutRest(b1, at + POLLFD_SIZE, rs[1..], at + 6);
      PutRest(b1, at + POLLFD_SIZE, rs[1..], at + 7);
      Halves(rs[0]);
    } else {
      ResultsReadBack(b1, at + POLLFD_SIZE, rs[1..], i - 1);
    }
  }

  lemma FilledWrites(m: Machine, h: History, e: S.Event, d: Detail)
    requires Inv(m, h) && Enabled(m, Sched(e, d))
    ensures OnlyIn(m.w, Filled(m, e, d), ItemsSpans(m, e, d))
  {
    LibraryOnHeap(m, h);
    ScribblesOnHeap(m.w, d.scribbles);
    hide KI.Inv, SI.Inv, S.Enabled, OnlyIn;
    if ItemsOnStack(m, e) {
      var top := K.Top(m.w);
      BufferWritten(m.w, top, K.Copied(K.Buffer(m.w, top), d.itemsAt, d.image),
        Span(OnStack(top, d.itemsAt), |d.image|));
    } else {
      NothingWritten(m.w);
    }
  }

  lemma BroughtWrites(w: World, t: World, co: S.Co)
    requires K.Sane(w) && co in w.cos && KR.BytesBut(w, t, co)
    ensures OnlyIn(w, t, {StackSpan(w, co)})
  {
    forall c, i | c in w.cos && 0 <= i < |K.Buffer(w, c)| && K.Buffer(t, c)[i] != K.Buffer(w, c)[i]
      ensures exists p :: p in {StackSpan(w, co)} && Covers(w, p, c, i)
    {
      assert StackSpan(w, co) in {StackSpan(w, co)} && Covers(w, StackSpan(w, co), c, i);
    }
  }

  /** Who is switched in by a push or a pop. */
  lemma SwitchBrings(m: Machine, h: History, e: S.Event, d: Detail)
    requires Inv(m, h) && Enabled(m, Sched(e, d)) && Shape(m.s, e, S.Step(m.s, e))
    ensures var t := S.Step(m.s, e);
            match SwitchedIn(m.s, t)
            case None => !Pushes(m.s, t) && !Pops(m.s, t)
            case Some(co) => co in m.w.cos && KR.Brings(Filled(m, e, d), Switch(m, e, d), co)
  {
    hide KI.Inv, SI.Inv, WaitsOk, Filled, S.Step, S.Enabled, Quiet, Begins, Ends;
    FilledOwn(m, h, e, d);
    if Pushes(m.s, S.Step(m.s, e)) {
      CanPush(m, e);
    }
  }

  lemma SwitchedWrites(m: Machine, h: History, e: S.Event, d: Detail)
    requires Inv(m, h) && Enabled(m, Sched(e, d)) && Shape(m.s, e, S.Step(m.s, e))
    ensures K.Sane(Filled(m, e, d))
    ensures OnlyIn(Filled(m, e, d), Switched(m, e, d), BroughtSpans(m, e))
  {
    hide KI.Inv, SI.Inv, WaitsOk, Filled, S.Step, S.Enabled, Switched, OnlyIn, K.Step, K.Enabled, Shape;
    var w1 := Filled(m, e, d);
    FilledOwn(m, h, e, d);
    SwitchedIsStep(m, h, e, d);
    SwitchBrings(m, h, e, d);
    match SwitchedIn(m.s, S.Step(m.s, e))
    case None => NothingWritten(w1);
    case Some(co) =>
      KR.SwitchBytes(w1, h, Switch(m, e, d), co);
      BroughtWrites(w1, Switched(m, e, d), co);
  }

  lemma DeliverWrites(w: World, p: Place, rs: seq<bv16>)
    requires K.Sane(w) && (p.OnStack? ==> p.co in w.cos && p.at + POLLFD_SIZE * |rs| <= |K.Buffer(w, p.co)|)
    ensures OnlyIn(w, Deliver(w, p, rs), {Span(p, POLLFD_SIZE * |rs|)})
  {
    hide PutRevents;
    if p.Heap? {
      NothingWritten(w);
      OnlyInMore(w, w, {}, {Span(p, POLLFD_SIZE * |rs|)});
    } else {
      var b := K.Buffer(w, p.co);
      forall i | 0 <= i < |b| && !(p.at <= i < p.at + POLLFD_SIZE * |rs|) ensures PutRevents(b, p.at, rs)[i] == b[i] {
        PutRest(b, p.at, rs, i);
      }
      BufferWritten(w, p.co, PutRevents(b, p.at, rs), Span(p, POLLFD_SIZE * |rs|));
    }
  }

  /** `Writes` is all that a step of the scheduler writes: no byte of any stack changes
      anywhere else. */
  lemma WritesIsAll(m: Machine, e: S.Event, d: Detail)
    requires Reachable(m) && Enabled(m, Sched(e, d))
    ensures OnlyIn(m.w, Step(m, Sched(e, d)).w, Writes(m, e, d))
  {
    var h := ReachableInv(m);
    StepShape(m.s, e);
    hide KI.Inv, SI.Inv, WaitsOk, Filled, S.Step, S.Enabled, Switched, OnlyIn, Shape, Step, Reachable, Deliver, Agree;
    var w1, w2, u := Filled(m, e, d), Switched(m, e, d), Step(m, Sched(e, d)).w;
    FilledWrites(m, h, e, d);
    SwitchedWrites(m, h, e, d);
    var ps, qs := ItemsSpans(m, e, d), BroughtSpans(m, e);
    OnlyInTwice(m.w, w1, w2, ps, qs);
    StepFromSwitched(m, h, e, d);
    match Returning(m.s, S.Step(m.s, e))
    case None => OnlyInMore(m.w, w2, ps + qs, Writes(m, e, d));
    case Some(r) =>
      RoomToDeliver(m, h, e, d, r);
      TopInCos(w2);
      DeliverWrites(w2, m.objects[r].results, m.s.waits[r].kind.revents);
      var rs := {Span(m.objects[r].results, POLLFD_SIZE * |m.s.waits[r].kind.revents|)};
      OnlyInTwice(m.w, w2, u, ps + qs, rs);
      OnlyInMore(m.w, u, ps + qs + rs, Writes(m, e, d));
  }

  lemma TopInCos(w: World)
    requires K.Sane(w)
    ensures K.Top(w) in w.cos
  {
    TopOnStack(w);
  }

  // ----- while a coroutine waits

  /** What `co` has on its stack, wherever it is kept. */
  function Content(w: World, co: S.Co): seq<Byte>
    requires K.Sane(w) && co in w.cos
  {
    if !KI.InPlace(w, co) then (if w.cos[co].save_buffer.Some? then w.cos[co].save_buffer.value else [])
    else if w.cos[co].stack_sp <= |K.Buffer(w, co)| then K.View(w, co)
    else []
  }

  lemma ContentIsLeft(w: World, h: History, co: S.Co)
    requires KI.Inv(w, h) && KI.Alive(w, co) && co != K.Top(w)
    ensures co in h && Content(w, co) == h[co] && w.cos[co].stack_sp < |K.Buffer(w, co)|
  {
    assert KI.KeptOrNew(w, h, co);
  }

  /** `es` runs from `m` while the wait `r` lasts. */
  ghost predicate Waiting(m: Machine, es: seq<Event>, r: S.Rid)
    decreases |es|
  {
    r in m.s.waits && (es != [] ==> Enabled(m, es[0]) && Waiting(Step(m, es[0]), es[1..], r))
  }

  /** The wait `r` goes on from `m` to `u`, with its stack and objects left alone. */
  ghost predicate Untouched(m: Machine, h: History, u: Machine, g: History, r: S.Rid) {
    && r in m.s.waits && r in u.s.waits && SameShape(m.s.waits[r], u.s.waits[r])
       && SameLeft(m.w, h, u.w, g, m.s.waits[r].co)
    && r in m.objects && r in u.objects && u.objects[r] == m.objects[r]
  }

  lemma UntouchedTwice(m: Machine, h: History, u: Machine, g: History, v: Machine, f: History, r: S.Rid)
    requires Untouched(m, h, u, g, r) && Untouched(u, g, v, f, r)
    ensures Untouched(m, h, v, f, r)
  {
  }

  lemma WaitsOn(s: S.State, e: S.Event, t: S.State, r: S.Rid)
    requires Shape(s, e, t) && SI.Inv(s) && r in s.waits && r in t.waits
    ensures SameShape(s.waits[r], t.waits[r]) && Returning(s, t) != Some(r) && r != s.nextRid
    ensures Pushes(s, t) ==> s.waits[r].co != S.Top(t)
  {
  }

  lemma SameLeftBytes(w: World, h: History, t: World, g: History, u: World, co: S.Co)
    requires SameLeft(w, h, t, g, co) && SameButBytes(t, u)
    ensures SameLeft(w, h, u, g, co)
  {
  }

  lemma SchedWaits(m: Machine, h: History, e: S.Event, d: Detail, r: S.Rid)
    requires Inv(m, h) && Enabled(m, Sched(e, d)) && r in m.s.waits && r in S.Step(m.s, e).waits
    ensures Untouched(m, h, Step(m, Sched(e, d)), Seen(m, h, Sched(e, d)), r)
  {
    hide KI.Inv, SI.Inv, Filled, S.Step, S.Enabled, Switched, Seen, NewObjects, Step, Agree, ObjectsOk, SameButBytes,
         Deliver, PutRevents, Shape,
         SameLeft, SameShape;
    StepShape(m.s, e);
    WaitsOn(m.s, e, S.Step(m.s, e), r);
    LiveWait(m.s, r);
    StepFromSwitched(m, h, e, d);
    SwitchLeaves(m, h, e, d, m.s.waits[r].co);
    SameLeftBytes(m.w, h, Switched(m, e, d), Seen(m, h, Sched(e, d)), Step(m, Sched(e, d)).w, m.s.waits[r].co);
  }

  lemma StackWaits(m: Machine, h: History, k: K.Event<S.Co, nat>, r: S.Rid)
    requires Inv(m, h) && Enabled(m, Stack(k)) && r in m.s.waits
    ensures Untouched(m, h, Step(m, Stack(k)), h, r)
  {
    hide KI.Inv, SI.Inv, K.Step, SameLeft, Agree, ObjectsOk;
    LiveWait(m.s, r);
    StackKeeps(m, h, k);
  }

  lemma StepWaits(m: Machine, h: History, ev: Event, r: S.Rid)
    requires Inv(m, h) && Enabled(m, ev) && r in m.s.waits && r in Step(m, ev).s.waits
    ensures Untouched(m, h, Step(m, ev), Seen(m, h, ev), r)
  {
    hide Inv, Untouched;
    match ev
    case Sched(e, d) => SchedWaits(m, h, e, d, r);
    case Stack(k) => StackWaits(m, h, k, r);
  }

  lemma {:induction false} WaitingKeeps(m: Machine, h: History, es: seq<Event>, r: S.Rid)
    requires Inv(m, h) && Waiting(m, es, r)
    ensures Runs(m, es) && r in Exec(m, es).s.waits && Inv(Exec(m, es), SeenAfter(m, h, es))
    ensures Untouched(m, h, Exec(m, es), SeenAfter(m, h, es), r)
    decreases |es|
  {
    if es == [] {
      assert WaitsOk(m, h);
      StaysItself(m, h, r);
    } else {
      hide Inv, Step, Enabled, Untouched, Seen;
      StepKeeps(m, h, es[0]);
      StepWaits(m, h, es[0], r);
      WaitingKeeps(Step(m, es[0]), Seen(m, h, es[0]), es[1..], r);
      UntouchedTwice(m, h, Step(m, es[0]), Seen(m, h, es[0]), Exec(m, es), SeenAfter(m, h, es), r);
    }
  }

  lemma StaysItself(m: Machine, h: History, r: S.Rid)
    requires Inv(m, h) && r in m.s.waits
    ensures Untouched(m, h, m, h, r)
  {
    hide KI.Inv, SI.Inv;
    LiveWait(m.s, r);
    BlockedIsAway(m, h, m.s.waits[r].co);
  }

  /** Whatever others do meanwhile: while a coroutine waits, what it has on its stack,
      its address, and what the caller's array on the heap holds stay as they are. */
  lemma WaitingStackStays(m: Machine, es: seq<Event>, r: S.Rid)
    requires Reachable(m) && Waiting(m, es, r)
    ensures Runs(m, es) && r in m.s.waits && r in m.objects
    ensures var u := Exec(m, es); var co := m.s.waits[r].co;
            && K.Sane(m.w) && K.Sane(u.w) && co in m.w.cos && co in u.w.cos
            && Content(u.w, co) == Content(m.w, co) && u.w.cos[co].stack_sp == m.w.cos[co].stack_sp
            && r in u.objects && u.objects[r] == m.objects[r]
  {
    var h := ReachableInv(m);
    hide KI.Inv, SI.Inv, Reachable, Runs, Exec, Step, Enabled, ObjectsOk, Content;
    WaitingKeeps(m, h, es, r);
    var u, g := Exec(m, es), SeenAfter(m, h, es);
    WaitsAlive(m, h, r);
    WaitsAlive(u, g, r);
    ContentIsLeft(m.w, h, m.s.waits[r].co);
    ContentIsLeft(u.w, g, m.s.waits[r].co);
  }

  lemma WaitsAlive(m: Machine, h: History, r: S.Rid)
    requires Inv(m, h) && r in m.s.waits
    ensures var co := m.s.waits[r].co; KI.Alive(m.w, co) && co != K.Top(m.w) && KI.Inv(m.w, h) && K.Sane(m.w)
  {
    hide KI.Inv, SI.Inv;
    LiveWait(m.s, r);
    BlockedIsAway(m, h, m.s.waits[r].co);
  }

  // ----- poll items

  /** What a poll that has just yielded left behind. */
  lemma PollBegins(m: Machine, h: History, e: S.Event, d: Detail)
    requires Inv(m, h) && Enabled(m, Sched(e, d)) && m.s.nextRid in S.Step(m.s, e).waits
    ensures var u := Step(m, Sched(e, d)); var r := m.s.nextRid; var co := K.Top(m.w); var g := Seen(m, h, Sched(e, d));
            && r in u.s.waits && u.s.waits[r].co == co && (e.Poll? <==> u.s.waits[r].kind.PollWait?)
            && (e.Poll? ==> u.s.waits[r].kind.fds == e.fds && u.s.waits[r].kind.revents == S.Zeroes(|e.fds|))
            && r in u.objects && u.objects[r] == NewObjects(m, e, d)
            && co in u.w.cos && u.w.cos[co].stack_sp == d.sp && co in g && g[co] == KR.Left(Filled(m, e, d), d.sp)
            && K.OnStack(Filled(m, e, d), d.sp)
  {
    hide KI.Inv, SI.Inv, Filled, S.Step, S.Enabled, Switched, Seen, NewObjects, Step, ObjectsOk, Deliver, PutRevents;
    StepShape(m.s, e);
    NewIsFresh(m.s, e, S.Step(m.s, e));
    StepFromSwitched(m, h, e, d);
    BeginsParks(m, h, e, d);
  }

  lemma NewIsFresh(s: S.State, e: S.Event, t: S.State)
    requires Shape(s, e, t) && SI.Inv(s) && s.nextRid in t.waits
    ensures s.nextRid !in s.waits && Begins(s, e, t) && t.nextRid > s.nextRid && Returning(s, t) == None
    ensures !Pushes(s, t)
  {
  }

  lemma PrivateItems(m: Machine, h: History, r: S.Rid)
    requires Inv(m, h) && r in m.s.waits && m.objects[r].items.OnStack?
    ensures var p := m.objects[r].items; var o := m.objects[r];
            && p.co == m.s.waits[r].co && p.co in m.w.cos && !m.w.cos[p.co].cIsShareStack
               && p.at + |o.image| <= |K.Buffer(m.w, p.co)|
            && K.Buffer(m.w, p.co)[p.at..][..|o.image|] == o.image
  {
    WaitsAlive(m, h, r);
    hide SI.Inv;
    var p := m.objects[r].items;
    assert ObjectsOk(m.w, h, m.s.waits[r], m.objects[r]);
    assert KI.KeptOrNew(m.w, h, p.co);
    hide KI.Inv;
    var b, sp := K.Buffer(m.w, p.co), m.w.cos[p.co].stack_sp;
    assert b[sp..][p.at - sp..] == b[p.at..];
  }

  /** A poll whose items are on its stack finds them, and epoll's pointers into them
      good, as they were filled, for as long as it waits. */
  lemma ItemsIntact(m: Machine, e: S.Event, d: Detail, es: seq<Event>)
    requires Reachable(m) && Enabled(m, Sched(e, d)) && ItemsOnStack(m, e)
    requires m.s.nextRid in S.Step(m.s, e).waits && Waiting(Step(m, Sched(e, d)), es, m.s.nextRid)
    ensures Runs(Step(m, Sched(e, d)), es)
    ensures var u := Exec(Step(m, Sched(e, d)), es); var r := m.s.nextRid; var co := K.Top(m.w);
            && r in u.objects && u.objects[r].items == OnStack(co, d.itemsAt)
            && K.Sane(u.w) && co in u.w.cos && d.itemsAt + |d.image| <= |K.Buffer(u.w, co)|
            && K.Buffer(u.w, co)[d.itemsAt..][..|d.image|] == d.image
  {
    var h := ReachableInv(m);
    hide KI.Inv, SI.Inv, Reachable, Runs, Exec, Step, Enabled, ObjectsOk, S.Step, S.Enabled, Filled, Seen, SeenAfter,
         Waiting, Agree;
    PollBegins(m, h, e, d);
    StepKeeps(m, h, Sched(e, d));
    var m1, h1 := Step(m, Sched(e, d)), Seen(m, h, Sched(e, d));
    WaitingKeeps(m1, h1, es, m.s.nextRid);
    PrivateItems(Exec(m1, es), SeenAfter(m1, h1, es), m.s.nextRid);
    WaitsAlive(Exec(m1, es), SeenAfter(m1, h1, es), m.s.nextRid);
  }

  lemma Registered(s: S.State, fd: int, events: bv32)
    requires SI.Inv(s) && S.Enabled(s, S.Report(fd, events))
             && Shape(s, S.Report(fd, events), S.Step(s, S.Report(fd, events)))
    ensures fd in s.regs && s.regs[fd].rid in s.waits && Returning(s, S.Step(s, S.Report(fd, events))) == None
  {
    assert SI.RegOk(s, fd, s.regs[fd]);
    hide S.Step, Quiet, Begins, Ends;
  }

  /** Whenever epoll reports an fd, the item that its registration points to belongs to
      a live poll, and if it is on a stack, that stack is private and holds it. */
  lemma ReportReadsIntact(m: Machine, fd: int, events: bv32, d: Detail)
    requires Reachable(m) && Enabled(m, Sched(S.Report(fd, events), d))
    ensures var r := m.s.regs[fd].rid;
            && r in m.s.waits && r in m.objects && Reads(m, S.Report(fd, events)) == {m.objects[r].items}
            && var p := m.objects[r].items;
               p.OnStack? ==>
                 && p.co == m.s.waits[r].co && K.Sane(m.w) && p.co in m.w.cos && !m.w.cos[p.co].cIsShareStack
                 && p.at + |m.objects[r].image| <= |K.Buffer(m.w, p.co)|
                 && K.Buffer(m.w, p.co)[p.at..][..|m.objects[r].image|] == m.objects[r].image
  {
    hide KI.Inv, SI.Inv, Reachable, ObjectsOk, S.Step, Agree, Shape, S.Enabled, Returning;
    var h := ReachableInv(m);
    StepShape(m.s, S.Report(fd, events));
    Registered(m.s, fd, events);
    WaitsAlive(m, h, m.s.regs[fd].rid);
    if m.objects[m.s.regs[fd].rid].items.OnStack? {
      PrivateItems(m, h, m.s.regs[fd].rid);
    }
  }

  // ----- the results

  lemma {:induction false} PutSlice(b: seq<Byte>, at: nat, rs: seq<bv16>, sp: nat)
    requires sp <= at && at + POLLFD_SIZE * |rs| <= |b|
    ensures PutRevents(b, at, rs)[sp..] == PutRevents(b[sp..], at - sp, rs)
    decreases |rs|
  {
    if rs != [] {
      hide Low, High;
      var b1 := b[at + 6 := Low(rs[0])][at + 7 := High(rs[0])];
      PutSlice(b1, at + POLLFD_SIZE, rs[1..], sp);
      assert b1[sp..] == b[sp..][at - sp + 6 := Low(rs[0])][at - sp + 7 := High(rs[0])];
    }
  }

  /** A poll that returns: its coroutine is switched in, with the stack it left. */
  lemma ReturnsToStack(m: Machine, h: History, e: S.Event, d: Detail, r: S.Rid)
    requires Inv(m, h) && Enabled(m, Sched(e, d)) && Returning(m.s, S.Step(m.s, e)) == Some(r)
    ensures r in m.s.waits && r in m.objects
    ensures var co := m.s.waits[r].co; var w := Switched(m, e, d);
            && co in m.w.cos && K.Sane(w) && K.Top(w) == co && co in w.cos && w.cos[co].stack_sp == m.w.cos[co].stack_sp
            && (KI.Occupied(m.w, co) ==> co in h && KI.Shows(w, co, h[co]))
  {
    hide KI.Inv, SI.Inv, Filled, S.Step, S.Enabled, Switched, Seen, ObjectsOk, K.Step, K.Enabled, Agree, LibraryPlaces,
         KI.Shows;
    StepShape(m.s, e);
    var co := S.Top(S.Step(m.s, e));
    BlockedOwns(m.s, co);
    RoomToDeliver(m, h, e, d, r);
    FilledOwn(m, h, e, d);
    SwitchedIsStep(m, h, e, d);
    WaitsAlive(m, h, r);
    BroughtLength(Filled(m, e, d), h, Switch(m, e, d));
    KR.BringsSwitches(Filled(m, e, d), h, Switch(m, e, d), co);
  }

  /** What `left` becomes when the results are copied to the caller's array. */
  function WithResults(left: seq<Byte>, sp: nat, results: Place, rs: seq<bv16>): seq<Byte> {
    if results.OnStack? && sp <= results.at
       && results.at - sp + POLLFD_SIZE * |rs| <= |left|
    then PutRevents(left, results.at - sp, rs)
    else left
  }

  lemma ShowsResults(w: World, h: History, co: S.Co, left: seq<Byte>, p: Place, rs: seq<bv16>)
    requires KI.Shows(w, co, left) && co == K.Top(w) && K.Sane(w)
    requires p.OnStack? ==> p.co == co && w.cos[co].stack_sp <= p.at && p.at + POLLFD_SIZE * |rs| <= |K.Buffer(w, co)|
    ensures KI.Shows(Deliver(w, p, rs), co, WithResults(left, w.cos[co].stack_sp, p, rs))
    ensures p.OnStack? ==> p.at - w.cos[co].stack_sp + POLLFD_SIZE * |rs| <= |left|
  {
    hide PutRevents;
    if p.OnStack? {
      PutSlice(K.Buffer(w, co), p.at, rs, w.cos[co].stack_sp);
    }
  }

  lemma ResultsAbove(m: Machine, h: History, r: S.Rid)
    requires Inv(m, h) && r in m.s.waits && m.s.waits[r].kind.PollWait? && m.objects[r].results.OnStack?
    ensures var p := m.objects[r].results; p.co == m.s.waits[r].co && p.co in m.w.cos && m.w.cos[p.co].stack_sp <= p.at
  {
    assert ObjectsOk(m.w, h, m.s.waits[r], m.objects[r]);
    hide KI.Inv, SI.Inv;
  }

  /** The step in which a poll returns. */
  lemma ReturnDelivers(m: Machine, h: History, e: S.Event, d: Detail, r: S.Rid)
    requires Inv(m, h) && Enabled(m, Sched(e, d)) && S.Enabled(m.s, e) && Returning(m.s, S.Step(m.s, e)) == Some(r)
    requires r in m.s.waits && m.s.waits[r].co in m.w.cos && KI.Occupied(m.w, m.s.waits[r].co)
    ensures var co := m.s.waits[r].co; var u := Step(m, Sched(e, d)); var sp := m.w.cos[co].stack_sp;
            && m.s.waits[r].kind.PollWait? && |m.s.waits[r].kind.revents| == |m.s.waits[r].kind.fds| && r in m.objects
               && co in h
            && var rs := m.s.waits[r].kind.revents; var p := m.objects[r].results;
               && K.Sane(u.w) && K.Top(u.w) == co && co in u.w.cos && u.w.cos[co].stack_sp == sp && !u.w.fault
               && KI.Shows(u.w, co, WithResults(h[co], sp, p, rs))
               && (p.OnStack? ==> sp <= p.at && p.at - sp + POLLFD_SIZE * |rs| <= |h[co]|)
               && (p.Heap? ==>
                     && |m.objects[r].content| == POLLFD_SIZE * |rs| && r in u.objects
                     && u.objects[r].content == PutRevents(m.objects[r].content, 0, rs))
  {
    hide KI.Inv, SI.Inv, Step, Enabled, S.Step, S.Enabled, Filled, Seen, Agree, Switched, Deliver, PutRevents, KI.Shows,
         KI.Occupied,
         WithResults, ObjectsOk, Shape, LibraryPlaces;
    SchedShape(m, h, e, d);
    ReturnsToStack(m, h, e, d, r);
    StepFromSwitched(m, h, e, d);
    PollLengths(m.s, r);
    RoomToDeliver(m, h, e, d, r);
    var co, w := m.s.waits[r].co, Switched(m, e, d);
    if m.objects[r].results.OnStack? {
      ResultsAbove(m, h, r);
    }
    ShowsResults(w, h, co, h[co], m.objects[r].results, m.s.waits[r].kind.revents);
    NoFault(Step(m, Sched(e, d)).w, Seen(m, h, Sched(e, d)));
  }

  lemma NoFault(w: World, h: History)
    requires KI.Inv(w, h)
    ensures !w.fault
  {
  }

  /** The latest report in `es` for entry `i` of poll `r`, as poll bits; `x` if there is
      none. */
  function LatestReport(m: Machine, es: seq<Event>, r: S.Rid, i: nat, x: bv16): bv16
    requires Runs(m, es)
    decreases |es|
  {
    if es == [] then x
    else
      var y := if es[0].Sched? then SR.ReportedBy(m.s, es[0].e, r, i, x) else x;
      LatestReport(Step(m, es[0]), es[1..], r, i, y)
  }

  /** What a live poll has seen since `m`. */
  ghost predicate SawReports(m: Machine, es: seq<Event>, r: S.Rid)
    requires Runs(m, es) && r in m.s.waits && m.s.waits[r].kind.PollWait?
  {
    var u := Exec(m, es);
    var rs := m.s.waits[r].kind.revents;
    && r in u.s.waits && u.s.waits[r].kind.PollWait? && |u.s.waits[r].kind.revents| == |rs|
    && forall i :: 0 <= i < |rs| ==> u.s.waits[r].kind.revents[i] == LatestReport(m, es, r, i, rs[i])
  }

  /** One step of it. */
  ghost predicate StepSaw(m: Machine, ev: Event, u: Machine, r: S.Rid)
    requires r in m.s.waits && m.s.waits[r].kind.PollWait?
  {
    var rs := m.s.waits[r].kind.revents;
    && r in u.s.waits && u.s.waits[r].kind.PollWait? && |u.s.waits[r].kind.revents| == |rs|
    && forall i :: 0 <= i < |rs| ==>
         u.s.waits[r].kind.revents[i] == if ev.Sched? then SR.ReportedBy(m.s, ev.e, r, i, rs[i]) else rs[i]
  }

  lemma SchedShape(m: Machine, h: History, e: S.Event, d: Detail)
    requires Inv(m, h) && Enabled(m, Sched(e, d))
    ensures S.Enabled(m.s, e) && Shape(m.s, e, S.Step(m.s, e))
  {
    hide KI.Inv, SI.Inv, S.Enabled, S.Step, Shape;
    StepShape(m.s, e);
  }


  lemma StepSees(m: Machine, h: History, ev: Event, r: S.Rid)
    requires Inv(m, h) && Enabled(m, ev) && r in m.s.waits && m.s.waits[r].kind.PollWait? && r in Step(m, ev).s.waits
    ensures StepSaw(m, ev, Step(m, ev), r)
  {
    hide KI.Inv, SI.Inv, Switched, Filled, S.Step, S.Enabled, K.Step, K.Enabled, Agree, WaitsOk, SR.ReportedBy, Shape;
    if ev.Sched? {
      SchedShape(m, h, ev.e, ev.d);
      LiveWait(m.s, r);
      SR.StepFollows(m.s, ev.e);
    }
  }

  lemma {:induction false} WaitingSees(m: Machine, h: History, es: seq<Event>, r: S.Rid)
    requires Inv(m, h) && Waiting(m, es, r) && Runs(m, es) && m.s.waits[r].kind.PollWait?
    ensures SawReports(m, es, r)
    decreases |es|
  {
    hide Inv, Step, Enabled, Seen, SR.ReportedBy;
    if es != [] {
      StepKeeps(m, h, es[0]);
      StepSees(m, h, es[0], r);
      WaitingSees(Step(m, es[0]), Seen(m, h, es[0]), es[1..], r);
    }
  }

  /** A poll from its call to its return, in any run: if its stack is occupied when it
      is switched in, the caller finds all that it left (its poll items included), with
      nothing changed but the revents of its own array, and those are the
      latest reports that epoll made for it. */
  lemma PollDelivers(m: Machine, e: S.Event, d: Detail, es: seq<Event>, e2: S.Event, d2: Detail)
    requires Reachable(m) && Enabled(m, Sched(e, d)) && e.Poll? && m.s.nextRid in S.Step(m.s, e).waits
    requires Waiting(Step(m, Sched(e, d)), es, m.s.nextRid) && Runs(Step(m, Sched(e, d)), es)
    requires var m2 := Exec(Step(m, Sched(e, d)), es);
             && Enabled(m2, Sched(e2, d2)) && Returning(m2.s, S.Step(m2.s, e2)) == Some(m.s.nextRid)
             && KI.Occupied(m2.w, K.Top(m.w))
    ensures var r := m.s.nextRid; var co := K.Top(m.w); var m2 := Exec(Step(m, Sched(e, d)), es);
            var u := Step(m2, Sched(e2, d2));
            && r in m2.s.waits && m2.s.waits[r].kind.PollWait? && |m2.s.waits[r].kind.revents| == |e.fds|
            && (forall i :: 0 <= i < |e.fds| ==>
                  m2.s.waits[r].kind.revents[i] == LatestReport(Step(m, Sched(e, d)), es, r, i, 0))
            && var rs := m2.s.waits[r].kind.revents; var left := KR.Left(Filled(m, e, d), d.sp);
               && K.Sane(u.w) && K.Top(u.w) == co && co in u.w.cos && u.w.cos[co].stack_sp == d.sp && !u.w.fault
               && KI.Shows(u.w, co, WithResults(left, d.sp, d.results, rs))
               && (d.results.OnStack? ==> d.sp <= d.results.at && d.results.at - d.sp + POLLFD_SIZE * |rs| <= |left|)
               && (d.results.Heap? ==>
                     && |d.content| == POLLFD_SIZE * |rs| && r in u.objects
                     && u.objects[r].content == PutRevents(d.content, 0, rs))
  {
    hide KI.Inv, SI.Inv, Reachable, Runs, Exec, Step, Enabled, S.Step, S.Enabled, Filled, Seen, SeenAfter, Waiting,
         Agree, PutRevents, KI.Shows, KI.Occupied, WithResults, ObjectsOk, ItemsOnStack, KR.Left, LatestReport;
    var h := ReachableInv(m);
    PollBegins(m, h, e, d);
    StepKeeps(m, h, Sched(e, d));
    var m1, h1, r := Step(m, Sched(e, d)), Seen(m, h, Sched(e, d)), m.s.nextRid;
    WaitingKeeps(m1, h1, es, r);
    var m2, h2 := Exec(m1, es), SeenAfter(m1, h1, es);
    WaitingSees(m1, h1, es, r);
    SchedShape(m2, h2, e2, d2);
    ReturnDelivers(m2, h2, e2, d2, r);
  }
}
