/** Copying stacks in and out is invisible to the coroutines, over every run. */
module SharedStackRuns {
  import opened CallStack
  import opened SharedStack
  import opened SharedStackInv
  import opened Wrappers

  function SeenAfter<C(==), M(==)>(w: World<C, M>, h: History<C>, es: seq<Event<C, M>>): History<C>
    requires Runs(w, es)
    decreases |es|
  {
    if es == [] then h else SeenAfter(Step(w, es[0]), Seen(w, h, es[0]), es[1..])
  }

  lemma {:induction false} RunKeeps<C, M>(w: World<C, M>, h: History<C>, es: seq<Event<C, M>>)
    requires Inv(w, h) && Runs(w, es)
    ensures Inv(Exec(w, es), SeenAfter(w, h, es))
    decreases |es|
  {
    hide Inv, Step, Enabled;
    if es != [] {
      StepKeeps(w, h, es[0]);
      RunKeeps(Step(w, es[0]), Seen(w, h, es[0]), es[1..]);
    }
  }

  /** `es` runs from `w` while `co` stays switched out and is not taken down. */
  ghost predicate Away<C, M>(w: World<C, M>, es: seq<Event<C, M>>, co: C)
    decreases |es|
  {
    && Sane(w) && co != Top(w)
    && (es != [] ==> Enabled(w, es[0]) && es[0] != Reset(co) && es[0] != Free(co) && Away(Step(w, es[0]), es[1..], co))
  }

  /** What the library and the other coroutines leave alone while `co` is away. */
  predicate SamePlace<C(==), M(==)>(w: World<C, M>, t: World<C, M>, co: C)
    requires co in w.cos && co in t.cos
  {
    && t.cos[co].stack_sp == w.cos[co].stack_sp && t.cos[co].stack_mem == w.cos[co].stack_mem
    && t.cos[co].cStart == w.cos[co].cStart && t.cos[co].cIsShareStack == w.cos[co].cIsShareStack && t.main == w.main
  }

  /** Switching changes nobody's stack or kind of stack, and ends nobody. */
  predicate SameFlags<C(==), M(==)>(w: World<C, M>, t: World<C, M>) {
    && t.cos.Keys == w.cos.Keys && t.main == w.main
    && forall c :: c in w.cos ==>
         && t.cos[c].stack_mem == w.cos[c].stack_mem && t.cos[c].cIsShareStack == w.cos[c].cIsShareStack
         && t.cos[c].cEnd == w.cos[c].cEnd
  }

  lemma DisplaceFlags<C, M>(w: World<C, M>, pending: C)
    requires Sane(w) && pending in w.cos
    ensures SameFlags(w, Displace(w, pending)) && Sane(Displace(w, pending))
            && Displace(w, pending).pCallStack == w.pCallStack
  {
  }

  lemma SwapFlags<C, M>(w: World<C, M>, curr: C, pending: C, sp: nat, first: bool)
    requires Sane(w) && curr in w.cos && pending in w.cos
    ensures var t := Swap(w, curr, pending, sp, first); SameFlags(w, t) && t.pCallStack == w.pCallStack
  {
    hide Displace, SwapIn, SameFlags;
    ParkFlags(w, curr, sp);
    var w1 := Park(w, curr, sp);
    DisplaceFlags(w1, pending);
    var w2 := Displace(w1, pending);
    FlagsTwice(w, w1, w2);
    if !first {
      SwapInFlags(w2);
      FlagsTwice(w, w2, SwapIn(w2));
    }
  }

  lemma ParkFlags<C, M>(w: World<C, M>, curr: C, sp: nat)
    requires Sane(w) && curr in w.cos
    ensures SameFlags(w, Park(w, curr, sp)) && Sane(Park(w, curr, sp))
  {
  }

  lemma SwapInFlags<C, M>(w: World<C, M>)
    requires Sane(w)
    ensures SameFlags(w, SwapIn(w)) && SwapIn(w).pCallStack == w.pCallStack
  {
  }

  lemma FlagsTwice<C, M>(w: World<C, M>, t: World<C, M>, u: World<C, M>)
    requires SameFlags(w, t) && SameFlags(t, u)
    ensures SameFlags(w, u)
  {
  }

  /** The bytes of `t` are those of `w`, except for what `co` has on its stack. */
  ghost predicate BytesBut<C, M>(w: World<C, M>, t: World<C, M>, co: C)
    requires Sane(w) && co in w.cos
  {
    && Sane(t) && t.cos.Keys == w.cos.Keys
    && forall c :: c in w.cos ==>
         && t.cos[c].stack_mem == w.cos[c].stack_mem && |Buffer(t, c)| == |Buffer(w, c)|
         && forall i :: 0 <= i < |Buffer(w, c)| && Buffer(t, c)[i] != Buffer(w, c)[i] ==>
              w.cos[c].stack_mem == w.cos[co].stack_mem && w.cos[co].stack_sp <= i
  }

  /** Nobody's bytes have changed, and `co`'s are at the same address. */
  predicate SameBytes<C(==), M(==)>(w: World<C, M>, t: World<C, M>, co: C) {
    && Sane(w) && Sane(t) && t.cos.Keys == w.cos.Keys
    && co in w.cos && co in t.cos && t.cos[co].stack_sp == w.cos[co].stack_sp
    && forall c :: c in w.cos ==> t.cos[c].stack_mem == w.cos[c].stack_mem && Buffer(t, c) == Buffer(w, c)
  }

  lemma SameThenBut<C, M>(w: World<C, M>, t: World<C, M>, u: World<C, M>, co: C)
    requires SameBytes(w, t, co) && BytesBut(t, u, co)
    ensures BytesBut(w, u, co)
  {
  }

  lemma SameThenSame<C, M>(w: World<C, M>, t: World<C, M>, u: World<C, M>, co: C)
    requires SameBytes(w, t, co) && SameBytes(t, u, co)
    ensures SameBytes(w, u, co) && BytesBut(w, u, co)
  {
  }

  lemma DisplaceBytes<C, M>(w: World<C, M>, pending: C)
    requires Sane(w) && pending in w.cos
    ensures var t := Displace(w, pending);
            SameBytes(w, t, pending) && (t.pending_co == None || t.pending_co == Some(pending))
  {
  }

  lemma ParkBytes<C, M>(w: World<C, M>, curr: C, pending: C, sp: nat)
    requires Sane(w) && curr in w.cos && pending in w.cos && curr != pending
    ensures SameBytes(w, Park(w, curr, sp), pending)
  {
  }

  lemma SwapInBytes<C, M>(w: World<C, M>, pending: C)
    requires Sane(w) && pending in w.cos && (w.pending_co == None || w.pending_co == Some(pending))
    ensures BytesBut(w, SwapIn(w), pending)
  {
  }

  /** co_swap writes to no stack but the one of whoever it switches in. */
  lemma SwapBytes<C, M>(w: World<C, M>, curr: C, pending: C, sp: nat, first: bool)
    requires Sane(w) && curr in w.cos && pending in w.cos && curr != pending
    ensures BytesBut(w, Swap(w, curr, pending, sp, first), pending)
  {
    hide Displace, SwapIn, Park, BytesBut;
    ParkBytes(w, curr, pending, sp);
    var w1 := Park(w, curr, sp);
    DisplaceBytes(w1, pending);
    var w2 := Displace(w1, pending);
    SameThenSame(w, w1, w2, pending);
    if !first {
      SwapInBytes(w2, pending);
      SameThenBut(w, w2, SwapIn(w2), pending);
    }
  }

  lemma TopIsAnother<C, M>(w: World<C, M>, h: History<C>, e: Event<C, M>, co: C)
    requires Inv(w, h) && Enabled(w, e) && Brings(w, e, co)
    ensures co != Top(w)
  {
  }

  lemma SwitchBytes<C, M>(w: World<C, M>, h: History<C>, e: Event<C, M>, co: C)
    requires Inv(w, h) && Enabled(w, e) && co in w.cos && Brings(w, e, co)
    ensures BytesBut(w, Step(w, e), co)
  {
    hide Swap, BytesBut, Inv;
    TopIsAnother(w, h, e, co);
    var n := |w.pCallStack|;
    match e
    case Resume(_, sp) =>
      SwapBytes(Pushed(w, co), Top(w), co, sp, !w.cos[co].cStart);
      SameThenBut(w, Pushed(w, co), Step(w, e), co);
    case Yield(sp) =>
      var w1 := w.(pCallStack := w.pCallStack[..n - 1]);
      SwapBytes(w1, Top(w), co, sp, false);
      SameThenBut(w, w1, Step(w, e), co);
    case End(sp) =>
      var w1 := w.(cos := w.cos[Top(w) := w.cos[Top(w)].(cEnd := true)], pCallStack := w.pCallStack[..n - 1]);
      SwapBytes(w1, Top(w), co, sp, false);
      SameThenBut(w, w1, Step(w, e), co);
    case _ => assert false;
  }

  lemma DisplaceLeaves<C, M>(w: World<C, M>, pending: C, co: C)
    requires Sane(w) && pending in w.cos && co in w.cos
    ensures var t := Displace(w, pending); co in t.cos && SamePlace(w, t, co)
  {
  }

  lemma SwapLeaves<C, M>(w: World<C, M>, curr: C, pending: C, sp: nat, first: bool, co: C)
    requires Sane(w) && curr in w.cos && pending in w.cos && co in w.cos && co != curr
    ensures var t := Swap(w, curr, pending, sp, first); co in t.cos && SamePlace(w, t, co)
  {
    hide Displace;
    DisplaceLeaves(Park(w, curr, sp), pending, co);
  }

  lemma StepLeaves<C, M>(w: World<C, M>, e: Event<C, M>, co: C)
    requires Enabled(w, e) && co in w.cos && co != Top(w) && e != Reset(co) && e != Free(co)
             && !(e.Resume? && e.co == co)
    ensures co in Step(w, e).cos && SamePlace(w, Step(w, e), co)
  {
    hide Swap;
    match e
    case Resume(c, sp) => SwapLeaves(Pushed(w, c), Top(w), c, sp, !w.cos[c].cStart, co);
    case Yield(sp) =>
      SwapLeaves(w.(pCallStack := w.pCallStack[..|w.pCallStack| - 1]), Top(w), w.pCallStack[|w.pCallStack| - 2], sp,
        false, co);
    case End(sp) =>
      var w1 := w.(cos := w.cos[Top(w) := w.cos[Top(w)].(cEnd := true)],
        pCallStack := w.pCallStack[..|w.pCallStack| - 1]);
      SwapLeaves(w1, Top(w), w.pCallStack[|w.pCallStack| - 2], sp, false, co);
    case _ =>
  }

  lemma {:induction false} AwayKeeps<C, M>(w: World<C, M>, h: History<C>, es: seq<Event<C, M>>, co: C)
    requires Inv(w, h) && Alive(w, co) && Away(w, es, co)
    ensures Runs(w, es) && Sane(Exec(w, es)) && co != Top(Exec(w, es))
    ensures co in Exec(w, es).cos && SamePlace(w, Exec(w, es), co)
    ensures co in h && co in SeenAfter(w, h, es) && SeenAfter(w, h, es)[co] == h[co]
    decreases |es|
  {
    assert KeptOrNew(w, h, co);
    if es != [] {
      if es[0].Resume? && es[0].co == co {
        ResumeKeeps(w, h, co, es[0].sp);
        assert false;
      }
      hide Inv, Step, Enabled;
      StepLeaves(w, es[0], co);
      StepKeeps(w, h, es[0]);
      AwayKeeps(Step(w, es[0]), Seen(w, h, es[0]), es[1..], co);
    }
  }

  // ----- the main results

  /** Does `e` switch `co` in? */
  predicate Brings<C(==), M>(w: World<C, M>, e: Event<C, M>, co: C) {
    match e
    case Resume(c, _) => c == co
    case Yield(_) => 2 <= |w.pCallStack| && w.pCallStack[|w.pCallStack| - 2] == co
    case End(_) => 2 <= |w.pCallStack| && w.pCallStack[|w.pCallStack| - 2] == co
    case _ => false
  }

  lemma BringsSwitches<C, M>(w: World<C, M>, h: History<C>, e: Event<C, M>, co: C)
    requires Inv(w, h) && Enabled(w, e) && co in w.cos && Brings(w, e, co)
    ensures Switched(w, h, Step(w, e), Seen(w, h, e), co)
  {
    hide Inv, Switched, ResumeCo, YieldCo;
    match e
    case Resume(_, sp) => ResumeKeeps(w, h, co, sp);
    case Yield(sp) => YieldKeeps(w, h, sp);
    case End(sp) => EndKeeps(w, h, sp);
    case _ => assert false;
  }

  /** The bytes that the running coroutine has from `sp` on. */
  function Left<C(==), M>(w: World<C, M>, sp: nat): seq<Byte> {
    if OnStack(w, sp) then Buffer(w, Top(w))[sp..] else []
  }

  /** From `w` the running `co` resumes another one or yields (`out`, at `sp`), `es`
      follow while it is away, and `back` switches it in again from `w2`, into `t`. */
  ghost predicate Excursion<C, M>(
    w: World<C, M>, co: C, out: Event<C, M>, sp: nat, es: seq<Event<C, M>>,
    w2: World<C, M>, back: Event<C, M>, t: World<C, M>) {
    && Enabled(w, out) && (out == Yield(sp) || (out.Resume? && out.sp == sp)) && co == Top(w)
    && Away(Step(w, out), es, co) && Runs(Step(w, out), es) && w2 == Exec(Step(w, out), es)
    && Enabled(w2, back) && Brings(w2, back, co) && t == Step(w2, back)
  }

  lemma OutParks<C, M>(w: World<C, M>, h: History<C>, e: Event<C, M>, sp: nat)
    requires Enabled(w, e) && (e == Yield(sp) || (e.Resume? && e.sp == sp)) && Inv(w, h)
    ensures var co := Top(w); var t := Step(w, e);
            && Alive(t, co) && Seen(w, h, e) == h[co := Left(w, sp)] && t.cos[co].stack_sp == sp
               && t.cos[co].stack_mem == w.cos[co].stack_mem
  {
    hide Displace;
    var co := Top(w);
    assert co in w.pCallStack && Alive(w, co);
    var w1 := if e.Yield? then w.(pCallStack := w.pCallStack[..|w.pCallStack| - 1]) else Pushed(w, e.co);
    DisplaceLeaves(Park(w1, co, sp), if e.Yield? then w.pCallStack[|w.pCallStack| - 2] else e.co, co);
  }

  lemma ExcursionKeeps<C, M>(
      w: World<C, M>, h: History<C>, co: C, out: Event<C, M>, sp: nat, es: seq<Event<C, M>>,
      w2: World<C, M>, back: Event<C, M>, t: World<C, M>)
    requires Inv(w, h) && Excursion(w, co, out, sp, es, w2, back, t)
    ensures var w1 := Step(w, out); var h2 := SeenAfter(w1, Seen(w, h, out), es);
            && Inv(w2, h2) && Alive(w2, co) && co in h2 && h2[co] == Left(w, sp)
            && w2.cos[co].stack_sp == sp && w2.cos[co].stack_mem == w.cos[co].stack_mem
            && Switched(w2, h2, t, Seen(w2, h2, back), co)
  {
    hide Inv, Step, Enabled, Switched, Brings, SeenAfter, Exec, Away, Seen, Left, Runs;
    OutParks(w, h, out, sp);
    var w1, h1 := Step(w, out), Seen(w, h, out);
    StepKeeps(w, h, out);
    AwayKeeps(w1, h1, es, co);
    RunKeeps(w1, h1, es);
    BringsSwitches(w2, SeenAfter(w1, h1, es), back, co);
  }

  /** Whatever happened `before`, and whatever `es` the others do while the coroutine
      is away: if its stack is occupied when it is switched in again, it finds all its
      bytes as it left them. */
  lemma SwitchedBackIntact<C, M>(
      main: C, m: M, b: seq<Byte>, before: seq<Event<C, M>>, w: World<C, M>,
      co: C, out: Event<C, M>, sp: nat, es: seq<Event<C, M>>, w2: World<C, M>, back: Event<C, M>, t: World<C, M>)
    requires Runs(Init(main, m, b), before) && w == Exec(Init(main, m, b), before)
    requires Excursion(w, co, out, sp, es, w2, back, t) && Occupied(w2, co)
    ensures Shows(t, co, Left(w, sp)) && t.cos[co].stack_sp == sp && !t.fault
  {
    hide Step, Enabled, Runs, Excursion, Exec, SeenAfter, KeptOrNew;
    InitInv(main, m, b);
    RunKeeps(Init(main, m, b), map[], before);
    ExcursionKeeps(w, SeenAfter(Init(main, m, b), map[], before), co, out, sp, es, w2, back, t);
  }

  /** While a coroutine with a stack of its own is away, its bytes stay where they are:
      whoever holds a pointer into that stack may read through it. */
  lemma PrivateStackStays<C, M>(w: World<C, M>, h: History<C>, es: seq<Event<C, M>>, co: C, bytes: seq<Byte>)
    requires Inv(w, h) && Alive(w, co) && Away(w, es, co) && !w.cos[co].cIsShareStack && Shows(w, co, bytes)
    ensures Runs(w, es) && Shows(Exec(w, es), co, bytes)
  {
    assert KeptOrNew(w, h, co);
    AwayKeeps(w, h, es, co);
    RunKeeps(w, h, es);
    assert KeptOrNew(Exec(w, es), SeenAfter(w, h, es), co);
  }

  // ----- callers that make sure

  ghost predicate AllOccupied<C, M>(w: World<C, M>) {
    forall c :: c in w.cos && Alive(w, c) ==> Occupied(w, c)
  }

  /** The occupant of a stack is freed or reset only when nobody else needs the stack. */
  ghost predicate Careful<C, M>(w: World<C, M>, e: Event<C, M>)
    requires Enabled(w, e)
  {
    (e.Free? || e.Reset?) && w.cos[e.co].cIsShareStack && w.mems[w.cos[e.co].stack_mem].occupy_co == Some(e.co) ==>
      forall d :: d in w.cos && Alive(w, d) && d != e.co ==> w.cos[d].stack_mem != w.cos[e.co].stack_mem
  }

  lemma DisplaceOccupies<C, M>(w: World<C, M>, pending: C, c: C)
    requires Sane(w) && pending in w.cos
    ensures var t := Displace(w, pending);
            && Sane(t) && (c == pending || Occupied(w, c) ==> Occupied(t, c)) && Alive(t, c) == Alive(w, c)
  {
  }

  lemma SwapOccupies<C, M>(w: World<C, M>, curr: C, pending: C, sp: nat, first: bool, c: C)
    requires Sane(w) && curr in w.cos && pending in w.cos
    ensures var t := Swap(w, curr, pending, sp, first);
            && (c == pending || Occupied(w, c) ==> Occupied(t, c)) && Alive(t, c) == Alive(w, c)
  {
    hide Displace;
    DisplaceOccupies(Park(w, curr, sp), pending, c);
  }

  lemma SwitchOccupies<C, M>(w: World<C, M>, e: Event<C, M>, c: C)
    requires Enabled(w, e) && (e.Resume? || e.Yield? || e.End?) && c in w.cos && (Alive(w, c) ==> Occupied(w, c))
    ensures Alive(Step(w, e), c) ==> Occupied(Step(w, e), c)
  {
    hide Swap;
    match e
    case Resume(co, sp) => SwapOccupies(Pushed(w, co), Top(w), co, sp, !w.cos[co].cStart, c);
    case Yield(sp) =>
      SwapOccupies(w.(pCallStack := w.pCallStack[..|w.pCallStack| - 1]), Top(w), w.pCallStack[|w.pCallStack| - 2], sp,
        false, c);
    case End(sp) =>
      var w1 := w.(cos := w.cos[Top(w) := w.cos[Top(w)].(cEnd := true)],
        pCallStack := w.pCallStack[..|w.pCallStack| - 1]);
      SwapOccupies(w1, Top(w), w.pCallStack[|w.pCallStack| - 2], sp, false, c);
    case _ => assert false;
  }

  lemma SwitchNames<C, M>(w: World<C, M>, e: Event<C, M>, c: C)
    requires Enabled(w, e) && (e.Resume? || e.Yield? || e.End?) && c !in w.cos
    ensures c !in Step(w, e).cos
  {
    hide Displace;
    forall v: World<C, M>, p: C | Sane(v) && p in v.cos && c !in v.cos ensures c !in Displace(v, p).cos {
      DisplaceNames(v, p, c);
    }
  }

  lemma DisplaceNames<C, M>(w: World<C, M>, pending: C, c: C)
    requires Sane(w) && pending in w.cos
    ensures c in Displace(w, pending).cos <==> c in w.cos
  {
  }

  lemma CarefulKeeps<C, M>(w: World<C, M>, e: Event<C, M>)
    requires Sane(w) && Owners(w) && w.main in w.cos && AllOccupied(w) && Enabled(w, e) && Careful(w, e)
    ensures AllOccupied(Step(w, e))
  {
    hide ResumeCo, YieldCo;
    forall c | c in Step(w, e).cos && Alive(Step(w, e), c) ensures Occupied(Step(w, e), c) {
      if e.Resume? || e.Yield? || e.End? {
        if c !in w.cos { SwitchNames(w, e, c); }
        SwitchOccupies(w, e, c);
      }
    }
  }

  ghost predicate CarefulRun<C, M>(w: World<C, M>, es: seq<Event<C, M>>)
    decreases |es|
  {
    es != [] ==> Enabled(w, es[0]) && Careful(w, es[0]) && CarefulRun(Step(w, es[0]), es[1..])
  }

  /** With careful callers every stack is occupied whenever somebody is switched in. */
  lemma {:induction false} CarefulRunsOccupied<C, M>(w: World<C, M>, h: History<C>, es: seq<Event<C, M>>)
    requires Inv(w, h) && AllOccupied(w) && CarefulRun(w, es)
    ensures Runs(w, es) && AllOccupied(Exec(w, es))
    decreases |es|
  {
    assert w.main in w.cos;
    hide Step, Enabled, AllOccupied, Careful, KeptOrNew, Owners;
    if es != [] {
      CarefulKeeps(w, es[0]);
      StepKeeps(w, h, es[0]);
      CarefulRunsOccupied(Step(w, es[0]), Seen(w, h, es[0]), es[1..]);
    }
  }

  /** So with careful callers the copying is invisible over every run: whatever happened
      before and meanwhile, a coroutine that is switched back in finds all its bytes. */
  lemma CarefulRunsIntact<C, M>(
      main: C, m: M, b: seq<Byte>, before: seq<Event<C, M>>, w: World<C, M>,
      co: C, out: Event<C, M>, sp: nat, es: seq<Event<C, M>>, w2: World<C, M>, back: Event<C, M>, t: World<C, M>)
    requires CarefulRun(Init(main, m, b), before) && Runs(Init(main, m, b), before)
             && w == Exec(Init(main, m, b), before)
    requires Excursion(w, co, out, sp, es, w2, back, t) && Enabled(w, out) && CarefulRun(Step(w, out), es)
    ensures Shows(t, co, Left(w, sp)) && t.cos[co].stack_sp == sp && !t.fault
  {
    hide Step, Enabled, Runs, Exec, SeenAfter, KeptOrNew, Owners, CarefulRun, AllOccupied, Excursion, Occupied, Away;
    var h := SeenAfter(Init(main, m, b), map[], before);
    InitInv(main, m, b);
    InitOccupied(main, m, b);
    CarefulRunsOccupied(Init(main, m, b), map[], before);
    RunKeeps(Init(main, m, b), map[], before);
    OutIsCareful(w, co, out, sp, es, w2, back, t);
    CarefulKeeps(w, out);
    StepKeeps(w, h, out);
    CarefulRunsOccupied(Step(w, out), Seen(w, h, out), es);
    ExcursionKeeps(w, h, co, out, sp, es, w2, back, t);
    OccupiedIfAlive(w2, co);
    SwitchedBackIntact(main, m, b, before, w, co, out, sp, es, w2, back, t);
  }

  lemma InitOccupied<C, M>(main: C, m: M, b: seq<Byte>)
    ensures AllOccupied(Init(main, m, b))
  {
  }

  lemma OutIsCareful<C, M>(
      w: World<C, M>, co: C, out: Event<C, M>, sp: nat, es: seq<Event<C, M>>,
      w2: World<C, M>, back: Event<C, M>, t: World<C, M>)
    requires Excursion(w, co, out, sp, es, w2, back, t) && Enabled(w, out)
    ensures Careful(w, out) && Sane(w) && Runs(Step(w, out), es) && w2 == Exec(Step(w, out), es)
  {
  }

  lemma OccupiedIfAlive<C, M>(w: World<C, M>, co: C)
    requires AllOccupied(w) && Alive(w, co)
    ensures Occupied(w, co)
  {
  }

  // ----- giving up a coroutine

  /** Taking `co` down concerns nobody else: the others keep their records and the bytes of
      their stacks, and of the occupants only `co` is gone. */
  ghost predicate OthersStay<C, M>(w: World<C, M>, t: World<C, M>, co: C) {
    && Sane(w) && Sane(t) && co in w.cos && t.pCallStack == w.pCallStack && t.main == w.main && !t.fault
    && forall c :: c in w.cos && c != co ==>
         && c in t.cos && t.cos[c] == w.cos[c] && Buffer(t, c) == Buffer(w, c)
         && var o := w.mems[w.cos[c].stack_mem].occupy_co;
            t.mems[w.cos[c].stack_mem].occupy_co == if o == Some(co) then None else o
  }

  /** co_reset: a coroutine that was started has nothing on its stack any more, is nobody's
      occupant, and starts anew when it is resumed; one that was not is as it was. */
  lemma ResetStartsAnew<C, M>(w: World<C, M>, h: History<C>, co: C)
    requires Inv(w, h) && Enabled(w, Reset(co))
    ensures var t := Step(w, Reset(co));
            && OthersStay(w, t, co) && t.cos.Keys == w.cos.Keys
            && !Alive(t, co) && t.cos[co].stack_mem == w.cos[co].stack_mem && Buffer(t, co) == Buffer(w, co)
            && t.cos[co].cIsShareStack == w.cos[co].cIsShareStack
            && t.mems[t.cos[co].stack_mem].occupy_co != Some(co)
            && (w.cos[co].cStart ==> !t.cos[co].cEnd && t.cos[co].save_buffer == None)
            && (!w.cos[co].cStart ==> t == w)
  {
    ResetKeeps(w, h, co);
    IdleIsNotMain(w, co);
  }

  lemma IdleIsNotMain<C, M>(w: World<C, M>, co: C)
    requires Calls(w) && Idle(w, co)
    ensures co != w.main
  {
    assert w.pCallStack[0] in w.pCallStack;
  }

  /** co_free: the coroutine is gone, with its stack if that was its own. */
  lemma FreeForgets<C, M>(w: World<C, M>, h: History<C>, co: C)
    requires Inv(w, h) && Enabled(w, Free(co))
    ensures var t := Step(w, Free(co)); var m := w.cos[co].stack_mem;
            && OthersStay(w, t, co) && t.cos.Keys == w.cos.Keys - {co}
            && t.mems.Keys == w.mems.Keys - (if w.cos[co].cIsShareStack then {} else {m})
            && (m in t.mems ==> t.mems[m].occupy_co != Some(co) && t.mems[m].stack_buffer == w.mems[m].stack_buffer)
  {
    FreeKeeps(w, h, co);
  }

  // ----- exactly when

  /** `w` with other bytes in the buffer that `co` uses. */
  function WithBuffer<C(==), M(==)>(w: World<C, M>, co: C, b: seq<Byte>): World<C, M>
    requires Sane(w) && co in w.cos
  {
    var m := w.cos[co].stack_mem;
    w.(mems := w.mems[m := w.mems[m].(stack_buffer := b)])
  }

  ghost predicate FindsItsBytes<C, M>(w: World<C, M>, h: History<C>, e: Event<C, M>, co: C) {
    Inv(w, h) && Enabled(w, e) && co in h ==> Shows(Step(w, e), co, h[co])
  }

  lemma OccupiedSuffices<C, M>(w: World<C, M>, h: History<C>, e: Event<C, M>, co: C, b: seq<Byte>)
    requires Inv(w, h) && Brings(w, e, co) && Alive(w, co) && Occupied(w, co) && |b| == |Buffer(w, co)|
    ensures FindsItsBytes(WithBuffer(w, co, b), h, e, co)
  {
    hide Inv;
    var w' := WithBuffer(w, co, b);
    if Inv(w', h) && Enabled(w', e) {
      BringsSwitches(w', h, e, co);
    }
  }

  lemma UnoccupiedLoses<C, M>(w: World<C, M>, h: History<C>, e: Event<C, M>, co: C) returns (b: seq<Byte>)
    requires Inv(w, h) && Enabled(w, e) && Brings(w, e, co) && Alive(w, co) && co != Top(w) && !Occupied(w, co)
    ensures |b| == |Buffer(w, co)| && !FindsItsBytes(WithBuffer(w, co, b), h, e, co)
  {
    assert KeptOrNew(w, h, co);
    var sp := w.cos[co].stack_sp;
    b := Buffer(w, co)[sp := if h[co][0] == 0 then 1 else 0];
    var w' := WithBuffer(w, co, b);
    UnusedBuffer(w, h, co, b);
    assert Enabled(w', e);
    BringsSwitches(w', h, e, co);
    assert b[sp..][0] != h[co][0];
  }

  /** The condition cannot be weakened: a coroutine that is switched in finds its bytes
      whatever the buffer holds besides what the invariant says, exactly if its stack
      is occupied. */
  lemma RestoredExactlyIf<C, M>(w: World<C, M>, h: History<C>, e: Event<C, M>, co: C)
    requires Inv(w, h) && Enabled(w, e) && Brings(w, e, co) && Alive(w, co) && co != Top(w)
    ensures Occupied(w, co) <==> forall b :: |b| == |Buffer(w, co)| ==> FindsItsBytes(WithBuffer(w, co, b), h, e, co)
  {
    hide Inv, FindsItsBytes, Brings;
    if Occupied(w, co) {
      forall b | |b| == |Buffer(w, co)| ensures FindsItsBytes(WithBuffer(w, co, b), h, e, co) {
        OccupiedSuffices(w, h, e, co, b);
      }
    } else {
      var b := UnoccupiedLoses(w, h, e, co);
    }
  }

  lemma UnusedBuffer<C, M>(w: World<C, M>, h: History<C>, co: C, b: seq<Byte>)
    requires Inv(w, h) && co in w.cos && !Occupied(w, co) && |b| == |Buffer(w, co)|
    ensures Inv(WithBuffer(w, co, b), h)
  {
    var t := WithBuffer(w, co, b);
    forall c | c in t.cos && c != Top(t) ensures KeptOrNew(t, h, c) {
      assert KeptOrNew(w, h, c);
    }
  }

  /** The failing family: `o` occupies the stack that `co` was displaced from; if `o`
      is freed or reset and then `co` is resumed, `co` finds what `o` left there. */
  lemma FreedOccupant<C, M>(w: World<C, M>, h: History<C>, co: C, o: C, e: Event<C, M>, sp: nat)
    requires Inv(w, h) && Idle(w, co) && Idle(w, o) && co != o && Alive(w, co) && !w.cos[co].cEnd
    requires w.cos[co].cIsShareStack && w.mems[w.cos[co].stack_mem].occupy_co == Some(o)
    requires (e == Free(o) || e == Reset(o)) && |w.pCallStack| < CALL_STACK_SIZE && OnStack(w, sp)
    ensures Runs(w, [e, Resume(co, sp)])
    ensures Shows(Exec(w, [e, Resume(co, sp)]), co, Buffer(w, co)[w.cos[co].stack_sp..])
  {
    hide Step, KeptOrNew, Occupied, Owners, Calls, Runs, Exec, Reaches;
    Vacates(w, h, co, o, e, sp);
    StepKeeps(w, h, e);
    var w1 := Step(w, e);
    BringsSwitches(w1, h, Resume(co, sp), co);
    ReachesTwo(w, e, Resume(co, sp));
    ReachesMeans(w, [e, Resume(co, sp)], Step(w1, Resume(co, sp)));
  }

  lemma Vacates<C, M>(w: World<C, M>, h: History<C>, co: C, o: C, e: Event<C, M>, sp: nat)
    requires Inv(w, h) && Idle(w, co) && Idle(w, o) && co != o && Alive(w, co) && !w.cos[co].cEnd
    requires w.cos[co].cIsShareStack && w.mems[w.cos[co].stack_mem].occupy_co == Some(o)
    requires (e == Free(o) || e == Reset(o)) && |w.pCallStack| < CALL_STACK_SIZE && OnStack(w, sp)
    ensures Enabled(w, e) && co in Step(w, e).cos && Enabled(Step(w, e), Resume(co, sp)) && Alive(Step(w, e), co)
    ensures !Occupied(Step(w, e), co) && Buffer(Step(w, e), co) == Buffer(w, co) && Step(w, e).cos[co] == w.cos[co]
    ensures w.cos[co].stack_sp <= |Buffer(w, co)| && Seen(w, h, e) == h
  {
    assert KeptOrNew(w, h, co);
  }

  lemma RunOne<C, M>(w: World<C, M>, e: Event<C, M>)
    requires Enabled(w, e)
    ensures Runs(w, [e]) && Exec(w, [e]) == Step(w, e)
  {
    assert [e][1..] == [];
  }

  ghost predicate Reaches<C, M>(w: World<C, M>, es: seq<Event<C, M>>, t: World<C, M>) {
    Runs(w, es) && Exec(w, es) == t
  }

  lemma ReachesTwo<C, M>(w: World<C, M>, e: Event<C, M>, f: Event<C, M>)
    requires Enabled(w, e) && Enabled(Step(w, e), f)
    ensures Reaches(w, [e, f], Step(Step(w, e), f))
  {
    RunOne(Step(w, e), f);
    assert [e, f][1..] == [f];
  }

  lemma {:induction false} ReachesAppend<C, M>(w: World<C, M>, es: seq<Event<C, M>>, t: World<C, M>,
      fs: seq<Event<C, M>>, u: World<C, M>)
    requires Reaches(w, es, t) && Reaches(t, fs, u)
    ensures Reaches(w, es + fs, u)
    decreases |es|
  {
    hide Step, Enabled;
    if es == [] {
      assert es + fs == fs;
    } else {
      ReachesAppend(Step(w, es[0]), es[1..], t, fs, u);
      assert (es + fs)[1..] == es[1..] + fs;
    }
  }

  lemma ReachesMeans<C, M>(w: World<C, M>, es: seq<Event<C, M>>, t: World<C, M>)
    requires Reaches(w, es, t)
    ensures Runs(w, es) && Exec(w, es) == t
  {
  }
}
