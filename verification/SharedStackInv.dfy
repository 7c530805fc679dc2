/** What holds in every reachable state of coroutines that share stacks: whatever is
    switched out is intact, in place or in its save buffer. */
module SharedStackInv {
  import opened Sequences
  import opened SharedStack
  import opened Wrappers

  /** History: for each coroutine, what it had on its stack when it was last switched
      out. */
  type History<C> = map<C, seq<Byte>>

  function Seen<C(==), M(==)>(w: World<C, M>, h: History<C>, e: Event<C, M>): History<C>
    requires Enabled(w, e)
  {
    match e
    case Resume(_, sp) => h[Top(w) := Buffer(w, Top(w))[sp..]]
    case Yield(sp) => h[Top(w) := Buffer(w, Top(w))[sp..]]
    case End(sp) => h[Top(w) := Buffer(w, Top(w))[sp..]]
    case _ => h
  }

  /** Has `co` anything on its stack? */
  predicate Alive<C(==), M>(w: World<C, M>, co: C) {
    co in w.cos && (w.cos[co].cStart || co == w.main)
  }

  predicate InPlace<C(==), M>(w: World<C, M>, co: C)
    requires Sane(w) && co in w.cos
  {
    !w.cos[co].cIsShareStack || w.mems[w.cos[co].stack_mem].occupy_co == Some(co)
  }

  /** Does `co`'s stack hold `bytes` right now? */
  predicate Shows<C(==), M>(w: World<C, M>, co: C, bytes: seq<Byte>) {
    Sane(w) && co in w.cos && w.cos[co].stack_sp <= |Buffer(w, co)| && View(w, co) == bytes
  }

  /** The switched-out `co` still has the bytes `bytes`: in place if its stack is its
      own or it is the occupant, else in its save buffer. */
  predicate Kept<C(==), M>(w: World<C, M>, co: C, bytes: seq<Byte>)
    requires Sane(w) && co in w.cos
  {
    && w.cos[co].stack_sp < |Buffer(w, co)| && |bytes| == |Buffer(w, co)| - w.cos[co].stack_sp
    && if InPlace(w, co) then View(w, co) == bytes else w.cos[co].save_buffer == Some(bytes)
  }

  predicate KeptOrNew<C(==), M>(w: World<C, M>, h: History<C>, co: C)
    requires Sane(w)
  {
    Alive(w, co) ==> co in h && Kept(w, co, h[co])
  }

  /** A stack with two users is a shared one, and its occupant is one of them. */
  predicate Owners<C(==), M>(w: World<C, M>)
    requires Sane(w)
  {
    && (forall c, d :: c in w.cos && d in w.cos && c != d && w.cos[c].stack_mem == w.cos[d].stack_mem ==>
        w.cos[c].cIsShareStack)
    && forall m :: m in w.mems && w.mems[m].occupy_co.Some? ==>
         var c := w.mems[m].occupy_co.value;
         Alive(w, c) && w.cos[c].cIsShareStack && w.cos[c].stack_mem == m
  }

  ghost predicate Calls<C, M>(w: World<C, M>) {
    && w.pCallStack != [] && w.pCallStack[0] == w.main && w.main in w.cos && Distinct(w.pCallStack)
    && !w.cos[w.main].cIsShareStack
    && forall c :: c in w.pCallStack ==> Alive(w, c)
  }

  ghost predicate Base<C, M>(w: World<C, M>) {
    Sane(w) && Calls(w) && Owners(w) && !w.fault
  }

  ghost predicate Inv<C, M>(w: World<C, M>, h: History<C>) {
    && Base(w) && InPlace(w, Top(w))
    && forall c :: c in w.cos && c != Top(w) ==> KeptOrNew(w, h, c)
  }

  lemma InitInv<C, M>(main: C, m: M, b: seq<Byte>)
    ensures Inv(Init(main, m, b), map[])
  {
  }

  lemma ParkKeeps<C, M>(w: World<C, M>, h: History<C>, curr: C, sp: nat)
    requires Base(w) && curr in w.cos && sp < |Buffer(w, curr)| && InPlace(w, curr)
    ensures var t := Park(w, curr, sp); var h' := h[curr := Buffer(w, curr)[sp..]];
            && Base(t) && KeptOrNew(t, h', curr)
            && forall c :: c in w.cos && c != curr ==>
               Alive(t, c) == Alive(w, c) && (KeptOrNew(w, h, c) ==> KeptOrNew(t, h', c))
  {
  }

  /** The displaced occupant of a stack has its bytes in its save buffer. */
  lemma DisplaceKeeps<C, M>(w: World<C, M>, h: History<C>, pending: C)
    requires Base(w) && Alive(w, pending)
    requires forall c :: c in w.cos && c != pending ==> KeptOrNew(w, h, c)
    ensures var t := Displace(w, pending);
            && Base(t) && InPlace(t, pending) && t.cos.Keys == w.cos.Keys && t.mems.Keys == w.mems.Keys
            && t.main == w.main && t.pCallStack == w.pCallStack
            && t.cos[pending] == w.cos[pending] && Buffer(t, pending) == Buffer(w, pending)
            && forall c :: c in t.cos && c != pending ==> KeptOrNew(t, h, c)
  {
    var t := Displace(w, pending);
    DisplaceBase(w, pending);
    forall c | c in t.cos && c != pending ensures KeptOrNew(t, h, c) {
      assert KeptOrNew(w, h, c);
      hide Calls;
    }
  }

  lemma DisplaceBase<C, M>(w: World<C, M>, pending: C)
    requires Base(w) && Alive(w, pending)
    requires w.cos[pending].cIsShareStack ==>
               var o := w.mems[w.cos[pending].stack_mem].occupy_co;
               o.Some? && o.value != pending ==> w.cos[o.value].stack_sp < |Buffer(w, o.value)|
    ensures var t := Displace(w, pending);
            && Base(t) && InPlace(t, pending) && t.cos.Keys == w.cos.Keys && t.mems.Keys == w.mems.Keys
            && t.main == w.main && t.pCallStack == w.pCallStack
  {
  }

  /** The second half of co_swap is going to copy, and what it copies is `co`'s. */
  predicate CopiesBack<C(==), M>(w: World<C, M>) {
    w.pending_co != None && w.occupy_co != None && w.occupy_co != w.pending_co
  }

  predicate Saved<C(==), M>(w: World<C, M>, h: History<C>, co: C)
    requires Sane(w) && co in w.cos
  {
    co in h && w.cos[co].save_buffer == Some(h[co]) && 0 < |h[co]| == |Buffer(w, co)| - w.cos[co].stack_sp
  }

  lemma DisplacedIsSaved<C, M>(w: World<C, M>, h: History<C>, co: C)
    requires Base(w) && Alive(w, co) && KeptOrNew(w, h, co)
    ensures var t := Displace(w, co);
            && Sane(t) && co in t.cos && (CopiesBack(t) ==> Saved(t, h, co))
            && (t.pending_co == None <==> !w.cos[co].cIsShareStack) && (CopiesBack(t) ==> t.pending_co == Some(co))
            && (Occupied(w, co) && !CopiesBack(t) ==> co in h && Shows(t, co, h[co]))
            && (!Occupied(w, co) ==> !CopiesBack(t))
  {
  }

  /** The coroutine that is switched in copies its bytes back if it had been displaced
      and somebody occupied its stack. */
  lemma SwapInKeeps<C, M>(w: World<C, M>, h: History<C>, co: C)
    requires Base(w) && co in w.cos && InPlace(w, co)
    requires forall c :: c in w.cos && c != co ==> KeptOrNew(w, h, c)
    requires CopiesBack(w) ==> w.pending_co == Some(co) && Saved(w, h, co)
    ensures var t := SwapIn(w);
            && Base(t) && InPlace(t, co) && t.cos == w.cos && t.pCallStack == w.pCallStack && t.main == w.main
            && t.mems.Keys == w.mems.Keys
            && (forall c :: c in t.cos && c != co ==> KeptOrNew(t, h, c))
            && (if CopiesBack(w) then Shows(t, co, h[co]) else Buffer(t, co) == Buffer(w, co))
  {
    var t := SwapIn(w);
    assert Calls(t);
  }

  /** May `co` be switched in?  Its stack is its own, or somebody has been on it since
      the last occupant was freed or reset. */
  predicate Occupied<C(==), M>(w: World<C, M>, co: C) {
    Sane(w) && co in w.cos && (!w.cos[co].cIsShareStack || w.mems[w.cos[co].stack_mem].occupy_co != None)
  }

  /** From `w`, in which `h` had been switched out, `co` was switched in, and now `h'`
      is switched out: everything is kept, and `co` finds its own bytes if its stack
      was occupied; if not, the buffer is as it was. */
  ghost predicate SwitchedTo<C, M>(w: World<C, M>, h: History<C>, t: World<C, M>, h': History<C>, co: C, first: bool)
    requires Sane(w) && co in w.cos
  {
    && Base(t) && t.cos.Keys == w.cos.Keys && t.mems.Keys == w.mems.Keys && t.main == w.main
       && t.pCallStack == w.pCallStack
    && InPlace(t, co) && t.cos[co] == w.cos[co] && (forall c :: c in t.cos && c != co ==> KeptOrNew(t, h', c))
    && (!first && Occupied(w, co) ==> co in h && Shows(t, co, h[co]))
    && (first || !Occupied(w, co) ==> Buffer(t, co) == Buffer(w, co))
  }

  lemma SwapKeeps<C, M>(w: World<C, M>, h: History<C>, curr: C, pending: C, sp: nat, first: bool)
    requires Base(w) && curr in w.cos && Alive(w, pending) && curr != pending && sp < |Buffer(w, curr)|
             && InPlace(w, curr)
    requires forall c :: c in w.cos && c != curr && (first ==> c != pending) ==> KeptOrNew(w, h, c)
    ensures SwitchedTo(w, h, Swap(w, curr, pending, sp, first), h[curr := Buffer(w, curr)[sp..]], pending, first)
  {
    hide KeptOrNew, Displace, SwapIn, Owners, Calls, Saved, Kept;
    var h' := h[curr := Buffer(w, curr)[sp..]];
    ParkKeeps(w, h, curr, sp);
    var w1 := Park(w, curr, sp);
    DisplaceKeeps(w1, h', pending);
    if !first {
      DisplacedIsSaved(w1, h', pending);
      SwapInKeeps(Displace(w1, pending), h', pending);
    }
  }

  // ----- every step keeps the invariant

  /** `t` is a state in which `co` has just been switched in from `w`. */
  ghost predicate Switched<C, M>(w: World<C, M>, h: History<C>, t: World<C, M>, h': History<C>, co: C)
    requires Sane(w) && co in w.cos
  {
    && Inv(t, h') && Top(t) == co && t.cos[co].stack_sp == w.cos[co].stack_sp
       && t.cos[co].stack_mem == w.cos[co].stack_mem
    && (Alive(w, co) && Occupied(w, co) ==> co in h && Shows(t, co, h[co]))
    && (!Alive(w, co) || !Occupied(w, co) ==> Buffer(t, co) == Buffer(w, co))
  }

  function Pushed<C(==), M>(w: World<C, M>, co: C): World<C, M>
    requires co in w.cos
  {
    w.(cos := w.cos[co := w.cos[co].(cStart := true)], pCallStack := w.pCallStack + [co])
  }

  lemma PushKeeps<C, M>(w: World<C, M>, h: History<C>, co: C)
    requires Inv(w, h) && Idle(w, co)
    ensures var t := Pushed(w, co);
            && Base(t) && Alive(t, co) && (w.cos[co].cStart ==> KeptOrNew(w, h, co))
            && forall c :: c in t.cos && c != Top(w) && (!w.cos[co].cStart ==> c != co) ==> KeptOrNew(t, h, c)
  {
    var t := Pushed(w, co);
    forall c | c in t.cos && c != Top(w) && (!w.cos[co].cStart ==> c != co) ensures KeptOrNew(t, h, c) {
      assert KeptOrNew(w, h, c);
    }
  }

  lemma ResumeKeeps<C, M>(w: World<C, M>, h: History<C>, co: C, sp: nat)
    requires Inv(w, h) && Idle(w, co) && OnStack(w, sp)
    ensures Switched(w, h, ResumeCo(w, co, sp), h[Top(w) := Buffer(w, Top(w))[sp..]], co)
  {
    hide Displace, SwapIn, Swap, KeptOrNew, Owners;
    PushKeeps(w, h, co);
    SwapKeeps(Pushed(w, co), h, Top(w), co, sp, !w.cos[co].cStart);
  }

  lemma YieldKeeps<C, M>(w: World<C, M>, h: History<C>, sp: nat)
    requires Inv(w, h) && 2 <= |w.pCallStack| && OnStack(w, sp)
    ensures Switched(w, h, YieldCo(w, sp), h[Top(w) := Buffer(w, Top(w))[sp..]], w.pCallStack[|w.pCallStack| - 2])
  {
    var n := |w.pCallStack|;
    var w1 := w.(pCallStack := w.pCallStack[..n - 1]);
    hide Displace, SwapIn, Swap;
    assert Base(w1);
    forall c | c in w1.cos && c != Top(w) ensures KeptOrNew(w1, h, c) {
      assert KeptOrNew(w, h, c);
    }
    SwapKeeps(w1, h, w.pCallStack[n - 1], w.pCallStack[n - 2], sp, false);
  }

  lemma MarkKeeps<C, M>(w: World<C, M>, h: History<C>)
    requires Inv(w, h)
    ensures var t := w.(cos := w.cos[Top(w) := w.cos[Top(w)].(cEnd := true)]);
            Inv(t, h)
  {
    var t := w.(cos := w.cos[Top(w) := w.cos[Top(w)].(cEnd := true)]);
    forall d | d in t.cos && d != Top(w) ensures KeptOrNew(t, h, d) {
      assert KeptOrNew(w, h, d);
    }
  }

  lemma EndKeeps<C, M>(w: World<C, M>, h: History<C>, sp: nat)
    requires Inv(w, h) && 2 <= |w.pCallStack| && OnStack(w, sp)
    ensures Switched(w, h, Step(w, End(sp)), h[Top(w) := Buffer(w, Top(w))[sp..]], w.pCallStack[|w.pCallStack| - 2])
  {
    hide KeptOrNew, Owners, Swap;
    MarkKeeps(w, h);
    YieldKeeps(w.(cos := w.cos[Top(w) := w.cos[Top(w)].(cEnd := true)]), h, sp);
  }

  lemma ResetKeeps<C, M>(w: World<C, M>, h: History<C>, co: C)
    requires Inv(w, h) && Idle(w, co)
    ensures Inv(ResetCo(w, co), h)
  {
    var t := ResetCo(w, co);
    assert Base(t);
    forall c | c in t.cos && c != Top(t) ensures KeptOrNew(t, h, c) {
      assert KeptOrNew(w, h, c);
    }
  }

  lemma FreeKeeps<C, M>(w: World<C, M>, h: History<C>, co: C)
    requires Inv(w, h) && Idle(w, co)
    ensures Inv(FreeCo(w, co), h)
  {
    var t := FreeCo(w, co);
    assert Base(t);
    forall c | c in t.cos && c != Top(t) ensures KeptOrNew(t, h, c) {
      assert KeptOrNew(w, h, c);
    }
  }

  lemma WriteKeeps<C, M>(w: World<C, M>, h: History<C>, b: seq<Byte>)
    requires Inv(w, h) && |b| == |Buffer(w, Top(w))|
    ensures Inv(Step(w, Write(b)), h)
  {
    var t := Step(w, Write(b));
    assert Base(t);
    forall c | c in t.cos && c != Top(t) ensures KeptOrNew(t, h, c) {
      assert KeptOrNew(w, h, c);
    }
  }

  lemma AllocKeeps<C, M>(w: World<C, M>, h: History<C>, m: M, b: seq<Byte>)
    requires Inv(w, h) && m !in w.mems
    ensures Inv(Step(w, AllocStackMem(m, b)), h)
  {
    var t := Step(w, AllocStackMem(m, b));
    forall c | c in t.cos && c != Top(t) ensures KeptOrNew(t, h, c) {
      assert KeptOrNew(w, h, c);
    }
  }

  lemma CreateKeeps<C, M>(w: World<C, M>, h: History<C>, co: C, r: Routine<M>)
    requires Inv(w, h) && co !in w.cos && r.stack_mem in w.mems && !r.cStart && r.stack_sp == 0
    requires forall d :: d in w.cos && w.cos[d].stack_mem == r.stack_mem ==> r.cIsShareStack && w.cos[d].cIsShareStack
    ensures Inv(w.(cos := w.cos[co := r]), h)
  {
    var t := w.(cos := w.cos[co := r]);
    forall c | c in t.cos && c != Top(t) ensures KeptOrNew(t, h, c) {
      assert c in w.cos ==> KeptOrNew(w, h, c);
    }
  }

  lemma StepKeeps<C, M>(w: World<C, M>, h: History<C>, e: Event<C, M>)
    requires Inv(w, h) && Enabled(w, e)
    ensures Inv(Step(w, e), Seen(w, h, e))
  {
    hide Inv, ResumeCo, YieldCo;
    match e
    case AllocStackMem(m, b) => AllocKeeps(w, h, m, b);
    case CreateShared(co, m) => CreateKeeps(w, h, co, Routine(m, true, false, false, 0, None));
    case CreatePrivate(co, m, b) =>
      AllocKeeps(w, h, m, b);
      CreateKeeps(Step(w, AllocStackMem(m, b)), h, co, Routine(m, false, false, false, 0, None));
    case Write(b) => WriteKeeps(w, h, b);
    case Resume(co, sp) => ResumeKeeps(w, h, co, sp);
    case Yield(sp) => YieldKeeps(w, h, sp);
    case End(sp) => EndKeeps(w, h, sp);
    case Reset(co) => ResetKeeps(w, h, co);
    case Free(co) => FreeKeeps(w, h, co);
  }
}
