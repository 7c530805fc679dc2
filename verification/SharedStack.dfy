/** Coroutines that take turns on the same stack buffer.  A step is one call of the
    library or one stretch of code that writes to the running coroutine's stack;
    `C` names the coroutines, `M` the stack buffers.  A buffer's highest byte is its
    last one (stack_bp is its length), and what a coroutine has on its stack are the
    bytes from stack_sp on. */
module SharedStack {
  import opened CallStack
  import opened Wrappers

  type Byte = x: int | 0 <= x < 256

  datatype StackMem<C> = StackMem(occupy_co: Option<C>, stack_buffer: seq<Byte>)

  datatype Routine<M> = Routine(
    stack_mem: M, cIsShareStack: bool, cStart: bool, cEnd: bool,
    stack_sp: nat, save_buffer: Option<seq<Byte>>)

  /** `main` is the main coroutine; its buffer stands for the thread's own stack.
      `fault` is set when freed memory is touched or bytes are copied out of bounds. */
  datatype World<C, M> = World(
    main: C, cos: map<C, Routine<M>>, mems: map<M, StackMem<C>>,
    pCallStack: seq<C>, pending_co: Option<C>, occupy_co: Option<C>, fault: bool)

  datatype Event<C, M> =
    | AllocStackMem(m: M, stack_buffer: seq<Byte>)
    | CreateShared(co: C, m: M)
    | CreatePrivate(co: C, m: M, stack_buffer: seq<Byte>)
    | Write(stack_buffer: seq<Byte>)
    | Resume(co: C, sp: nat)
    | Yield(sp: nat)
    | End(sp: nat)
    | Reset(co: C)
    | Free(co: C)

  function Init<C, M>(main: C, m: M, stack_buffer: seq<Byte>): World<C, M> {
    World(main, map[main := Routine(m, false, false, false, 0, None)], map[m := StackMem(None, stack_buffer)],
          [main], None, None, false)
  }

  function Top<C, M>(w: World<C, M>): C
    requires w.pCallStack != []
  {
    w.pCallStack[|w.pCallStack| - 1]
  }

  /** Every coroutine has a stack. */
  predicate Sane<C, M>(w: World<C, M>) {
    && w.pCallStack != [] && (forall c :: c in w.pCallStack ==> c in w.cos)
    && (forall c :: c in w.cos ==> w.cos[c].stack_mem in w.mems)
  }

  function Buffer<C, M>(w: World<C, M>, c: C): seq<Byte>
    requires Sane(w) && c in w.cos
  {
    w.mems[w.cos[c].stack_mem].stack_buffer
  }

  /** What `c` has on its stack, as found in the buffer right now. */
  function View<C, M>(w: World<C, M>, c: C): seq<Byte>
    requires Sane(w) && c in w.cos && w.cos[c].stack_sp <= |Buffer(w, c)|
  {
    Buffer(w, c)[w.cos[c].stack_sp..]
  }

  // ----- switching

  /** save_stack_buffer. */
  function SaveStackBuffer<C(==), M(==)>(w: World<C, M>, occupy_co: C): World<C, M>
    requires Sane(w)
  {
    if occupy_co !in w.cos || w.cos[occupy_co].stack_sp > |Buffer(w, occupy_co)| then w.(fault := true)
    else w.(cos := w.cos[occupy_co := w.cos[occupy_co].(save_buffer := Some(View(w, occupy_co)))])
  }

  /** `pending` becomes the occupant of its stack, if that is shared; who was there is
      saved. */
  function Displace<C(==), M(==)>(w: World<C, M>, pending: C): World<C, M>
    requires Sane(w) && pending in w.cos
  {
    if !w.cos[pending].cIsShareStack then w.(pending_co := None, occupy_co := None)
    else
      var m := w.cos[pending].stack_mem;
      var o := w.mems[m].occupy_co;
      var t := w.(pending_co := Some(pending), occupy_co := o,
        mems := w.mems[m := w.mems[m].(occupy_co := Some(pending))]);
      if o.Some? && o.value != pending then SaveStackBuffer(t, o.value) else t
  }

  function Park<C(==), M(==)>(w: World<C, M>, curr: C, sp: nat): World<C, M>
    requires Sane(w) && curr in w.cos
  {
    w.(cos := w.cos[curr := w.cos[curr].(stack_sp := sp)])
  }

  /** co_swap up to the switch: `sp` is the address of its local variable. */
  function SwapOut<C(==), M(==)>(w: World<C, M>, curr: C, pending: C, sp: nat): World<C, M>
    requires Sane(w) && curr in w.cos && pending in w.cos
  {
    Displace(Park(w, curr, sp), pending)
  }

  /** `b` with the bytes `save` copied to `sp`. */
  function Copied(b: seq<Byte>, sp: nat, save: seq<Byte>): (r: seq<Byte>)
    requires sp + |save| <= |b|
    ensures |r| == |b| && r[sp..sp + |save|] == save
  {
    b[..sp] + save + b[sp + |save|..]
  }

  /** co_swap after the switch, run by the coroutine that was switched in. */
  function SwapIn<C(==), M(==)>(w: World<C, M>): World<C, M>
    requires Sane(w)
  {
    if w.occupy_co == None || w.pending_co == None || w.occupy_co == w.pending_co then w
    else if w.pending_co.value !in w.cos then w.(fault := true)
    else
      var r := w.cos[w.pending_co.value];
      var m := w.mems[r.stack_mem];
      if r.save_buffer == None || r.save_buffer.value == [] then w
      else if r.stack_sp + |r.save_buffer.value| > |m.stack_buffer| then w.(fault := true)
      else
        w.(mems := w.mems[r.stack_mem :=
                            m.(stack_buffer := Copied(m.stack_buffer, r.stack_sp, r.save_buffer.value))])
  }

  /** co_swap: a coroutine that runs for the first time does not come back from an
      earlier co_swap, so nothing is copied back. */
  function Swap<C(==), M(==)>(w: World<C, M>, curr: C, pending: C, sp: nat, first: bool): World<C, M>
    requires Sane(w) && curr in w.cos && pending in w.cos
  {
    var t := SwapOut(w, curr, pending, sp);
    if first then t else SwapIn(t)
  }

  /** co_resume. */
  function ResumeCo<C(==), M(==)>(w: World<C, M>, co: C, sp: nat): World<C, M>
    requires Sane(w) && co in w.cos
  {
    var first := !w.cos[co].cStart;
    var w1 := w.(cos := w.cos[co := w.cos[co].(cStart := true)], pCallStack := w.pCallStack + [co]);
    Swap(w1, Top(w), co, sp, first)
  }

  /** co_yield_env. */
  function YieldCo<C(==), M(==)>(w: World<C, M>, sp: nat): World<C, M>
    requires Sane(w) && 2 <= |w.pCallStack|
  {
    var n := |w.pCallStack|;
    Swap(w.(pCallStack := w.pCallStack[..n - 1]), w.pCallStack[n - 1], w.pCallStack[n - 2], sp, false)
  }

  /** The tail that co_free and co_reset share: nobody occupies `co`'s stack if `co` did. */
  function Vacated<C(==), M(==)>(w: World<C, M>, co: C): map<M, StackMem<C>>
    requires Sane(w) && co in w.cos
  {
    var m := w.cos[co].stack_mem;
    if w.mems[m].occupy_co == Some(co) then w.mems[m := w.mems[m].(occupy_co := None)] else w.mems
  }

  /** co_reset. */
  function ResetCo<C(==), M(==)>(w: World<C, M>, co: C): World<C, M>
    requires Sane(w) && co in w.cos
  {
    var r := w.cos[co];
    if !r.cStart || co == w.main then w
    else w.(cos := w.cos[co := r.(cStart := false, cEnd := false, save_buffer := None)], mems := Vacated(w, co))
  }

  /** co_free. */
  function FreeCo<C(==), M(==)>(w: World<C, M>, co: C): World<C, M>
    requires Sane(w) && co in w.cos
  {
    var r := w.cos[co];
    w.(cos := w.cos - {co}, mems := if r.cIsShareStack then Vacated(w, co) else w.mems - {r.stack_mem})
  }

  // ----- the machine

  /** The address of a local variable of the running coroutine. */
  predicate OnStack<C, M>(w: World<C, M>, sp: nat) {
    Sane(w) && sp < |Buffer(w, Top(w))|
  }

  /** `co` can be taken down: it is not on the call stack. */
  predicate Idle<C(==), M>(w: World<C, M>, co: C) {
    Sane(w) && co in w.cos && co !in w.pCallStack
  }

  /** What the source takes for granted: depth below 128, no resumption of what runs
      or has ended, main never yields, no reset or release of what is on the call
      stack; and a coroutine writes to no stack but its own. */
  predicate Enabled<C(==), M(==)>(w: World<C, M>, e: Event<C, M>) {
    && Sane(w)
    && match e
       case AllocStackMem(m, b) => m !in w.mems
       case CreateShared(co, m) =>
         co !in w.cos && m in w.mems && forall d :: d in w.cos && w.cos[d].stack_mem == m ==> w.cos[d].cIsShareStack
       case CreatePrivate(co, m, b) => co !in w.cos && m !in w.mems
       case Write(b) => |b| == |Buffer(w, Top(w))|
       case Resume(co, sp) => Idle(w, co) && !w.cos[co].cEnd && |w.pCallStack| < CALL_STACK_SIZE && OnStack(w, sp)
       case Yield(sp) => 2 <= |w.pCallStack| && OnStack(w, sp)
       case End(sp) => 2 <= |w.pCallStack| && OnStack(w, sp)
       case Reset(co) => Idle(w, co)
       case Free(co) => Idle(w, co)
  }

  function Step<C(==), M(==)>(w: World<C, M>, e: Event<C, M>): World<C, M>
    requires Enabled(w, e)
  {
    match e
    case AllocStackMem(m, b) => w.(mems := w.mems[m := StackMem(None, b)])
    case CreateShared(co, m) => w.(cos := w.cos[co := Routine(m, true, false, false, 0, None)])
    case CreatePrivate(co, m, b) =>
      w.(cos := w.cos[co := Routine(m, false, false, false, 0, None)], mems := w.mems[m := StackMem(None, b)])
    case Write(b) =>
      var m := w.cos[Top(w)].stack_mem;
      w.(mems := w.mems[m := w.mems[m].(stack_buffer := b)])
    case Resume(co, sp) => ResumeCo(w, co, sp)
    case Yield(sp) => YieldCo(w, sp)
    case End(sp) =>
      var c := Top(w);
      YieldCo(w.(cos := w.cos[c := w.cos[c].(cEnd := true)]), sp)
    case Reset(co) => ResetCo(w, co)
    case Free(co) => FreeCo(w, co)
  }

  predicate Runs<C(==), M(==)>(w: World<C, M>, es: seq<Event<C, M>>)
    decreases |es|
  {
    es != [] ==> Enabled(w, es[0]) && Runs(Step(w, es[0]), es[1..])
  }

  function Exec<C(==), M(==)>(w: World<C, M>, es: seq<Event<C, M>>): World<C, M>
    requires Runs(w, es)
    decreases |es|
  {
    if es == [] then w else Exec(Step(w, es[0]), es[1..])
  }
}
