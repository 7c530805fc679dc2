/** The coroutine objects of one thread: the same copying of stacks as in SharedStack,
    on objects and buffers that are updated in place. */
module CoRoutines {
  import opened CallStack
  import opened SharedStackInv
  import opened Wrappers
  import S = SharedStack

  type Byte = S.Byte

  /** memcpy of `n` bytes between two buffers. */
  method Memcpy(dst: array<Byte>, at: nat, src: array<Byte>, from: nat, n: nat)
    requires at + n <= dst.Length && from + n <= src.Length && dst != src
    modifies dst
    ensures dst[..] == S.Copied(old(dst[..]), at, src[from..from + n])
  {
    var i := 0;
    while i < n
      invariant 0 <= i <= n
      invariant dst[..] == S.Copied(old(dst[..]), at, src[from..from + i])
    {
      dst[at + i] := src[from + i];
      i := i + 1;
      assert src[from..from + i] == src[from..from + i - 1] + [src[from + i - 1]];
    }
  }

  /** stStackMem_t; stack_bp is the length of the buffer. */
  class StackMem {
    var occupy_co: CoRoutine?
    const stack_buffer: array<Byte>

    constructor (stack_buffer: array<Byte>)
      ensures occupy_co == null && this.stack_buffer == stack_buffer
    {
      this.occupy_co := null;
      this.stack_buffer := stack_buffer;
    }
  }

  /** stCoRoutine_t, as far as switching goes; stack_sp is an index into the stack. */
  class CoRoutine {
    const stack_mem: StackMem
    const cIsShareStack: bool
    var cStart: bool
    var cEnd: bool
    var stack_sp: nat
    var save_buffer: array?<Byte>
    var save_size: nat

    constructor (stack_mem: StackMem, cIsShareStack: bool)
      ensures this.stack_mem == stack_mem && this.cIsShareStack == cIsShareStack
      ensures !cStart && !cEnd && stack_sp == 0 && save_buffer == null && save_size == 0
    {
      this.stack_mem, this.cIsShareStack := stack_mem, cIsShareStack;
      cStart, cEnd, stack_sp, save_buffer, save_size := false, false, 0, null, 0;
    }

    /** save_stack_buffer. */
    method SaveStackBuffer()
      requires stack_sp <= stack_mem.stack_buffer.Length
      modifies this`save_buffer, this`save_size
      ensures fresh(save_buffer) && save_buffer.Length == save_size
      ensures save_buffer[..] == stack_mem.stack_buffer[stack_sp..]
    {
      var len := stack_mem.stack_buffer.Length - stack_sp;
      var save := new Byte[len];
      Memcpy(save, 0, stack_mem.stack_buffer, stack_sp, len);
      save_buffer := save;
      save_size := len;
    }
  }

  ghost function Opt(c: CoRoutine?): Option<CoRoutine> {
    if c == null then None else Some(c)
  }

  ghost function RoutineOf(c: CoRoutine): S.Routine<StackMem>
    reads c, c.save_buffer
  {
    S.Routine(c.stack_mem, c.cIsShareStack, c.cStart, c.cEnd, c.stack_sp,
              if c.save_buffer == null then None else Some(c.save_buffer[..]))
  }

  ghost function MemOf(m: StackMem): S.StackMem<CoRoutine>
    reads m, m.stack_buffer
  {
    S.StackMem(Opt(m.occupy_co), m.stack_buffer[..])
  }

  /** stCoRoutineEnv_t.  The ghost fields are what has been allocated and not freed,
      and what each coroutine had on its stack when it was last switched out. */
  class CoRoutineEnv {
    const main: CoRoutine
    const pCallStack: array<CoRoutine?>
    var iCallStackSize: nat
    var pending_co: CoRoutine?
    var occupy_co: CoRoutine?
    ghost var cos: set<CoRoutine>
    ghost var mems: set<StackMem>
    ghost var seen: History<CoRoutine>

    ghost function StackBuffers(): set<object>
      reads this`mems
    {
      set m | m in mems :: m.stack_buffer
    }

    ghost function SaveBuffers(): set<object>
      reads this`cos, cos
    {
      set c | c in cos && c.save_buffer != null :: c.save_buffer
    }

    ghost function Routines(): map<CoRoutine, S.Routine<StackMem>>
      reads this`cos, cos, SaveBuffers()
    {
      map c | c in cos :: RoutineOf(c)
    }

    ghost function Mems(): map<StackMem, S.StackMem<CoRoutine>>
      reads this`mems, mems, StackBuffers()
    {
      map m | m in mems :: MemOf(m)
    }

    /** No two buffers overlap, and what is live points to what is live. */
    ghost predicate Shape()
      reads `iCallStackSize, `cos, `mems, pCallStack, cos, mems
    {
      && 1 <= iCallStackSize <= pCallStack.Length == CALL_STACK_SIZE
      && (forall i :: 0 <= i < iCallStackSize ==> pCallStack[i] != null && pCallStack[i] in cos)
      && (forall c :: c in cos ==>
          c.stack_mem in mems && (c.save_buffer != null ==> c.save_buffer.Length == c.save_size))
      && (forall m, n :: m in mems && n in mems && m != n ==> m.stack_buffer != n.stack_buffer)
      && (forall c, d :: c in cos && d in cos && c != d && c.save_buffer != null ==> c.save_buffer != d.save_buffer)
      && (forall c, m :: c in cos && m in mems ==> c.save_buffer != m.stack_buffer)
    }

    ghost function Calls(): seq<CoRoutine>
      requires Shape()
      reads `iCallStackSize, `cos, `mems, pCallStack, cos, mems
    {
      pCallStack[..iCallStackSize]
    }

    ghost function World(): S.World<CoRoutine, StackMem>
      requires Shape()
      reads `iCallStackSize, `cos, `mems, `pending_co, `occupy_co, pCallStack, cos, mems, SaveBuffers(), StackBuffers()
    {
      S.World(main, Routines(), Mems(), Calls(), Opt(pending_co), Opt(occupy_co), false)
    }

    lemma Live()
      requires Shape()
      ensures World().main == main && World().cos.Keys == cos && World().mems.Keys == mems
      ensures forall c :: c in cos ==> World().cos[c] == RoutineOf(c)
    {
    }

    ghost predicate Valid()
      reads this, pCallStack, cos, mems, SaveBuffers(), StackBuffers()
    {
      Shape() && Inv(World(), seen)
    }

    /** co_init_curr_thread_env, with a main coroutine that was just created. */
    constructor (main: CoRoutine)
      requires !main.cIsShareStack && !main.cStart && !main.cEnd && main.stack_sp == 0
      requires main.save_buffer == null && main.stack_mem.occupy_co == null
      ensures Valid() && fresh(pCallStack)
      ensures World() == S.Init(main, main.stack_mem, main.stack_mem.stack_buffer[..])
    {
      hide Inv;
      this.main := main;
      pCallStack := new CoRoutine?[CALL_STACK_SIZE](_ => null);
      iCallStackSize := 1;
      pending_co, occupy_co := null, null;
      cos, mems, seen := {main}, {main.stack_mem}, map[];
      new;
      pCallStack[0] := main;
      InitInv(main, main.stack_mem, main.stack_mem.stack_buffer[..]);
      assert World() == S.Init(main, main.stack_mem, main.stack_mem.stack_buffer[..]);
    }

    /** save_stack_buffer of the occupant of a stack. */
    method Displace(occupy_co: CoRoutine)
      requires Shape() && occupy_co in cos && occupy_co.stack_sp <= occupy_co.stack_mem.stack_buffer.Length
      modifies occupy_co`save_buffer, occupy_co`save_size
      ensures Shape() && World() == S.SaveStackBuffer(old(World()), occupy_co)
    {
      ghost var r := RoutineOf(occupy_co);
      occupy_co.SaveStackBuffer();
      assert RoutineOf(occupy_co) == r.(save_buffer := Some(occupy_co.stack_mem.stack_buffer[occupy_co.stack_sp..]));
      assert Routines() == old(Routines())[occupy_co := RoutineOf(occupy_co)];
    }

    ghost method AddMem(m: StackMem)
      requires Shape() && m !in mems && m.occupy_co == null
      requires forall n :: n in mems ==> n.stack_buffer != m.stack_buffer
      requires forall c :: c in cos ==> c.save_buffer != m.stack_buffer
      modifies `mems
      ensures Shape() && World() == old(World()).(mems := old(World()).mems[m := S.StackMem(None, m.stack_buffer[..])])
    {
      mems := mems + {m};
      assert Mems() == old(Mems())[m := MemOf(m)];
      assert Routines() == old(Routines());
    }

    ghost method AddCo(co: CoRoutine)
      requires Shape() && co !in cos && co.stack_mem in mems && co.save_buffer == null
      modifies `cos
      ensures Shape() && World() == old(World()).(cos := old(World()).cos[co := RoutineOf(co)])
    {
      cos := cos + {co};
      assert Routines() == old(Routines())[co := RoutineOf(co)];
    }

    method NewStackMem(stack_size: nat) returns (m: StackMem)
      requires Shape()
      ensures fresh(m) && fresh(m.stack_buffer) && m.stack_buffer.Length == stack_size && m.occupy_co == null
      ensures Shape() && World() == old(World())
    {
      var b := new Byte[stack_size];
      m := new StackMem(b);
      assert Routines() == old(Routines()) && Mems() == old(Mems()) && Calls() == old(Calls());
    }

    method NewCoRoutine(m: StackMem, share: bool) returns (co: CoRoutine)
      requires Shape()
      ensures fresh(co) && co.stack_mem == m && RoutineOf(co) == S.Routine(m, share, false, false, 0, None)
      ensures Shape() && World() == old(World())
    {
      co := new CoRoutine(m, share);
    }

    /** co_alloc_stackmem: one buffer of a shared stack. */
    method CoAllocStackMem(stack_size: nat) returns (m: StackMem)
      requires Valid()
      modifies `mems
      ensures fresh(m) && m in mems && m.stack_buffer.Length == stack_size
      ensures Valid() && S.Enabled(old(World()), S.AllocStackMem(m, m.stack_buffer[..]))
      ensures World() == S.Step(old(World()), S.AllocStackMem(m, m.stack_buffer[..]))
    {
      hide Inv, World;
      ghost var w := World();
      Live();
      CreationSafe(w, seen);
      m := NewStackMem(stack_size);
      AllocKeeps(w, seen, m, m.stack_buffer[..]);
      hide Shape;
      AddMem(m);
      Live();
    }

    /** co_create_env with a shared stack. */
    method CoCreateShared(m: StackMem) returns (co: CoRoutine)
      requires Valid() && m in mems && forall c :: c in cos && c.stack_mem == m ==> c.cIsShareStack
      modifies `cos
      ensures fresh(co) && co in cos && co.stack_mem == m
      ensures Valid() && S.Enabled(old(World()), S.CreateShared(co, m))
      ensures World() == S.Step(old(World()), S.CreateShared(co, m))
    {
      hide Inv, Shape, World;
      ghost var w := World();
      Live();
      CreationSafe(w, seen);
      co := NewCoRoutine(m, true);
      CreateKeeps(w, seen, co, RoutineOf(co));
      AddCo(co);
      Live();
    }

    /** co_create_env with a stack of its own. */
    method CoCreatePrivate(stack_size: nat) returns (co: CoRoutine)
      requires Valid()
      modifies `cos, `mems
      ensures fresh(co) && co in cos && fresh(co.stack_mem) && co.stack_mem.stack_buffer.Length == stack_size
      ensures Valid() && S.Enabled(old(World()), S.CreatePrivate(co, co.stack_mem, co.stack_mem.stack_buffer[..]))
      ensures World() == S.Step(old(World()), S.CreatePrivate(co, co.stack_mem, co.stack_mem.stack_buffer[..]))
    {
      hide Inv, Shape, World;
      ghost var w := World();
      Live();
      CreationSafe(w, seen);
      var m := CoAllocStackMem(stack_size);
      co := NewCoRoutine(m, false);
      ghost var w1 := World();
      Live();
      CreateKeeps(w1, seen, co, RoutineOf(co));
      AddCo(co);
      Live();
    }

    method Park(curr: CoRoutine, sp: nat)
      requires Shape() && curr in cos
      modifies curr`stack_sp
      ensures Shape() && World() == S.Park(old(World()), curr, sp)
    {
      curr.stack_sp := sp;
      assert Routines() == old(Routines())[curr := RoutineOf(curr)];
    }

    method Occupy(m: StackMem, co: CoRoutine)
      requires Shape() && m in mems
      modifies m`occupy_co
      ensures Shape() && World() ==
              old(World()).(mems := old(World()).mems[m := old(World()).mems[m].(occupy_co := Some(co))])
    {
      m.occupy_co := co;
      assert Mems() == old(Mems())[m := MemOf(m)];
      assert Routines() == old(Routines());
    }

    /** Leaves a note for the second half of co_swap. */
    method Note(pending: CoRoutine?, o: CoRoutine?)
      requires Shape()
      modifies `pending_co, `occupy_co
      ensures Shape() && World() == old(World()).(pending_co := Opt(pending), occupy_co := Opt(o))
    {
      pending_co, occupy_co := pending, o;
    }

    /** `pending` takes over its stack, if that is shared. */
    method TakeOver(pending: CoRoutine)
      requires Shape() && pending in cos && !S.Displace(World(), pending).fault
      modifies `pending_co, `occupy_co, cos, mems
      ensures Shape() && World() == S.Displace(old(World()), pending)
    {
      if !pending.cIsShareStack {
        Note(null, null);
      } else {
        var o := pending.stack_mem.occupy_co;
        ghost var w := World();
        assert w.mems[pending.stack_mem].occupy_co == Opt(o) && w.cos[pending].cIsShareStack
          && w.cos[pending].stack_mem == pending.stack_mem;
        assert o != null && o != pending ==> o in cos && o.stack_sp <= o.stack_mem.stack_buffer.Length;
        Note(pending, o);
        Occupy(pending.stack_mem, pending);
        if o != null && o != pending {
          Displace(o);
        }
      }
    }

    /** co_swap up to coctx_swap. */
    method SwapOut(curr: CoRoutine, pending: CoRoutine, sp: nat)
      requires Shape() && curr in cos && pending in cos && !S.SwapOut(World(), curr, pending, sp).fault
      modifies `pending_co, `occupy_co, cos, mems
      ensures Shape() && World() == S.SwapOut(old(World()), curr, pending, sp)
    {
      Park(curr, sp);
      TakeOver(pending);
    }

    /** co_swap after coctx_swap. */
    method SwapIn()
      requires Shape() && !S.SwapIn(World()).fault
      modifies StackBuffers()
      ensures Shape() && World() == S.SwapIn(old(World()))
    {
      if occupy_co != null && pending_co != null && occupy_co != pending_co {
        if pending_co.save_buffer != null && pending_co.save_size != 0 {
          var m := pending_co.stack_mem;
          Memcpy(m.stack_buffer, pending_co.stack_sp, pending_co.save_buffer, 0, pending_co.save_size);
          assert pending_co.save_buffer[0..pending_co.save_size] == pending_co.save_buffer[..];
          assert Mems() == old(Mems())[m := MemOf(m)];
          assert Routines() == old(Routines());
        }
      }
    }

    /** co_swap: what happens until `pending` runs.  One that runs for the `first` time
        starts at its function instead of coming back from its own co_swap. */
    method CoSwap(curr: CoRoutine, pending: CoRoutine, sp: nat, first: bool)
      requires Shape() && curr in World().cos && pending in World().cos && S.Sane(World())
      requires !S.SwapOut(World(), curr, pending, sp).fault && !S.Swap(World(), curr, pending, sp, first).fault
      modifies `pending_co, `occupy_co, cos, mems, StackBuffers()
      ensures Shape() && World() == S.Swap(old(World()), curr, pending, sp, first) && seen == old(seen)
    {
      hide World, Shape, S.SwapOut, S.SwapIn, S.Sane;
      Live();
      SwapOut(curr, pending, sp);
      if !first {
        SwapIn();
      }
    }

    method SetStart(co: CoRoutine)
      requires Shape() && co in cos
      modifies co`cStart
      ensures Shape() && World() == old(World()).(cos := old(World()).cos[co := old(World()).cos[co].(cStart := true)])
    {
      co.cStart := true;
      assert Routines() == old(Routines())[co := RoutineOf(co)];
    }

    method Push(co: CoRoutine)
      requires Shape() && co in cos && iCallStackSize < CALL_STACK_SIZE
      modifies `iCallStackSize, pCallStack
      ensures Shape() && World() == old(World()).(pCallStack := old(World()).pCallStack + [co])
    {
      ghost var calls := Calls();
      pCallStack[iCallStackSize] := co;
      iCallStackSize := iCallStackSize + 1;
      assert Calls() == calls + [co] && Routines() == old(Routines()) && Mems() == old(Mems());
    }

    ghost method Remember(h: History<CoRoutine>)
      requires Shape()
      modifies `seen
      ensures Shape() && World() == old(World()) && seen == h
    {
      seen := h;
    }

    lemma Running()
      requires Shape()
      ensures 1 <= iCallStackSize <= pCallStack.Length && World().pCallStack != []
      ensures pCallStack[iCallStackSize - 1] == S.Top(World())
      ensures |World().pCallStack| == iCallStackSize && pCallStack.Length == CALL_STACK_SIZE
    {
    }

    /** The first half of co_resume: the running coroutine is `curr`, and `co` goes on
        top of the call stack. */
    method Call(co: CoRoutine) returns (curr: CoRoutine, first: bool)
      requires Shape() && co in World().cos && |World().pCallStack| < CALL_STACK_SIZE
      modifies `iCallStackSize, pCallStack, co`cStart
      ensures Shape() && World() == Pushed(old(World()), co)
      ensures curr == S.Top(old(World())) && first == !old(World()).cos[co].cStart && seen == old(seen)
    {
      hide World, Shape;
      Live();
      Running();
      curr := pCallStack[iCallStackSize - 1];
      first := !co.cStart;
      if !co.cStart {
        SetStart(co);
      }
      Push(co);
    }

    /** co_resume, up to the point where `co` runs. */
    method CoResume(co: CoRoutine, sp: nat)
      requires Valid() && S.Enabled(World(), S.Resume(co, sp))
      modifies `iCallStackSize, pCallStack, `pending_co, `occupy_co, `seen, cos, mems, StackBuffers()
      ensures Valid() && World() == S.Step(old(World()), S.Resume(co, sp))
      ensures seen == Seen(old(World()), old(seen), S.Resume(co, sp))
    {
      hide Inv, S.Swap, S.SwapOut, S.Enabled, S.Step, Seen, Pushed, Shape, World, SaveBuffers;
      ghost var w := World();
      Live();
      ResumeSafe(w, seen, co, sp);
      Remember(Seen(w, seen, S.Resume(co, sp)));
      var curr, first := Call(co);
      CoSwap(curr, co, sp, first);
    }

    method Return() returns (curr: CoRoutine, last: CoRoutine)
      requires Shape() && 2 <= |World().pCallStack|
      modifies `iCallStackSize
      ensures Shape() && World() ==
              old(World()).(pCallStack := old(World()).pCallStack[..|old(World()).pCallStack| - 1])
      ensures curr == S.Top(old(World())) && last == old(World()).pCallStack[|old(World()).pCallStack| - 2]
    {
      last := pCallStack[iCallStackSize - 2];
      curr := pCallStack[iCallStackSize - 1];
      iCallStackSize := iCallStackSize - 1;
      assert Calls() == old(Calls())[..|old(Calls())| - 1];
    }

    /** co_yield_env, up to the point where the coroutine below runs. */
    method CoYieldEnv(sp: nat)
      requires Valid() && S.Enabled(World(), S.Yield(sp))
      modifies `iCallStackSize, `pending_co, `occupy_co, `seen, cos, mems, StackBuffers()
      ensures Valid() && World() == S.Step(old(World()), S.Yield(sp))
      ensures seen == Seen(old(World()), old(seen), S.Yield(sp))
    {
      hide Inv, S.Swap, S.SwapOut, S.Enabled, S.Step, Seen, Shape, World;
      ghost var w := World();
      YieldSafe(w, seen, sp);
      Remember(Seen(w, seen, S.Yield(sp)));
      var curr, last := Return();
      CoSwap(curr, last, sp, false);
    }

    method MarkEnd()
      requires Shape()
      modifies cos
      ensures Shape() && World() == Ended(old(World()))
    {
      ghost var c := pCallStack[iCallStackSize - 1];
      pCallStack[iCallStackSize - 1].cEnd := true;
      assert Routines() == old(Routines())[c := RoutineOf(c)];
    }

    /** The end of CoRoutineFunc: the running coroutine is over. */
    method CoEnd(sp: nat)
      requires Valid() && S.Enabled(World(), S.End(sp))
      modifies `iCallStackSize, `pending_co, `occupy_co, `seen, cos, mems, StackBuffers()
      ensures Valid() && World() == S.Step(old(World()), S.End(sp))
    {
      hide Inv, S.Step, S.Enabled, Shape, World;
      ghost var w := World();
      EndSafe(w, seen, sp);
      MarkEnd();
      CoYieldEnv(sp);
    }

    method Vacate(co: CoRoutine)
      requires Shape() && co in World().cos && S.Sane(World())
      modifies co.stack_mem`occupy_co
      ensures Shape() && World() == old(World()).(mems := S.Vacated(old(World()), co))
    {
      if co.stack_mem.occupy_co == co {
        co.stack_mem.occupy_co := null;
        assert Mems() == old(Mems())[co.stack_mem := MemOf(co.stack_mem)];
      }
    }

    method Unstart(co: CoRoutine)
      requires Shape() && co in cos
      modifies co`cStart, co`cEnd
      ensures Shape()
      ensures World() ==
              old(World()).(cos := old(World()).cos[co := old(World()).cos[co].(cStart := false, cEnd := false)])
    {
      co.cStart := false;
      co.cEnd := false;
      assert Routines() == old(Routines())[co := RoutineOf(co)];
    }

    method DropSaveBuffer(co: CoRoutine)
      requires Shape() && co in cos
      modifies co`save_buffer, co`save_size
      ensures Shape()
      ensures World() == old(World()).(cos := old(World()).cos[co := old(World()).cos[co].(save_buffer := None)])
    {
      if co.save_buffer != null {
        co.save_buffer := null;
        co.save_size := 0;
      }
      assert Routines() == old(Routines())[co := RoutineOf(co)];
    }

    /** co_reset. */
    method CoReset(co: CoRoutine)
      requires Valid() && S.Enabled(World(), S.Reset(co))
      modifies co, co.stack_mem`occupy_co
      ensures Valid() && World() == S.Step(old(World()), S.Reset(co))
    {
      hide Inv, S.Step, S.Enabled, Shape, World, S.Vacated;
      ghost var w := World();
      Live();
      ResetSafe(w, seen, co, main);
      if co.cStart && co != main {
        Unstart(co);
        DropSaveBuffer(co);
        Vacate(co);
      }
    }

    ghost method Forget(co: CoRoutine, m: set<StackMem>)
      requires Shape() && co in World().cos && co !in World().pCallStack
      requires forall c :: c in World().cos && c != co ==> World().cos[c].stack_mem !in m
      modifies `cos, `mems
      ensures Shape() && World() == old(World()).(cos := old(World()).cos - {co}, mems := old(World()).mems - m)
    {
      Live();
      cos, mems := cos - {co}, mems - m;
      assert Routines() == old(Routines()) - {co};
      assert Mems() == old(Mems()) - m;
    }

    /** co_free. */
    method CoFree(co: CoRoutine)
      requires Valid() && S.Enabled(World(), S.Free(co))
      modifies `cos, `mems, co.stack_mem`occupy_co
      ensures Valid() && World() == S.Step(old(World()), S.Free(co))
    {
      hide Inv, S.Step, S.Enabled, Shape, World, S.Vacated;
      ghost var w := World();
      Live();
      FreeSafe(w, seen, co);
      if co.cIsShareStack {
        Vacate(co);
        Forget(co, {});
        assert S.Vacated(w, co) - {} == S.Vacated(w, co);
      } else {
        Forget(co, {co.stack_mem});
      }
    }
  }

  lemma CreationSafe<C, M>(w: S.World<C, M>, h: History<C>)
    requires Inv(w, h)
    ensures S.Sane(w)
  {
  }

  lemma ResetSafe<C, M>(w: S.World<C, M>, h: History<C>, co: C, main: C)
    requires Inv(w, h) && S.Enabled(w, S.Reset(co)) && w.main == main
    ensures co in w.cos && S.Sane(w) && Inv(S.Step(w, S.Reset(co)), h)
    ensures   if !w.cos[co].cStart || co == main then S.Step(w, S.Reset(co)) == w
              else
                var t := w.(cos := w.cos[co := w.cos[co].(cStart := false, cEnd := false)]);
                var u := t.(cos := t.cos[co := t.cos[co].(save_buffer := None)]);
                S.Sane(u) && S.Step(w, S.Reset(co)) == u.(mems := S.Vacated(u, co))
  {
    ResetKeeps(w, h, co);
  }

  lemma FreeSafe<C, M>(w: S.World<C, M>, h: History<C>, co: C)
    requires Inv(w, h) && S.Enabled(w, S.Free(co))
    ensures co in w.cos && S.Sane(w) && co !in w.pCallStack && Inv(S.Step(w, S.Free(co)), h)
    ensures S.Step(w, S.Free(co)) ==
            w.(cos := w.cos - {co},
               mems := if w.cos[co].cIsShareStack then S.Vacated(w, co) else w.mems - {w.cos[co].stack_mem})
    ensures !w.cos[co].cIsShareStack ==> forall c :: c in w.cos && c != co ==> w.cos[c].stack_mem != w.cos[co].stack_mem
  {
    FreeKeeps(w, h, co);
  }

  function Ended<C(==), M>(w: S.World<C, M>): S.World<C, M>
    requires w.pCallStack != [] && S.Top(w) in w.cos
  {
    w.(cos := w.cos[S.Top(w) := w.cos[S.Top(w)].(cEnd := true)])
  }

  lemma EndSafe<C, M>(w: S.World<C, M>, h: History<C>, sp: nat)
    requires Inv(w, h) && S.Enabled(w, S.End(sp))
    ensures S.Top(w) in w.cos && Inv(Ended(w), h) && S.Enabled(Ended(w), S.Yield(sp))
    ensures S.Step(Ended(w), S.Yield(sp)) == S.Step(w, S.End(sp))
  {
    hide KeptOrNew, S.Swap;
    MarkKeeps(w, h);
  }

  lemma YieldSafe<C, M>(w: S.World<C, M>, h: History<C>, sp: nat)
    requires Inv(w, h) && S.Enabled(w, S.Yield(sp))
    ensures var n := |w.pCallStack|; var t := w.(pCallStack := w.pCallStack[..n - 1]);
            && 2 <= n && S.Sane(t) && w.pCallStack[n - 1] in t.cos && w.pCallStack[n - 2] in t.cos
            && !S.SwapOut(t, w.pCallStack[n - 1], w.pCallStack[n - 2], sp).fault
            && S.Step(w, S.Yield(sp)) == S.Swap(t, w.pCallStack[n - 1], w.pCallStack[n - 2], sp, false)
    ensures !S.Step(w, S.Yield(sp)).fault && Inv(S.Step(w, S.Yield(sp)), Seen(w, h, S.Yield(sp)))
  {
    hide S.Swap, S.SwapOut, S.Displace;
    YieldKeeps(w, h, sp);
    var n := |w.pCallStack|;
    var t := w.(pCallStack := w.pCallStack[..n - 1]);
    assert Base(t);
    forall c | c in t.cos && c != S.Top(w) ensures KeptOrNew(t, h, c) {
      assert KeptOrNew(w, h, c);
    }
    SwapOutFaults(t, h, w.pCallStack[n - 1], w.pCallStack[n - 2], sp);
  }

  lemma ResumeSafe<C, M>(w: S.World<C, M>, h: History<C>, co: C, sp: nat)
    requires Inv(w, h) && S.Enabled(w, S.Resume(co, sp))
    ensures co in w.cos && |w.pCallStack| < CALL_STACK_SIZE && co in Pushed(w, co).cos && S.Top(w) in Pushed(w, co).cos
    ensures S.Sane(Pushed(w, co)) && !S.SwapOut(Pushed(w, co), S.Top(w), co, sp).fault
    ensures S.Step(w, S.Resume(co, sp)) == S.Swap(Pushed(w, co), S.Top(w), co, sp, !w.cos[co].cStart)
    ensures !S.Step(w, S.Resume(co, sp)).fault && Inv(S.Step(w, S.Resume(co, sp)), Seen(w, h, S.Resume(co, sp)))
  {
    hide S.Swap, S.SwapOut, S.Displace, KeptOrNew;
    ResumeKeeps(w, h, co, sp);
    PushKeeps(w, h, co);
    SwapOutFaults(Pushed(w, co), h, S.Top(w), co, sp);
  }

  lemma SwapOutFaults<C, M>(w: S.World<C, M>, h: History<C>, curr: C, pending: C, sp: nat)
    requires Base(w) && curr in w.cos && Alive(w, pending) && curr != pending && sp < |S.Buffer(w, curr)|
             && InPlace(w, curr)
    requires forall c :: c in w.cos && c != curr && c != pending ==> KeptOrNew(w, h, c)
    ensures !S.SwapOut(w, curr, pending, sp).fault
  {
    hide KeptOrNew, S.Displace;
    ParkKeeps(w, h, curr, sp);
    DisplaceKeeps(S.Park(w, curr, sp), h[curr := S.Buffer(w, curr)[sp..]], pending);
  }
}
