/** Any run of context switches between any number of contexts: each one goes on where
    it left off, and a made one starts at its function. */
module ContextRuns {
  import opened ContextSwitch

  /** Contexts. */
  type Ctx = nat

  /** `blocks` says where the coctx_t of each context is; `left` is history: the
      registers that a context that is not running must find when it goes on. */
  datatype World = World(cpu: Cpu, blocks: map<Ctx, Word>, running: Ctx, left: map<Ctx, Regs>)

  datatype Event =
    | Compute(regs: Regs, mem: Memory)
    | Make(c: Ctx, block: Word, ss_sp: Word, ss_size: Word, pfn: Word, s: Word, s1: Word)
    | Switch(to: Ctx)

  /** [a, a + n) and [b, b + m) have nothing in common. */
  predicate Apart(a: int, n: int, b: int, m: int) {
    a + n <= b || b + m <= a
  }

  ghost predicate ClearOf(w: World, a: int, n: int) {
    forall d :: d in w.blocks ==> Apart(a, n, w.blocks[d], BLOCK)
  }

  /** The words of `d`'s block are the same in both memories. */
  ghost predicate SameBlock(w: World, m: Memory, d: Ctx)
    requires d in w.blocks
  {
    forall a :: w.blocks[d] <= a < w.blocks[d] + BLOCK ==> Load(m, a) == Load(w.cpu.mem, a)
  }

  /** What the ABI and the library's callers guarantee: a running context does not write
      to the blocks of the others, is called with the addresses of two blocks, and has
      its stack apart from all blocks; a new block and its stack buffer are apart from
      the other blocks, and the new block from the stacks in use. */
  ghost predicate Enabled(w: World, e: Event) {
    match e
    case Compute(regs, m) => forall d :: d in w.blocks && d != w.running ==> SameBlock(w, m, d)
    case Make(c, block, ss_sp, ss_size, pfn, s, s1) =>
      && c != w.running && (c in w.blocks ==> w.blocks[c] == block) && block % 8 == 0 && block + BLOCK < WORD_RANGE
      && (forall d :: d in w.blocks && d != c ==> Apart(block, BLOCK, w.blocks[d], BLOCK))
      && (forall d :: d in w.left && d != c && d != w.running ==> Apart(block, BLOCK, w.left[d].rsp - 8, 8))
      && 31 <= ss_size && ss_sp + ss_size < WORD_RANGE && ClearOf(w, ss_sp, ss_size)
         && Apart(ss_sp, ss_size, block, BLOCK)
    case Switch(to) =>
      && to != w.running && to in w.left && to in w.blocks && w.running in w.blocks
      && w.cpu.regs.rdi == w.blocks[w.running] && w.cpu.regs.rsi == w.blocks[to]
      && w.cpu.regs.rsp % 8 == 0 && w.cpu.regs.rsp + 8 < WORD_RANGE && ClearOf(w, w.cpu.regs.rsp, 8)
  }

  /** The registers after the call of coctx_swap returns, with `rax` cleared. */
  function Returned(c: Cpu): Regs
    requires c.regs.rsp + 8 < WORD_RANGE
  {
    c.regs.(rax := 0, rsp := c.regs.rsp + 8, rip := Load(c.mem, c.regs.rsp))
  }

  ghost function Step(w: World, e: Event): World
    requires Enabled(w, e)
  {
    match e
    case Compute(regs, m) => w.(cpu := Cpu(regs, m))
    case Make(c, block, ss_sp, ss_size, pfn, s, s1) =>
      var r := Made(ss_sp + ss_size, pfn, s, s1);
      w.(cpu := w.cpu.(mem := StoreAll(w.cpu.mem, block, Block(r, r.rip, r.rsp))), blocks := w.blocks[c := block],
        left := w.left[c := r])
    case Switch(to) =>
      if CanSwap(w.cpu) then w.(cpu := Swapped(w.cpu), running := to, left := w.left[w.running := Returned(w.cpu)])
        else w
  }

  // ----- the invariant

  /** `d` is not running, and its block holds what it must find. */
  ghost predicate Suspended(w: World, d: Ctx) {
    && d in w.blocks && d in w.left && d != w.running && Loaded(w.cpu.mem, w.blocks[d]) == w.left[d]
    && w.left[d].rsp % 8 == 0 && 8 <= w.left[d].rsp && ClearOf(w, w.left[d].rsp - 8, 8)
  }

  ghost predicate Inv(w: World) {
    && (forall d :: d in w.blocks ==> w.blocks[d] % 8 == 0 && w.blocks[d] + BLOCK < WORD_RANGE)
    && (forall c, d :: c in w.blocks && d in w.blocks && c != d ==> Apart(w.blocks[c], BLOCK, w.blocks[d], BLOCK))
    && (forall d :: d in w.left && d != w.running ==> Suspended(w, d))
    && w.running in w.blocks
  }

  /** Loading from a block that was not written to. */
  lemma LoadedSame(m: Memory, n: Memory, base: int)
    requires forall a :: base <= a < base + BLOCK ==> Load(m, a) == Load(n, a)
    ensures Loaded(m, base) == Loaded(n, base)
  {
    hide Load;
  }

  /** Loading a block gives back what was stored in it. */
  lemma LoadedStored(m: Memory, base: int, r: Regs)
    ensures Loaded(StoreAll(m, base, Block(r, r.rip, r.rsp)), base) == r.(rax := 0)
  {
    var b := Block(r, r.rip, r.rsp);
    hide Load, StoreAll;
    StoredAt(m, base, b, 0); StoredAt(m, base, b, 1); StoredAt(m, base, b, 2); StoredAt(m, base, b, 3);
    StoredAt(m, base, b, 4); StoredAt(m, base, b, 5); StoredAt(m, base, b, 6); StoredAt(m, base, b, 7);
    StoredAt(m, base, b, 8); StoredAt(m, base, b, 9); StoredAt(m, base, b, 10); StoredAt(m, base, b, 11);
    StoredAt(m, base, b, 12); StoredAt(m, base, b, 13);
  }

  lemma StoreKeeps(m: Memory, base: int, vals: seq<Word>, other: int)
    requires Apart(base, 8 * |vals|, other, BLOCK)
    ensures Loaded(StoreAll(m, base, vals), other) == Loaded(m, other)
  {
    forall a | other <= a < other + BLOCK ensures Load(StoreAll(m, base, vals), a) == Load(m, a) {
      StoredElsewhere(m, base, vals, a);
    }
    LoadedSame(StoreAll(m, base, vals), m, other);
  }

  lemma PushKeeps(m: Memory, slot: int, v: Word, other: int)
    requires Apart(slot, 8, other, BLOCK)
    ensures Loaded(m[slot := v], other) == Loaded(m, other)
  {
    LoadedSame(m[slot := v], m, other);
  }

  // ----- every step keeps the invariant

  lemma ComputeKeeps(w: World, regs: Regs, m: Memory)
    requires Inv(w) && Enabled(w, Compute(regs, m))
    ensures Inv(Step(w, Compute(regs, m)))
  {
    var t := Step(w, Compute(regs, m));
    forall d | d in t.left && d != t.running ensures Suspended(t, d) {
      assert Suspended(w, d) && SameBlock(w, m, d);
      LoadedSame(m, w.cpu.mem, w.blocks[d]);
    }
  }

  /** `r` is how the context of a Make event must start: at its function with its two
      arguments, with rsp + 8 a multiple of 16 (System V AMD64 ABI 3.2.2) and the stack
      inside its own buffer. */
  predicate Starts(e: Event, r: Regs)
    requires e.Make?
  {
    && r.rip == e.pfn && r.rdi == e.s && r.rsi == e.s1
    && (r.rsp + 8) % 16 == 0 && e.ss_sp <= r.rsp - 8 && r.rsp + 8 <= e.ss_sp + e.ss_size
  }

  lemma MadeFits(ss_sp: Word, ss_size: Word, pfn: Word, s: Word, s1: Word)
    requires 31 <= ss_size && ss_sp + ss_size < WORD_RANGE
    ensures var r := Made(ss_sp + ss_size, pfn, s, s1);
            && (r.rsp + 8) % 16 == 0 && r.rsp % 8 == 0 && ss_sp <= r.rsp - 8 && r.rsp + 8 <= ss_sp + ss_size
            && r.rip == pfn && r.rdi == s && r.rsi == s1 && r.rax == 0
  {
  }

  lemma MakeKeeps(w: World, e: Event)
    requires Inv(w) && Enabled(w, e) && e.Make?
    ensures Inv(Step(w, e)) && Suspended(Step(w, e), e.c)
    ensures Starts(e, Step(w, e).left[e.c])
  {
    hide Made, StoreAll, Loaded, Load;
    var t := Step(w, e);
    var r := Made(e.ss_sp + e.ss_size, e.pfn, e.s, e.s1);
    MadeFits(e.ss_sp, e.ss_size, e.pfn, e.s, e.s1);
    assert forall d :: d in t.blocks ==> Apart(r.rsp - 8, 8, t.blocks[d], BLOCK);
    forall d | d in t.left && d != t.running ensures Suspended(t, d) {
      if d == e.c {
        LoadedStored(w.cpu.mem, e.block, r);
      } else {
        MakeLeaves(w, e, d);
      }
    }
  }

  lemma MakeLeaves(w: World, e: Event, d: Ctx)
    requires Inv(w) && Enabled(w, e) && e.Make? && d in w.left && d != w.running && d != e.c
    ensures Suspended(Step(w, e), d)
  {
    hide Made, StoreAll, Loaded, Load;
    assert Suspended(w, d);
    var r := Made(e.ss_sp + e.ss_size, e.pfn, e.s, e.s1);
    StoreKeeps(w.cpu.mem, e.block, Block(r, r.rip, r.rsp), w.blocks[d]);
  }

  /** A switch from a state that keeps the invariant goes through. */
  lemma SwitchLoads(w: World, to: Ctx)
    requires Inv(w) && Enabled(w, Switch(to))
    ensures CanSwap(w.cpu) && Swapped(w.cpu).regs == w.left[to]
  {
    hide StoreAll, Load;
    assert Suspended(w, to);
    var r := w.cpu.regs;
    StoreKeeps(w.cpu.mem, r.rdi, Block(r, Load(w.cpu.mem, r.rsp), r.rsp + 8), r.rsi);
    assert Loaded(Saved(w.cpu), r.rsi) == w.left[to];
  }

  lemma SwitchKeeps(w: World, to: Ctx)
    requires Inv(w) && Enabled(w, Switch(to))
    ensures Inv(Step(w, Switch(to))) && Step(w, Switch(to)).running == to && Step(w, Switch(to)).cpu.regs == w.left[to]
  {
    hide StoreAll, Load, Loaded;
    SwitchLoads(w, to);
    var t := Step(w, Switch(to));
    var r := w.cpu.regs;
    var b := Block(r, Load(w.cpu.mem, r.rsp), r.rsp + 8);
    var slot := w.left[to].rsp - 8;
    forall d | d in t.left && d != to ensures Suspended(t, d) {
      PushKeeps(Saved(w.cpu), slot, w.left[to].rip, w.blocks[d]);
      if d == w.running {
        LoadedStored(w.cpu.mem, r.rdi, Returned(w.cpu));
        assert b == Block(Returned(w.cpu), Returned(w.cpu).rip, Returned(w.cpu).rsp);
      } else {
        assert Suspended(w, d);
        StoreKeeps(w.cpu.mem, r.rdi, b, w.blocks[d]);
      }
    }
  }

  lemma StepKeeps(w: World, e: Event)
    requires Inv(w) && Enabled(w, e)
    ensures Inv(Step(w, e))
  {
    match e
    case Compute(regs, m) => ComputeKeeps(w, regs, m);
    case Make(_, _, _, _, _, _, _) => MakeKeeps(w, e);
    case Switch(to) => SwitchKeeps(w, to);
  }

  // ----- runs

  /** `es` happens from `w` while `c` does not run and is not made anew. */
  ghost predicate Away(w: World, es: seq<Event>, c: Ctx)
    decreases |es|
  {
    c != w.running && (es != [] ==>
      Enabled(w, es[0]) && !(es[0].Make? && es[0].c == c) && Away(Step(w, es[0]), es[1..], c))
  }

  ghost function Exec(w: World, es: seq<Event>, c: Ctx): World
    requires Away(w, es, c)
    decreases |es|
  {
    if es == [] then w else Exec(Step(w, es[0]), es[1..], c)
  }

  lemma {:induction false} AwayKeeps(w: World, es: seq<Event>, c: Ctx)
    requires Inv(w) && c in w.left && Away(w, es, c)
    ensures var t := Exec(w, es, c);
            Inv(t) && c in t.left && t.left[c] == w.left[c] && c != t.running
    decreases |es|
  {
    if es != [] {
      StepKeeps(w, es[0]);
      if es[0].Switch? {
        SwitchKeeps(w, es[0].to);
        SwitchLoads(w, es[0].to);
      }
      hide Enabled, Inv, Step;
      AwayKeeps(Step(w, es[0]), es[1..], c);
    }
  }

  /** The registers that System V AMD64 ABI 3.2.1 makes a callee preserve. */
  predicate SameCalleeSaved(r: Regs, q: Regs) {
    r.rbx == q.rbx && r.rbp == q.rbp && r.r12 == q.r12 && r.r13 == q.r13 && r.r14 == q.r14 && r.r15 == q.r15
  }

  ghost predicate Runs(w: World, es: seq<Event>)
    decreases |es|
  {
    es != [] ==> Enabled(w, es[0]) && Runs(Step(w, es[0]), es[1..])
  }

  ghost function ExecAll(w: World, es: seq<Event>): World
    requires Runs(w, es)
    decreases |es|
  {
    if es == [] then w else ExecAll(Step(w, es[0]), es[1..])
  }

  /** One context with its block, and nothing left: where every thread starts. */
  function Start(cpu: Cpu, c: Ctx, block: Word): World {
    World(cpu, map[c := block], c, map[])
  }

  lemma {:induction false} RunKeeps(w: World, es: seq<Event>)
    requires Inv(w) && Runs(w, es)
    ensures Inv(ExecAll(w, es))
    decreases |es|
  {
    hide Inv, Step, Enabled;
    if es != [] {
      StepKeeps(w, es[0]);
      RunKeeps(Step(w, es[0]), es[1..]);
    }
  }

  lemma StartInv(cpu: Cpu, c: Ctx, block: Word)
    requires block % 8 == 0 && block + BLOCK < WORD_RANGE
    ensures Inv(Start(cpu, c, block))
  {
  }

  /** `w` is reached from where a thread starts. */
  ghost predicate Reached(cpu: Cpu, c: Ctx, block: Word, before: seq<Event>, w: World) {
    && block % 8 == 0 && block + BLOCK < WORD_RANGE
    && Runs(Start(cpu, c, block), before) && w == ExecAll(Start(cpu, c, block), before)
  }

  lemma ReachedInv(cpu: Cpu, c: Ctx, block: Word, before: seq<Event>, w: World)
    requires Reached(cpu, c, block, before, w)
    ensures Inv(w)
  {
    StartInv(cpu, c, block);
    RunKeeps(Start(cpu, c, block), before);
  }

  /** To the context that calls it, coctx_swap looks like any other function, whatever
      happened before and the others do until they switch back: control comes back to the return address
      on top of the stack, with that address popped and the callee-saved registers as
      they were. */
  lemma SwapReturns(
      cpu: Cpu, c: Ctx, block: Word, before: seq<Event>, w: World, out: Event, es: seq<Event>, w2: World, back: Event)
    requires Reached(cpu, c, block, before, w) && out.Switch? && Enabled(w, out)
    requires Away(Step(w, out), es, w.running) && w2 == Exec(Step(w, out), es, w.running)
    requires back == Switch(w.running) && Enabled(w2, back)
    ensures var t := Step(w2, back); var at := w.cpu.regs;
            && t.running == w.running && SameCalleeSaved(t.cpu.regs, at)
            && t.cpu.regs.rsp == at.rsp + 8 && t.cpu.regs.rip == Load(w.cpu.mem, at.rsp)
  {
    ReachedInv(cpu, c, block, before, w);
    hide Reached;
    SwitchKeeps(w, out.to);
    SwitchLoads(w, out.to);
    AwayKeeps(Step(w, out), es, w.running);
    SwitchKeeps(w2, w.running);
  }

  /** A made context, whatever happens before it is switched to, starts at its function
      with its two arguments and an aligned stack inside its own buffer. */
  lemma MadeStarts(
      cpu: Cpu, c: Ctx, block: Word, before: seq<Event>, w: World, e: Event, es: seq<Event>, w2: World)
    requires Reached(cpu, c, block, before, w) && e.Make? && Enabled(w, e)
    requires Away(Step(w, e), es, e.c) && w2 == Exec(Step(w, e), es, e.c) && Enabled(w2, Switch(e.c))
    ensures Starts(e, Step(w2, Switch(e.c)).cpu.regs)
  {
    hide Starts, Enabled, Inv, Step, Reached;
    ReachedInv(cpu, c, block, before, w);
    MakeKeeps(w, e);
    AwayKeeps(Step(w, e), es, e.c);
    SwitchKeeps(w2, e.c);
  }
}
