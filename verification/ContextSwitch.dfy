/** The x86-64 context switch: a machine with the registers that coctx_swap moves, and
    a memory of aligned 64-bit words. */
module ContextSwitch {
  const WORD_RANGE: nat := 0x1_0000_0000_0000_0000
  const BLOCK: nat := 14 * 8

  type Word = x: int | 0 <= x < WORD_RANGE
  type Memory = map<int, Word>

  datatype Regs = Regs(
    rax: Word, rbx: Word, rcx: Word, rdx: Word, rsi: Word, rdi: Word, rbp: Word, rsp: Word,
    r8: Word, r9: Word, r12: Word, r13: Word, r14: Word, r15: Word, rip: Word)

  datatype Cpu = Cpu(regs: Regs, mem: Memory)

  function Load(mem: Memory, a: int): Word {
    if a in mem then mem[a] else 0
  }

  /** `vals` stored from `base` on. */
  function StoreAll(mem: Memory, base: int, vals: seq<Word>): Memory
    decreases |vals|
  {
    if vals == [] then mem else StoreAll(mem, base + 8, vals[1..])[base := vals[0]]
  }

  lemma StoreNone(mem: Memory, base: int)
    ensures StoreAll(mem, base, []) == mem
  {
  }

  lemma {:induction false} StoredAt(mem: Memory, base: int, vals: seq<Word>, i: nat)
    requires i < |vals|
    ensures Load(StoreAll(mem, base, vals), base + 8 * i) == vals[i]
    decreases i
  {
    if i > 0 {
      StoredAt(mem, base + 8, vals[1..], i - 1);
    }
  }

  lemma {:induction false} StoredElsewhere(mem: Memory, base: int, vals: seq<Word>, a: int)
    requires a < base || base + 8 * |vals| <= a
    ensures Load(StoreAll(mem, base, vals), a) == Load(mem, a)
    decreases |vals|
  {
    if vals != [] {
      StoredElsewhere(mem, base + 8, vals[1..], a);
    }
  }

  /** The register block of a coctx_t, in the order that coctx.cc lays down. */
  function Block(r: Regs, ret: Word, rsp: Word): (b: seq<Word>)
    ensures |b| == 14
  {
    [r.r15, r.r14, r.r13, r.r12, r.r9, r.r8, r.rbp, r.rdi, r.rsi, ret, r.rdx, r.rcx, r.rbx, rsp]
  }

  class Machine {
    var rax: Word
    var rbx: Word
    var rcx: Word
    var rdx: Word
    var rsi: Word
    var rdi: Word
    var rbp: Word
    var rsp: Word
    var r8: Word
    var r9: Word
    var r12: Word
    var r13: Word
    var r14: Word
    var r15: Word
    var rip: Word
    var mem: Memory

    function Registers(): Regs
      reads this
    {
      Regs(rax, rbx, rcx, rdx, rsi, rdi, rbp, rsp, r8, r9, r12, r13, r14, r15, rip)
    }

    function Snapshot(): Cpu
      reads this
    {
      Cpu(Registers(), mem)
    }

    method Pushq(v: Word)
      requires 8 <= rsp
      modifies `rsp, `mem
      ensures rsp == old(rsp) - 8 && mem == old(mem)[rsp := v]
    {
      rsp := rsp - 8;
      mem := mem[rsp := v];
    }

    method Popq() returns (v: Word)
      requires rsp + 8 < WORD_RANGE
      modifies `rsp
      ensures rsp == old(rsp) + 8 && v == Load(mem, old(rsp))
    {
      v := Load(mem, rsp);
      rsp := rsp + 8;
    }

    /** A push of what is, with `vals` above it, a block stored over `m`. */
    method PushOnto(v: Word, ghost m: Memory, ghost vals: seq<Word>) returns (ghost all: seq<Word>)
      requires 8 <= rsp && mem == StoreAll(m, rsp, vals)
      modifies `rsp, `mem
      ensures rsp == old(rsp) - 8 && all == [v] + vals && mem == StoreAll(m, rsp, all)
    {
      Pushq(v);
      all := [v] + vals;
    }

    /** The instructions of coctx_swap, in their order.  `m` is the memory at the start. */
    method PushHigh(ghost m: Memory) returns (ghost b: seq<Word>)
      requires rsp + 8 < WORD_RANGE && mem == m && rdi + BLOCK < WORD_RANGE && (rsp + 8 <= rdi || rdi + BLOCK <= rsp)
      modifies `rax, `rsp, `mem
      ensures rsp == rdi + 72 && mem == StoreAll(m, rsp, b)
      ensures b == [Load(m, old(rsp)), rdx, rcx, rbx, old(rsp) + 8]
    {
      hide StoreAll, Load;
      StoreNone(m, rdi + BLOCK);
      rax := rsp + 8;
      rsp := rdi + BLOCK;
      b := PushOnto(rax, m, []);
      b := PushOnto(rbx, m, b);
      b := PushOnto(rcx, m, b);
      b := PushOnto(rdx, m, b);
      StoredElsewhere(m, rsp, b, rax - 8);
      b := PushOnto(Load(mem, rax - 8), m, b);
    }

    method PushMiddle(ghost m: Memory, ghost high: seq<Word>) returns (ghost b: seq<Word>)
      requires 40 <= rsp && mem == StoreAll(m, rsp, high)
      modifies `rsp, `mem
      ensures rsp == old(rsp) - 40 && mem == StoreAll(m, rsp, b)
      ensures b == [r9, r8, rbp, rdi, rsi] + high
    {
      hide StoreAll;
      b := PushOnto(rsi, m, high);
      b := PushOnto(rdi, m, b);
      b := PushOnto(rbp, m, b);
      b := PushOnto(r8, m, b);
      b := PushOnto(r9, m, b);
    }

    method PushLow(ghost m: Memory, ghost high: seq<Word>) returns (ghost b: seq<Word>)
      requires 32 <= rsp && mem == StoreAll(m, rsp, high)
      modifies `rsp, `mem
      ensures rsp == old(rsp) - 32 && mem == StoreAll(m, rsp, b)
      ensures b == [r15, r14, r13, r12] + high
    {
      hide StoreAll;
      b := PushOnto(r12, m, high);
      b := PushOnto(r13, m, b);
      b := PushOnto(r14, m, b);
      b := PushOnto(r15, m, b);
    }

    method PopLow()
      requires rsp + 48 < WORD_RANGE
      modifies `rsp, `r15, `r14, `r13, `r12, `r9, `r8
      ensures rsp == old(rsp) + 48
      ensures r15 == Load(mem, old(rsp)) && r14 == Load(mem, old(rsp) + 8) && r13 == Load(mem, old(rsp) + 16)
      ensures r12 == Load(mem, old(rsp) + 24) && r9 == Load(mem, old(rsp) + 32) && r8 == Load(mem, old(rsp) + 40)
    {
      hide Load;
      r15 := Popq();
      r14 := Popq();
      r13 := Popq();
      r12 := Popq();
      r9 := Popq();
      r8 := Popq();
    }

    method PopMiddle()
      requires rsp + 32 < WORD_RANGE
      modifies `rsp, `rbp, `rdi, `rsi, `rax
      ensures rsp == old(rsp) + 32
      ensures rbp == Load(mem, old(rsp)) && rdi == Load(mem, old(rsp) + 8)
      ensures rsi == Load(mem, old(rsp) + 16) && rax == Load(mem, old(rsp) + 24)
    {
      hide Load;
      rbp := Popq();
      rdi := Popq();
      rsi := Popq();
      rax := Popq();
    }

    /** The last pop replaces the stack pointer; then the return address goes back onto
        the stack for `ret` to take. */
    method PopHigh()
      requires rsp + 24 < WORD_RANGE && 8 <= Load(mem, rsp + 24)
      modifies `rsp, `rdx, `rcx, `rbx, `rax, `rip, `mem
      ensures rdx == Load(old(mem), old(rsp)) && rcx == Load(old(mem), old(rsp) + 8)
              && rbx == Load(old(mem), old(rsp) + 16)
      ensures rsp == Load(old(mem), old(rsp) + 24) && rip == old(rax) && rax == 0
      ensures mem == old(mem)[rsp - 8 := old(rax)]
    {
      rdx := Popq();
      rcx := Popq();
      rbx := Popq();
      rsp := Load(mem, rsp);
      Pushq(rax);
      rax := 0;
      rip := Popq();
    }

    method SaveRegisters()
      requires CanSwap(Snapshot())
      modifies `rax, `rsp, `mem
      ensures mem == Saved(old(Snapshot()))
    {
      hide Load, StoreAll;
      ghost var m := mem;
      ghost var r := Registers();
      ghost var high := PushHigh(m);
      ghost var b := PushMiddle(m, high);
      b := PushLow(m, b);
      assert b == Block(r, Load(m, r.rsp), r.rsp + 8);
    }

    method LoadRegisters()
      requires rsi + BLOCK < WORD_RANGE && 8 <= Load(mem, rsi + 104)
      modifies this
      ensures Registers() == Loaded(old(mem), old(rsi)) && mem == old(mem)[rsp - 8 := rip]
    {
      hide Load;
      rsp := rsi;
      PopLow();
      PopMiddle();
      PopHigh();
    }

    /** coctx_swap: the registers go into the block at rdi, with the return address and
        the stack pointer of the caller, and come out of the block at rsi; control goes
        to the return address found there. */
    method CoctxSwap()
      requires CanSwap(Snapshot())
      modifies this
      ensures Snapshot() == Swapped(old(Snapshot()))
    {
      hide Load, StoreAll;
      SaveRegisters();
      LoadRegisters();
    }
  }

  const K_RDI: nat := 7
  const K_RSI: nat := 8
  const K_RET_ADDR: nat := 9
  const K_RSP: nat := 13

  /** `x & -16`. */
  function RoundDown16(x: Word): (r: Word)
    ensures r % 16 == 0 && r <= x < r + 16
  {
    x - x % 16
  }

  /** The registers with which a made context starts. */
  function Made(top: Word, pfn: Word, s: Word, s1: Word): Regs
    requires 16 <= top
  {
    Regs(0, 0, 0, 0, s1, s, 0, RoundDown16(top) - 8, 0, 0, 0, 0, 0, 0, pfn)
  }

  /** coctx_t. */
  class Coctx {
    const regs: array<Word>
    var ss_size: Word
    var ss_sp: Word

    constructor (ss_sp: Word, ss_size: Word)
      ensures regs.Length == 14 && this.ss_sp == ss_sp && this.ss_size == ss_size && fresh(regs)
    {
      regs := new Word[14](_ => 0);
      this.ss_sp, this.ss_size := ss_sp, ss_size;
    }

    method ClearRegs()
      modifies regs
      ensures forall i :: 0 <= i < regs.Length ==> regs[i] == 0
    {
      for i := 0 to regs.Length
        invariant forall j :: 0 <= j < i ==> regs[j] == 0
      {
        regs[i] := 0;
      }
    }

    method CoctxInit()
      modifies this, regs
      ensures ss_size == 0 && ss_sp == 0 && forall i :: 0 <= i < regs.Length ==> regs[i] == 0
    {
      ss_size, ss_sp := 0, 0;
      ClearRegs();
    }

    /** coctx_make: the block that makes coctx_swap start `pfn` with two arguments. */
    method CoctxMake(pfn: Word, s: Word, s1: Word)
      requires regs.Length == 14 && 16 <= ss_sp + ss_size < WORD_RANGE
      modifies regs
      ensures var r := Made(ss_sp + ss_size, pfn, s, s1);
              regs[..] == Block(r, r.rip, r.rsp)
    {
      var sp := ss_sp + ss_size;
      sp := RoundDown16(sp);
      ClearRegs();
      regs[K_RET_ADDR] := pfn;
      regs[K_RSP] := sp - 8;
      regs[K_RDI] := s;
      regs[K_RSI] := s1;
    }
  }

  /** The registers that a block holds. */
  function Loaded(mem: Memory, base: int): Regs {
    Regs(0, Load(mem, base + 96), Load(mem, base + 88), Load(mem, base + 80), Load(mem, base + 64),
      Load(mem, base + 56),
         Load(mem, base + 48), Load(mem, base + 104), Load(mem, base + 40), Load(mem, base + 32), Load(mem, base + 24),
         Load(mem, base + 16), Load(mem, base + 8), Load(mem, base), Load(mem, base + 72))
  }

  /** The state after the registers are saved. */
  function Saved(c: Cpu): Memory
    requires c.regs.rsp + 8 < WORD_RANGE
  {
    StoreAll(c.mem, c.regs.rdi, Block(c.regs, Load(c.mem, c.regs.rsp), c.regs.rsp + 8))
  }

  /** The blocks and the stacks are aligned and lie in memory, the caller's stack does not run into its own, and the
      stack pointer to load leaves room for the return address. */
  predicate CanSwap(c: Cpu) {
    && c.regs.rdi % 8 == 0 && c.regs.rsi % 8 == 0 && c.regs.rsp % 8 == 0
    && c.regs.rdi + BLOCK < WORD_RANGE && c.regs.rsi + BLOCK < WORD_RANGE && c.regs.rsp + 8 < WORD_RANGE
    && (c.regs.rsp + 8 <= c.regs.rdi || c.regs.rdi + BLOCK <= c.regs.rsp)
    && 8 <= Load(Saved(c), c.regs.rsi + 104) && Load(Saved(c), c.regs.rsi + 104) % 8 == 0
  }

  /** What coctx_swap does to registers and memory. */
  function Swapped(c: Cpu): Cpu
    requires CanSwap(c)
  {
    var m := Saved(c);
    var r := Loaded(m, c.regs.rsi);
    Cpu(r, m[r.rsp - 8 := r.rip])
  }
}
