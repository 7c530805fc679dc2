/** A concrete run in which coroutines 1 and 2 share stack 1, of 4096 bytes, and 1 loses
    the frame it stored there. */
module SharedStackLoss {
  import opened SharedStack
  import opened SharedStackInv
  import opened SharedStackRuns
  import opened Wrappers

  const STACK_SIZE: nat := 4096

  /** stack_sp of 1 and 2 when they yield. */
  const SP: nat := 4000

  /** A stack full of `x`, and the frame on top of it. */
  function Full(x: Byte): (b: seq<Byte>)
    ensures |b| == STACK_SIZE
  {
    seq(STACK_SIZE, _ => x)
  }

  function Frame(x: Byte): seq<Byte> {
    Full(x)[SP..]
  }

  function Sharing(one: Routine<nat>, two: Routine<nat>, m: StackMem<nat>, calls: seq<nat>, pending: Option<nat>,
      occupy: Option<nat>): World<nat, nat> {
    World(0, map[0 := Routine(0, false, false, false, 0, None), 1 := one, 2 := two],
      map[0 := StackMem(None, Full(0)), 1 := m],
          calls, pending, occupy, false)
  }

  function Sharer(started: bool, sp: nat, save: Option<seq<Byte>>): Routine<nat> {
    Routine(1, true, started, false, sp, save)
  }

  function Created(): World<nat, nat> {
    Sharing(Sharer(false, 0, None), Sharer(false, 0, None), StackMem(None, Full(0)), [0], None, None)
  }

  function Started(): World<nat, nat> {
    Sharing(Sharer(true, 0, None), Sharer(false, 0, None), StackMem(Some(1), Full(0)), [0, 1], Some(1), None)
  }

  /** 1 has stored its 7s and yielded. */
  function Stored7(): World<nat, nat> {
    Sharing(Sharer(true, SP, None), Sharer(false, 0, None), StackMem(Some(1), Full(7)), [0], None, None)
  }

  /** 2 runs and has displaced 1. */
  function Displaced(): World<nat, nat> {
    Sharing(Sharer(true, SP, Some(Frame(7))), Sharer(true, 0, None), StackMem(Some(2), Full(7)),
            [0, 2], Some(2), Some(1))
  }

  function Stored9(): World<nat, nat> {
    Sharing(Sharer(true, SP, Some(Frame(7))), Sharer(true, SP, None), StackMem(Some(2), Full(9)), [0], None, None)
  }

  function Lost(): World<nat, nat> {
    Sharing(Sharer(true, SP, Some(Frame(7))), Sharer(false, SP, None), StackMem(Some(1), Full(9)),
            [0, 1], Some(1), None)
  }

  lemma Creates()
    ensures Reaches(Init(0, 0, Full(0)), [AllocStackMem(1, Full(0)), CreateShared(1, 1)] + [CreateShared(2, 1)],
            Created())
  {
    var w := Init(0, 0, Full(0));
    ReachesTwo(w, AllocStackMem(1, Full(0)), CreateShared(1, 1));
    var t := Step(Step(w, AllocStackMem(1, Full(0))), CreateShared(1, 1));
    RunOne(t, CreateShared(2, 1));
    ReachesAppend(w, [AllocStackMem(1, Full(0)), CreateShared(1, 1)], t, [CreateShared(2, 1)], Created());
  }

  lemma Starts()
    ensures Reaches(Created(), [Resume(1, 0)], Started())
  {
    RunOne(Created(), Resume(1, 0));
  }

  lemma Stores7()
    ensures Reaches(Started(), [Write(Full(7)), Yield(SP)], Stored7())
  {
    ReachesTwo(Started(), Write(Full(7)), Yield(SP));
  }

  lemma Displaces()
    ensures Reaches(Stored7(), [Resume(2, 0)], Displaced())
  {
    RunOne(Stored7(), Resume(2, 0));
  }

  lemma Stores9()
    ensures Reaches(Displaced(), [Write(Full(9)), Yield(SP)], Stored9())
  {
    ReachesTwo(Displaced(), Write(Full(9)), Yield(SP));
  }

  lemma Loses()
    ensures Reaches(Stored9(), [Reset(2), Resume(1, 0)], Lost())
  {
    ReachesTwo(Stored9(), Reset(2), Resume(1, 0));
  }

  function LosingRun(): seq<Event<nat, nat>> {
    [AllocStackMem(1, Full(0)), CreateShared(1, 1)] + [CreateShared(2, 1)] + [Resume(1, 0)]
      + [Write(Full(7)), Yield(SP)]
    + [Resume(2, 0)] + [Write(Full(9)), Yield(SP)] + [Reset(2), Resume(1, 0)]
  }

  lemma RunLoses()
    ensures Reaches(Init(0, 0, Full(0)), LosingRun(), Lost())
  {
    hide Reaches, Step, Enabled, Full;
    var w := Init(0, 0, Full(0));
    var e1 := [AllocStackMem(1, Full(0)), CreateShared(1, 1)] + [CreateShared(2, 1)];
    Creates();
    Starts();
    ReachesAppend(w, e1, Created(), [Resume(1, 0)], Started());
    Stores7();
    var e2 := e1 + [Resume(1, 0)];
    ReachesAppend(w, e2, Started(), [Write(Full(7)), Yield(SP)], Stored7());
    Displaces();
    var e3 := e2 + [Write(Full(7)), Yield(SP)];
    ReachesAppend(w, e3, Stored7(), [Resume(2, 0)], Displaced());
    Stores9();
    var e4 := e3 + [Resume(2, 0)];
    ReachesAppend(w, e4, Displaced(), [Write(Full(9)), Yield(SP)], Stored9());
    Loses();
    ReachesAppend(w, e4 + [Write(Full(9)), Yield(SP)], Stored9(), [Reset(2), Resume(1, 0)], Lost());
    assert e4 + [Write(Full(9)), Yield(SP)] + [Reset(2), Resume(1, 0)] == LosingRun();
  }

  lemma LostFrame()
    ensures Shows(Lost(), 1, Frame(9)) && Frame(7) != Frame(9)
  {
    assert Frame(7)[0] == 7 && Frame(9)[0] == 9;
  }

  /** 1 stores a frame of 7s, 2 displaces it and stores 9s, then 2 is reset and 1
      resumed: on its stack 1 finds the 9s. */
  lemma LostStack()
    ensures Frame(7) != Frame(9)
    ensures Runs(Init(0, 0, Full(0)), LosingRun()) && Shows(Exec(Init(0, 0, Full(0)), LosingRun()), 1, Frame(9))
  {
    hide Reaches, Step, Enabled, LosingRun, Lost, Shows;
    RunLoses();
    LostFrame();
    ReachesMeans(Init(0, 0, Full(0)), LosingRun(), Lost());
  }
}
