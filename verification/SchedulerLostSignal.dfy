/** A concrete run in which a signal is lost.  The wheel spans 60 s, as
    AllocEpoll makes it; coroutine 1 waits on condition 0 for 70 s, which does not fit,
    and coroutine 2 polls for 1 ms.  The next pass takes both timers; 2 runs first and
    signals 1, but the loop puts 1 back on the wheel instead of resuming it. */
module SchedulerLostSignal {
  import opened TimerLog
  import opened EpollLists
  import opened Scheduler

  ghost predicate Reaches(s: State, es: seq<Event>, t: State) {
    Runs(s, es) && Exec(s, es) == t
  }

  lemma One(s: State, e: Event)
    requires Enabled(s, e)
    ensures Reaches(s, [e], Step(s, e))
  {
    assert [e][1..] == [];
  }

  lemma {:induction false} Append(s: State, es: seq<Event>, t: State, fs: seq<Event>, u: State)
    requires Reaches(s, es, t) && Reaches(t, fs, u)
    ensures Reaches(s, es + fs, u)
    decreases |es|
  {
    hide Step, Enabled;
    if es == [] {
      assert es + fs == fs;
    } else {
      Append(Step(s, es[0]), es[1..], t, fs, u);
      assert (es + fs)[1..] == es[1..] + fs;
    }
  }

  function PollOf2(late: bool): Wait {
    Wait(2, PollWait([], [], 0, false, true), true, 2, late, NotSignalled, 1, 1, 0)
  }

  function WaitOf1(late: bool, signal: SignalState): Wait {
    Wait(1, CondWait(UserCond(0)), true, 70001, late, signal, 1, 1, 0)
  }

  function Begun(): State {
    Init(60000, 1, {}).(started := {2}, pCallStack := [0, 2])
  }

  function Polling(): State {
    Init(60000, 1, {}).(started := {2}, blocked := map[2 := 0], waits := map[0 := PollOf2(false)], nextRid := 1,
                    lists := Lists(Timers(60000, 1, [Entry(0, 2)]), []))
  }

  function Waiting(): State {
    Polling().(started := {2, 1}, blocked := map[2 := 0, 1 := 1], nextRid := 2, conds := map[UserCond(0) := [1]],
               waits := map[0 := PollOf2(false), 1 := WaitOf1(false, NotSignalled)],
               lists := Lists(Timers(60000, 1, [Entry(0, 2), Entry(1, 60000)]), []))
  }

  function Taken(): State {
    Waiting().(waits := map[0 := PollOf2(true), 1 := WaitOf1(true, NotSignalled)],
      lists := Lists(Timers(60000, 60000, []), [0, 1]),
               phase := Draining(60000, 2), pass := 1, clock := 60000)
  }

  function Running2(): State {
    Taken().(pCallStack := [0, 2], blocked := map[1 := 1], waits := map[1 := WaitOf1(true, NotSignalled)],
             lists := Lists(Timers(60000, 60000, []), [1]), log := [Resumption(0, PollOf2(true), true, 60000, 1)])
  }

  function Signalled1(): State {
    Running2().(pCallStack := [0], waits := map[1 := WaitOf1(true, Signalled(true, 1))],
      conds := map[UserCond(0) := []])
  }

  function PutBack1(): State {
    Signalled1().(waits := map[1 := WaitOf1(false, Signalled(true, 1)).(lastStart := 60000, refiles := 1)],
                  lists := Lists(Timers(60000, 60000, [Entry(1, 70001)]), []), phase := Body)
  }

  lemma Begins()
    ensures Reaches(Init(60000, 1, {}), [Resume(2)], Begun())
  {
    One(Init(60000, 1, {}), Resume(2));
  }

  lemma Polls()
    ensures Reaches(Begun(), [Poll([], 1, 1, {})], Polling())
  {
    var s := Begun();
    assert FdSet([]) == {};
    One(s, Poll([], 1, 1, {}));
    assert Step(s, Poll([], 1, 1, {})) == Polling();
  }

  lemma Two(s: State, e: Event, f: Event)
    requires Enabled(s, e) && Enabled(Step(s, e), f)
    ensures Reaches(s, [e] + [f], Step(Step(s, e), f))
  {
    hide Step, Enabled;
    One(s, e);
    One(Step(s, e), f);
    Append(s, [e], Step(s, e), [f], Step(Step(s, e), f));
  }

  lemma Waits()
    ensures Reaches(Polling(), [Resume(1)] + [TimedWait(0, 70000, 1)], Waiting())
  {
    var s := Polling();
    assert Step(s, Resume(1)) == s.(started := {2, 1}, pCallStack := [0, 1]);
    Two(s, Resume(1), TimedWait(0, 70000, 1));
    assert Queue(s, UserCond(0)) == [] && [] + [1] == [1];
    assert Step(Step(s, Resume(1)), TimedWait(0, 70000, 1)) == Waiting();
  }

  lemma BothDue(due: seq<Entry<Rid>>)
    requires due == [Entry(0, 2), Entry(1, 60000)]
    ensures DueAfter(due, 60000) == [] && Names(SortByDue(DueBy(due, 60000))) == [0, 1]
  {
    var second := [due[1]];
    assert due[1..] == second && second[1..] == [];
    assert DueBy(second, 60000) == second && DueAfter(second, 60000) == [] && Names(second) == [1]
      && SortByDue(second) == second;
    assert DueBy(due, 60000) == due && SortByDue(due) == due;
  }

  lemma Takes()
    ensures Reaches(Waiting(), [BeginPass] + [TakeTimeouts(60000)], Taken())
  {
    hide DueBy, DueAfter, Names, SortByDue;
    var s := Waiting();
    var due := s.lists.timers.log;
    BothDue(due);
    var u := s.(phase := Preparing({}), pass := 1);
    var taken := Expired(s.lists.timers, 60000);
    assert [] + taken == taken;
    TakesBoth(u, taken);
    assert Step(s, BeginPass) == u;
    Two(s, BeginPass, TakeTimeouts(60000));
  }

  lemma TakesBoth(u: State, taken: seq<Rid>)
    requires u == Waiting().(phase := Preparing({}), pass := 1) && taken == [0, 1]
    requires Collect(u.lists, 60000) == (Lists(Timers(60000, 60000, []), taken), taken)
    ensures TakeAt(u, 60000) == Taken()
  {
    hide Collect;
    assert MarkAll(u.waits, taken) == Taken().waits;
  }

  lemma Resumes2(u: State)
    requires u == Taken().(lists := Lists(Timers(60000, 60000, []), [1]))
    ensures ResumeCo(u, 2, true) == Running2()
  {
    assert Deregister(map[], []) == map[];
    assert u.waits - {0} == map[1 := WaitOf1(true, NotSignalled)] && u.blocked - {2} == map[1 := 1];
    assert Detach(u.lists, 0) == u.lists;
  }

  lemma Runs2()
    ensures Reaches(Taken(), [Drain], Running2())
  {
    hide ResumeCo;
    var s := Taken();
    assert Pop(s.lists) == Lists(Timers(60000, 60000, []), [1]);
    Resumes2(s.(lists := Pop(s.lists)));
    One(s, Drain);
  }

  lemma Signals1()
    ensures Reaches(Running2(), [Signal(0)] + [Yield], Signalled1())
  {
    var s := Running2();
    Two(s, Signal(0), Yield);
    assert Step(Step(s, Signal(0)), Yield) == Signalled1();
  }

  lemma PutsBack()
    ensures Reaches(Signalled1(), [Drain] + [EndPass], PutBack1())
  {
    var s := Signalled1();
    Two(s, Drain, EndPass);
    assert Step(Step(s, Drain), EndPass) == PutBack1();
  }

  function LosingRun(): seq<Event> {
    [Resume(2)] + [Poll([], 1, 1, {})] + ([Resume(1)] + [TimedWait(0, 70000, 1)])
      + ([BeginPass] + [TakeTimeouts(60000)])
    + [Drain] + ([Signal(0)] + [Yield]) + ([Drain] + [EndPass])
  }

  lemma Reached(s: State, es: seq<Event>, t: State)
    requires Reaches(s, es, t)
    ensures Runs(s, es) && Exec(s, es) == t
  {
  }

  /** When the pass is over the signalled waiter is on no queue and not on the active
      list, and only its own timer will wake it. */
  lemma LostSignal()
    ensures Runs(Init(60000, 1, {}), LosingRun())
    ensures var t := Exec(Init(60000, 1, {}), LosingRun());
            && 1 in t.waits && t.waits[1].signal == Signalled(true, 1) && Queue(t, UserCond(0)) == []
            && t.lists == Lists(Timers(60000, 60000, [Entry(1, 70001)]), []) && t.phase == Body
  {
    hide Reaches;
    var s := Init(60000, 1, {});
    Begins();
    Polls();
    Append(s, [Resume(2)], Begun(), [Poll([], 1, 1, {})], Polling());
    Waits();
    var e1 := [Resume(2)] + [Poll([], 1, 1, {})];
    Append(s, e1, Polling(), [Resume(1)] + [TimedWait(0, 70000, 1)], Waiting());
    Takes();
    var e2 := e1 + ([Resume(1)] + [TimedWait(0, 70000, 1)]);
    Append(s, e2, Waiting(), [BeginPass] + [TakeTimeouts(60000)], Taken());
    Runs2();
    var e3 := e2 + ([BeginPass] + [TakeTimeouts(60000)]);
    Append(s, e3, Taken(), [Drain], Running2());
    Signals1();
    var e4 := e3 + [Drain];
    Append(s, e4, Running2(), [Signal(0)] + [Yield], Signalled1());
    PutsBack();
    var e5 := e4 + ([Signal(0)] + [Yield]);
    Append(s, e5, Signalled1(), [Drain] + [EndPass], PutBack1());
    assert e5 + ([Drain] + [EndPass]) == LosingRun();
    Reached(s, LosingRun(), PutBack1());
  }
}
