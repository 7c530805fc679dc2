/** What holds in every reachable state of scheduler and stacks together. */
module RuntimeInv {
  import opened CallStack
  import opened Runtime
  import opened SchedulerShape
  import opened Wrappers
  import K = SharedStack
  import KI = SharedStackInv
  import KR = SharedStackRuns
  import S = Scheduler
  import SI = SchedulerInv

  type History = KI.History<S.Co>

  /** The bytes `bytes` are part of what `co` left on its stack, at address `at`. */
  predicate LeftAt(w: World, h: History, co: S.Co, at: nat, bytes: seq<Byte>) {
    && co in w.cos && co in h && w.cos[co].stack_sp <= at && at - w.cos[co].stack_sp + |bytes| <= |h[co]|
    && h[co][at - w.cos[co].stack_sp..][..|bytes|] == bytes
  }

  predicate RoomAt(w: World, h: History, co: S.Co, at: nat, n: nat) {
    co in w.cos && co in h && w.cos[co].stack_sp <= at && at - w.cos[co].stack_sp + n <= |h[co]|
  }

  /** Where the objects of a live wait of `co` are, and that its poll items are as they
      were filled. */
  predicate ObjectsOk(w: World, h: History, v: S.Wait, o: Objects) {
    && o.record.Heap? && o.copies.Heap? && v.co in w.cos
    && match v.kind
       case CondWait(_) => o.items.Heap? && o.results.Heap?
       case PollWait(fds, revents, _, _, onStack) =>
         && (onStack <==> o.items.OnStack?)
         && (onStack ==> o.items.co == v.co && !w.cos[v.co].cIsShareStack && LeftAt(w, h, v.co, o.items.at, o.image))
         && if o.results.Heap? then |o.content| == POLLFD_SIZE * |fds|
            else o.results.co == v.co && RoomAt(w, h, v.co, o.results.at, POLLFD_SIZE * |fds|)
  }

  /** Scheduler and stacks agree on who is who. */
  predicate Agree(s: S.State, w: World) {
    && K.Sane(w) && s.pCallStack == w.pCallStack && w.main == S.MAIN && s.ended <= w.cos.Keys
    && (forall co :: co in w.cos ==>
        (co in s.shared <==> w.cos[co].cIsShareStack) && (co in s.ended <==> w.cos[co].cEnd))
    && (forall co :: co in s.blocked ==> KI.Alive(w, co))
  }

  ghost predicate WaitsOk(m: Machine, h: History) {
    forall r :: r in m.s.waits ==> r in m.objects && ObjectsOk(m.w, h, m.s.waits[r], m.objects[r])
  }

  ghost predicate Inv(m: Machine, h: History) {
    SI.Inv(m.s) && KI.Inv(m.w, h) && Agree(m.s, m.w) && WaitsOk(m, h)
  }

  lemma InitInv(size: nat, now: nat, shared: set<S.Co>, b: seq<Byte>)
    requires 1 <= size && S.MAIN !in shared
    ensures Inv(Init(size, now, shared, b), map[])
  {
    SI.InitInv(size, now, shared);
    KI.InitInv(S.MAIN, 0, b);
  }

  // ----- the library writes to no stack behind a coroutine's back

  lemma {:induction false} ScribblesOnHeap(w: World, ss: seq<Scribble>)
    requires forall i :: 0 <= i < |ss| ==> ss[i].place.Heap?
    ensures Scribbled(w, ss) == w
    decreases |ss|
  {
    if ss != [] && K.Sane(w) {
      assert ss[0].place.Heap?;
      ScribblesOnHeap(w, ss[1..]);
    }
  }

  lemma LibraryOnHeap(m: Machine, h: History)
    requires WaitsOk(m, h)
    ensures forall p :: p in LibraryPlaces(m) ==> p.Heap?
  {
  }

  /** A coroutine that is neither running nor switched in nor taken down leaves, on its
      stack, what it left. */
  predicate SameLeft(w: World, h: History, t: World, g: History, co: S.Co) {
    && co in w.cos && co in t.cos && t.cos[co].stack_sp == w.cos[co].stack_sp
    && t.cos[co].cIsShareStack == w.cos[co].cIsShareStack
    && co in h && co in g && g[co] == h[co] && (KI.Alive(w, co) ==> KI.Alive(t, co))
  }

  lemma ObjectsStay(w: World, h: History, t: World, g: History, v: S.Wait, u: S.Wait, o: Objects)
    requires ObjectsOk(w, h, v, o) && SameLeft(w, h, t, g, v.co) && SameShape(v, u)
    ensures ObjectsOk(t, g, u, o)
  {
  }

  /** One step of the stacks, as seen by a coroutine that it does not concern. */
  lemma StackLeaves(w: World, h: History, k: K.Event<S.Co, nat>, co: S.Co)
    requires KI.Inv(w, h) && K.Enabled(w, k) && KI.Alive(w, co) && co !in w.pCallStack
    requires k != K.Reset(co) && k != K.Free(co) && !(k.Resume? && k.co == co)
    ensures SameLeft(w, h, K.Step(w, k), KI.Seen(w, h, k), co)
  {
    assert KI.KeptOrNew(w, h, co);
    TopOnStack(w);
    hide KI.Inv, K.Step;
    KR.StepLeaves(w, k, co);
  }

  lemma TopOnStack(w: World)
    requires w.pCallStack != []
    ensures K.Top(w) in w.pCallStack
  {
  }

  // ----- what the scheduler's steps are for the stacks

  /** Only bytes of the running coroutine's own stack have changed. */
  predicate SameButBytes(w: World, t: World) {
    && K.Sane(w) && K.Sane(t) && t == w.(mems := t.mems) && t.mems.Keys == w.mems.Keys
    && forall c :: c in w.cos ==>
         && |K.Buffer(t, c)| == |K.Buffer(w, c)|
         && (w.cos[c].stack_mem != w.cos[K.Top(w)].stack_mem ==> K.Buffer(t, c) == K.Buffer(w, c))
  }

  lemma WritesOwn(w: World, h: History, b: seq<Byte>)
    requires KI.Inv(w, h) && |b| == |K.Buffer(w, K.Top(w))|
    ensures var t := KR.WithBuffer(w, K.Top(w), b);
            KI.Inv(t, h) && SameButBytes(w, t) && K.Buffer(t, K.Top(w)) == b
  {
    KI.WriteKeeps(w, h, b);
  }

  /** What a step writes before it switches goes to the running coroutine's stack. */
  lemma FilledOwn(m: Machine, h: History, e: S.Event, d: Detail)
    requires Inv(m, h) && Enabled(m, Sched(e, d))
    ensures var w := Filled(m, e, d); var top := K.Top(m.w);
            && KI.Inv(w, h) && SameButBytes(m.w, w)
            && (!ItemsOnStack(m, e) ==> w == m.w)
            && (ItemsOnStack(m, e) ==>
                  && d.sp <= d.itemsAt && d.itemsAt + |d.image| <= |K.Buffer(w, top)|
                  && K.Buffer(w, top)[d.itemsAt..d.itemsAt + |d.image|] == d.image)
  {
    LibraryOnHeap(m, h);
    ScribblesOnHeap(m.w, d.scribbles);
    hide KI.Inv, SI.Inv, S.Enabled;
    if ItemsOnStack(m, e) {
      WritesOwn(m.w, h, K.Copied(K.Buffer(m.w, K.Top(m.w)), d.itemsAt, d.image));
    } else {
      SameAsItself(m.w);
    }
  }

  lemma SameAsItself(w: World)
    requires K.Sane(w)
    ensures SameButBytes(w, w)
  {
  }

  /** The event of the stacks that goes with a push or a pop. */
  function Switch(m: Machine, e: S.Event, d: Detail): K.Event<S.Co, nat>
    requires S.Enabled(m.s, e)
  {
    var t := S.Step(m.s, e);
    if Pushes(m.s, t) then K.Resume(S.Top(t), d.sp) else if e.End? then K.End(d.sp) else K.Yield(d.sp)
  }

  /** Whoever a step switches in can be switched in. */
  lemma CanPush(m: Machine, e: S.Event)
    requires Agree(m.s, m.w) && S.Enabled(m.s, e) && Shape(m.s, e, S.Step(m.s, e)) && (e.Resume? ==> e.co in m.w.cos)
    requires Pushes(m.s, S.Step(m.s, e))
    ensures var co := S.Top(S.Step(m.s, e)); K.Idle(m.w, co) && !m.w.cos[co].cEnd && |m.w.pCallStack| < CALL_STACK_SIZE
  {
    hide S.Step, S.Enabled;
  }

  lemma StillOnStack(w: World, t: World, sp: nat)
    requires SameButBytes(w, t) && K.OnStack(w, sp)
    ensures K.OnStack(t, sp)
  {
  }

  lemma CanPop(m: Machine, e: S.Event)
    requires Agree(m.s, m.w) && S.Enabled(m.s, e) && Shape(m.s, e, S.Step(m.s, e)) && Pops(m.s, S.Step(m.s, e))
    ensures 2 <= |m.w.pCallStack|
  {
    hide S.Step, S.Enabled;
  }

  /** A push or a pop of the call stack is a step of the stacks. */
  lemma SwitchedIsStep(m: Machine, h: History, e: S.Event, d: Detail)
    requires Inv(m, h) && Enabled(m, Sched(e, d)) && Shape(m.s, e, S.Step(m.s, e))
    ensures var t := S.Step(m.s, e); var w := Filled(m, e, d);
            && (!Pushes(m.s, t) && !Pops(m.s, t) ==> Switched(m, e, d) == w)
            && (Pushes(m.s, t) || Pops(m.s, t) ==>
                K.Enabled(w, Switch(m, e, d)) && Switched(m, e, d) == K.Step(w, Switch(m, e, d)))
  {
    hide KI.Inv, SI.Inv, Filled, Shape, S.Step, S.Enabled, K.ResumeCo, K.YieldCo, WaitsOk, LibraryPlaces;
    var t := S.Step(m.s, e);
    FilledOwn(m, h, e, d);
    StillOnStack(m.w, Filled(m, e, d), d.sp);
    if Pushes(m.s, t) {
      CanPush(m, e);
    } else if Pops(m.s, t) {
      CanPop(m, e);
    }
  }

  // ----- every step keeps the invariant

  /** What each coroutine left on its stack, after a step. */
  function Seen(m: Machine, h: History, ev: Event): History
    requires Enabled(m, ev)
  {
    match ev
    case Stack(_) => h
    case Sched(e, d) =>
      var t := S.Step(m.s, e);
      if Pushes(m.s, t) || Pops(m.s, t) then h[K.Top(m.w) := KR.Left(Filled(m, e, d), d.sp)] else h
  }

  lemma SeenIsSeen(w: World, h: History, k: K.Event<S.Co, nat>, sp: nat)
    requires K.Enabled(w, k) && (k == K.Yield(sp) || k == K.End(sp) || (k.Resume? && k.sp == sp))
    ensures KI.Seen(w, h, k) == h[K.Top(w) := KR.Left(w, sp)]
  {
  }

  lemma BlockedIsAway(m: Machine, h: History, co: S.Co)
    requires Inv(m, h) && co in m.s.blocked
    ensures co !in m.w.pCallStack && KI.Alive(m.w, co) && co != K.Top(m.w) && co in h && co != S.MAIN
  {
    TopOnStack(m.w);
    assert KI.KeptOrNew(m.w, h, co);
  }

  lemma FilledLeaves(m: Machine, h: History, e: S.Event, d: Detail, co: S.Co)
    requires Inv(m, h) && Enabled(m, Sched(e, d)) && co in m.s.blocked
    ensures SameLeft(m.w, h, Filled(m, e, d), h, co)
  {
    hide KI.Inv, SI.Inv, WaitsOk, Filled, S.Enabled;
    FilledOwn(m, h, e, d);
    BlockedIsAway(m, h, co);
  }

  /** A blocked coroutine that a step does not switch in has left what it left before. */
  lemma SwitchLeaves(m: Machine, h: History, e: S.Event, d: Detail, co: S.Co)
    requires Inv(m, h) && Enabled(m, Sched(e, d)) && Shape(m.s, e, S.Step(m.s, e)) && co in m.s.blocked
    requires Pushes(m.s, S.Step(m.s, e)) ==> co != S.Top(S.Step(m.s, e))
    ensures SameLeft(m.w, h, Switched(m, e, d), Seen(m, h, Sched(e, d)), co)
  {
    hide KI.Inv, SI.Inv, WaitsOk, Filled, Shape, S.Step, S.Enabled, Switched, K.Step, K.Enabled;
    var t := S.Step(m.s, e);
    FilledOwn(m, h, e, d);
    BlockedIsAway(m, h, co);
    FilledLeaves(m, h, e, d, co);
    SwitchedIsStep(m, h, e, d);
    if Pushes(m.s, t) || Pops(m.s, t) {
      StackLeaves(Filled(m, e, d), h, Switch(m, e, d), co);
      SeenIsSeen(Filled(m, e, d), h, Switch(m, e, d), d.sp);
    }
  }

  /** The stacks keep their invariant, and who is who. */
  lemma SwitchAgrees(m: Machine, h: History, e: S.Event, d: Detail)
    requires Inv(m, h) && Enabled(m, Sched(e, d)) && Shape(m.s, e, S.Step(m.s, e))
    ensures var t := S.Step(m.s, e); var w := Switched(m, e, d);
            && KI.Inv(w, Seen(m, h, Sched(e, d))) && K.Sane(w) && t.pCallStack == w.pCallStack && w.main == m.w.main
            && w.cos.Keys == m.w.cos.Keys
            && forall co :: co in w.cos ==>
                 && w.cos[co].cIsShareStack == m.w.cos[co].cIsShareStack
                 && w.cos[co].cEnd == (m.w.cos[co].cEnd || (e.End? && co == K.Top(m.w)))
  {
    hide KI.Inv, SI.Inv, WaitsOk, Filled, S.Step, S.Enabled, Switched, K.Step, K.Enabled, Quiet, Begins, Ends, KI.Seen;
    var t := S.Step(m.s, e);
    var w1 := Filled(m, e, d);
    FilledOwn(m, h, e, d);
    SwitchedIsStep(m, h, e, d);
    if Pushes(m.s, t) || Pops(m.s, t) {
      var k := Switch(m, e, d);
      KI.StepKeeps(w1, h, k);
      SeenIsSeen(w1, h, k, d.sp);
      StackFlags(w1, k);
      InvIsSane(K.Step(w1, k), KI.Seen(w1, h, k));
    }
  }

  lemma InvIsSane(w: World, h: History)
    requires KI.Inv(w, h)
    ensures K.Sane(w)
  {
  }

  lemma StackFlags(w: World, k: K.Event<S.Co, nat>)
    requires K.Enabled(w, k) && (k.Resume? || k.Yield? || k.End?)
    ensures var t := K.Step(w, k);
            && t.main == w.main && t.cos.Keys == w.cos.Keys
            && t.pCallStack == (if k.Resume? then w.pCallStack + [k.co] else w.pCallStack[..|w.pCallStack| - 1])
            && forall co :: co in w.cos ==>
                 && t.cos[co].stack_mem == w.cos[co].stack_mem && t.cos[co].cIsShareStack == w.cos[co].cIsShareStack
                 && t.cos[co].cEnd == (w.cos[co].cEnd || (k.End? && co == K.Top(w)))
  {
    hide K.Swap;
    var n := |w.pCallStack|;
    match k
    case Resume(co, sp) => KR.SwapFlags(KI.Pushed(w, co), K.Top(w), co, sp, !w.cos[co].cStart);
    case Yield(sp) => KR.SwapFlags(w.(pCallStack := w.pCallStack[..n - 1]), K.Top(w), w.pCallStack[n - 2], sp, false);
    case End(sp) =>
      var v := w.(cos := w.cos[K.Top(w) := w.cos[K.Top(w)].(cEnd := true)], pCallStack := w.pCallStack[..n - 1]);
      KR.SwapFlags(v, K.Top(w), w.pCallStack[n - 2], sp, false);
    case _ => assert false;
  }

  // ----- a step of the scheduler

  lemma AgreesSwitched(m: Machine, h: History, e: S.Event, d: Detail)
    requires Inv(m, h) && Enabled(m, Sched(e, d)) && Shape(m.s, e, S.Step(m.s, e))
    ensures Agree(S.Step(m.s, e), Switched(m, e, d))
  {
    hide KI.Inv, SI.Inv, WaitsOk, Filled, S.Step, S.Enabled, Switched;
    var t := S.Step(m.s, e);
    SwitchAgrees(m, h, e, d);
    TopOnStack(m.w);
    forall co | co in t.blocked ensures KI.Alive(Switched(m, e, d), co) {
      if co in m.s.blocked {
        SwitchLeaves(m, h, e, d, co);
      } else {
        BeginsParks(m, h, e, d);
      }
    }
  }

  /** The coroutine that begins a wait parks its stack at the detail's address. */
  lemma BeginsParks(m: Machine, h: History, e: S.Event, d: Detail)
    requires Inv(m, h) && Enabled(m, Sched(e, d)) && Shape(m.s, e, S.Step(m.s, e)) && Begins(m.s, e, S.Step(m.s, e))
    ensures var t := S.Step(m.s, e); var w := Switched(m, e, d); var top := K.Top(m.w);
            var g := Seen(m, h, Sched(e, d));
            && Pops(m.s, t) && KI.Alive(w, top) && w.cos[top].stack_sp == d.sp && top in g
               && g[top] == KR.Left(Filled(m, e, d), d.sp)
            && K.OnStack(Filled(m, e, d), d.sp)
  {
    hide KI.Inv, SI.Inv, WaitsOk, Filled, S.Step, S.Enabled, Switched, K.Step, K.Enabled;
    FilledOwn(m, h, e, d);
    StillOnStack(m.w, Filled(m, e, d), d.sp);
    SwitchedIsStep(m, h, e, d);
    SeenIsSeen(Filled(m, e, d), h, Switch(m, e, d), d.sp);
    KR.OutParks(Filled(m, e, d), h, Switch(m, e, d), d.sp);
  }

  /** A wait that begins has its objects in place: its poll items are in what the
      coroutine leaves on its stack. */
  lemma NewObjectsOk(m: Machine, h: History, e: S.Event, d: Detail)
    requires Inv(m, h) && Enabled(m, Sched(e, d)) && Shape(m.s, e, S.Step(m.s, e)) && Begins(m.s, e, S.Step(m.s, e))
    ensures ObjectsOk(Switched(m, e, d), Seen(m, h, Sched(e, d)), S.Step(m.s, e).waits[m.s.nextRid],
            NewObjects(m, e, d))
  {
    hide KI.Inv, SI.Inv, WaitsOk, Filled, S.Step, S.Enabled, Switched, Seen, Scribbled;
    var w1, top := Filled(m, e, d), K.Top(m.w);
    FilledOwn(m, h, e, d);
    BeginsParks(m, h, e, d);
    SwitchAgrees(m, h, e, d);
    assert Seen(m, h, Sched(e, d))[top] == K.Buffer(w1, top)[d.sp..];
    if ItemsOnStack(m, e) {
      SliceOfSlice(K.Buffer(w1, top), d.sp, d.itemsAt, d.image);
    }
  }

  lemma SliceOfSlice(b: seq<Byte>, sp: nat, at: nat, bytes: seq<Byte>)
    requires sp <= at && at + |bytes| <= |b| && b[at..at + |bytes|] == bytes
    ensures b[sp..][at - sp..][..|bytes|] == bytes
  {
  }

  lemma LiveWait(s: S.State, r: S.Rid)
    requires SI.Inv(s) && r in s.waits
    ensures s.waits[r].co in s.blocked && s.blocked[s.waits[r].co] == r && r < s.nextRid
  {
  }

  /** The objects of the waits that a step leaves. */
  lemma WaitsSwitched(m: Machine, h: History, e: S.Event, d: Detail, r: S.Rid)
    requires Inv(m, h) && Enabled(m, Sched(e, d)) && Shape(m.s, e, S.Step(m.s, e)) && r in S.Step(m.s, e).waits
    ensures var t := S.Step(m.s, e);
            var o := if t.nextRid > m.s.nextRid then m.objects[m.s.nextRid := NewObjects(m, e, d)] else m.objects;
            r in o && ObjectsOk(Switched(m, e, d), Seen(m, h, Sched(e, d)), t.waits[r], o[r])
  {
    hide KI.Inv, SI.Inv, Filled, S.Step, S.Enabled, Switched, Seen, SameLeft, ObjectsOk, NewObjects;
    var t := S.Step(m.s, e);
    if r in m.s.waits {
      LiveWait(m.s, r);
      SwitchLeaves(m, h, e, d, m.s.waits[r].co);
      ObjectsStay(m.w, h, Switched(m, e, d), Seen(m, h, Sched(e, d)), m.s.waits[r], t.waits[r], m.objects[r]);
    } else {
      NewObjectsOk(m, h, e, d);
    }
  }

  // ----- a poll that returns

  lemma PollLengths(s: S.State, r: S.Rid)
    requires SI.Inv(s) && r in s.waits && s.waits[r].kind.PollWait?
    ensures |s.waits[r].kind.revents| == |s.waits[r].kind.fds|
  {
    assert SI.RecOk(s, r, s.waits[r]);
  }

  lemma KeptLength(w: World, h: History, co: S.Co)
    requires KI.Inv(w, h) && co in w.cos && co != K.Top(w) && KI.Alive(w, co)
    ensures co in h && w.cos[co].stack_sp + |h[co]| == |K.Buffer(w, co)|
  {
    assert KI.KeptOrNew(w, h, co);
  }

  /** Whoever is switched in has a stack as long as before. */
  lemma BroughtLength(w: World, h: History, k: K.Event<S.Co, nat>)
    requires KI.Inv(w, h) && K.Enabled(w, k) && k.Resume? && KI.Alive(w, k.co)
    ensures var t := K.Step(w, k);
            && K.Sane(t) && k.co in t.cos && k.co in h && t.cos[k.co].stack_sp == w.cos[k.co].stack_sp
               && K.Top(t) == k.co
            && |K.Buffer(t, k.co)| == w.cos[k.co].stack_sp + |h[k.co]|
  {
    TopOnStack(w);
    KeptLength(w, h, k.co);
    hide KI.Inv, K.Step, KI.Occupied;
    KR.BringsSwitches(w, h, k, k.co);
    InvIsSane(K.Step(w, k), KI.Seen(w, h, k));
  }

  /** The caller's array is inside the stack of the coroutine that has just been
      switched in, or on the heap. */
  lemma RoomToDeliver(m: Machine, h: History, e: S.Event, d: Detail, r: S.Rid)
    requires Inv(m, h) && Enabled(m, Sched(e, d)) && Shape(m.s, e, S.Step(m.s, e))
             && Returning(m.s, S.Step(m.s, e)) == Some(r)
    ensures var w := Switched(m, e, d); var n := POLLFD_SIZE * |m.s.waits[r].kind.revents|;
            && r in m.objects && K.Sane(w) && K.Top(w) == m.s.waits[r].co
            && var p := m.objects[r].results;
               if p.Heap? then |m.objects[r].content| == n else p.co == K.Top(w) && p.at + n <= |K.Buffer(w, p.co)|
  {
    hide KI.Inv, SI.Inv, Filled, S.Step, S.Enabled, Switched, K.Step, K.Enabled, LibraryPlaces;
    var t := S.Step(m.s, e);
    var co := S.Top(t);
    LiveWait(m.s, r);
    BlockedOwns(m.s, co);
    PollLengths(m.s, r);
    BlockedIsAway(m, h, co);
    FilledLeaves(m, h, e, d, co);
    FilledOwn(m, h, e, d);
    SwitchedIsStep(m, h, e, d);
    BroughtLength(Filled(m, e, d), h, Switch(m, e, d));
  }

  lemma BlockedOwns(s: S.State, co: S.Co)
    requires SI.Inv(s) && co in s.blocked
    ensures s.blocked[co] in s.waits && s.waits[s.blocked[co]].co == co
  {
  }

  lemma DeliverKeeps(w: World, h: History, p: Place, rs: seq<bv16>)
    requires KI.Inv(w, h) && K.Sane(w)
    requires p.OnStack? ==> p.co == K.Top(w) && p.at + POLLFD_SIZE * |rs| <= |K.Buffer(w, p.co)|
    ensures KI.Inv(Deliver(w, p, rs), h) && SameButBytes(w, Deliver(w, p, rs))
  {
    hide KI.Inv;
    if p.Heap? {
      SameAsItself(w);
    } else {
      TopOnStack(w);
      WritesOwn(w, h, PutRevents(K.Buffer(w, p.co), p.at, rs));
    }
  }

  lemma AgreesDelivered(s: S.State, w: World, t: World)
    requires Agree(s, w) && SameButBytes(w, t)
    ensures Agree(s, t)
  {
  }

  lemma ObjectsDelivered(w: World, h: History, t: World, v: S.Wait, o: Objects)
    requires ObjectsOk(w, h, v, o) && SameButBytes(w, t)
    ensures ObjectsOk(t, h, v, o)
  {
  }

  /** A step of the scheduler ends as the switch does, up to the bytes of the caller's
      array. */
  lemma StepFromSwitched(m: Machine, h: History, e: S.Event, d: Detail)
    requires Inv(m, h) && Enabled(m, Sched(e, d)) && Shape(m.s, e, S.Step(m.s, e))
    ensures var t := S.Step(m.s, e); var w := Switched(m, e, d); var u := Step(m, Sched(e, d));
            && u.s == t && KI.Inv(w, Seen(m, h, Sched(e, d))) && KI.Inv(u.w, Seen(m, h, Sched(e, d)))
               && SameButBytes(w, u.w)
            && var o := if t.nextRid > m.s.nextRid then m.objects[m.s.nextRid := NewObjects(m, e, d)] else m.objects;
               match Returning(m.s, t)
               case None => u.w == w && u.objects == o
               case Some(r) =>
                 && r in m.s.waits && r in m.objects && m.objects[r] == o[r] && t.nextRid == m.s.nextRid
                 && u.w == Deliver(w, m.objects[r].results, m.s.waits[r].kind.revents)
                 && u.objects == m.objects[r := u.objects[r]]
                 && u.objects[r] == m.objects[r].(content := u.objects[r].content)
                 && (m.objects[r].results.Heap? ==>
                       && |m.objects[r].content| == POLLFD_SIZE * |m.s.waits[r].kind.revents|
                       && u.objects[r].content == PutRevents(m.objects[r].content, 0, m.s.waits[r].kind.revents))
  {
    hide KI.Inv, SI.Inv, Filled, S.Step, S.Enabled, Switched, Seen, NewObjects, Deliver, PutRevents;
    SwitchAgrees(m, h, e, d);
    var t := S.Step(m.s, e);
    match Returning(m.s, t)
    case None => SameAsItself(Switched(m, e, d));
    case Some(r) =>
      RoomToDeliver(m, h, e, d, r);
      DeliverKeeps(Switched(m, e, d), Seen(m, h, Sched(e, d)), m.objects[r].results, m.s.waits[r].kind.revents);
  }

  lemma SchedKeeps(m: Machine, h: History, e: S.Event, d: Detail)
    requires Inv(m, h) && Enabled(m, Sched(e, d))
    ensures Inv(Step(m, Sched(e, d)), Seen(m, h, Sched(e, d)))
  {
    hide KI.Inv, SI.Inv, Filled, S.Step, S.Enabled, Switched, Seen, NewObjects, Step, Agree, ObjectsOk, SameButBytes,
         Deliver, PutRevents;
    SI.StepKeeps(m.s, e);
    StepShape(m.s, e);
    StepFromSwitched(m, h, e, d);
    AgreesSwitched(m, h, e, d);
    var t, w, u, g := S.Step(m.s, e), Switched(m, e, d), Step(m, Sched(e, d)), Seen(m, h, Sched(e, d));
    AgreesDelivered(t, w, u.w);
    forall r | r in t.waits ensures r in u.objects && ObjectsOk(u.w, g, t.waits[r], u.objects[r]) {
      WaitsSwitched(m, h, e, d, r);
      NotReturned(m, e, r);
      var o := if t.nextRid > m.s.nextRid then m.objects[m.s.nextRid := NewObjects(m, e, d)] else m.objects;
      ObjectsDelivered(w, g, u.w, t.waits[r], o[r]);
    }
  }

  lemma NotReturned(m: Machine, e: S.Event, r: S.Rid)
    requires SI.Inv(m.s) && S.Enabled(m.s, e) && Shape(m.s, e, S.Step(m.s, e)) && r in S.Step(m.s, e).waits
    ensures Returning(m.s, S.Step(m.s, e)) != Some(r)
  {
    hide S.Step, S.Enabled;
  }

  // ----- a step of the stacks alone

  lemma StackKinds(m: Machine, k: K.Event<S.Co, nat>)
    requires Enabled(m, Stack(k)) && Agree(m.s, m.w)
    ensures var t := K.Step(m.w, k); var s := Step(m, Stack(k)).s;
            && t.pCallStack == m.w.pCallStack && t.main == m.w.main && s.ended <= t.cos.Keys
            && forall co :: co in t.cos ==>
               (co in s.shared <==> t.cos[co].cIsShareStack) && (co in s.ended <==> t.cos[co].cEnd)
  {
    hide K.Buffer;
  }

  lemma SchedulerForgets(s: S.State, t: S.State, gone: set<S.Co>)
    requires SI.Inv(s) && t == s.(ended := s.ended - gone, started := s.started - gone)
    ensures SI.Inv(t)
  {
    hide SI.WaitInv, SI.LinkInv, SI.RecInv;
    SI.OnlyStack(s, t, {});
  }

  lemma StackKeeps(m: Machine, h: History, k: K.Event<S.Co, nat>)
    requires Inv(m, h) && Enabled(m, Stack(k))
    ensures Inv(Step(m, Stack(k)), h)
    ensures forall co :: co in m.s.blocked ==> SameLeft(m.w, h, K.Step(m.w, k), h, co)
  {
    hide KI.Inv, SI.Inv, K.Step, ObjectsOk;
    KI.StepKeeps(m.w, h, k);
    InvIsSane(K.Step(m.w, k), h);
    StackKinds(m, k);
    var u := Step(m, Stack(k));
    SchedulerForgets(m.s, u.s, Taken(m.w, k));
    forall co | co in m.s.blocked ensures SameLeft(m.w, h, u.w, h, co) {
      BlockedIsAway(m, h, co);
      StackLeaves(m.w, h, k, co);
    }
    forall r | r in u.s.waits ensures r in u.objects && ObjectsOk(u.w, h, u.s.waits[r], u.objects[r]) {
      LiveWait(m.s, r);
      ObjectsStay(m.w, h, u.w, h, m.s.waits[r], u.s.waits[r], m.objects[r]);
    }
  }

  /** Every step keeps the invariant. */
  lemma StepKeeps(m: Machine, h: History, ev: Event)
    requires Inv(m, h) && Enabled(m, ev)
    ensures Inv(Step(m, ev), Seen(m, h, ev))
  {
    hide Inv, Step, Enabled;
    match ev
    case Sched(e, d) => SchedKeeps(m, h, e, d);
    case Stack(k) => StackKeeps(m, h, k);
  }

  function SeenAfter(m: Machine, h: History, es: seq<Event>): History
    requires Runs(m, es)
    decreases |es|
  {
    if es == [] then h else SeenAfter(Step(m, es[0]), Seen(m, h, es[0]), es[1..])
  }

  lemma {:induction false} RunKeeps(m: Machine, h: History, es: seq<Event>)
    requires Inv(m, h) && Runs(m, es)
    ensures Inv(Exec(m, es), SeenAfter(m, h, es))
    decreases |es|
  {
    hide Inv, Step, Enabled, Seen;
    if es != [] {
      StepKeeps(m, h, es[0]);
      RunKeeps(Step(m, es[0]), Seen(m, h, es[0]), es[1..]);
    }
  }
}
