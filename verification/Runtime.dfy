/** The scheduler and the stacks together: where co_poll_inner and co_cond_timedwait keep
    what they need while their coroutine is away, and which bytes of which stack each
    step of the scheduler writes.  `S` is the scheduler, `K` the stacks; a step of the
    scheduler that pushes or pops the call stack is a resume or yield of the stacks. */
module Runtime {
  import opened Wrappers
  import K = SharedStack
  import S = Scheduler
  import SharedStackRuns

  type Byte = K.Byte
  type World = K.World<S.Co, nat>

  /** On the heap, or on the stack of `co` from byte `at` on. */
  datatype Place = Heap | OnStack(co: S.Co, at: nat)

  /** `length` bytes from `place` on. */
  datatype Span = Span(place: Place, length: nat)

  /** The objects of one wait: its record (stPoll_t or stCoCondItem_t), its poll items,
      its copy of the pollfd array, and the caller's own pollfd array.  `image` is what
      the items were filled with, `content` what the caller's array holds if that is on
      the heap. */
  datatype Objects = Objects(
    record: Place, items: Place, copies: Place, results: Place, image: seq<Byte>, content: seq<Byte>)

  datatype Machine = Machine(s: S.State, w: World, objects: map<S.Rid, Objects>)

  /** Some bytes written somewhere into an object. */
  datatype Scribble = Scribble(place: Place, bytes: seq<Byte>)

  /** What a step of the scheduler does not say: the address of the local variable of
      co_swap, where the poll items would be on the stack and what they are filled with,
      where the caller's array is and what it holds, and what the library writes into
      its records and copies. */
  datatype Detail = Detail(
    sp: nat, itemsAt: nat, image: seq<Byte>, results: Place, content: seq<Byte>, scribbles: seq<Scribble>)

  datatype Event = Sched(e: S.Event, d: Detail) | Stack(k: K.Event<S.Co, nat>)

  const POLLFD_SIZE: nat := 8

  function Init(size: nat, now: nat, shared: set<S.Co>, stack_buffer: seq<Byte>): Machine {
    Machine(S.Init(size, now, shared), K.Init(S.MAIN, 0, stack_buffer), map[])
  }

  // ----- writing through an address

  function Store(w: World, p: Place, bytes: seq<Byte>): World
    requires K.Sane(w)
  {
    if p.Heap? then w
    else if p.co !in w.cos || p.at + |bytes| > |K.Buffer(w, p.co)| then w.(fault := true)
    else SharedStackRuns.WithBuffer(w, p.co, K.Copied(K.Buffer(w, p.co), p.at, bytes))
  }

  function Scribbled(w: World, ss: seq<Scribble>): World
    decreases |ss|
  {
    if ss == [] || !K.Sane(w) then w else Scribbled(Store(w, ss[0].place, ss[0].bytes), ss[1..])
  }

  function Low(x: bv16): Byte { x as int % 256 }
  function High(x: bv16): Byte { x as int / 256 % 256 }

  /** The revents fields, the last two bytes of each struct pollfd from `at` on. */
  function PutRevents(b: seq<Byte>, at: nat, rs: seq<bv16>): (r: seq<Byte>)
    requires at + POLLFD_SIZE * |rs| <= |b|
    ensures |r| == |b|
    decreases |rs|
  {
    if rs == [] then b else PutRevents(b[at + 6 := Low(rs[0])][at + 7 := High(rs[0])], at + POLLFD_SIZE, rs[1..])
  }

  /** co_poll_inner copies the results to the caller's array. */
  function Deliver(w: World, p: Place, rs: seq<bv16>): World
    requires K.Sane(w)
  {
    if p.Heap? then w
    else if p.co !in w.cos || p.at + POLLFD_SIZE * |rs| > |K.Buffer(w, p.co)| then w.(fault := true)
    else SharedStackRuns.WithBuffer(w, p.co, PutRevents(K.Buffer(w, p.co), p.at, rs))
  }

  // ----- the machine

  predicate Sane(m: Machine) {
    K.Sane(m.w) && m.s.pCallStack == m.w.pCallStack
  }

  /** co_poll_inner's choice: the poll items are on the stack of a coroutine that does
      not share it, if they are few. */
  predicate ItemsOnStack(m: Machine, e: S.Event)
    requires Sane(m)
  {
    e.Poll? && |e.fds| < 2 && !m.w.cos[K.Top(m.w)].cIsShareStack
  }

  predicate Pushes(s: S.State, t: S.State) { |t.pCallStack| > |s.pCallStack| }
  predicate Pops(s: S.State, t: S.State) { |t.pCallStack| < |s.pCallStack| }

  /** The poll, if any, that ends because its coroutine is switched in. */
  function Returning(s: S.State, t: S.State): Option<S.Rid> {
    if Pushes(s, t) && S.Top(t) in s.blocked && s.blocked[S.Top(t)] in s.waits
      && s.waits[s.blocked[S.Top(t)]].kind.PollWait?
    then Some(s.blocked[S.Top(t)]) else None
  }

  /** Whoever is switched in, by a resume or by a yield. */
  function SwitchedIn(s: S.State, t: S.State): Option<S.Co> {
    if t.pCallStack != [] && (Pushes(s, t) || Pops(s, t)) then Some(S.Top(t)) else None
  }

  /** Records and copies of the live waits. */
  function LibraryPlaces(m: Machine): set<Place> {
    (set r | r in m.s.waits && r in m.objects :: m.objects[r].record)
    + (set r | r in m.s.waits && r in m.objects :: m.objects[r].copies)
  }

  function ItemsSpans(m: Machine, e: S.Event, d: Detail): set<Span>
    requires Sane(m)
  {
    if ItemsOnStack(m, e) then {Span(OnStack(K.Top(m.w), d.itemsAt), |d.image|)} else {}
  }

  function BroughtSpans(m: Machine, e: S.Event): set<Span>
    requires Sane(m) && S.Enabled(m.s, e)
  {
    match SwitchedIn(m.s, S.Step(m.s, e))
    case Some(co) => if co in m.w.cos then {StackSpan(m.w, co)} else {}
    case None => {}
  }

  /** What a step of the scheduler writes: records and copies of waits; the items that a
      poll fills; the stack of whoever is switched in, to which co_swap copies back; the
      array of the caller whose poll returns. */
  function Writes(m: Machine, e: S.Event, d: Detail): set<Span>
    requires Sane(m) && S.Enabled(m.s, e)
  {
    (set i | 0 <= i < |d.scribbles| :: Span(d.scribbles[i].place, |d.scribbles[i].bytes|))
    + ItemsSpans(m, e, d)
    + BroughtSpans(m, e)
    + match Returning(m.s, S.Step(m.s, e))
      case Some(r) => if r in m.objects then {Span(m.objects[r].results, POLLFD_SIZE * |m.s.waits[r].kind.revents|)}
        else {}
      case None => {}
  }

  /** All of the stack of `co` that is in use. */
  function StackSpan(w: World, co: S.Co): Span
    requires K.Sane(w) && co in w.cos
  {
    var sp := w.cos[co].stack_sp;
    Span(OnStack(co, sp), if sp <= |K.Buffer(w, co)| then |K.Buffer(w, co)| - sp else 0)
  }

  /** What it reads through the pointers in its records: the item that epoll points to;
      the items and copies of the poll that returns. */
  function Reads(m: Machine, e: S.Event): set<Place>
    requires S.Enabled(m.s, e)
  {
    (if e.Report? && e.fd in m.s.regs && m.s.regs[e.fd].rid in m.objects
     then {m.objects[m.s.regs[e.fd].rid].items} else {})
    + match Returning(m.s, S.Step(m.s, e))
      case Some(r) => if r in m.objects then {m.objects[r].items, m.objects[r].copies} else {}
      case None => {}
  }

  predicate OwnPlace(m: Machine, p: Place, sp: nat, n: nat)
    requires Sane(m)
  {
    p.OnStack? ==> p.co == K.Top(m.w) && sp <= p.at && p.at + n <= |K.Buffer(m.w, p.co)|
  }

  predicate Enabled(m: Machine, ev: Event) {
    && Sane(m)
    && match ev
       case Sched(e, d) =>
         && S.Enabled(m.s, e) && K.OnStack(m.w, d.sp)
         && (e.Resume? ==> e.co in m.w.cos)
         && (ItemsOnStack(m, e) ==> OwnPlace(m, OnStack(K.Top(m.w), d.itemsAt), d.sp, |d.image|))
         && (e.Poll? ==>
               && OwnPlace(m, d.results, d.sp, POLLFD_SIZE * |e.fds|)
               && (d.results.Heap? ==> |d.content| == POLLFD_SIZE * |e.fds|))
         && forall i :: 0 <= i < |d.scribbles| ==> d.scribbles[i].place in LibraryPlaces(m)
       case Stack(k) =>
         && K.Enabled(m.w, k)
         && match k
            case AllocStackMem(_, _) => true
            case CreateShared(co, _) => co in m.s.shared
            case CreatePrivate(co, _, _) => co !in m.s.shared
            case Write(_) => true
            case Reset(co) => co !in m.s.blocked
            case Free(co) => co !in m.s.blocked
            case _ => false
  }

  /** The stacks after what a step of the scheduler writes before it switches: into
      records and copies, and, if a poll begins, into its items. */
  function Filled(m: Machine, e: S.Event, d: Detail): World
    requires Sane(m)
  {
    var w := Scribbled(m.w, d.scribbles);
    if ItemsOnStack(m, e) && K.Sane(w) then Store(w, OnStack(K.Top(m.w), d.itemsAt), d.image) else w
  }

  /** The stacks during a step of the scheduler, up to the point where a poll returns. */
  function Switched(m: Machine, e: S.Event, d: Detail): World
    requires Enabled(m, Sched(e, d))
  {
    var t := S.Step(m.s, e);
    var w1 := Filled(m, e, d);
    if !K.Sane(w1) then w1
    else if Pushes(m.s, t) then (if S.Top(t) in w1.cos then K.ResumeCo(w1, S.Top(t), d.sp) else w1.(fault := true))
    else if Pops(m.s, t) then
      if |w1.pCallStack| < 2 then w1.(fault := true)
      else K.YieldCo(if e.End? then w1.(cos := w1.cos[K.Top(w1) := w1.cos[K.Top(w1)].(cEnd := true)]) else w1, d.sp)
    else w1
  }

  /** The objects of a wait that begins: malloc, calloc, and the caller's choice. */
  function NewObjects(m: Machine, e: S.Event, d: Detail): Objects
    requires Sane(m)
  {
    if e.Poll? then
      Objects(Heap, if ItemsOnStack(m, e) then OnStack(K.Top(m.w), d.itemsAt) else Heap, Heap,
              d.results, d.image, d.content)
    else Objects(Heap, Heap, Heap, Heap, [], [])
  }

  function Step(m: Machine, ev: Event): Machine
    requires Enabled(m, ev)
  {
    match ev
    case Stack(k) =>
      var gone := Taken(m.w, k);
      Machine(m.s.(ended := m.s.ended - gone, started := m.s.started - gone), K.Step(m.w, k), m.objects)
    case Sched(e, d) =>
      var t := S.Step(m.s, e);
      var w := Switched(m, e, d);
      var objects := if t.nextRid > m.s.nextRid then m.objects[m.s.nextRid := NewObjects(m, e, d)] else m.objects;
      match Returning(m.s, t)
      case None => Machine(t, w, objects)
      case Some(r) =>
        if r !in m.objects || !K.Sane(w) then Machine(t, w.(fault := true), objects)
        else
          var o := m.objects[r];
          var rs := m.s.waits[r].kind.revents;
          var content := if o.results.Heap? && POLLFD_SIZE * |rs| <= |o.content| then PutRevents(o.content, 0, rs)
            else o.content;
          Machine(t, Deliver(w, o.results, rs), objects[r := o.(content := content)])
  }

  /** Coroutines that the scheduler may forget: freed, or reset to be started anew. */
  function Taken(w: World, k: K.Event<S.Co, nat>): set<S.Co>
    requires K.Enabled(w, k)
  {
    if k.Free? || (k.Reset? && w.cos[k.co].cStart && k.co != w.main) then {k.co} else {}
  }

  predicate Runs(m: Machine, es: seq<Event>)
    decreases |es|
  {
    es != [] ==> Enabled(m, es[0]) && Runs(Step(m, es[0]), es[1..])
  }

  function Exec(m: Machine, es: seq<Event>): Machine
    requires Runs(m, es)
    decreases |es|
  {
    if es == [] then m else Exec(Step(m, es[0]), es[1..])
  }
}
