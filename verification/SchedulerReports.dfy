/** What a poll sees is what epoll reports for it, and a wait ends as it began: both read
    off the events of a run. */
module SchedulerReports {
  import opened PollEvents
  import opened Scheduler
  import opened SchedulerCalls
  import opened SchedulerInv
  import opened SchedulerLog
  import opened SchedulerShape
  import opened SchedulerTime

  /** The report, if `e` is one, for entry `i` of poll `r`; else `x`. */
  function ReportedBy(s: State, e: Event, r: Rid, i: nat, x: bv16): bv16 {
    if e.Report? && e.fd in s.regs && s.regs[e.fd] == Reg(r, i) then EpollEvent2Poll(e.events) else x
  }

  /** The latest report in `es` for entry `i` of poll `r`, as poll bits; `x` if there is
      none. */
  function LatestReport(s: State, es: seq<Event>, r: Rid, i: nat, x: bv16): bv16
    requires Runs(s, es)
    decreases |es|
  {
    if es == [] then x else LatestReport(Step(s, es[0]), es[1..], r, i, ReportedBy(s, es[0], r, i, x))
  }

  /** `w` is what became of `v`, the record of wait `r` in `s`, in the run `es`. */
  ghost predicate Became(s: State, es: seq<Event>, r: Rid, v: Wait, w: Wait)
    requires Runs(s, es)
  {
    && SameShape(v, w)
    && (v.kind.PollWait? ==>
          && |w.kind.revents| == |v.kind.revents|
          && forall i :: 0 <= i < |v.kind.revents| ==>
             w.kind.revents[i] == LatestReport(s, es, r, i, v.kind.revents[i]))
  }

  /** One step of a wait that goes on. */
  ghost predicate Saw(s: State, e: Event, r: Rid, v: Wait, w: Wait) {
    && SameShape(v, w)
    && (v.kind.PollWait? ==>
          && |w.kind.revents| == |v.kind.revents|
          && forall i :: 0 <= i < |v.kind.revents| ==> w.kind.revents[i] == ReportedBy(s, e, r, i, v.kind.revents[i]))
  }

  /** The waits and the log after a step. */
  ghost predicate Follows(s: State, e: Event, t: State) {
    && s.nextRid <= t.nextRid && s.log <= t.log
    && (forall r :: r in t.waits && r < s.nextRid ==> r in s.waits && Saw(s, e, r, s.waits[r], t.waits[r]))
    && (forall r :: r in s.waits && r !in t.waits ==>
          && |t.log| == |s.log| + 1 && t.log[|s.log|].rid == r && t.log[|s.log|].wait == s.waits[r] && !e.Report?)
    && (|t.log| > |s.log| ==> |t.log| == |s.log| + 1 && t.log[|s.log|].rid in s.waits && t.log[|s.log|].rid !in t.waits)
  }

  /** All records are named below the next name, and a blocked coroutine has its own. */
  ghost predicate Named(s: State) {
    && (forall r :: r in s.waits ==> r < s.nextRid)
    && forall co :: co in s.blocked ==> s.blocked[co] in s.waits
  }

  lemma QuietFollows(s: State, e: Event, t: State)
    requires Quiet(s, t) && !e.Report? && Named(s)
    ensures Follows(s, e, t)
  {
    forall r | r in t.waits && r < s.nextRid ensures r in s.waits && Saw(s, e, r, s.waits[r], t.waits[r]) {
      assert r in s.waits.Keys;
    }
    forall r | r in s.waits ensures r in t.waits {
      assert r in t.waits.Keys;
    }
  }

  lemma NotesFollows(s: State, e: Event, t: State)
    requires Notes(s, e, t) && Named(s)
    ensures Follows(s, e, t)
  {
    hide EpollEvent2Poll;
  }

  lemma BeginsFollows(s: State, e: Event, t: State)
    requires Begins(s, e, t) && Named(s)
    ensures Follows(s, e, t)
  {
  }

  lemma EndsFollows(s: State, e: Event, t: State, co: Co, byLoop: bool)
    requires Ends(s, t, co, byLoop) && !e.Report? && Named(s)
    ensures Follows(s, e, t)
  {
  }

  lemma StepFollows(s: State, e: Event)
    requires Inv(s) && Enabled(s, e)
    ensures Follows(s, e, Step(s, e))
  {
    hide Inv, Step, Enabled, Quiet, Notes, Begins, Ends, Follows, Named;
    StepShape(s, e);
    AllNamed(s);
    var t := Step(s, e);
    if Begins(s, e, t) {
      BeginsFollows(s, e, t);
    } else if e.Report? {
      NotesFollows(s, e, t);
    } else if Quiet(s, t) {
      QuietFollows(s, e, t);
    } else {
      EndsFollows(s, e, t, Top(t), e.Drain?);
    }
  }

  lemma AllNamed(s: State)
    requires Inv(s)
    ensures Named(s)
  {
  }

  // ----- over runs

  /** What a wait becomes: in `t` if it is live, and in the log once it has ended. */
  ghost predicate Traced(s: State, es: seq<Event>, r: Rid)
    requires Runs(s, es) && r in s.waits
  {
    var t := Exec(s, es);
    && s.log <= t.log
    && (r in t.waits ==> Became(s, es, r, s.waits[r], t.waits[r]))
    && (r !in t.waits ==> exists k :: |s.log| <= k < |t.log| && t.log[k].rid == r)
    && forall k :: |s.log| <= k < |t.log| && t.log[k].rid == r ==> Became(s, es, r, s.waits[r], t.log[k].wait)
  }

  /** A wait that has ended is not logged again, and nothing is reported for it. */
  ghost predicate Silent(s: State, es: seq<Event>, r: Rid)
    requires Runs(s, es)
  {
    var t := Exec(s, es);
    && s.log <= t.log && r !in t.waits
    && (forall k :: |s.log| <= k < |t.log| ==> t.log[k].rid != r)
    && forall i: nat, x: bv16 :: LatestReport(s, es, r, i, x) == x
  }

  lemma StepSilent(s: State, e: Event, r: Rid)
    requires Inv(s) && Enabled(s, e) && r !in s.waits && r < s.nextRid
    ensures var t := Step(s, e);
            && r !in t.waits && r < t.nextRid && s.log <= t.log
            && (forall k :: |s.log| <= k < |t.log| ==> t.log[k].rid != r)
            && forall i: nat, x: bv16 :: ReportedBy(s, e, r, i, x) == x
  {
    hide Step, Enabled, EpollEvent2Poll;
    StepFollows(s, e);
    if e.Report? && e.fd in s.regs {
      assert RegOk(s, e.fd, s.regs[e.fd]);
    }
  }

  lemma {:induction false} RunSilent(s: State, es: seq<Event>, r: Rid)
    requires Inv(s) && Runs(s, es) && r !in s.waits && r < s.nextRid
    ensures Silent(s, es, r)
    decreases |es|
  {
    hide Inv, Step, Enabled, ReportedBy;
    if es != [] {
      StepKeeps(s, es[0]);
      StepSilent(s, es[0], r);
      RunSilent(Step(s, es[0]), es[1..], r);
      var u, t := Step(s, es[0]), Exec(s, es);
      forall k | |s.log| <= k < |t.log| ensures t.log[k].rid != r {
        assert u.log <= t.log && (k < |u.log| ==> t.log[k] == u.log[k]);
      }
      forall i: nat, x: bv16 ensures LatestReport(s, es, r, i, x) == x {
        assert ReportedBy(s, es[0], r, i, x) == x;
      }
    }
  }

  lemma {:induction false} RunTraces(s: State, es: seq<Event>, r: Rid)
    requires Inv(s) && Runs(s, es) && r in s.waits
    ensures Traced(s, es, r)
    decreases |es|
  {
    hide Inv, Step, Enabled, ReportedBy, SameShape;
    if es == [] {
      ItselfSame(s.waits[r]);
    } else {
      var t := Step(s, es[0]);
      StepKeeps(s, es[0]);
      StepFollows(s, es[0]);
      AllNamed(s);
      if r in t.waits {
        RunTraces(t, es[1..], r);
        TracedOn(s, es, r);
      } else {
        EndsNow(s, es, r);
      }
    }
  }

  lemma SameTwice(v: Wait, u: Wait, w: Wait)
    requires SameShape(v, u) && SameShape(u, w)
    ensures SameShape(v, w)
  {
  }

  lemma ThenBecame(s: State, es: seq<Event>, r: Rid, v: Wait, u: Wait, w: Wait)
    requires Runs(s, es) && es != [] && Saw(s, es[0], r, v, u) && Became(Step(s, es[0]), es[1..], r, u, w)
    ensures Became(s, es, r, v, w)
  {
    hide Step, Enabled, ReportedBy, Runs;
    SameTwice(v, u, w);
  }

  /** The wait goes on in the first step. */
  lemma TracedOn(s: State, es: seq<Event>, r: Rid)
    requires Runs(s, es) && es != [] && r in s.waits && Follows(s, es[0], Step(s, es[0])) && r < s.nextRid
    requires r in Step(s, es[0]).waits && Traced(Step(s, es[0]), es[1..], r)
    requires forall k :: |s.log| <= k < |Step(s, es[0]).log| ==> Step(s, es[0]).log[k].rid != r
    ensures Traced(s, es, r)
  {
    hide Step, Enabled, ReportedBy, SameShape, Became, Saw;
    var u, t := Step(s, es[0]), Exec(s, es);
    if r in t.waits {
      ThenBecame(s, es, r, s.waits[r], u.waits[r], t.waits[r]);
    }
    forall k | |s.log| <= k < |t.log| && t.log[k].rid == r ensures Became(s, es, r, s.waits[r], t.log[k].wait) {
      assert u.log <= t.log && k >= |u.log|;
      ThenBecame(s, es, r, s.waits[r], u.waits[r], t.log[k].wait);
    }
  }

  /** The wait ends in the first step. */
  lemma EndsNow(s: State, es: seq<Event>, r: Rid)
    requires Inv(s) && Runs(s, es) && es != [] && r in s.waits && Follows(s, es[0], Step(s, es[0]))
    requires r !in Step(s, es[0]).waits && r < Step(s, es[0]).nextRid
    ensures Traced(s, es, r)
  {
    hide Inv, Step, Enabled, SameShape, EpollEvent2Poll;
    var u, t := Step(s, es[0]), Exec(s, es);
    StepKeeps(s, es[0]);
    RunSilent(u, es[1..], r);
    assert t.log[|s.log|] == u.log[|s.log|];
    ItselfSame(s.waits[r]);
    assert forall i: nat, x: bv16 :: LatestReport(s, es, r, i, x) == LatestReport(u, es[1..], r, i, x);
    assert Became(s, es, r, s.waits[r], s.waits[r]);
    forall k | |s.log| <= k < |t.log| && t.log[k].rid == r ensures t.log[k].wait == s.waits[r] {
    }
  }

  lemma ItselfSame(v: Wait)
    ensures SameShape(v, v)
  {
  }

  // ----- what a poll returns

  /** The caller's entries: for each the latest report of the run, or nothing. */
  ghost predicate HasReports(u: State, es: seq<Event>, r: Rid, fds: seq<PollFd>, w: Wait)
    requires Runs(u, es)
  {
    && w.kind.PollWait? && w.kind.fds == fds && |w.kind.revents| == |fds|
    && forall i :: 0 <= i < |fds| ==> w.kind.revents[i] == LatestReport(u, es, r, i, 0)
  }

  /** From its call in `s` on, poll `s.nextRid` shows the reports made for it in `es`, as
      long as it waits and when it ends, once. */
  ghost predicate ShowsReports(s: State, u: State, es: seq<Event>, fds: seq<PollFd>)
    requires Runs(u, es)
  {
    var t := Exec(u, es);
    var r := s.nextRid;
    && r in u.waits && u.log <= t.log
    && (r in t.waits ==> HasReports(u, es, r, fds, t.waits[r]) && SameShape(u.waits[r], t.waits[r]))
    && (r !in t.waits ==> exists k :: |u.log| <= k < |t.log| && t.log[k].rid == r)
    && forall k :: |u.log| <= k < |t.log| && t.log[k].rid == r ==>
         HasReports(u, es, r, fds, t.log[k].wait) && SameShape(u.waits[r], t.log[k].wait)
  }

  lemma SeesReports(s: State, fds: seq<PollFd>, timeout: int, now: nat, accepted: set<int>, es: seq<Event>)
    requires Inv(s) && CanPoll(s, fds, timeout, now, accepted) && WheelStart(s, now) <= now <= PollExpiry(now, timeout)
    requires Runs(Step(s, Poll(fds, timeout, now, accepted)), es)
    ensures ShowsReports(s, Step(s, Poll(fds, timeout, now, accepted)), es, fds)
  {
    hide Inv, Step, LatestReport, Runs, Exec, PollExpiry, CanPoll;
    var e := Poll(fds, timeout, now, accepted);
    StepKeeps(s, e);
    PollWaits(s, fds, timeout, now, accepted);
    RunTraces(Step(s, e), es, s.nextRid);
  }

  /** In any run: as long as a poll waits, its record shows the latest reports made for it
      since it was called; and when it ends, once, it ends with them. */
  lemma PollSeesReports(
      size: nat, start: nat, shared: set<Co>, before: seq<Event>, s: State,
      fds: seq<PollFd>, timeout: int, now: nat, accepted: set<int>, es: seq<Event>)
    requires 1 <= size && Runs(Init(size, start, shared), before) && s == Exec(Init(size, start, shared), before)
    requires CanPoll(s, fds, timeout, now, accepted) && WheelStart(s, now) <= now <= PollExpiry(now, timeout)
    requires Runs(Step(s, Poll(fds, timeout, now, accepted)), es)
    ensures ShowsReports(s, Step(s, Poll(fds, timeout, now, accepted)), es, fds)
  {
    hide Inv, Step, Runs, Exec, CanPoll, PollExpiry, ShowsReports;
    InitInv(size, start, shared);
    RunKeeps(Init(size, start, shared), before);
    SeesReports(s, fds, timeout, now, accepted, es);
  }

  /** co_poll from its call to its return, in any run with a clock that does not go back:
      the caller gets the latest reports of its fds, the result is the number of entries
      that have one, and if the event loop resumes it with nothing, its timeout has
      passed. */
  lemma PollOutcome(
      size: nat, start: nat, shared: set<Co>, before: seq<Event>, s: State,
      fds: seq<PollFd>, timeout: int, now: nat, accepted: set<int>, es: seq<Event>, k: nat)
    requires 1 <= size && 0 < start && TimelyRuns(Init(size, start, shared), before)
    requires Runs(Init(size, start, shared), before) && s == Exec(Init(size, start, shared), before) && s.clock <= now
    requires CanPoll(s, fds, timeout, now, accepted) && WheelStart(s, now) <= now <= PollExpiry(now, timeout)
    requires TimelyRuns(Step(s, Poll(fds, timeout, now, accepted)), es)
    requires Runs(Step(s, Poll(fds, timeout, now, accepted)), es)
    requires var t := Exec(Step(s, Poll(fds, timeout, now, accepted)), es);
             |s.log| <= k < |t.log| && t.log[k].rid == s.nextRid
    ensures var u := Step(s, Poll(fds, timeout, now, accepted)); var x := Exec(u, es).log[k];
            && x.wait.co == Top(s) && HasReports(u, es, s.nextRid, fds, x.wait)
            && x.wait.kind.iRaiseCnt == CountNonzero(x.wait.kind.revents)
            && (x.byLoop && x.wait.kind.iRaiseCnt == 0 ==> PollExpiry(now, timeout) <= x.at)
  {
    hide Inv, LogInv, TimeInv, Step, LatestReport, Runs, Exec, TimelyRuns, PollExpiry, CanPoll;
    var e := Poll(fds, timeout, now, accepted);
    var u := Step(s, e);
    InitInv(size, start, shared);
    InitTime(size, start, shared);
    InitLog(size, start, shared);
    RunTime(Init(size, start, shared), before);
    RunLogs(Init(size, start, shared), before);
    StepKeeps(s, e);
    StepTime(s, e);
    StepLogs(s, e);
    RunTime(u, es);
    RunLogs(u, es);
    PollWaits(s, fds, timeout, now, accepted);
    SeesReports(s, fds, timeout, now, accepted, es);
    LogOk(Exec(u, es), k);
  }

  lemma InitLog(size: nat, start: nat, shared: set<Co>)
    ensures LogInv(Init(size, start, shared))
  {
  }

  lemma LogOk(s: State, k: nat)
    requires LogInv(s) && TimeInv(s) && k < |s.log|
    ensures ResultOk(s.log[k])
    ensures s.log[k].byLoop && s.log[k].wait.bTimeout ==> s.log[k].wait.ullExpireTime <= s.log[k].at
  {
  }
}
