/** The poll hook merges entries for the same fd before it polls, and hands the results
    out to all of them afterwards. */
module PollMerge {
  import opened PollEvents
  import opened Wrappers

  datatype PollFd = PollFd(fd: int, events: bv16, revents: bv16)

  predicate DistinctFds(s: seq<PollFd>) {
    forall i, j :: 0 <= i < j < |s| ==> s[i].fd != s[j].fd
  }

  // ----- merging

  /** The place of the entry for `fd`. */
  function Place(s: seq<PollFd>, fd: int): (r: Option<nat>)
    ensures r.Some? ==> r.value < |s| && s[r.value].fd == fd
    ensures r.None? ==> forall i :: 0 <= i < |s| ==> s[i].fd != fd
  {
    if s == [] then None
    else if s[|s| - 1].fd == fd then Some(|s| - 1)
    else Place(s[..|s| - 1], fd)
  }

  function Both(a: bv16, b: bv16): (r: bv16)
    ensures a == 0 ==> r == b
  {
    a | b
  }

  function MergeOne(merged: seq<PollFd>, e: PollFd): seq<PollFd> {
    match Place(merged, e.fd)
    case None => merged + [e]
    case Some(j) => merged[j := merged[j].(events := Both(merged[j].events, e.events))]
  }

  function Merge(fds: seq<PollFd>): seq<PollFd> {
    if fds == [] then [] else MergeOne(Merge(fds[..|fds| - 1]), fds[|fds| - 1])
  }

  /** All that the entries for `fd` ask for. */
  function Asked(fds: seq<PollFd>, fd: int): bv16 {
    if fds == [] then 0
    else if fds[|fds| - 1].fd == fd then Both(Asked(fds[..|fds| - 1], fd), fds[|fds| - 1].events)
    else Asked(fds[..|fds| - 1], fd)
  }

  /** Where `fd` occurs first. */
  function First(fds: seq<PollFd>, fd: int): (i: nat)
    ensures i <= |fds| && (i < |fds| ==> fds[i].fd == fd) && forall j :: 0 <= j < i ==> fds[j].fd != fd
  {
    if fds == [] then 0
    else
      var i := First(fds[..|fds| - 1], fd);
      if i < |fds| - 1 || fds[|fds| - 1].fd == fd then i else |fds|
  }

  /** One entry for each fd, in the order of first occurrence, asking for all that is
      asked for. */
  ghost predicate IsMerge(fds: seq<PollFd>, merged: seq<PollFd>) {
    && DistinctFds(merged)
    && (forall i :: 0 <= i < |fds| ==> Place(merged, fds[i].fd).Some?)
    && (forall j :: 0 <= j < |merged| ==>
        First(fds, merged[j].fd) < |fds| && merged[j].events == Asked(fds, merged[j].fd))
    && (forall j, k :: 0 <= j < k < |merged| ==> First(fds, merged[j].fd) < First(fds, merged[k].fd))
  }

  lemma MergeNothing()
    ensures IsMerge([], [])
  {
  }

  lemma {:induction false} MergeIsMerge(fds: seq<PollFd>)
    ensures IsMerge(fds, Merge(fds))
  {
    hide MergeOne, IsMerge;
    if fds == [] {
      MergeNothing();
    } else {
      var t := fds[..|fds| - 1];
      var e := fds[|fds| - 1];
      MergeIsMerge(t);
      MergeOneIsMerge(t, Merge(t), e);
      assert fds == t + [e];
    }
  }

  lemma FirstLast(fds: seq<PollFd>, e: PollFd, fd: int)
    ensures First(fds + [e], fd) == if First(fds, fd) < |fds| || e.fd == fd then First(fds, fd) else |fds| + 1
    ensures Asked(fds + [e], fd) == if e.fd == fd then Both(Asked(fds, fd), e.events) else Asked(fds, fd)
  {
    hide Both;
    assert (fds + [e])[..|fds|] == fds;
  }

  lemma {:induction false} NotAsked(fds: seq<PollFd>, fd: int)
    requires First(fds, fd) == |fds|
    ensures Asked(fds, fd) == 0
  {
    if fds != [] {
      NotAsked(fds[..|fds| - 1], fd);
    }
  }

  lemma MergeOneIsMerge(fds: seq<PollFd>, merged: seq<PollFd>, e: PollFd)
    requires IsMerge(fds, merged)
    ensures IsMerge(fds + [e], MergeOne(merged, e))
  {
    hide Both, First, Asked, Place, IsMerge;
    var p := Place(merged, e.fd);
    if p.None? {
      AppendIsMerge(fds, merged, e);
    } else {
      WidenIsMerge(fds, merged, e, p.value);
    }
  }

  lemma AppendIsMerge(fds: seq<PollFd>, merged: seq<PollFd>, e: PollFd)
    requires IsMerge(fds, merged) && Place(merged, e.fd).None?
    ensures IsMerge(fds + [e], merged + [e])
  {
    hide Both, First, Asked, Place;
    var t := merged + [e];
    var all := fds + [e];
    FirstLast(fds, e, e.fd);
    assert forall i :: 0 <= i < |fds| ==> fds[i].fd != e.fd by {
      forall i | 0 <= i < |fds| ensures fds[i].fd != e.fd {
        assert merged[Place(merged, fds[i].fd).value].fd == fds[i].fd;
      }
    }
    NotAsked(fds, e.fd);
    forall j | 0 <= j < |t| ensures First(all, t[j].fd) < |all| && t[j].events == Asked(all, t[j].fd) {
      if j < |merged| { FirstLast(fds, e, t[j].fd); }
    }
    forall j, k | 0 <= j < k < |t| ensures First(all, t[j].fd) < First(all, t[k].fd) {
      FirstLast(fds, e, t[j].fd);
      FirstLast(fds, e, t[k].fd);
    }
    forall i | 0 <= i < |all| ensures Place(t, all[i].fd).Some? {
      if i < |fds| { assert t[Place(merged, fds[i].fd).value].fd == all[i].fd; } else { assert t[|merged|].fd == e.fd; }
    }
  }

  lemma WidenIsMerge(fds: seq<PollFd>, merged: seq<PollFd>, e: PollFd, p: nat)
    requires IsMerge(fds, merged) && p < |merged| && merged[p].fd == e.fd
    ensures IsMerge(fds + [e], merged[p := merged[p].(events := Both(merged[p].events, e.events))])
  {
    hide Both, First, Asked, Place;
    var w := merged[p].(events := Both(merged[p].events, e.events));
    var t := merged[p := w];
    var all := fds + [e];
    forall j | 0 <= j < |t| ensures t[j].fd == merged[j].fd {
    }
    forall j | 0 <= j < |merged| ensures First(all, merged[j].fd) == First(fds, merged[j].fd) {
      FirstLast(fds, e, merged[j].fd);
    }
    forall j | 0 <= j < |t| ensures t[j].events == Asked(all, merged[j].fd) {
      FirstLast(fds, e, merged[j].fd);
      if j < p { assert merged[j].fd != merged[p].fd; } else if p < j { assert merged[p].fd != merged[j].fd; }
    }
    forall i | 0 <= i < |all| ensures Place(t, all[i].fd).Some? {
      var k := if i < |fds| then Place(merged, fds[i].fd).value else p;
      assert t[k].fd == all[i].fd;
    }
  }

  // ----- polling

  /** What the kernel knows about each fd when the poll ends. */
  type Readiness = int -> bv32

  /** What co_poll_inner reports for one entry: epoll always adds errors and hang-ups
      to what was asked for. */
  function Report(events: bv16, ready: bv32): bv16 {
    EpollEvent2Poll((PollEvent2Epoll(events) | EPOLLERR | EPOLLHUP) & ready)
  }

  function Alone(e: PollFd, ready: Readiness): bv16 {
    if e.fd > -1 then Report(e.events, ready(e.fd)) else 0
  }

  function Polled(s: seq<PollFd>, ready: Readiness): (r: seq<PollFd>)
    ensures |r| == |s| && forall i :: 0 <= i < |s| ==> r[i] == s[i].(revents := Alone(s[i], ready))
  {
    seq(|s|, i requires 0 <= i < |s| => s[i].(revents := Alone(s[i], ready)))
  }

  function Count(s: seq<PollFd>): (n: nat)
    ensures n == 0 <==> forall i :: 0 <= i < |s| ==> s[i].revents == 0
  {
    if s == [] then 0 else Count(s[..|s| - 1]) + if s[|s| - 1].revents != 0 then 1 else 0
  }

  /** `bits` as far as `events` asks for them. */
  function Masked(bits: bv16, events: bv16): bv16 {
    bits & events
  }

  predicate Within(a: bv16, b: bv16) {
    a & b == a
  }

  /** Asking for more changes nothing about the bits one asked for. */
  lemma ReportMasked(own: bv16, all: bv16, ready: bv32)
    requires Within(own, all)
    ensures Masked(Report(all, ready), own) == Masked(Report(own, ready), own)
  {
  }

  lemma BothIncludes(a: bv16, b: bv16, c: bv16)
    ensures Within(b, Both(a, b)) && (Within(c, a) ==> Within(c, Both(a, b)))
  {
  }

  lemma {:induction false} AskedIncludes(fds: seq<PollFd>, i: nat)
    requires i < |fds|
    ensures Within(fds[i].events, Asked(fds, fds[i].fd))
  {
    hide Both, Within;
    var t := fds[..|fds| - 1];
    var e := fds[|fds| - 1];
    BothIncludes(Asked(t, fds[i].fd), e.events, fds[i].events);
    if i < |t| {
      AskedIncludes(t, i);
    }
  }

  /** An entry's share of the merged poll is, on the bits it asked for, what it would
      have got alone. */
  lemma ShareIsAlone(fds: seq<PollFd>, i: nat, j: nat, ready: Readiness)
    requires i < |fds| && j < |Merge(fds)| && Merge(fds)[j].fd == fds[i].fd
    ensures Masked(Alone(Merge(fds)[j], ready), fds[i].events) == Masked(Alone(fds[i], ready), fds[i].events)
  {
    hide Report, Asked, Merge, Within, Masked;
    MergeIsMerge(fds);
    AskedIncludes(fds, i);
    if fds[i].fd > -1 {
      ReportMasked(fds[i].events, Merge(fds)[j].events, ready(fds[i].fd));
    }
  }

  /** It is all that the entry would have got alone exactly if there is no error or
      hang-up that it did not ask for. */
  lemma ShareIsAll(e: PollFd, ready: Readiness)
    requires e.fd > -1
    ensures Masked(Alone(e, ready), e.events) == Alone(e, ready) <==>
              ready(e.fd) & (EPOLLERR | EPOLLHUP) & !PollEvent2Epoll(e.events) == 0
  {
  }

  // ----- the hook

  /** A result of the system's own poll, or of the hook. */
  datatype Result = SystemPoll | Ret(n: int)

  /** co_poll_inner on distinct fds: it fails and touches nothing, or it reports. */
  method CoPollInner(fds: array<PollFd>, nfds: nat, ready: Readiness, failure: Option<int>) returns (ret: int)
    requires nfds <= fds.Length && DistinctFds(fds[..nfds]) && (failure.Some? ==> failure.value < 0)
    modifies fds
    ensures failure.Some? ==> fds[..] == old(fds[..]) && ret == failure.value
    ensures failure.None? ==> fds[..] == Polled(old(fds[..nfds]), ready) + old(fds[nfds..]) && ret == Count(fds[..nfds])
  {
    hide Alone;
    if failure.Some? {
      return failure.value;
    }
    ret := 0;
    for i := 0 to nfds
      invariant ret == Count(fds[..i])
      invariant forall k :: 0 <= k < i ==> fds[k] == old(fds[k]).(revents := Alone(old(fds[k]), ready))
      invariant forall k :: i <= k < fds.Length ==> fds[k] == old(fds[k])
    {
      ghost var before := fds[..i];
      fds[i] := fds[i].(revents := Alone(fds[i], ready));
      assert fds[..i + 1][..i] == before;
      if fds[i].revents != 0 {
        ret := ret + 1;
      }
    }
  }

  /** `m` finds the entry for each fd among the first `n`. */
  ghost predicate Finds(fds_merge: array<PollFd>, n: nat, m: map<int, nat>)
    reads fds_merge
  {
    && n <= fds_merge.Length
    && (forall fd :: fd in m ==> m[fd] < n && fds_merge[m[fd]].fd == fd)
    && (forall k :: 0 <= k < n ==> fds_merge[k].fd in m)
  }

  /** One turn of the loop that fills fds_merge. */
  method MergeEntry(fds_merge: array<PollFd>, n: nat, m: map<int, nat>, e: PollFd) returns (n': nat, m': map<int, nat>)
    requires n < fds_merge.Length && Finds(fds_merge, n, m) && DistinctFds(fds_merge[..n])
    modifies fds_merge
    ensures n <= n' <= n + 1 && Finds(fds_merge, n', m') && fds_merge[..n'] == MergeOne(old(fds_merge[..n]), e)
    ensures m'.Keys == m.Keys + {e.fd}
  {
    hide Place, Both;
    ghost var merged := fds_merge[..n];
    n', m' := n, m;
    if e.fd !in m {
      PlaceIs(merged, e.fd, None);
      fds_merge[n] := e;
      m' := m[e.fd := n];
      n' := n + 1;
      assert fds_merge[..n'] == merged + [e];
    } else {
      var j := m[e.fd];
      PlaceIs(merged, e.fd, Some(j));
      fds_merge[j] := fds_merge[j].(events := Both(fds_merge[j].events, e.events));
      assert fds_merge[..n'] == merged[j := fds_merge[j]];
    }
  }

  /** The loop that fills fds_merge. */
  method MergeFds(fds: array<PollFd>) returns (fds_merge: array<PollFd>, nfds_merge: nat, m: map<int, nat>)
    ensures fresh(fds_merge) && Finds(fds_merge, nfds_merge, m)
    ensures nfds_merge <= fds_merge.Length == fds.Length && fds_merge[..nfds_merge] == Merge(fds[..])
    ensures forall i :: 0 <= i < fds.Length ==> fds[i].fd in m
  {
    hide Merge, MergeOne;
    fds_merge := new PollFd[fds.Length](_ => PollFd(0, 0, 0));
    nfds_merge := 0;
    m := map[];
    MergeNone();
    for i := 0 to fds.Length
      invariant nfds_merge <= i && fds_merge[..nfds_merge] == Merge(fds[..i]) && Finds(fds_merge, nfds_merge, m)
      invariant forall k :: 0 <= k < i ==> fds[k].fd in m
    {
      MergeNext(fds[..], i);
      MergeIsMerge(fds[..i]);
      assert fds[..][..i] == fds[..i] && fds[..][..i + 1] == fds[..i + 1];
      nfds_merge, m := MergeEntry(fds_merge, nfds_merge, m, fds[i]);
    }
    assert fds[..fds.Length] == fds[..];
  }

  lemma MergeNone()
    ensures Merge([]) == []
  {
  }

  lemma MergeNext(fds: seq<PollFd>, i: nat)
    requires i < |fds|
    ensures Merge(fds[..i + 1]) == MergeOne(Merge(fds[..i]), fds[i])
  {
    assert fds[..i + 1][..i] == fds[..i];
  }

  lemma PlaceIs(s: seq<PollFd>, fd: int, r: Option<nat>)
    requires DistinctFds(s) && (r.Some? ==> r.value < |s| && s[r.value].fd == fd)
    requires r.None? ==> forall i :: 0 <= i < |s| ==> s[i].fd != fd
    ensures Place(s, fd) == r
  {
  }

  lemma {:induction false} MergeShorter(fds: seq<PollFd>)
    ensures |Merge(fds)| <= |fds|
    ensures |Merge(fds)| == |fds| ==> DistinctFds(fds) && Merge(fds) == fds
  {
    if fds != [] {
      var t := fds[..|fds| - 1];
      MergeShorter(t);
      assert fds == t + [fds[|fds| - 1]];
    }
  }

  /** What the entries of a merged poll get. */
  function Shared(fds: seq<PollFd>, ready: Readiness): (r: seq<PollFd>)
    ensures |r| == |fds| && forall i :: 0 <= i < |fds| ==>
            r[i] == fds[i].(revents := Masked(Alone(fds[i], ready), fds[i].events))
  {
    seq(|fds|, i requires 0 <= i < |fds| => fds[i].(revents := Masked(Alone(fds[i], ready), fds[i].events)))
  }

  /** The loop that hands out the results. */
  method HandOut(fds: array<PollFd>, fds_merge: array<PollFd>, nfds_merge: nat, m: map<int, nat>, ready: Readiness)
    requires fds != fds_merge && Finds(fds_merge, nfds_merge, m) && forall i :: 0 <= i < fds.Length ==> fds[i].fd in m
    requires fds_merge[..nfds_merge] == Polled(Merge(fds[..]), ready)
    modifies fds
    ensures fds[..] == Shared(old(fds[..]), ready)
  {
    hide Merge, Alone, Masked;
    for i := 0 to fds.Length
      invariant forall k :: 0 <= k < i ==>
                fds[k] == old(fds[k]).(revents := Masked(Alone(old(fds[k]), ready), old(fds[k]).events))
      invariant forall k :: i <= k < fds.Length ==> fds[k] == old(fds[k])
    {
      if fds[i].fd in m {
        var j := m[fds[i].fd];
        ShareIsAlone(old(fds[..]), i, j, ready);
        assert fds_merge[..nfds_merge][j] == fds_merge[j];
        fds[i] := fds[i].(revents := Masked(fds_merge[j].revents, fds[i].events));
      }
    }
  }

  /** The poll of fds_merge, and its results to everybody. */
  method PollMerged(fds: array<PollFd>, fds_merge: array<PollFd>, nfds_merge: nat, m: map<int, nat>, ready: Readiness,
      failure: Option<int>)
      returns (ret: int)
    requires fds != fds_merge && Finds(fds_merge, nfds_merge, m) && forall i :: 0 <= i < fds.Length ==> fds[i].fd in m
    requires fds_merge[..nfds_merge] == Merge(fds[..]) && (failure.Some? ==> failure.value < 0)
    modifies fds, fds_merge
    ensures failure.Some? ==> ret == failure.value && fds[..] == old(fds[..])
    ensures failure.None? ==>
              && ret == Count(Polled(Merge(old(fds[..])), ready))
              && fds[..] == if ret > 0 then Shared(old(fds[..]), ready) else old(fds[..])
  {
    hide Merge, Shared, Polled, Count;
    MergeIsMerge(fds[..]);
    ret := CoPollInner(fds_merge, nfds_merge, ready, failure);
    if ret > 0 {
      assert fds_merge[..nfds_merge] == Polled(Merge(fds[..]), ready);
      HandOut(fds, fds_merge, nfds_merge, m, ready);
    }
  }

  /** What the hook leaves in the caller's entries when the inner poll does not fail. */
  function Entries(fds: seq<PollFd>, ready: Readiness): (r: seq<PollFd>)
    ensures |r| == |fds|
  {
    if DistinctFds(fds) then Polled(fds, ready)
    else if Count(Polled(Merge(fds), ready)) > 0 then Shared(fds, ready)
    else fds
  }

  /** A poll of its own shows exactly what is ready of the bits asked for, and errors
      and hang-ups asked for or not. */
  lemma LoneBits(events: bv16, ready: bv32)
    ensures var r := Report(events, ready);
            && (r & POLLIN != 0 <==> events & POLLIN != 0 && ready & EPOLLIN != 0)
            && (r & POLLOUT != 0 <==> events & POLLOUT != 0 && ready & EPOLLOUT != 0)
            && (r & POLLERR != 0 <==> ready & EPOLLERR != 0)
            && (r & POLLHUP != 0 <==> ready & EPOLLHUP != 0)
            && (r & POLLRDNORM != 0 <==> events & POLLRDNORM != 0 && ready & EPOLLRDNORM != 0)
            && (r & POLLWRNORM != 0 <==> events & POLLWRNORM != 0 && ready & EPOLLWRNORM != 0)
            && r & 0x15d == r
  {
  }

  /** A share shows exactly what is ready of the bits asked for. */
  lemma ShareBits(events: bv16, ready: bv32)
    ensures var r := Masked(Report(events, ready), events);
            && (r & POLLIN != 0 <==> events & POLLIN != 0 && ready & EPOLLIN != 0)
            && (r & POLLOUT != 0 <==> events & POLLOUT != 0 && ready & EPOLLOUT != 0)
            && (r & POLLERR != 0 <==> events & POLLERR != 0 && ready & EPOLLERR != 0)
            && (r & POLLHUP != 0 <==> events & POLLHUP != 0 && ready & EPOLLHUP != 0)
            && (r & POLLRDNORM != 0 <==> events & POLLRDNORM != 0 && ready & EPOLLRDNORM != 0)
            && (r & POLLWRNORM != 0 <==> events & POLLWRNORM != 0 && ready & EPOLLWRNORM != 0)
            && r & 0x15d == r
  {
  }

  /** The hook's results bit by bit: each of the six bits is set in an entry's result
      exactly if it is ready and was asked for; an error or a hang-up that was not asked
      for is set exactly if no fd occurs twice. */
  lemma ResultBits(fds: seq<PollFd>, ready: Readiness, i: nat)
    requires i < |fds| && fds[i].fd > -1 && (DistinctFds(fds) || Number(fds, ready) > 0)
    ensures var r := Entries(fds, ready)[i].revents;
            var e := fds[i].events;
            var k := ready(fds[i].fd);
            && Entries(fds, ready)[i] == fds[i].(revents := r)
            && (r & POLLIN != 0 <==> e & POLLIN != 0 && k & EPOLLIN != 0)
            && (r & POLLOUT != 0 <==> e & POLLOUT != 0 && k & EPOLLOUT != 0)
            && (r & POLLERR != 0 <==> (e & POLLERR != 0 || DistinctFds(fds)) && k & EPOLLERR != 0)
            && (r & POLLHUP != 0 <==> (e & POLLHUP != 0 || DistinctFds(fds)) && k & EPOLLHUP != 0)
            && (r & POLLRDNORM != 0 <==> e & POLLRDNORM != 0 && k & EPOLLRDNORM != 0)
            && (r & POLLWRNORM != 0 <==> e & POLLWRNORM != 0 && k & EPOLLWRNORM != 0)
            && r & 0x15d == r
  {
    hide Report, Masked, Count, Merge, DistinctFds;
    LoneBits(fds[i].events, ready(fds[i].fd));
    ShareBits(fds[i].events, ready(fds[i].fd));
  }

  /** And the number that it returns. */
  function Number(fds: seq<PollFd>, ready: Readiness): nat {
    Count(Polled(Merge(fds), ready))
  }

  /** The poll hook.  co_poll_inner only ever sees distinct fds, and what it reports
      reaches the caller's entries. */
  method Poll(fds: array<PollFd>, hooked: bool, timeout: int, ready: Readiness,
      failure: Option<int>) returns (r: Result)
    requires failure.Some? ==> failure.value < 0
    modifies fds
    ensures !hooked || timeout == 0 ==> r == SystemPoll && fds[..] == old(fds[..])
    ensures hooked && timeout != 0 && failure.Some? ==> r == Ret(failure.value) && fds[..] == old(fds[..])
    ensures hooked && timeout != 0 && failure.None? ==>
              r == Ret(Number(old(fds[..]), ready)) && fds[..] == Entries(old(fds[..]), ready)
  {
    hide Merge, Shared, Polled, Count, Finds;
    if !hooked || timeout == 0 {
      return SystemPoll;
    }
    ghost var all := fds[..];
    MergeShorter(all);
    MergeOfDistinct(all);
    var nfds := fds.Length;
    var nfds_merge := 0;
    var fds_merge := fds;
    var m: map<int, nat> := map[];
    if nfds > 1 {
      fds_merge, nfds_merge, m := MergeFds(fds);
    }
    var ret;
    if nfds_merge == nfds || nfds == 1 {
      assert fds[..nfds] == all;
      assert nfds > 1 ==> |Merge(all)| == |all|;
      ret := CoPollInner(fds, nfds, ready, failure);
      assert fds[..nfds] == fds[..];
    } else {
      ret := PollMerged(fds, fds_merge, nfds_merge, m, ready, failure);
    }
    r := Ret(ret);
  }

  lemma {:induction false} MergeOfDistinct(fds: seq<PollFd>)
    ensures DistinctFds(fds) ==> Merge(fds) == fds
  {
    if fds != [] && DistinctFds(fds) {
      var t := fds[..|fds| - 1];
      MergeOfDistinct(t);
      assert fds == t + [fds[|fds| - 1]];
    }
  }
}
