/** What the number that the poll hook returns says about the caller's entries. */
module PollCounts {
  import opened PollEvents
  import opened PollMerge

  /** The fds for which what is asked for, by anyone, or an error or hang-up, is ready. */
  ghost function ReadyFds(fds: seq<PollFd>, ready: Readiness): set<int> {
    set i | 0 <= i < |fds| && fds[i].fd > -1 && Report(Asked(fds, fds[i].fd), ready(fds[i].fd)) != 0 :: fds[i].fd
  }

  ghost function RaisedFds(s: seq<PollFd>): set<int> {
    set i | 0 <= i < |s| && s[i].revents != 0 :: s[i].fd
  }

  /** With duplicates the hook counts ready fds, not ready entries. */
  lemma CountIsReady(fds: seq<PollFd>, ready: Readiness)
    ensures Count(Polled(Merge(fds), ready)) == |ReadyFds(fds, ready)|
  {
    hide Merge, Report, Asked, Count;
    var merged := Merge(fds);
    var polled := Polled(merged, ready);
    MergeIsMerge(fds);
    CountIsRaisedIfApart(polled);
    forall fd ensures fd in RaisedFds(polled) <==> fd in ReadyFds(fds, ready) {
      if fd in RaisedFds(polled) {
        var j :| 0 <= j < |polled| && polled[j].revents != 0 && polled[j].fd == fd;
        var i := First(fds, merged[j].fd);
        assert fds[i].fd == fd;
      }
      if fd in ReadyFds(fds, ready) {
        var i :| 0 <= i < |fds| && fds[i].fd > -1 && Report(Asked(fds, fds[i].fd), ready(fds[i].fd)) != 0
          && fds[i].fd == fd;
        var j := Place(merged, fds[i].fd).value;
        assert polled[j].fd == fd && polled[j].revents != 0;
      }
    }
    assert RaisedFds(polled) == ReadyFds(fds, ready);
  }

  /** Is anything ready that `events` asks for? */
  predicate Touches(ready: bv32, events: bv16) {
    ready & PollEvent2Epoll(events) != 0
  }

  lemma ShareIsZero(e: PollFd, ready: Readiness)
    requires e.fd > -1
    ensures Masked(Alone(e, ready), e.events) == 0 <==> !Touches(ready(e.fd), e.events)
  {
  }

  /** The entries show something exactly if something that was asked for is ready; the
      hook's result can be positive without that. */
  lemma SharesShow(fds: seq<PollFd>, ready: Readiness)
    ensures Count(Shared(fds, ready)) > 0 <==>
              exists i :: 0 <= i < |fds| && fds[i].fd > -1 && Touches(ready(fds[i].fd), fds[i].events)
  {
    hide Masked, Alone, Touches;
    forall i | 0 <= i < |fds|
      ensures Shared(fds, ready)[i].revents != 0 <==> fds[i].fd > -1 && Touches(ready(fds[i].fd), fds[i].events)
    {
      if fds[i].fd > -1 {
        ShareIsZero(fds[i], ready);
      } else {
        ShareOfNone(fds[i], ready);
      }
    }
  }

  lemma ShareOfNone(e: PollFd, ready: Readiness)
    requires e.fd <= -1
    ensures Masked(Alone(e, ready), e.events) == 0
  {
  }

  // ----- when the number is that of the entries, and when it is explained by one

  const KNOWN: bv16 := 0x15d

  /** Does `e` ask for anything that epoll can report? */
  predicate Asks(e: PollFd) {
    e.events & KNOWN != 0
  }

  predicate AsksForErrors(e: PollFd) {
    ErrorBitsIn(e.events)
  }

  /** Entry `k` asks for errors and hang-ups, and is the only one of its fd that asks for
      anything. */
  predicate OnlyAsker(fds: seq<PollFd>, k: nat) {
    k < |fds| && AsksForErrors(fds[k]) && forall i :: 0 <= i < |fds| && i != k && fds[i].fd == fds[k].fd ==>
      !Asks(fds[i])
  }

  ghost predicate OneAsker(fds: seq<PollFd>, fd: int) {
    exists k: nat :: OnlyAsker(fds, k) && fds[k].fd == fd
  }

  predicate ErrIn(a: bv16) { a & POLLERR != 0 }
  predicate HupIn(a: bv16) { a & POLLHUP != 0 }
  predicate ErrorBitsIn(a: bv16) { ErrIn(a) && HupIn(a) }

  /** Somebody asks for errors, and somebody for hang-ups. */
  predicate ErrorsAsked(fds: seq<PollFd>, fd: int) {
    ErrorBitsIn(Asked(fds, fd))
  }

  predicate NumberIsCount(fds: seq<PollFd>, ready: Readiness) {
    Number(fds, ready) == Count(Entries(fds, ready))
  }

  predicate PositiveShows(fds: seq<PollFd>, ready: Readiness) {
    Number(fds, ready) > 0 ==> Count(Entries(fds, ready)) > 0
  }

  /** Only `fd` is ready, for `bits`. */
  function Only(fd: int, bits: bv32): Readiness {
    x => if x == fd then bits else 0
  }

  lemma NothingReady(a: bv16)
    ensures Report(a, 0) == 0
  {
  }

  lemma ErrorsReported(a: bv16)
    ensures Report(a, EPOLLERR) != 0 && Report(a, EPOLLHUP) != 0 && Report(a, 0x15d) != 0
  {
  }

  /** The share of an entry with exactly the bits `bits` ready. */
  lemma ShareOf(e: PollFd)
    ensures Masked(Report(e.events, EPOLLERR), e.events) != 0 <==> e.events & POLLERR != 0
    ensures Masked(Report(e.events, EPOLLHUP), e.events) != 0 <==> e.events & POLLHUP != 0
    ensures Masked(Report(e.events, 0x15d), e.events) != 0 <==> Asks(e)
    ensures Masked(Report(e.events, 0), e.events) == 0
  {
  }

  lemma ReportIsReady(a: bv16, ready: bv32)
    ensures Report(a, ready) != 0 <==> (PollEvent2Epoll(a) | EPOLLERR | EPOLLHUP) & ready != 0
  {
  }

  lemma MaskedIsReady(a: bv16, ready: bv32)
    ensures Masked(Report(a, ready), a) != 0 <==> PollEvent2Epoll(a) & ready != 0
  {
  }

  lemma SameForEpoll(all: bv16, e: PollFd)
    requires all & KNOWN == e.events & KNOWN && AsksForErrors(e)
    ensures PollEvent2Epoll(all) | EPOLLERR | EPOLLHUP == PollEvent2Epoll(e.events)
  {
  }

  lemma AskerSeesAll(all: bv16, e: PollFd, ready: bv32)
    requires all & KNOWN == e.events & KNOWN && AsksForErrors(e)
    ensures Report(all, ready) != 0 <==> Masked(Report(e.events, ready), e.events) != 0
  {
    hide Report, Masked, PollEvent2Epoll, AsksForErrors;
    SameForEpoll(all, e);
    ReportIsReady(all, ready);
    MaskedIsReady(e.events, ready);
  }

  lemma SilentSeesNothing(e: PollFd, ready: bv32)
    requires !Asks(e)
    ensures Masked(Report(e.events, ready), e.events) == 0
  {
  }

  lemma BothKnown(a: bv16, b: bv16)
    ensures b & KNOWN == 0 ==> Both(a, b) & KNOWN == a & KNOWN
    ensures a & KNOWN == 0 ==> Both(a, b) & KNOWN == b & KNOWN
  {
  }

  /** If nobody but entry `k` asks, all that is asked for is what `k` asks for. */
  lemma {:induction false} AskedByOne(fds: seq<PollFd>, fd: int, k: nat)
    requires forall i :: 0 <= i < |fds| && i != k && fds[i].fd == fd ==> !Asks(fds[i])
    requires k < |fds| ==> fds[k].fd == fd
    ensures Asked(fds, fd) & KNOWN == if k < |fds| then fds[k].events & KNOWN else 0
  {
    hide Both;
    if fds != [] {
      var t := fds[..|fds| - 1];
      AskedByOne(t, fd, k);
      BothKnown(Asked(t, fd), fds[|fds| - 1].events);
    }
  }

  lemma RaisedLast(s: seq<PollFd>, e: PollFd)
    ensures RaisedFds(s + [e]) == RaisedFds(s) + if e.revents != 0 then {e.fd} else {}
  {
    var t := s + [e];
    forall fd ensures fd in RaisedFds(t) <==> fd in RaisedFds(s) || (e.revents != 0 && fd == e.fd) {
      if fd in RaisedFds(t) {
        var i :| 0 <= i < |t| && t[i].revents != 0 && t[i].fd == fd;
        assert i < |s| ==> s[i] == t[i];
      }
      if fd in RaisedFds(s) {
        var i :| 0 <= i < |s| && s[i].revents != 0 && s[i].fd == fd;
        assert t[i] == s[i];
      }
      assert t[|s|] == e;
    }
  }

  lemma {:induction false} CountIsRaisedIfApart(s: seq<PollFd>)
    requires forall i, j :: 0 <= i < j < |s| && s[i].revents != 0 && s[j].revents != 0 ==> s[i].fd != s[j].fd
    ensures Count(s) == |RaisedFds(s)|
  {
    if s != [] {
      var t := s[..|s| - 1];
      var e := s[|s| - 1];
      CountIsRaisedIfApart(t);
      assert s == t + [e];
      RaisedLast(t, e);
      assert e.revents != 0 ==> e.fd !in RaisedFds(t);
    }
  }

  lemma {:induction false} CountOfOne(s: seq<PollFd>) returns (k: nat)
    requires Count(s) == 1
    ensures k < |s| && s[k].revents != 0 && forall i :: 0 <= i < |s| && i != k ==> s[i].revents == 0
  {
    var t := s[..|s| - 1];
    if s[|s| - 1].revents != 0 {
      k := |s| - 1;
      assert forall i :: 0 <= i < |t| ==> t[i] == s[i];
    } else {
      k := CountOfOne(t);
    }
  }

  // ----- each fd by itself

  /** With only one asker for each fd, the entries that show something are the ready fds. */
  lemma SharesAreReady(fds: seq<PollFd>, ready: Readiness)
    requires forall i :: 0 <= i < |fds| && fds[i].fd > -1 ==> OneAsker(fds, fds[i].fd)
    ensures Count(Shared(fds, ready)) == |ReadyFds(fds, ready)|
  {
    hide Count, Masked, Report, Asked, Asks, AsksForErrors;
    var shared := Shared(fds, ready);
    forall i | 0 <= i < |fds|
      ensures shared[i].revents != 0 <==>
              fds[i].fd > -1 && Report(Asked(fds, fds[i].fd), ready(fds[i].fd)) != 0 && OnlyAsker(fds, i)
    {
      ShareOfAsker(fds, i, ready);
    }
    forall i, j | 0 <= i < j < |shared| && shared[i].revents != 0 && shared[j].revents != 0
      ensures shared[i].fd != shared[j].fd
    {
      AskersDiffer(fds, i, j);
    }
    CountIsRaisedIfApart(shared);
    forall fd ensures fd in RaisedFds(shared) <==> fd in ReadyFds(fds, ready) {
      if fd in RaisedFds(shared) {
        var i :| 0 <= i < |shared| && shared[i].revents != 0 && shared[i].fd == fd;
        assert fds[i].fd == fd;
      }
      if fd in ReadyFds(fds, ready) {
        var i :| 0 <= i < |fds| && fds[i].fd > -1 && Report(Asked(fds, fds[i].fd), ready(fds[i].fd)) != 0
          && fds[i].fd == fd;
        var k: nat :| OnlyAsker(fds, k) && fds[k].fd == fd;
        assert shared[k].revents != 0;
      }
    }
    assert RaisedFds(shared) == ReadyFds(fds, ready);
  }

  lemma AskersDiffer(fds: seq<PollFd>, i: nat, j: nat)
    requires i < j && OnlyAsker(fds, i) && OnlyAsker(fds, j)
    ensures fds[i].fd != fds[j].fd
  {
    AskerAsks(fds[j]);
  }

  lemma AskerAsks(e: PollFd)
    requires AsksForErrors(e)
    ensures Asks(e)
  {
  }

  lemma ShareOfAsker(fds: seq<PollFd>, i: nat, ready: Readiness)
    requires i < |fds| && (fds[i].fd > -1 ==> OneAsker(fds, fds[i].fd))
    ensures Masked(Alone(fds[i], ready), fds[i].events) != 0 <==>
              fds[i].fd > -1 && Report(Asked(fds, fds[i].fd), ready(fds[i].fd)) != 0 && OnlyAsker(fds, i)
  {
    hide Masked, Report, Asked, Asks, AsksForErrors;
    var fd := fds[i].fd;
    if fd <= -1 {
      ShareOfNone(fds[i], ready);
    } else {
      var k: nat :| OnlyAsker(fds, k) && fds[k].fd == fd;
      AskerAsks(fds[k]);
      if i == k {
        AskedByOne(fds, fd, k);
        AskerSeesAll(Asked(fds, fd), fds[k], ready(fd));
      } else {
        SilentSeesNothing(fds[i], ready(fd));
      }
    }
  }

  /** With only `fd` ready, and for a bit that epoll always reports, one fd is counted. */
  lemma NumberOfOnly(fds: seq<PollFd>, i: nat, bits: bv32)
    requires i < |fds| && fds[i].fd > -1 && (bits == EPOLLERR || bits == EPOLLHUP || bits == 0x15d)
    ensures Number(fds, Only(fds[i].fd, bits)) == 1
  {
    hide Count, Report, Asked;
    var fd := fds[i].fd;
    var ready := Only(fd, bits);
    CountIsReady(fds, ready);
    forall x ensures x in ReadyFds(fds, ready) <==> x == fd {
      ErrorsReported(Asked(fds, x));
      NothingReady(Asked(fds, x));
    }
    assert ReadyFds(fds, ready) == {fd};
  }

  /** With only `fd` ready for `bits`, and one entry that shows something: which. */
  lemma OnlyShare(fds: seq<PollFd>, fd: int, bits: bv32) returns (k: nat)
    requires fd > -1 && Count(Shared(fds, Only(fd, bits))) == 1
    ensures k < |fds| && fds[k].fd == fd && Masked(Report(fds[k].events, bits), fds[k].events) != 0
    ensures forall i :: 0 <= i < |fds| && fds[i].fd == fd && i != k ==>
            Masked(Report(fds[i].events, bits), fds[i].events) == 0
  {
    hide Count, Masked, Report;
    var shared := Shared(fds, Only(fd, bits));
    k := CountOfOne(shared);
    ShareOfOther(fds[k], fd, bits);
    forall i | 0 <= i < |fds| && fds[i].fd == fd && i != k
      ensures Masked(Report(fds[i].events, bits), fds[i].events) == 0
    {
      assert shared[i].revents == 0;
    }
  }

  lemma ShareOfOther(e: PollFd, fd: int, bits: bv32)
    ensures e.fd != fd || e.fd <= -1 ==> Masked(Alone(e, Only(fd, bits)), e.events) == 0
  {
    hide Masked, Report;
    if e.fd <= -1 {
      ShareOfNone(e, Only(fd, bits));
    } else {
      ShareOf(e);
    }
  }

  lemma MustHaveOneAsker(fds: seq<PollFd>, i: nat)
    requires i < |fds| && fds[i].fd > -1 && !DistinctFds(fds)
    requires forall ready: Readiness :: NumberIsCount(fds, ready)
    ensures OneAsker(fds, fds[i].fd)
  {
    hide Count, Masked, Report, Asks, Merge, Polled, Shared;
    var fd := fds[i].fd;
    NumberOfOnly(fds, i, EPOLLERR);
    NumberOfOnly(fds, i, EPOLLHUP);
    NumberOfOnly(fds, i, 0x15d);
    assert NumberIsCount(fds, Only(fd, EPOLLERR)) && NumberIsCount(fds, Only(fd, EPOLLHUP))
      && NumberIsCount(fds, Only(fd, 0x15d));
    var k := OnlyShare(fds, fd, 0x15d);
    var e := OnlyShare(fds, fd, EPOLLERR);
    var h := OnlyShare(fds, fd, EPOLLHUP);
    OneForAll(fds, fd, k, e, h);
  }

  lemma OneForAll(fds: seq<PollFd>, fd: int, k: nat, e: nat, h: nat)
    requires k < |fds| && e < |fds| && h < |fds| && fds[k].fd == fds[e].fd == fds[h].fd == fd
    requires forall i :: 0 <= i < |fds| && fds[i].fd == fd && i != k ==>
             Masked(Report(fds[i].events, 0x15d), fds[i].events) == 0
    requires Masked(Report(fds[e].events, EPOLLERR), fds[e].events) != 0
    requires Masked(Report(fds[h].events, EPOLLHUP), fds[h].events) != 0
    ensures OnlyAsker(fds, k)
  {
    hide Masked, Report;
    forall i | 0 <= i < |fds| && fds[i].fd == fd && i != k ensures !Asks(fds[i]) {
      ShareOf(fds[i]);
    }
    ShareOf(fds[e]);
    ShareOf(fds[h]);
    assert e == k && h == k;
  }

  /** The number that the hook returns is that of the entries with something in them,
      whatever is ready, exactly if no fd occurs twice, or all entries are clear before
      the call and each fd has one entry that asks for errors and hang-ups while its
      other entries ask for nothing. */
  lemma NumberIsCountExactlyIf(fds: seq<PollFd>)
    ensures (forall ready: Readiness :: NumberIsCount(fds, ready)) <==>
              || DistinctFds(fds)
              || (Count(fds) == 0 && forall i :: 0 <= i < |fds| && fds[i].fd > -1 ==> OneAsker(fds, fds[i].fd))
  {
    hide Count, Merge, Polled, Shared, OneAsker;
    if DistinctFds(fds) {
      MergeOfDistinct(fds);
    } else {
      if forall ready: Readiness :: NumberIsCount(fds, ready) {
        assert NumberIsCount(fds, Only(-1, 0));
        NoneReady(fds);
        forall i | 0 <= i < |fds| && fds[i].fd > -1 ensures OneAsker(fds, fds[i].fd) {
          MustHaveOneAsker(fds, i);
        }
      }
      if Count(fds) == 0 && forall i :: 0 <= i < |fds| && fds[i].fd > -1 ==> OneAsker(fds, fds[i].fd) {
        forall ready: Readiness ensures NumberIsCount(fds, ready) {
          CountIsReady(fds, ready);
          SharesAreReady(fds, ready);
        }
      }
    }
  }

  // ----- and when a positive number is explained

  lemma SomebodyAsks(a: bv16, b: bv16, ready: bv32)
    ensures Touches(ready, Both(a, b)) ==> Touches(ready, a) || Touches(ready, b)
    ensures !Touches(ready, 0)
  {
  }

  /** What is asked for `fd` is asked by some entry. */
  lemma {:induction false} AskedBySome(fds: seq<PollFd>, fd: int, ready: bv32) returns (i: nat)
    requires Touches(ready, Asked(fds, fd))
    ensures i < |fds| && fds[i].fd == fd && Touches(ready, fds[i].events)
  {
    hide Both, Touches;
    SomebodyAsks(0, 0, ready);
    assert fds != [];
    var t := fds[..|fds| - 1];
    var e := fds[|fds| - 1];
    SomebodyAsks(Asked(t, fd), e.events, ready);
    if e.fd == fd && Touches(ready, e.events) {
      i := |fds| - 1;
    } else {
      i := AskedBySome(t, fd, ready);
    }
  }

  lemma ErrorBits(a: bv16, ready: bv32)
    ensures ErrorBitsIn(a) && Report(a, ready) != 0 ==> Touches(ready, a)
    ensures Touches(EPOLLERR, a) ==> ErrIn(a)
    ensures Touches(EPOLLHUP, a) ==> HupIn(a)
    ensures !Touches(0, a)
  {
  }

  lemma BitsWithin(a: bv16, all: bv16)
    requires Within(a, all)
    ensures (ErrIn(a) ==> ErrIn(all)) && (HupIn(a) ==> HupIn(all))
  {
  }

  /** What is ready on one fd alone shows in an entry for it. */
  lemma SomeTouches(fds: seq<PollFd>, i: nat, bits: bv32) returns (e: nat)
    requires i < |fds| && fds[i].fd > -1 && !DistinctFds(fds) && (bits == EPOLLERR || bits == EPOLLHUP)
    requires PositiveShows(fds, Only(fds[i].fd, bits))
    ensures e < |fds| && fds[e].fd == fds[i].fd && Touches(bits, fds[e].events)
  {
    hide Count, Report, Asked, Merge, Polled, Shared, Touches;
    var fd := fds[i].fd;
    NumberOfOnly(fds, i, bits);
    SharesShow(fds, Only(fd, bits));
    e :| 0 <= e < |fds| && fds[e].fd > -1 && Touches(Only(fd, bits)(fds[e].fd), fds[e].events);
    ErrorBits(fds[e].events, 0);
  }

  /** An error on `fd` alone shows only if somebody asks for errors, and so for hang-ups. */
  lemma MustAskForErrors(fds: seq<PollFd>, i: nat)
    requires i < |fds| && fds[i].fd > -1 && !DistinctFds(fds)
    requires PositiveShows(fds, Only(fds[i].fd, EPOLLERR)) && PositiveShows(fds, Only(fds[i].fd, EPOLLHUP))
    ensures ErrorsAsked(fds, fds[i].fd)
  {
    hide Count, Report, Asked, Merge, Polled, Shared, Touches, Within, ErrIn, HupIn;
    var fd := fds[i].fd;
    var e := SomeTouches(fds, i, EPOLLERR);
    var h := SomeTouches(fds, i, EPOLLHUP);
    ErrorBits(fds[e].events, 0);
    ErrorBits(fds[h].events, 0);
    AskedIncludes(fds, e);
    AskedIncludes(fds, h);
    BitsWithin(fds[e].events, Asked(fds, fd));
    BitsWithin(fds[h].events, Asked(fds, fd));
  }

  lemma ErrorsShow(fds: seq<PollFd>, ready: Readiness)
    requires forall i :: 0 <= i < |fds| && fds[i].fd > -1 ==> ErrorsAsked(fds, fds[i].fd)
    requires Number(fds, ready) > 0
    ensures Count(Shared(fds, ready)) > 0
  {
    hide Count, Report, Asked, Touches, Shared, Number, ErrIn, HupIn;
    CountIsReady(fds, ready);
    assert Number(fds, ready) == |ReadyFds(fds, ready)| by { NumberIs(fds, ready); }
    var fd :| fd in ReadyFds(fds, ready);
    ErrorBits(Asked(fds, fd), ready(fd));
    var k := AskedBySome(fds, fd, ready(fd));
    SharesShow(fds, ready);
  }

  lemma NumberIs(fds: seq<PollFd>, ready: Readiness)
    ensures Number(fds, ready) == |ReadyFds(fds, ready)|
  {
    CountIsReady(fds, ready);
  }

  /** A positive number means that some entry has something in it, whatever is ready,
      exactly if no fd occurs twice, or for each fd errors and hang-ups are asked for. */
  lemma PositiveShowsExactlyIf(fds: seq<PollFd>)
    ensures (forall ready: Readiness :: PositiveShows(fds, ready)) <==>
              || DistinctFds(fds)
              || forall i :: 0 <= i < |fds| && fds[i].fd > -1 ==> ErrorsAsked(fds, fds[i].fd)
  {
    hide Count, Merge, Polled, Shared, ErrorsAsked;
    if DistinctFds(fds) {
      MergeOfDistinct(fds);
    } else {
      if forall ready: Readiness :: PositiveShows(fds, ready) {
        forall i | 0 <= i < |fds| && fds[i].fd > -1 ensures ErrorsAsked(fds, fds[i].fd) {
          MustAskForErrors(fds, i);
        }
      }
      if forall i :: 0 <= i < |fds| && fds[i].fd > -1 ==> ErrorsAsked(fds, fds[i].fd) {
        forall ready: Readiness ensures PositiveShows(fds, ready) {
          if Number(fds, ready) > 0 {
            ErrorsShow(fds, ready);
          }
        }
      }
    }
  }

  lemma NoneReady(fds: seq<PollFd>)
    ensures Number(fds, Only(-1, 0)) == 0
  {
    hide Count, Report, Asked;
    var ready := Only(-1, 0);
    CountIsReady(fds, ready);
    forall x ensures x !in ReadyFds(fds, ready) {
      NothingReady(Asked(fds, x));
    }
    assert ReadyFds(fds, ready) == {};
  }

  /** Two entries for an fd that hangs up: the hook returns 1, and no entry says why. */
  lemma PositiveYetNothing()
    ensures var fds := [PollFd(3, POLLIN, 0), PollFd(3, POLLOUT, 0)]; var ready: Readiness := _ => EPOLLHUP;
            Count(Polled(Merge(fds), ready)) == 1 && Count(Shared(fds, ready)) == 0
  {
    var fds := [PollFd(3, POLLIN, 0), PollFd(3, POLLOUT, 0)];
    var ready: Readiness := _ => EPOLLHUP;
    SharesShow(fds, ready);
    var e := Merge(fds);
    MergeIsMerge(fds);
    assert fds[..1] == [fds[0]] && fds[..1][..0] == [];
    assert Merge([fds[0]]) == [fds[0]];
    assert e == [PollFd(3, POLLIN | POLLOUT, 0)];
    var p := Polled(e, ready);
    assert p[..0] == [] && p[0].revents == POLLHUP;
  }
}
