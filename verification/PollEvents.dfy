/** The two event-mask translations of co_routine.cc.  The constants are those of
    Linux, where poll and epoll agree on the six bits the code knows. */
module PollEvents {

  const POLLIN: bv16 := 0x001
  const POLLOUT: bv16 := 0x004
  const POLLERR: bv16 := 0x008
  const POLLHUP: bv16 := 0x010
  const POLLRDNORM: bv16 := 0x040
  const POLLWRNORM: bv16 := 0x100

  const EPOLLIN: bv32 := 0x001
  const EPOLLOUT: bv32 := 0x004
  const EPOLLERR: bv32 := 0x008
  const EPOLLHUP: bv32 := 0x010
  const EPOLLRDNORM: bv32 := 0x040
  const EPOLLWRNORM: bv32 := 0x100

  function PollEvent2Epoll(events: bv16): bv32 {
    (if events & POLLIN != 0 then EPOLLIN else 0)
    | (if events & POLLOUT != 0 then EPOLLOUT else 0)
    | (if events & POLLHUP != 0 then EPOLLHUP else 0)
    | (if events & POLLERR != 0 then EPOLLERR else 0)
    | (if events & POLLRDNORM != 0 then EPOLLRDNORM else 0)
    | (if events & POLLWRNORM != 0 then EPOLLWRNORM else 0)
  }

  function EpollEvent2Poll(events: bv32): bv16 {
    (if events & EPOLLIN != 0 then POLLIN else 0)
    | (if events & EPOLLOUT != 0 then POLLOUT else 0)
    | (if events & EPOLLHUP != 0 then POLLHUP else 0)
    | (if events & EPOLLERR != 0 then POLLERR else 0)
    | (if events & EPOLLRDNORM != 0 then POLLRDNORM else 0)
    | (if events & EPOLLWRNORM != 0 then POLLWRNORM else 0)
  }

  /** The bits that survive a trip to epoll and back are exactly the six known ones,
      and a report is visible to the caller iff it carries one of them. */
  lemma RoundTrip(events: bv16, report: bv32)
    ensures EpollEvent2Poll(PollEvent2Epoll(events)) == events & 0x15d
    ensures EpollEvent2Poll(report) != 0 <==> report & 0x15d != 0
  {
  }

  /** Each known bit is translated to its namesake, and no other bit is set. */
  lemma SameBits(events: bv16, report: bv32)
    ensures var e := PollEvent2Epoll(events);
            && (e & EPOLLIN != 0 <==> events & POLLIN != 0) && (e & EPOLLOUT != 0 <==> events & POLLOUT != 0)
            && (e & EPOLLERR != 0 <==> events & POLLERR != 0) && (e & EPOLLHUP != 0 <==> events & POLLHUP != 0)
            && (e & EPOLLRDNORM != 0 <==> events & POLLRDNORM != 0)
            && (e & EPOLLWRNORM != 0 <==> events & POLLWRNORM != 0)
            && e & 0x15d == e
    ensures var p := EpollEvent2Poll(report);
            && (p & POLLIN != 0 <==> report & EPOLLIN != 0) && (p & POLLOUT != 0 <==> report & EPOLLOUT != 0)
            && (p & POLLERR != 0 <==> report & EPOLLERR != 0) && (p & POLLHUP != 0 <==> report & EPOLLHUP != 0)
            && (p & POLLRDNORM != 0 <==> report & EPOLLRDNORM != 0)
            && (p & POLLWRNORM != 0 <==> report & EPOLLWRNORM != 0)
            && p & 0x15d == p
  {
  }
}
