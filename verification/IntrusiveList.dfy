/** The intrusive doubly linked lists of co_routine.cc: nodes carry their own
    neighbours and a back pointer `pLink` that names the list they are on.  The
    C++ templates are instantiated for timers and for condition waiters; here
    the payload is a type parameter.

    Each list keeps the ghost sequence `items` of its nodes.  `WellFormed` says
    what any number of lists over one universe of nodes agree on. */
module IntrusiveList {
  import opened Sequences

  class Node<T> {
    var pPrev: Node?<T>
    var pNext: Node?<T>
    var pLink: Link?<T>
    var data: T

    constructor (data: T)
      ensures pPrev == null && pNext == null && pLink == null
      ensures this.data == data
    {
      pPrev, pNext, pLink := null, null, null;
      this.data := data;
    }
  }

  class Link<T> {
    var head: Node?<T>
    var tail: Node?<T>
    ghost var items: seq<Node<T>>

    constructor ()
      ensures Valid() && items == []
    {
      head, tail := null, null;
      items := [];
    }

    /** `head`, `tail` and the three pointers of every node spell out `items`. */
    ghost predicate Valid()
      reads this, items
    {
      && Distinct(items)
      && (items == [] ==> head == null && tail == null)
      && (items != [] ==> head == items[0] && tail == items[|items| - 1])
      && (forall i :: 0 <= i < |items| ==> items[i].pLink == this)
      && (forall i {:trigger items[i].pPrev} :: 0 <= i < |items| ==>
            items[i].pPrev == (if i == 0 then null else items[i - 1]))
      && (forall i {:trigger items[i].pNext} :: 0 <= i < |items| ==>
            items[i].pNext == (if i + 1 == |items| then null else items[i + 1]))
    }
  }

  /** `links` is a family of lists over the nodes in `nodes`: a node is on the
      list its `pLink` names and on no other, and is cleared if on none. */
  ghost predicate WellFormed<T>(links: set<Link<T>>, nodes: set<Node<T>>)
    reads links, nodes
  {
    && (forall l :: l in links ==> (forall n :: n in l.items ==> n in nodes) && l.Valid())
    && (forall n :: n in nodes ==>
          if n.pLink == null then n.pPrev == null && n.pNext == null
          else n.pLink in links && n in n.pLink.items)
  }

  // The four template functions come in two layers.  The methods `Unlink`,
  // `Append`, `DropHead` and `Splice` do the pointer surgery on the lists they
  // touch; the methods with the source's names add what happens to the family.

  method Cut<T>(lst: Link<T>, ap: Node<T>, ghost k: nat)
    requires lst.Valid() && k < |lst.items| && lst.items[k] == ap
    modifies lst, lst.items`pPrev, lst.items`pNext, lst.items`pLink
    ensures lst.Valid() && lst.items == old(lst.items)[..k] + old(lst.items)[k + 1..]
    ensures ap.pLink == null && ap.pPrev == null && ap.pNext == null
  {
    ghost var s := lst.items;
    SkipFromLeft(lst, ap, s, k);
    SkipFromRight(lst, ap, s, k);
    ap.pPrev, ap.pNext := null, null;
    ap.pLink := null;
    lst.items := s[..k] + s[k + 1..];
    Bridged(lst, s, k);
  }

  /** What RemoveFromLink does to the left neighbour of `ap`, or to `head`. */
  method SkipFromLeft<T>(lst: Link<T>, ap: Node<T>, ghost s: seq<Node<T>>, ghost k: nat)
    requires lst.Valid() && s == lst.items && k < |s| && s[k] == ap
    modifies lst`head, lst.items`pPrev, lst.items`pNext
    ensures lst.head == if k > 0 then s[0] else if |s| == 1 then null else s[1]
    ensures forall i {:trigger s[i].pPrev} :: 0 <= i < |s| ==>
              s[i].pPrev == if i == 0 || (i == 1 && k == 0) then null else s[i - 1]
    ensures forall i {:trigger s[i].pNext} :: 0 <= i < |s| ==>
              s[i].pNext == if i + 1 == |s| || (i + 1 == k == |s| - 1) then null
                            else if i + 1 == k then s[i + 2] else s[i + 1]
  {
    if ap == lst.head {
      lst.head := ap.pNext;
      if lst.head != null {
        lst.head.pPrev := null;
      }
    } else {
      if ap.pPrev != null {
        ap.pPrev.pNext := ap.pNext;
      }
    }
  }

  /** What RemoveFromLink then does to the right neighbour of `ap`, or to `tail`. */
  method SkipFromRight<T>(lst: Link<T>, ap: Node<T>, ghost s: seq<Node<T>>, ghost k: nat)
    requires k < |s| && s[k] == ap && lst.tail == s[|s| - 1] && Distinct(s)
    requires ap.pPrev == if k == 0 then null else s[k - 1]
    requires ap.pNext == if k + 1 == |s| then null else s[k + 1]
    modifies lst`tail, s`pPrev, s`pNext
    ensures lst.tail == if k + 1 < |s| then s[|s| - 1] else if k == 0 then null else s[k - 1]
    ensures forall i {:trigger s[i].pPrev} :: 0 <= i < |s| ==>
              s[i].pPrev == if i == k + 1 then (if k == 0 then null else s[k - 1]) else old(s[i].pPrev)
    ensures forall i {:trigger s[i].pNext} :: 0 <= i < |s| ==>
              s[i].pNext == if i + 1 == k == |s| - 1 then null else old(s[i].pNext)
  {
    if ap == lst.tail {
      lst.tail := ap.pPrev;
      if ap.pPrev != null {
        ap.pPrev.pNext := null;
      }
    } else {
      ap.pNext.pPrev := ap.pPrev;
    }
  }

  /** A list whose neighbour pointers step over `s[k]` is the list without it. */
  lemma Bridged<T>(lst: Link<T>, s: seq<Node<T>>, k: nat)
    requires Distinct(s) && k < |s| && lst.items == s[..k] + s[k + 1..]
    requires lst.head == if k > 0 then s[0] else if |s| == 1 then null else s[1]
    requires lst.tail == if k + 1 < |s| then s[|s| - 1] else if k == 0 then null else s[k - 1]
    requires forall i :: 0 <= i < |s| && i != k ==> s[i].pLink == lst
    requires forall i {:trigger s[i].pPrev} :: 0 <= i < |s| && i != k ==>
               s[i].pPrev == if i == k + 1 then (if k == 0 then null else s[k - 1]) else if i == 0 then null
                 else s[i - 1]
    requires forall i {:trigger s[i].pNext} :: 0 <= i < |s| && i != k ==>
               s[i].pNext == if i + 1 == |s| || (i + 1 == k == |s| - 1) then null
                             else if i + 1 == k then s[i + 2] else s[i + 1]
    ensures lst.Valid()
  {
    var t := lst.items;
    forall i | 0 <= i < |t|
      ensures t[i] == s[if i < k then i else i + 1]
    {
    }
  }

  method Unlink<T>(lst: Link<T>, ap: Node<T>)
    requires lst.Valid() && ap in lst.items
    modifies lst, lst.items`pPrev, lst.items`pNext, lst.items`pLink
    ensures lst.Valid() && lst.items == Without(old(lst.items), ap)
    ensures forall n :: n in old(lst.items) && n != ap ==> n in lst.items
    ensures forall n :: n in lst.items ==> n in old(lst.items) && n != ap && n.pLink == lst
    ensures ap.pLink == null && ap.pPrev == null && ap.pNext == null
  {
    ghost var k :| 0 <= k < |lst.items| && lst.items[k] == ap;
    ghost var s := lst.items;
    Cut(lst, ap, k);
    CutMembers(s, k);
  }

  /** Every node of a list points back to it, so two lists share no node. */
  lemma Owned<T>(links: set<Link<T>>, nodes: set<Node<T>>)
    requires WellFormed(links, nodes)
    ensures forall l, i :: l in links && 0 <= i < |l.items| ==> l.items[i].pLink == l
    ensures forall l, n :: l in links && n in l.items ==> n.pLink == l
  {
    forall l, i | l in links && 0 <= i < |l.items| ensures l.items[i].pLink == l {
      assert l.Valid();
    }
  }

  /** The nodes on the same list as `ap`, itself included. */
  ghost function Siblings<T>(ap: Node<T>): seq<Node<T>>
    reads ap, ap.pLink
  {
    if ap.pLink == null then [] else ap.pLink.items
  }

  /** RemoveFromLink: take `ap` off the list it is on, if any. */
  method RemoveFromLink<T>(ap: Node<T>, ghost links: set<Link<T>>, ghost nodes: set<Node<T>>)
    requires WellFormed(links, nodes) && ap in nodes
    modifies ap.pLink, Siblings(ap)`pPrev, Siblings(ap)`pNext, Siblings(ap)`pLink
    ensures WellFormed(links, nodes)
    ensures ap.pLink == null && ap.pPrev == null && ap.pNext == null
    ensures forall l :: l in links ==>
              l.items == if l == old(ap.pLink) then Without(old(l.items), ap) else old(l.items)
    ensures forall n :: n in nodes && n != ap ==> n.pLink == old(n.pLink)
  {
    if ap.pLink == null {
      return;
    }
    Owned(links, nodes);
    Unlink(ap.pLink, ap);
  }

  method Append<T>(apLink: Link<T>, ap: Node<T>)
    requires apLink.Valid() && ap.pLink == null && ap !in apLink.items
    modifies apLink, ap`pPrev, ap`pNext, ap`pLink, apLink.items`pNext
    ensures apLink.Valid() && apLink.items == old(apLink.items) + [ap]
    ensures forall n :: n in apLink.items ==> n.pLink == apLink
  {
    if apLink.tail != null {
      apLink.tail.pNext := ap;
      ap.pPrev := apLink.tail;
      ap.pNext := null;
      apLink.tail := ap;
    } else {
      apLink.tail := ap;
      apLink.head := ap;
      ap.pPrev := null;
      ap.pNext := null;
    }
    ap.pLink := apLink;
    apLink.items := apLink.items + [ap];
  }

  /** AddTail: append `ap`, unless it is already on some list. */
  method AddTail<T>(apLink: Link<T>, ap: Node<T>, ghost links: set<Link<T>>, ghost nodes: set<Node<T>>)
    requires WellFormed(links, nodes) && ap in nodes && apLink in links
    modifies apLink, ap`pPrev, ap`pNext, ap`pLink, apLink.items`pNext
    ensures WellFormed(links, nodes)
    ensures old(ap.pLink) == null ==> apLink.items == old(apLink.items) + [ap] && ap.pLink == apLink
    ensures old(ap.pLink) != null ==> apLink.items == old(apLink.items) && ap.pLink == old(ap.pLink)
    ensures forall l :: l in links && l != apLink ==> l.items == old(l.items)
    ensures forall n :: n in nodes && n != ap ==> n.pLink == old(n.pLink)
  {
    if ap.pLink != null {
      return;
    }
    Owned(links, nodes);
    Append(apLink, ap);
  }

  method DropHead<T>(apLink: Link<T>)
    requires apLink.Valid() && apLink.items != []
    modifies apLink, apLink.items`pPrev, apLink.items`pNext, apLink.items`pLink
    ensures apLink.Valid() && apLink.items == old(apLink.items)[1..]
    ensures forall n :: n in apLink.items ==> n.pLink == apLink
    ensures var ap := old(apLink.items)[0]; ap.pPrev == null && ap.pNext == null && ap.pLink == null
  {
    var ap := apLink.head;
    if apLink.head == apLink.tail {
      apLink.head, apLink.tail := null, null;
    } else {
      apLink.head := ap.pNext;
    }
    ap.pPrev, ap.pNext := null, null;
    ap.pLink := null;
    if apLink.head != null {
      apLink.head.pPrev := null;
    }
    apLink.items := apLink.items[1..];
  }

  /** PopHead: drop the first node, if there is one. */
  method PopHead<T>(apLink: Link<T>, ghost links: set<Link<T>>, ghost nodes: set<Node<T>>)
    requires WellFormed(links, nodes) && apLink in links
    modifies apLink, apLink.items`pPrev, apLink.items`pNext, apLink.items`pLink
    ensures WellFormed(links, nodes)
    ensures apLink.items == if old(apLink.items) == [] then [] else old(apLink.items)[1..]
    ensures old(apLink.items) != [] ==> old(apLink.items)[0].pLink == null
    ensures forall l :: l in links && l != apLink ==> l.items == old(l.items)
    ensures forall n :: n in nodes && n != old(apLink.head) ==> n.pLink == old(n.pLink)
  {
    if apLink.head == null {
      return;
    }
    Owned(links, nodes);
    DropHead(apLink);
  }

  /** The loop of Join: make every node of `apOther` name `apLink`. */
  method Relabel<T>(apLink: Link<T>, apOther: Link<T>)
    requires apOther.Valid()
    modifies apOther.items`pLink
    ensures forall n :: n in apOther.items ==> n.pLink == apLink
  {
    ghost var s := apOther.items;
    var ap := apOther.head;
    ghost var i := 0;
    while ap != null
      invariant 0 <= i <= |s| && (ap == null <==> i == |s|) && (i < |s| ==> ap == s[i])
      invariant forall j {:trigger s[j].pNext} :: 0 <= j < |s| ==> s[j].pNext == old(s[j].pNext)
      invariant forall j :: 0 <= j < i ==> s[j].pLink == apLink
      decreases |s| - i
    {
      ap.pLink := apLink;
      ap := ap.pNext;
      i := i + 1;
    }
  }

  method Splice<T>(apLink: Link<T>, apOther: Link<T>)
    requires apLink.Valid() && apOther.Valid() && apLink != apOther && apOther.items != []
    modifies apLink, apOther, apLink.items`pNext, apOther.items`pPrev, apOther.items`pLink
    ensures apLink.Valid() && apLink.items == old(apLink.items + apOther.items)
    ensures forall n :: n in apLink.items ==> n.pLink == apLink
    ensures apOther.Valid() && apOther.items == []
  {
    ghost var s := apOther.items;
    ghost var t := apLink.items;
    assert forall i, j :: 0 <= i < |t| && 0 <= j < |s| ==> t[i].pLink != s[j].pLink;
    Relabel(apLink, apOther);
    Hook(apLink, apOther, t, s);
    apLink.items := t + s;
    apOther.items := [];
    Concatenated(apLink, t, s);
  }

  /** The end of Join: hook the first node of `apOther` to the last of `apLink`. */
  method Hook<T>(apLink: Link<T>, apOther: Link<T>, ghost t: seq<Node<T>>, ghost s: seq<Node<T>>)
    requires apLink != apOther && s != [] && apOther.head == s[0]
    requires apLink.tail == (if t == [] then null else t[|t| - 1])
    modifies apLink`head, apLink`tail, apOther`head, apOther`tail, t`pNext, s`pPrev
    ensures apLink.head == (if t == [] then old(apOther.head) else old(apLink.head))
    ensures apLink.tail == old(apOther.tail) && apOther.head == apOther.tail == null
    ensures forall i {:trigger t[i].pNext} :: 0 <= i < |t| && t[i] != t[|t| - 1] ==> t[i].pNext == old(t[i].pNext)
    ensures t != [] ==> t[|t| - 1].pNext == s[0] && s[0].pPrev == t[|t| - 1]
    ensures forall i {:trigger s[i].pPrev} :: 0 <= i < |s| && (s[i] != s[0] || t == []) ==>
            s[i].pPrev == old(s[i].pPrev)
  {
    var ap := apOther.head;
    if apLink.tail != null {
      apLink.tail.pNext := ap;
      ap.pPrev := apLink.tail;
      apLink.tail := apOther.tail;
    } else {
      apLink.tail := apOther.tail;
      apLink.head := apOther.head;
    }
    apOther.head, apOther.tail := null, null;
  }

  /** Two chains hooked up end to start are one list. */
  lemma Concatenated<T>(lst: Link<T>, t: seq<Node<T>>, s: seq<Node<T>>)
    requires s != [] && lst.items == t + s && Distinct(t) && Distinct(s)
    requires forall i, j :: 0 <= i < |t| && 0 <= j < |s| ==> t[i] != s[j]
    requires lst.head == (if t == [] then s[0] else t[0]) && lst.tail == s[|s| - 1]
    requires forall n :: n in t || n in s ==> n.pLink == lst
    requires forall i {:trigger t[i].pPrev} :: 0 <= i < |t| ==> t[i].pPrev == if i == 0 then null else t[i - 1]
    requires forall i {:trigger t[i].pNext} :: 0 <= i < |t| ==> t[i].pNext == if i + 1 == |t| then s[0] else t[i + 1]
    requires forall i {:trigger s[i].pPrev} :: 0 <= i < |s| ==>
               s[i].pPrev == if i > 0 then s[i - 1] else if t == [] then null else t[|t| - 1]
    requires forall i {:trigger s[i].pNext} :: 0 <= i < |s| ==> s[i].pNext == if i + 1 == |s| then null else s[i + 1]
    ensures lst.Valid()
  {
    forall i | 0 <= i < |lst.items|
      ensures lst.items[i] == if i < |t| then t[i] else s[i - |t|]
    {
    }
  }

  /** Join: move all of `apOther` to the end of `apLink`. */
  method Join<T>(apLink: Link<T>, apOther: Link<T>, ghost links: set<Link<T>>, ghost nodes: set<Node<T>>)
    requires WellFormed(links, nodes) && apLink in links && apOther in links && apLink != apOther
    modifies apLink, apOther, apLink.items`pNext, apOther.items`pPrev, apOther.items`pLink
    ensures WellFormed(links, nodes)
    ensures apLink.items == old(apLink.items) + old(apOther.items)
    ensures apOther.items == []
    ensures forall l :: l in links && l != apLink && l != apOther ==> l.items == old(l.items)
    ensures forall n :: n in nodes && n !in old(apOther.items) ==> n.pLink == old(n.pLink)
  {
    if apOther.head == null {
      return;
    }
    Owned(links, nodes);
    Splice(apLink, apOther);
  }
}
