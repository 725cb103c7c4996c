/** The intrusive circular lists of headers/listx.h on the heap, and the process queues of
    phase1/pcb.c that are built from them. */
module Rings {
  import opened Queues

  /** A struct list_head; `prio` is the p_prio of the PCB it is embedded in. */
  class Link {
    var next: Link
    var prev: Link
    var prio: int

    constructor (prio: int)
      ensures Ring(this, []) && this.prio == prio
    {
      next, prev := this, this;
      this.prio := prio;
    }
  }

  /** Position `i` on the way round: the head, the members of `s`, the head again. */
  ghost function Node(head: Link, s: seq<Link>, i: nat): Link
    requires i <= |s| + 1
  {
    if i == 0 || i == |s| + 1 then head else s[i - 1]
  }

  /** The ring starting at `head` links exactly `s`: next and prev are mutually inverse along it. */
  ghost predicate Ring(head: Link, s: seq<Link>)
    reads head, s
  {
    && head !in s
    && (forall i, j :: 0 <= i < j < |s| ==> s[i] != s[j])
    && (forall i: nat {:trigger Node(head, s, i).next} :: i <= |s| ==> Node(head, s, i).next == Node(head, s, i + 1))
    && (forall i: nat {:trigger Node(head, s, i).prev} :: 1 <= i <= |s| + 1 ==> Node(head, s, i).prev == Node(head, s, i - 1))
  }

  ghost function Prios(s: seq<Link>): seq<int>
    reads s
  {
    seq(|s|, i requires 0 <= i < |s| reads s => s[i].prio)
  }

  /** `s` without its member at index `i`. */
  function Cut<T>(s: seq<T>, i: nat): (r: seq<T>)
    requires i < |s|
    ensures |r| == |s| - 1
  {
    s[..i] + s[i + 1..]
  }

  lemma CutFirst(s: seq<Link>)
    requires s != []
    ensures Cut(s, 0) == s[1..]
  {
  }

  method ListEmpty(head: Link, ghost s: seq<Link>) returns (empty: bool)
    requires Ring(head, s)
    ensures empty <==> s == []
  {
    empty := head.next == head;
    assert head.next == Node(head, s, 1) by { assert Node(head, s, 0) == head; }
  }

  method ListNext(head: Link, ghost s: seq<Link>) returns (first: Link?)
    requires Ring(head, s)
    ensures first == if s == [] then null else s[0]
  {
    var empty := ListEmpty(head, s);
    assert head.next == Node(head, s, 1) by { assert Node(head, s, 0) == head; }
    first := if empty then null else head.next;
  }

  /** __list_add between the neighbours at positions i and i + 1. */
  method ListInsert(node: Link, prev: Link, next: Link, ghost head: Link, ghost s: seq<Link>, ghost i: nat)
    requires Ring(head, s) && i <= |s| && prev == Node(head, s, i) && next == Node(head, s, i + 1)
    requires node != head && node !in s
    modifies node`next, node`prev, prev`next, next`prev
    ensures Ring(head, InsertAt(s, i, node))
  {
    next.prev := node;
    node.next := next;
    node.prev := prev;
    prev.next := node;
    ghost var r := InsertAt(s, i, node);
    assert r[i] == node;
    assert forall j :: 0 <= j < i ==> r[j] == s[j];
    assert forall j :: i < j < |r| ==> r[j] == s[j - 1];
    forall j: nat | j <= |r|
      ensures Node(head, r, j).next == Node(head, r, j + 1) && Node(head, r, j + 1).prev == Node(head, r, j)
    {
      assert j <= i ==> Node(head, r, j) == Node(head, s, j);
      assert j > i + 1 ==> Node(head, r, j) == Node(head, s, j - 1);
      assert old(Node(head, s, if j <= i then j else j - 1).next) == Node(head, s, if j <= i then j + 1 else j);
    }
  }

  /** list_add after the node at position i. */
  method ListAdd(node: Link, at: Link, ghost head: Link, ghost s: seq<Link>, ghost i: nat)
    requires Ring(head, s) && i <= |s| && at == Node(head, s, i) && node != head && node !in s
    modifies {node, head} + (set x | x in s)
    ensures Ring(head, InsertAt(s, i, node))
    ensures forall x :: x in s || x == node || x == head ==> x.prio == old(x.prio)
  {
    assert at.next == Node(head, s, i + 1);
    ListInsert(node, at, at.next, head, s, i);
  }

  method ListAddTail(node: Link, head: Link, ghost s: seq<Link>)
    requires Ring(head, s) && node != head && node !in s
    modifies {node, head} + (set x | x in s)
    ensures Ring(head, s + [node])
  {
    assert Node(head, s, |s| + 1) == head;
    assert Node(head, s, |s|).next == head;
    ListInsert(node, head.prev, head, head, s, |s|);
    assert InsertAt(s, |s|, node) == s + [node];
  }

  /** list_del of the member at index i: it leaves its ring and forms one of its own. */
  method ListDel(entry: Link, ghost head: Link, ghost s: seq<Link>, ghost i: nat)
    requires Ring(head, s) && i < |s| && s[i] == entry
    modifies {head} + (set x | x in s)
    ensures Ring(head, Cut(s, i))
    ensures Ring(entry, [])
    ensures forall x :: x in s || x == head ==> x.prio == old(x.prio)
  {
    assert entry == Node(head, s, i + 1);
    assert Node(head, s, i).next == entry && entry.prev == Node(head, s, i);
    assert Node(head, s, i + 2).prev == entry && entry.next == Node(head, s, i + 2);
    entry.next.prev := entry.prev;
    entry.prev.next := entry.next;
    entry.next := entry;
    entry.prev := entry;
    ghost var r := Cut(s, i);
    assert forall j :: 0 <= j < i ==> r[j] == s[j];
    assert forall j :: i <= j < |r| ==> r[j] == s[j + 1];
    forall j: nat | j <= |r|
      ensures Node(head, r, j).next == Node(head, r, j + 1) && Node(head, r, j + 1).prev == Node(head, r, j)
    {
      assert Node(head, r, j) == Node(head, s, if j <= i then j else j + 1);
      assert Node(head, r, j + 1) == Node(head, s, if j + 1 <= i then j + 1 else j + 2);
      assert old(Node(head, s, j).next) == Node(head, s, j + 1);
      assert old(Node(head, s, j + 1).next) == Node(head, s, j + 2);
      assert old(Node(head, s, j + 1).prev) == Node(head, s, j);
      assert old(Node(head, s, j + 2).prev) == Node(head, s, j + 1);
    }
  }

  // ---------------------------------------------------------------- process queues

  /** insertProcQ refines stable insertion by descending priority. */
  method InsertProcQ(head: Link, p: Link, ghost s: seq<Link>)
    requires Ring(head, s) && p != head && p !in s
    modifies {p, head} + (set x | x in s)
    ensures Ring(head, InsertAt(s, Slot(old(Prios(s)), old(p.prio)), p))
  {
    var pPrio := p.prio;
    ghost var i: nat := 0;
    assert Node(head, s, 0) == head;
    var curr := head.next;
    while curr != head
      invariant i <= |s| && curr == Node(head, s, i + 1)
      invariant forall j :: 0 <= j < i ==> s[j].prio >= pPrio
      decreases |s| - i
    {
      var currPrio := curr.prio;
      if currPrio < pPrio {
        break;
      }
      curr := curr.next;
      i := i + 1;
    }
    assert curr.prev == Node(head, s, i);
    ghost var ps := Prios(s);
    assert i == Slot(ps, pPrio) by {
      assert forall j :: 0 <= j < i ==> ps[j] >= pPrio;
      assert i < |s| ==> ps[i] < pPrio;
    }
    ListAdd(p, curr.prev, head, s, i);
  }

  method RemoveProcQ(head: Link, ghost s: seq<Link>) returns (p: Link?)
    requires Ring(head, s)
    modifies {head} + (set x | x in s)
    ensures s == [] ==> p == null && Ring(head, s)
    ensures s != [] ==> p == s[0] && Ring(head, s[1..]) && Ring(s[0], [])
    ensures forall x :: x in s || x == head ==> x.prio == old(x.prio)
  {
    p := ListNext(head, s);
    if p == null {
      return;
    }
    ListDel(p, head, s, 0);
    CutFirst(s);
  }

  /** outProcQ unlinks p wherever it is, and only if it is there. */
  method OutProcQ(head: Link, p: Link, ghost s: seq<Link>) returns (r: Link?)
    requires Ring(head, s) && p != head
    modifies {head} + (set x | x in s)
    ensures r == if p in s then p else null
    ensures p !in s ==> Ring(head, s)
    ensures forall i :: 0 <= i < |s| && s[i] == p ==> Ring(head, Cut(s, i)) && Ring(p, [])
  {
    ghost var i: nat := 0;
    assert Node(head, s, 0) == head;
    var curr := head.next;
    while curr != head
      invariant i <= |s| && curr == Node(head, s, i + 1)
      invariant forall j :: 0 <= j < i ==> s[j] != p
      decreases |s| - i
    {
      if p == curr {
        ListDel(curr, head, s, i);
        return p;
      }
      curr := curr.next;
      i := i + 1;
    }
    return null;
  }

  /** removeProcQ on one ring and insertProcQ on another, as a V does: each refines its own
      queue and neither disturbs the other. */
  method MoveHead(from: Link, to: Link, ghost s: seq<Link>, ghost t: seq<Link>)
    requires Ring(from, s) && Ring(to, t) && s != [] && from != to
    requires from !in t && to !in s && forall x :: x in s ==> x !in t
    modifies {from, to} + (set x | x in s) + (set x | x in t)
    ensures Ring(from, s[1..])
    ensures Ring(to, InsertAt(t, Slot(old(Prios(t)), old(s[0].prio)), s[0]))
  {
    var p := RemoveProcQ(from, s);
    assert p in s;
    assert forall x :: x in s[1..] ==> x in s;
    assert Prios(t) == old(Prios(t));
    InsertProcQ(to, p, t);
  }

  /** freePcb puts the PCB in front of the free list. */
  method FreePcb(p: Link, freeHead: Link, ghost f: seq<Link>)
    requires Ring(freeHead, f) && p != freeHead && p !in f
    modifies {p, freeHead} + (set x | x in f)
    ensures Ring(freeHead, [p] + f)
  {
    ListAdd(p, freeHead, freeHead, f, 0);
    assert InsertAt(f, 0, p) == [p] + f;
  }

  // ---------------------------------------------------------------- a PCB freed while queued

  /** A ring is determined by its next pointers, up to any member. */
  lemma {:induction false} RingPrefix(head: Link, s: seq<Link>, t: seq<Link>, i: nat)
    requires Ring(head, t) && head !in s && i < |s|
    requires forall j: nat :: j <= i ==> Node(head, s, j).next == s[j]
    ensures i < |t| && t[i] == s[i]
  {
    if i == 0 {
      assert Node(head, t, 0).next == Node(head, t, 1);
      assert Node(head, s, 0).next == s[0];
    } else {
      RingPrefix(head, s, t, i - 1);
      assert Node(head, t, i).next == Node(head, t, i + 1);
      assert Node(head, s, i).next == s[i];
      assert Node(head, t, i) == Node(head, s, i);
    }
  }

  /** No ring has these next pointers if some member's prev disagrees. */
  lemma NoRing(head: Link, s: seq<Link>, t: seq<Link>, i: nat)
    requires head !in s && i < |s| && s[i].prev != Node(head, s, i)
    requires forall j: nat :: j <= i ==> Node(head, s, j).next == s[j]
    ensures !Ring(head, t)
  {
    if Ring(head, t) {
      RingPrefix(head, s, t, i);
      assert Node(head, t, i + 1).prev == Node(head, t, i);
      if i > 0 {
        RingPrefix(head, s, t, i - 1);
      }
    }
  }

  /** Where `n` next pointers lead from `x`. */
  ghost function Walk(x: Link, n: nat): Link
    reads *
  {
    if n == 0 then x else Walk(x, n - 1).next
  }

  lemma {:induction false} WalkStays(x: Link, c: set<Link>, n: nat)
    requires x.next in c && forall y :: y in c ==> y.next in c
    ensures n > 0 ==> Walk(x, n) in c
  {
    if n > 1 {
      WalkStays(x, c, n - 1);
    }
  }

  /** What a walk along the queue meets once its member at index `i` is in the free list: the members
      up to that one, then the free list and its head, over and over. */
  ghost function Trail(s: seq<Link>, i: nat, freeHead: Link, f: seq<Link>): set<Link>
    requires i < |s|
  {
    Nodes(s[..i + 1]) + {freeHead} + Nodes(f)
  }

  ghost function Nodes(s: seq<Link>): set<Link> { set x | x in s }

  lemma TrailClosed(p: Link, freeHead: Link, head: Link, f: seq<Link>, s: seq<Link>, i: nat)
    requires Ring(freeHead, [p] + f) && i < |s| && s[i] == p
    requires forall j: nat :: j <= i ==> Node(head, s, j).next == s[j]
    ensures head.next in Trail(s, i, freeHead, f)
    ensures forall y :: y in Trail(s, i, freeHead, f) ==> y.next in Trail(s, i, freeHead, f)
  {
    var c, r := Trail(s, i, freeHead, f), [p] + f;
    assert p in s[..i + 1] by { assert s[..i + 1][i] == p; }
    assert Node(head, s, 0).next == s[0] && s[..i + 1][0] == s[0];
    forall j: nat | j <= |r|
      ensures Node(freeHead, r, j) in c
    {
    }
    forall y | y in c
      ensures y.next in c
    {
      if y in s[..i] {
        var j: nat :| j < i && s[j] == y;
        assert Node(head, s, j + 1) == y;
        assert s[..i + 1][j + 1] == s[j + 1];
      } else {
        RingIndex(freeHead, r, y);
        var j: nat :| j <= |r| && Node(freeHead, r, j) == y;
        assert Node(freeHead, r, j + 1) == if j == |r| then Node(freeHead, r, 0) else Node(freeHead, r, j + 1);
      }
    }
  }

  lemma WalkLost(p: Link, freeHead: Link, head: Link, f: seq<Link>, s: seq<Link>, i: nat)
    requires Ring(freeHead, [p] + f) && i < |s| && s[i] == p
    requires forall j: nat :: j <= i ==> Node(head, s, j).next == s[j]
    ensures forall n: nat :: n > 0 ==> Walk(head, n) in Trail(s, i, freeHead, f)
  {
    TrailClosed(p, freeHead, head, f, s, i);
    forall n: nat | n > 0
      ensures Walk(head, n) in Trail(s, i, freeHead, f)
    {
      WalkStays(head, Trail(s, i, freeHead, f), n);
    }
  }

  lemma TrailMisses(freeHead: Link, head: Link, f: seq<Link>, s: seq<Link>, i: nat)
    requires i < |s| && head !in s && forall a, b :: 0 <= a < b < |s| ==> s[a] != s[b]
    requires freeHead != head && freeHead !in s && head !in f && forall x :: x in s ==> x !in f
    ensures head !in Trail(s, i, freeHead, f) && forall j :: i < j < |s| ==> s[j] !in Trail(s, i, freeHead, f)
  {
    assert forall x :: x in s[..i + 1] ==> x in s;
  }

  lemma RingIndex(head: Link, s: seq<Link>, x: Link)
    requires x == head || x in s
    ensures exists j: nat :: j <= |s| && Node(head, s, j) == x
  {
    if x in s && x != head {
      var j: nat :| j < |s| && s[j] == x;
      assert Node(head, s, j + 1) == x;
    } else {
      assert Node(head, s, 0) == x;
    }
  }

  /** freePcb on a PCB that is still linked in a queue, as terminateProcess does to a ready
      process with a stale p_semAdd: the free list gains it, the queue is no longer a ring of
      anything, and the loops of insertProcQ and outProcQ, which run until they are back at the head
      or at the PCB they look for, meet neither the head nor anybody queued behind the freed one. */
  method FreeWhileQueued(p: Link, freeHead: Link, head: Link, ghost f: seq<Link>, ghost s: seq<Link>, ghost i: nat)
    requires Ring(freeHead, f) && Ring(head, s) && i < |s| && s[i] == p
    requires freeHead != head && freeHead !in s && head !in f && forall x :: x in s ==> x !in f
    modifies {p, freeHead} + (set x | x in f)
    ensures Ring(freeHead, [p] + f)
    ensures forall t: seq<Link> :: !Ring(head, t)
    ensures forall n: nat :: n > 0 ==> Walk(head, n) in Trail(s, i, freeHead, f)
    ensures head !in Trail(s, i, freeHead, f) && forall j :: i < j < |s| ==> s[j] !in Trail(s, i, freeHead, f)
  {
    forall j: nat | j <= i
      ensures Node(head, s, j).next == s[j] && (Node(head, s, j) == head || (Node(head, s, j) in s && Node(head, s, j) != p))
    {
      assert Node(head, s, j + 1) == s[j];
    }
    FreePcb(p, freeHead, f);
    assert Node(freeHead, [p] + f, 1).prev == Node(freeHead, [p] + f, 0);
    forall t: seq<Link>
      ensures !Ring(head, t)
    {
      NoRing(head, s, t, i);
    }
    WalkLost(p, freeHead, head, f, s, i);
    TrailMisses(freeHead, head, f, s, i);
  }

  /** The pointers of nsys2 on the first process while its child, the head of the ready queue, has a
      stale p_semAdd: terminateProcess frees the child and then the caller, and dispatch's
      removeProcQ unlinks the child from the list it is really in. The child runs although it was
      terminated, is missing from the free list, and readyQueue still points to it. */
  method StaleTermination(child: Link, first: Link, freeHead: Link, head: Link, ghost f: seq<Link>, ghost s: seq<Link>)
    returns (p: Link?)
    requires Ring(freeHead, f) && Ring(head, s) && s != [] && s[0] == child
    requires freeHead != head && freeHead !in s && head !in f && forall x :: x in s ==> x !in f
    requires first != head && first != freeHead && first !in s && first !in f
    modifies {child, first, freeHead} + (set x | x in f)
    ensures p == child
    ensures Ring(freeHead, [first] + f) && Ring(child, [])
    ensures head.next == child && forall t: seq<Link> :: !Ring(head, t)
  {
    assert Node(head, s, 0).next == Node(head, s, 1);
    FreePcb(child, freeHead, f);
    FreePcb(first, freeHead, [child] + f);
    p := if head.next == head then null else head.next;
    ListDel(p, freeHead, [first] + ([child] + f), 1);
    CutSecond(first, child, f);
    Detached(head, child);
  }

  lemma CutSecond(x: Link, y: Link, f: seq<Link>)
    ensures Cut([x] + ([y] + f), 1) == [x] + f
  {
  }

  /** A head that points to a node pointing to itself heads no ring. */
  lemma Detached(head: Link, x: Link)
    requires head.next == x && x != head && Ring(x, [])
    ensures forall t: seq<Link> :: !Ring(head, t)
  {
    assert Node(x, [], 0).next == Node(x, [], 1);
    forall t: seq<Link>
      ensures !Ring(head, t)
    {
      assert Node(head, t, 0).next == x;
      assert t != [] && t[0] == x ==> Node(head, t, 1).next == x;
    }
  }
}
