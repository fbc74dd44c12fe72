/** `List`: the intrusive circular list of the run queues and the wait queues. */
module CircularLists {
  import opened Common

  /** `Listable`.  The tag says which object it is part of. */
  class Link {
    const tag: nat
    var prev: Link?
    var next: Link?

    constructor (tag: nat)
      ensures this.tag == tag && prev == null && next == null
    {
      this.tag := tag;
      prev, next := null, null;
    }
  }

  function Succ(i: nat, n: nat): nat
    requires i < n
  {
    if i + 1 == n then 0 else i + 1
  }

  function Pred(i: nat, n: nat): nat
    requires i < n
  {
    if i == 0 then n - 1 else i - 1
  }

  /** The links of the members form one cycle in the order of the sequence. */
  ghost predicate Cycle(s: seq<Link>)
    reads s
  {
    && (forall i, j :: 0 <= i < j < |s| ==> s[i] != s[j])
    && (forall i {:trigger s[i].next} :: 0 <= i < |s| ==> s[i].next == s[Succ(i, |s|)])
    && (forall i {:trigger s[i].prev} :: 0 <= i < |s| ==> s[i].prev == s[Pred(i, |s|)])
  }

  /** The cyclic shift that makes element `i` the first one. */
  function Rotated<T>(s: seq<T>, i: nat): seq<T>
    requires i < |s|
  {
    s[i..] + s[..i]
  }

  function Cut<T>(s: seq<T>, i: nat): seq<T>
    requires i < |s|
  {
    s[..i] + s[i + 1..]
  }

  lemma RotatedAt(s: seq<Link>, i: nat, k: nat)
    requires i < |s| && k < |s|
    ensures var n, r, j := |s|, Rotated(s, i), if i + k < |s| then i + k else i + k - |s|;
            |r| == n && r[k] == s[j] && r[Succ(k, n)] == s[Succ(j, n)] && r[Pred(k, n)] == s[Pred(j, n)]
  {
  }

  /** A cycle has no distinguished start. */
  lemma CycleRotates(s: seq<Link>, i: nat)
    requires Cycle(s) && i < |s|
    ensures Cycle(Rotated(s, i))
  {
    var r, n := Rotated(s, i), |s|;
    forall k | 0 <= k < n
      ensures r[k].next == r[Succ(k, n)] && r[k].prev == r[Pred(k, n)]
    {
      RotatedAt(s, i, k);
    }
    forall j, k | 0 <= j < k < n ensures r[j] != r[k] {
      RotatedAt(s, i, j);
      RotatedAt(s, i, k);
    }
  }

  lemma FirstToLast(s: seq<Link>)
    requires Cycle(s) && s != []
    ensures Cycle(s[1..] + [s[0]])
  {
    if |s| == 1 {
      assert s[1..] + [s[0]] == s;
    } else {
      CycleRotates(s, 1);
      assert Rotated(s, 1) == s[1..] + [s[0]];
    }
  }

  /** Links `e` in just before `at`, the first member of the cycle `s`. */
  method LinkIn(e: Link, at: Link, ghost s: seq<Link>)
    requires s != [] && at == s[0] && Cycle(s) && e !in s
    modifies e, s
    ensures Cycle(s + [e])
  {
    e.next := at;
    e.prev := at.prev;
    e.prev.next := e;
    at.prev := e;
  }

  /** Takes `e` out of the cycle in which it is between the last and the first of `s`. */
  method LinkOut(e: Link, ghost s: seq<Link>)
    requires s != [] && Cycle(s + [e])
    modifies e, s
    ensures Cycle(s) && e.prev == null && e.next == null
  {
    ghost var n := |s|;
    assert (s + [e])[n] == e && forall k :: 0 <= k < n ==> (s + [e])[k] == s[k];
    e.prev.next := e.next;
    e.next.prev := e.prev;
    e.prev, e.next := null, null;
    LastCloses(s);
  }

  lemma LastCloses(s: seq<Link>)
    requires s != [] && forall j, k :: 0 <= j < k < |s| ==> s[j] != s[k]
    requires s[|s| - 1].next == s[0] && s[0].prev == s[|s| - 1]
    requires forall k {:trigger s[k].next} :: 0 <= k < |s| - 1 ==> s[k].next == s[k + 1]
    requires forall k {:trigger s[k].prev} :: 0 < k < |s| ==> s[k].prev == s[k - 1]
    ensures Cycle(s)
  {
  }

  /** Takes a member that is neither the first nor the last one out of the cycle. */
  method UnlinkInside(e: Link, ghost s: seq<Link>, ghost i: nat)
    requires 0 < i < |s| - 1 && e == s[i] && Cycle(s)
    modifies s
    ensures Cycle(Cut(s, i)) && e.prev == null && e.next == null
  {
    e.prev.next := e.next;
    e.next.prev := e.prev;
    e.prev, e.next := null, null;
    CutCloses(s, i);
  }

  /** A chain around `s` that skips the i-th member is a cycle over the others. */
  lemma CutCloses(s: seq<Link>, i: nat)
    requires 0 < i < |s| - 1 && forall j, k :: 0 <= j < k < |s| ==> s[j] != s[k]
    requires s[i - 1].next == s[i + 1] && s[i + 1].prev == s[i - 1]
    requires forall k {:trigger s[k].next} :: 0 <= k < |s| && k != i - 1 && k != i ==> s[k].next == s[Succ(k, |s|)]
    requires forall k {:trigger s[k].prev} :: 0 <= k < |s| && k != i + 1 && k != i ==> s[k].prev == s[Pred(k, |s|)]
    ensures Cycle(Cut(s, i))
  {
    var n, c := |s| - 1, Cut(s, i);
    forall k | 0 <= k < n
      ensures c[k].next == c[Succ(k, n)] && c[k].prev == c[Pred(k, n)]
    {
      var j := if k < i then k else k + 1;
      assert c[k] == s[j];
    }
  }

  /** What an iterator stands for; that of an empty list is at its end. */
  datatype Position = AtBegin | AtEnd | At(l: Link)

  ghost predicate PointsAt(pos: Position, s: seq<Link>, i: nat) {
    match pos
    case AtBegin => s != [] && i == 0
    case AtEnd => i == |s|
    case At(l) => 0 < i < |s| && s[i] == l
  }

  class List {
    var head: Link?
    var tail: Link?
    ghost var elems: seq<Link>

    ghost predicate Valid()
      reads this, elems
    {
      && Cycle(elems)
      && head == (if elems == [] then null else elems[0])
      && tail == (if elems == [] then null else elems[|elems| - 1])
    }

    constructor ()
      ensures Valid() && elems == []
    {
      head, tail, elems := null, null, [];
    }

    method PushBack(e: Link)
      requires Valid() && e.prev == null && e.next == null && e !in elems
      modifies this, e, elems
      ensures Valid() && elems == old(elems) + [e]
    {
      if tail == null {
        tail, head := e, e;
        e.prev, e.next := e, e;
      } else {
        LinkIn(e, tail.next, elems);
        tail := e;
      }
      elems := elems + [e];
    }

    method PushFront(e: Link)
      requires Valid() && e.prev == null && e.next == null && e !in elems
      modifies this, e, elems
      ensures Valid() && elems == [e] + old(elems)
    {
      if head == null {
        tail, head := e, e;
        e.prev, e.next := e, e;
      } else {
        LinkIn(e, head, elems);
        CycleRotates(elems + [e], |elems|);
        head := e;
      }
      elems := [e] + elems;
      assert elems == Rotated(old(elems) + [e], |old(elems)|);
    }

    method PopBack() returns (e: Link)
      requires Valid() && elems != []
      modifies this, elems
      ensures Valid() && old(elems) == elems + [e] && e.prev == null && e.next == null
    {
      e := tail;
      if tail == head {
        tail, head := null, null;
        e.prev, e.next := null, null;
      } else {
        tail := tail.prev;
        assert elems == elems[..|elems| - 1] + [e];
        LinkOut(e, elems[..|elems| - 1]);
      }
      elems := elems[..|elems| - 1];
    }

    method PopFront() returns (e: Link)
      requires Valid() && elems != []
      modifies this, elems
      ensures Valid() && old(elems) == [e] + elems && e.prev == null && e.next == null
    {
      e := head;
      if tail == head {
        tail, head := null, null;
        e.prev, e.next := null, null;
      } else {
        head := head.next;
        FirstToLast(elems);
        LinkOut(e, elems[1..]);
      }
      elems := elems[1..];
    }

    /** `insert` at any position. */
    method Insert(pos: Position, e: Link, ghost i: nat)
      requires Valid() && PointsAt(pos, elems, i)
      requires e.prev == null && e.next == null && e !in elems
      modifies this, e, elems
      ensures Valid() && elems == old(elems)[..i] + [e] + old(elems)[i..]
    {
      match pos
      case AtEnd => PushBack(e);
      case AtBegin => PushFront(e);
      case At(before) => InsertBefore(before, e, i);
    }

    method InsertBefore(before: Link, e: Link, ghost i: nat)
      requires Valid() && 0 < i < |elems| && elems[i] == before
      requires e.prev == null && e.next == null && e !in elems
      modifies this, e, elems
      ensures Valid() && elems == old(elems)[..i] + [e] + old(elems)[i..]
    {
      ghost var n, s := |elems|, Rotated(elems, i);
      CycleRotates(elems, i);
      LinkIn(e, before, s);
      CycleRotates(s + [e], n - i);
      elems := elems[..i] + [e] + elems[i..];
      assert elems == Rotated(s + [e], n - i);
    }

    method Erase(e: Link, ghost i: nat)
      requires Valid() && i < |elems| && elems[i] == e
      modifies this, elems
      ensures Valid() && elems == Cut(old(elems), i) && e.prev == null && e.next == null
    {
      if head == e {
        var x := PopFront();
      } else if tail == e {
        var x := PopBack();
      } else {
        UnlinkInside(e, elems, i);
        elems := Cut(elems, i);
      }
    }

    /** Turns the cycle, without touching a link. */
    method Rotate(e: Link, ghost i: nat)
      requires Valid() && i < |elems| && elems[i] == e
      modifies this
      ensures Valid() && elems == Rotated(old(elems), i)
    {
      CycleRotates(elems, i);
      head := e;
      tail := e.prev;
      elems := Rotated(elems, i);
    }

    method Contains(e: Link) returns (found: bool)
      requires Valid()
      ensures found <==> e in elems
    {
      if head == null {
        return false;
      }
      var it := head;
      ghost var k := 0;
      while true
        invariant k < |elems| && it == elems[k] && e !in elems[..k]
        decreases |elems| - k
      {
        if it == e {
          return true;
        }
        it := it.next;
        if it == head {
          assert elems[..k + 1] == elems;
          return false;
        }
        k := k + 1;
      }
    }
  }

  /** The member that is `k` links away from `p`. */
  ghost function Follow(p: Link, k: nat, s: seq<Link>): Link?
    reads s
  {
    if p !in s then null
    else if k == 0 then p
    else if p.next == null then null else Follow(p.next, k - 1, s)
  }

  /** From any member, following `next` visits every member once and then comes back. */
  lemma {:induction false} FollowVisitsAll(s: seq<Link>, i: nat, k: nat)
    requires Cycle(s) && i < |s| && k <= |s|
    ensures Follow(s[i], k, s) == s[if i + k < |s| then i + k else i + k - |s|]
    decreases k
  {
    if k > 0 {
      FollowVisitsAll(s, Succ(i, |s|), k - 1);
    }
  }
}
