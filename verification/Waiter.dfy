/** The drain loop of `Waiter::entry`, on the sorted list in place. */
module Waiters {
  import opened AaTree
  import opened SortedLists

  /** A plain waitable (a nap or an alarm clock) is due when its timeout has passed.  A polled one
      asks a function, and asks again after an interval. */
  datatype Kind = Plain | Polled(interval: int)

  /** `PolledWaiting::poll` when the function says no: the next time to ask. */
  function NextPoll(timeout: int, interval: int, now: int): int {
    if timeout + interval < now then now + interval else timeout + interval
  }

  /** A failed poll of an overdue entry makes it wait at least until now, exactly if its interval is
      not negative.  With a negative one the entry is still overdue, and the loop turns to it again. */
  lemma NextPollIff(timeout: int, interval: int, now: int)
    requires timeout < now
    ensures NextPoll(timeout, interval, now) >= now <==> interval >= 0
  {
  }

  /** Whether `poll` of an entry says that it is done: a plain one looks at its timeout, a polled one
      asks its function. */
  predicate Done(e: Entry, kind: Kind, ready: bool, now: int) {
    match kind
    case Plain => e.key.time <= now
    case Polled(_) => ready
  }

  /** The entries from `now` on, when `e` has been handled. */
  function Postpone(e: Entry, kind: Kind, ready: bool, later: seq<Entry>, now: int): seq<Entry> {
    if Done(e, kind, ready, now) || kind.Plain? then later
    else InsertSorted(e.(key := e.key.(time := NextPoll(e.key.time, kind.interval, now))), later)
  }

  ghost predicate Known(s: seq<Entry>, kind: map<Listable, Kind>) {
    forall i :: 0 <= i < |s| ==> s[i].node in kind
  }

  /** What is left when the entries `due` have been handled, from the n-th iteration on. */
  ghost function Rest(due: seq<Entry>, later: seq<Entry>, kind: map<Listable, Kind>, ready: nat -> bool, now: int, n: nat)
    : seq<Entry>
    requires Known(due, kind)
  {
    if due == [] then later
    else Rest(due[1..], Postpone(due[0], kind[due[0].node], ready(n), later, now), kind, ready, now, n + 1)
  }

  /** The number of entries at the start of a sorted list that are before `now`. */
  function Overdue(s: seq<Entry>, now: int): (k: nat)
    ensures k <= |s|
    ensures AllOverdue(s[..k], now)
    ensures k < |s| ==> s[k].key.time >= now
  {
    if s == [] || s[0].key.time >= now then 0
    else
      var k := Overdue(s[1..], now);
      assert s[..k + 1] == [s[0]] + s[1..][..k];
      k + 1
  }

  ghost predicate AllDueLater(s: seq<Entry>, now: int) {
    forall i :: 0 <= i < |s| ==> s[i].key.time >= now
  }

  ghost predicate AllOverdue(s: seq<Entry>, now: int) {
    forall i :: 0 <= i < |s| ==> s[i].key.time < now
  }

  lemma CutOverdue(s: seq<Entry>, k: nat, now: int)
    requires Sorted(s) && k <= |s| && AllOverdue(s[..k], now)
    requires k < |s| ==> s[k].key.time >= now
    ensures AllDueLater(s[k..], now) && s[..k] + s[k..] == s
  {
    forall i | 0 <= i < |s| - k ensures s[k..][i].key.time >= now {
      if 0 < i { assert Before(s[k].key, s[k + i].key); }
    }
  }

  lemma {:induction false} InsertDueLater(e: Entry, s: seq<Entry>, now: int)
    requires AllDueLater(s, now) && e.key.time >= now
    ensures AllDueLater(InsertSorted(e, s), now)
  {
    if s != [] && !Before(e.key, s[0].key) {
      InsertDueLater(e, s[1..], now);
    }
  }

  lemma AbsentStays(e: Entry, s: seq<Entry>)
    requires e.node !in NodesOf(s)
    ensures WithoutNode(e, s) == s
  {
    forall i | 0 <= i < |s| ensures s[i].node != e.node { assert s[i].node in NodesOf(s); }
    WithoutAbsent(e, s);
  }

  /** Taking an entry out of the list again leaves it as it was before. */
  lemma {:induction false} UnscheduleUndoes(e: Entry, s: seq<Entry>)
    requires e.node !in NodesOf(s)
    ensures WithoutNode(e, InsertSorted(e, s)) == s
  {
    AbsentStays(e, s);
    if s != [] && !Before(e.key, s[0].key) {
      assert s[0].node in NodesOf(s);
      forall n | n in NodesOf(s[1..]) ensures n in NodesOf(s) {
        var i :| 0 <= i < |s[1..]| && s[1..][i].node == n;
        assert s[i + 1].node == n;
      }
      UnscheduleUndoes(e, s[1..]);
    }
  }

  /** Distinct objects have distinct addresses. */
  ghost predicate Addressed(nodes: set<Listable>) {
    forall a, b :: a in nodes && b in nodes && a.addr == b.addr ==> a == b
  }

  /** Each element has a kind, and no polled one has a negative interval. */
  ghost predicate Pollable(nodes: set<Listable>, kind: map<Listable, Kind>) {
    && Addressed(nodes) && nodes <= kind.Keys
    && forall n :: n in nodes && kind[n].Polled? ==> kind[n].interval >= 0
  }

  /** The elements that were handled and are finished. */
  ghost function Gone(handled: seq<Entry>, finished: seq<bool>): set<Listable>
    requires |handled| == |finished|
  {
    if handled == [] then {}
    else
      var k := |handled| - 1;
      Gone(handled[..k], finished[..k]) + if finished[k] then {handled[k].node} else {}
  }

  /** A handled element is finished if it is a plain one, or if its function says so. */
  ghost predicate Answers(handled: seq<Entry>, finished: seq<bool>, kind: map<Listable, Kind>, ready: nat -> bool) {
    && |handled| == |finished|
    && forall i :: 0 <= i < |handled| ==>
         handled[i].node in kind && (finished[i] <==> kind[handled[i].node].Plain? || ready(i))
  }

  /** After some iterations: `handled` and `due` are the overdue entries `all`, and `left` are the
      elements of the list, of the `nodes` that were in it. */
  ghost predicate Progress(
      all: seq<Entry>, nodes: set<Listable>, handled: seq<Entry>, finished: seq<bool>, due: seq<Entry>,
      left: set<Listable>, kind: map<Listable, Kind>, ready: nat -> bool, now: int)
  {
    && all == handled + due && AllOverdue(due, now) && Known(due, kind)
    && Answers(handled, finished, kind, ready)
    && left == nodes - Gone(handled, finished)
    && Pollable(left, kind)
  }

  lemma Proceed(
      all: seq<Entry>, nodes: set<Listable>, handled: seq<Entry>, finished: seq<bool>, due: seq<Entry>,
      left: set<Listable>, kind: map<Listable, Kind>, ready: nat -> bool, now: int, f: bool)
    requires Progress(all, nodes, handled, finished, due, left, kind, ready, now)
    requires due != [] && due[0].node in kind && (f <==> kind[due[0].node].Plain? || ready(|handled|))
    ensures Progress(all, nodes, handled + [due[0]], finished + [f], due[1..],
                     left - (if f then {due[0].node} else {}), kind, ready, now)
  {
    var e := due[0];
    assert (handled + [e])[..|handled|] == handled && (finished + [f])[..|handled|] == finished;
    assert handled + due == handled + [e] + due[1..];
  }

  lemma AllKnown(s: seq<Entry>, kind: map<Listable, Kind>)
    requires NodesOf(s) <= kind.Keys
    ensures Known(s, kind)
  {
    forall i | 0 <= i < |s| ensures s[i].node in kind {
      assert s[i].node in NodesOf(s);
    }
  }

  lemma Begin(
      s: seq<Entry>, k: nat, nodes: set<Listable>, kind: map<Listable, Kind>, ready: nat -> bool, now: int)
    requires k <= |s| && AllOverdue(s[..k], now) && NodesOf(s) == nodes && Pollable(nodes, kind)
    ensures Progress(s[..k], nodes, [], [], s[..k], nodes, kind, ready, now)
  {
    AllKnown(s, kind);
    assert [] + s[..k] == s[..k];
    assert nodes - Gone([], []) == nodes;
  }

  lemma Outset(s: seq<Entry>, nodes: set<Listable>, kind: map<Listable, Kind>, ready: nat -> bool, now: int)
    requires Sorted(s) && NodesOf(s) == nodes && Pollable(nodes, kind)
    ensures
      var k := Overdue(s, now);
      && s[..k] + s[k..] == s && AllDueLater(s[k..], now)
      && Progress(s[..k], nodes, [], [], s[..k], nodes, kind, ready, now)
  {
    var k := Overdue(s, now);
    CutOverdue(s, k, now);
    Begin(s, k, nodes, kind, ready, now);
  }

  lemma Ended(
      all: seq<Entry>, nodes: set<Listable>, handled: seq<Entry>, finished: seq<bool>, left: set<Listable>,
      kind: map<Listable, Kind>, ready: nat -> bool, now: int)
    requires Progress(all, nodes, handled, finished, [], left, kind, ready, now)
    ensures handled == all && Answers(handled, finished, kind, ready) && left == nodes - Gone(handled, finished)
  {
  }

  class Waiter {
    const waiting: SortedList

    constructor ()
      ensures waiting.Valid() && waiting.Contents() == []
    {
      waiting := new SortedList();
    }

    /** `scheduleTask`: puts a timer entry into the list. */
    method ScheduleTask(w: Listable)
      requires waiting.Valid() && waiting.size + 1 < 0x1_0000_0000_0000_0000
      requires w.left == null && w.right == null && w.level == 0
      requires w !in Nodes(waiting.tree) && forall n <- Nodes(waiting.tree) :: n.addr != w.addr
      modifies waiting, w`left, w`right, w`level
      modifies Nodes(waiting.tree)`left, Nodes(waiting.tree)`right, Nodes(waiting.tree)`level
      ensures waiting.Valid() && Nodes(waiting.tree) == old(Nodes(waiting.tree)) + {w}
      ensures waiting.Contents() == InsertSorted(old(Entry(w, KeyOf(w))), old(waiting.Contents()))
    {
      waiting.Insert(w);
    }

    /** `unscheduleTask`: the entry is in the list or it is not; afterwards it is not. */
    method UnscheduleTask(w: Listable) returns (was: bool)
      requires waiting.Valid() && forall n <- Nodes(waiting.tree) :: n.addr == w.addr ==> n == w
      modifies waiting, Nodes(waiting.tree)`left, Nodes(waiting.tree)`right, Nodes(waiting.tree)`level
      ensures waiting.Valid() && w !in Nodes(waiting.tree)
      ensures Nodes(waiting.tree) == old(Nodes(waiting.tree)) - {w} && (was <==> w in old(Nodes(waiting.tree)))
      ensures waiting.Contents() == WithoutNode(old(Entry(w, KeyOf(w))), old(waiting.Contents()))
    {
      NodesAllocated(waiting.tree);
      was := waiting.Contains(w);
      if was {
        waiting.Erase(w);
      } else {
        NodesInOrder(waiting.tree);
        AbsentStays(Entry(w, KeyOf(w)), waiting.Contents());
      }
    }

    /** `wakeup` of an entry: if it is in the list, it leaves it, and its fiber is to be woken, if it
        has one.  A second call finds nothing. */
    method Wakeup(w: Listable, hasFiber: bool) returns (wakes: bool)
      requires waiting.Valid() && forall n <- Nodes(waiting.tree) :: n.addr == w.addr ==> n == w
      modifies waiting, Nodes(waiting.tree)`left, Nodes(waiting.tree)`right, Nodes(waiting.tree)`level
      ensures waiting.Valid() && w !in Nodes(waiting.tree)
      ensures Nodes(waiting.tree) == old(Nodes(waiting.tree)) - {w}
      ensures wakes <==> w in old(Nodes(waiting.tree)) && hasFiber
      ensures waiting.Contents() == WithoutNode(old(Entry(w, KeyOf(w))), old(waiting.Contents()))
    {
      NodesAllocated(waiting.tree);
      var was := UnscheduleTask(w);
      wakes := was && hasFiber;
    }

    /** `front` and `erase`. */
    method TakeFirst() returns (w: Listable)
      requires waiting.Valid() && waiting.Contents() != []
      modifies waiting, Nodes(waiting.tree)
      ensures waiting.Valid() && waiting.Contents() == old(waiting.Contents())[1..]
      ensures Entry(w, KeyOf(w)) == old(waiting.Contents())[0]
      ensures w.left == null && w.right == null && w.level == 0
      ensures w in old(Nodes(waiting.tree)) && Nodes(waiting.tree) == old(Nodes(waiting.tree)) - {w}
      ensures waiting.size == old(waiting.size) - 1
    {
      ghost var s := waiting.Contents();
      SpellsDistinct(waiting.root, waiting.tree);
      NodesInOrder(waiting.tree);
      assert s[0].node in NodesOf(s);
      w := waiting.Front();
      WithoutAt(Entry(w, KeyOf(w)), s, 0);
      waiting.Erase(w);
    }

    method Reinsert(w: Listable, now: int, ghost due: seq<Entry>, ghost later: seq<Entry>)
      returns (ghost later': seq<Entry>)
      requires waiting.Valid() && waiting.size + 1 < 0x1_0000_0000_0000_0000
      requires w.left == null && w.right == null && w.level == 0
      requires w !in Nodes(waiting.tree) && forall n <- Nodes(waiting.tree) :: n.addr != w.addr
      requires waiting.Contents() == due + later && AllDueLater(later, now) && w.time >= now
      requires AllOverdue(due, now)
      modifies waiting, w, Nodes(waiting.tree)
      ensures waiting.Valid() && waiting.Contents() == due + later' && AllDueLater(later', now)
      ensures later' == InsertSorted(old(Entry(w, KeyOf(w))), later)
      ensures Nodes(waiting.tree) == old(Nodes(waiting.tree)) + {w}
    {
      ghost var e := Entry(w, KeyOf(w));
      waiting.Insert(w);
      InsertSortedRight(e, due, later);
      InsertDueLater(e, later, now);
      later' := InsertSorted(e, later);
    }

    /** `poll`, which gives a polled element that is not done a new timeout. */
    method Poll(w: Listable, kind: Kind, ready: bool, now: int) returns (done: bool)
      modifies w`time
      ensures done == Done(old(Entry(w, KeyOf(w))), kind, ready, now)
      ensures w.time == if done || kind.Plain? then old(w.time) else NextPoll(old(w.time), kind.interval, now)
    {
      match kind
      case Plain =>
        done := w.time <= now;
      case Polled(interval) =>
        done := ready;
        if !done {
          w.time := NextPoll(w.time, interval, now);
        }
    }

    /** One iteration: the list holds the entries `due`, which are overdue, and then `later`. */
    method HandleFirst(now: int, kind: map<Listable, Kind>, ready: bool, ghost due: seq<Entry>, ghost later: seq<Entry>)
      returns (e: Entry, finished: bool, ghost later': seq<Entry>)
      requires waiting.Valid() && Pollable(Nodes(waiting.tree), kind)
      requires waiting.Contents() == due + later && due != [] && AllDueLater(later, now)
      requires AllOverdue(due, now)
      modifies waiting, Nodes(waiting.tree)
      ensures waiting.Valid() && waiting.Contents() == due[1..] + later' && AllDueLater(later', now)
      ensures e == due[0] && e.node in kind
      ensures finished <==> kind[e.node].Plain? || ready
      ensures later' == Postpone(e, kind[e.node], ready, later, now)
      ensures Nodes(waiting.tree) == old(Nodes(waiting.tree)) - (if finished then {e.node} else {})
    {
      NodesAllocated(waiting.tree);
      var w := TakeFirst();
      e := Entry(w, KeyOf(w));
      assert waiting.Contents() == due[1..] + later;
      later' := later;
      finished := Poll(w, kind[w], ready, now);
      if !finished {
        later' := Reinsert(w, now, due[1..], later);
      }
    }

    /** One iteration, with what has been done before it. */
    method Iterate(
        now: int, kind: map<Listable, Kind>, ready: nat -> bool, handled: seq<Entry>, finished: seq<bool>,
        ghost due: seq<Entry>, ghost later: seq<Entry>, ghost all: seq<Entry>, ghost nodes: set<Listable>)
      returns (handled': seq<Entry>, finished': seq<bool>, more: bool, ghost due': seq<Entry>, ghost later': seq<Entry>)
      requires waiting.Valid() && waiting.Contents() == due + later && AllDueLater(later, now) && due != []
      requires Progress(all, nodes, handled, finished, due, Nodes(waiting.tree), kind, ready, now)
      modifies waiting, Nodes(waiting.tree)
      ensures waiting.Valid() && waiting.Contents() == due' + later' && AllDueLater(later', now)
      ensures Progress(all, nodes, handled', finished', due', Nodes(waiting.tree), kind, ready, now)
      ensures |due'| < |due| && (more <==> due' != [])
      ensures Nodes(waiting.tree) <= old(Nodes(waiting.tree))
      ensures Known(due, kind) && Rest(due', later', kind, ready, now, |handled'|) == Rest(due, later, kind, ready, now, |handled|)
    {
      ghost var left := Nodes(waiting.tree);
      NodesAllocated(waiting.tree);
      var e, f;
      e, f, later' := HandleFirst(now, kind, ready(|handled|), due, later);
      Proceed(all, nodes, handled, finished, due, left, kind, ready, now, f);
      handled', finished', due' := handled + [e], finished + [f], due[1..];
      more := FrontOverdue(now, due', later');
    }

    /** The inner loop of `entry`.  `ready(k)` is what the polled function says in the k-th iteration.
        The loop handles exactly the entries that were overdue, in order, each of them once; it takes
        out those that are finished, moves the others to a later time, and leaves no overdue entry. */
    method Drain(now: int, kind: map<Listable, Kind>, ready: nat -> bool)
      returns (handled: seq<Entry>, finished: seq<bool>)
      requires waiting.Valid() && Pollable(Nodes(waiting.tree), kind)
      modifies waiting, Nodes(waiting.tree)
      ensures waiting.Valid() && AllDueLater(waiting.Contents(), now)
      ensures handled == old(waiting.Contents())[..Overdue(old(waiting.Contents()), now)]
      ensures Known(handled, kind)
      ensures waiting.Contents() ==
              Rest(handled, old(waiting.Contents())[|handled|..], kind, ready, now, 0)
      ensures Answers(handled, finished, kind, ready)
      ensures Nodes(waiting.tree) == old(Nodes(waiting.tree)) - Gone(handled, finished)
    {
      ghost var s, k := waiting.Contents(), Overdue(waiting.Contents(), now);
      ghost var all, due, later := s[..k], s[..k], s[k..];
      ghost var nodes := Nodes(waiting.tree);
      NodesInOrder(waiting.tree);
      Outset(s, nodes, kind, ready, now);
      NodesAllocated(waiting.tree);
      ghost var rest := Rest(all, later, kind, ready, now, 0);
      handled, finished := [], [];
      var more := FrontOverdue(now, due, later);
      while more
        invariant waiting.Valid() && waiting.Contents() == due + later && AllDueLater(later, now)
        invariant Progress(all, nodes, handled, finished, due, Nodes(waiting.tree), kind, ready, now)
        invariant Rest(due, later, kind, ready, now, |handled|) == rest
        invariant Nodes(waiting.tree) <= nodes && (more <==> due != [])
        decreases |due|
      {
        NodesAllocated(waiting.tree);
        handled, finished, more, due, later :=
          Iterate(now, kind, ready, handled, finished, due, later, all, nodes);
      }
      assert waiting.Contents() == later == rest;
      Ended(all, nodes, handled, finished, Nodes(waiting.tree), kind, ready, now);
    }

    /** The condition of the loop. */
    method FrontOverdue(now: int, ghost due: seq<Entry>, ghost later: seq<Entry>) returns (b: bool)
      requires waiting.Valid() && waiting.Contents() == due + later && AllDueLater(later, now)
      requires AllOverdue(due, now)
      ensures b <==> due != []
    {
      SpellsDistinct(waiting.root, waiting.tree);
      if waiting.root == null {
        return false;
      }
      var f := waiting.Front();
      return f.time < now;
    }
  }
}
