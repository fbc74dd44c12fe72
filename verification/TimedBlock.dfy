/** `block_` in place: the two lists of the worker and the waiter, in step with the scheduler's model. */
module TimedBlocks {
  import opened Common
  import opened Fibers
  import opened Scheduler
  import opened Workers
  import opened Waiters
  import AaTree
  import SortedLists

  /** The fibers that have an entry in the waiter's list, and the times of the entries. */
  ghost function Listed(w: World): set<Fid> {
    w.timer + w.naps.Keys
  }

  ghost function TimeOf(w: World, f: Fid): int {
    if f in w.timer && f in w.alarms then w.alarms[f].timeout else if f in w.naps then w.naps[f] else 0
  }

  /** Each of these fibers has an entry among the nodes, and each node is the entry of its owner. */
  ghost predicate EntriesOf(
      listed: set<Fid>, entries: map<Fid, AaTree.Listable>, owner: map<AaTree.Listable, Fid>,
      nodes: set<AaTree.Listable>)
  {
    && (forall f :: f in listed ==>
          f in entries && entries[f] in nodes && entries[f] in owner && owner[entries[f]] == f)
    && (forall n :: n in nodes ==> n in owner && owner[n] in listed && owner[n] in entries && entries[owner[n]] == n)
  }

  lemma EntryAdded(
      listed: set<Fid>, entries: map<Fid, AaTree.Listable>, owner: map<AaTree.Listable, Fid>,
      nodes: set<AaTree.Listable>, c: Fid, a: AaTree.Listable)
    requires EntriesOf(listed, entries, owner, nodes) && c !in listed && a !in nodes
    ensures EntriesOf(listed + {c}, entries[c := a], owner[a := c], nodes + {a})
  {
  }

  lemma EntryRemoved(
      listed: set<Fid>, entries: map<Fid, AaTree.Listable>, owner: map<AaTree.Listable, Fid>,
      nodes: set<AaTree.Listable>, c: Fid)
    requires EntriesOf(listed, entries, owner, nodes) && c in entries && (c !in listed ==> entries[c] !in nodes)
    ensures EntriesOf(listed - {c}, entries, owner, nodes - {entries[c]})
  {
  }

  /** The world when a fiber has started to wait with a timeout, before the waiter is resumed. */
  ghost function Clocked(w: World, c: Fid, q: Qid, timeout: int, now: int): World
    requires c in w.fibers
  {
    Enqueued(w, c, q).(timer := w.timer + {c}, alarms := w.alarms[c := Alarm(q, timeout, now, false, None, 0)])
  }

  /** The first half of `block_`, as a step of the model. */
  lemma StartIs(w: World, q: Qid, timeout: int, now: int, up: bool)
    requires Inv(w) && Enabled(w, BlockTimed(q, Until(timeout), now, up)) && timeout > now
    ensures var c := w.current.value;
            && c in w.runq && c in w.fibers && w.fibers[c].state.Running?
            && Partition(Clocked(w, c, q, timeout, now))
            && Partition(ResumedWorld(Clocked(w, c, q, timeout, now), w.waiter))
            && Step(w, BlockTimed(q, Until(timeout), now, up)) ==
                 Schedule(ResumedWorld(Clocked(w, c, q, timeout, now), w.waiter), Next(up))
  {
    var c, e := w.current.value, BlockTimed(q, Until(timeout), now, up);
    assert Placed(w, c);
    EnqueueKeeps(w, q);
    SetAlarmKeeps(Enqueued(w, c, q), c, Alarm(q, timeout, now, false, None, 0));
    ResumeKeeps(Clocked(w, c, q, timeout, now), w.waiter);
    assert Operation(w, e) == TimedBlocked(w, c, q, timeout, now);
  }

  /** The timer of `r` has an entry for `c` that the timer of `w` does not have. */
  ghost predicate TimerGains(w: World, r: World, c: Fid, time: int) {
    && c !in Listed(w) && Listed(r) == Listed(w) + {c} && TimeOf(r, c) == time
    && forall f :: f in Listed(w) ==> TimeOf(r, f) == TimeOf(w, f)
  }

  lemma StartTimer(w: World, q: Qid, timeout: int, now: int, t: Target)
    requires Inv(w) && w.current.Some? && !InTimedBlock(w)
    ensures var c := w.current.value;
            && c in w.fibers
            && TimerGains(w, Schedule(ResumedWorld(Clocked(w, c, q, timeout, now), w.waiter), t), c, timeout)
  {
    var c := w.current.value;
    assert Placed(w, c) && AlarmOk(w, c);
    var v := Clocked(w, c, q, timeout, now);
    ClockedTimer(w, c, q, timeout, now);
    ResumedTimer(v, w.waiter);
    ScheduleLeavesTimer(ResumedWorld(v, w.waiter), t);
    SameGains(w, v, Schedule(ResumedWorld(v, w.waiter), t), c, timeout);
  }

  lemma ClockedTimer(w: World, c: Fid, q: Qid, timeout: int, now: int)
    requires c in w.fibers && c !in Listed(w)
    ensures TimerGains(w, Clocked(w, c, q, timeout, now), c, timeout)
  {
    ParkedTimer(w, c);
  }

  lemma ParkedTimer(w: World, c: Fid)
    requires c in w.fibers
    ensures var r := Parked(w, c); r.naps == w.naps && r.timer == w.timer && r.alarms == w.alarms
  {
  }

  lemma SameGains(w: World, v: World, r: World, c: Fid, time: int)
    requires TimerGains(w, v, c, time) && r.timer == v.timer && r.alarms == v.alarms && r.naps == v.naps
    ensures TimerGains(w, r, c, time)
  {
  }

  /** The two worlds look the same to the worker. */
  ghost predicate SameQueues(w: World, v: World) {
    v.runq == w.runq && v.suspq == w.suspq && v.queues == w.queues && v.fibers == w.fibers && v.current == w.current
  }

  /** The first half of `block_`: the fiber waits, the timer gains its alarm clock, the waiter is
      resumed and another fiber chosen. */
  lemma StartPlan(w: World, q: Qid, timeout: int, now: int, up: bool) returns (v: World, r: World)
    requires Inv(w) && Enabled(w, BlockTimed(q, Until(timeout), now, up)) && timeout > now && q in w.queues
    ensures r == Step(w, BlockTimed(q, Until(timeout), now, up))
    ensures var c := w.current.value;
            && c in w.runq && c in w.fibers && w.fibers[c].state.Running? && SameQueues(Enqueued(w, c, q), v)
            && TimerGains(w, r, c, timeout) && v.waiter == w.waiter
    ensures Partition(v) && Partition(ResumedWorld(v, v.waiter)) && r == Schedule(ResumedWorld(v, v.waiter), Next(up))
  {
    r := Step(w, BlockTimed(q, Until(timeout), now, up));
    v := Clocked(w, w.current.value, q, timeout, now);
    StartIs(w, q, timeout, now, up);
    StartTimer(w, q, timeout, now, Next(up));
    ClockedWaiter(w, w.current.value, q, timeout, now);
  }

  lemma ClockedWaiter(w: World, c: Fid, q: Qid, timeout: int, now: int)
    requires c in w.fibers
    ensures Clocked(w, c, q, timeout, now).waiter == w.waiter
  {
  }

  lemma ResumedTimer(w: World, f: Fid)
    ensures var r := ResumedWorld(w, f); r.timer == w.timer && r.alarms == w.alarms && r.naps == w.naps
  {
    if f in w.fibers && w.fibers[f].state.Suspended? {
      var v := Changed(Released(w, f), f, ResumedOf(w.fibers[f]));
      assert v.timer == w.timer && v.alarms == w.alarms && v.naps == w.naps;
      assert ResumedWorld(w, f) == Added(v, f, false);
    }
  }

  /** The second half, as a step of the model. */
  lemma FinishIs(w: World)
    requires Inv(w) && InTimedBlock(w)
    ensures var c, r := w.current.value, Step(w, FinishBlock);
            && r == BlockDone(w, c) && Listed(r) == Listed(w) - {c}
            && forall f :: f in Listed(r) ==> TimeOf(r, f) == TimeOf(w, f)
  {
    var c := w.current.value;
    assert Placed(w, c) && AlarmOk(w, c);
  }

  ghost predicate OfTimer(s: set<object>) {
    forall o <- s :: o is Timer || o is SortedLists.SortedList || o is AaTree.Listable
  }

  /** The waiter's list, and whose entries are in it. */
  class Timer {
    const waiter: Waiter
    ghost var entries: map<Fid, AaTree.Listable>
    ghost var owner: map<AaTree.Listable, Fid>

    constructor (waiter: Waiter, id: Fid)
      requires waiter.waiting.Valid() && waiter.waiting.tree == AaTree.Leaf
      ensures this.waiter == waiter && Shows(Init(id))
    {
      this.waiter, entries, owner := waiter, map[], map[];
    }

    ghost function Nodes(): set<AaTree.Listable>
      reads this, waiter.waiting
    {
      SortedLists.Nodes(waiter.waiting.tree)
    }

    /** The list holds exactly the entries of the world `w`, with their times. */
    ghost predicate Shows(w: World)
      reads this, waiter.waiting, Nodes()
    {
      && waiter.waiting.Valid() && EntriesOf(Listed(w), entries, owner, Nodes())
      && forall f :: f in Listed(w) ==> entries[f].time == TimeOf(w, f)
    }

    /** The objects on which the timer depends. */
    ghost function Parts(): (r: set<object>)
      reads this, waiter.waiting
      ensures OfTimer(r)
    {
      {this, waiter.waiting} + Nodes()
    }

    /** The list has room for the entry, which is in no list and has an address of its own. */
    ghost predicate CanTake(a: AaTree.Listable)
      reads this, waiter.waiting, Nodes(), a
    {
      && a.left == null && a.right == null && a.level == 0
      && waiter.waiting.size + 1 < 0x1_0000_0000_0000_0000
      && a !in Nodes() && forall n <- Nodes() :: n.addr != a.addr
    }

    twostate lemma StillShows(w: World)
      requires old(Shows(w)) && unchanged(old(Parts()))
      ensures Shows(w)
    {
    }

    twostate lemma StillCanTake(a: AaTree.Listable)
      requires old(Nodes() <= owner.Keys && CanTake(a)) && unchanged(old(Parts()) + {a})
      ensures CanTake(a)
    {
    }

    /** A new entry `a` for the fiber `c`; `r` is a world that differs in that from `w`. */
    method Set(a: AaTree.Listable, c: Fid, ghost w: World, ghost r: World)
      requires Shows(w) && TimerGains(w, r, c, a.time)
      requires CanTake(a)
      modifies this`entries, this`owner, waiter.waiting, a`left, a`right, a`level, Nodes()`left, Nodes()`right, Nodes()`level
      ensures Shows(r) && entries == old(entries)[c := a]
    {
      EntryAdded(Listed(w), entries, owner, Nodes(), c, a);
      Put(a, Nodes());
      entries, owner := entries[c := a], owner[a := c];
    }

    method Put(a: AaTree.Listable, ghost ns: set<AaTree.Listable>)
      requires waiter.waiting.Valid() && CanTake(a) && ns == Nodes()
      modifies waiter.waiting, a`left, a`right, a`level, Nodes()`left, Nodes()`right, Nodes()`level
      ensures waiter.waiting.Valid() && Nodes() == ns + {a} && a.time == old(a.time)
      ensures forall n <- ns :: n.time == old(n.time)
    {
      waiter.ScheduleTask(a);
    }

    /** The entry of the fiber `c` is gone afterwards, whether or not it was in the list. */
    method Clear(a: AaTree.Listable, c: Fid, ghost w: World, ghost r: World)
      requires Shows(w) && c in entries && entries[c] == a && (c !in Listed(w) ==> a !in Nodes())
      requires Listed(r) == Listed(w) - {c} && forall f :: f in Listed(r) ==> TimeOf(r, f) == TimeOf(w, f)
      requires forall n <- Nodes() :: n.addr == a.addr ==> n == a
      modifies waiter.waiting, Nodes()`left, Nodes()`right, Nodes()`level
      ensures Shows(r) && a !in Nodes()
    {
      EntryRemoved(Listed(w), entries, owner, Nodes(), c);
      var was := waiter.UnscheduleTask(a);
    }
  }

  /** A worker and its timer. */
  class Blocker {
    const worker: Worker
    const timer: Timer
    const id: Fid    // of the waiter's fiber

    constructor (worker: Worker, timer: Timer, id: Fid)
      ensures this.worker == worker && this.timer == timer && this.id == id
    {
      this.worker, this.timer, this.id := worker, timer, id;
    }

    /** `block_` until it switches to another fiber.  `a` is the new alarm clock. */
    method Start(a: AaTree.Listable, q: Qid, timeout: int, now: int, up: bool, ghost w: World)
      returns (ghost r: World)
      requires worker.Shows(w) && timer.Shows(w) && Inv(w) && id == w.waiter && q in worker.queues.waits
      requires Enabled(w, BlockTimed(q, Until(timeout), now, up)) && timeout > now
      requires timer.CanTake(a) && a.time == timeout
      modifies timer`entries, timer`owner, timer.waiter.waiting, a`left, a`right, a`level
      modifies timer.Nodes()`left, timer.Nodes()`right, timer.Nodes()`level
      modifies worker`fibers, worker`links, worker`current, worker.lists`contents, worker.lists`home
      modifies worker.lists`loose, worker.queues.runnable, worker.queues.suspended, worker.queues.waits[q]
      modifies worker.lists.links
      ensures r == Step(w, BlockTimed(q, Until(timeout), now, up)) && worker.Shows(r) && timer.Shows(r)
      ensures timer.entries == old(timer.entries)[w.current.value := a]
    {
      ghost var v;
      v, r := StartPlan(w, q, timeout, now, up);
      var c := worker.current.value;
      StartWith(a, c, q, up, v, w, r);
    }

    method StartWith(
        a: AaTree.Listable, c: Fid, q: Qid, up: bool, ghost v: World, ghost w: World, ghost r: World)
      requires worker.Shows(w) && timer.Shows(w) && q in worker.queues.waits && timer.CanTake(a)
      requires c in w.runq && c in w.fibers && w.fibers[c].state.Running? && TimerGains(w, r, c, a.time)
      requires SameQueues(Enqueued(w, c, q), v)
      requires Partition(v) && id == v.waiter && Partition(ResumedWorld(v, id))
      modifies timer`entries, timer`owner, timer.waiter.waiting, a`left, a`right, a`level
      modifies timer.Nodes()`left, timer.Nodes()`right, timer.Nodes()`level
      modifies worker`fibers, worker`links, worker`current, worker.lists`contents, worker.lists`home
      modifies worker.lists`loose, worker.queues.runnable, worker.queues.suspended, worker.queues.waits[q]
      modifies worker.lists.links
      ensures worker.Shows(Schedule(ResumedWorld(v, id), Next(up))) && timer.Shows(r)
      ensures timer.entries == old(timer.entries)[c := a]
    {
      WaitWithClock(a, c, q, w, r);
      worker.SameShown(Enqueued(w, c, q), v);
      SwitchAway(up, v, r);
    }

    /** The fiber leaves the run queue and waits, and its alarm clock goes into the list. */
    method WaitWithClock(a: AaTree.Listable, c: Fid, q: Qid, ghost w: World, ghost r: World)
      requires worker.Shows(w) && timer.Shows(w) && q in worker.queues.waits && timer.CanTake(a)
      requires c in w.runq && c in w.fibers && w.fibers[c].state.Running? && TimerGains(w, r, c, a.time)
      modifies timer`entries, timer`owner, timer.waiter.waiting, a`left, a`right, a`level
      modifies timer.Nodes()`left, timer.Nodes()`right, timer.Nodes()`level
      modifies worker`fibers, worker.lists`contents, worker.lists`home, worker.lists`loose
      modifies worker.queues.runnable, worker.queues.waits[q], worker.lists.links
      ensures worker.Shows(Enqueued(w, c, q)) && timer.Shows(r) && timer.entries == old(timer.entries)[c := a]
      ensures worker.queues == old(worker.queues) && worker.lists.links == old(worker.lists.links)
    {
      Wait(a, c, q, w);
      SetClock(a, c, Enqueued(w, c, q), w, r);
    }

    method Wait(a: AaTree.Listable, c: Fid, q: Qid, ghost w: World)
      requires worker.Shows(w) && timer.Shows(w) && q in worker.queues.waits && timer.CanTake(a)
      requires c in w.runq && c in w.fibers && w.fibers[c].state.Running?
      modifies worker`fibers, worker.lists`contents, worker.lists`home, worker.lists`loose
      modifies worker.queues.runnable, worker.queues.waits[q], worker.lists.links
      ensures worker.Shows(Enqueued(w, c, q)) && timer.Shows(w) && timer.CanTake(a) && a.time == old(a.time)
      ensures worker.queues == old(worker.queues) && worker.lists.links == old(worker.lists.links)
    {
      label before:
      EnqueueApart(c, q, timer.Parts() + {a}, w);
      timer.StillShows@before(w);
      timer.StillCanTake@before(a);
    }

    method EnqueueApart(c: Fid, q: Qid, ghost apart: set<object>, ghost w: World)
      requires OfTimer(apart)
      requires worker.Shows(w) && q in worker.queues.waits
      requires c in w.runq && c in w.fibers && w.fibers[c].state.Running?
      modifies worker`fibers, worker.lists`contents, worker.lists`home, worker.lists`loose
      modifies worker.queues.runnable, worker.queues.waits[q], worker.lists.links
      ensures worker.Shows(Enqueued(w, c, q))
      ensures unchanged(apart)
      ensures worker.queues == old(worker.queues) && worker.lists.links == old(worker.lists.links)
    {
      worker.Enqueue(q, c, w);
    }

    /** Its alarm clock goes into the list, which then is that of the world `r`. */
    method SetClock(a: AaTree.Listable, c: Fid, ghost v: World, ghost w: World, ghost r: World)
      requires worker.Shows(v) && timer.Shows(w) && timer.CanTake(a) && TimerGains(w, r, c, a.time)
      modifies timer`entries, timer`owner, timer.waiter.waiting, a`left, a`right, a`level
      modifies timer.Nodes()`left, timer.Nodes()`right, timer.Nodes()`level
      ensures worker.Shows(v) && timer.Shows(r) && timer.entries == old(timer.entries)[c := a]
      ensures worker.queues == old(worker.queues) && worker.lists.links == old(worker.lists.links)
    {
      timer.Set(a, c, w, r);
    }

    /** The waiter's fiber is resumed, and another fiber chosen. */
    method SwitchAway(up: bool, ghost v: World, ghost r: World)
      requires worker.Shows(v) && timer.Shows(r) && Partition(v) && id == v.waiter
      requires Partition(ResumedWorld(v, id))
      modifies worker`fibers, worker`links, worker`current, worker.lists`contents, worker.lists`home
      modifies worker.lists`loose, worker.queues.runnable, worker.queues.suspended, worker.lists.links
      ensures worker.Shows(Schedule(ResumedWorld(v, id), Next(up))) && timer.Shows(r)
      ensures timer.entries == old(timer.entries)
    {
      SortedLists.NodesAllocated(timer.waiter.waiting.tree);
      ResumeAndSchedule(up, v);
    }

    method ResumeAndSchedule(up: bool, ghost v: World)
      requires worker.Shows(v) && Partition(v) && id == v.waiter && Partition(ResumedWorld(v, id))
      modifies worker`fibers, worker`links, worker`current, worker.lists`contents, worker.lists`home
      modifies worker.lists`loose, worker.queues.runnable, worker.queues.suspended, worker.lists.links
      ensures worker.Shows(Schedule(ResumedWorld(v, id), Next(up)))
    {
      if id in worker.fibers {
        worker.ResumeFiber(id, v);
      }
      var _ := worker.DoSchedule(Next(up), ResumedWorld(v, id));
    }

    /** The rest of `block_`, when the fiber is back. */
    method Finish(a: AaTree.Listable, rang: bool, ghost w: World) returns (answer: bool, ghost r: World)
      requires worker.Shows(w) && timer.Shows(w) && Inv(w) && InTimedBlock(w)
      requires var c := w.current.value; c in timer.entries && timer.entries[c] == a && rang == w.alarms[c].rang
      requires w.current.value !in Listed(w) ==> a !in timer.Nodes()
      requires forall n <- timer.Nodes() :: n.addr == a.addr ==> n == a
      modifies timer.waiter.waiting, timer.Nodes()`left, timer.Nodes()`right, timer.Nodes()`level
      ensures r == Step(w, FinishBlock) && worker.Shows(r) && timer.Shows(r)
      ensures a !in timer.Nodes() && answer == BlockResult(w)
    {
      r := Step(w, FinishBlock);
      FinishIs(w);
      worker.SameShown(w, r);
      ClearClock(a, worker.current.value, w, r);
      answer := !rang;
    }

    method ClearClock(a: AaTree.Listable, c: Fid, ghost w: World, ghost r: World)
      requires worker.Shows(r) && timer.Shows(w)
      requires c in timer.entries && timer.entries[c] == a && (c !in Listed(w) ==> a !in timer.Nodes())
      requires Listed(r) == Listed(w) - {c} && forall f :: f in Listed(r) ==> TimeOf(r, f) == TimeOf(w, f)
      requires forall n <- timer.Nodes() :: n.addr == a.addr ==> n == a
      modifies timer.waiter.waiting, timer.Nodes()`left, timer.Nodes()`right, timer.Nodes()`level
      ensures worker.Shows(r) && timer.Shows(r) && a !in timer.Nodes()
    {
      timer.Clear(a, c, w, r);
    }
  }
}
