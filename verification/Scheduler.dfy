/** Fibers, the worker's queues, the timer and the wait queues, as one transition system.

    A step is what happens between two scheduling points: an operation by the current fiber, and the
    choice of the next fiber if the operation ends with one. */
module Scheduler {
  import opened Common
  import opened Fibers
  import Time

  type Fid = nat
  type Qid = nat

  // ---------------------------------------------------------------- the world

  datatype Dequeuer = ByAlarm | ByUnblock

  /** The alarm clock on the stack of a fiber inside a timed block: the queue it guards, its timeout,
      and whether it rang.  `now` is when the block was asked for; `out` and `wakes` record who took
      the fiber out of the queue and how often it was handed to the run queue. */
  datatype Alarm = Alarm(q: Qid, timeout: int, now: int, rang: bool, out: Option<Dequeuer>, wakes: nat)

  /** An answer to `blockUntil` or `blockFor`: what was asked, what was returned, and who took the
      fiber out of the queue, if it ever was in it. */
  datatype Answer = Answer(f: Fid, timeout: int, now: int, result: bool, out: Option<Dequeuer>)

  /** `current` is None in the worker's own context.  `blockedOn` is the inverse of `queues`.  `naps`
      and `timer` are what the waiter has in its list: naps, and alarm clocks by their fibers; the
      alarm clocks themselves are in `alarms`.  `log` lists the fibers that `schedule` picked,
      `fronts` counts insertions at the front and `answers` lists what timed blocks returned. */
  datatype World = World(
    fibers: map<Fid, Fiber>, current: Option<Fid>,
    runq: seq<Fid>, suspq: seq<Fid>,
    queues: map<Qid, seq<Fid>>, blockedOn: map<Fid, Qid>,
    naps: map<Fid, int>, timer: set<Fid>, alarms: map<Fid, Alarm>, waiter: Fid,
    log: seq<Fid>, fronts: nat, answers: seq<Answer>)

  function Queue(w: World, q: Qid): seq<Fid> {
    if q in w.queues then w.queues[q] else []
  }

  predicate InRunQueue(s: FiberState) {
    s.New? || s.Ready? || s.Running? || s.Dead?
  }

  /** A worker with only its waiter, which starts suspended. */
  function Init(waiter: Fid): World {
    World(map[waiter := Fiber(Suspended, New)], None, [], [waiter], map[], map[], map[], {}, map[],
          waiter, [], 0, [])
  }

  // ---------------------------------------------------------------- queues of the worker

  /** `Worker::add`. */
  function Added(w: World, f: Fid, front: bool): World
    requires f in w.fibers
  {
    if w.fibers[f].state.Suspended? then w.(suspq := w.suspq + [f])
    else if front then w.(runq := [f] + w.runq, fronts := w.fronts + 1)
    else w.(runq := w.runq + [f])
  }

  /** `Worker::release`. */
  function Released(w: World, f: Fid): World
    requires f in w.fibers
  {
    if w.fibers[f].state.Suspended? then w.(suspq := Without(w.suspq, f))
    else w.(runq := Without(w.runq, f))
  }

  function Changed(w: World, f: Fid, fiber: Fiber): World {
    w.(fibers := w.fibers[f := fiber])
  }

  // ---------------------------------------------------------------- choosing a fiber

  /** Context switch: the old fiber, if it was running, is ready again. */
  function HandedOver(fibers: map<Fid, Fiber>, from: Option<Fid>, to: Option<Fid>): map<Fid, Fiber> {
    var fs := if from.Some? && from.value in fibers && fibers[from.value].state.Running?
              then fibers[from.value := fibers[from.value].(state := Ready)] else fibers;
    if to.Some? && to.value in fs then fs[to.value := fs[to.value].(state := Running)] else fs
  }

  function SwitchTo(w: World, to: Option<Fid>): World {
    w.(fibers := HandedOver(w.fibers, w.current, to), current := to)
  }

  /** `rotate(*++cyclic(n))`: the member after the one at `i` becomes the first. */
  function RotatedPast(s: seq<Fid>, i: nat): seq<Fid>
    requires i < |s|
  {
    s[i + 1..] + s[..i + 1]
  }

  /** The preferred fiber if there is one, otherwise the front of the queue; None is the worker. */
  datatype Target = Any | Prefer(f: Fid) | ToWorker

  /** The member at `i` is chosen: the queue turns, and a new fiber is initialized. */
  function Picked(w: World, i: nat): World
    requires i < |w.runq| && w.runq[i] in w.fibers
  {
    var n := w.runq[i];
    Changed(w.(runq := RotatedPast(w.runq, i), log := w.log + [n]), n, Started(w.fibers[n]))
  }

  /** `Worker::cleanup` of another fiber than the current one. */
  function CleanedUp(w: World, n: Fid): World {
    w.(runq := Without(w.runq, n), fibers := w.fibers - {n})
  }

  /** The reschedule loop of `schedule`: dead fibers on the way are cleaned up. */
  function Schedule(w: World, t: Target): World
    decreases |w.runq|
  {
    if t.ToWorker? || w.runq == [] || (t.Prefer? && t.f !in w.runq) then SwitchTo(w, None)
    else
      var i := if t.Prefer? then IndexOf(w.runq, t.f) else 0;
      var n := w.runq[i];
      if n !in w.fibers then w
      else
        var p := Picked(w, i);
        match p.fibers[n].state
        case Running => p
        case Dead =>
          if w.current == Some(n) then SwitchTo(p, None)
          else
            assert n in p.runq;
            Schedule(CleanedUp(p, n), Any)
        case _ => SwitchTo(p, Some(n))
  }

  // ---------------------------------------------------------------- steps

  /** What `blockUntil` and `blockFor` are asked. */
  datatype Ask = Until(timeout: int) | For(dt: Time.Interval)

  function Deadline(ask: Ask, now: int): int {
    match ask
    case Until(timeout) => timeout
    case For(dt) => now + Time.Value(dt)
  }

  /** Their guards for returning at once, with true. */
  predicate AtOnce(ask: Ask, now: int) {
    match ask
    case Until(timeout) => timeout <= now
    case For(dt) => dt.negative || (dt.sec == 0 && dt.nsec == 0)
  }

  /** Intervals are as `TimeInterval` keeps them. */
  predicate Sensible(ask: Ask) {
    ask.For? ==> Time.InRange(ask.dt)
  }

  /** In the events that end with a scheduling point, `up` says that the run time of the worker is
      over, so that it hands over to the worker itself. */
  datatype Event =
    | Spawn(f: Fid)
    | Yield(t: Target)
    | Block(q: Qid, up: bool)
    | BlockTimed(q: Qid, ask: Ask, now: int, up: bool)
    | FinishBlock
    | Unblock(q: Qid, f: Fid, prio: bool)
    | UnblockFirst(q: Qid, prio: bool)
    | Nap(timeout: int, up: bool)
    | EndNap(f: Fid)
    | Postpone(f: Fid, timeout: int)
    | Ring(f: Fid)
    | Suspend(f: Fid, up: bool)
    | Resume(f: Fid)
    | Exit(up: bool)

  /** The current fiber has just come back inside a timed block, and has to leave it first. */
  predicate InTimedBlock(w: World) {
    w.current.Some? && w.current.value in w.alarms
  }

  /** When an event can happen.  The last line of the list is the one restriction on callers:
      nobody suspends a fiber that waits. */
  predicate Enabled(w: World, e: Event) {
    && (InTimedBlock(w) <==> e.FinishBlock?)
    && match e
       case Spawn(f) => f !in w.fibers
       case Yield(t) => t.Prefer? ==> t.f in w.runq
       case Block(_, _) => w.current.Some?
       case BlockTimed(_, ask, _, _) => w.current.Some? && Sensible(ask)
       case Nap(_, _) => w.current.Some?
       case Exit(_) => w.current.Some?
       case EndNap(f) => f in w.naps
       case Postpone(f, _) => f in w.naps
       case Ring(f) => f in w.timer
       case Resume(f) => f in w.fibers
       case Suspend(f, _) => f in w.fibers && !w.fibers[f].state.Waiting?
       case _ => true
  }

  /** The current fiber stops being runnable. */
  function Parked(w: World, c: Fid): World
    requires c in w.fibers
  {
    Changed(Released(w, c), c, Napping(w.fibers[c]))
  }

  function Enqueued(w: World, c: Fid, q: Qid): World
    requires c in w.fibers
  {
    Parked(w, c).(queues := w.queues[q := Queue(w, q) + [c]], blockedOn := w.blockedOn[c := q])
  }

  function LeftQueue(w: World, f: Fid, q: Qid, who: Dequeuer): World {
    w.(queues := w.queues[q := Without(Queue(w, q), f)], blockedOn := w.blockedOn - {f},
       alarms := if f in w.alarms
                 then w.alarms[f := w.alarms[f].(out := Some(who), wakes := w.alarms[f].wakes + 1)]
                 else w.alarms)
  }

  /** `f` goes from wait queue `q` to the run queue. */
  function Dequeued(w: World, f: Fid, q: Qid, who: Dequeuer, front: bool): World
    requires f in w.fibers
  {
    Added(Changed(LeftQueue(w, f, q, who), f, WokenUp(w.fibers[f])), f, front)
  }

  function Unblocked(w: World, q: Qid, f: Fid, who: Dequeuer, front: bool): World {
    if f in Queue(w, q) && f in w.fibers then Dequeued(w, f, q, who, front) else w
  }

  function ResumedWorld(w: World, f: Fid): World {
    if f in w.fibers && w.fibers[f].state.Suspended?
    then Added(Changed(Released(w, f), f, ResumedOf(w.fibers[f])), f, false) else w
  }

  function SuspendedWorld(w: World, f: Fid): World
    requires f in w.fibers
  {
    Added(Changed(Released(w, f), f, SuspendedOf(w.fibers[f])), f, false)
  }

  /** The waiter drops the alarm from its list and polls it. */
  function Rung(w: World, f: Fid): World
    requires f in w.alarms
  {
    var a := w.alarms[f];
    var rang := f in Queue(w, a.q) && f in w.fibers;
    Unblocked(w.(timer := w.timer - {f}, alarms := w.alarms[f := a.(rang := rang)]), a.q, f, ByAlarm, false)
  }

  /** What an event does before the next fiber is chosen, if one is. */
  function Operation(w: World, e: Event): World {
    match e
    case Spawn(f) => Changed(w, f, Fiber(New, Ready)).(runq := w.runq + [f])
    case Unblock(q, f, prio) => Unblocked(w, q, f, ByUnblock, prio)
    case UnblockFirst(q, prio) =>
      if Queue(w, q) == [] then w else Unblocked(w, q, Queue(w, q)[0], ByUnblock, prio)
    case EndNap(f) =>
      if f !in w.naps || f !in w.fibers then w
      else Added(Changed(w.(naps := w.naps - {f}), f, WokenUp(w.fibers[f])), f, true)
    case Postpone(f, timeout) => w.(naps := w.naps[f := timeout])
    case Ring(f) => if f in w.alarms then Rung(w, f) else w
    case Resume(f) => ResumedWorld(w, f)
    case Suspend(f, _) =>
      if f !in w.fibers || w.fibers[f].state.Dead? || w.fibers[f].state.Suspended? then w
      else SuspendedWorld(w, f)
    case Yield(_) => w
    case _ =>
      if w.current.None? || w.current.value !in w.fibers then w else OwnOperation(w, w.current.value, e)
  }

  /** The first part of `block_`: the fiber waits in the queue, and its alarm clock in the list. */
  function TimedBlocked(w: World, c: Fid, q: Qid, timeout: int, now: int): World
    requires c in w.fibers
  {
    ResumedWorld(
      Enqueued(w, c, q).(timer := w.timer + {c}, alarms := w.alarms[c := Alarm(q, timeout, now, false, None, 0)]),
      w.waiter)
  }

  /** The last lines of `block_`: `unscheduleTask`, which looks before it takes the alarm clock out of
      the list, and the answer; then the alarm clock goes out of scope. */
  function Unscheduled(w: World, c: Fid): World {
    if c in w.timer then w.(timer := w.timer - {c}) else w
  }

  function BlockDone(w: World, c: Fid): World {
    if c !in w.alarms then w
    else
      var a := w.alarms[c];
      Unscheduled(w, c).(alarms := w.alarms - {c},
                         answers := w.answers + [Answer(c, a.timeout, a.now, !a.rang, a.out)])
  }

  function AnsweredAtOnce(w: World, c: Fid, timeout: int, now: int): World {
    w.(answers := w.answers + [Answer(c, timeout, now, true, None)])
  }

  /** `blockUntil` and `blockFor`, after their guard. */
  function Asked(w: World, c: Fid, q: Qid, timeout: int, now: int, atOnce: bool): World
    requires c in w.fibers
  {
    if atOnce then AnsweredAtOnce(w, c, timeout, now) else TimedBlocked(w, c, q, timeout, now)
  }

  /** The operations that a fiber only performs on itself. */
  function OwnOperation(w: World, c: Fid, e: Event): World
    requires c in w.fibers
  {
    match e
    case Block(q, _) => Enqueued(w, c, q)
    case BlockTimed(q, ask, now, _) => Asked(w, c, q, Deadline(ask, now), now, AtOnce(ask, now))
    case Nap(timeout, _) => ResumedWorld(Parked(w, c).(naps := w.naps[c := timeout]), w.waiter)
    case Exit(_) => Changed(w, c, w.fibers[c].(state := Dead))
    case _ => BlockDone(w, c)
  }

  function Next(up: bool): Target {
    if up then ToWorker else Any
  }

  /** The scheduling point at the end of an event, if it has one. */
  function Switches(w: World, e: Event): Option<Target> {
    match e
    case Yield(t) => Some(t)
    case Block(_, up) => Some(Next(up))
    case BlockTimed(_, ask, now, up) => if AtOnce(ask, now) then None else Some(Next(up))
    case Nap(_, up) => Some(Next(up))
    case Exit(up) => Some(Next(up))
    case Suspend(f, up) => if f in w.fibers && w.fibers[f].state.Running? then Some(Next(up)) else None
    case _ => None
  }

  function Step(w: World, e: Event): World {
    var t := Switches(w, e);
    if t.None? then Operation(w, e) else Schedule(Operation(w, e), t.value)
  }

  // ---------------------------------------------------------------- the partition

  /** Fiber `f` sits in the one container that its state says. */
  ghost predicate Placed(w: World, f: Fid) {
    && (f in w.runq <==> f in w.fibers && InRunQueue(w.fibers[f].state))
    && (f in w.suspq <==> f in w.fibers && w.fibers[f].state.Suspended?)
    && (f in w.naps || f in w.blockedOn <==> f in w.fibers && w.fibers[f].state.Waiting?)
    && !(f in w.naps && f in w.blockedOn)
    && (f in w.fibers ==>
          var b := w.fibers[f];
          && (b.state.Running? ==> w.current == Some(f))
          && (b.state.New? || b.state.Waiting? ==> b.next.Ready?)
          && (b.state.Suspended? ==> b.next.New? || b.next.Ready?))
  }

  /** The alarm clock of a fiber in a timed block: the fiber is handed to the run queue once, by the
      alarm if and only if it says that it rang, and the alarm stays in the list until it rings. */
  ghost predicate AlarmOk(w: World, f: Fid) {
    && (f in w.timer ==> f in w.alarms)
    && (f in w.alarms ==>
      var a := w.alarms[f];
      && f in w.fibers && !w.fibers[f].state.Dead? && f !in w.naps
      && (a.out.None? <==> f in w.blockedOn)
      && (f in w.blockedOn ==> w.blockedOn[f] == a.q)
      && (a.rang <==> a.out == Some(ByAlarm))
      && a.wakes == (if a.out.None? then 0 else 1)
      && a.timeout > a.now
      && (f !in w.timer ==> a.out.Some?)
      && (a.rang ==> f !in w.timer))
  }

  ghost predicate QueueOk(w: World, q: Qid) {
    && NoDup(Queue(w, q))
    && forall f :: f in Queue(w, q) <==> f in w.blockedOn && w.blockedOn[f] == q
  }

  /** Everything but the claim that the current fiber runs, which fails just before `schedule`. */
  ghost predicate Partition(w: World) {
    && NoDup(w.runq) && NoDup(w.suspq)
    && (forall q :: QueueOk(w, q))
    && (forall f :: Placed(w, f))
    && (forall f :: AlarmOk(w, f))
    && (w.current.Some? ==> w.current.value in w.fibers)
  }

  ghost predicate Inv(w: World) {
    Partition(w) && (w.current.Some? ==> w.fibers[w.current.value].state.Running?)
  }

  lemma ReleasedNoDup(w: World, f: Fid)
    requires Partition(w) && f in w.fibers
    ensures NoDup(Released(w, f).runq) && NoDup(Released(w, f).suspq)
  {
    WithoutNoDup(w.runq, f);
    WithoutNoDup(w.suspq, f);
  }

  lemma ResumeKeeps(w: World, f: Fid)
    requires Partition(w)
    ensures Partition(ResumedWorld(w, f))
    ensures ResumedWorld(w, f).current == w.current
    ensures forall g :: g in w.fibers && w.fibers[g].state.Running? ==> ResumedWorld(w, f).fibers[g] == w.fibers[g]
  {
    if f in w.fibers && w.fibers[f].state.Suspended? {
      assert Placed(w, f);
      ReleasedNoDup(w, f);
      NoDupAppend(w.runq, f);
      var w' := ResumedWorld(w, f);
      forall g ensures Placed(w', g) { assert Placed(w, g); }
      forall g ensures AlarmOk(w', g) { assert AlarmOk(w, g); }
      forall q ensures QueueOk(w', q) { assert QueueOk(w, q); }
    }
  }

  lemma SuspendKeeps(w: World, f: Fid)
    requires Partition(w) && f in w.fibers
    requires w.fibers[f].state.New? || w.fibers[f].state.Ready? || w.fibers[f].state.Running?
    ensures Partition(SuspendedWorld(w, f))
  {
    assert Placed(w, f);
    ReleasedNoDup(w, f);
    NoDupAppend(w.suspq, f);
    var w' := SuspendedWorld(w, f);
    forall g ensures Placed(w', g) { assert Placed(w, g); }
    forall g ensures AlarmOk(w', g) { assert AlarmOk(w, g); }
    forall q ensures QueueOk(w', q) { assert QueueOk(w, q); }
  }

  lemma EnqueueKeeps(w: World, q: Qid)
    requires Inv(w) && w.current.Some? && !InTimedBlock(w)
    ensures Partition(Enqueued(w, w.current.value, q))
  {
    var c := w.current.value;
    assert Placed(w, c);
    assert QueueOk(w, q);
    ReleasedNoDup(w, c);
    var w' := Enqueued(w, c, q);
    forall g ensures Placed(w', g) { assert Placed(w, g); }
    forall g ensures AlarmOk(w', g) { assert AlarmOk(w, g); }
    forall p ensures QueueOk(w', p) { EnqueuedQueue(w, c, q, p); }
  }

  lemma EnqueuedQueue(w: World, c: Fid, q: Qid, p: Qid)
    requires c in w.fibers && c !in w.blockedOn && QueueOk(w, q) && QueueOk(w, p)
    ensures QueueOk(Enqueued(w, c, q), p)
  {
    NoDupAppend(Queue(w, q), c);
  }

  lemma NapKeeps(w: World, timeout: int)
    requires Inv(w) && w.current.Some? && !InTimedBlock(w)
    ensures var c := w.current.value; Partition(Parked(w, c).(naps := w.naps[c := timeout]))
  {
    var c := w.current.value;
    assert Placed(w, c);
    ReleasedNoDup(w, c);
    var w' := Parked(w, c).(naps := w.naps[c := timeout]);
    forall g ensures Placed(w', g) { assert Placed(w, g); }
    forall g ensures AlarmOk(w', g) { assert AlarmOk(w, g); }
    forall p ensures QueueOk(w', p) { assert QueueOk(w, p); }
  }

  lemma DequeueKeeps(w: World, f: Fid, q: Qid, front: bool)
    requires Inv(w) && f in Queue(w, q)
    ensures f in w.fibers && Inv(Dequeued(w, f, q, ByUnblock, front))
  {
    assert QueueOk(w, q) && Placed(w, f) && AlarmOk(w, f);
    WithoutNoDup(Queue(w, q), f);
    NoDupAppend(w.runq, f);
    var w' := Dequeued(w, f, q, ByUnblock, front);
    forall g ensures Placed(w', g) { assert Placed(w, g); }
    forall g ensures AlarmOk(w', g) { assert AlarmOk(w, g); }
    forall p ensures QueueOk(w', p) { assert QueueOk(w, p); }
  }

  lemma RingKeeps(w: World, f: Fid)
    requires Inv(w) && f in w.timer
    ensures f in w.alarms && Inv(Rung(w, f))
  {
    assert AlarmOk(w, f);
    var a, w' := w.alarms[f], Rung(w, f);
    assert QueueOk(w, a.q) && Placed(w, f) && AlarmOk(w, f);
    WithoutNoDup(Queue(w, a.q), f);
    if f in Queue(w, a.q) { NoDupAppend(w.runq, f); }
    forall g ensures Placed(w', g) { assert Placed(w, g); }
    forall g ensures AlarmOk(w', g) { assert AlarmOk(w, g); }
    forall p ensures QueueOk(w', p) { assert QueueOk(w, p); }
  }

  lemma EndNapKeeps(w: World, f: Fid)
    requires Inv(w) && f in w.naps
    ensures Inv(Operation(w, EndNap(f)))
  {
    assert Placed(w, f) && AlarmOk(w, f);
    NoDupAppend(w.runq, f);
    var w' := Operation(w, EndNap(f));
    forall g ensures Placed(w', g) { assert Placed(w, g); }
    forall g ensures AlarmOk(w', g) { assert AlarmOk(w, g); }
    forall p ensures QueueOk(w', p) { assert QueueOk(w, p); }
  }

  /** Changes of the fibers' states that keep every fiber in its container. */
  lemma SwitchKeeps(w: World, to: Option<Fid>)
    requires Partition(w)
    requires to.Some? ==> to.value in w.fibers && w.fibers[to.value].state.Ready?
    ensures Inv(SwitchTo(w, to))
  {
    var w' := SwitchTo(w, to);
    forall g ensures Placed(w', g) { assert Placed(w, g); }
    forall g ensures AlarmOk(w', g) { assert AlarmOk(w, g); }
    forall p ensures QueueOk(w', p) { assert QueueOk(w, p); }
  }

  lemma RotateKeeps(w: World, i: nat, log: seq<Fid>)
    requires Partition(w) && i < |w.runq|
    ensures Partition(w.(runq := RotatedPast(w.runq, i), log := log))
    ensures forall x :: x in RotatedPast(w.runq, i) <==> x in w.runq
  {
    var r := RotatedPast(w.runq, i);
    NoDupTurns(w.runq, i + 1);
    assert w.runq == w.runq[..i + 1] + w.runq[i + 1..];
    var w' := w.(runq := r, log := log);
    forall g ensures Placed(w', g) { assert Placed(w, g); }
    forall g ensures AlarmOk(w', g) { assert AlarmOk(w, g); }
    forall p ensures QueueOk(w', p) { assert QueueOk(w, p); }
  }

  lemma StartKeeps(w: World, n: Fid)
    requires Partition(w) && n in w.runq
    ensures n in w.fibers && Partition(Changed(w, n, Started(w.fibers[n])))
  {
    assert Placed(w, n);
    var w' := Changed(w, n, Started(w.fibers[n]));
    forall g ensures Placed(w', g) { assert Placed(w, g); }
    forall g ensures AlarmOk(w', g) { assert AlarmOk(w, g); }
    forall p ensures QueueOk(w', p) { assert QueueOk(w, p); }
  }

  lemma CleanupKeeps(w: World, n: Fid)
    requires Partition(w) && n in w.fibers && w.fibers[n].state.Dead? && w.current != Some(n)
    ensures Partition(CleanedUp(w, n))
  {
    WithoutNoDup(w.runq, n);
    var w' := CleanedUp(w, n);
    assert Placed(w, n) && AlarmOk(w, n);
    forall g ensures Placed(w', g) { assert Placed(w, g); }
    forall g ensures AlarmOk(w', g) { assert AlarmOk(w, g); }
    forall p ensures QueueOk(w', p) { assert QueueOk(w, p); }
  }

  /** Whatever was left by the operation before it, `schedule` ends with every fiber in place and
      the current fiber, if any, running. */
  lemma {:induction false} ScheduleKeeps(w: World, t: Target)
    requires Partition(w) && (t.Prefer? ==> t.f in w.runq)
    ensures Inv(Schedule(w, t))
    decreases |w.runq|
  {
    if t.ToWorker? || w.runq == [] {
      SwitchKeeps(w, None);
    } else {
      var i := if t.Prefer? then IndexOf(w.runq, t.f) else 0;
      var n := w.runq[i];
      assert n in w.runq;
      assert Placed(w, n);
      RotateKeeps(w, i, w.log + [n]);
      StartKeeps(w.(runq := RotatedPast(w.runq, i), log := w.log + [n]), n);
      var p := Picked(w, i);
      assert Placed(p, n);
      match p.fibers[n].state
      case Running =>
      case Dead =>
        if w.current == Some(n) {
          SwitchKeeps(p, None);
        } else {
          CleanupKeeps(p, n);
          ScheduleKeeps(CleanedUp(p, n), Any);
        }
      case _ => SwitchKeeps(p, Some(n));
    }
  }

  // ---------------------------------------------------------------- runs

  lemma SpawnKeeps(w: World, f: Fid)
    requires Inv(w) && f !in w.fibers
    ensures Inv(Operation(w, Spawn(f)))
  {
    assert Placed(w, f);
    NoDupAppend(w.runq, f);
    var w' := Operation(w, Spawn(f));
    forall g ensures Placed(w', g) { assert Placed(w, g); }
    forall g ensures AlarmOk(w', g) { assert AlarmOk(w, g); }
    forall p ensures QueueOk(w', p) { assert QueueOk(w, p); }
  }

  lemma ExitKeeps(w: World)
    requires Inv(w) && w.current.Some? && !InTimedBlock(w)
    ensures var c := w.current.value; Partition(Changed(w, c, w.fibers[c].(state := Dead)))
  {
    var c := w.current.value;
    var w' := Changed(w, c, w.fibers[c].(state := Dead));
    forall g ensures Placed(w', g) { assert Placed(w, g); }
    forall g ensures AlarmOk(w', g) { assert AlarmOk(w, g); }
    forall p ensures QueueOk(w', p) { assert QueueOk(w, p); }
  }

  lemma SetAlarmKeeps(w: World, c: Fid, a: Alarm)
    requires Partition(w) && c in w.blockedOn && a.timeout > a.now
    requires a == Alarm(w.blockedOn[c], a.timeout, a.now, false, None, 0)
    ensures Partition(w.(timer := w.timer + {c}, alarms := w.alarms[c := a]))
  {
    var w' := w.(timer := w.timer + {c}, alarms := w.alarms[c := a]);
    forall g ensures Placed(w', g) { assert Placed(w, g); }
    forall g ensures AlarmOk(w', g) { assert AlarmOk(w, g) && Placed(w, g); }
    forall p ensures QueueOk(w', p) { assert QueueOk(w, p); }
  }

  lemma TimedBlockKeeps(w: World, q: Qid, timeout: int, now: int)
    requires Inv(w) && w.current.Some? && !InTimedBlock(w) && timeout > now
    ensures Partition(TimedBlocked(w, w.current.value, q, timeout, now))
  {
    var c, a := w.current.value, Alarm(q, timeout, now, false, None, 0);
    EnqueueKeeps(w, q);
    SetAlarmKeeps(Enqueued(w, c, q), c, a);
    ResumeKeeps(Enqueued(w, c, q).(timer := w.timer + {c}, alarms := w.alarms[c := a]), w.waiter);
  }

  /** Both guards say that the deadline is not in the future. */
  lemma AtOnceIff(ask: Ask, now: int)
    requires Sensible(ask)
    ensures AtOnce(ask, now) <==> Deadline(ask, now) <= now
  {
  }

  lemma AnswerKeeps(w: World, a: Answer)
    requires Inv(w)
    ensures Inv(w.(answers := w.answers + [a]))
  {
    var w' := w.(answers := w.answers + [a]);
    forall g ensures Placed(w', g) { assert Placed(w, g); }
    forall g ensures AlarmOk(w', g) { assert AlarmOk(w, g); }
    forall p ensures QueueOk(w', p) { assert QueueOk(w, p); }
  }

  lemma PostponeKeeps(w: World, f: Fid, timeout: int)
    requires Inv(w) && f in w.naps
    ensures Inv(w.(naps := w.naps[f := timeout]))
  {
    var w' := w.(naps := w.naps[f := timeout]);
    forall g ensures Placed(w', g) { assert Placed(w, g); }
    forall g ensures AlarmOk(w', g) { assert AlarmOk(w, g); }
    forall p ensures QueueOk(w', p) { assert QueueOk(w, p); }
  }

  lemma BlockDoneKeeps(w: World, c: Fid)
    requires Inv(w)
    ensures Inv(BlockDone(w, c))
  {
    var w' := BlockDone(w, c);
    assert w'.fibers == w.fibers && w'.queues == w.queues && w'.blockedOn == w.blockedOn && w'.naps == w.naps
           && w'.runq == w.runq && w'.suspq == w.suspq && w'.current == w.current;
    forall g ensures Placed(w', g) { assert Placed(w, g); }
    forall g ensures AlarmOk(w', g) { BlockDoneAlarm(w, c, g); }
    forall p ensures QueueOk(w', p) { assert QueueOk(w, p); }
  }

  lemma BlockDoneAlarm(w: World, c: Fid, g: Fid)
    requires Partition(w)
    ensures AlarmOk(BlockDone(w, c), g)
  {
    assert AlarmOk(w, g);
  }

  lemma AskedKeeps(w: World, q: Qid, timeout: int, now: int, atOnce: bool)
    requires Inv(w) && w.current.Some? && !InTimedBlock(w) && (atOnce <==> timeout <= now)
    ensures Partition(Asked(w, w.current.value, q, timeout, now, atOnce))
    ensures atOnce ==> Inv(Asked(w, w.current.value, q, timeout, now, atOnce))
  {
    if atOnce {
      AnswerKeeps(w, Answer(w.current.value, timeout, now, true, None));
    } else {
      TimedBlockKeeps(w, q, timeout, now);
    }
  }

  lemma NapEventKeeps(w: World, timeout: int)
    requires Inv(w) && w.current.Some? && !InTimedBlock(w)
    ensures var c := w.current.value;
            Partition(ResumedWorld(Parked(w, c).(naps := w.naps[c := timeout]), w.waiter))
  {
    var c := w.current.value;
    NapKeeps(w, timeout);
    ResumeKeeps(Parked(w, c).(naps := w.naps[c := timeout]), w.waiter);
  }

  predicate OnItself(e: Event) {
    e.Block? || e.BlockTimed? || e.Nap? || e.Exit?
  }

  lemma OwnOperationKeeps(w: World, e: Event)
    requires Inv(w) && w.current.Some? && !InTimedBlock(w) && OnItself(e)
    requires e.BlockTimed? ==> Sensible(e.ask)
    ensures Partition(OwnOperation(w, w.current.value, e))
    ensures Switches(w, e).None? ==> Inv(OwnOperation(w, w.current.value, e))
  {
    match e
    case Block(q, _) => EnqueueKeeps(w, q);
    case BlockTimed(q, ask, now, _) =>
      AtOnceIff(ask, now);
      AskedKeeps(w, q, Deadline(ask, now), now, AtOnce(ask, now));
    case Nap(timeout, _) => NapEventKeeps(w, timeout);
    case Exit(_) => ExitKeeps(w);
  }

  lemma SuspendEventKeeps(w: World, f: Fid, up: bool)
    requires Inv(w) && Enabled(w, Suspend(f, up))
    ensures Partition(Operation(w, Suspend(f, up)))
    ensures !w.fibers[f].state.Running? ==> Inv(Operation(w, Suspend(f, up)))
  {
    if !w.fibers[f].state.Dead? && !w.fibers[f].state.Suspended? {
      assert Placed(w, f);
      SuspendKeeps(w, f);
    }
  }

  lemma OperationKeeps(w: World, e: Event)
    requires Inv(w) && Enabled(w, e)
    ensures Partition(Operation(w, e))
    ensures Switches(w, e).None? ==> Inv(Operation(w, e))
  {
    match e
    case Spawn(f) => SpawnKeeps(w, f);
    case Unblock(q, f, prio) => if f in Queue(w, q) { DequeueKeeps(w, f, q, prio); }
    case UnblockFirst(q, prio) =>
      if Queue(w, q) != [] { DequeueKeeps(w, Queue(w, q)[0], q, prio); }
    case EndNap(f) => EndNapKeeps(w, f);
    case Ring(f) => RingKeeps(w, f);
    case Resume(f) => ResumeKeeps(w, f);
    case Suspend(f, up) => SuspendEventKeeps(w, f, up);
    case Yield(_) =>
    case Postpone(f, timeout) => PostponeKeeps(w, f, timeout);
    case FinishBlock => BlockDoneKeeps(w, w.current.value);
    case _ => OwnOperationKeeps(w, e);
  }

  lemma StepKeeps(w: World, e: Event)
    requires Inv(w) && Enabled(w, e)
    ensures Inv(Step(w, e))
  {
    OperationKeeps(w, e);
    if Switches(w, e).Some? {
      ScheduleKeeps(Operation(w, e), Switches(w, e).value);
    }
  }

  /** The worlds `ws` that a run passes through while the events `es` happen. */
  ghost predicate Trace(ws: seq<World>, es: seq<Event>) {
    && |ws| == |es| + 1
    && forall k :: 0 <= k < |es| ==> StepAt(ws, es, k)
  }

  ghost predicate StepAt(ws: seq<World>, es: seq<Event>, k: nat)
    requires |ws| == |es| + 1 && k < |es|
  {
    Enabled(ws[k], es[k]) && ws[k + 1] == Step(ws[k], es[k])
  }

  /** In every reachable world each fiber is in exactly the container that its state says, no fiber
      but the current one runs, and every alarm clock tells the truth. */
  lemma {:induction false} RunKeeps(ws: seq<World>, es: seq<Event>, k: nat)
    requires Trace(ws, es) && ws[0] == Init(ws[0].waiter) && k < |ws|
    ensures Inv(ws[k])
  {
    if k == 0 {
      var w := ws[0];
      forall f ensures Placed(w, f) && AlarmOk(w, f) {}
      forall q ensures QueueOk(w, q) {}
    } else {
      RunKeeps(ws, es, k - 1);
      assert StepAt(ws, es, k - 1);
      StepKeeps(ws[k - 1], es[k - 1]);
    }
  }

  // ---------------------------------------------------------------- the dead do not run

  ghost predicate DeadOrGone(w: World, f: Fid) {
    f in w.fibers ==> w.fibers[f].state.Dead?
  }

  lemma SwitchLeavesDead(w: World, to: Option<Fid>, f: Fid)
    requires DeadOrGone(w, f) && (to == Some(f) ==> f !in w.fibers)
    ensures DeadOrGone(SwitchTo(w, to), f)
  {
  }

  lemma PickLeavesDead(w: World, i: nat, f: Fid)
    requires i < |w.runq| && w.runq[i] in w.fibers && DeadOrGone(w, f)
    ensures DeadOrGone(Picked(w, i), f) && |Picked(w, i).runq| == |w.runq| && w.runq[i] in Picked(w, i).runq
  {
  }

  lemma {:induction false} ScheduleLeavesDead(w: World, t: Target, f: Fid)
    requires DeadOrGone(w, f)
    ensures DeadOrGone(Schedule(w, t), f)
    decreases |w.runq|
  {
    if t.ToWorker? || w.runq == [] || (t.Prefer? && t.f !in w.runq) {
      SwitchLeavesDead(w, None, f);
    } else {
      var i := if t.Prefer? then IndexOf(w.runq, t.f) else 0;
      var n := w.runq[i];
      if n in w.fibers {
        var p := Picked(w, i);
        PickLeavesDead(w, i, f);
        SwitchLeavesDead(p, None, f);
        match p.fibers[n].state
        case Running =>
        case Dead => if w.current != Some(n) { ScheduleLeavesDead(CleanedUp(p, n), Any, f); }
        case _ => SwitchLeavesDead(p, Some(n), f);
      }
    }
  }

  lemma OperationLeavesDead(w: World, e: Event, f: Fid)
    requires Inv(w) && Enabled(w, e) && f in w.fibers && w.fibers[f].state.Dead?
    ensures DeadOrGone(Operation(w, e), f)
  {
    match e
    case Unblock(q, g, prio) =>
      QueuedIsAlive(w, q, f);
    case UnblockFirst(q, prio) =>
      QueuedIsAlive(w, q, f);
    case Ring(g) =>
      assert AlarmOk(w, g);
      QueuedIsAlive(w, w.alarms[g].q, f);
    case Resume(g) => ResumeLeavesDead(w, g, f);
    case EndNap(g) =>
      assert Placed(w, f);
    case Suspend(g, _) =>
    case Spawn(g) =>
    case Postpone(_, _) =>
    case Yield(_) =>
    case _ =>
      assert Placed(w, w.current.value) && w.current.value != f;
      OwnLeavesDead(w, w.current.value, e, f);
  }

  lemma OwnLeavesDead(w: World, c: Fid, e: Event, f: Fid)
    requires c in w.fibers && c != f && DeadOrGone(w, f)
    ensures DeadOrGone(OwnOperation(w, c, e), f)
  {
    match e
    case BlockTimed(q, ask, now, _) => AskedLeavesDead(w, c, q, Deadline(ask, now), now, AtOnce(ask, now), f);
    case Nap(timeout, _) => NapLeavesDead(w, c, timeout, f);
    case _ =>
  }

  lemma NapLeavesDead(w: World, c: Fid, timeout: int, f: Fid)
    requires c in w.fibers && c != f && DeadOrGone(w, f)
    ensures DeadOrGone(ResumedWorld(Parked(w, c).(naps := w.naps[c := timeout]), w.waiter), f)
  {
    ResumeLeavesDead(Parked(w, c).(naps := w.naps[c := timeout]), w.waiter, f);
  }

  lemma AskedLeavesDead(w: World, c: Fid, q: Qid, timeout: int, now: int, atOnce: bool, f: Fid)
    requires c in w.fibers && c != f && DeadOrGone(w, f)
    ensures DeadOrGone(Asked(w, c, q, timeout, now, atOnce), f)
  {
    ResumeLeavesDead(
      Enqueued(w, c, q).(timer := w.timer + {c}, alarms := w.alarms[c := Alarm(q, timeout, now, false, None, 0)]),
      w.waiter, f);
  }

  lemma QueuedIsAlive(w: World, q: Qid, f: Fid)
    requires Inv(w) && f in w.fibers && w.fibers[f].state.Dead?
    ensures f !in Queue(w, q)
  {
    assert Placed(w, f) && QueueOk(w, q);
  }

  lemma ResumeLeavesDead(w: World, g: Fid, f: Fid)
    requires DeadOrGone(w, f)
    ensures DeadOrGone(ResumedWorld(w, g), f)
  {
  }

  /** A dead fiber is not the current one, and no step but its cleanup changes it. */
  lemma DeadNeverRuns(w: World, e: Event, f: Fid)
    requires Inv(w) && Enabled(w, e) && f in w.fibers && w.fibers[f].state.Dead?
    ensures w.current != Some(f) && DeadOrGone(Step(w, e), f)
  {
    OperationKeeps(w, e);
    OperationLeavesDead(w, e, f);
    if Switches(w, e).Some? {
      ScheduleLeavesDead(Operation(w, e), Switches(w, e).value, f);
    }
  }

  // ---------------------------------------------------------------- timed blocks

  /** What `block_` answers: true if the fiber was unblocked by request. */
  function BlockResult(w: World): bool
    requires InTimedBlock(w)
  {
    !w.alarms[w.current.value].rang
  }

  /** When a fiber comes back inside `block_`, in any run: it was handed to the run queue exactly once,
      the answer is false if and only if the alarm did that, the fiber is in no wait queue, and after
      the last line of `block_` its alarm clock is gone from the waiter's list, which then holds only
      alarm clocks that still exist. */
  lemma TimedBlockEndsOnce(ws: seq<World>, es: seq<Event>, k: nat)
    requires Trace(ws, es) && ws[0] == Init(ws[0].waiter) && k < |ws| && InTimedBlock(ws[k])
    ensures var w := ws[k];
            var c := w.current.value;
            && w.alarms[c].wakes == 1 && w.alarms[c].out.Some?
            && (!BlockResult(w) <==> w.alarms[c].out == Some(ByAlarm))
            && (forall q :: c !in Queue(w, q))
            && c in w.fibers
            && var w' := Step(w, FinishBlock);
               w'.timer == w.timer - {c} && w'.timer <= w'.alarms.Keys && c !in w'.alarms
  {
    RunKeeps(ws, es, k);
    var w := ws[k];
    var c := w.current.value;
    assert Placed(w, c) && AlarmOk(w, c);
    forall q ensures c !in Queue(w, q) { assert QueueOk(w, q); }
    forall f | f in w.timer ensures f in w.alarms { assert AlarmOk(w, f); }
  }

  /** In no world of any run does the waiter's list hold an alarm clock that is out of scope. */
  lemma NoDanglingAlarm(ws: seq<World>, es: seq<Event>, k: nat)
    requires Trace(ws, es) && ws[0] == Init(ws[0].waiter) && k < |ws|
    ensures ws[k].timer <= ws[k].alarms.Keys
  {
    RunKeeps(ws, es, k);
    forall f | f in ws[k].timer ensures f in ws[k].alarms { assert AlarmOk(ws[k], f); }
  }

  /** The answer is what the documentation says: true if and only if the fiber was unblocked by
      request. */
  predicate TrueAnswer(a: Answer) {
    a.result <==> a.out == Some(ByUnblock)
  }

  /** Exactly when it is. */
  predicate AnswerOk(a: Answer) {
    TrueAnswer(a) <==> a.timeout > a.now
  }

  ghost predicate AnswersOk(w: World) {
    forall i :: 0 <= i < |w.answers| ==> AnswerOk(w.answers[i])
  }

  /** What `schedule` has nothing to do with. */
  ghost predicate SameTimer(w: World, r: World) {
    && r.answers == w.answers && r.timer == w.timer && r.alarms == w.alarms
    && r.naps == w.naps && r.waiter == w.waiter
  }

  lemma PassLeavesTimer(w: World, i: nat, to: Option<Fid>)
    requires i < |w.runq| && w.runq[i] in w.fibers
    ensures var p := Picked(w, i);
            && SameTimer(w, p) && SameTimer(w, SwitchTo(p, to)) && SameTimer(w, CleanedUp(p, w.runq[i]))
            && |CleanedUp(p, w.runq[i]).runq| < |w.runq|
  {
    assert w.runq[i] in Picked(w, i).runq;
  }

  lemma {:induction false} ScheduleLeavesTimer(w: World, t: Target)
    ensures SameTimer(w, Schedule(w, t))
    decreases |w.runq|
  {
    if !(t.ToWorker? || w.runq == [] || (t.Prefer? && t.f !in w.runq)) {
      var i := if t.Prefer? then IndexOf(w.runq, t.f) else 0;
      var n := w.runq[i];
      if n in w.fibers {
        var p := Picked(w, i);
        PassLeavesTimer(w, i, Some(n));
        PassLeavesTimer(w, i, None);
        match p.fibers[n].state
        case Dead => if w.current != Some(n) { ScheduleLeavesTimer(CleanedUp(p, n), Any); }
        case _ =>
      }
    }
  }

  /** At most one answer is added, which is as it should be. */
  ghost predicate Answers(w: World, r: World) {
    r.answers == w.answers || exists a :: AnswerOk(a) && r.answers == w.answers + [a]
  }

  lemma AskedAnswers(w: World, c: Fid, q: Qid, timeout: int, now: int, atOnce: bool)
    requires c in w.fibers && (atOnce <==> timeout <= now)
    ensures Answers(w, Asked(w, c, q, timeout, now, atOnce))
  {
    if atOnce {
      assert AnswerOk(Answer(c, timeout, now, true, None));
    }
  }

  lemma DoneAnswers(w: World, c: Fid)
    requires AlarmOk(w, c) && c !in w.blockedOn
    ensures Answers(w, BlockDone(w, c))
  {
    if c in w.alarms {
      var a := w.alarms[c];
      if a.out.value.ByAlarm? { assert a.rang; }
      assert AnswerOk(Answer(c, a.timeout, a.now, !a.rang, a.out));
    }
  }

  lemma TimedAnswers(w: World, c: Fid, e: Event)
    requires c in w.fibers && e.BlockTimed? && Sensible(e.ask)
    ensures Answers(w, OwnOperation(w, c, e))
  {
    AtOnceIff(e.ask, e.now);
    AskedAnswers(w, c, e.q, Deadline(e.ask, e.now), e.now, AtOnce(e.ask, e.now));
  }

  lemma OwnAnswers(w: World, c: Fid, e: Event)
    requires c in w.fibers && AlarmOk(w, c) && c !in w.blockedOn
    requires e.BlockTimed? ==> Sensible(e.ask)
    ensures Answers(w, OwnOperation(w, c, e))
  {
    if e.BlockTimed? {
      TimedAnswers(w, c, e);
    } else if OnItself(e) {
      OthersLeaveAnswers(w, c, e);
    } else {
      DoneAnswers(w, c);
    }
  }

  lemma OthersLeaveAnswers(w: World, c: Fid, e: Event)
    requires c in w.fibers && (e.Block? || e.Nap? || e.Exit?)
    ensures OwnOperation(w, c, e).answers == w.answers
  {
    ParkedLeavesAnswers(w, c);
    if e.Nap? {
      ResumedLeavesAnswers(Parked(w, c).(naps := w.naps[c := e.timeout]), w.waiter);
    }
  }

  lemma ParkedLeavesAnswers(w: World, c: Fid)
    requires c in w.fibers
    ensures Parked(w, c).answers == w.answers
  {
  }

  lemma ResumedLeavesAnswers(w: World, f: Fid)
    ensures ResumedWorld(w, f).answers == w.answers
  {
  }

  lemma NonOwnLeavesAnswers(w: World, e: Event)
    requires !OnItself(e) && !e.FinishBlock?
    ensures Operation(w, e).answers == w.answers
  {
  }

  lemma OperationAnswers(w: World, e: Event)
    requires Inv(w) && Enabled(w, e)
    ensures Answers(w, Operation(w, e))
  {
    if OnItself(e) || e.FinishBlock? {
      var c := w.current.value;
      assert Placed(w, c) && AlarmOk(w, c);
      OwnAnswers(w, c, e);
    } else {
      NonOwnLeavesAnswers(w, e);
    }
  }

  lemma StepAnswers(w: World, e: Event)
    requires Inv(w) && Enabled(w, e) && AnswersOk(w)
    ensures AnswersOk(Step(w, e))
  {
    OperationAnswers(w, e);
    if Switches(w, e).Some? {
      ScheduleLeavesTimer(Operation(w, e), Switches(w, e).value);
    }
  }

  /** For every call of `blockUntil` and `blockFor` in every run: the answer is true exactly when a
      request took the fiber out of the queue, if and only if the deadline lay in the future. */
  lemma AnswersTrueIff(ws: seq<World>, es: seq<Event>, k: nat, i: nat)
    requires Trace(ws, es) && ws[0] == Init(ws[0].waiter) && k < |ws| && i < |ws[k].answers|
    ensures TrueAnswer(ws[k].answers[i]) <==> ws[k].answers[i].timeout > ws[k].answers[i].now
  {
    RunAnswers(ws, es, k);
    assert AnswerOk(ws[k].answers[i]);
  }

  lemma {:induction false} RunAnswers(ws: seq<World>, es: seq<Event>, k: nat)
    requires Trace(ws, es) && ws[0] == Init(ws[0].waiter) && k < |ws|
    ensures AnswersOk(ws[k])
  {
    if k > 0 {
      RunAnswers(ws, es, k - 1);
      RunKeeps(ws, es, k - 1);
      assert StepAt(ws, es, k - 1);
      StepAnswers(ws[k - 1], es[k - 1]);
    }
  }

  /** A run in which a fiber is told that it was unblocked by request, although nobody did that: its
      deadline is now. */
  lemma WrongAnswer(waiter: Fid, f: Fid, q: Qid, now: int) returns (ws: seq<World>, es: seq<Event>)
    requires f != waiter
    ensures Trace(ws, es) && ws[0] == Init(waiter)
    ensures var a := ws[|es|].answers; a == [Answer(f, now, now, true, None)] && !TrueAnswer(a[0])
  {
    var w0 := Init(waiter);
    var e0, e1, e2 := Spawn(f), Yield(Any), BlockTimed(q, Until(now), now, false);
    var w1 := Step(w0, e0);
    var w2 := Step(w1, e1);
    FirstRuns(w1, f);
    var w3 := Step(w2, e2);
    ws, es := [w0, w1, w2, w3], [e0, e1, e2];
  }

  lemma FirstRuns(w: World, f: Fid)
    requires w.runq == [f] && f in w.fibers && w.fibers[f] == Fiber(New, Ready) && w.current.None?
    requires f !in w.alarms
    ensures var r := Step(w, Yield(Any));
            r.current == Some(f) && f in r.fibers && f !in r.alarms && r.answers == w.answers
  {
    var p := Picked(w, 0);
    assert p.fibers[f] == Fiber(Ready, Ready);
    assert Schedule(w, Any) == SwitchTo(p, Some(f));
  }

  // ---------------------------------------------------------------- bounded waiting

  /** `f` is in the run queue, able to run, and does not run. */
  predicate Waits(w: World, f: Fid) {
    f in w.runq && f in w.fibers && (w.fibers[f].state.New? || w.fibers[f].state.Ready?)
  }

  lemma {:induction false} IndexWithout(s: seq<Fid>, x: Fid, f: Fid)
    requires f in s && f != x
    ensures IndexOf(Without(s, x), f) <= IndexOf(s, f)
  {
    if s[0] != f { IndexWithout(s[1..], x, f); }
  }

  lemma {:induction false} IndexConcat(s: seq<Fid>, t: seq<Fid>, f: Fid)
    requires f in s
    ensures IndexOf(s + t, f) == IndexOf(s, f)
  {
    if s[0] != f {
      assert (s + t)[1..] == s[1..] + t;
      IndexConcat(s[1..], t, f);
    }
  }

  lemma IndexCons(s: seq<Fid>, x: Fid, f: Fid)
    requires f in s && f != x
    ensures IndexOf([x] + s, f) == IndexOf(s, f) + 1
  {
    assert ([x] + s)[1..] == s;
  }

  lemma IndexRotated(s: seq<Fid>, f: Fid)
    requires f in s && s[0] != f
    ensures f in RotatedPast(s, 0) && IndexOf(RotatedPast(s, 0), f) == IndexOf(s, f) - 1
  {
    IndexConcat(s[1..], s[..1], f);
  }

  /** What `schedule` may do to a fiber that it does not choose. */
  ghost predicate Advances(w: World, r: World, f: Fid) {
    && f in w.runq && r.fronts == w.fronts && |w.log| <= |r.log|
    && (Waits(r, f) ==> |r.log| - |w.log| + IndexOf(r.runq, f) <= IndexOf(w.runq, f))
  }

  lemma PickAdvances(w: World, f: Fid)
    requires f in w.runq && w.runq[0] != f && w.runq[0] in w.fibers
    ensures var p := Picked(w, 0);
            && f in p.runq && w.runq[0] in p.runq && |p.runq| == |w.runq|
            && p.fronts == w.fronts && |p.log| == |w.log| + 1
            && IndexOf(p.runq, f) == IndexOf(w.runq, f) - 1
            && (f in w.fibers ==> f in p.fibers && p.fibers[f] == w.fibers[f])
  {
    IndexRotated(w.runq, f);
  }

  lemma ChosenRuns(w: World, f: Fid)
    requires w.runq != [] && w.runq[0] == f && f in w.fibers && !w.fibers[f].state.Dead?
    requires w.fibers[f].state.New? ==> w.fibers[f].next.Ready?
    ensures var r := Schedule(w, Any);
            !Waits(r, f) && r.fronts == w.fronts && |r.log| == |w.log| + 1
  {
    var p := Picked(w, 0);
    assert Schedule(w, Any) == if p.fibers[f].state.Running? then p else SwitchTo(p, Some(f));
  }

  lemma OtherChosen(w: World, f: Fid)
    requires f in w.runq && w.runq[0] != f && w.runq[0] in w.fibers
    requires var n := w.runq[0]; Started(w.fibers[n]).state.Dead? ==> w.current == Some(n)
    ensures Advances(w, Schedule(w, Any), f)
  {
    PickAdvances(w, f);
    var n, p, r := w.runq[0], Picked(w, 0), Schedule(w, Any);
    assert r == p || r == SwitchTo(p, None) || r == SwitchTo(p, Some(n));
    assert r.runq == p.runq && r.log == p.log && r.fronts == p.fronts;
  }

  lemma {:induction false} ScheduleAdvances(w: World, t: Target, f: Fid)
    requires !t.Prefer? && f in w.runq && f in w.fibers && !w.fibers[f].state.Dead?
    requires w.fibers[f].state.New? ==> w.fibers[f].next.Ready?
    ensures Advances(w, Schedule(w, t), f)
    decreases |w.runq|
  {
    var n := w.runq[0];
    if t.ToWorker? {
      assert Schedule(w, t) == SwitchTo(w, None);
    } else if n == f {
      ChosenRuns(w, f);
    } else if n in w.fibers {
      if Started(w.fibers[n]).state.Dead? && w.current != Some(n) {
        DeadPassed(w, f);
        ScheduleAdvances(CleanedUp(Picked(w, 0), n), Any, f);
      } else {
        OtherChosen(w, f);
      }
    }
  }

  lemma DeadPassed(w: World, f: Fid)
    requires f in w.runq && w.runq[0] != f && w.runq[0] in w.fibers
    requires var n := w.runq[0]; Started(w.fibers[n]).state.Dead? && w.current != Some(n)
    ensures var q := CleanedUp(Picked(w, 0), w.runq[0]);
            && Schedule(w, Any) == Schedule(q, Any)
            && f in q.runq && |q.runq| < |w.runq|
            && q.fronts == w.fronts && |q.log| == |w.log| + 1
            && IndexOf(q.runq, f) < IndexOf(w.runq, f)
            && (f in w.fibers ==> f in q.fibers && q.fibers[f] == w.fibers[f])
  {
    PickAdvances(w, f);
    var n, p := w.runq[0], Picked(w, 0);
    assert n in p.runq;
    IndexWithout(p.runq, n, f);
  }

  lemma AddAdvances(w: World, g: Fid, front: bool, f: Fid)
    requires f in w.runq && g in w.fibers && f != g
    ensures var r := Added(w, g, front);
            f in r.runq && r.log == w.log && r.fronts >= w.fronts
            && IndexOf(r.runq, f) <= IndexOf(w.runq, f) + r.fronts - w.fronts
  {
    IndexConcat(w.runq, [g], f);
    IndexCons(w.runq, g, f);
  }

  /** Before the next fiber is chosen, a waiting fiber only falls back by insertions at the front. */
  ghost predicate KeepsPlace(w: World, r: World, f: Fid) {
    && r.log == w.log && r.fronts >= w.fronts
    && f in w.runq && f in r.runq
    && IndexOf(r.runq, f) <= IndexOf(w.runq, f) + r.fronts - w.fronts
    && f in w.fibers && f in r.fibers && r.fibers[f] == w.fibers[f]
  }

  lemma OutKeepsPlace(w: World, g: Fid, b: Fiber, f: Fid)
    requires f in w.runq && f in w.fibers && g in w.fibers && f != g
    ensures KeepsPlace(w, Changed(Released(w, g), g, b), f)
  {
    IndexWithout(w.runq, g, f);
  }

  lemma InKeepsPlace(w: World, g: Fid, front: bool, b: Fiber, f: Fid)
    requires f in w.runq && f in w.fibers && f != g
    ensures KeepsPlace(w, Added(Changed(w, g, b), g, front), f)
  {
    AddAdvances(Changed(w, g, b), g, front, f);
  }

  lemma MoveKeepsPlace(w: World, g: Fid, b: Fiber, f: Fid)
    requires f in w.runq && f in w.fibers && g in w.fibers && f != g
    ensures KeepsPlace(w, Added(Changed(Released(w, g), g, b), g, false), f)
  {
    OutKeepsPlace(w, g, b, f);
    AddAdvances(Changed(Released(w, g), g, b), g, false, f);
  }

  lemma OperationKeepsPlace(w: World, e: Event, f: Fid)
    requires Inv(w) && Enabled(w, e) && Waits(w, f)
    ensures (e.Suspend? && e.f == f) || KeepsPlace(w, Operation(w, e), f)
  {
    assert Placed(w, f);
    match e
    case Spawn(g) => IndexConcat(w.runq, [g], f);
    case Unblock(q, g, prio) =>
      assert QueueOk(w, q) && Placed(w, g);
      QueuedMovesOn(w, q, g, ByUnblock, prio, f);
    case UnblockFirst(q, prio) =>
      if Queue(w, q) != [] {
        var g := Queue(w, q)[0];
        assert QueueOk(w, q) && Placed(w, g);
        QueuedMovesOn(w, q, g, ByUnblock, prio, f);
      }
    case EndNap(g) =>
      assert Placed(w, g);
      InKeepsPlace(w.(naps := w.naps - {g}), g, true, WokenUp(w.fibers[g]), f);
    case Ring(g) =>
      assert AlarmOk(w, g) && QueueOk(w, w.alarms[g].q) && Placed(w, g);
      RingKeepsPlace(w, g, f);
    case Resume(g) => ResumeKeepsPlace(w, g, f);
    case Suspend(g, _) =>
      if g != f && Operation(w, e) != w { MoveKeepsPlace(w, g, SuspendedOf(w.fibers[g]), f); }
    case Yield(_) =>
    case Postpone(_, _) =>
    case FinishBlock =>
    case _ =>
      assert Placed(w, w.current.value) && w.current.value != f;
      OwnKeepsPlace(w, w.current.value, e, f);
  }

  lemma QueuedMovesOn(w: World, q: Qid, g: Fid, who: Dequeuer, front: bool, f: Fid)
    requires f in w.runq && f in w.fibers && (w.fibers[f].state.New? || w.fibers[f].state.Ready?)
    requires g in Queue(w, q) ==> g in w.fibers && w.fibers[g].state.Waiting?
    ensures KeepsPlace(w, Unblocked(w, q, g, who, front), f)
  {
    if g in Queue(w, q) {
      var w1 := Unblocked(w, q, g, who, front);
      InKeepsPlace(w, g, front, WokenUp(w.fibers[g]), f);
      assert w1.runq == Added(Changed(w, g, WokenUp(w.fibers[g])), g, front).runq;
    }
  }

  lemma RingKeepsPlace(w: World, g: Fid, f: Fid)
    requires f in w.runq && f in w.fibers && (w.fibers[f].state.New? || w.fibers[f].state.Ready?)
    requires g in w.alarms
    requires g in Queue(w, w.alarms[g].q) ==> g in w.fibers && w.fibers[g].state.Waiting?
    ensures KeepsPlace(w, Rung(w, g), f)
  {
    var a := w.alarms[g];
    var w1 := w.(timer := w.timer - {g}, alarms := w.alarms[g := a.(rang := g in Queue(w, a.q) && g in w.fibers)]);
    QueuedMovesOn(w1, a.q, g, ByAlarm, false, f);
  }

  lemma ResumeKeepsPlace(w: World, g: Fid, f: Fid)
    requires Waits(w, f)
    ensures KeepsPlace(w, ResumedWorld(w, g), f)
  {
    if g in w.fibers && w.fibers[g].state.Suspended? {
      MoveKeepsPlace(w, g, ResumedOf(w.fibers[g]), f);
    }
  }

  lemma OwnKeepsPlace(w: World, c: Fid, e: Event, f: Fid)
    requires Waits(w, f) && c in w.fibers && c != f && OnItself(e)
    ensures KeepsPlace(w, OwnOperation(w, c, e), f)
  {
    match e
    case Block(q, up) => BlockEventKeepsPlace(w, c, e, f);
    case BlockTimed(q, ask, now, up) => TimedEventKeepsPlace(w, c, e, f);
    case Nap(timeout, up) => NapKeepsPlace(w, c, timeout, up, f);
    case Exit(up) => ExitKeepsPlace(w, c, up, f);
  }

  lemma ExitKeepsPlace(w: World, c: Fid, up: bool, f: Fid)
    requires Waits(w, f) && c in w.fibers && c != f
    ensures KeepsPlace(w, OwnOperation(w, c, Exit(up)), f)
  {
    ChangeKeepsPlace(w, c, w.fibers[c].(state := Dead), f);
  }

  lemma BlockEventKeepsPlace(w: World, c: Fid, e: Event, f: Fid)
    requires Waits(w, f) && c in w.fibers && c != f && e.Block?
    ensures KeepsPlace(w, OwnOperation(w, c, e), f)
  {
    OutKeepsPlace(w, c, Napping(w.fibers[c]), f);
    BlockKeepsPlace(w, c, e.q, f);
  }

  lemma TimedEventKeepsPlace(w: World, c: Fid, e: Event, f: Fid)
    requires Waits(w, f) && c in w.fibers && c != f && e.BlockTimed?
    ensures KeepsPlace(w, OwnOperation(w, c, e), f)
  {
    AskedKeepsPlace(w, c, e.q, Deadline(e.ask, e.now), e.now, AtOnce(e.ask, e.now), f);
  }

  lemma ChangeKeepsPlace(w: World, c: Fid, b: Fiber, f: Fid)
    requires f in w.runq && f in w.fibers && c != f
    ensures KeepsPlace(w, Changed(w, c, b), f)
  {
  }

  lemma BlockKeepsPlace(w: World, c: Fid, q: Qid, f: Fid)
    requires Waits(w, f) && c in w.fibers && c != f && KeepsPlace(w, Parked(w, c), f)
    ensures KeepsPlace(w, Enqueued(w, c, q), f)
  {
  }

  lemma AskedKeepsPlace(w: World, c: Fid, q: Qid, timeout: int, now: int, atOnce: bool, f: Fid)
    requires Waits(w, f) && c in w.fibers && c != f
    ensures KeepsPlace(w, Asked(w, c, q, timeout, now, atOnce), f)
  {
    OutKeepsPlace(w, c, Napping(w.fibers[c]), f);
    BlockKeepsPlace(w, c, q, f);
    var w1 := Enqueued(w, c, q).(timer := w.timer + {c},
                                 alarms := w.alarms[c := Alarm(q, timeout, now, false, None, 0)]);
    ResumedKeepsPlace(w, w1, w.waiter, f);
  }

  lemma NapKeepsPlace(w: World, c: Fid, timeout: int, up: bool, f: Fid)
    requires Waits(w, f) && c in w.fibers && c != f
    ensures KeepsPlace(w, OwnOperation(w, c, Nap(timeout, up)), f)
  {
    OutKeepsPlace(w, c, Napping(w.fibers[c]), f);
    var w1 := Parked(w, c).(naps := w.naps[c := timeout]);
    ResumedKeepsPlace(w, w1, w.waiter, f);
  }

  lemma ResumedKeepsPlace(w: World, w1: World, g: Fid, f: Fid)
    requires Waits(w, f) && KeepsPlace(w, w1, f)
    ensures KeepsPlace(w, ResumedWorld(w1, g), f)
  {
    ResumeKeepsPlace(w1, g, f);
  }

  /** How far a waiting fiber is from being chosen, on the scale of past choices. */
  function Turn(w: World, f: Fid): int
    requires Waits(w, f)
  {
    |w.log| + IndexOf(w.runq, f) - w.fronts
  }

  lemma SuspendStopsWaiting(w: World, f: Fid, up: bool)
    requires Inv(w) && Waits(w, f)
    ensures !Waits(Step(w, Suspend(f, up)), f)
  {
  }

  lemma StepAdvances(w: World, e: Event, f: Fid)
    requires Inv(w) && Enabled(w, e) && !(e.Yield? && e.t.Prefer?)
    requires Waits(w, f) && Waits(Step(w, e), f)
    ensures Turn(Step(w, e), f) <= Turn(w, f)
  {
    assert Placed(w, f);
    OperationKeepsPlace(w, e, f);
    if e.Suspend? && e.f == f {
      SuspendStopsWaiting(w, f, e.up);
    } else if Switches(w, e).Some? {
      ScheduleAdvances(Operation(w, e), Switches(w, e).value, f);
    }
  }

  lemma TurnAdvances(ws: seq<World>, es: seq<Event>, f: Fid, k: nat)
    requires Trace(ws, es) && ws[0] == Init(ws[0].waiter) && k < |es|
    requires Waits(ws[k], f) && Waits(ws[k + 1], f) && !(es[k].Yield? && es[k].t.Prefer?)
    ensures Turn(ws[k + 1], f) <= Turn(ws[k], f)
  {
    RunKeeps(ws, es, k);
    assert StepAt(ws, es, k);
    StepAdvances(ws[k], es[k], f);
  }

  lemma TurnNeverRecedes(ws: seq<World>, es: seq<Event>, f: Fid, a: nat, b: nat)
    requires Trace(ws, es) && ws[0] == Init(ws[0].waiter) && a <= b < |ws|
    requires forall k :: a <= k <= b ==> Waits(ws[k], f)
    requires forall k :: a <= k < b ==> !(es[k].Yield? && es[k].t.Prefer?)
    ensures Waits(ws[a], f) && Waits(ws[b], f) && Turn(ws[b], f) <= Turn(ws[a], f)
  {
    var turns := seq(|ws|, k requires 0 <= k < |ws| => if Waits(ws[k], f) then Turn(ws[k], f) else 0);
    forall k | a < k <= b ensures turns[k] <= turns[k - 1] {
      TurnAdvances(ws, es, f, k - 1);
    }
    NeverRises(turns, a, b);
  }

  lemma {:induction false} NeverRises(s: seq<int>, a: nat, b: nat)
    requires a <= b < |s| && forall k :: a < k <= b ==> s[k] <= s[k - 1]
    ensures s[b] <= s[a]
  {
    if a < b { NeverRises(s, a, b - 1); }
  }

  /** Round robin: as long as nobody is preferred, a fiber that waits at position k has been passed
      over at most k times, plus once for each insertion at the front meanwhile, whatever spawns,
      blocks, naps, deaths and wakeups interleave.  So it is chosen within k + 1 selections, plus one
      for each of those insertions. */
  lemma BoundedWaiting(ws: seq<World>, es: seq<Event>, f: Fid, a: nat, b: nat)
    requires Trace(ws, es) && ws[0] == Init(ws[0].waiter) && a <= b < |ws|
    requires forall k :: a <= k <= b ==> Waits(ws[k], f)
    requires forall k :: a <= k < b ==> !(es[k].Yield? && es[k].t.Prefer?)
    ensures Waits(ws[a], f)
    ensures |ws[b].log| - |ws[a].log| <= IndexOf(ws[a].runq, f) + ws[b].fronts - ws[a].fronts
  {
    TurnNeverRecedes(ws, es, f, a, b);
  }
}
