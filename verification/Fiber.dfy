/** The state machine of a fiber, and what sequences of calls on it can and cannot do. */
module Fibers {

  datatype FiberState = New | Ready | Running | Waiting | Suspended | Dead

  /** `m_state` and `m_stateNext`. */
  datatype Fiber = Fiber(state: FiberState, next: FiberState)

  /** `Fiber::init`, which `run` calls for a new fiber. */
  function Started(f: Fiber): Fiber {
    if f.state.New? then Fiber(f.next, Ready) else f
  }

  function Napping(f: Fiber): Fiber {
    match f.state
    case New => f.(next := Waiting)
    case Ready => Fiber(Waiting, Ready)
    case Running => Fiber(Waiting, Ready)
    case Suspended => f.(next := Waiting)
    case _ => f
  }

  function WokenUp(f: Fiber): Fiber {
    if f.state.Waiting? then Fiber(f.next, if f.next.Suspended? then Ready else f.next)
    else if f.state.Suspended? && f.next.Waiting? then f.(next := Ready)
    else f
  }

  function SuspendedOf(f: Fiber): Fiber {
    match f.state
    case New => Fiber(Suspended, New)
    case Ready => Fiber(Suspended, Ready)
    case Running => Fiber(Suspended, Ready)
    case Waiting => f.(next := Waiting)
    case _ => f
  }

  function ResumedOf(f: Fiber): Fiber {
    if f.state.Suspended? then Fiber(f.next, if f.next.New? then Ready else f.next) else f
  }

  /** What `run` returns; for a switch and for a fiber that already runs it is no error. */
  datatype RunResult = Switched | AlreadyRunning | IsDead | Invalid

  function RunAnswer(f: Fiber): RunResult {
    match Started(f).state
    case Ready => Switched
    case Running => AlreadyRunning
    case Dead => IsDead
    case _ => Invalid
  }

  // ---------------------------------------------------------------- sequences of calls

  /** What can be called on a fiber that is not dead.  `ToRun` is `run`, `ToYield` is the part of
      another fiber's `run` that concerns the fiber that ran before. */
  datatype Call = ToInit | ToRun | ToYield | ToNap | ToWakeup | ToSuspend | ToResume

  function Do(f: Fiber, c: Call): Fiber {
    match c
    case ToInit => Started(f)
    case ToRun => if RunAnswer(f).Switched? then Started(f).(state := Running) else Started(f)
    case ToYield => if f.state.Running? then f.(state := Ready) else f
    case ToNap => Napping(f)
    case ToWakeup => WokenUp(f)
    case ToSuspend => SuspendedOf(f)
    case ToResume => ResumedOf(f)
  }

  function DoAll(f: Fiber, calls: seq<Call>): Fiber
    decreases |calls|
  {
    if calls == [] then f else DoAll(Do(f, calls[0]), calls[1..])
  }

  /** A fiber that is suspended while it waits is lost.  Whatever is called on it later, it waits and
      is going to wait: after a wakeup, `Worker::add` refuses it by its assertion; and if it got into
      the run queue nevertheless, `run` would answer EINVAL, on which `schedule` aborts. */
  lemma {:induction false} SuspendedWaiterIsLost(f: Fiber, calls: seq<Call>)
    requires f.state.Waiting?
    ensures DoAll(SuspendedOf(f), calls) == Fiber(Waiting, Waiting)
    ensures RunAnswer(DoAll(SuspendedOf(f), calls)) == Invalid
    decreases |calls|
  {
    if calls != [] {
      SuspendedWaiterIsLost(Do(SuspendedOf(f), calls[0]), calls[1..]);
    }
  }

  /** Some sequence of calls makes the fiber ready to run. */
  ghost predicate CanBeReady(f: Fiber) {
    exists calls :: DoAll(f, calls).state.Ready?
  }

  /** Exactly when a suspended fiber can become runnable again: when it did not wait. */
  lemma RunnableAgainIff(f: Fiber)
    requires !f.state.Dead? && !f.state.Suspended?
    ensures CanBeReady(SuspendedOf(f)) <==> !f.state.Waiting?
  {
    if f.state.Waiting? {
      forall calls ensures !DoAll(SuspendedOf(f), calls).state.Ready? {
        SuspendedWaiterIsLost(f, calls);
      }
    } else {
      var g := SuspendedOf(f);
      ResumeThenInit(g);
    }
  }

  lemma ResumeThenInit(g: Fiber)
    requires g == Fiber(Suspended, New) || g == Fiber(Suspended, Ready)
    ensures CanBeReady(g)
  {
    var calls := [ToResume, ToInit];
    var g1 := Do(g, ToResume);
    var g2 := Do(g1, ToInit);
    assert calls[1..] == [ToInit] && calls[1..][1..] == [];
    assert DoAll(g2, []) == g2;
    assert DoAll(g1, [ToInit]) == g2;
    assert DoAll(g, calls) == g2;
  }

  /** A fiber that waits in the ordinary way is made runnable by its wakeup, and by nothing else as
      long as it waits. */
  lemma OnlyWakeupEndsWait(c: Call)
    ensures var f := Fiber(Waiting, Ready);
            && Do(f, ToWakeup) == Fiber(Ready, Ready)
            && (c != ToWakeup ==> Do(f, c).state.Waiting?)
            && (Do(f, c) != f && c != ToWakeup <==> c == ToSuspend)
  {
  }

  /** For which fibers `resume` undoes `suspend`, and `wakeup` undoes `nap`.  A running fiber has
      lost the processor meanwhile; a new one that naps is not reached by the wakeup. */
  lemma UndoneIff(f: Fiber)
    requires f.next.Ready?
    ensures ResumedOf(SuspendedOf(f)) == f <==> f.state.New? || f.state.Ready? || f.state.Dead?
    ensures WokenUp(Napping(f)) == f <==> f.state.Ready? || f.state.Suspended? || f.state.Dead?
  {
  }
}
