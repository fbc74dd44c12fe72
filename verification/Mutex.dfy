/** `Mutex`, as the atomic pieces between scheduling points of all fibers that use it. */
module Mutexes {
  import opened Common

  type Fiber = nat

  /** `woken` holds the fibers that were taken from the queue but have not run since; `holders`
      those that returned from `lock` since the last unlock. */
  datatype State = State(locked: bool, queue: seq<Fiber>, woken: set<Fiber>, holders: set<Fiber>)

  const Init := State(false, [], {}, {})

  /** `Lock` is a first pass of the loop in `lock`, by any fiber at any moment; `Retry` is the next
      pass, by a fiber that was woken.  `Unlock` is by any fiber, also one that does not hold the mutex:
      all that `unlock` asserts is that it is locked. */
  datatype Event = Lock(f: Fiber) | Retry(f: Fiber) | TryLock(f: Fiber) | Unlock(f: Fiber)

  predicate Enabled(s: State, e: Event) {
    match e
    case Lock(f) => f !in s.queue && f !in s.woken
    case TryLock(f) => f !in s.queue && f !in s.woken
    case Retry(f) => f in s.woken
    case Unlock(f) => s.locked && f !in s.queue && f !in s.woken
  }

  function UnblockFirst(s: State): State {
    if s.queue == [] then s
    else s.(queue := s.queue[1..], woken := s.woken + {s.queue[0]})
  }

  function Attempt(s: State, f: Fiber): State {
    if s.locked then s.(queue := s.queue + [f])
    else s.(locked := true, holders := s.holders + {f})
  }

  function Step(s: State, e: Event): State {
    match e
    case Lock(f) => Attempt(s, f)
    case Retry(f) => Attempt(s.(woken := s.woken - {f}), f)
    case TryLock(f) => if s.locked then s else Attempt(s, f)
    case Unlock(f) => UnblockFirst(s.(locked := false, holders := {}))
  }

  function After(es: seq<Event>): State {
    if es == [] then Init else Step(After(es[..|es| - 1]), es[|es| - 1])
  }

  predicate Legal(es: seq<Event>) {
    es == [] || (Legal(es[..|es| - 1]) && Enabled(After(es[..|es| - 1]), es[|es| - 1]))
  }

  /** At most one holder, exactly when locked; a waiter is in one place; and a free mutex with
      waiters has a woken fiber on its way. */
  ghost predicate Inv(s: State) {
    && (s.locked <==> s.holders != {})
    && (forall f, g :: f in s.holders && g in s.holders ==> f == g)
    && NoDup(s.queue)
    && (forall f :: f in s.queue ==> f !in s.woken)
    && (!s.locked && s.queue != [] ==> s.woken != {})
  }

  lemma StepKeeps(s: State, e: Event)
    requires Inv(s) && Enabled(s, e)
    ensures Inv(Step(s, e))
  {
    if (e.Lock? || e.Retry?) && s.locked { NoDupAppend(s.queue, e.f); }
    if e.Unlock? && s.queue != [] {
      NoDupCut(s.queue, 0);
      assert s.queue[..0] + s.queue[1..] == s.queue[1..];
      assert s.queue[0] in s.queue;
      assert s.queue[0] in Step(s, e).woken;
    }
  }

  /** In every run, with any amount of barging, the mutex has no two holders and strands nobody. */
  lemma {:induction false} NeverStranded(es: seq<Event>)
    requires Legal(es)
    ensures Inv(After(es))
  {
    if es != [] {
      NeverStranded(es[..|es| - 1]);
      StepKeeps(After(es[..|es| - 1]), es[|es| - 1]);
    }
  }

  class Mutex {
    var locked: bool
    var queue: seq<Fiber>
    ghost var woken: set<Fiber>
    ghost var holders: set<Fiber>

    ghost function Get(): State
      reads this
    {
      State(locked, queue, woken, holders)
    }

    constructor ()
      ensures Get() == Init
    {
      locked, queue, woken, holders := false, [], {}, {};
    }

    /** One pass of the loop in `lock`; when it fails, the fiber is blocked. */
    method LockPass(f: Fiber) returns (got: bool)
      requires Inv(Get()) && (Enabled(Get(), Lock(f)) || Enabled(Get(), Retry(f)))
      modifies this
      ensures Inv(Get()) && Get() == Step(old(Get()), if f in old(woken) then Retry(f) else Lock(f))
      ensures got <==> f in holders && holders == {f} && f !in old(holders)
    {
      StepKeeps(Get(), if f in woken then Retry(f) else Lock(f));
      woken := woken - {f};
      if locked {
        queue := queue + [f];
        return false;
      }
      locked, holders := true, holders + {f};
      return true;
    }

    method TryLockNow(f: Fiber) returns (got: bool)
      requires Inv(Get()) && Enabled(Get(), TryLock(f))
      modifies this
      ensures Inv(Get()) && Get() == Step(old(Get()), TryLock(f))
      ensures got <==> !old(locked)
    {
      StepKeeps(Get(), TryLock(f));
      if locked {
        return false;
      }
      locked, holders := true, holders + {f};
      return true;
    }

    method Release(f: Fiber)
      requires Inv(Get()) && Enabled(Get(), Unlock(f))
      modifies this
      ensures Inv(Get()) && Get() == Step(old(Get()), Unlock(f))
    {
      StepKeeps(Get(), Unlock(f));
      locked, holders := false, {};
      if queue != [] {
        queue, woken := queue[1..], woken + {queue[0]};
      }
    }
  }
}
