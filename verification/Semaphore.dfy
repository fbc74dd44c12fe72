/** `Semaphore`, as the atomic pieces between scheduling points of all fibers that use it. */
module Semaphores {

  type Fiber = nat

  const COUNT_MAX: nat := 0xffff_ffff

  /** A fiber inside `acquire`, and the number of units it asked for. */
  datatype Waiter = Waiter(f: Fiber, want: nat)

  /** `woken` holds the waiters that were taken from the queue but have not run since.  The last
      three fields record what happened: units released, units acquired, and whether a release has
      run into the largest count. */
  datatype State = State(
    count: nat, unblockAll: bool, queue: seq<Waiter>, woken: set<Waiter>,
    released: nat, acquired: nat, saturated: bool)

  function Init(count: nat): State {
    State(count, false, [], {}, 0, 0, false)
  }

  datatype Event = Acquire(w: Waiter) | Retry(w: Waiter) | Release(n: nat)

  predicate Enabled(s: State, e: Event) {
    match e
    case Acquire(w) => (forall v <- s.queue :: v.f != w.f) && (forall v <- s.woken :: v.f != w.f)
    case Retry(w) => w in s.woken
    case Release(n) => true
  }

  function UnblockFirst(s: State): State {
    if s.queue == [] then s
    else s.(queue := s.queue[1..], woken := s.woken + {s.queue[0]})
  }

  function UnblockEverybody(s: State): State {
    s.(queue := [], woken := s.woken + set w | w in s.queue)
  }

  /** One pass of the loop in `acquire`, and what follows the loop if it ends. */
  function Pass(s: State, w: Waiter): State {
    if s.count < w.want then
      s.(unblockAll := s.unblockAll || w.want > 1, queue := s.queue + [w])
    else
      var t := s.(count := s.count - w.want, acquired := s.acquired + w.want);
      if t.count > 0 && !t.unblockAll then UnblockFirst(t) else t
  }

  function ReleaseStep(s: State, n: nat): State {
    var t := s.(
      count := if s.count + n > COUNT_MAX then COUNT_MAX else s.count + n,
      saturated := s.saturated || s.count + n > COUNT_MAX,
      released := s.released + n);
    if t.count > 0 then
      if !t.unblockAll then UnblockFirst(t)
      else if t.queue == [] then t.(unblockAll := false)
      else UnblockEverybody(t)
    else t
  }

  function Step(s: State, e: Event): State {
    match e
    case Acquire(w) => Pass(s, w)
    case Retry(w) => Pass(s.(woken := s.woken - {w}), w)
    case Release(n) => ReleaseStep(s, n)
  }

  function After(init: nat, es: seq<Event>): State {
    if es == [] then Init(init) else Step(After(init, es[..|es| - 1]), es[|es| - 1])
  }

  /** A run in which every request asks for one of the `sizes`. */
  ghost predicate Legal(init: nat, es: seq<Event>, sizes: iset<nat>) {
    es == [] ||
    var es', e := es[..|es| - 1], es[|es| - 1];
    Legal(init, es', sizes) && Enabled(After(init, es'), e) && (e.Acquire? ==> e.w.want in sizes)
  }

  // ---------------------------------------------------------------- conservation

  /** Units are neither lost nor made, below saturation. */
  lemma {:induction false} Conservation(init: nat, es: seq<Event>)
    requires init <= COUNT_MAX
    ensures var s := After(init, es);
            && s.count <= COUNT_MAX
            && if s.saturated then s.count + s.acquired <= init + s.released
               else s.count + s.acquired == init + s.released
  {
    if es != [] {
      Conservation(init, es[..|es| - 1]);
    }
  }

  // ---------------------------------------------------------------- stranded waiters

  /** A queued waiter could be served, and no woken waiter is on its way that could. */
  ghost predicate Stranded(s: State) {
    && (exists w :: w in s.queue && w.want <= s.count)
    && !(exists w :: w in s.woken && w.want <= s.count)
  }

  /** What every run with requests of at most two units keeps. */
  ghost predicate Inv(s: State) {
    && (forall w :: w in s.queue || w in s.woken ==> 1 <= w.want <= 2)
    && (!s.unblockAll ==> forall w :: w in s.queue ==> w.want == 1)
    && (s.unblockAll && s.queue != [] ==> s.count <= 1)
    && (s.count > 0 && (exists w :: w in s.queue && w.want == 1)
        ==> exists w :: w in s.woken && w.want == 1)
  }

  lemma InvNotStranded(s: State)
    requires Inv(s)
    ensures !Stranded(s)
  {
  }

  lemma UnblockFirstKeeps(s: State)
    requires forall w :: w in s.queue || w in s.woken ==> 1 <= w.want <= 2
    requires !s.unblockAll && forall w :: w in s.queue ==> w.want == 1
    ensures Inv(UnblockFirst(s))
  {
    if s.queue != [] {
      assert s.queue[0] in s.queue;
      assert s.queue[0] in UnblockFirst(s).woken;
    }
  }

  lemma PassKeeps(s: State, w: Waiter)
    requires w.want <= 2
    requires forall v :: v in s.queue || v in s.woken ==> 1 <= v.want <= 2
    requires !s.unblockAll ==> forall v :: v in s.queue ==> v.want == 1
    requires s.unblockAll && s.queue != [] ==> s.count <= 1
    requires s.count > 0 && (exists v :: v in s.queue && v.want == 1)
             ==> w.want == 1 || exists v :: v in s.woken && v.want == 1
    ensures Inv(Pass(s, w))
  {
    if s.count < w.want {
      assert forall v :: v in Pass(s, w).queue ==> v in s.queue || v == w;
    } else {
      var t := s.(count := s.count - w.want, acquired := s.acquired + w.want);
      if t.count > 0 && !t.unblockAll {
        UnblockFirstKeeps(t);
      }
    }
  }

  lemma ReleaseKeeps(s: State, n: nat)
    requires Inv(s)
    ensures Inv(ReleaseStep(s, n))
  {
    var t := s.(
      count := if s.count + n > COUNT_MAX then COUNT_MAX else s.count + n,
      saturated := s.saturated || s.count + n > COUNT_MAX,
      released := s.released + n);
    if t.count > 0 && !t.unblockAll {
      UnblockFirstKeeps(t);
    }
  }

  lemma {:induction false} RunKeeps(init: nat, es: seq<Event>, sizes: iset<nat>)
    requires Legal(init, es, sizes) && forall k :: k in sizes ==> k <= 2
    ensures Inv(After(init, es))
  {
    if es != [] {
      RunKeeps(init, es[..|es| - 1], sizes);
      var s := After(init, es[..|es| - 1]);
      match es[|es| - 1]
      case Acquire(w) => PassKeeps(s, w);
      case Retry(w) => PassKeeps(s.(woken := s.woken - {w}), w);
      case Release(n) => ReleaseKeeps(s, n);
    }
  }

  /** With requests for single units, a free unit and a waiter in the queue mean that a woken waiter
      is on its way to take it. */
  lemma {:induction false} SingleUnits(init: nat, es: seq<Event>, sizes: iset<nat>)
    requires Legal(init, es, sizes) && forall k :: k in sizes ==> k <= 1
    ensures var s := After(init, es);
            && !s.unblockAll && (s.count > 0 && s.queue != [] ==> exists w :: w in s.woken && w.want == 1)
            && (forall w :: w in s.queue || w in s.woken ==> w.want == 1)
  {
    if es != [] {
      SingleUnits(init, es[..|es| - 1], sizes);
      RunKeeps(init, es, sizes);
      var s := After(init, es);
      if s.queue != [] { assert s.queue[0] in s.queue; }
    }
  }

  /** What every run without requests for single units keeps: whoever is in the queue asks for more
      than there is, since every release wakes everybody. */
  ghost predicate AllWaitForMore(s: State) {
    && (forall w :: w in s.queue || w in s.woken ==> w.want >= 2)
    && (s.queue != [] ==> s.unblockAll)
    && (forall w :: w in s.queue ==> w.want > s.count)
  }

  lemma PassWaits(s: State, w: Waiter)
    requires AllWaitForMore(s) && w.want != 1
    ensures AllWaitForMore(Pass(s, w))
  {
    if s.count < w.want {
      assert forall v :: v in Pass(s, w).queue ==> v in s.queue || v == w;
    } else {
      var t := s.(count := s.count - w.want, acquired := s.acquired + w.want);
      assert s.queue == [] || t.unblockAll;
      assert Pass(s, w) == t;
    }
  }

  lemma {:induction false} NoSinglesRun(init: nat, es: seq<Event>, sizes: iset<nat>)
    requires Legal(init, es, sizes) && 1 !in sizes
    ensures AllWaitForMore(After(init, es))
  {
    if es != [] {
      NoSinglesRun(init, es[..|es| - 1], sizes);
      var s := After(init, es[..|es| - 1]);
      match es[|es| - 1]
      case Acquire(w) => PassWaits(s, w);
      case Retry(w) => PassWaits(s.(woken := s.woken - {w}), w);
      case Release(n) =>
    }
  }

  function StrandingRun(k: nat): seq<Event> {
    [Acquire(Waiter(1, 1)), Acquire(Waiter(2, 1)), Release(2), Acquire(Waiter(3, k)), Retry(Waiter(1, 1))]
  }

  /** Two fibers wait for one unit each.  Two units are released, which wakes the first one.  Before
      it runs, a third fiber asks for three units or more, which switches the hand-on off.  The first
      fiber takes its unit; the other unit is left lying there, with a fiber in the queue that wants
      it and nobody on the way. */
  lemma StrandingRunStrands(sizes: iset<nat>, k: nat)
    requires 1 in sizes && k in sizes && k >= 3
    ensures Legal(0, StrandingRun(k), sizes) && Stranded(After(0, StrandingRun(k)))
  {
    var a, b, c := Waiter(1, 1), Waiter(2, 1), Waiter(3, k);
    TwoWaitOneWoken(a, b, sizes);
    var es := [Acquire(a)] + [Acquire(b)] + [Release(2)];
    Extend(0, es, Acquire(c), sizes);
    es := es + [Acquire(c)];
    assert After(0, es).queue == [b, c];
    Extend(0, es, Retry(a), sizes);
    es := es + [Retry(a)];
    assert After(0, es).woken == {} && After(0, es).count == 1;
    assert b in After(0, es).queue;
    assert es == StrandingRun(k);
  }

  lemma TwoWaitOneWoken(a: Waiter, b: Waiter, sizes: iset<nat>)
    requires a.want == b.want == 1 && a.f != b.f && 1 in sizes
    ensures var es := [Acquire(a)] + [Acquire(b)] + [Release(2)];
            && Legal(0, es, sizes)
            && After(0, es) == State(2, false, [b], {a}, 2, 0, false)
  {
    Extend(0, [], Acquire(a), sizes);
    assert [] + [Acquire(a)] == [Acquire(a)];
    Extend(0, [Acquire(a)], Acquire(b), sizes);
    var es := [Acquire(a)] + [Acquire(b)];
    assert After(0, es).queue == [a, b];
    Extend(0, es, Release(2), sizes);
  }

  lemma Extend(init: nat, es: seq<Event>, e: Event, sizes: iset<nat>)
    requires Legal(init, es, sizes) && Enabled(After(init, es), e) && (e.Acquire? ==> e.w.want in sizes)
    ensures Legal(init, es + [e], sizes) && After(init, es + [e]) == Step(After(init, es), e)
  {
    assert (es + [e])[..|es + [e]| - 1] == es;
  }

  ghost predicate NeverStrands(sizes: iset<nat>) {
    forall init: nat, es: seq<Event> :: Legal(init, es, sizes) ==> !Stranded(After(init, es))
  }

  lemma Counterexample(init: nat, es: seq<Event>, sizes: iset<nat>)
    requires Legal(init, es, sizes) && Stranded(After(init, es))
    ensures !NeverStrands(sizes)
  {
  }

  /** Exactly which request sizes may be mixed: some run strands a waiter if and only if requests for
      one unit and for three or more are both allowed. */
  lemma StrandsIff(sizes: iset<nat>)
    ensures !NeverStrands(sizes) <==> 1 in sizes && exists k :: k in sizes && k >= 3
  {
    if k :| 1 in sizes && k in sizes && k >= 3 {
      StrandingRunStrands(sizes, k);
      Counterexample(0, StrandingRun(k), sizes);
    } else {
      forall init: nat, es: seq<Event> | Legal(init, es, sizes) ensures !Stranded(After(init, es)) {
        if 1 !in sizes {
          NoSinglesRun(init, es, sizes);
        } else {
          RunKeeps(init, es, sizes);
          InvNotStranded(After(init, es));
        }
      }
    }
  }

  class Semaphore {
    var count: nat
    var unblockAll: bool
    var queue: seq<Waiter>
    ghost var woken: set<Waiter>
    ghost var released: nat
    ghost var acquired: nat
    ghost var saturated: bool

    ghost function Get(): State
      reads this
    {
      State(count, unblockAll, queue, woken, released, acquired, saturated)
    }

    constructor (init: nat)
      requires init <= COUNT_MAX
      ensures Get() == Init(init)
    {
      count, unblockAll, queue := init, false, [];
      woken, released, acquired, saturated := {}, 0, 0, false;
    }

    method WakeFirst()
      modifies this`queue, this`woken
      ensures Get() == UnblockFirst(old(Get()))
    {
      if queue != [] {
        queue, woken := queue[1..], woken + {queue[0]};
      }
    }

    method WakeAll() returns (any: bool)
      modifies this`queue, this`woken
      ensures Get() == UnblockEverybody(old(Get()))
      ensures any <==> old(queue) != []
    {
      any := queue != [];
      while queue != []
        invariant woken + (set w | w in queue) == old(woken) + set w | w in old(queue)
        decreases |queue|
      {
        assert queue == [queue[0]] + queue[1..];
        queue, woken := queue[1..], woken + {queue[0]};
      }
    }

    /** One pass of the loop in `acquire`; when it fails, the fiber is blocked. */
    method AcquirePass(w: Waiter) returns (got: bool)
      modifies this
      ensures var s := old(Get()); Get() == Pass(s.(woken := s.woken - {w}), w)
      ensures got <==> w.want <= old(count)
    {
      woken := woken - {w};
      if count < w.want {
        if w.want > 1 {
          unblockAll := true;
        }
        queue := queue + [w];
        return false;
      }
      count, acquired := count - w.want, acquired + w.want;
      if count > 0 && !unblockAll {
        WakeFirst();
      }
      return true;
    }

    method Give(n: nat)
      requires count <= COUNT_MAX
      modifies this
      ensures Get() == ReleaseStep(old(Get()), n) && count <= COUNT_MAX
    {
      saturated, released := saturated || count + n > COUNT_MAX, released + n;
      if count + n > COUNT_MAX {
        count := COUNT_MAX;
      } else {
        count := count + n;
      }
      if count > 0 {
        if !unblockAll {
          WakeFirst();
        } else {
          var any := WakeAll();
          if !any {
            unblockAll := false;
          }
        }
      }
    }
  }
}
