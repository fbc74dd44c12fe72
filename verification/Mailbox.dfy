/** `Mailbox`, as the atomic pieces between scheduling points of all fibers that use it. */
module Mailboxes {
  import opened Common

  type Fiber = nat
  type Value = int

  /** A fiber inside `put`, with the value it wants to put. */
  datatype Putter = Putter(f: Fiber, v: Value)

  /** A completed `take`: who, what, and the taker that had waited longest when it was put. */
  datatype Taking = Taking(who: Fiber, v: Value, due: Option<Fiber>)

  /** `value` and `assignee` are the fields of the mailbox, with its two queues.  The woken sets
      hold fibers that were taken from a queue but have not run since.  `due` is the longest-waiting
      taker at the moment the current value was put.  `puts`, `takes` and `lastWoken` are history. */
  datatype State = State(
    value: Option<Value>, assignee: Option<Fiber>,
    putQueue: seq<Putter>, takeQueue: seq<Fiber>,
    wokenPut: set<Putter>, wokenTake: set<Fiber>,
    due: Option<Fiber>, puts: seq<Value>, takes: seq<Taking>, lastWoken: Option<Fiber>)

  const Init := State(None, None, [], [], {}, {}, None, [], [], None)

  datatype Event = Put(p: Putter) | RetryPut(p: Putter) | Take(f: Fiber) | RetryTake(f: Fiber)

  /** The fiber is inside no other call on the mailbox. */
  predicate Idle(s: State, f: Fiber) {
    && (forall p <- s.putQueue :: p.f != f) && (forall p <- s.wokenPut :: p.f != f)
    && f !in s.takeQueue && f !in s.wokenTake
  }

  predicate Enabled(s: State, e: Event) {
    match e
    case Put(p) => Idle(s, p.f)
    case RetryPut(p) => p in s.wokenPut
    case Take(f) => Idle(s, f)
    case RetryTake(f) => f in s.wokenTake
  }

  /** `unblockFirst(Queue_Take)`: the woken taker also becomes the assignee. */
  function WakeTaker(s: State): State {
    if s.takeQueue == [] then s.(due := None)
    else
      var f := s.takeQueue[0];
      s.(takeQueue := s.takeQueue[1..], wokenTake := s.wokenTake + {f},
         assignee := Some(f), due := Some(f), lastWoken := Some(f))
  }

  function WakePutter(s: State): State {
    if s.putQueue == [] then s
    else s.(putQueue := s.putQueue[1..], wokenPut := s.wokenPut + {s.putQueue[0]})
  }

  function PutPass(s: State, p: Putter): State {
    if s.value.Some? then s.(putQueue := s.putQueue + [p])
    else WakeTaker(s.(value := Some(p.v), puts := s.puts + [p.v]))
  }

  predicate CanTake(s: State, f: Fiber) {
    s.value.Some? && (s.assignee == None || s.assignee == Some(f))
  }

  function TakePass(s: State, f: Fiber): State {
    if !CanTake(s, f) then s.(takeQueue := s.takeQueue + [f])
    else WakePutter(s.(value := None, takes := s.takes + [Taking(f, s.value.value, s.due)]))
  }

  function Step(s: State, e: Event): State {
    match e
    case Put(p) => PutPass(s, p)
    case RetryPut(p) => PutPass(s.(wokenPut := s.wokenPut - {p}), p)
    case Take(f) => TakePass(s, f)
    case RetryTake(f) => TakePass(s.(wokenTake := s.wokenTake - {f}), f)
  }

  function After(es: seq<Event>): State {
    if es == [] then Init else Step(After(es[..|es| - 1]), es[|es| - 1])
  }

  /** A run in which only fibers of `takers` take. */
  predicate Legal(es: seq<Event>, takers: set<Fiber>) {
    es == [] ||
    var es', e := es[..|es| - 1], es[|es| - 1];
    Legal(es', takers) && Enabled(After(es'), e) && (e.Take? ==> e.f in takers)
  }

  // ---------------------------------------------------------------- delivery

  function Values(ts: seq<Taking>): seq<Value> {
    if ts == [] then [] else Values(ts[..|ts| - 1]) + [ts[|ts| - 1].v]
  }

  function Held(s: State): seq<Value> {
    if s.value.Some? then [s.value.value] else []
  }

  ghost predicate Delivered(s: State) {
    // first in, first out, each value once
    && s.puts == Values(s.takes) + Held(s)
    // a value that was put while takers waited went to the one that had waited longest
    && (forall i :: 0 <= i < |s.takes| && s.takes[i].due.Some? ==> s.takes[i].due == Some(s.takes[i].who))
    // and the one that is held can go to no other
    && (s.value.Some? && s.due.Some? ==> s.assignee == s.due)
    // the assignment is never withdrawn
    && s.assignee == s.lastWoken
  }

  /** An empty box with waiting putters has a woken putter on its way. */
  ghost predicate PutterComes(s: State) {
    s.value.None? && s.putQueue != [] ==> s.wokenPut != {}
  }

  lemma ValuesAppend(ts: seq<Taking>, t: Taking)
    ensures Values(ts + [t]) == Values(ts) + [t.v]
  {
    assert (ts + [t])[..|ts|] == ts;
  }

  lemma PutKeeps(s: State, p: Putter)
    requires Delivered(s)
    ensures Delivered(PutPass(s, p)) && PutterComes(PutPass(s, p))
  {
  }

  lemma TakeKeeps(s: State, f: Fiber)
    requires Delivered(s) && PutterComes(s)
    ensures Delivered(TakePass(s, f)) && PutterComes(TakePass(s, f))
  {
    if CanTake(s, f) {
      var t := s.(value := None, takes := s.takes + [Taking(f, s.value.value, s.due)]);
      TakeDelivers(s, f, t);
      WakePutterKeeps(t);
    }
  }

  lemma TakeDelivers(s: State, f: Fiber, t: State)
    requires Delivered(s) && CanTake(s, f)
    requires t == s.(value := None, takes := s.takes + [Taking(f, s.value.value, s.due)])
    ensures Delivered(t)
  {
    ValuesAppend(s.takes, Taking(f, s.value.value, s.due));
    assert t.puts == Values(t.takes) + Held(t);
    forall i | 0 <= i < |t.takes| && t.takes[i].due.Some? ensures t.takes[i].due == Some(t.takes[i].who) {
      if i < |s.takes| { assert t.takes[i] == s.takes[i]; }
    }
  }

  lemma WakePutterKeeps(t: State)
    requires Delivered(t)
    ensures Delivered(WakePutter(t)) && PutterComes(WakePutter(t))
  {
    if t.putQueue != [] {
      assert t.putQueue[0] in WakePutter(t).wokenPut;
    }
  }

  /** What every run of putters and takers keeps. */
  lemma {:induction false} RunDelivers(es: seq<Event>, takers: set<Fiber>)
    requires Legal(es, takers)
    ensures Delivered(After(es)) && PutterComes(After(es))
  {
    if es != [] {
      RunDelivers(es[..|es| - 1], takers);
      var s := After(es[..|es| - 1]);
      match es[|es| - 1]
      case Put(p) => PutKeeps(s, p);
      case RetryPut(p) => PutKeeps(s.(wokenPut := s.wokenPut - {p}), p);
      case Take(f) => TakeKeeps(s, f);
      case RetryTake(f) => TakeKeeps(s.(wokenTake := s.wokenTake - {f}), f);
    }
  }

  // ---------------------------------------------------------------- takers that are refused

  /** The box is full, somebody waits for its contents, and no woken taker is on its way. */
  predicate Stranded(s: State) {
    s.value.Some? && s.takeQueue != [] && s.wokenTake == {}
  }

  ghost predicate OneTaker(s: State, t: Fiber) {
    && (s.assignee.Some? ==> s.assignee == Some(t))
    && (forall f :: f in s.takeQueue || f in s.wokenTake ==> f == t)
    && (s.takeQueue != [] ==> |s.takeQueue| == 1 && s.wokenTake == {})
    && (s.value.Some? ==> s.takeQueue == [])
  }

  lemma {:induction false} OneTakerRun(es: seq<Event>, takers: set<Fiber>, t: Fiber)
    requires Legal(es, takers) && takers <= {t}
    ensures OneTaker(After(es), t)
  {
    if es != [] {
      OneTakerRun(es[..|es| - 1], takers, t);
      var s := After(es[..|es| - 1]);
      assert s.takeQueue != [] ==> s.takeQueue[0] in s.takeQueue;
    }
  }

  function StrandingRun(t1: Fiber, t2: Fiber, f: Fiber): seq<Event> {
    [Take(t1), Put(Putter(f, 10)), RetryTake(t1), Put(Putter(f, 20)), Take(t2)]
  }

  lemma Extend(es: seq<Event>, e: Event, takers: set<Fiber>)
    requires Legal(es, takers) && Enabled(After(es), e) && (e.Take? ==> e.f in takers)
    ensures Legal(es + [e], takers) && After(es + [e]) == Step(After(es), e)
  {
    assert (es + [e])[..|es + [e]| - 1] == es;
  }

  /** The first taker waits, is assigned the first value and takes it.  The second value finds nobody
      waiting, so the old assignment stands, and the second taker blocks on a full box. */
  lemma StrandingRunStrands(t1: Fiber, t2: Fiber, f: Fiber, takers: set<Fiber>)
    requires t1 in takers && t2 in takers && t1 != t2 && f != t1 && f != t2
    ensures Legal(StrandingRun(t1, t2, f), takers) && Stranded(After(StrandingRun(t1, t2, f)))
  {
    Extend([], Take(t1), takers);
    var es1 := [] + [Take(t1)];
    var s1 := Init.(takeQueue := [t1]);
    assert After(es1) == s1;
    FullForFirst(t1, t2, f, takers, es1);
  }

  lemma FullForFirst(t1: Fiber, t2: Fiber, f: Fiber, takers: set<Fiber>, es: seq<Event>)
    requires t1 in takers && t2 in takers && t1 != t2 && f != t1 && f != t2
    requires es == [Take(t1)] && Legal(es, takers) && After(es) == Init.(takeQueue := [t1])
    ensures Legal(StrandingRun(t1, t2, f), takers) && Stranded(After(StrandingRun(t1, t2, f)))
  {
    Extend(es, Put(Putter(f, 10)), takers);
    var es2 := es + [Put(Putter(f, 10))];
    var s2 := Init.(value := Some(10), puts := [10], assignee := Some(t1), due := Some(t1),
                    lastWoken := Some(t1), wokenTake := {t1});
    assert After(es2) == s2;
    Extend(es2, RetryTake(t1), takers);
    var es3 := es2 + [RetryTake(t1)];
    var s3 := s2.(value := None, wokenTake := {}, takes := [Taking(t1, 10, Some(t1))]);
    assert After(es3) == s3;
    Extend(es3, Put(Putter(f, 20)), takers);
    var es4 := es3 + [Put(Putter(f, 20))];
    var s4 := s3.(value := Some(20), puts := [10, 20], due := None);
    assert After(es4) == s4;
    Extend(es4, Take(t2), takers);
    assert es4 + [Take(t2)] == StrandingRun(t1, t2, f);
    assert !CanTake(s4, t2);
  }

  ghost predicate NeverStrands(takers: set<Fiber>) {
    forall es: seq<Event> :: Legal(es, takers) ==> !Stranded(After(es))
  }

  lemma Counterexample(es: seq<Event>, takers: set<Fiber>)
    requires Legal(es, takers) && Stranded(After(es))
    ensures !NeverStrands(takers)
  {
  }

  /** No taker is ever left on a full box, if and only if there is at most one taker. */
  lemma NeverStrandsIff(takers: set<Fiber>)
    ensures NeverStrands(takers) <==> |takers| <= 1
  {
    if |takers| <= 1 {
      var t := if takers == {} then 0 else var t :| t in takers; t;
      assert takers <= {t} by {
        if u :| u in takers && u != t { assert |{u, t}| <= |takers| by { SubsetSize({u, t}, takers); } }
      }
      forall es: seq<Event> | Legal(es, takers) ensures !Stranded(After(es)) {
        OneTakerRun(es, takers, t);
      }
    } else {
      var t1 :| t1 in takers;
      assert takers != {t1};
      var t2 :| t2 in takers && t2 != t1;
      var f := t1 + t2 + 1;
      StrandingRunStrands(t1, t2, f, takers);
      Counterexample(StrandingRun(t1, t2, f), takers);
    }
  }

  lemma {:induction false} SubsetSize(a: set<Fiber>, b: set<Fiber>)
    requires a <= b
    ensures |a| <= |b|
  {
    if a != {} {
      var x :| x in a;
      SubsetSize(a - {x}, b - {x});
    }
  }

  class Mailbox {
    var value: Option<Value>
    var assignee: Option<Fiber>
    var putQueue: seq<Putter>
    var takeQueue: seq<Fiber>
    ghost var rest: State    // the woken sets and the history

    ghost function Get(): State
      reads this
    {
      rest.(value := value, assignee := assignee, putQueue := putQueue, takeQueue := takeQueue)
    }

    constructor ()
      ensures Get() == Init
    {
      value, assignee, putQueue, takeQueue, rest := None, None, [], [], Init;
    }

    /** One pass of the loop in `wait_empty`, and the put if the box is empty. */
    method TryPut(p: Putter) returns (done: bool)
      modifies this
      ensures var s := old(Get()); Get() == PutPass(s.(wokenPut := s.wokenPut - {p}), p)
      ensures done <==> old(value) == None
    {
      rest := rest.(wokenPut := rest.wokenPut - {p});
      if value.Some? {
        putQueue := putQueue + [p];
        return false;
      }
      value := Some(p.v);
      rest := rest.(puts := rest.puts + [p.v], due := None);
      if takeQueue != [] {
        var f := takeQueue[0];
        takeQueue, assignee := takeQueue[1..], Some(f);
        rest := rest.(wokenTake := rest.wokenTake + {f}, due := Some(f), lastWoken := Some(f));
      }
      return true;
    }

    /** One pass of the loop in `wait`, and the take if the box is full for this fiber. */
    method TryTake(f: Fiber) returns (v: Option<Value>)
      modifies this
      ensures var s := old(Get()); Get() == TakePass(s.(wokenTake := s.wokenTake - {f}), f)
      ensures v == if CanTake(old(Get()), f) then old(value) else None
    {
      rest := rest.(wokenTake := rest.wokenTake - {f});
      if !(value.Some? && (assignee == None || assignee == Some(f))) {
        takeQueue := takeQueue + [f];
        return None;
      }
      v := value;
      rest := rest.(takes := rest.takes + [Taking(f, value.value, rest.due)]);
      value := None;
      if putQueue != [] {
        rest := rest.(wokenPut := rest.wokenPut + {putQueue[0]});
        putQueue := putQueue[1..];
      }
    }
  }
}
