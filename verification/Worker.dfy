/** The worker in place: fibers with their links in circular lists, proved against `Scheduler`. */
module Workers {
  import opened Common
  import opened Fibers
  import opened Scheduler
  import opened CircularLists
  import opened ListSets

  // ---------------------------------------------------------------- sequences of links

  /** The fibers that the links are part of. */
  ghost function Ids(s: seq<Link>): (r: seq<Fid>)
    ensures |r| == |s| && forall i :: 0 <= i < |s| ==> r[i] == s[i].tag
  {
    seq(|s|, i requires 0 <= i < |s| => s[i].tag)
  }

  lemma IdsConcat(s: seq<Link>, t: seq<Link>)
    ensures Ids(s + t) == Ids(s) + Ids(t)
  {
  }

  lemma IdsOne(l: Link)
    ensures Ids([l]) == [l.tag]
  {
  }

  lemma IdsPush(s: seq<Link>, x: Link)
    ensures Ids([x] + s) == [x.tag] + Ids(s) && Ids(s + [x]) == Ids(s) + [x.tag]
  {
    IdsOne(x);
    IdsConcat([x], s);
    IdsConcat(s, [x]);
  }

  lemma IdsPart(s: seq<Link>, i: nat, j: nat)
    requires i <= j <= |s|
    ensures Ids(s[i..j]) == Ids(s)[i..j]
  {
  }

  /** Turning the links past the i-th one turns the fibers past the i-th one. */
  lemma IdsRotate(s: seq<Link>, i: nat)
    requires i < |s|
    ensures Ids(Rotated(s, Succ(i, |s|))) == RotatedPast(Ids(s), i)
  {
    var n, k := |s|, Succ(i, |s|);
    assert s[k..n] == s[k..] && s[0..k] == s[..k];
    IdsConcat(s[k..], s[..k]);
    IdsPart(s, k, n);
    IdsPart(s, 0, k);
    assert Ids(s)[k..n] == Ids(s)[k..] && Ids(s)[0..k] == Ids(s)[..k];
    if k == 0 {
      assert Ids(s)[n..] == [] && Ids(s)[..n] == Ids(s);
    }
  }

  lemma IdsCut(s: seq<Link>, i: nat)
    requires i < |s| && NoDup(Ids(s))
    ensures Ids(Cut(s, i)) == Without(Ids(s), s[i].tag)
  {
    assert s[0..i] == s[..i] && s[i + 1..|s|] == s[i + 1..];
    IdsConcat(s[..i], s[i + 1..]);
    IdsPart(s, 0, i);
    IdsPart(s, i + 1, |s|);
    WithoutCuts(Ids(s), i);
  }

  // ---------------------------------------------------------------- the worker

  ghost function IdsIn(contents: map<List, seq<Link>>, l: List): seq<Fid> {
    if l in contents then Ids(contents[l]) else []
  }

  /** The queues of a worker. */
  datatype Queues = Queues(runnable: List, suspended: List, waits: map<Qid, List>)

  /** They are different lists. */
  ghost predicate Named(q: Queues, lists: set<List>) {
    && q.runnable in lists && q.suspended in lists && q.runnable != q.suspended
    && (forall i :: i in q.waits ==> q.waits[i] in lists && q.waits[i] != q.runnable && q.waits[i] != q.suspended)
    && (forall i, j :: i in q.waits && j in q.waits && i != j ==> q.waits[i] != q.waits[j])
  }

  /** And they hold the queues of the model. */
  ghost predicate QueuesAgree(
      runq: seq<Fid>, suspq: seq<Fid>, waitqs: map<Qid, seq<Fid>>, q: Queues, contents: map<List, seq<Link>>)
  {
    && Named(q, contents.Keys)
    && runq == IdsIn(contents, q.runnable) && suspq == IdsIn(contents, q.suspended)
    && waitqs.Keys == q.waits.Keys
    && forall i :: i in q.waits ==> waitqs[i] == IdsIn(contents, q.waits[i])
  }

  lemma RunqAgrees(
      runq: seq<Fid>, suspq: seq<Fid>, waitqs: map<Qid, seq<Fid>>, q: Queues, contents: map<List, seq<Link>>,
      s: seq<Link>)
    requires QueuesAgree(runq, suspq, waitqs, q, contents)
    ensures QueuesAgree(Ids(s), suspq, waitqs, q, contents[q.runnable := s])
  {
  }

  lemma SuspqAgrees(
      runq: seq<Fid>, suspq: seq<Fid>, waitqs: map<Qid, seq<Fid>>, q: Queues, contents: map<List, seq<Link>>,
      s: seq<Link>)
    requires QueuesAgree(runq, suspq, waitqs, q, contents)
    ensures QueuesAgree(runq, Ids(s), waitqs, q, contents[q.suspended := s])
  {
  }

  lemma OpenAgrees(
      runq: seq<Fid>, suspq: seq<Fid>, waitqs: map<Qid, seq<Fid>>, q: Queues, contents: map<List, seq<Link>>, i: Qid)
    requires QueuesAgree(runq, suspq, waitqs, q, contents) && i !in q.waits
    ensures forall l: List {:trigger contents[l := []]} :: l !in contents ==>
              QueuesAgree(runq, suspq, waitqs[i := []], q.(waits := q.waits[i := l]), contents[l := []])
  {
  }

  lemma WaitAgrees(
      runq: seq<Fid>, suspq: seq<Fid>, waitqs: map<Qid, seq<Fid>>, q: Queues, contents: map<List, seq<Link>>,
      i: Qid, s: seq<Link>)
    requires QueuesAgree(runq, suspq, waitqs, q, contents) && i in q.waits
    ensures QueuesAgree(runq, suspq, waitqs[i := Ids(s)], q, contents[q.waits[i] := s])
  {
  }

  /** A fiber's link carries its name and is in a list or ready to be put into one, and whatever is
      in a list is the link of a fiber. */
  ghost predicate Tied(links: map<Fid, Link>, home: map<Link, List>, loose: set<Link>) {
    && (forall f {:trigger links[f]} :: f in links ==>
          links[f].tag == f && (links[f] in home || links[f] in loose))
    && (forall x {:trigger links[x.tag]} {:trigger home[x]} :: x in home ==> x.tag in links && links[x.tag] == x)
  }

  lemma InitTied(x: Link, l: List)
    ensures Tied(map[x.tag := x], map[x := l], {})
  {
  }

  lemma TiedNew(links: map<Fid, Link>, home: map<Link, List>, loose: set<Link>, x: Link)
    requires Tied(links, home, loose) && x.tag !in links
    ensures Tied(links[x.tag := x], home, loose + {x})
  {
    var ls := links[x.tag := x];
    forall y | y in home ensures y.tag in ls && ls[y.tag] == y {
      assert home[y] == home[y] && y.tag in links;
    }
  }

  lemma TiedPut(links: map<Fid, Link>, home: map<Link, List>, loose: set<Link>, f: Fid, l: List)
    requires Tied(links, home, loose) && f in links
    ensures Tied(links, home[links[f] := l], loose - {links[f]})
  {
  }

  lemma TiedDrop(links: map<Fid, Link>, home: map<Link, List>, loose: set<Link>, x: Link)
    requires Tied(links, home, loose)
    ensures Tied(links, home - {x}, loose + {x})
  {
  }

  lemma TagsDistinct(links: map<Fid, Link>, home: map<Link, List>, loose: set<Link>, s: seq<Link>, l: List)
    requires Tied(links, home, loose) && NoDup(s) && AllAt(home, s, l)
    ensures NoDup(Ids(s))
  {
    forall i, j | 0 <= i < j < |s| ensures Ids(s)[i] != Ids(s)[j] {
      assert s[i] in s && s[j] in s;
      NoDupApart(s, i, j);
    }
    AllApart(Ids(s));
  }

  lemma LinkAt(links: map<Fid, Link>, home: map<Link, List>, loose: set<Link>, s: seq<Link>, l: List, i: nat)
    requires Tied(links, home, loose) && AllAt(home, s, l) && i < |s|
    ensures s[i].tag in links && links[s[i].tag] == s[i]
  {
    assert s[i] in s;
  }

  lemma TiedForget(links: map<Fid, Link>, home: map<Link, List>, loose: set<Link>, n: Fid)
    requires Tied(links, home, loose) && n in links && links[n] !in home
    ensures Tied(links - {n}, home, loose)
  {
    forall x | x in home ensures x.tag in links - {n} && (links - {n})[x.tag] == x {
      assert x.tag in links && links[x.tag] == x;
    }
  }

  /** Where the link of a fiber is, and what is left without it. */
  lemma DropAt(
      links: map<Fid, Link>, home: map<Link, List>, loose: set<Link>, s: seq<Link>, l: List, f: Fid)
    returns (i: nat)
    requires Tied(links, home, loose) && NoDup(s) && AllAt(home, s, l) && f in Ids(s)
    ensures f in links && i < |s| && s[i] == links[f] && Ids(Cut(s, i)) == Without(Ids(s), f)
    ensures Tied(links, home - {s[i]}, loose + {s[i]})
  {
    i :| 0 <= i < |s| && Ids(s)[i] == f;
    assert s[i] in s;
    TagsDistinct(links, home, loose, s, l);
    IdsCut(s, i);
    TiedDrop(links, home, loose, s[i]);
  }

  class Worker {
    var fibers: map<Fid, Fiber>
    var links: map<Fid, Link>    // the part of each fiber that is in a list
    var current: Option<Fid>
    var queues: Queues
    const lists: ListSet    // all of these lists

    /** The lists are well formed and hold these queues. */
    ghost predicate ListsShow(runq: seq<Fid>, suspq: seq<Fid>, waitqs: map<Qid, seq<Fid>>)
      reads this, lists, lists.contents.Keys, lists.links
    {
      && lists.Valid() && Tied(links, lists.home, lists.loose)
      && QueuesAgree(runq, suspq, waitqs, queues, lists.contents)
    }

    /** The fields are those of the world `w`. */
    ghost predicate Shows(w: World)
      reads this, lists, lists.contents.Keys, lists.links
    {
      && ListsShow(w.runq, w.suspq, w.queues)
      && w.fibers == fibers && links.Keys == fibers.Keys && w.current == current
    }

    /** A worker with its waiter, which is suspended. */
    constructor (x: Link, r: List, s: List, ls: ListSet)
      requires ls.Valid() && r != s && ls.contents == map[r := [], s := [x]]
      requires ls.home == map[x := s] && ls.loose == {}
      ensures Shows(Init(x.tag)) && lists == ls
    {
      fibers, links, current := map[x.tag := Fiber(Suspended, New)], map[x.tag := x], None;
      queues, lists := Queues(r, s, map[]), ls;
      InitTied(x, s);
      IdsOne(x);
    }

    method PutRunnable(
        f: Fid, front: bool, ghost runq: seq<Fid>, ghost suspq: seq<Fid>, ghost waitqs: map<Qid, seq<Fid>>)
      requires ListsShow(runq, suspq, waitqs) && f in links && links[f] in lists.loose
      modifies lists`contents, lists`home, lists`loose, queues.runnable, lists.links
      ensures ListsShow(if front then [f] + runq else runq + [f], suspq, waitqs)
    {
      var x, l := links[f], queues.runnable;
      ghost var c := lists.contents;
      ghost var s := if front then [x] + c[l] else c[l] + [x];
      IdsPush(c[l], x);
      TiedPut(links, lists.home, lists.loose, f, l);
      RunqAgrees(runq, suspq, waitqs, queues, c, s);
      lists.Put(l, x, front);
    }

    method PutSuspended(
        f: Fid, ghost runq: seq<Fid>, ghost suspq: seq<Fid>, ghost waitqs: map<Qid, seq<Fid>>)
      requires ListsShow(runq, suspq, waitqs) && f in links && links[f] in lists.loose
      modifies lists`contents, lists`home, lists`loose, queues.suspended, lists.links
      ensures ListsShow(runq, suspq + [f], waitqs)
    {
      var x, l := links[f], queues.suspended;
      ghost var c := lists.contents;
      IdsPush(c[l], x);
      TiedPut(links, lists.home, lists.loose, f, l);
      SuspqAgrees(runq, suspq, waitqs, queues, c, c[l] + [x]);
      lists.Put(l, x, false);
    }

    method DropRunnable(
        f: Fid, ghost runq: seq<Fid>, ghost suspq: seq<Fid>, ghost waitqs: map<Qid, seq<Fid>>)
      requires ListsShow(runq, suspq, waitqs) && f in runq
      modifies lists`contents, lists`home, lists`loose, queues.runnable, lists.links
      ensures ListsShow(Without(runq, f), suspq, waitqs)
      ensures f in links && links[f] in lists.loose && links[f] !in lists.home
    {
      var l := queues.runnable;
      ghost var c := lists.contents;
      assert AllAt(lists.home, c[l], l);
      ghost var i := DropAt(links, lists.home, lists.loose, c[l], l, f);
      RunqAgrees(runq, suspq, waitqs, queues, c, Cut(c[l], i));
      lists.Drop(l, links[f], i);
    }

    method DropSuspended(
        f: Fid, ghost runq: seq<Fid>, ghost suspq: seq<Fid>, ghost waitqs: map<Qid, seq<Fid>>)
      requires ListsShow(runq, suspq, waitqs) && f in suspq
      modifies lists`contents, lists`home, lists`loose, queues.suspended, lists.links
      ensures ListsShow(runq, Without(suspq, f), waitqs)
      ensures f in links && links[f] in lists.loose
    {
      var l := queues.suspended;
      ghost var c := lists.contents;
      assert AllAt(lists.home, c[l], l);
      ghost var i := DropAt(links, lists.home, lists.loose, c[l], l, f);
      SuspqAgrees(runq, suspq, waitqs, queues, c, Cut(c[l], i));
      lists.Drop(l, links[f], i);
    }

    method PutWaiting(
        q: Qid, f: Fid, ghost runq: seq<Fid>, ghost suspq: seq<Fid>, ghost waitqs: map<Qid, seq<Fid>>)
      requires ListsShow(runq, suspq, waitqs) && q in queues.waits && f in links && links[f] in lists.loose
      modifies lists`contents, lists`home, lists`loose, queues.waits[q], lists.links
      ensures q in waitqs && ListsShow(runq, suspq, waitqs[q := waitqs[q] + [f]])
    {
      var x, l := links[f], queues.waits[q];
      ghost var c := lists.contents;
      IdsPush(c[l], x);
      TiedPut(links, lists.home, lists.loose, f, l);
      WaitAgrees(runq, suspq, waitqs, queues, c, q, c[l] + [x]);
      lists.Put(l, x, false);
    }

    method DropWaiting(
        q: Qid, f: Fid, ghost runq: seq<Fid>, ghost suspq: seq<Fid>, ghost waitqs: map<Qid, seq<Fid>>)
      requires ListsShow(runq, suspq, waitqs) && q in queues.waits && q in waitqs && f in waitqs[q]
      modifies lists`contents, lists`home, lists`loose, queues.waits[q], lists.links
      ensures ListsShow(runq, suspq, waitqs[q := Without(waitqs[q], f)])
      ensures f in links && links[f] in lists.loose
    {
      var l := queues.waits[q];
      ghost var c := lists.contents;
      assert AllAt(lists.home, c[l], l);
      ghost var i := DropAt(links, lists.home, lists.loose, c[l], l, f);
      WaitAgrees(runq, suspq, waitqs, queues, c, q, Cut(c[l], i));
      lists.Drop(l, links[f], i);
    }

    /** The queue of a new synchronizer. */
    method OpenQueue(
        q: Qid, ghost runq: seq<Fid>, ghost suspq: seq<Fid>, ghost waitqs: map<Qid, seq<Fid>>)
      requires ListsShow(runq, suspq, waitqs) && q !in queues.waits
      modifies this`queues, lists`contents
      ensures q in queues.waits && fresh(queues.waits[q]) && queues.runnable == old(queues.runnable)
      ensures ListsShow(runq, suspq, waitqs[q := []])
    {
      OpenAgrees(runq, suspq, waitqs, queues, lists.contents, q);
      var l := lists.NewList();
      queues := queues.(waits := queues.waits[q := l]);
    }

    /** The run queue turns past the i-th fiber. */
    method TurnRunnable(
        x: Link, ghost i: nat, ghost runq: seq<Fid>, ghost suspq: seq<Fid>, ghost waitqs: map<Qid, seq<Fid>>)
      requires ListsShow(runq, suspq, waitqs) && i < |lists.contents[queues.runnable]|
      requires lists.contents[queues.runnable][i] == x
      modifies lists`contents, lists`home, lists`loose, queues.runnable
      ensures i < |runq| && ListsShow(RotatedPast(runq, i), suspq, waitqs)
    {
      var l := queues.runnable;
      ghost var c := lists.contents;
      IdsRotate(c[l], i);
      RunqAgrees(runq, suspq, waitqs, queues, c, Rotated(c[l], Succ(i, |c[l]|)));
      lists.TurnPast(l, x, i);
    }

    /** A fiber that is in no list and does not wait goes to the queue of its state. */
    method Add(f: Fid, front: bool, ghost w: World)
      requires Shows(w) && f in fibers && !fibers[f].state.Waiting? && links[f] in lists.loose
      modifies lists`contents, lists`home, lists`loose, queues.runnable, queues.suspended, lists.links
      ensures Shows(Added(w, f, front))
    {
      if fibers[f].state.Suspended? {
        PutSuspended(f, w.runq, w.suspq, w.queues);
      } else {
        PutRunnable(f, front, w.runq, w.suspq, w.queues);
      }
    }

    /** Takes a fiber out of the queue of its state. */
    method Release(f: Fid, ghost w: World)
      requires Shows(w) && f in fibers
      requires f in if fibers[f].state.Suspended? then w.suspq else w.runq
      modifies lists`contents, lists`home, lists`loose, queues.runnable, queues.suspended, lists.links
      ensures Shows(Released(w, f)) && links[f] in lists.loose
    {
      if fibers[f].state.Suspended? {
        DropSuspended(f, w.runq, w.suspq, w.queues);
      } else {
        DropRunnable(f, w.runq, w.suspq, w.queues);
      }
    }

    /** The states of fibers change, and the current fiber. */
    method Become(fs: map<Fid, Fiber>, c: Option<Fid>, ghost w: World)
      requires Shows(w) && fs.Keys == fibers.Keys
      modifies this`fibers, this`current
      ensures Shows(w.(fibers := fs, current := c))
    {
      fibers, current := fs, c;
    }

    method Change(f: Fid, b: Fiber, ghost w: World)
      requires Shows(w) && f in fibers
      modifies this`fibers
      ensures Shows(Changed(w, f, b))
    {
      fibers := fibers[f := b];
    }

    /** Context switch. */
    method SwitchContext(to: Option<Fid>, ghost w: World)
      requires Shows(w)
      modifies this`fibers, this`current
      ensures Shows(SwitchTo(w, to))
    {
      var fs := HandOver(fibers, current, to);
      Become(fs, to, w);
    }

    /** A fiber that is in no list gets a new state and goes to the queue of that state. */
    method Rejoin(f: Fid, b: Fiber, front: bool, ghost w: World)
      requires Shows(w) && f in fibers && !b.state.Waiting? && links[f] in lists.loose
      modifies this`fibers, lists`contents, lists`home, lists`loose
      modifies queues.runnable, queues.suspended, lists.links
      ensures Shows(Added(Changed(w, f, b), f, front))
    {
      Change(f, b, w);
      Add(f, front, Changed(w, f, b));
    }

    /** The run queue turns past the chosen fiber, which is initialized if it is new. */
    method Pick(x: Link, ghost i: nat, ghost w: World) returns (n: Fid)
      requires Shows(w) && i < |w.runq| && w.runq[i] in w.fibers
      requires i < |lists.contents[queues.runnable]| && lists.contents[queues.runnable][i] == x
      modifies this`fibers, lists`contents, lists`home, lists`loose, queues.runnable
      ensures n == w.runq[i] && Shows(Picked(w, i))
    {
      n := Turn(x, i, w);
      Change(n, Started(fibers[n]), w.(runq := RotatedPast(w.runq, i), log := w.log + [n]));
    }

    method Turn(x: Link, ghost i: nat, ghost w: World) returns (n: Fid)
      requires Shows(w) && i < |w.runq| && w.runq[i] in w.fibers
      requires i < |lists.contents[queues.runnable]| && lists.contents[queues.runnable][i] == x
      modifies lists`contents, lists`home, lists`loose, queues.runnable
      ensures n == w.runq[i] && Shows(w.(runq := RotatedPast(w.runq, i), log := w.log + [n]))
    {
      n := x.tag;
      TurnRunnable(x, i, w.runq, w.suspq, w.queues);
    }

    /** A dead fiber goes away; the one that runs this leaves that to the worker. */
    method Cleanup(n: Fid, ghost w: World)
      requires Shows(w) && n in w.runq && n in fibers && fibers[n].state.Dead?
      modifies this`fibers, this`links, this`current, lists`contents, lists`home, lists`loose
      modifies queues.runnable, lists.links
      ensures Shows(if w.current == Some(n) then SwitchTo(w, None) else CleanedUp(w, n))
    {
      if current == Some(n) {
        SwitchContext(None, w);
      } else {
        Bury(n, w);
      }
    }

    method Bury(n: Fid, ghost w: World)
      requires Shows(w) && n in w.runq && n in fibers
      modifies this`fibers, this`links, lists`contents, lists`home, lists`loose, queues.runnable, lists.links
      ensures Shows(CleanedUp(w, n))
    {
      DropRunnable(n, w.runq, w.suspq, w.queues);
      Forget(n, w.(runq := Without(w.runq, n)));
    }

    method Forget(n: Fid, ghost w: World)
      requires Shows(w) && n in fibers && links[n] !in lists.home
      modifies this`fibers, this`links
      ensures Shows(w.(fibers := w.fibers - {n}))
    {
      TiedForget(links, lists.home, lists.loose, n);
      fibers, links := fibers - {n}, links - {n};
    }

    /** The link of the fiber that `schedule` looks at first. */
    method Choose(t: Target, ghost i: nat, ghost w: World) returns (x: Link)
      requires Shows(w) && w.runq != [] && (t.Prefer? ==> t.f in w.runq)
      requires i == if t.Prefer? then IndexOf(w.runq, t.f) else 0
      ensures |lists.contents[queues.runnable]| == |w.runq| && lists.contents[queues.runnable][i] == x
    {
      ghost var l, c := queues.runnable, lists.contents;
      LinkAt(links, lists.home, lists.loose, c[l], l, i);
      assert l.elems == c[l] && l.Valid();
      x := if t.Prefer? then links[t.f] else queues.runnable.head;
    }

    method PickFor(t: Target, ghost i: nat, ghost w: World) returns (n: Fid)
      requires Shows(w) && w.runq != [] && (t.Prefer? ==> t.f in w.runq)
      requires i == (if t.Prefer? then IndexOf(w.runq, t.f) else 0) && w.runq[i] in w.fibers
      modifies this`fibers, lists`contents, lists`home, lists`loose, queues.runnable
      ensures n == w.runq[i] && Shows(Picked(w, i))
    {
      var x := Choose(t, i, w);
      n := Pick(x, i, w);
    }

    /** What `schedule` does with the fiber that it chose.  `done` is false if the fiber was dead. */
    method Dispatch(n: Fid, ghost p: World) returns (done: bool, switched: bool)
      requires Shows(p) && n in p.runq && n in p.fibers
      modifies this`fibers, this`links, this`current, lists`contents, lists`home, lists`loose
      modifies queues.runnable, lists.links
      ensures Shows(Dispatched(p, n))
      ensures done <==> !p.fibers[n].state.Dead? || p.current == Some(n)
      ensures switched <==> !p.fibers[n].state.Running?
    {
      done, switched := true, true;
      if fibers[n].state.Running? {
        switched := false;
      } else if !fibers[n].state.Dead? {
        SwitchContext(Some(n), p);
      } else {
        done := current == Some(n);
        Cleanup(n, p);
      }
    }

    /** One pass of the reschedule loop.  When it is not the last one, the queue got shorter. */
    method SchedulePass(t: Target, ghost w: World) returns (done: bool, switched: bool, ghost w': World)
      requires Shows(w) && Partition(w) && (t.Prefer? ==> t.f in w.runq)
      modifies this`fibers, this`links, this`current, lists`contents, lists`home, lists`loose
      modifies queues.runnable, lists.links
      ensures Shows(w')
      ensures done ==> w' == Schedule(w, t)
      ensures !done ==> Partition(w') && Schedule(w', Any) == Schedule(w, t) && |w'.runq| < |w.runq|
      ensures (switched <==> !RunsAlready(w, t)) && (!done ==> switched)
    {
      var idle := Idle(w);
      if t.ToWorker? || idle {
        switched := current.Some?;
        SwitchContext(None, w);
        return true, switched, SwitchTo(w, None);
      }
      done, switched, w' := PickNext(t, w);
    }

    method PickNext(t: Target, ghost w: World) returns (done: bool, switched: bool, ghost w': World)
      requires Shows(w) && Partition(w) && !t.ToWorker? && w.runq != [] && (t.Prefer? ==> t.f in w.runq)
      modifies this`fibers, this`links, this`current, lists`contents, lists`home, lists`loose
      modifies queues.runnable, lists.links
      ensures Shows(w')
      ensures done ==> w' == Schedule(w, t)
      ensures !done ==> Partition(w') && Schedule(w', Any) == Schedule(w, t) && |w'.runq| < |w.runq|
      ensures (switched <==> !RunsAlready(w, t)) && (!done ==> switched)
    {
      ghost var i := if t.Prefer? then IndexOf(w.runq, t.f) else 0;
      PickPlan(w, t, i);
      var n := PickFor(t, i, w);
      w' := Dispatched(Picked(w, i), n);
      done, switched := Dispatch(n, Picked(w, i));
    }

    method Idle(ghost w: World) returns (idle: bool)
      requires Shows(w)
      ensures idle <==> w.runq == []
    {
      assert queues.runnable.Valid();
      idle := queues.runnable.head == null;
    }

    /** `schedule`, with its loop over dead fibers.  It answers whether it did anything: the answer is
        false exactly when the fiber that it looks at first is the one that runs. */
    method DoSchedule(t: Target, ghost w: World) returns (switched: bool)
      requires Shows(w) && Partition(w) && (t.Prefer? ==> t.f in w.runq)
      modifies this`fibers, this`links, this`current, lists`contents, lists`home, lists`loose
      modifies queues.runnable, lists.links
      ensures Shows(Schedule(w, t)) && Inv(Schedule(w, t))
      ensures switched <==> !RunsAlready(w, t)
    {
      ScheduleKeeps(w, t);
      var done;
      ghost var w';
      done, switched, w' := SchedulePass(t, w);
      while !done
        invariant Shows(w') && (switched <==> !RunsAlready(w, t)) && (!done ==> switched)
        invariant done ==> w' == Schedule(w, t)
        invariant !done ==> Partition(w') && Schedule(w', Any) == Schedule(w, t)
        decreases !done, |w'.runq|
      {
        var again;
        done, again, w' := SchedulePass(Any, w');
        switched := switched || again;
      }
    }

    /** `suspend`: a fiber that waits only gets another next state. */
    method SuspendFiber(f: Fid, up: bool, ghost w: World) returns (ghost w': World)
      requires Shows(w) && Inv(w) && f in fibers
      modifies this`fibers, this`links, this`current, lists`contents, lists`home, lists`loose
      modifies queues.runnable, queues.suspended, lists.links
      ensures Shows(w')
      ensures w' == if w.fibers[f].state.Waiting? then Changed(w, f, SuspendedOf(w.fibers[f]))
                    else Step(w, Suspend(f, up))
      ensures !w.fibers[f].state.Waiting? ==> Inv(w')
    {
      w' := SuspendStep(w, f, up);
      var state := fibers[f].state;
      if state.New? || state.Ready? {
        MoveToSuspended(f, w);
      } else if state.Running? {
        MoveToSuspended(f, w);
        var _ := DoSchedule(Next(up), SuspendedWorld(w, f));
      } else if state.Waiting? {
        Change(f, SuspendedOf(fibers[f]), w);
      }
    }

    method MoveToSuspended(f: Fid, ghost w: World)
      requires Shows(w) && f in w.runq && f in w.fibers
      requires w.fibers[f].state.New? || w.fibers[f].state.Ready? || w.fibers[f].state.Running?
      modifies this`fibers, lists`contents, lists`home, lists`loose
      modifies queues.runnable, queues.suspended, lists.links
      ensures Shows(SuspendedWorld(w, f))
    {
      Release(f, w);
      Rejoin(f, SuspendedOf(fibers[f]), false, Released(w, f));
    }

    /** A new fiber, with a new link, is added at the end of the run queue. */
    method Hatch(f: Fid, ghost w: World)
      requires Shows(w) && f !in fibers
      modifies this`fibers, this`links, lists, queues.runnable, lists.links
      ensures Shows(Operation(w, Spawn(f)))
    {
      var x := new Link(f);
      AdoptLink(x, w);
      PutRunnable(f, false, w.runq, w.suspq, w.queues);
    }

    method AdoptLink(x: Link, ghost w: World)
      requires Shows(w) && x.tag !in fibers && x !in lists.home && x.prev == null && x.next == null
      modifies this`fibers, this`links, lists`loose, lists`links
      ensures Shows(Changed(w, x.tag, Fiber(New, Ready)))
      ensures x.tag in links && links[x.tag] == x && x in lists.loose && lists.links == old(lists.links) + {x}
    {
      TiedNew(links, lists.home, lists.loose, x);
      lists.Adopt(x);
      fibers, links := fibers[x.tag := Fiber(New, Ready)], links[x.tag := x];
    }

    /** `SynchronizerBase::block` by the current fiber, on a queue that exists. */
    method BlockOn(q: Qid, up: bool, ghost w: World)
      requires Shows(w) && Inv(w) && Enabled(w, Block(q, up)) && q in queues.waits
      modifies this`fibers, this`links, this`current, lists`contents, lists`home, lists`loose
      modifies queues.runnable, queues.waits[q], lists.links
      ensures Shows(Step(w, Block(q, up))) && Inv(Step(w, Block(q, up)))
    {
      BlockReady(w, q, up);
      BlockStep(w, q, up);
      EnqueueAndSchedule(q, current.value, up, w);
    }

    method EnqueueAndSchedule(q: Qid, c: Fid, up: bool, ghost w: World)
      requires Shows(w) && c in w.runq && c in w.fibers && w.fibers[c].state.Running? && q in queues.waits
      requires Partition(Enqueued(w, c, q))
      modifies this`fibers, this`links, this`current, lists`contents, lists`home, lists`loose
      modifies queues.runnable, queues.waits[q], lists.links
      ensures Shows(Schedule(Enqueued(w, c, q), Next(up)))
    {
      Enqueue(q, c, w);
      var _ := DoSchedule(Next(up), Enqueued(w, c, q));
    }

    method Enqueue(q: Qid, c: Fid, ghost w: World)
      requires Shows(w) && c in w.runq && c in w.fibers && w.fibers[c].state.Running? && q in queues.waits
      modifies this`fibers, lists`contents, lists`home, lists`loose, queues.runnable, queues.waits[q], lists.links
      ensures Shows(Enqueued(w, c, q)) && queues == old(queues) && lists.links == old(lists.links)
    {
      ShowToWaiting(q, c, w);
      Nap(q, c, w);
    }

    method Nap(q: Qid, c: Fid, ghost w: World)
      requires c in w.fibers && w.fibers[c].state.Running? && q in w.queues
      requires Shows(w.(runq := Without(w.runq, c), queues := w.queues[q := Queue(w, q) + [c]]))
      modifies this`fibers
      ensures Shows(Enqueued(w, c, q))
    {
      ghost var w1 := w.(runq := Without(w.runq, c), queues := w.queues[q := Queue(w, q) + [c]]);
      Change(c, Napping(fibers[c]), w1);
      EnqueuedIs(w, c, q);
      SameShown(Changed(w1, c, Napping(w.fibers[c])), Enqueued(w, c, q));
    }

    lemma SameShown(w: World, v: World)
      requires Shows(w) && v.runq == w.runq && v.suspq == w.suspq && v.queues == w.queues
      requires v.fibers == w.fibers && v.current == w.current
      ensures Shows(v)
    {
    }

    method ShowToWaiting(q: Qid, c: Fid, ghost w: World)
      requires Shows(w) && c in w.runq && q in queues.waits
      modifies lists`contents, lists`home, lists`loose, queues.runnable, queues.waits[q], lists.links
      ensures queues == old(queues) && lists.links == old(lists.links)
      ensures q in w.queues && Shows(w.(runq := Without(w.runq, c), queues := w.queues[q := Queue(w, q) + [c]]))
    {
      ToWaiting(q, c, w.runq, w.suspq, w.queues);
    }

    method ToWaiting(
        q: Qid, c: Fid, ghost runq: seq<Fid>, ghost suspq: seq<Fid>, ghost waitqs: map<Qid, seq<Fid>>)
      requires ListsShow(runq, suspq, waitqs) && c in runq && q in queues.waits
      modifies lists`contents, lists`home, lists`loose, queues.runnable, queues.waits[q], lists.links
      ensures q in waitqs && ListsShow(Without(runq, c), suspq, waitqs[q := waitqs[q] + [c]])
    {
      DropRunnable(c, runq, suspq, waitqs);
      PutWaiting(q, c, Without(runq, c), suspq, waitqs);
    }

    /** `unblockFirst` by whoever runs. */
    method WakeFirst(q: Qid, prio: bool, ghost w: World)
      requires Shows(w) && Inv(w) && q in queues.waits
      modifies this`fibers, lists`contents, lists`home, lists`loose
      modifies queues.runnable, queues.suspended, queues.waits[q], lists.links
      ensures Shows(Operation(w, UnblockFirst(q, prio))) && Inv(Operation(w, UnblockFirst(q, prio)))
    {
      UnblockFirstIs(w, q, prio);
      var first := FirstWaiting(q, w);
      if first.Some? {
        Wake(q, first.value, prio, w);
      }
    }

    method FirstWaiting(q: Qid, ghost w: World) returns (f: Option<Fid>)
      requires Shows(w) && q in queues.waits
      ensures f == if Queue(w, q) == [] then None else Some(Queue(w, q)[0])
    {
      var l := queues.waits[q];
      assert l.Valid() && l.elems == lists.contents[l];
      f := if l.head == null then None else Some(l.head.tag);
    }

    method Wake(q: Qid, f: Fid, prio: bool, ghost w: World)
      requires Shows(w) && q in queues.waits && f in Queue(w, q) && f in w.fibers
      requires w.fibers[f].state.Waiting? && !w.fibers[f].next.Waiting?
      modifies this`fibers, lists`contents, lists`home, lists`loose
      modifies queues.runnable, queues.suspended, queues.waits[q], lists.links
      ensures Shows(Dequeued(w, f, q, ByUnblock, prio))
    {
      Leave(q, f, w);
      Rejoin(f, WokenUp(fibers[f]), prio, LeftQueue(w, f, q, ByUnblock));
    }

    method Leave(q: Qid, f: Fid, ghost w: World)
      requires Shows(w) && q in queues.waits && f in Queue(w, q)
      modifies lists`contents, lists`home, lists`loose, queues.waits[q], lists.links
      ensures Shows(LeftQueue(w, f, q, ByUnblock)) && f in links && links[f] in lists.loose
    {
      DropWaiting(q, f, w.runq, w.suspq, w.queues);
    }

    /** `resume` of any fiber. */
    method ResumeFiber(f: Fid, ghost w: World)
      requires Shows(w) && Partition(w) && f in fibers
      modifies this`fibers, lists`contents, lists`home, lists`loose
      modifies queues.runnable, queues.suspended, lists.links
      ensures Shows(ResumedWorld(w, f)) && Partition(ResumedWorld(w, f))
    {
      ResumeKeeps(w, f);
      assert Placed(w, f);
      if !fibers[f].state.Suspended? {
        return;
      }
      Release(f, w);
      Rejoin(f, ResumedOf(fibers[f]), false, Released(w, f));
    }
  }

  lemma UnblockFirstIs(w: World, q: Qid, prio: bool)
    requires Inv(w)
    ensures var r := Operation(w, UnblockFirst(q, prio));
            && Inv(r)
            && if Queue(w, q) == [] then r == w
               else
                 var f := Queue(w, q)[0];
                 f in w.fibers && w.fibers[f] == Fiber(Waiting, Ready) && r == Dequeued(w, f, q, ByUnblock, prio)
  {
    if Queue(w, q) != [] {
      var f := Queue(w, q)[0];
      assert QueueOk(w, q) && Placed(w, f);
      DequeueKeeps(w, f, q, prio);
    }
  }

  lemma EnqueuedIs(w: World, c: Fid, q: Qid)
    requires c in w.fibers && w.fibers[c].state.Running? && q in w.queues
    ensures var e := Enqueued(w, c, q);
            && e.runq == Without(w.runq, c) && e.suspq == w.suspq && e.queues == w.queues[q := w.queues[q] + [c]]
            && e.fibers == w.fibers[c := Napping(w.fibers[c])] && e.current == w.current
  {
  }

  lemma BlockReady(w: World, q: Qid, up: bool)
    requires Inv(w) && Enabled(w, Block(q, up))
    ensures var c := w.current.value;
            c in w.runq && c in w.fibers && w.fibers[c].state.Running? && Partition(Enqueued(w, c, q))
  {
    assert Placed(w, w.current.value);
    EnqueueKeeps(w, q);
  }

  lemma BlockStep(w: World, q: Qid, up: bool)
    requires Inv(w) && Enabled(w, Block(q, up))
    ensures Step(w, Block(q, up)) == Schedule(Enqueued(w, w.current.value, q), Next(up))
    ensures Inv(Step(w, Block(q, up)))
  {
    StepKeeps(w, Block(q, up));
    assert Operation(w, Block(q, up)) == Enqueued(w, w.current.value, q);
  }

  /** The suspend step, by the state of the fiber. */
  lemma SuspendStep(w: World, f: Fid, up: bool) returns (w': World)
    requires Inv(w) && f in w.fibers
    ensures w' == match w.fibers[f].state
                  case Waiting => Changed(w, f, SuspendedOf(w.fibers[f]))
                  case Running => Schedule(SuspendedWorld(w, f), Next(up))
                  case Dead => w
                  case Suspended => w
                  case _ => SuspendedWorld(w, f)
    ensures !w.fibers[f].state.Waiting? ==> w' == Step(w, Suspend(f, up)) && Inv(w')
    ensures w.fibers[f].state.Running? ==> Partition(SuspendedWorld(w, f))
    ensures InRunQueue(w.fibers[f].state) <==> f in w.runq
  {
    assert Placed(w, f);
    if w.fibers[f].state.Waiting? {
      w' := Changed(w, f, SuspendedOf(w.fibers[f]));
    } else {
      w' := Step(w, Suspend(f, up));
      if w.fibers[f].state.New? || w.fibers[f].state.Ready? || w.fibers[f].state.Running? {
        SuspendKeeps(w, f);
      }
      if w.fibers[f].state.Running? {
        ScheduleKeeps(SuspendedWorld(w, f), Next(up));
      }
    }
  }

  method HandOver(fibers: map<Fid, Fiber>, from: Option<Fid>, to: Option<Fid>) returns (fs: map<Fid, Fiber>)
    ensures fs == HandedOver(fibers, from, to) && fs.Keys == fibers.Keys
  {
    fs := fibers;
    if from.Some? && from.value in fs && fs[from.value].state.Running? {
      fs := fs[from.value := fs[from.value].(state := Ready)];
    }
    if to.Some? && to.value in fs {
      fs := fs[to.value := fs[to.value].(state := Running)];
    }
  }

  /** What `schedule` looks at first is what runs: the chosen fiber, or the worker itself. */
  predicate RunsAlready(w: World, t: Target) {
    if t.ToWorker? || w.runq == [] || (t.Prefer? && t.f !in w.runq) then w.current.None?
    else
      var n := w.runq[if t.Prefer? then IndexOf(w.runq, t.f) else 0];
      n in w.fibers && w.fibers[n].state.Running?
  }

  ghost function Dispatched(p: World, n: Fid): World
    requires n in p.fibers
  {
    if p.fibers[n].state.Running? then p
    else if !p.fibers[n].state.Dead? then SwitchTo(p, Some(n))
    else if p.current == Some(n) then SwitchTo(p, None) else CleanedUp(p, n)
  }

  /** What picking the i-th fiber leads to. */
  lemma PickPlan(w: World, t: Target, i: nat)
    requires Partition(w) && !t.ToWorker? && w.runq != [] && (t.Prefer? ==> t.f in w.runq)
    requires i == if t.Prefer? then IndexOf(w.runq, t.f) else 0
    ensures w.runq[i] in w.fibers
    ensures var n, p := w.runq[i], Picked(w, i);
            && n in p.runq && n in p.fibers && (p.fibers[n].state.Running? <==> RunsAlready(w, t))
            && var d := Dispatched(p, n);
               if !p.fibers[n].state.Dead? || p.current == Some(n) then d == Schedule(w, t)
               else Schedule(d, Any) == Schedule(w, t) && Partition(d) && |d.runq| < |w.runq|
  {
    var n := w.runq[i];
    assert n in w.runq && Placed(w, n);
    RotateKeeps(w, i, w.log + [n]);
    StartKeeps(w.(runq := RotatedPast(w.runq, i), log := w.log + [n]), n);
    var p := Picked(w, i);
    if p.fibers[n].state.Dead? && w.current != Some(n) {
      CleanupKeeps(p, n);
    }
  }

  method NewWorker(waiter: Fid) returns (w: Worker)
    ensures fresh(w) && w.Shows(Init(waiter)) && Inv(Init(waiter))
  {
    var x := new Link(waiter);
    var r := new List();
    var s := new List();
    s.PushBack(x);
    var ls := new ListSet(r, s, x);
    w := new Worker(x, r, s, ls);
    InitInv(waiter);
  }

  lemma InitInv(waiter: Fid)
    ensures Inv(Init(waiter))
  {
    var w := Init(waiter);
    forall f ensures Placed(w, f) && AlarmOk(w, f) {}
    forall q ensures QueueOk(w, q) {}
  }
}
