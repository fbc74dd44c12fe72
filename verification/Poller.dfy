/** `PollerServer`: two parallel arrays, one of which is a lazily filled mirror of the other. */
module Pollers {
  import opened Common

  type Pollable = nat
  type Client = nat

  /** A registration.  The client may be absent. */
  datatype Item = Item(p: Pollable, client: Option<Client>)

  /** `poll` holds, for each initialized poll item, the pollable that it was initialized from. */
  datatype Server = Server(meta: seq<Item>, poll: seq<Pollable>)

  const Empty := Server([], [])

  /** Each poll item is the image of the registration at the same index. */
  ghost predicate Paired(s: Server) {
    |s.poll| <= |s.meta| && forall i :: 0 <= i < |s.poll| ==> s.poll[i] == s.meta[i].p
  }

  ghost predicate Mirrored(s: Server) {
    Paired(s) && |s.poll| == |s.meta|
  }

  // ---------------------------------------------------------------- operations

  function Add(s: Server, item: Item): Server {
    s.(meta := s.meta + [item])
  }

  /** The index of the last registration that matches, plus one; 0 if there is none. */
  function FindLast(meta: seq<Item>, item: Item): (i: nat)
    ensures i <= |meta|
    ensures i > 0 ==> meta[i - 1] == item
    ensures forall j :: i <= j < |meta| ==> meta[j] != item
  {
    if meta == [] then 0
    else if meta[|meta| - 1] == item then |meta|
    else FindLast(meta[..|meta| - 1], item)
  }

  /** `remove(size_t)`: drops the registrations that were added last. */
  function DropLast(s: Server, last: nat): Server {
    if last >= |s.meta| then Empty
    else
      var n := |s.meta| - last;
      Server(s.meta[..n], if |s.poll| > n then s.poll[..n] else s.poll)
  }

  /** Fills the gap at index `i`, which is not the last one, in both arrays. */
  function FillGap(s: Server, i: nat): Server
    requires i < |s.meta| - 1
  {
    var n := |s.poll|;
    var poll := if i < n - 1 then s.poll[i := s.poll[n - 1]][..n - 1]
                else if i < n then s.poll[..n - 1] else s.poll;
    Server(s.meta[i := s.meta[|s.meta| - 1]][..|s.meta| - 1], poll)
  }

  function RemoveAt(s: Server, i: nat): Server
    requires i < |s.meta|
  {
    if i < |s.meta| - 1 then FillGap(s, i) else DropLast(s, 1)
  }

  function Remove(s: Server, item: Item): Server {
    var i := FindLast(s.meta, item);
    if i == 0 then s else RemoveAt(s, i - 1)
  }

  function Images(meta: seq<Item>): (ps: seq<Pollable>)
    ensures |ps| == |meta| && forall i :: 0 <= i < |meta| ==> ps[i] == meta[i].p
  {
    if meta == [] then [] else Images(meta[..|meta| - 1]) + [meta[|meta| - 1].p]
  }

  /** `mirror`, when every `init` succeeds. */
  function Mirror(s: Server): Server {
    s.(poll := s.poll + Images(s.meta)[if |s.poll| <= |s.meta| then |s.poll| else |s.meta|..])
  }

  // ---------------------------------------------------------------- one removal

  /** The registration that goes is the only change to the contents, whatever the mirror does. */
  lemma RemoveContents(s: Server, i: nat)
    requires i < |s.meta|
    ensures multiset(RemoveAt(s, i).meta) == multiset(s.meta) - multiset{s.meta[i]}
  {
    RemovedMeta(s, i);
    CutContents(s.meta, i);
  }

  /** What is left of a sequence when the last element fills the gap. */
  function CutOut(m: seq<Item>, i: nat): seq<Item>
    requires i < |m|
  {
    if i < |m| - 1 then m[i := m[|m| - 1]][..|m| - 1] else m[..|m| - 1]
  }

  lemma RemovedMeta(s: Server, i: nat)
    requires i < |s.meta|
    ensures RemoveAt(s, i).meta == CutOut(s.meta, i)
  {
  }

  lemma CutContents(m: seq<Item>, i: nat)
    requires i < |m|
    ensures multiset(CutOut(m, i)) == multiset(m) - multiset{m[i]}
  {
    if i < |m| - 1 {
      GapFilled(m, i);
    } else {
      LastDropped(m);
    }
  }

  lemma LastDropped(m: seq<Item>)
    requires m != []
    ensures multiset(m[..|m| - 1]) == multiset(m) - multiset{m[|m| - 1]}
  {
    assert m == m[..|m| - 1] + [m[|m| - 1]];
  }

  lemma GapFilled(m: seq<Item>, i: nat)
    requires i < |m| - 1
    ensures var u := m[i := m[|m| - 1]][..|m| - 1];
            multiset(u) == multiset(m) - multiset{m[i]}
  {
    var n := |m|;
    var a, b, u := m[..i], m[i + 1..n - 1], m[i := m[n - 1]][..n - 1];
    assert m == a + [m[i]] + b + [m[n - 1]];
    assert u == a + [m[n - 1]] + b;
  }

  /** Dropping the registrations that were added last undoes their addition, and it keeps the arrays
      paired, however many are dropped. */
  lemma DropUndoesAdd(s: Server, items: seq<Item>, last: nat)
    requires Paired(s)
    ensures DropLast(s.(meta := s.meta + items), |items|) == s
    ensures Paired(DropLast(s, last))
    ensures |DropLast(s, last).meta| == if last <= |s.meta| then |s.meta| - last else 0
  {
    assert (s.meta + items)[..|s.meta|] == s.meta;
  }

  /** Exactly when a removal keeps the arrays paired.  It does not when the mirror is behind and the
      removed index lies inside the mirror but not at its end: then the last poll item moves into
      the gap, while the registration that moves there is another one. */
  lemma RemovePairedIff(s: Server, i: nat)
    requires Paired(s) && i < |s.meta|
    ensures Paired(RemoveAt(s, i)) <==>
              || |s.poll| == |s.meta|
              || i + 1 >= |s.poll|
              || s.meta[|s.poll| - 1].p == s.meta[|s.meta| - 1].p
  {
    var r := RemoveAt(s, i);
    if i < |s.meta| - 1 && i < |s.poll| - 1 {
      assert r.poll[i] == s.meta[|s.poll| - 1].p && r.meta[i] == s.meta[|s.meta| - 1];
    }
  }

  /** Two registrations, a poll, a third one, and then the first one is removed. */
  lemma MispairedRemoval()
    ensures var a, b, c := Item(1, None), Item(2, None), Item(3, None);
            var s := Server([a, b, c], [1, 2]);
            && s == Add(Mirror(Add(Add(Empty, a), b)), c)
            && Paired(s) && Remove(s, a) == Server([c, b], [2]) && !Paired(Remove(s, a))
  {
    var a, b, c := Item(1, None), Item(2, None), Item(3, None);
    var s := Server([a, b, c], [1, 2]);
    assert FindLast(s.meta, a) == 1 by { assert s.meta[0] == a && s.meta[1] != a && s.meta[2] != a; }
    assert s.meta[0 := c][..2] == [c, b];
    assert s.poll[0 := 2][..1] == [2];
    assert Remove(s, a) == RemoveAt(s, 0) == Server([c, b], [2]);
    RemovePairedIff(s, 0);
    TwoMirrored(a, b);
  }

  lemma TwoMirrored(a: Item, b: Item)
    ensures Mirror(Add(Add(Empty, a), b)) == Server([a, b], [a.p, b.p])
  {
    assert [] + [a] + [b] == [a, b];
    var ps := Images([a, b]);
    assert ps == [a.p, b.p];
    assert ps[0..] == ps;
  }

  /** With the mirror up to date, it stays up to date. */
  lemma RemoveMirrored(s: Server, i: nat)
    requires Mirrored(s) && i < |s.meta|
    ensures Mirrored(RemoveAt(s, i)) && |RemoveAt(s, i).meta| == |s.meta| - 1
  {
  }

  // ---------------------------------------------------------------- clients

  function Items(ps: seq<Pollable>, c: Client): (r: seq<Item>)
    ensures |r| == |ps|
  {
    if ps == [] then [] else Items(ps[..|ps| - 1], c) + [Item(ps[|ps| - 1], Some(c))]
  }

  /** The pollables whose registration succeeded: `add` fails when memory runs out. */
  function Kept(ps: seq<Pollable>, got: seq<bool>): seq<Pollable> {
    if ps == [] then []
    else
      var n := |ps| - 1;
      Kept(ps[..n], got) + if n < |got| && got[n] then [ps[n]] else []
  }

  /** The first loop of `PollerClient::poll`, which ignores that an addition fails. */
  function AddAll(s: Server, ps: seq<Pollable>, got: seq<bool>, c: Client): Server {
    if ps == [] then s
    else
      var n := |ps| - 1;
      var t := AddAll(s, ps[..n], got, c);
      if n < |got| && got[n] then Add(t, Item(ps[n], Some(c))) else t
  }

  /** Its last loop, from the last pollable to the first, which ignores that one is not found. */
  function RemoveAll(s: Server, ps: seq<Pollable>, c: Client): Server
    decreases |ps|
  {
    if ps == [] then s else RemoveAll(Remove(s, Item(ps[|ps| - 1], Some(c))), ps[..|ps| - 1], c)
  }

  /** A client inside `poll`: its pollables, and for which of them the registration succeeded. */
  datatype Polling = Polling(ps: seq<Pollable>, got: seq<bool>)

  /** The server, and the clients that are inside `poll`. */
  datatype System = System(server: Server, active: map<Client, Polling>)

  /** `Begin` registers the pollables of a client and polls once, `End` removes them, and `Serve` is a
      poll by the waiter. */
  datatype Event = Begin(c: Client, ps: seq<Pollable>, got: seq<bool>) | End(c: Client) | Serve

  predicate Enabled(s: System, e: Event) {
    match e
    case Begin(c, ps, got) => c !in s.active
    case End(c) => c in s.active
    case Serve => true
  }

  function Step(s: System, e: Event): System {
    match e
    case Begin(c, ps, got) => System(Mirror(AddAll(s.server, ps, got, c)), s.active[c := Polling(ps, got)])
    case End(c) =>
      if c in s.active then System(RemoveAll(s.server, s.active[c].ps, c), s.active - {c}) else s
    case Serve => s.(server := Mirror(s.server))
  }

  function Multiplicity(active: map<Client, Polling>, p: Pollable, c: Client): nat {
    if c in active then multiset(Kept(active[c].ps, active[c].got))[p] else 0
  }

  /** The mirror is up to date and paired, and the registrations are exactly those of the active
      clients, each as often as its client has it registered. */
  ghost predicate Consistent(s: System) {
    && Mirrored(s.server)
    && (forall p: Pollable :: multiset(s.server.meta)[Item(p, None)] == 0)
    && (forall p: Pollable, c: Client ::
          multiset(s.server.meta)[Item(p, Some(c))] == Multiplicity(s.active, p, c))
  }

  lemma {:induction false} AddAllAppends(s: Server, ps: seq<Pollable>, got: seq<bool>, c: Client)
    ensures AddAll(s, ps, got, c) == s.(meta := s.meta + Items(Kept(ps, got), c))
  {
    if ps != [] {
      var n := |ps| - 1;
      AddAllAppends(s, ps[..n], got, c);
      if n < |got| && got[n] {
        assert Kept(ps, got)[..|Kept(ps, got)| - 1] == Kept(ps[..n], got);
        assert s.meta + (Items(Kept(ps[..n], got), c) + [Item(ps[n], Some(c))])
               == (s.meta + Items(Kept(ps[..n], got), c)) + [Item(ps[n], Some(c))];
      } else {
        assert Kept(ps, got) == Kept(ps[..n], got);
      }
    }
  }

  lemma {:induction false} KeptFewer(ps: seq<Pollable>, got: seq<bool>, p: Pollable)
    ensures multiset(Kept(ps, got))[p] <= multiset(ps)[p]
  {
    if ps != [] {
      var n := |ps| - 1;
      KeptFewer(ps[..n], got, p);
      LastCounts(ps, p);
    }
  }

  lemma {:induction false} ItemsCount(ps: seq<Pollable>, c: Client, item: Item)
    ensures multiset(Items(ps, c))[item] == if item.client == Some(c) then multiset(ps)[item.p] else 0
  {
    if ps != [] {
      ItemsCount(ps[..|ps| - 1], c, item);
      assert ps == ps[..|ps| - 1] + [ps[|ps| - 1]];
    }
  }

  lemma LastCounts(ps: seq<Pollable>, p: Pollable)
    requires ps != []
    ensures multiset(ps)[p] == multiset(ps[..|ps| - 1])[p] + if ps[|ps| - 1] == p then 1 else 0
  {
    assert ps == ps[..|ps| - 1] + [ps[|ps| - 1]];
  }

  /** A removal is one at the last match, or none. */
  lemma RemoveCases(s: Server, item: Item)
    ensures var i := FindLast(s.meta, item);
            if i == 0 then item !in s.meta && Remove(s, item) == s
            else s.meta[i - 1] == item && Remove(s, item) == RemoveAt(s, i - 1)
  {
  }

  lemma RemoveCounts(s: Server, item: Item, x: Item)
    requires Mirrored(s)
    ensures Mirrored(Remove(s, item))
    ensures multiset(Remove(s, item).meta)[x] == OneFewer(multiset(s.meta)[x], x == item)
  {
    RemoveCases(s, item);
    if item in s.meta {
      RemoveFound(s, item, FindLast(s.meta, item) - 1, Remove(s, item), x);
    } else {
      NotFound(s.meta, item);
    }
  }

  lemma RemoveFound(s: Server, item: Item, i: nat, r: Server, x: Item)
    requires Mirrored(s) && i < |s.meta| && s.meta[i] == item && r == RemoveAt(s, i)
    ensures Mirrored(r) && multiset(r.meta)[x] == OneFewer(multiset(s.meta)[x], x == item)
  {
    RemoveCountsAt(s, i, x);
  }

  function OneFewer(n: nat, one: bool): nat {
    if one && n > 0 then n - 1 else n
  }

  lemma RemoveCountsAt(s: Server, i: nat, x: Item)
    requires Mirrored(s) && i < |s.meta|
    ensures Mirrored(RemoveAt(s, i)) && multiset(s.meta)[s.meta[i]] > 0
    ensures multiset(RemoveAt(s, i).meta)[x] == multiset(s.meta)[x] - if x == s.meta[i] then 1 else 0
  {
    RemoveMirrored(s, i);
    RemoveContents(s, i);
    OneLess(s.meta, i, x);
  }

  lemma OneLess(m: seq<Item>, i: nat, x: Item)
    requires i < |m|
    ensures multiset(m)[m[i]] > 0
    ensures (multiset(m) - multiset{m[i]})[x] == multiset(m)[x] - if x == m[i] then 1 else 0
  {
    assert m[i] in multiset(m);
  }

  lemma NotFound(m: seq<Item>, item: Item)
    requires item !in m
    ensures multiset(m)[item] == 0
  {
    assert item !in multiset(m);
  }

  /** Of each registration of the client, as many go as the client asks for, if there are. */
  lemma {:induction false} RemoveAllCounts(s: Server, ps: seq<Pollable>, c: Client, x: Item)
    requires Mirrored(s)
    ensures Mirrored(RemoveAll(s, ps, c))
    ensures var n, k := multiset(s.meta)[x], if x.client == Some(c) then multiset(ps)[x.p] else 0;
            multiset(RemoveAll(s, ps, c).meta)[x] == if n >= k then n - k else 0
    decreases |ps|
  {
    if ps != [] {
      var item := Item(ps[|ps| - 1], Some(c));
      LastCounts(ps, x.p);
      RemoveCounts(s, item, x);
      RemoveAllCounts(Remove(s, item), ps[..|ps| - 1], c, x);
    }
  }

  /** There is only one complete mirror. */
  lemma MirrorIs(s: Server, poll: seq<Pollable>)
    requires Paired(s) && |poll| == |s.meta| && forall j :: 0 <= j < |poll| ==> poll[j] == s.meta[j].p
    ensures Mirror(s) == s.(poll := poll)
  {
    assert Mirror(s).poll == poll;
  }

  lemma MirrorMirrors(s: Server)
    requires Paired(s)
    ensures Mirrored(Mirror(s)) && Mirror(s).meta == s.meta
  {
  }

  lemma BeginKeeps(s: System, c: Client, ps: seq<Pollable>, got: seq<bool>)
    requires Consistent(s) && c !in s.active
    ensures Consistent(Step(s, Begin(c, ps, got)))
  {
    var t := Step(s, Begin(c, ps, got));
    BeginCounts(s.server, ps, got, c, Item(0, None));
    forall p: Pollable ensures multiset(t.server.meta)[Item(p, None)] == 0 {
      BeginCounts(s.server, ps, got, c, Item(p, None));
    }
    forall p: Pollable, d: Client
      ensures multiset(t.server.meta)[Item(p, Some(d))] == Multiplicity(t.active, p, d)
    {
      BeginCounts(s.server, ps, got, c, Item(p, Some(d)));
      assert multiset(s.server.meta)[Item(p, Some(d))] == Multiplicity(s.active, p, d);
    }
  }

  lemma BeginCounts(s: Server, ps: seq<Pollable>, got: seq<bool>, c: Client, x: Item)
    requires Mirrored(s)
    ensures var r := Mirror(AddAll(s, ps, got, c));
            && Mirrored(r)
            && multiset(r.meta)[x] ==
                 multiset(s.meta)[x] + if x.client == Some(c) then multiset(Kept(ps, got))[x.p] else 0
  {
    AddAllAppends(s, ps, got, c);
    MirrorMirrors(AddAll(s, ps, got, c));
    ItemsCount(Kept(ps, got), c, x);
  }

  lemma EndKeeps(s: System, c: Client)
    requires Consistent(s) && c in s.active
    ensures Consistent(Step(s, End(c)))
  {
    var t, ps := Step(s, End(c)), s.active[c].ps;
    RemoveAllCounts(s.server, ps, c, Item(0, None));
    forall p: Pollable ensures multiset(t.server.meta)[Item(p, None)] == 0 {
      RemoveAllCounts(s.server, ps, c, Item(p, None));
    }
    forall p: Pollable, d: Client
      ensures multiset(t.server.meta)[Item(p, Some(d))] == Multiplicity(t.active, p, d)
    {
      RemoveAllCounts(s.server, ps, c, Item(p, Some(d)));
      KeptFewer(ps, s.active[c].got, p);
      assert multiset(s.server.meta)[Item(p, Some(d))] == Multiplicity(s.active, p, d);
    }
  }

  predicate Legal(es: seq<Event>) {
    es == [] || (Legal(es[..|es| - 1]) && Enabled(After(es[..|es| - 1]), es[|es| - 1]))
  }

  function After(es: seq<Event>): System {
    if es == [] then System(Empty, map[]) else Step(After(es[..|es| - 1]), es[|es| - 1])
  }

  /** Over any interleaving of polling clients on one server. */
  lemma {:induction false} RunConsistent(es: seq<Event>)
    requires Legal(es)
    ensures Consistent(After(es))
  {
    if es != [] {
      RunConsistent(es[..|es| - 1]);
      var s := After(es[..|es| - 1]);
      match es[|es| - 1]
      case Begin(c, ps, got) => BeginKeeps(s, c, ps, got);
      case End(c) => EndKeeps(s, c);
      case Serve => MirrorMirrors(s.server);
    }
  }

  /** An event at any index goes to an active client that registered the pollable whose poll item is
      at that index. */
  lemma EventReachesClient(es: seq<Event>, index: nat)
    requires Legal(es) && index < |After(es).server.poll|
    ensures var s := After(es);
            && index < |s.server.meta|
            && var m := s.server.meta[index];
            && s.server.poll[index] == m.p
            && m.client.Some? && m.client.value in s.active && m.p in s.active[m.client.value].ps
  {
    RunConsistent(es);
    var s := After(es);
    var m := s.server.meta[index];
    assert m in multiset(s.server.meta);
    assert m == Item(m.p, m.client);
    if m.client.Some? {
      var c := m.client.value;
      assert multiset(s.server.meta)[Item(m.p, Some(c))] == Multiplicity(s.active, m.p, c);
      KeptFewer(s.active[c].ps, s.active[c].got, m.p);
    }
  }

  // ---------------------------------------------------------------- in place

  /** Which of the arrays cannot grow. */
  datatype Failure = NoFailure | NoMeta | NoPoll

  class PollerServer {
    var meta: seq<Item>
    var poll: seq<Pollable>

    ghost function Get(): Server
      reads this
    {
      Server(meta, poll)
    }

    constructor ()
      ensures Get() == Empty
    {
      meta, poll := [], [];
    }

    /** Either allocation may fail, the second one after the registration has been made. */
    method AddItem(item: Item, failure: Failure) returns (ok: bool)
      modifies this
      ensures ok <==> failure.NoFailure?
      ensures Get() == if ok then Add(old(Get()), item) else old(Get())
    {
      if failure.NoMeta? {
        return false;
      }
      meta := meta + [item];
      if failure.NoPoll? {
        meta := meta[..|meta| - 1];
        return false;
      }
      return true;
    }

    /** The search loop of `remove`. */
    method Search(item: Item) returns (i: nat)
      ensures i == FindLast(meta, item)
    {
      i := |meta|;
      while i > 0 && meta[i - 1] != item
        invariant 0 <= i <= |meta|
        invariant FindLast(meta, item) == FindLast(meta[..i], item)
        decreases i
      {
        assert meta[..i][..i - 1] == meta[..i - 1];
        i := i - 1;
      }
      assert i > 0 ==> meta[..i][i - 1] == meta[i - 1];
    }

    method MoveLastTo(i: nat)
      requires i < |meta| - 1
      modifies this
      ensures Get() == FillGap(old(Get()), i)
    {
      if i < |poll| {
        if i < |poll| - 1 {
          poll := poll[i := poll[|poll| - 1]];
        }
        poll := poll[..|poll| - 1];
      }
      meta := meta[i := meta[|meta| - 1]];
      meta := meta[..|meta| - 1];
    }

    /** Returns false (ESRCH) when there is no such registration. */
    method RemoveItem(item: Item) returns (ok: bool)
      modifies this
      ensures Get() == Remove(old(Get()), item)
      ensures ok <==> item in old(meta)
    {
      var i := Search(item);
      if i == 0 {
        return false;
      }
      assert meta[i - 1] == item;
      i := i - 1;
      if i < |meta| - 1 {
        MoveLastTo(i);
      } else {
        RemoveLast(1);
      }
      return true;
    }

    method RemoveLast(last: nat)
      modifies this
      ensures Get() == DropLast(old(Get()), last)
    {
      if last >= |meta| {
        meta, poll := [], [];
      } else {
        meta := meta[..|meta| - last];
        if |poll| > |meta| {
          poll := poll[..|meta|];
        }
      }
    }

    /** `broken` holds the pollables that fail to initialize; the first of those ends the loop. */
    method DoMirror(broken: set<Pollable>) returns (ok: bool)
      requires Paired(Get())
      modifies this`poll
      ensures Paired(Get()) && old(poll) <= poll
      ensures ok ==> Mirrored(Get()) && Get() == Mirror(old(Get()))
      ensures !ok ==> |poll| < |meta| && meta[|poll|].p in broken
      ensures (forall i :: |old(poll)| <= i < |meta| ==> meta[i].p !in broken) ==> ok
    {
      ghost var s := Get();
      var i := |poll|;
      while i < |meta|
        invariant |s.poll| <= i <= |meta| && |poll| == i && s.poll <= poll
        invariant forall j :: 0 <= j < i ==> poll[j] == meta[j].p
        invariant forall j :: |s.poll| <= j < i ==> meta[j].p !in broken
      {
        if meta[i].p in broken {
          return false;
        }
        poll := poll + [meta[i].p];
        i := i + 1;
      }
      MirrorIs(s, poll);
      return true;
    }

    /** Moves all registrations to another server.  To reserve memory there may fail, and so may its
        `failAt`-th addition, in one way or the other.  On failure the destination is what it was,
        element by element. */
    method MigrateTo(dst: PollerServer, reserved: bool, failAt: nat, how: Failure) returns (ok: bool)
      requires dst != this && Paired(dst.Get()) && !how.NoFailure?
      modifies this, dst
      ensures ok <==> reserved && failAt >= |old(meta)|
      ensures ok ==> dst.Get() == Server(old(dst.meta) + old(meta), old(dst.poll)) && Get() == Empty
      ensures !ok ==> dst.Get() == old(dst.Get()) && Get() == old(Get())
      ensures Paired(dst.Get())
    {
      if !reserved {
        return false;
      }
      ghost var meta0, dst0 := meta, dst.Get();
      var i := 0;
      while i < |meta|
        invariant 0 <= i <= |meta| && i <= failAt
        invariant Get() == old(Get())
        invariant dst.Get() == dst0.(meta := dst0.meta + meta[..i])
      {
        var added := dst.AddItem(meta[i], if i == failAt then how else NoFailure);
        if !added {
          RollBack(dst, i, dst0);
          return false;
        }
        i := i + 1;
      }
      assert meta[..|meta|] == meta;
      meta, poll := [], [];
      return true;
    }

    /** Removes the first `i` registrations of this server again, the latest first. */
    method RollBack(dst: PollerServer, i: nat, ghost dst0: Server)
      requires dst != this && Paired(dst0) && i <= |meta|
      requires dst.Get() == dst0.(meta := dst0.meta + meta[..i])
      modifies dst
      ensures dst.Get() == dst0
    {
      var j := i;
      while j > 0
        invariant 0 <= j <= i
        invariant dst.Get() == dst0.(meta := dst0.meta + meta[..j])
      {
        ghost var before := dst.Get();
        assert before.meta == (dst0.meta + meta[..j - 1]) + [meta[j - 1]];
        assert before.meta[|before.meta| - 1] == meta[j - 1];
        assert FindLast(before.meta, meta[j - 1]) == |before.meta|;
        var found := dst.RemoveItem(meta[j - 1]);
        assert before.meta[..|before.meta| - 1] == dst0.meta + meta[..j - 1];
        assert dst.meta == dst0.meta + meta[..j - 1];
        j := j - 1;
      }
    }
  }
}
