/** Several circular lists over one set of links, each of which is in one list or in none. */
module ListSets {
  import opened Common
  import opened CircularLists

  /** No link occurs twice, and every member of a list has that list as its home. */
  ghost predicate Housed(home: map<Link, List>, contents: map<List, seq<Link>>) {
    && (forall l {:trigger AllAt(home, contents[l], l)} :: l in contents ==>
          NoDup(contents[l]) && AllAt(home, contents[l], l))
    && (forall x {:trigger home[x]} :: x in home ==> home[x] in contents && x in contents[home[x]])
  }

  ghost predicate AllAt(home: map<Link, List>, s: seq<Link>, l: List) {
    forall x :: x in s ==> x in home && home[x] == l
  }

  lemma HousedNew(home: map<Link, List>, contents: map<List, seq<Link>>, l: List)
    requires Housed(home, contents) && l !in contents
    ensures Housed(home, contents[l := []])
  {
    var c := contents[l := []];
    forall m | m in c ensures NoDup(c[m]) && AllAt(home, c[m], m) {
      if m != l { assert AllAt(home, contents[m], m); }
    }
  }

  lemma HousedPut(home: map<Link, List>, contents: map<List, seq<Link>>, l: List, x: Link, s: seq<Link>)
    requires Housed(home, contents) && l in contents && x !in home
    requires NoDup(s) && forall y :: y in s <==> y == x || y in contents[l]
    ensures Housed(home[x := l], contents[l := s])
  {
    var h, c := home[x := l], contents[l := s];
    forall m | m in c ensures NoDup(c[m]) && AllAt(h, c[m], m) {
      assert AllAt(home, contents[m], m);
    }
    forall y | y in h ensures h[y] in c && y in c[h[y]] {
      if y != x { assert y in home; }
    }
  }

  lemma HousedDrop(home: map<Link, List>, contents: map<List, seq<Link>>, l: List, x: Link, s: seq<Link>)
    requires Housed(home, contents) && l in contents && x in contents[l]
    requires NoDup(s) && forall y :: y in s <==> y != x && y in contents[l]
    ensures Housed(home - {x}, contents[l := s])
  {
    var h, c := home - {x}, contents[l := s];
    assert AllAt(home, contents[l], l);
    forall m | m in c ensures NoDup(c[m]) && AllAt(h, c[m], m) {
      assert AllAt(home, contents[m], m);
    }
    forall y | y in h ensures h[y] in c && y in c[h[y]] {
      assert y in home;
    }
  }

  lemma HousedTurn(home: map<Link, List>, contents: map<List, seq<Link>>, l: List, s: seq<Link>)
    requires Housed(home, contents) && l in contents
    requires NoDup(s) && forall y :: y in s <==> y in contents[l]
    ensures Housed(home, contents[l := s])
  {
    var c := contents[l := s];
    forall m | m in c ensures NoDup(c[m]) && AllAt(home, c[m], m) {
      assert AllAt(home, contents[m], m);
    }
    forall y | y in home ensures home[y] in c && y in c[home[y]] {}
  }

  lemma Apart(home: map<Link, List>, contents: map<List, seq<Link>>, l: List, m: List)
    requires Housed(home, contents) && l in contents && m in contents && l != m
    ensures Disjoint(contents[m], contents[l])
  {
    assert AllAt(home, contents[m], m) && AllAt(home, contents[l], l);
  }

  ghost predicate Disjoint(s: seq<Link>, t: seq<Link>) {
    forall y :: y in s ==> y !in t
  }

  lemma MembersAllocated(m: List)
    ensures forall y :: y in m.elems ==> allocated(y)
  {
    forall y | y in m.elems ensures allocated(y) {
      var i :| 0 <= i < |m.elems| && m.elems[i] == y;
    }
  }

  /** Pushes, next to lists that are apart from `l` and links that are in no list. */
  method PushAside(l: List, x: Link, front: bool, ghost others: set<List>, ghost clear: set<Link>)
    requires l.Valid() && x !in l.elems && x.prev == null && x.next == null
    requires forall m :: m in others ==> m != l && m.Valid() && x !in m.elems && Disjoint(m.elems, l.elems)
    requires forall y :: y in clear ==> y != x && y !in l.elems && y.prev == null && y.next == null
    modifies l, l.elems, x
    ensures l.Valid() && l.elems == if front then [x] + old(l.elems) else old(l.elems) + [x]
    ensures forall m :: m in others ==> m.Valid() && m.elems == old(m.elems)
    ensures forall y :: y in clear ==> y.prev == null && y.next == null
  {
    forall m | m in others ensures forall y :: y in m.elems ==> allocated(y) { MembersAllocated(m); }
    if front {
      l.PushFront(x);
    } else {
      l.PushBack(x);
    }
    forall m | m in others ensures m.Valid() {
      assert old(m.Valid() && Disjoint(m.elems, l.elems)) && m.elems == old(m.elems);
      assert forall y :: y in m.elems ==> y.next == old(y.next);
      assert forall y :: y in m.elems ==> y.prev == old(y.prev);
    }
  }

  method EraseAside(l: List, x: Link, ghost i: nat, ghost others: set<List>, ghost clear: set<Link>)
    requires l.Valid() && i < |l.elems| && l.elems[i] == x
    requires forall m :: m in others ==> m != l && m.Valid() && Disjoint(m.elems, l.elems)
    requires forall y :: y in clear ==> y !in l.elems && y.prev == null && y.next == null
    modifies l, l.elems
    ensures l.Valid() && l.elems == Cut(old(l.elems), i) && x.prev == null && x.next == null
    ensures forall m :: m in others ==> m.Valid() && m.elems == old(m.elems)
    ensures forall y :: y in clear ==> y.prev == null && y.next == null
  {
    forall m | m in others ensures forall y :: y in m.elems ==> allocated(y) { MembersAllocated(m); }
    l.Erase(x, i);
    forall m | m in others ensures m.Valid() {
      assert old(m.Valid() && Disjoint(m.elems, l.elems)) && m.elems == old(m.elems);
      assert forall y :: y in m.elems ==> y.next == old(y.next);
      assert forall y :: y in m.elems ==> y.prev == old(y.prev);
    }
  }

  lemma RotatedMembers(s: seq<Link>, i: nat)
    requires i < |s| && NoDup(s)
    ensures NoDup(Rotated(s, i)) && forall y :: y in Rotated(s, i) <==> y in s
  {
    NoDupTurns(s, i);
    assert s == s[..i] + s[i..];
  }

  /** The lists have these contents, and the loose links are ready to be put into a list. */
  ghost predicate Shelved(contents: map<List, seq<Link>>, home: map<Link, List>, loose: set<Link>)
    reads contents.Keys, home.Keys, loose
  {
    && Housed(home, contents)
    && (forall l {:trigger l.elems} {:trigger l.Valid()} :: l in contents ==>
          AllAt(home, contents[l], l) && l.elems == contents[l] && l.Valid())
    && (forall x :: x in loose ==> x !in home)
    && (forall x {:trigger x.prev} {:trigger x.next} :: x in loose ==> x.prev == null && x.next == null)
  }

  /** `l` now holds `s`, and everything else is as before. */
  lemma Reshelved(
      contents: map<List, seq<Link>>, l: List, s: seq<Link>, home': map<Link, List>, loose': set<Link>)
    requires l in contents && l.elems == s && l.Valid() && Housed(home', contents[l := s])
    requires forall m :: m in contents.Keys - {l} ==> m.Valid() && m.elems == contents[m]
    requires forall x :: x in loose' ==> x !in home'
    requires forall x {:trigger x.prev} {:trigger x.next} :: x in loose' ==> x.prev == null && x.next == null
    ensures Shelved(contents[l := s], home', loose')
  {
  }

  lemma PutPlan(c: map<List, seq<Link>>, h: map<Link, List>, free: set<Link>, l: List, x: Link, s: seq<Link>)
    requires Shelved(c, h, free) && l in c && x in free && (s == [x] + c[l] || s == c[l] + [x])
    ensures Housed(h[x := l], c[l := s]) && x !in c[l]
    ensures forall m :: m in c.Keys - {l} ==>
              m.Valid() && m.elems == c[m] && x !in m.elems && Disjoint(m.elems, l.elems)
    ensures forall y :: y in free - {x} ==> y !in l.elems
  {
    assert AllAt(h, c[l], l);
    NoDupAppend(c[l], x);
    HousedPut(h, c, l, x, s);
    assert l.Valid();
    forall m | m in c.Keys - {l}
      ensures m.Valid() && m.elems == c[m] && x !in m.elems && Disjoint(m.elems, l.elems)
    {
      assert m.Valid();
      Apart(h, c, l, m);
    }
  }

  lemma DropPlan(c: map<List, seq<Link>>, h: map<Link, List>, free: set<Link>, l: List, i: nat)
    requires Shelved(c, h, free) && l in c && i < |c[l]|
    ensures Housed(h - {c[l][i]}, c[l := Cut(c[l], i)]) && c[l][i] in h
    ensures forall m :: m in c.Keys - {l} ==> m.Valid() && m.elems == c[m] && Disjoint(m.elems, l.elems)
    ensures forall y :: y in free ==> y !in l.elems
  {
    assert l.Valid() && c[l][i] in c[l];
    NoDupCut(c[l], i);
    HousedDrop(h, c, l, c[l][i], Cut(c[l], i));
    forall m | m in c.Keys - {l} ensures m.Valid() && m.elems == c[m] && Disjoint(m.elems, l.elems) {
      assert m.Valid();
      Apart(h, c, l, m);
    }
  }

  class ListSet {
    ghost var contents: map<List, seq<Link>>
    ghost var home: map<Link, List>
    ghost var loose: set<Link>

    ghost var links: set<Link>    // all of them, in a list or not

    ghost predicate Valid()
      reads this, contents.Keys, links
    {
      && home.Keys <= links && loose <= links
      && Shelved(contents, home, loose)
    }

    /** An empty list, and one with a single link. */
    constructor (r: List, s: List, x: Link)
      requires r != s && r.Valid() && s.Valid() && r.elems == [] && s.elems == [x]
      ensures Valid() && links == {x} && loose == {}
      ensures contents == map[r := [], s := [x]] && home == map[x := s]
    {
      contents, home, loose, links := map[r := [], s := [x]], map[x := s], {}, {x};
      AllApart<Link>([]);
      AllApart([x]);
      new;
      assert contents[s] == [x] && x in contents[s];
    }

    ghost method Settle(c: map<List, seq<Link>>, h: map<Link, List>, free: set<Link>)
      requires Shelved(c, h, free) && h.Keys <= links && free <= links
      modifies this`contents, this`home, this`loose
      ensures Valid() && contents == c && home == h && loose == free
    {
      contents, home, loose := c, h, free;
    }

    /** A new, empty list. */
    method NewList() returns (l: List)
      requires Valid()
      modifies this`contents
      ensures Valid() && fresh(l) && contents == old(contents)[l := []]
      ensures home == old(home) && loose == old(loose) && links == old(links)
    {
      l := new List();
      assert l !in contents;
      HousedNew(home, contents, l);
      contents := contents[l := []];
    }

    /** A new link. */
    ghost method Adopt(x: Link)
      requires Valid() && x !in home && x.prev == null && x.next == null
      modifies this`loose, this`links
      ensures Valid() && loose == old(loose) + {x} && links == old(links) + {x}
    {
      loose, links := loose + {x}, links + {x};
    }

    method Put(l: List, x: Link, front: bool)
      requires Valid() && l in contents && x in loose
      modifies this`contents, this`home, this`loose, l, links
      ensures Valid()
      ensures contents == old(contents)[l := if front then [x] + old(contents)[l] else old(contents)[l] + [x]]
      ensures home == old(home)[x := l] && loose == old(loose) - {x}
      ensures contents.Keys == old(contents).Keys && links == old(links)
    {
      ghost var s := if front then [x] + contents[l] else contents[l] + [x];
      PutPlan(contents, home, loose, l, x, s);
      assert l.elems == contents[l] && AllAt(home, contents[l], l);
      PushAside(l, x, front, contents.Keys - {l}, loose - {x});
      Reshelved(contents, l, s, home[x := l], loose - {x});
      Settle(contents[l := s], home[x := l], loose - {x});
    }

    method Drop(l: List, x: Link, ghost i: nat)
      requires Valid() && l in contents && i < |contents[l]| && contents[l][i] == x
      modifies this`contents, this`home, this`loose, l, links
      ensures Valid() && contents == old(contents)[l := Cut(old(contents)[l], i)]
      ensures home == old(home) - {x} && loose == old(loose) + {x} && x in old(home)
      ensures contents.Keys == old(contents).Keys && links == old(links)
    {
      ghost var s := Cut(contents[l], i);
      DropPlan(contents, home, loose, l, i);
      assert l.elems == contents[l] && AllAt(home, contents[l], l);
      EraseAside(l, x, i, contents.Keys - {l}, loose);
      Reshelved(contents, l, s, home - {x}, loose + {x});
      Settle(contents[l := s], home - {x}, loose + {x});
    }

    /** `rotate(*++cyclic(x))`: the member after `x` becomes the first. */
    method TurnPast(l: List, x: Link, ghost i: nat)
      requires Valid() && l in contents && i < |contents[l]| && contents[l][i] == x
      modifies this`contents, this`home, this`loose, l
      ensures Valid() && home == old(home) && loose == old(loose)
      ensures contents.Keys == old(contents).Keys && links == old(links)
      ensures contents == old(contents)[l := Rotated(old(contents)[l], Succ(i, |old(contents)[l]|))]
    {
      ghost var k := Succ(i, |contents[l]|);
      assert AllAt(home, contents[l], l) && l.Valid();
      RotatedMembers(contents[l], k);
      HousedTurn(home, contents, l, Rotated(contents[l], k));
      l.Rotate(x.next, k);
      Reshelved(contents, l, Rotated(contents[l], k), home, loose);
      Settle(contents[l := Rotated(contents[l], k)], home, loose);
    }
  }
}
