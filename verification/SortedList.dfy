/** `SortedList`: the AA tree in place, on the links of its elements.

    A ghost tree accompanies every pointer.  Each method is proved to turn the links that spell one
    tree into the links that spell the tree of the function with the same name in `AaTree`. */
module SortedLists {
  import opened AaTree

  ghost function Nodes(t: Tree): set<Listable> {
    if t.Leaf? then {} else Nodes(t.left) + {t.entry.node} + Nodes(t.right)
  }

  function KeyOf(p: Listable): Key
    reads p
  {
    Key(p.time, p.addr)
  }

  /** The links that start at `p` spell the tree `t`, and no element occurs twice. */
  ghost predicate Spells(p: Listable?, t: Tree)
    reads Nodes(t)
  {
    match t
    case Leaf => p == null
    case Branch(l, e, k, r) =>
      && p == e.node && KeyOf(e.node) == e.key && p.level as int == k
      && e.node !in Nodes(l) && e.node !in Nodes(r) && Nodes(l) !! Nodes(r)
      && Spells(p.left, l) && Spells(p.right, r)
  }

  lemma {:induction false} NodesAllocated(t: Tree)
    ensures forall n <- Nodes(t) :: allocated(n)
  {
    if t.Branch? {
      NodesAllocated(t.left);
      NodesAllocated(t.right);
    }
  }

  method SkewInPlace(t: Listable?, ghost tree: Tree) returns (r: Listable?)
    requires Spells(t, tree)
    modifies Nodes(tree)`left, Nodes(tree)`right
    ensures Spells(r, Skew(tree)) && Nodes(Skew(tree)) == Nodes(tree)
  {
    if t == null {
      return null;
    } else if t.left == null {
      return t;
    } else if t.left.level == t.level {
      var l := t.left;
      t.left := l.right;
      l.right := t;
      return l;
    } else {
      return t;
    }
  }

  /** The increment cannot leave the eight bits when the right child is below level 255. */
  method SplitInPlace(t: Listable?, ghost tree: Tree) returns (r: Listable?)
    requires Spells(t, tree)
    requires tree.Branch? ==> LevelOf(tree.right) < 255
    modifies Nodes(tree)`left, Nodes(tree)`right, Nodes(tree)`level
    ensures Spells(r, Split(tree)) && Nodes(Split(tree)) == Nodes(tree)
  {
    if t == null {
      return null;
    }
    assert Spells(t.right, tree.right);
    assert t.right != null ==> Spells(t.right.right, tree.right.right);
    if t.right == null || t.right.right == null {
      return t;
    } else if t.level == t.right.right.level {
      r := t.right;
      t.right := r.left;
      r.left := t;
      r.level := r.level + 1;
    } else {
      return t;
    }
  }

  method DecreaseLevelInPlace(t: Listable, ghost tree: Tree)
    requires Spells(t, tree) && tree.Branch?
    requires LevelOf(tree.left) < 255
    modifies Nodes(tree)`level
    ensures Spells(t, DecreaseLevel(tree)) && Nodes(DecreaseLevel(tree)) == Nodes(tree)
  {
    var ll := if t.left != null then t.left.level else 0;
    var lr := if t.right != null then t.right.level else 0;
    var shouldBe := (if ll < lr then ll else lr) + 1;
    if shouldBe < t.level {
      t.level := shouldBe;
      if t.right != null && shouldBe < t.right.level {
        t.right.level := shouldBe;
      }
    }
  }

  method LowestNode(t: Listable?, ghost tree: Tree) returns (r: Listable?)
    requires Spells(t, tree)
    ensures if tree.Leaf? then r == null else r == Lowest(tree).node
    decreases tree
  {
    if t == null || t.left == null {
      return t;
    }
    r := LowestNode(t.left, tree.left);
  }

  method HighestNode(t: Listable?, ghost tree: Tree) returns (r: Listable?)
    requires Spells(t, tree)
    ensures if tree.Leaf? then r == null else r == Highest(tree).node
    decreases tree
  {
    if t == null || t.right == null {
      return t;
    }
    r := HighestNode(t.right, tree.right);
  }

  /** All levels in the tree are at most `m`. */
  predicate Under(t: Tree, m: nat) {
    t.Branch? ==> t.level <= m && Under(t.left, m) && Under(t.right, m)
  }

  lemma {:induction false} BalancedUnder(t: Tree, m: nat)
    requires Balanced(t) && LevelOf(t) <= m
    ensures Under(t, m)
  {
    if t.Branch? {
      BalancedUnder(t.left, m);
      BalancedUnder(t.right, m);
    }
  }

  lemma SkewUnder(t: Tree, m: nat)
    requires Under(t, m)
    ensures Under(Skew(t), m)
  {
    if t.Branch? { assert t.left.Branch? ==> Under(t.left.right, m); }
  }

  lemma SplitUnder(t: Tree, m: nat)
    requires Under(t, m) && t.Branch?
    ensures var s := Split(t); Under(s.right, m) && (s.right.Branch? ==> LevelOf(s.right.right) <= m)
  {
    if t.right.Branch? {
      assert Under(t.right.right, m);
      if t.right.right.Branch? { assert Under(t.right.right.right, m); }
    }
  }

  method SkewRightOf(t: Listable, ghost tree: Tree)
    requires Spells(t, tree) && tree.Branch?
    modifies Nodes(tree)`left, Nodes(tree)`right
    ensures Spells(t, SkewRight(tree)) && Nodes(SkewRight(tree)) == Nodes(tree)
  {
    NodesAllocated(tree);
    var q := SkewInPlace(t.right, tree.right);
    t.right := q;
    assert Spells(t.left, tree.left);
  }

  method SkewRightRightOf(t: Listable, ghost tree: Tree)
    requires Spells(t, tree) && tree.Branch?
    modifies Nodes(tree)`left, Nodes(tree)`right
    ensures Spells(t, SkewRightRight(tree)) && Nodes(SkewRightRight(tree)) == Nodes(tree)
  {
    if t.right != null {
      NodesAllocated(tree);
      SkewRightOf(t.right, tree.right);
    }
  }

  method SplitRightOf(t: Listable, ghost tree: Tree)
    requires Spells(t, tree) && tree.Branch?
    requires tree.right.Branch? ==> LevelOf(tree.right.right) < 255
    modifies Nodes(tree)`left, Nodes(tree)`right, Nodes(tree)`level
    ensures Spells(t, SplitRight(tree)) && Nodes(SplitRight(tree)) == Nodes(tree)
  {
    NodesAllocated(tree);
    var q := SplitInPlace(t.right, tree.right);
    t.right := q;
    assert Spells(t.left, tree.left);
  }

  /** The steps after the recursion of `delete_`. */
  method RebalanceInPlace(t: Listable, ghost tree: Tree) returns (r: Listable)
    requires Spells(t, tree) && tree.Branch? && Under(tree, 254)
    modifies Nodes(tree)`left, Nodes(tree)`right, Nodes(tree)`level
    ensures Spells(r, Rebalance(tree)) && Nodes(Rebalance(tree)) == Nodes(tree)
  {
    ghost var t1 := DecreaseLevel(tree);
    DecreaseLevelInPlace(t, tree);
    ghost var t2 := Skew(t1);
    r := SkewInPlace(t, t1);
    SkewUnder(t1, 254);
    ghost var t3 := SkewRight(t2);
    SkewRightOf(r, t2);
    SkewUnder(t2.right, 254);
    ghost var t4 := SkewRightRight(t3);
    SkewRightRightOf(r, t3);
    if t3.right.Branch? { SkewUnder(t3.right.right, 254); }
    r := SplitInPlace(r, t4);
    SplitUnder(t4, 254);
    SplitRightOf(r, Split(t4));
  }

  /** The last line of `insert_`. */
  method SkewAndSplit(t: Listable, ghost tree: Tree) returns (r: Listable)
    requires Spells(t, tree) && tree.Branch? && Under(tree, 254)
    modifies Nodes(tree)`left, Nodes(tree)`right, Nodes(tree)`level
    ensures Spells(r, Split(Skew(tree))) && Nodes(Split(Skew(tree))) == Nodes(tree)
  {
    SkewUnder(tree, 254);
    r := SkewInPlace(t, tree);
    r := SplitInPlace(r, Skew(tree));
  }

  /** The tree just before that line. */
  ghost function Grown(e: Entry, t: Tree): Tree
    requires t.Branch?
  {
    if Before(e.key, t.entry.key) then t.(left := Insert(e, t.left)) else t.(right := Insert(e, t.right))
  }

  lemma GrownUnder(e: Entry, t: Tree)
    requires t.Branch? && Balanced(t) && t.level < 255
    ensures Under(Grown(e, t), 254)
  {
    BalancedUnder(t.left, 254);
    BalancedUnder(t.right, 254);
    if Before(e.key, t.entry.key) {
      InsertBalanced(e, t.left);
      BalancedUnder(Insert(e, t.left), 254);
    } else {
      InsertBalanced(e, t.right);
      BalancedUnder(Insert(e, t.right), 254);
    }
  }

  lemma LowestAfterGrowth(e: Entry, t: Tree)
    requires t.Branch?
    ensures Lowest(Insert(e, t)) == Lowest(Grown(e, t))
  {
    var u := Grown(e, t);
    SkewInOrder(u);
    SplitInOrder(Skew(u));
    LowestIsFirst(u);
    LowestIsFirst(Insert(e, t));
  }

  lemma {:induction false} LowestInNodes(t: Tree)
    requires t.Branch?
    ensures Lowest(t).node in Nodes(t)
  {
    if t.left.Branch? { LowestInNodes(t.left); }
  }

  ghost function NodesOf(s: seq<Entry>): set<Listable> {
    set i | 0 <= i < |s| :: s[i].node
  }

  lemma NodesOfConcat(a: seq<Entry>, b: seq<Entry>)
    ensures NodesOf(a + b) == NodesOf(a) + NodesOf(b)
  {
    forall n | n in NodesOf(a) + NodesOf(b) ensures n in NodesOf(a + b) {
      if i :| 0 <= i < |a| && a[i].node == n {
        assert (a + b)[i].node == n;
      } else {
        var i :| 0 <= i < |b| && b[i].node == n;
        assert (a + b)[|a| + i].node == n;
      }
    }
  }

  lemma {:induction false} NodesInOrder(t: Tree)
    ensures Nodes(t) == NodesOf(InOrder(t))
  {
    if t.Branch? {
      NodesInOrder(t.left);
      NodesInOrder(t.right);
      NodesOfConcat(InOrder(t.left), [t.entry]);
      NodesOfConcat(InOrder(t.left) + [t.entry], InOrder(t.right));
      assert NodesOf([t.entry]) == {[t.entry][0].node};
    }
  }

  lemma {:induction false} NodesOfWithout(x: Entry, s: seq<Entry>)
    ensures NodesOf(WithoutNode(x, s)) == NodesOf(s) - {x.node}
  {
    if s != [] {
      NodesOfWithout(x, s[1..]);
      NodesOfConcat(if s[0].node == x.node then [] else [s[0]], WithoutNode(x, s[1..]));
      NodesOfConcat([s[0]], s[1..]);
      assert s == [s[0]] + s[1..];
    }
  }

  /** The elements that remain are all but `x`. */
  lemma DeleteNodes(x: Entry, t: Tree)
    requires Sorted(InOrder(t)) && DistinctNodes(InOrder(t)) && Fits(x, InOrder(t))
    ensures Nodes(Delete(x, t)) == Nodes(t) - {x.node}
  {
    DeleteRefines(x, t);
    NodesInOrder(t);
    NodesInOrder(Delete(x, t));
    NodesOfWithout(x, InOrder(t));
  }

  lemma {:induction false} SpellsDistinct(p: Listable?, t: Tree)
    requires Spells(p, t)
    ensures DistinctNodes(InOrder(t))
    ensures forall i :: 0 <= i < |InOrder(t)| ==> InOrder(t)[i].key == KeyOf(InOrder(t)[i].node)
  {
    if t.Branch? {
      SpellsDistinct(p.left, t.left);
      SpellsDistinct(p.right, t.right);
      NodesInOrder(t.left);
      NodesInOrder(t.right);
      var a, b := InOrder(t.left), InOrder(t.right);
      assert forall i :: 0 <= i < |a| ==> a[i].node in NodesOf(a);
      assert forall i :: 0 <= i < |b| ==> b[i].node in NodesOf(b);
    }
  }

  /** The tree just before the rebalancing steps of `delete_`. */
  ghost function Shrunk(x: Entry, t: Tree): Tree
    requires t.Branch? && (x.node == t.entry.node ==> t.left.Branch? || t.right.Branch?)
  {
    if x.node == t.entry.node then
      if t.left.Leaf? then t.(entry := Lowest(t.right), right := Delete(Lowest(t.right), t.right))
      else t.(entry := Highest(t.left), left := Delete(Highest(t.left), t.left))
    else if Before(x.key, t.entry.key) then t.(left := Delete(x, t.left))
    else t.(right := Delete(x, t.right))
  }

  lemma ShrunkUnder(x: Entry, t: Tree)
    requires t.Branch? && (x.node == t.entry.node ==> t.left.Branch? || t.right.Branch?)
    requires Balanced(t) && t.level < 255
    ensures Under(Shrunk(x, t), 254)
  {
    BalancedUnder(t.left, 254);
    BalancedUnder(t.right, 254);
    var y, inLeft :=
      if x.node == t.entry.node then (if t.left.Leaf? then Lowest(t.right) else Highest(t.left)) else x,
      if x.node == t.entry.node then t.left.Branch? else Before(x.key, t.entry.key);
    DeleteBalanced(y, if inLeft then t.left else t.right);
    BalancedUnder(Delete(y, if inLeft then t.left else t.right), 254);
  }

  /** What `delete_` needs to know of the tree and of the element to find. */
  ghost predicate Erasable(x: Listable, p: Listable?, t: Tree)
    reads x, Nodes(t)
  {
    && Spells(p, t) && Balanced(t) && LevelOf(t) < 255 && Sorted(InOrder(t))
    && Fits(Entry(x, KeyOf(x)), InOrder(t))
  }

  lemma ErasableChildren(x: Listable, p: Listable, t: Tree)
    requires Erasable(x, p, t) && t.Branch?
    ensures Erasable(x, p.left, t.left) && Erasable(x, p.right, t.right)
    ensures x == p <==> KeyOf(x) == KeyOf(p)
  {
    var a, b := InOrder(t.left), InOrder(t.right);
    SortedParts(a, t.entry, b);
    FitsParts(Entry(x, KeyOf(x)), a, t.entry, b);
  }

  lemma LowestErasable(p: Listable, t: Tree)
    requires t.Branch? && Spells(p, t) && Balanced(t) && LevelOf(t) < 255 && Sorted(InOrder(t))
    ensures var n := Lowest(t).node; n in Nodes(t) && Erasable(n, p, t) && Lowest(t) == Entry(n, KeyOf(n))
  {
    SpellsDistinct(p, t);
    LowestIsFirst(t);
    MemberFits(InOrder(t), 0);
    LowestInNodes(t);
  }

  lemma HighestErasable(p: Listable, t: Tree)
    requires t.Branch? && Spells(p, t) && Balanced(t) && LevelOf(t) < 255 && Sorted(InOrder(t))
    ensures var n := Highest(t).node; n in Nodes(t) && Erasable(n, p, t) && Highest(t) == Entry(n, KeyOf(n))
  {
    SpellsDistinct(p, t);
    HighestIsLast(t);
    var s := InOrder(t);
    MemberFits(s, |s| - 1);
    NodesInOrder(t);
    assert s[|s| - 1].node in NodesOf(s);
  }

  lemma AbsentByNode(e: Entry, p: Listable?, t: Tree)
    requires Spells(p, t) && e.node !in Nodes(t) && e.key == KeyOf(e.node)
    requires forall n <- Nodes(t) :: n.addr != e.node.addr
    ensures forall i :: 0 <= i < |InOrder(t)| ==> InOrder(t)[i].key != e.key && InOrder(t)[i].node != e.node
  {
    var s := InOrder(t);
    SpellsDistinct(p, t);
    NodesInOrder(t);
    forall i | 0 <= i < |s| ensures s[i].key != e.key && s[i].node != e.node {
      assert s[i].node in NodesOf(s);
    }
  }

  lemma InsertKeepsOrder(e: Entry, p: Listable?, t: Tree)
    requires Spells(p, t) && Sorted(InOrder(t)) && e.node !in Nodes(t) && e.key == KeyOf(e.node)
    requires forall n <- Nodes(t) :: n.addr != e.node.addr
    ensures InOrder(Insert(e, t)) == InsertSorted(e, InOrder(t))
    ensures Sorted(InOrder(Insert(e, t))) && |InOrder(Insert(e, t))| == |InOrder(t)| + 1
  {
    SpellsDistinct(p, t);
    AbsentByNode(e, p, t);
    InsertRefines(e, t);
    InsertSortedKeeps(e, InOrder(t));
    InsertSortedLonger(e, InOrder(t));
  }

  lemma EraseKeepsOrder(x: Listable, p: Listable?, t: Tree)
    requires Spells(p, t) && Sorted(InOrder(t)) && x in Nodes(t) && Balanced(t) && LevelOf(t) < 255
    ensures var e, s := Entry(x, KeyOf(x)), InOrder(t);
            && Erasable(x, p, t) && Balanced(Delete(e, t))
            && InOrder(Delete(e, t)) == WithoutNode(e, s)
            && Sorted(WithoutNode(e, s)) && |WithoutNode(e, s)| == |s| - 1
            && (Lowest(t).node != x ==> Delete(e, t).Branch? && Lowest(Delete(e, t)) == Lowest(t))
  {
    var e, s := Entry(x, KeyOf(x)), InOrder(t);
    SpellsDistinct(p, t);
    NodesInOrder(t);
    var i :| 0 <= i < |s| && s[i].node == x;
    MemberFits(s, i);
    DeleteBalanced(e, t);
    DeleteRefines(e, t);
    WithoutAt(e, s, i);
    CutKeeps(s, i);
    LowestIsFirst(t);
    if Lowest(t).node != x {
      LowestStays(t, Delete(e, t), i);
    }
  }

  lemma LowestStays(t: Tree, u: Tree, i: nat)
    requires t.Branch? && 0 < i < |InOrder(t)| && InOrder(u) == InOrder(t)[..i] + InOrder(t)[i + 1..]
    ensures u.Branch? && Lowest(u) == Lowest(t)
  {
    assert InOrder(u)[0] == InOrder(t)[0];
    LowestIsFirst(t);
    LowestIsFirst(u);
  }

  class SortedList {
    var root: Listable?
    var head: Listable?
    var size: nat
    ghost var tree: Tree

    /** The links spell a tree that passes `check`, in order; `head` is its least element and
        `size` its number of elements, which a size_t can hold. */
    ghost predicate Valid()
      reads this, Nodes(tree)
    {
      && Spells(root, tree) && Balanced(tree) && Sorted(InOrder(tree))
      && size == |InOrder(tree)| < 0x1_0000_0000_0000_0000
      && head == if tree.Leaf? then null else Lowest(tree).node
    }

    ghost function Contents(): seq<Entry>
      reads this
    {
      InOrder(tree)
    }

    constructor ()
      ensures Valid() && Contents() == []
    {
      root, head, size, tree := null, null, 0, Leaf;
    }

    method Insert(x: Listable)
      requires Valid() && size + 1 < 0x1_0000_0000_0000_0000
      requires x.left == null && x.right == null && x.level == 0
      requires x !in Nodes(tree) && forall n <- Nodes(tree) :: n.addr != x.addr
      modifies this, x`left, x`right, x`level
      modifies Nodes(tree)`left, Nodes(tree)`right, Nodes(tree)`level
      ensures Valid() && Contents() == InsertSorted(Entry(x, KeyOf(x)), old(Contents()))
      ensures Nodes(tree) == old(Nodes(tree)) + {x}
      ensures head == Contents()[0].node && size == old(size) + 1
    {
      ghost var e := Entry(x, KeyOf(x));
      LevelFits(tree);
      InsertKeepsOrder(e, root, tree);
      InsertBalanced(e, tree);
      ghost var grown := AaTree.Insert(e, tree);
      LowestIsFirst(grown);
      if root == null {
        head := x;
      }
      var t := Insert_(x, root, tree);
      root := t;
      size := size + 1;
      tree := grown;
    }

    method Erase(x: Listable)
      requires Valid() && x in Nodes(tree)
      modifies this
      modifies Nodes(tree)`left, Nodes(tree)`right, Nodes(tree)`level
      ensures Valid() && Contents() == WithoutNode(Entry(x, KeyOf(x)), old(Contents()))
      ensures Nodes(tree) == old(Nodes(tree)) - {x}
      ensures x.left == null && x.right == null && x.level == 0
      ensures size == old(size) - 1
    {
      ghost var e := Entry(x, KeyOf(x));
      LevelFits(tree);
      EraseKeepsOrder(x, root, tree);
      NodesAllocated(tree);
      Unlink(x);
      size := size - 1;
      tree := Delete(e, tree);
    }

    /** The links, the head and the fields of `x`, but not yet the size. */
    method Unlink(x: Listable)
      requires Erasable(x, root, tree) && tree.Branch? && x in Nodes(tree) && head == Lowest(tree).node
      requires var shrunk := Delete(Entry(x, KeyOf(x)), tree);
               head != x ==> shrunk.Branch? && Lowest(shrunk) == Lowest(tree)
      modifies this`root, this`head
      modifies Nodes(tree)`left, Nodes(tree)`right, Nodes(tree)`level
      ensures var shrunk := Delete(Entry(x, KeyOf(x)), tree);
              && Spells(root, shrunk) && Nodes(shrunk) == Nodes(tree) - {x}
              && head == if shrunk.Leaf? then null else Lowest(shrunk).node
      ensures x.left == null && x.right == null && x.level == 0
    {
      ghost var shrunk := Delete(Entry(x, KeyOf(x)), tree);
      NodesAllocated(tree);
      var t := Delete_(x, root, tree);
      root := t;
      if head == x {
        head := LowestNode(root, shrunk);
      }
      Detach(x, root, shrunk);
    }

    method Detach(x: Listable, p: Listable?, ghost rest: Tree)
      requires Spells(p, rest) && x !in Nodes(rest)
      modifies x`left, x`right, x`level
      ensures Spells(p, rest)
      ensures x.left == null && x.right == null && x.level == 0
    {
      x.level := 0;
      x.left, x.right := null, null;
    }

    /** Two objects do not share an address; given that, lookup is membership. */
    method Contains(x: Listable) returns (found: bool)
      requires Valid() && forall n <- Nodes(tree) :: n.addr == x.addr ==> n == x
      ensures found <==> x in Nodes(tree)
    {
      ghost var e := Entry(x, KeyOf(x));
      NodesInOrder(tree);
      SpellsDistinct(root, tree);
      ghost var s := InOrder(tree);
      assert forall i :: 0 <= i < |s| ==> s[i].node in NodesOf(s);
      ContainsRefines(e, tree);
      var t, at := root, tree;
      while t != null
        invariant Spells(t, at)
        invariant AaTree.Contains(e, at) <==> AaTree.Contains(e, tree)
        decreases at
      {
        if t == x {
          return true;
        } else if x.time < t.time || (x.time == t.time && x.addr < t.addr) {
          t, at := t.left, at.left;
        } else {
          t, at := t.right, at.right;
        }
      }
      return false;
    }

    method Front() returns (x: Listable)
      requires Valid() && Contents() != []
      ensures x == Contents()[0].node
      ensures forall i :: 1 <= i < |Contents()| ==> Before(KeyOf(x), Contents()[i].key)
    {
      SpellsDistinct(root, tree);
      LowestIsFirst(tree);
      x := head;
    }

    method Insert_(x: Listable, t: Listable?, ghost tree: Tree) returns (r: Listable)
      requires Spells(t, tree) && Balanced(tree) && LevelOf(tree) < 255
      requires x !in Nodes(tree)
      requires tree.Branch? && head != Lowest(tree).node ==> head !in Nodes(tree)
      modifies x`left, x`right, x`level
      modifies Nodes(tree)`left, Nodes(tree)`right, Nodes(tree)`level
      modifies this`head
      ensures Spells(r, AaTree.Insert(Entry(x, KeyOf(x)), tree))
      ensures Nodes(AaTree.Insert(Entry(x, KeyOf(x)), tree)) == Nodes(tree) + {x}
      ensures head == if tree.Branch? && old(head) == Lowest(tree).node
                      then Lowest(AaTree.Insert(Entry(x, KeyOf(x)), tree)).node else old(head)
      decreases tree
    {
      ghost var e := Entry(x, KeyOf(x));
      if t == null {
        x.level, x.left, x.right := 1, null, null;
        return x;
      }
      NodesAllocated(tree);
      GrownUnder(e, tree);
      LowestAfterGrowth(e, tree);
      LowestInNodes(tree);
      ghost var u := Grown(e, tree);
      if x.time < t.time || (x.time == t.time && x.addr < t.addr) {
        InsertLeft(x, t, tree);
      } else {
        InsertRight(x, t, tree);
      }
      if t == head && t.left != null {
        head := t.left;
      }
      r := SkewAndSplit(t, u);
    }

    method InsertLeft(x: Listable, t: Listable, ghost tree: Tree)
      requires Spells(t, tree) && Balanced(tree) && LevelOf(tree) < 255 && tree.Branch?
      requires x !in Nodes(tree) && Before(KeyOf(x), KeyOf(t))
      requires head != Lowest(tree).node ==> head !in Nodes(tree)
      modifies x`left, x`right, x`level
      modifies Nodes(tree)`left, Nodes(tree)`right, Nodes(tree)`level
      modifies this`head
      ensures Spells(t, Grown(Entry(x, KeyOf(x)), tree))
      ensures Nodes(Grown(Entry(x, KeyOf(x)), tree)) == Nodes(tree) + {x}
      ensures old(head) != Lowest(tree).node ==> head == old(head)
      ensures old(head) == Lowest(tree).node ==>
                var g := Grown(Entry(x, KeyOf(x)), tree);
                if tree.left.Leaf? then head == t && g.left.entry.node == Lowest(g).node
                else head == Lowest(g).node && head != t
      decreases tree, 0
    {
      ghost var e := Entry(x, KeyOf(x));
      NodesAllocated(tree);
      if tree.left.Branch? { LowestInNodes(tree.left); }
      LowestInNodes(AaTree.Insert(e, tree.left));
      var q := Insert_(x, t.left, tree.left);
      t.left := q;
      assert Spells(t.right, tree.right);
      assert Spells(t.left, AaTree.Insert(e, tree.left));
    }

    method InsertRight(x: Listable, t: Listable, ghost tree: Tree)
      requires Spells(t, tree) && Balanced(tree) && LevelOf(tree) < 255 && tree.Branch?
      requires x !in Nodes(tree) && !Before(KeyOf(x), KeyOf(t))
      requires head != Lowest(tree).node ==> head !in Nodes(tree)
      modifies x`left, x`right, x`level
      modifies Nodes(tree)`left, Nodes(tree)`right, Nodes(tree)`level
      modifies this`head
      ensures Spells(t, Grown(Entry(x, KeyOf(x)), tree))
      ensures Nodes(Grown(Entry(x, KeyOf(x)), tree)) == Nodes(tree) + {x}
      ensures head == old(head)
      ensures head == t ==> tree.left.Leaf?
      decreases tree, 0
    {
      ghost var e := Entry(x, KeyOf(x));
      NodesAllocated(tree);
      if tree.left.Branch? { LowestInNodes(tree.left); }
      if tree.right.Branch? { LowestInNodes(tree.right); }
      var q := Insert_(x, t.right, tree.right);
      t.right := q;
      assert Spells(t.left, tree.left);
      assert Spells(t.right, AaTree.Insert(e, tree.right));
    }

    method Delete_(x: Listable, t: Listable?, ghost tree: Tree) returns (r: Listable?)
      requires Erasable(x, t, tree)
      modifies Nodes(tree)`left, Nodes(tree)`right, Nodes(tree)`level
      ensures Spells(r, Delete(Entry(x, KeyOf(x)), tree))
      ensures Nodes(Delete(Entry(x, KeyOf(x)), tree)) == Nodes(tree) - {x}
      decreases tree
    {
      ghost var e := Entry(x, KeyOf(x));
      SpellsDistinct(t, tree);
      DeleteNodes(e, tree);
      if t == null {
        return null;
      }
      var top := t;
      ErasableChildren(x, t, tree);
      if x == t {
        if t.left == null && t.right == null {
          return null;
        } else if t.left == null {
          top := ReplaceBySuccessor(t, tree);
        } else {
          top := ReplaceByPredecessor(t, tree);
        }
      } else if x.time < t.time || (x.time == t.time && x.addr < t.addr) {
        DeleteLeft(x, t, tree);
      } else {
        DeleteRight(x, t, tree);
      }
      ShrunkUnder(e, tree);
      r := RebalanceInPlace(top, Shrunk(e, tree));
    }

    method DeleteLeft(x: Listable, t: Listable, ghost tree: Tree)
      requires tree.Branch? && Erasable(x, t, tree) && x != t && Before(KeyOf(x), KeyOf(t))
      modifies Nodes(tree)`left, Nodes(tree)`right, Nodes(tree)`level
      ensures Spells(t, Shrunk(Entry(x, KeyOf(x)), tree))
      ensures Nodes(Shrunk(Entry(x, KeyOf(x)), tree)) <= Nodes(tree)
      decreases tree, 0
    {
      NodesAllocated(tree);
      ErasableChildren(x, t, tree);
      var q := Delete_(x, t.left, tree.left);
      t.left := q;
      assert Spells(t.right, tree.right);
    }

    method DeleteRight(x: Listable, t: Listable, ghost tree: Tree)
      requires tree.Branch? && Erasable(x, t, tree) && x != t && !Before(KeyOf(x), KeyOf(t))
      modifies Nodes(tree)`left, Nodes(tree)`right, Nodes(tree)`level
      ensures Spells(t, Shrunk(Entry(x, KeyOf(x)), tree))
      ensures Nodes(Shrunk(Entry(x, KeyOf(x)), tree)) <= Nodes(tree)
      decreases tree, 0
    {
      NodesAllocated(tree);
      ErasableChildren(x, t, tree);
      var q := Delete_(x, t.right, tree.right);
      t.right := q;
      assert Spells(t.left, tree.left);
    }

    method ReplaceBySuccessor(t: Listable, ghost tree: Tree) returns (l: Listable)
      requires tree.Branch? && tree.left.Leaf? && tree.right.Branch? && Erasable(t, t, tree)
      modifies Nodes(tree)`left, Nodes(tree)`right, Nodes(tree)`level
      ensures Spells(l, Shrunk(Entry(t, KeyOf(t)), tree))
      ensures Nodes(Shrunk(Entry(t, KeyOf(t)), tree)) <= Nodes(tree)
      decreases tree, 0
    {
      NodesAllocated(tree);
      ErasableChildren(t, t, tree);
      LowestErasable(t.right, tree.right);
      l := LowestNode(t.right, tree.right);
      var q := Delete_(l, t.right, tree.right);
      l.right := q;
      l.left := t.left;
      l.level := t.level;
    }

    /** The node `l`, taken out of the left subtree, takes the place of `t`. */
    method Graft(l: Listable, q: Listable?, t: Listable, ghost e: Entry, ghost left: Tree, ghost tree: Tree)
      requires tree.Branch? && t == tree.entry.node && t.level as int == tree.level
      requires l == e.node && KeyOf(l) == e.key && l != t
      requires Spells(q, left) && Spells(t.right, tree.right)
      requires Nodes(left) !! Nodes(tree.right) && l !in Nodes(left) && l !in Nodes(tree.right)
      requires t !in Nodes(left) && t !in Nodes(tree.right)
      modifies l`left, l`right, l`level
      ensures Spells(l, tree.(entry := e, left := left))
    {
      l.left := q;
      l.right := t.right;
      l.level := t.level;
      assert Spells(l.left, left);
      assert Spells(l.right, tree.right);
    }

    method ReplaceByPredecessor(t: Listable, ghost tree: Tree) returns (l: Listable)
      requires tree.Branch? && tree.left.Branch? && Erasable(t, t, tree)
      modifies Nodes(tree)`left, Nodes(tree)`right, Nodes(tree)`level
      ensures Spells(l, Shrunk(Entry(t, KeyOf(t)), tree))
      ensures Nodes(Shrunk(Entry(t, KeyOf(t)), tree)) <= Nodes(tree)
      decreases tree, 0
    {
      NodesAllocated(tree);
      ErasableChildren(t, t, tree);
      HighestErasable(t.left, tree.left);
      l := HighestNode(t.left, tree.left);
      var q := Delete_(l, t.left, tree.left);
      Graft(l, q, t, Highest(tree.left), Delete(Highest(tree.left), tree.left), tree);
    }
  }
}
