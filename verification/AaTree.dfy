/** The AA tree behind `SortedList`, as a value.

    Every function below makes the same case distinctions as the C++ function of the same name,
    with a subtree in the place of a pointer.  `SortedList.dfy` proves that the in-place versions
    compute exactly these functions. */
module AaTree {
  import opened Common

  /** An intrusive list element.  `uint_fast8_t` guarantees no more than eight bits. */
  newtype Level = x: int | 0 <= x < 256

  class Listable {
    var left: Listable?
    var right: Listable?
    var level: Level
    var time: int      // the timeout, which is what operator< of a TimedWaitable compares
    const addr: nat    // the address of the object, which breaks ties

    constructor (time: int, addr: nat)
      ensures this.time == time && this.addr == addr
      ensures left == null && right == null && level == 0
    {
      this.time, this.addr := time, addr;
      left, right, level := null, null, 0;
    }
  }

  /** The sort key of an element. */
  datatype Key = Key(time: int, addr: nat)

  predicate Before(a: Key, b: Key) {
    a.time < b.time || (a.time == b.time && a.addr < b.addr)
  }

  datatype Entry = Entry(node: Listable, key: Key)

  datatype Tree = Leaf | Branch(left: Tree, entry: Entry, level: nat, right: Tree)

  function LevelOf(t: Tree): nat {
    if t.Leaf? then 0 else t.level
  }

  // ---------------------------------------------------------------- operations

  function Skew(t: Tree): Tree {
    if t.Leaf? || t.left.Leaf? then t
    else if t.left.level == t.level then
      var l := t.left;
      Branch(l.left, l.entry, l.level, Branch(l.right, t.entry, t.level, t.right))
    else t
  }

  function Split(t: Tree): Tree {
    if t.Leaf? || t.right.Leaf? || t.right.right.Leaf? then t
    else if t.level == t.right.right.level then
      var r := t.right;
      Branch(Branch(t.left, t.entry, t.level, r.left), r.entry, r.level + 1, r.right)
    else t
  }

  function Insert(x: Entry, t: Tree): (r: Tree)
    ensures r.Branch?
  {
    if t.Leaf? then Branch(Leaf, x, 1, Leaf)
    else if Before(x.key, t.entry.key) then Split(Skew(t.(left := Insert(x, t.left))))
    else Split(Skew(t.(right := Insert(x, t.right))))
  }

  function Lowest(t: Tree): Entry
    requires t.Branch?
  {
    if t.left.Leaf? then t.entry else Lowest(t.left)
  }

  function Highest(t: Tree): Entry
    requires t.Branch?
  {
    if t.right.Leaf? then t.entry else Highest(t.right)
  }

  function DecreaseLevel(t: Tree): (r: Tree)
    requires t.Branch?
    ensures r.Branch? && r.left == t.left && r.entry == t.entry
  {
    var ll, lr := LevelOf(t.left), LevelOf(t.right);
    var shouldBe := (if ll < lr then ll else lr) + 1;
    if shouldBe < t.level then
      var right := if t.right.Branch? && shouldBe < t.right.level
                   then t.right.(level := shouldBe) else t.right;
      t.(level := shouldBe, right := right)
    else t
  }

  function SkewRight(t: Tree): Tree
    requires t.Branch?
  {
    t.(right := Skew(t.right))
  }

  function SkewRightRight(t: Tree): Tree
    requires t.Branch?
  {
    if t.right.Branch? then t.(right := SkewRight(t.right)) else t
  }

  function SplitRight(t: Tree): Tree
    requires t.Branch?
  {
    t.(right := Split(t.right))
  }

  /** The tail of `delete_`: one level decrease, three skews, two splits. */
  function Rebalance(t: Tree): (r: Tree)
    requires t.Branch?
    ensures r.Branch?
  {
    SplitRight(Split(SkewRightRight(SkewRight(Skew(DecreaseLevel(t))))))
  }

  function Delete(x: Entry, t: Tree): Tree
    decreases t
  {
    if t.Leaf? then Leaf
    else if x.node == t.entry.node then
      if t.left.Leaf? && t.right.Leaf? then Leaf
      else if t.left.Leaf? then
        var l := Lowest(t.right);
        Rebalance(t.(entry := l, right := Delete(l, t.right)))
      else
        var l := Highest(t.left);
        Rebalance(t.(entry := l, left := Delete(l, t.left)))
    else if Before(x.key, t.entry.key) then Rebalance(t.(left := Delete(x, t.left)))
    else Rebalance(t.(right := Delete(x, t.right)))
  }

  predicate Contains(x: Entry, t: Tree) {
    t.Branch? && (
      x.node == t.entry.node ||
      if Before(x.key, t.entry.key) then Contains(x, t.left) else Contains(x, t.right))
  }

  // ---------------------------------------------------------------- level rules

  /** The level rules of an AA tree, with an absent child at level 0. */
  predicate Balanced(t: Tree) {
    t.Branch? ==>
      && Balanced(t.left) && Balanced(t.right)
      && LevelOf(t.left) == t.level - 1
      && t.level - 1 <= LevelOf(t.right) <= t.level
      && (t.right.Branch? ==> LevelOf(t.right.right) < t.level)
  }

  /** The assertions on levels that `check` makes of every node. */
  predicate CheckLevels(t: Tree) {
    t.Branch? ==>
      && CheckLevels(t.left) && CheckLevels(t.right)
      && (t.left.Branch? || t.right.Branch? || t.level == 1)
      && (t.left.Branch? ==> t.left.level == t.level - 1)
      && (t.right.Branch? ==> t.right.level == t.level - 1 || t.right.level == t.level)
      && (t.right.Branch? && t.right.right.Branch? ==> t.right.right.level < t.level)
      && (t.level < 2 || (t.left.Branch? && t.right.Branch?))
  }

  /** Its assertions on keys, which compare a node with its children.  To the right, the times and the
      addresses are joined by an "or", so that one of them is enough. */
  predicate CheckOrder(t: Tree) {
    t.Branch? ==>
      && CheckOrder(t.left) && CheckOrder(t.right)
      && (t.left.Branch? ==> Before(t.left.entry.key, t.entry.key))
      && (t.right.Branch? ==>
            t.entry.key.time <= t.right.entry.key.time || t.entry.key.addr < t.right.entry.key.addr)
  }

  predicate Check(t: Tree) {
    CheckLevels(t) && CheckOrder(t)
  }

  lemma {:induction false} CheckPositive(t: Tree)
    requires CheckLevels(t) && t.Branch?
    ensures t.level >= 1
  {
    if t.left.Branch? { CheckPositive(t.left); }
    if t.right.Branch? { CheckPositive(t.right); }
  }

  /** On levels, the run-time check accepts exactly the balanced trees. */
  lemma {:induction false} CheckIffBalanced(t: Tree)
    ensures CheckLevels(t) <==> Balanced(t)
  {
    if t.Branch? {
      CheckIffBalanced(t.left);
      CheckIffBalanced(t.right);
      if CheckLevels(t) {
        CheckPositive(t);
        if t.left.Branch? { CheckPositive(t.left); }
        if t.right.Branch? { CheckPositive(t.right); }
      }
    }
  }

  /** A node has a right neighbour on its own level. */
  predicate Horizontal(t: Tree) {
    t.Branch? && LevelOf(t.right) == t.level
  }

  /** Inserting keeps the level rules.  The root may rise by one level, but only when the tree was
      empty or already had a horizontal link, and then it has none afterwards. */
  lemma {:induction false} InsertBalanced(x: Entry, t: Tree)
    requires Balanced(t)
    ensures Balanced(Insert(x, t))
    ensures LevelOf(t) <= LevelOf(Insert(x, t)) <= LevelOf(t) + 1
    ensures LevelOf(Insert(x, t)) > LevelOf(t) ==>
              !Horizontal(Insert(x, t)) && (t.Leaf? || Horizontal(t))
  {
    if t.Branch? {
      if Before(x.key, t.entry.key) {
        InsertBalanced(x, t.left);
        LeftGrows(t, Insert(x, t.left));
      } else {
        InsertBalanced(x, t.right);
        RightGrows(t, Insert(x, t.right));
      }
    }
  }

  /** What insertion may do to a subtree. */
  predicate Grows(s: Tree, t: Tree) {
    && s.Branch? && Balanced(s) && LevelOf(t) <= LevelOf(s) <= LevelOf(t) + 1
    && (LevelOf(s) > LevelOf(t) ==> !Horizontal(s) && (t.Leaf? || Horizontal(t)))
  }

  lemma LeftGrows(t: Tree, l: Tree)
    requires t.Branch? && Balanced(t) && Grows(l, t.left)
    ensures Grows(Split(Skew(t.(left := l))), t)
  {
  }

  lemma RightGrows(t: Tree, r: Tree)
    requires t.Branch? && Balanced(t) && Grows(r, t.right)
    ensures Grows(Split(Skew(t.(right := r))), t)
  {
    assert Balanced(t.left) && Balanced(t.right) && Balanced(r.left) && Balanced(r.right);
    var u := t.(right := r);
    assert Skew(u) == u;
    if r.right.Branch? && r.right.level == t.level {
      assert Balanced(Branch(t.left, t.entry, t.level, r.left));
    } else {
      assert Split(u) == u;
    }
  }

  /** What `delete_` hands to its rebalancing steps: one of the subtrees may have sunk a level. */
  predicate Sunk(t: Tree) {
    && t.Branch? && t.level >= 1
    && Balanced(t.left) && Balanced(t.right)
    && (t.right.Branch? ==> LevelOf(t.right.right) < t.level)
    && (|| (LevelOf(t.left) == t.level - 1 && t.level - 2 <= LevelOf(t.right) <= t.level)
        || (LevelOf(t.left) == t.level - 2 && t.level - 1 <= LevelOf(t.right) <= t.level))
  }

  /** `s` can stand where `t` stood: it is balanced, at most one level lower, and has not grown a
      horizontal link on the same level. */
  predicate Replaces(s: Tree, t: Tree) {
    && Balanced(s)
    && LevelOf(t) - 1 <= LevelOf(s) <= LevelOf(t)
    && (LevelOf(s) == LevelOf(t) && Horizontal(s) ==> Horizontal(t))
  }

  lemma BalancedChildren(t: Tree)
    requires Balanced(t)
    ensures t.Branch? ==> Balanced(t.left) && Balanced(t.right)
  {
  }

  lemma RebalanceIdle(t: Tree)
    requires Sunk(t) && LevelOf(t.left) == t.level - 1 && LevelOf(t.right) >= t.level - 1
    ensures Rebalance(t) == t && Replaces(t, t)
  {
    BalancedChildren(t.right);
  }

  /** The right subtree has sunk: the left subtree takes over, through up to two skews. */
  lemma RebalanceRightSunk(t: Tree)
    requires Sunk(t) && LevelOf(t.right) == t.level - 2
    ensures Replaces(Rebalance(t), t)
  {
    var l := t.left;
    BalancedChildren(l);
    BalancedChildren(l.right);
    var d := DecreaseLevel(t);
    assert d == t.(level := t.level - 1);
    var inner := d.(left := l.right);
    assert Skew(d) == Branch(l.left, l.entry, l.level, inner);
    var u := SkewRight(Skew(d));
    if l.right.Branch? && l.right.level == d.level {
      var m := l.right;
      BalancedChildren(m.left);
      var inner' := d.(left := m.right);
      assert u == Branch(l.left, l.entry, l.level, Branch(m.left, m.entry, m.level, inner'));
      BalancedChildren(m.right);
      BalancedChildren(t.right);
      assert Balanced(inner');
      assert SkewRightRight(u) == u;
      assert Split(u) == Branch(Branch(l.left, l.entry, l.level, m.left), m.entry, m.level + 1, inner');
      assert Rebalance(t) == Split(u);
    } else {
      BalancedChildren(t.right);
      assert Balanced(inner);
      assert u == Skew(d);
      assert SkewRightRight(u) == u;
      assert Rebalance(t) == u;
    }
  }

  /** The left subtree has sunk below a right neighbour on the next lower level. */
  lemma RebalanceLeftSunk(t: Tree)
    requires Sunk(t) && LevelOf(t.left) == t.level - 2 && LevelOf(t.right) == t.level - 1
    ensures Replaces(Rebalance(t), t)
  {
    var r := t.right;
    BalancedChildren(r);
    BalancedChildren(r.left);
    BalancedChildren(r.right);
    var d := DecreaseLevel(t);
    assert d == t.(level := t.level - 1);
    assert SkewRightRight(SkewRight(Skew(d))) == d;
    var low := Branch(t.left, t.entry, d.level, r.left);
    assert Balanced(low);
    assert Rebalance(t) == SplitRight(Split(d));
    if r.right.Branch? && r.right.level == d.level {
      assert Split(d) == Branch(low, r.entry, r.level + 1, r.right);
    }
  }

  /** A node with a right neighbour on level `k`: splitting repairs a third one, `c`. */
  lemma SplitPair(a: Tree, e: Entry, k: nat, b: Tree, f: Entry, c: Tree)
    requires k >= 1 && LevelOf(a) == k - 1 && LevelOf(b) == k - 1 && k - 1 <= LevelOf(c) <= k
    requires Balanced(a) && Balanced(b) && Balanced(c)
    requires c.Branch? && LevelOf(c) < k ==> LevelOf(c.right) < k
    ensures var s := Split(Branch(a, e, k, Branch(b, f, k, c)));
            Balanced(s) && s.Branch? && k <= s.level <= k + 1 && LevelOf(s.right) <= k
  {
    BalancedChildren(b);
    var low := Branch(a, e, k, b);
    assert Balanced(low);
    if LevelOf(c) == k {
      BalancedChildren(c);
      assert Split(Branch(a, e, k, Branch(b, f, k, c))) == Branch(low, f, k + 1, c);
    } else {
      assert Balanced(Branch(b, f, k, c));
    }
  }

  /** Two nodes on level `k` before a tail on that level: the second one is raised. */
  lemma SplitBeforeTail(a: Tree, e: Entry, k: nat, b: Tree, f: Entry, tail: Tree)
    requires k >= 1 && LevelOf(a) == k - 1 && LevelOf(b) == k - 1 && LevelOf(tail) == k
    requires Balanced(a) && Balanced(b) && Balanced(Split(tail))
    requires k <= LevelOf(Split(tail)) <= k + 1
    requires Split(tail).Branch? && LevelOf(Split(tail).right) <= k
    ensures var s := SplitRight(Split(Branch(a, e, k, Branch(b, f, k, tail))));
            Balanced(s) && s.level == k + 1
  {
    BalancedChildren(b);
    var low := Branch(a, e, k, b);
    assert Balanced(low);
    assert Split(Branch(a, e, k, Branch(b, f, k, tail))) == Branch(low, f, k + 1, tail);
  }

  /** The left subtree has sunk and the right neighbour comes down along with the root: the five
      or six nodes that are then on one level are regrouped by two skews and two splits. */
  lemma RebalanceLeftSunkHorizontal(t: Tree)
    requires Sunk(t) && LevelOf(t.left) == t.level - 2 && LevelOf(t.right) == t.level
    ensures Replaces(Rebalance(t), t)
  {
    var r, k := t.right, t.level - 1;
    var q, rr := r.left, r.right;
    BalancedChildren(r);
    BalancedChildren(q);
    BalancedChildren(rr);
    var d := DecreaseLevel(t);
    assert d == Branch(t.left, t.entry, k, r.(level := k));
    var tail := Branch(q.right, r.entry, k, rr);
    assert SkewRight(Skew(d)) == d.(right := Branch(q.left, q.entry, k, tail));
    assert SkewRightRight(SkewRight(Skew(d))) == d.(right := Branch(q.left, q.entry, k, Skew(tail)));
    if q.right.Branch? && q.right.level == k {
      var m := q.right;
      BalancedChildren(m);
      SplitPair(m.left, m.entry, k, m.right, r.entry, rr);
    } else {
      SplitPair(q.right, r.entry, k, rr.left, rr.entry, rr.right);
    }
    SplitBeforeTail(t.left, t.entry, k, q.left, q.entry, Skew(tail));
  }

  lemma RebalanceBalanced(t: Tree)
    requires Sunk(t)
    ensures Replaces(Rebalance(t), t)
  {
    if LevelOf(t.right) == t.level - 2 {
      RebalanceRightSunk(t);
    } else if LevelOf(t.left) == t.level - 1 {
      RebalanceIdle(t);
    } else if LevelOf(t.right) == t.level {
      RebalanceLeftSunkHorizontal(t);
    } else {
      RebalanceLeftSunk(t);
    }
  }

  /** Deleting keeps every level rule, for every balanced tree and any element. */
  lemma {:induction false} DeleteBalanced(x: Entry, t: Tree)
    requires Balanced(t)
    ensures Replaces(Delete(x, t), t)
    decreases t
  {
    if t.Branch? {
      if x.node == t.entry.node {
        if t.left.Branch? {
          DeleteBalanced(Highest(t.left), t.left);
          RebalanceBalanced(t.(entry := Highest(t.left), left := Delete(Highest(t.left), t.left)));
        } else if t.right.Branch? {
          DeleteBalanced(Lowest(t.right), t.right);
          RebalanceBalanced(t.(entry := Lowest(t.right), right := Delete(Lowest(t.right), t.right)));
        }
      } else if Before(x.key, t.entry.key) {
        DeleteBalanced(x, t.left);
        RebalanceBalanced(t.(left := Delete(x, t.left)));
      } else {
        DeleteBalanced(x, t.right);
        RebalanceBalanced(t.(right := Delete(x, t.right)));
      }
    }
  }

  // ---------------------------------------------------------------- contents

  function InOrder(t: Tree): seq<Entry> {
    if t.Leaf? then [] else InOrder(t.left) + [t.entry] + InOrder(t.right)
  }

  ghost predicate Sorted(s: seq<Entry>) {
    forall i, j :: 0 <= i < j < |s| ==> Before(s[i].key, s[j].key)
  }

  ghost predicate DistinctNodes(s: seq<Entry>) {
    forall i, j :: 0 <= i < j < |s| ==> s[i].node != s[j].node
  }

  /** The element `x` is the one and only element with its key. */
  ghost predicate Fits(x: Entry, s: seq<Entry>) {
    forall i :: 0 <= i < |s| ==> (s[i].node == x.node <==> s[i].key == x.key)
  }

  ghost predicate Holds(x: Entry, s: seq<Entry>) {
    exists i :: 0 <= i < |s| && s[i].node == x.node
  }

  /** What insertion means for a plain sorted sequence. */
  function InsertSorted(x: Entry, s: seq<Entry>): seq<Entry> {
    if s == [] || Before(x.key, s[0].key) then [x] + s
    else [s[0]] + InsertSorted(x, s[1..])
  }

  /** What removal means for a plain sequence. */
  function WithoutNode(x: Entry, s: seq<Entry>): seq<Entry> {
    if s == [] then []
    else (if s[0].node == x.node then [] else [s[0]]) + WithoutNode(x, s[1..])
  }

  lemma {:induction false} InsertSortedLeft(x: Entry, a: seq<Entry>, e: Entry, b: seq<Entry>)
    requires Before(x.key, e.key)
    ensures InsertSorted(x, a + [e] + b) == InsertSorted(x, a) + [e] + b
  {
    if a != [] {
      assert (a + [e] + b)[1..] == a[1..] + [e] + b;
      InsertSortedLeft(x, a[1..], e, b);
    }
  }

  lemma {:induction false} InsertSortedRight(x: Entry, a: seq<Entry>, b: seq<Entry>)
    requires forall i :: 0 <= i < |a| ==> !Before(x.key, a[i].key)
    ensures InsertSorted(x, a + b) == a + InsertSorted(x, b)
  {
    if a == [] {
      assert a + b == b;
    } else {
      assert (a + b)[1..] == a[1..] + b;
      InsertSortedRight(x, a[1..], b);
    }
  }

  lemma {:induction false} InsertSortedKeeps(x: Entry, s: seq<Entry>)
    requires Sorted(s) && DistinctNodes(s)
    requires forall i :: 0 <= i < |s| ==> s[i].key != x.key && s[i].node != x.node
    ensures Sorted(InsertSorted(x, s)) && DistinctNodes(InsertSorted(x, s))
  {
    if s != [] && !Before(x.key, s[0].key) {
      InsertSortedKeeps(x, s[1..]);
      InsertSortedHolds(x, s[1..]);
      var r := InsertSorted(x, s[1..]);
      forall i | 0 <= i < |r| ensures Before(s[0].key, r[i].key) && s[0].node != r[i].node {
        assert r[i] in multiset(r);
        assert r[i] in s[1..] || r[i] == x;
      }
    }
  }

  lemma {:induction false} InsertSortedLonger(x: Entry, s: seq<Entry>)
    ensures |InsertSorted(x, s)| == |s| + 1
  {
    if s != [] && !Before(x.key, s[0].key) { InsertSortedLonger(x, s[1..]); }
  }

  /** Inserting adds exactly the element. */
  lemma {:induction false} InsertSortedHolds(x: Entry, s: seq<Entry>)
    ensures multiset(InsertSorted(x, s)) == multiset(s) + multiset{x}
  {
    if s != [] && !Before(x.key, s[0].key) {
      InsertSortedHolds(x, s[1..]);
      assert s == [s[0]] + s[1..];
    }
  }

  lemma {:induction false} WithoutConcat(x: Entry, a: seq<Entry>, b: seq<Entry>)
    ensures WithoutNode(x, a + b) == WithoutNode(x, a) + WithoutNode(x, b)
  {
    if a == [] {
      assert a + b == b;
    } else {
      assert (a + b)[1..] == a[1..] + b;
      WithoutConcat(x, a[1..], b);
    }
  }

  lemma {:induction false} WithoutAbsent(x: Entry, s: seq<Entry>)
    requires forall i :: 0 <= i < |s| ==> s[i].node != x.node
    ensures WithoutNode(x, s) == s
  {
    if s != [] {
      WithoutAbsent(x, s[1..]);
    }
  }

  /** Removing takes out exactly the element, and nothing else, and moves nothing. */
  lemma {:induction false} WithoutAt(x: Entry, s: seq<Entry>, i: nat)
    requires i < |s| && s[i].node == x.node && DistinctNodes(s)
    ensures WithoutNode(x, s) == s[..i] + s[i + 1..]
  {
    if i == 0 {
      WithoutAbsent(x, s[1..]);
    } else {
      WithoutAt(x, s[1..], i - 1);
      assert s[..i] + s[i + 1..] == [s[0]] + (s[1..][..i - 1] + s[1..][i..]);
    }
  }

  lemma SkewInOrder(t: Tree)
    ensures InOrder(Skew(t)) == InOrder(t)
  {
    if t.Branch? && t.left.Branch? && t.left.level == t.level {
      var l := t.left;
      assert InOrder(Skew(t)) == InOrder(l.left) + [l.entry] + (InOrder(l.right) + [t.entry] + InOrder(t.right));
    }
  }

  lemma SplitInOrder(t: Tree)
    ensures InOrder(Split(t)) == InOrder(t)
  {
    if t.Branch? && t.right.Branch? && t.right.right.Branch? && t.level == t.right.right.level {
      var r := t.right;
      assert InOrder(Split(t)) == (InOrder(t.left) + [t.entry] + InOrder(r.left)) + [r.entry] + InOrder(r.right);
    }
  }

  lemma RebalanceInOrder(t: Tree)
    requires t.Branch?
    ensures InOrder(Rebalance(t)) == InOrder(t)
  {
    var d := DecreaseLevel(t);
    assert InOrder(d) == InOrder(t);
    SkewInOrder(d);
    var u := Skew(d);
    SkewInOrder(u.right);
    var v := SkewRight(u);
    if v.right.Branch? { SkewInOrder(v.right.right); }
    var w := SkewRightRight(v);
    assert InOrder(w) == InOrder(v);
    SplitInOrder(w);
    SplitInOrder(Split(w).right);
  }

  /** The tree insertion is the sorted-sequence insertion. */
  lemma {:induction false} InsertRefines(x: Entry, t: Tree)
    requires Sorted(InOrder(t))
    ensures InOrder(Insert(x, t)) == InsertSorted(x, InOrder(t))
  {
    if t.Branch? {
      var a, b := InOrder(t.left), InOrder(t.right);
      SortedParts(a, t.entry, b);
      if Before(x.key, t.entry.key) {
        InsertRefines(x, t.left);
        InsertSortedLeft(x, a, t.entry, b);
        SkewInOrder(t.(left := Insert(x, t.left)));
        SplitInOrder(Skew(t.(left := Insert(x, t.left))));
      } else {
        InsertRefines(x, t.right);
        InsertSortedRight(x, a + [t.entry], b);
        SkewInOrder(t.(right := Insert(x, t.right)));
        SplitInOrder(Skew(t.(right := Insert(x, t.right))));
      }
    }
  }

  lemma SortedParts(a: seq<Entry>, e: Entry, b: seq<Entry>)
    requires Sorted(a + [e] + b)
    ensures Sorted(a) && Sorted(b)
    ensures forall i :: 0 <= i < |a| ==> Before(a[i].key, e.key)
    ensures forall i :: 0 <= i < |b| ==> Before(e.key, b[i].key)
  {
    var s := a + [e] + b;
    assert forall i :: 0 <= i < |a| ==> s[i] == a[i];
    assert s[|a|] == e;
    assert forall i :: 0 <= i < |b| ==> s[|a| + 1 + i] == b[i];
  }

  lemma DistinctParts(a: seq<Entry>, e: Entry, b: seq<Entry>)
    requires DistinctNodes(a + [e] + b)
    ensures DistinctNodes(a) && DistinctNodes(b)
    ensures forall i :: 0 <= i < |a| ==> a[i].node != e.node
    ensures forall i :: 0 <= i < |b| ==> b[i].node != e.node
  {
    var s := a + [e] + b;
    assert forall i :: 0 <= i < |a| ==> s[i] == a[i];
    assert s[|a|] == e;
    assert forall i :: 0 <= i < |b| ==> s[|a| + 1 + i] == b[i];
  }

  lemma FitsParts(x: Entry, a: seq<Entry>, e: Entry, b: seq<Entry>)
    requires Fits(x, a + [e] + b)
    ensures Fits(x, a) && Fits(x, b) && (e.node == x.node <==> e.key == x.key)
  {
    var s := a + [e] + b;
    assert forall i :: 0 <= i < |a| ==> s[i] == a[i];
    assert s[|a|] == e;
    assert forall i :: 0 <= i < |b| ==> s[|a| + 1 + i] == b[i];
  }

  lemma MemberFits(s: seq<Entry>, i: nat)
    requires i < |s| && Sorted(s) && DistinctNodes(s)
    ensures Fits(s[i], s)
  {
  }

  lemma {:induction false} LowestIsFirst(t: Tree)
    requires t.Branch?
    ensures InOrder(t)[0] == Lowest(t)
  {
    if t.left.Branch? { LowestIsFirst(t.left); }
  }

  lemma {:induction false} HighestIsLast(t: Tree)
    requires t.Branch?
    ensures InOrder(t)[|InOrder(t)| - 1] == Highest(t)
  {
    if t.right.Branch? { HighestIsLast(t.right); }
  }

  lemma WithoutMiddle(x: Entry, a: seq<Entry>, e: Entry, b: seq<Entry>)
    ensures WithoutNode(x, a + [e] + b) ==
              WithoutNode(x, a) + (if e.node == x.node then [] else [e]) + WithoutNode(x, b)
  {
    WithoutConcat(x, a + [e], b);
    WithoutConcat(x, a, [e]);
  }

  /** What the search for `x` may use at a branch: the subtrees are in order, and on the other side
      of the way that it takes there is no `x`. */
  lemma SearchDown(x: Entry, t: Tree)
    requires t.Branch? && Sorted(InOrder(t)) && Fits(x, InOrder(t))
    ensures Sorted(InOrder(t.left)) && Fits(x, InOrder(t.left))
    ensures Sorted(InOrder(t.right)) && Fits(x, InOrder(t.right))
    ensures x.node == t.entry.node <==> x.key == t.entry.key
    ensures x.key == t.entry.key || Before(t.entry.key, x.key) ==> !Holds(x, InOrder(t.left))
    ensures x.key == t.entry.key || Before(x.key, t.entry.key) ==> !Holds(x, InOrder(t.right))
  {
    var a, e, b := InOrder(t.left), t.entry, InOrder(t.right);
    SortedParts(a, e, b);
    FitsParts(x, a, e, b);
  }

  lemma NotHeld(x: Entry, s: seq<Entry>)
    requires !Holds(x, s)
    ensures WithoutNode(x, s) == s
  {
    WithoutAbsent(x, s);
  }

  /** The tree deletion takes out exactly `x`, for any tree in order. */
  lemma {:induction false} DeleteRefines(x: Entry, t: Tree)
    requires Sorted(InOrder(t)) && DistinctNodes(InOrder(t)) && Fits(x, InOrder(t))
    ensures InOrder(Delete(x, t)) == WithoutNode(x, InOrder(t))
    decreases t, 1
  {
    if t.Branch? {
      SearchDown(x, t);
      DistinctParts(InOrder(t.left), t.entry, InOrder(t.right));
      if x.node == t.entry.node {
        DeleteRoot(x, t);
        DeleteAtRoot(x, t);
      } else if Before(x.key, t.entry.key) {
        DeleteRefines(x, t.left);
        DeleteOnLeft(x, t);
      } else {
        DeleteRefines(x, t.right);
        DeleteOnRight(x, t);
      }
    }
  }

  lemma DeleteAtRoot(x: Entry, t: Tree)
    requires t.Branch? && x.node == t.entry.node
    requires !Holds(x, InOrder(t.left)) && !Holds(x, InOrder(t.right))
    ensures WithoutNode(x, InOrder(t)) == InOrder(t.left) + InOrder(t.right)
  {
    var a, b := InOrder(t.left), InOrder(t.right);
    WithoutMiddle(x, a, t.entry, b);
    NotHeld(x, a);
    NotHeld(x, b);
    NothingBetween(a, b);
  }

  lemma NothingBetween(a: seq<Entry>, b: seq<Entry>)
    ensures a + [] + b == a + b
  {
    assert a + [] == a;
  }

  lemma DeleteOnLeft(x: Entry, t: Tree)
    requires t.Branch? && x.node != t.entry.node && Before(x.key, t.entry.key) && !Holds(x, InOrder(t.right))
    requires InOrder(Delete(x, t.left)) == WithoutNode(x, InOrder(t.left))
    ensures InOrder(Delete(x, t)) == WithoutNode(x, InOrder(t))
  {
    WithoutMiddle(x, InOrder(t.left), t.entry, InOrder(t.right));
    NotHeld(x, InOrder(t.right));
    RebalanceInOrder(t.(left := Delete(x, t.left)));
  }

  lemma DeleteOnRight(x: Entry, t: Tree)
    requires t.Branch? && x.node != t.entry.node && !Before(x.key, t.entry.key) && !Holds(x, InOrder(t.left))
    requires InOrder(Delete(x, t.right)) == WithoutNode(x, InOrder(t.right))
    ensures InOrder(Delete(x, t)) == WithoutNode(x, InOrder(t))
  {
    WithoutMiddle(x, InOrder(t.left), t.entry, InOrder(t.right));
    NotHeld(x, InOrder(t.left));
    RebalanceInOrder(t.(right := Delete(x, t.right)));
  }

  lemma {:induction false} DeleteRoot(x: Entry, t: Tree)
    requires Sorted(InOrder(t)) && DistinctNodes(InOrder(t)) && t.Branch? && x.node == t.entry.node
    ensures InOrder(Delete(x, t)) == InOrder(t.left) + InOrder(t.right)
    decreases t, 0
  {
    var a, b := InOrder(t.left), InOrder(t.right);
    SortedParts(a, t.entry, b);
    DistinctParts(a, t.entry, b);
    if t.left.Branch? {
      DeleteHighest(t.left);
      var u := t.(entry := Highest(t.left), left := Delete(Highest(t.left), t.left));
      RebalanceInOrder(u);
      assert InOrder(u) == a + b;
    } else if t.right.Branch? {
      DeleteLowest(t.right);
      var u := t.(entry := Lowest(t.right), right := Delete(Lowest(t.right), t.right));
      RebalanceInOrder(u);
      assert InOrder(u) == [] + [u.entry] + InOrder(u.right);
    }
  }

  lemma {:induction false} DeleteHighest(t: Tree)
    requires t.Branch? && Sorted(InOrder(t)) && DistinctNodes(InOrder(t))
    ensures InOrder(Delete(Highest(t), t)) + [Highest(t)] == InOrder(t)
    decreases t, 2
  {
    var s := InOrder(t);
    HighestIsLast(t);
    MemberFits(s, |s| - 1);
    DeleteRefines(Highest(t), t);
    WithoutAt(Highest(t), s, |s| - 1);
  }

  lemma {:induction false} DeleteLowest(t: Tree)
    requires t.Branch? && Sorted(InOrder(t)) && DistinctNodes(InOrder(t))
    ensures [Lowest(t)] + InOrder(Delete(Lowest(t), t)) == InOrder(t)
    decreases t, 2
  {
    var s := InOrder(t);
    LowestIsFirst(t);
    MemberFits(s, 0);
    DeleteRefines(Lowest(t), t);
    WithoutAt(Lowest(t), s, 0);
  }

  /** Lookup agrees with membership. */
  lemma {:induction false} ContainsRefines(x: Entry, t: Tree)
    requires Sorted(InOrder(t)) && Fits(x, InOrder(t))
    ensures Contains(x, t) <==> Holds(x, InOrder(t))
  {
    if t.Branch? {
      SearchDown(x, t);
      HoldsParts(x, InOrder(t.left), t.entry, InOrder(t.right));
      ContainsRefines(x, t.left);
      ContainsRefines(x, t.right);
    }
  }

  lemma HoldsParts(x: Entry, a: seq<Entry>, e: Entry, b: seq<Entry>)
    ensures Holds(x, a + [e] + b) <==> Holds(x, a) || e.node == x.node || Holds(x, b)
  {
    var s := a + [e] + b;
    assert s[|a|] == e;
    assert forall i :: 0 <= i < |a| ==> s[i] == a[i];
    assert forall i :: 0 <= i < |b| ==> s[|a| + 1 + i] == b[i];
  }

  // ---------------------------------------------------------------- height

  function Depth(t: Tree): nat {
    if t.Leaf? then 0
    else 1 + if Depth(t.left) < Depth(t.right) then Depth(t.right) else Depth(t.left)
  }

  /** A root on level L stands on at least 2^L - 1 elements, and no path is longer than 2L. */
  lemma {:induction false} HeightBound(t: Tree)
    requires Balanced(t)
    ensures |InOrder(t)| >= Pow2(LevelOf(t)) - 1
    ensures Depth(t) <= 2 * LevelOf(t)
    ensures Depth(t) == 2 * LevelOf(t) && t.Branch? ==> Horizontal(t)
  {
    if t.Branch? {
      HeightBound(t.left);
      HeightBound(t.right);
    }
  }

  /** A population that a size_t can count never brings a root above level 64. */
  lemma LevelFits(t: Tree)
    requires Balanced(t) && |InOrder(t)| < 0x1_0000_0000_0000_0000
    ensures LevelOf(t) <= 64
  {
    HeightBound(t);
    if LevelOf(t) > 64 {
      Pow2Grows(65, LevelOf(t));
      Pow2Of65();
    }
  }

  lemma Pow2Of65()
    ensures Pow2(65) == 0x2_0000_0000_0000_0000
  {
    assert Pow2(13) == 8192;
    Pow2Sum(13, 13);
    Pow2Sum(26, 26);
    Pow2Sum(52, 13);
  }

  lemma {:induction false} Pow2Sum(a: nat, b: nat)
    ensures Pow2(a + b) == Pow2(a) * Pow2(b)
  {
    if a > 0 { Pow2Sum(a - 1, b); }
  }

  // ---------------------------------------------------------------- whole runs

  /** One call on the list.  `Insert` and `erase` assert what `Legal` says. */
  datatype Op = Ins(x: Entry) | Del(x: Entry)

  ghost predicate Legal(op: Op, members: set<Entry>) {
    match op
    case Ins(x) => forall e <- members :: e.node != x.node && e.key != x.key
    case Del(x) => x in members
  }

  ghost predicate LegalRun(ops: seq<Op>) {
    ops == [] || (LegalRun(ops[..|ops| - 1]) && Legal(ops[|ops| - 1], Members(ops[..|ops| - 1])))
  }

  /** The plain set that the list stands for. */
  ghost function Members(ops: seq<Op>): set<Entry> {
    if ops == [] then {}
    else
      var before := Members(ops[..|ops| - 1]);
      match ops[|ops| - 1]
      case Ins(x) => before + {x}
      case Del(x) => before - {x}
  }

  function TreeAfter(ops: seq<Op>): Tree {
    if ops == [] then Leaf
    else
      var before := TreeAfter(ops[..|ops| - 1]);
      match ops[|ops| - 1]
      case Ins(x) => Insert(x, before)
      case Del(x) => Delete(x, before)
  }

  /** A sequence in order that holds exactly the members, each of them once. */
  ghost predicate Lists(s: seq<Entry>, members: set<Entry>) {
    Sorted(s) && DistinctNodes(s) && multiset(s) == multiset(members)
  }

  ghost predicate Represents(t: Tree, members: set<Entry>) {
    Check(t) && Lists(InOrder(t), members)
  }

  lemma InsertSortedLists(x: Entry, s: seq<Entry>, members: set<Entry>)
    requires Lists(s, members) && Legal(Ins(x), members)
    ensures Lists(InsertSorted(x, s), members + {x})
  {
    forall i | 0 <= i < |s| ensures s[i] in members { assert s[i] in multiset(s); }
    InsertSortedKeeps(x, s);
    InsertSortedHolds(x, s);
    assert x !in members;
  }

  lemma WithoutLists(x: Entry, s: seq<Entry>, members: set<Entry>)
    requires Lists(s, members) && x in members
    ensures Fits(x, s) && Lists(WithoutNode(x, s), members - {x})
  {
    assert x in multiset(s);
    var i :| 0 <= i < |s| && s[i] == x;
    MemberFits(s, i);
    WithoutAt(x, s, i);
    CutKeeps(s, i);
  }

  lemma CutKeeps(s: seq<Entry>, i: nat)
    requires i < |s| && Sorted(s) && DistinctNodes(s)
    ensures var c := s[..i] + s[i + 1..];
            Sorted(c) && DistinctNodes(c) && multiset(c) == multiset(s) - multiset{s[i]}
  {
    var c := s[..i] + s[i + 1..];
    assert forall k :: 0 <= k < |c| ==> c[k] == s[if k < i then k else k + 1];
    assert s == s[..i] + [s[i]] + s[i + 1..];
  }

  /** No assertion of the run-time check fails on a valid tree. */
  lemma ValidChecks(t: Tree)
    requires Balanced(t) && Sorted(InOrder(t))
    ensures Check(t)
  {
    CheckIffBalanced(t);
    OrderChecks(t);
  }

  lemma {:induction false} OrderChecks(t: Tree)
    requires Sorted(InOrder(t))
    ensures CheckOrder(t)
  {
    if t.Branch? {
      var a, b := InOrder(t.left), InOrder(t.right);
      SortedParts(a, t.entry, b);
      OrderChecks(t.left);
      OrderChecks(t.right);
      if t.left.Branch? { RootInOrder(t.left); }
      if t.right.Branch? { RootInOrder(t.right); }
    }
  }

  lemma RootInOrder(t: Tree)
    requires t.Branch?
    ensures exists i :: 0 <= i < |InOrder(t)| && InOrder(t)[i] == t.entry
  {
    var i := |InOrder(t.left)|;
    assert InOrder(t)[i] == t.entry;
  }

  /** Two keys that are out of order, but pass as a node and its right child: the child has the same
      time and no larger address, or an earlier time and a larger address. */
  predicate Overlooked(a: Key, b: Key) {
    || (a.time == b.time && b.addr <= a.addr)
    || (b.time < a.time && a.addr < b.addr)
  }

  lemma OverlookedIff(a: Key, b: Key)
    ensures Overlooked(a, b) <==> (a.time <= b.time || a.addr < b.addr) && !Before(a, b)
  {
  }

  /** Some node and its right child are out of order and pass. */
  predicate HasOverlooked(t: Tree) {
    t.Branch? &&
      (|| HasOverlooked(t.left) || HasOverlooked(t.right)
       || (t.right.Branch? && Overlooked(t.entry.key, t.right.entry.key)))
  }

  /** What `check` does not look at: a node and its neighbours in the order that are not its children. */
  predicate FarInOrder(t: Tree) {
    t.Branch? ==>
      && FarInOrder(t.left) && FarInOrder(t.right)
      && (t.left.Branch? && t.left.right.Branch? ==> Before(Highest(t.left).key, t.entry.key))
      && (t.right.Branch? && t.right.left.Branch? ==> Before(t.entry.key, Lowest(t.right).key))
  }

  /** Exactly what the assertions on keys are worth.  A tree is in order if and only if it passes them,
      no right child is one of those that are overlooked, and the neighbours that are not compared are
      in order. */
  lemma {:induction false} InOrderIff(t: Tree)
    ensures Sorted(InOrder(t)) <==> CheckOrder(t) && !HasOverlooked(t) && FarInOrder(t)
  {
    if t.Branch? {
      InOrderIff(t.left);
      InOrderIff(t.right);
      if Sorted(InOrder(t)) {
        SortedNeighbours(t);
      } else if CheckOrder(t) && !HasOverlooked(t) && FarInOrder(t) {
        NeighboursSorted(t);
      }
    }
  }

  /** The neighbours of the root in the order are before and after it. */
  predicate RootBetween(t: Tree) {
    t.Branch? ==>
      && (t.left.Branch? ==> Before(Highest(t.left).key, t.entry.key))
      && (t.right.Branch? ==> Before(t.entry.key, Lowest(t.right).key))
  }

  lemma SortedNeighbours(t: Tree)
    requires t.Branch? && Sorted(InOrder(t))
    ensures Sorted(InOrder(t.left)) && Sorted(InOrder(t.right)) && RootBetween(t)
    ensures t.left.Branch? ==> Before(t.left.entry.key, t.entry.key)
    ensures t.right.Branch? ==> Before(t.entry.key, t.right.entry.key)
  {
    SortedParts(InOrder(t.left), t.entry, InOrder(t.right));
    if t.left.Branch? {
      HighestIsLast(t.left);
      RootInOrder(t.left);
    }
    if t.right.Branch? {
      LowestIsFirst(t.right);
      RootInOrder(t.right);
    }
  }

  lemma NeighboursSorted(t: Tree)
    requires t.Branch? && Sorted(InOrder(t.left)) && Sorted(InOrder(t.right)) && RootBetween(t)
    ensures Sorted(InOrder(t))
  {
    if t.left.Branch? { HighestIsLast(t.left); }
    if t.right.Branch? { LowestIsFirst(t.right); }
    SortedJoin(InOrder(t.left), t.entry, InOrder(t.right));
  }

  lemma SortedJoin(a: seq<Entry>, e: Entry, b: seq<Entry>)
    requires Sorted(a) && Sorted(b)
    requires a != [] ==> Before(a[|a| - 1].key, e.key)
    requires b != [] ==> Before(e.key, b[0].key)
    ensures Sorted(a + [e] + b)
  {
    var s := a + [e] + b;
    forall i | 0 <= i < |a| ensures Before(a[i].key, e.key) {
      if i < |a| - 1 { assert Before(a[i].key, a[|a| - 1].key); }
    }
    forall i | 0 <= i < |b| ensures Before(e.key, b[i].key) {
      if i > 0 { assert Before(b[0].key, b[i].key); }
    }
    forall i, j | 0 <= i < j < |s| ensures Before(s[i].key, s[j].key) {
      var x := if i < |a| then a[i] else if i == |a| then e else b[i - |a| - 1];
      var y := if j < |a| then a[j] else if j == |a| then e else b[j - |a| - 1];
      assert s[i] == x && s[j] == y;
    }
  }

  /** Two elements are inserted.  Then the first one gets a later time while it is in the list, as
      `PolledWaiting::setInterval` allows: the tree is out of order, and passes. */
  lemma CheckMissesOrder(m: Listable, n: Listable, was: int, time: int, later: int)
    requires m != n && m.addr < n.addr && was <= time < later
    ensures var x, y := Entry(m, Key(was, m.addr)), Entry(n, Key(time, n.addr));
            var ops := [Ins(x), Ins(y)];
            var t := TreeAfter(ops);
            && LegalRun(ops) && t == Branch(Leaf, x, 1, Branch(Leaf, y, 1, Leaf)) && Check(t)
            && var u := t.(entry := Entry(m, Key(later, m.addr)));
               Check(u) && !Sorted(InOrder(u))
  {
    var x, y, z := Entry(m, Key(was, m.addr)), Entry(n, Key(time, n.addr)), Entry(m, Key(later, m.addr));
    TwoInserted(x, y);
    var r := Branch(Leaf, y, 1, Leaf);
    var u := Branch(Leaf, z, 1, r);
    assert CheckOrder(r) && CheckOrder(u);
    assert Overlooked(z.key, y.key) && HasOverlooked(u);
    InOrderIff(u);
  }

  lemma TwoInserted(x: Entry, y: Entry)
    requires x.node != y.node && Before(x.key, y.key)
    ensures var ops := [Ins(x), Ins(y)];
            LegalRun(ops) && TreeAfter(ops) == Branch(Leaf, x, 1, Branch(Leaf, y, 1, Leaf)) && Check(TreeAfter(ops))
  {
    var one, ops := [Ins(x)], [Ins(x), Ins(y)];
    assert one[..|one| - 1] == [] && ops[..|ops| - 1] == one;
    assert LegalRun([]) && Members([]) == {} && Legal(Ins(x), {});
    var t := Branch(Leaf, x, 1, Leaf);
    assert LegalRun(one) && TreeAfter(one) == t && Members(one) == {x};
    assert LegalRun(ops);
    var u := t.(right := Branch(Leaf, y, 1, Leaf));
    assert Insert(y, Leaf) == u.right && Skew(u) == u && Split(u) == u;
    assert TreeAfter(ops) == Insert(y, t) == u;
    RunRefinesSet(ops);
  }

  /** After any sequence of insertions and removals the tree represents the plain set. */
  lemma {:induction false} RunRefinesSet(ops: seq<Op>)
    requires LegalRun(ops)
    ensures Represents(TreeAfter(ops), Members(ops))
  {
    if ops != [] {
      var ops' := ops[..|ops| - 1];
      RunRefinesSet(ops');
      var t := TreeAfter(ops');
      CheckIffBalanced(t);
      match ops[|ops| - 1]
      case Ins(x) =>
        InsertBalanced(x, t);
        InsertRefines(x, t);
        InsertSortedLists(x, InOrder(t), Members(ops'));
        ValidChecks(Insert(x, t));
      case Del(x) =>
        DeleteBalanced(x, t);
        WithoutLists(x, InOrder(t), Members(ops'));
        DeleteRefines(x, t);
        ValidChecks(Delete(x, t));
    }
  }
}
