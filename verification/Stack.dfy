/** Where a fiber's stack and its guard pages lie inside the allocated memory. */
module Stacks {
  import opened Common

  /** Bitwise and of the lowest `w` bits. */
  function And(a: nat, b: nat, w: nat): nat {
    if w == 0 then 0 else 2 * And(a / 2, b / 2, w - 1) + if a % 2 == 1 && b % 2 == 1 then 1 else 0
  }

  lemma ModHalves(a: nat, m: nat)
    requires m > 0
    ensures a % (2 * m) == 2 * ((a / 2) % m) + a % 2
  {
    var q, r := (a / 2) / m, (a / 2) % m;
    assert a / 2 == m * q + r;
    assert a == (2 * m) * q + (2 * r + a % 2);
    QuotientUnique(a, 2 * m, q, 2 * r + a % 2);
  }

  lemma RoundHalves(a: nat, k: nat, half: nat)
    requires k > 0 && half == a / 2 - a / 2 % Pow2(k - 1)
    ensures 2 * half == a - a % Pow2(k)
  {
    ModHalves(a, Pow2(k - 1));
  }

  lemma {:induction false} MaskOnes(a: nat, w: nat)
    requires a < Pow2(w)
    ensures And(a, Pow2(w) - 1, w) == a
  {
    if w > 0 {
      MaskOnes(a / 2, w - 1);
      assert (Pow2(w) - 1) / 2 == Pow2(w - 1) - 1 && (Pow2(w) - 1) % 2 == 1;
    }
  }

  /** With the lowest `k` bits cleared. */
  function Cleared(a: nat, k: nat): nat {
    if k == 0 then a else 2 * Cleared(a / 2, k - 1)
  }

  lemma {:induction false} MaskClears(a: nat, k: nat, w: nat)
    requires k <= w && a < Pow2(w)
    ensures Pow2(k) <= Pow2(w) && And(a, Pow2(w) - Pow2(k), w) == Cleared(a, k)
  {
    Pow2Grows(k, w);
    if k == 0 {
      MaskOnes(a, w);
    } else {
      MaskClears(a / 2, k - 1, w - 1);
      MaskHalves(a, k, w);
    }
  }

  lemma MaskHalves(a: nat, k: nat, w: nat)
    requires 0 < k <= w && Pow2(k) <= Pow2(w) && Pow2(k - 1) <= Pow2(w - 1)
    ensures And(a, Pow2(w) - Pow2(k), w) == 2 * And(a / 2, Pow2(w - 1) - Pow2(k - 1), w - 1)
  {
    var m := Pow2(w - 1) - Pow2(k - 1);
    assert Pow2(w) - Pow2(k) == 2 * m;
  }

  lemma {:induction false} ClearedRounds(a: nat, k: nat)
    ensures Cleared(a, k) == a - a % Pow2(k)
  {
    if k > 0 {
      ClearedRounds(a / 2, k - 1);
      RoundHalves(a, k, Cleared(a / 2, k - 1));
    }
  }

  /** For a page of 2^k bytes, `& ~(page - 1)` rounds down to a multiple of the page. */
  lemma MaskRoundsDown(a: nat, k: nat, w: nat)
    requires k <= w && a < Pow2(w)
    ensures Pow2(k) <= Pow2(w) && And(a, Pow2(w) - Pow2(k), w) == a - a % Pow2(k)
  {
    MaskClears(a, k, w);
    ClearedRounds(a, k);
  }

  /** Down to a multiple of `m`. */
  function Down(a: nat, m: nat): (r: nat)
    requires m > 0
    ensures r % m == 0 && r <= a < r + m
  {
    Multiple(a, m);
    a - a % m
  }

  lemma Multiple(a: nat, m: nat)
    requires m > 0
    ensures (a - a % m) % m == 0
  {
    QuotientUnique(a - a % m, m, a / m, 0);
  }

  lemma MultipleMinus(a: int, m: int, n: int)
    requires m > 0 && a % m == 0
    ensures (a - n * m) % m == 0
  {
    assert a - n * m == m * (a / m - n) + 0;
    QuotientUnique(a - n * m, m, a / m - n, 0);
  }

  /** No multiple is skipped. */
  lemma DownIsNext(a: nat, b: nat, m: nat)
    requires m > 0 && b % m == 0 && b <= a
    ensures b <= Down(a, m)
  {
    DivAtLeast(a, m, b / m);
    MulMono(b / m, a / m, m);
  }

  /** `a & ~(page - 1)` on a word of `w` bits, for a page of 2^k bytes. */
  method Mask(a: nat, k: nat, w: nat) returns (r: nat)
    requires k <= w && a < Pow2(w)
    ensures r == Down(a, Pow2(k))
  {
    MaskRoundsDown(a, k, w);
    r := And(a, Pow2(w) - Pow2(k), w);
  }

  datatype Stack = Stack(p: nat, size: nat)

  /** `calcStackSize` where mprotect() guards both ends. */
  function CalcStackSize(size: nat, page: nat, minSigStk: nat): nat {
    size + minSigStk + 2 * page
  }

  /** What `initStack` asks of the allocator: whole pages, and one more. */
  function AllocSize(size: nat, page: nat, minSigStk: nat): nat
    requires page > 0
  {
    Down(CalcStackSize(size, page, minSigStk) + page - 1, page) + page
  }

  /** The start and the size of the whole pages in a block. */
  function FirstPage(s: Stack, page: nat): nat
    requires page > 0
  {
    Down(s.p + page - 1, page)
  }

  function WholePages(s: Stack, page: nat): nat
    requires page > 0 && s.size >= page
  {
    Down(s.size - (FirstPage(s, page) - s.p), page)
  }

  /** Where the usable part and its guard pages come to lie in a block of any size at any address. */
  lemma AlignedParts(s: Stack, page: nat)
    requires 0 < page < s.size
    ensures var start, length := FirstPage(s, page), WholePages(s, page);
            && (start + page) % page == 0 && (length - 2 * page) % page == 0
            && s.p <= start < s.p + page
            && start + length <= s.p + s.size < start + length + page
            && (s.size % page == 0 ==> s.size - page <= length)
  {
    var start, length := FirstPage(s, page), WholePages(s, page);
    MultipleMinus(start, page, -1);
    MultipleMinus(length, page, 2);
    if s.size % page == 0 {
      MultipleMinus(s.size, page, 1);
      DownIsNext(s.size - (start - s.p), s.size - page, page);
    }
  }

  /** What is asked for are whole pages that hold the request, a signal frame and three more pages;
      so the block can be aligned, wherever it is. */
  lemma AllocSizeFits(size: nat, page: nat, minSigStk: nat, addr: nat)
    requires page > 0 && minSigStk > 0
    ensures var s := Stack(addr, AllocSize(size, page, minSigStk));
            && s.size % page == 0 && size + minSigStk + 3 * page <= s.size
            && WholePages(s, page) > 2 * page
  {
    var asked := CalcStackSize(size, page, minSigStk) + page - 1;
    MultipleMinus(Down(asked, page), page, -1);
    AlignedParts(Stack(addr, AllocSize(size, page, minSigStk)), page);
  }

  class Context {
    var stack: Stack
    var usable: Stack

    constructor ()
      ensures stack == Stack(0, 0) && usable == Stack(0, 0)
    {
      stack, usable := Stack(0, 0), Stack(0, 0);
    }

    /** `addr` is what the allocator returns for that size: an address without any alignment at
        which the block does not wrap around, or 0. */
    method InitStack(size: nat, k: nat, minSigStk: nat, addr: nat, w: nat) returns (ok: bool)
      requires k <= w && minSigStk > 0
      requires CalcStackSize(size, Pow2(k), minSigStk) + Pow2(k) - 1 < Pow2(w)
      requires addr + AllocSize(size, Pow2(k), minSigStk) < Pow2(w)
      modifies this
      ensures ok <==> addr != 0
      ensures stack == Stack(addr, AllocSize(size, Pow2(k), minSigStk))
      ensures ok ==>
        var page := Pow2(k);
        // whole, aligned pages that hold the request and a signal frame
        && usable.p % page == 0 && usable.size % page == 0
        && usable.size >= size + minSigStk
        // the lower guard page, the usable part and the upper guard page follow each other inside
        // the allocated block
        && stack.p <= usable.p - page
        && usable.p + usable.size + page <= stack.p + stack.size
        // and less than four pages are spent on guards and alignment
        && usable.size + 4 * page > stack.size
    {
      var page := Pow2(k);
      var rounded := Mask(CalcStackSize(size, page, minSigStk) + page - 1, k, w);
      stack := Stack(addr, rounded + page);
      if addr == 0 {
        return false;
      }
      usable := stack;
      AllocSizeFits(size, page, minSigStk, addr);
      StackAlign(k, w);
      return true;
    }

    /** Any block, of any size.  The preconditions are what the source asserts. */
    method StackAlign(k: nat, w: nat)
      requires k <= w && usable.p + usable.size < Pow2(w)
      requires usable.p == 0 || usable.size == 0 ||
               (usable.size > Pow2(k) && WholePages(usable, Pow2(k)) > 2 * Pow2(k))
      modifies this`usable
      ensures old(usable.p == 0 || usable.size == 0) ==> usable == old(usable)
      ensures old(usable.p != 0 && usable.size != 0) ==>
        var page, before := Pow2(k), old(usable);
        && usable.p % page == 0 && usable.size % page == 0 && usable.size > 0
        && before.p + page <= usable.p < before.p + 2 * page
        && usable.p + usable.size + page <= before.p + before.size < usable.p + usable.size + 2 * page
        && (before.size % page == 0 ==> before.size - 3 * page <= usable.size)
    {
      if usable.p == 0 || usable.size == 0 {
        return;
      }
      var ps := Pow2(k);
      AlignedParts(usable, ps);
      var start := Mask(usable.p + ps - 1, k, w);
      var length := Mask(usable.size - (start - usable.p), k, w);
      usable := Stack(start + ps, length - 2 * ps);
    }
  }
}
