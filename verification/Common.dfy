/** What several components need. */
module Common {

  datatype Option<T> = None | Some(value: T)

  function Pow2(n: nat): (p: nat)
    ensures p > 0
  {
    if n == 0 then 1 else 2 * Pow2(n - 1)
  }

  lemma {:induction false} Pow2Grows(a: nat, b: nat)
    requires a <= b
    ensures Pow2(a) <= Pow2(b)
  {
    if a < b { Pow2Grows(a, b - 1); }
  }

  lemma MulMono(a: int, b: int, c: int)
    requires a <= b && c >= 0
    ensures a * c <= b * c
  {
  }

  lemma DivAtLeast(x: int, d: int, q: int)
    requires d > 0 && q * d <= x
    ensures q <= x / d
  {
    if x / d + 1 <= q {
      MulMono(x / d + 1, q, d);
    }
  }

  lemma DivLess(x: int, d: int, q: int)
    requires d > 0 && x < q * d
    ensures x / d < q
  {
    if q <= x / d {
      MulMono(q, x / d, d);
    }
  }

  /** Division with remainder has one result. */
  lemma QuotientUnique(x: int, d: int, q: int, r: int)
    requires d > 0 && 0 <= r < d && x == d * q + r
    ensures x / d == q && x % d == r
  {
    DivAtLeast(x, d, q);
    DivLess(x, d, q + 1);
  }

  /** No element occurs twice. */
  ghost predicate NoDup<T>(s: seq<T>) {
    forall x {:trigger multiset(s)[x]} :: x in s ==> multiset(s)[x] == 1
  }

  lemma NoDupApart<T>(s: seq<T>, i: nat, j: nat)
    requires NoDup(s) && i < j < |s|
    ensures s[i] != s[j]
  {
    var a := s[..j];
    assert s == a + [s[j]] + s[j + 1..];
    assert a[i] in multiset(a) && s[j] in s;
    assert multiset(s)[s[j]] == multiset(a)[s[j]] + 1 + multiset(s[j + 1..])[s[j]];
  }

  lemma {:induction false} AllApart<T>(s: seq<T>)
    requires forall i, j :: 0 <= i < j < |s| ==> s[i] != s[j]
    ensures NoDup(s)
  {
    if s != [] {
      var r, x := s[..|s| - 1], s[|s| - 1];
      AllApart(r);
      assert s == r + [x] && x !in r;
      NoDupAppend(r, x);
    }
  }

  lemma NoDupAppend<T>(s: seq<T>, x: T)
    requires NoDup(s) && x !in s
    ensures NoDup(s + [x]) && NoDup([x] + s)
  {
    assert x !in multiset(s);
    forall y | y in s ensures multiset(s)[y] == 1 {}
    forall y | y in s + [x] ensures multiset(s + [x])[y] == 1 && multiset([x] + s)[y] == 1 {
      assert multiset(s + [x])[y] == multiset(s)[y] + if y == x then 1 else 0;
      assert multiset([x] + s)[y] == multiset(s)[y] + if y == x then 1 else 0;
    }
  }

  lemma NoDupTurns<T>(s: seq<T>, i: nat)
    requires NoDup(s) && i <= |s|
    ensures NoDup(s[i..] + s[..i])
  {
    assert s == s[..i] + s[i..];
    assert multiset(s[i..] + s[..i]) == multiset(s);
    forall y | y in s[i..] + s[..i] ensures multiset(s[i..] + s[..i])[y] == 1 {
      assert y in multiset(s);
      assert multiset(s)[y] == 1;
    }
  }

  lemma OnceIn<T>(s: seq<T>, i: nat)
    requires NoDup(s) && i < |s|
    ensures s[i] !in s[..i] && s[i] !in s[i + 1..]
  {
    var x := s[i];
    assert s == s[..i] + [x] + s[i + 1..];
    assert multiset(s)[x] == multiset(s[..i])[x] + 1 + multiset(s[i + 1..])[x];
    assert multiset(s[..i])[x] == 0 && multiset(s[i + 1..])[x] == 0;
  }

  /** Cutting out a member leaves the others. */
  lemma NoDupCut<T>(s: seq<T>, i: nat)
    requires NoDup(s) && i < |s|
    ensures NoDup(s[..i] + s[i + 1..]) && forall y :: y in s[..i] + s[i + 1..] <==> y != s[i] && y in s
  {
    var c := s[..i] + s[i + 1..];
    assert s == s[..i] + [s[i]] + s[i + 1..];
    assert multiset(c) == multiset(s) - multiset{s[i]};
    assert multiset(s)[s[i]] == 1;
    forall y ensures y in c <==> y != s[i] && y in s {
      assert y in c <==> y in multiset(c);
      assert y in s <==> y in multiset(s);
    }
    forall y | y in c ensures multiset(c)[y] == 1 {
      assert multiset(s)[y] == 1;
    }
  }

  /** The sequence without any `x`. */
  function Without<T(==,!new)>(s: seq<T>, x: T): (r: seq<T>)
    ensures forall y :: y in r <==> y in s && y != x
    ensures |r| <= |s| && (x in s ==> |r| < |s|)
  {
    if s == [] then []
    else if s[0] == x then Without(s[1..], x)
    else [s[0]] + Without(s[1..], x)
  }

  lemma {:induction false} WithoutCounts<T(!new)>(s: seq<T>, x: T, y: T)
    ensures multiset(Without(s, x))[y] <= multiset(s)[y]
  {
    if s != [] {
      WithoutCounts(s[1..], x, y);
      assert s == [s[0]] + s[1..];
    }
  }

  lemma WithoutNoDup<T(!new)>(s: seq<T>, x: T)
    requires NoDup(s)
    ensures NoDup(Without(s, x))
  {
    forall y | y in Without(s, x) ensures multiset(Without(s, x))[y] == 1 {
      WithoutCounts(s, x, y);
      assert y in multiset(Without(s, x)) && multiset(s)[y] == 1;
    }
  }

  lemma {:induction false} NotThere<T(!new)>(s: seq<T>, x: T)
    requires x !in s
    ensures Without(s, x) == s
  {
    if s != [] { NotThere(s[1..], x); }
  }

  /** A member that occurs once is cut out. */
  lemma {:induction false} WithoutCuts<T(!new)>(s: seq<T>, i: nat)
    requires i < |s| && NoDup(s)
    ensures Without(s, s[i]) == s[..i] + s[i + 1..]
  {
    OnceIn(s, i);
    WithoutConcat(s[..i], s[i..], s[i]);
    assert s == s[..i] + s[i..] && s[i..][1..] == s[i + 1..];
    NotThere(s[..i], s[i]);
    NotThere(s[i + 1..], s[i]);
  }

  lemma {:induction false} WithoutConcat<T(!new)>(s: seq<T>, t: seq<T>, x: T)
    ensures Without(s + t, x) == Without(s, x) + Without(t, x)
  {
    if s == [] {
      assert s + t == t;
    } else {
      assert (s + t)[1..] == s[1..] + t;
      WithoutConcat(s[1..], t, x);
    }
  }

  /** The first place at which `x` occurs. */
  function IndexOf<T(==)>(s: seq<T>, x: T): (i: nat)
    requires x in s
    ensures i < |s| && s[i] == x
    ensures forall j :: 0 <= j < i ==> s[j] != x
  {
    if s[0] == x then 0 else 1 + IndexOf(s[1..], x)
  }
}
