/** Byte-wise string order and a stable sort by a string key, as `sort.Strings` and `sort.Slice` use them. */
module Lexicographic {

  predicate Less(a: string, b: string)
  {
    b != "" && (a == "" || a[0] < b[0] || (a[0] == b[0] && Less(a[1..], b[1..])))
  }

  /** The order ascends by bytes: at the first place where the strings part, the smaller one ends or has the smaller
      character. */
  lemma {:induction false} LessExactly(a: string, b: string)
    ensures Less(a, b) <==> exists n: nat :: PartsAt(a, b, n)
  {
    if a != "" && b != "" && a[0] == b[0] {
      LessExactly(a[1..], b[1..]);
      if n: nat :| PartsAt(a[1..], b[1..], n) {
        assert a == [a[0]] + a[1..] && b == [b[0]] + b[1..];
        assert a[..n + 1] == [a[0]] + a[1..][..n] && b[..n + 1] == [b[0]] + b[1..][..n];
        assert PartsAt(a, b, n + 1);
      }
      if n: nat :| PartsAt(a, b, n) {
        assert n > 0;
        assert a[1..][..n - 1] == a[..n][1..] && b[1..][..n - 1] == b[..n][1..];
        assert PartsAt(a[1..], b[1..], n - 1);
      }
    } else if Less(a, b) {
      assert PartsAt(a, b, 0);
    }
  }

  /** The strings agree on their first `n` characters; then `a` is over, or has the smaller one. */
  predicate PartsAt(a: string, b: string, n: nat)
  {
    n <= |a| && n < |b| && a[..n] == b[..n] && (n == |a| || a[n] < b[n])
  }

  lemma {:induction false} LessIsTotal(a: string, b: string)
    ensures Less(a, b) || Less(b, a) || a == b
    ensures !(Less(a, b) && Less(b, a))
    ensures a == b ==> !Less(a, b)
  {
    if a != "" && b != "" && a[0] == b[0] {
      LessIsTotal(a[1..], b[1..]);
      assert a == [a[0]] + a[1..] && b == [b[0]] + b[1..];
    }
  }

  lemma {:induction false} LessIsTransitive(a: string, b: string, c: string)
    requires !Less(b, a) && !Less(c, b)
    ensures !Less(c, a)
  {
    if a != "" && c != "" {
      LessIsTotal(a, b);
      LessIsTotal(b, c);
      if b != "" && a[0] == b[0] == c[0] {
        LessIsTransitive(a[1..], b[1..], c[1..]);
      }
    }
  }

  ghost predicate Ascending<T(!new)>(xs: seq<T>, key: T -> string)
  {
    forall i, j :: 0 <= i < j < |xs| ==> !Less(key(xs[j]), key(xs[i]))
  }

  ghost predicate StrictlyAscending(keys: seq<string>)
  {
    forall i, j :: 0 <= i < j < |keys| ==> Less(keys[i], keys[j])
  }

  lemma InsertKeepsOrder<T(!new)>(xs: seq<T>, key: T -> string, x: T, p: nat)
    requires Ascending(xs, key) && p <= |xs|
    requires forall i :: 0 <= i < p ==> !Less(key(x), key(xs[i]))
    requires p < |xs| ==> Less(key(x), key(xs[p]))
    ensures Ascending(xs[..p] + [x] + xs[p..], key)
  {
    var ys := xs[..p] + [x] + xs[p..];
    forall i, j | 0 <= i < j < |ys|
      ensures !Less(key(ys[j]), key(ys[i]))
    {
      if i == p {
        LessIsTotal(key(x), key(xs[p]));
        if j > p + 1 {
          LessIsTransitive(key(x), key(xs[p]), key(ys[j]));
        }
      }
    }
  }

  method SortBy<T(!new, ==)>(xs: seq<T>, key: T -> string) returns (ys: seq<T>)
    ensures multiset(ys) == multiset(xs)
    ensures Ascending(ys, key)
  {
    ys := [];
    for n := 0 to |xs|
      invariant multiset(ys) == multiset(xs[..n])
      invariant Ascending(ys, key)
    {
      var x := xs[n];
      var p := 0;
      while p < |ys| && !Less(key(x), key(ys[p]))
        invariant 0 <= p <= |ys|
        invariant forall i :: 0 <= i < p ==> !Less(key(x), key(ys[i]))
      {
        p := p + 1;
      }
      InsertKeepsOrder(ys, key, x, p);
      assert ys == ys[..p] + ys[p..];
      assert xs[..n + 1] == xs[..n] + [x];
      ys := ys[..p] + [x] + ys[p..];
    }
    assert xs[..|xs|] == xs;
  }

  /** A permutation of distinct elements has distinct elements. */
  lemma PermutationKeepsDistinct<T(!new)>(xs: seq<T>, ys: seq<T>, i: nat, j: nat)
    requires multiset(ys) == multiset(xs) && i < j < |ys|
    requires forall i, j :: 0 <= i < j < |xs| ==> xs[i] != xs[j]
    ensures ys[i] != ys[j]
  {
    if ys[i] == ys[j] {
      var x := ys[i];
      assert ys == ys[..j] + ys[j..];
      assert x in ys[..j] && x in ys[j..];
      assert multiset(ys)[x] >= 2;
      OccursOnce(xs, x);
    }
  }

  lemma {:induction false} OccursOnce<T(!new)>(xs: seq<T>, x: T)
    requires forall i, j :: 0 <= i < j < |xs| ==> xs[i] != xs[j]
    ensures multiset(xs)[x] <= 1
  {
    if xs != [] {
      assert xs == [xs[0]] + xs[1..];
      OccursOnce(xs[1..], x);
      if xs[0] == x {
        assert x !in xs[1..];
      }
    }
  }
}
