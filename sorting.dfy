/** The one sort the source performs, `Array.prototype.sort` with the
    comparator `(a, b) => b.similarity - a.similarity`: descending by a real
    key, and stable (ECMAScript 2019 requires `sort` to be stable), so that
    elements with equal keys keep their input order. It is modelled as a pure
    function: the arrays it sorts in the source are fresh locals. */
module Sorting {

  ghost predicate SortedDesc<T>(s: seq<T>, key: T -> real)
  {
    forall i, j :: 0 <= i < j < |s| ==> key(s[i]) >= key(s[j])
  }

  /** Descending by key, ties in increasing `id` order. */
  ghost predicate SortedDescThenId<T>(s: seq<T>, key: T -> real, id: T -> int)
  {
    forall i, j :: 0 <= i < j < |s| ==>
      key(s[i]) > key(s[j]) || (key(s[i]) == key(s[j]) && id(s[i]) < id(s[j]))
  }

  ghost predicate IncreasingId<T>(s: seq<T>, id: T -> int)
  {
    forall i, j :: 0 <= i < j < |s| ==> id(s[i]) < id(s[j])
  }

  ghost predicate DistinctBy<T, K>(s: seq<T>, g: T -> K)
  {
    forall i, j :: 0 <= i < j < |s| ==> g(s[i]) != g(s[j])
  }

  /** Where a stable descending insertion puts `x` into `s`: in front of the
      first element whose key is not above `x`'s. */
  function InsertPos<T>(x: T, s: seq<T>, key: T -> real): (k: nat)
    ensures k <= |s|
    ensures forall i :: 0 <= i < k ==> key(s[i]) > key(x)
    ensures k < |s| ==> key(s[k]) <= key(x)
  {
    if |s| == 0 || key(s[0]) <= key(x) then 0 else 1 + InsertPos(x, s[1..], key)
  }

  function Insert<T>(x: T, s: seq<T>, key: T -> real): seq<T>
  {
    var k := InsertPos(x, s, key);
    s[..k] + [x] + s[k..]
  }

  /** Stable sort by descending key. The first element is inserted into the
      sorted rest in front of every element with an equal key, which is what
      keeps equal keys in input order. */
  function SortDesc<T>(xs: seq<T>, key: T -> real): seq<T>
  {
    if |xs| == 0 then [] else Insert(xs[0], SortDesc(xs[1..], key), key)
  }

  lemma InsertPermutes<T>(x: T, s: seq<T>, key: T -> real)
    ensures multiset(Insert(x, s, key)) == multiset(s) + multiset{x}
    ensures |Insert(x, s, key)| == |s| + 1
  {
    var k := InsertPos(x, s, key);
    assert s == s[..k] + s[k..];
  }

  /** The sort returns a permutation of its input. */
  lemma {:induction false} SortDescPermutes<T>(xs: seq<T>, key: T -> real)
    ensures multiset(SortDesc(xs, key)) == multiset(xs)
    ensures |SortDesc(xs, key)| == |xs|
  {
    if |xs| > 0 {
      SortDescPermutes(xs[1..], key);
      InsertPermutes(xs[0], SortDesc(xs[1..], key), key);
      assert xs == [xs[0]] + xs[1..];
    }
  }

  lemma SortDescMember<T>(xs: seq<T>, key: T -> real, y: T)
    ensures y in SortDesc(xs, key) <==> y in xs
  {
    SortDescPermutes(xs, key);
    assert y in SortDesc(xs, key) <==> y in multiset(SortDesc(xs, key));
    assert y in xs <==> y in multiset(xs);
  }

  /** `r` is `s` with `x` inserted at position `k`. */
  ghost predicate InsertedAt<T>(x: T, s: seq<T>, r: seq<T>, k: nat)
  {
    k <= |s| && |r| == |s| + 1 && r[k] == x
    && (forall i :: 0 <= i < k ==> r[i] == s[i])
    && (forall i :: k < i < |r| ==> r[i] == s[i - 1])
  }

  lemma InsertShape<T>(x: T, s: seq<T>, key: T -> real)
    ensures InsertedAt(x, s, Insert(x, s, key), InsertPos(x, s, key))
  {
  }

  /** Inserting `x` in front of the first element whose key is not above its
      own keeps a descending sequence descending. */
  lemma InsertedSorted<T>(x: T, s: seq<T>, r: seq<T>, k: nat, key: T -> real)
    requires SortedDesc(s, key) && InsertedAt(x, s, r, k)
    requires forall i :: 0 <= i < k ==> key(s[i]) > key(x)
    requires k < |s| ==> key(s[k]) <= key(x)
    ensures SortedDesc(r, key)
  {
    forall i, j | 0 <= i < j < |r| ensures key(r[i]) >= key(r[j]) {
      if i == k && j - 1 > k {
        assert key(s[k]) >= key(s[j - 1]);
      }
    }
  }

  lemma InsertSorted<T>(x: T, s: seq<T>, key: T -> real)
    requires SortedDesc(s, key)
    ensures SortedDesc(Insert(x, s, key), key)
  {
    InsertShape(x, s, key);
    InsertedSorted(x, s, Insert(x, s, key), InsertPos(x, s, key), key);
  }

  /** The sort's output is ordered by non-increasing key. */
  lemma {:induction false} SortDescSorted<T>(xs: seq<T>, key: T -> real)
    ensures SortedDesc(SortDesc(xs, key), key)
  {
    if |xs| > 0 {
      SortDescSorted(xs[1..], key);
      InsertSorted(xs[0], SortDesc(xs[1..], key), key);
    }
  }

  /** Taking the first `m` elements of the sort is an exact top-`m`: no
      element left out has a key above the last one taken. */
  lemma SortDescTop<T>(xs: seq<T>, key: T -> real, m: nat)
    requires 0 < m <= |xs|
    ensures |SortDesc(xs, key)| == |xs|
    ensures forall y :: y in xs && y !in SortDesc(xs, key)[..m] ==> key(y) <= key(SortDesc(xs, key)[m - 1])
  {
    SortDescPermutes(xs, key);
    SortDescSorted(xs, key);
    var sorted := SortDesc(xs, key);
    forall y | y in xs && y !in sorted[..m] ensures key(y) <= key(sorted[m - 1]) {
      SortDescMember(xs, key, y);
      var i :| 0 <= i < |sorted| && sorted[i] == y;
    }
  }

  lemma InsertedSortedThenId<T>(x: T, s: seq<T>, r: seq<T>, k: nat, key: T -> real, id: T -> int)
    requires SortedDescThenId(s, key, id) && InsertedAt(x, s, r, k)
    requires forall i :: 0 <= i < k ==> key(s[i]) > key(x)
    requires k < |s| ==> key(s[k]) <= key(x)
    requires forall y :: y in s ==> id(x) < id(y)
    ensures SortedDescThenId(r, key, id)
  {
    forall i, j | 0 <= i < j < |r|
      ensures key(r[i]) > key(r[j]) || (key(r[i]) == key(r[j]) && id(r[i]) < id(r[j]))
    {
      if i == k {
        assert s[j - 1] in s;
        if j - 1 > k {
          assert key(s[k]) >= key(s[j - 1]);
        }
      }
    }
  }

  lemma InsertSortedThenId<T>(x: T, s: seq<T>, key: T -> real, id: T -> int)
    requires SortedDescThenId(s, key, id)
    requires forall y :: y in s ==> id(x) < id(y)
    ensures SortedDescThenId(Insert(x, s, key), key, id)
  {
    InsertShape(x, s, key);
    InsertedSortedThenId(x, s, Insert(x, s, key), InsertPos(x, s, key), key, id);
  }

  /** Stability: when the input is in increasing `id` order, elements with equal
      keys come out in increasing `id` order too. */
  lemma {:induction false} SortDescStable<T>(xs: seq<T>, key: T -> real, id: T -> int)
    requires IncreasingId(xs, id)
    ensures SortedDescThenId(SortDesc(xs, key), key, id)
  {
    if |xs| > 0 {
      var rest := xs[1..];
      assert IncreasingId(rest, id);
      SortDescStable(rest, key, id);
      forall y | y in SortDesc(rest, key) ensures id(xs[0]) < id(y) {
        SortDescMember(rest, key, y);
        var j :| 0 <= j < |rest| && rest[j] == y;
        assert xs[j + 1] == y;
      }
      InsertSortedThenId(xs[0], SortDesc(rest, key), key, id);
    }
  }

  lemma InsertedDistinct<T, K>(x: T, s: seq<T>, r: seq<T>, k: nat, g: T -> K)
    requires DistinctBy(s, g) && InsertedAt(x, s, r, k)
    requires forall y :: y in s ==> g(y) != g(x)
    ensures DistinctBy(r, g)
  {
    forall i, j | 0 <= i < j < |r| ensures g(r[i]) != g(r[j]) {
      if i == k {
        assert s[j - 1] in s;
      } else if j == k {
        assert s[i] in s;
      }
    }
  }

  lemma InsertDistinct<T, K>(x: T, s: seq<T>, key: T -> real, g: T -> K)
    requires DistinctBy(s, g)
    requires forall y :: y in s ==> g(y) != g(x)
    ensures DistinctBy(Insert(x, s, key), g)
  {
    InsertShape(x, s, key);
    InsertedDistinct(x, s, Insert(x, s, key), InsertPos(x, s, key), g);
  }

  /** Sorting keeps a projection that is distinct across the input distinct. */
  lemma {:induction false} SortDescDistinct<T, K>(xs: seq<T>, key: T -> real, g: T -> K)
    requires DistinctBy(xs, g)
    ensures DistinctBy(SortDesc(xs, key), g)
  {
    if |xs| > 0 {
      var rest := xs[1..];
      assert DistinctBy(rest, g);
      SortDescDistinct(rest, key, g);
      forall y | y in SortDesc(rest, key) ensures g(y) != g(xs[0]) {
        SortDescMember(rest, key, y);
        var j :| 0 <= j < |rest| && rest[j] == y;
        assert xs[j + 1] == y;
      }
      InsertDistinct(xs[0], SortDesc(rest, key), key, g);
    }
  }
}
