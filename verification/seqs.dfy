/** Filtering and counting over sequences, the shape of JavaScript's `filter(...).length`. */
module Seqs {

  /** `s.filter(p)`: the elements satisfying `p`, in their original order. */
  function Filter<T>(s: seq<T>, p: T -> bool): (r: seq<T>)
    ensures |r| <= |s|
    ensures forall x :: x in r ==> x in s && p(x)
    ensures forall x :: x in s && p(x) ==> x in r
  {
    if s == [] then []
    else if p(s[0]) then [s[0]] + Filter(s[1..], p)
    else Filter(s[1..], p)
  }

  /** Filtering distributes over concatenation. */
  lemma {:induction false} FilterAppend<T>(a: seq<T>, b: seq<T>, p: T -> bool)
    ensures Filter(a + b, p) == Filter(a, p) + Filter(b, p)
  {
    if a == [] {
      assert a + b == b;
    } else {
      var ab := a + b;
      assert ab[0] == a[0] && ab[1..] == a[1..] + b;
      FilterAppend(a[1..], b, p);
      if p(a[0]) {
        assert Filter(ab, p) == [a[0]] + (Filter(a[1..], p) + Filter(b, p));
        assert [a[0]] + (Filter(a[1..], p) + Filter(b, p)) == ([a[0]] + Filter(a[1..], p)) + Filter(b, p);
      }
    }
  }

  /** `s.filter(p).length`. */
  function Count<T>(s: seq<T>, p: T -> bool): nat {
    |Filter(s, p)|
  }

  /** One more element on the end counts once more exactly when it satisfies `p`. */
  lemma CountSnoc<T>(s: seq<T>, x: T, p: T -> bool)
    ensures Count(s + [x], p) == Count(s, p) + (if p(x) then 1 else 0)
  {
    FilterAppend(s, [x], p);
  }

  /** A filter whose predicate every element satisfies keeps the whole sequence. */
  lemma {:induction false} FilterAll<T>(s: seq<T>, p: T -> bool)
    requires forall i :: 0 <= i < |s| ==> p(s[i])
    ensures Filter(s, p) == s
  {
    if s != [] {
      FilterAll(s[1..], p);
    }
  }

  /** A filter nothing passes gives the empty sequence. */
  lemma {:induction false} FilterNone<T>(s: seq<T>, p: T -> bool)
    requires forall i :: 0 <= i < |s| ==> !p(s[i])
    ensures Filter(s, p) == []
  {
    if s != [] {
      FilterNone(s[1..], p);
    }
  }

  /** A stronger filter keeps no more than a weaker one. */
  lemma {:induction false} CountMono<T>(s: seq<T>, p: T -> bool, q: T -> bool)
    requires forall i :: 0 <= i < |s| && p(s[i]) ==> q(s[i])
    ensures Count(s, p) <= Count(s, q)
  {
    if s != [] {
      CountMono(s[1..], p, q);
    }
  }

  /**
   * Three mutually exclusive predicates together count at most every element
   * once, and exactly once when every element satisfies one of them.
   */
  lemma {:induction false} CountPartition<T>(s: seq<T>, p: T -> bool, q: T -> bool, r: T -> bool)
    requires forall i :: 0 <= i < |s| ==> !(p(s[i]) && q(s[i])) && !(p(s[i]) && r(s[i])) && !(q(s[i]) && r(s[i]))
    ensures Count(s, p) + Count(s, q) + Count(s, r) <= |s|
    ensures (forall i :: 0 <= i < |s| ==> p(s[i]) || q(s[i]) || r(s[i]))
            ==> Count(s, p) + Count(s, q) + Count(s, r) == |s|
  {
    if s != [] {
      CountPartition(s[1..], p, q, r);
    }
  }

  /** An element passes a filter or its complement, never both. */
  lemma {:induction false} CountComplement<T>(s: seq<T>, p: T -> bool, q: T -> bool)
    requires forall x :: q(x) <==> !p(x)
    ensures Count(s, p) + Count(s, q) == |s|
  {
    if s != [] {
      CountComplement(s[1..], p, q);
    }
  }

  /** Three filters that split every element exactly one way together keep each element once. */
  lemma {:induction false} FilterSplit3<T>(s: seq<T>, p: T -> bool, q: T -> bool, r: T -> bool)
    requires forall i :: 0 <= i < |s| ==> (p(s[i]) && !q(s[i]) && !r(s[i])) || (!p(s[i]) && q(s[i]) && !r(s[i])) || (!p(s[i]) && !q(s[i]) && r(s[i]))
    ensures multiset(Filter(s, p)) + multiset(Filter(s, q)) + multiset(Filter(s, r)) == multiset(s)
  {
    if s != [] {
      FilterSplit3(s[1..], p, q, r);
      assert s == [s[0]] + s[1..];
    }
  }

  /** Two sequences with the same multiset of elements have the same members. */
  lemma SameMembers<T>(a: seq<T>, b: seq<T>)
    requires multiset(a) == multiset(b)
    ensures forall x :: x in a <==> x in b
  {
    forall x
      ensures x in a <==> x in b
    {
      assert x in a <==> x in multiset(a);
    }
  }

  /** The elements whose key is `k`. */
  function KeyIs<T>(key: T -> nat, k: nat): T -> bool {
    (x: T) => key(x) == k
  }

  /**
   * The stable sort by a key from 1 to 4: the elements with key 1 in their
   * order, then those with key 2, 3 and 4. It is a permutation, it is
   * ordered by key, and it keeps the order of the elements sharing a key.
   */
  function SortByKey<T>(s: seq<T>, key: T -> nat): (r: seq<T>)
    requires forall i :: 0 <= i < |s| ==> 1 <= key(s[i]) <= 4
    ensures multiset(r) == multiset(s)
    ensures forall i, j :: 0 <= i < j < |r| ==> key(r[i]) <= key(r[j])
    ensures forall k :: Filter(r, KeyIs(key, k)) == Filter(s, KeyIs(key, k))
  {
    BucketsKeepElements(s, key);
    BucketsAreOrdered(s, key);
    BucketsAreStable(s, key);
    Filter(s, KeyIs(key, 1)) + Filter(s, KeyIs(key, 2)) + Filter(s, KeyIs(key, 3)) + Filter(s, KeyIs(key, 4))
  }

  lemma {:induction false} BucketsKeepElements<T>(s: seq<T>, key: T -> nat)
    requires forall i :: 0 <= i < |s| ==> 1 <= key(s[i]) <= 4
    ensures multiset(Filter(s, KeyIs(key, 1)) + Filter(s, KeyIs(key, 2)) + Filter(s, KeyIs(key, 3)) + Filter(s, KeyIs(key, 4)))
            == multiset(s)
  {
    if s != [] {
      var x, t := s[0], s[1..];
      BucketsKeepElements(t, key);
      assert s == [x] + t;
      BucketOfCons(x, t, key, 1);
      BucketOfCons(x, t, key, 2);
      BucketOfCons(x, t, key, 3);
      BucketOfCons(x, t, key, 4);
    }
  }

  lemma BucketOfCons<T>(x: T, t: seq<T>, key: T -> nat, k: nat)
    ensures multiset(Filter([x] + t, KeyIs(key, k)))
            == multiset(Filter(t, KeyIs(key, k))) + (if key(x) == k then multiset{x} else multiset{})
  {
    assert ([x] + t)[0] == x && ([x] + t)[1..] == t;
  }

  lemma BucketsAreOrdered<T>(s: seq<T>, key: T -> nat)
    ensures var r := Filter(s, KeyIs(key, 1)) + Filter(s, KeyIs(key, 2)) + Filter(s, KeyIs(key, 3)) + Filter(s, KeyIs(key, 4));
            forall i, j :: 0 <= i < j < |r| ==> key(r[i]) <= key(r[j])
  {
    var a, b, c, d := Filter(s, KeyIs(key, 1)), Filter(s, KeyIs(key, 2)), Filter(s, KeyIs(key, 3)), Filter(s, KeyIs(key, 4));
    var r := a + b + c + d;
    forall i | 0 <= i < |r|
      ensures key(r[i]) == if i < |a| then 1 else if i < |a| + |b| then 2 else if i < |a| + |b| + |c| then 3 else 4
    {
      if i < |a| {
        assert r[i] == a[i] && a[i] in a;
      } else if i < |a| + |b| {
        assert r[i] == b[i - |a|] && b[i - |a|] in b;
      } else if i < |a| + |b| + |c| {
        assert r[i] == c[i - |a| - |b|] && c[i - |a| - |b|] in c;
      } else {
        assert r[i] == d[i - |a| - |b| - |c|] && d[i - |a| - |b| - |c|] in d;
      }
    }
  }

  lemma BucketsAreStable<T>(s: seq<T>, key: T -> nat)
    requires forall i :: 0 <= i < |s| ==> 1 <= key(s[i]) <= 4
    ensures var r := Filter(s, KeyIs(key, 1)) + Filter(s, KeyIs(key, 2)) + Filter(s, KeyIs(key, 3)) + Filter(s, KeyIs(key, 4));
            forall k :: Filter(r, KeyIs(key, k)) == Filter(s, KeyIs(key, k))
  {
    forall k
      ensures Filter(Filter(s, KeyIs(key, 1)) + Filter(s, KeyIs(key, 2)) + Filter(s, KeyIs(key, 3)) + Filter(s, KeyIs(key, 4)), KeyIs(key, k))
              == Filter(s, KeyIs(key, k))
    {
      BucketsStableFor(s, key, k);
    }
  }

  lemma BucketsStableFor<T>(s: seq<T>, key: T -> nat, k: nat)
    requires forall i :: 0 <= i < |s| ==> 1 <= key(s[i]) <= 4
    ensures Filter(Filter(s, KeyIs(key, 1)) + Filter(s, KeyIs(key, 2)) + Filter(s, KeyIs(key, 3)) + Filter(s, KeyIs(key, 4)), KeyIs(key, k))
            == Filter(s, KeyIs(key, k))
  {
    var a, b, c, d := Filter(s, KeyIs(key, 1)), Filter(s, KeyIs(key, 2)), Filter(s, KeyIs(key, 3)), Filter(s, KeyIs(key, 4));
    var p := KeyIs(key, k);
    FilterAppend(a + b + c, d, p);
    FilterAppend(a + b, c, p);
    FilterAppend(a, b, p);
    var fa, fb, fc, fd := Filter(a, p), Filter(b, p), Filter(c, p), Filter(d, p);
    assert Filter(a + b + c + d, p) == fa + fb + fc + fd;
    BucketRefiltered(s, key, 1, k);
    BucketRefiltered(s, key, 2, k);
    BucketRefiltered(s, key, 3, k);
    BucketRefiltered(s, key, 4, k);
    if k == 1 {
      assert fa == a && fb == [] && fc == [] && fd == [];
      assert fa + fb + fc + fd == a;
    } else if k == 2 {
      assert fa == [] && fb == b && fc == [] && fd == [];
      assert fa + fb + fc + fd == b;
    } else if k == 3 {
      assert fa == [] && fb == [] && fc == c && fd == [];
      assert fa + fb + fc + fd == c;
    } else if k == 4 {
      assert fa == [] && fb == [] && fc == [] && fd == d;
      assert fa + fb + fc + fd == d;
    } else {
      assert fa + fb + fc + fd == [];
      FilterNone(s, p);
    }
  }

  /** Refiltering a key's bucket keeps it whole for its own key and empties it for any other. */
  lemma BucketRefiltered<T>(s: seq<T>, key: T -> nat, k: nat, k': nat)
    ensures Filter(Filter(s, KeyIs(key, k)), KeyIs(key, k')) == if k == k' then Filter(s, KeyIs(key, k)) else []
  {
    var bucket := Filter(s, KeyIs(key, k));
    assert forall i :: 0 <= i < |bucket| ==> bucket[i] in bucket;
    if k == k' {
      FilterAll(bucket, KeyIs(key, k'));
    } else {
      FilterNone(bucket, KeyIs(key, k'));
    }
  }

  /** Two filters in a row keep what one filter by both predicates keeps. */
  lemma {:induction false} FilterTwice<T>(s: seq<T>, p: T -> bool, q: T -> bool, both: T -> bool)
    requires forall x :: both(x) <==> p(x) && q(x)
    ensures Filter(Filter(s, p), q) == Filter(s, both)
  {
    if s != [] {
      FilterTwice(s[1..], p, q, both);
    }
  }

  /** When every element satisfies `p`, `p` counts them all. */
  lemma {:induction false} CountAll<T>(s: seq<T>, p: T -> bool)
    requires forall i :: 0 <= i < |s| ==> p(s[i])
    ensures Count(s, p) == |s|
  {
    if s != [] {
      CountAll(s[1..], p);
    }
  }
}
