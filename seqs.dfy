/**
 * Order-preserving filters, subsequences and a comparator-driven sort:
 * the stand-ins for Swift's `filter`, `removeAll(where:)` and `sort(by:)`
 * on arrays.
 */
module Seqs {
  import opened Wrappers


  function Last<T>(s: seq<T>): T
    requires s != []
  {
    s[|s| - 1]
  }

  function Init<T>(s: seq<T>): seq<T>
    requires s != []
  {
    s[..|s| - 1]
  }

  /** `a` can be obtained from `b` by deleting elements: an order-preserving embedding. */
  ghost predicate IsSubseq<T>(a: seq<T>, b: seq<T>)
    decreases |b|
  {
    a == [] ||
    (b != [] &&
     ((Last(a) == Last(b) && IsSubseq(Init(a), Init(b))) || IsSubseq(a, Init(b))))
  }

  lemma {:induction false} SubseqReflexive<T>(s: seq<T>)
    ensures IsSubseq(s, s)
    decreases |s|
  {
    if s != [] {
      SubseqReflexive(Init(s));
    }
  }

  /** Deleting from what was obtained by deleting is deleting. */
  lemma {:induction false} SubseqTransitive<T>(a: seq<T>, b: seq<T>, c: seq<T>)
    requires IsSubseq(a, b) && IsSubseq(b, c)
    ensures IsSubseq(a, c)
    decreases |c|
  {
    if a != [] {
      if Last(b) == Last(c) && IsSubseq(Init(b), Init(c)) {
        if Last(a) == Last(b) && IsSubseq(Init(a), Init(b)) {
          SubseqTransitive(Init(a), Init(b), Init(c));
        } else {
          SubseqTransitive(a, Init(b), Init(c));
        }
      } else {
        SubseqTransitive(a, b, Init(c));
      }
    }
  }

  /** The elements of `s` that satisfy `p`, in order: Swift's `s.filter(p)`. */
  function Keep<T>(s: seq<T>, p: T -> bool): seq<T> {
    if s == [] then []
    else Keep(Init(s), p) + (if p(Last(s)) then [Last(s)] else [])
  }

  /**
   * A filter keeps an order-preserving subsequence of the elements that
   * satisfy `p`, every copy of each such element, and nothing else.
   */
  lemma KeepFilters<T(!new)>(s: seq<T>, p: T -> bool)
    ensures |Keep(s, p)| <= |s|
    ensures IsSubseq(Keep(s, p), s)
    ensures forall i :: 0 <= i < |Keep(s, p)| ==> p(Keep(s, p)[i])
    ensures forall x :: multiset(Keep(s, p))[x] == if p(x) then multiset(s)[x] else 0
  {
    KeepSubseq(s, p);
    KeepSatisfies(s, p);
    KeepCounts(s, p);
  }

  lemma {:induction false} KeepSubseq<T>(s: seq<T>, p: T -> bool)
    ensures |Keep(s, p)| <= |s| && IsSubseq(Keep(s, p), s)
  {
    if s != [] {
      var rest := Keep(Init(s), p);
      KeepSubseq(Init(s), p);
      if p(Last(s)) {
        var r := rest + [Last(s)];
        assert Keep(s, p) == r;
        assert Init(r) == rest && Last(r) == Last(s);
      } else {
        assert Keep(s, p) == rest;
      }
    }
  }

  lemma {:induction false} KeepSatisfies<T>(s: seq<T>, p: T -> bool)
    ensures forall i :: 0 <= i < |Keep(s, p)| ==> p(Keep(s, p)[i])
  {
    if s != [] {
      KeepSatisfies(Init(s), p);
    }
  }

  lemma {:induction false} KeepCounts<T(!new)>(s: seq<T>, p: T -> bool)
    ensures forall x :: multiset(Keep(s, p))[x] == if p(x) then multiset(s)[x] else 0
  {
    if s != [] {
      KeepCounts(Init(s), p);
      assert s == Init(s) + [Last(s)];
    }
  }

  /** A filter that every element passes keeps everything. */
  lemma {:induction false} KeepAll<T>(s: seq<T>, p: T -> bool)
    requires forall x | x in s :: p(x)
    ensures Keep(s, p) == s
  {
    if s != [] {
      KeepAll(Init(s), p);
      assert s == Init(s) + [Last(s)];
    }
  }

  /** Keeping along a growing prefix appends at most the new element. */
  lemma KeepSnoc<T>(s: seq<T>, x: T, p: T -> bool)
    ensures Keep(s + [x], p) == Keep(s, p) + (if p(x) then [x] else [])
  {
    assert Init(s + [x]) == s;
  }

  lemma KeepMember<T(!new)>(s: seq<T>, p: T -> bool, x: T)
    ensures x in Keep(s, p) <==> x in s && p(x)
  {
    KeepFilters(s, p);
    var r := Keep(s, p);
    if p(x) {
      assert multiset(r)[x] == multiset(s)[x];
    } else {
      assert multiset(r)[x] == 0;
    }
  }

  /** The first index whose element satisfies `p`: Swift's `firstIndex(where:)`. */
  function FirstIndexWhere<T>(s: seq<T>, p: T -> bool): (r: Option<nat>)
    ensures r.Some? ==> r.value < |s| && p(s[r.value]) && forall j :: 0 <= j < r.value ==> !p(s[j])
    ensures r.None? ==> forall j :: 0 <= j < |s| ==> !p(s[j])
  {
    if s == [] then None
    else if p(s[0]) then Some(0)
    else match FirstIndexWhere(s[1..], p)
      case None => None
      case Some(k) => Some(k + 1)
  }

  /** No value occurs twice. */
  predicate Distinct<T(==)>(s: seq<T>) {
    forall i, j :: 0 <= i < j < |s| ==> s[i] != s[j]
  }

  /** Two duplicate-free sequences with no element in common join into a duplicate-free one. */
  lemma DistinctJoin<T>(a: seq<T>, b: seq<T>)
    requires Distinct(a) && Distinct(b)
    requires forall k | 0 <= k < |b| :: b[k] !in a
    ensures Distinct(a + b)
  {
    var ab := a + b;
    forall i, j | 0 <= i < j < |ab| ensures ab[i] != ab[j] {
      if i < |a| <= j {
        assert ab[i] in a && ab[j] == b[j - |a|];
      }
    }
  }

  lemma {:induction false} DistinctCountAtMostOne<T>(s: seq<T>, x: T)
    requires Distinct(s)
    ensures multiset(s)[x] <= 1
  {
    if s != [] {
      assert s == Init(s) + [Last(s)];
      DistinctCountAtMostOne(Init(s), x);
      if Last(s) == x {
        assert x !in Init(s);
      }
    }
  }

  lemma RepeatedCountsTwice<T>(s: seq<T>, i: nat, j: nat)
    requires i < j < |s| && s[i] == s[j]
    ensures multiset(s)[s[i]] >= 2
  {
    assert s == s[..i] + [s[i]] + s[i + 1..j] + [s[j]] + s[j + 1..];
  }

  /** A permutation of a duplicate-free sequence is duplicate-free. */
  lemma DistinctPermutation<T>(a: seq<T>, b: seq<T>)
    requires multiset(a) == multiset(b) && Distinct(a)
    ensures Distinct(b)
  {
    forall i, j | 0 <= i < j < |b| ensures b[i] != b[j] {
      if b[i] == b[j] {
        RepeatedCountsTwice(b, i, j);
        DistinctCountAtMostOne(a, b[i]);
      }
    }
  }

  /** `less` is irreflexive and transitive on the elements of `s`: a strict partial order there. */
  ghost predicate StrictOrderOn<T(!new)>(less: (T, T) -> bool, s: seq<T>) {
    (forall x | x in s :: !less(x, x)) &&
    (forall x, y, z | x in s && y in s && z in s && less(x, y) && less(y, z) :: less(x, z))
  }

  /** No element is `less` than one before it. */
  ghost predicate SortedBy<T>(s: seq<T>, less: (T, T) -> bool) {
    forall i, j | 0 <= i < j < |s| :: !less(s[j], s[i])
  }

  /**
   * Sorts `s` with the comparator `less`, as Swift's `sort(by:)`. The result is
   * always a permutation; it is sorted whenever `less` is a strict order on
   * the elements (for any other comparator Swift promises no particular order).
   */
  method SortBy<T(!new)>(s: seq<T>, less: (T, T) -> bool) returns (r: seq<T>)
    ensures multiset(r) == multiset(s)
    ensures StrictOrderOn(less, s) ==> SortedBy(r, less)
  {
    r := [];
    for i := 0 to |s|
      invariant multiset(r) == multiset(s[..i])
      invariant StrictOrderOn(less, s) ==> SortedBy(r, less)
    {
      assert s[..i + 1] == s[..i] + [s[i]];
      forall y | y in r ensures y in s {
        assert y in multiset(s[..i]);
      }
      r := Insert(r, s[i], less, s);
    }
    assert s[..|s|] == s;
  }

  /** Inserts `x` before the first element it is `less` than. */
  method Insert<T(!new)>(r: seq<T>, x: T, less: (T, T) -> bool, ghost s: seq<T>) returns (t: seq<T>)
    requires x in s && forall y | y in r :: y in s
    requires StrictOrderOn(less, s) ==> SortedBy(r, less)
    ensures multiset(t) == multiset(r) + multiset{x}
    ensures StrictOrderOn(less, s) ==> SortedBy(t, less)
  {
    var k := 0;
    while k < |r| && !less(x, r[k])
      invariant 0 <= k <= |r|
      invariant forall j :: 0 <= j < k ==> !less(x, r[j])
    {
      k := k + 1;
    }
    assert r == r[..k] + r[k..];
    t := r[..k] + [x] + r[k..];
    if StrictOrderOn(less, s) {
      InsertKeepsSorted(r, k, x, less, s);
    }
  }

  lemma InsertKeepsSorted<T(!new)>(r: seq<T>, k: nat, x: T, less: (T, T) -> bool, s: seq<T>)
    requires k <= |r|
    requires StrictOrderOn(less, s) && x in s && forall y | y in r :: y in s
    requires SortedBy(r, less)
    requires forall j :: 0 <= j < k ==> !less(x, r[j])
    requires k < |r| ==> less(x, r[k])
    ensures SortedBy(r[..k] + [x] + r[k..], less)
  {
    var t := r[..k] + [x] + r[k..];
    forall i, j | 0 <= i < j < |t| ensures !less(t[j], t[i]) {
      if i < k && j == k {
      } else if i == k && j > k {
        var y := r[j - 1];
        assert r[k] in s && y in s;
        assert !less(r[k], r[k]);
        assert j - 1 > k ==> !less(y, r[k]);
      } else if i < k && j > k {
        assert t[i] == r[i] && t[j] == r[j - 1];
      } else if j < k {
        assert t[i] == r[i] && t[j] == r[j];
      } else {
        assert t[i] == r[i - 1] && t[j] == r[j - 1];
      }
    }
  }
}
