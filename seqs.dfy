// Sequence helpers standing in for JavaScript's `Array.prototype.filter`,
// `includes` and spread concatenation, with the facts the model needs about them.
module Seqs {

  /** `s.filter(keep)`: the elements satisfying `keep`, in their original order. */
  function Filter<T(==,!new)>(s: seq<T>, keep: T -> bool): (r: seq<T>)
    ensures |r| <= |s|
    ensures forall x :: x in r <==> x in s && keep(x)
  {
    if |s| == 0 then []
    else if keep(s[0]) then [s[0]] + Filter(s[1..], keep)
    else Filter(s[1..], keep)
  }

  /** `r` is obtained from `s` by deleting elements; the survivors keep their order. */
  predicate IsSubsequence<T(==)>(r: seq<T>, s: seq<T>)
    decreases |s|
  {
    if |r| == 0 then true
    else if |s| == 0 then false
    else if r[0] == s[0] then IsSubsequence(r[1..], s[1..])
    else IsSubsequence(r, s[1..])
  }

  predicate NoDuplicates<T(==)>(s: seq<T>)
  {
    forall i, j :: 0 <= i < j < |s| ==> s[i] != s[j]
  }

  /** Concatenation of a sequence of sequences (`[].concat(...buckets)`). */
  function Flatten<T>(ss: seq<seq<T>>): seq<T>
  {
    if |ss| == 0 then [] else ss[0] + Flatten(ss[1..])
  }

  lemma {:induction false} FilterIsSubsequence<T(!new)>(s: seq<T>, keep: T -> bool)
    ensures IsSubsequence(Filter(s, keep), s)
    decreases |s|
  {
    if |s| > 0 {
      FilterIsSubsequence(s[1..], keep);
      if !keep(s[0]) {
        SubsequenceOfTail(Filter(s[1..], keep), s);
      }
    }
  }

  /** Every subsequence of the tail of `s` is a subsequence of `s`. */
  lemma {:induction false} SubsequenceOfTail<T>(r: seq<T>, s: seq<T>)
    requires |s| > 0 && IsSubsequence(r, s[1..])
    ensures IsSubsequence(r, s)
    decreases |s|, |r|
  {
    if |r| > 0 && r[0] == s[0] {
      SubsequenceDropHead(r, s[1..]);
    }
  }

  /** A subsequence stays one after its first element is removed. */
  lemma {:induction false} SubsequenceDropHead<T>(r: seq<T>, s: seq<T>)
    requires |r| > 0 && IsSubsequence(r, s)
    ensures IsSubsequence(r[1..], s)
    decreases |s|, |r|
  {
    if r[0] == s[0] {
      SubsequenceOfTail(r[1..], s);
    } else {
      SubsequenceDropHead(r, s[1..]);
      SubsequenceOfTail(r[1..], s);
    }
  }

  /** A subsequence of a subsequence of `c` is a subsequence of `c`. */
  lemma {:induction false} SubsequenceTrans<T>(a: seq<T>, b: seq<T>, c: seq<T>)
    requires IsSubsequence(a, b) && IsSubsequence(b, c)
    ensures IsSubsequence(a, c)
    decreases |c|
  {
    if |a| > 0 {
      if b[0] == c[0] {
        if a[0] == b[0] {
          SubsequenceTrans(a[1..], b[1..], c[1..]);
        } else {
          SubsequenceTrans(a, b[1..], c[1..]);
          SubsequenceOfTail(a, c);
        }
      } else {
        SubsequenceTrans(a, b, c[1..]);
        SubsequenceOfTail(a, c);
      }
    }
  }

  lemma {:induction false} FilterConcat<T(!new)>(a: seq<T>, b: seq<T>, keep: T -> bool)
    ensures Filter(a + b, keep) == Filter(a, keep) + Filter(b, keep)
    decreases |a|
  {
    if |a| > 0 {
      assert (a + b)[1..] == a[1..] + b;
      FilterConcat(a[1..], b, keep);
    } else {
      assert a + b == b;
    }
  }

  /** Filtering twice with predicates that agree on `s` gives the same result. */
  lemma {:induction false} FilterCongruent<T(!new)>(s: seq<T>, p: T -> bool, q: T -> bool)
    requires forall x :: x in s ==> p(x) == q(x)
    ensures Filter(s, p) == Filter(s, q)
    decreases |s|
  {
    if |s| > 0 {
      assert forall x :: x in s[1..] ==> x in s;
      FilterCongruent(s[1..], p, q);
    }
  }

  /** Filtering with a predicate every element satisfies keeps everything. */
  lemma {:induction false} FilterAll<T(!new)>(s: seq<T>, keep: T -> bool)
    requires forall x :: x in s ==> keep(x)
    ensures Filter(s, keep) == s
    decreases |s|
  {
    if |s| > 0 {
      assert forall x :: x in s[1..] ==> x in s;
      FilterAll(s[1..], keep);
    }
  }

  /** Appending one element to the input appends it to the result exactly when it is kept. */
  lemma FilterSnoc<T(!new)>(s: seq<T>, x: T, keep: T -> bool)
    ensures Filter(s + [x], keep) == Filter(s, keep) + (if keep(x) then [x] else [])
  {
    FilterConcat(s, [x], keep);
    assert Filter([x], keep) == (if keep(x) then [x] else []) by {
      assert [x][1..] == [];
    }
  }

  /** Filters with disjoint predicates split the elements their union keeps. */
  lemma {:induction false} FilterDisjointUnion<T(!new)>(s: seq<T>, p: T -> bool, q: T -> bool, pq: T -> bool)
    requires forall x :: x in s ==> !(p(x) && q(x)) && pq(x) == (p(x) || q(x))
    ensures multiset(Filter(s, p)) + multiset(Filter(s, q)) == multiset(Filter(s, pq))
    decreases |s|
  {
    if |s| > 0 {
      assert forall x :: x in s[1..] ==> x in s;
      FilterDisjointUnion(s[1..], p, q, pq);
    }
  }

  /** The elements `key` maps to `k`. */
  function KeyIs<T, K(==)>(key: T -> K, k: K): T -> bool
  {
    x => key(x) == k
  }

  /** `KeyIs(key, k)` holds of exactly the elements `key` maps to `k`. */
  lemma KeyIsMeans<T, K>(key: T -> K, k: K)
    ensures forall x :: KeyIs(key, k)(x) == (key(x) == k)
  {
  }

  /** The elements `key` maps into `ks`. */
  function KeyIn<T, K(==)>(key: T -> K, ks: seq<K>): T -> bool
  {
    x => key(x) in ks
  }

  /** Flattening distributes over concatenation. */
  lemma {:induction false} FlattenConcat<T>(a: seq<seq<T>>, b: seq<seq<T>>)
    ensures Flatten(a + b) == Flatten(a) + Flatten(b)
    decreases |a|
  {
    if |a| > 0 {
      assert (a + b)[1..] == a[1..] + b;
      FlattenConcat(a[1..], b);
    } else {
      assert a + b == b;
    }
  }

  /** An element of a flattened sequence comes from one of its parts, and conversely. */
  lemma {:induction false} FlattenMember<T>(ss: seq<seq<T>>, x: T)
    ensures x in Flatten(ss) <==> exists k :: 0 <= k < |ss| && x in ss[k]
    decreases |ss|
  {
    if |ss| > 0 {
      FlattenMember(ss[1..], x);
      if x in Flatten(ss[1..]) {
        var k :| 0 <= k < |ss[1..]| && x in ss[1..][k];
        assert x in ss[k + 1];
      }
      if exists k :: 0 <= k < |ss| && x in ss[k] {
        var k :| 0 <= k < |ss| && x in ss[k];
        if k > 0 {
          assert x in ss[1..][k - 1];
        }
      }
    }
  }

  /** `s.map(f)`. */
  function Map<T, U>(s: seq<T>, f: T -> U): (r: seq<U>)
    ensures |r| == |s|
    ensures forall i :: 0 <= i < |s| ==> r[i] == f(s[i])
  {
    if |s| == 0 then [] else [f(s[0])] + Map(s[1..], f)
  }

  /** Mapping distributes over concatenation. */
  lemma {:induction false} MapConcat<T, U>(a: seq<T>, b: seq<T>, f: T -> U)
    ensures Map(a + b, f) == Map(a, f) + Map(b, f)
    decreases |a|
  {
    if |a| > 0 {
      assert (a + b)[1..] == a[1..] + b;
      MapConcat(a[1..], b, f);
    } else {
      assert a + b == b;
    }
  }

  /** Flattening the images of a sequence extended by one element appends its image. */
  lemma FlattenMapSnoc<T, U>(ss: seq<T>, x: T, f: T -> seq<U>)
    ensures Flatten(Map(ss + [x], f)) == Flatten(Map(ss, f)) + f(x)
  {
    MapConcat(ss, [x], f);
    FlattenConcat(Map(ss, f), Map([x], f));
    assert Map([x], f) == [f(x)];
    assert Flatten([f(x)]) == f(x) + Flatten([]);
  }

  /** `Map` preserves the subsequence relation. */
  lemma {:induction false} MapSubsequence<T, U>(r: seq<T>, s: seq<T>, f: T -> U)
    requires IsSubsequence(r, s)
    ensures IsSubsequence(Map(r, f), Map(s, f))
    decreases |s|
  {
    if |r| > 0 {
      assert Map(s, f)[1..] == Map(s[1..], f);
      assert Map(r, f)[1..] == Map(r[1..], f);
      if r[0] == s[0] {
        MapSubsequence(r[1..], s[1..], f);
      } else {
        MapSubsequence(r, s[1..], f);
        SubsequenceOfTail(Map(r, f), Map(s, f));
      }
    }
  }

  /** Dropping elements whose image is empty does not change the flattened images. */
  lemma {:induction false} FlattenMapFilterEmpty<T(!new), U>(s: seq<T>, keep: T -> bool, f: T -> seq<U>)
    requires forall x :: x in s && !keep(x) ==> f(x) == []
    ensures Flatten(Map(Filter(s, keep), f)) == Flatten(Map(s, f))
    decreases |s|
  {
    if |s| > 0 {
      assert forall x :: x in s[1..] ==> x in s;
      FlattenMapFilterEmpty(s[1..], keep, f);
      assert Map(s, f) == [f(s[0])] + Map(s[1..], f);
      if keep(s[0]) {
        assert Map(Filter(s, keep), f) == [f(s[0])] + Map(Filter(s[1..], keep), f);
      } else {
        assert f(s[0]) == [];
      }
    }
  }

  /** One step of building `h + flatten(map(filter(s, keep), f))` element by element:
      appending `x` to the prefix seen so far appends `f(x)` exactly when `x` is kept. */
  lemma FilterMapStep<T(!new), U>(h: seq<U>, seen: seq<T>, x: T, keep: T -> bool, f: T -> seq<U>, acc: seq<U>)
    requires acc == h + Flatten(Map(Filter(seen, keep), f))
    ensures (if keep(x) then acc + f(x) else acc) == h + Flatten(Map(Filter(seen + [x], keep), f))
  {
    FilterSnoc(seen, x, keep);
    if keep(x) {
      FilterMapKept(h, Filter(seen, keep), x, f, acc);
    } else {
      assert Filter(seen, keep) + [] == Filter(seen, keep);
      assert Filter(seen + [x], keep) == Filter(seen, keep);
    }
  }

  lemma FilterMapKept<T, U>(h: seq<U>, kept: seq<T>, x: T, f: T -> seq<U>, acc: seq<U>)
    requires acc == h + Flatten(Map(kept, f))
    ensures acc + f(x) == h + Flatten(Map(kept + [x], f))
  {
    FlattenMapSnoc(kept, x, f);
    var done := Flatten(Map(kept, f));
    hide Flatten, Map;
    assert acc + f(x) == h + (done + f(x));
  }

  /** Position of the first occurrence of `x` (`s.indexOf(x)` for a present element). */
  function IndexOf<T(==)>(s: seq<T>, x: T): (i: nat)
    requires x in s
    ensures i < |s| && s[i] == x && x !in s[..i]
  {
    if s[0] == x then 0
    else
      var j := IndexOf(s[1..], x);
      assert s[..j + 1] == [s[0]] + s[1..][..j];
      j + 1
  }

  /** The first occurrence of `x` in `s` is also its first occurrence in every longer sequence. */
  lemma {:induction false} IndexOfExtend<T>(s: seq<T>, t: seq<T>, x: T)
    requires x in s
    ensures x in s + t && IndexOf(s + t, x) == IndexOf(s, x)
    decreases |s|
  {
    if s[0] != x {
      assert (s + t)[1..] == s[1..] + t;
      IndexOfExtend(s[1..], t, x);
    }
  }

  /** An element absent from `s` is first found right after it. */
  lemma IndexOfAfter<T>(s: seq<T>, x: T)
    requires x !in s
    ensures IndexOf(s + [x], x) == |s|
  {
    var i := IndexOf(s + [x], x);
    assert (s + [x])[..|s|] == s;
  }

  /** Distinct elements of `s` in order of first occurrence (`[...new Set(s)]`). */
  function Dedup<T(==,!new)>(s: seq<T>): (r: seq<T>)
    ensures NoDuplicates(r)
    ensures forall x :: x in r <==> x in s
    decreases |s|
  {
    if |s| == 0 then []
    else
      var d := Dedup(s[..|s| - 1]);
      assert s == s[..|s| - 1] + [s[|s| - 1]];
      if s[|s| - 1] in d then d else d + [s[|s| - 1]]
  }

  /** `Dedup` lists the distinct elements in the order in which they first occur in `s`. */
  lemma {:induction false} DedupFirstOccurrence<T(!new)>(s: seq<T>)
    ensures forall i, j :: 0 <= i < j < |Dedup(s)| ==> IndexOf(s, Dedup(s)[i]) < IndexOf(s, Dedup(s)[j])
    decreases |s|
  {
    if |s| > 0 {
      var init := s[..|s| - 1];
      var x := s[|s| - 1];
      assert s == init + [x];
      DedupFirstOccurrence(init);
      var d := Dedup(init);
      forall y | y in d
        ensures IndexOf(s, y) == IndexOf(init, y) < |init|
      {
        IndexOfExtend(init, [x], y);
      }
      if x !in d {
        IndexOfAfter(init, x);
      }
    }
  }

  /** Concatenating `s` with one more element extends `Dedup` only by a new element. */
  lemma DedupSnoc<T(!new)>(s: seq<T>, x: T)
    ensures Dedup(s + [x]) == if x in Dedup(s) then Dedup(s) else Dedup(s) + [x]
  {
    assert (s + [x])[..|s + [x]| - 1] == s;
  }

  /** The buckets of `s` for the keys `ks`, in the order of `ks`. */
  function Buckets<T(==,!new), K(==)>(s: seq<T>, key: T -> K, ks: seq<K>): seq<seq<T>>
  {
    seq(|ks|, i requires 0 <= i < |ks| => Filter(s, KeyIs(key, ks[i])))
  }

  /** With distinct keys, the buckets hold between them each element whose key is listed,
      as often as it occurs in `s`. */
  lemma {:induction false} BucketsCover<T(!new), K>(s: seq<T>, key: T -> K, ks: seq<K>)
    requires NoDuplicates(ks)
    ensures multiset(Flatten(Buckets(s, key, ks))) == multiset(Filter(s, KeyIn(key, ks)))
    decreases |ks|
  {
    if |ks| == 0 {
      forall x | x in s ensures !KeyIn(key, ks)(x) {}
      FilterNone(s, KeyIn(key, ks));
    } else {
      var rest := ks[1..];
      assert NoDuplicates(rest) by {
        forall i, j | 0 <= i < j < |rest| ensures rest[i] != rest[j] {
          assert rest[i] == ks[i + 1] && rest[j] == ks[j + 1];
        }
      }
      BucketsCover(s, key, rest);
      assert Buckets(s, key, ks)[1..] == Buckets(s, key, rest);
      assert ks[0] !in rest;
      FilterDisjointUnion(s, KeyIs(key, ks[0]), KeyIn(key, rest), KeyIn(key, ks));
    }
  }

  /** Filtering with a predicate nothing satisfies gives the empty sequence. */
  lemma {:induction false} FilterNone<T(!new)>(s: seq<T>, keep: T -> bool)
    requires forall x :: x in s ==> !keep(x)
    ensures Filter(s, keep) == []
    decreases |s|
  {
    if |s| > 0 {
      assert forall x :: x in s[1..] ==> x in s;
      FilterNone(s[1..], keep);
    }
  }

  /** Grouping by key is a partition: when every key of `s` is listed once in `ks`, the
      buckets together are a rearrangement of `s`. */
  lemma BucketsPartition<T(!new), K>(s: seq<T>, key: T -> K, ks: seq<K>)
    requires NoDuplicates(ks)
    requires forall x :: x in s ==> key(x) in ks
    ensures multiset(Flatten(Buckets(s, key, ks))) == multiset(s)
  {
    BucketsCover(s, key, ks);
    FilterAll(s, KeyIn(key, ks));
  }
}
