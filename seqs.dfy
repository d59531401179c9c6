/** `Array.prototype.filter` and the facts about it that the pages rely on. */
module Seqs {

  /** The elements of `s` that `keep` accepts, in their original order. */
  function Filter<T>(s: seq<T>, keep: T -> bool): (r: seq<T>)
    ensures |r| <= |s|
    ensures forall i :: 0 <= i < |r| ==> r[i] in s && keep(r[i])
    ensures forall i :: 0 <= i < |s| && keep(s[i]) ==> s[i] in r
  {
    if s == [] then []
    else (if keep(s[0]) then [s[0]] else []) + Filter(s[1..], keep)
  }

  /** Filtering distributes over concatenation: relative order is kept. */
  lemma {:induction false} FilterAppend<T>(a: seq<T>, b: seq<T>, keep: T -> bool)
    ensures Filter(a + b, keep) == Filter(a, keep) + Filter(b, keep)
  {
    if a == [] {
      assert a + b == b;
    } else {
      assert (a + b)[1..] == a[1..] + b;
      FilterAppend(a[1..], b, keep);
    }
  }

  /** A filter that accepts everything returns its input unchanged. */
  lemma {:induction false} FilterKeepsAll<T>(s: seq<T>, keep: T -> bool)
    requires forall x :: x in s ==> keep(x)
    ensures Filter(s, keep) == s
  {
    if s != [] {
      FilterKeepsAll(s[1..], keep);
    }
  }

  /** A filter that accepts nothing in `s` returns the empty sequence. */
  lemma FilterDropsAll<T>(s: seq<T>, keep: T -> bool)
    requires forall x :: x in s ==> !keep(x)
    ensures Filter(s, keep) == []
  {
  }

  /** Filtering twice is filtering once by the conjunction. */
  lemma {:induction false} FilterCompose<T>(s: seq<T>, p: T -> bool, q: T -> bool, pq: T -> bool)
    requires forall x :: pq(x) == (p(x) && q(x))
    ensures Filter(Filter(s, p), q) == Filter(s, pq)
  {
    if s != [] {
      FilterCompose(s[1..], p, q, pq);
      if p(s[0]) {
        assert Filter(s, p) == [s[0]] + Filter(s[1..], p);
        assert ([s[0]] + Filter(s[1..], p))[1..] == Filter(s[1..], p);
      } else {
        assert Filter(s, p) == Filter(s[1..], p);
      }
    }
  }

  /** A predicate and its negation split a sequence: the two counts add up. */
  lemma {:induction false} FilterSplitCount<T>(s: seq<T>, p: T -> bool, notP: T -> bool)
    requires forall x :: notP(x) == !p(x)
    ensures |Filter(s, p)| + |Filter(s, notP)| == |s|
  {
    if s != [] {
      FilterSplitCount(s[1..], p, notP);
    }
  }

  /** The one-element filter: `[x]` when `keep` accepts it, `[]` otherwise. */
  function Kept<T>(x: T, keep: T -> bool): seq<T>
  {
    if keep(x) then [x] else []
  }

  /** Filtering a non-empty sequence looks at its head and then its tail. */
  lemma FilterStep<T>(s: seq<T>, keep: T -> bool)
    requires s != []
    ensures Filter(s, keep) == Kept(s[0], keep) + Filter(s[1..], keep)
  {
  }

  /** Filtering a suffix looks at its first element and then the rest. */
  lemma FilterFrom<T>(s: seq<T>, k: int, keep: T -> bool)
    requires 0 <= k < |s|
    ensures Filter(s[k..], keep) == Kept(s[k], keep) + Filter(s[k + 1..], keep)
  {
    assert s[k..][1..] == s[k + 1..];
    FilterStep(s[k..], keep);
  }

  /** Filtering a six-element sequence, element by element. */
  lemma {:induction false} FilterOfSix<T>(s: seq<T>, keep: T -> bool)
    requires |s| == 6
    ensures Filter(s, keep) ==
              Kept(s[0], keep) + (Kept(s[1], keep) + (Kept(s[2], keep) + (Kept(s[3], keep) + (Kept(s[4], keep) + Kept(s[5], keep)))))
  {
    assert Filter(s[6..], keep) == [];
    FilterFrom(s, 5, keep);
    var f5 := Filter(s[5..], keep);
    assert f5 == Kept(s[5], keep);
    FilterFrom(s, 4, keep);
    var f4 := Filter(s[4..], keep);
    assert f4 == Kept(s[4], keep) + f5;
    FilterFrom(s, 3, keep);
    var f3 := Filter(s[3..], keep);
    assert f3 == Kept(s[3], keep) + f4;
    FilterFrom(s, 2, keep);
    var f2 := Filter(s[2..], keep);
    assert f2 == Kept(s[2], keep) + f3;
    FilterFrom(s, 1, keep);
    var f1 := Filter(s[1..], keep);
    assert f1 == Kept(s[1], keep) + f2;
    FilterFrom(s, 0, keep);
    assert s[0..] == s;
  }


  /** Filtering keeps a key that tells the elements apart distinct. */
  lemma {:induction false} FilterKeepsKeysDistinct<T, K>(s: seq<T>, keep: T -> bool, key: T -> K)
    requires forall i, j :: 0 <= i < j < |s| ==> key(s[i]) != key(s[j])
    ensures var r := Filter(s, keep); forall i, j :: 0 <= i < j < |r| ==> key(r[i]) != key(r[j])
  {
    if s != [] {
      FilterKeepsKeysDistinct(s[1..], keep, key);
      FilterStep(s, keep);
      var t := Filter(s[1..], keep);
      forall j | 0 <= j < |t| ensures key(t[j]) != key(s[0]) {
        var k :| 0 <= k < |s[1..]| && s[1..][k] == t[j];
        assert s[k + 1] == t[j];
      }
    }
  }
}
