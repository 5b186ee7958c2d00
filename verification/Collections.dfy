/** Sequence facts shared by the models. */
module Collections {
  /** The pieces that f makes of the elements, joined in order. */
  function FlatMap<T, U>(f: T -> seq<U>, s: seq<T>): seq<U> {
    if s == [] then [] else f(s[0]) + FlatMap(f, s[1..])
  }

  lemma {:induction false} FlatMapConcat<T, U>(f: T -> seq<U>, a: seq<T>, b: seq<T>)
    ensures FlatMap(f, a + b) == FlatMap(f, a) + FlatMap(f, b)
  {
    if a == [] {
      assert a + b == b;
    } else {
      FlatMapConcat(f, a[1..], b);
      assert (a + b)[1..] == a[1..] + b;
      Regroup(f(a[0]), FlatMap(f, a[1..]), FlatMap(f, b));
    }
  }

  lemma FlatMapOne<T, U>(f: T -> seq<U>, x: T)
    ensures FlatMap(f, [x]) == f(x)
  {
    assert FlatMap(f, [x]) == f(x) + [];
  }

  lemma FlatMapSnoc<T, U>(f: T -> seq<U>, s: seq<T>, last: T)
    ensures FlatMap(f, s + [last]) == FlatMap(f, s) + f(last)
  {
    FlatMapConcat(f, s, [last]);
    FlatMapOne(f, last);
  }

  lemma Regroup<T>(a: seq<T>, b: seq<T>, c: seq<T>)
    ensures a + b + c == a + (b + c)
  {
  }

  ghost function SomeKey<K, V>(m: map<K, V>): (key: K)
    requires m != map[]
    ensures key in m
  {
    var key :| key in m; key
  }

  /** The numbers from lo up to, but not including, hi. */
  function Range(lo: nat, hi: nat): seq<nat> {
    if hi <= lo then [] else Range(lo, hi - 1) + [hi - 1]
  }

  lemma {:induction false} RangeElements(lo: nat, hi: nat)
    requires lo <= hi
    ensures |Range(lo, hi)| == hi - lo
    ensures forall i :: 0 <= i < hi - lo ==> Range(lo, hi)[i] == lo + i
  {
    if lo < hi {
      RangeElements(lo, hi - 1);
    }
  }

  lemma RangeHas(lo: nat, hi: nat, n: nat)
    requires lo <= n < hi
    ensures n in Range(lo, hi)
  {
    RangeElements(lo, hi);
    assert Range(lo, hi)[n - lo] == n;
  }

  ghost predicate Increasing(s: seq<nat>) {
    forall i, j :: 0 <= i < j < |s| ==> s[i] < s[j]
  }

  /** Every element of s is below the bound. */
  ghost predicate Below(s: seq<nat>, bound: nat) {
    forall i :: 0 <= i < |s| ==> s[i] < bound
  }

  lemma IncreasingCut(a: seq<nat>, b: seq<nat>, c: seq<nat>)
    requires Increasing(a + b + c)
    ensures Increasing(a + c)
  {
    forall i, j | 0 <= i < j < |a + c|
      ensures (a + c)[i] < (a + c)[j]
    {
      var i' := if i < |a| then i else i + |b|;
      var j' := if j < |a| then j else j + |b|;
      assert (a + c)[i] == (a + b + c)[i'] && (a + c)[j] == (a + b + c)[j'];
    }
  }

  lemma BelowCut(a: seq<nat>, b: seq<nat>, c: seq<nat>, bound: nat)
    requires Below(a + b + c, bound)
    ensures Below(a + c, bound)
  {
    forall i | 0 <= i < |a + c|
      ensures (a + c)[i] < bound
    {
      assert (a + c)[i] == (a + b + c)[if i < |a| then i else i + |b|];
    }
  }

  /** s is what remains of t after deleting elements, with positions as the witness. */
  ghost predicate PicksFrom<T>(positions: seq<nat>, s: seq<T>, t: seq<T>) {
    && |positions| == |s|
    && Increasing(positions)
    && (forall i :: 0 <= i < |s| ==> positions[i] < |t| && t[positions[i]] == s[i])
  }

  ghost predicate Subsequence<T>(s: seq<T>, t: seq<T>) {
    exists positions: seq<nat> :: PicksFrom(positions, s, t)
  }

  lemma SubsequenceGrows<T>(s: seq<T>, t: seq<T>, more: seq<T>)
    requires Subsequence(s, t)
    ensures Subsequence(s + more, t + more)
  {
    var positions :| PicksFrom(positions, s, t);
    var longer := positions + seq(|more|, i requires 0 <= i < |more| => |t| + i);
    assert PicksFrom(longer, s + more, t + more);
  }

  lemma SubsequenceCut<T>(a: seq<T>, b: seq<T>, c: seq<T>, t: seq<T>)
    requires Subsequence(a + b + c, t)
    ensures Subsequence(a + c, t)
  {
    var positions :| PicksFrom(positions, a + b + c, t);
    var fewer := positions[..|a|] + positions[|a + b|..];
    forall i | 0 <= i < |a + c|
      ensures fewer[i] < |t| && t[fewer[i]] == (a + c)[i]
    {
      var i' := if i < |a| then i else i + |b|;
      assert fewer[i] == positions[i'] && (a + c)[i] == (a + b + c)[i'];
    }
    assert PicksFrom(fewer, a + c, t);
  }

  /** A subsequence holds nothing more often than the whole. */
  lemma {:induction false} SubsequenceCounts<T>(s: seq<T>, t: seq<T>)
    requires Subsequence(s, t)
    ensures multiset(s) <= multiset(t)
  {
    if s != [] {
      var positions :| PicksFrom(positions, s, t);
      var n := |s| - 1;
      var p := positions[n];
      assert PicksFrom(positions[..n], s[..n], t[..p]);
      SubsequenceCounts(s[..n], t[..p]);
      assert s == s[..n] + [s[n]] && t == t[..p] + [s[n]] + t[p + 1..];
      hide *;
      CountsGrow(s[..n], s[n], t[..p], t[p + 1..]);
    }
  }

  lemma CountsGrow<T>(s: seq<T>, x: T, t: seq<T>, rest: seq<T>)
    requires multiset(s) <= multiset(t)
    ensures multiset(s + [x]) <= multiset(t + [x] + rest)
  {
  }

  /** In a range of consecutive numbers every number occurs exactly once. */
  lemma {:induction false} RangeCount(lo: nat, hi: nat, n: nat)
    ensures multiset(Range(lo, hi))[n] == if lo <= n < hi then 1 else 0
  {
    if lo < hi {
      RangeCount(lo, hi - 1, n);
      CountSnoc(Range(lo, hi - 1), hi - 1, Range(lo, hi), n);
    } else {
      CountNone(Range(lo, hi), n);
    }
  }

  lemma CountSnoc(s: seq<nat>, last: nat, all: seq<nat>, n: nat)
    requires all == s + [last]
    ensures multiset(all)[n] == multiset(s)[n] + if last == n then 1 else 0
  {
  }

  lemma CountNone(s: seq<nat>, n: nat)
    requires s == []
    ensures multiset(s)[n] == 0
  {
  }
}
