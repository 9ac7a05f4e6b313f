/** The load generator's latency percentile: an in-place insertion sort of a copy,
    then one index. */
module Percentile {
  predicate SortedSeq(s: seq<int>) { forall i, j :: 0 <= i < j < |s| ==> s[i] <= s[j] }

  lemma SwapKeepsBag(s: seq<int>, t: seq<int>, j: nat)
    requires 0 < j < |s| == |t| && t == s[j - 1 := s[j]][j := s[j - 1]]
    ensures multiset(t) == multiset(s)
  {
    assert s == s[..j - 1] + [s[j - 1], s[j]] + s[j + 1..];
    assert t == s[..j - 1] + [s[j], s[j - 1]] + s[j + 1..];
  }

  method Swap(a: array<int>, j: nat)
    requires 0 < j < a.Length
    modifies a
    ensures a[..] == old(a[..])[j - 1 := old(a[j])][j := old(a[j - 1])]
    ensures multiset(a[..]) == multiset(old(a[..]))
  {
    ghost var s := a[..];
    a[j], a[j - 1] := a[j - 1], a[j];
    SwapKeepsBag(s, a[..], j);
  }

  predicate SortedTo(a: array<int>, n: nat)
    requires n <= a.Length
    reads a
  {
    forall i, k :: 0 <= i < k < n ==> a[i] <= a[k]
  }

  /** Move the element at `i` down to its place among the sorted ones before it. */
  method Sink(a: array<int>, i: nat)
    requires i < a.Length && SortedTo(a, i)
    modifies a
    ensures SortedTo(a, i + 1) && multiset(a[..]) == multiset(old(a[..]))
  {
    var j := i;
    while j > 0 && a[j] < a[j - 1]
      invariant 0 <= j <= i
      invariant forall k, l :: 0 <= k < l <= i && k != j && l != j ==> a[k] <= a[l]
      invariant forall l :: j < l <= i ==> a[j] <= a[l]
      invariant multiset(a[..]) == multiset(old(a[..]))
    {
      label before:
      Swap(a, j);
      assert a[j - 1] == old@before(a[j]) && a[j] == old@before(a[j - 1]);
      assert forall k :: 0 <= k < a.Length && k != j && k != j - 1 ==> a[k] == old@before(a[..])[k];
      j := j - 1;
    }
  }

  method InsertionSort(a: array<int>)
    modifies a
    ensures SortedSeq(a[..]) && multiset(a[..]) == multiset(old(a[..]))
  {
    var i := 1;
    while i < a.Length
      invariant 1 <= i
      invariant multiset(a[..]) == multiset(old(a[..]))
      invariant SortedTo(a, if i <= a.Length then i else a.Length)
    {
      Sink(a, i);
      i := i + 1;
    }
  }

  // ---- What a percentile is ----

  /** How many samples do not exceed `v`. */
  function AtMost(s: seq<int>, v: int): nat {
    if s == [] then 0 else (if s[0] <= v then 1 else 0) + AtMost(s[1..], v)
  }

  lemma {:induction false} CountsSplit(s: seq<int>, t: seq<int>, v: int)
    ensures AtMost(s + t, v) == AtMost(s, v) + AtMost(t, v)
    decreases |s|
  {
    if s == [] {
      assert s + t == t;
    } else {
      assert (s + t)[0] == s[0] && (s + t)[1..] == s[1..] + t;
      CountsSplit(s[1..], t, v);
    }
  }

  /** One element more or less. */
  lemma TakeOut(t: seq<int>, j: nat, v: int)
    requires j < |t|
    ensures multiset(t[..j] + t[j + 1..]) == multiset(t) - multiset{t[j]}
    ensures AtMost(t, v) == AtMost(t[..j] + t[j + 1..], v) + (if t[j] <= v then 1 else 0)
  {
    assert t == t[..j] + ([t[j]] + t[j + 1..]);
    CountsSplit(t[..j], [t[j]] + t[j + 1..], v);
    CountsSplit([t[j]], t[j + 1..], v);
    CountsSplit(t[..j], t[j + 1..], v);
  }

  /** Reordering changes no count. */
  lemma {:induction false} CountsOfBag(s: seq<int>, t: seq<int>, v: int)
    requires multiset(s) == multiset(t)
    ensures AtMost(s, v) == AtMost(t, v)
    decreases |s|
  {
    if s == [] {
      assert |t| == |multiset(t)| == |multiset(s)| == 0;
    } else {
      assert s == [s[0]] + s[1..];
      assert s[0] in multiset(t);
      var j :| 0 <= j < |t| && t[j] == s[0];
      TakeOut(t, j, v);
      CountsOfBag(s[1..], t[..j] + t[j + 1..], v);
    }
  }

  lemma {:induction false} AllCounted(s: seq<int>, v: int)
    ensures (forall i :: 0 <= i < |s| ==> s[i] <= v) ==> AtMost(s, v) == |s|
    ensures (forall i :: 0 <= i < |s| ==> s[i] > v) ==> AtMost(s, v) == 0
    decreases |s|
  {
    if s != [] {
      forall i | 0 <= i < |s[1..]| ensures s[1..][i] == s[i + 1] {}
      AllCounted(s[1..], v);
    }
  }

  /** Up to the element at an index of a sorted sequence, nothing exceeds it. */
  lemma RankInSorted(s: seq<int>, idx: nat)
    requires SortedSeq(s) && idx < |s|
    ensures AtMost(s, s[idx]) >= idx + 1
  {
    assert s == s[..idx + 1] + s[idx + 1..];
    CountsSplit(s[..idx + 1], s[idx + 1..], s[idx]);
    AllCounted(s[..idx + 1], s[idx]);
  }

  lemma {:induction false} AtMostLength(s: seq<int>, v: int)
    ensures AtMost(s, v) <= |s|
  {
    if s != [] { AtMostLength(s[1..], v); }
  }

  /** From that element on, nothing is below it. */
  lemma BelowInSorted(s: seq<int>, idx: nat)
    requires SortedSeq(s) && idx < |s|
    ensures AtMost(s, s[idx] - 1) <= idx
  {
    assert s == s[..idx] + s[idx..];
    CountsSplit(s[..idx], s[idx..], s[idx] - 1);
    AllCounted(s[idx..], s[idx] - 1);
    AtMostLength(s[..idx], s[idx] - 1);
  }

  /** One of the samples: at least the fraction `p` of the others does not exceed
      it, and no more than that fraction is below it; the caller's samples keep
      their order. */
  method Percentile(ds: seq<int>, p: real) returns (v: int)
    requires 0.0 <= p <= 1.0
    ensures ds == [] ==> v == 0
    ensures ds != [] ==>
              var idx := (p * (|ds| - 1) as real).Floor;
              0 <= idx < |ds| && v in ds && AtMost(ds, v - 1) <= idx < AtMost(ds, v)
  {
    if ds == [] { return 0; }
    var vals := new int[|ds|];
    var i := 0;
    while i < |ds|
      invariant 0 <= i <= |ds| && vals[..i] == ds[..i]
    {
      vals[i] := ds[i];
      i := i + 1;
    }
    assert vals[..] == ds;
    InsertionSort(vals);
    ScaledBelow(p, |ds| - 1);
    var idx := (p * (|ds| - 1) as real).Floor;
    v := vals[idx];
    RankInSorted(vals[..], idx);
    BelowInSorted(vals[..], idx);
    CountsOfBag(vals[..], ds, v);
    CountsOfBag(vals[..], ds, v - 1);
    assert v in multiset(vals[..]);
  }

  lemma ScaledBelow(p: real, n: nat)
    requires 0.0 <= p <= 1.0
    ensures 0 <= (p * n as real).Floor <= n
  {
    assert 0.0 <= p * n as real <= n as real;
  }
}
