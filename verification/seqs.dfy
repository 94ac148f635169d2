/** Sequence helpers that stand for Python list idioms:
    `list(dict.fromkeys(xs))` (first-seen de-duplication) and `xs[:n]`. */
module Seqs {

  predicate Distinct<T(==)>(s: seq<T>) {
    forall i, j :: 0 <= i < j < |s| ==> s[i] != s[j]
  }

  /** The index of the first occurrence of `x` in `s`. */
  function FirstIndex<T(==)>(s: seq<T>, x: T): (k: nat)
    requires x in s
    ensures k < |s| && s[k] == x && x !in s[..k]
  {
    if s[0] == x then 0 else 1 + FirstIndex(s[1..], x)
  }

  /** `list(dict.fromkeys(s))`: the distinct elements of `s`, each kept where
      it was first seen. */
  function Dedup<T(==,!new)>(s: seq<T>): (r: seq<T>)
    ensures Distinct(r)
    ensures forall x :: x in r <==> x in s
    ensures |r| <= |s|
  {
    if s == [] then []
    else
      var d := Dedup(s[..|s| - 1]);
      if s[|s| - 1] in d then d else d + [s[|s| - 1]]
  }

  /** The first occurrence of an element of a prefix is its first occurrence
      in the whole sequence. */
  lemma FirstIndexOfPrefix<T>(s: seq<T>, n: nat, x: T)
    requires n <= |s| && x in s[..n]
    ensures FirstIndex(s, x) == FirstIndex(s[..n], x)
  {
    var k' := FirstIndex(s[..n], x);
    assert s[..n][..k'] == s[..k'] && s[..n][k'] == s[k'];
  }

  /** De-duplication keeps first-seen order: of two kept elements, the one
      that comes first was seen first. */
  lemma {:induction false} DedupFirstSeenOrder<T(!new)>(s: seq<T>, i: nat, j: nat)
    requires i < j < |Dedup(s)|
    ensures FirstIndex(s, Dedup(s)[i]) < FirstIndex(s, Dedup(s)[j])
  {
    var init := s[..|s| - 1];
    var d := Dedup(init);
    var r := Dedup(s);
    if j < |d| {
      DedupFirstSeenOrder(init, i, j);
      FirstIndexOfPrefix(s, |s| - 1, d[i]);
      FirstIndexOfPrefix(s, |s| - 1, d[j]);
    } else {
      // r[j] is the last element of s, which `init` does not contain
      assert r[j] == s[|s| - 1] && s[|s| - 1] !in init;
      FirstIndexOfPrefix(s, |s| - 1, d[i]);
      assert s[..|s| - 1] == init;
    }
  }

  /** `s[:n]` for a non-negative `n`: the first `n` elements, or all of them. */
  function Take<T>(s: seq<T>, n: nat): (r: seq<T>)
    ensures |r| <= n && |r| <= |s|
    ensures |r| == if |s| <= n then |s| else n
    ensures r == s[..|r|]
    ensures |s| <= n ==> r == s
  {
    if |s| <= n then s else s[..n]
  }

  /** A prefix of a sequence without repetitions has none either. */
  lemma TakeDistinct<T>(s: seq<T>, n: nat)
    requires Distinct(s)
    ensures Distinct(Take(s, n))
  {
  }

  /** `r` is what `list(dict.fromkeys(s))[:k]` promises: the first `k`
      distinct elements of `s` (all of them when there are fewer), each once,
      in the order `s` first shows them, and none of them seen later than an
      element left out. */
  predicate FirstSeen<T(==)>(r: seq<T>, s: seq<T>, k: nat) {
    && Distinct(r) && |r| <= k
    && (forall x :: x in r ==> x in s)
    && (forall x :: x in s && |r| < k ==> x in r)
    && (forall i, j :: 0 <= i < j < |r| ==> FirstIndex(s, r[i]) < FirstIndex(s, r[j]))
    && (forall i, x :: 0 <= i < |r| && x in s && x !in r ==> FirstIndex(s, r[i]) < FirstIndex(s, x))
  }

  /** De-duplicating and then cutting to `k` gives the first `k` distinct
      elements in first-seen order. */
  lemma FirstSeenTake<T(!new)>(s: seq<T>, k: nat)
    ensures FirstSeen(Take(Dedup(s), k), s, k)
  {
    var d := Dedup(s);
    var r := Take(d, k);
    TakeDistinct(d, k);
    forall i, j | 0 <= i < j < |r| ensures FirstIndex(s, r[i]) < FirstIndex(s, r[j]) {
      DedupFirstSeenOrder(s, i, j);
    }
    forall i, x | 0 <= i < |r| && x in s && x !in r ensures FirstIndex(s, r[i]) < FirstIndex(s, x) {
      var m :| 0 <= m < |d| && d[m] == x;
      DedupFirstSeenOrder(s, i, m);
    }
  }
}
