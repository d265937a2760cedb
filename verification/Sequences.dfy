/** Sequence operations the scripts write as loops: flattening, and keeping first occurrences. */
module Sequences {
  /** [y for x in s for y in f(x)] */
  function FlatMap<T, U>(s: seq<T>, f: T -> seq<U>): seq<U> {
    if s == [] then [] else FlatMap(s[..|s| - 1], f) + f(s[|s| - 1])
  }

  function Map<T, U>(s: seq<T>, f: T -> U): (r: seq<U>)
    ensures |r| == |s|
    ensures forall i :: 0 <= i < |s| ==> r[i] == f(s[i])
  {
    seq(|s|, i requires 0 <= i < |s| => f(s[i]))
  }

  ghost predicate HasKey<T, K>(s: seq<T>, key: T -> K, k: K) {
    exists i :: 0 <= i < |s| && key(s[i]) == k
  }

  /** The position of the first item with key k, the length when there is none. */
  ghost function FirstIndex<T, K>(s: seq<T>, key: T -> K, k: K): (r: nat)
    ensures r <= |s| && (r < |s| <==> HasKey(s, key, k))
    ensures r < |s| ==> key(s[r]) == k
    ensures forall i :: 0 <= i < r ==> key(s[i]) != k
  {
    if s == [] then 0
    else
      var before := FirstIndex(s[..|s| - 1], key, k);
      if before < |s| - 1 then before else if key(s[|s| - 1]) == k then |s| - 1 else |s|
  }

  /** Of the items with one key only the first is kept. */
  ghost function FirstBy<T, K>(s: seq<T>, key: T -> K): seq<T> {
    if s == [] then []
    else
      var before, last := s[..|s| - 1], s[|s| - 1];
      FirstBy(before, key) + (if HasKey(before, key, key(last)) then [] else [last])
  }

  /** s without repetitions, in order of first occurrence. */
  ghost function Dedup<T>(s: seq<T>): seq<T> { FirstBy(s, x => x) }

  ghost predicate NoDuplicates<T>(s: seq<T>) { forall i, j :: 0 <= i < j < |s| ==> s[i] != s[j] }

  ghost predicate DistinctKeys<T, K>(s: seq<T>, key: T -> K) {
    forall i, j :: 0 <= i < j < |s| ==> key(s[i]) != key(s[j])
  }

  lemma {:induction false} FirstByHasKey<T, K>(s: seq<T>, key: T -> K, k: K)
    ensures HasKey(FirstBy(s, key), key, k) <==> HasKey(s, key, k)
    decreases |s|
  {
    if s != [] {
      var before, last := s[..|s| - 1], s[|s| - 1];
      var kept := FirstBy(before, key);
      FirstByHasKey(before, key, k);
      if i :| 0 <= i < |kept| && key(kept[i]) == k { assert FirstBy(s, key)[i] == kept[i]; }
      if i :| 0 <= i < |before| && key(before[i]) == k { assert s[i] == before[i]; }
      if i :| 0 <= i < |s| && key(s[i]) == k {
        if i < |before| {
          assert before[i] == s[i];
        } else if !HasKey(before, key, k) {
          assert FirstBy(s, key)[|kept|] == last;
        }
      }
    }
  }

  /** What is kept is the first item of its key, in the order of the sequence: no key twice. */
  lemma {:induction false} FirstByIsFirst<T, K>(s: seq<T>, key: T -> K)
    ensures forall i :: 0 <= i < |FirstBy(s, key)| ==>
      HasKey(s, key, key(FirstBy(s, key)[i])) && FirstBy(s, key)[i] == s[FirstIndex(s, key, key(FirstBy(s, key)[i]))]
    ensures forall i, j :: 0 <= i < j < |FirstBy(s, key)| ==>
      FirstIndex(s, key, key(FirstBy(s, key)[i])) < FirstIndex(s, key, key(FirstBy(s, key)[j]))
    decreases |s|
  {
    if s != [] {
      var before, last := s[..|s| - 1], s[|s| - 1];
      var kept, all := FirstBy(before, key), FirstBy(s, key);
      FirstByIsFirst(before, key);
      forall i | 0 <= i < |kept| ensures FirstIndex(s, key, key(kept[i])) == FirstIndex(before, key, key(kept[i])) {
        assert HasKey(before, key, key(kept[i]));
      }
    }
  }

  lemma FirstByIsDistinct<T, K>(s: seq<T>, key: T -> K)
    ensures DistinctKeys(FirstBy(s, key), key)
  {
    FirstByIsFirst(s, key);
  }

  lemma DedupIsSet<T>(s: seq<T>)
    ensures NoDuplicates(Dedup(s))
    ensures forall x :: x in Dedup(s) <==> x in s
  {
    FirstByIsDistinct(s, x => x);
    assert forall i, j :: 0 <= i < j < |Dedup(s)| ==> (x => x)(Dedup(s)[i]) != (x => x)(Dedup(s)[j]);
    forall x ensures x in Dedup(s) <==> x in s {
      FirstByHasKey(s, y => y, x);
      KeyIsMember(s, x);
      KeyIsMember(Dedup(s), x);
    }
  }

  /** In the order of first occurrence. */
  lemma DedupOrder<T>(s: seq<T>, p: nat, q: nat)
    requires p < q < |Dedup(s)|
    ensures FirstIndex(s, x => x, Dedup(s)[p]) < FirstIndex(s, x => x, Dedup(s)[q])
  {
    FirstByIsFirst(s, x => x);
    assert (x => x)(Dedup(s)[p]) == Dedup(s)[p] && (x => x)(Dedup(s)[q]) == Dedup(s)[q];
  }

  lemma KeyIsMember<T>(s: seq<T>, x: T)
    ensures HasKey(s, y => y, x) <==> x in s
  {
    if x in s { var i :| 0 <= i < |s| && s[i] == x; }
  }

  /** Appending one item. */
  lemma FirstByAppend<T, K>(s: seq<T>, x: T, key: T -> K)
    ensures FirstBy(s + [x], key) == FirstBy(s, key) + (if HasKey(s, key, key(x)) then [] else [x])
  {
    assert (s + [x])[..|s|] == s;
  }

  lemma FlatMapAppend<T, U>(s: seq<T>, x: T, f: T -> seq<U>)
    ensures FlatMap(s + [x], f) == FlatMap(s, f) + f(x)
  {
    assert (s + [x])[..|s|] == s;
  }

  lemma DedupAppend<T>(s: seq<T>, x: T)
    ensures Dedup(s + [x]) == if x in s then Dedup(s) else Dedup(s) + [x]
  {
    FirstByAppend(s, x, y => y);
    KeyIsMember(s, x);
  }

  /** A sequence without repetitions is its own deduplication. */
  lemma {:induction false} DedupOfDistinct<T>(s: seq<T>)
    requires NoDuplicates(s)
    ensures Dedup(s) == s
    decreases |s|
  {
    if s != [] {
      var before, last := s[..|s| - 1], s[|s| - 1];
      DedupOfDistinct(before);
      KeyIsMember(before, last);
      assert s == before + [last];
    }
  }
}
