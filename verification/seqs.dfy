/** Small facts about sequences that the model's proofs share: mapping a
    function over a sequence, and how reordering a sequence reorders the
    mapped sequence. */
module Seqs {

  /** `f` applied to each element, in order. */
  function MapSeq<T, U>(f: T -> U, s: seq<T>): (r: seq<U>)
    ensures |r| == |s|
    decreases |s|
  {
    if |s| == 0 then [] else [f(s[0])] + MapSeq(f, s[1..])
  }

  lemma {:induction false} MapSeqIndex<T, U>(f: T -> U, s: seq<T>, i: nat)
    requires i < |s|
    ensures MapSeq(f, s)[i] == f(s[i])
    decreases i
  {
    if i > 0 {
      MapSeqIndex(f, s[1..], i - 1);
    }
  }

  lemma {:induction false} MapSeqConcat<T, U>(f: T -> U, a: seq<T>, b: seq<T>)
    ensures MapSeq(f, a + b) == MapSeq(f, a) + MapSeq(f, b)
    decreases |a|
  {
    if |a| == 0 {
      assert a + b == b;
    } else {
      assert (a + b)[1..] == a[1..] + b;
      MapSeqConcat(f, a[1..], b);
    }
  }

  lemma SplitAt<T>(s: seq<T>, i: nat)
    requires i < |s|
    ensures s == s[..i] + [s[i]] + s[i + 1..]
    ensures multiset(s[..i] + s[i + 1..]) == multiset(s) - multiset{s[i]}
  {
    assert s == s[..i] + [s[i]] + s[i + 1..];
  }

  lemma Cancel<T>(x: T, a: multiset<T>, b: multiset<T>, c: multiset<T>)
    requires multiset{x} + a == b + multiset{x} + c
    ensures a == b + c
  {
    forall y
      ensures a[y] == (b + c)[y]
    {
      assert (multiset{x} + a)[y] == (b + multiset{x} + c)[y];
    }
  }

  /** Mapping two arrangements of the same elements gives two arrangements of
      the same results. */
  lemma {:induction false} MapSeqPermute<T, U>(f: T -> U, s1: seq<T>, s2: seq<T>)
    requires multiset(s1) == multiset(s2)
    ensures multiset(MapSeq(f, s1)) == multiset(MapSeq(f, s2))
    decreases |s1|
  {
    if |s1| == 0 {
      assert |s2| == |multiset(s2)| == 0;
    } else {
      var x := s1[0];
      assert x in multiset(s2);
      var i :| 0 <= i < |s2| && s2[i] == x;
      var pre, post := s2[..i], s2[i + 1..];
      var rest := s1[1..];
      assert s1 == [x] + rest;
      assert s2 == pre + [x] + post;
      assert multiset(rest) == multiset(pre + post) by {
        assert multiset(s1) == multiset{x} + multiset(rest);
        assert multiset(s2) == multiset(pre) + multiset{x} + multiset(post);
        Cancel(x, multiset(rest), multiset(pre), multiset(post));
      }
      MapSeqPermute(f, rest, pre + post);
      MapSeqConcat(f, pre, post);
      MapSeqConcat(f, pre + [x], post);
      MapSeqConcat(f, pre, [x]);
      MapSeqConcat(f, [x], rest);
      assert MapSeq(f, [x]) == [f(x)];
      var mp, mq, mr := MapSeq(f, pre), MapSeq(f, post), MapSeq(f, rest);
      assert MapSeq(f, s2) == mp + [f(x)] + mq;
      assert MapSeq(f, s1) == [f(x)] + mr;
      assert multiset(mr) == multiset(mp) + multiset(mq);
    }
  }

  /** In a sequence without repetitions every element occurs once. */
  lemma {:induction false} DistinctMultiplicity<T>(s: seq<T>, x: T)
    requires forall i, j :: 0 <= i < j < |s| ==> s[i] != s[j]
    ensures multiset(s)[x] == if x in s then 1 else 0
    decreases |s|
  {
    if |s| > 0 {
      assert s == [s[0]] + s[1..];
      DistinctMultiplicity(s[1..], x);
    }
  }

  /** `entries` is a hash-map iteration of `m`: each entry exactly once, in
      some order the map does not promise. */
  ghost predicate IsIterationOrder<K, V>(entries: seq<(K, V)>, m: map<K, V>) {
    && (forall i, j :: 0 <= i < j < |entries| ==> entries[i].0 != entries[j].0)
    && (forall e :: e in entries ==> e.0 in m && m[e.0] == e.1)
    && (forall k :: k in m ==> (k, m[k]) in entries)
  }

  /** Two iterations of the same map hand out the same entries. */
  lemma IterationOrdersPermute<K, V>(e1: seq<(K, V)>, e2: seq<(K, V)>, m: map<K, V>)
    requires IsIterationOrder(e1, m) && IsIterationOrder(e2, m)
    ensures multiset(e1) == multiset(e2)
  {
    forall x
      ensures multiset(e1)[x] == multiset(e2)[x]
    {
      DistinctMultiplicity(e1, x);
      DistinctMultiplicity(e2, x);
    }
  }

  /** The keys an entry sequence hands out. */
  function KeySet<K, V>(entries: seq<(K, V)>): (ks: set<K>)
    ensures forall i :: 0 <= i < |entries| ==> entries[i].0 in ks
    ensures forall k :: k in ks ==> exists i :: 0 <= i < |entries| && entries[i].0 == k
    decreases |entries|
  {
    if |entries| == 0 then {}
    else KeySet(entries[..|entries| - 1]) + {entries[|entries| - 1].0}
  }

  lemma {:induction false} KeySetSize<K, V>(entries: seq<(K, V)>)
    requires forall i, j :: 0 <= i < j < |entries| ==> entries[i].0 != entries[j].0
    ensures |KeySet(entries)| == |entries|
    decreases |entries|
  {
    if |entries| > 0 {
      var init := entries[..|entries| - 1];
      KeySetSize(init);
      assert entries[|entries| - 1].0 !in KeySet(init);
    }
  }

  /** An iteration of a map hands out as many entries as the map has keys. */
  lemma IterationLength<K, V>(entries: seq<(K, V)>, m: map<K, V>)
    requires IsIterationOrder(entries, m)
    ensures |entries| == |m|
  {
    forall k | k in m
      ensures k in KeySet(entries)
    {
      var i :| 0 <= i < |entries| && entries[i] == (k, m[k]);
    }
    forall k | k in KeySet(entries)
      ensures k in m
    {
      var i :| 0 <= i < |entries| && entries[i].0 == k;
      assert entries[i] in entries;
    }
    assert m.Keys == KeySet(entries);
    KeySetSize(entries);
  }
}
