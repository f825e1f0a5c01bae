/**
 Recency lists: what was mentioned most recently, each thing once, newest first.
 */
module Recency {
  import opened InsertionMap
  import opened Sequences

  /** The distinct entries of a log by last mention, newest first. */
  function Newest<K(==)>(log: seq<K>): (r: seq<K>)
    decreases |log|
  {
    if log == [] then [] else ToFront(Newest(log[..|log| - 1]), log[|log| - 1])
  }

  function ToFront<K(==)>(s: seq<K>, k: K): seq<K> {
    [k] + WithoutKey(s, k)
  }

  lemma {:induction false} NewestGrows<K>(log: seq<K>, k: K)
    ensures Newest(log + [k]) == ToFront(Newest(log), k)
  {
    assert (log + [k])[..|log|] == log;
  }

  lemma {:induction false} WithoutKeyJoins<K>(a: seq<K>, b: seq<K>, k: K)
    ensures WithoutKey(a + b, k) == WithoutKey(a, k) + WithoutKey(b, k)
  {
    if a == [] {
      assert a + b == b;
    } else {
      assert (a + b)[1..] == a[1..] + b;
      WithoutKeyJoins(a[1..], b, k);
    }
  }

  lemma {:induction false} WithoutStranger<K>(s: seq<K>, k: K)
    requires k !in s
    ensures WithoutKey(s, k) == s
  {
    if s != [] {
      assert s == [s[0]] + s[1..];
      WithoutStranger(s[1..], k);
    }
  }

  /** `Newest` lists every entry of the log once. */
  lemma {:induction false} NewestIsDistinct<K(!new)>(log: seq<K>)
    ensures Distinct(Newest(log)) && forall k :: k in Newest(log) <==> k in log
    decreases |log|
  {
    if log != [] {
      var front, x := log[..|log| - 1], log[|log| - 1];
      assert log == front + [x];
      NewestIsDistinct(front);
      ToFrontIsDistinct(Newest(front), x);
    }
  }

  lemma {:induction false} ToFrontIsDistinct<K(!new)>(s: seq<K>, k: K)
    requires Distinct(s)
    ensures Distinct(ToFront(s, k)) && forall q :: q in ToFront(s, k) <==> q in s || q == k
    ensures |ToFront(s, k)| == if k in s then |s| else |s| + 1
  {
    WithoutKeyMembers(s, k);
    var rest := WithoutKey(s, k);
    forall i | 0 <= i < |rest| ensures rest[i] != k {
      assert rest[i] in rest;
    }
  }

  /** Forgetting the oldest entries early changes nothing: only the `n` newest matter for the `n` newest later on. */
  lemma {:induction false} TakeToFront<K(!new)>(n: nat, s: seq<K>, k: K)
    requires Distinct(s)
    ensures Take(n, ToFront(s, k)) == Take(n, ToFront(Take(n, s), k))
  {
    if |s| > n {
      var top, rest := s[..n], s[n..];
      assert s == top + rest;
      WithoutKeyJoins(top, rest, k);
      WithoutKeyMembers(top, k);
      if k !in top {
        WithoutStranger(top, k);
      }
    }
  }

  // Where a log mentions `k` for the last time.
  function LastMention<K(==)>(log: seq<K>, k: K): (i: int)
    ensures -1 <= i < |log|
    ensures i >= 0 ==> log[i] == k
    ensures forall j | i < j < |log| :: log[j] != k
    decreases |log|
  {
    if log == [] then -1
    else if log[|log| - 1] == k then |log| - 1
    else LastMention(log[..|log| - 1], k)
  }

  // What was mentioned later comes first.
  predicate LatestFirst<K(==)>(s: seq<K>, log: seq<K>) {
    forall i, j | 0 <= i < j < |s| :: LastMention(log, s[i]) > LastMention(log, s[j])
  }

  lemma {:induction false} WithoutKeyOrder<K(!new)>(s: seq<K>, k: K, log: seq<K>)
    requires LatestFirst(s, log)
    ensures LatestFirst(WithoutKey(s, k), log) && forall q | q in WithoutKey(s, k) :: q in s && q != k
  {
    if s != [] {
      assert s == [s[0]] + s[1..];
      WithoutKeyOrder(s[1..], k, log);
      var rest := WithoutKey(s[1..], k);
      if s[0] != k {
        forall j | 0 <= j < |rest| ensures LastMention(log, s[0]) > LastMention(log, rest[j]) {
          assert rest[j] in s[1..];
        }
      }
    }
  }

  lemma {:induction false} MentionedBefore<K>(log: seq<K>, x: K, q: K)
    ensures LastMention(log + [x], q) == if q == x then |log| else LastMention(log, q)
  {
    assert (log + [x])[..|log|] == log;
  }

  /** And they are in order: what was mentioned later comes first. */
  lemma {:induction false} NewestIsByLastMention<K(!new)>(log: seq<K>)
    ensures LatestFirst(Newest(log), log)
    decreases |log|
  {
    if log != [] {
      var front, x := log[..|log| - 1], log[|log| - 1];
      assert log == front + [x];
      NewestIsByLastMention(front);
      WithoutKeyOrder(Newest(front), x, front);
      var rest := WithoutKey(Newest(front), x);
      MentionedBefore(front, x, x);
      forall j | 0 <= j < |rest| ensures LastMention(log, rest[j]) == LastMention(front, rest[j]) {
        assert rest[j] in rest;
        MentionedBefore(front, x, rest[j]);
      }
      assert Newest(log) == [x] + rest;
    }
  }
}
