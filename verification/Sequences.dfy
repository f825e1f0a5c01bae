/**
 Small facts about sequences that several components share.
 */
module Sequences {
  import opened Wrappers

  function Take<T>(n: nat, s: seq<T>): (r: seq<T>)
    ensures r <= s && |r| == Min(|s|, n)
  {
    if |s| <= n then s else s[..n]
  }

  function LastN<T>(n: nat, s: seq<T>): seq<T> {
    if |s| <= n then s else s[|s| - n..]
  }

  // A deque of bounded length forgets from the front.
  lemma {:induction false} LastNAppend<T>(n: nat, s: seq<T>, x: T)
    requires n > 0
    ensures LastN(n, LastN(n, s) + [x]) == LastN(n, s + [x])
  {
  }

  lemma {:induction false} Regroup<T>(a: seq<T>, b: seq<T>, c: seq<T>)
    ensures (a + b) + c == a + (b + c)
  {
  }
}
