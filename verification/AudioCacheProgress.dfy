/**
 What the song cache gets done: who is admitted to the queue of downloads and when its turn comes, that an eviction taken
 step by step is the eviction, and that what was used last stays longest.
 */
module AudioCacheProgress {
  import opened AudioCache
  import opened Wrappers

  // --- the queue of downloads ----------------------------------------------------------------

  predicate Admissible(c: Cache, id: Id, acceptable: bool) {
    acceptable && !Has(c.entries, id) && id !in c.chain && |c.chain| < 8
  }

  // The ids that are put into the queue, in the order they were asked for.
  function Admitted(c: Cache, steps: seq<Step>): seq<Id>
    requires Runs(c, steps)
    decreases |steps|
  {
    if steps == [] then []
    else
      (if steps[0].Fetch? && Admissible(c, steps[0].id, steps[0].acceptable) then [steps[0].id] else [])
      + Admitted(Apply(c, steps[0]), steps[1..])
  }

  // With this step the download at the head is through: it failed, or the cache fits or has nothing left to evict.
  predicate Ends(c: Cache, step: Step) {
    match step
    case GaveUp => true
    case Completed(_, size, _) => c.total + size <= c.maxBytes
    case EvictNext => c.evicting.Some? && (c.evicting.value == [] || c.total <= c.maxBytes)
    case _ => false
  }

  function Ended(c: Cache, steps: seq<Step>): nat
    requires Runs(c, steps)
    decreases |steps|
  {
    if steps == [] then 0 else (if Ends(c, steps[0]) then 1 else 0) + Ended(Apply(c, steps[0]), steps[1..])
  }

  lemma {:induction false} OrderIsComplete(es: seq<Entry>)
    requires es != []
    ensures Oldest(es) != [] && IdsOf(Oldest(es)) != []
  {
    OldestFacts(es);
    assert es[0] in multiset(es);
  }

  lemma {:induction false} CompletedQueue(c: Cache, file: string, size: nat, now: int)
    requires Valid(c) && Enabled(c, Completed(file, size, now))
    ensures Apply(c, Completed(file, size, now)).chain ==
            if c.total + size <= c.maxBytes then c.chain[1..] else c.chain
  {
    var e := Entry(c.chain[0], file, size, now);
    assert !Has(c.entries, c.chain[0]);
    AddedIsDistinct(c, e);
    PutNew(c.entries, e);
    OrderIsComplete(c.entries + [e]);
  }

  // What one step does to the queue.
  lemma {:induction false} StepQueue(c: Cache, step: Step)
    requires Valid(c) && Enabled(c, step)
    ensures var n := Apply(c, step);
            n.chain ==
              if step.Fetch? && Admissible(c, step.id, step.acceptable) then c.chain + [step.id]
              else if Ends(c, step) then c.chain[1..] else c.chain
    ensures Ends(c, step) ==> c.chain != []
  {
    if step.Completed? {
      CompletedQueue(c, step.file, step.size, step.now);
    }
  }

  /** First come, first served, over every interleaving: the queue is what was in it and what was admitted since, in the
      order of asking, less as many from the front as have ended. A request is admitted if and only if it is acceptable,
      its song neither cached nor queued, and there is room. */
  lemma {:induction false} FirstComeFirstServed(c: Cache, steps: seq<Step>)
    requires Valid(c) && Runs(c, steps)
    ensures Ended(c, steps) <= |c.chain + Admitted(c, steps)|
    ensures After(c, steps).chain == (c.chain + Admitted(c, steps))[Ended(c, steps)..]
    decreases |steps|
  {
    if steps == [] {
      assert c.chain + [] == c.chain;
    } else {
      var n := Apply(c, steps[0]);
      StepKeepsValid(c, steps[0]);
      StepQueue(c, steps[0]);
      FirstComeFirstServed(n, steps[1..]);
      var first := if steps[0].Fetch? && Admissible(c, steps[0].id, steps[0].acceptable) then [steps[0].id] else [];
      var later := Admitted(n, steps[1..]);
      var gone: nat := if Ends(c, steps[0]) then 1 else 0;
      Served(c.chain, first, later, n.chain, gone, Ended(n, steps[1..]));
    }
  }

  lemma {:induction false} Served(
    chain: seq<Id>, first: seq<Id>, later: seq<Id>, next: seq<Id>, gone: nat, ended: nat)
    requires gone <= |chain| && next == (chain + first)[gone..] && ended <= |next + later|
    ensures gone + ended <= |chain + (first + later)|
    ensures (next + later)[ended..] == (chain + (first + later))[gone + ended..]
  {
    assert chain + (first + later) == chain + first + later;
    assert next + later == (chain + first + later)[gone..];
  }

  // --- an eviction, step by step ----------------------------------------------------------------

  function EvictNexts(n: nat): seq<Step> {
    seq(n, _ => EvictNext)
  }

  lemma {:induction false} EvictNextsUnfold(c: Cache, n: nat)
    requires n > 0
    ensures EvictNexts(n)[0] == EvictNext && EvictNexts(n)[1..] == EvictNexts(n - 1)
  {
  }

  lemma {:induction false} StepsEvict(c: Cache, oldest: seq<Id>) returns (n: nat)
    requires c.chain != []
    ensures var r := EvictStep(c, oldest);
            && Runs(r, EvictNexts(n))
            && After(r, EvictNexts(n)) == EvictLoop(c, oldest).(chain := c.chain[1..], evicting := None)
    decreases |oldest|
  {
    if oldest == [] || c.total <= c.maxBytes {
      n := 0;
    } else {
      var r := EvictStep(c, oldest);
      var next := Remove(c, oldest[0]).(evicting := Some(oldest[1..]));
      assert r == next;
      var m := StepsEvict(next, oldest[1..]);
      n := m + 1;
      EvictNextsUnfold(c, n);
      assert Apply(next, EvictNext) == EvictStep(next, oldest[1..]);
      LoopIgnoresTheRest(Remove(c, oldest[0]), oldest[1..], Some(oldest[1..]));
    }
  }

  lemma {:induction false} LoopIgnoresTheRest(c: Cache, oldest: seq<Id>, evicting: Option<seq<Id>>)
    ensures EvictLoop(c.(evicting := evicting), oldest) == EvictLoop(c, oldest).(evicting := evicting)
    ensures EvictLoop(c, oldest).chain == c.chain
    decreases |oldest|
  {
    if oldest != [] && c.total > c.maxBytes {
      LoopIgnoresTheRest(Remove(c, oldest[0]), oldest[1..], evicting);
      assert Remove(c.(evicting := evicting), oldest[0]) == Remove(c, oldest[0]).(evicting := evicting);
    }
  }

  /** A download that completes and evicts with nothing in between comes to its song added and one eviction: the steps
      between its awaits do what the eviction as a whole does, and end. */
  lemma {:induction false} CompletedThenEvicts(c: Cache, file: string, size: nat, now: int) returns (n: nat)
    requires Enabled(c, Completed(file, size, now))
    ensures var steps := [Completed(file, size, now)] + EvictNexts(n);
            && Runs(c, steps)
            && After(c, steps) ==
               Evict(Add(c, Entry(c.chain[0], file, size, now))).(chain := c.chain[1..], evicting := None)
  {
    var c1 := Add(c, Entry(c.chain[0], file, size, now));
    n := StepsEvict(c1, IdsOf(Oldest(c1.entries)));
    var steps := [Completed(file, size, now)] + EvictNexts(n);
    assert steps[1..] == EvictNexts(n);
  }

  // --- who stays ------------------------------------------------------------------------------

  // Around an entry with a time of its own, the order of use is strict.
  lemma {:induction false} StrictAround(es: seq<Entry>, order: seq<Entry>, a: nat)
    requires a < |order| && Sorted(order) && multiset(order) == multiset(es)
    requires forall x | x in es && x != order[a] :: x.used != order[a].used
    requires forall i | 0 <= i < |order| && i != a :: order[i] != order[a]
    ensures Newer(order, order[a].used) == order[a + 1..]
  {
    var e := order[a];
    forall i | 0 <= i < |order| && i != a ensures order[i].used != e.used {
      assert order[i] in multiset(order);
      assert order[i] in es;
    }
    NewerBehind(order, a + 1, e.used);
  }

  lemma {:induction false} PlaceOf(es: seq<Entry>, e: Entry) returns (a: nat)
    requires Distinct(es) && e in es && forall x | x in es && x != e :: x.used != e.used
    ensures var order := Oldest(es);
            && a < |order| && order[a] == e
            && (forall i | 0 <= i < |order| && i != a :: order[i] != e)
            && Sum(order[a..]) == e.size + Sum(Newer(es, e.used))
  {
    OldestFacts(es);
    var order := Oldest(es);
    assert e in multiset(es);
    a :| 0 <= a < |order| && order[a] == e;
    DistinctCounts(es, e);
    OnlyThere(order, a);
    StrictAround(es, order, a);
    SumNewer(order, es, e.used);
    assert order[a..][1..] == order[a + 1..];
  }

  lemma {:induction false} DistinctCounts(es: seq<Entry>, e: Entry)
    requires Distinct(es) && e in es
    ensures multiset(es)[e] == 1
  {
    DistinctWithoutBag(es, e);
    WithoutMembers(es, e.id);
    assert e !in multiset(Without(es, e.id));
  }

  lemma {:induction false} OnlyThere(order: seq<Entry>, a: nat)
    requires a < |order| && multiset(order)[order[a]] == 1
    ensures forall i | 0 <= i < |order| && i != a :: order[i] != order[a]
  {
    forall i | 0 <= i < |order| && i != a ensures order[i] != order[a] {
      var lo, hi := Min(i, a), Max(i, a);
      assert order == order[..lo] + [order[lo]] + order[lo + 1..hi] + [order[hi]] + order[hi + 1..];
    }
  }

  /** Least recently used: an entry outlives an eviction if and only if it fits together with everything used after it. */
  lemma {:induction false} SurvivesIffNewerLeaveRoom(c: Cache, e: Entry)
    requires Distinct(c.entries) && c.total == Sum(c.entries) && e in c.entries
    requires forall x | x in c.entries && x != e :: x.used != e.used
    ensures e in Evict(c).entries <==> e.size + Sum(Newer(c.entries, e.used)) <= c.maxBytes
  {
    var order := Oldest(c.entries);
    var a := PlaceOf(c.entries, e);
    OldestFacts(c.entries);
    SumOfBag(c.entries, order);
    var k := EvictsShortestPrefix(c, order);
    FitsFrom(order, a, k, c.maxBytes);
    SameMembers(Evict(c).entries, order[k..], e);
  }

  // One new entry among older ones.
  lemma {:induction false} OnlyNewer(es: seq<Entry>, t: int, e: Entry)
    requires e.used > t && forall x | x in es :: x.used <= t
    ensures Newer(es + [e], t) == [e] && Sum([e]) == e.size
  {
    NewerNone(es, [e], t);
    assert [e][1..] == [];
  }

  lemma {:induction false} Played(es: seq<Entry>, e: Entry, now: int)
    requires Distinct(es) && e in es && forall x | x in es :: x.used < now
    ensures var r := Touch(es, e.id, now);
            && Distinct(r) && Sum(r) == Sum(es) && e.(used := now) in r
            && (forall x | x in r && x != e.(used := now) :: x.used < now)
            && (forall x | x in r :: Has(es, x.id))
  {
    var r := Touch(es, e.id, now);
    TouchFacts(es, e.id, now);
    TouchDistinct(es, e.id, now);
    var k :| 0 <= k < |es| && es[k] == e;
    assert r[k] == e.(used := now);
    forall x | x in r ensures Has(es, x.id) && (x != e.(used := now) ==> x.used < now) {
      var i :| 0 <= i < |r| && r[i] == x;
      assert es[i] in es;
      assert es[i].id == e.id ==> i == k;
    }
  }

  // The entry used last but one: only the newest can drive it out.
  lemma {:induction false} SecondNewestStays(c: Cache, e: Entry, next: Entry)
    requires Distinct(c.entries) && c.total == Sum(c.entries) && e in c.entries && !Has(c.entries, next.id)
    requires next.used > e.used && forall x | x in c.entries && x != e :: x.used < e.used
    ensures e in Evict(Add(c, next)).entries <==> e.size + next.size <= c.maxBytes
  {
    AddedIsDistinct(c, next);
    OnlyNewer(c.entries, e.used, next);
    var d := Add(c, next);
    assert forall x | x in d.entries :: x in c.entries || x == next;
    SurvivesIffNewerLeaveRoom(d, e);
  }

  /** A song that was just played stays if at all possible: the next one to be cached drives it out only if the two of them
      alone are too large. */
  lemma {:induction false} PlayedStays(c: Cache, e: Entry, now: int, next: Entry)
    requires Valid(c) && e in c.entries && forall x | x in c.entries :: x.used < now
    requires !Has(c.entries, next.id) && next.used > now
    ensures e.(used := now) in Evict(Add(Apply(c, Lookup(e.id, now)), next)).entries
            <==> e.size + next.size <= c.maxBytes
  {
    Played(c.entries, e, now);
    SecondNewestStays(Apply(c, Lookup(e.id, now)), e.(used := now), next);
  }

  /** No song is larger than what a single one may be, whatever is done in whatever order. */
  lemma {:induction false} NoSongTooLarge(c: Cache, steps: seq<Step>)
    requires Valid(c) && Runs(c, steps)
    ensures forall e | e in After(c, steps).entries :: e.size <= 64 * 1024 * 1024 && e.size <= After(c, steps).maxBytes
  {
    AccountingIsExact(c, steps, After(c, steps));
  }
}
