/**
 The on-disk song cache: its accounting, single flight and eviction.

 `Cache` is the bookkeeping between two awaits. Downloads and evictions run one at a time (the promise chain);
 `evicting` holds what an eviction suspended at an await still has to look at, while lookups, removals and new
 requests go on.
 */
module AudioCache {
  import opened Wrappers

  const MAX_FILE_BYTES: nat := 64 * 1024 * 1024
  const MAX_PENDING: nat := 8

  type Id = string

  datatype Entry = Entry(id: Id, file: string, size: nat, used: int)

  // Entries are kept in the insertion order of the source's Map; `chain` is the downloads running or waiting.
  datatype Cache = Cache(maxBytes: nat, entries: seq<Entry>, total: int, chain: seq<Id>, evicting: Option<seq<Id>>)

  function MaxFile(maxBytes: nat): nat {
    if MAX_FILE_BYTES < maxBytes then MAX_FILE_BYTES else maxBytes
  }

  predicate Has(es: seq<Entry>, id: Id) {
    exists e | e in es :: e.id == id
  }

  predicate Distinct(es: seq<Entry>) {
    forall i, j | 0 <= i < j < |es| :: es[i].id != es[j].id
  }

  function Sum(es: seq<Entry>): nat {
    if es == [] then 0 else es[0].size + Sum(es[1..])
  }

  function Find(es: seq<Entry>, id: Id): (r: Option<Entry>)
    ensures r.None? <==> !Has(es, id)
    ensures r.Some? ==> r.value in es && r.value.id == id
  {
    if es == [] then None
    else if es[0].id == id then Some(es[0])
    else
      assert forall e | e in es :: e == es[0] || e in es[1..];
      Find(es[1..], id)
  }

  function Without(es: seq<Entry>, id: Id): seq<Entry> {
    if es == [] then []
    else if es[0].id == id then Without(es[1..], id)
    else [es[0]] + Without(es[1..], id)
  }

  // Map.set: a known id keeps its place, a new one goes to the end.
  function Put(es: seq<Entry>, e: Entry): seq<Entry> {
    if es == [] then [e]
    else if es[0].id == e.id then [e] + es[1..]
    else [es[0]] + Put(es[1..], e)
  }

  function Touch(es: seq<Entry>, id: Id, now: int): seq<Entry> {
    if es == [] then []
    else [if es[0].id == id then es[0].(used := now) else es[0]] + Touch(es[1..], id, now)
  }

  function SizeOf(es: seq<Entry>, id: Id): nat {
    match Find(es, id) case Some(e) => e.size case None => 0
  }

  // --- the operations --------------------------------------------------------------------

  function Remove(c: Cache, id: Id): Cache {
    c.(entries := Without(c.entries, id), total := c.total - SizeOf(c.entries, id))
  }

  function Add(c: Cache, e: Entry): Cache {
    c.(entries := Put(c.entries, e), total := c.total - SizeOf(c.entries, e.id) + e.size)
  }

  // `acceptable`: a video id and an http(s) URL.
  function Ask(c: Cache, id: Id, acceptable: bool): Cache {
    if !acceptable || Has(c.entries, id) || id in c.chain || |c.chain| >= MAX_PENDING then c
    else c.(chain := c.chain + [id])
  }

  function IdsOf(es: seq<Entry>): seq<Id> {
    if es == [] then [] else [es[0].id] + IdsOf(es[1..])
  }

  // Stable sort by `used`, as Array.prototype.sort is.
  function Insert(sorted: seq<Entry>, e: Entry): seq<Entry> {
    if sorted == [] || sorted[0].used > e.used then [e] + sorted
    else [sorted[0]] + Insert(sorted[1..], e)
  }

  function Oldest(es: seq<Entry>): seq<Entry>
    decreases |es|
  {
    if es == [] then [] else Insert(Oldest(es[..|es| - 1]), es[|es| - 1])
  }

  // The eviction loop with nothing interleaved.
  function EvictLoop(c: Cache, oldest: seq<Id>): Cache
    decreases |oldest|
  {
    if oldest == [] || c.total <= c.maxBytes then c else EvictLoop(Remove(c, oldest[0]), oldest[1..])
  }

  function Evict(c: Cache): Cache {
    EvictLoop(c, IdsOf(Oldest(c.entries)))
  }

  // The same loop up to its next await; the download it ends leaves the chain when it is through.
  function EvictStep(c: Cache, oldest: seq<Id>): Cache
    requires c.chain != []
  {
    if oldest == [] || c.total <= c.maxBytes then c.(evicting := None, chain := c.chain[1..])
    else Remove(c, oldest[0]).(evicting := Some(oldest[1..]))
  }

  // --- all interleavings ---------------------------------------------------------------------

  datatype Step =
    | Lookup(id: Id, now: int)
    | Drop(id: Id)
    | Fetch(id: Id, acceptable: bool)
    | Completed(file: string, size: nat, now: int)
    | GaveUp
    | EvictNext

  predicate Enabled(c: Cache, step: Step) {
    match step
    case Completed(_, size, _) => c.chain != [] && c.evicting.None? && size <= MaxFile(c.maxBytes)
    case GaveUp => c.chain != [] && c.evicting.None?
    case EvictNext => c.chain != [] && c.evicting.Some?
    case _ => true
  }

  function Apply(c: Cache, step: Step): Cache
    requires Enabled(c, step)
  {
    match step
    case Lookup(id, now) => c.(entries := Touch(c.entries, id, now))
    case Drop(id) => Remove(c, id)
    case Fetch(id, acceptable) => Ask(c, id, acceptable)
    case Completed(file, size, now) =>
      var c1 := Add(c, Entry(c.chain[0], file, size, now));
      EvictStep(c1, IdsOf(Oldest(c1.entries)))
    case GaveUp => c.(chain := c.chain[1..])
    case EvictNext => EvictStep(c, c.evicting.value)
  }

  /** The accounting is exact at every moment; outside an eviction the cache fits its limit, inside one it is at
      most one file over; nothing is downloaded that is cached or downloading already. */
  ghost predicate Valid(c: Cache) {
    && Distinct(c.entries)
    && c.total == Sum(c.entries)
    && (forall e | e in c.entries :: e.size <= MaxFile(c.maxBytes))
    && |c.chain| <= MAX_PENDING
    && (forall i, j | 0 <= i < j < |c.chain| :: c.chain[i] != c.chain[j])
    && (forall i | (if c.evicting.Some? then 1 else 0) <= i < |c.chain| :: !Has(c.entries, c.chain[i]))
    && (c.evicting.None? ==> c.total <= c.maxBytes)
    && (c.evicting.Some? ==>
          && c.chain != []
          && c.total <= c.maxBytes + MaxFile(c.maxBytes)
          && (forall e | e in c.entries :: e.id in c.evicting.value))
  }

  lemma {:induction false} WithoutMembers(es: seq<Entry>, id: Id)
    ensures forall e :: e in Without(es, id) <==> e in es && e.id != id
  {
    if es != [] {
      WithoutMembers(es[1..], id);
      assert forall e :: e in es <==> e == es[0] || e in es[1..];
    }
  }

  lemma {:induction false} WithoutSum(es: seq<Entry>, id: Id)
    requires Distinct(es)
    ensures Distinct(Without(es, id)) && Sum(Without(es, id)) == Sum(es) - SizeOf(es, id)
  {
    if es != [] {
      assert Distinct(es[1..]);
      WithoutSum(es[1..], id);
      WithoutMembers(es[1..], id);
      var rest := Without(es[1..], id);
      if es[0].id == id {
        forall e | e in es[1..] ensures e.id != id {
          var i :| 0 <= i < |es[1..]| && es[1..][i] == e;
          assert es[i + 1] == e;
        }
        assert !Has(es[1..], id);
      } else {
        assert Without(es, id)[1..] == rest;
        forall i | 0 <= i < |rest| ensures rest[i].id != es[0].id {
          assert rest[i] in es[1..];
          var k :| 0 <= k < |es[1..]| && es[1..][k] == rest[i];
          assert es[k + 1] == rest[i];
        }
      }
    }
  }

  lemma {:induction false} WithoutFacts(es: seq<Entry>, id: Id)
    requires Distinct(es)
    ensures var r := Without(es, id);
            && Distinct(r)
            && (forall e :: e in r <==> e in es && e.id != id)
            && Sum(r) == Sum(es) - SizeOf(es, id)
  {
    WithoutMembers(es, id);
    WithoutSum(es, id);
  }

  lemma {:induction false} PutNew(es: seq<Entry>, e: Entry)
    requires !Has(es, e.id)
    ensures Put(es, e) == es + [e] && Sum(es + [e]) == Sum(es) + e.size
  {
    if es == [] {
      assert [e][1..] == [];
    } else {
      assert es[0] in es && forall x | x in es[1..] :: x in es;
      PutNew(es[1..], e);
      assert es + [e] == [es[0]] + (es[1..] + [e]);
    }
  }

  // A replaced entry: the accounting follows, ids stay distinct.
  lemma {:induction false} PutFacts(es: seq<Entry>, e: Entry)
    requires Distinct(es)
    ensures var r := Put(es, e);
            && (forall x | x in r :: x == e || (x in es && x.id != e.id))
            && Distinct(r)
            && Sum(r) == Sum(es) - SizeOf(es, e.id) + e.size
  {
    PutMembers(es, e);
    PutSum(es, e);
    PutDistinct(es, e);
  }

  /** Storing an id again replaces its entry and its size: the total stays the sum. */
  lemma {:induction false} AddKeepsTheSum(c: Cache, e: Entry)
    requires Distinct(c.entries) && c.total == Sum(c.entries)
    ensures var r := Add(c, e); Distinct(r.entries) && r.total == Sum(r.entries) && r.chain == c.chain
    ensures forall x | x in Add(c, e).entries :: x == e || (x in c.entries && x.id != e.id)
  {
    PutFacts(c.entries, e);
  }

  lemma {:induction false} PutMembers(es: seq<Entry>, e: Entry)
    requires Distinct(es)
    ensures forall x | x in Put(es, e) :: x == e || (x in es && x.id != e.id)
  {
    if es != [] {
      assert es == [es[0]] + es[1..];
      if es[0].id == e.id {
        assert forall x | x in es[1..] :: x.id != e.id;
      } else {
        PutMembers(es[1..], e);
      }
    }
  }

  lemma {:induction false} PutSum(es: seq<Entry>, e: Entry)
    requires Distinct(es)
    ensures Sum(Put(es, e)) == Sum(es) - SizeOf(es, e.id) + e.size
  {
    if es == [] {
      assert [e][1..] == [];
    } else if es[0].id == e.id {
      assert ([e] + es[1..])[1..] == es[1..];
    } else {
      PutSum(es[1..], e);
      assert Put(es, e)[1..] == Put(es[1..], e);
    }
  }

  lemma {:induction false} PutDistinct(es: seq<Entry>, e: Entry)
    requires Distinct(es)
    ensures Distinct(Put(es, e))
  {
    if es != [] && es[0].id != e.id {
      PutDistinct(es[1..], e);
      PutMembers(es[1..], e);
      assert forall x | x in es[1..] :: x.id != es[0].id;
      var rest := Put(es[1..], e);
      assert forall i | 0 <= i < |rest| :: rest[i] in rest;
    }
  }

  lemma {:induction false} TouchFacts(es: seq<Entry>, id: Id, now: int)
    ensures var r := Touch(es, id, now);
            && |r| == |es|
            && Sum(r) == Sum(es)
            && forall i | 0 <= i < |es| :: r[i] == if es[i].id == id then es[i].(used := now) else es[i]
  {
    if es != [] {
      TouchFacts(es[1..], id, now);
      assert Touch(es, id, now)[1..] == Touch(es[1..], id, now);
    }
  }

  // Only the time of use changes.
  lemma {:induction false} TouchKeepsTheRest(es: seq<Entry>, id: Id, now: int)
    ensures forall e | e in Touch(es, id, now) :: exists x | x in es :: x.(used := e.used) == e
    ensures forall e | e in es :: exists x | x in Touch(es, id, now) :: x.(used := e.used) == e
  {
    TouchFacts(es, id, now);
    var r := Touch(es, id, now);
    forall e | e in r ensures exists x | x in es :: x.(used := e.used) == e {
      var i :| 0 <= i < |r| && r[i] == e;
      assert es[i] in es;
    }
    forall e | e in es ensures exists x | x in r :: x.(used := e.used) == e {
      var i :| 0 <= i < |es| && es[i] == e;
      assert r[i] in r;
    }
  }

  lemma {:induction false} IdsOfMember(es: seq<Entry>, e: Entry)
    requires e in es
    ensures e.id in IdsOf(es)
  {
    if e != es[0] {
      assert e in es[1..];
      IdsOfMember(es[1..], e);
    }
  }

  // --- the order of eviction -------------------------------------------------------------

  predicate Sorted(es: seq<Entry>) {
    forall i, j | 0 <= i < j < |es| :: es[i].used <= es[j].used
  }

  lemma {:induction false} Cancel(a: multiset<Entry>, b: multiset<Entry>, e: Entry)
    requires a + multiset{e} == b + multiset{e}
    ensures a == b
  {
    forall x ensures a[x] == b[x] {
      assert (a + multiset{e})[x] == (b + multiset{e})[x];
    }
  }

  lemma {:induction false} BagOfFirst(es: seq<Entry>)
    requires es != []
    ensures multiset(es) == multiset(es[1..]) + multiset{es[0]}
  {
    assert es == [es[0]] + es[1..];
  }

  // `e` goes behind everything used no later than itself, and in front of the rest.
  lemma {:induction false} InsertAt(s: seq<Entry>, e: Entry) returns (a: nat)
    requires Sorted(s)
    ensures a <= |s| && Insert(s, e) == s[..a] + [e] + s[a..]
    ensures forall i | 0 <= i < a :: s[i].used <= e.used
    ensures forall i | a <= i < |s| :: s[i].used > e.used
  {
    if s == [] || s[0].used > e.used {
      a := 0;
    } else {
      var b := InsertAt(s[1..], e);
      a := b + 1;
      assert s[..a] == [s[0]] + s[1..][..b];
      assert s[a..] == s[1..][b..];
      forall i | 0 <= i < a ensures s[i].used <= e.used {
        assert i > 0 ==> s[i] == s[1..][i - 1];
      }
      forall i | a <= i < |s| ensures s[i].used > e.used {
        assert s[i] == s[1..][i - 1];
      }
    }
  }

  lemma {:induction false} InsertSorted(s: seq<Entry>, e: Entry)
    requires Sorted(s)
    ensures Sorted(Insert(s, e))
  {
    var a := InsertAt(s, e);
  }

  lemma {:induction false} InsertBag(s: seq<Entry>, e: Entry)
    ensures multiset(Insert(s, e)) == multiset(s) + multiset{e}
  {
    if s == [] || s[0].used > e.used {
      BagOfFirst([e] + s);
      assert ([e] + s)[1..] == s;
    } else {
      InsertBag(s[1..], e);
      BagOfFirst(s);
      BagOfFirst(Insert(s, e));
      assert Insert(s, e)[1..] == Insert(s[1..], e);
    }
  }

  lemma {:induction false} OldestFacts(es: seq<Entry>)
    ensures Sorted(Oldest(es)) && multiset(Oldest(es)) == multiset(es)
    decreases |es|
  {
    if es != [] {
      var front, last := es[..|es| - 1], es[|es| - 1];
      OldestFacts(front);
      InsertSorted(Oldest(front), last);
      InsertBag(Oldest(front), last);
      assert es == front + [last];
    }
  }

  lemma {:induction false} SumConcat(xs: seq<Entry>, ys: seq<Entry>)
    ensures Sum(xs + ys) == Sum(xs) + Sum(ys)
  {
    if xs == [] {
      assert xs + ys == ys;
    } else {
      assert (xs + ys)[1..] == xs[1..] + ys;
      SumConcat(xs[1..], ys);
    }
  }

  // Sums do not depend on the order.
  lemma {:induction false} SumOfBag(xs: seq<Entry>, ys: seq<Entry>)
    requires multiset(xs) == multiset(ys)
    ensures Sum(xs) == Sum(ys)
  {
    if xs == [] {
      assert forall e | e in ys :: e in multiset(ys);
    } else {
      var e := xs[0];
      assert e in multiset(ys);
      var i :| 0 <= i < |ys| && ys[i] == e;
      var rest := ys[..i] + ys[i + 1..];
      assert ys == ys[..i] + [e] + ys[i + 1..];
      assert multiset(ys) == multiset(rest) + multiset{e};
      BagOfFirst(xs);
      Cancel(multiset(xs[1..]), multiset(rest), e);
      SumOfBag(xs[1..], rest);
      SumConcat(ys[..i] + [e], ys[i + 1..]);
      SumConcat(ys[..i], [e]);
      SumConcat(ys[..i], ys[i + 1..]);
    }
  }

  lemma {:induction false} DistinctWithoutBag(es: seq<Entry>, e: Entry)
    requires Distinct(es) && e in es
    ensures multiset(Without(es, e.id)) + multiset{e} == multiset(es)
    ensures SizeOf(es, e.id) == e.size
  {
    BagOfFirst(es);
    if es[0] == e {
      assert forall x | x in es[1..] :: x.id != e.id;
      WithoutOther(es[1..], e.id);
    } else {
      var i :| 1 <= i < |es| && es[i] == e;
      assert es[1..][i - 1] == e && Distinct(es[1..]);
      DistinctWithoutBag(es[1..], e);
      var r := Without(es, e.id);
      assert r[1..] == Without(es[1..], e.id);
      BagOfFirst(r);
    }
  }

  lemma {:induction false} WithoutOther(es: seq<Entry>, id: Id)
    requires forall e | e in es :: e.id != id
    ensures Without(es, id) == es
  {
    if es != [] {
      assert es[0] in es && forall e | e in es[1..] :: e in es;
      WithoutOther(es[1..], id);
    }
  }

  lemma {:induction false} EvictOne(c: Cache, order: seq<Entry>)
    requires order != [] && Distinct(c.entries) && multiset(c.entries) == multiset(order) && c.total == Sum(order)
    ensures var r := Remove(c, order[0].id);
            && Distinct(r.entries) && multiset(r.entries) == multiset(order[1..]) && r.total == Sum(order[1..])
  {
    var e := order[0];
    assert e in multiset(order);
    WithoutFacts(c.entries, e.id);
    DistinctWithoutBag(c.entries, e);
    BagOfFirst(order);
    Cancel(multiset(Without(c.entries, e.id)), multiset(order[1..]), e);
  }

  /** An uninterrupted eviction removes the shortest prefix of the entries in order of last use that makes the rest
      fit, and nothing else. */
  lemma {:induction false} EvictsShortestPrefix(c: Cache, order: seq<Entry>) returns (k: nat)
    requires Distinct(c.entries) && multiset(c.entries) == multiset(order) && c.total == Sum(order)
    ensures k <= |order|
    ensures var r := EvictLoop(c, IdsOf(order));
            && r == c.(entries := r.entries, total := r.total)
            && Distinct(r.entries) && multiset(r.entries) == multiset(order[k..])
            && r.total == Sum(order[k..]) <= c.maxBytes
    ensures k > 0 ==> Sum(order[k - 1..]) > c.maxBytes
    decreases |order|
  {
    if c.total <= c.maxBytes || order == [] {
      k := 0;
      assert order[0..] == order;
    } else {
      EvictOne(c, order);
      assert IdsOf(order)[0] == order[0].id && IdsOf(order)[1..] == IdsOf(order[1..]);
      var j := EvictsShortestPrefix(Remove(c, order[0].id), order[1..]);
      k := j + 1;
      assert order[1..][j..] == order[k..];
      assert order[k - 1..] == if j > 0 then order[1..][j - 1..] else order;
    }
  }

  // The entries last used after `t`.
  function Newer(es: seq<Entry>, t: int): seq<Entry> {
    if es == [] then []
    else (if es[0].used > t then [es[0]] else []) + Newer(es[1..], t)
  }

  lemma {:induction false} NewerBag(es: seq<Entry>, t: int, e: Entry)
    ensures multiset(Newer(es, t))[e] == if e.used > t then multiset(es)[e] else 0
  {
    if es != [] {
      NewerBag(es[1..], t, e);
      BagOfFirst(es);
    }
  }

  lemma {:induction false} NewerAll(es: seq<Entry>, t: int)
    requires forall e | e in es :: e.used > t
    ensures Newer(es, t) == es
  {
    if es != [] {
      assert es[0] in es && forall e | e in es[1..] :: e in es;
      NewerAll(es[1..], t);
    }
  }

  lemma {:induction false} NewerNone(xs: seq<Entry>, ys: seq<Entry>, t: int)
    requires forall e | e in xs :: e.used <= t
    ensures Newer(xs + ys, t) == Newer(ys, t)
  {
    if xs == [] {
      assert xs + ys == ys;
    } else {
      assert xs[0] in xs && (forall e | e in xs[1..] :: e in xs) && (xs + ys)[1..] == xs[1..] + ys;
      NewerNone(xs[1..], ys, t);
    }
  }

  lemma {:induction false} SumNewer(xs: seq<Entry>, ys: seq<Entry>, t: int)
    requires multiset(xs) == multiset(ys)
    ensures Sum(Newer(xs, t)) == Sum(Newer(ys, t))
  {
    forall e ensures multiset(Newer(xs, t))[e] == multiset(Newer(ys, t))[e] {
      NewerBag(xs, t, e);
      NewerBag(ys, t, e);
    }
    assert multiset(Newer(xs, t)) == multiset(Newer(ys, t));
    SumOfBag(Newer(xs, t), Newer(ys, t));
  }

  // In order of use, the entries newer than `t` are those behind the last that is not.
  lemma {:induction false} NewerBehind(s: seq<Entry>, a: nat, t: int)
    requires a <= |s|
    requires forall i | 0 <= i < a :: s[i].used <= t
    requires forall i | a <= i < |s| :: s[i].used > t
    ensures Newer(s, t) == s[a..]
  {
    assert s == s[..a] + s[a..];
    NewerNone(s[..a], s[a..], t);
    NewerAll(s[a..], t);
  }

  lemma {:induction false} StrangerToAll(es: seq<Entry>, e: Entry)
    requires !Has(es, e.id)
    ensures e !in Oldest(es)
  {
    OldestFacts(es);
    assert e !in multiset(es);
  }

  // Where a new entry stands in the order of eviction, and what stands behind it.
  lemma {:induction false} OrderWith(es: seq<Entry>, e: Entry) returns (before: seq<Entry>, after: seq<Entry>)
    requires !Has(es, e.id)
    ensures Oldest(es + [e]) == before + [e] + after
    ensures e !in before && e !in after
    ensures Sum(after) == Sum(Newer(es, e.used))
  {
    OldestFacts(es);
    assert (es + [e])[..|es|] == es;
    var s := Oldest(es);
    var a := InsertAt(s, e);
    before, after := s[..a], s[a..];
    NewerBehind(s, a, e.used);
    SumNewer(s, es, e.used);
    StrangerToAll(es, e);
  }

  lemma {:induction false} SuffixSums(es: seq<Entry>, i: nat, j: nat)
    requires i <= j <= |es|
    ensures Sum(es[j..]) <= Sum(es[i..])
    decreases j - i
  {
    if i < j {
      assert es[i..][1..] == es[i + 1..];
      SuffixSums(es, i + 1, j);
    }
  }

  lemma {:induction false} FitsFrom(order: seq<Entry>, a: nat, k: nat, max: nat)
    requires a < |order| && k <= |order|
    requires Sum(order[k..]) <= max && (k > 0 ==> Sum(order[k - 1..]) > max)
    requires forall i | 0 <= i < |order| && i != a :: order[i] != order[a]
    ensures order[a] in order[k..] <==> Sum(order[a..]) <= max
  {
    if k <= a {
      SuffixSums(order, k, a);
      assert order[k..][a - k] == order[a];
    } else {
      SuffixSums(order, a, k - 1);
      forall x | x in order[k..] ensures x != order[a] {
        var i :| 0 <= i < |order[k..]| && order[k..][i] == x;
        assert order[k + i] == x;
      }
    }
  }

  /** The song just added outlives an uninterrupted eviction exactly when it fits together with everything used
      after it. (File times read at start can lie in the future; while the clock only moves forward, nothing is
      newer than the song just added and it always stays.) */
  lemma {:induction false} AddedSurvives(c: Cache, e: Entry)
    requires Distinct(c.entries) && !Has(c.entries, e.id) && c.total == Sum(c.entries)
    ensures e in Evict(Add(c, e)).entries <==> e.size + Sum(Newer(c.entries, e.used)) <= c.maxBytes
  {
    AddedIsDistinct(c, e);
    var order := Oldest(c.entries + [e]);
    var a := PositionOf(c.entries, e);
    OldestFacts(c.entries + [e]);
    SumOfBag(c.entries + [e], order);
    var k := EvictsShortestPrefix(Add(c, e), order);
    FitsFrom(order, a, k, c.maxBytes);
    SameMembers(Evict(Add(c, e)).entries, order[k..], e);
  }

  lemma {:induction false} SameMembers(xs: seq<Entry>, ys: seq<Entry>, e: Entry)
    requires multiset(xs) == multiset(ys)
    ensures e in xs <==> e in ys
  {
    assert e in xs <==> e in multiset(xs);
    assert e in ys <==> e in multiset(ys);
  }

  lemma {:induction false} PositionOf(es: seq<Entry>, e: Entry) returns (a: nat)
    requires !Has(es, e.id)
    ensures var order := Oldest(es + [e]);
            && a < |order| && order[a] == e
            && (forall i | 0 <= i < |order| && i != a :: order[i] != e)
            && Sum(order[a..]) == e.size + Sum(Newer(es, e.used))
  {
    var before, after := OrderWith(es, e);
    var order := before + [e] + after;
    a := |before|;
    assert order[a..][1..] == after;
    forall i | 0 <= i < |order| && i != a ensures order[i] != e {
      assert order[i] in if i < a then before else after;
    }
  }

  lemma {:induction false} AddedIsDistinct(c: Cache, e: Entry)
    requires Distinct(c.entries) && !Has(c.entries, e.id) && c.total == Sum(c.entries)
    ensures Add(c, e) == c.(entries := c.entries + [e], total := Sum(c.entries + [e]))
    ensures Distinct(c.entries + [e])
  {
    PutNew(c.entries, e);
  }

  lemma {:induction false} AddedStaysUnderAForwardClock(c: Cache, e: Entry)
    requires Valid(c) && !Has(c.entries, e.id) && e.size <= MaxFile(c.maxBytes)
    requires forall x | x in c.entries :: x.used <= e.used
    ensures e in Evict(Add(c, e)).entries
  {
    NewerNone(c.entries, [], e.used);
    assert c.entries + [] == c.entries;
    AddedSurvives(c, e);
  }

  // --- every step of every interleaving keeps `Valid` ---------------------------------------------

  lemma {:induction false} RemoveKeeps(c: Cache, id: Id)
    requires Valid(c)
    ensures Valid(Remove(c, id)) && Remove(c, id).total <= c.total
  {
    WithoutFacts(c.entries, id);
  }

  lemma {:induction false} EvictStepKeeps(c: Cache, oldest: seq<Id>)
    requires Distinct(c.entries) && c.total == Sum(c.entries)
    requires forall e | e in c.entries :: e.size <= MaxFile(c.maxBytes) && e.id in oldest
    requires 0 < |c.chain| <= MAX_PENDING
    requires forall i, j | 0 <= i < j < |c.chain| :: c.chain[i] != c.chain[j]
    requires forall i | 1 <= i < |c.chain| :: !Has(c.entries, c.chain[i])
    requires c.total <= c.maxBytes + MaxFile(c.maxBytes)
    ensures Valid(EvictStep(c, oldest))
  {
    if oldest == [] {
      assert forall e | e in c.entries :: false;
      assert c.entries == [];
    } else if c.total > c.maxBytes {
      WithoutFacts(c.entries, oldest[0]);
    }
  }

  lemma {:induction false} AllInOrder(es: seq<Entry>)
    ensures forall e | e in es :: e.id in IdsOf(Oldest(es))
  {
    OldestFacts(es);
    forall e | e in es ensures e.id in IdsOf(Oldest(es)) {
      assert e in multiset(es);
      IdsOfMember(Oldest(es), e);
    }
  }

  lemma {:induction false} CompletedKeeps(c: Cache, file: string, size: nat, now: int)
    requires Valid(c) && Enabled(c, Completed(file, size, now))
    ensures Valid(Apply(c, Completed(file, size, now)))
  {
    var e := Entry(c.chain[0], file, size, now);
    assert !Has(c.entries, c.chain[0]);
    AddedIsDistinct(c, e);
    var c1 := Add(c, e);
    PutNew(c.entries, e);
    AllInOrder(c1.entries);
    assert forall i | 1 <= i < |c.chain| :: c.chain[0] != c.chain[i] && !Has(c.entries, c.chain[i]);
    EvictStepKeeps(c1, IdsOf(Oldest(c1.entries)));
  }

  lemma {:induction false} LookupKeeps(c: Cache, id: Id, now: int)
    requires Valid(c)
    ensures Valid(Apply(c, Lookup(id, now)))
  {
    var r := Touch(c.entries, id, now);
    TouchKeepsTheRest(c.entries, id, now);
    TouchDistinct(c.entries, id, now);
  }

  lemma {:induction false} TouchDistinct(es: seq<Entry>, id: Id, now: int)
    requires Distinct(es)
    ensures Distinct(Touch(es, id, now)) && Sum(Touch(es, id, now)) == Sum(es)
  {
    TouchFacts(es, id, now);
  }

  lemma {:induction false} StepKeepsValid(c: Cache, step: Step)
    requires Valid(c) && Enabled(c, step)
    ensures Valid(Apply(c, step))
  {
    match step
    case Lookup(id, now) => LookupKeeps(c, id, now);
    case Drop(id) => RemoveKeeps(c, id);
    case Fetch(_, _) =>
    case Completed(file, size, now) => CompletedKeeps(c, file, size, now);
    case GaveUp =>
    case EvictNext => EvictStepKeeps(c, c.evicting.value);
  }

  predicate Runs(c: Cache, steps: seq<Step>)
    decreases |steps|
  {
    steps == [] || (Enabled(c, steps[0]) && Runs(Apply(c, steps[0]), steps[1..]))
  }

  function After(c: Cache, steps: seq<Step>): Cache
    requires Runs(c, steps)
    decreases |steps|
  {
    if steps == [] then c else After(Apply(c, steps[0]), steps[1..])
  }

  /** Over any interleaving of lookups, removals, requests, downloads and evictions: the total is the sum of what is
      kept, never more than one file over the limit, within it whenever no eviction is under way, and no
      song is downloaded while it is cached or downloading. */
  lemma {:induction false} AccountingIsExact(c: Cache, steps: seq<Step>, d: Cache)
    requires Valid(c) && Runs(c, steps) && d == After(c, steps)
    ensures Valid(d)
    ensures d.total == Sum(d.entries) <= d.maxBytes + MaxFile(d.maxBytes)
    ensures d.evicting.None? ==> d.total <= d.maxBytes
    ensures forall i, j | 0 <= i < j < |d.chain| :: d.chain[i] != d.chain[j]
    decreases |steps|
  {
    if steps != [] {
      StepKeepsValid(c, steps[0]);
      AccountingIsExact(Apply(c, steps[0]), steps[1..], d);
    }
  }
}
