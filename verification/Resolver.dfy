/**
 The resolver's memory: resolved URLs, the videos whose fast URL did not play, and the resolves in flight. Resolves for
 different videos interleave freely. Times are in milliseconds.
 */
module Resolver {
  import opened InsertionMap
  import opened ResolverRun
  import opened Wrappers

  const EXPIRY_MARGIN: int := 5 * 60 * 1000
  const MAX_ENTRIES: nat := 8
  const FAST_REFUSED: int := 30 * 60 * 1000

  datatype Entry = Entry(answer: Answer, expiresAt: Option<int>, fast: bool)

  /** `verified` is every answer some `Verify` has passed so far. */
  datatype State = State(
    cache: OMap<string, Entry>, refused: OMap<string, int>, inflight: map<string, bool>, verified: set<Answer>)

  const FRESH: State := State(OMap([], map[]), OMap([], map[]), map[], {})

  // What one resolve meets: the fast path if it is tried, then the ladder.
  datatype Weather = Weather(fast: Trial, ladder: seq<Trial>, again: Trial, running: bool)

  datatype Step =
    | Peek(id: string, now: int)
    | Invalidate(id: string, now: int)
    | Begin(id: string, now: int)
    | Land(id: string, weather: Weather)

  // --- one resolve -----------------------------------------------------------------------------

  datatype Found = Found(answer: Answer, fast: bool)

  function RunResult(fastTried: bool, w: Weather): Option<Found> {
    if fastTried && Playable(w.fast) then Some(Found(Resolved(w.fast).value, true))
    else
      match Walked(w.ladder, w.again, w.running).answer
      case None => None
      case Some(a) => Some(Found(a, false))
  }

  function TrialsOf(fastTried: bool, w: Weather): seq<Trial> {
    (if fastTried then [w.fast] else []) + Attempts(w.ladder, w.again, w.running)
  }

  ghost predicate PassedIn(a: Answer, ts: seq<Trial>) {
    exists i :: 0 <= i < |ts| && Playable(ts[i]) && Resolved(ts[i]) == Some(a)
  }

  function PassedBy(ts: seq<Trial>): (r: set<Answer>)
    ensures forall a :: a in r <==> PassedIn(a, ts)
  {
    if ts == [] then {}
    else
      var last := ts[|ts| - 1];
      var front := PassedBy(ts[..|ts| - 1]);
      if Playable(last) then front + {Resolved(last).value} else front
  }

  lemma {:induction false} RunResultIsVerified(fastTried: bool, w: Weather)
    ensures RunResult(fastTried, w).Some? ==>
              RunResult(fastTried, w).value.answer in PassedBy(TrialsOf(fastTried, w))
  {
    var ts := TrialsOf(fastTried, w);
    var rest := Attempts(w.ladder, w.again, w.running);
    if fastTried && Playable(w.fast) {
      assert Playable(ts[0]) && Resolved(ts[0]) == Some(RunResult(fastTried, w).value.answer);
    } else if RunResult(fastTried, w).Some? {
      var i := (if fastTried then 1 else 0) + FirstPlayable(rest);
      assert ts[i] == rest[FirstPlayable(rest)];
      assert PassedIn(RunResult(fastTried, w).value.answer, ts);
    }
  }

  // The daemon is restarted: it runs, nothing on the ladder played, and something on it came to a URL that did not work.
  ghost predicate RestartDue(w: Weather) {
    && w.running && (forall i | 0 <= i < |w.ladder| :: !Playable(w.ladder[i]))
    && exists i :: 0 <= i < |w.ladder| && Rejected(w.ladder[i])
  }

  // Nothing the resolve may try plays.
  ghost predicate NothingPlays(fastTried: bool, w: Weather) {
    && (fastTried ==> !Playable(w.fast)) && (forall i | 0 <= i < |w.ladder| :: !Playable(w.ladder[i]))
    && (RestartDue(w) ==> !Playable(w.again))
  }

  // `f` is the answer of the first that plays: the fast path, the ladder in order, the primary client after a restart.
  ghost predicate IsFirst(fastTried: bool, w: Weather, f: Found) {
    if fastTried && Playable(w.fast) then f.fast && Resolved(w.fast) == Some(f.answer)
    else
      && !f.fast
      && ((exists i :: FirstOnLadder(w, i) && Resolved(w.ladder[i]) == Some(f.answer))
          || (RestartDue(w) && Playable(w.again) && Resolved(w.again) == Some(f.answer)))
  }

  ghost predicate FirstOnLadder(w: Weather, i: int) {
    0 <= i < |w.ladder| && Playable(w.ladder[i]) && forall j | 0 <= j < i :: !Playable(w.ladder[j])
  }

  /** A resolve finds nothing if and only if nothing it may try plays: neither the fast path, if it is due, nor anything on
      the ladder, nor the primary client after a restart. Otherwise it answers what the first that plays does, and says
      whether that was the fast path. */
  lemma {:induction false} FirstThatPlaysWins(fastTried: bool, w: Weather)
    ensures RunResult(fastTried, w).None? <==> NothingPlays(fastTried, w)
    ensures forall f :: RunResult(fastTried, w) == Some(f) <==> IsFirst(fastTried, w, f)
  {
    var ts := Attempts(w.ladder, w.again, w.running);
    var k := FirstPlayable(ts);
    assert forall i | 0 <= i < |w.ladder| :: ts[i] == w.ladder[i];
    LadderRestarts(w);
    if k < |w.ladder| {
      assert FirstOnLadder(w, k);
      assert forall i | FirstOnLadder(w, i) :: i == k;
    }
  }

  lemma {:induction false} LadderRestarts(w: Weather)
    ensures Restarts(w.ladder, w.running) <==> RestartDue(w)
  {
    var k := FirstPlayable(w.ladder);
    assert k < |w.ladder| ==> Playable(w.ladder[k]);
  }

  // --- the steps -------------------------------------------------------------------------------

  predicate Expired(e: Entry, now: int) {
    e.expiresAt.Some? && e.expiresAt.value != 0 && e.expiresAt.value <= now
  }

  // Whether a resolve that starts now leaves the fast path out.
  predicate Refused(s: State, id: string, now: int) {
    id in s.refused.items && now - s.refused.items[id] < FAST_REFUSED
  }

  predicate Enabled(s: State, e: Step) {
    match e
    case Peek(_, _) => true
    case Invalidate(_, _) => true
    case Begin(id, now) => id !in s.inflight && (id in s.cache.items ==> Expired(s.cache.items[id], now))
    case Land(id, _) => id in s.inflight
  }

  function Peeked(s: State, id: string, now: int): Option<Answer> {
    if id in s.cache.items && !Expired(s.cache.items[id], now) then Some(s.cache.items[id].answer) else None
  }

  function Forgotten(s: State, id: string): State {
    State(Remove(s.cache, id), s.refused, s.inflight, s.verified)
  }

  // `stamp` reads the lifetime YouTube wrote into a URL; `hasFast` is whether there is a fast path.
  function Apply(s: State, e: Step, hasFast: bool, stamp: string -> Option<int>): State {
    match e
    case Peek(id, now) => if id in s.cache.items && Expired(s.cache.items[id], now) then Forgotten(s, id) else s
    case Invalidate(id, now) =>
      var refused := if id in s.cache.items && s.cache.items[id].fast
                     then Trim(Put(s.refused, id, now), MAX_ENTRIES) else s.refused;
      State(Remove(s.cache, id), refused, s.inflight, s.verified)
    case Begin(id, now) =>
      var fast := hasFast && !Refused(s, id, now);
      var t := Forgotten(s, id);
      State(t.cache, if fast then Remove(s.refused, id) else s.refused, s.inflight[id := fast], s.verified)
    case Land(id, w) =>
      var fast := id in s.inflight && s.inflight[id];
      var cache := match RunResult(fast, w)
                   case None => s.cache
                   case Some(f) => Trim(Put(s.cache, id, EntryFor(f, stamp)), MAX_ENTRIES);
      State(cache, s.refused, s.inflight - {id}, s.verified + PassedBy(TrialsOf(fast, w)))
  }

  function EntryFor(f: Found, stamp: string -> Option<int>): Entry {
    var e := stamp(f.answer.url);
    Entry(f.answer, if e.Some? then Some(e.value * 1000 - EXPIRY_MARGIN) else None, f.fast)
  }

  /** Everything cached has been verified, nothing is both cached and in flight, and both stores are bounded. */
  ghost predicate Valid(s: State) {
    && WellFormed(s.cache) && WellFormed(s.refused)
    && |s.cache.order| <= MAX_ENTRIES && |s.refused.order| <= MAX_ENTRIES
    && (forall id | id in s.cache.items :: s.cache.items[id].answer in s.verified && id !in s.inflight)
    && (forall id | id in s.cache.items && s.cache.items[id].fast :: id !in s.refused.items)
    && (forall id | id in s.inflight && s.inflight[id] :: id !in s.refused.items)
  }

  lemma {:induction false} StepKeepsValid(s: State, e: Step, hasFast: bool, stamp: string -> Option<int>)
    requires Valid(s) && Enabled(s, e)
    ensures Valid(Apply(s, e, hasFast, stamp))
    ensures s.verified <= Apply(s, e, hasFast, stamp).verified
  {
    match e
    case Peek(id, now) => RemoveIsWellFormed(s.cache, id);
    case Invalidate(id, now) =>
      RemoveIsWellFormed(s.cache, id);
      BoundedPut(s.refused, id, now, MAX_ENTRIES);
    case Begin(id, now) =>
      RemoveIsWellFormed(s.cache, id);
      RemoveIsWellFormed(s.refused, id);
    case Land(id, w) => LandKeepsValid(s, id, w, stamp);
  }

  lemma {:induction false} LandKeepsValid(s: State, id: string, w: Weather, stamp: string -> Option<int>)
    requires Valid(s) && id in s.inflight
    ensures Valid(Apply(s, Land(id, w), true, stamp))
  {
    RunResultIsVerified(s.inflight[id], w);
    var r := RunResult(s.inflight[id], w);
    if r.Some? {
      BoundedPut(s.cache, id, EntryFor(r.value, stamp), MAX_ENTRIES);
    }
  }

  ghost predicate Runs(s: State, es: seq<Step>, t: State, hasFast: bool, stamp: string -> Option<int>)
    decreases |es|
  {
    if es == [] then s == t
    else Enabled(s, es[0]) && Runs(Apply(s, es[0], hasFast, stamp), es[1..], t, hasFast, stamp)
  }

  /** Over every interleaving of lookups, resolves and invalidations: a URL handed out from the cache has passed
      verification, and the cache never holds more than `MAX_ENTRIES`. */
  lemma {:induction false} EveryUrlIsVerified(
    s: State, es: seq<Step>, t: State, hasFast: bool, stamp: string -> Option<int>)
    requires Valid(s) && Runs(s, es, t, hasFast, stamp)
    ensures Valid(t) && s.verified <= t.verified
    ensures forall id, now | Peeked(t, id, now).Some? :: Peeked(t, id, now).value in t.verified
    decreases |es|
  {
    if es != [] {
      StepKeepsValid(s, es[0], hasFast, stamp);
      EveryUrlIsVerified(Apply(s, es[0], hasFast, stamp), es[1..], t, hasFast, stamp);
    }
  }

  // --- a URL past its lifetime ---------------------------------------------------------------------

  // Every entry carries the lifetime written into its URL.
  ghost predicate Stamped(s: State, stamp: string -> Option<int>) {
    forall id | id in s.cache.items ::
      s.cache.items[id] == EntryFor(Found(s.cache.items[id].answer, s.cache.items[id].fast), stamp)
  }

  lemma {:induction false} StepKeepsStamped(s: State, e: Step, hasFast: bool, stamp: string -> Option<int>)
    requires Valid(s) && Stamped(s, stamp) && Enabled(s, e)
    ensures Stamped(Apply(s, e, hasFast, stamp), stamp)
  {
    match e
    case Peek(id, now) => RemoveIsWellFormed(s.cache, id);
    case Invalidate(id, now) => RemoveIsWellFormed(s.cache, id);
    case Begin(id, now) => RemoveIsWellFormed(s.cache, id);
    case Land(id, w) =>
      var r := RunResult(id in s.inflight && s.inflight[id], w);
      if r.Some? {
        BoundedPut(s.cache, id, EntryFor(r.value, stamp), MAX_ENTRIES);
      }
  }

  /** A URL is handed out only while it has more than the margin of its own lifetime left, if it names one at all. (A
      lifetime that ends exactly one margin after the epoch reads as none.) */
  lemma {:induction false} NeverHandedOutStale(
    s: State, es: seq<Step>, t: State, hasFast: bool, stamp: string -> Option<int>, id: string, now: int)
    requires Valid(s) && Stamped(s, stamp) && Runs(s, es, t, hasFast, stamp)
    ensures Peeked(t, id, now).Some? ==>
              var life := stamp(Peeked(t, id, now).value.url);
              life.Some? && life.value * 1000 != EXPIRY_MARGIN ==> now < life.value * 1000 - EXPIRY_MARGIN
    decreases |es|
  {
    if es != [] {
      StepKeepsValid(s, es[0], hasFast, stamp);
      StepKeepsStamped(s, es[0], hasFast, stamp);
      NeverHandedOutStale(Apply(s, es[0], hasFast, stamp), es[1..], t, hasFast, stamp, id, now);
    }
  }

  // --- a refused fast URL ------------------------------------------------------------------------

  // Handing back a URL: it is neither cached nor on its way, and a fast one is refused from now on.
  lemma {:induction false} HandedBack(s: State, id: string, now: int, hasFast: bool, stamp: string -> Option<int>)
    requires Valid(s) && id in s.cache.items
    ensures var t := Apply(s, Invalidate(id, now), hasFast, stamp);
            && Valid(t) && id !in t.cache.items && id !in t.inflight
            && (s.cache.items[id].fast ==> id in t.refused.items && t.refused.items[id] == now)
  {
    StepKeepsValid(s, Invalidate(id, now), hasFast, stamp);
    BoundedPut(s.refused, id, now, MAX_ENTRIES);
    RemoveIsWellFormed(s.cache, id);
  }

  // `k` stands in the list with at most `n` after it.
  ghost predicate Recent<K>(order: seq<K>, k: K, n: int) {
    exists i :: 0 <= i < |order| && order[i] == k && |order| - 1 - i <= n
  }

  lemma {:induction false} StaysRecentWithout<K>(order: seq<K>, k: K, n: int, gone: K)
    requires Recent(order, k, n) && gone != k
    ensures Recent(WithoutKey(order, gone), k, n)
  {
    var i :| 0 <= i < |order| && order[i] == k && |order| - 1 - i <= n;
    var j := PlaceWithout(order, i, gone);
  }

  // An element that stays keeps its place, counted from the end, or moves towards it.
  lemma {:induction false} PlaceWithout<K>(order: seq<K>, i: nat, gone: K) returns (j: nat)
    requires i < |order| && order[i] != gone
    ensures var r := WithoutKey(order, gone); j < |r| && r[j] == order[i] && |r| - 1 - j <= |order| - 1 - i
  {
    if i == 0 {
      j := 0;
    } else {
      j := PlaceWithout(order[1..], i - 1, gone);
      if order[0] != gone {
        j := j + 1;
      }
    }
  }

  lemma {:induction false} StaysRecentAfterPut<K(!new), V>(m: OMap<K, V>, k: K, n: nat, other: K, v: V, max: nat)
    requires WellFormed(m) && |m.order| <= max && Recent(m.order, k, n) && n + 1 < max && other !in m.items
    ensures Recent(Trim(Put(m, other, v), max).order, k, n + 1)
  {
    var p := Put(m, other, v);
    PutIsWellFormed(m, other, v);
    TrimKeepsTheYoungest(p, max);
    assert p.order == m.order + [other] && |p.order| == |m.order| + 1;
    EndStaysRecent(m.order, k, n, other, |p.order| - |Trim(p, max).order|);
  }

  lemma {:induction false} EndStaysRecent<K>(order: seq<K>, k: K, n: nat, other: K, dropped: nat)
    requires Recent(order, k, n) && (dropped == 0 || dropped + n < |order|)
    ensures Recent((order + [other])[dropped..], k, n + 1)
  {
    var i :| 0 <= i < |order| && order[i] == k && |order| - 1 - i <= n;
    assert (order + [other])[dropped..][i - dropped] == k;
  }

  lemma {:induction false} PutKeepsRecent<V>(m: OMap<string, V>, id: string, v: V, n: nat, x: string, w: V)
    requires WellFormed(m) && |m.order| <= MAX_ENTRIES && Recent(m.order, id, n) && n + 1 < MAX_ENTRIES
    requires x !in m.items && id in m.items && m.items[id] == v
    ensures var t := Trim(Put(m, x, w), MAX_ENTRIES); id in t.items && t.items[id] == v && Recent(t.order, id, n + 1)
  {
    StaysRecentAfterPut(m, id, n, x, w, MAX_ENTRIES);
    BoundedPut(m, x, w, MAX_ENTRIES);
    var t := Trim(Put(m, x, w), MAX_ENTRIES);
    assert id in t.order;
  }

  // How many fast URLs are handed back in a run.
  function Refusals(s: State, es: seq<Step>, hasFast: bool, stamp: string -> Option<int>): nat
    decreases |es|
  {
    if es == [] then 0
    else
      (if es[0].Invalidate? && es[0].id in s.cache.items && s.cache.items[es[0].id].fast then 1 else 0)
      + Refusals(Apply(s, es[0], hasFast, stamp), es[1..], hasFast, stamp)
  }

  // Every resolve of `id` in the run starts within the refusal that began at `at`.
  predicate Within(es: seq<Step>, id: string, at: int) {
    forall e | e in es && e.Begin? && e.id == id :: e.now - at < FAST_REFUSED
  }

  ghost predicate StillRefused(s: State, id: string, at: int, n: int) {
    id in s.refused.items && s.refused.items[id] == at && Recent(s.refused.order, id, n)
  }

  lemma {:induction false} StepKeepsRefusal(
    s: State, id: string, at: int, n: nat, e: Step, hasFast: bool, stamp: string -> Option<int>)
    requires Valid(s) && Enabled(s, e) && StillRefused(s, id, at, n)
    requires n + Refusals(s, [e], hasFast, stamp) < MAX_ENTRIES && Within([e], id, at)
    ensures StillRefused(Apply(s, e, hasFast, stamp), id, at, n + Refusals(s, [e], hasFast, stamp))
  {
    match e
    case Peek(x, now) =>
    case Invalidate(x, now) =>
      if x in s.cache.items && s.cache.items[x].fast {
        BoundedPut(s.refused, x, now, MAX_ENTRIES);
        PutKeepsRecent(s.refused, id, at, n, x, now);
      }
    case Begin(x, now) =>
      assert e in [e];
      if x != id {
        RemoveIsWellFormed(s.refused, x);
        StaysRecentWithout(s.refused.order, id, n, x);
      }
    case Land(x, w) =>
  }

  lemma {:induction false} RefusalLasts(
    s: State, id: string, at: int, n: nat, es: seq<Step>, t: State, hasFast: bool, stamp: string -> Option<int>)
    requires Valid(s) && Runs(s, es, t, hasFast, stamp) && StillRefused(s, id, at, n)
    requires n + Refusals(s, es, hasFast, stamp) < MAX_ENTRIES && Within(es, id, at)
    ensures Valid(t) && id in t.refused.items && t.refused.items[id] == at
    decreases |es|
  {
    if es != [] {
      var e := es[0];
      assert [e][0] == e && [e][1..] == [];
      assert Within([e], id, at) && Within(es[1..], id, at);
      assert Refusals(Apply(s, e, hasFast, stamp), [], hasFast, stamp) == 0;
      StepKeepsValid(s, e, hasFast, stamp);
      StepKeepsRefusal(s, id, at, n, e, hasFast, stamp);
      RefusalLasts(Apply(s, e, hasFast, stamp), id, at, n + Refusals(s, [e], hasFast, stamp), es[1..], t, hasFast, stamp);
    }
  }

  /** Handing back a fast URL keeps the fast path out of every resolve of that video for half an hour, whatever happens in
      between, unless as many other fast URLs are handed back as the list has room for. */
  lemma {:induction false} NextResolveAvoidsTheFastPath(
    s: State, id: string, now: int, es: seq<Step>, t: State, later: int, hasFast: bool, stamp: string -> Option<int>)
    requires Valid(s) && id in s.cache.items && s.cache.items[id].fast
    requires var r := Apply(s, Invalidate(id, now), hasFast, stamp);
             Runs(r, es, t, hasFast, stamp) && Refusals(r, es, hasFast, stamp) < MAX_ENTRIES
    requires Within(es, id, now) && later - now < FAST_REFUSED && Enabled(t, Begin(id, later))
    ensures !Apply(t, Begin(id, later), hasFast, stamp).inflight[id]
  {
    var r := Apply(s, Invalidate(id, now), hasFast, stamp);
    HandedBack(s, id, now, hasFast, stamp);
    NewestIsRecent(s.refused, id, now);
    RefusalLasts(r, id, now, 0, es, t, hasFast, stamp);
  }

  lemma {:induction false} NewestIsRecent<V>(m: OMap<string, V>, id: string, now: V)
    requires WellFormed(m) && id !in m.items
    ensures Recent(Trim(Put(m, id, now), MAX_ENTRIES).order, id, 0)
  {
    var p := Put(m, id, now);
    PutIsWellFormed(m, id, now);
    TrimKeepsTheYoungest(p, MAX_ENTRIES);
    var order := Trim(p, MAX_ENTRIES).order;
    assert p.order[|p.order| - 1] == id;
    assert order[|order| - 1] == id;
  }

  lemma {:induction false} StepRefuses(
    s: State, e: Step, hasFast: bool, stamp: string -> Option<int>, id: string)
    requires WellFormed(s.refused) && Enabled(s, e) && id in Apply(s, e, hasFast, stamp).refused.items
    ensures WellFormed(Apply(s, e, hasFast, stamp).refused)
    ensures var at := Apply(s, e, hasFast, stamp).refused.items[id];
            (id in s.refused.items && s.refused.items[id] == at) || e == Invalidate(id, at)
  {
    match e
    case Peek(_, _) =>
    case Invalidate(x, now) =>
      PutIsWellFormed(s.refused, x, now);
      TrimKeepsTheYoungest(Put(s.refused, x, now), MAX_ENTRIES);
    case Begin(x, _) => RemoveIsWellFormed(s.refused, x);
    case Land(_, _) =>
  }

  lemma {:induction false} OnlyHandedBackIsRefused(
    s: State, es: seq<Step>, t: State, hasFast: bool, stamp: string -> Option<int>, id: string)
    requires Valid(s) && Runs(s, es, t, hasFast, stamp) && id in t.refused.items
    ensures (id in s.refused.items && s.refused.items[id] == t.refused.items[id])
            || Invalidate(id, t.refused.items[id]) in es
    decreases |es|
  {
    if es != [] {
      var n := Apply(s, es[0], hasFast, stamp);
      StepKeepsValid(s, es[0], hasFast, stamp);
      OnlyHandedBackIsRefused(n, es[1..], t, hasFast, stamp, id);
      if id in n.refused.items && n.refused.items[id] == t.refused.items[id] {
        StepRefuses(s, es[0], hasFast, stamp, id);
      }
    }
  }

  /** And only that keeps it out: a resolve of a video that was not handed back within the last half hour tries the fast
      path, if there is one. */
  lemma {:induction false} OtherResolvesTryTheFastPath(
    es: seq<Step>, t: State, later: int, hasFast: bool, stamp: string -> Option<int>, id: string)
    requires Runs(FRESH, es, t, hasFast, stamp) && Enabled(t, Begin(id, later))
    requires forall at | Invalidate(id, at) in es :: later - at >= FAST_REFUSED
    ensures Apply(t, Begin(id, later), hasFast, stamp).inflight[id] == hasFast
  {
    if id in t.refused.items {
      OnlyHandedBackIsRefused(FRESH, es, t, hasFast, stamp, id);
    }
  }

  // --- a URL resolved ahead ------------------------------------------------------------------------

  // How many resolves of a run end in a URL to be kept.
  function Stores(s: State, es: seq<Step>, hasFast: bool, stamp: string -> Option<int>): nat
    decreases |es|
  {
    if es == [] then 0
    else
      (if es[0].Land? && es[0].id in s.inflight && RunResult(s.inflight[es[0].id], es[0].weather).Some? then 1 else 0)
      + Stores(Apply(s, es[0], hasFast, stamp), es[1..], hasFast, stamp)
  }

  // Nobody hands `id` back, and whoever asks for it does so within its lifetime.
  predicate Minds(e: Step, id: string, life: Option<int>) {
    match e
    case Peek(x, now) => x == id && life.Some? && life.value != 0 ==> now < life.value
    case Begin(x, now) => x == id && life.Some? && life.value != 0 ==> now < life.value
    case Invalidate(x, _) => x != id
    case Land(_, _) => true
  }

  ghost predicate StillStored(s: State, id: string, entry: Entry, n: int) {
    id in s.cache.items && s.cache.items[id] == entry && Recent(s.cache.order, id, n)
  }

  lemma {:induction false} RemoveKeepsStored(s: State, id: string, entry: Entry, n: nat, x: string)
    requires Valid(s) && StillStored(s, id, entry, n) && x != id
    ensures StillStored(Forgotten(s, x), id, entry, n)
  {
    RemoveIsWellFormed(s.cache, x);
    StaysRecentWithout(s.cache.order, id, n, x);
  }

  lemma {:induction false} StepKeepsStored(
    s: State, id: string, entry: Entry, n: nat, e: Step, hasFast: bool, stamp: string -> Option<int>)
    requires Valid(s) && Enabled(s, e) && StillStored(s, id, entry, n) && Minds(e, id, entry.expiresAt)
    requires n + Stores(s, [e], hasFast, stamp) < MAX_ENTRIES
    ensures StillStored(Apply(s, e, hasFast, stamp), id, entry, n + Stores(s, [e], hasFast, stamp))
  {
    match e
    case Peek(x, now) => if x != id { RemoveKeepsStored(s, id, entry, n, x); }
    case Invalidate(x, now) => RemoveKeepsStored(s, id, entry, n, x);
    case Begin(x, now) => RemoveKeepsStored(s, id, entry, n, x);
    case Land(x, w) =>
      var r := RunResult(s.inflight[x], w);
      if r.Some? {
        PutKeepsRecent(s.cache, id, entry, n, x, EntryFor(r.value, stamp));
      }
  }

  lemma {:induction false} StoredLasts(
    s: State, id: string, entry: Entry, n: nat, es: seq<Step>, t: State, hasFast: bool, stamp: string -> Option<int>)
    requires Valid(s) && Runs(s, es, t, hasFast, stamp) && StillStored(s, id, entry, n)
    requires n + Stores(s, es, hasFast, stamp) < MAX_ENTRIES && forall e | e in es :: Minds(e, id, entry.expiresAt)
    ensures id in t.cache.items && t.cache.items[id] == entry
    decreases |es|
  {
    if es != [] {
      var e := es[0];
      assert [e][0] == e && [e][1..] == [] && e in es;
      assert Stores(Apply(s, e, hasFast, stamp), [], hasFast, stamp) == 0;
      StepKeepsValid(s, e, hasFast, stamp);
      StepKeepsStored(s, id, entry, n, e, hasFast, stamp);
      StoredLasts(Apply(s, e, hasFast, stamp), id, entry, n + Stores(s, [e], hasFast, stamp), es[1..], t, hasFast, stamp);
    }
  }

  /** A track resolved ahead is there when it is played: what a resolve comes to is handed out to whoever asks before one
      margin is left of its lifetime, whatever happens in between, unless it is handed back or as many other tracks are
      resolved as the cache has room for. */
  lemma {:induction false} ResolvedIsHandedOut(
    s: State, id: string, w: Weather, es: seq<Step>, t: State, now: int, hasFast: bool, stamp: string -> Option<int>)
    requires Valid(s) && id in s.inflight
    requires var r := Apply(s, Land(id, w), hasFast, stamp);
             Runs(r, es, t, hasFast, stamp) && Stores(r, es, hasFast, stamp) < MAX_ENTRIES
    ensures forall f | IsFirst(s.inflight[id], w, f) ::
              var life := stamp(f.answer.url);
              var end := if life.Some? then Some(life.value * 1000 - EXPIRY_MARGIN) else None;
              (forall e | e in es :: Minds(e, id, end)) && Minds(Peek(id, now), id, end)
              ==> Peeked(t, id, now) == Some(f.answer)
  {
    FirstThatPlaysWins(s.inflight[id], w);
    var r := RunResult(s.inflight[id], w);
    if r.Some? {
      var entry := EntryFor(r.value, stamp);
      StepKeepsValid(s, Land(id, w), hasFast, stamp);
      BoundedPut(s.cache, id, entry, MAX_ENTRIES);
      NewestIsRecent(s.cache, id, entry);
      if forall e | e in es :: Minds(e, id, entry.expiresAt) {
        StoredLasts(Apply(s, Land(id, w), hasFast, stamp), id, entry, 0, es, t, hasFast, stamp);
      }
    }
  }
}
