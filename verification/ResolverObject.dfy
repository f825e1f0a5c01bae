/**
 The resolver as an object whose maps are updated in place, tied step by step to the state machine.
 */
module ResolverObject {
  import opened InsertionMap
  import opened Resolver
  import opened ResolverRun
  import opened Wrappers

  class Resolving {
    const hasFast: bool
    const stamp: string -> Option<int>
    var cache: OMap<string, Entry>
    var refused: OMap<string, int>
    var inflight: map<string, bool>
    ghost var verified: set<Answer>

    ghost function View(): State
      reads this
    {
      State(cache, refused, inflight, verified)
    }

    constructor (hasFast: bool, stamp: string -> Option<int>)
      ensures View() == FRESH && this.hasFast == hasFast && this.stamp == stamp
    {
      this.hasFast, this.stamp := hasFast, stamp;
      cache, refused, inflight, verified := OMap([], map[]), OMap([], map[]), map[], {};
    }

    /** A URL that is still valid; one that is not is dropped. Looking does not use it up. */
    method PeekUrl(id: string, now: int) returns (a: Option<Answer>)
      requires Valid(View())
      modifies this`cache
      ensures View() == Apply(old(View()), Peek(id, now), hasFast, stamp) && Valid(View())
      ensures a == Peeked(old(View()), id, now) && (a.Some? ==> a.value in verified)
      ensures a.Some? <==> id in cache.items
    {
      StepKeepsValid(View(), Peek(id, now), hasFast, stamp);
      if id !in cache.items {
        return None;
      }
      var hit := cache.items[id];
      if Expired(hit, now) {
        cache := Remove(cache, id);
        return None;
      }
      return Some(hit.answer);
    }

    method RefuseFast(id: string, now: int)
      modifies this`refused
      ensures refused == Trim(Put(old(refused), id, now), MAX_ENTRIES)
    {
      refused := Put(refused, id, now);
      while |refused.order| > MAX_ENTRIES
        invariant Trim(refused, MAX_ENTRIES) == Trim(Put(old(refused), id, now), MAX_ENTRIES)
      {
        refused := OMap(refused.order[1..], refused.items - {refused.order[0]});
      }
    }

    method InvalidateUrl(id: string, now: int)
      requires Valid(View())
      modifies this`cache, this`refused
      ensures View() == Apply(old(View()), Invalidate(id, now), hasFast, stamp) && Valid(View())
    {
      StepKeepsValid(View(), Invalidate(id, now), hasFast, stamp);
      if id in cache.items && cache.items[id].fast {
        RefuseFast(id, now);
      }
      cache := Remove(cache, id);
    }

    // Whether the new resolve is to try the fast path.
    method BeginResolve(id: string, now: int) returns (fast: bool)
      requires Valid(View()) && Enabled(View(), Begin(id, now))
      modifies this`cache, this`refused, this`inflight
      ensures View() == Apply(old(View()), Begin(id, now), hasFast, stamp) && Valid(View())
      ensures inflight == old(inflight)[id := fast]
    {
      StepKeepsValid(View(), Begin(id, now), hasFast, stamp);
      cache := Remove(cache, id);
      fast := hasFast && !(id in refused.items && now - refused.items[id] < FAST_REFUSED);
      if fast {
        refused := Remove(refused, id);
      }
      inflight := inflight[id := fast];
    }

    method StoreUrl(id: string, f: Found)
      modifies this`cache
      ensures cache == Trim(Put(old(cache), id, EntryFor(f, stamp)), MAX_ENTRIES)
    {
      cache := Put(cache, id, EntryFor(f, stamp));
      while |cache.order| > MAX_ENTRIES
        invariant Trim(cache, MAX_ENTRIES) == Trim(Put(old(cache), id, EntryFor(f, stamp)), MAX_ENTRIES)
      {
        cache := OMap(cache.order[1..], cache.items - {cache.order[0]});
      }
    }

    /** The resolve comes to its end: the fast path if it was due, then the ladder. Only a verified URL is kept. */
    method LandResolve(id: string, w: Weather) returns (a: Option<Answer>)
      requires Valid(View()) && id in inflight
      modifies this`cache, this`inflight, this`verified
      ensures View() == Apply(old(View()), Land(id, w), hasFast, stamp) && Valid(View())
      ensures a.Some? ==> a.value in verified && id in cache.items && cache.items[id].answer == a.value
      ensures a.None? <==> NothingPlays(old(inflight)[id], w)
      ensures a.Some? ==> IsFirst(old(inflight)[id], w, Found(a.value, cache.items[id].fast))
      ensures a == match RunResult(old(inflight)[id], w) case None => None case Some(f) => Some(f.answer)
    {
      StepKeepsValid(View(), Land(id, w), hasFast, stamp);
      RunResultIsVerified(inflight[id], w);
      FirstThatPlaysWins(inflight[id], w);
      var fast := inflight[id];
      var found: Option<Found> := None;
      if fast && Resolved(w.fast).Some? {
        var ok, _ := Verify(w.fast.probe);
        if ok {
          found := Some(Found(Resolved(w.fast).value, true));
        }
      }
      if found == None {
        var o := Walk(w.ladder, w.again, w.running);
        if o.answer.Some? {
          found := Some(Found(o.answer.value, false));
        }
      }
      if found.Some? {
        BoundedPut(cache, id, EntryFor(found.value, stamp), MAX_ENTRIES);
        StoreUrl(id, found.value);
      }
      verified := verified + PassedBy(TrialsOf(fast, w));
      inflight := inflight - {id};
      return if found.Some? then Some(found.value.answer) else None;
    }
  }
}
