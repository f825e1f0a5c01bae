/**
 The track cache: bounded, least recently mentioned out first; and fetches of missing names that never overlap.
 */
module Catalogue {
  import opened InsertionMap
  import opened Recency
  import opened Sequences
  import opened Wrappers

  const TRACK_CACHE_MAX: nat := 500
  const HYDRATE_BATCH: nat := 50

  // A track without an id teaches nothing.
  datatype Track = Track(videoId: string, title: string)

  // The mentions a batch makes.
  function Named(tracks: seq<Track>): (r: seq<Track>)
    ensures forall i | 0 <= i < |r| :: r[i].videoId != ""
  {
    if tracks == [] then []
    else if tracks[0].videoId != "" then [tracks[0]] + Named(tracks[1..]) else Named(tracks[1..])
  }

  /** Every track with an id is a mention, in its place, and no other is. */
  lemma {:induction false} NamedInPlace(a: seq<Track>, b: seq<Track>, t: Track)
    ensures Named(a + b) == Named(a) + Named(b)
    ensures Named([t]) == if t.videoId == "" then [] else [t]
  {
    assert [t][1..] == [];
    if a == [] {
      assert a + b == b;
    } else {
      assert (a + b)[1..] == a[1..] + b;
      NamedInPlace(a[1..], b, t);
    }
  }

  /** The latest value is that of the last mention. */
  lemma {:induction false} LatestIsOfTheLastMention(log: seq<Track>, id: string)
    ensures var i := LastMention(IdsOf(log), id); Latest(log, id) == if i < 0 then None else Some(log[i])
    decreases |log|
  {
    if log != [] {
      assert IdsOf(log)[..|log| - 1] == IdsOf(log[..|log| - 1]);
      LatestIsOfTheLastMention(log[..|log| - 1], id);
    }
  }

  function IdsOf(log: seq<Track>): (r: seq<string>)
    ensures |r| == |log|
  {
    seq(|log|, i requires 0 <= i < |log| => log[i].videoId)
  }

  // The latest thing the log says of `id`.
  function Latest(log: seq<Track>, id: string): Option<Track> {
    if log == [] then None
    else if log[|log| - 1].videoId == id then Some(log[|log| - 1])
    else Latest(log[..|log| - 1], id)
  }

  function Reversed<T>(s: seq<T>): (r: seq<T>)
    ensures |r| == |s| && forall i | 0 <= i < |s| :: r[i] == s[|s| - 1 - i]
  {
    seq(|s|, i requires 0 <= i < |s| => s[|s| - 1 - i])
  }

  // Removed and put in again: the youngest key now.
  function Renewed(m: OMap<string, Track>, t: Track): OMap<string, Track> {
    Put(Remove(m, t.videoId), t.videoId, t)
  }

  /** The cache agrees with a log: its youngest keys are the log's newest, and every value is the latest. */
  ghost predicate Agrees(m: OMap<string, Track>, log: seq<Track>) {
    && WellFormed(m)
    && Take(TRACK_CACHE_MAX, Reversed(m.order)) == Take(TRACK_CACHE_MAX, Newest(IdsOf(log)))
    && (forall id | id in m.items :: Latest(log, id) == Some(m.items[id]))
  }

  lemma {:induction false} ReversedWithout(s: seq<string>, id: string)
    ensures Reversed(WithoutKey(s, id)) == WithoutKey(Reversed(s), id)
  {
    if s == [] {
    } else {
      ReversedWithout(s[1..], id);
      assert Reversed(s) == Reversed(s[1..]) + [s[0]];
      WithoutKeyJoins(Reversed(s[1..]), [s[0]], id);
      assert WithoutKey([s[0]], id) == if s[0] == id then [] else [s[0]];
      if s[0] != id {
        assert Reversed([s[0]] + WithoutKey(s[1..], id)) == Reversed(WithoutKey(s[1..], id)) + [s[0]];
      }
    }
  }

  lemma {:induction false} RenewedKeys(m: OMap<string, Track>, t: Track)
    requires WellFormed(m)
    ensures WellFormed(Renewed(m, t)) && Renewed(m, t).order == WithoutKey(m.order, t.videoId) + [t.videoId]
  {
    var id := t.videoId;
    RemoveIsWellFormed(m, id);
    PutIsWellFormed(Remove(m, id), id, t);
    if id !in m.items {
      WithoutStranger(m.order, id);
    }
  }

  lemma {:induction false} RenewedOrder(m: OMap<string, Track>, t: Track)
    requires WellFormed(m)
    ensures WellFormed(Renewed(m, t))
    ensures Reversed(Renewed(m, t).order) == ToFront(Reversed(m.order), t.videoId)
  {
    RenewedKeys(m, t);
    ReversedWithout(m.order, t.videoId);
    ReversedEnd(WithoutKey(m.order, t.videoId), t.videoId);
  }

  lemma {:induction false} ReversedEnd(s: seq<string>, id: string)
    ensures Reversed(s + [id]) == [id] + Reversed(s)
  {
  }

  lemma {:induction false} RenewedAgrees(m: OMap<string, Track>, log: seq<Track>, t: Track)
    requires Agrees(m, log)
    ensures Agrees(Renewed(m, t), log + [t])
  {
    var n := TRACK_CACHE_MAX;
    RenewedOrder(m, t);
    assert IdsOf(log + [t]) == IdsOf(log) + [t.videoId];
    NewestGrows(IdsOf(log), t.videoId);
    NewestIsDistinct(IdsOf(log));
    TakeToFront(n, Newest(IdsOf(log)), t.videoId);
    ReversedIsDistinct(m.order);
    TakeToFront(n, Reversed(m.order), t.videoId);
    RemoveIsWellFormed(m, t.videoId);
    assert (log + [t])[..|log|] == log;
  }

  lemma {:induction false} ReversedIsDistinct(s: seq<string>)
    requires Distinct(s)
    ensures Distinct(Reversed(s))
  {
  }

  lemma {:induction false} TrimmedAgrees(m: OMap<string, Track>, log: seq<Track>)
    requires Agrees(m, log)
    ensures var t := Trim(m, TRACK_CACHE_MAX);
            Agrees(t, log) && Reversed(t.order) == Take(TRACK_CACHE_MAX, Newest(IdsOf(log)))
  {
    TrimKeepsTheYoungest(m, TRACK_CACHE_MAX);
    var t := Trim(m, TRACK_CACHE_MAX);
    assert Reversed(t.order) == Take(TRACK_CACHE_MAX, Reversed(m.order));
  }

  // The ids that are neither known nor on their way, each once, in order of first mention.
  function Wanted(ids: seq<string>, known: set<string>): (r: seq<string>)
    ensures Distinct(r) && forall id :: id in r <==> id in ids && id != "" && id !in known
    decreases |ids|
  {
    if ids == [] then []
    else
      var front, id := Wanted(ids[..|ids| - 1], known), ids[|ids| - 1];
      assert ids == ids[..|ids| - 1] + [id];
      if id != "" && id !in known && id !in front then front + [id] else front
  }

  /** What is mentioned first comes first. */
  lemma {:induction false} WantedInOrder(ids: seq<string>, known: set<string>, n: nat)
    requires n <= |ids|
    ensures Wanted(ids[..n], known) <= Wanted(ids, known)
    decreases |ids|
  {
    if n < |ids| {
      var front := ids[..|ids| - 1];
      WantedInOrder(front, known, n);
      assert front[..n] == ids[..n];
    } else {
      assert ids[..n] == ids;
    }
  }

  class Catalogue {
    var tracks: OMap<string, Track>
    var pending: set<string>
    ghost var log: seq<Track>
    // The batches being fetched right now.
    ghost var batches: seq<seq<string>>

    /** The cache is the last `TRACK_CACHE_MAX` ids by last mention, each with its latest value; the batches in flight do
        not overlap, and what they ask for is exactly what is pending. */
    ghost predicate Valid()
      reads this
    {
      && Agrees(tracks, log) && Reversed(tracks.order) == Take(TRACK_CACHE_MAX, Newest(IdsOf(log)))
      && Apart(batches) && (forall id :: id in pending <==> Asked(batches, id))
    }

    constructor ()
      ensures Valid() && log == [] && batches == []
    {
      tracks, pending, log, batches := OMap([], map[]), {}, [], [];
    }

    method Remember(batch: seq<Track>)
      requires Valid()
      modifies this`tracks, this`log
      ensures Valid() && log == old(log) + Named(batch)
    {
      assert batch[0..] == batch;
      for i := 0 to |batch|
        invariant Agrees(tracks, log)
        invariant old(log) + Named(batch) == log + Named(batch[i..])
        invariant pending == old(pending) && batches == old(batches)
      {
        var t := batch[i];
        if t.videoId != "" {
          RenewedAgrees(tracks, log, t);
          tracks := Renewed(tracks, t);
          log := log + [t];
        }
      }
      TrimmedAgrees(tracks, log);
      TrimTracks();
    }

    method TrimTracks()
      modifies this`tracks
      ensures tracks == Trim(old(tracks), TRACK_CACHE_MAX)
    {
      while |tracks.order| > TRACK_CACHE_MAX
        invariant Trim(tracks, TRACK_CACHE_MAX) == Trim(old(tracks), TRACK_CACHE_MAX)
      {
        tracks := OMap(tracks.order[1..], tracks.items - {tracks.order[0]});
      }
    }

    /** What a caller's ids lead to being fetched: nothing known, nothing already on its way, nothing twice. */
    method BeginHydrate(ids: seq<string>) returns (missing: seq<string>)
      requires Valid()
      modifies this`pending, this`batches
      ensures Valid() && |missing| <= HYDRATE_BATCH && Distinct(missing)
      ensures forall id | id in missing :: id in ids && id != "" && id !in tracks.items && id !in old(pending)
      ensures missing == Take(HYDRATE_BATCH, Wanted(ids, tracks.items.Keys + old(pending)))
      ensures batches == if missing == [] then old(batches) else old(batches) + [missing]
      ensures |missing| < HYDRATE_BATCH ==>
                forall id | id in ids && id != "" && id !in tracks.items && id !in old(pending) :: id in missing
    {
      missing := [];
      ghost var known := tracks.items.Keys + pending;
      for i := 0 to |ids|
        invariant missing == Wanted(ids[..i], known)
      {
        var id := ids[i];
        assert ids[..i + 1][..i] == ids[..i] && ids[..i + 1][i] == id;
        if id != "" && id !in tracks.items && id !in pending && id !in missing {
          missing := missing + [id];
        }
      }
      assert ids[..|ids|] == ids;
      ghost var all := missing;
      missing := Take(HYDRATE_BATCH, missing);
      assert missing <= all;
      if missing == [] {
        return;
      }
      AskedGrows(batches, missing);
      pending := pending + set id | id in missing;
      batches := batches + [missing];
    }

    /** A batch comes back, with its tracks or without. */
    method EndHydrate(missing: seq<string>, ghost k: nat, reply: seq<Track>)
      requires Valid() && k < |batches| && batches[k] == missing
      modifies this
      ensures Valid() && batches == old(batches)[..k] + old(batches)[k + 1..]
      ensures log == old(log) + Named(reply)
    {
      Remember(reply);
      AskedShrinks(batches, k);
      pending := pending - set id | id in missing;
      batches := batches[..k] + batches[k + 1..];
    }
  }

  // No id is in two batches, or twice in one.
  ghost predicate Apart(batches: seq<seq<string>>) {
    forall i, j | 0 <= i < j < |batches| :: forall id | id in batches[i] :: id !in batches[j]
  }

  ghost predicate Asked(batches: seq<seq<string>>, id: string) {
    exists i :: 0 <= i < |batches| && id in batches[i]
  }

  lemma {:induction false} AskedGrows(batches: seq<seq<string>>, more: seq<string>)
    requires Apart(batches) && forall id | id in more :: !Asked(batches, id)
    ensures Apart(batches + [more]) && forall id :: Asked(batches + [more], id) <==> Asked(batches, id) || id in more
  {
    var all := batches + [more];
    assert all[|batches|] == more;
    forall id | Asked(batches, id) ensures Asked(all, id) {
      var i :| 0 <= i < |batches| && id in batches[i];
      assert id in all[i];
    }
  }

  lemma {:induction false} AskedShrinks(batches: seq<seq<string>>, k: nat)
    requires Apart(batches) && k < |batches|
    ensures var rest := batches[..k] + batches[k + 1..];
            Apart(rest) && forall id :: Asked(rest, id) <==> Asked(batches, id) && id !in batches[k]
  {
    var rest := batches[..k] + batches[k + 1..];
    assert forall i | 0 <= i < |rest| :: rest[i] == batches[if i < k then i else i + 1];
    forall id ensures Asked(rest, id) <==> Asked(batches, id) && id !in batches[k] {
      if Asked(rest, id) {
        var i :| 0 <= i < |rest| && id in rest[i];
        assert id in batches[if i < k then i else i + 1];
      }
      if Asked(batches, id) && id !in batches[k] {
        var i :| 0 <= i < |batches| && id in batches[i];
        assert id in rest[if i < k then i else i - 1];
      }
    }
  }
}
