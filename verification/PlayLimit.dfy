/**
 Auto-stop: how long has been played without a break, and when that is too long. Times are in milliseconds.
 */
module PlayLimit {
  import opened Wrappers

  const DEFAULT_MAX_MINUTES: nat := 180
  const MAX_MAX_MINUTES: nat := 24 * 60
  const BREAK: int := 10 * 60 * 1000
  const GRACE: int := 15 * 60 * 1000
  const MAX_SAMPLE_GAP: int := 2 * 60 * 1000

  datatype Event = Sample(playing: bool, at: int) | Reset

  // --- what counts, over the whole history ------------------------------------------------------

  predicate PlayingAt(h: seq<Event>, i: int) {
    0 <= i < |h| && h[i].Sample? && h[i].playing
  }

  // Sample `i` ends a break: `j` is the last time playback was seen, long enough ago, and nobody acted in between.
  predicate EndsBreak(h: seq<Event>, j: int, i: int) {
    && 0 <= j < i < |h| && h[i].Sample? && !h[i].playing
    && PlayingAt(h, j) && (forall k | j < k < i :: h[k].Sample? && !h[k].playing)
    && h[i].at - h[j].at >= BREAK
  }

  ghost predicate Restarts(h: seq<Event>, i: nat)
    requires i < |h|
  {
    h[i].Reset? || exists j :: EndsBreak(h, j, i)
  }

  /** Where the present count began: after the last reset or break. */
  ghost function CountedFrom(h: seq<Event>): (m: nat)
    ensures m <= |h|
    ensures m > 0 ==> Restarts(h[..m], m - 1)
    decreases |h|
  {
    if h == [] then 0
    else if Restarts(h, |h| - 1) then assert h[..|h|] == h; |h|
    else
      var front := h[..|h| - 1];
      assert forall m | 0 <= m <= |front| :: front[..m] == h[..m];
      CountedFrom(front)
  }

  // Time between two consecutive samples that both saw playback.
  function CappedGap(h: seq<Event>, i: nat): int
    requires i < |h|
  {
    if PlayingAt(h, i) && PlayingAt(h, i - 1) then Min(h[i].at - h[i - 1].at, MAX_SAMPLE_GAP) else 0
  }

  function GapsUpTo(h: seq<Event>, from: nat, n: nat): int
    requires n <= |h|
    decreases n
  {
    if n <= from then 0 else GapsUpTo(h, from, n - 1) + CappedGap(h, n - 1)
  }

  /** Played time: the capped gaps between consecutive playing samples since the last reset or break. */
  ghost function Played(h: seq<Event>): int {
    GapsUpTo(h, CountedFrom(h), |h|)
  }

  // Position of the last playing sample since `from`.
  function LastPlaying(h: seq<Event>, from: nat, n: nat): (r: Option<nat>)
    requires n <= |h|
    ensures r.Some? ==> from <= r.value < n && PlayingAt(h, r.value)
    ensures r.Some? ==> forall k | r.value < k < n :: !PlayingAt(h, k)
    ensures r.None? ==> forall k | from <= k < n :: !PlayingAt(h, k)
    decreases n
  {
    if n <= from then None
    else if PlayingAt(h, n - 1) then Some(n - 1) else LastPlaying(h, from, n - 1)
  }

  // --- one event more ----------------------------------------------------------------------------

  lemma {:induction false} PrefixCounts(h: seq<Event>, e: Event, from: nat, n: nat)
    requires n <= |h|
    ensures GapsUpTo(h + [e], from, n) == GapsUpTo(h, from, n)
    ensures LastPlaying(h + [e], from, n) == LastPlaying(h, from, n)
    decreases n
  {
    if n > from {
      PrefixCounts(h, e, from, n - 1);
      assert (h + [e])[n - 1] == h[n - 1];
      assert n > 1 ==> (h + [e])[n - 2] == h[n - 2];
    }
  }

  // Everything after the last restart is samples.
  lemma {:induction false} NoResetSince(h: seq<Event>, k: nat)
    requires CountedFrom(h) <= k < |h|
    ensures h[k].Sample? && !Restarts(h[..k + 1], k)
    decreases |h|
  {
    assert h[..|h|] == h;
    if k < |h| - 1 {
      var front := h[..|h| - 1];
      NoResetSince(front, k);
      assert front[..k + 1] == h[..k + 1];
    }
  }

  // Whether one more sample ends a break can be read off the last time playback was seen.
  lemma {:induction false} BreakSeen(h: seq<Event>, e: Event)
    requires e.Sample? && !e.playing
    ensures var last := LastPlaying(h, CountedFrom(h), |h|);
            last.Some? && e.at - h[last.value].at >= BREAK ==> Restarts(h + [e], |h|)
    ensures var last := LastPlaying(h, CountedFrom(h), |h|);
            Restarts(h + [e], |h|) ==>
              || (last.Some? && e.at - h[last.value].at >= BREAK)
              || (last.None? && forall k | CountedFrom(h) <= k < |h| :: !PlayingAt(h, k))
  {
    var all := h + [e];
    var last := LastPlaying(h, CountedFrom(h), |h|);
    if last.Some? {
      forall k | last.value < k < |h| ensures all[k].Sample? && !all[k].playing {
        NoResetSince(h, k);
        assert !PlayingAt(h, k);
      }
      assert e.at - h[last.value].at >= BREAK ==> EndsBreak(all, last.value, |h|);
    }
  }

  /** What one more event does to the count: the figures the counter keeps are enough. */
  lemma {:induction false} OneMore(h: seq<Event>, e: Event)
    ensures e.Reset? ==> Played(h + [e]) == 0 && Seen(h + [e]) == None
    ensures e.Sample? && e.playing ==>
              && Played(h + [e]) == Played(h) + CappedGap(h + [e], |h|) && Seen(h + [e]) == Some(e.at)
    ensures e.Sample? && !e.playing && Seen(h).Some? && e.at - Seen(h).value >= BREAK ==>
              Played(h + [e]) == 0 && Seen(h + [e]) == None
    ensures e.Sample? && !e.playing && !(Seen(h).Some? && e.at - Seen(h).value >= BREAK) ==>
              Played(h + [e]) == Played(h) && Seen(h + [e]) == Seen(h)
  {
    var all := h + [e];
    assert all[..|all| - 1] == h;
    var from := CountedFrom(h);
    PrefixCounts(h, e, from, |h|);
    if e.Sample? && !e.playing {
      BreakSeen(h, e);
      if Restarts(all, |h|) && Seen(h).None? {
        NothingPlayed(h, from, |h|);
      }
    }
  }

  // When playback was last seen, if at all since the last restart.
  ghost function Seen(h: seq<Event>): Option<int> {
    var last := LastPlaying(h, CountedFrom(h), |h|);
    if last.Some? then Some(h[last.value].at) else None
  }

  lemma {:induction false} NothingPlayed(h: seq<Event>, from: nat, n: nat)
    requires n <= |h| && forall k | from <= k < n :: !PlayingAt(h, k)
    ensures GapsUpTo(h, from, n) == 0
    decreases n
  {
    if n > from {
      NothingPlayed(h, from, n - 1);
    }
  }

  // --- never more than the wall clock -------------------------------------------------------------

  predicate Forward(h: seq<Event>) {
    forall i, j | 0 <= i < j < |h| && h[i].Sample? && h[j].Sample? :: h[i].at <= h[j].at
  }

  lemma {:induction false} GapsWithinWallTime(h: seq<Event>, from: nat, n: nat)
    requires from < n <= |h| && Forward(h) && forall k | from <= k < n :: h[k].Sample?
    requires CappedGap(h, from) == 0
    ensures 0 <= GapsUpTo(h, from, n) <= h[n - 1].at - h[from].at
    decreases n
  {
    if n > from + 1 {
      GapsWithinWallTime(h, from, n - 1);
    } else {
      assert GapsUpTo(h, from, from) == 0;
    }
  }

  /** On a clock that only moves forward, played time never exceeds the wall time since the count began. */
  lemma {:induction false} PlayedWithinWallTime(h: seq<Event>)
    requires Forward(h) && CountedFrom(h) < |h|
    ensures var from := CountedFrom(h);
            h[from].Sample? && h[|h| - 1].Sample? && 0 <= Played(h) <= h[|h| - 1].at - h[from].at
  {
    var from := CountedFrom(h);
    forall k | from <= k < |h| ensures h[k].Sample? {
      NoResetSince(h, k);
    }
    if from > 0 {
      assert Restarts(h[..from], from - 1);
      assert h[..from][from - 1] == h[from - 1];
      assert !PlayingAt(h, from - 1);
    }
    GapsWithinWallTime(h, from, |h|);
  }

  // --- the counter --------------------------------------------------------------------------------

  class Counter {
    var maxMinutes: nat
    var playedMs: int
    var lastSample: Option<(int, bool)>
    var lastPlayingAt: Option<int>
    ghost var history: seq<Event>

    /** The count is what the definition says of the whole history. */
    ghost predicate Valid()
      reads this
    {
      && playedMs == Played(history)
      && lastPlayingAt == Seen(history)
      && (lastSample.Some? && lastSample.value.1 <==> PlayingAt(history, |history| - 1))
      && (PlayingAt(history, |history| - 1) ==> lastSample == Some((history[|history| - 1].at, true)))
    }

    constructor ()
      ensures Valid() && history == [] && maxMinutes == DEFAULT_MAX_MINUTES
    {
      maxMinutes, playedMs, lastSample, lastPlayingAt, history := DEFAULT_MAX_MINUTES, 0, None, None, [];
    }

    method SetMaxMinutes(minutes: int) returns (refused: bool)
      modifies this`maxMinutes
      ensures refused <==> minutes < 0 || minutes > 24 * 60
      ensures maxMinutes == if refused then old(maxMinutes) else minutes
    {
      if !(0 <= minutes <= MAX_MAX_MINUTES) {
        return true;
      }
      maxMinutes := minutes;
      return false;
    }

    method TakeSample(playing: bool, now: int)
      requires Valid()
      modifies this`playedMs, this`lastSample, this`lastPlayingAt, this`history
      ensures Valid() && history == old(history) + [Sample(playing, now)]
    {
      OneMore(history, Sample(playing, now));
      if lastSample.Some? && lastSample.value.1 && playing {
        playedMs := playedMs + Min(now - lastSample.value.0, MAX_SAMPLE_GAP);
      }
      if playing {
        lastPlayingAt := Some(now);
      } else if lastPlayingAt.Some? && now - lastPlayingAt.value >= BREAK {
        playedMs := 0;
        lastPlayingAt := None;
      }
      lastSample := Some((now, playing));
      history := history + [Sample(playing, now)];
    }

    method StartOver()
      requires Valid()
      modifies this`playedMs, this`lastSample, this`lastPlayingAt, this`history
      ensures Valid() && history == old(history) + [Reset] && playedMs == 0
    {
      OneMore(history, Reset);
      playedMs := 0;
      lastPlayingAt := None;
      lastSample := if lastSample.Some? then Some((lastSample.value.0, false)) else None;
      history := history + [Reset];
    }

    predicate Reached()
      reads this
    {
      maxMinutes > 0 && playedMs >= maxMinutes * 60 * 1000
    }

    predicate Overrun()
      reads this
    {
      maxMinutes > 0 && playedMs >= maxMinutes * 60 * 1000 + GRACE
    }

    /** The end of a song: past the limit the queue stops there instead of moving on, and the count starts again. */
    method SongEnded(now: int) returns (stopped: bool)
      requires Valid()
      modifies this`playedMs, this`lastSample, this`lastPlayingAt, this`history
      ensures Valid()
      ensures var h := old(history) + [Sample(true, now)];
              && (stopped <==> LongEnough(h, maxMinutes))
              && history == if stopped then h + [Reset] else h
    {
      TakeSample(true, now);
      stopped := Reached();
      if stopped {
        StartOver();
      }
    }

    /** The player's own sampling: a song far past the limit is stopped where it is, and the count starts again. */
    method SampleLimit(playing: bool, now: int) returns (stopped: bool)
      requires Valid()
      modifies this`playedMs, this`lastSample, this`lastPlayingAt, this`history
      ensures Valid()
      ensures var h := old(history) + [Sample(playing, now)];
              && (stopped <==> playing && TooLong(h, maxMinutes))
              && history == if stopped then h + [Reset] else h
    {
      TakeSample(playing, now);
      stopped := Overrun() && playing;
      if stopped {
        StartOver();
      }
    }
  }

  ghost predicate LongEnough(h: seq<Event>, maxMinutes: nat) {
    maxMinutes > 0 && Played(h) >= maxMinutes * 60 * 1000
  }

  ghost predicate TooLong(h: seq<Event>, maxMinutes: nat) {
    maxMinutes > 0 && Played(h) >= maxMinutes * 60 * 1000 + GRACE
  }

  // --- the auto-stop bound --------------------------------------------------------------------------

  // Uninterrupted playing samples at most `apart` from each other.
  predicate Steady(times: seq<int>, apart: int) {
    forall i | 0 < i < |times| :: 0 <= times[i] - times[i - 1] <= apart
  }

  function Samples(times: seq<int>): (r: seq<Event>)
    ensures |r| == |times|
  {
    seq(|times|, i requires 0 <= i < |times| => Sample(true, times[i]))
  }

  lemma {:induction false} SteadyCount(h: seq<Event>, times: seq<int>, apart: int)
    requires times != [] && Steady(times, apart) && apart <= MAX_SAMPLE_GAP
    ensures Played(h + Samples(times)) == Played(h + [Sample(true, times[0])]) + times[|times| - 1] - times[0]
    decreases |times|
  {
    if |times| == 1 {
      assert Samples(times) == [Sample(true, times[0])];
    } else {
      var n := |times| - 1;
      var front := h + Samples(times[..n]);
      SteadyCount(h, times[..n], apart);
      assert h + Samples(times) == front + [Sample(true, times[n])];
      OneMore(front, Sample(true, times[n]));
      assert front[|front| - 1] == Sample(true, times[n - 1]);
    }
  }

  lemma {:induction false} CountIsNonNegative(h: seq<Event>, n: nat, from: nat)
    requires n <= |h| && Forward(h)
    ensures GapsUpTo(h, from, n) >= 0
    decreases n
  {
    if n > from {
      CountIsNonNegative(h, n - 1, from);
    }
  }

  /** Playing that began at `began` and that samples at most `apart` from each other all see as playing, with nobody
      resetting the count: as long as no sample stopped it, it has lasted less than limit, grace and twice `apart`; and
      the first sample that finds limit and grace used up since the first one is a stop. */
  lemma {:induction false} AutoStopBound(h: seq<Event>, began: int, times: seq<int>, apart: int, maxMinutes: nat)
    requires maxMinutes > 0 && times != [] && Steady(times, apart) && 0 < apart <= MAX_SAMPLE_GAP
    requires times[0] - apart <= began <= times[0]
    requires Forward(h + Samples(times))
    requires forall k | 0 < k < |times| :: !TooLong(h + Samples(times[..k]), maxMinutes)
    ensures times[|times| - 1] - began < maxMinutes * 60 * 1000 + GRACE + 2 * apart
    ensures times[|times| - 1] - times[0] >= maxMinutes * 60 * 1000 + GRACE ==>
              TooLong(h + Samples(times), maxMinutes)
  {
    SteadyCount(h, times, apart);
    var first := h + [Sample(true, times[0])];
    assert first == (h + Samples(times))[..|first|];
    CountIsNonNegative(first, |first|, CountedFrom(first));
    if |times| > 1 {
      var n := |times| - 1;
      assert Steady(times[..n], apart);
      SteadyCount(h, times[..n], apart);
      assert !TooLong(h + Samples(times[..n]), maxMinutes);
    }
  }
}
