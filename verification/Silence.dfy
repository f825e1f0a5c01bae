/**
 The silence instrument: an online tracker of digital silence against a definition of silence over the whole block
 history. Times are integers in microseconds.
 */
module Silence {
  import opened Sequences
  import opened Wrappers

  const BLOCK: int := 20_000
  const MIN_EPISODE: int := 500_000
  const MAX_GAP: int := 500_000
  const MAX_LOG: nat := 50

  datatype Block = Block(silent: bool, at: int, trusted: bool)

  // Blocks `first` to `end`, `end` not included.
  datatype Run = Run(first: int, end: int)

  datatype Episode = Episode(start: int, duration: int)

  // --- what silence is, over the whole history ------------------------------------------------

  predicate Quiet(h: seq<Block>, i: int) {
    0 <= i < |h| && h[i].trusted && h[i].silent
  }

  // Wall-clock time between block `i` and the one before that the blocks do not account for.
  function Gap(h: seq<Block>, i: nat): int
    requires 0 < i < |h|
  {
    h[i].at - h[i - 1].at - BLOCK
  }

  // Whether no data was lost just before block `i`.
  predicate Joined(h: seq<Block>, i: int) {
    0 < i < |h| && Gap(h, i) <= MAX_GAP
  }

  /** Blocks `a` to `b` are a maximal run of trusted, gap-free, all-zero blocks. */
  predicate IsRun(h: seq<Block>, a: int, b: int) {
    && 0 <= a < b <= |h|
    && (forall i | a <= i < b :: Quiet(h, i))
    && (forall i | a < i < b :: Joined(h, i))
    && (a == 0 || !Quiet(h, a - 1) || !Joined(h, a))
    && (b == |h| || !Quiet(h, b) || !Joined(h, b))
  }

  // --- the same, block by block --------------------------------------------------------------

  // Length of the run that is still open.
  function OpenRun(h: seq<Block>): (n: nat)
    ensures n <= |h|
    decreases |h|
  {
    var last := |h| - 1;
    if h == [] || !Quiet(h, last) then 0
    else if Joined(h, last) then OpenRun(h[..last]) + 1
    else 1
  }

  // Whether the last block ends a run that was open before it.
  predicate Closes(h: seq<Block>)
    requires h != []
  {
    var last := |h| - 1;
    OpenRun(h[..last]) > 0 && !(Quiet(h, last) && Joined(h, last))
  }

  predicate Within(runs: seq<Run>, n: nat) {
    forall i | 0 <= i < |runs| :: 0 <= runs[i].first < runs[i].end <= n
  }

  // The closed runs, oldest first.
  function Runs(h: seq<Block>): (runs: seq<Run>)
    ensures Within(runs, |h|)
    decreases |h|
  {
    if h == [] then []
    else
      var front := h[..|h| - 1];
      if Closes(h) then Runs(front) + [Run(|front| - OpenRun(front), |front|)] else Runs(front)
  }

  lemma {:induction false} OpenRunIsTheOpenRun(h: seq<Block>)
    ensures OpenRun(h) > 0 ==> IsRun(h, |h| - OpenRun(h), |h|)
    ensures OpenRun(h) == 0 ==> h == [] || !Quiet(h, |h| - 1)
    decreases |h|
  {
    if h != [] {
      var front := h[..|h| - 1];
      OpenRunIsTheOpenRun(front);
      assert forall i | 0 <= i < |front| :: Quiet(h, i) == Quiet(front, i) && Joined(h, i) == Joined(front, i);
      var n := OpenRun(h);
      if n > 1 {
        assert n - 1 == OpenRun(front) && |front| - (n - 1) == |h| - n;
      } else if n == 1 && Joined(h, |h| - 1) {
        assert !Quiet(front, |front| - 1);
      }
    }
  }

  // A longer history has the same closed runs, but for the one its last block closes.
  lemma {:induction false} RunExtends(h: seq<Block>, x: Block, a: int, b: int)
    requires b < |h|
    ensures IsRun(h, a, b) <==> IsRun(h + [x], a, b)
  {
    var h' := h + [x];
    assert forall i | 0 <= i < |h| :: h'[i] == h[i];
    assert forall i | 0 <= i < |h| :: Quiet(h, i) == Quiet(h', i) && Joined(h, i) == Joined(h', i);
  }

  // Two maximal runs that end at the same place are the same.
  lemma {:induction false} RunsAgree(h: seq<Block>, a: int, o: int, b: int)
    requires 0 <= a < b <= |h| && o < b
    requires forall i | a <= i < b :: Quiet(h, i)
    requires forall i | a < i < b :: Joined(h, i)
    requires a == 0 || !Quiet(h, a - 1) || !Joined(h, a)
    requires IsRun(h, o, b)
    ensures a == o
  {
    assert a < o ==> Quiet(h, o - 1) && Joined(h, o);
    assert o < a ==> Quiet(h, a - 1) && Joined(h, a);
  }

  lemma {:induction false} SameBlocks(h: seq<Block>, x: Block, i: int)
    requires i < |h|
    ensures Quiet(h + [x], i) == Quiet(h, i) && Joined(h + [x], i) == Joined(h, i)
  {
  }

  // Block `x` closes run `a` exactly when the run was open and `x` does not carry it on.
  lemma {:induction false} ClosedBy(h: seq<Block>, x: Block, a: int)
    ensures IsRun(h + [x], a, |h|) <==> IsRun(h, a, |h|) && !(Quiet(h + [x], |h|) && Joined(h + [x], |h|))
  {
    var h' := h + [x];
    forall i | i < |h| ensures Quiet(h', i) == Quiet(h, i) && Joined(h', i) == Joined(h, i) {
      SameBlocks(h, x, i);
    }
  }

  lemma {:induction false} OnlyOpenRun(h: seq<Block>, a: int)
    ensures IsRun(h, a, |h|) <==> OpenRun(h) > 0 && a == |h| - OpenRun(h)
  {
    OpenRunIsTheOpenRun(h);
    if IsRun(h, a, |h|) {
      assert Quiet(h, |h| - 1);
      RunsAgree(h, a, |h| - OpenRun(h), |h|);
    }
  }

  lemma {:induction false} RunEndsHere(h: seq<Block>, x: Block, a: int)
    ensures IsRun(h + [x], a, |h|) <==> OpenRun(h) > 0 && a == |h| - OpenRun(h) && Closes(h + [x])
  {
    assert (h + [x])[..|h|] == h;
    ClosedBy(h, x, a);
    OnlyOpenRun(h, a);
  }

  /** `Runs` lists exactly the closed maximal runs, in order and apart from each other. */
  lemma {:induction false} RunsAreTheClosedRuns(h: seq<Block>)
    ensures forall a, b :: Run(a, b) in Runs(h) <==> b < |h| && IsRun(h, a, b)
    ensures forall i, j | 0 <= i < j < |Runs(h)| :: Runs(h)[i].end <= Runs(h)[j].first
    decreases |h|
  {
    if h != [] {
      var front, x := h[..|h| - 1], h[|h| - 1];
      assert h == front + [x];
      RunsAreTheClosedRuns(front);
      forall a, b ensures Run(a, b) in Runs(h) <==> b < |h| && IsRun(h, a, b) {
        if b < |front| {
          RunExtends(front, x, a, b);
        } else if b == |front| {
          RunEndsHere(front, x, a);
        }
      }
      if Closes(h) {
        var o := |front| - OpenRun(front);
        OpenRunIsTheOpenRun(front);
        forall i | 0 <= i < |Runs(front)| ensures Runs(front)[i].end <= o {
          var r := Runs(front)[i];
          assert r in Runs(front) && IsRun(front, r.first, r.end);
          assert r.end > o ==> Quiet(front, r.end) && Joined(front, r.end);
        }
      }
    }
  }

  // --- what the tracker reports ------------------------------------------------------------

  function EpisodeOf(h: seq<Block>, a: int, b: int): Episode
    requires 0 <= a < b <= |h|
  {
    Episode(h[a].at, (b - a) * BLOCK)
  }

  predicate Long(r: Run) {
    (r.end - r.first) * BLOCK >= MIN_EPISODE
  }

  // The long ones among `runs`, in order.
  function LongOf(h: seq<Block>, runs: seq<Run>): seq<Episode>
    requires Within(runs, |h|)
    decreases |runs|
  {
    if runs == [] then []
    else
      var r := runs[|runs| - 1];
      var log := LongOf(h, runs[..|runs| - 1]);
      if Long(r) then log + [EpisodeOf(h, r.first, r.end)] else log
  }

  /** The episodes: the long closed runs of the whole history. */
  function Episodes(h: seq<Block>): seq<Episode> {
    LongOf(h, Runs(h))
  }

  function Stalls(h: seq<Block>): seq<Episode>
    decreases |h|
  {
    if |h| < 2 then []
    else
      var last := |h| - 1;
      var log := Stalls(h[..last]);
      if Gap(h, last) > MAX_GAP then log + [Episode(h[last - 1].at, Gap(h, last))] else log
  }

  function Durations(es: seq<Episode>): int
    decreases |es|
  {
    if es == [] then 0 else Durations(es[..|es| - 1]) + es[|es| - 1].duration
  }

  // Wall-clock time no block accounts for.
  function Lost(h: seq<Block>): int {
    Durations(Stalls(h))
  }

  // The gaps a late reader is allowed, early blocks counting negatively.
  function Tolerated(h: seq<Block>): int
    decreases |h|
  {
    if |h| < 2 then 0
    else
      var last := |h| - 1;
      Tolerated(h[..last]) + if Gap(h, last) > MAX_GAP then 0 else Gap(h, last)
  }

  function SilentBlocks(h: seq<Block>): nat
    decreases |h|
  {
    if h == [] then 0 else SilentBlocks(h[..|h| - 1]) + if Quiet(h, |h| - 1) then 1 else 0
  }

  function TrustedBlocks(h: seq<Block>): nat
    decreases |h|
  {
    if h == [] then 0 else TrustedBlocks(h[..|h| - 1]) + if h[|h| - 1].trusted then 1 else 0
  }

  function Lengths(runs: seq<Run>): int
    decreases |runs|
  {
    if runs == [] then 0
    else
      var r := runs[|runs| - 1];
      Lengths(runs[..|runs| - 1]) + r.end - r.first
  }

  // Each measure of a history, one block later.
  lemma {:induction false} Appended<T>(s: seq<T>, x: T)
    ensures (s + [x])[..|s|] == s && (s + [x])[|s|] == x
  {
  }

  lemma {:induction false} RunsGrow(h: seq<Block>, x: Block)
    ensures Closes(h + [x]) ==> Runs(h + [x]) == Runs(h) + [Run(|h| - OpenRun(h), |h|)]
    ensures !Closes(h + [x]) ==> Runs(h + [x]) == Runs(h)
  {
    var h' := h + [x];
    assert h'[..|h'| - 1] == h;
  }

  lemma {:induction false} LongOfGrows(h: seq<Block>, runs: seq<Run>, r: Run)
    requires Within(runs, |h|) && 0 <= r.first < r.end <= |h|
    ensures Within(runs + [r], |h|)
    ensures LongOf(h, runs + [r]) == if Long(r) then LongOf(h, runs) + [EpisodeOf(h, r.first, r.end)] else LongOf(h, runs)
  {
    Appended(runs, r);
  }

  lemma {:induction false} DurationsGrow(es: seq<Episode>, e: Episode)
    ensures Durations(es + [e]) == Durations(es) + e.duration
  {
    Appended(es, e);
  }

  lemma {:induction false} LengthsGrow(runs: seq<Run>, r: Run)
    ensures Lengths(runs + [r]) == Lengths(runs) + r.end - r.first
  {
    Appended(runs, r);
  }

  // The hole in the data in front of block `x`, if there is one.
  function Hole(h: seq<Block>, x: Block): Option<Episode> {
    if h == [] then None
    else
      var last := h[|h| - 1];
      if x.at - last.at - BLOCK > MAX_GAP then Some(Episode(last.at, x.at - last.at - BLOCK)) else None
  }

  lemma {:induction false} StallsGrow(h: seq<Block>, x: Block)
    ensures Stalls(h + [x]) == if Hole(h, x).Some? then Stalls(h) + [Hole(h, x).value] else Stalls(h)
    ensures Lost(h + [x]) == Lost(h) + if Hole(h, x).Some? then Hole(h, x).value.duration else 0
  {
    Appended(h, x);
    if Hole(h, x).Some? {
      DurationsGrow(Stalls(h), Hole(h, x).value);
    }
  }

  lemma {:induction false} CountsGrow(h: seq<Block>, x: Block)
    ensures SilentBlocks(h + [x]) == SilentBlocks(h) + if x.trusted && x.silent then 1 else 0
    ensures TrustedBlocks(h + [x]) == TrustedBlocks(h) + if x.trusted then 1 else 0
  {
    Appended(h, x);
  }

  lemma {:induction false} OpenRunGrows(h: seq<Block>, x: Block)
    ensures OpenRun(h + [x]) ==
            if !(x.trusted && x.silent) then 0 else if Hole(h, x).Some? then 1 else OpenRun(h) + 1
    ensures Closes(h + [x]) <==> OpenRun(h) > 0 && !(x.trusted && x.silent && Hole(h, x).None?)
  {
    Appended(h, x);
    var h' := h + [x];
    if h != [] {
      assert h'[|h| - 1] == h[|h| - 1];
      assert Gap(h', |h|) == x.at - h[|h| - 1].at - BLOCK;
    }
  }

  lemma {:induction false} LongOfExtends(h: seq<Block>, x: Block, runs: seq<Run>)
    requires Within(runs, |h|)
    ensures Within(runs, |h + [x]|) && LongOf(h + [x], runs) == LongOf(h, runs)
    decreases |runs|
  {
    if runs != [] {
      LongOfExtends(h, x, runs[..|runs| - 1]);
    }
  }

  /** One more block adds at most the run it closes to the episodes. */
  lemma {:induction false} EpisodesGrow(h: seq<Block>, x: Block)
    requires Closes(h + [x])
    ensures OpenRun(h) > 0
    ensures Episodes(h + [x]) ==
            if OpenRun(h) * BLOCK >= MIN_EPISODE
            then Episodes(h) + [Episode(h[|h| - OpenRun(h)].at, OpenRun(h) * BLOCK)] else Episodes(h)
  {
    OpenRunGrows(h, x);
    var r := Run(|h| - OpenRun(h), |h|);
    var runs := Runs(h);
    assert Runs(h + [x]) == runs + [r] by {
      RunsGrow(h, x);
    }
    LongOfExtends(h, x, runs);
    LongOfGrows(h + [x], runs, r);
  }

  lemma {:induction false} EpisodesKeep(h: seq<Block>, x: Block)
    requires !Closes(h + [x])
    ensures Episodes(h + [x]) == Episodes(h)
  {
    RunsGrow(h, x);
    LongOfExtends(h, x, Runs(h));
  }

  /** Every silent block is in exactly one run, closed or open: nothing is billed that was not measured. */
  lemma {:induction false} SilenceIsConserved(h: seq<Block>)
    ensures Lengths(Runs(h)) + OpenRun(h) == SilentBlocks(h)
    decreases |h|
  {
    if h != [] {
      var front, x := h[..|h| - 1], h[|h| - 1];
      assert h == front + [x];
      SilenceIsConserved(front);
      CountsGrow(front, x);
      OpenRunGrows(front, x);
      RunsGrow(front, x);
      LengthsGrow(Runs(front), Run(|front| - OpenRun(front), |front|));
    }
  }

  lemma {:induction false} LongIsPart(h: seq<Block>, runs: seq<Run>)
    requires Within(runs, |h|)
    ensures 0 <= Durations(LongOf(h, runs)) <= Lengths(runs) * BLOCK
    decreases |runs|
  {
    if runs != [] {
      var front, r := runs[..|runs| - 1], runs[|runs| - 1];
      assert runs == front + [r];
      LongIsPart(h, front);
      LongOfGrows(h, front, r);
      LengthsGrow(front, r);
      DurationsGrow(LongOf(h, front), EpisodeOf(h, r.first, r.end));
    }
  }

  /** Episodes and streak together never bill more than the silent blocks that were measured. */
  lemma {:induction false} NeverOverbilled(h: seq<Block>)
    ensures Durations(Episodes(h)) + OpenRun(h) * BLOCK <= SilentBlocks(h) * BLOCK
  {
    SilenceIsConserved(h);
    LongIsPart(h, Runs(h));
  }

  /** Wall time is fully accounted for: the blocks themselves, what was lost, and what was tolerated. */
  lemma {:induction false} WallTimeIsAccountedFor(h: seq<Block>)
    requires h != []
    ensures h[|h| - 1].at - h[0].at == (|h| - 1) * BLOCK + Lost(h) + Tolerated(h)
    decreases |h|
  {
    if |h| > 1 {
      var front, x := h[..|h| - 1], h[|h| - 1];
      assert h == front + [x];
      WallTimeIsAccountedFor(front);
      StallsGrow(front, x);
      assert front[|front| - 1] == h[|h| - 2];
    }
  }

  predicate Forward(h: seq<Block>) {
    forall i | 0 < i < |h| :: h[i - 1].at <= h[i].at
  }

  lemma {:induction false} ToleranceIsBounded(h: seq<Block>)
    requires h != [] && Forward(h)
    ensures -((|h| - 1) * BLOCK) <= Tolerated(h) <= (|h| - 1) * MAX_GAP
    decreases |h|
  {
    if |h| > 1 {
      assert Forward(h[..|h| - 1]);
      ToleranceIsBounded(h[..|h| - 1]);
    }
  }

  /** On a clock that only moves forward, the time between first and last block differs from what was measured and
      lost by at most the allowed gap per block, and by at most a block length per block the other way. */
  lemma {:induction false} CoverageIsHonest(h: seq<Block>)
    requires h != [] && Forward(h)
    ensures var measured := (|h| - 1) * BLOCK + Lost(h);
            measured - (|h| - 1) * BLOCK <= h[|h| - 1].at - h[0].at <= measured + (|h| - 1) * MAX_GAP
  {
    WallTimeIsAccountedFor(h);
    ToleranceIsBounded(h);
  }

  // --- the tracker ------------------------------------------------------------------------------

  function Since(h: seq<Block>): Option<int> {
    if OpenRun(h) > 0 then Some(h[|h| - OpenRun(h)].at) else None
  }

  // `log` with the run appended, if it is worth logging.
  function Log(log: seq<Episode>, since: Option<int>, run: nat): seq<Episode> {
    if since.Some? && run * BLOCK >= MIN_EPISODE then LastN(MAX_LOG, log + [Episode(since.value, run * BLOCK)]) else log
  }

  lemma {:induction false} LogGrows(h: seq<Block>, x: Block)
    ensures LastN(MAX_LOG, Episodes(h + [x])) ==
            if Closes(h + [x]) then Log(LastN(MAX_LOG, Episodes(h)), Since(h), OpenRun(h))
            else LastN(MAX_LOG, Episodes(h))
  {
    if Closes(h + [x]) {
      EpisodesGrow(h, x);
      LastNAppend(MAX_LOG, Episodes(h), Episode(h[|h| - OpenRun(h)].at, OpenRun(h) * BLOCK));
    } else {
      EpisodesKeep(h, x);
    }
  }

  lemma {:induction false} StallLogGrows(h: seq<Block>, x: Block)
    ensures Hole(h, x).Some? ==>
              LastN(MAX_LOG, Stalls(h + [x])) == LastN(MAX_LOG, LastN(MAX_LOG, Stalls(h)) + [Hole(h, x).value])
    ensures Hole(h, x).None? ==> Stalls(h + [x]) == Stalls(h)
  {
    StallsGrow(h, x);
    if Hole(h, x).Some? {
      LastNAppend(MAX_LOG, Stalls(h), Hole(h, x).value);
    }
  }

  lemma {:induction false} SinceGrows(h: seq<Block>, x: Block)
    requires x.trusted && x.silent
    ensures Since(h + [x]) == if OpenRun(h) == 0 || Hole(h, x).Some? then Some(x.at) else Since(h)
  {
    OpenRunGrows(h, x);
  }

  class SilenceTracker {
    var silentSince: Option<int>
    var silentRun: nat
    var episodes: seq<Episode>
    var stalls: seq<Episode>
    var silentBlocks: nat
    var totalBlocks: nat
    var untrustedBlocks: nat
    var lost: int
    var lastBlockAt: Option<int>
    ghost var history: seq<Block>

    /** The readout is the definition of silence applied to the whole history. */
    ghost predicate Valid()
      reads this
    {
      && silentRun == OpenRun(history)
      && silentSince == Since(history)
      && episodes == LastN(MAX_LOG, Episodes(history))
      && stalls == LastN(MAX_LOG, Stalls(history))
      && Counted(history)
    }

    ghost predicate Counted(h: seq<Block>)
      reads this
    {
      && silentBlocks == SilentBlocks(h)
      && totalBlocks == TrustedBlocks(h)
      && untrustedBlocks == |h| - TrustedBlocks(h)
      && lost == Lost(h)
      && lastBlockAt == (if h == [] then None else Some(h[|h| - 1].at))
    }

    constructor ()
      ensures Valid() && history == []
    {
      silentSince, silentRun, episodes, stalls := None, 0, [], [];
      silentBlocks, totalBlocks, untrustedBlocks, lost, lastBlockAt := 0, 0, 0, 0, None;
      history := [];
    }

    method CloseRun()
      modifies this`silentSince, this`silentRun, this`episodes
      ensures silentRun == 0 && silentSince == None
      ensures episodes == old(Log(episodes, silentSince, silentRun))
    {
      var duration := silentRun * BLOCK;
      if silentSince.Some? && duration >= MIN_EPISODE {
        episodes := LastN(MAX_LOG, episodes + [Episode(silentSince.value, duration)]);
      }
      silentRun, silentSince := 0, None;
    }

    method CheckContinuity(now: int)
      requires Valid()
      modifies this`silentSince, this`silentRun, this`episodes, this`stalls, this`lost
      ensures var hole := Hole(history, Block(false, now, false));
              if hole.Some? then
                && lost == old(lost) + hole.value.duration
                && stalls == LastN(MAX_LOG, old(stalls) + [hole.value])
                && silentRun == 0 && silentSince == None
                && episodes == old(Log(episodes, silentSince, silentRun))
              else
                && lost == old(lost) && stalls == old(stalls)
                && silentRun == old(silentRun) && silentSince == old(silentSince) && episodes == old(episodes)
    {
      if lastBlockAt == None {
        return;
      }
      var gap := now - lastBlockAt.value - BLOCK;
      if gap <= MAX_GAP {
        return;
      }
      lost := lost + gap;
      stalls := LastN(MAX_LOG, stalls + [Episode(lastBlockAt.value, gap)]);
      CloseRun();
    }

    /** After any sequence of updates the readout is the definition applied to the whole history: `Valid`. */
    method Update(silent: bool, now: int, trusted: bool)
      requires Valid()
      modifies this
      ensures Valid() && history == old(history) + [Block(silent, now, trusted)]
    {
      ghost var h := history;
      ghost var x := Block(silent, now, trusted);
      OpenRunGrows(h, x);
      LogGrows(h, x);
      StallLogGrows(h, x);
      StallsGrow(h, x);
      CountsGrow(h, x);
      CheckContinuity(now);
      lastBlockAt := Some(now);
      history := h + [x];
      if !trusted {
        untrustedBlocks := untrustedBlocks + 1;
        CloseRun();
        return;
      }
      totalBlocks := totalBlocks + 1;
      if silent {
        SinceGrows(h, x);
        silentBlocks := silentBlocks + 1;
        if silentRun == 0 {
          silentSince := Some(now);
        }
        silentRun := silentRun + 1;
      } else {
        CloseRun();
      }
    }

    // How much audio the current streak measures; it does not grow when blocks stop.
    method Streak() returns (length: int)
      requires Valid()
      ensures length == OpenRun(history) * BLOCK
      ensures length + Durations(Episodes(history)) <= silentBlocks * BLOCK
    {
      NeverOverbilled(history);
      length := silentRun * BLOCK;
    }
  }
}
