/**
 The capture: bytes re-framed into fixed blocks, a ring of the most recent ones with a cursor that only grows, and what
 a polling client receives of it.
 */
module Capture {
  import opened Sequences
  import opened Wrappers
  import Silence

  const BLOCK_BYTES: nat := 3840
  const RING_POINTS: nat := 750
  const BIND_GRACE: int := 6_000_000

  type Byte = b: int | 0 <= b < 256

  // --- one block -----------------------------------------------------------------------------

  // Little-endian signed 16-bit sample `k` of a block.
  function Sample(block: seq<Byte>, k: nat): int
    requires 2 * k + 1 < |block|
  {
    var v := block[2 * k] as int + 256 * (block[2 * k + 1] as int);
    if v >= 32768 then v - 65536 else v
  }

  /** It is the 16-bit two's complement reading: in range, and the unsigned value up to a multiple of 65536. */
  lemma {:induction false} SampleIsTwosComplement(block: seq<Byte>, k: nat)
    requires 2 * k + 1 < |block|
    ensures var v := Sample(block, k);
            -32768 <= v <= 32767 && (v - (block[2 * k] as int + 256 * (block[2 * k + 1] as int))) % 65536 == 0
  {
  }

  function Abs(v: int): nat {
    if v < 0 then -v else v
  }

  /** The largest absolute sample: a trailing odd byte is no sample, and no samples at all read as zero. */
  method PeakOf(block: seq<Byte>) returns (peak: nat)
    ensures peak == Peak(block)
    ensures forall k: nat | k < |block| / 2 :: Abs(Sample(block, k)) <= peak
    ensures |block| / 2 > 0 ==> exists k: nat :: k < |block| / 2 && Abs(Sample(block, k)) == peak
    ensures |block| / 2 == 0 ==> peak == 0
  {
    var n := |block| / 2;
    if n == 0 {
      PeakIsTheMax(block, 0);
      return 0;
    }
    var lo, hi := Sample(block, 0), Sample(block, 0);
    ghost var at := 0;
    for k := 1 to n
      invariant lo <= hi
      invariant forall i: nat | i < k :: lo <= Sample(block, i) <= hi
      invariant exists i: nat :: i < k && Sample(block, i) == lo
      invariant exists i: nat :: i < k && Sample(block, i) == hi
    {
      var v := Sample(block, k);
      lo, hi := Min(lo, v), Max(hi, v);
      assert exists i: nat :: i < k + 1 && Sample(block, i) == lo by {
        if lo == v {
          assert Sample(block, k) == lo;
        }
      }
      assert exists i: nat :: i < k + 1 && Sample(block, i) == hi by {
        if hi == v {
          assert Sample(block, k) == hi;
        }
      }
    }
    peak := Max(hi, -lo);
    PeakIsTheMax(block, peak);
  }

  function PeakUpTo(block: seq<Byte>, n: nat): nat
    requires n <= |block| / 2
  {
    if n == 0 then 0 else Max(PeakUpTo(block, n - 1), Abs(Sample(block, n - 1)))
  }

  function Peak(block: seq<Byte>): nat {
    PeakUpTo(block, |block| / 2)
  }

  lemma {:induction false} PeakBounds(block: seq<Byte>, n: nat)
    requires n <= |block| / 2
    ensures forall k: nat | k < n :: Abs(Sample(block, k)) <= PeakUpTo(block, n)
    ensures n > 0 ==> exists k: nat :: k < n && Abs(Sample(block, k)) == PeakUpTo(block, n)
  {
    if n > 0 {
      PeakBounds(block, n - 1);
      assert PeakUpTo(block, n) == Abs(Sample(block, n - 1)) || PeakUpTo(block, n) == PeakUpTo(block, n - 1);
      if n == 1 {
        assert Abs(Sample(block, 0)) == PeakUpTo(block, 1);
      }
    }
  }

  lemma {:induction false} PeakIsTheMax(block: seq<Byte>, peak: nat)
    requires forall k: nat | k < |block| / 2 :: Abs(Sample(block, k)) <= peak
    requires if |block| / 2 == 0 then peak == 0 else exists k: nat :: k < |block| / 2 && Abs(Sample(block, k)) == peak
    ensures peak == Peak(block)
  {
    PeakBounds(block, |block| / 2);
  }

  /** A block counts as silent exactly when every byte of every sample is zero. */
  lemma {:induction false} SilentIffAllZero(block: seq<Byte>)
    ensures Peak(block) == 0 <==> forall i | 0 <= i < |block| / 2 * 2 :: block[i] == 0
  {
    var n := |block| / 2;
    PeakBounds(block, n);
    if Peak(block) == 0 {
      forall i | 0 <= i < n * 2 ensures block[i] == 0 {
        assert Sample(block, i / 2) == 0;
        assert i == 2 * (i / 2) || i == 2 * (i / 2) + 1;
      }
    } else {
      var k: nat :| k < n && Abs(Sample(block, k)) == Peak(block);
      assert block[2 * k] != 0 || block[2 * k + 1] != 0;
    }
  }

  // --- re-framing ------------------------------------------------------------------------------

  /** The whole blocks of a byte stream, whatever pieces it arrived in. */
  function Framed(stream: seq<Byte>): (blocks: seq<seq<Byte>>)
    decreases |stream|
  {
    if |stream| < BLOCK_BYTES then [] else [stream[..BLOCK_BYTES]] + Framed(stream[BLOCK_BYTES..])
  }

  function Leftover(stream: seq<Byte>): seq<Byte>
    decreases |stream|
  {
    if |stream| < BLOCK_BYTES then stream else Leftover(stream[BLOCK_BYTES..])
  }

  /** Block `k` is bytes `k * BLOCK_BYTES` onwards of the stream; only a last partial block is held back. */
  lemma {:induction false} FramedByPosition(stream: seq<Byte>)
    ensures |Framed(stream)| * BLOCK_BYTES + |Leftover(stream)| == |stream|
    ensures |Leftover(stream)| < BLOCK_BYTES
    ensures Leftover(stream) == stream[|Framed(stream)| * BLOCK_BYTES..]
    ensures forall k | 0 <= k < |Framed(stream)| ::
              Framed(stream)[k] == stream[k * BLOCK_BYTES..][..BLOCK_BYTES]
    decreases |stream|
  {
    if |stream| >= BLOCK_BYTES {
      var rest := stream[BLOCK_BYTES..];
      FramedByPosition(rest);
      forall k | 0 <= k < |Framed(stream)|
        ensures Framed(stream)[k] == stream[k * BLOCK_BYTES..][..BLOCK_BYTES]
      {
        if k > 0 {
          assert Framed(stream)[k] == Framed(rest)[k - 1];
          assert rest[(k - 1) * BLOCK_BYTES..] == stream[k * BLOCK_BYTES..];
        }
      }
    }
  }

  /** Framing piece by piece, holding back what is left over, is framing the whole stream. */
  lemma {:induction false} FramedInPieces(s: seq<Byte>, t: seq<Byte>)
    ensures Framed(s + t) == Framed(s) + Framed(Leftover(s) + t)
    ensures Leftover(s + t) == Leftover(Leftover(s) + t)
    decreases |s|
  {
    if |s| >= BLOCK_BYTES {
      assert (s + t)[..BLOCK_BYTES] == s[..BLOCK_BYTES];
      assert (s + t)[BLOCK_BYTES..] == s[BLOCK_BYTES..] + t;
      FramedInPieces(s[BLOCK_BYTES..], t);
    }
  }

  // The bytes read until the stream ends: at the first empty read, or when the reader is told to stop.
  function Stream(chunks: seq<seq<Byte>>): seq<Byte> {
    if chunks == [] || chunks[0] == [] then [] else chunks[0] + Stream(chunks[1..])
  }

  /** The stream is its pieces put together, up to the first empty one. */
  lemma {:induction false} StreamJoins(chunks: seq<seq<Byte>>, more: seq<seq<Byte>>, c: seq<Byte>)
    ensures [] !in chunks ==> Stream(chunks + more) == Stream(chunks) + Stream(more)
    ensures Stream([c]) == c && Stream([[]] + more) == []
  {
    assert [c][1..] == [] && [c][0] == c;
    if chunks == [] {
      assert chunks + more == more;
    } else {
      assert chunks == [chunks[0]] + chunks[1..] && (chunks + more)[1..] == chunks[1..] + more;
      StreamJoins(chunks[1..], more, c);
    }
  }

  lemma {:induction false} KeptGrows(log: seq<nat>, read: seq<Byte>, chunk: seq<Byte>)
    ensures (log + Peaks(Framed(read))) + Peaks(Framed(Leftover(read) + chunk)) == log + Peaks(Framed(read + chunk))
    ensures Leftover(read + chunk) == Leftover(Leftover(read) + chunk)
  {
    FramedInPieces(read, chunk);
    Regroup(log, Peaks(Framed(read)), Peaks(Framed(Leftover(read) + chunk)));
  }

  function Peaks(blocks: seq<seq<Byte>>): (peaks: seq<nat>)
    ensures |peaks| == |blocks|
  {
    seq(|blocks|, i requires 0 <= i < |blocks| => Peak(blocks[i]))
  }

  // --- the ring and its readers ------------------------------------------------------------------

  datatype Reply = Reply(from: int, cursor: nat, points: seq<nat>)

  // The envelope part of a snapshot.
  function Snapshot(ring: seq<nat>, cursor: nat, since: Option<int>): (r: Reply)
    requires |ring| <= cursor
  {
    var first := cursor - |ring|;
    if since.Some? && since.value > first
    then Reply(Max(first, since.value), cursor, if since.value - first <= |ring| then ring[since.value - first..] else [])
    else Reply(first, cursor, ring)
  }

  /** The ring after blocks `log`, the first `cleared` of which belong to earlier targets. */
  function RingOf(log: seq<nat>, cleared: nat): seq<nat>
    requires cleared <= |log|
  {
    LastN(RING_POINTS, log[cleared..])
  }

  /** A client that polls with the cursor of its previous reply gets the newest blocks of the log, none of them twice
      and none out of order. It misses some exactly when more than a ring-full arrived in between or the target
      changed, and the reply says so: it does not start where the client left off. */
  lemma {:induction false} PollIsConsecutive(log: seq<nat>, cleared: nat, since: nat)
    requires cleared <= |log| && since <= |log|
    ensures var r := Snapshot(RingOf(log, cleared), |log|, Some(since));
            && since <= r.from <= r.cursor == |log|
            && r.points == log[r.from..]
            && (r.from == since <==> cleared <= since && |log| - since <= RING_POINTS)
  {
    var ring := RingOf(log, cleared);
    var first := |log| - |ring|;
    assert ring == log[first..];
    if since > first {
      assert ring[since - first..] == log[since..];
    }
  }

  /** A client without a cursor gets everything the ring holds: the blocks since the target changed, but no more than the
      ring does. One whose cursor is ahead of everything - of an earlier life of the program - gets nothing, and is told
      where to go on. */
  lemma {:induction false} FirstPoll(log: seq<nat>, cleared: nat, ahead: nat)
    requires cleared <= |log|
    ensures var r := Snapshot(RingOf(log, cleared), |log|, None);
            && r.from == Max(cleared, |log| - RING_POINTS) && r.points == log[r.from..] && r.cursor == |log|
    ensures ahead > |log| ==>
              Snapshot(RingOf(log, cleared), |log|, Some(ahead)) == Reply(ahead, |log|, [])
  {
    var ring := RingOf(log, cleared);
    assert ring == log[|log| - |ring|..];
  }

  // --- a client over a whole run --------------------------------------------------------------

  datatype Happening = Arrived(peak: nat) | Retargeted | Polled

  // `got` are the positions and values the client has received.
  datatype World = World(log: seq<nat>, cleared: nat, since: nat, got: seq<(int, nat)>)

  predicate Bounded(w: World) {
    w.cleared <= |w.log| && w.since <= |w.log|
  }

  ghost predicate Consistent(w: World) {
    && Bounded(w)
    && (forall i | 0 <= i < |w.got| :: 0 <= w.got[i].0 < w.since && w.got[i].1 == w.log[w.got[i].0])
    && (forall i, j | 0 <= i < j < |w.got| :: w.got[i].0 < w.got[j].0)
  }

  function Numbered(from: int, points: seq<nat>): (r: seq<(int, nat)>)
    ensures |r| == |points|
  {
    seq(|points|, i requires 0 <= i < |points| => (from + i, points[i]))
  }

  function Next(w: World, h: Happening): (n: World)
    requires Bounded(w)
    ensures Bounded(n) && w.log <= n.log && w.since <= n.since
  {
    match h
    case Arrived(peak) => World(w.log + [peak], w.cleared, w.since, w.got)
    case Retargeted => World(w.log, |w.log|, w.since, w.got)
    case Polled =>
      var r := Snapshot(RingOf(w.log, w.cleared), |w.log|, Some(w.since));
      World(w.log, w.cleared, r.cursor, w.got + Numbered(r.from, r.points))
  }

  lemma {:induction false} NextIsConsistent(w: World, h: Happening)
    requires Consistent(w)
    ensures Consistent(Next(w, h))
  {
    match h
    case Arrived(peak) =>
    case Retargeted =>
    case Polled =>
      PollIsConsecutive(w.log, w.cleared, w.since);
      var r := Snapshot(RingOf(w.log, w.cleared), |w.log|, Some(w.since));
      GotMore(w, r.from);
  }

  lemma {:induction false} GotMore(w: World, from: nat)
    requires Consistent(w) && w.since <= from
    requires from <= |w.log|
    ensures Consistent(World(w.log, w.cleared, |w.log|, w.got + Numbered(from, w.log[from..])))
  {
  }

  function Run(w: World, hs: seq<Happening>): (e: World)
    requires Bounded(w)
    ensures Bounded(e) && w.log <= e.log && w.since <= e.since
    decreases |hs|
  {
    if hs == [] then w else Run(Next(w, hs[0]), hs[1..])
  }

  // No more than a ring-full arrives between two polls, and the target stays.
  predicate Gentle(pending: nat, hs: seq<Happening>)
    decreases |hs|
  {
    if hs == [] then true
    else
      match hs[0]
      case Arrived(_) => pending < RING_POINTS && Gentle(pending + 1, hs[1..])
      case Retargeted => false
      case Polled => Gentle(0, hs[1..])
  }

  /** Over any run the client's blocks are blocks of the log in order without repetition. */
  lemma {:induction false} NothingTwice(w: World, hs: seq<Happening>)
    requires Consistent(w)
    ensures Consistent(Run(w, hs)) && w.got <= Run(w, hs).got
    decreases |hs|
  {
    if hs != [] {
      NextIsConsistent(w, hs[0]);
      NothingTwice(Next(w, hs[0]), hs[1..]);
    }
  }

  lemma {:induction false} NothingMissedNext(w: World, h: Happening)
    requires Bounded(w) && w.cleared <= w.since && !h.Retargeted?
    requires |w.log| - w.since <= RING_POINTS
    ensures var n := Next(w, h);
            && n.cleared <= n.since
            && n.got == if h.Polled? then w.got + Numbered(w.since, w.log[w.since..]) else w.got
  {
    PollIsConsecutive(w.log, w.cleared, w.since);
  }

  // Numbering a longer log from where the shorter one ended.
  lemma {:induction false} NumberedOn(log: seq<nat>, longer: seq<nat>, from: nat, to: nat)
    requires from <= |log| <= to <= |longer| && log <= longer
    ensures Numbered(from, log[from..]) + Numbered(|log|, longer[|log|..to]) == Numbered(from, longer[from..to])
  {
    assert longer[from..to] == log[from..] + longer[|log|..to];
  }

  /** Polled often enough on one target, the client receives every block that arrived before its last poll. */
  lemma {:induction false} NothingMissed(w: World, hs: seq<Happening>)
    requires Bounded(w) && w.cleared <= w.since
    requires |w.log| - w.since <= RING_POINTS && Gentle(|w.log| - w.since, hs)
    ensures Run(w, hs).got == w.got + Numbered(w.since, Run(w, hs).log[w.since..Run(w, hs).since])
    decreases |hs|
  {
    if hs != [] {
      var n := Next(w, hs[0]);
      NothingMissedNext(w, hs[0]);
      NothingMissed(n, hs[1..]);
      if hs[0].Polled? {
        NumberedOn(w.log, Run(w, hs).log, w.since, Run(w, hs).since);
      }
    }
  }

  // --- the capture itself -----------------------------------------------------------------------

  class CaptureRing {
    var ring: seq<nat>
    var cursor: nat
    var generation: nat
    var target: Option<string>
    var bound: Option<bool>
    var changedAt: Option<int>
    // Every block ever kept, and how many of them belong to earlier targets.
    ghost var log: seq<nat>
    ghost var cleared: nat
    // What the silence tracker of the current target is given, block by block.
    ghost var heard: seq<Silence.Block>

    /** The ring is the most recent blocks since the target last changed, and the tracker hears all of those. */
    ghost predicate Valid()
      reads this
    {
      && cursor == |log| && cleared <= |log|
      && ring == RingOf(log, cleared)
      && |heard| == cursor - cleared
      && (forall k | 0 <= k < |heard| :: heard[k].silent == (log[cleared + k] == 0))
    }

    constructor (target: Option<string>)
      ensures Valid() && log == [] && this.target == target && bound == None && generation == 0
    {
      ring, cursor, generation, bound, changedAt := [], 0, 0, None, None;
      this.target := target;
      log, cleared, heard := [], 0, [];
    }

    method SetTarget(t: Option<string>, now: int)
      requires Valid()
      modifies this
      ensures Valid() && log == old(log) && target == t
      ensures t == old(target) ==> unchanged(this)
      ensures t != old(target) ==>
                && ring == [] && cleared == cursor && bound == None && changedAt == Some(now)
                && generation == old(generation) + 1
    {
      if t == target {
        return;
      }
      target := t;
      ring := [];
      generation := generation + 1;
      bound, changedAt := None, Some(now);
      cleared, heard := |log|, [];
    }

    /** One block: dropped if it was read on behalf of an earlier target, otherwise kept and judged. */
    method Fold(peak: nat, generation: nat, now: int) returns (live: bool)
      requires Valid()
      modifies this`ring, this`cursor, this`log, this`heard
      ensures Valid() && live == (generation == this.generation)
      ensures live ==>
                && log == old(log) + [peak]
                && heard == old(heard) + [Silence.Block(peak == 0, now, bound != Some(false))]
      ensures !live ==> log == old(log) && ring == old(ring) && heard == old(heard)
    {
      if generation != this.generation {
        return false;
      }
      ring := LastN(RING_POINTS, ring + [peak]);
      cursor := cursor + 1;
      log := log + [peak];
      var trusted := bound != Some(false);
      heard := heard + [Silence.Block(peak == 0, now, trusted)];
      return true;
    }

    // Takes the whole blocks off `buf`.
    method Drain(buf: seq<Byte>, generation: nat, clock: nat -> int) returns (rest: seq<Byte>, live: bool)
      requires Valid()
      modifies this`ring, this`cursor, this`log, this`heard
      ensures Valid()
      ensures live ==> rest == Leftover(buf)
      ensures generation != this.generation ==> log == old(log)
      ensures generation == this.generation ==> live && log == old(log) + Peaks(Framed(buf))
    {
      rest := buf;
      ghost var fed: seq<seq<Byte>> := [];
      while |rest| >= BLOCK_BYTES
        invariant Valid()
        invariant Framed(buf) == fed + Framed(rest) && Leftover(buf) == Leftover(rest)
        invariant log == old(log) + Peaks(fed)
        invariant generation != this.generation ==> fed == []
      {
        var block := rest[..BLOCK_BYTES];
        rest := rest[BLOCK_BYTES..];
        var peak := PeakOf(block);
        live := Fold(peak, generation, clock(cursor));
        if !live {
          return;
        }
        fed := fed + [block];
      }
      assert fed + [] == fed;
      return rest, true;
    }

    /** Whatever pieces the bytes arrive in, the blocks kept are the whole blocks of the stream: a reader for an earlier
        target keeps nothing. */
    method Pump(chunks: seq<seq<Byte>>, generation: nat, clock: nat -> int)
      requires Valid()
      modifies this`ring, this`cursor, this`log, this`heard
      ensures Valid()
      ensures log == old(log) + if generation == this.generation then Peaks(Framed(Stream(chunks))) else []
    {
      var buf: seq<Byte> := [];
      var i := 0;
      ghost var read: seq<Byte> := [];
      while i < |chunks|
        invariant i <= |chunks|
        invariant Valid()
        invariant Stream(chunks) == read + Stream(chunks[i..])
        invariant buf == Leftover(read)
        invariant log == old(log) + if generation == this.generation then Peaks(Framed(read)) else []
      {
        if chunks[i] == [] {
          assert read + [] == read;
          return;
        }
        KeptGrows(old(log), read, chunks[i]);
        var live;
        buf, live := Drain(buf + chunks[i], generation, clock);
        if !live {
          return;
        }
        read := read + chunks[i];
        i := i + 1;
      }
      assert read + [] == read;
    }

    /** Records what the graph says; right after a switch "not bound" only means "not bound yet". */
    method SetBinding(verdict: Option<bool>, now: int)
      requires Valid()
      modifies this`bound, this`changedAt
      ensures Valid()
      ensures (bound, changedAt) == Believed(old(changedAt), verdict, now)
    {
      var v := verdict;
      if v.Some? && !v.value && changedAt.Some? {
        if now - changedAt.value < BIND_GRACE {
          v := None;
        }
      }
      if v.Some? {
        changedAt := None;
      }
      bound := v;
    }

    method Read(since: Option<int>) returns (r: Reply)
      requires Valid()
      ensures r == Snapshot(RingOf(log, cleared), |log|, since)
    {
      r := Snapshot(ring, cursor, since);
    }
  }

  // --- the grace period ---------------------------------------------------------------------------

  function Believed(changedAt: Option<int>, verdict: Option<bool>, now: int): (Option<bool>, Option<int>) {
    if verdict.Some? && !verdict.value && changedAt.Some? && now - changedAt.value < BIND_GRACE then (None, changedAt)
    else if verdict.Some? then (verdict, None)
    else (None, changedAt)
  }

  datatype Verdict = Verdict(bound: Option<bool>, at: int)

  ghost function Judged(changed: int, vs: seq<Verdict>): (Option<bool>, Option<int>)
    decreases |vs|
  {
    if vs == [] then (None, Some(changed))
    else
      var last := vs[|vs| - 1];
      Believed(Judged(changed, vs[..|vs| - 1]).1, last.bound, last.at)
  }

  // A verdict that ends the grace period of a switch at `changed`.
  predicate Settles(changed: int, v: Verdict) {
    v.bound.Some? && (v.bound.value || v.at - changed >= BIND_GRACE)
  }

  ghost predicate Settled(changed: int, vs: seq<Verdict>) {
    exists i :: 0 <= i < |vs| && Settles(changed, vs[i])
  }

  lemma {:induction false} SettledGrows(changed: int, vs: seq<Verdict>, v: Verdict)
    ensures Settled(changed, vs + [v]) <==> Settled(changed, vs) || Settles(changed, v)
  {
    var all := vs + [v];
    if Settled(changed, vs) {
      var i :| 0 <= i < |vs| && Settles(changed, vs[i]);
      assert Settles(changed, all[i]);
    }
    if Settled(changed, all) {
      var i :| 0 <= i < |all| && Settles(changed, all[i]);
      assert i < |vs| ==> Settles(changed, vs[i]);
    }
    assert Settles(changed, v) ==> Settles(changed, all[|vs|]);
  }

  /** After a switch, blocks are distrusted exactly while the latest verdict is negative and some verdict since the
      switch was positive or came after the grace period. */
  lemma {:induction false} DistrustedAfterASwitch(changed: int, vs: seq<Verdict>)
    ensures Judged(changed, vs).0 == Some(false) <==>
            vs != [] && vs[|vs| - 1].bound == Some(false) && Settled(changed, vs)
    ensures Judged(changed, vs).1 == (if Settled(changed, vs) then None else Some(changed))
    decreases |vs|
  {
    if vs != [] {
      var front, last := vs[..|vs| - 1], vs[|vs| - 1];
      DistrustedAfterASwitch(changed, front);
      assert vs == front + [last];
      SettledGrows(changed, front, last);
      assert Judged(changed, vs) == Believed(Judged(changed, front).1, last.bound, last.at);
    }
  }
}
