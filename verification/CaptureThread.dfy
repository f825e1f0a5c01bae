/**
 The capture thread against target changes: a step machine whose steps may interleave in any order. Every reader
 process is spawned for the target of that moment; the restart flag and the generation keep its audio from being shown
 under the name of another, except in one gap: the flag is raised only after the lock of the target change is released.
 */
module CaptureThread {
  import opened Sequences
  import opened Wrappers
  import C = Capture

  type Node = string

  // Where the thread is. A reader loops: look at the flags, read a chunk, fold its whole blocks one at a time.
  datatype Pc =
    | Top
    | Cleared
    | Spawned(source: Node)
    | LoopHead(source: Node, generation: nat, buf: seq<C.Byte>)
    | Reading(source: Node, generation: nat, buf: seq<C.Byte>)
    | Folding(source: Node, generation: nat, buf: seq<C.Byte>)

  // One kept block: its peak and the node whose reader produced it.
  datatype Point = Point(peak: nat, source: Node)

  // `raising`: target changes that have released the lock and not raised the flag yet.
  datatype State = State(
    pc: Pc, target: Option<Node>, generation: nat, raising: nat, restart: bool, stopped: bool, ring: seq<Point>,
    cursor: nat)

  datatype Step =
    | ClearFlag
    | Spawn(ok: bool)
    | Begin
    | LookAtFlags
    | Read(chunk: seq<C.Byte>)
    | FoldOne
    | SetTarget(target: Option<Node>)
    | RaiseFlag
    | Restart
    | Stop

  const FRESH: State := State(Top, None, 0, 0, false, false, [], 0)

  predicate Enabled(s: State, e: Step) {
    match e
    case ClearFlag => s.pc.Top? && !s.stopped
    case Spawn(ok) => s.pc.Cleared?
    case Begin => s.pc.Spawned?
    case LookAtFlags => s.pc.LoopHead?
    case Read(chunk) => s.pc.Reading?
    case FoldOne => s.pc.Folding?
    case SetTarget(_) => true
    case RaiseFlag => s.raising > 0
    case Restart => true
    case Stop => true
  }

  function Apply(s: State, e: Step): State
    requires Enabled(s, e)
  {
    match e
    case ClearFlag => s.(pc := Cleared, restart := false)
    case Spawn(ok) => s.(pc := if ok && s.target.Some? then Spawned(s.target.value) else Top)
    case Begin => s.(pc := LoopHead(s.pc.source, s.generation, []))
    case LookAtFlags =>
      s.(pc := if s.stopped || s.restart then Top else Reading(s.pc.source, s.pc.generation, s.pc.buf))
    case Read(chunk) =>
      s.(pc := if chunk == [] then Top else Folding(s.pc.source, s.pc.generation, s.pc.buf + chunk))
    case FoldOne =>
      if |s.pc.buf| < C.BLOCK_BYTES then s.(pc := LoopHead(s.pc.source, s.pc.generation, s.pc.buf))
      else if s.pc.generation != s.generation then s.(pc := Top)
      else
        var point := Point(C.Peak(s.pc.buf[..C.BLOCK_BYTES]), s.pc.source);
        s.(pc := s.pc.(buf := s.pc.buf[C.BLOCK_BYTES..]), cursor := s.cursor + 1,
           ring := LastN(C.RING_POINTS, s.ring + [point]))
    case SetTarget(t) =>
      if t == s.target then s
      else s.(target := t, ring := [], generation := s.generation + 1, raising := s.raising + 1)
    case RaiseFlag => s.(restart := true, raising := s.raising - 1)
    case Restart => s.(restart := true)
    case Stop => s.(stopped := true)
  }

  ghost predicate Runs(s: State, es: seq<Step>, t: State)
    decreases |es|
  {
    if es == [] then s == t else Enabled(s, es[0]) && Runs(Apply(s, es[0]), es[1..], t)
  }

  // A reader spawned before a target change is under way to being stopped.
  predicate Caught(s: State, source: Node) {
    s.restart || s.raising > 0 || Some(source) == s.target
  }

  // A reader that may still keep a block reads the current target.
  ghost predicate Inv(s: State) {
    && (forall i | 0 <= i < |s.ring| :: Some(s.ring[i].source) == s.target)
    && |s.ring| <= C.RING_POINTS && |s.ring| <= s.cursor
    && match s.pc
       case Top => true
       case Cleared => true
       case Spawned(source) => Caught(s, source)
       case LoopHead(source, g, _) => g <= s.generation && (g == s.generation ==> Caught(s, source))
       case Reading(source, g, _) => g <= s.generation && (g == s.generation ==> Some(source) == s.target)
       case Folding(source, g, _) => g <= s.generation && (g == s.generation ==> Some(source) == s.target)
  }

  /** A reader of an earlier target that has noted the new generation looks for the flag before it is raised. */
  predicate Slips(s: State, e: Step) {
    && e == LookAtFlags && s.pc.LoopHead? && !s.restart && !s.stopped
    && s.pc.generation == s.generation && Some(s.pc.source) != s.target
  }

  /** A step is safe if and only if it does not slip. */
  lemma {:induction false} SafeUnlessItSlips(s: State, e: Step)
    requires Inv(s) && Enabled(s, e)
    ensures Inv(Apply(s, e)) <==> !Slips(s, e)
  {
  }

  ghost predicate NeverSlips(s: State, es: seq<Step>)
    decreases |es|
  {
    es != [] ==> Enabled(s, es[0]) && !Slips(s, es[0]) && NeverSlips(Apply(s, es[0]), es[1..])
  }

  lemma {:induction false} RunKeepsInv(s: State, es: seq<Step>, t: State)
    requires Inv(s) && Runs(s, es, t) && NeverSlips(s, es)
    ensures Inv(t)
    decreases |es|
  {
    if es != [] {
      SafeUnlessItSlips(s, es[0]);
      RunKeepsInv(Apply(s, es[0]), es[1..], t);
    }
  }

  // What holds in every run, slips or not: no reader is ahead of the generation.
  predicate Counted(s: State) {
    match s.pc
    case LoopHead(_, g, _) => g <= s.generation
    case Reading(_, g, _) => g <= s.generation
    case Folding(_, g, _) => g <= s.generation
    case _ => true
  }

  lemma {:induction false} RunIsCounted(s: State, es: seq<Step>, t: State)
    requires Counted(s) && |s.ring| <= s.cursor && Runs(s, es, t)
    ensures Counted(t) && |t.ring| <= t.cursor
    decreases |es|
  {
    if es != [] {
      RunIsCounted(Apply(s, es[0]), es[1..], t);
    }
  }

  // Every block in the ring was read by a process spawned for the target the ring is shown under.
  predicate Pure(s: State) {
    (forall i | 0 <= i < |s.ring| :: Some(s.ring[i].source) == s.target) && |s.ring| <= C.RING_POINTS
  }

  /** However target changes, restarts and the reader interleave, and whatever slipped before: from any change of target
      on, the ring holds only blocks of a process spawned for its target, as long as no reader slips after it. */
  lemma {:induction false} NoForeignAudio(
    before: seq<Step>, s: State, target: Option<Node>, es: seq<Step>, t: State)
    requires Runs(FRESH, before, s) && target != s.target
    requires Runs(Apply(s, SetTarget(target)), es, t) && NeverSlips(Apply(s, SetTarget(target)), es)
    ensures Pure(t)
  {
    RunIsCounted(FRESH, before, s);
    RunKeepsInv(Apply(s, SetTarget(target)), es, t);
  }

  // The same from the start.
  lemma {:induction false} NoForeignAudioAtFirst(es: seq<Step>, t: State)
    requires Runs(FRESH, es, t) && NeverSlips(FRESH, es)
    ensures Pure(t)
  {
    RunKeepsInv(FRESH, es, t);
  }

  /** A reader can only slip in the gap: some target change has released the lock and not raised its flag, and the reader
      was spawned before it. Once the flag is up, it is turned away before it reads anything. */
  lemma {:induction false} SlipsOnlyInTheGap(s: State, e: Step)
    requires Inv(s) && Enabled(s, e) && Slips(s, e)
    ensures s.raising > 0
    ensures Apply(Apply(s, RaiseFlag), LookAtFlags).pc == Top
  {
  }

  // The ring shows a block of a reader spawned for something else.
  predicate Foreign(s: State) {
    exists i :: 0 <= i < |s.ring| && Some(s.ring[i].source) != s.target
  }

  /** A reader that slips can show its audio under the name of the new target: one block and nothing else is enough. */
  lemma {:induction false} SlippedAudioIsShown(s: State, block: seq<C.Byte>)
    requires Inv(s) && Enabled(s, LookAtFlags) && Slips(s, LookAtFlags) && |block| == C.BLOCK_BYTES
    ensures exists t :: Runs(s, [LookAtFlags, Read(block), FoldOne], t) && Foreign(t)
  {
    var s1 := Apply(s, LookAtFlags);
    var s2 := Apply(s1, Read(block));
    var t := Apply(s2, FoldOne);
    assert [FoldOne][1..] == [] && [Read(block), FoldOne][1..] == [FoldOne];
    assert [LookAtFlags, Read(block), FoldOne][1..] == [Read(block), FoldOne];
    assert Runs(s2, [FoldOne], t);
    assert Runs(s1, [Read(block), FoldOne], t);
    var all := s.ring + [Point(C.Peak(s2.pc.buf[..C.BLOCK_BYTES]), s.pc.source)];
    LastIsKept(all);
    assert t.ring == LastN(C.RING_POINTS, all);
    assert Some(t.ring[|t.ring| - 1].source) != t.target;
    assert Foreign(t);
    assert Runs(s, [LookAtFlags, Read(block), FoldOne], t);
  }

  lemma {:induction false} LastIsKept(points: seq<Point>)
    requires points != []
    ensures var r := LastN(C.RING_POINTS, points); r != [] && r[|r| - 1] == points[|points| - 1]
  {
  }

  // A reader is spawned for A; the target becomes B, and the reader notes the new generation before the flag is up.
  function Slipping(a: Node, b: Node): seq<Step> {
    [SetTarget(Some(a)), RaiseFlag, ClearFlag, Spawn(true), SetTarget(Some(b)), Begin]
  }

  function ReaderOf(a: Node): State {
    State(Spawned(a), Some(a), 1, 0, false, false, [], 0)
  }

  lemma {:induction false} ReaderSlips(a: Node, b: Node) returns (t: State)
    requires a != b
    ensures Runs(ReaderOf(a), [SetTarget(Some(b)), Begin], t) && NeverSlips(ReaderOf(a), [SetTarget(Some(b)), Begin])
    ensures Slips(t, LookAtFlags)
  {
    var s := Apply(ReaderOf(a), SetTarget(Some(b)));
    t := Apply(s, Begin);
    Before(t, [], t, Begin, s);
    Before(s, [Begin], t, SetTarget(Some(b)), ReaderOf(a));
    assert [SetTarget(Some(b)), Begin] == [SetTarget(Some(b))] + [Begin] && [Begin] == [Begin] + [];
  }

  /** And it can come to that. */
  lemma {:induction false} ReaderCanSlip(a: Node, b: Node)
    requires a != b
    ensures exists t :: Runs(FRESH, Slipping(a, b), t) && NeverSlips(FRESH, Slipping(a, b)) && Slips(t, LookAtFlags)
  {
    var t := ReaderSlips(a, b);
    var s1 := Apply(FRESH, SetTarget(Some(a)));
    var s2 := Apply(s1, RaiseFlag);
    var s3 := Apply(s2, ClearFlag);
    assert Apply(s3, Spawn(true)) == ReaderOf(a);
    var e2 := [SetTarget(Some(b)), Begin];
    Before(ReaderOf(a), e2, t, Spawn(true), s3);
    Before(s3, [Spawn(true)] + e2, t, ClearFlag, s2);
    Before(s2, [ClearFlag] + ([Spawn(true)] + e2), t, RaiseFlag, s1);
    Before(s1, [RaiseFlag] + ([ClearFlag] + ([Spawn(true)] + e2)), t, SetTarget(Some(a)), FRESH);
    assert Slipping(a, b) == [SetTarget(Some(a))] + ([RaiseFlag] + ([ClearFlag] + ([Spawn(true)] + e2)));
  }

  // One more step in front of a run.
  lemma {:induction false} Before(s: State, es: seq<Step>, t: State, e: Step, was: State)
    requires Runs(s, es, t) && NeverSlips(s, es) && Enabled(was, e) && Apply(was, e) == s && !Slips(was, e)
    ensures Runs(was, [e] + es, t) && NeverSlips(was, [e] + es)
  {
    assert ([e] + es)[1..] == es;
  }

  // --- an undisturbed reader ---------------------------------------------------------------------

  function Folds(n: nat): seq<Step> {
    seq(n, _ => FoldOne)
  }

  function Points(blocks: seq<seq<C.Byte>>, source: Node): (r: seq<Point>)
    ensures |r| == |blocks|
  {
    seq(|blocks|, i requires 0 <= i < |blocks| => Point(C.Peak(blocks[i]), source))
  }

  // The ring and the cursor after these points.
  function Kept(s: State, points: seq<Point>, pc: Pc): State {
    s.(pc := pc, cursor := s.cursor + |points|, ring := LastN(C.RING_POINTS, s.ring + points))
  }

  lemma {:induction false} LastNTwice(ring: seq<Point>, p: Point, more: seq<Point>)
    ensures LastN(C.RING_POINTS, LastN(C.RING_POINTS, ring + [p]) + more) == LastN(C.RING_POINTS, ring + ([p] + more))
  {
    assert ring + ([p] + more) == (ring + [p]) + more;
  }

  lemma {:induction false} FoldsAll(s: State)
    requires s.pc.Folding? && s.pc.generation == s.generation && |s.ring| <= C.RING_POINTS
    ensures var buf, source := s.pc.buf, s.pc.source;
            Runs(s, Folds(|C.Framed(buf)| + 1),
                 Kept(s, Points(C.Framed(buf), source), LoopHead(source, s.generation, C.Leftover(buf))))
    decreases |s.pc.buf|
  {
    var buf, source := s.pc.buf, s.pc.source;
    var n := |C.Framed(buf)|;
    assert Folds(n + 1)[0] == FoldOne && Folds(n + 1)[1..] == Folds(n);
    if |buf| < C.BLOCK_BYTES {
      assert s.ring + Points(C.Framed(buf), source) == s.ring;
      assert Folds(0) == [];
    } else {
      var next := Apply(s, FoldOne);
      FoldsAll(next);
      var rest := C.Framed(buf[C.BLOCK_BYTES..]);
      var p := Point(C.Peak(buf[..C.BLOCK_BYTES]), source);
      assert Points(C.Framed(buf), source) == [p] + Points(rest, source);
      LastNTwice(s.ring, p, Points(rest, source));
    }
  }

  /** A reader that nobody disturbs keeps everything it reads: a chunk that arrives is put behind what was left over, and
      every whole block of the two is in the ring, in order, under the reader's own node. */
  lemma {:induction false} ChunkIsKept(s: State, chunk: seq<C.Byte>)
    requires s.pc.LoopHead? && s.pc.generation == s.generation && !s.restart && !s.stopped && chunk != []
    requires |s.ring| <= C.RING_POINTS
    ensures var all, source := s.pc.buf + chunk, s.pc.source;
            Runs(s, [LookAtFlags, Read(chunk)] + Folds(|C.Framed(all)| + 1),
                 Kept(s, Points(C.Framed(all), source), LoopHead(source, s.generation, C.Leftover(all))))
  {
    var s1 := Apply(s, LookAtFlags);
    var s2 := Apply(s1, Read(chunk));
    FoldsAll(s2);
    var folds := Folds(|C.Framed(s.pc.buf + chunk)| + 1);
    assert ([LookAtFlags, Read(chunk)] + folds)[1..] == [Read(chunk)] + folds;
    assert ([Read(chunk)] + folds)[1..] == folds;
  }

  /** A reader that was stopped by a flag is started again, for the target of that moment, with the flag down: three steps
      lead from the top of the loop to a reader that nobody disturbs. */
  lemma {:induction false} ReaderStartsAgain(s: State)
    requires s.pc.Top? && !s.stopped && s.target.Some?
    ensures Runs(s, [ClearFlag, Spawn(true), Begin],
                 s.(pc := LoopHead(s.target.value, s.generation, []), restart := false))
  {
    var steps := [ClearFlag, Spawn(true), Begin];
    assert steps[1..] == [Spawn(true), Begin] && steps[1..][1..] == [Begin] && [Begin][1..] == [];
  }

  /** And a flag stops it: the next time it looks it reads no more. */
  lemma {:induction false} FlagStopsTheReader(s: State, e: Step)
    requires s.pc.LoopHead? && Enabled(s, e) && (e == RaiseFlag || e == Restart || e == Stop)
    ensures var t := Apply(s, e);
            Enabled(t, LookAtFlags) && Apply(t, LookAtFlags) == t.(pc := Top) && t.ring == s.ring && t.target == s.target
  {
  }

  // The reader is told that its stream has ended, could not be spawned, or holds a block of an earlier target.
  predicate Done(s: State, e: Step) {
    match e
    case Spawn(ok) => !ok || s.target.None?
    case Read(chunk) => chunk == []
    case FoldOne => s.pc.Folding? && |s.pc.buf| >= C.BLOCK_BYTES && s.pc.generation != s.generation
    case _ => false
  }

  /** However a reader ends, the thread goes back to the top of its loop and nothing of it is kept. */
  lemma {:induction false} DoneGoesBackToTheTop(s: State, e: Step)
    requires Enabled(s, e) && Done(s, e)
    ensures Apply(s, e) == s.(pc := Top)
  {
  }

  // How often the target really changes in a run, and how often a flag is raised for it.
  function Changes(s: State, es: seq<Step>): nat
    decreases |es|
  {
    if es == [] || !Enabled(s, es[0]) then 0
    else (if es[0].SetTarget? && es[0].target != s.target then 1 else 0) + Changes(Apply(s, es[0]), es[1..])
  }

  function Flags(es: seq<Step>): nat {
    if es == [] then 0 else (if es[0].RaiseFlag? then 1 else 0) + Flags(es[1..])
  }

  /** Over any run each change of target, and nothing else, is owed one flag and starts one generation. */
  lemma {:induction false} EveryChangeIsOwedAFlag(s: State, es: seq<Step>, t: State)
    requires Runs(s, es, t)
    ensures t.raising + Flags(es) == s.raising + Changes(s, es)
    ensures t.generation == s.generation + Changes(s, es)
    decreases |es|
  {
    if es != [] {
      EveryChangeIsOwedAFlag(Apply(s, es[0]), es[1..], t);
    }
  }
}
