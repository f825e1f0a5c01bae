/**
 The binding watch: whether the capture is really fed by its target, when its reader is replaced, and when a phone that
 connects later is adopted. Times are integers in microseconds.
 */
module Binding {
  import opened Wrappers

  type Node = string

  const UNBOUND_RESPAWN: int := 6_000_000

  datatype CaptureTarget = CaptureTarget(node: Node, a2dp: bool)

  // One reading of the audio graph.
  datatype Graph = Graph(ok: bool, fedBy: seq<Node>, names: seq<Node>, targets: seq<CaptureTarget>)

  // --- the two decisions -------------------------------------------------------------------

  function Sources(targets: seq<CaptureTarget>): (r: seq<Node>)
    ensures forall n :: n in r <==> CaptureTarget(n, true) in targets
    decreases |targets|
  {
    if targets == [] then []
    else
      var rest := Sources(targets[1..]);
      assert targets == [targets[0]] + targets[1..];
      if targets[0].a2dp then [targets[0].node] + rest else rest
  }

  function AutoTarget(current: Option<Node>, targets: seq<CaptureTarget>, isAuto: bool): Option<Node> {
    var sources := Sources(targets);
    if !isAuto || sources == [] || (current.Some? && current.value in sources) then None
    else Some(sources[0])
  }

  // Adoption needs a node with a name: an empty one reads as no decision.
  function Adopted(g: Graph, current: Option<Node>, isAuto: bool): Option<Node> {
    if !g.ok then None
    else
      var n := AutoTarget(current, g.targets, isAuto);
      if n == Some("") then None else n
  }

  predicate Named(target: Option<Node>) {
    target.Some? && target.value != ""
  }

  predicate Bound(g: Graph, target: Option<Node>) {
    Named(target) && g.fedBy == [target.value]
  }

  /** The capture is off its target although the target is there. */
  predicate Waiting(g: Graph, target: Option<Node>) {
    g.ok && Named(target) && !Bound(g, target) && target.value in g.names
  }

  datatype Decision = Decision(bound: Option<bool>, unboundSince: Option<int>, respawn: bool)

  function BindingDecision(g: Graph, target: Option<Node>, unboundSince: Option<int>, now: int): Decision {
    if !g.ok then Decision(None, None, false)
    else
      var bound := Bound(g, target);
      if bound || !Named(target) || target.value !in g.names then Decision(Some(bound), None, false)
      else if unboundSince.None? then Decision(Some(bound), Some(now), false)
      else if now - unboundSince.value >= UNBOUND_RESPAWN then Decision(Some(bound), None, true)
      else Decision(Some(bound), unboundSince, false)
  }

  // --- what the watch has seen and done ------------------------------------------------------

  datatype Tick = Tick(at: int, target: Option<Node>, waiting: bool, respawn: bool)

  // Where the current unbroken stretch of waiting since the last respawn began.
  function StretchStart(log: seq<Tick>): (i: nat)
    ensures i <= |log|
    ensures forall k | i <= k < |log| :: log[k].waiting && !log[k].respawn
    ensures i > 0 ==> !log[i - 1].waiting || log[i - 1].respawn
    decreases |log|
  {
    if log == [] then 0
    else
      var last := log[|log| - 1];
      if !last.waiting || last.respawn then |log| else StretchStart(log[..|log| - 1])
  }

  function Since(log: seq<Tick>): Option<int> {
    if StretchStart(log) < |log| then Some(log[StretchStart(log)].at) else None
  }

  // Whether tick `i` was due to replace the reader.
  predicate Due(log: seq<Tick>, i: nat)
    requires i < |log|
  {
    var start := StretchStart(log[..i]);
    log[i].waiting && start < i && log[i].at - log[start].at >= UNBOUND_RESPAWN
  }

  ghost predicate Faithful(log: seq<Tick>) {
    forall i: nat {:trigger Due(log, i)} | i < |log| :: log[i].respawn <==> Due(log, i)
  }

  // The current stretch has lasted the grace time.
  predicate Overdue(log: seq<Tick>, now: int) {
    Since(log).Some? && now - Since(log).value >= UNBOUND_RESPAWN
  }

  lemma {:induction false} FaithfulGrows(log: seq<Tick>, t: Tick)
    requires Faithful(log)
    requires t.respawn <==> t.waiting && Since(log).Some? && t.at - Since(log).value >= UNBOUND_RESPAWN
    ensures Faithful(log + [t])
    ensures Since(log + [t]) ==
            if !t.waiting || t.respawn then None else if Since(log).Some? then Since(log) else Some(t.at)
  {
    var all := log + [t];
    assert all[..|log|] == log;
    forall i: nat | i < |all| ensures all[i].respawn <==> Due(all, i) {
      if i < |log| {
        assert all[..i] == log[..i];
        assert Due(log, i) <==> Due(all, i);
      }
    }
  }

  // The decision keeps the log faithful.
  lemma {:induction false} DecidedFaithfully(log: seq<Tick>, g: Graph, target: Option<Node>, now: int)
    requires Faithful(log)
    ensures var d := BindingDecision(g, target, Since(log), now);
            var all := log + [Tick(now, target, Waiting(g, target), d.respawn)];
            && Faithful(all) && d.unboundSince == Since(all)
            && d.bound == (if g.ok then Some(Bound(g, target)) else None)
  {
    var d := BindingDecision(g, target, Since(log), now);
    FaithfulGrows(log, Tick(now, target, Waiting(g, target), d.respawn));
  }

  // --- the rule over whole runs --------------------------------------------------------------

  predicate Forward(log: seq<Tick>) {
    forall i, j | 0 <= i < j < |log| :: log[i].at <= log[j].at
  }

  // From `j` to `i` every observation was readable, unbound and with its target present, and nothing was replaced yet.
  predicate Unbroken(log: seq<Tick>, j: nat, i: nat)
    requires j <= i < |log|
  {
    (forall k | j <= k <= i :: log[k].waiting) && (forall k | j <= k < i :: !log[k].respawn)
  }

  lemma {:induction false} StretchIsUnbroken(log: seq<Tick>, i: nat)
    requires i < |log| && log[i].waiting
    ensures Unbroken(log, StretchStart(log[..i]), i)
  {
    var front := log[..i];
    assert forall k | 0 <= k < i :: front[k] == log[k];
  }

  /** The reader is replaced exactly at the end of an unbroken stretch that spans at least the grace time. */
  lemma {:induction false} RespawnsAfterUnbrokenStretch(log: seq<Tick>, i: nat)
    requires Faithful(log) && Forward(log) && i < |log|
    ensures log[i].respawn <==>
            exists j: nat :: j < i && Unbroken(log, j, i) && log[i].at - log[j].at >= UNBOUND_RESPAWN
  {
    assert log[i].respawn <==> Due(log, i);
    if log[i].respawn {
      assert Due(log, i);
      StretchIsUnbroken(log, i);
      var start := StretchStart(log[..i]);
      assert log[..i][start] == log[start];
    }
    forall j: nat | j < i && Unbroken(log, j, i) && log[i].at - log[j].at >= UNBOUND_RESPAWN
      ensures Due(log, i)
    {
      var start := StretchStart(log[..i]);
      assert log[..i][start] == log[start];
    }
  }

  /** Two replacements are at least the grace time apart. */
  lemma {:induction false} RespawnsAreApart(log: seq<Tick>, i: nat, j: nat)
    requires Faithful(log) && Forward(log) && i < j < |log| && log[i].respawn && log[j].respawn
    ensures log[j].at - log[i].at >= UNBOUND_RESPAWN
  {
    assert Due(log, j);
    var front := log[..j];
    assert front[i].respawn;
    assert StretchStart(front) > i;
  }

  // Since which observation the target has been what it is at the end.
  function TargetSince(log: seq<Tick>): (i: nat)
    requires log != []
    ensures i < |log|
    ensures forall k | i <= k < |log| :: log[k].target == log[|log| - 1].target
    ensures i > 0 ==> log[i - 1].target != log[|log| - 1].target
    decreases |log|
  {
    if |log| == 1 || log[|log| - 2].target != log[|log| - 1].target then |log| - 1
    else TargetSince(log[..|log| - 1])
  }

  predicate SameTarget(log: seq<Tick>, j: nat, i: nat)
    requires j <= i < |log|
  {
    forall k | j <= k <= i :: log[k].target == log[i].target
  }

  // The node whose reader may be replaced at `i` was itself the target, off it and in the graph, for the grace time.
  ghost predicate HadItsGrace(log: seq<Tick>, i: nat)
    requires i < |log|
  {
    exists j: nat :: j < i && Unbroken(log, j, i) && log[i].at - log[j].at >= UNBOUND_RESPAWN && SameTarget(log, j, i)
  }

  lemma {:induction false} OwnGrace(log: seq<Tick>, i: nat, j: nat, since: nat)
    requires j < i < |log| && Unbroken(log, j, i) && log[i].at - log[j].at >= UNBOUND_RESPAWN
    requires since <= i && log[i].at - log[since].at >= UNBOUND_RESPAWN && SameTarget(log, since, i)
    ensures HadItsGrace(log, i)
  {
    if j < since {
      assert Unbroken(log, since, i);
    } else {
      assert SameTarget(log, j, i);
    }
  }

  /** A node whose reader is replaced had a grace time of its own if and only if the target was last changed at least
      that long ago: a stretch goes on across a change of target. */
  lemma {:induction false} GraceIsOwnUnlessPicked(log: seq<Tick>, i: nat)
    requires Faithful(log) && Forward(log) && i < |log|
    ensures HadItsGrace(log, i) <==>
            log[i].respawn && log[i].at - log[TargetSince(log[..i + 1])].at >= UNBOUND_RESPAWN
  {
    var all := log[..i + 1];
    var since := TargetSince(all);
    assert forall k | 0 <= k <= i :: all[k] == log[k];
    RespawnsAfterUnbrokenStretch(log, i);
    if HadItsGrace(log, i) {
      var j: nat :| j < i && Unbroken(log, j, i) && log[i].at - log[j].at >= UNBOUND_RESPAWN && SameTarget(log, j, i);
      assert since <= j;
    } else if log[i].respawn && log[i].at - log[since].at >= UNBOUND_RESPAWN {
      var j: nat :| j < i && Unbroken(log, j, i) && log[i].at - log[j].at >= UNBOUND_RESPAWN;
      OwnGrace(log, i, j, since);
    }
  }

  // --- the watch itself ------------------------------------------------------------------------

  class Watch {
    // The capture's target, and what it is told about its binding.
    var target: Option<Node>
    var isAuto: bool
    var unboundSince: Option<int>
    ghost var log: seq<Tick>

    ghost predicate Valid()
      reads this
    {
      unboundSince == Since(log) && Faithful(log)
    }

    constructor (target: Option<Node>)
      ensures Valid() && log == [] && this.target == target && isAuto == target.None?
    {
      this.target, this.isAuto, this.unboundSince := target, target.None?, None;
      log := [];
    }

    /** A choice by hand. It does not start the stretch anew. */
    method Pick(choice: Option<Node>)
      requires Valid()
      modifies this`isAuto, this`target
      ensures Valid() && target == (if choice == Some("") then None else choice)
      ensures isAuto == target.None?
    {
      var t := if choice == Some("") then None else choice;
      isAuto := t.None?;
      target := t;
    }

    /** One look at the graph: the verdict for the capture, none when a phone was adopted or the graph is unreadable,
        and whether the reader is to be replaced. An adopted phone is judged from the next look on. */
    method RefreshBinding(g: Graph, now: int) returns (verdict: Option<bool>, respawn: bool)
      requires Valid()
      modifies this`unboundSince, this`log, this`target
      ensures Valid()
      ensures var adopt := Adopted(g, old(target), isAuto);
              && target == (if adopt.Some? then adopt else old(target))
              && log == old(log) + [Tick(now, target, adopt.None? && Waiting(g, target), respawn)]
              && verdict == (if adopt.Some? || !g.ok then None else Some(Bound(g, target)))
              && (respawn <==> adopt.None? && Waiting(g, target) && Overdue(old(log), now))
      ensures verdict == Some(true) ==> target.Some? && target.value != "" && g.fedBy == [target.value]
      ensures verdict == Some(false) ==> target.None? || target.value == "" || g.fedBy != [target.value]
      ensures respawn ==> verdict == Some(false) && target.Some? && target.value != "" && target.value in g.names
      ensures verdict == Some(false) && !respawn ==>
                target.None? || target.value == "" || target.value !in g.names || !Overdue(old(log), now)
    {
      if g.ok {
        var adopt := AutoTarget(target, g.targets, isAuto);
        if adopt.Some? && adopt.value != "" {
          target := adopt;
          unboundSince := None;
          FaithfulGrows(log, Tick(now, target, false, false));
          log := log + [Tick(now, target, false, false)];
          return None, false;
        }
      }
      var d := BindingDecision(g, target, unboundSince, now);
      DecidedFaithfully(log, g, target, now);
      unboundSince := d.unboundSince;
      log := log + [Tick(now, target, Waiting(g, target), d.respawn)];
      return d.bound, d.respawn;
    }
  }

  // `n` is the first A2DP source the graph lists.
  ghost predicate FirstPhone(targets: seq<CaptureTarget>, n: Node) {
    exists i :: 0 <= i < |targets| && targets[i] == CaptureTarget(n, true) && forall j | 0 <= j < i :: !targets[j].a2dp
  }

  // The sources keep the order in which the graph lists them.
  lemma {:induction false} FirstSource(targets: seq<CaptureTarget>) returns (i: nat)
    requires Sources(targets) != []
    ensures i < |targets| && targets[i] == CaptureTarget(Sources(targets)[0], true)
    ensures forall j | 0 <= j < i :: !targets[j].a2dp
  {
    if targets[0].a2dp {
      i := 0;
    } else {
      i := FirstSource(targets[1..]);
      i := i + 1;
    }
  }

  /** Adoption only ever moves to a phone that is in the graph, never away from one that still is, and never overrides a
      choice by hand; left to itself it does not leave the capture on a fallback while a phone is there, unless the
      first phone listed has no name. */
  lemma {:induction false} AdoptsOnlyTowardsPhones(g: Graph, current: Option<Node>, isAuto: bool)
    ensures var adopt := Adopted(g, current, isAuto);
            && (adopt.Some? ==> isAuto && g.ok && adopt.value != "" && FirstPhone(g.targets, adopt.value))
            && (adopt.Some? && current.Some? ==> CaptureTarget(current.value, true) !in g.targets)
            && (g.ok && isAuto && adopt.None? && !FirstPhone(g.targets, "") ==>
                  forall n | CaptureTarget(n, true) in g.targets ::
                    current.Some? && CaptureTarget(current.value, true) in g.targets)
  {
    var sources := Sources(g.targets);
    if sources != [] {
      assert sources[0] in sources;
      var i := FirstSource(g.targets);
      assert FirstPhone(g.targets, sources[0]);
    }
    forall n | CaptureTarget(n, true) in g.targets ensures sources != [] {
      assert n in sources;
    }
  }

  /** In any watch: the first look after a choice by hand replaces the reader if and only if the chosen node is waiting
      and the stretch so far, whoever was the target, has lasted the grace time. */
  method PickedMidStretch(w: Watch, b: Node, g: Graph, now: int) returns (respawn: bool)
    requires w.Valid() && b != ""
    modifies w
    ensures w.Valid() && w.target == Some(b)
    ensures respawn <==> Waiting(g, Some(b)) && Overdue(old(w.log), now)
  {
    w.Pick(Some(b));
    var _, r := w.RefreshBinding(g, now);
    respawn := r;
  }

  /** Such a log exists: the reader of a node picked a moment ago is replaced. */
  lemma {:induction false} PickedNodeIsReplaced(a: Node, b: Node) returns (log: seq<Tick>)
    requires a != b
    ensures Faithful(log) && Forward(log) && |log| == 2 && log[1].target == Some(b)
    ensures log[1].respawn && !HadItsGrace(log, 1)
  {
    var first, second := Tick(0, Some(a), true, false), Tick(UNBOUND_RESPAWN, Some(b), true, true);
    FaithfulGrows([], first);
    assert [] + [first] == [first];
    FaithfulGrows([first], second);
    log := [first] + [second];
    assert log[0].target != log[1].target;
  }
}
