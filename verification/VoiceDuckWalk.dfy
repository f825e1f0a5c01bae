/**
 What the walks over the tracked holds come to: the renew timer's over its snapshot, and the release of everything when
 the switch is turned off or the ducker stops.
 */
module VoiceDuckWalk {
  import opened VoiceDuck
  import opened VoiceDuckLease
  import opened VoiceDuckMemory

  // --- from one await to the next ------------------------------------------------------------

  // A renewal finds nothing to do for `e`.
  predicate Idle(s: State, e: Satellite) {
    !Talking(s, e) && e !in s.holds
  }

  // The walk passes over `k` entries, and there is something to do for the next, if there is one.
  ghost predicate PassesOver(s: State, snapshot: seq<(Satellite, HoldId)>, k: nat) {
    && k <= |snapshot| && (forall i | 0 <= i < k :: Idle(s, snapshot[i].0))
    && (k < |snapshot| ==> !Idle(s, snapshot[k].0))
  }

  // What is sent for an entry: a talker's hold is renewed under the id of the snapshot, a silent one's is released under
  // the id that is tracked now.
  function Due(s: State, e: Satellite, id: HoldId): Purpose
    requires !Idle(s, e)
  {
    if Talking(s, e) then ForRenew(e, id) else ForRelease(e, s.holds[e])
  }

  // Exactly the request `p` was sent, and coroutine `t` waits with `rest` still to do.
  predicate SentFor(s: State, n: State, t: nat, p: Purpose, rest: Then) {
    && n.sent == s.sent[s.counter := Request(p, s.now)] && n.open == s.open + {s.counter}
    && t in n.tasks && RestOf(n.tasks[t]) == rest
  }

  lemma {:induction false} RenewalPasses(s: State, t: nat, snapshot: seq<(Satellite, HoldId)>, k: nat)
    requires k <= |snapshot| && forall i | 0 <= i < k :: Idle(s, snapshot[i].0)
    ensures RenewLoop(s, t, snapshot) == RenewLoop(s, t, snapshot[k..])
  {
    if k > 0 {
      RenewalPasses(s, t, snapshot, k - 1);
      var rest := snapshot[k - 1..];
      assert rest[0] == snapshot[k - 1] && rest[1..] == snapshot[k..];
    }
  }

  lemma {:induction false} RenewalActs(s: State, t: nat, e: Satellite, id: HoldId, rest: seq<(Satellite, HoldId)>)
    requires !Idle(s, e)
    ensures var n := RenewLoop(s, t, [(e, id)] + rest);
            && SentFor(s, n, t, Due(s, e, id), RenewRest(rest))
            && n.holds == if Talking(s, e) then s.holds else s.holds - {e}
  {
    assert ([(e, id)] + rest)[1..] == rest;
  }

  /** A renewal passes over exactly the leading entries that neither talk nor are tracked. The next one is renewed if it
      talks, and otherwise forgotten and released; the rest of the snapshot waits. */
  lemma {:induction false} RenewalsNextRequest(s: State, t: nat, snapshot: seq<(Satellite, HoldId)>, k: nat)
    requires PassesOver(s, snapshot, k)
    ensures var n := RenewLoop(s, t, snapshot);
            && (k == |snapshot| ==> n == s.(tasks := s.tasks - {t}))
            && (k < |snapshot| ==>
                  var (e, id) := snapshot[k];
                  && SentFor(s, n, t, Due(s, e, id), RenewRest(snapshot[k + 1..]))
                  && n.holds == if Talking(s, e) then s.holds else s.holds - {e})
  {
    RenewalPasses(s, t, snapshot, k);
    if k < |snapshot| {
      RenewalActs(s, t, snapshot[k].0, snapshot[k].1, snapshot[k + 1..]);
      assert snapshot[k..] == [snapshot[k]] + snapshot[k + 1..];
    }
  }

  lemma {:induction false} SomewhereItActs(s: State, snapshot: seq<(Satellite, HoldId)>) returns (k: nat)
    ensures PassesOver(s, snapshot, k)
  {
    k := 0;
    while k < |snapshot| && Idle(s, snapshot[k].0)
      invariant k <= |snapshot| && forall i | 0 <= i < k :: Idle(s, snapshot[i].0)
    {
      k := k + 1;
    }
  }

  /** A release walk passes over exactly the leading satellites that are not tracked; the next one is forgotten and
      released under the id that is tracked now. */
  lemma {:induction false} ReleasesNextRequest(s: State, t: nat, satellites: seq<Satellite>, k: nat)
    requires k <= |satellites| && (forall i | 0 <= i < k :: satellites[i] !in s.holds)
    requires k < |satellites| ==> satellites[k] in s.holds
    ensures var n := ReleaseLoop(s, t, satellites);
            && (k == |satellites| ==> n.tasks == s.tasks - {t} && n.sent == s.sent && n.holds == s.holds)
            && (k < |satellites| ==>
                  var e := satellites[k];
                  && SentFor(s, n, t, ForRelease(e, s.holds[e]), ReleaseRest(satellites[k + 1..]))
                  && n.holds == s.holds - {e})
  {
    if k > 0 {
      var rest := satellites[1..];
      assert k < |satellites| ==> rest[k - 1] == satellites[k] && rest[k..] == satellites[k + 1..];
      ReleasesNextRequest(s, t, rest, k - 1);
    }
  }

  // --- what a walk has done when it ends -------------------------------------------------------

  datatype Kind = Renewing | Releasing

  // A walk of this kind with `rest` still to do comes to `e`.
  ghost predicate Ahead(kind: Kind, rest: Then, e: Satellite) {
    match kind
    case Renewing => rest.RenewRest? && Listed(rest.snapshot, e)
    case Releasing => rest.ReleaseRest? && e in rest.satellites
  }

  ghost predicate Listed(snapshot: seq<(Satellite, HoldId)>, e: Satellite) {
    exists i :: 0 <= i < |snapshot| && snapshot[i].0 == e
  }

  // `e` is not tracked, or walk `t` is still to come to it.
  ghost predicate Reaches(kind: Kind, s: State, t: nat, e: Satellite) {
    e in s.holds ==> t in s.tasks && Ahead(kind, RestOf(s.tasks[t]), e)
  }

  // A hold is tracked for `e` while it talks.
  predicate TracksAnew(s: State, step: Step, e: Satellite) {
    step.StartAnswered? && step.t in s.tasks && s.tasks[step.t].AwaitStart? && s.tasks[step.t].e == e && Talking(s, e)
  }

  // What a walk of this kind releases: a renewal the silent, a release walk everyone.
  predicate Takes(kind: Kind, s: State, e: Satellite) {
    kind.Renewing? ==> !Talking(s, e)
  }

  lemma {:induction false} RenewLoopReaches(s: State, t: nat, snapshot: seq<(Satellite, HoldId)>, e: Satellite)
    requires !Talking(s, e) && e in s.holds && Listed(snapshot, e)
    ensures Reaches(Renewing, RenewLoop(s, t, snapshot), t, e)
  {
    var i :| 0 <= i < |snapshot| && snapshot[i].0 == e;
    var k := SomewhereItActs(s, snapshot);
    RenewalsNextRequest(s, t, snapshot, k);
    if i > k {
      assert snapshot[k + 1..][i - k - 1].0 == e;
    }
  }

  lemma {:induction false} ReleaseLoopReaches(s: State, t: nat, satellites: seq<Satellite>, e: Satellite)
    requires e in s.holds ==> e in satellites
    ensures Reaches(Releasing, ReleaseLoop(s, t, satellites), t, e)
  {
    if satellites != [] {
      assert satellites == [satellites[0]] + satellites[1..];
      if satellites[0] !in s.holds {
        ReleaseLoopReaches(s, t, satellites[1..], e);
      }
    }
  }

  lemma {:induction false} ContinueReaches(kind: Kind, s: State, t: nat, rest: Then, e: Satellite)
    requires Takes(kind, s, e) && (e in s.holds ==> Ahead(kind, rest, e))
    ensures Reaches(kind, Continue(s, t, rest), t, e)
  {
    if e !in s.holds {
      ContinueSpares(s, t, rest, t + 1);
    } else if kind.Renewing? {
      RenewLoopReaches(s, t, rest.snapshot, e);
    } else {
      ReleaseLoopReaches(s, t, rest.satellites, e);
    }
  }

  lemma {:induction false} DuckForReaches(
    kind: Kind, s: State, t: nat, x: Satellite, targets: bool, rest: Then, e: Satellite)
    requires Takes(kind, s, e) && (e in s.holds ==> Ahead(kind, rest, e))
    ensures Reaches(kind, DuckFor(s, t, x, targets, rest), t, e)
  {
    if !targets {
      ContinueReaches(kind, s, t, rest, e);
    }
  }

  lemma {:induction false} TrackReaches(
    kind: Kind, s: State, t: nat, x: Satellite, id: HoldId, rest: Then, e: Satellite)
    requires Takes(kind, s, e) && (e in s.holds ==> Ahead(kind, rest, e)) && (x == e ==> !Talking(s, e))
    ensures Reaches(kind, Track(s, t, x, id, rest), t, e)
  {
    var s1 := s.(holds := s.holds[x := id]);
    if Talking(s1, x) {
      ContinueReaches(kind, s1, t, rest, e);
    }
  }

  // The walk itself is resumed.
  lemma {:induction false} OwnResumeReaches(kind: Kind, s: State, step: Step, e: Satellite)
    requires Enabled(s, step) && Resumes(step) && Reaches(kind, s, step.t, e) && !TracksAnew(s, step, e)
    requires Takes(kind, s, e)
    ensures Reaches(kind, Resume(s, step), step.t, e)
  {
    var t := step.t;
    var task := s.tasks[t];
    match step
    case RunDuck(_, targets) => DuckForReaches(kind, s, t, task.e, targets, Finish, e);
    case RunUnduck(_) =>
    case StartAnswered(_) => TrackReaches(kind, s, t, task.e, s.answers[task.req].id, task.rest, e);
    case ReleaseAnswered(_) => ContinueReaches(kind, s, t, task.rest, e);
    case RenewAnswered(_, targets) =>
      if s.answers[task.req].alive {
        ContinueReaches(kind, s, t, RenewRest(task.snapshot), e);
      } else {
        DuckForReaches(kind, s.(holds := s.holds - {task.e}), t, task.e, targets, RenewRest(task.snapshot), e);
      }
    case RequestFailed(_) => ContinueReaches(kind, s, t, RestOf(task), e);
  }

  // Requests are only opened under new numbers.
  predicate OpensNew(s: State, n: State) {
    s.counter <= n.counter && forall q | q in n.open :: q in s.open || s.counter <= q
  }

  // Nothing was tracked since `s`, and coroutine `t` is where it was.
  predicate Spares(s: State, n: State, t: nat) {
    && n.holds.Keys <= s.holds.Keys && OpensNew(s, n)
    && (t in s.tasks ==> t in n.tasks && n.tasks[t] == s.tasks[t])
  }

  lemma {:induction false} RenewLoopSpares(s: State, u: nat, snapshot: seq<(Satellite, HoldId)>, t: nat)
    requires u != t
    ensures Spares(s, RenewLoop(s, u, snapshot), t)
  {
    if snapshot != [] && Idle(s, snapshot[0].0) {
      RenewLoopSpares(s, u, snapshot[1..], t);
    }
  }

  lemma {:induction false} ReleaseLoopSpares(s: State, u: nat, satellites: seq<Satellite>, t: nat)
    requires u != t
    ensures Spares(s, ReleaseLoop(s, u, satellites), t)
  {
    if satellites != [] && satellites[0] !in s.holds {
      ReleaseLoopSpares(s, u, satellites[1..], t);
    }
  }

  lemma {:induction false} ContinueSpares(s: State, u: nat, rest: Then, t: nat)
    requires u != t
    ensures Spares(s, Continue(s, u, rest), t)
  {
    match rest
    case Finish =>
    case RenewRest(snapshot) => RenewLoopSpares(s, u, snapshot, t);
    case ReleaseRest(satellites) => ReleaseLoopSpares(s, u, satellites, t);
  }

  lemma {:induction false} DuckForSpares(s: State, u: nat, x: Satellite, targets: bool, rest: Then, t: nat)
    requires u != t
    ensures Spares(s, DuckFor(s, u, x, targets, rest), t)
  {
    if !targets {
      ContinueSpares(s, u, rest, t);
    }
  }

  lemma {:induction false} RenewAnsweredSpares(s: State, u: nat, targets: bool, t: nat)
    requires Enabled(s, RenewAnswered(u, targets)) && u != t
    ensures Spares(s, Resume(s, RenewAnswered(u, targets)), t)
  {
    var task := s.tasks[u];
    if s.answers[task.req].alive {
      ContinueSpares(s, u, RenewRest(task.snapshot), t);
    } else {
      DuckForSpares(s.(holds := s.holds - {task.e}), u, task.e, targets, RenewRest(task.snapshot), t);
    }
  }

  lemma {:induction false} OtherTrackReaches(
    kind: Kind, s: State, u: nat, x: Satellite, id: HoldId, rest: Then, t: nat, e: Satellite)
    requires u != t && Reaches(kind, s, t, e) && (x == e ==> !Talking(s, e))
    ensures Reaches(kind, Track(s, u, x, id, rest), t, e)
  {
    var s1 := s.(holds := s.holds[x := id]);
    if Talking(s1, x) {
      ContinueSpares(s1, u, rest, t);
    }
  }

  // Another coroutine is resumed.
  lemma {:induction false} OtherResumeReaches(kind: Kind, s: State, step: Step, t: nat, e: Satellite)
    requires Enabled(s, step) && Resumes(step) && step.t != t && Reaches(kind, s, t, e) && !TracksAnew(s, step, e)
    ensures Reaches(kind, Resume(s, step), t, e)
  {
    if step.StartAnswered? {
      var task := s.tasks[step.t];
      OtherTrackReaches(kind, s, step.t, task.e, s.answers[task.req].id, task.rest, t, e);
    } else {
      OtherResumeSpares(s, step, t);
      SparedReaches(kind, s, Resume(s, step), t, e);
    }
  }

  lemma {:induction false} OtherResumeSpares(s: State, step: Step, t: nat)
    requires Enabled(s, step) && Resumes(step) && step.t != t && !step.StartAnswered?
    ensures Spares(s, Resume(s, step), t)
  {
    var u := step.t;
    var task := s.tasks[u];
    match step
    case RunDuck(_, targets) => DuckForSpares(s, u, task.e, targets, Finish, t);
    case RunUnduck(_) => RunUnduckSpares(s, u, t);
    case ReleaseAnswered(_) => ContinueSpares(s, u, task.rest, t);
    case RenewAnswered(_, targets) => RenewAnsweredSpares(s, u, targets, t);
    case RequestFailed(_) => ContinueSpares(s, u, RestOf(task), t);
  }

  lemma {:induction false} RunUnduckSpares(s: State, u: nat, t: nat)
    requires Enabled(s, RunUnduck(u)) && u != t
    ensures Spares(s, Resume(s, RunUnduck(u)), t)
  {
    var e := s.tasks[u].e;
    if e in s.holds {
      SendReleaseSpares(s, u, e, Finish, t);
    } else {
      ContinueSpares(s, u, Finish, t);
    }
  }

  lemma {:induction false} SendReleaseSpares(s: State, u: nat, e: Satellite, rest: Then, t: nat)
    requires e in s.holds && u != t
    ensures Spares(s, SendRelease(s, u, e, rest), t)
  {
  }

  lemma {:induction false} ServeSpares(s: State, r: nat, t: nat)
    requires r in s.sent
    ensures Spares(s, Answered(s, r), t)
  {
    match s.sent[r].purpose
    case ForStart(_) =>
    case ForRenew(_, _) =>
    case ForRelease(_, _) =>
  }

  lemma {:induction false} OutsideReaches(kind: Kind, s: State, step: Step, t: nat, e: Satellite)
    requires Enabled(s, step) && Outside(step) && step != Cancel(t) && Reaches(kind, s, t, e)
    ensures Reaches(kind, Happen(s, step), t, e)
  {
    if step.Serve? {
      ServeSpares(s, step.r, t);
    }
    if !step.Reload? {
      SparedReaches(kind, s, Happen(s, step), t, e);
    }
  }

  lemma {:induction false} StepReaches(kind: Kind, s: State, step: Step, t: nat, e: Satellite)
    requires Enabled(s, step) && Reaches(kind, s, t, e) && step != Cancel(t) && !TracksAnew(s, step, e)
    requires t < s.counter && Takes(kind, s, e)
    ensures Reaches(kind, Apply(s, step), t, e)
  {
    if Resumes(step) {
      if step.t == t {
        OwnResumeReaches(kind, s, step, e);
      } else {
        OtherResumeReaches(kind, s, step, t, e);
      }
    } else if Outside(step) {
      OutsideReaches(kind, s, step, t, e);
    } else {
      UserReaches(kind, s, step, t, e);
    }
  }

  lemma {:induction false} ReleaseAllSpares(s: State, order: seq<Satellite>, t: nat)
    requires t != s.counter
    ensures Spares(s, ReleaseAll(s, order), t) && s.counter < ReleaseAll(s, order).counter
  {
    ReleaseLoopSpares(s.(counter := s.counter + 1), s.counter, order, t);
  }

  lemma {:induction false} RenewAllSpares(s: State, snapshot: seq<(Satellite, HoldId)>, t: nat)
    requires t != s.counter
    ensures Spares(s, RenewAll(s, snapshot), t) && s.counter < RenewAll(s, snapshot).counter
  {
    RenewLoopSpares(s.(counter := s.counter + 1), s.counter, snapshot, t);
  }

  lemma {:induction false} SparedReaches(kind: Kind, s: State, n: State, t: nat, e: Satellite)
    requires Reaches(kind, s, t, e) && Spares(s, n, t)
    ensures Reaches(kind, n, t, e)
  {
  }

  lemma {:induction false} UserReaches(kind: Kind, s: State, step: Step, t: nat, e: Satellite)
    requires Enabled(s, step) && !Resumes(step) && !Outside(step) && Reaches(kind, s, t, e) && t < s.counter
    ensures Reaches(kind, Apply(s, step), t, e)
  {
    match step
    case SatelliteState(x, active) => ListenSpares(SetActive(s, x, active), x, active, t);
    case TurnOff(order) => ReleaseAllSpares(Disable(s), order, t);
    case Stop(order) => ReleaseAllSpares(s.(listening := false), order, t);
    case RenewTick(order) => RenewAllSpares(s, Snapshot(s, order), t);
    SparedReaches(kind, s, Apply(s, step), t, e);
  }

  lemma {:induction false} ListenSpares(s: State, x: Satellite, active: bool, t: nat)
    requires t < s.counter
    ensures Spares(s, Listen(s, x, active), t)
  {
  }

  // The step begins a walk of this kind while `e` is tracked.
  predicate WalksTo(s: State, step: Step, kind: Kind, e: Satellite) {
    && e in s.holds
    && match kind
       case Renewing => step.RenewTick?
       case Releasing => step.TurnOff? || step.Stop?
  }

  lemma {:induction false} ReleaseAllReaches(s: State, order: seq<Satellite>, e: Satellite)
    requires e in order
    ensures Reaches(Releasing, ReleaseAll(s, order), s.counter, e) && s.counter < ReleaseAll(s, order).counter
  {
    ReleaseLoopReaches(s.(counter := s.counter + 1), s.counter, order, e);
    ReleaseAllSpares(s, order, s.counter + 1);
  }

  lemma {:induction false} SnapshotLists(s: State, order: seq<Satellite>, e: Satellite)
    requires e in order && forall x | x in order :: x in s.holds
    ensures Listed(Snapshot(s, order), e)
  {
    var i :| 0 <= i < |order| && order[i] == e;
    assert Snapshot(s, order)[i].0 == e;
  }

  lemma {:induction false} RenewAllReaches(s: State, snapshot: seq<(Satellite, HoldId)>, e: Satellite)
    requires !Talking(s, e) && e in s.holds && Listed(snapshot, e)
    ensures Reaches(Renewing, RenewAll(s, snapshot), s.counter, e) && s.counter < RenewAll(s, snapshot).counter
  {
    RenewLoopReaches(s.(counter := s.counter + 1), s.counter, snapshot, e);
    RenewAllSpares(s, snapshot, s.counter + 1);
  }

  lemma {:induction false} OrderIsTracked(order: seq<Satellite>, keys: set<Satellite>)
    requires IsOrderOf(order, keys)
    ensures forall e :: e in order <==> e in keys
  {
    forall e ensures e in order <==> e in keys {
      assert e in order <==> e in (set x | x in order);
    }
  }

  lemma {:induction false} WalkBegins(kind: Kind, s: State, step: Step, e: Satellite)
    requires Enabled(s, step) && WalksTo(s, step, kind, e) && Takes(kind, s, e)
    ensures Reaches(kind, Apply(s, step), s.counter, e) && s.counter < Apply(s, step).counter
  {
    OrderIsTracked(step.order, s.holds.Keys);
    match step
    case TurnOff(order) => ReleaseAllReaches(Disable(s), order, e);
    case Stop(order) => ReleaseAllReaches(s.(listening := false), order, e);
    case RenewTick(order) =>
      SnapshotLists(s, order, e);
      RenewAllReaches(s, Snapshot(s, order), e);
  }

  // Walk `t` is cancelled, or `e` is tracked anew, or not one to take.
  predicate Disturbs(kind: Kind, s: State, step: Step, t: nat, e: Satellite) {
    step == Cancel(t) || TracksAnew(s, step, e) || !Takes(kind, s, e)
  }

  // Nothing of that happens from state `k` to state `i`.
  ghost predicate Undisturbed(
    kind: Kind, states: seq<State>, steps: seq<Step>, k: nat, i: nat, t: nat, e: Satellite)
    requires |states| == |steps| + 1 && i <= |steps|
  {
    forall j {:trigger Disturbs(kind, states[j], steps[j], t, e)} | k <= j < i ::
      !Disturbs(kind, states[j], steps[j], t, e)
  }

  lemma {:induction false} CountersGrow(s: State, step: Step)
    requires Enabled(s, step) && Inv(s)
    ensures s.counter <= Apply(s, step).counter
  {
    if !step.DaemonRestart? {
      StepInherits(s, step);
    }
  }

  lemma {:induction false} RunReaches(
    kind: Kind, states: seq<State>, steps: seq<Step>, k: nat, i: nat, e: Satellite)
    requires Path(states, steps) && Inv(states[0]) && k < i <= |steps| && WalksTo(states[k], steps[k], kind, e)
    requires Undisturbed(kind, states, steps, k, i, states[k].counter, e)
    ensures Reaches(kind, states[i], states[k].counter, e) && states[k].counter < states[i].counter
    decreases i
  {
    var t := states[k].counter;
    assert Undisturbed(kind, states, steps, k, i - 1, t, e);
    RunKeepsInv(states, steps, i - 1);
    PathStep(states, steps, i - 1);
    assert !Disturbs(kind, states[i - 1], steps[i - 1], t, e);
    if i - 1 == k {
      WalkBegins(kind, states[k], steps[k], e);
    } else {
      RunReaches(kind, states, steps, k, i - 1, e);
      CountersGrow(states[i - 1], steps[i - 1]);
      StepReaches(kind, states[i - 1], steps[i - 1], t, e);
    }
  }

  /** When a walk has come to its end, it has taken back what it was there for. Of the satellites tracked when it began, a
      renewal leaves none tracked that was silent all the while, and a release none for which nothing was started anew. */
  lemma {:induction false} WalkedIsReleased(
    kind: Kind, states: seq<State>, steps: seq<Step>, k: nat, i: nat, e: Satellite)
    requires Path(states, steps) && Inv(states[0]) && k < i <= |steps| && WalksTo(states[k], steps[k], kind, e)
    requires Undisturbed(kind, states, steps, k, i, states[k].counter, e)
    requires states[k].counter !in states[i].tasks
    ensures e !in states[i].holds
  {
    RunReaches(kind, states, steps, k, i, e);
  }

  // --- switched off, stopped ---------------------------------------------------------------------

  // Only a talker's hold comes to be tracked.
  lemma {:induction false} OnlyTalkersAreTracked(s: State, step: Step)
    requires Enabled(s, step) && forall e :: !TracksAnew(s, step, e)
    ensures Apply(s, step).holds.Keys <= s.holds.Keys
  {
    if Resumes(step) {
      ResumeTracksTalkers(s, step);
    } else if Outside(step) {
      if step.Serve? {
        ServeSpares(s, step.r, 0);
      }
    } else {
      match step
      case SatelliteState(x, active) => ListenTracksNone(SetActive(s, x, active), x, active);
      case TurnOff(order) => ReleaseAllSpares(Disable(s), order, s.counter + 1);
      case Stop(order) => ReleaseAllSpares(s.(listening := false), order, s.counter + 1);
      case RenewTick(order) => RenewAllSpares(s, Snapshot(s, order), s.counter + 1);
    }
  }

  lemma {:induction false} ListenTracksNone(s: State, x: Satellite, active: bool)
    ensures var n := Listen(s, x, active); n.holds == s.holds && n.enabled == s.enabled && n.listening == s.listening
    ensures OpensNew(s, Listen(s, x, active))
  {
    match React(s.enabled, x in s.holds, active)
    case Ignore =>
    case Duck => SpawnTracksNone(s, DuckSpawned(x, s.now));
    case Unduck => SpawnTracksNone(s, UnduckSpawned(x));
  }

  lemma {:induction false} SpawnTracksNone(s: State, task: Task)
    ensures var n := Spawn(s, task); n.holds == s.holds && n.enabled == s.enabled && n.listening == s.listening
    ensures OpensNew(s, Spawn(s, task))
  {
  }

  lemma {:induction false} ResumeTracksTalkers(s: State, step: Step)
    requires Enabled(s, step) && Resumes(step) && forall e :: !TracksAnew(s, step, e)
    ensures Resume(s, step).holds.Keys <= s.holds.Keys
  {
    if step.StartAnswered? {
      var task := s.tasks[step.t];
      assert !TracksAnew(s, step, task.e);
      GivenStraightBack(s, step.t, task.e, s.answers[task.req].id, task.rest);
    } else {
      OtherResumeSpares(s, step, step.t + 1);
    }
  }

  lemma {:induction false} GivenStraightBack(s: State, t: nat, e: Satellite, id: HoldId, rest: Then)
    requires !Talking(s, e)
    ensures Track(s, t, e, id, rest).holds.Keys <= s.holds.Keys
  {
  }

  // Nobody switches it on or loads it anew.
  predicate StaysOff(steps: seq<Step>, k: nat, i: nat)
    requires i <= |steps|
  {
    forall j | k <= j < i :: !steps[j].TurnOn? && !steps[j].Reload?
  }

  // Off: nothing is tracked that was not, and no renewal is on its way that was not.
  ghost predicate OffSince(s: State, n: State) {
    && !n.enabled && n.holds.Keys <= s.holds.Keys
    && forall q, e, id | Asks(n, q, e, id) :: Asks(s, q, e, id)
  }

  lemma {:induction false} StepStaysOff(s: State, step: Step)
    requires Inv(s) && Enabled(s, step) && !s.enabled && !step.TurnOn? && !step.Reload?
    ensures OffSince(s, Apply(s, step))
  {
    var n := Apply(s, step);
    OnlyTalkersAreTracked(s, step);
    SwitchMoves(s, step);
    if step.DaemonRestart? {
      assert n.open == {};
    } else {
      StepInherits(s, step);
      forall q, e, id | Asks(n, q, e, id) ensures Asks(s, q, e, id) {
        assert !Talking(n, e);
      }
    }
  }

  // How the switch and the listener may move in a step.
  predicate Moves(s: State, step: Step, n: State) {
    && (!s.enabled && !step.TurnOn? && !step.Reload? ==> !n.enabled)
    && (step.TurnOff? || step.RestoreOff? ==> !n.enabled)
    && ((step.Stop? || !s.listening) && !step.Reload? ==> !n.listening)
  }

  lemma {:induction false} SwitchMoves(s: State, step: Step)
    requires Enabled(s, step)
    ensures Moves(s, step, Apply(s, step))
  {
    if Resumes(step) {
      assert Acted(s, Resume(s, step));
    } else if Outside(step) {
      OutsideMoves(s, step);
    } else {
      match step
      case SatelliteState(x, active) => ListenTracksNone(SetActive(s, x, active), x, active);
      case TurnOff(order) => assert Acted(Disable(s), ReleaseAll(Disable(s), order));
      case Stop(order) => assert Acted(s.(listening := false), ReleaseAll(s.(listening := false), order));
      case RenewTick(order) => assert Acted(s, RenewAll(s, Snapshot(s, order)));
    }
  }

  lemma {:induction false} OutsideMoves(s: State, step: Step)
    requires Enabled(s, step) && Outside(step)
    ensures Moves(s, step, Happen(s, step))
  {
    if step.Serve? {
      match s.sent[step.r].purpose
      case ForStart(_) =>
      case ForRenew(_, _) =>
      case ForRelease(_, _) =>
    }
  }

  lemma {:induction false} OffStill(a: State, b: State, c: State)
    requires OffSince(a, b) && OffSince(b, c)
    ensures OffSince(a, c)
  {
    forall q, e, id | Asks(c, q, e, id) ensures Asks(a, q, e, id) {
      assert Asks(b, q, e, id);
    }
  }

  /** Off is off: from the moment the switch is turned off, until it is turned on again, nothing more is tracked and nothing
      more renewed. What is still granted is given straight back. */
  lemma {:induction false} OffIsOff(states: seq<State>, steps: seq<Step>, k: nat, i: nat)
    requires Path(states, steps) && Inv(states[0]) && k < i <= |steps| && (steps[k].TurnOff? || steps[k].RestoreOff?)
    requires StaysOff(steps, k, i)
    ensures OffSince(states[k + 1], states[i])
    decreases i
  {
    PathStep(states, steps, i - 1);
    if i == k + 1 {
      SwitchMoves(states[k], steps[k]);
    } else {
      OffIsOff(states, steps, k, i - 1);
      RunKeepsInv(states, steps, i - 1);
      StepStaysOff(states[i - 1], steps[i - 1]);
      OffStill(states[k + 1], states[i - 1], states[i]);
    }
  }

  /** And stopped is stopped: from a stop on, until the ducker is loaded anew, it does not listen, and no renewal walk is
      begun. */
  lemma {:induction false} StoppedIsStopped(states: seq<State>, steps: seq<Step>, k: nat, i: nat)
    requires Path(states, steps) && k < i <= |steps| && steps[k].Stop? && forall j | k <= j < i :: !steps[j].Reload?
    ensures !states[i].listening && (i < |steps| ==> !steps[i].RenewTick?)
    decreases i
  {
    PathStep(states, steps, i - 1);
    if i < |steps| {
      PathStep(states, steps, i);
    }
    if i > k + 1 {
      StoppedIsStopped(states, steps, k, i - 1);
    }
    SwitchMoves(states[i - 1], steps[i - 1]);
  }

  /** Loaded anew, the ducker is on, listens and knows of nothing; what it held goes on until its lease ends. */
  lemma {:induction false} LoadedAnew(s: State)
    ensures var n := Apply(s, Reload);
            && n.enabled && n.listening && n.holds == map[] && n.tasks == map[]
            && n.leases == s.leases && n.open == s.open && n.sent == s.sent
  {
  }

  // --- every request is served at most once ---------------------------------------------------------

  lemma {:induction false} TrackOpensNew(s: State, u: nat, x: Satellite, id: HoldId, rest: Then)
    ensures OpensNew(s, Track(s, u, x, id, rest))
  {
    var s1 := s.(holds := s.holds[x := id]);
    if Talking(s1, x) {
      ContinueSpares(s1, u, rest, u + 1);
    } else {
      SendReleaseSpares(s1, u, x, rest, u + 1);
    }
  }

  lemma {:induction false} StepOpensNew(s: State, step: Step)
    requires Enabled(s, step)
    ensures OpensNew(s, Apply(s, step))
  {
    if Resumes(step) {
      if step.StartAnswered? {
        var task := s.tasks[step.t];
        TrackOpensNew(s, step.t, task.e, s.answers[task.req].id, task.rest);
      } else {
        OtherResumeSpares(s, step, step.t + 1);
      }
    } else if Outside(step) {
      if step.Serve? {
        ServeSpares(s, step.r, 0);
      }
    } else {
      UserOpensNew(s, step);
    }
  }

  lemma {:induction false} UserOpensNew(s: State, step: Step)
    requires Enabled(s, step) && !Resumes(step) && !Outside(step)
    ensures OpensNew(s, Apply(s, step))
  {
    match step
    case SatelliteState(x, active) => ListenTracksNone(SetActive(s, x, active), x, active);
    case TurnOff(order) => ReleaseAllSpares(Disable(s), order, s.counter + 1);
    case Stop(order) => ReleaseAllSpares(s.(listening := false), order, s.counter + 1);
    case RenewTick(order) => RenewAllSpares(s, Snapshot(s, order), s.counter + 1);
  }

  lemma {:induction false} ServedIsClosed(s: State, r: nat)
    requires r in s.sent
    ensures r !in Answered(s, r).open
  {
    match s.sent[r].purpose
    case ForStart(_) =>
    case ForRenew(_, _) =>
    case ForRelease(_, _) =>
  }

  lemma {:induction false} ClosedStaysClosed(states: seq<State>, steps: seq<Step>, k: nat, i: nat, r: nat)
    requires Path(states, steps) && k <= i <= |steps| && r !in states[k].open && r < states[k].counter
    ensures r !in states[i].open && r < states[i].counter
    decreases i
  {
    if i > k {
      ClosedStaysClosed(states, steps, k, i - 1, r);
      PathStep(states, steps, i - 1);
      StepOpensNew(states[i - 1], steps[i - 1]);
    }
  }

  /** A request is served at most once, and not at all once it is lost. */
  lemma {:induction false} ServedAtMostOnce(states: seq<State>, steps: seq<Step>, k: nat, i: nat, r: nat)
    requires Path(states, steps) && Inv(states[0]) && k < i < |steps| && (steps[k] == Serve(r) || steps[k] == Drop(r))
    ensures steps[i] != Serve(r)
  {
    RunKeepsInv(states, steps, k);
    PathStep(states, steps, k);
    if steps[k].Serve? {
      ServedIsClosed(states[k], r);
    }
    StepOpensNew(states[k], steps[k]);
    ClosedStaysClosed(states, steps, k + 1, i, r);
    PathStep(states, steps, i);
  }
}
