/**
 Home Assistant's bookkeeping of its holds, over whole runs.
 */
module VoiceDuckBookkeeping {
  import opened VoiceDuck
  import opened VoiceDuckLease
  import opened VoiceDuckMemory

  // --- bookkeeping: a tracked hold whose satellite is silent is about to be given back ----------------

  predicate Undoes(rest: Then, e: Satellite) {
    rest.ReleaseRest? && e in rest.satellites
  }

  predicate TaskUndoes(task: Task, e: Satellite) {
    task == UnduckSpawned(e) || Undoes(RestOf(task), e)
  }

  // Un-duck work for `e` waits in a task other than `t`.
  ghost predicate PendingBeside(s: State, t: nat, e: Satellite) {
    exists u :: u in s.tasks && u != t && TaskUndoes(s.tasks[u], e)
  }

  ghost predicate Pending(s: State, e: Satellite) {
    exists u :: u in s.tasks && TaskUndoes(s.tasks[u], e)
  }

  predicate TasksNumbered(s: State) {
    s.listening && forall t | t in s.tasks :: t < s.counter
  }

  ghost predicate Kept(s: State) {
    TasksNumbered(s) && forall e | e in s.holds :: Talking(s, e) || Pending(s, e)
  }

  // `Kept` while coroutine `t` is running and still has `rest` to do.
  ghost predicate KeptWithin(s: State, t: nat, rest: Then) {
    TasksNumbered(s) && t < s.counter
    && forall e | e in s.holds :: Talking(s, e) || PendingBeside(s, t, e) || Undoes(rest, e)
  }

  lemma SuspendKeeps(s: State, n: State, t: nat, rest: Then)
    requires KeptWithin(s, t, rest) && TasksNumbered(n)
    requires n.active == s.active && n.enabled == s.enabled
    requires forall e | e in n.holds :: e in s.holds
    requires forall u | u in s.tasks && u != t :: u in n.tasks && n.tasks[u] == s.tasks[u]
    requires forall e | e in n.holds && Undoes(rest, e) :: t in n.tasks && TaskUndoes(n.tasks[t], e)
    ensures Kept(n)
  {
    forall e | e in n.holds && !Talking(n, e) ensures Pending(n, e) {
      if PendingBeside(s, t, e) {
        var u :| u in s.tasks && u != t && TaskUndoes(s.tasks[u], e);
        assert u in n.tasks && TaskUndoes(n.tasks[u], e);
      }
    }
  }

  lemma {:induction false} ReleaseLoopKept(s: State, t: nat, satellites: seq<Satellite>)
    requires KeptWithin(s, t, ReleaseRest(satellites))
    ensures Kept(ReleaseLoop(s, t, satellites))
  {
    var rest := ReleaseRest(satellites);
    if satellites == [] {
      SuspendKeeps(s, ReleaseLoop(s, t, satellites), t, rest);
    } else if satellites[0] in s.holds {
      SuspendKeeps(s, ReleaseLoop(s, t, satellites), t, rest);
    } else {
      assert forall e | e in s.holds :: Undoes(rest, e) ==> Undoes(ReleaseRest(satellites[1..]), e);
      ReleaseLoopKept(s, t, satellites[1..]);
    }
  }

  lemma {:induction false} RenewLoopKept(s: State, t: nat, snapshot: seq<(Satellite, HoldId)>)
    requires KeptWithin(s, t, RenewRest(snapshot))
    ensures Kept(RenewLoop(s, t, snapshot))
  {
    var rest := RenewRest(snapshot);
    if snapshot == [] || Talking(s, snapshot[0].0) || snapshot[0].0 in s.holds {
      SuspendKeeps(s, RenewLoop(s, t, snapshot), t, rest);
    } else {
      RenewLoopKept(s, t, snapshot[1..]);
    }
  }

  lemma ContinueKept(s: State, t: nat, rest: Then)
    requires KeptWithin(s, t, rest)
    ensures Kept(Continue(s, t, rest))
  {
    match rest
    case Finish => SuspendKeeps(s, Continue(s, t, rest), t, rest);
    case RenewRest(snapshot) => RenewLoopKept(s, t, snapshot);
    case ReleaseRest(satellites) => ReleaseLoopKept(s, t, satellites);
  }

  lemma DuckForKept(s: State, t: nat, e: Satellite, targets: bool, rest: Then)
    requires KeptWithin(s, t, rest)
    ensures Kept(DuckFor(s, t, e, targets, rest))
  {
    if targets {
      SuspendKeeps(s, DuckFor(s, t, e, targets, rest), t, rest);
    } else {
      ContinueKept(s, t, rest);
    }
  }

  lemma TrackKept(s: State, t: nat, e: Satellite, id: HoldId, rest: Then)
    requires KeptWithin(s, t, rest)
    ensures Kept(Track(s, t, e, id, rest))
  {
    var s1 := s.(holds := s.holds[e := id]);
    assert forall x | x in s.holds :: PendingBeside(s, t, x) ==> PendingBeside(s1, t, x);
    if Talking(s1, e) {
      ContinueKept(s1, t, rest);
    } else {
      var s2 := s1.(holds := s1.holds - {e});
      assert forall x | x in s.holds :: PendingBeside(s, t, x) ==> PendingBeside(s2, t, x);
      SuspendKeeps(s2, Track(s, t, e, id, rest), t, rest);
    }
  }

  // Everything but the steps that silence a satellite without telling the listener.
  predicate Orderly(step: Step) {
    !step.UnseenState? && !step.RestoreOff? && !step.Stop?
  }

  // `t` drops the hold of `e` and goes on with `rest`.
  lemma Forget(s: State, t: nat, e: Satellite, rest: Then)
    requires Kept(s) && t in s.tasks
    requires forall x | x != e :: TaskUndoes(s.tasks[t], x) ==> Undoes(rest, x)
    ensures KeptWithin(s.(holds := s.holds - {e}), t, rest)
  {
    var s1 := s.(holds := s.holds - {e});
    forall x | x in s1.holds ensures Talking(s1, x) || PendingBeside(s1, t, x) || Undoes(rest, x) {
      if PendingBeside(s, t, x) {
        var u :| u in s.tasks && u != t && TaskUndoes(s.tasks[u], x);
        assert u in s1.tasks && TaskUndoes(s1.tasks[u], x);
      }
    }
  }

  lemma RunUnduckKept(s: State, t: nat)
    requires Kept(s) && Enabled(s, RunUnduck(t))
    ensures Kept(Resume(s, RunUnduck(t)))
  {
    var e := s.tasks[t].e;
    Forget(s, t, e, Finish);
    var s1 := s.(holds := s.holds - {e});
    if e in s.holds {
      SuspendKeeps(s1, SendRelease(s, t, e, Finish), t, Finish);
    } else {
      SuspendKeeps(s1, Continue(s, t, Finish), t, Finish);
    }
  }

  lemma RenewAnsweredKept(s: State, t: nat, targets: bool)
    requires Kept(s) && Enabled(s, RenewAnswered(t, targets))
    ensures Kept(Resume(s, RenewAnswered(t, targets)))
  {
    var task := s.tasks[t];
    var rest := RenewRest(task.snapshot);
    if s.answers[task.req].alive {
      Carried(s, t);
      ContinueKept(s, t, rest);
    } else {
      Forget(s, t, task.e, rest);
      DuckForKept(s.(holds := s.holds - {task.e}), t, task.e, targets, rest);
    }
  }

  lemma Carried(s: State, t: nat)
    requires Kept(s) && t in s.tasks && !s.tasks[t].UnduckSpawned?
    ensures KeptWithin(s, t, RestOf(s.tasks[t]))
  {
  }

  lemma ResumeKept(s: State, step: Step)
    requires Kept(s) && Enabled(s, step) && Resumes(step)
    ensures Kept(Resume(s, step))
  {
    var t := step.t;
    var task := s.tasks[t];
    match step
    case RunUnduck(_) => RunUnduckKept(s, t);
    case RenewAnswered(_, targets) => RenewAnsweredKept(s, t, targets);
    case RunDuck(_, targets) => Carried(s, t); DuckForKept(s, t, task.e, targets, Finish);
    case StartAnswered(_) => Carried(s, t); TrackKept(s, t, task.e, s.answers[task.req].id, task.rest);
    case ReleaseAnswered(_) => Carried(s, t); ContinueKept(s, t, task.rest);
    case RequestFailed(_) => Carried(s, t); ContinueKept(s, t, RestOf(task));
  }

  // Nothing is tracked anew, no work is lost, and those who stop talking have work waiting.
  lemma KeptOn(s: State, n: State)
    requires Kept(s) && TasksNumbered(n)
    requires forall t | t in s.tasks :: t in n.tasks && n.tasks[t] == s.tasks[t]
    requires forall e | e in n.holds :: e in s.holds && (Talking(s, e) ==> Talking(n, e) || Pending(n, e))
    ensures Kept(n)
  {
    forall e | e in n.holds && !Talking(n, e) ensures Pending(n, e) {
      if Pending(s, e) {
        var u :| u in s.tasks && TaskUndoes(s.tasks[u], e);
        assert u in n.tasks && TaskUndoes(n.tasks[u], e);
      }
    }
  }

  lemma SatelliteKept(s: State, e: Satellite, active: bool)
    requires Kept(s)
    ensures Kept(Listen(SetActive(s, e, active), e, active))
  {
    var s1 := SetActive(s, e, active);
    match React(s1.enabled, e in s1.holds, active)
    case Ignore => KeptOn(s, s1);
    case Duck => KeptOn(s, Spawn(s1, DuckSpawned(e, s1.now)));
    case Unduck =>
      var n := Spawn(s1, UnduckSpawned(e));
      assert TaskUndoes(n.tasks[s.counter], e);
      assert Pending(n, e);
      KeptOn(s, n);
  }

  lemma ReleaseAllKept(s: State, order: seq<Satellite>)
    requires TasksNumbered(s) && forall e | e in s.holds :: e in order
    ensures Kept(ReleaseAll(s, order))
  {
    var s1 := s.(counter := s.counter + 1);
    ReleaseLoopKept(s1, s.counter, order);
  }

  lemma TurnOffKept(s: State, order: seq<Satellite>)
    requires Kept(s) && Enabled(s, TurnOff(order))
    ensures Kept(Apply(s, TurnOff(order)))
  {
    forall e | e in s.holds ensures e in order {
      assert e in (set x | x in order);
    }
    ReleaseAllKept(Disable(s), order);
  }

  lemma RenewAllKept(s: State, snapshot: seq<(Satellite, HoldId)>)
    requires Kept(s)
    ensures Kept(RenewAll(s, snapshot))
  {
    var s1 := s.(counter := s.counter + 1);
    forall x | x in s1.holds && !Talking(s1, x) ensures PendingBeside(s1, s.counter, x) {
      var u :| u in s.tasks && TaskUndoes(s.tasks[u], x);
      assert u in s1.tasks && TaskUndoes(s1.tasks[u], x);
    }
    RenewLoopKept(s1, s.counter, snapshot);
  }

  lemma ServeKept(s: State, r: nat)
    requires Kept(s) && r in s.sent
    ensures Kept(Answered(s, r))
  {
    match s.sent[r].purpose
    case ForStart(e) => KeptOn(s, ServedStart(s, r, e));
    case ForRenew(_, id) => KeptOn(s, ServedRenew(s, r, id));
    case ForRelease(_, id) => KeptOn(s, ServedRelease(s, r, id));
  }

  lemma OutsideKept(s: State, step: Step)
    requires Kept(s) && Enabled(s, step) && Outside(step) && Orderly(step)
    ensures Kept(Happen(s, step))
  {
    match step
    case Tick(d) => KeptOn(s, s.(now := s.now + d));
    case TurnOn => KeptOn(s, s.(enabled := true));
    case Reload =>
    case Cancel(_) => assert false;
    case Serve(r) => ServeKept(s, r);
    case Drop(r) => KeptOn(s, s.(open := s.open - {r}));
    case Sweep => KeptOn(s, Expire(s));
    case DaemonRestart => KeptOn(s, Restarted(s));
  }

  predicate OrderlyRun(steps: seq<Step>) {
    forall step | step in steps :: Orderly(step)
  }

  lemma {:induction false} RunKept(states: seq<State>, steps: seq<Step>, i: nat)
    requires Path(states, steps) && OrderlyRun(steps) && Kept(states[0]) && i <= |steps|
    ensures Kept(states[i])
  {
    if i > 0 {
      RunKept(states, steps, i - 1);
      PathStep(states, steps, i - 1);
      assert steps[i - 1] in steps;
      StepKept(states[i - 1], steps[i - 1]);
    }
  }

  lemma StepKept(s: State, step: Step)
    requires Kept(s) && Enabled(s, step) && Orderly(step)
    ensures Kept(Apply(s, step))
  {
    if Resumes(step) {
      ResumeKept(s, step);
    } else if Outside(step) {
      OutsideKept(s, step);
    } else {
      match step
      case SatelliteState(e, active) => SatelliteKept(s, e, active);
      case TurnOff(order) => TurnOffKept(s, order);
      case RenewTick(order) => RenewAllKept(s, Snapshot(s, order));
    }
  }

  /** While the listener runs and the switch is only ever turned off by its user, a tracked hold whose satellite
      is silent always has un-duck work pending; with no coroutine left, only talking satellites hold anything. */
  lemma {:induction false} SilentHoldsAreBeingReleased(states: seq<State>, steps: seq<Step>, i: nat, e: Satellite)
    requires Path(states, steps) && OrderlyRun(steps) && Initial(states[0]) && i <= |steps|
    requires e in states[i].holds && !Talking(states[i], e)
    ensures Pending(states[i], e)
  {
    RunKept(states, steps, i);
  }

  lemma {:induction false} QuiescentTracksOnlyTalkers(states: seq<State>, steps: seq<Step>, i: nat)
    requires Path(states, steps) && OrderlyRun(steps) && Initial(states[0]) && i <= |steps|
    requires states[i].tasks == map[]
    ensures forall e | e in states[i].holds :: Talking(states[i], e)
  {
    RunKept(states, steps, i);
  }

  // --- a hold Home Assistant lost sight of is never renewed ---------------------------------------------

  ghost predicate Forgotten(s: State, id: HoldId) {
    && (forall e :: !Tracks(s, e, id) && !Walks(s, e, id) && !Granted(s, e, id))
    && (forall q, e :: !Asks(s, q, e, id))
  }

  lemma {:induction false} InheritsForgets(s: State, n: State, id: HoldId)
    requires Inherits(s, n) && Forgotten(s, id) && (NextId(s) == id ==> n.nextHold != id)
    ensures Forgotten(n, id)
  {
    forall t, e ensures !GrantedIn(n, t, e, id) && !WalksIn(n, t, e, id) {
      assert !Granted(s, e, id) && !Going(s, e, id);
    }
    forall q, e ensures !Asks(n, q, e, id) {
      assert !Asks(s, q, e, id) && !Going(s, e, id);
    }
    forall e ensures !Tracks(n, e, id) {
      assert !Tracks(s, e, id) && !Granted(s, e, id);
    }
  }

  lemma {:induction false} RestartForgets(s: State, id: HoldId)
    requires Forgotten(s, id)
    ensures Forgotten(Restarted(s), id)
  {
    var n := Restarted(s);
    forall e ensures !Tracks(n, e, id) && !Walks(n, e, id) {
      assert !Tracks(s, e, id) && !Walks(s, e, id);
      assert forall t :: WalksIn(n, t, e, id) ==> WalksIn(s, t, e, id);
    }
  }

  lemma {:induction false} StepForgets(s: State, step: Step, id: HoldId)
    requires Inv(s) && Enabled(s, step) && Forgotten(s, id) && !HandsOut(s, step, id)
    ensures var n := Apply(s, step);
            && Forgotten(n, id)
            && (id in n.leases ==> id in s.leases && n.leases[id] == s.leases[id])
  {
    var n := Apply(s, step);
    LeasesFrom(s, step, id);
    if step.DaemonRestart? {
      RestartForgets(s, id);
    } else {
      StepInherits(s, step);
      StepCountsOn(s, step);
      InheritsForgets(s, n, id);
    }
  }

  // From state `k` to state `i` no new hold is named `id`.
  ghost predicate NotHandedOut(states: seq<State>, steps: seq<Step>, k: nat, i: nat, id: HoldId)
    requires |states| == |steps| + 1 && i <= |steps|
  {
    forall j {:trigger HandsOut(states[j], steps[j], id)} | k <= j < i :: !HandsOut(states[j], steps[j], id)
  }

  /** A hold nobody remembers any more keeps the deadline it has, whatever happens next, restarts and reloads included,
      until a new hold takes over its id. */
  lemma {:induction false} ForgottenHoldIsNeverRenewed(states: seq<State>, steps: seq<Step>, k: nat, i: nat, id: HoldId)
    requires Path(states, steps) && Initial(states[0]) && k <= i <= |steps| && Forgotten(states[k], id)
    requires NotHandedOut(states, steps, k, i, id)
    ensures Forgotten(states[i], id)
    ensures id in states[i].leases ==> id in states[k].leases && states[i].leases[id] == states[k].leases[id]
    decreases i
  {
    if i > k {
      assert NotHandedOut(states, steps, k, i - 1, id);
      ForgottenHoldIsNeverRenewed(states, steps, k, i - 1, id);
      RunKeepsInv(states, steps, i - 1);
      PathStep(states, steps, i - 1);
      assert !HandsOut(states[i - 1], steps[i - 1], id);
      StepForgets(states[i - 1], steps[i - 1], id);
    }
  }

  lemma {:induction false} AnsweredCounts(s: State, r: nat)
    requires r in s.sent
    ensures Answered(s, r).nextHold == s.nextHold + if s.sent[r].purpose.ForStart? then 1 else 0
  {
  }

  // What a step does to the ids handed out so far.
  lemma {:induction false} StepCountsOn(s: State, step: Step)
    requires Enabled(s, step) && !step.DaemonRestart?
    ensures Apply(s, step).nextHold == s.nextHold + if Starts(s, step) then 1 else 0
  {
    if step.Serve? {
      AnsweredCounts(s, step.r);
    }
  }

  /** Without a daemon restart no id is ever handed out again. */
  lemma {:induction false} IdsAreFresh(states: seq<State>, steps: seq<Step>, k: nat, i: nat, id: HoldId)
    requires Path(states, steps) && k <= i <= |steps| && id <= states[k].nextHold
    requires forall j | k <= j < i :: !steps[j].DaemonRestart?
    ensures NotHandedOut(states, steps, k, i, id) && id <= states[i].nextHold
  {
    if i > k {
      IdsAreFresh(states, steps, k, i - 1, id);
      PathStep(states, steps, i - 1);
      StepCountsOn(states[i - 1], steps[i - 1]);
    }
  }

  /** Once no coroutine and no request is left, whichever hold is tracked for nobody keeps its deadline for good: its
      outputs come back on their own. In an orderly run those are all holds of silent satellites. */
  lemma {:induction false} QuiescentSilenceIsFinal(states: seq<State>, steps: seq<Step>, k: nat, i: nat, id: HoldId)
    requires Path(states, steps) && Initial(states[0]) && k <= i <= |steps|
    requires states[k].tasks == map[] && states[k].open == {} && forall e :: !Tracks(states[k], e, id)
    requires NotHandedOut(states, steps, k, i, id)
    ensures id in states[i].leases ==> id in states[k].leases && states[i].leases[id] == states[k].leases[id]
  {
    assert Forgotten(states[k], id);
    ForgottenHoldIsNeverRenewed(states, steps, k, i, id);
  }

  // --- a hold that is given back is gone -----------------------------------------------------------------

  lemma {:induction false} LapsedStaysLapsed(states: seq<State>, steps: seq<Step>, k: nat, i: nat, id: HoldId)
    requires Path(states, steps) && k <= i <= |steps| && id !in states[k].leases
    requires NotHandedOut(states, steps, k, i, id)
    ensures id !in states[i].leases
    decreases i
  {
    if i > k {
      assert NotHandedOut(states, steps, k, i - 1, id);
      LapsedStaysLapsed(states, steps, k, i - 1, id);
      PathStep(states, steps, i - 1);
      LeasesFrom(states[i - 1], steps[i - 1], id);
      assert !HandsOut(states[i - 1], steps[i - 1], id);
    }
  }

  // The daemon serves a release of `id`.
  predicate ServesRelease(s: State, step: Step, id: HoldId) {
    step.Serve? && step.r in s.sent && s.sent[step.r].purpose.ForRelease? && s.sent[step.r].purpose.id == id
  }

  /** The music comes back with the release, not with the end of the lease: once a release is served its hold is gone,
      whatever is still on its way for it, until a new hold takes over its id. */
  lemma {:induction false} ReleasedIsGone(states: seq<State>, steps: seq<Step>, k: nat, i: nat, id: HoldId)
    requires Path(states, steps) && k < i <= |steps| && ServesRelease(states[k], steps[k], id)
    requires NotHandedOut(states, steps, k, i, id)
    ensures id !in states[i].leases
  {
    PathStep(states, steps, k);
    LapsedStaysLapsed(states, steps, k + 1, i, id);
  }

  // --- a hold that is kept up stays -----------------------------------------------------------------------

  // The daemon serves a renewal of `id`.
  predicate ServesRenewal(s: State, step: Step, id: HoldId) {
    step.Serve? && step.r in s.sent && s.sent[step.r].purpose.ForRenew? && s.sent[step.r].purpose.id == id
  }

  // It is handed out, or there and renewed.
  predicate KeepsUp(s: State, step: Step, id: HoldId) {
    HandsOut(s, step, id) || (ServesRenewal(s, step, id) && id in s.leases)
  }

  predicate TakesAway(s: State, step: Step, id: HoldId) {
    ServesRelease(s, step, id) || step.DaemonRestart?
  }

  ghost predicate NotTakenAway(states: seq<State>, steps: seq<Step>, k: nat, i: nat, id: HoldId)
    requires |states| == |steps| + 1 && i <= |steps|
  {
    forall j {:trigger TakesAway(states[j], steps[j], id)} | k < j < i :: !TakesAway(states[j], steps[j], id)
  }

  // It lives at least until `until`.
  predicate Lasts(s: State, id: HoldId, until: Time) {
    until <= s.now || (id in s.leases && until <= s.leases[id])
  }

  lemma {:induction false} ServedLasts(s: State, r: nat, id: HoldId, until: Time)
    requires r in s.sent && until <= s.now + TTL && Lasts(s, id, until) && !ServesRelease(s, Serve(r), id)
    ensures Lasts(Answered(s, r), id, until)
  {
    match s.sent[r].purpose
    case ForStart(_) =>
    case ForRenew(_, _) =>
    case ForRelease(_, _) =>
  }

  lemma {:induction false} StepLasts(s: State, step: Step, id: HoldId, until: Time)
    requires Enabled(s, step) && until <= s.now + TTL && Lasts(s, id, until) && !TakesAway(s, step, id)
    ensures Lasts(Apply(s, step), id, until)
  {
    if step.Serve? {
      ServedLasts(s, step.r, id, until);
    }
  }

  lemma {:induction false} KeptUpLasts(s: State, step: Step, id: HoldId)
    requires Enabled(s, step) && KeepsUp(s, step, id)
    ensures id in Apply(s, step).leases && Apply(s, step).leases[id] == s.now + TTL
  {
    ServedKeepsUp(s, step.r, id);
  }

  lemma {:induction false} ServedKeepsUp(s: State, r: nat, id: HoldId)
    requires r in s.sent && KeepsUp(s, Serve(r), id)
    ensures id in Answered(s, r).leases && Answered(s, r).leases[id] == s.now + TTL
  {
    match s.sent[r].purpose
    case ForStart(_) =>
    case ForRenew(_, _) =>
  }

  lemma {:induction false} ClockGoesOn(states: seq<State>, steps: seq<Step>, k: nat, i: nat)
    requires Path(states, steps) && k <= i <= |steps|
    ensures states[k].now <= states[i].now
    decreases i
  {
    if i > k {
      ClockGoesOn(states, steps, k, i - 1);
      PathStep(states, steps, i - 1);
    }
  }

  /** A hold lives for its whole lease: from being handed out or renewed on, it is there for the next TTL at least, whatever
      else happens, unless a release of it is served or the daemon restarts. So a turn that is renewed in time stays
      ducked. */
  lemma {:induction false} HeldForItsLease(states: seq<State>, steps: seq<Step>, k: nat, i: nat, id: HoldId)
    requires Path(states, steps) && k < i <= |steps| && KeepsUp(states[k], steps[k], id)
    requires NotTakenAway(states, steps, k, i, id)
    ensures Lasts(states[i], id, states[k].now + TTL)
    decreases i
  {
    PathStep(states, steps, i - 1);
    if i == k + 1 {
      KeptUpLasts(states[k], steps[k], id);
    } else {
      assert NotTakenAway(states, steps, k, i - 1, id);
      HeldForItsLease(states, steps, k, i - 1, id);
      ClockGoesOn(states, steps, k, i - 1);
      assert !TakesAway(states[i - 1], steps[i - 1], id);
      StepLasts(states[i - 1], steps[i - 1], id, states[k].now + TTL);
    }
  }

  // Coroutine `t` waits for the answer to renewal `r`.
  predicate AwaitsRenewal(s: State, t: nat, e: Satellite, r: nat) {
    t in s.tasks && s.tasks[t].AwaitRenew? && s.tasks[t].req == r && s.tasks[t].e == e
  }

  lemma {:induction false} RenewalIsAnswered(s: State, r: nat, id: HoldId)
    requires r in s.sent && ServesRenewal(s, Serve(r), id)
    ensures var n := Answered(s, r); r in n.answers && n.answers[r] == Alive(id in s.leases)
  {
  }

  /** A hold the daemon does not know any more is started anew: when its renewal is served the answer says so, and the
      coroutine that sees that answer forgets the hold and asks for a new one. */
  lemma {:induction false} LostHoldIsStartedAnew(s: State, r: nat, id: HoldId, n: State, t: nat, e: Satellite)
    requires Enabled(s, Serve(r)) && ServesRenewal(s, Serve(r), id)
    requires r in n.answers && n.answers[r] == Apply(s, Serve(r)).answers[r]
    requires AwaitsRenewal(n, t, e, r) && Enabled(n, RenewAnswered(t, true))
    ensures var m := Apply(n, RenewAnswered(t, true));
            id !in s.leases ==>
              e !in m.holds && m.sent == n.sent[n.counter := Request(ForStart(e), n.now)] && n.counter in m.open
    ensures id in s.leases ==> Apply(n, RenewAnswered(t, true)) == Continue(n, t, RenewRest(n.tasks[t].snapshot))
  {
    RenewalIsAnswered(s, r, id);
  }
}
