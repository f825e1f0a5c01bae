/**
 The lease bound of the voice-ducking protocol: what each step keeps, and what that means for whole runs.
 */
module VoiceDuckLease {
  import opened VoiceDuck

  // --- the invariant ----------------------------------------------------------------------

  predicate Owns(s: State, e: Satellite, id: HoldId) {
    id in s.owner && s.owner[id] == e
  }

  predicate RequestOk(s: State, r: nat)
    requires r in s.sent
  {
    var q := s.sent[r];
    match q.purpose
    case ForStart(e) => TalkedSince(s, e, q.at - s.limits.delay)
    case ForRenew(e, _) => TalkedSince(s, e, q.at)
    case ForRelease(_, _) => true
  }

  predicate TaskOk(s: State, task: Task) {
    match task
    case DuckSpawned(e, at) => TalkedSince(s, e, at)
    case UnduckSpawned(_) => true
    case AwaitStart(e, req, _) => req in s.sent && s.sent[req].purpose == ForStart(e)
    case AwaitRelease(req, _) => req in s.sent && s.sent[req].purpose.ForRelease?
    case AwaitRenew(e, id, req, _) =>
      req in s.sent && s.sent[req].purpose == ForRenew(e, id) && TalkedSince(s, e, s.sent[req].at)
  }

  predicate AnswerOk(s: State, r: nat)
    requires r in s.answers
  {
    r in s.sent && (s.sent[r].purpose.ForStart? ==> s.answers[r].Held? && Owns(s, s.sent[r].purpose.e, s.answers[r].id))
  }

  ghost predicate SomeoneTalkedSince(s: State, t: Time) {
    exists e :: TalkedSince(s, e, t)
  }

  // The lease bound of the house: a live hold runs out at most TTL and two delays after some satellite last talked.
  ghost predicate LeaseOk(s: State, id: HoldId)
    requires id in s.leases
  {
    && id in s.owner
    && SomeoneTalkedSince(s, s.leases[id] - TTL - 2 * s.limits.delay)
    && s.lastSweep < s.leases[id]
  }

  ghost predicate Inv(s: State) {
    && s.lastSweep <= s.now <= s.lastSweep + s.limits.sweep
    && (forall e | e in s.stopped :: s.stopped[e] <= s.now)
    && (forall id | id in s.owner :: id <= s.nextHold)
    && (forall r | r in s.sent :: r < s.counter)
    && (forall r | r in s.open :: r in s.sent && RequestOk(s, r))
    && (forall r | r in s.answers :: AnswerOk(s, r))
    && (forall t | t in s.tasks :: t < s.counter && TaskOk(s, s.tasks[t]))
    && (forall id | id in s.leases :: LeaseOk(s, id))
  }

  // What every step other than a daemon restart only adds to.
  ghost predicate Extends(s: State, n: State) {
    && n.limits == s.limits
    && s.now <= n.now
    && (forall id | id in s.owner :: id in n.owner && n.owner[id] == s.owner[id])
    && (forall r | r in s.sent :: r in n.sent && n.sent[r] == s.sent[r])
    && (forall e, t | TalkedSince(s, e, t) :: TalkedSince(n, e, t))
  }

  lemma LeaseStays(s: State, n: State, id: HoldId)
    requires Extends(s, n) && id in s.leases && LeaseOk(s, id)
    requires id in n.leases && n.leases[id] == s.leases[id] && n.lastSweep < n.leases[id]
    ensures LeaseOk(n, id)
  {
    var e :| TalkedSince(s, e, s.leases[id] - TTL - 2 * s.limits.delay);
    assert TalkedSince(n, e, n.leases[id] - TTL - 2 * n.limits.delay);
  }

  // Whatever was in order stays so.
  lemma RestStays(s: State, n: State)
    requires Inv(s) && Extends(s, n)
    ensures forall r | r in s.open :: RequestOk(n, r)
    ensures forall t | t in s.tasks :: TaskOk(n, s.tasks[t])
    ensures forall id | id in n.leases && id in s.leases && n.leases[id] == s.leases[id] && n.lastSweep < n.leases[id] ::
              LeaseOk(n, id)
  {
    forall t | t in s.tasks ensures TaskOk(n, s.tasks[t]) {
      assert TaskOk(s, s.tasks[t]);
    }
    forall r | r in s.open ensures RequestOk(n, r) {
      assert RequestOk(s, r);
    }
    forall id | id in n.leases && id in s.leases && n.leases[id] == s.leases[id] && n.lastSweep < n.leases[id]
      ensures LeaseOk(n, id)
    {
      LeaseStays(s, n, id);
    }
  }

  // A step that changes nothing on the network or in the daemon, and starts no coroutine.
  lemma QuietStepKeeps(s: State, n: State)
    requires Inv(s) && Extends(s, n)
    requires n.lastSweep == s.lastSweep && n.now <= n.lastSweep + n.limits.sweep
    requires n.sent == s.sent && n.open <= s.open && n.answers == s.answers && s.counter <= n.counter
    requires n.leases == s.leases && n.owner == s.owner && n.nextHold == s.nextHold
    requires forall e | e in n.stopped :: n.stopped[e] <= n.now
    requires forall t | t in n.tasks :: t in s.tasks && n.tasks[t] == s.tasks[t]
    ensures Inv(n)
  {
    RestStays(s, n);
  }

  lemma SpawnKeeps(s: State, task: Task)
    requires Inv(s) && TaskOk(s, task)
    ensures Inv(Spawn(s, task))
  {
    var n := Spawn(s, task);
    assert Extends(s, n);
    RestStays(s, n);
  }

  lemma SendKeeps(s: State, t: nat, purpose: Purpose, task: Task)
    requires Inv(s) && t < s.counter
    requires match purpose
             case ForStart(e) => TalkedSince(s, e, s.now - s.limits.delay)
             case ForRenew(e, _) => TalkedSince(s, e, s.now)
             case ForRelease(_, _) => true
    requires TaskOk(Send(s, t, purpose, task), task)
    ensures Inv(Send(s, t, purpose, task))
  {
    var n := Send(s, t, purpose, task);
    assert Extends(s, n);
    RestStays(s, n);
  }

  lemma HoldsAreFree(s: State, holds: map<Satellite, HoldId>)
    requires Inv(s)
    ensures Inv(s.(holds := holds))
  {
    QuietStepKeeps(s, s.(holds := holds));
  }

  lemma SendReleaseKeeps(s: State, t: nat, e: Satellite, rest: Then)
    requires Inv(s) && t < s.counter && e in s.holds
    ensures Inv(SendRelease(s, t, e, rest))
  {
    HoldsAreFree(s, s.holds - {e});
    SendKeeps(s.(holds := s.holds - {e}), t, ForRelease(e, s.holds[e]), AwaitRelease(s.counter, rest));
  }

  lemma EndKeeps(s: State, t: nat)
    requires Inv(s)
    ensures Inv(s.(tasks := s.tasks - {t}))
  {
    QuietStepKeeps(s, s.(tasks := s.tasks - {t}));
  }

  lemma {:induction false} RenewLoopKeeps(s: State, t: nat, snapshot: seq<(Satellite, HoldId)>)
    requires Inv(s) && t < s.counter
    ensures Inv(RenewLoop(s, t, snapshot))
  {
    if snapshot == [] {
      EndKeeps(s, t);
    } else {
      var (e, id) := snapshot[0];
      if Talking(s, e) {
        SendKeeps(s, t, ForRenew(e, id), AwaitRenew(e, id, s.counter, snapshot[1..]));
      } else if e in s.holds {
        SendReleaseKeeps(s, t, e, RenewRest(snapshot[1..]));
      } else {
        RenewLoopKeeps(s, t, snapshot[1..]);
      }
    }
  }

  lemma {:induction false} ReleaseLoopKeeps(s: State, t: nat, satellites: seq<Satellite>)
    requires Inv(s) && t < s.counter
    ensures Inv(ReleaseLoop(s, t, satellites))
  {
    if satellites == [] {
      EndKeeps(s, t);
    } else if satellites[0] in s.holds {
      SendReleaseKeeps(s, t, satellites[0], ReleaseRest(satellites[1..]));
    } else {
      ReleaseLoopKeeps(s, t, satellites[1..]);
    }
  }

  lemma ContinueKeeps(s: State, t: nat, rest: Then)
    requires Inv(s) && t < s.counter
    ensures Inv(Continue(s, t, rest))
  {
    match rest
    case Finish => EndKeeps(s, t);
    case RenewRest(snapshot) => RenewLoopKeeps(s, t, snapshot);
    case ReleaseRest(satellites) => ReleaseLoopKeeps(s, t, satellites);
  }

  lemma DuckForKeeps(s: State, t: nat, e: Satellite, targets: bool, rest: Then)
    requires Inv(s) && t < s.counter && TalkedSince(s, e, s.now - s.limits.delay)
    ensures Inv(DuckFor(s, t, e, targets, rest))
  {
    if targets {
      SendKeeps(s, t, ForStart(e), AwaitStart(e, s.counter, rest));
    } else {
      ContinueKeeps(s, t, rest);
    }
  }

  lemma ResumeKeepsInv(s: State, step: Step)
    requires Inv(s) && Enabled(s, step) && Resumes(step)
    ensures Inv(Resume(s, step))
  {
    var t := step.t;
    var task := s.tasks[t];
    assert TaskOk(s, task);
    match step
    case RunDuck(_, targets) => DuckForKeeps(s, t, task.e, targets, Finish);
    case RunUnduck(_) =>
      if task.e in s.holds { SendReleaseKeeps(s, t, task.e, Finish); } else { EndKeeps(s, t); }
    case StartAnswered(_) => TrackKeeps(s, t, task.e, s.answers[task.req].id, task.rest);
    case ReleaseAnswered(_) => ContinueKeeps(s, t, task.rest);
    case RenewAnswered(_, targets) =>
      if s.answers[task.req].alive {
        ContinueKeeps(s, t, RenewRest(task.snapshot));
      } else {
        HoldsAreFree(s, s.holds - {task.e});
        DuckForKeeps(s.(holds := s.holds - {task.e}), t, task.e, targets, RenewRest(task.snapshot));
      }
    case RequestFailed(_) => ContinueKeeps(s, t, RestOf(task));
  }

  lemma TrackKeeps(s: State, t: nat, e: Satellite, id: HoldId, rest: Then)
    requires Inv(s) && t < s.counter
    ensures Inv(Track(s, t, e, id, rest))
  {
    var s1 := s.(holds := s.holds[e := id]);
    HoldsAreFree(s, s.holds[e := id]);
    if Talking(s1, e) {
      ContinueKeeps(s1, t, rest);
    } else {
      SendReleaseKeeps(s1, t, e, rest);
    }
  }

  lemma CountedKeeps(s: State)
    requires Inv(s)
    ensures Inv(s.(counter := s.counter + 1))
  {
    QuietStepKeeps(s, s.(counter := s.counter + 1));
  }

  lemma ReleaseAllKeeps(s: State, order: seq<Satellite>)
    requires Inv(s)
    ensures Inv(ReleaseAll(s, order))
  {
    CountedKeeps(s);
    ReleaseLoopKeeps(s.(counter := s.counter + 1), s.counter, order);
  }

  lemma SilencedKeeps(s: State, n: State)
    requires Inv(s) && (n == Disable(s) || n == s.(listening := false))
    ensures Inv(n)
  {
    QuietStepKeeps(s, n);
  }

  lemma RenewAllKeeps(s: State, snapshot: seq<(Satellite, HoldId)>)
    requires Inv(s)
    ensures Inv(RenewAll(s, snapshot))
  {
    CountedKeeps(s);
    RenewLoopKeeps(s.(counter := s.counter + 1), s.counter, snapshot);
  }

  lemma StateKeepsInv(s: State, e: Satellite, active: bool)
    requires Inv(s)
    ensures Inv(SetActive(s, e, active)) && Inv(Listen(SetActive(s, e, active), e, active))
  {
    var s1 := SetActive(s, e, active);
    QuietStepKeeps(s, s1);
    match React(s1.enabled, e in s1.holds, active)
    case Ignore =>
    case Duck => SpawnKeeps(s1, DuckSpawned(e, s1.now));
    case Unduck => SpawnKeeps(s1, UnduckSpawned(e));
  }

  lemma ServeStartKeeps(s: State, r: nat)
    requires Inv(s) && Enabled(s, Serve(r)) && s.sent[r].purpose.ForStart?
    ensures Inv(Answered(s, r)) && Extends(s, Answered(s, r))
  {
    var n := Answered(s, r);
    assert RequestOk(s, r);
    assert TalkedSince(n, s.sent[r].purpose.e, n.leases[n.nextHold] - TTL - 2 * n.limits.delay);
    RestStays(s, n);
    assert LeaseOk(n, n.nextHold);
    forall q | q in n.answers ensures AnswerOk(n, q) {
      assert q != r ==> AnswerOk(s, q);
    }
  }

  lemma ServeRenewKeeps(s: State, r: nat)
    requires Inv(s) && Enabled(s, Serve(r)) && s.sent[r].purpose.ForRenew?
    ensures Inv(Answered(s, r))
  {
    var n := Answered(s, r);
    assert RequestOk(s, r);
    var p := s.sent[r].purpose;
    RestStays(s, n);
    if p.id in s.leases {
      assert LeaseOk(s, p.id);
      assert TalkedSince(n, p.e, n.leases[p.id] - TTL - 2 * n.limits.delay);
      assert LeaseOk(n, p.id);
    }
    forall q | q in n.answers ensures AnswerOk(n, q) {
      assert q != r ==> AnswerOk(s, q);
    }
  }

  lemma ServeReleaseKeeps(s: State, r: nat)
    requires Inv(s) && Enabled(s, Serve(r)) && s.sent[r].purpose.ForRelease?
    ensures Inv(Answered(s, r))
  {
    var n := Answered(s, r);
    RestStays(s, n);
    forall q | q in n.answers ensures AnswerOk(n, q) {
      assert q != r ==> AnswerOk(s, q);
    }
  }

  lemma TickKeepsInv(s: State, d: nat)
    requires Inv(s) && Enabled(s, Tick(d))
    ensures Inv(Happen(s, Tick(d)))
  {
    var n := Happen(s, Tick(d));
    assert Extends(s, n);
    QuietStepKeeps(s, n);
  }

  lemma SweepKeepsInv(s: State)
    requires Inv(s)
    ensures Inv(Happen(s, Sweep))
  {
    var n := Expire(s);
    assert Extends(s, n);
    RestStays(s, n);
  }

  lemma RestartKeepsInv(s: State)
    requires Inv(s)
    ensures Inv(Happen(s, DaemonRestart))
  {
    var n := Restarted(s);
    forall t | t in n.tasks ensures TaskOk(n, n.tasks[t]) {
      assert TaskOk(s, s.tasks[t]);
    }
  }

  lemma ToggleKeepsInv(s: State, step: Step)
    requires Inv(s) && Enabled(s, step)
    requires step.TurnOn? || step.RestoreOff? || step.Reload? || step.UnseenState? || step.Cancel? || step.Drop?
    ensures Inv(Happen(s, step))
  {
    QuietStepKeeps(s, Happen(s, step));
  }

  lemma ServeKeepsInv(s: State, r: nat)
    requires Inv(s) && Enabled(s, Serve(r))
    ensures Inv(Happen(s, Serve(r)))
  {
    match s.sent[r].purpose
    case ForStart(_) => ServeStartKeeps(s, r);
    case ForRenew(_, _) => ServeRenewKeeps(s, r);
    case ForRelease(_, _) => ServeReleaseKeeps(s, r);
  }

  lemma OutsideKeepsInv(s: State, step: Step)
    requires Inv(s) && Enabled(s, step) && Outside(step)
    ensures Inv(Happen(s, step))
  {
    match step
    case Tick(d) => TickKeepsInv(s, d);
    case Serve(r) => ServeKeepsInv(s, r);
    case Sweep => SweepKeepsInv(s);
    case DaemonRestart => RestartKeepsInv(s);
    case _ => ToggleKeepsInv(s, step);
  }

  lemma StepKeepsInv(s: State, step: Step)
    requires Inv(s) && Enabled(s, step)
    ensures Inv(Apply(s, step))
  {
    if Resumes(step) {
      ResumeKeepsInv(s, step);
    } else if Outside(step) {
      OutsideKeepsInv(s, step);
    } else {
      match step
      case SatelliteState(e, active) => StateKeepsInv(s, e, active);
      case TurnOff(order) =>
        SilencedKeeps(s, Disable(s));
        ReleaseAllKeeps(Disable(s), order);
      case Stop(order) =>
        SilencedKeeps(s, s.(listening := false));
        ReleaseAllKeeps(s.(listening := false), order);
      case RenewTick(order) => RenewAllKeeps(s, Snapshot(s, order));
    }
  }

  lemma {:induction false} RunKeepsInv(states: seq<State>, steps: seq<Step>, i: nat)
    requires Path(states, steps) && Inv(states[0]) && i <= |steps|
    ensures Inv(states[i]) && states[i].limits == states[0].limits
  {
    if i > 0 {
      RunKeepsInv(states, steps, i - 1);
      PathStep(states, steps, i - 1);
      StepKeepsInv(states[i - 1], steps[i - 1]);
    }
  }

  /** Music cannot stay quiet past the lease. At every moment of every run, daemon restarts and reloads included: each
      live hold, tracked or leaked, runs out at most one lease and two delays after some satellite last talked, and the
      daemon drops it at most one sweep later. */
  lemma {:induction false} HouseLeaseBound(states: seq<State>, steps: seq<Step>, i: nat, id: HoldId)
    requires Path(states, steps) && Initial(states[0]) && i <= |steps| && id in states[i].leases
    ensures var n := states[i];
            && SomeoneTalkedSince(n, n.leases[id] - TTL - 2 * n.limits.delay)
            && n.now < n.leases[id] + n.limits.sweep && n.limits == states[0].limits
  {
    RunKeepsInv(states, steps, i);
    assert LeaseOk(states[i], id);
  }

  /** A house in which nobody talked for that long has every output at full volume. */
  lemma {:induction false} SilentHouseIsLoud(states: seq<State>, steps: seq<Step>, i: nat)
    requires Path(states, steps) && Initial(states[0]) && i <= |steps|
    requires var n := states[i]; !SomeoneTalkedSince(n, n.now - TTL - 2 * n.limits.delay - n.limits.sweep)
    ensures states[i].leases == map[]
  {
    var n := states[i];
    forall id | id in n.leases ensures false {
      HouseLeaseBound(states, steps, i, id);
      var e :| TalkedSince(n, e, n.leases[id] - TTL - 2 * n.limits.delay);
      assert TalkedSince(n, e, n.now - TTL - 2 * n.limits.delay - n.limits.sweep);
    }
  }
}
