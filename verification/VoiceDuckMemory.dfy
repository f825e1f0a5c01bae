/**
 What Home Assistant remembers of hold ids, and where a step has it from: an id is tracked because it was granted, walked
 because it was tracked, and asked for because it was walked. What names whose hold follows from that.
 */
module VoiceDuckMemory {
  import opened VoiceDuck
  import opened VoiceDuckLease

  // --- what is remembered --------------------------------------------------------------------

  predicate Tracks(s: State, e: Satellite, id: HoldId) {
    e in s.holds && s.holds[e] == id
  }

  // A renewal still walks a snapshot in which `id` is tracked for `e`.
  predicate WalksIn(s: State, t: nat, e: Satellite, id: HoldId) {
    t in s.tasks && RestOf(s.tasks[t]).RenewRest? && (e, id) in RestOf(s.tasks[t]).snapshot
  }

  ghost predicate Walks(s: State, e: Satellite, id: HoldId) {
    exists t :: WalksIn(s, t, e, id)
  }

  // Request `q`, a renewal or a release of `id` for `e`, is on its way.
  predicate Asks(s: State, q: nat, e: Satellite, id: HoldId) {
    q in s.open && q in s.sent && s.sent[q].purpose == ForRenew(e, id)
  }

  predicate Gives(s: State, q: nat, e: Satellite, id: HoldId) {
    q in s.open && q in s.sent && s.sent[q].purpose == ForRelease(e, id)
  }

  // Coroutine `t` has been granted `id` for `e` and is yet to see it.
  predicate GrantedIn(s: State, t: nat, e: Satellite, id: HoldId) {
    && t in s.tasks && s.tasks[t].AwaitStart? && s.tasks[t].e == e
    && s.tasks[t].req in s.answers && s.answers[s.tasks[t].req] == Held(id)
  }

  ghost predicate Granted(s: State, e: Satellite, id: HoldId) {
    exists t :: GrantedIn(s, t, e, id)
  }

  // `id` may come to be walked for `e`.
  ghost predicate Going(s: State, e: Satellite, id: HoldId) {
    Walks(s, e, id) || (s.listening && Tracks(s, e, id))
  }

  // `id` is tracked for `e`, or a renewal or release of it for `e` is on its way.
  ghost predicate Handles(s: State, e: Satellite, id: HoldId) {
    Tracks(s, e, id) || exists q :: Asks(s, q, e, id) || Gives(s, q, e, id)
  }

  // Home Assistant may still use `id` on behalf of `e`.
  ghost predicate Remembers(s: State, e: Satellite, id: HoldId) {
    Handles(s, e, id) || Walks(s, e, id)
  }

  // The id the daemon hands out next.
  function NextId(s: State): HoldId {
    s.nextHold + 1
  }

  predicate Starts(s: State, step: Step) {
    step.Serve? && step.r in s.sent && s.sent[step.r].purpose.ForStart?
  }

  // The daemon names a new hold `id`.
  predicate HandsOut(s: State, step: Step, id: HoldId) {
    Starts(s, step) && NextId(s) == id
  }

  // --- where a step has it from ---------------------------------------------------------------

  predicate Numbered(s: State) {
    (forall r | r in s.sent :: r < s.counter) && (forall r | r in s.answers :: r < s.counter)
  }

  /** Whatever is remembered in `n` was remembered in `s`, one stage earlier at most, or granted by the step. */
  ghost predicate Inherits(s: State, n: State) {
    && Numbered(n) && s.counter <= n.counter
    && (n.listening ==> s.listening || n.holds == map[])
    && (forall e, id | Tracks(n, e, id) :: Tracks(s, e, id) || Granted(s, e, id))
    && (forall t, e, id | WalksIn(n, t, e, id) :: Going(s, e, id))
    && (forall q, e, id | Asks(n, q, e, id) ::
          || (Asks(s, q, e, id) && n.sent[q] == s.sent[q])
          || (n.sent[q].at == n.now && Talking(n, e) && Going(s, e, id)))
    && (forall q, e, id | Gives(n, q, e, id) :: Gives(s, q, e, id) || Tracks(s, e, id) || Granted(s, e, id))
    && (forall t, e, id | GrantedIn(n, t, e, id) ::
          GrantedIn(s, t, e, id) || (id == NextId(s) == n.nextHold && Owns(n, e, id)))
  }

  ghost predicate Covered(s: State, snapshot: seq<(Satellite, HoldId)>) {
    forall p | p in snapshot :: Going(s, p.0, p.1)
  }

  ghost predicate RestCovered(s: State, rest: Then) {
    rest.RenewRest? ==> Covered(s, rest.snapshot)
  }

  lemma SendInherits(s0: State, s: State, t: nat, purpose: Purpose, task: Task)
    requires Inherits(s0, s) && RestCovered(s0, RestOf(task)) && (task.AwaitStart? ==> task.req == s.counter)
    requires match purpose
             case ForStart(_) => true
             case ForRenew(e, id) => Going(s0, e, id) && Talking(s, e)
             case ForRelease(e, id) => Tracks(s0, e, id) || Granted(s0, e, id)
    ensures Inherits(s0, Send(s, t, purpose, task))
  {
    var n := Send(s, t, purpose, task);
    forall u, e, id | WalksIn(n, u, e, id) ensures Going(s0, e, id) {
      if u != t {
        assert WalksIn(s, u, e, id);
      } else {
        assert (e, id).0 == e && (e, id).1 == id;
      }
    }
    forall u, e, id | GrantedIn(n, u, e, id) ensures GrantedIn(s, u, e, id) {
    }
    forall q, e, id | Asks(n, q, e, id) && q != s.counter ensures Asks(s, q, e, id) {
    }
    forall q, e, id | Gives(n, q, e, id) && q != s.counter ensures Gives(s, q, e, id) {
    }
  }

  // A hold is dropped, or one that was granted is tracked.
  lemma HoldsInherit(s0: State, s: State, holds: map<Satellite, HoldId>)
    requires Inherits(s0, s) && (s.listening ==> s0.listening || holds == map[])
    requires forall e | e in holds :: Tracks(s, e, holds[e]) || Granted(s0, e, holds[e])
    ensures Inherits(s0, s.(holds := holds))
  {
    var n := s.(holds := holds);
    forall t, e, id | WalksIn(n, t, e, id) ensures WalksIn(s, t, e, id) {
    }
    forall q, e, id | Asks(n, q, e, id) ensures Asks(s, q, e, id) {
    }
    forall q, e, id | Gives(n, q, e, id) ensures Gives(s, q, e, id) {
    }
    forall t, e, id | GrantedIn(n, t, e, id) ensures GrantedIn(s, t, e, id) {
    }
  }

  lemma EndInherits(s0: State, s: State, t: nat)
    requires Inherits(s0, s)
    ensures Inherits(s0, s.(tasks := s.tasks - {t}))
  {
    var n := s.(tasks := s.tasks - {t});
    forall u, e, id | WalksIn(n, u, e, id) ensures WalksIn(s, u, e, id) {
    }
    forall u, e, id | GrantedIn(n, u, e, id) ensures GrantedIn(s, u, e, id) {
    }
  }

  lemma SendReleaseInherits(s0: State, s: State, t: nat, e: Satellite, rest: Then)
    requires Inherits(s0, s) && RestCovered(s0, rest) && e in s.holds && (s.listening ==> s0.listening)
    ensures Inherits(s0, SendRelease(s, t, e, rest))
  {
    assert Tracks(s, e, s.holds[e]);
    HoldsInherit(s0, s, s.holds - {e});
    SendInherits(s0, s.(holds := s.holds - {e}), t, ForRelease(e, s.holds[e]), AwaitRelease(s.counter, rest));
  }

  lemma {:induction false} RenewLoopInherits(s0: State, s: State, t: nat, snapshot: seq<(Satellite, HoldId)>)
    requires Inherits(s0, s) && Covered(s0, snapshot) && (s.listening ==> s0.listening)
    ensures Inherits(s0, RenewLoop(s, t, snapshot))
  {
    if snapshot == [] {
      EndInherits(s0, s, t);
    } else {
      var (e, id) := snapshot[0];
      assert snapshot[0] in snapshot && forall p | p in snapshot[1..] :: p in snapshot;
      if Talking(s, e) {
        SendInherits(s0, s, t, ForRenew(e, id), AwaitRenew(e, id, s.counter, snapshot[1..]));
      } else if e in s.holds {
        SendReleaseInherits(s0, s, t, e, RenewRest(snapshot[1..]));
      } else {
        RenewLoopInherits(s0, s, t, snapshot[1..]);
      }
    }
  }

  lemma {:induction false} ReleaseLoopInherits(s0: State, s: State, t: nat, satellites: seq<Satellite>)
    requires Inherits(s0, s) && (s.listening ==> s0.listening)
    ensures Inherits(s0, ReleaseLoop(s, t, satellites))
  {
    if satellites == [] {
      EndInherits(s0, s, t);
    } else if satellites[0] in s.holds {
      SendReleaseInherits(s0, s, t, satellites[0], ReleaseRest(satellites[1..]));
    } else {
      ReleaseLoopInherits(s0, s, t, satellites[1..]);
    }
  }

  lemma ContinueInherits(s0: State, s: State, t: nat, rest: Then)
    requires Inherits(s0, s) && RestCovered(s0, rest) && (s.listening ==> s0.listening)
    ensures Inherits(s0, Continue(s, t, rest))
  {
    match rest
    case Finish => EndInherits(s0, s, t);
    case RenewRest(snapshot) => RenewLoopInherits(s0, s, t, snapshot);
    case ReleaseRest(satellites) => ReleaseLoopInherits(s0, s, t, satellites);
  }

  lemma DuckForInherits(s0: State, s: State, t: nat, e: Satellite, targets: bool, rest: Then)
    requires Inherits(s0, s) && RestCovered(s0, rest) && (s.listening ==> s0.listening)
    ensures Inherits(s0, DuckFor(s, t, e, targets, rest))
  {
    if targets {
      SendInherits(s0, s, t, ForStart(e), AwaitStart(e, s.counter, rest));
    } else {
      ContinueInherits(s0, s, t, rest);
    }
  }

  lemma TrackInherits(s: State, t: nat, e: Satellite, id: HoldId, rest: Then)
    requires Inherits(s, s) && RestCovered(s, rest) && Granted(s, e, id)
    ensures Inherits(s, Track(s, t, e, id, rest))
  {
    var s1 := s.(holds := s.holds[e := id]);
    assert forall x | x in s.holds :: Tracks(s, x, s.holds[x]);
    HoldsInherit(s, s, s.holds[e := id]);
    if Talking(s1, e) {
      ContinueInherits(s, s1, t, rest);
    } else {
      SendReleaseInherits(s, s1, t, e, rest);
    }
  }

  lemma SameInherits(s: State)
    requires Inv(s)
    ensures Inherits(s, s)
  {
    forall r | r in s.answers ensures r < s.counter {
      assert AnswerOk(s, r);
    }
    forall t, e, id | WalksIn(s, t, e, id) ensures Going(s, e, id) {
    }
  }

  lemma TaskIsCovered(s: State, t: nat)
    requires t in s.tasks
    ensures RestCovered(s, RestOf(s.tasks[t]))
  {
    var rest := RestOf(s.tasks[t]);
    if rest.RenewRest? {
      forall p | p in rest.snapshot ensures Going(s, p.0, p.1) {
        assert (p.0, p.1) in rest.snapshot;
        assert WalksIn(s, t, p.0, p.1);
      }
    }
  }

  lemma ResumeInherits(s: State, step: Step)
    requires Inv(s) && Enabled(s, step) && Resumes(step)
    ensures Inherits(s, Resume(s, step))
  {
    var t := step.t;
    var task := s.tasks[t];
    SameInherits(s);
    TaskIsCovered(s, t);
    match step
    case RunDuck(_, targets) => DuckForInherits(s, s, t, task.e, targets, Finish);
    case RunUnduck(_) =>
      if task.e in s.holds { SendReleaseInherits(s, s, t, task.e, Finish); } else { EndInherits(s, s, t); }
    case StartAnswered(_) =>
      assert GrantedIn(s, t, task.e, s.answers[task.req].id);
      TrackInherits(s, t, task.e, s.answers[task.req].id, task.rest);
    case ReleaseAnswered(_) => ContinueInherits(s, s, t, task.rest);
    case RenewAnswered(_, targets) => RenewAnsweredInherits(s, t, targets);
    case RequestFailed(_) => ContinueInherits(s, s, t, RestOf(task));
  }

  lemma RenewAnsweredInherits(s: State, t: nat, targets: bool)
    requires Inherits(s, s) && Enabled(s, RenewAnswered(t, targets))
    ensures Inherits(s, Resume(s, RenewAnswered(t, targets)))
  {
    var task := s.tasks[t];
    TaskIsCovered(s, t);
    if s.answers[task.req].alive {
      ContinueInherits(s, s, t, RenewRest(task.snapshot));
    } else {
      assert forall x | x in s.holds :: Tracks(s, x, s.holds[x]);
      HoldsInherit(s, s, s.holds - {task.e});
      DuckForInherits(s, s.(holds := s.holds - {task.e}), t, task.e, targets, RenewRest(task.snapshot));
    }
  }

  // A step that leaves the network alone and starts coroutines that remember nothing.
  lemma QuietInherits(s: State, n: State)
    requires Inherits(s, s) && s.counter <= n.counter
    requires n.sent == s.sent && n.open <= s.open && n.answers == s.answers && n.owner == s.owner
    requires (n.holds == s.holds && (n.listening ==> s.listening)) || n.holds == map[]
    requires forall t | t in n.tasks ::
               (t in s.tasks && n.tasks[t] == s.tasks[t]) || n.tasks[t].DuckSpawned? || n.tasks[t].UnduckSpawned?
    ensures Inherits(s, n)
  {
    forall t, e, id | WalksIn(n, t, e, id) ensures WalksIn(s, t, e, id) {
    }
    forall q, e, id | Asks(n, q, e, id) ensures Asks(s, q, e, id) {
    }
    forall q, e, id | Gives(n, q, e, id) ensures Gives(s, q, e, id) {
    }
    forall t, e, id | GrantedIn(n, t, e, id) ensures GrantedIn(s, t, e, id) {
    }
    forall e, id | Tracks(n, e, id) ensures Tracks(s, e, id) {
    }
  }

  // Request `r` is answered with `a`.
  lemma AnsweredInherits(s: State, n: State, r: nat, a: Answer)
    requires Inv(s) && r in s.sent
    requires n.holds == s.holds && n.tasks == s.tasks && n.sent == s.sent && n.listening == s.listening
    requires n.open <= s.open && n.counter == s.counter && n.answers == s.answers[r := a]
    requires a.Held? ==>
               s.sent[r].purpose.ForStart? && a.id == NextId(s) == n.nextHold && Owns(n, s.sent[r].purpose.e, a.id)
    ensures Inherits(s, n)
  {
    SameInherits(s);
    forall t, e, id | WalksIn(n, t, e, id) ensures WalksIn(s, t, e, id) {
    }
    forall q, e, id | Asks(n, q, e, id) ensures Asks(s, q, e, id) {
    }
    forall q, e, id | Gives(n, q, e, id) ensures Gives(s, q, e, id) {
    }
    forall e, id | Tracks(n, e, id) ensures Tracks(s, e, id) {
    }
    forall t, e, id | GrantedIn(n, t, e, id)
      ensures GrantedIn(s, t, e, id) || (id == NextId(s) == n.nextHold && Owns(n, e, id))
    {
      assert TaskOk(s, s.tasks[t]);
    }
  }

  lemma ServeStartInherits(s: State, r: nat, e: Satellite)
    requires Inv(s) && r in s.sent && s.sent[r].purpose == ForStart(e)
    ensures Inherits(s, ServedStart(s, r, e))
  {
    AnsweredInherits(s, ServedStart(s, r, e), r, Held(NextId(s)));
  }

  lemma ServeInherits(s: State, r: nat)
    requires Inv(s) && r in s.sent
    ensures Inherits(s, Answered(s, r))
  {
    match s.sent[r].purpose
    case ForStart(e) => ServeStartInherits(s, r, e);
    case ForRenew(_, id) =>
      var n := ServedRenew(s, r, id);
      AnsweredInherits(s, n, r, Alive(id in s.leases));
    case ForRelease(_, id) =>
      var n := ServedRelease(s, r, id);
      AnsweredInherits(s, n, r, Released);
  }

  lemma OutsideInherits(s: State, step: Step)
    requires Inv(s) && Enabled(s, step) && Outside(step) && !step.DaemonRestart?
    ensures Inherits(s, Happen(s, step))
  {
    if step.Serve? {
      ServeInherits(s, step.r);
    } else {
      SameInherits(s);
      QuietInherits(s, Happen(s, step));
    }
  }

  // A coroutine that releases is started in `s1`, which is `s` with the user's change.
  lemma ReleaseAllInherits(s: State, s1: State, order: seq<Satellite>)
    requires Inv(s) && (s1 == Disable(s) || s1 == s.(listening := false))
    ensures Inherits(s, ReleaseAll(s1, order))
  {
    var s2 := s1.(counter := s.counter + 1);
    SameInherits(s);
    QuietInherits(s, s2);
    ReleaseLoopInherits(s, s2, s.counter, order);
  }

  lemma CountedInherits(s: State)
    requires Inv(s)
    ensures Inherits(s, s.(counter := s.counter + 1))
  {
    SameInherits(s);
    QuietInherits(s, s.(counter := s.counter + 1));
  }

  lemma SnapshotIsCovered(s: State, order: seq<Satellite>)
    requires s.listening && forall e | e in order :: e in s.holds
    ensures Covered(s, Snapshot(s, order))
  {
    forall p | p in Snapshot(s, order) ensures Going(s, p.0, p.1) {
      assert Tracks(s, p.0, p.1);
    }
  }

  lemma RenewAllInherits(s: State, snapshot: seq<(Satellite, HoldId)>)
    requires Inv(s) && s.listening && Covered(s, snapshot)
    ensures Inherits(s, RenewAll(s, snapshot))
  {
    var s1 := s.(counter := s.counter + 1);
    CountedInherits(s);
    RenewLoopInherits(s, s1, s.counter, snapshot);
    assert RenewAll(s, snapshot) == RenewLoop(s1, s.counter, snapshot);
  }

  lemma ListenInherits(s: State, e: Satellite, active: bool)
    requires Inv(s)
    ensures Inherits(s, Listen(SetActive(s, e, active), e, active))
  {
    SameInherits(s);
    var s1 := SetActive(s, e, active);
    match React(s1.enabled, e in s1.holds, active)
    case Ignore => QuietInherits(s, s1);
    case Duck => QuietInherits(s, Spawn(s1, DuckSpawned(e, s1.now)));
    case Unduck => QuietInherits(s, Spawn(s1, UnduckSpawned(e)));
  }

  lemma SatelliteInherits(s: State, e: Satellite, active: bool)
    requires Inv(s)
    ensures Inherits(s, SetActive(s, e, active)) && Inherits(s, Listen(SetActive(s, e, active), e, active))
  {
    SameInherits(s);
    QuietInherits(s, SetActive(s, e, active));
    ListenInherits(s, e, active);
  }

  lemma StepInherits(s: State, step: Step)
    requires Inv(s) && Enabled(s, step) && !step.DaemonRestart?
    ensures Inherits(s, Apply(s, step))
  {
    if Resumes(step) {
      ResumeInherits(s, step);
    } else if Outside(step) {
      OutsideInherits(s, step);
    } else {
      match step
      case SatelliteState(e, active) => SatelliteInherits(s, e, active);
      case TurnOff(order) => ReleaseAllInherits(s, Disable(s), order);
      case Stop(order) => ReleaseAllInherits(s, s.(listening := false), order);
      case RenewTick(order) =>
        SnapshotIsCovered(s, order);
        RenewAllInherits(s, Snapshot(s, order));
    }
  }

  // Where a lease after a step is from: it was there, it was handed out, or a request renewed it.
  ghost predicate LeaseFrom(s: State, step: Step, n: State, id: HoldId)
    requires id in n.leases
  {
    || (id in s.leases && n.leases[id] == s.leases[id])
    || (HandsOut(s, step, id) && n.leases[id] == s.now + TTL)
    || (step.Serve? && id in s.leases && n.leases[id] == s.now + TTL && exists e :: Asks(s, step.r, e, id))
  }

  lemma {:induction false} StartedLeases(s: State, r: nat, e: Satellite, id: HoldId)
    requires r in s.open && r in s.sent && s.sent[r].purpose == ForStart(e)
    ensures id in ServedStart(s, r, e).leases ==> LeaseFrom(s, Serve(r), ServedStart(s, r, e), id)
  {
  }

  lemma {:induction false} RenewedLeases(s: State, r: nat, e: Satellite, other: HoldId, id: HoldId)
    requires r in s.open && r in s.sent && s.sent[r].purpose == ForRenew(e, other)
    ensures id in ServedRenew(s, r, other).leases ==> LeaseFrom(s, Serve(r), ServedRenew(s, r, other), id)
  {
    assert other == id ==> Asks(s, r, e, id);
  }

  lemma {:induction false} ServedLeases(s: State, r: nat, id: HoldId)
    requires r in s.open && r in s.sent
    ensures id in Answered(s, r).leases ==> LeaseFrom(s, Serve(r), Answered(s, r), id)
  {
    match s.sent[r].purpose
    case ForStart(e) => StartedLeases(s, r, e, id);
    case ForRenew(e, other) => RenewedLeases(s, r, e, other, id);
    case ForRelease(_, _) =>
  }

  lemma {:induction false} LeasesFrom(s: State, step: Step, id: HoldId)
    requires Enabled(s, step)
    ensures id in Apply(s, step).leases ==> LeaseFrom(s, step, Apply(s, step), id)
  {
    if step.Serve? {
      assert Apply(s, step) == Answered(s, step.r);
      ServedLeases(s, step.r, id);
    } else if step.Sweep? {
      assert Apply(s, step) == Expire(s);
    } else if step.DaemonRestart? {
      assert Apply(s, step) == Restarted(s);
    }
  }

  // A hold keeps its satellite until the daemon restarts.
  lemma {:induction false} OwnersStay(s: State, step: Step, e: Satellite, id: HoldId)
    requires Enabled(s, step) && !step.DaemonRestart? && Owns(s, e, id) && id <= s.nextHold
    ensures Owns(Apply(s, step), e, id) && id <= Apply(s, step).nextHold
  {
    if step.Serve? {
      AnsweredOwners(s, step.r, e, id);
    }
  }

  lemma {:induction false} AnsweredOwners(s: State, r: nat, e: Satellite, id: HoldId)
    requires r in s.sent && Owns(s, e, id) && id <= s.nextHold
    ensures Owns(Answered(s, r), e, id) && id <= Answered(s, r).nextHold
  {
  }

  // Who has talked has talked.
  lemma {:induction false} TalkStays(s: State, step: Step, e: Satellite, t: Time)
    requires Enabled(s, step) && TalkedSince(s, e, t)
    ensures TalkedSince(Apply(s, step), e, t)
  {
    if Resumes(step) {
      assert Acted(s, Resume(s, step));
    } else if Outside(step) {
      TalkStaysOutside(s, step, e, t);
    } else {
      match step
      case SatelliteState(x, active) =>
        assert TalkedSince(SetActive(s, x, active), e, t);
      case TurnOff(order) =>
        assert TalkedSince(Disable(s), e, t);
        assert Acted(Disable(s), ReleaseAll(Disable(s), order));
      case Stop(order) => assert Acted(s.(listening := false), ReleaseAll(s.(listening := false), order));
      case RenewTick(order) => assert Acted(s, RenewAll(s, Snapshot(s, order)));
    }
  }

  lemma {:induction false} TalkStaysOutside(s: State, step: Step, e: Satellite, t: Time)
    requires Enabled(s, step) && Outside(step) && TalkedSince(s, e, t)
    ensures TalkedSince(Happen(s, step), e, t)
  {
    if step.Serve? {
      match s.sent[step.r].purpose
      case ForStart(_) =>
      case ForRenew(_, _) =>
      case ForRelease(_, _) =>
    }
  }
}
