/**
 One hold from the start that created it to the next daemon restart, which ends every lease: when the satellite it was
 started for bounds it, and when nobody else's name gets attached to it.
 */
module VoiceDuckHold {
  import opened VoiceDuck
  import opened VoiceDuckLease
  import opened VoiceDuckMemory

  // Step `k` serves the start of `e` with `id`, and the daemon stays up until state `i`.
  ghost predicate Born(states: seq<State>, steps: seq<Step>, k: nat, i: nat, e: Satellite, id: HoldId)
    requires |states| == |steps| + 1 && k < i <= |steps|
  {
    && HandsOut(states[k], steps[k], id) && states[k].sent[steps[k].r].purpose.e == e
    && forall j | k < j < i :: !steps[j].DaemonRestart?
  }

  lemma {:induction false} OwnedFromBirth(states: seq<State>, steps: seq<Step>, k: nat, i: nat, e: Satellite, id: HoldId)
    requires Path(states, steps) && k < i <= |steps| && Born(states, steps, k, i, e, id)
    ensures Owns(states[i], e, id) && id <= states[i].nextHold
    decreases i
  {
    PathStep(states, steps, i - 1);
    if i == k + 1 {
      assert states[i] == Answered(states[k], steps[k].r);
    } else {
      OwnedFromBirth(states, steps, k, i - 1, e, id);
      OwnersStay(states[i - 1], steps[i - 1], e, id);
    }
  }

  /** Every live hold was born, of the start of its owner, since the last daemon restart. */
  lemma {:induction false} LiveHoldWasBorn(states: seq<State>, steps: seq<Step>, i: nat, id: HoldId)
    returns (k: nat, e: Satellite)
    requires Path(states, steps) && Initial(states[0]) && i <= |steps| && id in states[i].leases
    ensures k < i && Born(states, steps, k, i, e, id) && Owns(states[i], e, id)
    decreases i
  {
    assert i > 0;
    PathStep(states, steps, i - 1);
    LeasesFrom(states[i - 1], steps[i - 1], id);
    if HandsOut(states[i - 1], steps[i - 1], id) {
      k, e := i - 1, states[i - 1].sent[steps[i - 1].r].purpose.e;
    } else {
      k, e := LiveHoldWasBorn(states, steps, i - 1, id);
      assert steps[i - 1].DaemonRestart? ==> states[i] == Restarted(states[i - 1]);
    }
    OwnedFromBirth(states, steps, k, i, e, id);
  }

  // --- the lease bound of its own satellite -----------------------------------------------------

  // A renewal on its way for another satellite that may still be served, when `e` has been silent for too long.
  predicate LateAsk(s: State, q: nat, x: Satellite, e: Satellite, id: HoldId) {
    Asks(s, q, x, id) && s.now <= s.sent[q].at + s.limits.delay && !TalkedSince(s, e, s.sent[q].at - s.limits.delay)
  }

  /** Somebody else may get the hold of `e` renewed: its id is tracked for another satellite while the renew timer runs,
      a renew walk has yet to come to it, or a renewal of it is on its way. */
  ghost predicate Threatened(s: State, e: Satellite, id: HoldId) {
    || (s.listening && exists x :: x != e && Tracks(s, x, id))
    || (exists x :: x != e && Walks(s, x, id))
    || (exists q, x :: x != e && LateAsk(s, q, x, e, id))
  }

  predicate Bounded(s: State, e: Satellite, id: HoldId) {
    id in s.leases ==> TalkedSince(s, e, s.leases[id] - TTL - 2 * s.limits.delay)
  }

  ghost predicate Sheltered(s: State, e: Satellite, id: HoldId) {
    Owns(s, e, id) && id <= s.nextHold && !Threatened(s, e, id) && Bounded(s, e, id)
  }

  lemma {:induction false} GrantedIsOwned(s: State, e: Satellite, id: HoldId)
    requires Inv(s) && Granted(s, e, id)
    ensures Owns(s, e, id)
  {
    var t :| GrantedIn(s, t, e, id);
    assert TaskOk(s, s.tasks[t]);
    assert AnswerOk(s, s.tasks[t].req);
  }

  lemma {:induction false} OldAsk(s: State, n: State, q: nat, x: Satellite, id: HoldId)
    requires Inherits(s, n) && Asks(n, q, x, id) && !Going(s, x, id)
    ensures Asks(s, q, x, id) && n.sent[q] == s.sent[q]
  {
  }

  // Nothing becomes a late request that was not one.
  lemma {:induction false} NoNewLateAsk(s: State, n: State, q: nat, x: Satellite, e: Satellite, id: HoldId)
    requires Inherits(s, n) && n.limits == s.limits && s.now <= n.now && !Going(s, x, id) && !LateAsk(s, q, x, e, id)
    requires forall t | TalkedSince(s, e, t) :: TalkedSince(n, e, t)
    ensures !LateAsk(n, q, x, e, id)
  {
    if Asks(n, q, x, id) {
      OldAsk(s, n, q, x, id);
    }
  }

  lemma {:induction false} NotThreatenedLater(s: State, step: Step, e: Satellite, id: HoldId)
    requires Inv(s) && Enabled(s, step) && !step.DaemonRestart? && Sheltered(s, e, id)
    ensures !Threatened(Apply(s, step), e, id)
  {
    var n := Apply(s, step);
    StepInherits(s, step);
    forall x | x != e && Tracks(n, x, id) ensures !n.listening {
      if Granted(s, x, id) {
        GrantedIsOwned(s, x, id);
      }
    }
    assert forall x | x != e :: !Going(s, x, id);
    forall t | TalkedSince(s, e, t) ensures TalkedSince(n, e, t) {
      TalkStays(s, step, e, t);
    }
    forall t, x | x != e ensures !WalksIn(n, t, x, id) {
    }
    forall q, x | x != e ensures !LateAsk(n, q, x, e, id) {
      NoNewLateAsk(s, n, q, x, e, id);
    }
  }

  lemma {:induction false} StaysBounded(s: State, step: Step, e: Satellite, id: HoldId)
    requires Inv(s) && Enabled(s, step) && !step.DaemonRestart? && Sheltered(s, e, id)
    ensures Bounded(Apply(s, step), e, id)
  {
    var n := Apply(s, step);
    if id in n.leases {
      LeasesFrom(s, step, id);
      if id in s.leases && n.leases[id] == s.leases[id] {
        TalkStays(s, step, e, n.leases[id] - TTL - 2 * n.limits.delay);
      } else {
        var x :| Asks(s, step.r, x, id);
        assert RequestOk(s, step.r) && !LateAsk(s, step.r, x, e, id);
        TalkStays(s, step, e, s.now - 2 * s.limits.delay);
      }
    }
  }

  lemma {:induction false} StaysSheltered(s: State, step: Step, e: Satellite, id: HoldId)
    requires Inv(s) && Enabled(s, step) && !step.DaemonRestart? && Sheltered(s, e, id)
    ensures Sheltered(Apply(s, step), e, id)
  {
    NotThreatenedLater(s, step, e, id);
    StaysBounded(s, step, e, id);
    OwnersStay(s, step, e, id);
  }

  // A hold just born is within the bound.
  lemma {:induction false} BornBounded(s: State, r: nat)
    requires Inv(s) && Enabled(s, Serve(r)) && Starts(s, Serve(r))
    ensures var n, e, id := Apply(s, Serve(r)), s.sent[r].purpose.e, NextId(s);
            && n == ServedStart(s, r, e)
            && Owns(n, e, id) && id == n.nextHold && n.leases[id] == n.now + TTL && Bounded(n, e, id)
  {
    assert RequestOk(s, r);
  }

  lemma {:induction false} ShelteredAtBirth(states: seq<State>, steps: seq<Step>, k: nat, e: Satellite, id: HoldId)
    requires Path(states, steps) && k < |steps| && Inv(states[k]) && Born(states, steps, k, k + 1, e, id)
    requires !Threatened(states[k + 1], e, id)
    ensures Sheltered(states[k + 1], e, id)
  {
    PathStep(states, steps, k);
    BornBounded(states[k], steps[k].r);
  }

  lemma {:induction false} ShelteredNext(states: seq<State>, steps: seq<Step>, i: nat, e: Satellite, id: HoldId)
    requires Path(states, steps) && i < |steps| && Inv(states[i]) && !steps[i].DaemonRestart?
    requires Sheltered(states[i], e, id)
    ensures Sheltered(states[i + 1], e, id)
  {
    PathStep(states, steps, i);
    StaysSheltered(states[i], steps[i], e, id);
  }

  lemma {:induction false} ShelteredFromBirth(
    states: seq<State>, steps: seq<Step>, k: nat, i: nat, e: Satellite, id: HoldId)
    requires Path(states, steps) && Initial(states[0]) && k < i <= |steps| && Born(states, steps, k, i, e, id)
    requires !Threatened(states[k + 1], e, id)
    ensures Sheltered(states[i], e, id)
    decreases i
  {
    RunKeepsInv(states, steps, i - 1);
    if i == k + 1 {
      ShelteredAtBirth(states, steps, k, e, id);
    } else {
      ShelteredFromBirth(states, steps, k, i - 1, e, id);
      ShelteredNext(states, steps, i - 1, e, id);
    }
  }

  /** In any run, restarts and reloads included: a live hold runs out at most one lease and two delays after the satellite
      it was started for last talked, and the daemon drops it at most one sweep later, unless it was threatened at birth. */
  lemma {:induction false} LeaseBound(states: seq<State>, steps: seq<Step>, i: nat, id: HoldId)
    returns (k: nat, e: Satellite)
    requires Path(states, steps) && Initial(states[0]) && i <= |steps| && id in states[i].leases
    ensures k < i && Born(states, steps, k, i, e, id)
    ensures !Threatened(states[k + 1], e, id) ==>
              var n := states[i];
              && Owns(n, e, id)
              && TalkedSince(n, e, n.leases[id] - TTL - 2 * n.limits.delay) && n.now < n.leases[id] + n.limits.sweep
  {
    k, e := LiveHoldWasBorn(states, steps, i, id);
    RunKeepsInv(states, steps, i);
    assert LeaseOk(states[i], id);
    if !Threatened(states[k + 1], e, id) {
      ShelteredFromBirth(states, steps, k, i, e, id);
    }
  }

  /** Once its satellite has been silent for longer than that, a hold that was not threatened at birth is gone. */
  lemma {:induction false} SilenceEndsTheDuck(
    states: seq<State>, steps: seq<Step>, k: nat, i: nat, e: Satellite, id: HoldId)
    requires Path(states, steps) && Initial(states[0]) && k < i <= |steps| && Born(states, steps, k, i, e, id)
    requires !Threatened(states[k + 1], e, id)
    requires var n := states[i]; !TalkedSince(n, e, n.now - TTL - 2 * n.limits.delay - n.limits.sweep)
    ensures id !in states[i].leases
  {
    ShelteredFromBirth(states, steps, k, i, e, id);
    RunKeepsInv(states, steps, i);
    assert forall other | other in states[i].leases :: LeaseOk(states[i], other);
  }

  // --- whose hold it is --------------------------------------------------------------------------

  /** The daemon serves a start and hands out an id that Home Assistant still remembers for another satellite: it has
      restarted and counts from 1 again. */
  ghost predicate MixesUp(s: State, step: Step) {
    Starts(s, step) && exists x :: x != s.sent[step.r].purpose.e && Remembers(s, x, NextId(s))
  }

  // Nobody but its owner is remembered with `id`.
  ghost predicate OnlyFor(s: State, e: Satellite, id: HoldId) {
    Owns(s, e, id) && id <= s.nextHold && forall x | x != e :: !Remembers(s, x, id)
  }

  lemma {:induction false} RememberedFrom(s: State, n: State, e: Satellite, id: HoldId)
    requires Inherits(s, n) && Remembers(n, e, id)
    ensures Remembers(s, e, id) || Granted(s, e, id)
  {
    if Walks(n, e, id) {
      var t :| WalksIn(n, t, e, id);
    } else if !Tracks(n, e, id) {
      var q :| Asks(n, q, e, id) || Gives(n, q, e, id);
    }
  }

  lemma {:induction false} StaysOnlyFor(s: State, step: Step, e: Satellite, id: HoldId)
    requires Inv(s) && Enabled(s, step) && !step.DaemonRestart? && OnlyFor(s, e, id)
    ensures OnlyFor(Apply(s, step), e, id)
  {
    OwnersStay(s, step, e, id);
    StepInherits(s, step);
    forall x | x != e ensures !Remembers(Apply(s, step), x, id) {
      if Remembers(Apply(s, step), x, id) {
        RememberedFrom(s, Apply(s, step), x, id);
        GrantedIsOwned(s, x, id);
      }
    }
  }

  lemma {:induction false} BornOnlyFor(s: State, r: nat)
    requires Inv(s) && Enabled(s, Serve(r)) && Starts(s, Serve(r)) && !MixesUp(s, Serve(r))
    ensures OnlyFor(Apply(s, Serve(r)), s.sent[r].purpose.e, NextId(s))
  {
    var n := Apply(s, Serve(r));
    BornBounded(s, r);
    StepInherits(s, Serve(r));
    forall x | x != s.sent[r].purpose.e ensures !Remembers(n, x, NextId(s)) {
      if Remembers(n, x, NextId(s)) {
        RememberedFrom(s, n, x, NextId(s));
        GrantedIsOwned(s, x, NextId(s));
      }
    }
  }

  /** In any run: unless its start was a mix-up, Home Assistant never tracks, renews or releases a hold for another than
      the satellite it was started for. */
  lemma {:induction false} OnlyOwnHolds(
    states: seq<State>, steps: seq<Step>, k: nat, i: nat, e: Satellite, id: HoldId)
    requires Path(states, steps) && Initial(states[0]) && k < i <= |steps| && Born(states, steps, k, i, e, id)
    requires !MixesUp(states[k], steps[k])
    ensures OnlyFor(states[i], e, id)
    decreases i
  {
    PathStep(states, steps, i - 1);
    RunKeepsInv(states, steps, i - 1);
    if i == k + 1 {
      BornOnlyFor(states[k], steps[k].r);
    } else {
      OnlyOwnHolds(states, steps, k, i - 1, e, id);
      StaysOnlyFor(states[i - 1], steps[i - 1], e, id);
    }
  }

  // Home Assistant remembers no hold and nothing is on its way: ids cannot be mistaken after a restart.
  predicate Forgetful(s: State) {
    s.holds == map[] && s.tasks == map[] && s.open == {}
  }

  // Every daemon restart of the run meets a Home Assistant that remembers nothing.
  ghost predicate CleanRestarts(states: seq<State>, steps: seq<Step>)
    requires |states| == |steps| + 1
  {
    forall i {:trigger Forgetful(states[i])} | 0 <= i < |steps| :: steps[i].DaemonRestart? ==> Forgetful(states[i])
  }

  ghost predicate AllKnown(s: State) {
    forall e, id | Remembers(s, e, id) :: Owns(s, e, id)
  }

  /** If the daemon only restarts while nothing is remembered, whatever is remembered for a satellite names a hold that
      was started for it, and no start is ever a mix-up. */
  lemma {:induction false} RememberedIsKnown(states: seq<State>, steps: seq<Step>, i: nat)
    requires Path(states, steps) && CleanRestarts(states, steps) && Initial(states[0]) && i <= |steps|
    ensures AllKnown(states[i]) && forall step :: !MixesUp(states[i], step)
    decreases i
  {
    if i > 0 {
      RememberedIsKnown(states, steps, i - 1);
      RunKeepsInv(states, steps, i - 1);
      KnownNext(states, steps, i - 1);
    }
    RunKeepsInv(states, steps, i);
    NextIsUnknown(states[i]);
  }

  lemma {:induction false} KnownNext(states: seq<State>, steps: seq<Step>, i: nat)
    requires Path(states, steps) && CleanRestarts(states, steps) && i < |steps|
    requires Inv(states[i]) && AllKnown(states[i])
    ensures AllKnown(states[i + 1])
  {
    PathStep(states, steps, i);
    assert steps[i].DaemonRestart? ==> Forgetful(states[i]);
    StaysKnown(states[i], steps[i]);
  }

  lemma {:induction false} NextIsUnknown(s: State)
    requires Inv(s) && AllKnown(s)
    ensures forall step :: !MixesUp(s, step)
  {
    assert forall e :: !Owns(s, e, NextId(s));
  }

  lemma {:induction false} StaysKnown(s: State, step: Step)
    requires Inv(s) && Enabled(s, step) && AllKnown(s) && (step.DaemonRestart? ==> Forgetful(s))
    ensures AllKnown(Apply(s, step))
  {
    var n := Apply(s, step);
    if step.DaemonRestart? {
      assert n == Restarted(s);
      assert forall e, id :: !Remembers(n, e, id);
    } else {
      StepInherits(s, step);
      forall e, id | Remembers(n, e, id) ensures Owns(n, e, id) {
        RememberedFrom(s, n, e, id);
        if Granted(s, e, id) {
          GrantedIsOwned(s, e, id);
        }
        OwnersStay(s, step, e, id);
      }
    }
  }
}
