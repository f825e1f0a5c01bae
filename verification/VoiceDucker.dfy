/**
 The ducker as an object: each stretch of code between two awaits, taking the object's fields through the same change
 as the step machine. What a stretch returns is the request it sends, if it gets to one.
 */
module VoiceDucker {
  import opened Wrappers
  import opened VoiceDuck
  import opened VoiceDuckWalk

  // From `s` to `n` exactly the request `p` was sent.
  predicate Sends(s: State, n: State, p: Purpose) {
    n.sent == s.sent[s.counter := Request(p, s.now)]
  }

  // Coroutine `t` waits at an await, with `rest` still to do.
  predicate Waits(n: State, t: nat, rest: Then) {
    t in n.tasks && RestOf(n.tasks[t]) == rest
  }

  /** A renew walk from `s`, on to its next await: it passes over exactly the leading entries that neither talk nor are
      tracked. For the next it sends `send` - a talker's hold is renewed under the id of the snapshot, a silent one's is
      forgotten and released under the id that is tracked - and waits with the rest. */
  predicate WalksOn(s: State, n: State, t: nat, snapshot: seq<(Satellite, HoldId)>, send: Option<Purpose>,
                    rest: seq<(Satellite, HoldId)>) {
    match send
    case None =>
      && rest == [] && n.holds == s.holds && n.sent == s.sent && t !in n.tasks
      && (forall i | 0 <= i < |snapshot| :: Idle(s, snapshot[i].0))
    case Some(p) =>
      && |rest| < |snapshot|
      && var k := |snapshot| - |rest| - 1;
      && rest == snapshot[k + 1..] && (forall i | 0 <= i < k :: Idle(s, snapshot[i].0))
      && !Idle(s, snapshot[k].0) && p == Due(s, snapshot[k].0, snapshot[k].1)
      && n.holds == (if p.ForRenew? then s.holds else s.holds - {snapshot[k].0})
      && Sends(s, n, p) && Waits(n, t, RenewRest(rest))
  }

  lemma {:induction false} ReleaseSends(s: State, t: nat, e: Satellite, rest: Then)
    ensures e in s.holds ==>
              var n := SendRelease(s, t, e, rest);
              Sends(s, n, ForRelease(e, s.holds[e])) && Waits(n, t, rest) && n.holds == s.holds - {e}
  {
  }

  lemma {:induction false} TrackSends(s: State, t: nat, e: Satellite, id: HoldId, rest: Then)
    ensures var n := Track(s, t, e, id, rest);
            && (!Talking(s, e) ==> Sends(s, n, ForRelease(e, id)) && Waits(n, t, rest) && n.holds == s.holds - {e})
            && (Talking(s, e) && rest.Finish? ==> n.sent == s.sent && n.holds == s.holds[e := id])
            && (Talking(s, e) && rest.RenewRest? ==> n == RenewLoop(s.(holds := s.holds[e := id]), t, rest.snapshot))
  {
    ReleaseSends(s.(holds := s.holds[e := id]), t, e, rest);
  }

  lemma {:induction false} WalkActs(s: State, t: nat, snapshot: seq<(Satellite, HoldId)>, k: nat)
    requires k < |snapshot| && PassesOver(s, snapshot, k)
    ensures var n := RenewLoop(s, t, snapshot);
            WalksOn(s, n, t, snapshot, Some(Due(s, snapshot[k].0, snapshot[k].1)), snapshot[k + 1..])
  {
    RenewalsNextRequest(s, t, snapshot, k);
  }

  lemma {:induction false} WalkEnds(s: State, t: nat, snapshot: seq<(Satellite, HoldId)>)
    requires forall i | 0 <= i < |snapshot| :: Idle(s, snapshot[i].0)
    ensures WalksOn(s, RenewLoop(s, t, snapshot), t, snapshot, None, [])
  {
    RenewalsNextRequest(s, t, snapshot, |snapshot|);
  }

  /** A release walk, likewise. */
  predicate ReleasesOn(s: State, n: State, t: nat, satellites: seq<Satellite>, send: Option<Purpose>,
                       rest: seq<Satellite>) {
    match send
    case None =>
      && rest == [] && n.holds == s.holds && n.sent == s.sent && t !in n.tasks
      && (forall i | 0 <= i < |satellites| :: satellites[i] !in s.holds)
    case Some(p) =>
      && |rest| < |satellites|
      && var k := |satellites| - |rest| - 1;
      && rest == satellites[k + 1..] && (forall i | 0 <= i < k :: satellites[i] !in s.holds)
      && satellites[k] in s.holds && p == ForRelease(satellites[k], s.holds[satellites[k]])
      && n.holds == s.holds - {satellites[k]} && Sends(s, n, p) && Waits(n, t, ReleaseRest(rest))
  }

  lemma {:induction false} ReleaseActs(s: State, t: nat, satellites: seq<Satellite>, k: nat)
    requires k < |satellites| && satellites[k] in s.holds && forall i | 0 <= i < k :: satellites[i] !in s.holds
    ensures var n := ReleaseLoop(s, t, satellites);
            var p := ForRelease(satellites[k], s.holds[satellites[k]]);
            ReleasesOn(s, n, t, satellites, Some(p), satellites[k + 1..])
  {
    ReleasesNextRequest(s, t, satellites, k);
  }

  lemma {:induction false} ReleaseEnds(s: State, t: nat, satellites: seq<Satellite>)
    requires forall i | 0 <= i < |satellites| :: satellites[i] !in s.holds
    ensures ReleasesOn(s, ReleaseLoop(s, t, satellites), t, satellites, None, [])
  {
    ReleasesNextRequest(s, t, satellites, |satellites|);
  }

  class Ducker {
    var enabled: bool
    var holds: map<Satellite, HoldId>

    ghost predicate In(s: State)
      reads this
    {
      enabled == s.enabled && holds == s.holds
    }

    constructor (enabled: bool)
      ensures this.enabled == enabled && holds == map[]
    {
      this.enabled, holds := enabled, map[];
    }

    /** A state event: which coroutine to start, if any. */
    method SatelliteChanged(e: Satellite, active: bool, ghost s: State) returns (r: Reaction)
      requires In(s)
      ensures r == Duck <==> active && s.enabled && e !in s.holds
      ensures r == Unduck <==> !(active && s.enabled) && e in s.holds
      ensures Listen(s, e, active) ==
              match r
              case Duck => Spawn(s, DuckSpawned(e, s.now))
              case Unduck => Spawn(s, UnduckSpawned(e))
              case Ignore => s
    {
      if active && enabled {
        if e !in holds {
          return Duck;
        }
      } else if e in holds {
        return Unduck;
      }
      return Ignore;
    }

    // Forgets the hold first, then asks for its release.
    method Release(e: Satellite) returns (send: Option<Purpose>)
      modifies this`holds
      ensures holds == old(holds) - {e}
      ensures send == if e in old(holds) then Some(ForRelease(e, old(holds)[e])) else None
    {
      if e !in holds {
        return None;
      }
      send := Some(ForRelease(e, holds[e]));
      holds := holds - {e};
    }

    /** The coroutine started for a satellite that fell silent, up to its await. */
    method RunUnduck(e: Satellite, ghost s: State, ghost t: nat) returns (send: Option<Purpose>, ghost n: State)
      requires In(s)
      modifies this`holds
      ensures In(n) && n == if e in s.holds then SendRelease(s, t, e, Finish) else Continue(s, t, Finish)
      ensures e in s.holds ==>
                send == Some(ForRelease(e, s.holds[e])) && Sends(s, n, send.value) && Waits(n, t, Finish)
      ensures e !in s.holds ==> send == None && n.sent == s.sent
      ensures holds == s.holds - {e}
    {
      send := Release(e);
      n := if e in s.holds then SendRelease(s, t, e, Finish) else Continue(s, t, Finish);
      ReleaseSends(s, t, e, Finish);
    }

    /** `async_release_all` from one await to the next. */
    method ReleaseFrom(satellites: seq<Satellite>, ghost s: State, ghost t: nat)
      returns (send: Option<Purpose>, rest: seq<Satellite>, ghost n: State)
      requires In(s)
      modifies this`holds
      ensures In(n) && n == ReleaseLoop(s, t, satellites)
      ensures ReleasesOn(s, n, t, satellites, send, rest)
    {
      rest := satellites;
      n := s;
      while rest != []
        invariant In(s) && |rest| <= |satellites| && rest == satellites[|satellites| - |rest|..]
        invariant forall i | 0 <= i < |satellites| - |rest| :: satellites[i] !in s.holds
      {
        var e := rest[0];
        ghost var k := |satellites| - |rest|;
        rest := rest[1..];
        send := Release(e);
        if send.Some? {
          n := ReleaseLoop(s, t, satellites);
          ReleaseActs(s, t, satellites, k);
          return;
        }
      }
      n := ReleaseLoop(s, t, satellites);
      ReleaseEnds(s, t, satellites);
      send := None;
    }

    // The loop of the renew timer, up to the request it comes to.
    method NextOf(snapshot: seq<(Satellite, HoldId)>, active: set<Satellite>)
      returns (send: Option<Purpose>, rest: seq<(Satellite, HoldId)>)
      modifies this`holds
      ensures send.None? ==>
                rest == [] && holds == old(holds) && forall p | p in snapshot :: Quiet(active, old(holds), p.0)
      ensures send.Some? ==>
                |rest| < |snapshot| && var k := |snapshot| - |rest| - 1;
                && rest == snapshot[k + 1..] && (forall i | 0 <= i < k :: Quiet(active, old(holds), snapshot[i].0))
                && !Quiet(active, old(holds), snapshot[k].0)
                && var (e, id) := snapshot[k];
                if e in active && enabled then send == Some(ForRenew(e, id)) && holds == old(holds)
                else e in old(holds) && send == Some(ForRelease(e, old(holds)[e])) && holds == old(holds) - {e}
    {
      rest := snapshot;
      while rest != []
        invariant |rest| <= |snapshot| && rest == snapshot[|snapshot| - |rest|..] && holds == old(holds)
        invariant forall i | 0 <= i < |snapshot| - |rest| :: Quiet(active, holds, snapshot[i].0)
      {
        var (e, id) := rest[0];
        rest := rest[1..];
        if !(e in active && enabled) {
          send := Release(e);
          if send.Some? {
            return;
          }
          continue;
        }
        return Some(ForRenew(e, id)), rest;
      }
      send := None;
    }

    predicate Quiet(active: set<Satellite>, holds: map<Satellite, HoldId>, e: Satellite)
      reads this`enabled
    {
      !(e in active && enabled) && e !in holds
    }

    /** The renew timer from one snapshot entry to the next await. The snapshot may be stale; the fields are not. */
    method RenewFrom(snapshot: seq<(Satellite, HoldId)>, active: set<Satellite>, ghost s: State, ghost t: nat)
      returns (send: Option<Purpose>, rest: seq<(Satellite, HoldId)>, ghost n: State)
      requires In(s) && active == s.active
      modifies this`holds
      ensures In(n) && n == RenewLoop(s, t, snapshot)
      ensures WalksOn(s, n, t, snapshot, send, rest)
    {
      send, rest := NextOf(snapshot, active);
      n := RenewLoop(s, t, snapshot);
      if send == None {
        WalkEnds(s, t, snapshot);
      } else {
        WalkActs(s, t, snapshot, |snapshot| - |rest| - 1);
      }
    }

    /** A hold has been granted: it is tracked, and given straight back if its turn ended meanwhile. A start made within
        a renew walk then goes on with it. */
    method OnStarted(e: Satellite, id: HoldId, rest: Then, active: set<Satellite>, ghost s: State, ghost t: nat)
      returns (send: Option<Purpose>, ghost n: State, ghost more: seq<(Satellite, HoldId)>)
      requires In(s) && active == s.active && !rest.ReleaseRest?
      modifies this`holds
      ensures In(n) && n == Track(s, t, e, id, rest)
      ensures !Talking(s, e) ==>
                && send == Some(ForRelease(e, id)) && Sends(s, n, send.value) && Waits(n, t, rest)
                && holds == s.holds - {e}
      ensures Talking(s, e) && rest.Finish? ==> send == None && n.sent == s.sent && holds == s.holds[e := id]
      ensures Talking(s, e) && rest.RenewRest? ==>
                WalksOn(s.(holds := s.holds[e := id]), n, t, rest.snapshot, send, more)
    {
      TrackSends(s, t, e, id, rest);
      n := Track(s, t, e, id, rest);
      holds := holds[e := id];
      if !(e in active && enabled) {
        send := Release(e);
        more := [];
      } else if rest.RenewRest? {
        send, more, n := RenewFrom(rest.snapshot, active, s.(holds := s.holds[e := id]), t);
      } else {
        send, more := None, [];
      }
    }

    /** The answer to a renewal: a hold the daemon has forgotten is started anew. */
    method OnRenewed(e: Satellite, alive: bool, rest: seq<(Satellite, HoldId)>, targets: bool, active: set<Satellite>,
                     ghost s: State, ghost t: nat)
      returns (send: Option<Purpose>, ghost n: State, ghost more: seq<(Satellite, HoldId)>)
      requires In(s) && active == s.active
      modifies this`holds
      ensures In(n)
      ensures n == if alive then Continue(s, t, RenewRest(rest))
                   else DuckFor(s.(holds := s.holds - {e}), t, e, targets, RenewRest(rest))
      ensures !alive && targets ==>
                && send == Some(ForStart(e)) && Sends(s, n, send.value) && Waits(n, t, RenewRest(rest))
                && holds == s.holds - {e}
      ensures alive ==> WalksOn(s, n, t, rest, send, more)
      ensures !alive && !targets ==> WalksOn(s.(holds := s.holds - {e}), n, t, rest, send, more)
    {
      if !alive {
        holds := holds - {e};
        ghost var s1 := s.(holds := s.holds - {e});
        if targets {
          return Some(ForStart(e)), SendStart(s1, t, e, RenewRest(rest)), [];
        }
        send, more, n := RenewFrom(rest, active, s1, t);
        return;
      }
      send, more, n := RenewFrom(rest, active, s, t);
    }

    // The switch is turned off.
    method Disable(ghost s: State) returns (ghost n: State)
      requires In(s)
      modifies this`enabled
      ensures !enabled && n == VoiceDuck.Disable(s) && In(n)
    {
      enabled := false;
      n := VoiceDuck.Disable(s);
    }

    /** Whatever is tracked is released, in this order, starting now: the coroutine up to its first await. */
    method ReleaseAll(order: seq<Satellite>, ghost s: State) returns (send: Option<Purpose>, ghost n: State)
      requires In(s) && IsOrderOf(order, holds.Keys)
      modifies this`holds
      ensures In(n) && n == VoiceDuck.ReleaseAll(s, order)
      ensures order != [] ==> send == Some(ForRelease(order[0], s.holds[order[0]]))
    {
      ghost var s1 := s.(counter := s.counter + 1);
      assert order != [] ==> order[0] in s1.holds by {
        assert order != [] ==> order[0] in (set e | e in order);
      }
      assert VoiceDuck.ReleaseAll(s, order) == ReleaseLoop(s1, s.counter, order);
      var rest;
      send, rest, n := ReleaseFrom(order, s1, s.counter);
    }
  }
}
