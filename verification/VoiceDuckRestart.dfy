/**
 Where the lease bound of a single satellite ends. A restarted daemon counts hold ids from 1 again, so an id Home
 Assistant still remembers can come to name somebody else's hold. Whether a hold was threatened at birth, or its start a
 mix-up, decides exactly whether things can go wrong from there, with no further restart and no further start.
 */
module VoiceDuckRestart {
  import opened VoiceDuck
  import opened VoiceDuckLease
  import opened VoiceDuckMemory
  import opened VoiceDuckHold

  // `more` leads from `s` to `n` without another daemon restart and without another start being served.
  ghost predicate GoesOn(s: State, more: seq<Step>, n: State)
    decreases |more|
  {
    if more == [] then s == n
    else
      && Enabled(s, more[0]) && !more[0].DaemonRestart? && !Starts(s, more[0])
      && GoesOn(Apply(s, more[0]), more[1..], n)
  }

  lemma {:induction false} GoesOnBy(s: State, step: Step)
    requires Enabled(s, step) && !step.DaemonRestart? && !Starts(s, step)
    ensures GoesOn(s, [step], Apply(s, step))
  {
    assert [step][1..] == [];
  }

  lemma {:induction false} GoesOnThen(s: State, some: seq<Step>, m: State, more: seq<Step>, n: State)
    requires GoesOn(s, some, m) && GoesOn(m, more, n)
    ensures GoesOn(s, some + more, n)
    decreases |some|
  {
    if some == [] {
      assert some + more == more;
    } else {
      assert (some + more)[1..] == some[1..] + more;
      GoesOnThen(Apply(s, some[0]), some[1..], m, more, n);
    }
  }

  // A hold of `e` outlives the bound.
  predicate Overlong(s: State, e: Satellite, id: HoldId) {
    Owns(s, e, id) && id in s.leases && !TalkedSince(s, e, s.leases[id] - TTL - 2 * s.limits.delay)
  }

  // --- an id that is tracked ------------------------------------------------------------------

  // `x` talks and tracks hold `id`, which was started for `e`, who is silent.
  predicate Hijacked(s: State, x: Satellite, e: Satellite, id: HoldId) {
    && s.listening && Talking(s, x) && x in s.holds && s.holds[x] == id
    && Owns(s, e, id) && e !in s.active && id in s.leases
  }

  lemma {:induction false} OrderOf(keys: set<Satellite>) returns (order: seq<Satellite>)
    ensures IsOrderOf(order, keys)
    decreases |keys|
  {
    if keys == {} {
      order := [];
    } else {
      var e :| e in keys;
      var rest := OrderOf(keys - {e});
      order := [e] + rest;
      assert (set k | k in order) == {e} + (set k | k in rest);
    }
  }

  lemma {:induction false} OrderFrom(keys: set<Satellite>, x: Satellite) returns (order: seq<Satellite>)
    requires x in keys
    ensures IsOrderOf(order, keys) && order != [] && order[0] == x
  {
    var rest := OrderOf(keys - {x});
    order := [x] + rest;
    assert (set k | k in order) == {x} + (set k | k in rest);
  }

  // The renew timer fires, and the first renewal it sends is served at once.
  lemma {:induction false} Renewed(s: State, x: Satellite, e: Satellite, id: HoldId) returns (more: seq<Step>, n: State)
    requires Hijacked(s, x, e, id)
    ensures GoesOn(s, more, n) && Hijacked(n, x, e, id) && n.leases[id] == s.now + TTL
    ensures n.now == s.now && n.limits == s.limits && n.stopped == s.stopped
  {
    var order := OrderFrom(s.holds.Keys, x);
    var snapshot := Snapshot(s, order);
    assert snapshot[0] == (x, id);
    var s1 := Apply(s, RenewTick(order));
    GoesOnBy(s, RenewTick(order));
    var r := s.counter + 1;
    assert s1 == SendRenew(s.(counter := r), s.counter, x, id, snapshot[1..]);
    assert s1.sent[r] == Request(ForRenew(x, id), s.now);
    n := Apply(s1, Serve(r));
    GoesOnBy(s1, Serve(r));
    GoesOnThen(s, [RenewTick(order)], s1, [Serve(r)], n);
    more := [RenewTick(order)] + [Serve(r)];
  }

  // Time passes while the lease lives.
  lemma {:induction false} Millisecond(s: State, id: HoldId) returns (more: seq<Step>, n: State)
    requires id in s.leases && s.now < s.leases[id]
    ensures GoesOn(s, more, n) && id in n.leases && n.leases[id] == s.leases[id]
    ensures n == s.(now := s.now + 1, lastSweep := n.lastSweep, leases := n.leases)
  {
    var s1 := Apply(s, Sweep);
    GoesOnBy(s, Sweep);
    n := Apply(s1, Tick(1));
    GoesOnBy(s1, Tick(1));
    GoesOnThen(s, [Sweep], s1, [Tick(1)], n);
    more := [Sweep] + [Tick(1)];
  }

  // As long as `x` talks the hold is renewed, however long `e` has been silent.
  lemma {:induction false} KeptAlive(s: State, x: Satellite, e: Satellite, id: HoldId, k: nat)
    returns (more: seq<Step>, n: State)
    requires Hijacked(s, x, e, id) && s.leases[id] == s.now + TTL
    ensures GoesOn(s, more, n) && Hijacked(n, x, e, id) && n.leases[id] == n.now + TTL
    ensures n.now == s.now + k && n.limits == s.limits && n.stopped == s.stopped
    decreases k
  {
    if k == 0 {
      more, n := [], s;
    } else {
      var a, s1 := Millisecond(s, id);
      var b, s2 := Renewed(s1, x, e, id);
      var c, s3 := KeptAlive(s2, x, e, id, k - 1);
      GoesOnThen(s, a, s1, b, s2);
      GoesOnThen(s, a + b, s2, c, s3);
      more, n := a + b + c, s3;
    }
  }

  // `e` falls silent and `x` talks, without the listener being told.
  lemma {:induction false} Silenced(s: State, x: Satellite, e: Satellite) returns (more: seq<Step>, n: State)
    requires x != e && (e in s.stopped ==> s.stopped[e] <= s.now)
    ensures GoesOn(s, more, n) && Talking(n, x) && e !in n.active && (e in n.stopped ==> n.stopped[e] <= s.now)
    ensures n == s.(enabled := true, active := n.active, stopped := n.stopped)
  {
    var s1 := s.(enabled := true);
    var s2 := SetActive(s1, e, false);
    n := SetActive(s2, x, true);
    GoesOnBy(s, TurnOn);
    StateGoesOn(s1, e, false);
    StateGoesOn(s2, x, true);
    var a, b, c := [TurnOn], [UnseenState(e, false)], [UnseenState(x, true)];
    GoesOnThen(s, a, s1, b, s2);
    GoesOnThen(s, a + b, s2, c, n);
    more := a + b + c;
  }

  lemma {:induction false} StateGoesOn(s: State, e: Satellite, active: bool)
    ensures GoesOn(s, [UnseenState(e, active)], SetActive(s, e, active))
  {
    GoesOnBy(s, UnseenState(e, active));
  }

  // A hold whose id is tracked for another satellite, while the renew timer runs, outlives the bound.
  lemma {:induction false} TrackedOutlives(s: State, x: Satellite, e: Satellite, id: HoldId)
    returns (more: seq<Step>, n: State)
    requires Inv(s) && s.listening && x != e && Tracks(s, x, id)
    requires Owns(s, e, id) && id in s.leases && s.leases[id] == s.now + TTL
    ensures GoesOn(s, more, n) && Overlong(n, e, id)
  {
    var a, s1 := Silenced(s, x, e);
    var b, s2 := KeptAlive(s1, x, e, id, 2 * s.limits.delay + 1);
    GoesOnThen(s, a, s1, b, s2);
    more, n := a + b, s2;
  }

  // --- an id in a snapshot that is still walked ------------------------------------------------

  // A renewal of `id` on behalf of `x` is on its way, sent just now.
  ghost predicate Renews(s: State, x: Satellite, id: HoldId) {
    exists r :: r in s.open && r in s.sent && s.sent[r] == Request(ForRenew(x, id), s.now)
  }

  // The walk of `t` has come to the entry, or has fewer than `left` entries to go.
  ghost predicate Nears(n: State, t: nat, x: Satellite, id: HoldId, left: nat) {
    Renews(n, x, id) || (WalksIn(n, t, x, id) && |RestOf(n.tasks[t]).snapshot| < left)
  }

  lemma {:induction false} RenewNears(
    s: State, t: nat, e: Satellite, k: HoldId, rest: seq<(Satellite, HoldId)>, x: Satellite, id: HoldId)
    requires (e, k) == (x, id) || (x, id) in rest
    ensures Acted(s, SendRenew(s, t, e, k, rest)) && Nears(SendRenew(s, t, e, k, rest), t, x, id, |rest| + 1)
  {
    var n := SendRenew(s, t, e, k, rest);
    if (e, k) == (x, id) {
      assert s.counter in n.open && n.sent[s.counter] == Request(ForRenew(x, id), n.now);
    }
  }

  lemma {:induction false} ReleaseNears(
    s: State, t: nat, e: Satellite, rest: seq<(Satellite, HoldId)>, x: Satellite, id: HoldId)
    requires e in s.holds && (x, id) in rest
    ensures var n := SendRelease(s, t, e, RenewRest(rest)); Acted(s, n) && Nears(n, t, x, id, |rest| + 1)
  {
  }

  lemma {:induction false} LoopNears(s: State, t: nat, snapshot: seq<(Satellite, HoldId)>, x: Satellite, id: HoldId)
    requires Talking(s, x) && (x, id) in snapshot
    ensures Acted(s, RenewLoop(s, t, snapshot)) && Nears(RenewLoop(s, t, snapshot), t, x, id, |snapshot|)
  {
    var (e, k) := snapshot[0];
    assert snapshot == [snapshot[0]] + snapshot[1..];
    if Talking(s, e) {
      RenewNears(s, t, e, k, snapshot[1..], x, id);
    } else if e in s.holds {
      ReleaseNears(s, t, e, snapshot[1..], x, id);
    } else {
      LoopNears(s, t, snapshot[1..], x, id);
    }
  }

  // The walk comes to the entry, if what it waits for on the way fails.
  lemma {:induction false} WalkReaches(s: State, t: nat, x: Satellite, id: HoldId) returns (more: seq<Step>, n: State)
    requires Talking(s, x) && WalksIn(s, t, x, id)
    ensures GoesOn(s, more, n) && Renews(n, x, id) && Acted(s, n)
    decreases |RestOf(s.tasks[t]).snapshot|
  {
    var step := RequestFailed(t);
    var s1 := Apply(s, step);
    GoesOnBy(s, step);
    LoopNears(s, t, RestOf(s.tasks[t]).snapshot, x, id);
    if Renews(s1, x, id) {
      more, n := [step], s1;
    } else {
      more, n := WalkReaches(s1, t, x, id);
      GoesOnThen(s, [step], s1, more, n);
      more := [step] + more;
    }
  }

  lemma {:induction false} Waited(s: State, id: HoldId, k: nat) returns (more: seq<Step>, n: State)
    requires id in s.leases && s.now + k <= s.leases[id]
    ensures GoesOn(s, more, n) && id in n.leases && n.leases[id] == s.leases[id]
    ensures n == s.(now := s.now + k, lastSweep := n.lastSweep, leases := n.leases)
    decreases k
  {
    if k == 0 {
      more, n := [], s;
    } else {
      var a, s1 := Millisecond(s, id);
      more, n := Waited(s1, id, k - 1);
      GoesOnThen(s, a, s1, more, n);
      more := a + more;
    }
  }

  // So does one whose id a renew walk has yet to come to, if a request takes less than half a lease.
  lemma {:induction false} WalkedOutlives(s: State, t: nat, x: Satellite, e: Satellite, id: HoldId)
    returns (more: seq<Step>, n: State)
    requires x != e && (e in s.stopped ==> s.stopped[e] <= s.now) && 2 * s.limits.delay < TTL
    requires WalksIn(s, t, x, id) && Owns(s, e, id) && id in s.leases && s.leases[id] == s.now + TTL
    ensures GoesOn(s, more, n) && Overlong(n, e, id)
  {
    var a, s1 := Silenced(s, x, e);
    var b, s2 := Waited(s1, id, 2 * s.limits.delay + 1);
    var c, s3 := WalkReaches(s2, t, x, id);
    GoesOnThen(s, a, s1, b, s2);
    GoesOnThen(s, a + b, s2, c, s3);
    var d;
    d, n := Granted(s3, x, id);
    GoesOnThen(s, a + b + c, s3, d, n);
    more := a + b + c + d;
  }

  // The renewal just sent is served.
  lemma {:induction false} Granted(s: State, x: Satellite, id: HoldId) returns (more: seq<Step>, n: State)
    requires Renews(s, x, id) && id in s.leases
    ensures GoesOn(s, more, n)
    ensures n == s.(open := n.open, answers := n.answers, leases := s.leases[id := s.now + TTL])
  {
    var q :| q in s.open && q in s.sent && s.sent[q] == Request(ForRenew(x, id), s.now);
    more, n := [Serve(q)], Apply(s, Serve(q));
    GoesOnBy(s, Serve(q));
  }

  // --- a renewal already on its way ----------------------------------------------------------------

  lemma {:induction false} AskedOutlives(s: State, q: nat, x: Satellite, e: Satellite, id: HoldId)
    returns (more: seq<Step>, n: State)
    requires LateAsk(s, q, x, e, id) && s.sent[q].at <= s.now && s.limits.delay <= TTL
    requires Owns(s, e, id) && id in s.leases && s.leases[id] == s.now + TTL
    ensures GoesOn(s, more, n) && Overlong(n, e, id)
  {
    var a, s1 := Waited(s, id, s.sent[q].at + s.limits.delay - s.now);
    GoesOnBy(s1, Serve(q));
    n := Apply(s1, Serve(q));
    assert n == ServedRenew(s1, q, id);
    GoesOnThen(s, a, s1, [Serve(q)], n);
    more := a + [Serve(q)];
  }

  // --- exactly the threatened holds ------------------------------------------------------------------

  ghost predicate CanOutlive(s: State, e: Satellite, id: HoldId) {
    exists more, n :: GoesOn(s, more, n) && Overlong(n, e, id)
  }

  lemma {:induction false} ShelteredGoesOn(s: State, more: seq<Step>, n: State, e: Satellite, id: HoldId)
    requires Inv(s) && Sheltered(s, e, id) && GoesOn(s, more, n)
    ensures Sheltered(n, e, id)
    decreases |more|
  {
    if more != [] {
      StepKeepsInv(s, more[0]);
      StaysSheltered(s, more[0], e, id);
      ShelteredGoesOn(Apply(s, more[0]), more[1..], n, e, id);
    }
  }

  lemma {:induction false} ThreatenedOutlives(s: State, e: Satellite, id: HoldId)
    requires Inv(s) && Owns(s, e, id) && id in s.leases && s.leases[id] == s.now + TTL
    requires Threatened(s, e, id) && 2 * s.limits.delay < TTL
    ensures CanOutlive(s, e, id)
  {
    if s.listening && exists x :: x != e && Tracks(s, x, id) {
      var x :| x != e && Tracks(s, x, id);
      var more, n := TrackedOutlives(s, x, e, id);
    } else if x :| x != e && Walks(s, x, id) {
      var t :| WalksIn(s, t, x, id);
      var more, n := WalkedOutlives(s, t, x, e, id);
    } else {
      var q, x :| x != e && LateAsk(s, q, x, e, id);
      assert RequestOk(s, q);
      var more, n := AskedOutlives(s, q, x, e, id);
    }
  }

  /** After any run: a hold just born can come to outlive the bound of its satellite only if it was threatened, and, as
      long as a request takes less than half a lease, whenever it was. */
  lemma {:induction false} ThreatIsExact(states: seq<State>, steps: seq<Step>, r: nat)
    requires Path(states, steps) && Initial(states[0])
    requires Enabled(states[|steps|], Serve(r)) && Starts(states[|steps|], Serve(r))
    ensures var s := states[|steps|];
            var n, e, id := Apply(s, Serve(r)), s.sent[r].purpose.e, NextId(s);
            && (CanOutlive(n, e, id) ==> Threatened(n, e, id))
            && (2 * s.limits.delay < TTL ==> (CanOutlive(n, e, id) <==> Threatened(n, e, id)))
  {
    var s := states[|steps|];
    var n, e, id := Apply(s, Serve(r)), s.sent[r].purpose.e, NextId(s);
    RunKeepsInv(states, steps, |steps|);
    StepKeepsInv(s, Serve(r));
    BornBounded(s, r);
    if Threatened(n, e, id) {
      if 2 * s.limits.delay < TTL {
        ThreatenedOutlives(n, e, id);
      }
    } else {
      forall more, m | GoesOn(n, more, m) ensures !Overlong(m, e, id) {
        ShelteredGoesOn(n, more, m, e, id);
      }
    }
  }

  // --- exactly the mix-ups -----------------------------------------------------------------------

  // `id` names a hold that was started for somebody other than `e`.
  predicate Strange(s: State, e: Satellite, id: HoldId) {
    id in s.owner && s.owner[id] != e
  }

  // Home Assistant handles `id` for another satellite than its own.
  ghost predicate Confused(s: State, id: HoldId) {
    exists x :: Handles(s, x, id) && Strange(s, x, id)
  }

  ghost predicate CanConfuse(s: State, id: HoldId) {
    exists more, n :: GoesOn(s, more, n) && Confused(n, id)
  }

  lemma {:induction false} OnlyForGoesOn(s: State, more: seq<Step>, n: State, e: Satellite, id: HoldId)
    requires Inv(s) && OnlyFor(s, e, id) && GoesOn(s, more, n)
    ensures !Confused(n, id)
    decreases |more|
  {
    if more == [] {
      forall x | Handles(n, x, id) ensures !Strange(n, x, id) {
        assert Remembers(s, x, id);
      }
    } else {
      StepKeepsInv(s, more[0]);
      StaysOnlyFor(s, more[0], e, id);
      OnlyForGoesOn(Apply(s, more[0]), more[1..], n, e, id);
    }
  }

  lemma {:induction false} ServedStartRemembers(s: State, r: nat, x: Satellite, id: HoldId)
    requires Enabled(s, Serve(r)) && Starts(s, Serve(r)) && Remembers(s, x, id)
    ensures Remembers(Apply(s, Serve(r)), x, id)
  {
    var n := Apply(s, Serve(r));
    assert n == Answered(s, r);
    if Walks(s, x, id) {
      var t :| WalksIn(s, t, x, id);
      assert WalksIn(n, t, x, id);
    } else if !Tracks(s, x, id) {
      var q :| Asks(s, q, x, id) || Gives(s, q, x, id);
      assert Asks(n, q, x, id) || Gives(n, q, x, id);
    }
  }

  lemma {:induction false} RenewalConfuses(s: State, x: Satellite, e: Satellite, id: HoldId)
    requires Renews(s, x, id) && x != e && Owns(s, e, id)
    ensures Confused(s, id)
  {
    var q :| q in s.open && q in s.sent && s.sent[q] == Request(ForRenew(x, id), s.now);
    assert Asks(s, q, x, id);
    assert Handles(s, x, id) && Strange(s, x, id);
  }

  lemma {:induction false} RememberedConfuses(s: State, x: Satellite, e: Satellite, id: HoldId)
    requires Inv(s) && x != e && Owns(s, e, id) && Remembers(s, x, id)
    ensures CanConfuse(s, id)
  {
    if Handles(s, x, id) {
      assert Confused(s, id) && GoesOn(s, [], s);
    } else {
      var t :| WalksIn(s, t, x, id);
      var a, s1 := Silenced(s, x, e);
      var b, s2 := WalkReaches(s1, t, x, id);
      GoesOnThen(s, a, s1, b, s2);
      RenewalConfuses(s2, x, e, id);
    }
  }

  /** After any run: serving a start is a mix-up if and only if, from there, Home Assistant can come to handle the new
      hold for another satellite, although the daemon stays up and nobody else starts a hold. */
  lemma {:induction false} MixUpsAreExact(states: seq<State>, steps: seq<Step>, r: nat)
    requires Path(states, steps) && Initial(states[0])
    requires Enabled(states[|steps|], Serve(r)) && Starts(states[|steps|], Serve(r))
    ensures var s := states[|steps|];
            MixesUp(s, Serve(r)) <==> CanConfuse(Apply(s, Serve(r)), NextId(s))
  {
    var s := states[|steps|];
    var n, e, id := Apply(s, Serve(r)), s.sent[r].purpose.e, NextId(s);
    RunKeepsInv(states, steps, |steps|);
    StepKeepsInv(s, Serve(r));
    BornBounded(s, r);
    if MixesUp(s, Serve(r)) {
      var x :| x != e && Remembers(s, x, id);
      ServedStartRemembers(s, r, x, id);
      RememberedConfuses(n, x, e, id);
    } else {
      BornOnlyFor(s, r);
      forall more, m | GoesOn(n, more, m) ensures !Confused(m, id) {
        OnlyForGoesOn(n, more, m, e, id);
      }
    }
  }

  // --- a run in which it happens ----------------------------------------------------------------

  const A: Satellite := "a"
  const B: Satellite := "b"
  const LIMITS: Limits := Limits(0, 60_000)

  // A ducks and keeps talking (0-4); the daemon restarts (5); B asks for a hold, and A's old id is next (6-7).
  const S0: State := State(LIMITS, 0, true, true, {}, map[], map[], map[], map[], {}, map[], 0, map[], map[], 0, 0)
  const S1: State := S0.(active := {A}, tasks := map[0 := DuckSpawned(A, 0)], counter := 1)
  const S2: State := S1.(tasks := map[0 := AwaitStart(A, 1, Finish)], sent := map[1 := Request(ForStart(A), 0)],
                         open := {1}, counter := 2)
  const S3: State := S2.(open := {}, answers := map[1 := Held(1)], leases := map[1 := TTL], owner := map[1 := A],
                         nextHold := 1)
  const S4: State := S3.(holds := map[A := 1], tasks := map[])
  const S5: State := S4.(answers := map[], leases := map[], owner := map[], nextHold := 0)
  const S6: State := S5.(active := {A, B}, tasks := map[2 := DuckSpawned(B, 0)], counter := 3)
  const S7: State := S6.(tasks := map[2 := AwaitStart(B, 3, Finish)],
                         sent := map[1 := Request(ForStart(A), 0), 3 := Request(ForStart(B), 0)], open := {3},
                         counter := 4)

  lemma {:induction false} PathGrows(states: seq<State>, steps: seq<Step>, step: Step)
    requires Path(states, steps) && Enabled(states[|steps|], step)
    ensures Path(states + [Apply(states[|steps|], step)], steps + [step])
  {
    var all, more := states + [Apply(states[|steps|], step)], steps + [step];
    forall i | 0 <= i < |more| ensures Does(all[i], more[i], all[i + 1]) {
      if i < |steps| {
        assert Does(states[i], steps[i], states[i + 1]);
      }
    }
  }

  lemma {:induction false} PathGoesOn(states: seq<State>, steps: seq<Step>, more: seq<Step>, n: State)
    returns (longer: seq<State>)
    requires Path(states, steps) && GoesOn(states[|steps|], more, n)
    ensures Path(longer, steps + more) && longer[0] == states[0] && longer[|steps + more|] == n
    decreases |more|
  {
    if more == [] {
      longer := states;
      assert steps + more == steps;
    } else {
      PathGrows(states, steps, more[0]);
      longer := PathGoesOn(states + [Apply(states[|steps|], more[0])], steps + [more[0]], more[1..], n);
      assert steps + [more[0]] + more[1..] == steps + more;
    }
  }

  // Two more steps.
  lemma {:induction false} PathGrowsTwice(states: seq<State>, steps: seq<Step>, a: Step, m: State, b: Step, n: State)
    returns (longer: seq<State>, more: seq<Step>)
    requires Path(states, steps) && Does(states[|steps|], a, m) && Does(m, b, n)
    ensures Path(longer, more) && longer[0] == states[0] && longer[|more|] == n
  {
    PathGrows(states, steps, a);
    PathGrows(states + [m], steps + [a], b);
    longer, more := states + [m] + [n], steps + [a] + [b];
  }

  lemma {:induction false} AIsTracked() returns (states: seq<State>, steps: seq<Step>)
    ensures Path(states, steps) && states[0] == S0 && states[|steps|] == S4
  {
    states, steps := PathGrowsTwice([S0], [], SatelliteState(A, true), S1, RunDuck(0, true), S2);
    AIsAnswered();
    states, steps := PathGrowsTwice(states, steps, Serve(1), S3, StartAnswered(0), S4);
  }

  lemma {:induction false} AIsAnswered()
    ensures Does(S2, Serve(1), S3) && Does(S3, StartAnswered(0), S4)
  {
    assert map[0 := AwaitStart(A, 1, Finish)] - {0} == map[];
  }

  lemma {:induction false} DaemonRestarts()
    ensures Does(S4, DaemonRestart, S5) && Does(S5, SatelliteState(B, true), S6)
  {
  }

  lemma {:induction false} BSends()
    ensures Does(S6, RunDuck(2, true), S7)
  {
  }

  lemma {:induction false} BAsks() returns (states: seq<State>, steps: seq<Step>)
    ensures Path(states, steps) && states[0] == S0 && states[|steps|] == S7
  {
    states, steps := AIsTracked();
    DaemonRestarts();
    states, steps := PathGrowsTwice(states, steps, DaemonRestart, S5, SatelliteState(B, true), S6);
    BSends();
    PathGrows(states, steps, RunDuck(2, true));
    states, steps := states + [S7], steps + [RunDuck(2, true)];
  }

  /** It does happen: a whole run, with one restart, at whose end B's hold outlives the bound of the satellite it was
      started for. */
  lemma {:induction false} RestartCanBreakTheLease() returns (states: seq<State>, steps: seq<Step>)
    ensures Path(states, steps) && Initial(states[0]) && Overlong(states[|steps|], B, 1)
  {
    states, steps := BAsks();
    assert Initial(states[0]);
    RunKeepsInv(states, steps, |steps|);
    var more, m := BOutlives();
    PathGrows(states, steps, Serve(3));
    states, steps := states + [ServedStart(S7, 3, B)], steps + [Serve(3)];
    states := PathGoesOn(states, steps, more, m);
    steps := steps + more;
  }

  lemma {:induction false} BOutlives() returns (more: seq<Step>, n: State)
    requires Inv(S7)
    ensures Enabled(S7, Serve(3)) && Apply(S7, Serve(3)) == ServedStart(S7, 3, B)
    ensures GoesOn(ServedStart(S7, 3, B), more, n) && Overlong(n, B, 1)
  {
    StepKeepsInv(S7, Serve(3));
    more, n := TrackedOutlives(ServedStart(S7, 3, B), A, B, 1);
  }
}
