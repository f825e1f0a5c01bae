/**
 Leased voice ducking: Home Assistant's `VoiceDucker` talking to the routing daemon.

 Every `await` of the coroutines is an interleaving point, so the system is a step machine. A `Task` is a
 coroutine suspended at one await, `Then` is what it still has to do afterwards, and a request travels
 on its own: the daemon may serve it after its sender gave up. `limits.delay` bounds how long a request,
 its answer or a scheduled task may stay on its way; `limits.sweep` bounds the time between two runs of the
 daemon's lease enforcer.
 */
module VoiceDuck {

  type Satellite = string
  type HoldId = nat
  type Time = int  // milliseconds

  const TTL: Time := 30_000

  type Positive = n: nat | n > 0 witness 1

  datatype Limits = Limits(delay: nat, sweep: Positive)

  // What a request was sent for. The daemon never learns the satellite; `e` is the sender's bookkeeping.
  datatype Purpose = ForStart(e: Satellite) | ForRenew(e: Satellite, id: HoldId) | ForRelease(e: Satellite, id: HoldId)
  datatype Request = Request(purpose: Purpose, at: Time)
  datatype Answer = Held(id: HoldId) | Alive(alive: bool) | Released

  datatype Then =
    | Finish
    | RenewRest(snapshot: seq<(Satellite, HoldId)>)
    | ReleaseRest(satellites: seq<Satellite>)

  datatype Task =
    | DuckSpawned(e: Satellite, at: Time)
    | UnduckSpawned(e: Satellite)
    | AwaitStart(e: Satellite, req: nat, rest: Then)
    | AwaitRelease(req: nat, rest: Then)
    | AwaitRenew(e: Satellite, id: HoldId, req: nat, snapshot: seq<(Satellite, HoldId)>)

  datatype State = State(
    limits: Limits,
    now: Time,
    // Home Assistant
    enabled: bool,
    listening: bool,
    active: set<Satellite>,
    stopped: map<Satellite, Time>,  // when a satellite last ceased to talk
    holds: map<Satellite, HoldId>,
    tasks: map<nat, Task>,
    // the network: every request ever sent, those not yet served or lost, the answers
    sent: map<nat, Request>,
    open: set<nat>,
    answers: map<nat, Answer>,
    counter: nat,
    // the daemon
    leases: map<HoldId, Time>,
    owner: map<HoldId, Satellite>,  // which satellite's start request created a hold
    nextHold: nat,
    lastSweep: Time)

  datatype Step =
    | Tick(d: nat)
    | SatelliteState(e: Satellite, active: bool)
    | UnseenState(e: Satellite, active: bool)
    | TurnOn
    | TurnOff(order: seq<Satellite>)
    | RestoreOff
    | Stop(order: seq<Satellite>)
    | Reload
    | Cancel(t: nat)
    | RenewTick(order: seq<Satellite>)
    | RunDuck(t: nat, targets: bool)
    | RunUnduck(t: nat)
    | StartAnswered(t: nat)
    | ReleaseAnswered(t: nat)
    | RenewAnswered(t: nat, targets: bool)
    | RequestFailed(t: nat)
    | Serve(r: nat)
    | Drop(r: nat)
    | Sweep
    | DaemonRestart

  predicate Talking(s: State, e: Satellite) {
    e in s.active && s.enabled
  }

  // `e` talks now, or ceased to at or after `t`; `t` never lies in the future.
  predicate TalkedSince(s: State, e: Satellite, t: Time) {
    t <= s.now && (Talking(s, e) || (e in s.stopped && t <= s.stopped[e]))
  }

  predicate Initial(s: State) {
    && s.active == {} && s.stopped == map[] && s.holds == map[] && s.tasks == map[] && s.listening
    && s.sent == map[] && s.open == {} && s.answers == map[] && s.counter == 0
    && s.leases == map[] && s.owner == map[] && s.nextHold == 0 && s.lastSweep == s.now
  }

  // --- Home Assistant's side -------------------------------------------------------

  function SetActive(s: State, e: Satellite, active: bool): State {
    s.(active := if active then s.active + {e} else s.active - {e},
       stopped := if Talking(s, e) && !active then s.stopped[e := s.now] else s.stopped)
  }

  function Disable(s: State): State {
    s.(enabled := false,
       stopped := if s.enabled then s.stopped + map e | e in s.active :: s.now else s.stopped)
  }

  // A new ducker takes over, stopped properly or not: it knows nothing of the old one's holds, which leak.
  function Reloaded(s: State): State {
    s.(enabled := true, listening := true, holds := map[], tasks := map[])
  }

  // The state listener's choice: start a duck, end one, or nothing.
  datatype Reaction = Ignore | Duck | Unduck

  function React(enabled: bool, tracked: bool, active: bool): Reaction {
    if active && enabled then (if tracked then Ignore else Duck)
    else if tracked then Unduck else Ignore
  }

  function Spawn(s: State, task: Task): State {
    s.(tasks := s.tasks[s.counter := task], counter := s.counter + 1)
  }

  function Listen(s: State, e: Satellite, active: bool): State {
    match React(s.enabled, e in s.holds, active)
    case Ignore => s
    case Duck => Spawn(s, DuckSpawned(e, s.now))
    case Unduck => Spawn(s, UnduckSpawned(e))
  }

  function Send(s: State, t: nat, purpose: Purpose, task: Task): State {
    s.(tasks := s.tasks[t := task], sent := s.sent[s.counter := Request(purpose, s.now)],
       open := s.open + {s.counter}, counter := s.counter + 1)
  }

  // `_async_release` up to its await: the id is forgotten before the request is sent.
  function SendRelease(s: State, t: nat, e: Satellite, rest: Then): State
    requires e in s.holds
  {
    Send(s.(holds := s.holds - {e}), t, ForRelease(e, s.holds[e]), AwaitRelease(s.counter, rest))
  }

  function SendRenew(s: State, t: nat, e: Satellite, id: HoldId, snapshot: seq<(Satellite, HoldId)>): State {
    Send(s, t, ForRenew(e, id), AwaitRenew(e, id, s.counter, snapshot))
  }

  function SendStart(s: State, t: nat, e: Satellite, rest: Then): State {
    Send(s, t, ForStart(e), AwaitStart(e, s.counter, rest))
  }

  // Only Home Assistant acted: its holds, its coroutines and the requests it sent.
  predicate Acted(s: State, n: State) {
    n == s.(holds := n.holds, tasks := n.tasks, sent := n.sent, open := n.open, counter := n.counter)
  }

  // The body of `_async_renew_holds` from the next snapshot entry to its next await.
  function RenewLoop(s: State, t: nat, snapshot: seq<(Satellite, HoldId)>): (n: State)
    ensures Acted(s, n)
  {
    if snapshot == [] then s.(tasks := s.tasks - {t})
    else
      var (e, id) := snapshot[0];
      if Talking(s, e) then SendRenew(s, t, e, id, snapshot[1..])
      else if e in s.holds then SendRelease(s, t, e, RenewRest(snapshot[1..]))
      else RenewLoop(s, t, snapshot[1..])
  }

  // The body of `async_release_all` and `async_stop` from the next satellite to the next await.
  function ReleaseLoop(s: State, t: nat, satellites: seq<Satellite>): (n: State)
    ensures Acted(s, n)
  {
    if satellites == [] then s.(tasks := s.tasks - {t})
    else if satellites[0] in s.holds then SendRelease(s, t, satellites[0], ReleaseRest(satellites[1..]))
    else ReleaseLoop(s, t, satellites[1..])
  }

  // A new coroutine enters its loop.
  function ReleaseAll(s: State, satellites: seq<Satellite>): (n: State)
    ensures Acted(s, n)
  {
    ReleaseLoop(s.(counter := s.counter + 1), s.counter, satellites)
  }

  function RenewAll(s: State, snapshot: seq<(Satellite, HoldId)>): (n: State)
    ensures Acted(s, n)
  {
    RenewLoop(s.(counter := s.counter + 1), s.counter, snapshot)
  }

  function Continue(s: State, t: nat, rest: Then): (n: State)
    ensures Acted(s, n)
  {
    match rest
    case Finish => s.(tasks := s.tasks - {t})
    case RenewRest(snapshot) => RenewLoop(s, t, snapshot)
    case ReleaseRest(satellites) => ReleaseLoop(s, t, satellites)
  }

  function DuckFor(s: State, t: nat, e: Satellite, targets: bool, rest: Then): (n: State)
    ensures Acted(s, n)
  {
    if targets then SendStart(s, t, e, rest) else Continue(s, t, rest)
  }

  // `_async_duck_for` after its await: track the hold, or give it straight back.
  function Track(s: State, t: nat, e: Satellite, id: HoldId, rest: Then): (n: State)
    ensures Acted(s, n)
  {
    var s1 := s.(holds := s.holds[e := id]);
    if Talking(s1, e) then Continue(s1, t, rest) else SendRelease(s1, t, e, rest)
  }

  function RestOf(task: Task): Then {
    match task
    case DuckSpawned(_, _) => Finish
    case UnduckSpawned(_) => Finish
    case AwaitStart(_, _, rest) => rest
    case AwaitRelease(_, rest) => rest
    case AwaitRenew(_, _, _, snapshot) => RenewRest(snapshot)
  }

  // --- the daemon's side -------------------------------------------------------------

  function ServedStart(s: State, r: nat, e: Satellite): State {
    var id := s.nextHold + 1;
    s.(open := s.open - {r}, answers := s.answers[r := Held(id)],
       nextHold := id, owner := s.owner[id := e], leases := s.leases[id := s.now + TTL])
  }

  function ServedRenew(s: State, r: nat, id: HoldId): State {
    s.(open := s.open - {r}, answers := s.answers[r := Alive(id in s.leases)],
       leases := if id in s.leases then s.leases[id := s.now + TTL] else s.leases)
  }

  function ServedRelease(s: State, r: nat, id: HoldId): State {
    s.(open := s.open - {r}, answers := s.answers[r := Released], leases := s.leases - {id})
  }

  function Answered(s: State, r: nat): State
    requires r in s.sent
  {
    match s.sent[r].purpose
    case ForStart(e) => ServedStart(s, r, e)
    case ForRenew(_, id) => ServedRenew(s, r, id)
    case ForRelease(_, id) => ServedRelease(s, r, id)
  }

  function Expire(s: State): State {
    s.(leases := map id | id in s.leases && s.leases[id] > s.now :: s.leases[id], lastSweep := s.now)
  }

  // A new process: no holds, ids counted from 1 again, connections to the old one gone.
  function Restarted(s: State): State {
    s.(leases := map[], owner := map[], nextHold := 0, open := {}, answers := map[], lastSweep := s.now)
  }

  // --- steps ----------------------------------------------------------------------------

  predicate IsOrderOf(order: seq<Satellite>, keys: set<Satellite>) {
    |order| == |keys| && (set e | e in order) == keys
  }

  function Snapshot(s: State, order: seq<Satellite>): seq<(Satellite, HoldId)>
    requires forall e | e in order :: e in s.holds
  {
    seq(|order|, i requires 0 <= i < |order| => (order[i], s.holds[order[i]]))
  }

  // Whether task `t` waits for an answer that is there and in time.
  predicate Ready(s: State, t: nat, req: nat) {
    req in s.answers && req in s.sent && s.now <= s.sent[req].at + s.limits.delay
  }

  predicate Enabled(s: State, step: Step) {
    match step
    case Tick(d) => s.now + d <= s.lastSweep + s.limits.sweep
    case SatelliteState(_, _) => true
    case UnseenState(_, _) => true
    case TurnOn => true
    case TurnOff(order) => IsOrderOf(order, s.holds.Keys)
    case RestoreOff => true
    case Stop(order) => IsOrderOf(order, s.holds.Keys)
    case Reload => true
    case Cancel(t) => t in s.tasks && !s.listening
    case RenewTick(order) => s.listening && IsOrderOf(order, s.holds.Keys)
    case RunDuck(t, _) => t in s.tasks && s.tasks[t].DuckSpawned? && s.now <= s.tasks[t].at + s.limits.delay
    case RunUnduck(t) => t in s.tasks && s.tasks[t].UnduckSpawned?
    case StartAnswered(t) =>
      t in s.tasks && s.tasks[t].AwaitStart? && Ready(s, t, s.tasks[t].req) && s.answers[s.tasks[t].req].Held?
    case ReleaseAnswered(t) => t in s.tasks && s.tasks[t].AwaitRelease? && Ready(s, t, s.tasks[t].req)
    case RenewAnswered(t, _) =>
      t in s.tasks && s.tasks[t].AwaitRenew? && Ready(s, t, s.tasks[t].req) && s.answers[s.tasks[t].req].Alive?
    case RequestFailed(t) =>
      t in s.tasks && (s.tasks[t].AwaitStart? || s.tasks[t].AwaitRelease? || s.tasks[t].AwaitRenew?)
    case Serve(r) => r in s.open && r in s.sent && s.now <= s.sent[r].at + s.limits.delay
    case Drop(r) => r in s.open
    case Sweep => true
    case DaemonRestart => true
  }

  // The steps a coroutine takes when it is resumed.
  predicate Resumes(step: Step) {
    step.RunDuck? || step.RunUnduck? || step.StartAnswered? || step.ReleaseAnswered? || step.RenewAnswered?
    || step.RequestFailed?
  }

  function Resume(s: State, step: Step): (n: State)
    requires Enabled(s, step) && Resumes(step)
    ensures Acted(s, n)
  {
    var task := s.tasks[step.t];
    match step
    case RunDuck(t, targets) => DuckFor(s, t, task.e, targets, Finish)
    case RunUnduck(t) => if task.e in s.holds then SendRelease(s, t, task.e, Finish) else Continue(s, t, Finish)
    case StartAnswered(t) => Track(s, t, task.e, s.answers[task.req].id, task.rest)
    case ReleaseAnswered(t) => Continue(s, t, task.rest)
    case RenewAnswered(t, targets) =>
      if s.answers[task.req].alive then Continue(s, t, RenewRest(task.snapshot))
      else DuckFor(s.(holds := s.holds - {task.e}), t, task.e, targets, RenewRest(task.snapshot))
    case RequestFailed(t) => Continue(s, t, RestOf(task))
  }

  // The steps of the user, the daemon and the network.
  predicate Outside(step: Step) {
    step.Tick? || step.UnseenState? || step.TurnOn? || step.RestoreOff? || step.Reload? || step.Cancel?
    || step.Serve? || step.Drop? || step.Sweep? || step.DaemonRestart?
  }

  function Happen(s: State, step: Step): (n: State)
    requires Enabled(s, step) && Outside(step)
    ensures n.limits == s.limits && s.now <= n.now
    ensures !step.DaemonRestart? && !step.Serve? ==> n.nextHold == s.nextHold && n.owner == s.owner
    ensures !step.DaemonRestart? && !step.Serve? && !step.Sweep? ==> n.leases == s.leases
  {
    match step
    case Tick(d) => s.(now := s.now + d)
    case UnseenState(e, active) => SetActive(s, e, active)
    case TurnOn => s.(enabled := true)
    case RestoreOff => Disable(s)
    case Reload => Reloaded(s)
    case Cancel(t) => s.(tasks := s.tasks - {t})
    case Serve(r) => Answered(s, r)
    case Drop(r) => s.(open := s.open - {r})
    case Sweep => Expire(s)
    case DaemonRestart => Restarted(s)
  }

  function Apply(s: State, step: Step): (n: State)
    requires Enabled(s, step)
    ensures n.limits == s.limits && s.now <= n.now
    ensures !step.DaemonRestart? && !step.Serve? ==> n.nextHold == s.nextHold && n.owner == s.owner
    ensures !step.DaemonRestart? && !step.Serve? && !step.Sweep? ==> n.leases == s.leases
  {
    if Resumes(step) then Resume(s, step)
    else if Outside(step) then Happen(s, step)
    else
      match step
      case SatelliteState(e, active) =>
        var s1 := SetActive(s, e, active);
        if s.listening then Listen(s1, e, active) else s1
      case TurnOff(order) => ReleaseAll(Disable(s), order)
      case Stop(order) => ReleaseAll(s.(listening := false), order)
      case RenewTick(order) => RenewAll(s, Snapshot(s, order))
  }

  predicate Does(s: State, step: Step, n: State) {
    Enabled(s, step) && Apply(s, step) == n
  }

  /** A run: `steps[i]` leads from `states[i]` to the next state. */
  ghost predicate Path(states: seq<State>, steps: seq<Step>) {
    && |states| == |steps| + 1
    && forall i {:trigger Does(states[i], steps[i], states[i + 1])} | 0 <= i < |steps| ::
         Does(states[i], steps[i], states[i + 1])
  }

  lemma {:induction false} PathStep(states: seq<State>, steps: seq<Step>, i: nat)
    requires Path(states, steps) && i < |steps|
    ensures Enabled(states[i], steps[i]) && Apply(states[i], steps[i]) == states[i + 1]
  {
    assert Does(states[i], steps[i], states[i + 1]);
  }
}
