/**
 One resolve: the fast path, the ladder of yt-dlp attempts, and the one restart of the daemon.
 */
module ResolverRun {
  import opened Wrappers

  datatype Answer = Answer(url: string, headers: string)

  // How a two-byte request for a URL ended.
  datatype Status = Http(code: int) | Broken

  // The request, and the one retry it may get.
  datatype Probe = Probe(first: Status, second: Status)

  datatype DaemonReply = Answered(answer: Answer) | NotResolved | Unusable

  /** Everything one attempt meets: the daemon's reply if it runs, what a fresh yt-dlp would answer, and how the URL
      verifies. */
  datatype Trial = Trial(daemon: Option<DaemonReply>, spawned: Option<Answer>, probe: Probe)

  predicate Fine(s: Status) {
    s.Http? && (s.code == 200 || s.code == 206)
  }

  predicate Verdict(s: Status) {
    s.Http? && 400 <= s.code < 500
  }

  predicate Verifies(p: Probe) {
    Fine(p.first) || (!Verdict(p.first) && Fine(p.second))
  }

  /** A refusal is final; anything else that is not an answer gets one more request. */
  method Verify(p: Probe) returns (ok: bool, requests: nat)
    ensures ok == Verifies(p)
    ensures p.first in {Http(200), Http(206)} ==> ok && requests == 1
    ensures p.first.Http? && 400 <= p.first.code < 500 ==> !ok && requests == 1
    ensures p.first !in {Http(200), Http(206)} && !(p.first.Http? && 400 <= p.first.code < 500) ==>
              requests == 2 && ok == (p.second in {Http(200), Http(206)})
  {
    if Fine(p.first) {
      return true, 1;
    }
    if Verdict(p.first) {
      return false, 1;
    }
    return Fine(p.second), 2;
  }

  // What an attempt resolves to: a daemon that cannot be used is replaced by a fresh process, one that says no is
  // believed.
  function Resolved(t: Trial): Option<Answer> {
    match t.daemon
    case None => t.spawned
    case Some(Answered(a)) => Some(a)
    case Some(NotResolved) => None
    case Some(Unusable) => t.spawned
  }

  // The daemon runs the very program a fresh process would.
  predicate Agrees(t: Trial) {
    match t.daemon
    case Some(Answered(a)) => t.spawned == Some(a)
    case Some(NotResolved) => t.spawned == None
    case Some(Unusable) => true
    case None => true
  }

  /** The daemon is a shortcut and nothing else: with one that answers what a fresh process would, an attempt resolves to
      just that, whether it runs, cannot be used or is not there. */
  lemma {:induction false} DaemonIsAShortcut(t: Trial)
    ensures Agrees(t) ==> Resolved(t) == t.spawned
    ensures t.daemon.Some? && t.daemon.value.Answered? ==> Resolved(t) == Some(t.daemon.value.answer)
    ensures t.daemon == Some(NotResolved) ==> Resolved(t) == None
  {
  }

  predicate Playable(t: Trial) {
    Resolved(t).Some? && Verifies(t.probe)
  }

  // It resolved, but the URL did not work.
  predicate Rejected(t: Trial) {
    Resolved(t).Some? && !Verifies(t.probe)
  }

  // --- what a resolve should come to ---------------------------------------------------------------

  /** Position of the first attempt whose URL works. */
  function FirstPlayable(ts: seq<Trial>): (i: nat)
    ensures i <= |ts|
    ensures forall j | 0 <= j < i :: !Playable(ts[j])
    ensures i < |ts| ==> Playable(ts[i])
    decreases |ts|
  {
    if ts == [] then 0
    else
      var i := FirstPlayable(ts[..|ts| - 1]);
      if i < |ts| - 1 || Playable(ts[|ts| - 1]) then i else |ts|
  }

  /** The daemon is restarted when nothing played, something resolved to a URL that did not work, and it is running. */
  predicate Restarts(ladder: seq<Trial>, running: bool) {
    && FirstPlayable(ladder) == |ladder|
    && (exists i :: 0 <= i < |ladder| && Rejected(ladder[i]))
    && running
  }

  // All attempts that would be made if none worked, in order.
  function Attempts(ladder: seq<Trial>, again: Trial, running: bool): (ts: seq<Trial>)
    ensures |ladder| <= |ts| <= |ladder| + 1
  {
    if Restarts(ladder, running) then ladder + [again] else ladder
  }

  datatype Outcome = Outcome(answer: Option<Answer>, tries: nat, restarts: nat, diagnosed: bool)

  /** The ladder pass by pass. */
  method Walk(ladder: seq<Trial>, again: Trial, running: bool) returns (o: Outcome)
    ensures o == Walked(ladder, again, running)
  {
    o := Outcome(None, 0, 0, true);
    var rejected := false;
    var tries := 0;
    var restarts := 0;
    for pass := 0 to 2
      invariant pass == 0 ==> tries == 0 && restarts == 0 && !rejected
      invariant pass == 1 ==> tries == |ladder| && restarts == 1 && Restarts(ladder, running)
      invariant pass == 2 ==> false
    {
      var attempts := if pass == 0 then ladder else Again(ladder, again);
      var i := 0;
      while i < |attempts|
        invariant i <= |attempts|
        invariant forall j | 0 <= j < i :: !Playable(attempts[j])
        invariant pass == 0 ==> (rejected <==> exists j :: 0 <= j < i && Rejected(attempts[j]))
        invariant tries == (if pass == 0 then i else |ladder| + i)
      {
        tries := tries + 1;
        var resolved := Resolved(attempts[i]);
        if resolved.Some? {
          var ok, _ := Verify(attempts[i].probe);
          if ok {
            return Outcome(resolved, tries, restarts, false);
          }
          assert Rejected(attempts[i]);
          rejected := true;
        }
        i := i + 1;
      }
      if pass > 0 || !rejected || !running {
        return Outcome(None, tries, restarts, true);
      }
      restarts := restarts + 1;
    }
    assert false;
  }

  // The second pass asks the primary client only.
  function Again(ladder: seq<Trial>, again: Trial): seq<Trial> {
    if ladder == [] then [] else [again]
  }

  /** The result in one look: the first attempt that works, in order, over the ladder and, after a restart, the primary
      client once more. */
  function Walked(ladder: seq<Trial>, again: Trial, running: bool): Outcome {
    var ts := Attempts(ladder, again, running);
    var i := FirstPlayable(ts);
    Outcome(if i < |ts| then Resolved(ts[i]) else None, if i < |ts| then i + 1 else |ts|,
            if Restarts(ladder, running) then 1 else 0, i == |ts|)
  }

  /** It fails only if every attempt failed, and for a ladder of any length it makes each attempt at most once, the
      primary one once more, and restarts the daemon at most once. */
  lemma {:induction false} ResolveIsExhaustive(ladder: seq<Trial>, again: Trial, running: bool)
    ensures var o := Walked(ladder, again, running);
            && (o.answer.None? <==>
                  && (forall i | 0 <= i < |ladder| :: !Playable(ladder[i]))
                  && (Restarts(ladder, running) ==> !Playable(again)))
            && (o.answer.None? <==> o.diagnosed)
            && o.tries <= |ladder| + o.restarts && o.restarts <= 1
  {
    var ts := Attempts(ladder, again, running);
    assert forall i | 0 <= i < |ladder| :: ts[i] == ladder[i];
  }

  /** It stops at the first attempt that works, having made exactly the ones before it; with none on the ladder it makes
      them all, and the primary one again after a restart. */
  lemma {:induction false} StopsAtTheFirst(ladder: seq<Trial>, again: Trial, running: bool)
    ensures var o := Walked(ladder, again, running);
            && (forall i | 0 <= i < |ladder| && Playable(ladder[i]) && (forall j | 0 <= j < i :: !Playable(ladder[j])) ::
                  o.answer == Resolved(ladder[i]) && o.tries == i + 1 && o.restarts == 0)
            && ((forall i | 0 <= i < |ladder| :: !Playable(ladder[i])) ==>
                  && o.restarts == (if running && exists i :: 0 <= i < |ladder| && Rejected(ladder[i]) then 1 else 0)
                  && o.tries == |ladder| + o.restarts
                  && o.answer == if o.restarts == 1 && Playable(again) then Resolved(again) else None)
  {
    var ts := Attempts(ladder, again, running);
    var k := FirstPlayable(ts);
    assert forall i | 0 <= i < |ladder| :: ts[i] == ladder[i];
    var n := FirstPlayable(ladder);
    assert n < |ladder| ==> Playable(ladder[n]);
  }

  // --- the restart ----------------------------------------------------------------------------

  /** The intention: restart only once the whole ladder has produced URLs that do not work. */
  predicate WholeLadderRejected(ladder: seq<Trial>) {
    ladder != [] && forall i | 0 <= i < |ladder| :: Rejected(ladder[i])
  }

  // Whenever the intention is met and the daemon runs, it is restarted.
  lemma {:induction false} RestartedForTheWholeLadder(ladder: seq<Trial>, running: bool)
    ensures running && WholeLadderRejected(ladder) ==> Restarts(ladder, running)
    ensures Restarts(ladder, running) ==>
              (WholeLadderRejected(ladder) <==> forall i | 0 <= i < |ladder| :: Resolved(ladder[i]).Some?)
  {
    if WholeLadderRejected(ladder) {
      assert Rejected(ladder[0]);
    }
  }

  /** The daemon is restarted although the intention is not met if and only if it runs, nothing played, one attempt came
      to a URL that did not work, and another resolved nothing. */
  lemma {:induction false} RestartsBeforeTheWholeLadder(ladder: seq<Trial>, running: bool)
    ensures Restarts(ladder, running) && !WholeLadderRejected(ladder) <==>
            && running && (forall i | 0 <= i < |ladder| :: !Playable(ladder[i]))
            && (exists i :: 0 <= i < |ladder| && Rejected(ladder[i]))
            && (exists i :: 0 <= i < |ladder| && Resolved(ladder[i]).None?)
  {
    RestartedForTheWholeLadder(ladder, running);
    var n := FirstPlayable(ladder);
    assert n < |ladder| ==> Playable(ladder[n]);
  }

  /** Such a ladder exists: one rejected URL, and a rest that resolved nothing. */
  lemma {:induction false} OneRejectionRestarts()
    ensures var rejected := Trial(None, Some(Answer("http", "")), Probe(Http(403), Broken));
            var silent := Trial(None, None, Probe(Broken, Broken));
            Restarts([rejected, silent], true) && !WholeLadderRejected([rejected, silent])
  {
    var rejected := Trial(None, Some(Answer("http", "")), Probe(Http(403), Broken));
    var silent := Trial(None, None, Probe(Broken, Broken));
    assert Rejected([rejected, silent][0]);
    assert !Rejected([rejected, silent][1]);
  }
}
