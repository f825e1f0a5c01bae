/**
 One play request: which route it takes, when it is retried, and when the retry takes another route. Requests run one
 after the other.
 */
module PlayRetry {
  import opened InsertionMap
  import opened Resolver
  import opened ResolverObject
  import opened ResolverRun
  import opened Wrappers

  // What mpv is handed: a file on disk, a resolved URL, or the watch page for mpv to resolve by itself.
  datatype Route = File | Stream(answer: Answer, fast: bool) | Watch

  // The command is refused, or accepted and the track then opens or does not.
  datatype Load = CommandRefused | Opens | Breaks

  /** What one attempt meets: the time, whether a copy being fetched is complete when the attempt begins, what a resolve
      would find, how the load ends, and whether the copy is complete when a broken stream is looked after. */
  datatype Attempt = Attempt(now: int, arrived: bool, weather: Weather, load: Load, rescued: bool)

  datatype Config = Config(enabled: bool, hasFast: bool, stamp: string -> Option<int>)

  // `onDisk` and `fetching`: whether the song is cached, and whether a download of it is under way.
  datatype Playback = Playback(retriedFor: Option<string>, onDisk: bool, fetching: bool, resolver: Resolver.State)

  // A song on disk is not being downloaded.
  predicate Settled(s: Playback) {
    !(s.onDisk && s.fetching)
  }

  // --- the route -------------------------------------------------------------------------------

  // Cached, joined to a resolve in flight, or resolved now.
  function UrlFor(r: Resolver.State, id: string, a: Attempt, c: Config): (Resolver.State, Option<Answer>) {
    var hit := Peeked(r, id, a.now);
    var r1 := Apply(r, Peek(id, a.now), c.hasFast, c.stamp);
    if hit.Some? || !c.enabled then (r1, hit)
    else
      var r2 := if id in r1.inflight then r1 else Apply(r1, Begin(id, a.now), c.hasFast, c.stamp);
      var found := RunResult(id in r2.inflight && r2.inflight[id], a.weather);
      (Apply(r2, Land(id, a.weather), c.hasFast, c.stamp), if found.Some? then Some(found.value.answer) else None)
  }

  predicate IsFast(r: Resolver.State, id: string) {
    id in r.cache.items && r.cache.items[id].fast
  }

  function Taken(s: Playback, id: string, a: Attempt, c: Config): (Playback, Route) {
    if s.onDisk || (s.fetching && a.arrived) then (Playback(s.retriedFor, true, false, s.resolver), File)
    else
      var (r, url) := UrlFor(s.resolver, id, a, c);
      (Playback(s.retriedFor, false, s.fetching || url.Some?, r),
       if url.Some? then Stream(url.value, IsFast(r, id)) else Watch)
  }

  // --- the retry rule ----------------------------------------------------------------------------

  predicate Retries(s: Playback, id: string, route: Route, load: Load) {
    load == Breaks && route != Watch && s.retriedFor != Some(id)
  }

  // What is put away before the second attempt.
  function PutAway(s: Playback, id: string, route: Route, a: Attempt, c: Config): Playback {
    if route == File then Playback(Some(id), false, false, s.resolver)
    else if a.rescued then Playback(Some(id), true, false, s.resolver)
    else Playback(Some(id), s.onDisk, s.fetching, Apply(s.resolver, Invalidate(id, a.now), c.hasFast, c.stamp))
  }

  datatype Played = Played(state: Playback, ok: bool, loads: seq<Route>)

  function DoPlay(s: Playback, id: string, first: Attempt, second: Attempt, c: Config): Played
    decreases if s.retriedFor == Some(id) then 0 else 1
  {
    var (s1, route) := Taken(s, id, first, c);
    if first.load == CommandRefused then Played(s1, false, [route])
    else if Retries(s1, id, route, first.load) then
      var again := DoPlay(PutAway(s1, id, route, first, c), id, second, second, c);
      Played(again.state, again.ok, [route] + again.loads)
    else Played(Playback(None, s1.onDisk, s1.fetching, s1.resolver), first.load == Opens, [route])
  }

  class Player {
    var retriedFor: Option<string>
    var onDisk: bool
    var fetching: bool
    const resolver: Resolving
    const enabled: bool

    ghost function View(): Playback
      reads this, resolver
    {
      Playback(retriedFor, onDisk, fetching, resolver.View())
    }

    function Settings(): Config {
      Config(enabled, resolver.hasFast, resolver.stamp)
    }

    constructor (resolver: Resolving, enabled: bool)
      ensures this.resolver == resolver && this.enabled == enabled && retriedFor == None
      ensures !onDisk && !fetching
    {
      this.resolver, this.enabled, retriedFor, onDisk, fetching := resolver, enabled, None, false, false;
    }

    method FindUrl(id: string, a: Attempt) returns (url: Option<Answer>)
      requires Valid(resolver.View())
      modifies resolver
      ensures (resolver.View(), url) == UrlFor(old(resolver.View()), id, a, Settings()) && Valid(resolver.View())
    {
      url := resolver.PeekUrl(id, a.now);
      if url.Some? || !enabled {
        return;
      }
      if id !in resolver.inflight {
        var _ := resolver.BeginResolve(id, a.now);
      }
      url := resolver.LandResolve(id, a.weather);
    }

    // From the song cache, from the resolver, or left to mpv. A stream is fetched alongside.
    method TakeRoute(id: string, a: Attempt) returns (route: Route)
      requires Valid(resolver.View())
      modifies this`onDisk, this`fetching, resolver
      ensures Valid(resolver.View()) && (View(), route) == Taken(old(View()), id, a, Settings())
    {
      if fetching && a.arrived {
        onDisk := true;
      }
      if onDisk {
        fetching := false;
        return File;
      }
      var direct := FindUrl(id, a);
      if direct.None? {
        return Watch;
      }
      fetching := true;
      return Stream(direct.value, id in resolver.cache.items && resolver.cache.items[id].fast);
    }

    /** The whole request, retry included. */
    method Play(id: string, first: Attempt, second: Attempt) returns (ok: bool, loads: seq<Route>)
      requires Valid(resolver.View())
      modifies this`retriedFor, this`onDisk, this`fetching, resolver
      ensures Valid(resolver.View())
      ensures Played(View(), ok, loads) == DoPlay(old(View()), id, first, second, Settings())
      decreases if retriedFor == Some(id) then 0 else 1
    {
      var route := TakeRoute(id, first);
      ghost var s1 := View();
      loads := [route];
      if first.load == CommandRefused {
        return false, loads;
      }
      ok := first.load == Opens;
      if !ok && route != Watch && retriedFor != Some(id) {
        retriedFor := Some(id);
        if route == File {
          onDisk := false;
        } else if first.rescued {
          onDisk, fetching := true, false;
        } else {
          resolver.InvalidateUrl(id, first.now);
        }
        assert View() == PutAway(s1, id, route, first, Settings());
        var more;
        ok, more := Play(id, second, second);
        return ok, loads + more;
      }
      retriedFor := None;
    }
  }

  // --- what the rule is for ----------------------------------------------------------------------

  lemma {:induction false} UrlForKeepsValid(r: Resolver.State, id: string, a: Attempt, c: Config)
    requires Valid(r)
    ensures Valid(UrlFor(r, id, a, c).0)
    ensures UrlFor(r, id, a, c).1.Some? ==>
              var (e, url) := UrlFor(r, id, a, c); id in e.cache.items && e.cache.items[id].answer == url.value
  {
    var hit := Peeked(r, id, a.now);
    var r1 := Apply(r, Peek(id, a.now), c.hasFast, c.stamp);
    StepKeepsValid(r, Peek(id, a.now), c.hasFast, c.stamp);
    RemoveIsWellFormed(r.cache, id);
    if hit.None? && c.enabled {
      var r2 := if id in r1.inflight then r1 else Apply(r1, Begin(id, a.now), c.hasFast, c.stamp);
      if id !in r1.inflight {
        StepKeepsValid(r1, Begin(id, a.now), c.hasFast, c.stamp);
      }
      StepKeepsValid(r2, Land(id, a.weather), c.hasFast, c.stamp);
      var f := RunResult(r2.inflight[id], a.weather);
      if f.Some? {
        BoundedPut(r2.cache, id, EntryFor(f.value, c.stamp), MAX_ENTRIES);
      }
    }
  }

  // Whether a resolve after the first attempt's URL was handed back tries the fast path.
  predicate FastAgain(r: Resolver.State, id: string, now: int, c: Config) {
    c.hasFast && !Refused(r, id, now)
  }

  // What the second attempt resolves, once the first one's URL was handed back.
  function Fresh(s1: Playback, id: string, first: Attempt, second: Attempt, c: Config): Option<Found> {
    var r := Apply(s1.resolver, Invalidate(id, first.now), c.hasFast, c.stamp);
    if c.enabled then RunResult(FastAgain(r, id, second.now, c), second.weather) else None
  }

  /** Where the retry goes: from a file to a stream, from a stream whose copy is complete to the file, and otherwise to
      what a new resolve answers, or to mpv. A fast URL is followed by one that is not, while its refusal lasts. */
  predicate Rerouted(s1: Playback, id: string, route: Route, again: Route, first: Attempt, second: Attempt, c: Config) {
    match route
    case File => again != File
    case Stream(_, fast) =>
      if first.rescued || second.arrived then again == File
      else
        && again == (match Fresh(s1, id, first, second, c) case None => Watch case Some(f) => Stream(f.answer, f.fast))
        && (fast && second.now - first.now < FAST_REFUSED ==> !(again.Stream? && again.fast))
    case Watch => false
  }

  predicate SameUrl(a: Route, b: Route) {
    a.Stream? && b.Stream? && a.answer == b.answer
  }

  /** The retry comes to the very URL that failed: there is no copy to fall back on, and the new resolve answers the same,
      whichever way either was resolved. */
  predicate AnswersAgain(s1: Playback, id: string, route: Route, first: Attempt, second: Attempt, c: Config) {
    && route.Stream? && !first.rescued && !second.arrived
    && Fresh(s1, id, first, second, c).Some? && Fresh(s1, id, first, second, c).value.answer == route.answer
  }

  /** One request makes at most two loads and succeeds exactly if the last of them opens. The second goes where `Rerouted`
      says. It loads the URL that failed if and only if a new resolve answers the same, and it is the same route if and
      only if that resolve also came by it the same way. */
  lemma {:induction false} RetryTakesAnotherRoute(
    s: Playback, id: string, first: Attempt, second: Attempt, c: Config)
    requires Valid(s.resolver) && Settled(s) && s.retriedFor != Some(id)
    ensures var p, s1 := DoPlay(s, id, first, second, c), Taken(s, id, first, c).0;
            && 1 <= |p.loads| <= 2
            && p.ok == ((if |p.loads| == 1 then first else second).load == Opens)
            && (|p.loads| == 2 <==> first.load == Breaks && p.loads[0] != Watch)
            && (|p.loads| == 2 ==>
                  && Rerouted(s1, id, p.loads[0], p.loads[1], first, second, c)
                  && (SameUrl(p.loads[0], p.loads[1]) <==> AnswersAgain(s1, id, p.loads[0], first, second, c))
                  && (p.loads[1] == p.loads[0] <==>
                        && AnswersAgain(s1, id, p.loads[0], first, second, c)
                        && Fresh(s1, id, first, second, c).value.fast == p.loads[0].fast))
  {
    UrlForKeepsValid(s.resolver, id, first, c);
    var (s1, route) := Taken(s, id, first, c);
    if Retries(s1, id, route, first.load) {
      SecondRoute(s1, id, route, first, second, c);
    }
  }

  /** The URL of a second stream was resolved and verified after the first one was handed back. */
  lemma {:induction false} SecondUrlIsFresh(s: Playback, id: string, first: Attempt, second: Attempt, c: Config)
    requires Valid(s.resolver) && Settled(s) && s.retriedFor != Some(id)
    ensures var loads, s1 := DoPlay(s, id, first, second, c).loads, Taken(s, id, first, c).0;
            var r := Apply(s1.resolver, Invalidate(id, first.now), c.hasFast, c.stamp);
            |loads| == 2 && loads[0].Stream? && loads[1].Stream? ==>
              && id !in r.cache.items && id !in r.inflight
              && loads[1].answer in PassedBy(TrialsOf(FastAgain(r, id, second.now, c), second.weather))
  {
    RetryTakesAnotherRoute(s, id, first, second, c);
    UrlForKeepsValid(s.resolver, id, first, c);
    var (s1, route) := Taken(s, id, first, c);
    if route.Stream? {
      var r := Apply(s1.resolver, Invalidate(id, first.now), c.hasFast, c.stamp);
      RemoveIsWellFormed(s1.resolver.cache, id);
      RunResultIsVerified(FastAgain(r, id, second.now, c), second.weather);
    }
  }

  lemma {:induction false} SecondRoute(
    s1: Playback, id: string, route: Route, first: Attempt, second: Attempt, c: Config)
    requires Valid(s1.resolver) && route != Watch && (route == File ==> !s1.fetching)
    requires route.Stream? ==> !s1.onDisk && s1.fetching && id in s1.resolver.cache.items
    requires route.Stream? ==> route.fast == IsFast(s1.resolver, id)
    ensures var again := Taken(PutAway(s1, id, route, first, c), id, second, c).1;
            && Rerouted(s1, id, route, again, first, second, c)
            && (SameUrl(route, again) <==> AnswersAgain(s1, id, route, first, second, c))
            && (again == route <==>
                  && AnswersAgain(s1, id, route, first, second, c)
                  && Fresh(s1, id, first, second, c).value.fast == route.fast)
  {
    if route.Stream? && !first.rescued && !second.arrived {
      var r := Apply(s1.resolver, Invalidate(id, first.now), c.hasFast, c.stamp);
      HandedBack(s1.resolver, id, first.now, c.hasFast, c.stamp);
      NewResolve(r, id, second, c);
    }
  }

  // A resolve begun with the URL neither cached nor on its way.
  lemma {:induction false} NewResolve(r: Resolver.State, id: string, a: Attempt, c: Config)
    requires Valid(r) && id !in r.cache.items && id !in r.inflight
    ensures var (n, url) := UrlFor(r, id, a, c);
            var found := if c.enabled then RunResult(FastAgain(r, id, a.now, c), a.weather) else None;
            && url == (if found.Some? then Some(found.value.answer) else None)
            && (found.Some? ==> IsFast(n, id) == found.value.fast)
  {
    assert Peeked(r, id, a.now) == None && Apply(r, Peek(id, a.now), c.hasFast, c.stamp) == r;
    if c.enabled {
      var r2 := Apply(r, Begin(id, a.now), c.hasFast, c.stamp);
      StepKeepsValid(r, Begin(id, a.now), c.hasFast, c.stamp);
      assert id in r2.inflight && r2.inflight[id] == FastAgain(r, id, a.now, c);
      Landed(r2, id, a.weather, c);
    }
  }

  lemma {:induction false} Landed(r: Resolver.State, id: string, w: Weather, c: Config)
    requires Valid(r) && id in r.inflight
    ensures var found := RunResult(r.inflight[id], w);
            found.Some? ==> IsFast(Apply(r, Land(id, w), c.hasFast, c.stamp), id) == found.value.fast
  {
    var found := RunResult(r.inflight[id], w);
    if found.Some? {
      BoundedPut(r.cache, id, EntryFor(found.value, c.stamp), MAX_ENTRIES);
    }
  }

  // An attempt at an empty ladder but for one URL that works.
  function Steady(now: int): Attempt {
    var rung := Trial(None, Some(Answer("x", "")), Probe(Http(200), Broken));
    Attempt(now, false, Weather(rung, [rung], rung, false), Breaks, false)
  }

  /** It does happen that both loads are the same URL: it verifies but does not play, and is resolved again. With a fast
      path the first comes from there and the second from the ladder. */
  lemma {:induction false} BrokenUrlIsRepeated(c: Config)
    requires c.enabled
    ensures var s := Playback(None, false, false, FRESH);
            var loads := DoPlay(s, "v", Steady(0), Steady(1), c).loads;
            loads == [Stream(Answer("x", ""), c.hasFast), Stream(Answer("x", ""), false)]
  {
    var s := Playback(None, false, false, FRESH);
    var a, b := Steady(0), Steady(1);
    NewResolve(FRESH, "v", a, c);
    SteadyFinds(a, c.hasFast);
    SteadyFinds(b, false);
    SteadyFinds(b, c.hasFast);
    UrlForKeepsValid(FRESH, "v", a, c);
    var (s1, route) := Taken(s, "v", a, c);
    assert route == Stream(Answer("x", ""), c.hasFast);
    HandedBack(s1.resolver, "v", 0, c.hasFast, c.stamp);
    RetryTakesAnotherRoute(s, "v", a, b, c);
  }

  lemma {:induction false} SteadyFinds(a: Attempt, fast: bool)
    requires a == Steady(a.now)
    ensures RunResult(fast, a.weather) == Some(Found(Answer("x", ""), fast))
  {
    var ladder := a.weather.ladder;
    assert Playable(ladder[0]) && Playable(a.weather.fast);
    assert FirstPlayable(ladder) == 0;
  }

  /** Whatever was streamed is fetched: after a request that streamed, or that found a download under way, the song is on
      disk or still being fetched, unless a file of it turned out not to play. */
  lemma {:induction false} StreamedIsFetched(s: Playback, id: string, first: Attempt, second: Attempt, c: Config)
    requires Settled(s) && s.retriedFor != Some(id)
    ensures var p := DoPlay(s, id, first, second, c);
            && Settled(p.state)
            && ((s.fetching && File !in p.loads) || (exists k :: 0 <= k < |p.loads| && p.loads[k].Stream?)
                ==> p.state.onDisk || p.state.fetching)
  {
    var (s1, route) := Taken(s, id, first, c);
    if Retries(s1, id, route, first.load) {
      var s2 := PutAway(s1, id, route, first, c);
      var (s3, again) := Taken(s2, id, second, c);
      assert DoPlay(s, id, first, second, c).loads == [route, again];
    }
  }

  // --- the guard ---------------------------------------------------------------------------------

  // The guard at the end of a request.
  lemma {:induction false} GuardIsReset(s: Playback, id: string, first: Attempt, second: Attempt, c: Config)
    ensures var p := DoPlay(s, id, first, second, c);
            if first.load == CommandRefused then p.state.retriedFor == s.retriedFor
            else if |p.loads| == 2 && second.load == CommandRefused then p.state.retriedFor == Some(id)
            else p.state.retriedFor == None
  {
  }

  /** The next request for the same video, if its load breaks too, goes without its retry if and only if this one was
      retried and the command of the retry was refused: that leaves the guard set. */
  lemma {:induction false} RefusedRetryCostsTheNext(
    s: Playback, id: string, first: Attempt, second: Attempt, third: Attempt, fourth: Attempt, c: Config)
    requires s.retriedFor != Some(id)
    requires var n := DoPlay(s, id, first, second, c).state; third.load == Breaks && Taken(n, id, third, c).1 != Watch
    ensures var p := DoPlay(s, id, first, second, c);
            |DoPlay(p.state, id, third, fourth, c).loads| == 1 <==> |p.loads| == 2 && second.load == CommandRefused
  {
    GuardIsReset(s, id, first, second, c);
    var n := DoPlay(s, id, first, second, c).state;
    assert Taken(n, id, third, c).0.retriedFor == n.retriedFor;
  }
}
