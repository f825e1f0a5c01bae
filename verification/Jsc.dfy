/**
 The resident challenge worker: preprocessed players are cached in memory and on disk, and a cached solve must answer
 what solving from the freshly downloaded player would have answered.
 */
module Jsc {
  import opened InsertionMap
  import opened LineFraming
  import opened Wrappers

  const MAX_PLAYERS: nat := 4

  datatype Kind = N | Sig

  datatype Request = Request(kind: Kind, challenges: seq<string>)

  // The answer to one request, error texts left aside.
  datatype Response = Solved(data: map<string, string>) | Failed

  // A solver may throw on a challenge; a player may define only one of the two.
  datatype Solvers = Solvers(n: Option<string -> Option<string>>, sig: Option<string -> Option<string>>)

  /** What is outside: the player code behind each player id, the solver core's preprocessing and its entry point, and
      what evaluating a preprocessed player defines. `answer` is what the core says of one request. */
  datatype Core = Core(
    code: string -> string,
    preprocess: string -> Option<string>,
    evaluate: string -> Option<Solvers>,
    entry: (Option<string>, seq<Request>) -> Option<seq<Response>>,
    answer: (string, Request) -> Response)

  // --- the solver core -------------------------------------------------------------------------

  function BuildSolvers(core: Core, preprocessed: string): Option<Solvers> {
    match core.evaluate(preprocessed)
    case None => None
    case Some(s) => if s.n.None? && s.sig.None? then None else Some(s)
  }

  function SolveWith(s: Solvers, r: Request): Response {
    var solver := if r.kind == N then s.n else s.sig;
    if solver.None? || exists c :: c in r.challenges && solver.value(c).None? then Failed
    else Solved(map c | c in r.challenges :: solver.value(c).value)
  }

  function Answers(core: Core, code: string, rs: seq<Request>): (a: seq<Response>)
    ensures |a| == |rs|
  {
    seq(|rs|, i requires 0 <= i < |rs| => core.answer(code, rs[i]))
  }

  /** What solving straight from the player code returns, with the preprocessed player beside it. */
  function FromPlayer(core: Core, code: string, rs: seq<Request>): Option<(seq<Response>, string)> {
    match core.preprocess(code)
    case None => None
    case Some(pre) => Some((Answers(core, code, rs), pre))
  }

  // `a` is what this solver makes of the challenges: each its own result, or a failure if there is no solver or it throws
  // on one of them.
  ghost predicate Gives(solver: Option<string -> Option<string>>, challenges: seq<string>, a: Response) {
    match a
    case Failed => solver.None? || exists c :: c in challenges && solver.value(c).None?
    case Solved(data) =>
      && solver.Some? && (forall c :: c in data <==> c in challenges)
      && (forall c | c in data :: solver.value(c) == Some(data[c]))
  }

  // What evaluating the preprocessed player defines, if it defines any solver.
  ghost predicate Defines(core: Core, preprocessed: string, s: Solvers) {
    core.evaluate(preprocessed) == Some(s) && (s.n.Some? || s.sig.Some?)
  }

  /** The contract the cache relies on: solving from a preprocessed player, through the entry point or by the solvers
      it defines - the n solver for n challenges, the sig solver for sig challenges - is solving from the player it was
      made of; and without a preprocessed player nothing is solved. */
  ghost predicate Lawful(core: Core) {
    && (forall c, s, r: Request | core.preprocess(c).Some? && Defines(core, core.preprocess(c).value, s) ::
          && (r.kind == N ==> Gives(s.n, r.challenges, core.answer(c, r)))
          && (r.kind == Sig ==> Gives(s.sig, r.challenges, core.answer(c, r))))
    && (forall c, rs: seq<Request> | core.preprocess(c).Some? ::
          core.entry(core.preprocess(c), rs) == Some(Answers(core, c, rs)))
    && (forall rs: seq<Request> :: core.entry(None, rs).None? || AllFailed(core.entry(None, rs).value))
  }

  /** Solving by the solvers of a preprocessed player is solving from the player. */
  lemma {:induction false} RebuiltAnswers(core: Core, c: string, r: Request)
    requires Lawful(core) && core.preprocess(c).Some? && BuildSolvers(core, core.preprocess(c).value).Some?
    ensures SolveWith(BuildSolvers(core, core.preprocess(c).value).value, r) == core.answer(c, r)
  {
    var s := BuildSolvers(core, core.preprocess(c).value).value;
    assert Defines(core, core.preprocess(c).value, s);
    var a := SolveWith(s, r);
    if a.Solved? && core.answer(c, r).Solved? {
      assert a.data == core.answer(c, r).data;
    }
  }

  predicate AllFailed(a: seq<Response>) {
    forall i | 0 <= i < |a| :: a[i] == Failed
  }

  // --- the worker ------------------------------------------------------------------------------

  /** Preprocessed players held in memory, oldest first, and the players whose solvers could not be built. */
  datatype Memory = Memory(sources: OMap<string, string>, marked: set<string>)

  const EMPTY: Memory := Memory(OMap([], map[]), {})

  datatype Ask = Ask(player: string, requests: seq<Request>, preprocessed: string, code: string)

  datatype Reply = Done(responses: seq<Response>, preprocessed: string) | NeedCode | Error

  function Remember(m: Memory, player: string, pre: string): Memory {
    Memory(Trim(Put(m.sources, player, pre), MAX_PLAYERS), m.marked)
  }

  function Through(core: Core, m: Memory, player: string, rs: seq<Request>): Reply {
    match core.entry(if player in m.sources.items then Some(m.sources.items[player]) else None, rs)
    case None => Error
    case Some(a) => Done(a, "")
  }

  function Responses(s: Solvers, rs: seq<Request>): (a: seq<Response>)
    ensures |a| == |rs|
  {
    seq(|rs|, i requires 0 <= i < |rs| => SolveWith(s, rs[i]))
  }

  function Solve(core: Core, m: Memory, ask: Ask): (Memory, Reply)
    decreases |ask.preprocessed|
  {
    var p, rs := ask.player, ask.requests;
    if p in m.sources.items && p !in m.marked then
      match BuildSolvers(core, m.sources.items[p])
      case Some(s) => (m, Done(Responses(s, rs), ""))
      case None => var marked := Memory(m.sources, m.marked + {p}); (marked, Through(core, marked, p, rs))
    else if p in m.marked then (m, Through(core, m, p, rs))
    else if ask.preprocessed != "" then Solve(core, Remember(m, p, ask.preprocessed), Ask(p, rs, "", ask.code))
    else if ask.code != "" then
      match FromPlayer(core, ask.code, rs)
      case None => (m, Error)
      case Some((a, pre)) => (if pre != "" then Remember(m, p, pre) else m, Done(a, pre))
    else (m, NeedCode)
  }

  class PlayerWorker {
    var sources: OMap<string, string>
    var marked: set<string>

    constructor ()
      ensures View() == EMPTY
    {
      sources, marked := OMap([], map[]), {};
    }

    function View(): Memory
      reads this
    {
      Memory(sources, marked)
    }

    method RememberPlayer(player: string, pre: string)
      modifies this`sources
      ensures View() == Remember(old(View()), player, pre)
    {
      sources := Put(sources, player, pre);
      while |sources.order| > MAX_PLAYERS
        invariant Trim(sources, MAX_PLAYERS) == Trim(Put(old(sources), player, pre), MAX_PLAYERS)
      {
        sources := OMap(sources.order[1..], sources.items - {sources.order[0]});
      }
    }

    /** One `solve` message: exactly one reply, and nothing but the cache changes. */
    method SolveMessage(core: Core, ask: Ask) returns (reply: Reply)
      modifies this
      ensures (View(), reply) == Solve(core, old(View()), ask)
      decreases |ask.preprocessed|
    {
      var p := ask.player;
      if p in sources.items && p !in marked {
        var cached := BuildSolvers(core, sources.items[p]);
        if cached.Some? {
          return Done(Responses(cached.value, ask.requests), "");
        }
        marked := marked + {p};
      }
      if p in marked {
        return Through(core, View(), p, ask.requests);
      }
      if ask.preprocessed != "" {
        RememberPlayer(p, ask.preprocessed);
        reply := SolveMessage(core, Ask(p, ask.requests, "", ask.code));
        return;
      }
      if ask.code != "" {
        var out := FromPlayer(core, ask.code, ask.requests);
        if out.None? {
          return Error;
        }
        if out.value.1 != "" {
          RememberPlayer(p, out.value.1);
        }
        return Done(out.value.0, out.value.1);
      }
      return NeedCode;
    }
  }

  // --- the daemon's side of it -----------------------------------------------------------------

  /** One solve as the daemon runs it: ask, fetch code only if told to, preferably from disk, ask again. `None` is an
      error, and another provider takes over. */
  datatype Outcome = Outcome(memory: Memory, disk: map<string, string>, result: Option<seq<Response>>, exchanges: nat)

  function Loaded(disk: map<string, string>, player: string): string {
    if player in disk then disk[player] else ""
  }

  // The second question: what is on disk, else the player itself.
  function Fetched(core: Core, disk: map<string, string>, player: string, rs: seq<Request>): Ask {
    var pre := Loaded(disk, player);
    if pre != "" then Ask(player, rs, pre, "") else Ask(player, rs, "", core.code(player))
  }

  function Judge(disk: map<string, string>, player: string, rs: seq<Request>, m: Memory, reply: Reply, n: nat): Outcome {
    match reply
    case Done(a, pre) =>
      Outcome(m, if pre != "" then disk[player := pre] else disk, if |a| == |rs| then Some(a) else None, n)
    case NeedCode => Outcome(m, disk, None, n)
    case Error => Outcome(m, disk, None, n)
  }

  function SolveCall(
    core: Core, m: Memory, disk: map<string, string>, player: string, rs: seq<Request>, downloads: bool): Outcome
  {
    var (m1, reply) := Solve(core, m, Ask(player, rs, "", ""));
    if reply != NeedCode then Judge(disk, player, rs, m1, reply, 1)
    else if Loaded(disk, player) == "" && !downloads then Outcome(m1, disk, None, 1)
    else
      var (m2, again) := Solve(core, m1, Fetched(core, disk, player, rs));
      Judge(disk, player, rs, m2, again, 2)
  }

  class Daemon {
    var worker: PlayerWorker
    var disk: map<string, string>

    constructor ()
      ensures worker.View() == EMPTY && disk == map[] && fresh(worker)
    {
      worker := new PlayerWorker();
      disk := map[];
    }

    /** At most two exchanges, whatever is cached where. */
    method SolveRequests(core: Core, player: string, rs: seq<Request>, downloads: bool)
      returns (result: Option<seq<Response>>, ghost exchanges: nat)
      modifies this`disk, worker
      ensures Outcome(worker.View(), disk, result, exchanges) ==
              SolveCall(core, old(worker.View()), old(disk), player, rs, downloads)
      ensures exchanges <= 2
    {
      var reply := worker.SolveMessage(core, Ask(player, rs, "", ""));
      exchanges := 1;
      if reply == NeedCode {
        var preprocessed := Loaded(disk, player);
        if preprocessed != "" {
          reply := worker.SolveMessage(core, Ask(player, rs, preprocessed, ""));
        } else if !downloads {
          return None, exchanges;
        } else {
          reply := worker.SolveMessage(core, Ask(player, rs, "", core.code(player)));
        }
        exchanges := 2;
      }
      match reply
      case Error => return None, exchanges;
      case NeedCode => return None, exchanges;
      case Done(a, pre) =>
        if pre != "" {
          disk := disk[player := pre];
        }
        return if |a| == |rs| then Some(a) else None, exchanges;
    }
  }

  // --- reachable states ------------------------------------------------------------------------

  // What memory and disk hold for a player was made of that player.
  ghost predicate Sound(core: Core, m: Memory, disk: map<string, string>) {
    && (forall p | p in m.sources.items ::
          core.code(p) != "" && core.preprocess(core.code(p)) == Some(m.sources.items[p]))
    && (forall p | p in disk ::
          core.code(p) != "" && core.preprocess(core.code(p)) == Some(disk[p]) && disk[p] != "")
    && WellFormed(m.sources) && |m.sources.order| <= MAX_PLAYERS
  }

  lemma {:induction false} RememberIsSound(core: Core, m: Memory, disk: map<string, string>, p: string, pre: string)
    requires Sound(core, m, disk) && p !in m.sources.items
    requires core.code(p) != "" && core.preprocess(core.code(p)) == Some(pre)
    ensures var n := Remember(m, p, pre);
            Sound(core, n, disk) && p in n.sources.items && n.sources.items[p] == pre && n.marked == m.marked
  {
    BoundedPut(m.sources, p, pre, MAX_PLAYERS);
  }

  /** A player is stuck once its solvers could not be built and its source was dropped to make room: the worker no
      longer asks for its code. */
  predicate Stuck(m: Memory, p: string) {
    p in m.marked && p !in m.sources.items
  }

  // The uncached answer.
  function Uncached(core: Core, p: string, rs: seq<Request>): Option<seq<Response>> {
    if core.code(p) == "" || core.preprocess(core.code(p)).None? then None else Some(Answers(core, core.code(p), rs))
  }

  lemma {:induction false} RebuiltAnswersAll(core: Core, c: string, rs: seq<Request>)
    requires Lawful(core) && core.preprocess(c).Some? && BuildSolvers(core, core.preprocess(c).value).Some?
    ensures Responses(BuildSolvers(core, core.preprocess(c).value).value, rs) == Answers(core, c, rs)
  {
    forall i | 0 <= i < |rs|
      ensures SolveWith(BuildSolvers(core, core.preprocess(c).value).value, rs[i]) == core.answer(c, rs[i])
    {
      RebuiltAnswers(core, c, rs[i]);
    }
  }

  // A worker that holds the player answers as the core would, whichever way it takes.
  lemma {:induction false} HeldAnswers(core: Core, m: Memory, disk: map<string, string>, ask: Ask)
    requires Lawful(core) && Sound(core, m, disk) && ask.player in m.sources.items
    ensures var (n, reply) := Solve(core, m, ask);
            && reply == Done(Answers(core, core.code(ask.player), ask.requests), "")
            && n.sources == m.sources && m.marked <= n.marked <= m.marked + {ask.player}
  {
    var c := core.code(ask.player);
    if BuildSolvers(core, core.preprocess(c).value).Some? {
      RebuiltAnswersAll(core, c, ask.requests);
    }
  }

  lemma {:induction false} FetchedAnswers(core: Core, m: Memory, disk: map<string, string>, p: string, rs: seq<Request>)
    requires Lawful(core) && Sound(core, m, disk) && p !in m.sources.items && p !in m.marked
    ensures var (n, reply) := Solve(core, m, Fetched(core, disk, p, rs));
            var o := Judge(disk, p, rs, n, reply, 2);
            && o.result == Uncached(core, p, rs)
            && Sound(core, o.memory, o.disk)
  {
    var ask := Fetched(core, disk, p, rs);
    if Loaded(disk, p) != "" {
      RememberIsSound(core, m, disk, p, disk[p]);
      HeldAnswers(core, Remember(m, p, disk[p]), disk, Ask(p, rs, "", ""));
    } else {
      var out := FromPlayer(core, core.code(p), rs);
      if core.code(p) != "" && out.Some? && out.value.1 != "" {
        RememberIsSound(core, m, disk, p, out.value.1);
      }
    }
  }

  /** In every sound state, a solve takes at most two exchanges, leaves a sound state, and answers exactly what the
      uncached solve answers, unless the player is stuck or its code was needed and could not be fetched. */
  lemma {:induction false} CachedAgreesWithUncached(
    core: Core, m: Memory, disk: map<string, string>, p: string, rs: seq<Request>, downloads: bool)
    requires Lawful(core) && Sound(core, m, disk)
    ensures var o := SolveCall(core, m, disk, p, rs, downloads);
            && o.exchanges <= 2
            && Sound(core, o.memory, o.disk)
            && (Stuck(m, p) ==> o.result.None? || AllFailed(o.result.value))
            && (!Stuck(m, p) && (downloads || p in m.sources.items || p in disk) ==> o.result == Uncached(core, p, rs))
            && (!Stuck(m, p) && !(downloads || p in m.sources.items || p in disk) ==> o.result == None)
  {
    if p in m.sources.items {
      HeldAnswers(core, m, disk, Ask(p, rs, "", ""));
    } else if p !in m.marked {
      assert Solve(core, m, Ask(p, rs, "", "")) == (m, NeedCode);
      FetchedAnswers(core, m, disk, p, rs);
    }
  }

  /** Whatever the core may do, a call that succeeds has one answer for each request. */
  lemma {:induction false} ResultsMatchRequests(
    core: Core, m: Memory, disk: map<string, string>, p: string, rs: seq<Request>, downloads: bool)
    ensures var o := SolveCall(core, m, disk, p, rs, downloads); o.result.Some? ==> |o.result.value| == |rs|
  {
  }

  /** What is in memory or on disk is answered without its player's code: the call comes out the same whatever a download
      would have brought. */
  lemma {:induction false} CachedNeedsNoCode(
    core: Core, m: Memory, disk: map<string, string>, p: string, rs: seq<Request>, downloads: bool,
    other: string -> string)
    requires p in m.sources.items || p in m.marked || Loaded(disk, p) != "" || !downloads
    ensures SolveCall(core.(code := other), m, disk, p, rs, downloads) == SolveCall(core, m, disk, p, rs, downloads)
  {
    SolveNeedsNoCode(core, m, Ask(p, rs, "", ""), other);
    SolveNeedsNoCode(core, Solve(core, m, Ask(p, rs, "", "")).0, Ask(p, rs, Loaded(disk, p), ""), other);
  }

  lemma {:induction false} SolveNeedsNoCode(core: Core, m: Memory, ask: Ask, other: string -> string)
    ensures Solve(core.(code := other), m, ask) == Solve(core, m, ask)
    decreases |ask.preprocessed|
  {
    if ask.preprocessed != "" {
      var again := Ask(ask.player, ask.requests, "", ask.code);
      SolveNeedsNoCode(core, Remember(m, ask.player, ask.preprocessed), again, other);
    }
  }

  // --- whole runs ------------------------------------------------------------------------------

  datatype Event = Call(player: string, requests: seq<Request>, downloads: bool) | Restarted

  datatype World = World(memory: Memory, disk: map<string, string>)

  function Next(core: Core, w: World, e: Event): World {
    match e
    case Call(p, rs, d) => var o := SolveCall(core, w.memory, w.disk, p, rs, d); World(o.memory, o.disk)
    case Restarted => World(EMPTY, w.disk)
  }

  function After(core: Core, w: World, es: seq<Event>): World
    decreases |es|
  {
    if es == [] then w else After(core, Next(core, w, es[0]), es[1..])
  }

  /** After any run of solves and worker restarts memory holds at most `MAX_PLAYERS` players, and everything cached was
      made of the player it is filed under. */
  lemma {:induction false} ReachableIsSound(core: Core, w: World, es: seq<Event>)
    requires Lawful(core) && Sound(core, w.memory, w.disk)
    ensures Sound(core, After(core, w, es).memory, After(core, w, es).disk)
    decreases |es|
  {
    if es != [] {
      if es[0].Call? {
        CachedAgreesWithUncached(core, w.memory, w.disk, es[0].player, es[0].requests, es[0].downloads);
      } else {
        assert WellFormed(EMPTY.sources);
      }
      ReachableIsSound(core, Next(core, w, es[0]), es[1..]);
    }
  }

  // --- marked players --------------------------------------------------------------------------

  // The player's solvers cannot be built outside of the core.
  ghost predicate Unbuildable(core: Core, p: string) {
    core.preprocess(core.code(p)).Some? ==>
      forall s :: !Defines(core, core.preprocess(core.code(p)).value, s)
  }

  lemma {:induction false} SolveMarks(core: Core, m: Memory, disk: map<string, string>, ask: Ask, q: string)
    requires Sound(core, m, disk) && q in Solve(core, m, ask).0.marked && q !in m.marked
    requires ask.player !in m.sources.items && ask.preprocessed != "" ==>
               core.code(ask.player) != "" && core.preprocess(core.code(ask.player)) == Some(ask.preprocessed)
    ensures Unbuildable(core, q)
    decreases |ask.preprocessed|
  {
    var p := ask.player;
    if p !in m.sources.items && p !in m.marked && ask.preprocessed != "" {
      RememberIsSound(core, m, disk, p, ask.preprocessed);
      SolveMarks(core, Remember(m, p, ask.preprocessed), disk, Ask(p, ask.requests, "", ask.code), q);
    }
  }

  lemma {:induction false} NextMarks(core: Core, w: World, e: Event, q: string)
    requires Lawful(core) && Sound(core, w.memory, w.disk)
    requires q in Next(core, w, e).memory.marked && q !in w.memory.marked
    ensures Unbuildable(core, q)
  {
    var (p, rs) := (e.player, e.requests);
    var first := Solve(core, w.memory, Ask(p, rs, "", ""));
    if q in first.0.marked {
      SolveMarks(core, w.memory, w.disk, Ask(p, rs, "", ""), q);
    } else {
      SolveStaysBounded(core, w.memory, Ask(p, rs, "", ""));
      SolveMarks(core, first.0, w.disk, Fetched(core, w.disk, p, rs), q);
    }
  }

  /** Only a player whose solvers cannot be built is ever given up on: over any run every other is rebuilt from its source,
      and can never be stuck. */
  lemma {:induction false} OnlyUnbuildableIsMarked(core: Core, w: World, es: seq<Event>, q: string)
    requires Lawful(core) && Sound(core, w.memory, w.disk) && (q in w.memory.marked ==> Unbuildable(core, q))
    ensures q in After(core, w, es).memory.marked ==> Unbuildable(core, q)
    decreases |es|
  {
    if es != [] {
      ReachableIsSound(core, w, [es[0]]);
      assert After(core, w, [es[0]]) == Next(core, w, es[0]) by {
        assert [es[0]][1..] == [];
      }
      if q in Next(core, w, es[0]).memory.marked && q !in w.memory.marked {
        NextMarks(core, w, es[0], q);
      }
      OnlyUnbuildableIsMarked(core, Next(core, w, es[0]), es[1..], q);
    }
  }

  // --- a stuck player --------------------------------------------------------------------------

  lemma {:induction false} SolveLeavesStuck(core: Core, m: Memory, ask: Ask, p: string)
    requires WellFormed(m.sources) && |m.sources.order| <= MAX_PLAYERS && Stuck(m, p)
    ensures Stuck(Solve(core, m, ask).0, p)
    decreases |ask.preprocessed|
  {
    if ask.player !in m.sources.items && ask.player !in m.marked {
      BoundedPut(m.sources, ask.player, ask.preprocessed, MAX_PLAYERS);
      if ask.preprocessed != "" {
        var again := Ask(ask.player, ask.requests, "", ask.code);
        SolveLeavesStuck(core, Remember(m, ask.player, ask.preprocessed), again, p);
      } else if ask.code != "" {
        var out := FromPlayer(core, ask.code, ask.requests);
        if out.Some? {
          BoundedPut(m.sources, ask.player, out.value.1, MAX_PLAYERS);
        }
      }
    }
  }

  lemma {:induction false} SolveStaysBounded(core: Core, m: Memory, ask: Ask)
    requires WellFormed(m.sources) && |m.sources.order| <= MAX_PLAYERS && ask.preprocessed == "" && ask.code == ""
    ensures Solve(core, m, ask).0.sources == m.sources
  {
  }

  /** A stuck player stays stuck, whatever is solved, until the worker is restarted: no call for it ever succeeds. */
  lemma {:induction false} StuckStays(core: Core, w: World, es: seq<Event>, p: string)
    requires Lawful(core) && Sound(core, w.memory, w.disk) && Stuck(w.memory, p) && Restarted !in es
    ensures Stuck(After(core, w, es).memory, p)
    ensures forall rs, downloads ::
              var o := SolveCall(core, After(core, w, es).memory, After(core, w, es).disk, p, rs, downloads);
              o.result.None? || AllFailed(o.result.value)
    decreases |es|
  {
    if es == [] {
      forall rs, downloads
        ensures var o := SolveCall(core, w.memory, w.disk, p, rs, downloads);
                o.result.None? || AllFailed(o.result.value)
      {
        CachedAgreesWithUncached(core, w.memory, w.disk, p, rs, downloads);
      }
    } else {
      assert es[0] in es && es[0].Call?;
      var (q, rs) := (es[0].player, es[0].requests);
      SolveLeavesStuck(core, w.memory, Ask(q, rs, "", ""), p);
      SolveStaysBounded(core, w.memory, Ask(q, rs, "", ""));
      SolveLeavesStuck(core, Solve(core, w.memory, Ask(q, rs, "", "")).0, Fetched(core, w.disk, q, rs), p);
      CachedAgreesWithUncached(core, w.memory, w.disk, q, rs, es[0].downloads);
      assert forall e | e in es[1..] :: e in es;
      StuckStays(core, Next(core, w, es[0]), es[1..], p);
    }
  }

  // A core in which the solvers of player `bad` cannot be built outside of it. Its n solver answers a challenge with
  // itself, its sig solver with twice itself.
  function Fragile(bad: string): Core {
    Core(p => p, c => Some(c),
         pre => if pre == bad then None else Some(Solvers(Some(c => Some(c)), Some(c => Some(c + c)))),
         (pre: Option<string>, rs: seq<Request>) => if pre.None? then None else Some(Echoes(rs)), (c, r) => Echo(r))
  }

  function Echo(r: Request): Response {
    Solved(map c | c in r.challenges :: if r.kind == N then c else c + c)
  }

  function Echoes(rs: seq<Request>): seq<Response> {
    seq(|rs|, i requires 0 <= i < |rs| => Echo(rs[i]))
  }

  lemma {:induction false} FragileIsLawful(bad: string)
    ensures Lawful(Fragile(bad))
  {
    var core := Fragile(bad);
    forall c, rs: seq<Request> | core.preprocess(c).Some?
      ensures core.entry(core.preprocess(c), rs) == Some(Answers(core, c, rs))
    {
      assert Echoes(rs) == Answers(core, c, rs);
    }
  }

  lemma {:induction false} EchoOfOne(kind: Kind, x: string)
    ensures Echo(Request(kind, [x])) == Solved(map[x := if kind == N then x else x + x])
  {
    var r := Request(kind, [x]);
    assert forall c :: c in r.challenges <==> c == x;
  }

  /** The two solvers of a player may differ, and what a worker that holds it answers shows it. */
  lemma {:induction false} EachKindHasItsSolver(core: Core, m: Memory, bad: string, p: string, x: string)
    requires core == Fragile(bad) && Sound(core, m, map[]) && p in m.sources.items && x != ""
    ensures Lawful(core)
    ensures Solve(core, m, Ask(p, [Request(N, [x]), Request(Sig, [x])], "", "")).1
            == Done([Solved(map[x := x]), Solved(map[x := x + x])], "")
  {
    var rs := [Request(N, [x]), Request(Sig, [x])];
    FragileIsLawful(bad);
    HeldAnswers(core, m, map[], Ask(p, rs, "", ""));
    EchoOfOne(N, x);
    EchoOfOne(Sig, x);
    assert Answers(core, p, rs) == [Echo(rs[0]), Echo(rs[1])];
  }

  lemma {:induction false} AfterAppend(core: Core, w: World, es: seq<Event>, e: Event)
    ensures After(core, w, es + [e]) == Next(core, After(core, w, es), e)
    decreases |es|
  {
    if es == [] {
      assert [] + [e] == [e] && [e][1..] == [];
    } else {
      assert (es + [e])[1..] == es[1..] + [e];
      AfterAppend(core, Next(core, w, es[0]), es[1..], e);
    }
  }

  // The first `n` players are in memory and on disk, and the one in trouble among them is marked.
  ghost predicate Filled(bad: string, players: seq<string>, n: nat, w: World)
    requires n <= |players|
  {
    && w.memory.sources.order == players[..n] && w.memory.marked == {bad}
    && w.memory.sources.items.Keys == w.disk.Keys == (set p | p in players[..n])
  }

  predicate Lineup(bad: string, players: seq<string>) {
    && |players| == MAX_PLAYERS + 1 && players[0] == bad && Distinct(players)
    && forall i | 0 <= i < |players| :: players[i] != ""
  }

  lemma {:induction false} FillOne(bad: string, players: seq<string>, n: nat, w: World)
    requires Lineup(bad, players) && 1 < n <= MAX_PLAYERS && Filled(bad, players, n - 1, w)
    ensures Filled(bad, players, n, Next(Fragile(bad), w, Call(players[n - 1], [], true)))
  {
  }

  lemma {:induction false} FillUp(bad: string, players: seq<string>, n: nat, es: seq<Event>) returns (all: seq<Event>)
    requires Lineup(bad, players) && 1 <= n <= MAX_PLAYERS
    requires Filled(bad, players, 1, After(Fragile(bad), World(EMPTY, map[]), es))
    ensures Filled(bad, players, n, After(Fragile(bad), World(EMPTY, map[]), all))
    decreases n
  {
    if n == 1 {
      all := es;
    } else {
      var before := FillUp(bad, players, n - 1, es);
      FillOne(bad, players, n, After(Fragile(bad), World(EMPTY, map[]), before));
      AfterAppend(Fragile(bad), World(EMPTY, map[]), before, Call(players[n - 1], [], true));
      all := before + [Call(players[n - 1], [], true)];
    }
  }

  // The first player is solved twice: the second time its solvers turn out not to build.
  lemma {:induction false} InTrouble(bad: string, players: seq<string>) returns (es: seq<Event>)
    requires Lineup(bad, players)
    ensures Filled(bad, players, 1, After(Fragile(bad), World(EMPTY, map[]), es))
  {
    var core, w := Fragile(bad), World(EMPTY, map[]);
    var one := World(Memory(OMap([bad], map[bad := bad]), {}), map[bad := bad]);
    assert Remember(EMPTY, bad, bad) == one.memory;
    var call := Call(bad, [], true);
    AfterAppend(core, w, [], call);
    AfterAppend(core, w, [] + [call], call);
    es := [] + [call] + [call];
    assert players[..1] == [bad];
  }

  lemma {:induction false} Overflow(bad: string, players: seq<string>, w: World)
    requires Lineup(bad, players) && Filled(bad, players, MAX_PLAYERS, w)
    ensures Stuck(Next(Fragile(bad), w, Call(players[MAX_PLAYERS], [], true)).memory, bad)
  {
    var p := players[MAX_PLAYERS];
    var grown := OMap(w.memory.sources.order + [p], w.memory.sources.items[p := p]);
    assert Put(w.memory.sources, p, p) == grown;
    assert Trim(grown, MAX_PLAYERS) == OMap(grown.order[1..], grown.items - {bad});
  }

  /** The guard matters: under a lawful core a player whose solvers cannot be built outside of it is stuck after four
      other players. It is solved through the entry point until its source is dropped, and from then on only fails. */
  lemma {:induction false} StuckIsReachable(players: seq<string>) returns (es: seq<Event>)
    requires |players| == MAX_PLAYERS + 1 && Distinct(players) && forall i | 0 <= i < |players| :: players[i] != ""
    ensures var core := Fragile(players[0]);
            && Lawful(core)
            && (forall rs :: Uncached(core, players[0], rs) == Some(Echoes(rs)))
            && Stuck(After(core, World(EMPTY, map[]), es).memory, players[0])
  {
    var bad := players[0];
    var core := Fragile(bad);
    FragileIsLawful(bad);
    es := InTrouble(bad, players);
    es := FillUp(bad, players, MAX_PLAYERS, es);
    Overflow(bad, players, After(core, World(EMPTY, map[]), es));
    AfterAppend(core, World(EMPTY, map[]), es, Call(players[MAX_PLAYERS], [], true));
    es := es + [Call(players[MAX_PLAYERS], [], true)];
    forall rs ensures Uncached(core, bad, rs) == Some(Echoes(rs)) {
      assert Answers(core, bad, rs) == Echoes(rs);
    }
  }

  // --- framing ---------------------------------------------------------------------------------

  /** The worker's input: every complete line of what has arrived is taken off the buffer, in order. */
  method TakeLines(buffer: string, chunk: string) returns (lines: seq<string>, rest: string)
    ensures lines == Lines(buffer + chunk) && rest == Rest(buffer + chunk)
  {
    rest := buffer + chunk;
    lines := [];
    var nl := FirstLine(rest);
    while nl < |rest|
      invariant nl == FirstLine(rest)
      invariant Lines(buffer + chunk) == lines + Lines(rest) && Rest(buffer + chunk) == Rest(rest)
      decreases |rest|
    {
      LinesUnfold(rest, rest[..nl], rest[nl + 1..]);
      assert lines + ([rest[..nl]] + Lines(rest[nl + 1..])) == (lines + [rest[..nl]]) + Lines(rest[nl + 1..]);
      lines := lines + [rest[..nl]];
      rest := rest[nl + 1..];
      nl := FirstLine(rest);
    }
    assert lines + [] == lines;
  }

  /** The daemon's side: reads pieces until one line is complete; what came after it waits for the next exchange. */
  method ReadLine(buffer: string, pieces: seq<string>) returns (line: Option<string>, rest: string, used: nat)
    ensures used <= |pieces| && forall k | 0 <= k < used :: pieces[k] != ""
    ensures line.Some? ==>
              buffer + Concat(pieces[..used]) == line.value + "\n" + rest && '\n' !in line.value
    ensures line.None? ==> '\n' !in buffer + Concat(pieces[..used])
    ensures line.None? ==> used == |pieces| || pieces[used] == ""
  {
    rest, used := buffer, 0;
    assert pieces[..0] == [];
    while FirstLine(rest) == |rest|
      invariant used <= |pieces| && rest == buffer + Concat(pieces[..used])
      invariant forall k | 0 <= k < used :: pieces[k] != ""
      decreases |pieces| - used
    {
      assert rest[..|rest|] == rest;
      if used == |pieces| || pieces[used] == "" {
        return None, rest, used;
      }
      ConcatGrows(pieces, used);
      rest := rest + pieces[used];
      used := used + 1;
    }
    var nl := FirstLine(rest);
    line := Some(rest[..nl]);
    rest := rest[nl + 1..];
  }

  function Concat(pieces: seq<string>): string
    decreases |pieces|
  {
    if pieces == [] then "" else Concat(pieces[..|pieces| - 1]) + pieces[|pieces| - 1]
  }

  lemma {:induction false} ConcatGrows(pieces: seq<string>, n: nat)
    requires n < |pieces|
    ensures Concat(pieces[..n + 1]) == Concat(pieces[..n]) + pieces[n]
  {
    assert pieces[..n + 1][..n] == pieces[..n];
  }
}
