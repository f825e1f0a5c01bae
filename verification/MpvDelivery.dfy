/**
 What reaches those who wait: every property change its observer, every reply the command it answers, and nothing that a
 connection sends once it is closed.
 */
module MpvDelivery {
  import opened LineFraming
  import opened Wrappers
  import opened Mpv

  // --- property changes -------------------------------------------------------------------------

  // The message is a change of a property that is observed.
  predicate Concerns(observed: seq<string>, m: Message) {
    m.PropertyChange? && 1 <= m.id <= |observed|
  }

  function NoticeOf(observed: seq<string>, m: Message): Notice
    requires Concerns(observed, m)
  {
    Notice(m.id, observed[m.id - 1], m.value)
  }

  // What the observers are to be told of these lines.
  function News(observed: seq<string>, lines: seq<string>, parse: string -> Message): seq<Notice>
    decreases |lines|
  {
    if lines == [] then []
    else
      var m := parse(lines[|lines| - 1]);
      News(observed, lines[..|lines| - 1], parse) + if Concerns(observed, m) then [NoticeOf(observed, m)] else []
  }

  predicate Increasing(places: seq<nat>) {
    forall j, k | 0 <= j < k < |places| :: places[j] < places[k]
  }

  // Exactly the lines that concern an observer.
  ghost predicate Picks(places: seq<nat>, observed: seq<string>, lines: seq<string>, parse: string -> Message) {
    && (forall i | i in places :: i < |lines| && Concerns(observed, parse(lines[i])))
    && (forall i | 0 <= i < |lines| && Concerns(observed, parse(lines[i])) :: i in places)
  }

  // Each of them has its notice.
  ghost predicate Noted(places: seq<nat>, observed: seq<string>, lines: seq<string>, parse: string -> Message,
                        news: seq<Notice>) {
    && |news| == |places|
    && forall k | 0 <= k < |places| ::
         && places[k] < |lines| && Concerns(observed, parse(lines[places[k]]))
         && news[k] == NoticeOf(observed, parse(lines[places[k]]))
  }

  lemma {:induction false} PicksOneMore(
    front: seq<nat>, observed: seq<string>, lines: seq<string>, parse: string -> Message, places: seq<nat>)
    requires lines != [] && Picks(front, observed, lines[..|lines| - 1], parse)
    requires places == if Concerns(observed, parse(lines[|lines| - 1])) then front + [|lines| - 1] else front
    ensures Picks(places, observed, lines, parse)
  {
    var last := |lines| - 1;
    forall i | 0 <= i < |lines| && Concerns(observed, parse(lines[i])) ensures i in places {
      if i < last {
        assert lines[..last][i] == lines[i];
      }
    }
    forall i | i in places ensures i < |lines| && Concerns(observed, parse(lines[i])) {
      if i in front {
        assert lines[..last][i] == lines[i];
      }
    }
  }

  lemma {:induction false} NotedOneMore(
    front: seq<nat>, observed: seq<string>, lines: seq<string>, parse: string -> Message)
    requires lines != [] && Concerns(observed, parse(lines[|lines| - 1]))
    requires Noted(front, observed, lines[..|lines| - 1], parse, News(observed, lines[..|lines| - 1], parse))
    ensures Noted(front + [|lines| - 1], observed, lines, parse, News(observed, lines, parse))
  {
    var before := lines[..|lines| - 1];
    assert forall k | 0 <= k < |front| :: before[front[k]] == lines[front[k]];
  }

  lemma {:induction false} NotedStill(
    places: seq<nat>, observed: seq<string>, lines: seq<string>, parse: string -> Message, news: seq<Notice>)
    requires lines != [] && Noted(places, observed, lines[..|lines| - 1], parse, news)
    ensures Noted(places, observed, lines, parse, news)
  {
    var before := lines[..|lines| - 1];
    assert forall k | 0 <= k < |places| :: before[places[k]] == lines[places[k]];
  }

  /** The news are one notice for each line that concerns an observer, in the order of the lines. */
  lemma {:induction false} NewsIsLineByLine(observed: seq<string>, lines: seq<string>, parse: string -> Message)
    returns (places: seq<nat>)
    ensures Increasing(places) && Picks(places, observed, lines, parse)
    ensures Noted(places, observed, lines, parse, News(observed, lines, parse))
    decreases |lines|
  {
    if lines == [] {
      places := [];
    } else {
      var last := |lines| - 1;
      var front := NewsIsLineByLine(observed, lines[..last], parse);
      assert forall k | 0 <= k < |front| :: front[k] < last;
      if Concerns(observed, parse(lines[last])) {
        places := front + [last];
        NotedOneMore(front, observed, lines, parse);
      } else {
        places := front;
        NotedStill(front, observed, lines, parse, News(observed, lines[..last], parse));
      }
      PicksOneMore(front, observed, lines, parse, places);
    }
  }

  lemma {:induction false} HandleAllTells(b: Book, conn: nat, lines: seq<string>, parse: string -> Message)
    ensures var n := HandleAll(b, conn, lines, parse);
            n.observed == b.observed && n.notices == b.notices + News(b.observed, lines, parse)
    decreases |lines|
  {
    if lines != [] {
      HandleAllTells(b, conn, lines[..|lines| - 1], parse);
    }
  }

  lemma {:induction false} ReplayTells(b: Book, conn: nat, k: nat)
    ensures Replay(b, conn, k).notices == b.notices
    decreases |b.observed| - k
  {
    if k < |b.observed| {
      ReplayTells(Send(b, conn, Observe(k + 1, b.observed[k])), conn, k + 1);
    }
  }

  // What a step has to tell.
  function StepNews(s: State, e: Step, parse: string -> Message): seq<Notice> {
    if e.Data? then News(s.book.observed, Lines(s.wire.buffer + e.chunk), parse) else []
  }

  /** Data tells the observers of every line it completes that concerns one, once and in order, with the name they are
      registered under. Nothing else tells them anything. */
  lemma {:induction false} StepTells(s: State, e: Step, parse: string -> Message)
    ensures Apply(s, e, parse).book.notices == s.book.notices + StepNews(s, e, parse)
  {
    match e
    case Start =>
    case Connected => ReplayTells(s.book, s.wire.conns + 1, 0);
    case GaveUp =>
    case Data(c, chunk) => HandleAllTells(s.book, c, Lines(s.wire.buffer + chunk), parse);
    case Closed(c) =>
    case Exit =>
    case Timeout(id) =>
    case Command(args) =>
    case ObserveProperty(name) =>
  }

  function RunNews(s: State, es: seq<Step>, parse: string -> Message): seq<Notice>
    decreases |es|
  {
    if es == [] then [] else StepNews(s, es[0], parse) + RunNews(Apply(s, es[0], parse), es[1..], parse)
  }

  /** Over any run, respawns and time-outs included, the observers are told exactly that, in order. */
  lemma {:induction false} RunTells(s: State, es: seq<Step>, t: State, parse: string -> Message)
    requires Runs(s, es, t, parse)
    ensures t.book.notices == s.book.notices + RunNews(s, es, parse)
    decreases |es|
  {
    if es != [] {
      StepTells(s, es[0], parse);
      RunTells(Apply(s, es[0], parse), es[1..], t, parse);
    }
  }

  // --- replies ----------------------------------------------------------------------------------

  predicate RepliesTo(m: Message, id: nat) {
    m.Reply? && m.id == id
  }

  // Line `i` is the first reply to command `id`.
  ghost predicate FirstReply(lines: seq<string>, i: int, id: nat, parse: string -> Message) {
    0 <= i < |lines| && RepliesTo(parse(lines[i]), id) && forall j | 0 <= j < i :: !RepliesTo(parse(lines[j]), id)
  }

  // Command `id` is over, with this outcome and no timer left.
  predicate Over(b: Book, id: nat, o: Outcome) {
    id !in b.pending && id !in b.timers && id in b.settled && b.settled[id] == o
  }

  predicate Waiting(b: Book, id: nat) {
    id in b.pending && id in b.timers && id !in b.settled
  }

  // The first reply among the lines settles command `id` with what it says; without one it goes on waiting.
  ghost predicate Heeded(n: Book, conn: nat, lines: seq<string>, id: nat, parse: string -> Message) {
    && (Waiting(n, id) || exists i :: FirstReply(lines, i, id, parse))
    && (forall i | FirstReply(lines, i, id, parse) ::
          Over(n, id, Replied(conn, parse(lines[i]).ok, parse(lines[i]).data)))
  }

  lemma {:induction false} HandleAllSettles(b: Book, conn: nat, lines: seq<string>, parse: string -> Message, id: nat)
    requires Waiting(b, id)
    ensures Heeded(HandleAll(b, conn, lines, parse), conn, lines, id, parse)
    decreases |lines|
  {
    if lines != [] {
      var last := |lines| - 1;
      var front := lines[..last];
      HandleAllSettles(b, conn, front, parse, id);
      assert forall i | 0 <= i < last :: front[i] == lines[i];
      forall i ensures i < last && FirstReply(lines, i, id, parse) <==> FirstReply(front, i, id, parse) {
      }
      if Waiting(HandleAll(b, conn, front, parse), id) && RepliesTo(parse(lines[last]), id) {
        assert forall i :: !FirstReply(front, i, id, parse);
        NoneIsFirst(front, id, parse);
        assert FirstReply(lines, last, id, parse);
      }
    }
  }

  lemma {:induction false} NoneIsFirst(lines: seq<string>, id: nat, parse: string -> Message)
    requires forall i :: !FirstReply(lines, i, id, parse)
    ensures forall i | 0 <= i < |lines| :: !RepliesTo(parse(lines[i]), id)
    decreases |lines|
  {
    if lines != [] {
      var front := lines[..|lines| - 1];
      assert forall i | 0 <= i < |front| :: front[i] == lines[i];
      forall i ensures !FirstReply(front, i, id, parse) {
        assert !FirstReply(lines, i, id, parse);
      }
      NoneIsFirst(front, id, parse);
      assert !FirstReply(lines, |lines| - 1, id, parse);
    }
  }

  /** A command in flight is settled by the first line that answers it - with its error or its data - by its own timer or
      by the exit of the player, and by nothing else; no timer of its own stays behind but that of an exit. */
  lemma {:induction false} WaitsForItsOwn(s: State, e: Step, id: nat, parse: string -> Message)
    requires Balanced(s.book) && Enabled(s, e) && id in s.book.pending
    ensures var n := Apply(s, e, parse).book;
            match e
            case Data(c, chunk) => Heeded(n, c, Lines(s.wire.buffer + chunk), id, parse)
            case Timeout(x) => if x == id then Over(n, id, TimedOut) else Waiting(n, id)
            case Exit => n.pending == {} && id in n.settled && n.settled[id] == Exited && n.life == s.book.life + 1
            case _ => Waiting(n, id)
  {
    match e
    case Start =>
    case Connected => ReplayWaits(s.book, s.wire.conns + 1, 0, id);
    case GaveUp =>
    case Data(c, chunk) => HandleAllSettles(s.book, c, Lines(s.wire.buffer + chunk), parse, id);
    case Closed(c) =>
    case Exit =>
    case Timeout(x) =>
    case Command(args) =>
    case ObserveProperty(name) =>
  }

  lemma {:induction false} ReplayWaits(b: Book, conn: nat, k: nat, id: nat)
    requires Waiting(b, id)
    ensures Waiting(Replay(b, conn, k), id)
    decreases |b.observed| - k
  {
    if k < |b.observed| {
      ReplayWaits(Send(b, conn, Observe(k + 1, b.observed[k])), conn, k + 1, id);
    }
  }

  // --- a closed connection ------------------------------------------------------------------------

  // Connection `c` is over: made once, and heard no more.
  predicate Silent(w: Wire, c: nat) {
    c <= w.conns && c !in w.attached
  }

  lemma {:induction false} StaysSilent(s: State, es: seq<Step>, t: State, parse: string -> Message, c: nat)
    requires Runs(s, es, t, parse) && Silent(s.wire, c)
    ensures forall e | e in es && e.Data? :: e.conn != c
    decreases |es|
  {
    if es != [] {
      StaysSilent(Apply(s, es[0], parse), es[1..], t, parse, c);
      assert es == [es[0]] + es[1..];
    }
  }

  /** Once a connection is closed, or the player behind the one in use has died, nothing it sends is read any more, and
      what it had begun to send is thrown away. */
  lemma {:induction false} ClosedIsHeardNoMore(
    s: State, e: Step, es: seq<Step>, t: State, parse: string -> Message, c: nat)
    requires Enabled(s, e) && c <= s.wire.conns && (e == Closed(c) || (e == Exit && s.wire.socket == Some(c)))
    requires Runs(Apply(s, e, parse), es, t, parse)
    ensures Apply(s, e, parse).wire.buffer == ""
    ensures forall d | d in es && d.Data? :: d.conn != c
  {
    StaysSilent(Apply(s, e, parse), es, t, parse, c);
  }
}
