/**
 The mpv client across the deaths of the player: every observation is asked for again in any run; the bytes of one
 connection are never mixed with those of another as long as a connection is only made when none is left, and a reply
 is one over its own connection as long as `start` is not called while an earlier call still waits.
 */
module MpvRespawn {
  import opened LineFraming
  import opened Wrappers
  import opened Mpv

  // --- observations ---------------------------------------------------------------------------

  // Every observation has been asked for on connection `conn`.
  ghost predicate Asked(b: Book, conn: nat) {
    forall i | 0 <= i < |b.observed| :: Sent(Observe(i + 1, b.observed[i]), conn, b.life) in b.sent
  }

  ghost predicate Asking(s: State) {
    Balanced(s.book) && (s.wire.socket.Some? ==> s.wire.alive && Asked(s.book, s.wire.socket.value))
  }

  lemma {:induction false} StepKeepsAsking(s: State, e: Step, parse: string -> Message)
    requires Asking(s) && Enabled(s, e)
    ensures Asking(Apply(s, e, parse))
  {
    StepSettlesItsOwn(s, e, parse);
    match e
    case Start =>
    case Connected => ReplayKeeps(s.book, s.wire.conns + 1, 0);
    case GaveUp =>
    case Data(c, chunk) => HandleAllKeeps(s.book, c, Lines(s.wire.buffer + chunk), parse);
    case Closed(c) =>
    case Exit =>
    case Timeout(id) =>
    case Command(args) =>
    case ObserveProperty(name) =>
  }

  lemma {:induction false} RunKeepsAsking(s: State, es: seq<Step>, t: State, parse: string -> Message)
    requires Asking(s) && Runs(s, es, t, parse)
    ensures Asking(t)
    decreases |es|
  {
    if es != [] {
      StepKeepsAsking(s, es[0], parse);
      RunKeepsAsking(Apply(s, es[0], parse), es[1..], t, parse);
    }
  }

  /** In any run whatsoever, after any number of respawns: a connected player has been asked for every observation under
      its own id. */
  lemma {:induction false} EveryObservationIsReplayed(es: seq<Step>, t: State, parse: string -> Message)
    requires Runs(FRESH, es, t, parse) && t.wire.socket.Some?
    ensures forall i | 0 <= i < |t.book.observed| ::
              Sent(Observe(i + 1, t.book.observed[i]), t.wire.socket.value, t.book.life) in t.book.sent
  {
    RunKeepsAsking(FRESH, es, t, parse);
  }

  // --- one connection at a time -----------------------------------------------------------------

  /** At most one connection reaches the client, and what has been handled of it is its complete lines. */
  predicate Single(w: Wire) {
    && w.attached == (if w.socket.Some? then {w.socket.value} else {})
    && (w.socket.Some? ==> w.socket.value <= w.conns && w.buffer == Rest(w.stream) && w.handled == Lines(w.stream))
    && (w.socket.None? ==> w.buffer == "")
  }

  // A connection is made while another is still there.
  predicate Doubles(s: State, e: Step) {
    e == Connected && s.wire.attached != {}
  }

  /** One connection stays one across a step if and only if the step does not make a second. */
  lemma {:induction false} StaysSingle(s: State, e: Step, parse: string -> Message)
    requires Single(s.wire) && Enabled(s, e)
    ensures Single(Apply(s, e, parse).wire) <==> !Doubles(s, e)
  {
    match e
    case Start =>
    case Connected =>
      assert Rest("") == "" && Lines("") == [];
      if s.wire.attached != {} {
        assert s.wire.socket.value in Apply(s, e, parse).wire.attached;
      }
    case GaveUp =>
    case Data(c, chunk) => LinesInPieces(s.wire.stream, chunk);
    case Closed(c) =>
    case Exit =>
    case Timeout(id) =>
    case Command(args) =>
    case ObserveProperty(name) =>
  }

  ghost predicate NeverDoubles(s: State, es: seq<Step>, parse: string -> Message)
    decreases |es|
  {
    if es == [] then true else !Doubles(s, es[0]) && NeverDoubles(Apply(s, es[0], parse), es[1..], parse)
  }

  /** However the bytes of a connection are cut up, exactly its complete lines are handled, in order. */
  lemma {:induction false} FramingIsExact(s: State, es: seq<Step>, t: State, parse: string -> Message)
    requires Single(s.wire) && Runs(s, es, t, parse) && NeverDoubles(s, es, parse)
    ensures Single(t.wire)
    decreases |es|
  {
    if es != [] {
      StaysSingle(s, es[0], parse);
      FramingIsExact(Apply(s, es[0], parse), es[1..], t, parse);
    }
  }

  // --- one start at a time ----------------------------------------------------------------------

  // `start` is called while an earlier call is still waiting for the socket to appear.
  predicate Overlaps(s: State, e: Step) {
    e == Start && s.wire.connecting > 0
  }

  ghost predicate NeverOverlaps(s: State, es: seq<Step>, parse: string -> Message)
    decreases |es|
  {
    if es == [] then true else !Overlaps(s, es[0]) && NeverOverlaps(Apply(s, es[0], parse), es[1..], parse)
  }

  /** The player never dies while a call of `start` is waiting. */
  ghost predicate Calm(s: State, es: seq<Step>, parse: string -> Message)
    decreases |es|
  {
    if es == [] then true
    else (es[0] == Exit ==> s.wire.connecting == 0) && Calm(Apply(s, es[0], parse), es[1..], parse)
  }

  /** A calm run never overlaps. */
  lemma {:induction false} CalmNeverOverlaps(s: State, es: seq<Step>, t: State, parse: string -> Message)
    requires Runs(s, es, t, parse) && Calm(s, es, parse) && (!s.wire.alive ==> s.wire.connecting == 0)
    ensures NeverOverlaps(s, es, parse)
    decreases |es|
  {
    if es != [] {
      CalmNeverOverlaps(Apply(s, es[0], parse), es[1..], t, parse);
    }
  }

  // Commands in flight were sent on the current connection, and replies came over the connection of their command.
  ghost predicate Matched(b: Book, conns: nat) {
    && (forall id | id in b.pending && 1 <= id <= |b.sent| :: b.sent[id - 1].conn == conns)
    && (forall id | id in b.settled && 1 <= id <= |b.sent| && b.settled[id].Replied? ::
          b.settled[id].conn == b.sent[id - 1].conn)
  }

  ghost predicate Inv(s: State) {
    && Single(s.wire) && Balanced(s.book) && Matched(s.book, s.wire.conns)
    && s.wire.connecting <= 1
    && (s.wire.socket.Some? ==> s.wire.alive && s.wire.connecting == 0 && s.wire.socket.value == s.wire.conns)
    && (s.wire.connecting > 0 || !s.wire.alive ==> s.book.pending == {})
  }

  lemma {:induction false} ReplayMatches(b: Book, conns: nat)
    requires Balanced(b) && Matched(b, conns) && b.pending == {}
    ensures Matched(Replay(b, conns + 1, 0), conns + 1)
  {
    var n := Replay(b, conns + 1, 0);
    ReplayKeeps(b, conns + 1, 0);
    forall id | id in n.pending && 1 <= id <= |n.sent| ensures n.sent[id - 1].conn == conns + 1 {
      assert id !in n.settled;
      assert id > |b.sent|;
    }
  }

  lemma {:induction false} HandleMatches(b: Book, conn: nat, lines: seq<string>, parse: string -> Message)
    requires Balanced(b) && Matched(b, conn)
    ensures Matched(HandleAll(b, conn, lines, parse), conn)
  {
    var n := HandleAll(b, conn, lines, parse);
    HandleAllKeeps(b, conn, lines, parse);
    forall id | id in n.pending && 1 <= id <= |n.sent| ensures n.sent[id - 1].conn == conn {
      assert id !in n.settled && id !in b.settled;
    }
  }

  lemma {:induction false} StepKeepsInv(s: State, e: Step, parse: string -> Message)
    requires Inv(s) && Enabled(s, e) && !Overlaps(s, e)
    ensures Inv(Apply(s, e, parse)) && !Doubles(s, e)
  {
    StaysSingle(s, e, parse);
    StepSettlesItsOwn(s, e, parse);
    match e
    case Start =>
    case Connected => ReplayMatches(s.book, s.wire.conns);
    case GaveUp =>
    case Data(c, chunk) =>
      HandleMatches(s.book, c, Lines(s.wire.buffer + chunk), parse);
      HandleAllKeeps(s.book, c, Lines(s.wire.buffer + chunk), parse);
    case Closed(c) =>
    case Exit =>
    case Timeout(id) =>
    case Command(args) =>
    case ObserveProperty(name) =>
  }

  lemma {:induction false} RunKeepsInv(s: State, es: seq<Step>, t: State, parse: string -> Message)
    requires Inv(s) && Runs(s, es, t, parse) && NeverOverlaps(s, es, parse)
    ensures Inv(t) && NeverDoubles(s, es, parse)
    decreases |es|
  {
    if es != [] {
      StepKeepsInv(s, es[0], parse);
      RunKeepsInv(Apply(s, es[0], parse), es[1..], t, parse);
    }
  }

  // A command answered by a reply was answered over the very connection it was written to.
  ghost predicate OwnReplies(b: Book) {
    forall id | id in b.settled && b.settled[id].Replied? ::
      1 <= id <= |b.sent| && b.settled[id].conn == b.sent[id - 1].conn
  }

  /** If starts never overlap, connections never double, and every command answered by a reply was answered over the very
      connection it was written to. */
  lemma {:induction false} AnsweredByItsOwnPlayer(es: seq<Step>, t: State, parse: string -> Message)
    requires Runs(FRESH, es, t, parse) && NeverOverlaps(FRESH, es, parse)
    ensures NeverDoubles(FRESH, es, parse) && OwnReplies(t.book)
  {
    RunKeepsInv(FRESH, es, t, parse);
  }

  // --- what overlapping starts can do ---------------------------------------------------------

  // What connection `conn` carries in a run.
  function Told(es: seq<Step>, conn: nat): string {
    if es == [] then ""
    else (if es[0].Data? && es[0].conn == conn then es[0].chunk else "") + Told(es[1..], conn)
  }

  predicate RepliesOnlyTo(lines: seq<string>, conn: nat, b: Book, parse: string -> Message) {
    forall i | 0 <= i < |lines| ::
      var m := parse(lines[i]);
      m.Reply? ==> 1 <= m.id <= |b.sent| && b.sent[m.id - 1].conn == conn
  }

  // The player's contract: a connection only carries replies to commands written to it.
  ghost predicate Truthful(es: seq<Step>, b: Book, parse: string -> Message) {
    forall c: nat :: RepliesOnlyTo(Lines(Told(es, c)), c, b, parse)
  }

  predicate Says(lines: seq<string>, m: Message, parse: string -> Message) {
    exists i :: 0 <= i < |lines| && parse(lines[i]) == m
  }

  // The caller of command `id` was told something that no connection carried.
  ghost predicate Forged(es: seq<Step>, b: Book, id: nat, parse: string -> Message) {
    && id in b.settled && b.settled[id].Replied?
    && forall c: nat :: !Says(Lines(Told(es, c)), Reply(id, b.settled[id].ok, b.settled[id].data), parse)
  }

  /** A reply in two pieces, and a piece of another line that makes a different reply of it when it gets in between: a
      character inside a quoted string will do. */
  datatype Cut = Cut(head: string, tail: string, wedge: string, said: string, heard: string)

  predicate Cuts(id: nat, cut: Cut, parse: string -> Message) {
    && '\n' !in cut.head && '\n' !in cut.tail && '\n' !in cut.wedge
    && parse(cut.head + cut.tail) == Reply(id, true, cut.said)
    && parse(cut.head + cut.wedge + cut.tail) == Reply(id, true, cut.heard)
    && cut.said != cut.heard
  }

  // The reply comes in on connection `c`, cut by a piece from the next one.
  function Pieces(c: nat, cut: Cut): seq<Step> {
    [Data(c, cut.head)] + ([Data(c + 1, cut.wedge)] + [Data(c, cut.tail + "\n")])
  }

  // Both starts connect, with a command in between.
  function Forging(s: State, cut: Cut): seq<Step> {
    [Start] + ([Connected] + ([Command("")] + ([Connected] + Pieces(s.wire.conns + 1, cut))))
  }

  lemma {:induction false} ReplaySends(b: Book, conn: nat, k: nat)
    requires k <= |b.observed|
    ensures |Replay(b, conn, k).sent| == |b.sent| + |b.observed| - k && b.pending <= Replay(b, conn, k).pending
    ensures Replay(b, conn, k).settled == b.settled
    decreases |b.observed| - k
  {
    if k < |b.observed| {
      ReplaySends(Send(b, conn, Observe(k + 1, b.observed[k])), conn, k + 1);
    }
  }

  // One more step in front of a run.
  lemma {:induction false} Before(s: State, e: Step, es: seq<Step>, t: State, parse: string -> Message)
    requires Enabled(s, e) && Runs(Apply(s, e, parse), es, t, parse)
    ensures Runs(s, [e] + es, t, parse)
  {
    assert ([e] + es)[1..] == es;
  }

  lemma {:induction false} NoLine(text: string)
    requires '\n' !in text
    ensures Lines(text) == [] && Rest(text) == text
  {
    FirstLineOf(text, |text|);
  }

  lemma {:induction false} OneLine(line: string)
    requires '\n' !in line
    ensures Lines(line + "\n") == [line]
  {
    assert line + "\n" == line + "\n" + "";
    LinesUnfold(line + "\n", line, "");
    NoLine("");
  }

  // A piece without a line end only fills the buffer.
  lemma {:induction false} PieceComesIn(s: State, conn: nat, piece: string, parse: string -> Message)
    requires '\n' !in s.wire.buffer && '\n' !in piece
    ensures var n := Apply(s, Data(conn, piece), parse);
            n.book == s.book && n.wire.buffer == s.wire.buffer + piece && n.wire.attached == s.wire.attached
  {
    NoLine(s.wire.buffer + piece);
    assert HandleAll(s.book, conn, [], parse) == s.book;
  }

  // The rest of a line completes the reply to command `id`.
  lemma {:induction false} ReplyComesIn(
    s: State, conn: nat, id: nat, rest: string, data: string, parse: string -> Message)
    requires '\n' !in s.wire.buffer && '\n' !in rest && id in s.book.pending && id !in s.book.settled
    requires parse(s.wire.buffer + rest) == Reply(id, true, data)
    ensures var b := Apply(s, Data(conn, rest + "\n"), parse).book;
            b.sent == s.book.sent && id in b.settled && b.settled[id] == Replied(conn, true, data)
  {
    var line := s.wire.buffer + rest;
    assert s.wire.buffer + (rest + "\n") == line + "\n";
    OneLine(line);
    assert [line][..0] == [];
    assert HandleAll(s.book, conn, [], parse) == s.book;
  }

  // The first of two overlapping starts connects, and a command goes out.
  lemma {:induction false} FirstConnects(s: State, parse: string -> Message) returns (n: State)
    requires Inv(s) && Enabled(s, Start) && Overlaps(s, Start)
    ensures n == Apply(Apply(Apply(s, Start, parse), Connected, parse), Command(""), parse)
    ensures n.wire == Connect(s.wire.(alive := true, connecting := s.wire.connecting + 1)) && Balanced(n.book)
    ensures var id := |s.book.sent| + |s.book.observed| + 1;
            && |n.book.sent| == id && n.book.sent[id - 1].conn == s.wire.conns + 1
            && id in n.book.pending && id !in n.book.settled
  {
    var c := s.wire.conns;
    var s1 := Apply(s, Start, parse);
    ReplayKeeps(s1.book, c + 1, 0);
    ReplaySends(s1.book, c + 1, 0);
    var s2 := Apply(s1, Connected, parse);
    n := Apply(s2, Command(""), parse);
    assert n.book == Send(s2.book, c + 1, Other(""));
  }

  // Then the second.
  lemma {:induction false} BothConnect(s: State, parse: string -> Message) returns (s3: State, s4: State)
    requires Inv(s) && Enabled(s, Start) && Overlaps(s, Start)
    ensures s3 == Apply(Apply(Apply(s, Start, parse), Connected, parse), Command(""), parse)
    ensures s4 == Apply(s3, Connected, parse) && Enabled(s3, Connected)
    ensures var id := |s.book.sent| + |s.book.observed| + 1;
            && |s3.book.sent| == id && s3.book.sent[id - 1].conn == s.wire.conns + 1 && s3.book.sent <= s4.book.sent
            && id in s4.book.pending && id !in s4.book.settled
    ensures s.wire.conns + 1 in s4.wire.attached && s.wire.conns + 2 in s4.wire.attached && s4.wire.buffer == ""
  {
    s3 := FirstConnects(s, parse);
    s4 := Apply(s3, Connected, parse);
    ReplayKeeps(s3.book, s.wire.conns + 2, 0);
    ReplaySends(s3.book, s.wire.conns + 2, 0);
  }

  lemma {:induction false} ToldBefore(e: Step, es: seq<Step>, d: nat)
    ensures Told([e] + es, d) == (if e.Data? && e.conn == d then e.chunk else "") + Told(es, d)
  {
    assert ([e] + es)[1..] == es;
  }

  lemma {:induction false} ToldInPieces(c: nat, cut: Cut, d: nat)
    ensures Told(Pieces(c, cut), d) ==
            if d == c then (cut.head + cut.tail) + "\n" else if d == c + 1 then cut.wedge else ""
  {
    var e2, e3 := Data(c + 1, cut.wedge), Data(c, cut.tail + "\n");
    assert [e3] + [] == [e3];
    ToldBefore(e3, [], d);
    ToldBefore(e2, [e3], d);
    ToldBefore(Data(c, cut.head), [e2] + [e3], d);
    if d == c {
      assert cut.head + ("" + ((cut.tail + "\n") + "")) == (cut.head + cut.tail) + "\n";
    }
  }

  // The complete lines each connection carried in the forging run.
  lemma {:induction false} ToldInForging(s: State, cut: Cut, d: nat)
    requires '\n' !in cut.head && '\n' !in cut.tail && '\n' !in cut.wedge
    ensures Lines(Told(Forging(s, cut), d)) == if d == s.wire.conns + 1 then [cut.head + cut.tail] else []
  {
    var pieces := Pieces(s.wire.conns + 1, cut);
    ToldBefore(Connected, pieces, d);
    ToldBefore(Command(""), [Connected] + pieces, d);
    ToldBefore(Connected, [Command("")] + ([Connected] + pieces), d);
    ToldBefore(Start, [Connected] + ([Command("")] + ([Connected] + pieces)), d);
    assert Told(Forging(s, cut), d) == Told(pieces, d);
    ToldInPieces(s.wire.conns + 1, cut, d);
    if d == s.wire.conns + 1 {
      OneLine(cut.head + cut.tail);
    } else {
      NoLine(Told(pieces, d));
    }
  }

  // A run in which connection `c` carries one line, and the others none.
  ghost predicate OneLineTold(es: seq<Step>, c: nat, line: string) {
    forall d: nat :: Lines(Told(es, d)) == if d == c then [line] else []
  }

  lemma {:induction false} OneLineIsItsReply(
    lines: seq<string>, d: nat, b: Book, c: nat, line: string, id: nat, parse: string -> Message)
    requires lines == if d == c then [line] else []
    requires parse(line).Reply? && parse(line).id == id && 1 <= id <= |b.sent| && b.sent[id - 1].conn == c
    ensures RepliesOnlyTo(lines, d, b, parse)
  {
  }

  lemma {:induction false} OneLineIsTruthful(
    es: seq<Step>, b: Book, c: nat, line: string, id: nat, parse: string -> Message)
    requires OneLineTold(es, c, line) && parse(line).Reply? && parse(line).id == id
    requires 1 <= id <= |b.sent| && b.sent[id - 1].conn == c
    ensures Truthful(es, b, parse)
  {
    forall d: nat ensures RepliesOnlyTo(Lines(Told(es, d)), d, b, parse) {
      OneLineIsItsReply(Lines(Told(es, d)), d, b, c, line, id, parse);
    }
  }

  lemma {:induction false} OtherReplyIsForged(
    es: seq<Step>, b: Book, c: nat, line: string, id: nat, parse: string -> Message)
    requires OneLineTold(es, c, line) && id in b.settled && b.settled[id].Replied?
    requires parse(line) != Reply(id, b.settled[id].ok, b.settled[id].data)
    ensures Forged(es, b, id, parse)
  {
    var reply := Reply(id, b.settled[id].ok, b.settled[id].data);
    forall d: nat ensures !Says(Lines(Told(es, d)), reply, parse) {
      var lines := Lines(Told(es, d));
      assert forall k | 0 <= k < |lines| :: lines[k] == line;
    }
  }

  // The three pieces arrive.
  lemma {:induction false} PiecesComeIn(
    s: State, c: nat, id: nat, cut: Cut, parse: string -> Message) returns (t: State)
    requires c in s.wire.attached && c + 1 in s.wire.attached && s.wire.buffer == ""
    requires id in s.book.pending && id !in s.book.settled && Cuts(id, cut, parse)
    ensures Runs(s, Pieces(c, cut), t, parse)
    ensures t.book.sent == s.book.sent && id in t.book.settled && t.book.settled[id] == Replied(c, true, cut.heard)
  {
    var e1, e2, e3 := Data(c, cut.head), Data(c + 1, cut.wedge), Data(c, cut.tail + "\n");
    var s1 := Apply(s, e1, parse);
    PieceComesIn(s, c, cut.head, parse);
    assert s1.wire.buffer == cut.head;
    var s2 := Apply(s1, e2, parse);
    PieceComesIn(s1, c + 1, cut.wedge, parse);
    t := Apply(s2, e3, parse);
    ReplyComesIn(s2, c, id, cut.tail, cut.heard, parse);
    assert [e3] == [e3] + [];
    Before(s2, e3, [], t, parse);
    Before(s1, e2, [e3], t, parse);
    Before(s, e1, [e2] + [e3], t, parse);
  }

  lemma {:induction false} LeadIn(s: State, s3: State, es: seq<Step>, t: State, parse: string -> Message)
    requires Enabled(s, Start) && Overlaps(s, Start)
    requires Enabled(s3, Connected) && Runs(Apply(s3, Connected, parse), es, t, parse)
    requires s3 == Apply(Apply(Apply(s, Start, parse), Connected, parse), Command(""), parse)
    ensures Runs(s, [Start] + ([Connected] + ([Command("")] + ([Connected] + es))), t, parse)
  {
    var s1 := Apply(s, Start, parse);
    var s2 := Apply(s1, Connected, parse);
    Before(s3, Connected, es, t, parse);
    Before(s2, Command(""), [Connected] + es, t, parse);
    Before(s1, Connected, [Command("")] + ([Connected] + es), t, parse);
    Before(s, Start, [Connected] + ([Command("")] + ([Connected] + es)), t, parse);
  }

  /** And starts must not overlap: after any run in which they do not, one that does can be continued, in a run in which
      no player dies and every connection carries only replies of its own, until a caller is told what none carried. */
  lemma {:induction false} OverlapForgesAReply(s: State, cut: nat -> Cut, parse: string -> Message)
    requires Inv(s) && Enabled(s, Start) && Overlaps(s, Start) && forall id :: Cuts(id, cut(id), parse)
    ensures var id := |s.book.sent| + |s.book.observed| + 1;
            exists t :: Runs(s, Forging(s, cut(id)), t, parse)
                        && Truthful(Forging(s, cut(id)), t.book, parse) && Forged(Forging(s, cut(id)), t.book, id, parse)
  {
    var id := |s.book.sent| + |s.book.observed| + 1;
    var c := s.wire.conns + 1;
    var s3, s4 := BothConnect(s, parse);
    var t := PiecesComeIn(s4, c, id, cut(id), parse);
    LeadIn(s, s3, Pieces(c, cut(id)), t, parse);
    assert t.book.sent[id - 1] == s3.book.sent[id - 1];
    forall d: nat ensures Lines(Told(Forging(s, cut(id)), d)) == if d == c then [cut(id).head + cut(id).tail] else [] {
      ToldInForging(s, cut(id), d);
    }
    OneLineIsTruthful(Forging(s, cut(id)), t.book, c, cut(id).head + cut(id).tail, id, parse);
    OtherReplyIsForged(Forging(s, cut(id)), t.book, c, cut(id).head + cut(id).tail, id, parse);
  }

  // --- routing --------------------------------------------------------------------------------

  ghost predicate Routed(b: Book) {
    forall i | 0 <= i < |b.notices| ::
      1 <= b.notices[i].id <= |b.observed| && b.notices[i].name == b.observed[b.notices[i].id - 1]
  }

  lemma {:induction false} HandleAllRoutes(b: Book, conn: nat, lines: seq<string>, parse: string -> Message)
    requires Routed(b)
    ensures Routed(HandleAll(b, conn, lines, parse)) && HandleAll(b, conn, lines, parse).observed == b.observed
    decreases |lines|
  {
    if lines != [] {
      HandleAllRoutes(b, conn, lines[..|lines| - 1], parse);
    }
  }

  lemma {:induction false} ReplayRoutes(b: Book, conn: nat, k: nat)
    requires Routed(b)
    ensures Routed(Replay(b, conn, k))
    decreases |b.observed| - k
  {
    if k < |b.observed| {
      ReplayRoutes(Send(b, conn, Observe(k + 1, b.observed[k])), conn, k + 1);
    }
  }

  lemma {:induction false} StepRoutes(s: State, e: Step, parse: string -> Message)
    requires Routed(s.book) && Enabled(s, e)
    ensures Routed(Apply(s, e, parse).book) && s.book.observed <= Apply(s, e, parse).book.observed
  {
    match e
    case Start =>
    case Connected => ReplayRoutes(s.book, s.wire.conns + 1, 0);
    case GaveUp =>
    case Data(c, chunk) => HandleAllRoutes(s.book, c, Lines(s.wire.buffer + chunk), parse);
    case Closed(c) =>
    case Exit =>
    case Timeout(id) =>
    case Command(args) =>
    case ObserveProperty(name) =>
  }

  /** In any run whatsoever a property change goes to the observer registered under its id, and an id never changes
      hands: the name it was first registered with is the one it has after every respawn. */
  lemma {:induction false} ChangesReachTheirObserver(s: State, es: seq<Step>, t: State, parse: string -> Message)
    requires Routed(s.book) && Runs(s, es, t, parse)
    ensures Routed(t.book) && s.book.observed <= t.book.observed
    decreases |es|
  {
    if es != [] {
      StepRoutes(s, es[0], parse);
      ChangesReachTheirObserver(Apply(s, es[0], parse), es[1..], t, parse);
    }
  }

  // --- a player that dies too early -------------------------------------------------------------

  function DyingEarly(): seq<Step> {
    [Start, Exit, Start, Connected, Connected, Data(1, "1"), Data(2, "2\n")]
  }

  // What the client looks like after them: two connections are attached, and they share one buffer.
  const TANGLED: Wire := Wire("", Some(2), {1, 2}, 2, 0, true, "12\n", ["12"])

  /** A player that dies before its socket appears leaves its `start` waiting; once the next player is up both calls
      connect, and the client handles a line no connection ever carried. */
  lemma {:induction false} EarlyDeathTanglesTheStreams(parse: string -> Message)
    ensures exists t :: Runs(FRESH, DyingEarly(), t, parse) && t.wire == TANGLED
    ensures TANGLED.handled == ["12"] && "12" !in Lines("1") && "12" !in Lines("2\n")
  {
    var s1 := Apply(FRESH, Start, parse);
    var s2 := Apply(s1, Exit, parse);
    var s3 := Apply(s2, Start, parse);
    var s4 := Apply(s3, Connected, parse);
    var s5 := Apply(s4, Connected, parse);
    assert s5.wire == Wire("", Some(2), {1, 2}, 2, 0, true, "", []);
    var s6 := Apply(s5, Data(1, "1"), parse);
    var s7 := Apply(s6, Data(2, "2\n"), parse);
    TangledLines();
    assert s6.wire == Wire("1", Some(2), {1, 2}, 2, 0, true, "1", []);
    assert s7.wire == TANGLED;
    Path(parse, s1, s2, s3, s4, s5, s6, s7);
  }

  lemma {:induction false} TangledLines()
    ensures Lines("1") == [] && Rest("1") == "1" && "" + "1" == "1"
    ensures "1" + "2\n" == "12\n" && Lines("12\n") == ["12"] && Rest("12\n") == "" && Lines("2\n") == ["2"]
    ensures forall lines: seq<string> :: lines + [] == lines && [] + lines == lines
  {
    FirstLineOf("1", 1);
    assert "1" + "2\n" == "12" + "\n" + "";
    LinesUnfold("12\n", "12", "");
    LinesUnfold("2\n", "2", "");
  }

  lemma {:induction false} Path(
    parse: string -> Message, s1: State, s2: State, s3: State, s4: State, s5: State, s6: State, s7: State)
    requires s1 == Apply(FRESH, Start, parse) && s2 == Apply(s1, Exit, parse) && s3 == Apply(s2, Start, parse)
    requires s4 == Apply(s3, Connected, parse) && s5 == Apply(s4, Connected, parse)
    requires s6 == Apply(s5, Data(1, "1"), parse) && s7 == Apply(s6, Data(2, "2\n"), parse)
    requires Enabled(FRESH, Start) && Enabled(s1, Exit) && Enabled(s2, Start) && Enabled(s3, Connected)
    requires Enabled(s4, Connected) && Enabled(s5, Data(1, "1")) && Enabled(s6, Data(2, "2\n"))
    ensures Runs(FRESH, DyingEarly(), s7, parse)
  {
    var e6 := [Data(2, "2\n")];
    var e5 := [Data(1, "1")] + e6;
    var e4 := [Connected] + e5;
    var e3 := [Connected] + e4;
    var e2 := [Start] + e3;
    var e1 := [Exit] + e2;
    assert [Data(2, "2\n")] + [] == e6;
    assert DyingEarly() == [Start] + e1;
  }

  // --- starts and connections -----------------------------------------------------------------------

  function Starts(es: seq<Step>): nat {
    if es == [] then 0 else (if es[0].Start? then 1 else 0) + Starts(es[1..])
  }

  function Connections(es: seq<Step>): nat {
    if es == [] then 0 else (if es[0].Connected? then 1 else 0) + Connections(es[1..])
  }

  function Surrenders(es: seq<Step>): nat {
    if es == [] then 0 else (if es[0].GaveUp? then 1 else 0) + Surrenders(es[1..])
  }

  /** Every start ends at most once: those still waiting for their socket are the starts less the connections made and the
      starts given up; and connections are numbered as they are made. */
  lemma {:induction false} EveryStartEndsOnce(s: State, es: seq<Step>, t: State, parse: string -> Message)
    requires Runs(s, es, t, parse)
    ensures t.wire.connecting + Connections(es) + Surrenders(es) == s.wire.connecting + Starts(es)
    ensures t.wire.conns == s.wire.conns + Connections(es)
    decreases |es|
  {
    if es != [] {
      EveryStartEndsOnce(Apply(s, es[0], parse), es[1..], t, parse);
    }
  }
}
