/**
 The mpv client: newline-delimited messages over a socket whose bytes arrive in any pieces, commands matched to their
 replies, timeouts and the exit of the player, and observed properties that survive a respawn.
 */
module Mpv {
  import opened LineFraming
  import opened Wrappers

  // --- commands and replies ---------------------------------------------------------------------

  // A line as the client understands it; junk is blank, or not a message at all.
  datatype Message =
    | Junk
    | Event(name: string)
    | PropertyChange(id: nat, value: string)
    | Reply(id: nat, ok: bool, data: string)

  datatype Request = Observe(id: nat, name: string) | Other(args: string)

  // Command `id` as written to connection `conn`, in the given life of the player.
  datatype Sent = Sent(request: Request, conn: nat, life: nat)

  datatype Outcome = Replied(conn: nat, ok: bool, data: string) | TimedOut | Exited

  // A property change handed to the observer registered under `id`.
  datatype Notice = Notice(id: nat, name: string, value: string)

  /** The bookkeeping. Command ids count from 1: command `k` is `sent[k - 1]`, and the next one gets `|sent| + 1`.
      Observation ids likewise. A command that is over keeps the outcome its caller saw first. */
  datatype Book = Book(
    sent: seq<Sent>, pending: set<nat>, timers: set<nat>, settled: map<nat, Outcome>,
    observed: seq<string>, notices: seq<Notice>, life: nat)

  function NextId(b: Book): nat {
    |b.sent| + 1
  }

  function Settle(b: Book, id: nat, o: Outcome): Book {
    b.(settled := if id in b.settled then b.settled else b.settled[id := o])
  }

  function Send(b: Book, conn: nat, r: Request): Book {
    b.(sent := b.sent + [Sent(r, conn, b.life)], pending := b.pending + {NextId(b)}, timers := b.timers + {NextId(b)})
  }

  // One message from connection `conn`.
  function Handle(b: Book, conn: nat, m: Message): Book {
    match m
    case Junk => b
    case Event(_) => b
    case PropertyChange(id, value) =>
      if 0 < id <= |b.observed| then b.(notices := b.notices + [Notice(id, b.observed[id - 1], value)]) else b
    case Reply(id, ok, data) =>
      if id !in b.pending then b
      else Settle(b.(pending := b.pending - {id}, timers := b.timers - {id}), id, Replied(conn, ok, data))
  }

  function HandleAll(b: Book, conn: nat, lines: seq<string>, parse: string -> Message): Book
    decreases |lines|
  {
    if lines == [] then b
    else Handle(HandleAll(b, conn, lines[..|lines| - 1], parse), conn, parse(lines[|lines| - 1]))
  }

  // The timer of command `id` goes off. One whose command is over finds nothing left to reject.
  function Expire(b: Book, id: nat): Book {
    Settle(b.(pending := b.pending - {id}, timers := b.timers - {id}), id, TimedOut)
  }

  // The player died: whatever was in flight is rejected; the timers keep running.
  function Die(b: Book): Book {
    var over := map id | id in b.pending - b.settled.Keys :: Exited;
    b.(settled := b.settled + over, pending := {}, life := b.life + 1)
  }

  // Asks a fresh player for observations `k` and on.
  function Replay(b: Book, conn: nat, k: nat): (r: Book)
    ensures r.observed == b.observed
    decreases |b.observed| - k
  {
    if k >= |b.observed| then b else Replay(Send(b, conn, Observe(k + 1, b.observed[k])), conn, k + 1)
  }

  // --- the connection -----------------------------------------------------------------------------

  /** Connections count from 1. `attached` are those whose data still reaches the client; `connecting` is how many calls
      of `start` are still waiting for the socket to appear. `stream` and `handled` are the bytes received and the lines
      handled since the current connection was made. */
  datatype Wire = Wire(
    buffer: string, socket: Option<nat>, attached: set<nat>, conns: nat, connecting: nat, alive: bool,
    stream: string, handled: seq<string>)

  const UNPLUGGED: Wire := Wire("", None, {}, 0, 0, false, "", [])

  function Teardown(w: Wire): Wire {
    w.(attached := if w.socket.Some? then w.attached - {w.socket.value} else w.attached, socket := None, buffer := "")
  }

  function Connect(w: Wire): Wire {
    var c := w.conns + 1;
    Wire(w.buffer, Some(c), w.attached + {c}, c, if w.connecting > 0 then w.connecting - 1 else 0, w.alive, "", [])
  }

  function Receive(w: Wire, chunk: string): Wire {
    Wire(Rest(w.buffer + chunk), w.socket, w.attached, w.conns, w.connecting, w.alive,
         w.stream + chunk, w.handled + Lines(w.buffer + chunk))
  }

  // --- the step machine ------------------------------------------------------------------------

  datatype State = State(wire: Wire, book: Book)

  datatype Step =
    | Start
    | Connected
    | GaveUp
    | Data(conn: nat, chunk: string)
    | Closed(conn: nat)
    | Exit
    | Timeout(id: nat)
    | Command(args: string)
    | ObserveProperty(name: string)

  const FRESH: State := State(UNPLUGGED, Book([], {}, {}, map[], [], [], 0))

  predicate Enabled(s: State, e: Step) {
    match e
    case Start => !s.wire.alive
    case Connected => s.wire.alive && s.wire.connecting > 0
    case GaveUp => s.wire.connecting > 0
    case Data(c, _) => c in s.wire.attached
    case Closed(c) => c in s.wire.attached
    case Exit => s.wire.alive
    case Timeout(id) => id in s.book.timers
    case Command(_) => true
    case ObserveProperty(_) => true
  }

  function Apply(s: State, e: Step, parse: string -> Message): State {
    match e
    case Start => State(s.wire.(alive := true, connecting := s.wire.connecting + 1), s.book)
    case Connected => State(Connect(s.wire), Replay(s.book, s.wire.conns + 1, 0))
    case GaveUp => State(s.wire.(connecting := if s.wire.connecting > 0 then s.wire.connecting - 1 else 0), s.book)
    case Data(c, chunk) =>
      State(Receive(s.wire, chunk), HandleAll(s.book, c, Lines(s.wire.buffer + chunk), parse))
    case Closed(c) => State(Teardown(s.wire).(attached := Teardown(s.wire).attached - {c}), s.book)
    case Exit => State(Teardown(s.wire).(alive := false), Die(s.book))
    case Timeout(id) => State(s.wire, Expire(s.book, id))
    case Command(args) =>
      if s.wire.socket.None? then s else State(s.wire, Send(s.book, s.wire.socket.value, Other(args)))
    case ObserveProperty(name) =>
      var b := s.book.(observed := s.book.observed + [name]);
      State(s.wire,
            if s.wire.alive && s.wire.socket.Some? then Send(b, s.wire.socket.value, Observe(|b.observed|, name)) else b)
  }

  ghost predicate Runs(s: State, es: seq<Step>, t: State, parse: string -> Message)
    decreases |es|
  {
    if es == [] then s == t else Enabled(s, es[0]) && Runs(Apply(s, es[0], parse), es[1..], t, parse)
  }

  // --- every command is settled once, by what is its own ------------------------------------------

  /** Every command ever sent is either in flight or over; one in flight has its timer running and was sent in the
      present life of the player. */
  ghost predicate Balanced(b: Book) {
    && (forall id :: id in b.pending || id in b.settled <==> 1 <= id <= |b.sent|)
    && (forall id | id in b.pending :: id !in b.settled && id in b.timers && b.sent[id - 1].life == b.life)
    && (forall id | id in b.timers :: 1 <= id <= |b.sent|)
  }

  // What may happen to the book in one step: settled commands keep their outcome, sent ones stay sent.
  ghost predicate Continues(b: Book, n: Book) {
    && b.sent <= n.sent && b.observed <= n.observed
    && (forall id | id in b.settled :: id in n.settled && n.settled[id] == b.settled[id])
  }

  lemma {:induction false} ReplayKeeps(b: Book, conn: nat, k: nat)
    requires Balanced(b)
    ensures Balanced(Replay(b, conn, k)) && Continues(b, Replay(b, conn, k))
    ensures Replay(b, conn, k).life == b.life && Replay(b, conn, k).settled == b.settled
    ensures forall i | |b.sent| <= i < |Replay(b, conn, k).sent| :: Replay(b, conn, k).sent[i].conn == conn
    ensures forall i | k <= i < |b.observed| ::
              Sent(Observe(i + 1, b.observed[i]), conn, b.life) in Replay(b, conn, k).sent
    decreases |b.observed| - k
  {
    if k < |b.observed| {
      var n := Send(b, conn, Observe(k + 1, b.observed[k]));
      ReplayKeeps(n, conn, k + 1);
      assert n.sent[|b.sent|] == Sent(Observe(k + 1, b.observed[k]), conn, b.life);
    }
  }

  // One of the lines is the reply to command `id` that outcome `o` reports.
  ghost predicate Answered(lines: seq<string>, id: nat, o: Outcome, parse: string -> Message)
    requires o.Replied?
  {
    exists i :: 0 <= i < |lines| && parse(lines[i]) == Reply(id, o.ok, o.data)
  }

  lemma {:induction false} HandleAllKeeps(b: Book, conn: nat, lines: seq<string>, parse: string -> Message)
    requires Balanced(b)
    ensures var n := HandleAll(b, conn, lines, parse);
            && Balanced(n) && Continues(b, n) && n.sent == b.sent && n.observed == b.observed && n.life == b.life
            && (forall id | id in n.settled && id !in b.settled ::
                  && id in b.pending && n.settled[id].Replied? && n.settled[id].conn == conn
                  && Answered(lines, id, n.settled[id], parse))
    decreases |lines|
  {
    if lines != [] {
      var last := |lines| - 1;
      HandleAllKeeps(b, conn, lines[..last], parse);
      var mid := HandleAll(b, conn, lines[..last], parse);
      var n := HandleAll(b, conn, lines, parse);
      forall id | id in n.settled && id !in b.settled
        ensures && id in b.pending && n.settled[id].Replied? && n.settled[id].conn == conn
                && Answered(lines, id, n.settled[id], parse)
      {
        if id in mid.settled {
          var o := mid.settled[id];
          var i :| 0 <= i < last && parse(lines[..last][i]) == Reply(id, o.ok, o.data);
          assert parse(lines[i]) == Reply(id, o.ok, o.data);
        } else {
          assert parse(lines[last]) == Reply(id, n.settled[id].ok, n.settled[id].data);
        }
      }
    }
  }

  // Whether step `e` is a reason for command `id` to end in outcome `o`.
  ghost predicate Deserved(s: State, e: Step, id: nat, o: Outcome, parse: string -> Message) {
    match o
    case Replied(c, _, _) => e.Data? && e.conn == c && Answered(Lines(s.wire.buffer + e.chunk), id, o, parse)
    case TimedOut => e == Timeout(id)
    case Exited => e == Exit
  }

  /** One step: nothing settled changes, and what the step settles is settled for its own reason. A reply is one to that
      command, a timeout is that command's own timer, and an exit takes everything then in flight. */
  lemma {:induction false} StepSettlesItsOwn(s: State, e: Step, parse: string -> Message)
    requires Balanced(s.book) && Enabled(s, e)
    ensures Balanced(Apply(s, e, parse).book) && Continues(s.book, Apply(s, e, parse).book)
    ensures forall id | id in Apply(s, e, parse).book.settled && id !in s.book.settled ::
              id in s.book.pending && Deserved(s, e, id, Apply(s, e, parse).book.settled[id], parse)
  {
    match e
    case Start =>
    case Connected => ReplayKeeps(s.book, s.wire.conns + 1, 0);
    case GaveUp =>
    case Data(c, chunk) => HandleAllKeeps(s.book, c, Lines(s.wire.buffer + chunk), parse);
    case Closed(c) =>
    case Exit =>
    case Timeout(id) =>
    case Command(args) =>
    case ObserveProperty(name) =>
  }

  /** Over any run, ids are never reused, every command sent is in flight or settled, and what a caller was told never
      changes: a late reply, a stale timer or a second exit touches nothing. */
  lemma {:induction false} SettledOnce(s: State, es: seq<Step>, t: State, parse: string -> Message)
    requires Balanced(s.book) && Runs(s, es, t, parse)
    ensures Balanced(t.book) && Continues(s.book, t.book)
    decreases |es|
  {
    if es != [] {
      StepSettlesItsOwn(s, es[0], parse);
      SettledOnce(Apply(s, es[0], parse), es[1..], t, parse);
    }
  }
}
