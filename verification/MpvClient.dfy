/**
 The mpv client as an object: each callback takes the object from one state of the step machine to the next.
 */
module MpvClient {
  import opened LineFraming
  import opened Wrappers
  import opened Mpv
  import opened MpvDelivery

  class Client {
    var buffer: string
    var socket: Option<nat>
    var alive: bool
    var nextRequestId: nat
    var pending: set<nat>
    var timers: set<nat>
    var settled: map<nat, Outcome>
    // Every command written, and to which connection.
    var written: seq<(Request, nat)>
    var observed: map<nat, string>
    var nextObserveId: nat
    var notices: seq<Notice>
    ghost var state: State

    ghost predicate Valid()
      reads this
    {
      && buffer == state.wire.buffer && socket == state.wire.socket && alive == state.wire.alive
      && Books(state.book)
    }

    ghost predicate Books(b: Book)
      reads this
    {
      && nextRequestId == NextId(b) && nextObserveId == |b.observed| + 1
      && pending == b.pending && timers == b.timers && settled == b.settled
      && |written| == |b.sent|
      && (forall i | 0 <= i < |written| :: written[i] == (b.sent[i].request, b.sent[i].conn))
      && (forall id :: id in observed <==> 1 <= id <= |b.observed|)
      && (forall id | id in observed :: observed[id] == b.observed[id - 1])
      && notices == b.notices
    }

    constructor ()
      ensures Valid() && state == FRESH
    {
      buffer, socket, alive, nextRequestId, pending, timers, settled := "", None, false, 1, {}, {}, map[];
      written, observed, nextObserveId, notices := [], map[], 1, [];
      state := FRESH;
    }

    method Settle(id: nat, o: Outcome)
      modifies this`settled
      ensures settled == if id in old(settled) then old(settled) else old(settled)[id := o]
    {
      if id !in settled {
        settled := settled[id := o];
      }
    }

    // Writes a command to the socket and starts its timer.
    method Write(r: Request, conn: nat, ghost b: Book) returns (ghost n: Book)
      requires Books(b)
      modifies this`nextRequestId, this`pending, this`timers, this`written
      ensures n == Send(b, conn, r) && Books(n) && written == old(written) + [(r, conn)]
    {
      var id := nextRequestId;
      nextRequestId := nextRequestId + 1;
      timers := timers + {id};
      pending := pending + {id};
      written := written + [(r, conn)];
      n := Send(b, conn, r);
    }

    method OnMessage(conn: nat, m: Message, ghost b: Book) returns (ghost n: Book)
      requires Books(b)
      modifies this`pending, this`timers, this`settled, this`notices
      ensures n == Handle(b, conn, m) && Books(n)
    {
      n := Handle(b, conn, m);
      match m
      case Junk =>
      case Event(_) =>
      case PropertyChange(id, value) =>
        if id in observed {
          notices := notices + [Notice(id, observed[id], value)];
        }
      case Reply(id, ok, data) =>
        if id in pending {
          pending := pending - {id};
          timers := timers - {id};
          Settle(id, Replied(conn, ok, data));
        }
    }

    /** A chunk of bytes: every line it completes is handled, in order, and the rest is kept for the next chunk. */
    method OnData(conn: nat, chunk: string, parse: string -> Message)
      requires Valid() && conn in state.wire.attached
      modifies this
      ensures Valid() && state == Apply(old(state), Data(conn, chunk), parse)
      ensures notices == old(notices) + News(old(state).book.observed, Lines(old(buffer) + chunk), parse)
    {
      StepTells(state, Data(conn, chunk), parse);
      buffer := buffer + chunk;
      var lines := Lines(buffer);
      buffer := Rest(buffer);
      ghost var b := state.book;
      assert lines[..0] == [];
      for i := 0 to |lines|
        invariant Books(b) && b == HandleAll(state.book, conn, lines[..i], parse)
        invariant buffer == Rest(old(buffer) + chunk) && socket == old(socket) && alive == old(alive)
        invariant state == old(state)
      {
        assert lines[..i + 1][..i] == lines[..i];
        b := OnMessage(conn, parse(lines[i]), b);
      }
      assert lines[..|lines|] == lines;
      state := State(Receive(state.wire, chunk), b);
    }

    method Command(args: string) returns (refused: bool)
      requires Valid()
      modifies this
      ensures Valid() && refused == old(socket).None?
      ensures written == old(written) + if refused then [] else [(Other(args), old(socket).value)]
      ensures forall parse :: state == Apply(old(state), Mpv.Command(args), parse)
    {
      if socket == None {
        return true;
      }
      ghost var n := Write(Other(args), socket.value, state.book);
      state := State(state.wire, n);
      return false;
    }

    /** The timer of a command goes off, perhaps long after the command was over. */
    method OnTimeout(id: nat)
      requires Valid() && id in timers
      modifies this
      ensures Valid()
      ensures forall parse :: state == Apply(old(state), Timeout(id), parse)
    {
      timers := timers - {id};
      pending := pending - {id};
      Settle(id, TimedOut);
      state := State(state.wire, Expire(state.book, id));
    }

    method TeardownSocket()
      modifies this`socket, this`buffer
      ensures socket == None && buffer == ""
    {
      socket := None;
      buffer := "";
    }

    method RejectAll()
      modifies this`settled
      ensures settled == old(settled) + map id | id in pending - old(settled).Keys :: Exited
    {
      ghost var before := settled;
      var todo := pending;
      while todo != {}
        invariant todo <= pending
        invariant settled == before + map id | id in pending - todo - before.Keys :: Exited
      {
        var id :| id in todo;
        Settle(id, Exited);
        todo := todo - {id};
      }
      assert pending - todo == pending;
    }

    method OnExit()
      requires Valid() && alive
      modifies this
      ensures Valid() && pending == {}
      ensures forall parse :: state == Apply(old(state), Exit, parse)
    {
      alive := false;
      TeardownSocket();
      RejectAll();
      pending := {};
      state := State(Teardown(state.wire).(alive := false), Die(state.book));
    }

    /** A fresh player is up: everything observed before is asked for again. */
    method OnConnected(conn: nat)
      requires Valid() && conn == state.wire.conns + 1
      modifies this
      ensures Valid()
      ensures forall parse :: state == Apply(old(state), Connected, parse)
    {
      socket := Some(conn);
      ghost var b := state.book;
      for k := 0 to nextObserveId - 1
        invariant Books(b) && Replay(state.book, conn, 0) == Replay(b, conn, k)
        invariant b.observed == state.book.observed
        invariant socket == Some(conn) && buffer == old(buffer) && alive == old(alive) && state == old(state)
      {
        b := Write(Observe(k + 1, observed[k + 1]), conn, b);
      }
      state := State(Connect(state.wire), b);
    }

    /** Registers an observer; its id is good for every later life of the player. */
    method ObserveProperty(name: string) returns (id: nat)
      requires Valid()
      modifies this
      ensures Valid() && id !in old(observed) && observed == old(observed)[id := name]
      ensures written == old(written) + if alive && socket.Some? then [(Observe(id, name), socket.value)] else []
      ensures forall parse :: state == Apply(old(state), Mpv.ObserveProperty(name), parse)
    {
      id := nextObserveId;
      nextObserveId := nextObserveId + 1;
      observed := observed[id := name];
      ghost var b := state.book.(observed := state.book.observed + [name]);
      if alive && socket.Some? {
        b := Write(Observe(id, name), socket.value, b);
      }
      state := State(state.wire, b);
    }
  }
}
