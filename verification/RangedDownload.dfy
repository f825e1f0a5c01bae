/**
 The ranged download loop of the song cache (section 14 of RFC 9110 for the range semantics).

 A server is any function of the request number and the asked range, so it may answer the same range
 differently every time. `Honest` is the contract under which a published file is exactly the song.
 */
module RangedDownload {
  import opened Wrappers

  type Byte = bv8

  const CHUNK_BYTES: int := 10 * 1024 * 1024
  const RANGE_RETRIES: nat := 2

  // `total` is the complete length of a Content-Range header, if there is one.
  datatype Reply = Dropped | Reply(status: int, total: Option<nat>, body: seq<Byte>)

  type Server = (nat, int, int) -> Reply

  datatype Exchange = Exchange(first: nat, last: int, reply: Reply)

  datatype Outcome = Failed | Published(bytes: seq<Byte>)

  // `log` holds, per range, the reply that was used.
  datatype Fetched = Fetched(outcome: Outcome, log: seq<Exchange>, requests: nat)

  predicate Transient(r: Reply) {
    r.Dropped? || r.status >= 500
  }

  /** One range with its retries: the first reply that is not transient, or the third one. */
  function RangeReply(server: Server, k: nat, first: int, last: int): (r: (Reply, nat))
    ensures k < r.1 <= k + RANGE_RETRIES + 1 && r.0 == server(r.1 - 1, first, last)
    ensures Transient(r.0) ==> r.1 == k + RANGE_RETRIES + 1
    ensures forall i | k <= i < r.1 - 1 :: Transient(server(i, first, last))
  {
    if !Transient(server(k, first, last)) then (server(k, first, last), k + 1)
    else if !Transient(server(k + 1, first, last)) then (server(k + 1, first, last), k + 2)
    else (server(k + 2, first, last), k + 3)
  }

  // The URL's `clen`, where 0 and a missing one are the same.
  function Length(clen: int): Option<int> {
    if clen == 0 then None else Some(clen)
  }

  function Total(reply: Reply, length: Option<int>): Option<int>
    requires reply.Reply?
  {
    if reply.total.Some? && reply.total.value != 0 then Some(reply.total.value) else length
  }

  function LastByte(first: int, length: Option<int>): int {
    if length.Some? then Min(length.value, first + CHUNK_BYTES) - 1 else first + CHUNK_BYTES - 1
  }

  /** The loop from `written` bytes on, its requests numbered from `k`. */
  function Fetch(server: Server, length: Option<int>, maxFile: nat, k: nat, written: seq<Byte>): Fetched
    requires |written| <= maxFile
    decreases maxFile - |written|
  {
    var first := |written|;
    var last := LastByte(first, length);
    var (reply, next) := RangeReply(server, k, first, last);
    var log := [Exchange(first, last, reply)];
    if reply.Dropped? then Fetched(Failed, log, next)
    else if reply.status == 416 && length.None? && first > 0 then Fetched(Published(written), log, next)
    else if reply.status != 206 && reply.status != 200 then Fetched(Failed, log, next)
    else
      var got := written + reply.body;
      var total := Total(reply, length);
      if |got| > maxFile then Fetched(Failed, log, next)
      else if reply.status == 200 || reply.body == [] || (total.Some? && |got| >= total.value) then
        Fetched(if total.Some? && |got| != total.value then Failed else Published(got), log, next)
      else
        var rest := Fetch(server, length, maxFile, next, got);
        rest.(log := log + rest.log)
  }

  method GetRangeRetrying(server: Server, k: nat, first: int, last: int) returns (r: Reply, next: nat)
    ensures (r, next) == RangeReply(server, k, first, last)
  {
    var attempt := 0;
    while true
      invariant 0 <= attempt <= RANGE_RETRIES
      invariant forall i | k <= i < k + attempt :: Transient(server(i, first, last))
      decreases RANGE_RETRIES - attempt
    {
      r := server(k + attempt, first, last);
      next := k + attempt + 1;
      if !Transient(r) || attempt >= RANGE_RETRIES {
        return;
      }
      attempt := attempt + 1;
    }
  }

  // --- the server's contract ---------------------------------------------------------------

  /** A 206 carries a non-empty prefix of the asked slice, a 200 the whole song, a 416 means the range starts
      past the end, and a Content-Range tells the truth. Anything else is no promise. */
  predicate Honest(song: seq<Byte>, first: nat, last: int, r: Reply) {
    r.Reply? ==>
      && (r.status == 206 || r.status == 200 ==> r.total in {None, Some(|song|)})
      && (r.status == 206 ==>
            0 < |r.body| <= Min(last + 1, |song|) - first && r.body == song[first..first + |r.body|])
      && (r.status == 200 ==> r.body == song)
      && (r.status == 416 ==> first >= |song|)
  }

  ghost predicate HonestServer(song: seq<Byte>, server: Server) {
    forall n: nat, first: nat, last: int | first <= last :: Honest(song, first, last, server(n, first, last))
  }

  // The one way an honest server's replies can be misassembled: the whole song in answer to a later range, with
  // no length known to notice.
  predicate LateWhole(song: seq<Byte>, x: Exchange) {
    x.reply.Reply? && x.reply.status == 200 && x.first > 0 && song != []
  }

  lemma {:induction false} LogEnds(server: Server, length: Option<int>, maxFile: nat, k: nat, written: seq<Byte>)
    requires |written| <= maxFile
    ensures var f := Fetch(server, length, maxFile, k, written);
            && 0 < |f.log| <= maxFile - |written| + 1
            && k < f.requests <= k + 3 * |f.log|
            && (f.outcome.Published? ==> |f.outcome.bytes| <= maxFile && written <= f.outcome.bytes)
    decreases maxFile - |written|
  {
    var first := |written|;
    var (reply, next) := RangeReply(server, k, first, LastByte(first, length));
    if reply.Reply? && (reply.status == 206 || reply.status == 200) {
      var got := written + reply.body;
      if |got| <= maxFile && reply.body != [] {
        LogEnds(server, length, maxFile, next, got);
      }
    }
  }

  lemma {:induction false} PrefixGrows(song: seq<Byte>, written: seq<Byte>, body: seq<Byte>)
    requires written <= song && |written| + |body| <= |song| && body == song[|written|..|written| + |body|]
    ensures written + body <= song
    ensures |written + body| == |song| ==> written + body == song
  {
    assert written + body == song[..|written| + |body|];
  }

  // The state of an honest download before a range: `written` is a prefix of the song, and complete only if nobody
  // can tell.
  predicate OnTrack(song: seq<Byte>, length: Option<int>, written: seq<Byte>) {
    && (length.Some? ==> length.value == |song| > 0)
    && written <= song
    && (written == song ==> written == [] || length.None?)
  }

  // One exchange under the contract: it goes on from a longer prefix, or it ends as the theorem says.
  lemma {:induction false} HonestExchange(song: seq<Byte>, length: Option<int>, written: seq<Byte>, reply: Reply)
    requires OnTrack(song, length, written) && reply.Reply?
    requires Honest(song, |written|, LastByte(|written|, length), reply)
    ensures reply.status == 416 && length.None? && |written| > 0 ==> written == song
    ensures reply.status == 206 ==>
      var got, total := written + reply.body, Total(reply, length);
      && reply.body != []
      && (total.Some? && |got| >= total.value ==> got == song)
      && (!(total.Some? && |got| >= total.value) ==> OnTrack(song, length, got))
    ensures reply.status == 200 ==>
      var got, total := written + reply.body, Total(reply, length);
      && (written == [] || song == [] ==> got == song)
      && (written != [] && song != [] ==> |got| > |song|)
      && (total.Some? ==> total.value == |song|)
  {
    if reply.status == 206 {
      PrefixGrows(song, written, reply.body);
    } else if reply.status == 200 && (written == [] || song == []) {
      assert written + song == song;
    }
  }

  /** Whatever an honest server's replies publish is exactly the song, if and only if the exchange that ended the
      download was not a 200 to a later range. */
  lemma {:induction false} PublishedIsTheSong(
    song: seq<Byte>, server: Server, length: Option<int>, maxFile: nat, k: nat, written: seq<Byte>, f: Fetched)
    requires HonestServer(song, server) && OnTrack(song, length, written) && |written| <= maxFile
    requires f == Fetch(server, length, maxFile, k, written) && f.outcome.Published?
    ensures f.log != []
    ensures f.outcome.bytes == song <==> !LateWhole(song, f.log[|f.log| - 1])
    decreases maxFile - |written|
  {
    var first := |written|;
    var (reply, next) := RangeReply(server, k, first, LastByte(first, length));
    assert Honest(song, first, LastByte(first, length), reply);
    HonestExchange(song, length, written, reply);
    if reply.status == 206 {
      var got, total := written + reply.body, Total(reply, length);
      if !(total.Some? && |got| >= total.value) {
        var rest := Fetch(server, length, maxFile, next, got);
        PublishedIsTheSong(song, server, length, maxFile, next, got, rest);
        assert f.log[|f.log| - 1] == rest.log[|rest.log| - 1];
      }
    }
  }

  /** The condition is needed: an honest server that first sends a part and then the whole song, never naming a
      length, gets three bytes of a two-byte song published. */
  lemma {:induction false} LateWholeIsPublished() returns (song: seq<Byte>, server: Server)
    ensures HonestServer(song, server)
    ensures Fetch(server, None, 10, 0, []).outcome.Published?
    ensures Fetch(server, None, 10, 0, []).outcome.bytes != song
  {
    song := [1, 2];
    server := (n, first, last) => if first == 0 then Reply(206, None, [1]) else Reply(200, None, [1, 2]);
    assert song[0..1] == [1];
    assert RangeReply(server, 0, 0, LastByte(0, None)) == (Reply(206, None, [1]), 1);
    assert RangeReply(server, 1, 1, LastByte(1, None)) == (Reply(200, None, [1, 2]), 2);
    assert [] + [1] == [1 as Byte];
    assert Fetch(server, None, 10, 1, [1]).outcome == Published([1] + [1, 2]);
  }

  predicate Hiccup(r: Reply) {
    r.Dropped? || (r.Reply? && r.status >= 500)
  }

  predicate Tells(r: Reply, status: int) {
    r.Reply? && r.status == status
  }

  // The range gets its part, and one past the end gets 416, after at most two dropped connections or server errors.
  predicate ServesRange(song: seq<Byte>, server: Server, k: nat, first: nat, last: int) {
    var status := if first < |song| then 206 else 416;
    || Tells(server(k, first, last), status)
    || (Hiccup(server(k, first, last)) && Tells(server(k + 1, first, last), status))
    || (Hiccup(server(k, first, last)) && Hiccup(server(k + 1, first, last)) && Tells(server(k + 2, first, last), status))
  }

  ghost predicate Serves(song: seq<Byte>, server: Server) {
    forall k: nat, first: nat, last: int | first <= last :: ServesRange(song, server, k, first, last)
  }

  /** A song that fits and is served, however it is cut into parts, is published. */
  lemma {:induction false} ServedSongIsPublished(
    song: seq<Byte>, server: Server, length: Option<int>, maxFile: nat, k: nat, written: seq<Byte>)
    requires HonestServer(song, server) && Serves(song, server) && OnTrack(song, length, written)
    requires song != [] && |song| <= maxFile
    ensures Fetch(server, length, maxFile, k, written).outcome == Published(song)
    decreases maxFile - |written|
  {
    var first := |written|;
    var (reply, next) := RangeReply(server, k, first, LastByte(first, length));
    assert ServesRange(song, server, k, first, LastByte(first, length));
    assert Honest(song, first, LastByte(first, length), reply);
    HonestExchange(song, length, written, reply);
    if reply.status == 206 {
      var got, total := written + reply.body, Total(reply, length);
      if !(total.Some? && |got| >= total.value) {
        ServedSongIsPublished(song, server, length, maxFile, next, got);
      }
    }
  }

  // --- what is asked for, and what is made of the answers, whatever the server does ----------------------

  // The complete length a reply names, or else the URL.
  predicate Names(r: Reply, length: Option<int>, n: int)
    requires r.Reply?
  {
    (r.total == Some(n) && n != 0) || (r.total in {None, Some(0)} && length == Some(n))
  }

  // The next range: ten MiB from here, or what is left.
  predicate AsksFrom(x: Exchange, first: nat, length: Option<int>) {
    && x.first == first && x.last <= first + 10 * 1024 * 1024 - 1
    && (length.Some? ==> x.last <= length.value - 1)
    && (x.last == first + 10 * 1024 * 1024 - 1 || (length.Some? && x.last == length.value - 1))
  }

  // A part that leaves something to ask for.
  ghost predicate GoesOn(x: Exchange, length: Option<int>) {
    && x.reply.Reply? && x.reply.status == 206 && x.reply.body != []
    && forall n | Names(x.reply, length, n) :: x.first + |x.reply.body| < n
  }

  // A last exchange that publishes `size` bytes: nothing past the end of a file of unknown length, the whole file at
  // once, or the part that completes it; never another size than the one that was named.
  ghost predicate Completes(x: Exchange, length: Option<int>, size: int) {
    && x.reply.Reply?
    && if x.reply.status == 416 then length == None && 0 < x.first == size
       else
         && x.reply.status in {200, 206} && size == x.first + |x.reply.body|
         && (forall n | Names(x.reply, length, n) :: size == n)
         && (x.reply.status == 200 || x.reply.body == [] || exists n :: Names(x.reply, length, n))
  }

  lemma {:induction false} TotalIsNamed(r: Reply, length: Option<int>)
    requires r.Reply?
    ensures forall n :: Names(r, length, n) <==> Total(r, length) == Some(n)
  {
  }

  // One round of the loop.
  lemma {:induction false} FetchTurn(server: Server, length: Option<int>, maxFile: nat, k: nat, written: seq<Byte>)
    requires |written| <= maxFile
    ensures var (reply, next) := RangeReply(server, k, |written|, LastByte(|written|, length));
            var x := Exchange(|written|, LastByte(|written|, length), reply);
            var f := Fetch(server, length, maxFile, k, written);
            && AsksFrom(x, |written|, length)
            && if GoesOn(x, length) && |written + reply.body| <= maxFile
               then var rest := Fetch(server, length, maxFile, next, written + reply.body);
                    f.log == [x] + rest.log && f.outcome == rest.outcome
               else
                 && f.log == [x]
                 && (f.outcome.Published? ==> Completes(x, length, |f.outcome.bytes|))
                 && (f.outcome.Failed? ==> forall n | Completes(x, length, n) :: n > maxFile)
  {
    var (reply, next) := RangeReply(server, k, |written|, LastByte(|written|, length));
    if reply.Reply? {
      TotalIsNamed(reply, length);
    }
  }

  // It ends in a file if and only if its last exchange completes one within the limit.
  ghost predicate Concludes(f: Fetched, length: Option<int>, maxFile: nat)
    requires f.log != []
  {
    var last := f.log[|f.log| - 1];
    && (f.outcome.Published? ==> Completes(last, length, |f.outcome.bytes|))
    && (f.outcome.Failed? ==> forall n | Completes(last, length, n) :: n > maxFile)
  }

  /** From any server: the ranges asked for follow one another without gap or overlap, each but the last got a part that
      left something to ask for, and a file is published if and only if the last one completes it within the limit. */
  lemma {:induction false} RangesFollowOneAnother(
    server: Server, length: Option<int>, maxFile: nat, k: nat, written: seq<Byte>)
    requires |written| <= maxFile
    ensures var f := Fetch(server, length, maxFile, k, written);
            && f.log != [] && AsksFrom(f.log[0], |written|, length)
            && (forall i | 0 <= i < |f.log| - 1 ::
                  GoesOn(f.log[i], length) && AsksFrom(f.log[i + 1], f.log[i].first + |f.log[i].reply.body|, length))
            && Concludes(f, length, maxFile)
    decreases maxFile - |written|
  {
    FetchTurn(server, length, maxFile, k, written);
    var (reply, next) := RangeReply(server, k, |written|, LastByte(|written|, length));
    var x := Exchange(|written|, LastByte(|written|, length), reply);
    if GoesOn(x, length) && |written + reply.body| <= maxFile {
      RangesFollowOneAnother(server, length, maxFile, next, written + reply.body);
      LastOfLog(x, Fetch(server, length, maxFile, next, written + reply.body).log);
    }
  }

  lemma {:induction false} LastOfLog(x: Exchange, log: seq<Exchange>)
    requires log != []
    ensures ([x] + log)[|[x] + log| - 1] == log[|log| - 1]
  {
  }

  /** A refusal is final: it costs one request, and nothing is published. */
  lemma {:induction false} RefusedAtOnce(server: Server, length: Option<int>, maxFile: nat, k: nat, written: seq<Byte>)
    requires |written| <= maxFile
    requires var r := server(k, |written|, LastByte(|written|, length));
             r.Reply? && r.status < 500 && r.status !in {200, 206, 416}
    ensures var f := Fetch(server, length, maxFile, k, written); f.outcome.Failed? && f.requests == k + 1
  {
  }

  predicate TellsLength(song: seq<Byte>, server: Server, n: nat, first: int, last: int) {
    var r := server(n, first, last);
    r.Reply? && r.status in {200, 206} ==> r.total == Some(|song|)
  }

  // Every answer of the server names the length of the song.
  ghost predicate NamesIt(song: seq<Byte>, server: Server) {
    forall n: nat, first: nat, last: int :: TellsLength(song, server, n, first, last)
  }

  /** Where the length of the song is known, from its URL or from the answers, an honest server cannot get anything else
      published, and nothing is asked for past its end. */
  lemma {:induction false} KnownLengthIsSafe(
    song: seq<Byte>, server: Server, clen: int, maxFile: nat, k: nat, written: seq<Byte>)
    requires HonestServer(song, server) && song != [] && (clen == |song| || (clen == 0 && NamesIt(song, server)))
    requires OnTrack(song, Length(clen), written) && (written == song ==> song == []) && |written| <= maxFile
    ensures var f := Fetch(server, Length(clen), maxFile, k, written);
            && (f.outcome.Published? ==> f.outcome.bytes == song)
            && forall i | 0 <= i < |f.log| :: f.log[i].first < |song|
    decreases maxFile - |written|
  {
    var first, length := |written|, Length(clen);
    assert first < |song|;
    var (reply, next) := RangeReply(server, k, first, LastByte(first, length));
    assert Honest(song, first, LastByte(first, length), reply);
    assert NamesIt(song, server) ==> TellsLength(song, server, next - 1, first, LastByte(first, length));
    if reply.Reply? && reply.status in {200, 206} {
      HonestExchange(song, length, written, reply);
      assert Total(reply, length) == Some(|song|);
      var got := written + reply.body;
      if reply.status == 206 && |got| < |song| && |got| <= maxFile {
        KnownLengthIsSafe(song, server, clen, maxFile, next, got);
        var f, rest := Fetch(server, length, maxFile, k, written), Fetch(server, length, maxFile, next, got);
        assert f.log == [Exchange(first, LastByte(first, length), reply)] + rest.log;
      }
    }
  }
}
