/**
 The recently played lists: bounded, newest first, each list once.
 */
module History {
  import opened InsertionMap
  import opened Recency
  import opened Sequences
  import opened Wrappers

  const MAX_ENTRIES: nat := 25

  datatype Facts = Facts(title: Option<string>, thumbnail: Option<string>, kind: Option<string>, origin: Option<string>)

  datatype Entry = Entry(id: string, facts: Facts, playedAt: int)

  /** The Lounge's ad-hoc queues exist for one session only. */
  predicate Replayable(id: string) {
    id != "" && !("RQ" <= id)
  }

  function Or<T>(a: Option<T>, b: Option<T>): Option<T> {
    if a.Some? then a else b
  }

  // Fields given win; absent ones keep what was known. The kind is read off the id if nobody ever said.
  function Merged(given: Facts, known: Option<Facts>, kindOf: string): (r: Facts)
    ensures given.title.Some? ==> r.title == given.title
    ensures given.thumbnail.Some? ==> r.thumbnail == given.thumbnail
    ensures given.origin.Some? ==> r.origin == given.origin
    ensures given.kind.Some? ==> r.kind == given.kind
    ensures known.Some? && given.title.None? ==> r.title == known.value.title
    ensures known.Some? && given.thumbnail.None? ==> r.thumbnail == known.value.thumbnail
    ensures known.Some? && given.origin.None? ==> r.origin == known.value.origin
    ensures known.Some? && given.kind.None? && known.value.kind.Some? ==> r.kind == known.value.kind
    ensures known.None? ==> r.title == given.title && r.thumbnail == given.thumbnail && r.origin == given.origin
    ensures given.kind.None? && (known.None? || known.value.kind.None?) ==> r.kind == Some(kindOf)
  {
    var k := if known.Some? then known.value else Facts(None, None, None, None);
    Facts(Or(given.title, k.title), Or(given.thumbnail, k.thumbnail), Or(Or(given.kind, k.kind), Some(kindOf)),
          Or(given.origin, k.origin))
  }

  function Described(e: Entry, title: Option<string>, thumbnail: Option<string>): (r: Entry)
    ensures r.id == e.id && r.playedAt == e.playedAt && r.facts.kind == e.facts.kind && r.facts.origin == e.facts.origin
    ensures title.Some? ==> r.facts.title == title
    ensures thumbnail.Some? ==> r.facts.thumbnail == thumbnail
    ensures title.None? ==> r.facts.title == e.facts.title
    ensures thumbnail.None? ==> r.facts.thumbnail == e.facts.thumbnail
  {
    var facts := Facts(Or(title, e.facts.title), Or(thumbnail, e.facts.thumbnail), e.facts.kind, e.facts.origin);
    Entry(e.id, facts, e.playedAt)
  }

  function Ids(entries: seq<Entry>): (r: seq<string>)
    ensures |r| == |entries|
  {
    seq(|entries|, i requires 0 <= i < |entries| => entries[i].id)
  }

  function Others(entries: seq<Entry>, id: string): seq<Entry> {
    if entries == [] then []
    else if entries[0].id == id then Others(entries[1..], id)
    else [entries[0]] + Others(entries[1..], id)
  }

  function Known(entries: seq<Entry>, id: string): Option<Facts> {
    if entries == [] then None
    else if entries[0].id == id then Some(entries[0].facts)
    else Known(entries[1..], id)
  }

  lemma {:induction false} OthersIds(entries: seq<Entry>, id: string)
    ensures Ids(Others(entries, id)) == WithoutKey(Ids(entries), id)
  {
    if entries != [] {
      OthersIds(entries[1..], id);
      assert Ids(entries) == [entries[0].id] + Ids(entries[1..]);
      assert Ids(entries)[1..] == Ids(entries[1..]);
      assert Ids([entries[0]] + Others(entries[1..], id)) == [entries[0].id] + Ids(Others(entries[1..], id));
    }
  }

  // When list `id` was last played.
  function LastPlay(log: seq<Entry>, id: string): Option<int> {
    if log == [] then None
    else if log[|log| - 1].id == id then Some(log[|log| - 1].playedAt)
    else LastPlay(log[..|log| - 1], id)
  }

  lemma {:induction false} LastPlayIsOfTheLastMention(log: seq<Entry>, id: string)
    ensures var i := LastMention(Ids(log), id); LastPlay(log, id) == if i < 0 then None else Some(log[i].playedAt)
    decreases |log|
  {
    if log != [] {
      assert Ids(log)[..|log| - 1] == Ids(log[..|log| - 1]);
      LastPlayIsOfTheLastMention(log[..|log| - 1], id);
    }
  }

  // What is known of list `id`: the facts of its entry.
  lemma {:induction false} KnownMeans(entries: seq<Entry>, id: string)
    ensures Known(entries, id).None? <==> id !in Ids(entries)
    ensures forall i | 0 <= i < |entries| && entries[i].id == id && id !in Ids(entries[..i]) ::
              Known(entries, id) == Some(entries[i].facts)
  {
    if entries != [] {
      KnownMeans(entries[1..], id);
      assert Ids(entries) == [entries[0].id] + Ids(entries[1..]);
      forall i | 0 < i < |entries| && entries[i].id == id && id !in Ids(entries[..i])
        ensures entries[0].id != id && id !in Ids(entries[1..][..i - 1])
      {
        assert Ids(entries[..i]) == [entries[0].id] + Ids(entries[1..][..i - 1]);
      }
    }
  }

  /** The other entries, all of them and in their order. */
  lemma {:induction false} OthersInPlace(a: seq<Entry>, b: seq<Entry>, e: Entry, id: string)
    ensures Others(a + b, id) == Others(a, id) + Others(b, id)
    ensures Others([e], id) == if e.id == id then [] else [e]
  {
    assert [e][1..] == [];
    if a == [] {
      assert a + b == b;
    } else {
      assert (a + b)[1..] == a[1..] + b;
      OthersInPlace(a[1..], b, e, id);
    }
  }

  class PlayHistory {
    var entries: seq<Entry>
    // Every play ever recorded, with what was known of the list then.
    ghost var log: seq<Entry>

    /** The list is the most recent replayable ids of everything ever recorded, newest first, with the time each was last
        played. */
    ghost predicate Valid()
      reads this
    {
      && Ids(entries) == Take(MAX_ENTRIES, Newest(Ids(log)))
      && (forall i | 0 <= i < |entries| :: LastPlay(log, entries[i].id) == Some(entries[i].playedAt))
      && (forall i | 0 <= i < |log| :: Replayable(log[i].id))
    }

    constructor ()
      ensures Valid() && log == [] && entries == []
    {
      entries, log := [], [];
    }

    method Record(id: string, given: Facts, kindOf: string, now: int) returns (recorded: bool)
      requires Valid()
      modifies this
      ensures Valid() && recorded == Replayable(id)
      ensures recorded <==> |id| > 0 && !(|id| >= 2 && id[0] == 'R' && id[1] == 'Q')
      ensures !recorded ==> entries == old(entries) && log == old(log)
      ensures recorded ==>
                var e := Entry(id, Merged(given, Known(old(entries), id), kindOf), now);
                log == old(log) + [e] && entries == [e] + Take(MAX_ENTRIES - 1, Others(old(entries), id))
    {
      if !Replayable(id) {
        return false;
      }
      var entry := Entry(id, Merged(given, Known(entries, id), kindOf), now);
      RecordedIds(entries, entry, log);
      RecordedTimes(entries, entry, log);
      entries := Take(MAX_ENTRIES, [entry] + Others(entries, id));
      log := log + [entry];
      return true;
    }

    /** What was learned later about a list is filled in; its place and its time stay. */
    method Describe(id: string, title: Option<string>, thumbnail: Option<string>)
      requires Valid()
      modifies this`entries
      ensures Valid() && |entries| == |old(entries)|
      ensures forall i | 0 <= i < |entries| && old(entries)[i].id != id :: entries[i] == old(entries)[i]
      ensures forall i | 0 <= i < |entries| && old(entries)[i].id == id && id !in Ids(old(entries)[..i]) ::
                entries[i] == Described(old(entries)[i], title, thumbnail)
    {
      var i := 0;
      while i < |entries| && entries[i].id != id
        invariant i <= |entries|
        invariant forall j | 0 <= j < i :: entries[j].id != id
      {
        i := i + 1;
      }
      if i == |entries| {
        return;
      }
      var e := Described(entries[i], title, thumbnail);
      forall j | i < j < |entries| ensures id in Ids(entries[..j]) {
        assert Ids(entries[..j])[i] == id;
      }
      assert Ids(entries[i := e]) == Ids(entries);
      entries := entries[i := e];
    }

    method List(n: nat) returns (newest: seq<Entry>)
      requires Valid()
      ensures newest == Take(n, entries)
      ensures n <= MAX_ENTRIES ==> Ids(newest) == Take(n, Newest(Ids(log)))
    {
      newest := Take(n, entries);
      assert Ids(newest) == Take(n, Ids(entries));
    }
  }

  lemma {:induction false} RecordedIds(entries: seq<Entry>, e: Entry, log: seq<Entry>)
    requires Ids(entries) == Take(MAX_ENTRIES, Newest(Ids(log)))
    ensures Ids(Take(MAX_ENTRIES, [e] + Others(entries, e.id))) ==
            Take(MAX_ENTRIES, Newest(Ids(log + [e])))
  {
    var all := [e] + Others(entries, e.id);
    OthersIds(entries, e.id);
    assert Ids(all) == ToFront(Ids(entries), e.id);
    assert Ids(Take(MAX_ENTRIES, all)) == Take(MAX_ENTRIES, Ids(all));
    assert Ids(log + [e]) == Ids(log) + [e.id];
    NewestGrows(Ids(log), e.id);
    NewestIsDistinct(Ids(log));
    TakeToFront(MAX_ENTRIES, Newest(Ids(log)), e.id);
  }

  lemma {:induction false} OthersMembers(entries: seq<Entry>, id: string)
    ensures forall x | x in Others(entries, id) :: x in entries && x.id != id
  {
    if entries != [] {
      assert entries == [entries[0]] + entries[1..];
      OthersMembers(entries[1..], id);
    }
  }

  lemma {:induction false} RecordedTimes(entries: seq<Entry>, e: Entry, log: seq<Entry>)
    requires forall i | 0 <= i < |entries| :: LastPlay(log, entries[i].id) == Some(entries[i].playedAt)
    ensures var n := Take(MAX_ENTRIES, [e] + Others(entries, e.id));
            forall i | 0 <= i < |n| :: LastPlay(log + [e], n[i].id) == Some(n[i].playedAt)
  {
    var all := log + [e];
    assert all[..|log|] == log;
    var rest := Others(entries, e.id);
    var n := Take(MAX_ENTRIES, [e] + rest);
    OthersMembers(entries, e.id);
    forall i | 0 <= i < |n| ensures LastPlay(all, n[i].id) == Some(n[i].playedAt) {
      if i > 0 {
        assert n[i] == rest[i - 1] && rest[i - 1] in rest;
      }
    }
  }
}
