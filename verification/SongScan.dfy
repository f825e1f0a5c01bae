/**
 What the song cache makes of its directory at start: which files it counts, and what it does not see.
 */
module SongScan {
  import opened AudioCache

  predicate WordChar(c: char) {
    'a' <= c <= 'z' || 'A' <= c <= 'Z' || '0' <= c <= '9' || c == '_' || c == '-'
  }

  predicate VideoId(id: Id) {
    |id| == 11 && forall c | c in id :: WordChar(c)
  }

  // A file found at start: the id its name begins with, and what `stat` says, unless it vanished meanwhile.
  datatype Found = Found(name: string, id: Id, size: nat, modified: int, vanished: bool)

  predicate IsPart(name: string) {
    |name| >= 5 && name[|name| - 5..] == ".part"
  }

  // A leftover of an interrupted download, or a song too large for this cache.
  predicate Unwanted(f: Found, maxBytes: nat) {
    IsPart(f.name) || (VideoId(f.id) && !f.vanished && f.size > MaxFile(maxBytes))
  }

  // A complete song that may stay.
  predicate Song(f: Found, maxBytes: nat) {
    !IsPart(f.name) && VideoId(f.id) && !f.vanished && f.size <= MaxFile(maxBytes)
  }

  /** Video ids are written in the alphabet of URL-safe base64 (section 5 of RFC 4648), by its code points. */
  lemma {:induction false} WordChars(c: char)
    ensures WordChar(c) <==>
            48 <= c as int <= 57 || 65 <= c as int <= 90 || 97 <= c as int <= 122 || c as int in {45, 95}
  {
  }

  /** What is found is one of four: a leftover, a song to keep, one too large, or none of the cache's business. */
  lemma {:induction false} OneOfFour(f: Found, maxBytes: nat)
    ensures !(Song(f, maxBytes) && Unwanted(f, maxBytes))
    ensures !Song(f, maxBytes) && !Unwanted(f, maxBytes) <==> !IsPart(f.name) && (!VideoId(f.id) || f.vanished)
    ensures (exists stem :: f.name == stem + ".part") ==> Unwanted(f, maxBytes) && IsPart(f.name)
    ensures IsPart(f.name) ==> exists stem :: f.name == stem + ".part"
    ensures Unwanted(f, maxBytes) && !IsPart(f.name) ==> f.size > 64 * 1024 * 1024 || f.size > maxBytes
    ensures Song(f, maxBytes) ==> f.size <= 64 * 1024 * 1024 && f.size <= maxBytes
  {
    if IsPart(f.name) {
      assert f.name == f.name[..|f.name| - 5] + ".part";
    }
  }

  function EntryOf(f: Found): Entry {
    Entry(f.id, f.name, f.size, f.modified)
  }

  /** The entries after the whole directory: of two songs with one id only the later counts. */
  function Listed(listing: seq<Found>, maxBytes: nat): seq<Entry>
    decreases |listing|
  {
    if listing == [] then []
    else
      var es, last := Listed(listing[..|listing| - 1], maxBytes), listing[|listing| - 1];
      if Song(last, maxBytes) then Put(es, EntryOf(last)) else es
  }

  predicate HasSong(listing: seq<Found>, id: Id, maxBytes: nat) {
    exists f | f in listing :: Song(f, maxBytes) && f.id == id
  }

  // The bytes of the songs listed under these names.
  function BytesOn(listing: seq<Found>, names: set<string>, maxBytes: nat): nat {
    if listing == [] then 0
    else
      (if Song(listing[0], maxBytes) && listing[0].name in names then listing[0].size else 0)
      + BytesOn(listing[1..], names, maxBytes)
  }

  // Song `i` is hidden by a later one with its id.
  predicate Shadowed(listing: seq<Found>, i: nat, maxBytes: nat)
    requires i < |listing|
  {
    Song(listing[i], maxBytes) && HasSong(listing[i + 1..], listing[i].id, maxBytes)
  }

  function ShadowedBytes(listing: seq<Found>, maxBytes: nat): nat {
    if listing == [] then 0
    else (if Shadowed(listing, 0, maxBytes) then listing[0].size else 0) + ShadowedBytes(listing[1..], maxBytes)
  }

  function CountedBytes(listing: seq<Found>, maxBytes: nat): nat {
    if listing == [] then 0
    else
      (if Song(listing[0], maxBytes) && !Shadowed(listing, 0, maxBytes) then listing[0].size else 0)
      + CountedBytes(listing[1..], maxBytes)
  }

  // The size of the last song with this id.
  function LastSize(listing: seq<Found>, id: Id, maxBytes: nat): nat
    decreases |listing|
  {
    if listing == [] then 0
    else
      var last := listing[|listing| - 1];
      if Song(last, maxBytes) && last.id == id then last.size else LastSize(listing[..|listing| - 1], id, maxBytes)
  }

  lemma {:induction false} LastSizeBehind(listing: seq<Found>, id: Id, maxBytes: nat)
    requires listing != []
    ensures LastSize(listing, id, maxBytes) ==
            if HasSong(listing[1..], id, maxBytes) then LastSize(listing[1..], id, maxBytes)
            else if Song(listing[0], maxBytes) && listing[0].id == id then listing[0].size else 0
    decreases |listing|
  {
    var front, last := listing[..|listing| - 1], listing[|listing| - 1];
    if |listing| > 1 {
      var rest := listing[1..];
      assert rest[|rest| - 1] == last && rest[..|rest| - 1] == front[1..];
      assert rest == front[1..] + [last];
      LastSizeBehind(front, id, maxBytes);
    }
  }

  lemma {:induction false} NoSongNoSize(listing: seq<Found>, id: Id, maxBytes: nat)
    requires !HasSong(listing, id, maxBytes)
    ensures LastSize(listing, id, maxBytes) == 0
    decreases |listing|
  {
    if listing != [] {
      assert listing[|listing| - 1] in listing;
      assert forall f | f in listing[..|listing| - 1] :: f in listing;
      NoSongNoSize(listing[..|listing| - 1], id, maxBytes);
    }
  }

  lemma {:induction false} HasSongGrows(listing: seq<Found>, f: Found, id: Id, maxBytes: nat)
    ensures HasSong(listing + [f], id, maxBytes) <==> HasSong(listing, id, maxBytes) || (Song(f, maxBytes) && f.id == id)
  {
    assert forall x :: x in listing + [f] <==> x in listing || x == f;
  }

  lemma {:induction false} CountedGrows(listing: seq<Found>, f: Found, maxBytes: nat)
    ensures CountedBytes(listing + [f], maxBytes) ==
            if Song(f, maxBytes) then CountedBytes(listing, maxBytes) - LastSize(listing, f.id, maxBytes) + f.size
            else CountedBytes(listing, maxBytes)
  {
    if listing == [] {
      assert [f][1..] == [] && [] + [f] == [f];
    } else {
      var all, rest := listing + [f], listing[1..];
      assert all[1..] == rest + [f];
      CountedGrows(rest, f, maxBytes);
      LastSizeBehind(listing, f.id, maxBytes);
      HasSongGrows(rest, f, listing[0].id, maxBytes);
      if !HasSong(rest, f.id, maxBytes) {
        NoSongNoSize(rest, f.id, maxBytes);
      }
    }
  }

  lemma {:induction false} PutSize(es: seq<Entry>, e: Entry, id: Id)
    ensures SizeOf(Put(es, e), id) == if id == e.id then e.size else SizeOf(es, id)
  {
    if es != [] && es[0].id != e.id {
      PutSize(es[1..], e, id);
      assert Put(es, e)[1..] == Put(es[1..], e);
    }
  }

  lemma {:induction false} ListedSize(listing: seq<Found>, id: Id, maxBytes: nat)
    ensures SizeOf(Listed(listing, maxBytes), id) == LastSize(listing, id, maxBytes)
    decreases |listing|
  {
    if listing != [] {
      var front, last := listing[..|listing| - 1], listing[|listing| - 1];
      ListedSize(front, id, maxBytes);
      if Song(last, maxBytes) {
        PutSize(Listed(front, maxBytes), EntryOf(last), id);
      }
    }
  }

  // What is counted at the end is what no later song hides.
  lemma {:induction false} ListedCounts(listing: seq<Found>, maxBytes: nat)
    ensures Distinct(Listed(listing, maxBytes))
    ensures Sum(Listed(listing, maxBytes)) == CountedBytes(listing, maxBytes)
    decreases |listing|
  {
    if listing != [] {
      var front, last := listing[..|listing| - 1], listing[|listing| - 1];
      assert listing == front + [last];
      ListedCounts(front, maxBytes);
      CountedGrows(front, last, maxBytes);
      ListedSize(front, last.id, maxBytes);
      PutFacts(Listed(front, maxBytes), EntryOf(last));
    }
  }

  lemma {:induction false} CountedOrShadowed(listing: seq<Found>, names: set<string>, maxBytes: nat)
    requires forall f | f in listing && Song(f, maxBytes) :: f.name in names
    ensures BytesOn(listing, names, maxBytes) == CountedBytes(listing, maxBytes) + ShadowedBytes(listing, maxBytes)
  {
    if listing != [] {
      assert listing[0] in listing && forall f | f in listing[1..] :: f in listing;
      CountedOrShadowed(listing[1..], names, maxBytes);
    }
  }

  /** Right after the scan, the songs on disk are what is counted and what is hidden: nothing is missed if and only if
      every hidden song is empty. */
  lemma {:induction false} ScanMissesTheShadowed(listing: seq<Found>, names: set<string>, maxBytes: nat)
    requires forall f | f in listing && Song(f, maxBytes) :: f.name in names
    ensures BytesOn(listing, names, maxBytes) == Sum(Listed(listing, maxBytes)) + ShadowedBytes(listing, maxBytes)
  {
    ListedCounts(listing, maxBytes);
    CountedOrShadowed(listing, names, maxBytes);
  }

  lemma {:induction false} NothingShadowed(listing: seq<Found>, maxBytes: nat)
    ensures ShadowedBytes(listing, maxBytes) == 0 <==>
            forall i: nat | i < |listing| && Shadowed(listing, i, maxBytes) :: listing[i].size == 0
  {
    if listing != [] {
      var rest := listing[1..];
      NothingShadowed(rest, maxBytes);
      forall i: nat | i < |rest| ensures Shadowed(rest, i, maxBytes) == Shadowed(listing, i + 1, maxBytes) {
        assert rest[i + 1..] == listing[i + 1 + 1..];
      }
      forall i: nat | 0 < i < |listing| ensures Shadowed(listing, i, maxBytes) == Shadowed(rest, i - 1, maxBytes) {
        assert Shadowed(rest, i - 1, maxBytes) == Shadowed(listing, i - 1 + 1, maxBytes);
      }
    }
  }

  // No two songs that may stay have the same id.
  predicate OnePerId(listing: seq<Found>, maxBytes: nat) {
    forall i, j | 0 <= i < j < |listing| && Song(listing[i], maxBytes) && Song(listing[j], maxBytes) ::
      listing[i].id != listing[j].id
  }

  /** If no song is empty, nothing is missed if and only if no two songs have one id. */
  lemma {:induction false} NothingMissedIfOnePerId(listing: seq<Found>, maxBytes: nat)
    requires forall f | f in listing && Song(f, maxBytes) :: f.size > 0
    ensures ShadowedBytes(listing, maxBytes) == 0 <==> OnePerId(listing, maxBytes)
  {
    NothingShadowed(listing, maxBytes);
    forall i: nat | i < |listing|
      ensures Shadowed(listing, i, maxBytes) <==>
              Song(listing[i], maxBytes) &&
              exists j :: i < j < |listing| && Song(listing[j], maxBytes) && listing[j].id == listing[i].id
    {
      ShadowAt(listing, i, maxBytes);
    }
  }

  lemma {:induction false} ShadowAt(listing: seq<Found>, i: nat, maxBytes: nat)
    requires i < |listing|
    ensures Shadowed(listing, i, maxBytes) <==>
            Song(listing[i], maxBytes) &&
            exists j :: i < j < |listing| && Song(listing[j], maxBytes) && listing[j].id == listing[i].id
  {
    var rest := listing[i + 1..];
    if Shadowed(listing, i, maxBytes) {
      var f :| f in rest && Song(f, maxBytes) && f.id == listing[i].id;
      var k :| 0 <= k < |rest| && rest[k] == f;
      assert listing[i + 1 + k] == f;
    }
    forall j | i < j < |listing| && Song(listing[j], maxBytes) && listing[j].id == listing[i].id
      ensures HasSong(rest, listing[i].id, maxBytes)
    {
      assert rest[j - i - 1] == listing[j];
    }
  }

  /** Two files of one song: the bytes of the first are not counted. */
  lemma {:induction false} FirstOfTwoIsMissed(a: Found, b: Found, maxBytes: nat)
    requires Song(a, maxBytes) && Song(b, maxBytes) && a.id == b.id
    ensures Sum(Listed([a, b], maxBytes)) == b.size
    ensures BytesOn([a, b], {a.name, b.name}, maxBytes) == a.size + b.size
  {
    assert [a, b][..1] == [a] && [a][..0] == [] && [a, b][1..] == [b] && [b][1..] == [];
    assert Listed([a], maxBytes) == Put(Listed([], maxBytes), EntryOf(a)) == [EntryOf(a)];
    assert Listed([a, b], maxBytes) == Put([EntryOf(a)], EntryOf(b));
    assert Put([EntryOf(a)], EntryOf(b)) == [EntryOf(b)] + [EntryOf(a)][1..] == [EntryOf(b)];
    assert Sum([EntryOf(b)]) == b.size + Sum([EntryOf(b)][1..]);
    assert BytesOn([b], {a.name, b.name}, maxBytes) == b.size;
  }

  /** Such files exist. */
  lemma {:induction false} TwoFilesOneId() returns (a: Found, b: Found)
    ensures Song(a, 100) && Song(b, 100) && a.name != b.name
    ensures Sum(Listed([a, b], 100)) != BytesOn([a, b], {a.name, b.name}, 100)
  {
    a := Found("aaaaaaaaaaa.m4a", "aaaaaaaaaaa", 5, 0, false);
    b := Found("aaaaaaaaaaa.webm", "aaaaaaaaaaa", 7, 0, false);
    assert a.name[|a.name| - 5..][0] == 'a' && b.name[|b.name| - 5..][1] == 'w';
    FirstOfTwoIsMissed(a, b, 100);
  }

  // --- names ------------------------------------------------------------------------------------

  predicate OneFileEach(listing: seq<Found>) {
    forall i, j | 0 <= i < j < |listing| :: listing[i].name != listing[j].name
  }

  lemma {:induction false} BytesJoin(listing: seq<Found>, a: set<string>, b: set<string>, maxBytes: nat)
    requires a !! b
    ensures BytesOn(listing, a + b, maxBytes) == BytesOn(listing, a, maxBytes) + BytesOn(listing, b, maxBytes)
  {
    if listing != [] {
      BytesJoin(listing[1..], a, b, maxBytes);
    }
  }

  lemma {:induction false} NoBytes(listing: seq<Found>, names: set<string>, maxBytes: nat)
    requires forall f | f in listing :: f.name !in names
    ensures BytesOn(listing, names, maxBytes) == 0
  {
    if listing != [] {
      assert listing[0] in listing && forall f | f in listing[1..] :: f in listing;
      NoBytes(listing[1..], names, maxBytes);
    }
  }

  lemma {:induction false} BytesOfOne(listing: seq<Found>, f: Found, maxBytes: nat)
    requires OneFileEach(listing) && f in listing && Song(f, maxBytes)
    ensures BytesOn(listing, {f.name}, maxBytes) == f.size
  {
    var rest := listing[1..];
    if listing[0] == f {
      forall g | g in rest ensures g.name != f.name {
        var k :| 0 <= k < |rest| && rest[k] == g;
        assert listing[k + 1] == g;
      }
      NoBytes(rest, {f.name}, maxBytes);
    } else {
      assert f in rest;
      var k :| 0 <= k < |rest| && rest[k] == f;
      assert listing[k + 1] == f;
      assert OneFileEach(rest);
      BytesOfOne(rest, f, maxBytes);
    }
  }

  function FilesOf(es: seq<Entry>): set<string> {
    set e | e in es :: e.file
  }

  // Every entry was made of one of the songs.
  ghost predicate AllFound(es: seq<Entry>, listing: seq<Found>, maxBytes: nat) {
    forall e | e in es :: exists f | f in listing :: Song(f, maxBytes) && e == EntryOf(f)
  }

  predicate FilesDiffer(es: seq<Entry>) {
    forall i, j | 0 <= i < j < |es| :: es[i].file != es[j].file
  }

  lemma {:induction false} BytesOfEntries(listing: seq<Found>, es: seq<Entry>, maxBytes: nat)
    requires OneFileEach(listing) && AllFound(es, listing, maxBytes) && FilesDiffer(es)
    ensures BytesOn(listing, FilesOf(es), maxBytes) == Sum(es)
  {
    if es == [] {
      assert FilesOf(es) == {};
      NoBytes(listing, {}, maxBytes);
    } else {
      var e, rest := es[0], es[1..];
      assert es == [e] + rest && e in es;
      assert forall x | x in rest :: x in es;
      BytesOfEntries(listing, rest, maxBytes);
      var f :| f in listing && Song(f, maxBytes) && e == EntryOf(f);
      BytesOfOne(listing, f, maxBytes);
      assert e.file !in FilesOf(rest);
      assert FilesOf(es) == {e.file} + FilesOf(rest);
      BytesJoin(listing, {e.file}, FilesOf(rest), maxBytes);
    }
  }

  lemma {:induction false} ListedFound(listing: seq<Found>, maxBytes: nat)
    ensures AllFound(Listed(listing, maxBytes), listing, maxBytes)
    ensures forall e | e in Listed(listing, maxBytes) :: e.size <= MaxFile(maxBytes)
    decreases |listing|
  {
    if listing != [] {
      var front, last := listing[..|listing| - 1], listing[|listing| - 1];
      assert listing == front + [last];
      ListedFound(front, maxBytes);
      ListedCounts(front, maxBytes);
      PutFacts(Listed(front, maxBytes), EntryOf(last));
      forall e | e in Listed(listing, maxBytes) ensures exists f | f in listing :: Song(f, maxBytes) && e == EntryOf(f) {
        if e in Listed(front, maxBytes) {
          var f :| f in front && Song(f, maxBytes) && e == EntryOf(f);
          assert f in listing;
        } else {
          assert last in listing;
        }
      }
    }
  }
}
