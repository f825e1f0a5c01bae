/**
 The song cache as the receiver runs it: an object whose fields its methods update, over a directory of files.
 Each method is one stretch between awaits, or one download carried through without interleaving.
 */
module SongCache {
  import opened Wrappers
  import opened RangedDownload
  import opened AudioCache
  import opened SongScan

  predicate FiledAs(e: Entry, disk: map<string, seq<Byte>>) {
    |e.id| == 11 && e.id <= e.file && e.file in disk && |disk[e.file]| == e.size
  }

  ghost predicate AllFiled(es: seq<Entry>, disk: map<string, seq<Byte>>) {
    forall e | e in es :: FiledAs(e, disk)
  }

  lemma {:induction false} TouchedStaysFiled(es: seq<Entry>, id: Id, now: int, disk: map<string, seq<Byte>>)
    requires AllFiled(es, disk)
    ensures AllFiled(Touch(es, id, now), disk)
  {
    TouchKeepsTheRest(es, id, now);
  }

  lemma {:induction false} RemovedStaysFiled(es: seq<Entry>, e: Entry, disk: map<string, seq<Byte>>)
    requires AllFiled(es, disk) && e in es
    ensures AllFiled(Without(es, e.id), disk - {e.file})
  {
    WithoutMembers(es, e.id);
  }

  lemma {:induction false} WriteStaysFiled(
    es: seq<Entry>, id: Id, disk: map<string, seq<Byte>>, name: string, bytes: seq<Byte>)
    requires |id| == 11 && id <= name && !Has(es, id) && AllFiled(es, disk)
    ensures AllFiled(es, disk[name := bytes]) && AllFiled(es, disk - {name})
  {
  }

  // What is on disk without being an entry's file.
  function Loose(disk: map<string, seq<Byte>>, es: seq<Entry>): set<string> {
    disk.Keys - FilesOf(es)
  }

  // Files were only deleted.
  ghost predicate Shrunk(was: map<string, seq<Byte>>, disk: map<string, seq<Byte>>) {
    forall name | name in disk :: name in was && disk[name] == was[name]
  }

  // Removing an entry takes its file and no other.
  lemma {:induction false} RemovedStaysLoose(es: seq<Entry>, e: Entry, disk: map<string, seq<Byte>>)
    requires Distinct(es) && AllFiled(es, disk) && e in es
    ensures Loose(disk - {e.file}, Without(es, e.id)) == Loose(disk, es)
  {
    WithoutMembers(es, e.id);
    forall name | name in disk ensures name in FilesOf(Without(es, e.id)) + {e.file} <==> name in FilesOf(es) {
      if name in FilesOf(es) {
        var x :| x in es && x.file == name;
        assert x.id != e.id ==> x in Without(es, e.id);
        assert x.id == e.id ==> x == e;
      }
    }
  }

  // The files of different entries differ: each begins with its entry's id.
  lemma {:induction false} FiledDiffer(es: seq<Entry>, disk: map<string, seq<Byte>>)
    requires Distinct(es) && AllFiled(es, disk)
    ensures FilesDiffer(es)
  {
    forall i, j | 0 <= i < j < |es| ensures es[i].file != es[j].file {
      assert FiledAs(es[i], disk) && FiledAs(es[j], disk);
      assert es[i].file[..11] == es[i].id && es[j].file[..11] == es[j].id;
    }
  }

  // The songs on disk are the entries' files and the loose ones.
  lemma {:induction false} BytesInAll(listing: seq<Found>, disk: map<string, seq<Byte>>, es: seq<Entry>, maxBytes: nat)
    requires OneFileEach(listing) && Distinct(es) && AllFiled(es, disk) && AllFound(es, listing, maxBytes)
    ensures BytesOn(listing, disk.Keys, maxBytes) == Sum(es) + BytesOn(listing, Loose(disk, es), maxBytes)
  {
    FiledDiffer(es, disk);
    BytesOfEntries(listing, es, maxBytes);
    BytesJoin(listing, FilesOf(es), Loose(disk, es), maxBytes);
    assert forall e | e in es :: FiledAs(e, disk);
    assert disk.Keys == FilesOf(es) + Loose(disk, es);
  }

  // What an eviction leaves of the song just kept: its entry and its file, or neither.
  lemma {:induction false} KeptOrGone(
    kept: seq<Entry>, was: map<string, seq<Byte>>, e: Entry, es: seq<Entry>, disk: map<string, seq<Byte>>)
    requires Distinct(kept) && e in kept && AllFiled(kept, was) && AllFiled(es, disk)
    requires (forall x | x in es :: x in kept) && Shrunk(was, disk) && Loose(disk, es) == Loose(was, kept)
    ensures e.file in disk <==> Has(es, e.id)
  {
    if Has(es, e.id) {
      var x :| x in es && x.id == e.id;
      assert x in kept && x == e && FiledAs(e, disk);
    }
    if e.file in disk {
      assert e.file in FilesOf(kept);
      assert e.file !in Loose(disk, es);
      var x :| x in es && x.file == e.file;
      assert FiledAs(x, disk) && FiledAs(e, was);
      assert x.id == x.file[..11] == e.id;
    }
  }

  class Songs {
    const maxBytes: nat
    var entries: seq<Entry>
    var total: int
    var chain: seq<Id>
    var disk: map<string, seq<Byte>>

    ghost function View(): Cache
      reads this
    {
      Cache(maxBytes, entries, total, chain, None)
    }

    // Every entry's file is there, complete and under the entry's own name: a reader never sees half a song.
    ghost predicate Backed()
      reads this
    {
      && AllFiled(entries, disk)
      && (forall id | id in chain :: |id| == 11)
    }

    ghost predicate Consistent()
      reads this
    {
      Valid(View()) && Backed()
    }

    constructor (maxBytes: nat, disk: map<string, seq<Byte>>)
      ensures View() == Cache(maxBytes, [], 0, [], None) && this.disk == disk && Consistent()
    {
      this.maxBytes := maxBytes;
      this.disk := disk;
      entries, total, chain := [], 0, [];
    }

    // One file of the directory: dropped, counted, or left alone.
    method TakeIn(f: Found)
      requires Distinct(entries) && total == Sum(entries) && AllFiled(entries, disk)
      requires f.id <= f.name && (f.vanished || (f.name in disk && |disk[f.name]| == f.size))
      requires forall e | e in entries :: e.file != f.name && e.size <= MaxFile(maxBytes)
      modifies this`entries, this`total, this`disk
      ensures Distinct(entries) && total == Sum(entries) && AllFiled(entries, disk)
      ensures entries == if Song(f, maxBytes) then Put(old(entries), EntryOf(f)) else old(entries)
      ensures forall e | e in entries :: e.size <= MaxFile(maxBytes) && (e in old(entries) || e == EntryOf(f))
      ensures disk == if Unwanted(f, maxBytes) then old(disk) - {f.name} else old(disk)
    {
      if IsPart(f.name) {
        disk := disk - {f.name};
      } else if VideoId(f.id) && !f.vanished {
        if f.size > MaxFile(maxBytes) {
          disk := disk - {f.name};
        } else {
          var e := Entry(f.id, f.name, f.size, f.modified);
          PutFacts(entries, e);
          entries, total := Put(entries, e), total - SizeOf(entries, e.id) + e.size;
        }
      }
    }

    // What `readdir` and `stat` told about the directory; a file that vanished since may be there again or not.
    ghost predicate Read(listing: seq<Found>)
      reads this
    {
      && OneFileEach(listing)
      && (forall f | f in listing :: f.id <= f.name && (f.vanished || (f.name in disk && |disk[f.name]| == f.size)))
    }

    method Scan(listing: seq<Found>)
      requires View() == Cache(maxBytes, [], 0, [], None) && Read(listing)
      modifies this`entries, this`total, this`disk
      ensures Distinct(entries) && total == Sum(entries) && AllFiled(entries, disk) && Shrunk(old(disk), disk)
      ensures entries == Listed(listing, maxBytes)
      ensures forall f | f in listing && Unwanted(f, maxBytes) :: f.name !in disk
      ensures forall f | f in listing && Song(f, maxBytes) :: f.name in disk
      ensures AllFound(entries, listing, maxBytes) && forall e | e in entries :: e.size <= MaxFile(maxBytes)
    {
      for i := 0 to |listing|
        invariant Distinct(entries) && total == Sum(entries) && entries == Listed(listing[..i], maxBytes)
        invariant AllFiled(entries, disk) && Shrunk(old(disk), disk)
        invariant forall k | 0 <= k < |listing| && (if k < i then Song(listing[k], maxBytes) else !listing[k].vanished) ::
                    listing[k].name in disk
        invariant forall k | 0 <= k < i && Unwanted(listing[k], maxBytes) :: listing[k].name !in disk
      {
        var f := listing[i];
        assert listing[..i + 1][..i] == listing[..i];
        ListedFound(listing[..i], maxBytes);
        forall e | e in entries ensures e.file != f.name {
          var g :| g in listing[..i] && Song(g, maxBytes) && e == EntryOf(g);
        }
        TakeIn(f);
      }
      assert listing[..|listing|] == listing;
      ListedFound(listing, maxBytes);
    }

    /** Reads the directory once at start: leftovers of interrupted downloads and oversized files go, the rest is
        counted, and the oldest make room if the limit shrank. Of the songs left on disk exactly those hidden by a
        later file of the same id are not counted. */
    method Init(listing: seq<Found>)
      requires View() == Cache(maxBytes, [], 0, [], None) && Read(listing)
      modifies this`entries, this`total, this`disk
      ensures Consistent() && chain == [] && Shrunk(old(disk), disk)
      ensures forall f | f in listing && Unwanted(f, maxBytes) :: f.name !in disk
      ensures AllFound(entries, listing, maxBytes)
      ensures BytesOn(listing, disk.Keys, maxBytes) == total + ShadowedBytes(listing, maxBytes)
    {
      Scan(listing);
      BytesInAll(listing, disk, entries, maxBytes);
      ScanMissesTheShadowed(listing, disk.Keys, maxBytes);
      EvictTakesAway(View());
      Evict();
      BytesInAll(listing, disk, entries, maxBytes);
    }

    method Lookup(id: Id, now: int) returns (file: Option<string>)
      requires Consistent()
      modifies this`entries
      ensures Consistent() && entries == Touch(old(entries), id, now)
      ensures file == match Find(old(entries), id) case Some(e) => Some(e.file) case None => None
    {
      LookupKeeps(View(), id, now);
      TouchedStaysFiled(entries, id, now, disk);
      var found := Find(entries, id);
      entries := Touch(entries, id, now);
      return match found case Some(e) => Some(e.file) case None => None;
    }

    method Remove(id: Id)
      requires Distinct(entries) && Backed()
      modifies this`entries, this`total, this`disk
      ensures Backed() && View() == AudioCache.Remove(old(View()), id)
      ensures Shrunk(old(disk), disk) && Loose(disk, entries) == Loose(old(disk), old(entries))
    {
      var found := Find(entries, id);
      WithoutFacts(entries, id);
      if found.None? {
        WithoutOther(entries, id);
        return;
      }
      RemovedStaysFiled(entries, found.value, disk);
      RemovedStaysLoose(entries, found.value, disk);
      entries := Without(entries, id);
      total := total - found.value.size;
      disk := disk - {found.value.file};
    }

    method Fetch(id: Id, http: bool)
      requires Consistent()
      modifies this`chain
      ensures Consistent() && View() == Ask(old(View()), id, VideoId(id) && http)
      ensures chain ==
              if VideoId(id) && http && !Has(entries, id) && id !in old(chain) && |old(chain)| < 8
              then old(chain) + [id] else old(chain)
    {
      if !VideoId(id) || Has(entries, id) || id in chain || !http {
        return;
      }
      if |chain| >= MAX_PENDING {
        return;
      }
      chain := chain + [id];
    }

    method Evict()
      requires Distinct(entries) && Backed() && total == Sum(entries)
      modifies this`entries, this`total, this`disk
      ensures Backed() && View() == AudioCache.Evict(old(View()))
      ensures total <= maxBytes
      ensures Shrunk(old(disk), disk) && Loose(disk, entries) == Loose(old(disk), old(entries))
    {
      if total <= maxBytes {
        return;
      }
      var oldest := IdsOf(Oldest(entries));
      OldestFacts(entries);
      SumOfBag(entries, Oldest(entries));
      ghost var k := EvictsShortestPrefix(View(), Oldest(entries));
      var i := 0;
      while i < |oldest|
        invariant 0 <= i <= |oldest|
        invariant Distinct(entries) && Backed()
        invariant EvictLoop(View(), oldest[i..]) == AudioCache.Evict(old(View()))
        invariant Shrunk(old(disk), disk) && Loose(disk, entries) == Loose(old(disk), old(entries))
      {
        if total <= maxBytes {
          break;
        }
        WithoutFacts(entries, oldest[i]);
        EvictsNext(View(), oldest, i);
        Remove(oldest[i]);
        i := i + 1;
      }
    }
  
    /** The ranged loop, writing into `part`. */
    method Assemble(server: Server, length: Option<int>, part: string) returns (outcome: Outcome)
      modifies this`disk
      ensures outcome == RangedDownload.Fetch(server, length, MaxFile(maxBytes), 0, []).outcome
      ensures part in disk && disk == old(disk)[part := disk[part]]
      ensures outcome.Published? ==> disk[part] == outcome.bytes
    {
      var maxFile := MaxFile(maxBytes);
      var k := 0;
      var written := 0;
      disk := disk[part := []];
      while true
        invariant part in disk && disk == old(disk)[part := disk[part]] && written == |disk[part]| <= maxFile
        invariant RangedDownload.Fetch(server, length, maxFile, k, disk[part]).outcome ==
                  RangedDownload.Fetch(server, length, maxFile, 0, []).outcome
        decreases maxFile - written
      {
        var last := LastByte(written, length);
        var reply, next := GetRangeRetrying(server, k, written, last);
        if reply.Dropped? {
          return Failed;
        }
        if reply.status == 416 && length.None? && written > 0 {
          return Published(disk[part]);
        }
        if reply.status != 206 && reply.status != 200 {
          return Failed;
        }
        disk := disk[part := disk[part] + reply.body];
        written := written + |reply.body|;
        if written > maxFile {
          return Failed;
        }
        var known := Total(reply, length);
        if reply.status == 200 || reply.body == [] || (known.Some? && written >= known.value) {
          if known.Some? && written != known.value {
            return Failed;
          }
          return Published(disk[part]);
        }
        k := next;
      }
    }

    /** A complete file enters the cache, and the oldest ones make room. */
    method Keep(e: Entry)
      requires Distinct(entries) && Backed() && total == Sum(entries) && !Has(entries, e.id) && FiledAs(e, disk)
      modifies this`entries, this`total, this`disk
      ensures Backed() && View() == AudioCache.Evict(Add(old(View()), e))
      ensures Shrunk(old(disk), disk) && (e.file in disk <==> Has(entries, e.id))
    {
      AddedIsDistinct(View(), e);
      PutNew(entries, e);
      entries, total := Put(entries, e), total - SizeOf(entries, e.id) + e.size;
      assert View() == Add(old(View()), e);
      ghost var kept, was := entries, disk;
      EvictTakesAway(View());
      Evict();
      KeptOrGone(kept, was, e, entries, disk);
    }

    /** Rename the complete `.part`, cache the song, end the download. */
    method Publish(bytes: seq<Byte>, file: string, now: int)
      requires Consistent() && chain != [] && chain[0] <= file && |bytes| <= MaxFile(maxBytes)
      requires file + ".part" in disk
      modifies this`entries, this`total, this`chain, this`disk
      ensures Consistent() && chain == old(chain)[1..]
      ensures View() ==
              AudioCache.Evict(Add(old(View()), Entry(old(chain)[0], file, |bytes|, now))).(chain := old(chain)[1..])
      ensures forall name | name in disk ::
                name != file + ".part" &&
                if name == file then disk[name] == bytes else name in old(disk) && disk[name] == old(disk)[name]
      ensures file in disk <==> Has(entries, old(chain)[0])
    {
      var e := Entry(chain[0], file, |bytes|, now);
      assert !Has(entries, chain[0]);
      KeptIsValid(View(), e);
      var part := file + ".part";
      assert chain[0] <= part;
      WriteStaysFiled(entries, chain[0], disk, part, bytes);
      WriteStaysFiled(entries, chain[0], disk - {part}, file, bytes);
      disk := (disk - {part})[file := bytes];
      Keep(e);
      chain := chain[1..];
    }

    /** A failed download: no entry, no `.part`. */
    method Abandon(part: string)
      requires Consistent() && chain != [] && chain[0] <= part
      modifies this`chain, this`disk
      ensures Consistent() && View() == old(View()).(chain := old(chain)[1..]) && disk == old(disk) - {part}
    {
      assert !Has(entries, chain[0]);
      WriteStaysFiled(entries, chain[0], disk, part, []);
      disk := disk - {part};
      chain := chain[1..];
    }

    /** The head of the download chain, carried through: the song is cached complete, or nothing of it stays. */
    method RunDownload(server: Server, clen: int, extension: string, now: int)
      requires Consistent() && chain != []
      modifies this`entries, this`total, this`chain, this`disk
      ensures Consistent() && chain == old(chain)[1..]
      ensures Downloaded(old(View()), old(disk), server, clen, extension, now, View(), disk)
    {
      var length := Length(clen);
      var file := chain[0] + "." + extension;
      var part := file + ".part";
      assert chain[0] <= part && chain[0] <= file;
      if length.Some? && length.value > MaxFile(maxBytes) {
        chain := chain[1..];
        return;
      }
      LogEnds(server, length, MaxFile(maxBytes), 0, []);
      assert !Has(entries, chain[0]);
      var outcome := Assemble(server, length, part);
      WriteStaysFiled(entries, chain[0], old(disk), part, disk[part]);
      if outcome.Failed? {
        Abandon(part);
      } else {
        Publish(outcome.bytes, file, now);
      }
    }
  }

  // What a download leaves behind.
  ghost predicate Downloaded(was: Cache, wasDisk: map<string, seq<Byte>>, server: Server, clen: int,
                             extension: string, now: int, c: Cache, disk: map<string, seq<Byte>>)
    requires was.chain != []
  {
    var length, file := Length(clen), was.chain[0] + "." + extension;
    var outcome := RangedDownload.Fetch(server, length, MaxFile(was.maxBytes), 0, []).outcome;
    if length.Some? && length.value > MaxFile(was.maxBytes) then
      c == was.(chain := was.chain[1..]) && disk == wasDisk
    else if outcome.Failed? then
      c == was.(chain := was.chain[1..]) && disk == wasDisk - {file + ".part"}
    else
      && c == AudioCache.Evict(Add(was, Entry(was.chain[0], file, |outcome.bytes|, now))).(chain := was.chain[1..])
      && (forall name | name in disk ::
            name != file + ".part" &&
            if name == file then disk[name] == outcome.bytes else name in wasDisk && disk[name] == wasDisk[name])
      && (file in disk <==> Has(c.entries, was.chain[0]))
  }

  /** A download from an honest server ends in one of two ways. Either the song is cached, and the file's bytes are
      exactly the song unless the last exchange was a 200 to a later range, and always if the URL names its length; or
      there is no entry of it, and no new file. Nothing half-done stays behind in any case. */
  lemma {:induction false} SongOrNothing(
    was: Cache, wasDisk: map<string, seq<Byte>>, server: Server, clen: int, extension: string, now: int,
    c: Cache, disk: map<string, seq<Byte>>, song: seq<Byte>)
    requires was.chain != [] && !Has(was.entries, was.chain[0])
    requires Downloaded(was, wasDisk, server, clen, extension, now, c, disk)
    requires HonestServer(song, server) && (clen == 0 || clen == |song|)
    requires was.chain[0] + "." + extension + ".part" !in wasDisk
    ensures var id := was.chain[0];
            var file := id + "." + extension;
            && file + ".part" !in disk
            && if Has(c.entries, id)
               then var f := RangedDownload.Fetch(server, Length(clen), MaxFile(was.maxBytes), 0, []);
                    && file in disk && f.log != [] && (disk[file] == song <==> !LateWhole(song, f.log[|f.log| - 1]))
                    && (clen != 0 ==> disk[file] == song)
               else file in disk ==> file in wasDisk && disk[file] == wasDisk[file]
  {
    var id := was.chain[0];
    var length, file := Length(clen), id + "." + extension;
    var maxFile := MaxFile(was.maxBytes);
    var f := RangedDownload.Fetch(server, length, maxFile, 0, []);
    if !(length.Some? && length.value > maxFile) && f.outcome.Published? {
      PublishedIsTheSong(song, server, length, maxFile, 0, [], f);
      if clen != 0 {
        KnownLengthIsSafe(song, server, clen, maxFile, 0, []);
      }
    }
  }

  lemma {:induction false} EvictsNext(c: Cache, oldest: seq<Id>, i: nat)
    requires i < |oldest| && c.total > c.maxBytes
    ensures EvictLoop(c, oldest[i..]) == EvictLoop(AudioCache.Remove(c, oldest[i]), oldest[i + 1..])
  {
    assert oldest[i..][1..] == oldest[i + 1..];
  }

  // An eviction only takes away.
  lemma {:induction false} EvictTakesAway(c: Cache)
    requires Distinct(c.entries) && c.total == Sum(c.entries)
    ensures var r := AudioCache.Evict(c);
            && r == c.(entries := r.entries, total := r.total)
            && Distinct(r.entries) && r.total == Sum(r.entries) <= c.maxBytes
            && forall e | e in r.entries :: e in c.entries
  {
    var order := Oldest(c.entries);
    OldestFacts(c.entries);
    SumOfBag(c.entries, order);
    var k := EvictsShortestPrefix(c, order);
    var r := AudioCache.Evict(c);
    SumOfBag(r.entries, order[k..]);
    forall e | e in r.entries ensures e in c.entries {
      assert e in multiset(r.entries);
      assert e in order[k..];
      assert e in multiset(order);
    }
  }

  lemma {:induction false} KeptIsValid(c: Cache, e: Entry)
    requires Valid(c) && c.evicting.None? && c.chain != [] && e.id == c.chain[0] && e.size <= MaxFile(c.maxBytes)
    ensures Valid(AudioCache.Evict(Add(c, e)).(chain := c.chain[1..]))
  {
    AddedIsDistinct(c, e);
    EvictTakesAway(Add(c, e));
    var r := AudioCache.Evict(Add(c, e));
    forall i | 1 <= i < |c.chain| ensures !Has(r.entries, c.chain[i]) {
      assert !Has(c.entries, c.chain[i]);
    }
  }
}
