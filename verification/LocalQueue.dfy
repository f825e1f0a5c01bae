/**
 The receiver's own queue: one page of tracks at first, further pages fetched as the end comes near.
 */
module LocalQueue {
  import opened Sequences
  import opened Wrappers

  const REFILL_THRESHOLD: int := 2
  const MAX_ITEMS: nat := 500

  // A track without an id is a hole in a page.
  datatype Track = Track(videoId: string, title: string)

  datatype Page = Page(items: seq<Track>, continuation: Option<string>)

  // --- pages -----------------------------------------------------------------------------------

  function Ids(items: seq<Track>): (r: set<string>)
    ensures forall i | 0 <= i < |items| :: items[i].videoId in r
  {
    set t | t in items :: t.videoId
  }

  /** The list with a page added: a track already queued is not queued twice, and the list stops growing at its cap. */
  function Extended(items: seq<Track>, page: seq<Track>): (r: seq<Track>)
    ensures items <= r
    ensures |items| >= MAX_ITEMS ==> r == items
    decreases |page|
  {
    if page == [] then items
    else
      var t := page[0];
      if t.videoId != "" && t.videoId !in Ids(items) && |items| < MAX_ITEMS
      then Extended(items + [t], page[1..])
      else Extended(items, page[1..])
  }

  // The tracks of a page that have an id.
  function Playable(page: seq<Track>): (r: seq<Track>)
    ensures forall t :: t in r <==> t in page && t.videoId != ""
  {
    if page == [] then []
    else
      assert page == [page[0]] + page[1..];
      if page[0].videoId != "" then [page[0]] + Playable(page[1..]) else Playable(page[1..])
  }

  /** Every track with an id stays, in its place, and no other does. */
  lemma {:induction false} PlayableInPlace(a: seq<Track>, b: seq<Track>, t: Track)
    ensures Playable(a + b) == Playable(a) + Playable(b)
    ensures Playable([t]) == if t.videoId == "" then [] else [t]
  {
    assert [t][1..] == [];
    if a == [] {
      assert a + b == b;
    } else {
      assert (a + b)[1..] == a[1..] + b;
      PlayableInPlace(a[1..], b, t);
    }
  }

  // Where `id` first occurs, or the length.
  function Find(items: seq<Track>, id: string): (i: nat)
    ensures i <= |items|
    ensures i < |items| ==> items[i].videoId == id
    ensures forall j | 0 <= j < i :: items[j].videoId != id
  {
    if items == [] || items[0].videoId == id then 0 else Find(items[1..], id) + 1
  }

  // --- the queue ---------------------------------------------------------------------------------

  class LocalQueue {
    var items: seq<Track>
    var index: nat
    var continuation: Option<string>

    /** The index is in range, or zero in an empty list. */
    ghost predicate Valid()
      reads this
    {
      index < |items| || (items == [] && index == 0)
    }

    constructor (items: seq<Track>, continuation: Option<string>, startIndex: int)
      ensures Valid() && this.items == items && this.continuation == continuation
      ensures 0 <= startIndex < |items| ==> index == startIndex
    {
      this.items, this.continuation := items, continuation;
      this.index := Min(Max(0, startIndex), Max(0, |items| - 1));
    }

    function Current(): Option<Track>
      reads this
    {
      if index < |items| then Some(items[index]) else None
    }

    predicate NeedsMore()
      reads this
    {
      continuation.Some? && |items| < MAX_ITEMS && index >= |items| - 1 - REFILL_THRESHOLD
    }

    method Advance() returns (t: Option<Track>)
      requires Valid()
      modifies this`index
      ensures Valid()
      ensures t.Some? <==> old(index) + 1 < |items|
      ensures t.Some? ==> index == old(index) + 1 && t == Current()
      ensures t.None? ==> index == old(index)
    {
      if index >= |items| - 1 {
        return None;
      }
      index := index + 1;
      return Current();
    }

    method Back() returns (t: Option<Track>)
      requires Valid()
      modifies this`index
      ensures Valid()
      ensures t.Some? <==> old(index) > 0
      ensures t.Some? ==> index == old(index) - 1 && t == Current()
      ensures t.None? ==> index == old(index)
    {
      if index <= 0 {
        return None;
      }
      index := index - 1;
      return Current();
    }

    method Jump(to: int) returns (t: Option<Track>)
      requires Valid()
      modifies this`index
      ensures Valid()
      ensures t.Some? <==> 0 <= to < |items|
      ensures t.Some? ==> index == to && t == Current()
      ensures t.None? ==> index == old(index)
    {
      if to < 0 || to >= |items| {
        return None;
      }
      index := to;
      return Current();
    }

    /** A fetched page: what was queued stays where it is, and so does what plays. */
    method Append(page: seq<Track>, token: Option<string>)
      requires Valid()
      modifies this`items, this`continuation
      ensures Valid() && items == Extended(old(items), page) && (old(items) != [] ==> Current() == old(Current()))
      ensures continuation == if |items| < MAX_ITEMS then token else None
    {
      var seen := Ids(items);
      assert page[0..] == page;
      for i := 0 to |page|
        invariant seen == Ids(items)
        invariant Extended(old(items), page) == Extended(items, page[i..]) && old(items) <= items
        invariant index == old(index)
      {
        var t := page[i];
        assert page[i..][0] == t && page[i..][1..] == page[i + 1..];
        if t.videoId != "" && t.videoId !in seen && |items| < MAX_ITEMS {
          assert Ids(items + [t]) == Ids(items) + {t.videoId} by {
            assert t in items + [t];
            assert forall u :: u in items + [t] <==> u in items || u == t;
          }
          seen := seen + {t.videoId};
          items := items + [t];
        }
      }
      continuation := if |items| < MAX_ITEMS then token else None;
    }

    /** A list for a queue that began with one song: what plays stays current, at its place in the page if the page has
        it and in front of the page otherwise. */
    method Adopt(page: seq<Track>, token: Option<string>)
      requires Valid()
      modifies this
      ensures Valid()
      ensures Playable(page) == [] ==> items == old(items) && index == old(index) && continuation == old(continuation)
      ensures Playable(page) != [] ==>
                && |items| <= MAX_ITEMS && continuation == (if |items| < MAX_ITEMS then token else None)
                && var tracks, current := Take(MAX_ITEMS, Playable(page)), old(Current());
                if current.Some? && forall t | t in tracks :: t.videoId != current.value.videoId
                then
                  && items != [] && items[0] == current.value && index == 0
                  && items[1..] == Take(MAX_ITEMS - 1, Playable(page))
                else items == tracks && index == if current.None? then 0 else Find(items, current.value.videoId)
      ensures old(Current()).Some? ==> Current().Some? && Current().value.videoId == old(Current()).value.videoId
    {
      var tracks := Take(MAX_ITEMS, Playable(page));
      if tracks == [] {
        return;
      }
      var current := Current();
      var at := if current.Some? then Find(tracks, current.value.videoId) else |tracks|;
      if current.Some? && at == |tracks| {
        items := Take(MAX_ITEMS, [current.value] + tracks);
        index := 0;
      } else {
        items := tracks;
        index := if at < |tracks| then at else 0;
      }
      continuation := if |items| < MAX_ITEMS then token else None;
    }

    /** The near end of the list fetches one page. A fetch that fails loses the way to the rest. */
    method Refill(answer: Option<Page>)
      requires Valid()
      modifies this`items, this`continuation
      ensures Valid() && (old(items) != [] ==> Current() == old(Current()))
      ensures (items, continuation) == Refilled(old(items), index, old(continuation), answer)
    {
      if !NeedsMore() {
        return;
      }
      continuation := None;
      if answer.Some? {
        Append(answer.value.items, answer.value.continuation);
      }
    }

    /** What `next` does to the list: refill if due, then move on. */
    method Next(answer: Option<Page>) returns (t: Option<Track>)
      requires Valid()
      modifies this
      ensures Valid()
      ensures (items, continuation) == Refilled(old(items), old(index), old(continuation), answer)
      ensures t.Some? <==> old(index) + 1 < |items|
      ensures index == if t.Some? then old(index) + 1 else old(index)
      ensures t.Some? ==> t == Some(items[index])
    {
      Refill(answer);
      t := Advance();
    }
  }

  function Refilled(items: seq<Track>, index: nat, continuation: Option<string>, answer: Option<Page>)
    : (seq<Track>, Option<string>)
  {
    if continuation.None? || |items| >= MAX_ITEMS || index < |items| - 1 - REFILL_THRESHOLD then (items, continuation)
    else if answer.None? then (items, None)
    else
      var more := Extended(items, answer.value.items);
      (more, if |more| < MAX_ITEMS then answer.value.continuation else None)
  }

  predicate NoneTwice(items: seq<Track>) {
    forall i, j | 0 <= i < j < |items| :: items[i].videoId != items[j].videoId
  }

  /** An appended list has no track twice if it had none before. */
  lemma {:induction false} ExtendedIsDistinct(items: seq<Track>, page: seq<Track>)
    requires NoneTwice(items)
    ensures NoneTwice(Extended(items, page))
    decreases |page|
  {
    if page != [] {
      var t := page[0];
      if t.videoId != "" && t.videoId !in Ids(items) && |items| < MAX_ITEMS {
        ExtendedIsDistinct(items + [t], page[1..]);
      } else {
        ExtendedIsDistinct(items, page[1..]);
      }
    }
  }

  // Track `t` is new to the list and comes from the page.
  predicate NewFrom(items: seq<Track>, page: seq<Track>, t: Track) {
    && t.videoId != "" && t.videoId !in Ids(items)
    && Find(page, t.videoId) < |page| && page[Find(page, t.videoId)] == t
  }

  /** What is added comes from the page, in the page's order. */
  lemma {:induction false} ExtendedKeepsPageOrder(items: seq<Track>, page: seq<Track>)
    ensures var r := Extended(items, page);
            && (forall i | |items| <= i < |r| :: NewFrom(items, page, r[i]))
            && (forall i, j | |items| <= i < j < |r| :: Find(page, r[i].videoId) < Find(page, r[j].videoId))
    decreases |page|
  {
    if page != [] && |items| < MAX_ITEMS {
      var t, r := page[0], Extended(items, page);
      if t.videoId != "" && t.videoId !in Ids(items) {
        var grown := items + [t];
        ExtendedKeepsPageOrder(grown, page[1..]);
        assert r == Extended(grown, page[1..]) && r[|items|] == t;
        forall i | |items| < i < |r| ensures NewFrom(items, page, r[i]) && Find(page, r[i].videoId) > 0 {
          assert NewFrom(grown, page[1..], r[i]);
          assert grown[|items|].videoId in Ids(grown);
          assert forall u | u in items :: u in grown;
        }
      } else {
        ExtendedKeepsPageOrder(items, page[1..]);
        assert r == Extended(items, page[1..]);
        forall i | |items| <= i < |r|
          ensures NewFrom(items, page, r[i]) && Find(page, r[i].videoId) == Find(page[1..], r[i].videoId) + 1
        {
          assert NewFrom(items, page[1..], r[i]);
        }
      }
    }
  }

  /** And every track of the page is in it, unless it is full. */
  lemma {:induction false} ExtendedIsComplete(items: seq<Track>, page: seq<Track>)
    ensures |Extended(items, page)| < MAX_ITEMS ==>
              forall t | t in page && t.videoId != "" :: t.videoId in Ids(Extended(items, page))
    decreases |page|
  {
    if page != [] && |Extended(items, page)| < MAX_ITEMS {
      var t := page[0];
      assert page == [t] + page[1..];
      var grown := if t.videoId != "" && t.videoId !in Ids(items) && |items| < MAX_ITEMS then items + [t] else items;
      ExtendedIsComplete(grown, page[1..]);
      if t.videoId != "" {
        assert t.videoId in Ids(grown) by {
          if t.videoId !in Ids(items) {
            assert grown[|items|] == t;
          } else {
            var u :| u in items && u.videoId == t.videoId;
            assert u in grown;
          }
        }
        var r := Extended(grown, page[1..]);
        var u :| u in grown && u.videoId == t.videoId;
        assert u in r;
      }
    }
  }

  // --- walking the list --------------------------------------------------------------------------

  /** The whole list: the first page and whatever the others add to it, up to the cap. */
  function Whole(items: seq<Track>, pages: seq<seq<Track>>): (r: seq<Track>)
    ensures items <= r
    ensures |items| >= MAX_ITEMS ==> r == items
    decreases |pages|
  {
    if pages == [] then items else Whole(Extended(items, pages[0]), pages[1..])
  }

  /** A page that adds nothing twice adds nothing that was there: the whole list has no track twice if and only if the
      first page has none. */
  lemma {:induction false} WholeIsDistinct(items: seq<Track>, pages: seq<seq<Track>>)
    ensures NoneTwice(Whole(items, pages)) <==> NoneTwice(items)
    decreases |pages|
  {
    var r := Whole(items, pages);
    assert forall i | 0 <= i < |items| :: items[i] == r[i];
    if pages != [] && NoneTwice(items) {
      ExtendedIsDistinct(items, pages[0]);
      WholeIsDistinct(Extended(items, pages[0]), pages[1..]);
    }
  }

  /** A queue on its way: the list so far, where it is, the pages the catalogue still has, and what has been played. A
      token is only held while there are more pages to fetch. */
  datatype Walk = Walk(items: seq<Track>, index: nat, rest: seq<seq<Track>>, more: bool, played: seq<Track>, ended: bool)

  // The list may also be refilled between two track changes, while a track plays. `ok` is how a fetch would end.
  datatype Move = Next(ok: bool) | RefillOnly(ok: bool)

  function TokenFor(rest: seq<seq<Track>>): Option<string> {
    if rest == [] then None else Some("token")
  }

  function PageFor(w: Walk, ok: bool): Option<Page> {
    if w.rest == [] || !ok then None else Some(Page(w.rest[0], TokenFor(w.rest[1..])))
  }

  function AfterRefill(w: Walk, ok: bool): Walk {
    var (items, token) := Refilled(w.items, w.index, if w.more then Some("token") else None, PageFor(w, ok));
    var fetched := w.more && |w.items| < MAX_ITEMS && w.index >= |w.items| - 1 - REFILL_THRESHOLD && ok;
    Walk(items, w.index, if fetched && w.rest != [] then w.rest[1..] else w.rest, token.Some?, w.played, w.ended)
  }

  function Step(w: Walk, m: Move): Walk {
    var r := AfterRefill(w, m.ok);
    if m.RefillOnly? || w.ended then r
    else if r.index + 1 < |r.items|
    then Walk(r.items, r.index + 1, r.rest, r.more, r.played + [r.items[r.index + 1]], false)
    else Walk(r.items, r.index, r.rest, r.more, r.played, true)
  }

  function Steps(w: Walk, ms: seq<Move>): Walk
    decreases |ms|
  {
    if ms == [] then w else Steps(Step(w, ms[0]), ms[1..])
  }

  // What has been played is the list from `start` to where it is.
  ghost predicate OnTrack(w: Walk, start: nat, whole: seq<Track>) {
    && start <= w.index < |w.items|
    && Whole(w.items, w.rest) == whole
    && w.played == w.items[start..w.index + 1]
    && (w.more ==> w.rest != [])
  }

  lemma {:induction false} RefillStaysOnTrack(w: Walk, ok: bool, start: nat, whole: seq<Track>)
    requires OnTrack(w, start, whole)
    ensures OnTrack(AfterRefill(w, ok), start, whole)
  {
    var r := AfterRefill(w, ok);
    assert w.items <= r.items;
    assert r.items[start..w.index + 1] == w.items[start..w.index + 1];
  }

  lemma {:induction false} StepStaysOnTrack(w: Walk, m: Move, start: nat, whole: seq<Track>)
    requires OnTrack(w, start, whole)
    ensures OnTrack(Step(w, m), start, whole)
  {
    RefillStaysOnTrack(w, m.ok, start, whole);
    var r := AfterRefill(w, m.ok);
    if r.index + 1 < |r.items| {
      OneMore(r.items, start, r.index + 1);
    }
  }

  lemma {:induction false} OneMore<T>(s: seq<T>, a: nat, b: nat)
    requires a <= b < |s|
    ensures s[a..b] + [s[b]] == s[a..b + 1]
  {
  }

  lemma {:induction false} StepsStayOnTrack(w: Walk, ms: seq<Move>, start: nat, whole: seq<Track>)
    requires OnTrack(w, start, whole)
    ensures OnTrack(Steps(w, ms), start, whole)
    decreases |ms|
  {
    if ms != [] {
      StepStaysOnTrack(w, ms[0], start, whole);
      StepsStayOnTrack(Step(w, ms[0]), ms[1..], start, whole);
    }
  }

  /** Whatever is fetched when, and whichever fetch fails, what is played is a contiguous piece of the whole list: nothing
      skipped, and nothing twice if the first page has nothing twice. */
  lemma {:induction false} PlaysAContiguousPiece(w: Walk, ms: seq<Move>, start: nat, whole: seq<Track>)
    requires OnTrack(w, start, whole)
    ensures var e := Steps(w, ms);
            && OnTrack(e, start, whole)
            && e.index < |whole| && e.played == whole[start..e.index + 1]
            && (NoneTwice(w.items) ==> NoneTwice(e.played))
  {
    StepsStayOnTrack(w, ms, start, whole);
    WholeIsDistinct(w.items, w.rest);
    var e := Steps(w, ms);
    assert e.items <= whole;
    assert whole[start..e.index + 1] == e.items[start..e.index + 1];
  }

  // --- where the list ends -------------------------------------------------------------------------

  /** The last track of an incomplete list is playing, and nothing comes in: the way to the rest is lost, the fetch fails,
      or the page has only tracks the list already has. */
  predicate Starves(w: Walk, m: Move, whole: seq<Track>) {
    && m.Next? && !w.ended
    && w.index == |w.items| - 1 && w.items != whole
    && (!w.more || !m.ok || w.rest == [] || Extended(w.items, w.rest[0]) == w.items)
  }

  /** A step ends the list early if and only if it starves. */
  lemma {:induction false} EndsEarly(w: Walk, m: Move, start: nat, whole: seq<Track>)
    requires OnTrack(w, start, whole) && !w.ended
    ensures var n := Step(w, m); n.ended && n.played != whole[start..] <==> Starves(w, m, whole)
  {
    var r := AfterRefill(w, m.ok);
    assert w.items <= whole && w.items <= r.items;
    RefillStaysOnTrack(w, m.ok, start, whole);
    if m.Next? && r.index + 1 >= |r.items| {
      assert r.items == w.items;
      assert w.items[start..w.index + 1] == w.items[start..];
      if w.items[start..] == whole[start..] {
        assert |w.items| == |whole|;
      }
    }
  }

  predicate NeverStarves(w: Walk, ms: seq<Move>, whole: seq<Track>)
    decreases |ms|
  {
    ms == [] || (!Starves(w, ms[0], whole) && NeverStarves(Step(w, ms[0]), ms[1..], whole))
  }

  lemma {:induction false} EndedStays(w: Walk, ms: seq<Move>, whole: seq<Track>)
    requires w.ended
    ensures Steps(w, ms).ended && Steps(w, ms).played == w.played && NeverStarves(w, ms, whole)
    decreases |ms|
  {
    if ms != [] {
      EndedStays(Step(w, ms[0]), ms[1..], whole);
    }
  }

  /** A list that has ended was played in full if and only if no step starved. */
  lemma {:induction false} EndedIsWholeUnlessStarved(w: Walk, ms: seq<Move>, start: nat, whole: seq<Track>)
    requires OnTrack(w, start, whole) && !w.ended && Steps(w, ms).ended
    ensures Steps(w, ms).played == whole[start..] <==> NeverStarves(w, ms, whole)
    decreases |ms|
  {
    EndsEarly(w, ms[0], start, whole);
    StepStaysOnTrack(w, ms[0], start, whole);
    var n := Step(w, ms[0]);
    if n.ended {
      EndedStays(n, ms[1..], whole);
    } else {
      EndedIsWholeUnlessStarved(n, ms[1..], start, whole);
    }
  }

  // `next` pressed `n` times, every fetch succeeding.
  function Nexts(n: nat): (r: seq<Move>)
    ensures |r| == n
  {
    seq(n, i => Next(true))
  }

  /** Each `next` plays one more track until the list ends, whatever comes of the fetches. */
  lemma {:induction false} EachNextPlaysOneMore(w: Walk, ms: seq<Move>)
    requires (forall m | m in ms :: m.Next?) && !Steps(w, ms).ended
    ensures Steps(w, ms).index == w.index + |ms|
    decreases |ms|
  {
    if ms != [] {
      assert ms[0] in ms;
      if Step(w, ms[0]).ended {
        EndedStays(Step(w, ms[0]), ms[1..], []);
      }
      EachNextPlaysOneMore(Step(w, ms[0]), ms[1..]);
    }
  }

  /** So the list does end. */
  lemma {:induction false} ListEnds(w: Walk, ms: seq<Move>, start: nat, whole: seq<Track>)
    requires OnTrack(w, start, whole) && (forall m | m in ms :: m.Next?) && |ms| >= |whole|
    ensures Steps(w, ms).ended
  {
    if !Steps(w, ms).ended {
      EachNextPlaysOneMore(w, ms);
      PlaysAContiguousPiece(w, ms, start, whole);
    }
  }

  /** Every page still to come brings at least one track the list does not have, as long as there is room. */
  predicate Productive(items: seq<Track>, rest: seq<seq<Track>>)
    decreases |rest|
  {
    if rest == [] || |items| >= MAX_ITEMS then true
    else
      var more := Extended(items, rest[0]);
      |more| > |items| && Productive(more, rest[1..])
  }

  // No fetch has failed yet: a token is held as long as there is anything left to fetch.
  predicate Unlost(w: Walk) {
    w.more || w.rest == [] || |w.items| >= MAX_ITEMS
  }

  lemma {:induction false} ProductiveNeverStarves(w: Walk, n: nat, start: nat, whole: seq<Track>)
    requires OnTrack(w, start, whole) && Productive(w.items, w.rest) && Unlost(w)
    ensures NeverStarves(w, Nexts(n), whole)
    decreases n
  {
    if n > 0 {
      assert Nexts(n)[1..] == Nexts(n - 1);
      StepStaysOnTrack(w, Next(true), start, whole);
      ProductiveNeverStarves(Step(w, Next(true)), n - 1, start, whole);
    }
  }

  /** If every page brings something new and fetches succeed, pressing next over and over plays exactly the whole list
      from where it began, and then ends. */
  lemma {:induction false} PlaysTheWholeList(w: Walk, start: nat, whole: seq<Track>)
    requires OnTrack(w, start, whole) && Productive(w.items, w.rest) && Unlost(w) && !w.ended
    ensures var e := Steps(w, Nexts(|whole|)); e.ended && e.played == whole[start..]
  {
    ListEnds(w, Nexts(|whole|), start, whole);
    ProductiveNeverStarves(w, |whole|, start, whole);
    EndedIsWholeUnlessStarved(w, Nexts(|whole|), start, whole);
  }

  /** A page of repeats at the very end of the list does end it, although the catalogue has more. */
  lemma {:induction false} RepeatedPageEndsTheList()
    ensures var a := Track("a", ""); var b := Track("b", "");
            var w := Walk([a], 0, [[a], [b]], true, [a], false);
            && OnTrack(w, 0, Whole([a], [[a], [b]]))
            && Step(w, Next(true)).ended && Whole([a], [[a], [b]]) == [a, b]
  {
    var a, b := Track("a", ""), Track("b", "");
    assert a in [a] && a.videoId in Ids([a]);
    assert "b" !in Ids([a]);
    assert [a][1..] == [] && [b][1..] == [];
    assert Extended([a], [a]) == [a];
    assert Extended([a], [b]) == Extended([a] + [b], []) == [a, b];
    assert [[a], [b]][1..] == [[b]] && [[b]][1..] == [];
    assert Whole([a], [[a], [b]]) == Whole([a], [[b]]) == Whole([a, b], []);
    assert [a] == [a][0..1];
  }
}
