/**
 The daemon's side of ducking: holds are kept output by output, one id on several of them. Seen from outside they are the
 leases of the protocol: one deadline per id.
 */
module DuckMixer {
  import opened Wrappers
  import opened VoiceDuck

  type Output = string

  datatype DuckHold = DuckHold(id: HoldId, level: real, expires: Time)

  type Ducks = map<Output, seq<DuckHold>>

  predicate Covers(holds: seq<DuckHold>, id: HoldId) {
    exists k :: 0 <= k < |holds| && holds[k].id == id
  }

  predicate Lists(ducks: Ducks, o: Output, h: DuckHold) {
    o in ducks && h in ducks[o]
  }

  predicate LiveOn(ducks: Ducks, o: Output, id: HoldId) {
    o in ducks && Covers(ducks[o], id)
  }

  ghost predicate Live(ducks: Ducks, id: HoldId) {
    exists o :: LiveOn(ducks, o, id)
  }

  /** The lists hold exactly the leased ids, each with its deadline wherever it is listed. */
  ghost predicate Represents(ducks: Ducks, leases: map<HoldId, Time>) {
    && (forall id :: id in leases <==> Live(ducks, id))
    && (forall o, k | o in ducks && 0 <= k < |ducks[o]| ::
          ducks[o][k].id in leases && ducks[o][k].expires == leases[ducks[o][k].id])
  }

  function Extended(holds: seq<DuckHold>, id: HoldId, expires: Time): (r: seq<DuckHold>)
    ensures |r| == |holds|
  {
    seq(|holds|, k requires 0 <= k < |holds| =>
      if holds[k].id == id then DuckHold(id, holds[k].level, expires) else holds[k])
  }

  function Distance(x: real, y: real): real {
    if x < y then y - x else x - y
  }

  // The level a hold gets is the permitted one closest to what was asked for.
  function Clamped(level: real): (r: real)
    ensures 0.0 <= r <= 1.0
    ensures forall x | 0.0 <= x <= 1.0 :: Distance(level, r) <= Distance(level, x)
  {
    if level < 0.0 then 0.0 else if level > 1.0 then 1.0 else level
  }

  // The holds that pass, in order.
  function Retained(holds: seq<DuckHold>, keep: DuckHold -> bool): (r: seq<DuckHold>)
    ensures forall h :: h in r <==> h in holds && keep(h)
  {
    if holds == [] then []
    else
      assert holds == [holds[0]] + holds[1..];
      if keep(holds[0]) then [holds[0]] + Retained(holds[1..], keep) else Retained(holds[1..], keep)
  }

  // Every list filtered, empty ones dropped.
  function RetainedIn(ducks: Ducks, keep: DuckHold -> bool): Ducks {
    map o | o in ducks && Retained(ducks[o], keep) != [] :: Retained(ducks[o], keep)
  }

  // Filtering by a rule that treats all listings of a lease alike keeps the leases it keeps.
  lemma {:induction false} RetainedRepresents(
    ducks: Ducks, leases: map<HoldId, Time>, keep: DuckHold -> bool, kept: map<HoldId, Time>)
    requires Represents(ducks, leases)
    requires forall id | id in kept :: id in leases && kept[id] == leases[id]
    requires forall h: DuckHold | h.id in leases && h.expires == leases[h.id] :: keep(h) <==> h.id in kept
    ensures Represents(RetainedIn(ducks, keep), kept)
  {
    var n := RetainedIn(ducks, keep);
    forall id ensures id in kept <==> Live(n, id) {
      if Live(n, id) {
        var o :| LiveOn(n, o, id);
        var h :| h in ducks[o] && h.id == id && keep(h);
        var k :| 0 <= k < |ducks[o]| && ducks[o][k] == h;
      }
      if id in kept {
        var o :| LiveOn(ducks, o, id);
        var k :| 0 <= k < |ducks[o]| && ducks[o][k].id == id;
        assert ducks[o][k] in ducks[o] && keep(ducks[o][k]);
        assert LiveOn(n, o, id);
      }
    }
    forall o, k | o in n && 0 <= k < |n[o]| ensures n[o][k].id in kept && n[o][k].expires == kept[n[o][k].id] {
      assert n[o][k] in Retained(ducks[o], keep);
      var j :| 0 <= j < |ducks[o]| && ducks[o][j] == n[o][k];
    }
  }

  class OverlayMixer {
    var ducks: Ducks
    var nextDuckId: HoldId

    /** The mixer carries the leases the protocol talks about, and has given out every id up to `nextDuckId`. */
    ghost predicate Carries(leases: map<HoldId, Time>)
      reads this
    {
      Represents(ducks, leases) && forall id | id in leases :: id <= nextDuckId
    }

    constructor ()
      ensures Carries(map[]) && nextDuckId == 0
    {
      ducks, nextDuckId := map[], 0;
    }

    /** One id for all outputs of a turn. With no output there is nothing to lease. */
    method StartDuck(targets: seq<Output>, level: real, now: Time, ttl: Time, ghost leases: map<HoldId, Time>)
      returns (id: HoldId)
      requires Carries(leases)
      modifies this
      ensures id == old(nextDuckId) + 1 && nextDuckId == id
      ensures Carries(if targets == [] then leases else leases[id := now + ttl])
      ensures forall o, h :: Lists(ducks, o, h) <==>
                Lists(old(ducks), o, h) || (o in targets && h == DuckHold(id, Clamped(level), now + ttl))
    {
      nextDuckId := nextDuckId + 1;
      id := nextDuckId;
      var hold := DuckHold(id, Clamped(level), now + ttl);
      for i := 0 to |targets|
        invariant Represents(ducks, if i == 0 then leases else leases[id := now + ttl])
        invariant forall o, h :: Lists(ducks, o, h) <==> Lists(old(ducks), o, h) || (o in targets[..i] && h == hold)
        invariant nextDuckId == id == old(nextDuckId) + 1
      {
        var o := targets[i];
        PushLists(ducks, o, hold);
        PushRepresents(ducks, leases, if i == 0 then leases else leases[id := now + ttl], o, hold);
        assert targets[..i + 1] == targets[..i] + [o];
        ducks := Pushed(ducks, o, hold);
      }
      assert targets[..|targets|] == targets;
    }

    /** Whether the hold is still there; if so its deadline moves on every output. */
    method RenewDuck(id: HoldId, now: Time, ttl: Time, ghost leases: map<HoldId, Time>) returns (found: bool)
      requires Carries(leases)
      modifies this`ducks
      ensures found == (id in leases)
      ensures Carries(if id in leases then leases[id := now + ttl] else leases)
      ensures ducks == map o | o in old(ducks) :: Extended(old(ducks)[o], id, now + ttl)
    {
      found := exists o :: o in ducks && Covers(ducks[o], id);
      ghost var was := ducks;
      assert found ==> exists o :: LiveOn(was, o, id);
      assert Live(was, id) ==> exists o :: o in was && Covers(was[o], id) by {
        if Live(was, id) {
          var o :| LiveOn(was, o, id);
        }
      }
      ExtendRepresents(ducks, leases, id, now + ttl);
      ducks := map o | o in ducks :: Extended(ducks[o], id, now + ttl);
    }

    /** The hold goes from every output it is on. */
    method ReleaseDuck(id: HoldId, ghost leases: map<HoldId, Time>) returns (affected: set<Output>)
      requires Carries(leases)
      modifies this`ducks
      ensures Carries(leases - {id})
      ensures forall o, h :: Lists(ducks, o, h) <==> Lists(old(ducks), o, h) && h.id != id
      ensures forall o | o in ducks :: ducks[o] != []
      ensures forall o :: o in affected <==> LiveOn(old(ducks), o, id)
    {
      affected := set o | o in ducks && Covers(ducks[o], id);
      var keep := (h: DuckHold) => h.id != id;
      RetainedRepresents(ducks, leases, keep, leases - {id});
      ducks := RetainedIn(ducks, keep);
    }

    /** The lease enforcer: exactly the holds past their deadline go, and each is reported once, with the outputs it
        was on. */
    method ExpireDucks(now: Time, ghost leases: map<HoldId, Time>) returns (expired: map<HoldId, set<Output>>)
      requires Carries(leases)
      modifies this`ducks
      ensures Carries(map id | id in leases && leases[id] > now :: leases[id])
      ensures forall o, h :: Lists(ducks, o, h) <==> Lists(old(ducks), o, h) && h.expires > now
      ensures forall o | o in ducks :: ducks[o] != []
      ensures forall id :: id in expired <==> id in leases && leases[id] <= now
      ensures forall id | id in expired :: forall o :: o in expired[id] <==> LiveOn(old(ducks), o, id)
    {
      var over := set o, k | o in ducks && 0 <= k < |ducks[o]| && ducks[o][k].expires <= now :: ducks[o][k].id;
      forall id ensures id in over <==> id in leases && leases[id] <= now {
        if id in leases && leases[id] <= now {
          var o :| LiveOn(ducks, o, id);
          var k :| 0 <= k < |ducks[o]| && ducks[o][k].id == id;
        }
      }
      expired := map id | id in over :: set o | o in ducks && Covers(ducks[o], id);
      var keep := (h: DuckHold) => h.expires > now;
      RetainedRepresents(ducks, leases, keep, map id | id in leases && leases[id] > now :: leases[id]);
      ducks := RetainedIn(ducks, keep);
    }

    /** The gain on an output is the strongest of its holds, and none exactly when nothing holds it. */
    method DuckGain(o: Output) returns (gain: Option<real>)
      ensures gain.None? <==> o !in ducks || ducks[o] == []
      ensures gain.Some? ==> exists k :: 0 <= k < |ducks[o]| && ducks[o][k].level == gain.value
      ensures gain.Some? ==> forall k | 0 <= k < |ducks[o]| :: gain.value <= ducks[o][k].level
    {
      gain := None;
      if o !in ducks {
        return;
      }
      for i := 0 to |ducks[o]|
        invariant gain.None? <==> i == 0
        invariant gain.Some? ==> exists k :: 0 <= k < i && ducks[o][k].level == gain.value
        invariant gain.Some? ==> forall k | 0 <= k < i :: gain.value <= ducks[o][k].level
      {
        var l := ducks[o][i].level;
        gain := Some(if gain.Some? && gain.value <= l then gain.value else l);
        assert ducks[o][i].level == l;
      }
    }
  }

  function Pushed(ducks: Ducks, o: Output, h: DuckHold): Ducks {
    ducks[o := (if o in ducks then ducks[o] else []) + [h]]
  }

  lemma {:induction false} PushLists(ducks: Ducks, o: Output, h: DuckHold)
    ensures forall q, g :: Lists(Pushed(ducks, o, h), q, g) <==> Lists(ducks, q, g) || (q == o && g == h)
  {
    var n := Pushed(ducks, o, h);
    forall q, g ensures Lists(n, q, g) <==> Lists(ducks, q, g) || (q == o && g == h) {
      if q == o {
        assert n[o] == (if o in ducks then ducks[o] else []) + [h];
      }
    }
  }

  lemma {:induction false} PushRepresents(
    ducks: Ducks, before: map<HoldId, Time>, leases: map<HoldId, Time>, o: Output, h: DuckHold)
    requires Represents(ducks, leases) && h.id !in before
    requires leases == before || leases == before[h.id := h.expires]
    ensures Represents(Pushed(ducks, o, h), before[h.id := h.expires]) && LiveOn(Pushed(ducks, o, h), o, h.id)
    ensures forall q, id | LiveOn(ducks, q, id) :: LiveOn(Pushed(ducks, o, h), q, id)
  {
    var n := Pushed(ducks, o, h);
    assert n[o][|n[o]| - 1] == h;
    assert LiveOn(n, o, h.id);
    forall q, id | LiveOn(ducks, q, id) ensures LiveOn(n, q, id) {
      var k :| 0 <= k < |ducks[q]| && ducks[q][k].id == id;
      assert n[q][k].id == id;
    }
    forall id ensures id in before[h.id := h.expires] <==> Live(n, id) {
      if id in leases {
        var q :| LiveOn(ducks, q, id);
        assert LiveOn(n, q, id);
      }
      if Live(n, id) && id != h.id {
        var q :| LiveOn(n, q, id);
        var k :| 0 <= k < |n[q]| && n[q][k].id == id;
        assert q in ducks && k < |ducks[q]| && ducks[q][k].id == id;
        assert LiveOn(ducks, q, id);
      }
    }
  }

  lemma {:induction false} ExtendRepresents(ducks: Ducks, leases: map<HoldId, Time>, id: HoldId, expires: Time)
    requires Represents(ducks, leases)
    ensures Represents(map o | o in ducks :: Extended(ducks[o], id, expires),
                       if id in leases then leases[id := expires] else leases)
  {
    var n := map o | o in ducks :: Extended(ducks[o], id, expires);
    forall o, j ensures LiveOn(n, o, j) <==> LiveOn(ducks, o, j) {
      if LiveOn(ducks, o, j) {
        var k :| 0 <= k < |ducks[o]| && ducks[o][k].id == j;
        assert n[o][k].id == j;
      }
      if LiveOn(n, o, j) {
        var k :| 0 <= k < |n[o]| && n[o][k].id == j;
        assert ducks[o][k].id == j;
      }
    }
    forall j ensures Live(n, j) <==> Live(ducks, j) {
      if Live(n, j) {
        var o :| LiveOn(n, o, j);
        assert LiveOn(ducks, o, j);
      }
      if Live(ducks, j) {
        var o :| LiveOn(ducks, o, j);
        assert LiveOn(n, o, j);
      }
    }
  }
}
