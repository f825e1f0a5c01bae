/**
 The bulk solver: requests are grouped by player, each group is solved in one go, and the answers are handed out one by
 one. When is every request answered exactly once?
 */
module JscBulk {
  import opened Wrappers

  // One entry of a group's reply: an answer of the expected shape, solved or not, or something the reader chokes on.
  datatype Datum = Good(output: Option<string>) | Malformed

  // Request `index` is answered, with an output unless it failed.
  datatype Answer = Answer(index: nat, output: Option<string>)

  type Solver = string -> Option<seq<Datum>>

  // --- grouping ----------------------------------------------------------------------------------

  /** The requests below `n` that belong to player `url`, in order. */
  function IndicesOf(urls: seq<string>, url: string, n: nat): (r: seq<nat>)
    requires n <= |urls|
    ensures forall i :: i in r ==> i < n && urls[i] == url
  {
    if n == 0 then []
    else if urls[n - 1] == url then IndicesOf(urls, url, n - 1) + [n - 1]
    else IndicesOf(urls, url, n - 1)
  }

  // The players below `n`, each once, in order of first mention.
  function Players(urls: seq<string>, n: nat): (r: seq<string>)
    requires n <= |urls|
    ensures forall u :: u in r <==> u in urls[..n]
    ensures forall i, j | 0 <= i < j < |r| :: r[i] != r[j]
  {
    if n == 0 then []
    else
      var front := Players(urls, n - 1);
      assert urls[..n] == urls[..n - 1] + [urls[n - 1]];
      if urls[n - 1] in front then front else front + [urls[n - 1]]
  }

  // --- answering ---------------------------------------------------------------------------------

  function Errors(group: seq<nat>): (r: seq<Answer>)
    ensures |r| == |group|
  {
    seq(|group|, i requires 0 <= i < |group| => Answer(group[i], None))
  }

  // How many entries can be handed out before one chokes the reader.
  function GoodPrefix(data: seq<Datum>): (n: nat)
    ensures n <= |data|
    ensures forall i | 0 <= i < n :: data[i].Good?
    ensures n < |data| ==> data[n].Malformed?
  {
    if data == [] || data[0].Malformed? then 0
    else
      var n := GoodPrefix(data[1..]);
      assert data == [data[0]] + data[1..];
      n + 1
  }

  // A reply of the wrong length is an error before anything is handed out.
  function Accepted(solver: Solver, url: string, group: seq<nat>): Option<seq<Datum>> {
    match solver(url)
    case None => None
    case Some(data) => if |data| == |group| then Some(data) else None
  }

  function GroupAnswers(solver: Solver, url: string, group: seq<nat>): seq<Answer> {
    match Accepted(solver, url, group)
    case None => Errors(group)
    case Some(data) =>
      var n := GoodPrefix(data);
      var handed := seq(n, i requires 0 <= i < n => Answer(group[i], data[i].output));
      if n == |data| then handed else handed + Errors(group)
  }

  function AllAnswers(urls: seq<string>, solver: Solver, players: seq<string>): seq<Answer> {
    if players == [] then []
    else
      var front := players[..|players| - 1];
      var u := players[|players| - 1];
      AllAnswers(urls, solver, front) + GroupAnswers(solver, u, IndicesOf(urls, u, |urls|))
  }

  method BulkSolve(urls: seq<string>, solver: Solver) returns (answers: seq<Answer>)
    ensures answers == AllAnswers(urls, solver, Players(urls, |urls|))
  {
    var order, byPlayer := GroupByPlayer(urls);
    answers := [];
    assert order[..0] == [];
    for k := 0 to |order|
      invariant answers == AllAnswers(urls, solver, order[..k])
    {
      assert order[..k + 1][..k] == order[..k];
      var more := SolveGroup(solver, order[k], byPlayer[order[k]]);
      answers := answers + more;
    }
    assert order[..|order|] == order;
  }

  method GroupByPlayer(urls: seq<string>) returns (order: seq<string>, byPlayer: map<string, seq<nat>>)
    ensures order == Players(urls, |urls|)
    ensures forall u | u in order :: u in byPlayer && byPlayer[u] == IndicesOf(urls, u, |urls|)
  {
    order, byPlayer := [], map[];
    for i := 0 to |urls|
      invariant order == Players(urls, i)
      invariant forall u :: u in byPlayer <==> u in order
      invariant forall u | u in byPlayer :: byPlayer[u] == IndicesOf(urls, u, i)
    {
      var u := urls[i];
      if u !in byPlayer {
        NotYet(urls, u, i);
        order := order + [u];
        byPlayer := byPlayer[u := []];
      }
      byPlayer := byPlayer[u := byPlayer[u] + [i]];
    }
  }

  lemma {:induction false} NotYet(urls: seq<string>, u: string, n: nat)
    requires n <= |urls| && u !in Players(urls, n)
    ensures IndicesOf(urls, u, n) == []
  {
    if n > 0 {
      NotYet(urls, u, n - 1);
    }
  }

  method SolveGroup(solver: Solver, url: string, group: seq<nat>) returns (answers: seq<Answer>)
    ensures answers == GroupAnswers(solver, url, group)
  {
    var data := Accepted(solver, url, group);
    if data.None? {
      return Errors(group);
    }
    answers := [];
    var i := 0;
    while i < |data.value| && data.value[i].Good?
      invariant i <= |data.value| && i <= GoodPrefix(data.value)
      invariant |answers| == i && forall k | 0 <= k < i :: answers[k] == Answer(group[k], data.value[k].output)
    {
      answers := answers + [Answer(group[i], data.value[i].output)];
      i := i + 1;
    }
    if i < |data.value| {
      answers := answers + Errors(group);
    }
  }

  // --- exactly once --------------------------------------------------------------------------------

  function Count(answers: seq<Answer>, index: nat): nat {
    if answers == [] then 0
    else Count(answers[..|answers| - 1], index) + if answers[|answers| - 1].index == index then 1 else 0
  }

  lemma {:induction false} CountJoins(a: seq<Answer>, b: seq<Answer>, index: nat)
    ensures Count(a + b, index) == Count(a, index) + Count(b, index)
    decreases |b|
  {
    if b == [] {
      assert a + b == a;
    } else {
      assert (a + b)[..|a + b| - 1] == a + b[..|b| - 1];
      CountJoins(a, b[..|b| - 1], index);
    }
  }

  predicate Ascending(group: seq<nat>) {
    forall i, j | 0 <= i < j < |group| :: group[i] < group[j]
  }

  lemma {:induction false} IndicesAscend(urls: seq<string>, url: string, n: nat)
    requires n <= |urls|
    ensures Ascending(IndicesOf(urls, url, n))
    ensures forall i: nat | i < n :: i in IndicesOf(urls, url, n) <==> urls[i] == url
  {
    if n > 0 {
      IndicesAscend(urls, url, n - 1);
      var front := IndicesOf(urls, url, n - 1);
      assert forall i | 0 <= i < |front| :: front[i] in front;
    }
  }

  // Distinct requests are counted once each.
  lemma {:induction false} CountDistinct(answers: seq<Answer>, index: nat)
    requires forall i, j | 0 <= i < j < |answers| :: answers[i].index < answers[j].index
    ensures Count(answers, index) == if exists i :: 0 <= i < |answers| && answers[i].index == index then 1 else 0
    decreases |answers|
  {
    if answers != [] {
      var front := answers[..|answers| - 1];
      CountDistinct(front, index);
      if exists i :: 0 <= i < |front| && front[i].index == index {
        var i :| 0 <= i < |front| && front[i].index == index;
        assert answers[i].index == index;
      }
    }
  }

  /** A group's reply is sound unless its reader hands out an answer and chokes on a later one. */
  predicate Tidy(solver: Solver, url: string, group: seq<nat>) {
    match Accepted(solver, url, group)
    case None => true
    case Some(data) => GoodPrefix(data) == 0 || GoodPrefix(data) == |data|
  }

  // How often a group answers its own requests and others.
  lemma {:induction false} GroupCount(solver: Solver, url: string, group: seq<nat>, index: nat)
    requires Ascending(group)
    ensures index !in group ==> Count(GroupAnswers(solver, url, group), index) == 0
    ensures index in group && Tidy(solver, url, group) ==> Count(GroupAnswers(solver, url, group), index) == 1
    ensures !Tidy(solver, url, group) ==> group != [] && Count(GroupAnswers(solver, url, group), group[0]) == 2
  {
    ErrorsCount(group, index);
    match Accepted(solver, url, group)
    case None =>
    case Some(data) =>
      var n := GoodPrefix(data);
      var handed := seq(n, i requires 0 <= i < n => Answer(group[i], data[i].output));
      HandedCount(group, handed, index);
      CountJoins(handed, Errors(group), index);
      if 0 < n < |data| {
        HandedCount(group, handed, group[0]);
        ErrorsCount(group, group[0]);
        CountJoins(handed, Errors(group), group[0]);
      }
  }

  lemma {:induction false} ErrorsCount(group: seq<nat>, index: nat)
    requires Ascending(group)
    ensures Count(Errors(group), index) == if index in group then 1 else 0
  {
    CountDistinct(Errors(group), index);
    if index in group {
      var i :| 0 <= i < |group| && group[i] == index;
      assert Errors(group)[i].index == index;
    }
  }

  lemma {:induction false} HandedCount(group: seq<nat>, handed: seq<Answer>, index: nat)
    requires Ascending(group) && |handed| <= |group|
    requires forall i | 0 <= i < |handed| :: handed[i].index == group[i]
    ensures index !in group ==> Count(handed, index) == 0
    ensures index in group && |handed| == |group| ==> Count(handed, index) == 1
    ensures handed != [] && index == group[0] ==> Count(handed, index) == 1
  {
    CountDistinct(handed, index);
    if index in group && |handed| == |group| {
      var i :| 0 <= i < |group| && group[i] == index;
      assert handed[i].index == index;
    }
    assert handed != [] ==> handed[0].index == group[0];
  }

  lemma {:induction false} AnswersCount(urls: seq<string>, solver: Solver, players: seq<string>, index: nat)
    requires index < |urls|
    requires forall i, j | 0 <= i < j < |players| :: players[i] != players[j]
    ensures Count(AllAnswers(urls, solver, players), index) ==
            if urls[index] in players
            then Count(GroupAnswers(solver, urls[index], IndicesOf(urls, urls[index], |urls|)), index) else 0
    decreases |players|
  {
    if players != [] {
      var front, u := players[..|players| - 1], players[|players| - 1];
      var group := IndicesOf(urls, u, |urls|);
      AnswersCount(urls, solver, front, index);
      CountJoins(AllAnswers(urls, solver, front), GroupAnswers(solver, u, group), index);
      IndicesAscend(urls, u, |urls|);
      GroupCount(solver, u, group, index);
      assert players == front + [u];
    }
  }

  ghost predicate AllTidy(urls: seq<string>, solver: Solver) {
    forall u | u in urls :: Tidy(solver, u, IndicesOf(urls, u, |urls|))
  }

  /** Every request is answered exactly once, whatever fails, if and only if no reply chokes its reader half-way. */
  lemma {:induction false} AnsweredExactlyOnce(urls: seq<string>, solver: Solver)
    ensures (forall i: nat | i < |urls| :: Count(AllAnswers(urls, solver, Players(urls, |urls|)), i) == 1)
            <==> AllTidy(urls, solver)
  {
    var all := AllAnswers(urls, solver, Players(urls, |urls|));
    if AllTidy(urls, solver) {
      forall i: nat | i < |urls| ensures Count(all, i) == 1 {
        OnceIfTidy(urls, solver, i);
      }
    } else {
      var u :| u in urls && !Tidy(solver, u, IndicesOf(urls, u, |urls|));
      var i := TwiceIfNot(urls, solver, u);
      assert Count(all, i) == 2;
    }
  }

  lemma {:induction false} OnceIfTidy(urls: seq<string>, solver: Solver, i: nat)
    requires i < |urls| && Tidy(solver, urls[i], IndicesOf(urls, urls[i], |urls|))
    ensures Count(AllAnswers(urls, solver, Players(urls, |urls|)), i) == 1
  {
    assert urls[..|urls|] == urls && urls[i] in urls;
    AnswersCount(urls, solver, Players(urls, |urls|), i);
    IndicesAscend(urls, urls[i], |urls|);
    GroupCount(solver, urls[i], IndicesOf(urls, urls[i], |urls|), i);
  }

  lemma {:induction false} TwiceIfNot(urls: seq<string>, solver: Solver, u: string) returns (i: nat)
    requires u in urls && !Tidy(solver, u, IndicesOf(urls, u, |urls|))
    ensures i < |urls| && Count(AllAnswers(urls, solver, Players(urls, |urls|)), i) == 2
  {
    var group := IndicesOf(urls, u, |urls|);
    IndicesAscend(urls, u, |urls|);
    GroupCount(solver, u, group, 0);
    i := group[0];
    assert i in group && urls[..|urls|] == urls;
    AnswersCount(urls, solver, Players(urls, |urls|), i);
  }

  lemma {:induction false} GroupIsAnswered(urls: seq<string>, solver: Solver, players: seq<string>, u: string)
    requires u in players
    ensures forall a | a in GroupAnswers(solver, u, IndicesOf(urls, u, |urls|)) :: a in AllAnswers(urls, solver, players)
    decreases |players|
  {
    var front, last := players[..|players| - 1], players[|players| - 1];
    assert players == front + [last];
    if u != last {
      GroupIsAnswered(urls, solver, front, u);
    }
  }

  // The reply of player `u` has one good entry for each of its requests.
  predicate Fits(urls: seq<string>, solver: Solver, u: string) {
    && solver(u).Some? && |solver(u).value| == |IndicesOf(urls, u, |urls|)|
    && forall k | 0 <= k < |solver(u).value| :: solver(u).value[k].Good?
  }

  lemma {:induction false} AllGood(data: seq<Datum>)
    ensures GoodPrefix(data) == |data| <==> forall k | 0 <= k < |data| :: data[k].Good?
  {
  }

  /** An answer carries the output its request's own entry of the reply has: the `k`-th request of a player goes with the
      `k`-th entry. */
  lemma {:induction false} AnswersArePaired(urls: seq<string>, solver: Solver, u: string, k: nat)
    requires u in urls && Fits(urls, solver, u) && k < |solver(u).value|
    ensures var group := IndicesOf(urls, u, |urls|);
            k < |group| && Answer(group[k], solver(u).value[k].output) in AllAnswers(urls, solver, Players(urls, |urls|))
  {
    assert urls[..|urls|] == urls;
    var group := IndicesOf(urls, u, |urls|);
    AllGood(solver(u).value);
    assert GroupAnswers(solver, u, group)[k] == Answer(group[k], solver(u).value[k].output);
    GroupIsAnswered(urls, solver, Players(urls, |urls|), u);
  }

  lemma {:induction false} OnlyItsGroup(urls: seq<string>, solver: Solver, players: seq<string>, a: Answer)
    requires a in AllAnswers(urls, solver, players)
    ensures exists u :: u in players && a in GroupAnswers(solver, u, IndicesOf(urls, u, |urls|))
    decreases |players|
  {
    var front, last := players[..|players| - 1], players[|players| - 1];
    if a in AllAnswers(urls, solver, front) {
      OnlyItsGroup(urls, solver, front, a);
    } else {
      assert last in players && a in GroupAnswers(solver, last, IndicesOf(urls, last, |urls|));
    }
  }

  lemma {:induction false} GroupAnswersItsOwn(solver: Solver, u: string, group: seq<nat>, a: Answer)
    requires a in GroupAnswers(solver, u, group)
    ensures a.index in group
  {
  }

  /** A player whose solve failed, or whose reply has not one entry for each request, has all its requests answered with an
      error and none with an output. */
  lemma {:induction false} MisfitsAreErrors(urls: seq<string>, solver: Solver, i: nat)
    requires i < |urls|
    requires solver(urls[i]).None? || |solver(urls[i]).value| != |IndicesOf(urls, urls[i], |urls|)|
    ensures Answer(i, None) in AllAnswers(urls, solver, Players(urls, |urls|))
    ensures forall a | a in AllAnswers(urls, solver, Players(urls, |urls|)) && a.index == i :: a.output == None
  {
    var u, players := urls[i], Players(urls, |urls|);
    var group := IndicesOf(urls, u, |urls|);
    assert urls[..|urls|] == urls;
    IndicesAscend(urls, u, |urls|);
    var k :| 0 <= k < |group| && group[k] == i;
    assert Errors(group)[k] == Answer(i, None);
    GroupIsAnswered(urls, solver, players, u);
    forall a | a in AllAnswers(urls, solver, players) && a.index == i ensures a.output == None {
      OnlyItsGroup(urls, solver, players, a);
      var v :| v in players && a in GroupAnswers(solver, v, IndicesOf(urls, v, |urls|));
      GroupAnswersItsOwn(solver, v, IndicesOf(urls, v, |urls|), a);
    }
  }
}
