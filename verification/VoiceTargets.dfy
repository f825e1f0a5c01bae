/**
 Which outputs a satellite's turn quietens: those in its area, or those and the music groups they play in.
 */
module VoiceTargets {
  type Node = string
  type Group = set<Node>

  // Music groups are taken one after the other, each judged by what has been collected so far.
  function Widened(targets: set<Node>, groups: seq<Group>): (r: set<Node>)
    ensures targets <= r
    decreases |groups|
  {
    if groups == [] then targets
    else Widened(if targets * groups[0] != {} then targets + groups[0] else targets, groups[1..])
  }

  method TargetsFor(outputs: set<Node>, areaOf: Node -> string, area: string, widen: bool, groups: seq<Group>)
    returns (targets: set<Node>)
    ensures var inArea := set o | o in outputs && areaOf(o) == area;
            targets == if inArea != {} && widen then Widened(inArea, groups) else inArea
  {
    targets := set o | o in outputs && areaOf(o) == area;
    if targets == {} || !widen {
      return;
    }
    ghost var inArea := targets;
    assert groups[0..] == groups;
    for i := 0 to |groups|
      invariant Widened(inArea, groups) == Widened(targets, groups[i..])
    {
      assert groups[i..][0] == groups[i] && groups[i..][1..] == groups[i + 1..];
      if targets * groups[i] != {} {
        targets := targets + groups[i];
      }
    }
  }

  predicate Disjoint(groups: seq<Group>) {
    forall i, j | 0 <= i < j < |groups| :: groups[i] !! groups[j]
  }

  // The groups that have a member among `targets`.
  ghost predicate Touched(targets: set<Node>, groups: seq<Group>, n: Node) {
    exists i :: 0 <= i < |groups| && targets * groups[i] != {} && n in groups[i]
  }

  /** When no output is in two groups, the order of the groups does not matter: exactly the touched groups join in. */
  lemma {:induction false} WidensToTouchedGroups(targets: set<Node>, groups: seq<Group>)
    requires Disjoint(groups)
    ensures forall n :: n in Widened(targets, groups) <==> n in targets || Touched(targets, groups, n)
    decreases |groups|
  {
    if groups != [] {
      var first, rest := groups[0], groups[1..];
      var next := if targets * first != {} then targets + first else targets;
      assert forall i | 0 <= i < |rest| :: rest[i] == groups[i + 1];
      WidensToTouchedGroups(next, rest);
      forall n ensures n in Widened(targets, groups) <==> n in targets || Touched(targets, groups, n) {
        if Touched(next, rest, n) {
          var i :| 0 <= i < |rest| && next * rest[i] != {} && n in rest[i];
          assert first !! rest[i];
          assert next * rest[i] == targets * rest[i];
          assert targets * groups[i + 1] != {} && n in groups[i + 1];
        }
        if Touched(targets, groups, n) {
          var i :| 0 <= i < |groups| && targets * groups[i] != {} && n in groups[i];
          if i > 0 {
            var m :| m in targets * groups[i];
            assert m in next * rest[i - 1] && n in rest[i - 1];
          } else {
            assert n in next;
          }
        }
      }
    }
  }

  /** When groups overlap it does: a group that only meets the others later is left out if it comes first. */
  lemma {:induction false} OrderMatters(a: Node, b: Node, c: Node)
    requires a != b && b != c && a != c
    ensures c in Widened({a}, [{a, b}, {b, c}]) && c !in Widened({a}, [{b, c}, {a, b}])
  {
    var ab, bc := {a, b}, {b, c};
    assert [ab, bc][1..] == [bc] && [bc, ab][1..] == [ab] && [ab][1..] == [] && [bc][1..] == [];
    assert a in {a} * ab && b in ({a} + ab) * bc;
    assert {a} * bc == {};
    assert Widened({a}, [ab, bc]) == Widened({a} + ab, [bc]) == Widened({a} + ab + bc, []);
    assert Widened({a}, [bc, ab]) == Widened({a}, [ab]) == Widened({a} + ab, []);
  }
}
