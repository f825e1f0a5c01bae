/**
 Newline-delimited messages over a byte stream that arrives in any pieces.
 */
module LineFraming {
  import opened Sequences

  function FirstLine(s: string): (n: nat)
    ensures n <= |s|
    ensures '\n' !in s[..n]
    ensures n < |s| ==> s[n] == '\n'
    decreases |s|
  {
    if s == "" || s[0] == '\n' then 0
    else
      assert s[..FirstLine(s[1..]) + 1] == [s[0]] + s[1..][..FirstLine(s[1..])];
      FirstLine(s[1..]) + 1
  }

  /** The complete lines of a stream, whatever pieces it arrived in. */
  function Lines(s: string): seq<string>
    decreases |s|
  {
    var n := FirstLine(s);
    if n == |s| then [] else [s[..n]] + Lines(s[n + 1..])
  }

  // What follows the last newline.
  function Rest(s: string): (r: string)
    ensures '\n' !in r
    decreases |s|
  {
    var n := FirstLine(s);
    if n == |s| then s else Rest(s[n + 1..])
  }

  lemma {:induction false} FirstLineOf(s: string, n: nat)
    requires n <= |s| && '\n' !in s[..n] && (n < |s| ==> s[n] == '\n')
    ensures FirstLine(s) == n
  {
  }

  lemma {:induction false} LinesUnfold(s: string, line: string, more: string)
    requires s == line + "\n" + more && '\n' !in line
    ensures Lines(s) == [line] + Lines(more) && Rest(s) == Rest(more)
  {
    FirstLineOf(s, |line|);
    assert s[..|line|] == line && s[|line| + 1..] == more;
  }

  lemma {:induction false} Split(s: string) returns (line: string, more: string)
    requires FirstLine(s) < |s|
    ensures s == line + "\n" + more && '\n' !in line
  {
    line, more := s[..FirstLine(s)], s[FirstLine(s) + 1..];
  }

  /** Splitting piece by piece, holding back what is left over, splits the whole stream. */
  lemma {:induction false} LinesInPieces(s: string, t: string)
    ensures Lines(s + t) == Lines(s) + Lines(Rest(s) + t)
    ensures Rest(s + t) == Rest(Rest(s) + t)
    decreases |s|
  {
    if FirstLine(s) < |s| {
      var line, more := Split(s);
      LinesUnfold(s, line, more);
      assert s + t == line + "\n" + (more + t);
      LinesUnfold(s + t, line, more + t);
      LinesInPieces(more, t);
      Regroup([line], Lines(more), Lines(Rest(more) + t));
    } else {
      assert [] + Lines(s + t) == Lines(s + t);
    }
  }

  // What the lines of a stream say put together again, with the newline after each.
  function Joined(lines: seq<string>): string {
    if lines == [] then "" else lines[0] + "\n" + Joined(lines[1..])
  }

  /** Nothing of the stream is lost or invented, and no line contains a newline. */
  lemma {:induction false} LinesKeepTheStream(s: string)
    ensures s == Joined(Lines(s)) + Rest(s)
    ensures forall i | 0 <= i < |Lines(s)| :: '\n' !in Lines(s)[i]
    decreases |s|
  {
    if FirstLine(s) < |s| {
      var line, more := Split(s);
      LinesUnfold(s, line, more);
      LinesKeepTheStream(more);
    }
  }
}
