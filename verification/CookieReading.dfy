/**
 What a jar's text means, line by line: which lines are rows, what their columns are, whose cookies they hold, and when
 the login they carry runs out.
 */
module CookieReading {
  import opened CookieJar
  import opened Wrappers

  // --- columns -----------------------------------------------------------------------------------

  predicate Cell(s: string) {
    '\t' !in s
  }

  /** Splitting at tabs: the columns hold no tab, there is one more of them than there are tabs, and joined again they are
      the line. */
  lemma {:induction false} SplitAtTabs(line: string)
    ensures |SplitTabs(line)| == Tabs(line) + 1 && JoinTabs(SplitTabs(line)) == line
    ensures forall i | 0 <= i < |SplitTabs(line)| :: Cell(SplitTabs(line)[i])
  {
    CellsAreTabs(line);
    JoinOfSplit(line);
    SplitIntoCells(line);
  }

  lemma {:induction false} SplitIntoCells(line: string)
    ensures forall i | 0 <= i < |SplitTabs(line)| :: Cell(SplitTabs(line)[i])
    decreases |line|
  {
    if line != "" {
      SplitIntoCells(line[1..]);
    }
  }

  lemma {:induction false} SplitCell(s: string)
    requires Cell(s)
    ensures SplitTabs(s) == [s]
    decreases |s|
  {
    if s != "" {
      assert s == [s[0]] + s[1..];
      SplitCell(s[1..]);
    }
  }

  lemma {:induction false} SplitFirst(s: string, rest: string)
    requires Cell(s)
    ensures SplitTabs(s + "\t" + rest) == [s] + SplitTabs(rest)
    decreases |s|
  {
    var t := s + "\t" + rest;
    if s == "" {
      assert t[1..] == rest;
    } else {
      assert s == [s[0]] + s[1..];
      assert t[1..] == s[1..] + "\t" + rest;
      SplitFirst(s[1..], rest);
    }
  }

  /** Columns without tabs come back from the line they are printed as. */
  lemma {:induction false} SplitOfJoin(r: Row)
    requires r != [] && forall i | 0 <= i < |r| :: Cell(r[i])
    ensures SplitTabs(JoinTabs(r)) == r
  {
    if |r| == 1 {
      SplitCell(r[0]);
      assert r == [r[0]];
    } else {
      SplitOfJoin(r[1..]);
      SplitFirst(r[0], JoinTabs(r[1..]));
      assert r == [r[0]] + r[1..];
    }
  }

  // --- lines -------------------------------------------------------------------------------------

  /** A text is its first line, one line end - a carriage return and a newline count as one - and the lines of the rest,
      whatever that is. */
  lemma {:induction false} FirstLineThenTheRest(line: string, c: char, rest: string)
    requires Unbroken(line) && IsBreak(c)
    ensures !(c == '\r' && rest != "" && rest[0] == '\n') ==> SplitLines(line + [c] + rest) == [line] + SplitLines(rest)
    ensures SplitLines(line + "\r\n" + rest) == [line] + SplitLines(rest)
    ensures SplitLines(line) == if line == "" then [] else [line]
  {
    var t, u := line + [c] + rest, line + "\r\n" + rest;
    assert t[..|line|] == line && u[..|line|] == line && t[|line|] == c && u[|line|] == '\r';
    BreakAtIs(t, |line|);
    BreakAtIs(u, |line|);
    assert t[|line| + 1..] == rest && u[|line| + 2..] == rest;
    assert line[..|line|] == line;
    BreakAtIs(line, |line|);
  }

  /** The characters that count as blank, by their code points. */
  lemma {:induction false} SpacesByCode(c: char)
    ensures var n := c as int;
            && (IsBreak(c) <==> 10 <= n <= 13 || 28 <= n <= 30 || n == 133 || n == 8232 || n == 8233)
            && (IsSpace(c) <==>
                  || 9 <= n <= 13 || 28 <= n <= 32 || n in {133, 160, 5760, 8232, 8233, 8239, 8287, 12288}
                  || 8192 <= n <= 8202)
  {
  }

  // A hash at its start makes a line a comment, but for the prefix of an http-only domain.
  predicate Remark(line: string) {
    line != "" && line[0] == '#' && !(|line| >= 10 && line[..10] == "#HttpOnly_")
  }

  predicate HasInk(line: string) {
    exists i :: 0 <= i < |line| && !IsSpace(line[i])
  }

  // The line is a cookie's.
  predicate IsRow(line: string) {
    Tabs(line) == 6 && HasInk(line) && !Remark(line)
  }

  lemma {:induction false} RowMeans(line: string)
    ensures RowOf(line) == if IsRow(line) then Some(SplitTabs(line)) else None
  {
    CellsAreTabs(line);
    assert HTTP_ONLY == "#HttpOnly_" && |HTTP_ONLY| == 10;
    assert HTTP_ONLY <= line <==> |line| >= 10 && line[..10] == "#HttpOnly_";
    assert "#" <= line <==> line != "" && line[0] == '#';
    assert Blank(line) <==> !HasInk(line);
  }

  /** A line is read as a row if and only if it has seven columns, is not blank and is no comment; either kind of line end
      will do. */
  lemma {:induction false} LineIsRead(line: string)
    requires Unbroken(line)
    ensures Parse(line + "\n") == Parse(line + "\r\n") == if IsRow(line) then [SplitTabs(line)] else []
  {
    RowMeans(line);
    ParseLine(line);
    var t := line + "\r\n";
    assert t[..|line|] == line;
    BreakAtIs(t, |line|);
    assert BreakWidth(t, |line|) == 2 && t[|line| + 2..] == "";
    assert SplitLines(t) == [line];
    OneLine(line);
  }

  lemma {:induction false} PrefixHasNoTabs()
    ensures Tabs("#HttpOnly_") == 0
  {
    NoTabs("#HttpOnly_");
  }

  lemma {:induction false} PrefixIsUnbroken()
    ensures Unbroken("#HttpOnly_")
  {
  }

  lemma {:induction false} PrefixIsNoComment(rest: string)
    ensures HasInk("#HttpOnly_" + rest) && !Remark("#HttpOnly_" + rest)
  {
    var line := "#HttpOnly_" + rest;
    assert line[0] == '#' && !IsSpace(line[0]) && line[..10] == "#HttpOnly_";
  }

  /** The rows of http-only cookies are read: the hash of their prefix does not make them comments. */
  lemma {:induction false} HttpOnlyIsRead(rest: string)
    requires Unbroken(rest) && Tabs(rest) == 6
    ensures Parse("#HttpOnly_" + rest + "\n") == [SplitTabs("#HttpOnly_" + rest)]
  {
    PrefixHasNoTabs();
    PrefixIsUnbroken();
    PrefixIsNoComment(rest);
    TabsJoin("#HttpOnly_", rest);
    UnbrokenJoin("#HttpOnly_", rest);
    LineIsRead("#HttpOnly_" + rest);
  }

  // --- whose cookies -----------------------------------------------------------------------------

  predicate OfGoogle(domain: string) {
    EndsWith(domain, "youtube.com") || EndsWith(domain, "google.com")
  }

  lemma {:induction false} EndsMeans(s: string, suffix: string)
    ensures EndsWith(s, suffix) <==> exists x :: s == x + suffix
  {
    if EndsWith(s, suffix) {
      assert s == s[..|s| - |suffix|] + suffix;
    }
  }

  lemma {:induction false} EndsAfterDot(s: string, suffix: string)
    ensures EndsWith(s, "." + suffix) ==> EndsWith(s, suffix)
  {
    if EndsWith(s, "." + suffix) {
      assert s[|s| - |suffix|..] == s[|s| - |suffix| - 1..][1..];
    }
  }

  lemma {:induction false} InSuffix(s: string, suffix: string, p: nat)
    requires p < |s|
    ensures EndsWith(s, suffix) && |s| - |suffix| <= p ==> s[p] in suffix
  {
    if EndsWith(s, suffix) && |s| - |suffix| <= p {
      assert s[|s| - |suffix|..][p - (|s| - |suffix|)] == s[p];
    }
  }

  // A suffix without an underscore cannot reach into the prefix.
  lemma {:induction false} EndsBehindPrefix(s: string, suffix: string)
    requires HTTP_ONLY <= s && '_' !in suffix
    ensures EndsWith(s[|HTTP_ONLY|..], suffix) <==> EndsWith(s, suffix)
  {
    assert HTTP_ONLY[9] == '_' && |HTTP_ONLY| == 10;
    InSuffix(s, suffix, 9);
    var rest := s[10..];
    assert |suffix| <= |rest| ==> s[|s| - |suffix|..] == rest[|rest| - |suffix|..];
  }

  /** Kept are exactly the rows whose domain ends like one of the two sites, http-only or not. */
  lemma {:induction false} KeptMeans(r: Row)
    requires r != []
    ensures Kept(r) <==> OfGoogle(r[0])
  {
    var d := DomainOf(r);
    assert KEEP == [".youtube.com", "youtube.com", ".google.com", "google.com"];
    EndsAfterDot(d, "youtube.com");
    EndsAfterDot(d, "google.com");
    assert "." + "youtube.com" == ".youtube.com" && "." + "google.com" == ".google.com";
    assert EndsWith(d, KEEP[1]) <==> EndsWith(d, "youtube.com");
    assert EndsWith(d, KEEP[3]) <==> EndsWith(d, "google.com");
    if HTTP_ONLY <= r[0] {
      EndsBehindPrefix(r[0], "youtube.com");
      EndsBehindPrefix(r[0], "google.com");
    }
  }

  // --- the whole text ------------------------------------------------------------------------------

  // The line is a cookie of one of the sites under one of these names.
  predicate Carries(line: string, names: seq<string>) {
    IsRow(line) && |SplitTabs(line)| == 7 && OfGoogle(SplitTabs(line)[0]) && SplitTabs(line)[5] in names
  }

  lemma {:induction false} RowsOfLines(lines: seq<string>, names: seq<string>)
    ensures Holds(FilterGoogle(RowsOf(lines)), names) <==> exists i :: 0 <= i < |lines| && Carries(lines[i], names)
  {
    var kept := FilterGoogle(RowsOf(lines));
    if Holds(kept, names) {
      var k :| 0 <= k < |kept| && |kept[k]| == 7 && kept[k][5] in names;
      assert kept[k] in kept;
      var i := RowIsFrom(lines, kept[k]);
      RowMeans(lines[i]);
      KeptMeans(kept[k]);
      assert Carries(lines[i], names);
    }
    if exists i :: 0 <= i < |lines| && Carries(lines[i], names) {
      var i :| 0 <= i < |lines| && Carries(lines[i], names);
      RowMeans(lines[i]);
      LineIsIn(lines, i);
      KeptMeans(SplitTabs(lines[i]));
      var k :| 0 <= k < |kept| && kept[k] == SplitTabs(lines[i]);
    }
  }

  lemma {:induction false} RowIsFrom(lines: seq<string>, r: Row) returns (i: nat)
    requires r in RowsOf(lines)
    ensures i < |lines| && RowOf(lines[i]) == Some(r)
    decreases |lines|
  {
    var last := |lines| - 1;
    if RowOf(lines[last]) == Some(r) {
      i := last;
    } else {
      i := RowIsFrom(lines[..last], r);
    }
  }

  lemma {:induction false} LineIsIn(lines: seq<string>, i: nat)
    requires i < |lines| && RowOf(lines[i]).Some?
    ensures RowOf(lines[i]).value in RowsOf(lines)
    decreases |lines|
  {
    var last := |lines| - 1;
    if i < last {
      LineIsIn(lines[..last], i);
    }
  }

  ghost predicate HasLine(text: string, names: seq<string>) {
    exists i :: 0 <= i < |SplitLines(text)| && Carries(SplitLines(text)[i], names)
  }

  /** A text is judged good if and only if one of its lines is a cookie of each half of the login, http-only or not. */
  lemma {:induction false} GoodByItsLines(text: string, epoch: string -> Option<int>)
    ensures AnalyseText(text, epoch).code == Ok <==> HasLine(text, SID_FAMILY) && HasLine(text, APISID_FAMILY)
  {
    VerdictMeaning(FilterGoogle(Parse(text)), epoch);
    RowsOfLines(SplitLines(text), SID_FAMILY);
    RowsOfLines(SplitLines(text), APISID_FAMILY);
  }

  lemma {:induction false} RowsHaveSeven(lines: seq<string>)
    ensures forall r | r in RowsOf(lines) :: |r| == 7
    decreases |lines|
  {
    if lines != [] {
      RowsHaveSeven(lines[..|lines| - 1]);
    }
  }

  lemma {:induction false} AnonymousIsOnlyAnonymous(rows: seq<Row>, epoch: string -> Option<int>)
    ensures Analyse(rows, epoch).code == Anonymous <==> OnlyAnonymous(rows)
  {
    VerdictMeaning(rows, epoch);
  }

  predicate GoesBy(r: Row, names: seq<string>) {
    |r| == 7 && r[5] in names
  }

  lemma {:induction false} OnlyAnonymousMeans(rows: seq<Row>)
    ensures OnlyAnonymous(rows) <==> rows != [] && forall r | r in rows :: GoesBy(r, ANONYMOUS)
  {
    if OnlyAnonymous(rows) {
      forall r | r in rows ensures GoesBy(r, ANONYMOUS) {
        var i :| 0 <= i < |rows| && rows[i] == r;
      }
    }
    if rows != [] && forall r | r in rows :: GoesBy(r, ANONYMOUS) {
      forall i | 0 <= i < |rows| ensures |rows[i]| == 7 && rows[i][5] in ANONYMOUS {
        assert GoesBy(rows[i], ANONYMOUS);
      }
    }
  }

  /** A text is judged anonymous if and only if it has cookies of the sites, and all of them go by names that a visit without
      a login leaves behind. Every cookie of a text has seven columns. */
  lemma {:induction false} AnonymousByItsNames(text: string, epoch: string -> Option<int>)
    ensures var rows := FilterGoogle(Parse(text));
            && (forall r | r in rows :: |r| == 7)
            && (AnalyseText(text, epoch).code == Anonymous
                <==> rows != [] && forall r | r in rows :: GoesBy(r, ANONYMOUS))
  {
    var rows := FilterGoogle(Parse(text));
    RowsHaveSeven(SplitLines(text));
    AnonymousIsOnlyAnonymous(rows, epoch);
    OnlyAnonymousMeans(rows);
  }

  predicate Printable(r: Row) {
    |r| == 7 && forall i | 0 <= i < |r| :: Cell(r[i]) && Unbroken(r[i])
  }

  lemma {:induction false} UnbrokenLine(r: Row)
    requires forall i | 0 <= i < |r| :: Unbroken(r[i])
    ensures Unbroken(JoinTabs(r))
  {
    if |r| > 1 {
      UnbrokenLine(r[1..]);
      UnbrokenJoin(r[0], "\t");
      UnbrokenJoin(r[0] + "\t", JoinTabs(r[1..]));
    }
  }

  lemma {:induction false} HttpOnlyLine(r: Row, names: seq<string>)
    requires Printable(r) && HTTP_ONLY <= r[0] && EndsWith(r[0], "youtube.com") && r[5] in names
    ensures Unbroken(JoinTabs(r)) && Carries(JoinTabs(r), names)
  {
    var line := JoinTabs(r);
    UnbrokenLine(r);
    SplitOfJoin(r);
    CellsAreTabs(line);
    assert r[0] <= line;
    assert HTTP_ONLY == "#HttpOnly_" && line[..10] == r[0][..10] == "#HttpOnly_";
    assert line[0] == '#' && !IsSpace(line[0]);
  }

  /** So a jar whose two login halves are http-only is a good one. */
  lemma {:induction false} HttpOnlyLoginIsGood(a: Row, b: Row, epoch: string -> Option<int>)
    requires Printable(a) && Printable(b) && HTTP_ONLY <= a[0] && HTTP_ONLY <= b[0]
    requires EndsWith(a[0], "youtube.com") && EndsWith(b[0], "youtube.com")
    requires a[5] in SID_FAMILY && b[5] in APISID_FAMILY
    ensures AnalyseText(JoinTabs(a) + "\n" + (JoinTabs(b) + "\n"), epoch).code == Ok
  {
    HttpOnlyLine(a, SID_FAMILY);
    HttpOnlyLine(b, APISID_FAMILY);
    var text := JoinTabs(a) + "\n" + (JoinTabs(b) + "\n");
    OneLine(JoinTabs(a));
    OneLine(JoinTabs(b));
    SplitJoined(JoinTabs(a) + "\n", JoinTabs(b) + "\n");
    assert SplitLines(text) == [JoinTabs(a), JoinTabs(b)];
    GoodByItsLines(text, epoch);
    assert Carries(SplitLines(text)[0], SID_FAMILY) && Carries(SplitLines(text)[1], APISID_FAMILY);
  }

  // --- the expiry ----------------------------------------------------------------------------------

  // The cookie that goes by this name - the last one - runs out at `t`.
  predicate RunsOut(rows: seq<Row>, name: string, epoch: string -> Option<int>, t: int) {
    ByName(rows, name).Some? && |ByName(rows, name).value| == 7 && epoch(ByName(rows, name).value[4]) == Some(t) && t > 0
  }

  lemma {:induction false} LastOfItsName(rows: seq<Row>, name: string, i: nat)
    requires i < |rows| && |rows[i]| == 7 && rows[i][5] == name
    requires forall j | i < j < |rows| :: !(|rows[j]| == 7 && rows[j][5] == name)
    ensures ByName(rows, name) == Some(rows[i])
    decreases |rows|
  {
    if i < |rows| - 1 {
      LastOfItsName(rows[..|rows| - 1], name, i);
    }
  }

  lemma {:induction false} SoonestIsEarliest(rows: seq<Row>, names: seq<string>, epoch: string -> Option<int>)
    ensures var s := Soonest(rows, names, epoch);
            && (forall n, t | n in names && RunsOut(rows, n, epoch, t) :: s.Some? && s.value <= t)
            && (s.Some? ==> exists n :: n in names && RunsOut(rows, n, epoch, s.value))
  {
    if names != [] {
      var rest := names[1..];
      SoonestIsEarliest(rows, rest, epoch);
      assert names == [names[0]] + rest;
      var s, later := Soonest(rows, names, epoch), Soonest(rows, rest, epoch);
      if s.Some? {
        if s == later {
          var n :| n in rest && RunsOut(rows, n, epoch, s.value);
          assert n in names;
        } else {
          assert names[0] in names && RunsOut(rows, names[0], epoch, s.value);
        }
      }
    }
  }

  ghost predicate LoginRunsOut(rows: seq<Row>, epoch: string -> Option<int>, t: int) {
    exists n :: n in SID_FAMILY + APISID_FAMILY + OTHER_LOGIN && RunsOut(rows, n, epoch, t)
  }

  /** The expiry reported of a good jar is the earliest there is among its login cookies, session cookies left aside; none
      is reported if all of them are, or of a jar that is not good. */
  lemma {:induction false} ReportsTheEarliest(rows: seq<Row>, epoch: string -> Option<int>)
    ensures var v := Analyse(rows, epoch);
            && (v.code != Ok ==> v.soonest == None)
            && (v.code == Ok ==> forall t | LoginRunsOut(rows, epoch, t) :: v.soonest.Some? && v.soonest.value <= t)
            && (v.soonest.Some? ==> LoginRunsOut(rows, epoch, v.soonest.value))
            && v.count == |rows|
            && (forall n :: n in v.login <==>
                  n in SID_FAMILY + APISID_FAMILY + OTHER_LOGIN && exists i :: Named(rows, i, n))
            && (forall n :: n in v.rotating <==> n in ROTATING && exists i :: Named(rows, i, n))
  {
    var v := Analyse(rows, epoch);
    var all := SID_FAMILY + APISID_FAMILY + OTHER_LOGIN;
    SoonestIsEarliest(rows, v.login, epoch);
    forall n ensures Has(rows, n) <==> exists i :: Named(rows, i, n) {
      HasNamed(rows, n);
    }
    forall n, t | n in all && RunsOut(rows, n, epoch, t) ensures n in v.login {
    }
  }

  predicate Named(rows: seq<Row>, i: int, name: string) {
    0 <= i < |rows| && |rows[i]| == 7 && rows[i][5] == name
  }

  lemma {:induction false} HasNamed(rows: seq<Row>, name: string)
    ensures Has(rows, name) <==> exists i :: Named(rows, i, name)
  {
    HasMeans(rows, name);
    if exists i :: Named(rows, i, name) {
      var i :| Named(rows, i, name);
      assert |rows[i]| == 7 && rows[i][5] == name;
    }
    if Has(rows, name) {
      var i :| 0 <= i < |rows| && |rows[i]| == 7 && rows[i][5] == name;
      assert Named(rows, i, name);
    }
  }
}
