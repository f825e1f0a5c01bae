/**
 The cookie jar: parsing, printing, filtering to one site's cookies, and the verdict on whether it can log in.
 */
module CookieJar {
  import opened Sequences
  import opened Wrappers

  type Row = seq<string>

  // --- text ------------------------------------------------------------------------------------

  // The characters Python's `splitlines` breaks at.
  predicate IsBreak(c: char) {
    c in {'\n', '\r', '\U{0B}', '\U{0C}', '\U{1C}', '\U{1D}', '\U{1E}', '\U{85}', '\U{2028}', '\U{2029}'}
  }

  // The characters Python's `strip` takes away.
  predicate IsSpace(c: char) {
    || IsBreak(c) || c in {'\t', ' ', '\U{1F}', '\U{A0}', '\U{1680}', '\U{202F}', '\U{205F}', '\U{3000}'}
    || '\U{2000}' <= c <= '\U{200A}'
  }

  predicate Blank(line: string) {
    forall i | 0 <= i < |line| :: IsSpace(line[i])
  }

  predicate Unbroken(s: string) {
    forall i | 0 <= i < |s| :: !IsBreak(s[i])
  }

  function BreakAt(t: string): (n: nat)
    ensures n <= |t|
    ensures Unbroken(t[..n])
    ensures n < |t| ==> IsBreak(t[n])
    decreases |t|
  {
    if t == "" || IsBreak(t[0]) then 0
    else
      var n := BreakAt(t[1..]);
      assert t[..n + 1] == [t[0]] + t[1..][..n];
      n + 1
  }

  // How many characters the break at position `n` takes: a carriage return and a newline are one break.
  function BreakWidth(t: string, n: nat): (w: nat)
    requires n < |t|
    ensures 1 <= w <= 2 && n + w <= |t|
  {
    if t[n] == '\r' && n + 1 < |t| && t[n + 1] == '\n' then 2 else 1
  }

  function SplitLines(t: string): (lines: seq<string>)
    ensures forall i | 0 <= i < |lines| :: Unbroken(lines[i])
    decreases |t|
  {
    var n := BreakAt(t);
    if t == "" then []
    else if n == |t| then assert t[..n] == t; [t]
    else [t[..n]] + SplitLines(t[n + BreakWidth(t, n)..])
  }

  function SplitTabs(line: string): (parts: seq<string>)
    ensures parts != []
    decreases |line|
  {
    if line == "" then [""]
    else
      var rest := SplitTabs(line[1..]);
      if line[0] == '\t' then [""] + rest else [[line[0]] + rest[0]] + rest[1..]
  }

  function JoinTabs(parts: seq<string>): string {
    if parts == [] then "" else if |parts| == 1 then parts[0] else parts[0] + "\t" + JoinTabs(parts[1..])
  }

  lemma {:induction false} JoinOfSplit(line: string)
    ensures JoinTabs(SplitTabs(line)) == line
    decreases |line|
  {
    if line != "" {
      JoinOfSplit(line[1..]);
      var rest := SplitTabs(line[1..]);
      assert ([""] + rest)[1..] == rest;
    }
  }

  // --- the jar ---------------------------------------------------------------------------------

  const HTTP_ONLY: string := "#HttpOnly_"

  // A comment is a line that starts with a hash, but for the prefix of an http-only domain.
  predicate IsComment(line: string) {
    "#" <= line && !(HTTP_ONLY <= line)
  }

  function RowOf(line: string): Option<Row> {
    if Blank(line) || IsComment(line) || |SplitTabs(line)| != 7 then None else Some(SplitTabs(line))
  }

  function RowsOf(lines: seq<string>): seq<Row> {
    if lines == [] then []
    else
      var front := RowsOf(lines[..|lines| - 1]);
      var last := RowOf(lines[|lines| - 1]);
      if last.Some? then front + [last.value] else front
  }

  function Parse(text: string): seq<Row> {
    RowsOf(SplitLines(text))
  }

  method ParseJar(text: string) returns (rows: seq<Row>)
    ensures rows == Parse(text)
    ensures forall i | 0 <= i < |rows| :: |rows[i]| == 7
  {
    rows := [];
    var lines := SplitLines(text);
    for i := 0 to |lines|
      invariant rows == RowsOf(lines[..i])
      invariant forall k | 0 <= k < |rows| :: |rows[k]| == 7
    {
      var line := lines[i];
      assert lines[..i + 1][..i] == lines[..i];
      if Blank(line) || IsComment(line) {
        continue;
      }
      var parts := SplitTabs(line);
      if |parts| != 7 {
        continue;
      }
      rows := rows + [parts];
    }
    assert lines[..|lines|] == lines;
  }

  // The fixed parts of the header's three lines; the installer's name goes between the middle two.
  datatype Wording = Wording(first: string, credit: string, rewrites: string, last: string)

  // The long last line is put together from pieces, each of which is seen to hold no line break.
  const WORDING: Wording := Wording(
    "# Netscape HTTP Cookie File", "# Installed by ", " \U{2014} yt-dlp rewrites this",
    "# file as cookies rotate, " + "so it must stay writable " + "by the receiver service.")

  function Header(w: Wording, installedBy: string): string {
    (w.first + "\n") + ((w.credit + installedBy + w.rewrites + "\n") + (w.last + "\n"))
  }

  function Body(rows: seq<Row>): string {
    if rows == [] then "" else (JoinTabs(rows[0]) + "\n") + Body(rows[1..])
  }

  function Write(w: Wording, rows: seq<Row>, installedBy: string): string {
    Header(w, installedBy) + Body(rows)
  }

  // --- splitting what was put together ---------------------------------------------------------

  predicate Closed(s: string) {
    s == "" || s[|s| - 1] == '\n'
  }

  lemma {:induction false} BreakAtIs(t: string, n: nat)
    requires n <= |t| && Unbroken(t[..n]) && (n < |t| ==> IsBreak(t[n]))
    ensures BreakAt(t) == n
  {
  }

  /** A text that ends its last line splits apart from whatever follows it. */
  lemma {:induction false} SplitJoined(a: string, b: string)
    requires Closed(a)
    ensures SplitLines(a + b) == SplitLines(a) + SplitLines(b)
    decreases |a|
  {
    if a == "" {
      assert a + b == b;
    } else {
      var n := BreakAt(a);
      assert n < |a| by {
        assert IsBreak(a[|a| - 1]);
      }
      var w := BreakWidth(a, n);
      assert (a + b)[..n] == a[..n];
      BreakAtIs(a + b, n);
      assert BreakWidth(a + b, n) == w;
      assert (a + b)[n + w..] == a[n + w..] + b;
      assert Closed(a[n + w..]);
      SplitJoined(a[n + w..], b);
      Regroup([a[..n]], SplitLines(a[n + w..]), SplitLines(b));
    }
  }

  lemma {:induction false} OneLine(line: string)
    requires Unbroken(line)
    ensures SplitLines(line + "\n") == [line]
  {
    var t := line + "\n";
    assert t[..|line|] == line;
    BreakAtIs(t, |line|);
    assert t[|line| + 1..] == "";
  }

  lemma {:induction false} ParseLine(line: string)
    requires Unbroken(line)
    ensures Parse(line + "\n") == if RowOf(line).Some? then [RowOf(line).value] else []
  {
    OneLine(line);
    assert [line][..0] == [];
    assert RowsOf([line][..|[line]| - 1]) == [];
  }

  lemma {:induction false} RowsJoin(a: seq<string>, b: seq<string>)
    ensures RowsOf(a + b) == RowsOf(a) + RowsOf(b)
    decreases |b|
  {
    if b == [] {
      assert a + b == a;
    } else {
      assert (a + b)[..|a + b| - 1] == a + b[..|b| - 1];
      RowsJoin(a, b[..|b| - 1]);
    }
  }

  lemma {:induction false} ParseJoined(a: string, b: string)
    requires Closed(a)
    ensures Parse(a + b) == Parse(a) + Parse(b)
  {
    SplitJoined(a, b);
    RowsJoin(SplitLines(a), SplitLines(b));
  }

  // --- the round trip ----------------------------------------------------------------------------

  /** A row that was read off a line: printed again it is that line. */
  predicate Clean(r: Row) {
    Unbroken(JoinTabs(r)) && RowOf(JoinTabs(r)) == Some(r)
  }

  predicate AllClean(rows: seq<Row>) {
    forall i | 0 <= i < |rows| :: Clean(rows[i])
  }

  lemma {:induction false} ParsedIsClean(lines: seq<string>)
    requires forall i | 0 <= i < |lines| :: Unbroken(lines[i])
    ensures AllClean(RowsOf(lines))
    decreases |lines|
  {
    if lines != [] {
      ParsedIsClean(lines[..|lines| - 1]);
      JoinOfSplit(lines[|lines| - 1]);
    }
  }

  lemma {:induction false} BodyParsesBack(rows: seq<Row>)
    requires AllClean(rows)
    ensures Parse(Body(rows)) == rows
  {
    if rows != [] {
      var line := JoinTabs(rows[0]);
      ParseLine(line);
      BodyParsesBack(rows[1..]);
      ParseJoined(line + "\n", Body(rows[1..]));
      assert rows == [rows[0]] + rows[1..];
    }
  }

  /** Printing rows that were parsed and parsing them again gives them back, exactly when the header itself reads as no
      rows. */
  lemma {:induction false} PrintedParsesBack(w: Wording, text: string, installedBy: string)
    ensures Parse(Write(w, Parse(text), installedBy)) == Parse(text) <==> Parse(Header(w, installedBy)) == []
  {
    var rows := Parse(text);
    ParsedIsClean(SplitLines(text));
    ParseJoined(Header(w, installedBy), Body(rows));
    BodyParsesBack(rows);
    if Parse(Header(w, installedBy)) + rows == rows {
      assert |Parse(Header(w, installedBy)) + rows| == |Parse(Header(w, installedBy))| + |rows|;
    }
  }

  lemma {:induction false} UnbrokenJoin(a: string, b: string)
    requires Unbroken(a) && Unbroken(b)
    ensures Unbroken(a + b)
  {
  }

  predicate Comment(line: string) {
    Unbroken(line) && IsComment(line)
  }

  /** A wording whose three lines are comments whatever the installer's name, as long as that stays on its line. */
  ghost predicate Commented(w: Wording) {
    && Comment(w.first) && Comment(w.last)
    && Unbroken(w.credit) && Unbroken(w.rewrites) && (forall name :: IsComment(w.credit + name))
  }

  lemma {:induction false} WordingIsCommented()
    ensures Commented(WORDING)
  {
    FirstLine();
    MiddleLine();
    LastLine();
  }

  lemma {:induction false} FirstLine()
    ensures Comment(WORDING.first)
  {
    assert HTTP_ONLY[1] == 'H' && WORDING.first[0] == '#' && WORDING.first[1] == ' ';
  }

  lemma {:induction false} MiddleLine()
    ensures Unbroken(WORDING.credit) && Unbroken(WORDING.rewrites) && forall name :: IsComment(WORDING.credit + name)
  {
    assert WORDING.credit[0] == '#' && WORDING.credit[1] == ' ';
    forall name ensures IsComment(WORDING.credit + name) {
      StartsAComment(WORDING.credit, name);
    }
  }

  lemma {:induction false} StartsAComment(start: string, rest: string)
    requires |start| >= 2 && start[0] == '#' && start[1] == ' '
    ensures IsComment(start + rest)
  {
    assert HTTP_ONLY[1] == 'H' && (start + rest)[0] == '#' && (start + rest)[1] == ' ';
  }

  lemma {:induction false} LastLine()
    ensures Comment(WORDING.last)
  {
    assert HTTP_ONLY[1] == 'H' && WORDING.last[0] == '#' && WORDING.last[1] == ' ';
    UnbrokenJoin("# file as cookies rotate, ", "so it must stay writable ");
    UnbrokenJoin("# file as cookies rotate, " + "so it must stay writable ", "by the receiver service.");
  }

  // Every header line by itself.
  lemma {:induction false} HeaderParses(w: Wording, name: string, more: string)
    requires Commented(w) && Unbroken(name) && Closed(more)
    ensures Parse(w.first + "\n") == [] && Parse(w.last + "\n") == [] && Parse(w.credit + name + "\n") == []
    ensures Parse((w.first + "\n") + (more + (w.last + "\n"))) == Parse(more)
  {
    ParseLine(w.first);
    ParseLine(w.last);
    UnbrokenJoin(w.credit, name);
    ParseLine(w.credit + name);
    ParseJoined(w.first + "\n", more + (w.last + "\n"));
    ParseJoined(more, w.last + "\n");
    assert [] + Parse(more + (w.last + "\n")) == Parse(more + (w.last + "\n"));
    assert Parse(more) + [] == Parse(more);
  }

  /** An installer's name without a line break keeps the header a comment. */
  lemma {:induction false} UnbrokenNameIsSafe(w: Wording, installedBy: string)
    requires Commented(w) && Unbroken(installedBy)
    ensures Parse(Header(w, installedBy)) == []
  {
    UnbrokenJoin(installedBy, w.rewrites);
    var name := installedBy + w.rewrites;
    assert w.credit + installedBy + w.rewrites == w.credit + name;
    HeaderParses(w, name, w.credit + name + "\n");
  }

  /** Every text survives the round trip through a parsed and printed jar. */
  lemma {:induction false} RoundTrip(w: Wording, text: string, installedBy: string)
    requires Commented(w) && Unbroken(installedBy)
    ensures Parse(Write(w, Parse(text), installedBy)) == Parse(text)
  {
    UnbrokenNameIsSafe(w, installedBy);
    PrintedParsesBack(w, text, installedBy);
  }

  /** A name that goes on after a line break puts into the jar whatever row its second line reads as. */
  lemma {:induction false} BrokenNameAddsItsRow(w: Wording, name: string, line: string)
    requires Commented(w) && Unbroken(name) && Unbroken(line)
    ensures Parse(Header(w, name + "\n" + line)) ==
            if RowOf(line + w.rewrites).Some? then [RowOf(line + w.rewrites).value] else []
  {
    UnbrokenJoin(line, w.rewrites);
    var second := line + w.rewrites + "\n";
    var both := (w.credit + name + "\n") + second;
    assert w.credit + (name + "\n" + line) + w.rewrites + "\n" == both;
    HeaderParses(w, name, both);
    ParseJoined(w.credit + name + "\n", second);
    ParseLine(line + w.rewrites);
    assert [] + Parse(second) == Parse(second);
  }

  // A cell and `n` empty ones after it.
  function Cells(n: nat): string {
    if n == 0 then "x" else Cells(n - 1) + "\t"
  }

  lemma {:induction false} CellsHaveTabs(n: nat)
    ensures Unbroken(Cells(n)) && Tabs(Cells(n)) == n && Cells(n) != "" && Cells(n)[0] == 'x'
  {
    if n == 0 {
      assert Cells(0)[1..] == "";
    } else {
      CellsHaveTabs(n - 1);
      assert "\t"[1..] == "" && Tabs("\t") == 1;
      TabsJoin(Cells(n - 1), "\t");
    }
  }

  /** Such a line exists: any with seven columns. */
  lemma {:induction false} BrokenNameExists()
    ensures Unbroken(Cells(6)) && RowOf(Cells(6) + WORDING.rewrites).Some?
  {
    CellsHaveTabs(6);
    RewritesHasNoTabs();
    SevenColumns(Cells(6), WORDING.rewrites);
  }

  lemma {:induction false} SevenColumns(cells: string, tail: string)
    requires Tabs(cells) == 6 && Tabs(tail) == 0 && cells != "" && cells[0] == 'x'
    ensures RowOf(cells + tail).Some?
  {
    var line := cells + tail;
    assert line[0] == 'x' && !IsSpace(line[0]);
    TabsJoin(cells, tail);
    CellsAreTabs(line);
  }

  lemma {:induction false} RewritesHasNoTabs()
    ensures Tabs(WORDING.rewrites) == 0
  {
    NoTabs(WORDING.rewrites);
  }

  function Tabs(line: string): nat
    decreases |line|
  {
    if line == "" then 0 else Tabs(line[1..]) + if line[0] == '\t' then 1 else 0
  }

  lemma {:induction false} TabsJoin(a: string, b: string)
    ensures Tabs(a + b) == Tabs(a) + Tabs(b)
    decreases |a|
  {
    if a == "" {
      assert a + b == b;
    } else {
      assert (a + b)[1..] == a[1..] + b;
      TabsJoin(a[1..], b);
    }
  }

  lemma {:induction false} CellsAreTabs(line: string)
    ensures |SplitTabs(line)| == Tabs(line) + 1
    decreases |line|
  {
    if line != "" {
      CellsAreTabs(line[1..]);
    }
  }

  lemma {:induction false} NoTabs(line: string)
    requires '\t' !in line
    ensures Tabs(line) == 0
    decreases |line|
  {
    if line != "" {
      assert line == [line[0]] + line[1..];
      NoTabs(line[1..]);
    }
  }

  // --- filtering -------------------------------------------------------------------------------

  const KEEP: seq<string> := [".youtube.com", "youtube.com", ".google.com", "google.com"]

  function DomainOf(r: Row): string
    requires r != []
  {
    if HTTP_ONLY <= r[0] then r[0][|HTTP_ONLY|..] else r[0]
  }

  predicate EndsWith(s: string, suffix: string) {
    |s| >= |suffix| && s[|s| - |suffix|..] == suffix
  }

  predicate Kept(r: Row) {
    r != [] && exists i :: 0 <= i < |KEEP| && EndsWith(DomainOf(r), KEEP[i])
  }

  function FilterGoogle(rows: seq<Row>): (kept: seq<Row>)
    ensures forall r :: r in kept <==> r in rows && Kept(r)
  {
    if rows == [] then []
    else
      assert rows == [rows[0]] + rows[1..];
      if Kept(rows[0]) then [rows[0]] + FilterGoogle(rows[1..]) else FilterGoogle(rows[1..])
  }

  lemma {:induction false} FilterAll(rows: seq<Row>)
    requires forall i | 0 <= i < |rows| :: Kept(rows[i])
    ensures FilterGoogle(rows) == rows
  {
    if rows != [] {
      FilterAll(rows[1..]);
      assert rows == [rows[0]] + rows[1..];
    }
  }

  lemma {:induction false} FilterTwice(rows: seq<Row>)
    ensures FilterGoogle(FilterGoogle(rows)) == FilterGoogle(rows)
  {
    var kept := FilterGoogle(rows);
    assert forall i | 0 <= i < |kept| :: kept[i] in kept;
    FilterAll(kept);
  }

  lemma {:induction false} FilterIsClean(rows: seq<Row>)
    requires AllClean(rows)
    ensures AllClean(FilterGoogle(rows))
  {
    var kept := FilterGoogle(rows);
    forall i | 0 <= i < |kept| ensures Clean(kept[i]) {
      assert kept[i] in kept;
      var k :| 0 <= k < |rows| && rows[k] == kept[i];
    }
  }

  /** Filtering commutes with printing and parsing: the jar that is stored parses to the rows that were kept. */
  lemma {:induction false} FilteredRoundTrip(w: Wording, text: string, installedBy: string)
    requires Commented(w) && Unbroken(installedBy)
    ensures Parse(Write(w, FilterGoogle(Parse(text)), installedBy)) == FilterGoogle(Parse(text))
    ensures FilterGoogle(Parse(Write(w, Parse(text), installedBy))) == FilterGoogle(Parse(text))
  {
    RoundTrip(w, text, installedBy);
    UnbrokenNameIsSafe(w, installedBy);
    ParsedIsClean(SplitLines(text));
    FilterIsClean(Parse(text));
    var kept := FilterGoogle(Parse(text));
    BodyParsesBack(kept);
    ParseJoined(Header(w, installedBy), Body(kept));
    assert [] + kept == kept;
  }

  // --- the verdict -----------------------------------------------------------------------------

  const SID_FAMILY: seq<string> := ["__Secure-1PSID", "__Secure-3PSID", "SID"]
  const APISID_FAMILY: seq<string> := ["SAPISID", "__Secure-1PAPISID", "__Secure-3PAPISID", "APISID"]
  const OTHER_LOGIN: seq<string> := ["HSID", "SSID", "LOGIN_INFO"]
  const ROTATING: seq<string> := ["__Secure-1PSIDTS", "__Secure-3PSIDTS", "__Secure-1PSIDCC", "__Secure-3PSIDCC"]
  const ANONYMOUS: seq<string> := [
    "VISITOR_INFO1_LIVE", "VISITOR_PRIVACY_METADATA", "YSC", "PREF", "GPS", "CONSENT", "SOCS", "NID", "DEVICE_INFO",
    "__Secure-YEC", "wide"]

  datatype Code = Empty | Anonymous | SignedOut | NoSidFamily | NoApisidFamily | Ok

  /** `soonest` is the earliest expiry among the durable login cookies of a good jar. */
  datatype Verdict = Verdict(code: Code, count: nat, login: seq<string>, rotating: seq<string>, soonest: Option<int>)

  // The row a cookie name stands for: the last one.
  function ByName(rows: seq<Row>, name: string): Option<Row> {
    if rows == [] then None
    else
      var last := rows[|rows| - 1];
      if |last| == 7 && last[5] == name then Some(last) else ByName(rows[..|rows| - 1], name)
  }

  predicate Has(rows: seq<Row>, name: string) {
    ByName(rows, name).Some?
  }

  function Present(rows: seq<Row>, names: seq<string>): (r: seq<string>)
    ensures forall n :: n in r <==> n in names && Has(rows, n)
  {
    if names == [] then []
    else
      assert names == [names[0]] + names[1..];
      if Has(rows, names[0]) then [names[0]] + Present(rows, names[1..]) else Present(rows, names[1..])
  }

  predicate AnyOf(rows: seq<Row>, names: seq<string>) {
    exists i :: 0 <= i < |names| && Has(rows, names[i])
  }

  predicate OnlyAnonymous(rows: seq<Row>) {
    rows != [] && forall i | 0 <= i < |rows| :: |rows[i]| == 7 && rows[i][5] in ANONYMOUS
  }

  // `epoch` reads an expiry column; none for one that cannot be read.
  function Soonest(rows: seq<Row>, names: seq<string>, epoch: string -> Option<int>): (r: Option<int>)
  {
    if names == [] then None
    else
      var rest := Soonest(rows, names[1..], epoch);
      var row := ByName(rows, names[0]);
      if row.None? || |row.value| != 7 then rest
      else
        var e := epoch(row.value[4]);
        if e.None? || e.value <= 0 then rest
        else if rest.Some? && rest.value <= e.value then rest else e
  }

  function Analyse(rows: seq<Row>, epoch: string -> Option<int>): Verdict {
    var login := Present(rows, SID_FAMILY + APISID_FAMILY + OTHER_LOGIN);
    var code :=
      if rows == [] then Empty
      else if login == [] then (if OnlyAnonymous(rows) then Anonymous else SignedOut)
      else if !AnyOf(rows, SID_FAMILY) then NoSidFamily
      else if !AnyOf(rows, APISID_FAMILY) then NoApisidFamily
      else Ok;
    Verdict(code, |rows|, login, Present(rows, ROTATING), if code == Ok then Soonest(rows, login, epoch) else None)
  }

  function AnalyseText(text: string, epoch: string -> Option<int>): Verdict {
    Analyse(FilterGoogle(Parse(text)), epoch)
  }

  lemma {:induction false} HasMeans(rows: seq<Row>, name: string)
    ensures Has(rows, name) <==> exists i :: 0 <= i < |rows| && |rows[i]| == 7 && rows[i][5] == name
    decreases |rows|
  {
    if rows != [] {
      var front := rows[..|rows| - 1];
      HasMeans(front, name);
      if Has(front, name) {
        var i :| 0 <= i < |front| && |front[i]| == 7 && front[i][5] == name;
        assert |rows[i]| == 7 && rows[i][5] == name;
      }
      if exists i :: 0 <= i < |rows| && |rows[i]| == 7 && rows[i][5] == name {
        var i :| 0 <= i < |rows| && |rows[i]| == 7 && rows[i][5] == name;
        if i < |front| {
          assert |front[i]| == 7 && front[i][5] == name;
        }
      }
    }
  }

  ghost predicate Holds(rows: seq<Row>, family: seq<string>) {
    exists i :: 0 <= i < |rows| && |rows[i]| == 7 && rows[i][5] in family
  }

  lemma {:induction false} AnyOfMeans(rows: seq<Row>, family: seq<string>)
    ensures AnyOf(rows, family) <==> Holds(rows, family)
  {
    if AnyOf(rows, family) {
      var k :| 0 <= k < |family| && Has(rows, family[k]);
      HasMeans(rows, family[k]);
      var i :| 0 <= i < |rows| && |rows[i]| == 7 && rows[i][5] == family[k];
      assert rows[i][5] in family;
    }
    if Holds(rows, family) {
      var i :| 0 <= i < |rows| && |rows[i]| == 7 && rows[i][5] in family;
      HasMeans(rows, rows[i][5]);
      var k :| 0 <= k < |family| && family[k] == rows[i][5];
      assert Has(rows, family[k]);
    }
  }

  lemma {:induction false} AnonymousIsNoLogin(rows: seq<Row>)
    requires OnlyAnonymous(rows)
    ensures !Holds(rows, SID_FAMILY) && !Holds(rows, APISID_FAMILY) && !Holds(rows, OTHER_LOGIN)
  {
    NamesDiffer();
  }

  lemma {:induction false} NamesDiffer()
    ensures forall n | n in ANONYMOUS :: n !in SID_FAMILY && n !in APISID_FAMILY && n !in OTHER_LOGIN
  {
  }

  /** The jar is good exactly when it holds a cookie of both halves of the login; each refusal says which half is
      missing, or that nothing of the login is there. */
  lemma {:induction false} VerdictMeaning(rows: seq<Row>, epoch: string -> Option<int>)
    ensures var v := Analyse(rows, epoch);
            && (v.code == Ok <==> Holds(rows, SID_FAMILY) && Holds(rows, APISID_FAMILY))
            && (v.code == Empty <==> rows == [])
            && (v.code == NoApisidFamily <==> Holds(rows, SID_FAMILY) && !Holds(rows, APISID_FAMILY))
            && (v.code == NoSidFamily <==>
                  !Holds(rows, SID_FAMILY) && (Holds(rows, APISID_FAMILY) || Holds(rows, OTHER_LOGIN)))
            && (v.code == Anonymous <==> OnlyAnonymous(rows))
            && (v.code == SignedOut <==>
                  && rows != [] && !OnlyAnonymous(rows)
                  && !Holds(rows, SID_FAMILY) && !Holds(rows, APISID_FAMILY) && !Holds(rows, OTHER_LOGIN))
  {
    if OnlyAnonymous(rows) {
      AnonymousIsNoLogin(rows);
    }
    AnyOfMeans(rows, SID_FAMILY);
    AnyOfMeans(rows, APISID_FAMILY);
    AnyOfMeans(rows, OTHER_LOGIN);
    LoginMeans(rows);
  }

  lemma {:induction false} LoginMeans(rows: seq<Row>)
    ensures Present(rows, SID_FAMILY + APISID_FAMILY + OTHER_LOGIN) != [] <==>
            AnyOf(rows, SID_FAMILY) || AnyOf(rows, APISID_FAMILY) || AnyOf(rows, OTHER_LOGIN)
  {
    var all := SID_FAMILY + APISID_FAMILY + OTHER_LOGIN;
    var login := Present(rows, all);
    if login != [] {
      var n := login[0];
      assert n in login;
      if n in SID_FAMILY {
        var i :| 0 <= i < |SID_FAMILY| && SID_FAMILY[i] == n;
        assert Has(rows, SID_FAMILY[i]);
      } else if n in APISID_FAMILY {
        var i :| 0 <= i < |APISID_FAMILY| && APISID_FAMILY[i] == n;
        assert Has(rows, APISID_FAMILY[i]);
      } else {
        var i :| 0 <= i < |OTHER_LOGIN| && OTHER_LOGIN[i] == n;
        assert Has(rows, OTHER_LOGIN[i]);
      }
    }
  }

  /** The verdict on the jar as it is stored is the verdict on the text that was handed in. */
  lemma {:induction false} StoredVerdict(w: Wording, text: string, installedBy: string, epoch: string -> Option<int>)
    requires Commented(w) && Unbroken(installedBy)
    ensures AnalyseText(Write(w, FilterGoogle(Parse(text)), installedBy), epoch) == AnalyseText(text, epoch)
  {
    FilteredRoundTrip(w, text, installedBy);
    FilterTwice(Parse(text));
  }
}
