/** The agent's own log read back (src/logging/agentlog.go): one pass over all
    rotations, refining "attach, filter, take the last ones, cut to size". */
module AgentLog {
  import opened Wrappers
  import opened Texts
  import opened LogLines
  import LogQuery

  const DEFAULT_AGENT_LOG_LINES: nat := 300
  const MAX_AGENT_LOG_LINES: nat := 5000
  const DEFAULT_LEVEL_RANK: nat := 2

  type Time = int

  /** A record as its JSON decoder delivers it, with the instant and its rendering
      when the time text can be read. */
  datatype Record = Record(level: string, time: string, message: string, error: string, stamp: Option<(Time, string)>)

  /** One scanned line, and the record in it if it is JSON. */
  datatype Line = Line(raw: string, record: Option<Record>)

  /** A line with the stamp and severity it counts under. */
  datatype Item = Item(text: string, stamp: Option<Time>, rank: nat)

  datatype Query = Query(tail: LogQuery.Unsigned, since: Option<Time>, until: Option<Time>, minLevel: string)

  datatype Result = Result(lines: seq<string>, truncated: bool, oldest: Option<Time>, filesScanned: nat)

  function LevelRank(level: string): nat {
    match level
    case "trace" => 0
    case "debug" => 1
    case "info" => 2
    case "warn" => 3
    case "error" => 4
    case "fatal" => 5
    case "panic" => 6
    case _ => DEFAULT_LEVEL_RANK
  }

  /** A record without time, level and message is not one of the agent's. */
  predicate Parsed(line: Line) {
    line.record.Some? && var r := line.record.value; !(r.time == "" && r.level == "" && r.message == "")
  }

  function Rendered(r: Record): string {
    (if r.stamp.Some? then r.stamp.value.1 + " " else "")
    + (if r.level != "" then Upper(Lower(r.level)) + " " else "")
    + r.message
    + (if r.error != "" then ": " + r.error else "")
  }

  function RenderLine(line: Line): string {
    if Parsed(line) then Rendered(line.record.value) else line.raw
  }

  /** The words of a rendered record: the instant and the level in capitals, where
      there are any, then the message with its error. */
  function Words(r: Record): seq<string> {
    (if r.stamp.None? then [] else [r.stamp.value.1])
    + (if r.level == "" then [] else [Upper(Lower(r.level))])
    + [if r.error == "" then r.message else r.message + ": " + r.error]
  }

  /** A record with a time, a level or a message is rendered as its words with single
      spaces between; any other line as it stands. */
  lemma RenderedIsItsWords(line: Line)
    ensures var r := line.record;
            if r.Some? && (r.value.time != "" || r.value.level != "" || r.value.message != "")
            then RenderLine(line) == Join(Words(r.value), " ")
            else RenderLine(line) == line.raw
  {
    if Parsed(line) {
      var r := line.record.value;
      var stamp, level := if r.stamp.Some? then r.stamp.value.1 else "", Upper(Lower(r.level));
      var message := if r.error == "" then r.message else r.message + ": " + r.error;
      JoinWords(stamp, level, message);
      assert Rendered(r) == (if r.stamp.Some? then stamp + " " else "")
                            + (if r.level != "" then level + " " else "") + message;
    }
  }

  lemma JoinWords(a: string, b: string, c: string)
    ensures Join([c], " ") == c
    ensures Join([a] + [c], " ") == a + " " + c && Join([] + [b] + [c], " ") == b + " " + c
    ensures Join([a] + [b] + [c], " ") == a + " " + b + " " + c
  {
    assert ([a] + [c])[1..] == [c] && ([] + [b] + [c])[1..] == [c];
    assert ([a] + [b] + [c])[1..] == [b, c] && [b, c][1..] == [c];
  }

  /** The severities in order; a level that is none of them counts as info. */
  lemma LevelsAreOrdered(level: string)
    ensures LevelRank("trace") < LevelRank("debug") < LevelRank("info") < LevelRank("warn")
            < LevelRank("error") < LevelRank("fatal") < LevelRank("panic")
    ensures level !in ["trace", "debug", "info", "warn", "error", "fatal", "panic"] ==>
              LevelRank(level) == LevelRank("info")
  {
  }

  function OwnStamp(line: Line): Option<Time>
    requires Parsed(line)
  {
    var stamp := line.record.value.stamp;
    if stamp.Some? then Some(stamp.value.0) else None
  }

  function OwnRank(line: Line): nat
    requires Parsed(line)
  {
    LevelRank(Lower(line.record.value.level))
  }

  // ---------------------------------------------------------------------
  // What the reader is for
  // ---------------------------------------------------------------------

  /** The lines of every file that could be opened, blank ones left out. */
  function NonBlank(lines: seq<Line>): seq<Line> {
    if lines == [] then []
    else
      var before, last := NonBlank(lines[..|lines| - 1]), lines[|lines| - 1];
      if Blank(last.raw) then before else before + [last]
  }

  function AllLines(files: seq<Option<seq<Line>>>): seq<Line> {
    if files == [] then []
    else
      var before, last := AllLines(files[..|files| - 1]), files[|files| - 1];
      if last.Some? then before + NonBlank(last.value) else before
  }

  /** The nearest line at or before position `i` that is a record; none is -1. */
  function Nearest(lines: seq<Line>, i: int): (k: int)
    requires -1 <= i < |lines|
    ensures -1 <= k <= i && (k >= 0 ==> Parsed(lines[k]))
    ensures forall j :: k < j <= i ==> !Parsed(lines[j])
    decreases i + 1
  {
    if i < 0 || Parsed(lines[i]) then i else Nearest(lines, i - 1)
  }

  /** A line that is no record of its own counts under the record it follows. */
  function Annotation(lines: seq<Line>, i: nat): Item
    requires i < |lines|
  {
    var k := Nearest(lines, i);
    if k < 0 then Item(RenderLine(lines[i]), None, DEFAULT_LEVEL_RANK)
    else Item(RenderLine(lines[i]), OwnStamp(lines[k]), OwnRank(lines[k]))
  }

  function Annotated(lines: seq<Line>): (items: seq<Item>)
    ensures |items| == |lines|
    ensures forall i :: 0 <= i < |items| ==> items[i] == Annotation(lines, i)
  {
    seq(|lines|, i requires 0 <= i < |lines| => Annotation(lines, i))
  }

  predicate Wanted(item: Item, minRank: nat, query: Query) {
    && item.rank >= minRank
    && (query.since.Some? && item.stamp.Some? ==> item.stamp.value >= query.since.value)
    && (query.until.Some? && item.stamp.Some? ==> item.stamp.value <= query.until.value)
  }

  function Matching(items: seq<Item>, minRank: nat, query: Query): seq<string> {
    if items == [] then []
    else
      var before, last := Matching(items[..|items| - 1], minRank, query), items[|items| - 1];
      if Wanted(last, minRank, query) then before + [last.text] else before
  }

  function FirstStamp(items: seq<Item>): Option<Time> {
    if items == [] then None
    else if items[0].stamp.Some? then items[0].stamp
    else FirstStamp(items[1..])
  }

  function Opened(files: seq<Option<seq<Line>>>): nat {
    if files == [] then 0 else Opened(files[..|files| - 1]) + (if files[|files| - 1].Some? then 1 else 0)
  }

  function Tail(query: Query): (tail: nat)
    ensures 0 < tail <= MAX_AGENT_LOG_LINES
  {
    if query.tail == 0 then DEFAULT_AGENT_LOG_LINES
    else if query.tail > MAX_AGENT_LOG_LINES then MAX_AGENT_LOG_LINES
    else query.tail
  }

  /** Blank lines are left out, and nothing else; a file that does not open is passed
      over. */
  lemma OneLineOneFile(line: Line, lines: seq<Line>)
    ensures NonBlank([line]) == if Blank(line.raw) then [] else [line]
    ensures AllLines([Some(lines)]) == NonBlank(lines) && Opened([Some(lines)]) == 1
    ensures AllLines([None]) == [] && Opened([None]) == 0
  {
    var unopened: seq<Option<seq<Line>>> := [None];
    assert [line][..0] == [] && [Some(lines)][..0] == [] && unopened[..0] == [];
  }

  /** Both go line by line and file by file. */
  lemma {:induction false} LinesGoInOrder(a: seq<Line>, b: seq<Line>)
    ensures NonBlank(a + b) == NonBlank(a) + NonBlank(b)
  {
    if b == [] {
      assert a + b == a;
    } else {
      LinesGoInOrder(a, b[..|b| - 1]);
      assert (a + b)[..|a + b| - 1] == a + b[..|b| - 1];
    }
  }

  lemma {:induction false} FilesGoInOrder(a: seq<Option<seq<Line>>>, b: seq<Option<seq<Line>>>)
    ensures AllLines(a + b) == AllLines(a) + AllLines(b) && Opened(a + b) == Opened(a) + Opened(b)
  {
    if b == [] {
      assert a + b == a;
    } else {
      FilesGoInOrder(a, b[..|b| - 1]);
      assert (a + b)[..|a + b| - 1] == a + b[..|b| - 1];
    }
  }

  /** A line is wanted if it is severe enough and, where it has a stamp and the query a
      bound, not before `since` and not after `until`. */
  lemma WantedMeans(item: Item, minRank: nat, query: Query)
    ensures Wanted(item, minRank, query)
            <==> && item.rank >= minRank
                 && !(query.since.Some? && item.stamp.Some? && item.stamp.value < query.since.value)
                 && !(query.until.Some? && item.stamp.Some? && query.until.value < item.stamp.value)
  {
  }

  /** The oldest stamp is that of the first line that has one. */
  lemma {:induction false} FirstStampIsFirst(items: seq<Item>)
    ensures match FirstStamp(items)
            case None => forall i :: 0 <= i < |items| ==> items[i].stamp.None?
            case Some(stamp) =>
              exists i :: 0 <= i < |items| && items[i].stamp == Some(stamp)
                          && forall j :: 0 <= j < i ==> items[j].stamp.None?
  {
    if items != [] && items[0].stamp.None? {
      FirstStampIsFirst(items[1..]);
      if FirstStamp(items).Some? {
        var i :| 0 <= i < |items| - 1 && items[1..][i].stamp == FirstStamp(items)
                 && forall j :: 0 <= j < i ==> items[1..][j].stamp.None?;
        assert forall j :: 1 <= j < i + 1 ==> items[j] == items[1..][j - 1];
        assert items[i + 1].stamp == FirstStamp(items);
      } else {
        assert forall j :: 1 <= j < |items| ==> items[j] == items[1..][j - 1];
      }
    }
  }

  // ---------------------------------------------------------------------
  // One more line
  // ---------------------------------------------------------------------

  lemma {:induction false} NearestOfPrefix(lines: seq<Line>, more: seq<Line>, i: int)
    requires -1 <= i < |lines|
    ensures Nearest(lines + more, i) == Nearest(lines, i)
    decreases i + 1
  {
    if i >= 0 && !Parsed(lines[i]) { NearestOfPrefix(lines, more, i - 1); }
  }

  lemma AnnotatedAppend(lines: seq<Line>, line: Line)
    ensures Annotated(lines + [line]) == Annotated(lines) + [Annotation(lines + [line], |lines|)]
  {
    var longer := lines + [line];
    forall i | 0 <= i < |lines| ensures Annotation(longer, i) == Annotation(lines, i) {
      NearestOfPrefix(lines, [line], i);
    }
  }

  lemma MatchingAppend(items: seq<Item>, item: Item, minRank: nat, query: Query)
    ensures Matching(items + [item], minRank, query)
         == Matching(items, minRank, query) + (if Wanted(item, minRank, query) then [item.text] else [])
  {
    assert (items + [item])[..|items|] == items;
  }

  lemma {:induction false} FirstStampAppend(items: seq<Item>, item: Item)
    ensures FirstStamp(items + [item]) == if FirstStamp(items).Some? then FirstStamp(items) else item.stamp
  {
    if items == [] {
      assert items + [item] == [item];
    } else {
      assert (items + [item])[1..] == items[1..] + [item];
      FirstStampAppend(items[1..], item);
    }
  }

  /** The stamp and severity carried after some lines. */
  function Carried(lines: seq<Line>): (Option<Time>, nat) {
    var k := Nearest(lines, |lines| - 1);
    if k < 0 then (None, DEFAULT_LEVEL_RANK) else (OwnStamp(lines[k]), OwnRank(lines[k]))
  }

  lemma CarriedAppend(lines: seq<Line>, line: Line)
    ensures Carried(lines + [line]) == if Parsed(line) then (OwnStamp(line), OwnRank(line)) else Carried(lines)
    ensures var (stamp, rank) := Carried(lines + [line]);
            Annotation(lines + [line], |lines|) == Item(RenderLine(line), stamp, rank)
  {
    NearestOfPrefix(lines, [line], |lines| - 1);
  }

  /** The loop's variables after the lines `seen`. */
  datatype Scan = Scan(kept: seq<string>, truncated: bool, oldest: Option<Time>, stamp: Option<Time>, rank: nat)

  function Scanned(seen: seq<Line>, minRank: nat, query: Query): Scan {
    var items := Annotated(seen);
    var matching := Matching(items, minRank, query);
    Scan(LastOf(matching, Tail(query)), |matching| > Tail(query), FirstStamp(items), Carried(seen).0, Carried(seen).1)
  }

  /** What one more line does to the specification. */
  lemma ScannedAppend(seen: seq<Line>, line: Line, minRank: nat, query: Query)
    ensures var scan, text := Scanned(seen, minRank, query), RenderLine(line);
            var stamp := if Parsed(line) then OwnStamp(line) else scan.stamp;
            var rank := if Parsed(line) then OwnRank(line) else scan.rank;
            var oldest := if scan.oldest.Some? then scan.oldest else stamp;
            var full := |scan.kept| == Tail(query);
            Scanned(seen + [line], minRank, query) ==
            if Wanted(Item(text, stamp, rank), minRank, query)
            then Scan((if full then scan.kept[1..] else scan.kept) + [text], scan.truncated || full,
                      oldest, stamp, rank)
            else Scan(scan.kept, scan.truncated, oldest, stamp, rank)
  {
    var item := Annotation(seen + [line], |seen|);
    AnnotatedAppend(seen, line);
    CarriedAppend(seen, line);
    FirstStampAppend(Annotated(seen), item);
    MatchingAppend(Annotated(seen), item, minRank, query);
    SlideWindow(Matching(Annotated(seen), minRank, query), RenderLine(line), Tail(query));
  }

  /** The body of the inner loop for one line that is not blank. */
  method ScanLine(line: Line, scan: Scan, minRank: nat, query: Query, ghost seen: seq<Line>) returns (after: Scan)
    requires scan == Scanned(seen, minRank, query)
    ensures after == Scanned(seen + [line], minRank, query)
  {
    ScannedAppend(seen, line, minRank, query);
    after := scan;
    if Parsed(line) {
      after := after.(stamp := OwnStamp(line), rank := OwnRank(line));
    }
    var stamp := after.stamp;
    if stamp.Some? && after.oldest.None? {
      after := after.(oldest := stamp);
    }
    if after.rank < minRank {
      return;
    }
    if query.since.Some? && stamp.Some? && stamp.value < query.since.value {
      return;
    }
    if query.until.Some? && stamp.Some? && stamp.value > query.until.value {
      return;
    }
    if |after.kept| == Tail(query) {
      after := after.(kept := after.kept[1..], truncated := true);
    }
    after := after.(kept := after.kept + [RenderLine(line)]);
  }

  lemma SlideWindow(matching: seq<string>, text: string, tail: nat)
    requires tail > 0
    ensures LastOf(matching + [text], tail)
         == (if |LastOf(matching, tail)| == tail then LastOf(matching, tail)[1..] else LastOf(matching, tail)) + [text]
    ensures |matching + [text]| > tail <==> |matching| > tail || |LastOf(matching, tail)| == tail
  {
  }

  lemma OneMore<T>(s: seq<T>, i: nat)
    requires i < |s|
    ensures s[..i + 1][..|s[..i + 1]| - 1] == s[..i] && s[..i + 1][|s[..i + 1]| - 1] == s[i]
  {
  }

  /** Reading one file through. */
  method ScanFile(lines: seq<Line>, scan: Scan, minRank: nat, query: Query, ghost seen: seq<Line>) returns (after: Scan)
    requires scan == Scanned(seen, minRank, query)
    ensures after == Scanned(seen + NonBlank(lines), minRank, query)
  {
    after := scan;
    assert seen + NonBlank(lines[..0]) == seen;
    for i := 0 to |lines|
      invariant after == Scanned(seen + NonBlank(lines[..i]), minRank, query)
    {
      OneMore(lines, i);
      if Blank(lines[i].raw) {
        continue;
      }
      ghost var here := seen + NonBlank(lines[..i]);
      after := ScanLine(lines[i], after, minRank, query, here);
      assert seen + NonBlank(lines[..i + 1]) == here + [lines[i]];
    }
    assert lines[..|lines|] == lines;
  }

  /** The one-pass reader computes its specification: every line that is not
      blank, of every file that opened, counts under the record it follows; the
      wanted ones are filtered, the last `tail` taken, and of these the longest
      suffix within the byte limit. `truncated` tells exactly that one of the two
      cuts took a line, `oldest` is the first stamp on disk. */
  method QueryAgentLog(files: seq<Option<seq<Line>>>, query: Query) returns (result: Result)
    ensures var items := Annotated(AllLines(files));
            var matching := Matching(items, LevelRank(Lower(Trim(query.minLevel))), query);
            var newest := LastOf(matching, Tail(query));
            && result.lines == newest[Trimmed(newest, LogQuery.MAX_QUERY_BYTES)..]
            && LongestSuffix(newest, LogQuery.MAX_QUERY_BYTES, |newest| - |result.lines|)
            && (result.truncated <==> |result.lines| < |matching|)
            && result.oldest == FirstStamp(items)
            && result.filesScanned == Opened(files)
  {
    var minRank := LevelRank(Lower(Trim(query.minLevel)));
    var scan := Scan([], false, None, None, DEFAULT_LEVEL_RANK);
    var scanned := 0;
    for i := 0 to |files|
      invariant scan == Scanned(AllLines(files[..i]), minRank, query)
      invariant scanned == Opened(files[..i])
    {
      OneMore(files, i);
      if files[i].None? {
        continue;
      }
      scanned := scanned + 1;
      scan := ScanFile(files[i].value, scan, minRank, query, AllLines(files[..i]));
    }
    assert files[..|files|] == files;
    TrimmedIsLongest(scan.kept, LogQuery.MAX_QUERY_BYTES);
    var lines, trimmed := TrimToBytes(scan.kept, LogQuery.MAX_QUERY_BYTES);
    return Result(lines, scan.truncated || trimmed, scan.oldest, scanned);
  }
}
