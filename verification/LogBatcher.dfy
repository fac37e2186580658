/** The log batcher (src/logging/applog.go): a bounded buffer of log lines that
    one goroutine empties on a timer into rate-limited messages. One character
    stands for one byte. */
module LogBatcher {
  import opened Wrappers
  import opened Texts
  import opened LogLines

  const MAX_FLUSH_BYTES: nat := 256 * 1024
  const MAX_BUFFER_BYTES: nat := 1024 * 1024

  /** What a flush takes out of the buffer under the lock. */
  datatype Batch = Batch(lines: seq<string>, dropped: nat)

  /** What a flush made of a batch: the lines it kept, the drops it reports. */
  datatype Flush = Flush(kept: seq<string>, reported: nat)

  /** `taken` is the batch of a flush that has left the lock and not published
      yet; lines may be added meanwhile. */
  datatype State = State(
    lines: seq<string>, bytes: nat, dropped: nat,
    taken: Option<Batch>, flushes: seq<Flush>, published: seq<string>)

  datatype Op = Add(line: string) | Take | Publish

  const EMPTY := State([], 0, 0, None, [], [])

  // ---------------------------------------------------------------------
  // One flush
  // ---------------------------------------------------------------------

  /** How many of the lines fit one flush: give up the newest until they do. */
  function Fitting(lines: seq<string>): (k: nat)
    ensures k <= |lines|
  {
    if Size(lines) <= MAX_FLUSH_BYTES then |lines| else Fitting(lines[..|lines| - 1])
  }

  lemma {:induction false} FittingIsLongest(lines: seq<string>)
    ensures LongestPrefix(lines, MAX_FLUSH_BYTES, Fitting(lines))
  {
    var k, n := Fitting(lines), |lines|;
    assert lines[..n] == lines;
    if k < n {
      var fewer := lines[..n - 1];
      FittingIsLongest(fewer);
      assert forall j: nat :: j <= n - 1 ==> fewer[..j] == lines[..j];
      assert Size(fewer[..k]) <= MAX_FLUSH_BYTES;
      if k + 1 < n { assert Size(fewer[..k + 1]) > MAX_FLUSH_BYTES; }
    }
    PrefixCut(lines, MAX_FLUSH_BYTES, k);
  }

  function Cut(batch: Batch): Flush {
    var k := Fitting(batch.lines);
    Flush(batch.lines[..k], batch.dropped + |batch.lines| - k)
  }

  function Marker(dropped: nat): string {
    "\U{2026} " + Format(dropped) + " log line(s) dropped (rate limit)"
  }

  function SkipEmpty(lines: seq<string>): (rest: seq<string>)
    ensures rest != [] ==> rest[0] != ""
    ensures |rest| <= |lines| && rest == lines[|lines| - |rest|..]
    ensures forall i :: 0 <= i < |lines| - |rest| ==> lines[i] == ""
  {
    if lines != [] && lines[0] == "" then SkipEmpty(lines[1..]) else lines
  }

  /** The lines as the flush loop writes them. */
  function Text(lines: seq<string>): string {
    Join(SkipEmpty(lines), "\n")
  }

  function Shown(flush: Flush): seq<string> {
    SkipEmpty(flush.kept) + (if flush.reported > 0 then [Marker(flush.reported)] else [])
  }

  /** A message ends in a marker exactly when lines were dropped, and the marker tells
      how many. */
  lemma MarkerTellsTheDrops(flush: Flush, other: nat)
    ensures flush.reported == 0 ==> Shown(flush) == SkipEmpty(flush.kept)
    ensures flush.reported > 0 ==> Shown(flush) == SkipEmpty(flush.kept) + [Marker(flush.reported)]
    ensures Marker(flush.reported) == Marker(other) ==> flush.reported == other
  {
    FormatReadsBack(flush.reported);
    FormatReadsBack(other);
    if Marker(flush.reported) == Marker(other) {
      var n, m := |Format(flush.reported)|, |Format(other)|;
      assert n == m;
      assert Marker(flush.reported)[2..2 + n] == Format(flush.reported) && Marker(other)[2..2 + m] == Format(other);
    }
  }

  function Message(flush: Flush): string {
    Join(Shown(flush), "\n")
  }

  lemma {:induction false} JoinSize(lines: seq<string>)
    ensures lines != [] ==> |Join(lines, "\n")| + 1 == Size(lines)
  {
    if |lines| > 1 {
      JoinSize(lines[1..]);
    } else if |lines| == 1 {
      assert lines[1..] == [];
    }
  }

  lemma {:induction false} JoinAppend(lines: seq<string>, line: string)
    ensures Join(lines + [line], "\n") == if lines == [] then line else Join(lines, "\n") + "\n" + line
  {
    if lines == [] {
      assert lines + [line] == [line];
    } else {
      var rest := lines[1..];
      JoinAppend(rest, line);
      assert (lines + [line])[1..] == rest + [line];
      if |lines| == 1 {
        assert rest == [];
      } else {
        assert lines[0] + "\n" + (Join(rest, "\n") + "\n" + line) == lines[0] + "\n" + Join(rest, "\n") + "\n" + line;
      }
    }
  }

  lemma {:induction false} SkipEmptyAppend(lines: seq<string>, line: string)
    ensures SkipEmpty(lines + [line]) == if SkipEmpty(lines) == [] && line == "" then [] else SkipEmpty(lines) + [line]
  {
    if lines == [] {
      assert lines + [line] == [line];
      assert [line][1..] == [];
    } else if lines[0] == "" {
      assert (lines + [line])[1..] == lines[1..] + [line];
      SkipEmptyAppend(lines[1..], line);
    }
  }

  lemma TextOfLinesIsNotEmpty(lines: seq<string>)
    requires lines != [] && lines[0] != ""
    ensures Join(lines, "\n") != ""
  {
    JoinSize(lines);
    SizeSplit(lines, 1);
    assert lines[..1] == [lines[0]];
  }

  /** The text is empty exactly when there is nothing to show. */
  lemma TextIsEmptyIffNothingShown(lines: seq<string>)
    ensures Text(lines) == "" <==> SkipEmpty(lines) == []
  {
    if SkipEmpty(lines) != [] { TextOfLinesIsNotEmpty(SkipEmpty(lines)); }
  }

  /** One turn of the flush loop, and likewise the marker: a newline first
      unless the text is still empty. */
  lemma AppendToText(lines: seq<string>, line: string)
    ensures Text(lines + [line]) == if Text(lines) == "" then line else Text(lines) + "\n" + line
  {
    TextIsEmptyIffNothingShown(lines);
    SkipEmptyAppend(lines, line);
    JoinAppend(SkipEmpty(lines), line);
  }

  /** A message stays within the flush limit but for its marker. */
  lemma MessageIsBounded(batch: Batch)
    ensures |Text(Cut(batch).kept)| <= MAX_FLUSH_BYTES
  {
    FittingIsLongest(batch.lines);
    var kept := Cut(batch).kept;
    var shown := SkipEmpty(kept);
    assert Size(batch.lines[..Fitting(batch.lines)]) <= MAX_FLUSH_BYTES;
    SizeSplit(kept, |kept| - |shown|);
    JoinSize(shown);
  }

  /** What the browser gets back by splitting a message on newlines: the kept
      lines without leading empty ones, then the marker if lines were dropped. */
  lemma ReaderRecoversTheLines(flush: Flush)
    requires forall i :: 0 <= i < |flush.kept| ==> '\n' !in flush.kept[i]
    ensures Message(flush) != "" <==> Shown(flush) != []
    ensures Shown(flush) != [] ==> Split(Message(flush), '\n') == Shown(flush)
  {
    var shown := Shown(flush);
    ShownLines(flush);
    if shown != [] {
      SplitUndoesJoin(shown, '\n');
      TextOfLinesIsNotEmpty(shown);
    }
  }

  lemma ShownLines(flush: Flush)
    requires forall i :: 0 <= i < |flush.kept| ==> '\n' !in flush.kept[i]
    ensures Shown(flush) != [] ==> Shown(flush)[0] != ""
    ensures forall i :: 0 <= i < |Shown(flush)| ==> '\n' !in Shown(flush)[i]
  {
    MarkerIsOneLine(flush.reported);
  }

  lemma MarkerIsOneLine(dropped: nat)
    ensures Marker(dropped) != "" && '\n' !in Marker(dropped)
  {
    NotInFormat(dropped, '\n');
  }

  // ---------------------------------------------------------------------
  // Runs
  // ---------------------------------------------------------------------

  function Added(s: State, line: string): State {
    if s.bytes + |line| + 1 > MAX_BUFFER_BYTES then s.(dropped := s.dropped + 1)
    else s.(lines := s.lines + [line], bytes := s.bytes + |line| + 1)
  }

  function Taken(s: State): State {
    if s.taken.Some? || (s.lines == [] && s.dropped == 0) then s
    else s.(lines := [], bytes := 0, dropped := 0, taken := Some(Batch(s.lines, s.dropped)))
  }

  function Published(s: State): State {
    match s.taken
    case None => s
    case Some(batch) =>
      var flush := Cut(batch);
      s.(taken := None, flushes := s.flushes + [flush],
      published := if Message(flush) == "" then s.published else s.published + [Message(flush)])
  }

  function Step(s: State, op: Op): State {
    match op
    case Add(line) => Added(s, line)
    case Take => Taken(s)
    case Publish => Published(s)
  }

  function After(ops: seq<Op>): State {
    if ops == [] then EMPTY else Step(After(ops[..|ops| - 1]), ops[|ops| - 1])
  }

  /** Every line the container wrote, in order. */
  function AllAdded(ops: seq<Op>): seq<string> {
    if ops == [] then []
    else
      var before, op := AllAdded(ops[..|ops| - 1]), ops[|ops| - 1];
      if op.Add? then before + [op.line] else before
  }

  function AllKept(flushes: seq<Flush>): seq<string> {
    if flushes == [] then [] else AllKept(flushes[..|flushes| - 1]) + flushes[|flushes| - 1].kept
  }

  function AllReported(flushes: seq<Flush>): nat {
    if flushes == [] then 0 else AllReported(flushes[..|flushes| - 1]) + flushes[|flushes| - 1].reported
  }

  function AllMessages(flushes: seq<Flush>): seq<string> {
    if flushes == [] then []
    else
      var before, text := AllMessages(flushes[..|flushes| - 1]), Message(flushes[|flushes| - 1]);
      if text == "" then before else before + [text]
  }

  /** Lines still on their way, oldest first. */
  function Waiting(s: State): seq<string> {
    (if s.taken.Some? then s.taken.value.lines else []) + s.lines
  }

  function Pending(s: State): nat {
    (if s.taken.Some? then s.taken.value.dropped else 0) + s.dropped
  }

  ghost predicate Bounded(s: State) {
    s.bytes == Size(s.lines) <= MAX_BUFFER_BYTES
  }

  /** In every run a line is buffered if and only if it still fits; otherwise it is
      counted as dropped. Nothing already buffered is touched. */
  lemma AddBuffersIffItFits(ops: seq<Op>, line: string)
    ensures var s, s' := After(ops), After(ops + [Add(line)]);
            var fits := Size(s.lines) + |line| + 1 <= MAX_BUFFER_BYTES;
            && s'.lines == (if fits then s.lines + [line] else s.lines)
            && s'.dropped == (if fits then s.dropped else s.dropped + 1)
            && s'.taken == s.taken && s'.flushes == s.flushes && s'.published == s.published
  {
    BufferStaysBounded(ops);
    assert (ops + [Add(line)])[..|ops|] == ops;
  }

  /** The buffered size is accounted for exactly and never exceeds its bound. */
  lemma {:induction false} BufferStaysBounded(ops: seq<Op>)
    ensures Bounded(After(ops))
  {
    if ops != [] {
      var before := After(ops[..|ops| - 1]);
      BufferStaysBounded(ops[..|ops| - 1]);
      if ops[|ops| - 1].Add? { SizeAppend(before.lines, ops[|ops| - 1].line); }
    }
  }

  lemma FlushesGrow(flushes: seq<Flush>, flush: Flush)
    ensures AllKept(flushes + [flush]) == AllKept(flushes) + flush.kept
    ensures AllReported(flushes + [flush]) == AllReported(flushes) + flush.reported
    ensures AllMessages(flushes + [flush]) ==
            AllMessages(flushes) + (if Message(flush) == "" then [] else [Message(flush)])
  {
    assert (flushes + [flush])[..|flushes|] == flushes;
  }

  /** Nothing is lost unaccounted: every line ever added is in a message, was
      reported dropped, waits to be published, or is a drop still to be reported. */
  lemma {:induction false} LinesAreConserved(ops: seq<Op>)
    ensures var s := After(ops);
            |AllAdded(ops)| == |AllKept(s.flushes)| + AllReported(s.flushes) + |Waiting(s)| + Pending(s)
  {
    if ops != [] {
      var before := After(ops[..|ops| - 1]);
      LinesAreConserved(ops[..|ops| - 1]);
      if ops[|ops| - 1].Publish? && before.taken.Some? {
        FlushesGrow(before.flushes, Cut(before.taken.value));
      }
    }
  }

  /** After the last flush the two sides balance: every line ever added is in a
      message or counted in a drop marker. */
  lemma FinalFlushAccountsForEverything(ops: seq<Op>)
    requires After(ops).taken.None?
    ensures var s := After(ops + [Take, Publish]);
            |AllAdded(ops)| == |AllKept(s.flushes)| + AllReported(s.flushes)
  {
    var taken := ops + [Take];
    var all := ops + [Take, Publish];
    assert taken[..|ops|] == ops && all[..|ops| + 1] == taken;
    assert AllAdded(all) == AllAdded(taken) == AllAdded(ops);
    LinesAreConserved(all);
  }

  /** The messages handed to the connection are those of the flushes, in order;
      a flush with nothing to show sends none. */
  lemma {:induction false} EveryFlushIsPublished(ops: seq<Op>)
    ensures After(ops).published == AllMessages(After(ops).flushes)
  {
    if ops != [] {
      EveryFlushIsPublished(ops[..|ops| - 1]);
      PublishedStep(After(ops[..|ops| - 1]), ops[|ops| - 1]);
    }
  }

  lemma PublishedStep(s: State, op: Op)
    requires s.published == AllMessages(s.flushes)
    ensures Step(s, op).published == AllMessages(Step(s, op).flushes)
  {
    if op.Publish? && s.taken.Some? {
      FlushesGrow(s.flushes, Cut(s.taken.value));
    }
  }

  /** `at` places `some` inside `all` without changing the order. */
  ghost predicate Places(at: seq<nat>, some: seq<string>, all: seq<string>) {
    && |at| == |some|
    && (forall i :: 0 <= i < |at| ==> at[i] < |all| && all[at[i]] == some[i])
    && (forall i, j :: 0 <= i < j < |at| ==> at[i] < at[j])
  }

  /** Order survives the drops: kept lines across all messages, then the waiting
      ones, are a subsequence of what was added. */
  lemma {:induction false} OrderIsKept(ops: seq<Op>) returns (at: seq<nat>)
    ensures Places(at, AllKept(After(ops).flushes) + Waiting(After(ops)), AllAdded(ops))
  {
    if ops == [] {
      at := [];
    } else {
      var earlier, op := ops[..|ops| - 1], ops[|ops| - 1];
      var before, s := After(earlier), After(ops);
      at := OrderIsKept(earlier);
      match op
      case Add(added) => at := PlacesAfterAdd(before, added, at, AllAdded(earlier));
      case Take => assert AllKept(s.flushes) + Waiting(s) == AllKept(before.flushes) + Waiting(before);
      case Publish =>
        if before.taken.Some? {
          at := PlacesAfterCut(before, at, AllAdded(earlier));
        }
    }
  }

  lemma PlacesAfterAdd(s: State, line: string, at: seq<nat>, all: seq<string>) returns (more: seq<nat>)
    requires Places(at, AllKept(s.flushes) + Waiting(s), all)
    ensures Places(more, AllKept(Added(s, line).flushes) + Waiting(Added(s, line)), all + [line])
  {
    more := at;
    if Added(s, line).lines == s.lines + [line] {
      more := at + [|all|];
      assert AllKept(s.flushes) + Waiting(Added(s, line)) == AllKept(s.flushes) + Waiting(s) + [line];
    }
  }

  lemma PlacesAfterCut(s: State, at: seq<nat>, all: seq<string>) returns (fewer: seq<nat>)
    requires s.taken.Some? && Places(at, AllKept(s.flushes) + Waiting(s), all)
    ensures Places(fewer, AllKept(Published(s).flushes) + Waiting(Published(s)), all)
  {
    WaitingAfterCut(s);
    fewer := CutMiddle(AllKept(s.flushes), s.taken.value.lines, s.lines, Fitting(s.taken.value.lines), at, all);
  }

  lemma WaitingAfterCut(s: State)
    requires s.taken.Some?
    ensures var head, batch := AllKept(s.flushes), s.taken.value.lines;
            && head + Waiting(s) == head + batch + s.lines
            && AllKept(Published(s).flushes) + Waiting(Published(s)) == head + batch[..Fitting(batch)] + s.lines
  {
    FlushesGrow(s.flushes, Cut(s.taken.value));
    assert [] + s.lines == s.lines;
  }

  lemma CutMiddle(a: seq<string>, b: seq<string>, c: seq<string>, k: nat, at: seq<nat>, all: seq<string>)
    returns (fewer: seq<nat>)
    requires k <= |b| && Places(at, a + b + c, all)
    ensures Places(fewer, a + b[..k] + c, all)
  {
    fewer := at[..|a| + k] + at[|a| + |b|..];
    forall i | 0 <= i < |fewer| ensures fewer[i] < |all| && all[fewer[i]] == (a + b[..k] + c)[i] {
      var was := if i < |a| + k then i else i + |b| - k;
      assert fewer[i] == at[was] && (a + b[..k] + c)[i] == (a + b + c)[was];
    }
  }

  // ---------------------------------------------------------------------
  // The batcher object
  // ---------------------------------------------------------------------

  class Batcher {
    var lines: seq<string>
    var bytes: nat
    var dropped: nat
    var published: seq<string>
    ghost var flushes: seq<Flush>

    ghost function View(): State
      reads this
    {
      State(lines, bytes, dropped, None, flushes, published)
    }

    constructor ()
      ensures View() == EMPTY
    {
      lines, bytes, dropped, published, flushes := [], 0, 0, [], [];
    }

    method Add(line: string)
      modifies this
      ensures View() == Added(old(View()), line)
    {
      if bytes + |line| + 1 > MAX_BUFFER_BYTES {
        dropped := dropped + 1;
        return;
      }
      lines := lines + [line];
      bytes := bytes + |line| + 1;
    }

    method Flush()
      modifies this
      ensures View() == Published(Taken(old(View())))
    {
      if |lines| == 0 && dropped == 0 {
        return;
      }
      var batch := Batch(lines, dropped);
      lines, bytes, dropped := [], 0, 0;
      var text := Render(batch);
      flushes := flushes + [Cut(batch)];
      if |text| > 0 {
        published := published + [text];
      }
    }
  }

  /** The flush loop: lines are written until one no longer fits, each after a
      newline unless the text is still empty. */
  method WriteLines(lines: seq<string>) returns (text: string, written: nat)
    ensures written == Fitting(lines) && LongestPrefix(lines, MAX_FLUSH_BYTES, written)
    ensures text == Text(lines[..written])
  {
    text, written := "", 0;
    var used := 0;
    while written < |lines|
      invariant written <= |lines| && used == Size(lines[..written]) <= MAX_FLUSH_BYTES
      invariant text == Text(lines[..written])
    {
      var line := lines[written];
      OneMoreLine(lines, written);
      if used + |line| + 1 > MAX_FLUSH_BYTES {
        break;
      }
      if |text| > 0 {
        text := text + "\n";
      }
      text := text + line;
      used := used + |line| + 1;
      written := written + 1;
    }
    PrefixCut(lines, MAX_FLUSH_BYTES, written);
    LongestIsUnique(lines, written);
  }

  lemma OneMoreLine(lines: seq<string>, k: nat)
    requires k < |lines|
    ensures Size(lines[..k + 1]) == Size(lines[..k]) + |lines[k]| + 1
    ensures Text(lines[..k + 1]) == if Text(lines[..k]) == "" then lines[k] else Text(lines[..k]) + "\n" + lines[k]
  {
    assert lines[..k + 1] == lines[..k] + [lines[k]];
    SizeAppend(lines[..k], lines[k]);
    AppendToText(lines[..k], lines[k]);
  }

  lemma LongestIsUnique(lines: seq<string>, k: nat)
    requires LongestPrefix(lines, MAX_FLUSH_BYTES, k)
    ensures k == Fitting(lines)
  {
    FittingIsLongest(lines);
    assert Size(lines[..k]) <= MAX_FLUSH_BYTES && Size(lines[..Fitting(lines)]) <= MAX_FLUSH_BYTES;
  }

  method Render(batch: Batch) returns (text: string)
    ensures text == Message(Cut(batch))
  {
    var written: nat;
    text, written := WriteLines(batch.lines);
    var dropped := batch.dropped + |batch.lines| - written;
    ghost var shown := SkipEmpty(batch.lines[..written]);
    TextIsEmptyIffNothingShown(batch.lines[..written]);
    JoinAppend(shown, Marker(dropped));
    if dropped > 0 {
      if |text| > 0 {
        text := text + "\n";
      }
      text := text + Marker(dropped);
    } else {
      assert shown + [] == shown;
    }
  }
}
