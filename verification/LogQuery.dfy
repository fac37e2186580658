/** Windowed log queries (src/logging/query.go): how many lines are read, which
    of them are answered, and how successive pages fit together. */
module LogQuery {
  import opened Wrappers
  import opened Texts
  import opened LogLines

  const MAX_QUERY_LINES: nat := 5000
  const MAX_QUERY_BYTES: nat := 4 * 1024 * 1024
  const DEFAULT_QUERY_LINES: nat := 200

  type Unsigned = n: nat | n < 0x1_0000_0000_0000_0000

  /** A list's length is a signed machine integer. */
  const MAX_LENGTH: nat := 0x7FFF_FFFF_FFFF_FFFF

  datatype Request = Request(container: string, tail: Unsigned, offset: Unsigned)

  datatype Source = Docker | Compose | History

  /** What the window read came back with. */
  datatype Read = Failed | Lines(lines: seq<string>, source: Source)

  datatype Answer = Answer(lines: seq<string>, source: Source, truncated: bool)

  function Min(a: int, b: int): int { if a < b then a else b }
  function Max(a: int, b: int): int { if a < b then b else a }

  function Tail(request: Request): (tail: nat)
    ensures 0 < tail <= MAX_QUERY_LINES
  {
    if request.tail == 0 then DEFAULT_QUERY_LINES else Min(request.tail, MAX_QUERY_LINES)
  }

  /** Lines asked of the store. The sum wraps around at 64 bits. */
  function Fetch(request: Request): nat {
    Min((Tail(request) + request.offset) % 0x1_0000_0000_0000_0000, MAX_QUERY_LINES)
  }

  /** The `tail` lines that precede the newest `offset`. */
  function Page(lines: seq<string>, tail: nat, offset: nat): seq<string> {
    lines[Max(0, |lines| - offset - tail)..Max(0, |lines| - offset)]
  }

  /** Drops the newest `offset` lines, then keeps the newest `tail` of the rest. */
  method TakePage(all: seq<string>, tail: nat, offset: nat) returns (lines: seq<string>, truncated: bool)
    ensures lines == Page(all, tail, offset)
    ensures truncated <==> |all| > offset + tail
  {
    lines := all;
    if offset > 0 {
      if |lines| <= offset {
        lines := [];
      } else {
        lines := lines[..|lines| - offset];
      }
    }
    truncated := false;
    if |lines| > tail {
      lines := lines[|lines| - tail..];
      truncated := true;
    }
  }

  /** Whatever the store returned, the answer is its page cut to the longest
      suffix within the byte limit, and it is marked truncated exactly when the
      store returned more than the page reaches back or the byte cut took lines. */
  method QueryLogs(request: Request, read: Read) returns (answer: Option<Answer>)
    ensures answer.None? <==> Blank(request.container) || read.Failed?
    ensures answer.Some? ==>
              && answer.value.source == read.source
              && var page := Page(read.lines, Tail(request), request.offset);
                 && answer.value.lines == page[Trimmed(page, MAX_QUERY_BYTES)..]
                 && LongestSuffix(page, MAX_QUERY_BYTES, |page| - |answer.value.lines|)
                 && (answer.value.truncated <==>
                       |read.lines| > request.offset + Tail(request) || Size(page) > MAX_QUERY_BYTES)
  {
    if Blank(request.container) || read.Failed? {
      return None;
    }
    var page, truncated := TakePage(read.lines, Tail(request), request.offset);
    var rest, cut := TrimToBytes(page, MAX_QUERY_BYTES);
    return Some(Answer(rest, read.source, truncated || cut));
  }

  // ---------------------------------------------------------------------
  // Against the whole log
  // ---------------------------------------------------------------------

  /** A store that holds `all` and is asked for its last `fetch` lines; zero asks
      for everything. */
  function Served(all: seq<string>, fetch: nat): seq<string> {
    if fetch == 0 then all else LastOf(all, fetch)
  }

  /** The lines a query is meant to show of a log, before the byte limit. */
  function Window(all: seq<string>, request: Request): seq<string> {
    var n, reach := |all|, Min(MAX_QUERY_LINES, request.offset + Tail(request));
    if n <= request.offset || reach <= request.offset then []
    else all[Max(0, n - reach)..n - request.offset]
  }

  /** Reading no more than the fetch bound loses nothing: the page of what was
      read is the window of the whole log, the line cut never fires, and not even
      a wrapped sum of tail and offset changes that. */
  lemma PageIsTheWindow(all: seq<string>, request: Request)
    requires |all| <= MAX_LENGTH
    ensures var read := Served(all, Fetch(request));
            && Page(read, Tail(request), request.offset) == Window(all, request)
            && |read| <= request.offset + Tail(request)
  {
    var read := Served(all, Fetch(request));
    var reach := request.offset + Tail(request);
    if reach < 0x1_0000_0000_0000_0000 {
      assert Fetch(request) == Min(reach, MAX_QUERY_LINES) > 0;
      assert read == LastOf(all, Fetch(request));
      if |read| > request.offset {
        assert forall i :: 0 <= i < |read| ==> read[i] == all[|all| - |read| + i];
      }
    } else {
      assert |read| <= |all| <= request.offset;
    }
  }

  /** A query against a store that keeps its promise: the answer is the newest
      part of the window that fits the byte limit, and it is marked truncated
      exactly when the byte limit took lines. */
  method QueryStore(request: Request, all: seq<string>, source: Source) returns (answer: Option<Answer>)
    requires |all| <= MAX_LENGTH
    ensures answer.None? <==> Blank(request.container)
    ensures answer.Some? ==>
              && var window := Window(all, request);
                 && answer.value.lines == window[Trimmed(window, MAX_QUERY_BYTES)..]
                 && (answer.value.truncated <==> Size(window) > MAX_QUERY_BYTES)
  {
    PageIsTheWindow(all, request);
    answer := QueryLogs(request, Lines(Served(all, Fetch(request)), source));
  }

  /** Nothing is answered exactly when the offset passes the log or the line cap:
      beyond the cap the answer is empty and not marked truncated, however many
      older lines there are. */
  lemma EmptyExactlyBeyondTheCap(all: seq<string>, request: Request)
    ensures Window(all, request) == [] <==> request.offset >= Min(|all|, MAX_QUERY_LINES)
  {
  }

  /** The `k` newest pages of size `tail`, oldest page first. */
  function Pages(all: seq<string>, container: string, tail: Unsigned, k: nat): seq<string>
    requires k * tail < 0x1_0000_0000_0000_0000
  {
    if k == 0 then []
    else
      assert k * tail == (k - 1) * tail + tail;
      Window(all, Request(container, tail, (k - 1) * tail)) + Pages(all, container, tail, k - 1)
  }

  /** Pages tile: asked for one after the other, each starting where the one
      before ended, they join without gap or overlap into the newest lines of the
      log, up to the line cap and never beyond. */
  lemma {:induction false} PagesTile(all: seq<string>, container: string, tail: Unsigned, k: nat)
    requires 0 < tail <= MAX_QUERY_LINES && k * tail < 0x1_0000_0000_0000_0000
    ensures Pages(all, container, tail, k) == LastOf(all, Min(MAX_QUERY_LINES, k * tail))
  {
    if k > 0 {
      var offset := (k - 1) * tail;
      assert offset + tail == k * tail;
      PagesTile(all, container, tail, k - 1);
      NextPageJoins(all, Request(container, tail, offset));
    }
  }

  lemma NextPageJoins(all: seq<string>, request: Request)
    requires 0 < request.tail <= MAX_QUERY_LINES
    ensures Window(all, request) + LastOf(all, Min(MAX_QUERY_LINES, request.offset))
         == LastOf(all, Min(MAX_QUERY_LINES, request.offset + request.tail))
  {
  }
}
