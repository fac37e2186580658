/** File transfers into a container's slot (src/filesystem/transfer.go): hex
    encoded chunks between two control words, with transfers that overlap on one
    slot. Files are written successfully, one path per container. */
module Transfer {
  import opened Wrappers
  import opened Texts

  type Byte = n: nat | n < 256

  const COUNTER: nat := 0x1_0000_0000_0000_0000

  datatype Chunk = Chunk(id: string, container: string, data: string, total: nat)

  datatype Active = Active(id: string, current: nat, total: nat, canceled: bool)

  /** `files` is what is on disk at each container's path. */
  datatype State = State(active: map<string, Active>, files: map<string, seq<Byte>>)

  /** `opens` tells whether the file could be opened, should this chunk begin a
      transfer. */
  datatype Op = Write(chunk: Chunk, opens: bool) | Cancel(container: string) | Cleanup(container: string)

  datatype Outcome = Done | OpenFailed | NoActiveTransfer | Canceled | BadEncoding | FileClosed

  const BEGIN := "BEGIN"
  const END := "END"

  // ---------------------------------------------------------------------
  // Base16
  // ---------------------------------------------------------------------

  function HexValue(c: char): (v: Option<nat>)
    ensures v.Some? ==> v.value < 16
  {
    if '0' <= c <= '9' then Some((c as int) - ('0' as int))
    else if 'a' <= c <= 'f' then Some((c as int) - ('a' as int) + 10)
    else if 'A' <= c <= 'F' then Some((c as int) - ('A' as int) + 10)
    else None
  }

  function HexDigit(v: nat): (c: char)
    requires v < 16
    ensures HexValue(c) == Some(v)
  {
    if v < 10 then (('0' as int) + v) as char else (('a' as int) + v - 10) as char
  }

  function Decode(s: string): Option<seq<Byte>> {
    if s == "" then Some([])
    else if |s| == 1 then None
    else
      var high, low, rest := HexValue(s[0]), HexValue(s[1]), Decode(s[2..]);
      if high.None? || low.None? || rest.None? then None
      else Some([16 * high.value + low.value] + rest.value)
  }

  function Encode(bytes: seq<Byte>): string {
    if bytes == [] then "" else [HexDigit(bytes[0] / 16), HexDigit(bytes[0] % 16)] + Encode(bytes[1..])
  }

  lemma {:induction false} DecodeUndoesEncode(bytes: seq<Byte>)
    ensures Decode(Encode(bytes)) == Some(bytes)
  {
    if bytes != [] {
      DecodeUndoesEncode(bytes[1..]);
      var s := Encode(bytes);
      assert s[2..] == Encode(bytes[1..]);
      assert bytes == [bytes[0]] + bytes[1..];
    }
  }

  lemma DigitOfValue(c: char)
    requires HexValue(c).Some?
    ensures HexDigit(HexValue(c).value) == LowerChar(c)
  {
  }

  /** Upper and lower case decode alike. */
  lemma {:induction false} CaseDoesNotMatter(s: string)
    ensures Decode(Lower(s)) == Decode(s)
  {
    if |s| > 1 {
      var t := Lower(s);
      SameDigit(s[0]);
      SameDigit(s[1]);
      CaseDoesNotMatter(s[2..]);
      assert t[2..] == Lower(s[2..]);
    }
  }

  lemma SameDigit(c: char)
    ensures HexValue(LowerChar(c)) == HexValue(c)
    ensures c in "0123456789abcdef" ==> HexValue(c).Some?
  {
  }

  /** Whatever decodes is an encoding, up to the case of its letters. */
  lemma {:induction false} EncodeUndoesDecode(s: string)
    requires Decode(s).Some?
    ensures Encode(Decode(s).value) == Lower(s)
  {
    if s != "" {
      EncodeUndoesDecode(s[2..]);
      DigitOfValue(s[0]);
      DigitOfValue(s[1]);
      var bytes, high, low := Decode(s).value, HexValue(s[0]).value, HexValue(s[1]).value;
      assert bytes[1..] == Decode(s[2..]).value;
      assert bytes[0] / 16 == high && bytes[0] % 16 == low;
      assert s[1..][1..] == s[2..];
    }
  }

  lemma {:induction false} DecodableIffHexPairs(s: string)
    ensures Decode(s).Some? <==> |s| % 2 == 0 && forall i :: 0 <= i < |s| ==> HexValue(s[i]).Some?
  {
    if |s| > 1 {
      DecodableIffHexPairs(s[2..]);
      assert forall i :: 2 <= i < |s| ==> s[i] == s[2..][i - 2];
    }
  }

  /** No chunk of data, of either letter case, is ever taken for a control word. */
  lemma DataIsNeverAControlWord(s: string)
    requires Decode(s).Some?
    ensures s != BEGIN && s != END
  {
    DecodableIffHexPairs(s);
  }

  // ---------------------------------------------------------------------
  // Steps
  // ---------------------------------------------------------------------

  function Begun(s: State, chunk: Chunk, opens: bool): State {
    if opens then
      State(s.active[chunk.container := Active(chunk.id, 0, chunk.total, false)], s.files[chunk.container := []])
    else s.(active := s.active - {chunk.container})
  }

  function Content(s: State, container: string): seq<Byte> {
    if container in s.files then s.files[container] else []
  }

  function Stored(s: State, chunk: Chunk, data: seq<Byte>): State
    requires chunk.container in s.active
  {
    var c, active := chunk.container, s.active[chunk.container];
    State(s.active[c := active.(current := (active.current + |data|) % COUNTER)], s.files[c := Content(s, c) + data])
  }

  function Written(s: State, chunk: Chunk, opens: bool): (State, Outcome) {
    var c := chunk.container;
    if chunk.data == BEGIN then (Begun(s, chunk, opens), if opens then Done else OpenFailed)
    else if c !in s.active then (s, NoActiveTransfer)
    else if chunk.data == END then
      if s.active[c].id != chunk.id then (s, Done)
      else (s.(active := s.active - {c}), if s.active[c].canceled then FileClosed else Done)
    else if s.active[c].canceled then (s, Canceled)
    else if s.active[c].id != chunk.id then (s, Done)
    else
      match Decode(chunk.data)
      case None => (s, BadEncoding)
      case Some(data) => (Stored(s, chunk, data), Done)
  }

  function Step(s: State, op: Op): State {
    match op
    case Write(chunk, opens) => Written(s, chunk, opens).0
    case Cancel(c) => if c in s.active then s.(active := s.active[c := s.active[c].(canceled := true)]) else s
    case Cleanup(c) => s.(active := s.active - {c})
  }

  function After(ops: seq<Op>): State {
    if ops == [] then State(map[], map[]) else Step(After(ops[..|ops| - 1]), ops[|ops| - 1])
  }

  lemma AfterAppend(ops: seq<Op>, op: Op)
    ensures After(ops + [op]) == Step(After(ops), op)
  {
    assert (ops + [op])[..|ops|] == ops;
  }

  /** What one chunk does, case by case. A BEGIN takes the slot with an empty file, or
      frees it if the file cannot be opened. */
  lemma BeginTakesTheSlot(s: State, chunk: Chunk, opens: bool)
    requires chunk.data == BEGIN
    ensures var (after, outcome), c := Written(s, chunk, opens), chunk.container;
            && outcome == (if opens then Done else OpenFailed)
            && (c in after.active <==> opens)
            && (opens ==> after.active[c] == Active(chunk.id, 0, chunk.total, false) && Content(after, c) == [])
            && (!opens ==> after.files == s.files)
            && after.active - {c} == s.active - {c}
  {
  }

  /** Without a transfer nothing is written. The END of the active transfer frees the
      slot and leaves the file; closing a canceled one's file fails. */
  lemma EndFreesTheSlot(s: State, chunk: Chunk, opens: bool)
    requires chunk.data != BEGIN
    ensures chunk.container !in s.active ==> Written(s, chunk, opens) == (s, NoActiveTransfer)
    ensures chunk.container in s.active && chunk.data == END && s.active[chunk.container].id == chunk.id ==>
              Written(s, chunk, opens)
              == (State(s.active - {chunk.container}, s.files),
                  if s.active[chunk.container].canceled then FileClosed else Done)
  {
  }

  /** Data for a canceled transfer is refused, whoever sends it; data that is not hex
      is refused; either changes nothing. Any other data of the active transfer is
      appended. */
  lemma DataIsAppendedOrRefused(s: State, chunk: Chunk, opens: bool)
    requires chunk.data != BEGIN && chunk.data != END && chunk.container in s.active
    ensures var c, active, data := chunk.container, s.active[chunk.container], Decode(chunk.data);
            var (after, outcome) := Written(s, chunk, opens);
            && (active.canceled ==> after == s && outcome == Canceled)
            && (!active.canceled && active.id == chunk.id && data.None? ==> after == s && outcome == BadEncoding)
            && (!active.canceled && active.id == chunk.id && data.Some? ==>
                  && outcome == Done && Content(after, c) == Content(s, c) + data.value
                  && after.active == s.active[c := active.(current := (active.current + |data.value|) % COUNTER)])
  {
  }

  /** While the active transfer is not canceled, data and END of any other
      transfer change nothing and are no error. */
  lemma SupersededChunksChangeNothing(s: State, chunk: Chunk, opens: bool)
    requires chunk.container in s.active && s.active[chunk.container].id != chunk.id
    requires chunk.data != BEGIN && !s.active[chunk.container].canceled
    ensures Written(s, chunk, opens) == (s, Done)
  {
  }

  // ---------------------------------------------------------------------
  // What the slot holds, read off the calls alone
  // ---------------------------------------------------------------------

  predicate Begins(op: Op, c: string) {
    op.Write? && op.chunk.container == c && op.chunk.data == BEGIN
  }

  predicate Ends(op: Op, c: string, id: string) {
    op == Cleanup(c) || (op.Write? && op.chunk.container == c && op.chunk.data == END && op.chunk.id == id)
  }

  /** Neither a new BEGIN for the slot, nor the END of this transfer, nor cleanup. */
  ghost predicate Undisturbed(later: seq<Op>, c: string, id: string) {
    forall i :: 0 <= i < |later| ==> !Begins(later[i], c) && !Ends(later[i], c, id)
  }

  predicate Canceling(later: seq<Op>, c: string) {
    Cancel(c) in later
  }

  /** The bytes one call delivers to this transfer. */
  function Delivered(op: Op, c: string, id: string): seq<Byte> {
    if op.Write? && op.chunk.container == c && op.chunk.id == id && Decode(op.chunk.data).Some?
    then Decode(op.chunk.data).value else []
  }

  /** The bytes delivered until the transfer is canceled. */
  function Payload(later: seq<Op>, c: string, id: string): seq<Byte> {
    if later == [] || later[0] == Cancel(c) then [] else Delivered(later[0], c, id) + Payload(later[1..], c, id)
  }

  lemma {:induction false} PayloadAppend(later: seq<Op>, op: Op, c: string, id: string)
    ensures Payload(later + [op], c, id)
         == Payload(later, c, id) + (if Canceling(later, c) then [] else Delivered(op, c, id))
  {
    var longer := later + [op];
    if later == [] {
      assert longer[1..] == [];
    } else if later[0] != Cancel(c) {
      assert longer[1..] == later[1..] + [op] && later == [later[0]] + later[1..];
      PayloadAppend(later[1..], op, c, id);
    }
  }

  /** The slot runs `begin`'s transfer and its file holds exactly `payload`. */
  ghost predicate Runs(s: State, begin: Chunk, payload: seq<Byte>, canceled: bool) {
    && begin.container in s.active
    && s.active[begin.container] == Active(begin.id, |payload| % COUNTER, begin.total, canceled)
    && begin.container in s.files && s.files[begin.container] == payload
  }

  lemma RunsStep(s: State, begin: Chunk, payload: seq<Byte>, canceled: bool, op: Op)
    requires Runs(s, begin, payload, canceled)
    requires !Begins(op, begin.container) && !Ends(op, begin.container, begin.id)
    ensures Runs(Step(s, op), begin,
                 payload + (if canceled then [] else Delivered(op, begin.container, begin.id)),
                 canceled || op == Cancel(begin.container))
  {
    var c := begin.container;
    assert payload + [] == payload;
    if op.Write? && op.chunk.container == c && !canceled && op.chunk.id == begin.id && Decode(op.chunk.data).Some? {
      DataIsNeverAControlWord(op.chunk.data);
      var data := Decode(op.chunk.data).value;
      CounterAdds(|payload|, |data|);
    }
    if op.Write? && Decode(op.chunk.data).Some? { DataIsNeverAControlWord(op.chunk.data); }
  }

  lemma CounterAdds(a: nat, b: nat)
    ensures (a % COUNTER + b) % COUNTER == (a + b) % COUNTER
  {
    var q := a / COUNTER;
    assert a == q * COUNTER + a % COUNTER;
    assert a + b == q * COUNTER + (a % COUNTER + b);
    ModuloShift(a % COUNTER + b, q);
  }

  lemma {:induction false} ModuloShift(a: nat, q: nat)
    ensures (q * COUNTER + a) % COUNTER == a % COUNTER
  {
    if q > 0 {
      ModuloShift(a, q - 1);
      assert q * COUNTER + a == (q - 1) * COUNTER + a + COUNTER;
    }
  }

  /** From a successful BEGIN on, and until its END, its cleanup or the next
      BEGIN, the file is the concatenation of the chunks that bear the transfer's
      ID, up to a cancel, and the counter is the file's length; calls for other
      containers or other transfers, before or in between, make no difference. */
  lemma {:induction false} FileIsThePayload(before: seq<Op>, begin: Chunk, later: seq<Op>)
    requires begin.data == BEGIN && Undisturbed(later, begin.container, begin.id)
    ensures Runs(After(before + [Write(begin, true)] + later), begin,
                 Payload(later, begin.container, begin.id), Canceling(later, begin.container))
    decreases |later|
  {
    if later == [] {
      AfterAppend(before, Write(begin, true));
      assert before + [Write(begin, true)] + later == before + [Write(begin, true)];
    } else {
      var fewer, op := later[..|later| - 1], later[|later| - 1];
      assert !Begins(op, begin.container) && !Ends(op, begin.container, begin.id);
      FileIsThePayload(before, begin, fewer);
      PayloadStep(before + [Write(begin, true)] + fewer, begin, fewer, op);
      OneCallLater(before + [Write(begin, true)], later);
    }
  }

  lemma OneCallLater(first: seq<Op>, later: seq<Op>)
    requires later != []
    ensures var n := |later| - 1; later == later[..n] + [later[n]] && first + later == first + later[..n] + [later[n]]
  {
  }

  lemma PayloadStep(ops: seq<Op>, begin: Chunk, later: seq<Op>, op: Op)
    requires Runs(After(ops), begin, Payload(later, begin.container, begin.id), Canceling(later, begin.container))
    requires !Begins(op, begin.container) && !Ends(op, begin.container, begin.id)
    ensures Runs(After(ops + [op]), begin,
                 Payload(later + [op], begin.container, begin.id), Canceling(later + [op], begin.container))
  {
    AfterAppend(ops, op);
    PayloadAppend(later, op, begin.container, begin.id);
    CancelingAppend(later, op, begin.container);
    RunsStep(After(ops), begin, Payload(later, begin.container, begin.id), Canceling(later, begin.container), op);
  }

  lemma CancelingAppend(later: seq<Op>, op: Op, c: string)
    ensures Canceling(later + [op], c) <==> Canceling(later, c) || op == Cancel(c)
  {
  }

  /** The only way a slot is active: some BEGIN opened it and nothing has ended
      or replaced that transfer since. */
  lemma {:induction false} ActiveSlotHasItsBegin(ops: seq<Op>, c: string) returns (k: nat)
    requires c in After(ops).active
    ensures k < |ops| && ops[k].Write? && ops[k].opens && Begins(ops[k], c)
    ensures Undisturbed(ops[k + 1..], c, ops[k].chunk.id)
  {
    var n := |ops| - 1;
    var fewer, op := ops[..n], ops[n];
    if Begins(op, c) {
      k := n;
    } else {
      StaysActiveOnly(After(fewer), op, c);
      k := ActiveSlotHasItsBegin(fewer, c);
      OneMoreCall(fewer, k, op, c);
      assert ops == fewer + [op];
    }
  }

  /** A call that leaves the slot active leaves its BEGIN undisturbed. */
  lemma OneMoreCall(ops: seq<Op>, k: nat, op: Op, c: string)
    requires k < |ops| && ops[k].Write? && ops[k].opens && Begins(ops[k], c)
    requires Undisturbed(ops[k + 1..], c, ops[k].chunk.id)
    requires c in After(ops).active && !Begins(op, c) && !Ends(op, c, After(ops).active[c].id)
    ensures (ops + [op])[k] == ops[k] && Undisturbed((ops + [op])[k + 1..], c, ops[k].chunk.id)
  {
    ActiveIdIsTheBegins(ops, k, c);
    UndisturbedAppend(ops[k + 1..], op, c, ops[k].chunk.id);
    assert (ops + [op])[k + 1..] == ops[k + 1..] + [op];
  }

  lemma UndisturbedAppend(later: seq<Op>, op: Op, c: string, id: string)
    requires Undisturbed(later, c, id) && !Begins(op, c) && !Ends(op, c, id)
    ensures Undisturbed(later + [op], c, id)
  {
  }

  /** Without a BEGIN a slot is active after a call only if it was before, and the
      call did not end its transfer. */
  lemma StaysActiveOnly(s: State, op: Op, c: string)
    requires c in Step(s, op).active && !Begins(op, c)
    ensures c in s.active && !Ends(op, c, s.active[c].id)
  {
  }

  lemma ActiveIdIsTheBegins(ops: seq<Op>, k: nat, c: string)
    requires k < |ops| && ops[k].Write? && ops[k].opens && Begins(ops[k], c)
    requires Undisturbed(ops[k + 1..], c, ops[k].chunk.id)
    ensures Runs(After(ops), ops[k].chunk, Payload(ops[k + 1..], c, ops[k].chunk.id), Canceling(ops[k + 1..], c))
    ensures c in After(ops).active && After(ops).active[c].id == ops[k].chunk.id
  {
    FileIsThePayload(ops[..k], ops[k].chunk, ops[k + 1..]);
    assert ops == ops[..k] + [Write(ops[k].chunk, true)] + ops[k + 1..];
  }

  /** For every sequence of calls: the file of an active transfer is what was
      delivered under its ID since its last BEGIN, and `current` its length. */
  lemma ActiveFileIsItsPayload(ops: seq<Op>, c: string) returns (k: nat)
    requires c in After(ops).active
    ensures k < |ops| && Begins(ops[k], c) && Undisturbed(ops[k + 1..], c, ops[k].chunk.id)
    ensures Runs(After(ops), ops[k].chunk, Payload(ops[k + 1..], c, ops[k].chunk.id), Canceling(ops[k + 1..], c))
  {
    k := ActiveSlotHasItsBegin(ops, c);
    ActiveIdIsTheBegins(ops, k, c);
  }

  // ---------------------------------------------------------------------
  // A whole transfer
  // ---------------------------------------------------------------------

  /** `later` holds the encoded `parts` in order, in the middle of any calls that
      neither touch this transfer nor its slot. */
  predicate Sends(later: seq<Op>, c: string, id: string, parts: seq<seq<Byte>>) {
    if later == [] then parts == []
    else if later[0].Write? && later[0].chunk.container == c && later[0].chunk.id == id then
      parts != [] && later[0].chunk.data == Encode(parts[0]) && Sends(later[1..], c, id, parts[1..])
    else
      && !Begins(later[0], c) && later[0] != Cancel(c) && later[0] != Cleanup(c)
      && Sends(later[1..], c, id, parts)
  }

  function Concat(parts: seq<seq<Byte>>): seq<Byte> {
    if parts == [] then [] else parts[0] + Concat(parts[1..])
  }

  lemma {:induction false} SentIsDelivered(later: seq<Op>, c: string, id: string, parts: seq<seq<Byte>>)
    requires Sends(later, c, id, parts)
    ensures Payload(later, c, id) == Concat(parts) && Undisturbed(later, c, id) && !Canceling(later, c)
  {
    if later != [] {
      var op, rest := later[0], later[1..];
      var own := op.Write? && op.chunk.container == c && op.chunk.id == id;
      SentIsDelivered(rest, c, id, if own then parts[1..] else parts);
      if own {
        DecodeUndoesEncode(parts[0]);
        DataIsNeverAControlWord(op.chunk.data);
      }
      UndisturbedCons(op, rest, c, id);
      assert later == [op] + rest;
    }
  }

  lemma UndisturbedCons(op: Op, rest: seq<Op>, c: string, id: string)
    requires Undisturbed(rest, c, id) && !Begins(op, c) && !Ends(op, c, id)
    requires !Canceling(rest, c) && op != Cancel(c)
    ensures Undisturbed([op] + rest, c, id) && !Canceling([op] + rest, c)
  {
    var later := [op] + rest;
    forall i | 0 <= i < |later| ensures !Begins(later[i], c) && !Ends(later[i], c, id) && later[i] != Cancel(c) {
      if i > 0 { assert later[i] == rest[i - 1]; }
    }
  }

  /** What is sent is what lands on disk: a transfer that is begun, sent in any
      pieces amid superseded chunks, stale ENDs and traffic for other containers,
      and ended, leaves exactly the sent bytes and a free slot. */
  lemma TransferDeliversTheFile(before: seq<Op>, begin: Chunk, later: seq<Op>, parts: seq<seq<Byte>>, end: Chunk)
    requires begin.data == BEGIN && Sends(later, begin.container, begin.id, parts)
    requires end.container == begin.container && end.id == begin.id && end.data == END
    ensures var s := After(before + [Write(begin, true)] + later + [Write(end, false)]);
            && begin.container in s.files && s.files[begin.container] == Concat(parts)
            && begin.container !in s.active
  {
    var sent := before + [Write(begin, true)] + later;
    SentIsDelivered(later, begin.container, begin.id, parts);
    FileIsThePayload(before, begin, later);
    AfterAppend(sent, Write(end, false));
  }

  // ---------------------------------------------------------------------
  // The slots themselves
  // ---------------------------------------------------------------------

  class Filesystem {
    var activeTransfers: map<string, Active>
    var files: map<string, seq<Byte>>

    ghost function View(): State
      reads this
    {
      State(activeTransfers, files)
    }

    /** A transfer's file exists from its BEGIN on. */
    ghost predicate Valid()
      reads this
    {
      forall c :: c in activeTransfers ==> c in files && activeTransfers[c].current == |files[c]| % COUNTER
    }

    constructor ()
      ensures View() == After([]) && Valid()
    {
      activeTransfers, files := map[], map[];
    }

    method CancelFileTransfer(container: string)
      requires Valid()
      modifies this
      ensures Valid() && View() == Step(old(View()), Cancel(container))
    {
      if container in activeTransfers {
        activeTransfers := activeTransfers[container := activeTransfers[container].(canceled := true)];
      }
    }

    method CleanupFailedTransfer(container: string)
      requires Valid()
      modifies this
      ensures Valid() && View() == Step(old(View()), Cleanup(container))
    {
      activeTransfers := activeTransfers - {container};
    }

    method Write(chunk: Chunk, opens: bool) returns (outcome: Outcome)
      requires Valid()
      modifies this
      ensures Valid() && (View(), outcome) == Written(old(View()), chunk, opens)
    {
      var c := chunk.container;
      if chunk.data == BEGIN {
        if !opens {
          activeTransfers := activeTransfers - {c};
          return OpenFailed;
        }
        files := files[c := []];
        activeTransfers := activeTransfers[c := Active(chunk.id, 0, chunk.total, false)];
        return Done;
      }
      if c !in activeTransfers {
        return NoActiveTransfer;
      }
      var active := activeTransfers[c];
      if chunk.data == END {
        if active.id != chunk.id {
          return Done;
        }
        activeTransfers := activeTransfers - {c};
        return if active.canceled then FileClosed else Done;
      }
      if active.canceled {
        return Canceled;
      }
      if active.id != chunk.id {
        return Done;
      }
      var data := Decode(chunk.data);
      if data.None? {
        return BadEncoding;
      }
      CounterAdds(|files[c]|, |data.value|);
      files := files[c := files[c] + data.value];
      activeTransfers := activeTransfers[c := active.(current := (active.current + |data.value|) % COUNTER)];
      return Done;
    }
  }
}
