/** Recovering from a host port another process has taken
    (src/apps/hostports_resolve.go): the two loops that read a bind error and
    reassign the ports it mentions, one over compose entries, one over rules. */
module BindConflict {
  import opened Wrappers
  import opened Texts
  import opened HostPorts
  import opened ComposePorts
  import opened ComposeRewrite

  predicate OccursAt(text: string, needle: string, i: nat) {
    i + |needle| <= |text| && text[i..i + |needle|] == needle
  }

  ghost predicate Mentions(message: string, port: nat) {
    exists i: nat :: OccursAt(message, ":" + Format(port), i)
  }

  method Contains(text: string, needle: string) returns (found: bool)
    ensures found <==> exists i: nat :: OccursAt(text, needle, i)
  {
    var i := 0;
    while i + |needle| <= |text|
      invariant forall j: nat :: j < i ==> !OccursAt(text, needle, j)
      decreases |text| - i
    {
      if text[i..i + |needle|] == needle {
        assert OccursAt(text, needle, i);
        return true;
      }
      i := i + 1;
    }
    found := false;
  }

  // ---------------------------------------------------------------------
  // The reassign loop
  // ---------------------------------------------------------------------

  /** The key of an entry or rule whose port the error mentions. */
  ghost predicate Struck(held: map<Key, nat>, message: string, keys: seq<Key>, k: Key) {
    k in held && k in keys && Mentions(message, held[k])
  }

  /** A struck key is moved into the pool or, when the pool has nothing left,
      loses its port; every other assignment stays. */
  ghost predicate Moved(before: map<Key, nat>, after: map<Key, nat>, message: string, keys: seq<Key>) {
    && after.Keys <= before.Keys
    && forall k :: k in before ==>
         if Struck(before, message, keys, k) then k in after ==> InPool(after[k])
         else k in after && after[k] == before[k]
  }

  /** Some call since position `from` handed out a port. */
  ghost predicate Handout(log: seq<Op>, from: nat) {
    exists i :: from <= i < |log| && GrantAt(log, i).Some?
  }

  lemma HandoutAppend(log: seq<Op>, op: Op, from: nat)
    requires from <= |log|
    ensures Handout(log + [op], from) <==> Handout(log, from) || Handed(After(EMPTY, log), op).Some?
  {
    var longer := log + [op];
    assert longer[..|log|] == log;
    forall i | from <= i < |log| ensures GrantAt(longer, i) == GrantAt(log, i) {
      assert longer[..i] == log[..i];
    }
    if Handed(After(EMPTY, log), op).Some? { assert GrantAt(longer, |log|).Some?; }
  }

  /** Reassigns what the error mentions and nothing else, whoever else's ports
      it mentions. The answer tells whether a retry makes sense: some struck key
      was handed a fresh port. */
  method ReassignAfterConflict(reg: HostPortRegistry, keys: seq<Key>, message: string) returns (reassigned: bool)
    requires reg.Valid()
    modifies reg
    ensures reg.Valid() && old(reg.log) <= reg.log
    ensures forall i :: |old(reg.log)| <= i < |reg.log| ==> reg.log[i].Reassign? && reg.log[i].key in keys
    ensures Moved(old(reg.held), reg.held, message, keys)
    ensures reassigned ==> exists k :: Struck(old(reg.held), message, keys, k)
    ensures !reassigned ==> forall k :: Struck(old(reg.held), message, keys, k) ==> k !in reg.held
    ensures reassigned <==> Handout(reg.log, |old(reg.log)|)
  {
    reassigned := false;
    ghost var h0 := reg.held;
    for n := 0 to |keys|
      invariant reg.Valid() && old(reg.log) <= reg.log
      invariant forall i :: |old(reg.log)| <= i < |reg.log| ==> reg.log[i].Reassign? && reg.log[i].key in keys
      invariant Progress(h0, reg.held, message, keys, n, reassigned)
      invariant reassigned <==> Handout(reg.log, |old(reg.log)|)
    {
      ghost var h := reg.held;
      var moved := ReassignIfMentioned(reg, keys[n], message, |old(reg.log)|);
      ProgressStep(h0, h, reg.held, message, keys, n, reassigned, moved);
      if moved {
        reassigned := true;
      }
    }
    assert keys[..|keys|] == keys;
  }

  ghost predicate Progress(
      h0: map<Key, nat>, h: map<Key, nat>, message: string, keys: seq<Key>, n: nat, reassigned: bool)
    requires n <= |keys|
  {
    && Moved(h0, h, message, keys[..n])
    && (reassigned ==> exists k :: Struck(h0, message, keys, k))
    && (!reassigned ==> forall k :: Struck(h0, message, keys[..n], k) ==> k !in h)
  }

  lemma ProgressStep(h0: map<Key, nat>, h: map<Key, nat>, after: map<Key, nat>, message: string,
                     keys: seq<Key>, n: nat, reassigned: bool, moved: bool)
    requires n < |keys| && Progress(h0, h, message, keys, n, reassigned)
    requires if keys[n] in h && Mentions(message, h[keys[n]]) then MovesOne(h, after, keys[n], moved)
             else after == h && !moved
    ensures Progress(h0, after, message, keys, n + 1, reassigned || moved)
  {
    if keys[n] in h && Mentions(message, h[keys[n]]) {
      MoveStruck(h0, h, after, message, keys, n);
    } else {
      MoveOn(h0, h, message, keys, n);
    }
  }

  /** One turn of the loop. */
  method ReassignIfMentioned(reg: HostPortRegistry, key: Key, message: string, ghost from: nat) returns (moved: bool)
    requires reg.Valid() && from <= |reg.log|
    modifies reg
    ensures reg.Valid() && old(reg.log) <= reg.log
    ensures Handout(reg.log, from) <==> Handout(old(reg.log), from) || moved
    ensures if key in old(reg.held) && Mentions(message, old(reg.held)[key])
            then MovesOne(old(reg.held), reg.held, key, moved)
                 && |reg.log| == |old(reg.log)| + 1
                 && reg.log[|old(reg.log)|].Reassign? && reg.log[|old(reg.log)|].key == key
            else reg.held == old(reg.held) && reg.log == old(reg.log) && !moved
  {
    moved := false;
    var port := reg.Get(key);
    if port.None? {
      return;
    }
    var mentioned := Contains(message, ":" + Format(port.value));
    if !mentioned {
      return;
    }
    var refused: set<nat> := *;
    ReassignMoves(reg.View(), key, refused);
    HandoutAppend(reg.log, Reassign(key, refused), from);
    var newPort := reg.ReassignFresh(key, refused);
    moved := newPort.Some?;
  }

  /** One key moves into the pool, or loses its port. */
  ghost predicate MovesOne(before: map<Key, nat>, after: map<Key, nat>, key: Key, moved: bool) {
    && after.Keys <= before.Keys
    && (forall k :: k in before && k != key ==> k in after && after[k] == before[k])
    && (key in after <==> moved) && (key in after ==> InPool(after[key]))
  }

  /** What `ReassignFresh` does to the assignments. */
  lemma ReassignMoves(r: Registry, key: Key, refused: set<nat>)
    ensures var (after, port) := Apply(r, Reassign(key, refused));
            && after.held.Keys <= r.held.Keys + {key}
            && (forall k :: k in r.held && k != key ==> k in after.held && after.held[k] == r.held[k])
            && (key in after.held <==> port.Some?)
            && (key in after.held ==> InPool(after.held[key]))
  {
    ScanIsLeastAndComplete(Dropped(r, key), key, refused);
  }

  lemma MoveOn(h0: map<Key, nat>, h: map<Key, nat>, message: string, keys: seq<Key>, n: nat)
    requires n < |keys| && Moved(h0, h, message, keys[..n])
    requires keys[n] in h ==> !Mentions(message, h[keys[n]])
    ensures Moved(h0, h, message, keys[..n + 1])
    ensures forall k :: Struck(h0, message, keys[..n + 1], k) && k in h ==> Struck(h0, message, keys[..n], k)
  {
    assert keys[..n + 1] == keys[..n] + [keys[n]];
  }

  lemma MoveStruck(h0: map<Key, nat>, h: map<Key, nat>, after: map<Key, nat>, message: string, keys: seq<Key>, n: nat)
    requires n < |keys| && Moved(h0, h, message, keys[..n])
    requires keys[n] in h && Mentions(message, h[keys[n]])
    requires after.Keys <= h.Keys && (keys[n] in after ==> InPool(after[keys[n]]))
    requires forall k :: k in h && k != keys[n] ==> k in after && after[k] == h[k]
    ensures Moved(h0, after, message, keys[..n + 1])
    ensures forall k :: Struck(h0, message, keys[..n + 1], k) ==> k == keys[n] || Struck(h0, message, keys[..n], k)
    ensures Struck(h0, message, keys, keys[n])
  {
    var key := keys[n];
    assert keys[..n + 1] == keys[..n] + [key];
    assert key in h0;
    if !Struck(h0, message, keys[..n], key) {
      assert h[key] == h0[key];
    }
  }

  // ---------------------------------------------------------------------
  // The two callers
  // ---------------------------------------------------------------------

  /** The assignments of keys that `own` picks and the error mentions move into
      the pool or are lost; every other assignment stays. */
  ghost predicate MovedOwn(before: map<Key, nat>, after: map<Key, nat>, message: string, own: set<Key>) {
    && after.Keys <= before.Keys
    && forall k :: k in before ==>
         if k in own && Mentions(message, before[k]) then k in after ==> InPool(after[k])
         else k in after && after[k] == before[k]
  }

  method ComposeKeys(app: App, services: Services) returns (keys: seq<Key>)
    ensures forall k :: k in keys <==> FromEntry(app, services, k)
  {
    keys := [];
    var unseen := services.Keys;
    while unseen != {}
      invariant unseen <= services.Keys
      invariant forall k :: k in keys ==> FromEntry(app, services, k)
      invariant forall name, i: nat, k :: EntryKey(app, services, name, i, k) && name !in unseen ==> k in keys
      decreases unseen
    {
      var name :| name in unseen;
      if services[name].Ports? {
        var ports := services[name].ports;
        var entries := ParsePorts(ports);
        var more := EntryKeys(app, name, entries);
        forall k | k in more ensures FromEntry(app, services, k) {
          var i :| 0 <= i < |entries| && KeyOfEntry(app, name, entries[i], k);
          assert EntryAt(services, name, i) && KeyFrom(app, name, ports[i], k);
        }
        forall i: nat, k | EntryKey(app, services, name, i, k) ensures k in more {
          assert KeyOfEntry(app, name, entries[i], k);
        }
        keys := keys + more;
      }
      unseen := unseen - {name};
    }
    forall k | FromEntry(app, services, k) ensures k in keys {
      var name: string, i: nat :| EntryAt(services, name, i) && KeyFrom(app, name, services[name].ports[i], k);
      assert EntryKey(app, services, name, i, k);
    }
  }

  ghost predicate EntryKey(app: App, services: Services, name: string, i: nat, k: Key) {
    EntryAt(services, name, i) && KeyFrom(app, name, services[name].ports[i], k)
  }

  method ParsePorts(ports: seq<Value>) returns (entries: seq<Entry>)
    ensures |entries| == |ports| && forall i :: 0 <= i < |ports| ==> entries[i] == ParseEntry(ports[i])
  {
    entries := [];
    for n := 0 to |ports|
      invariant |entries| == n && forall i :: 0 <= i < n ==> entries[i] == ParseEntry(ports[i])
    {
      entries := entries + [ParseEntry(ports[n])];
    }
  }

  ghost predicate KeyOfEntry(app: App, name: string, e: Entry, k: Key) {
    e.rewritable && k == KeyOf(app, name, e)
  }

  method EntryKeys(app: App, name: string, entries: seq<Entry>) returns (keys: seq<Key>)
    ensures forall k :: k in keys ==> exists i :: 0 <= i < |entries| && KeyOfEntry(app, name, entries[i], k)
    ensures forall i, k :: 0 <= i < |entries| && KeyOfEntry(app, name, entries[i], k) ==> k in keys
  {
    keys := [];
    for n := 0 to |entries|
      invariant forall k :: k in keys ==> exists i :: 0 <= i < n && KeyOfEntry(app, name, entries[i], k)
      invariant forall i, k :: 0 <= i < n && KeyOfEntry(app, name, entries[i], k) ==> k in keys
    {
      if entries[n].rewritable {
        assert KeyOfEntry(app, name, entries[n], KeyOf(app, name, entries[n]));
        keys := keys + [KeyOf(app, name, entries[n])];
      }
    }
  }

  /** For a compose app the keys are those of its rewritable entries. */
  method ReassignComposePorts(reg: HostPortRegistry, app: App, services: Services, message: string)
    returns (reassigned: bool, ghost own: set<Key>)
    requires reg.Valid()
    modifies reg
    ensures reg.Valid() && old(reg.log) <= reg.log
    ensures forall k :: k in own <==> FromEntry(app, services, k)
    ensures MovedOwn(old(reg.held), reg.held, message, own)
    ensures reassigned <==> Handout(reg.log, |old(reg.log)|)
  {
    var keys := ComposeKeys(app, services);
    own := set k | k in keys;
    reassigned := ReassignAfterConflict(reg, keys, message);
  }

  /** For a single container they are those of the rules that point at it. */
  method ReassignRulePorts(reg: HostPortRegistry, app: App, rules: seq<Rule>, message: string)
    returns (reassigned: bool, ghost own: set<Key>)
    requires reg.Valid()
    modifies reg
    ensures reg.Valid() && old(reg.log) <= reg.log
    ensures forall k :: k in own <==> exists i :: 0 <= i < |rules| && Addresses(app, rules[i], k)
    ensures MovedOwn(old(reg.held), reg.held, message, own)
    ensures reassigned <==> Handout(reg.log, |old(reg.log)|)
  {
    var keys: seq<Key> := [];
    for n := 0 to |rules|
      invariant reg.Valid() && reg.log == old(reg.log) && reg.held == old(reg.held)
      invariant forall k :: k in keys <==> exists i :: 0 <= i < n && Addresses(app, rules[i], k)
    {
      if rules[n].localIP == "" {
        assert Addresses(app, rules[n], TunnelKey(app, rules[n], ""));
        keys := keys + [TunnelKey(app, rules[n], "")];
      }
    }
    own := set k | k in keys;
    reassigned := ReassignAfterConflict(reg, keys, message);
  }

  predicate Addresses(app: App, rule: Rule, k: Key) {
    rule.localIP == "" && k == TunnelKey(app, rule, "")
  }

  // ---------------------------------------------------------------------
  // Which ports a message mentions
  // ---------------------------------------------------------------------

  /** `p` is `q` with some of its last digits cut off. */
  predicate Heads(p: nat, q: nat)
    decreases q
  {
    p == q || (q >= 10 && Heads(p, q / 10))
  }

  lemma {:induction false} HeadIsNoLarger(p: nat, q: nat)
    requires Heads(p, q)
    ensures p <= q && |Format(p)| <= |Format(q)| && (p != q ==> |Format(p)| < |Format(q)|)
    decreases q
  {
    if p != q { HeadIsNoLarger(p, q / 10); }
  }

  /** The text of `p` begins the text of `q` exactly when `p` heads `q`. */
  lemma {:induction false} PrefixIffHeads(p: nat, q: nat)
    ensures Format(p) <= Format(q) <==> Heads(p, q)
    decreases q
  {
    FormatReadsBack(p);
    FormatReadsBack(q);
    if Heads(p, q) { HeadIsNoLarger(p, q); }
    if |Format(p)| == |Format(q)| {
      assert Format(p) <= Format(q) <==> Format(p) == Format(q);
    } else if q >= 10 {
      PrefixIffHeads(p, q / 10);
      assert Format(q) == Format(q / 10) + [Digit(q % 10)];
      if |Format(p)| < |Format(q)| {
        assert Format(p) <= Format(q) <==> Format(p) <= Format(q / 10);
      } else {
        assert !Heads(p, q);
      }
    }
  }

  /** Pool ports have five digits each: none is taken for another one. */
  lemma PoolPortsAreToldApart(p: nat, q: nat)
    requires InPool(p) && InPool(q)
    ensures Heads(p, q) <==> p == q
  {
    if Heads(p, q) && p != q {
      assert Heads(p, q / 10);
      HeadIsNoLarger(p, q / 10);
    }
  }

  lemma {:induction false} NoLeadingZero(p: nat)
    requires p > 0
    ensures Format(p)[0] != '0'
  {
    if p >= 10 { NoLeadingZero(p / 10); }
  }

  /** Digits without a leading zero are the text of their own value. */
  lemma {:induction false} DigitsAreTheirFormat(digits: string)
    requires digits != "" && AllDigits(digits) && digits[0] != '0'
    ensures Decimal(digits) > 0 && Format(Decimal(digits)) == digits
  {
    var n := |digits| - 1;
    var last := digits[n];
    assert IsDigit(last) && Digit(DigitValue(last)) == last;
    assert digits == digits[..n] + [last];
    DecimalAppend(digits[..n], last);
    if n > 0 { DigitsAreTheirFormat(digits[..n]); }
  }

  function LeadingDigits(text: string): (digits: string)
    ensures digits <= text && AllDigits(digits)
    ensures |digits| < |text| ==> !IsDigit(text[|digits|])
  {
    if text == "" || !IsDigit(text[0]) then "" else [text[0]] + LeadingDigits(text[1..])
  }

  /** Digits that begin a text begin its leading digits. */
  lemma DigitsEnd(text: string, p: string)
    requires AllDigits(p)
    ensures p <= text <==> p <= LeadingDigits(text)
  {
    var digits := LeadingDigits(text);
    if |p| <= |digits| { assert digits[..|p|] == text[..|p|]; }
  }

  /** The message names port `q` at the colon at position `i`: its digits, all of
      them, follow. */
  predicate Names(message: string, i: nat, q: nat) {
    i < |message| && message[i] == ':' && LeadingDigits(message[i + 1..]) == Format(q)
  }

  lemma OccursIffBegins(message: string, word: string, i: nat)
    ensures OccursAt(message, ":" + word, i) <==> i < |message| && message[i] == ':' && word <= message[i + 1..]
  {
    var needle := ":" + word;
    if OccursAt(message, needle, i) {
      assert message[i] == message[i..i + |needle|][0] == ':';
      assert message[i + 1..][..|word|] == message[i..i + |needle|][1..] == word;
    }
    if i < |message| && message[i] == ':' && word <= message[i + 1..] {
      assert message[i..i + |needle|] == [':'] + message[i + 1..][..|word|] == needle;
    }
  }

  lemma NamedHeads(message: string, i: nat, q: nat, p: nat)
    requires Names(message, i, q)
    ensures OccursAt(message, ":" + Format(p), i) <==> Heads(p, q)
  {
    OccursIffBegins(message, Format(p), i);
    FormatReadsBack(p);
    DigitsEnd(message[i + 1..], Format(p));
    PrefixIffHeads(p, q);
  }

  lemma OccurrenceIsNamed(message: string, i: nat, p: nat) returns (q: nat)
    requires p > 0 && OccursAt(message, ":" + Format(p), i)
    ensures Names(message, i, q)
  {
    OccursIffBegins(message, Format(p), i);
    FormatReadsBack(p);
    NoLeadingZero(p);
    DigitsEnd(message[i + 1..], Format(p));
    var digits := LeadingDigits(message[i + 1..]);
    assert digits[0] == Format(p)[0];
    DigitsAreTheirFormat(digits);
    q := Decimal(digits);
  }

  /** For every message: the agent reads a port in it if and only if the message
      names that port, or one whose last digits cut off leave it. */
  lemma MentionedIffHeadsANamedPort(message: string, p: nat)
    requires p > 0
    ensures Mentions(message, p) <==> exists i: nat, q: nat :: Names(message, i, q) && Heads(p, q)
  {
    if Mentions(message, p) {
      var i: nat :| OccursAt(message, ":" + Format(p), i);
      var q := OccurrenceIsNamed(message, i, p);
      NamedHeads(message, i, q, p);
    }
    if i: nat, q: nat :| Names(message, i, q) && Heads(p, q) {
      NamedHeads(message, i, q, p);
    }
  }

  /** In an error that names one port `q`, whatever other colons it holds, the
      agent reads exactly `q` and the ports that head it. */
  lemma MentionedIffHeads(message: string, at: nat, q: nat, p: nat)
    requires p > 0 && Names(message, at, q)
    requires forall i :: 0 <= i < |message| - 1 && message[i] == ':' && IsDigit(message[i + 1]) ==> i == at
    ensures Mentions(message, p) <==> Heads(p, q)
  {
    MentionedIffHeadsANamedPort(message, p);
    forall i: nat, other: nat | Names(message, i, other) ensures i == at && other == q {
      FormatReadsBack(other);
      FormatReadsBack(q);
      assert message[i + 1..][0] == message[i + 1];
    }
  }

  /** The same for a message put together from its parts. */
  lemma SingleNameStrikesHeads(before: string, q: nat, after: string, p: nat)
    requires p > 0 && ':' !in before && (after != "" ==> !IsDigit(after[0]))
    requires forall i :: 0 <= i < |after| - 1 && after[i] == ':' ==> !IsDigit(after[i + 1])
    ensures Mentions(before + ":" + (Format(q) + after), p) <==> Heads(p, q)
  {
    var message, rest := before + ":" + (Format(q) + after), Format(q) + after;
    FormatReadsBack(q);
    NotInFormat(q, ':');
    assert message[|before| + 1..] == rest;
    LeadingPart(Format(q), after);
    assert Names(message, |before|, q);
    forall i | 0 <= i < |message| - 1 && message[i] == ':' && IsDigit(message[i + 1]) ensures i == |before| {
      assert rest == message[|before| + 1..];
    }
    MentionedIffHeads(message, |before|, q, p);
  }

  lemma {:induction false} LeadingPart(digits: string, after: string)
    requires AllDigits(digits) && (after != "" ==> !IsDigit(after[0]))
    ensures LeadingDigits(digits + after) == digits
  {
    if digits == "" {
      assert digits + after == after;
    } else {
      assert (digits + after)[1..] == digits[1..] + after;
      LeadingPart(digits[1..], after);
    }
  }

  /** Docker's own message for a taken port. */
  function BindFailure(q: nat): string {
    "Bind for 0.0.0.0" + ":" + (Format(q) + BIND_FAILURE_TAIL)
  }

  const BIND_FAILURE_TAIL := " failed" + ":" + " port is already allocated"

  /** A text with the one colon that separates its two parts. */
  lemma OneColon(a: string, b: string, i: nat)
    requires ':' !in a && ':' !in b && i < |a + ":" + b|
    ensures (a + ":" + b)[i] == ':' <==> i == |a|
  {
  }

  /** What the agent reads in it: the named port and those that head it. */
  lemma BindFailureStrikesHeads(q: nat, p: nat)
    requires p > 0
    ensures Mentions(BindFailure(q), p) <==> Heads(p, q)
  {
    var tail := BIND_FAILURE_TAIL;
    forall i | 0 <= i < |tail| - 1 && tail[i] == ':' ensures !IsDigit(tail[i + 1]) {
      OneColon(" failed", " port is already allocated", i);
    }
    SingleNameStrikesHeads("Bind for 0.0.0.0", q, tail, p);
  }

  /** So a key on port 4000 is reassigned for a conflict on port 40001. */
  lemma ConflictOn40001Strikes4000()
    ensures Mentions(BindFailure(40001), 4000) && !Mentions(BindFailure(40001), 40002)
  {
    BindFailureStrikesHeads(40001, 4000);
    BindFailureStrikesHeads(40001, 40002);
    PoolPortsAreToldApart(40002, 40001);
    assert 40001 / 10 == 4000;
  }
}
