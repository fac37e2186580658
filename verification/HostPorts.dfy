/** The host-port allocator of src/apps/hostports.go.

    A registry is two maps: which host port each key holds, and which host ports
    are taken. `Registry` is the value both maps form, `Apply` is what one call
    does to it, and the class at the end carries the calls out step by step. */
module HostPorts {
  import opened Wrappers

  const RANGE_START: nat := 40000
  const RANGE_END: nat := 49999

  datatype Key = Key(stage: Stage, appKey: nat, protocol: string, port: nat, service: string)

  datatype Registry = Registry(held: map<Key, nat>, inUse: set<nat>)

  const EMPTY := Registry(map[], {})

  /** One call on the registry. `refused` holds the pool ports the operating
      system would not let the agent bind while the call runs. */
  datatype Op =
    | Recover(key: Key, preferred: nat, refused: set<nat>)
    | Declare(key: Key)
    | Reassign(key: Key, refused: set<nat>)
    | Release(stage: Stage, appKey: nat)

  // ---------------------------------------------------------------------
  // What each call does
  // ---------------------------------------------------------------------

  function Record(r: Registry, key: Key, port: nat): Registry {
    Registry(r.held[key := port], r.inUse + {port})
  }

  /** The first port at or above `from` that is neither taken nor refused. */
  function LeastFree(taken: set<nat>, from: nat): Option<nat>
    decreases RANGE_END + 1 - from
  {
    if from > RANGE_END then None
    else if from !in taken then Some(from)
    else LeastFree(taken, from + 1)
  }

  function ReserveFree(r: Registry, key: Key, refused: set<nat>): (Registry, Option<nat>) {
    match LeastFree(r.inUse + refused, RANGE_START)
    case Some(port) => (Record(r, key, port), Some(port))
    case None => (r, None)
  }

  /** The registry once `key`'s current assignment is dropped. */
  function Dropped(r: Registry, key: Key): Registry {
    if key in r.held then Registry(r.held - {key}, r.inUse - {r.held[key]}) else r
  }

  predicate OwnedBy(key: Key, stage: Stage, appKey: nat) {
    key.stage == stage && key.appKey == appKey
  }

  function KeysOf(r: Registry, stage: Stage, appKey: nat): set<Key> {
    set k | k in r.held && OwnedBy(k, stage, appKey)
  }

  function Released(r: Registry, keys: set<Key>): Registry {
    Registry(r.held - keys, r.inUse - (set k | k in keys && k in r.held :: r.held[k]))
  }

  /** The registry after a call and the port the call handed to its key. */
  function Apply(r: Registry, op: Op): (Registry, Option<nat>) {
    match op
    case Recover(key, preferred, refused) =>
      if key in r.held then (r, Some(r.held[key]))
      else if preferred > 0 && preferred !in r.inUse then (Record(r, key, preferred), Some(preferred))
      else ReserveFree(r, key, refused)
    case Declare(key) =>
      if key in r.held && r.held[key] == key.port then (r, Some(key.port))
      else if key.port in r.inUse then (r, None)
      else (Record(r, key, key.port), Some(key.port))
    case Reassign(key, refused) => ReserveFree(Dropped(r, key), key, refused)
    case Release(stage, appKey) => (Released(r, KeysOf(r, stage, appKey)), None)
  }

  function After(r: Registry, ops: seq<Op>): Registry {
    if ops == [] then r else Apply(After(r, ops[..|ops| - 1]), ops[|ops| - 1]).0
  }

  // ---------------------------------------------------------------------
  // The pool scan
  // ---------------------------------------------------------------------

  predicate InPool(port: nat) {
    RANGE_START <= port <= RANGE_END
  }

  lemma {:induction false} LeastFreeIsLeast(taken: set<nat>, from: nat)
    ensures match LeastFree(taken, from)
            case Some(port) =>
              && from <= port <= RANGE_END && port !in taken
              && forall q :: from <= q < port ==> q in taken
            case None => forall q :: from <= q <= RANGE_END ==> q in taken
    decreases RANGE_END + 1 - from
  {
    if from <= RANGE_END && from in taken {
      LeastFreeIsLeast(taken, from + 1);
    }
  }

  function Ports(lo: nat, hi: nat): (ports: set<nat>)
    ensures forall p :: p in ports <==> lo <= p < hi
    decreases hi - lo
  {
    if lo < hi then {lo} + Ports(lo + 1, hi) else {}
  }

  lemma {:induction false} PortsCount(lo: nat, hi: nat)
    requires lo <= hi
    ensures |Ports(lo, hi)| == hi - lo
    decreases hi - lo
  {
    if lo < hi {
      PortsCount(lo + 1, hi);
    }
  }

  lemma SubsetCount<T>(a: set<T>, b: set<T>)
    requires a <= b
    ensures |a| <= |b|
  {
    assert b == a + (b - a);
  }

  /** The scan hands out the smallest pool port that is neither in use nor
      refused, and fails exactly when the pool has none. */
  lemma ScanIsLeastAndComplete(r: Registry, key: Key, refused: set<nat>)
    ensures var (after, port) := ReserveFree(r, key, refused);
            && (port.Some? <==> exists q :: InPool(q) && q !in r.inUse && q !in refused)
            && (port.Some? ==>
                  && InPool(port.value) && port.value !in r.inUse && port.value !in refused
                  && (forall q: nat :: InPool(q) && q < port.value ==> q in r.inUse || q in refused)
                  && after.held == r.held[key := port.value]
                  && after.inUse == r.inUse + {port.value})
            && (port.None? ==> after == r)
  {
    var taken := r.inUse + refused;
    LeastFreeIsLeast(taken, RANGE_START);
    match LeastFree(taken, RANGE_START) {
      case Some(port) =>
        assert InPool(port) && port !in r.inUse && port !in refused;
        forall q: nat | InPool(q) && q < port ensures q in r.inUse || q in refused { assert q in taken; }
      case None =>
        forall q | InPool(q) ensures q in r.inUse || q in refused { assert q in taken; }
    }
  }

  /** Pigeonhole: fewer blocked pool ports than the pool has leaves a free one. */
  lemma ScanSucceedsUnlessPoolIsFull(r: Registry, key: Key, refused: set<nat>)
    requires |(set p | p in r.inUse + refused && InPool(p))| < RANGE_END + 1 - RANGE_START
    ensures ReserveFree(r, key, refused).1.Some?
  {
    var blocked := set p | p in r.inUse + refused && InPool(p);
    LeastFreeIsLeast(r.inUse + refused, RANGE_START);
    if ReserveFree(r, key, refused).1.None? {
      assert Ports(RANGE_START, RANGE_END + 1) <= blocked;
      PortsCount(RANGE_START, RANGE_END + 1);
      SubsetCount(Ports(RANGE_START, RANGE_END + 1), blocked);
      assert false;
    }
  }

  /** What a failed call leaves behind: `Recover` and `Declare` change nothing,
      `Reassign` unassigns its own key and frees that key's port only. */
  lemma FailureLeaves(r: Registry, op: Op)
    requires !op.Release? && Apply(r, op).1.None?
    ensures op.Reassign? ==>
              && Apply(r, op).0.held == r.held - {op.key}
              && Apply(r, op).0.inUse
                 == r.inUse - (if op.key in r.held then {r.held[op.key]} else {})
    ensures !op.Reassign? ==> Apply(r, op).0 == r
  {
    if op.Reassign? && op.key !in r.held {
      assert r.held - {op.key} == r.held;
    }
  }

  /** Recovering a key gives it the port it holds; else the preferred port, if there is
      one and nobody has it; else the least free pool port. */
  lemma RecoverGives(r: Registry, key: Key, preferred: nat, refused: set<nat>)
    ensures var (after, port) := Apply(r, Recover(key, preferred, refused));
            && (key in r.held ==> after == r && port == Some(r.held[key]))
            && (key !in r.held && preferred != 0 && preferred !in r.inUse ==>
                  && port == Some(preferred)
                  && after.held == r.held[key := preferred] && after.inUse == r.inUse + {preferred})
            && (key !in r.held && (preferred == 0 || preferred in r.inUse) ==>
                  (after, port) == ReserveFree(r, key, refused))
  {
  }

  /** Declaring a key gives it its own port unless somebody else has that. */
  lemma DeclareGives(r: Registry, key: Key)
    requires Consistent(r)
    ensures var (after, port) := Apply(r, Declare(key));
            && (port == None <==> key.port in r.inUse && !(key in r.held && r.held[key] == key.port))
            && (port.Some? ==> port == Some(key.port) && after.held == r.held[key := key.port])
            && (port.Some? && key.port !in r.inUse ==> after.inUse == r.inUse + {key.port})
            && (key.port in r.inUse ==> after == r)
  {
    if key in r.held && r.held[key] == key.port { assert r.held[key := key.port] == r.held; }
  }

  /** Releasing an app drops the keys of that app in that stage, whatever protocol,
      port and service, and frees their ports; no other key is touched. */
  lemma ReleaseLeaves(r: Registry, stage: Stage, appKey: nat)
    ensures var after := Apply(r, Release(stage, appKey)).0;
            && (forall k :: k in after.held <==> k in r.held && (k.stage != stage || k.appKey != appKey))
            && (forall k :: k in after.held ==> after.held[k] == r.held[k])
            && (forall p :: p in after.inUse <==>
                  p in r.inUse && forall k :: k in r.held && k.stage == stage && k.appKey == appKey ==> r.held[k] != p)
  {
    var keys := KeysOf(r, stage, appKey);
    var freed := set k | k in keys && k in r.held :: r.held[k];
    forall k | k in r.held && k.stage == stage && k.appKey == appKey ensures r.held[k] in freed {
      assert k in keys;
    }
  }

  // ---------------------------------------------------------------------
  // Exclusivity over whole runs
  // ---------------------------------------------------------------------

  /** No two keys hold one port, and every held port is taken. Equality of the
      two sides is not an invariant, see `EveryTakenPortIsHeldUnlessAKeyMoved`. */
  ghost predicate Consistent(r: Registry) {
    && (forall k, l :: k in r.held && l in r.held && r.held[k] == r.held[l] ==> k == l)
    && (forall k :: k in r.held ==> r.held[k] in r.inUse)
  }

  type Grants = set<(Key, nat)>

  /** The key a call handed its port to. */
  function Handed(r: Registry, op: Op): Option<(Key, nat)> {
    if op.Release? then None
    else match Apply(r, op).1
      case Some(port) => Some((op.key, port))
      case None => None
  }

  predicate Ends(op: Op, key: Key) {
    match op
    case Reassign(k, _) => k == key
    case Release(stage, appKey) => OwnedBy(key, stage, appKey)
    case _ => false
  }

  /** The grants that outlive a call: those of keys it does not reassign or
      release, and the one it makes. A key that `Declare` moves keeps its old
      grant, whoever still publishes that port. */
  function LiveAfter(live: Grants, r: Registry, op: Op): Grants {
    (set g | g in live && !Ends(op, g.0))
    + match Handed(r, op) case Some(g) => {g} case None => {}
  }

  function Live(ops: seq<Op>): Grants {
    if ops == [] then {}
    else LiveAfter(Live(ops[..|ops| - 1]), After(EMPTY, ops[..|ops| - 1]), ops[|ops| - 1])
  }

  /** Live grants are disjoint, cover the assignments and are all in use. */
  ghost predicate Exclusive(r: Registry, live: Grants) {
    && (forall g, h :: g in live && h in live && g.1 == h.1 ==> g.0 == h.0)
    && (forall g :: g in live ==> g.1 in r.inUse)
    && (forall k :: k in r.held ==> (k, r.held[k]) in live)
  }

  lemma EndingKeepsExclusive(r: Registry, live: Grants, keys: set<Key>, rest: Grants)
    requires Exclusive(r, live) && rest <= live
    requires forall g :: g in rest ==> g.0 !in keys
    requires forall k :: k in r.held && k !in keys ==> (k, r.held[k]) in rest
    ensures Exclusive(Released(r, keys), rest)
  {
    var after := Released(r, keys);
    forall g | g in rest ensures g.1 in after.inUse {
      forall k | k in keys && k in r.held ensures r.held[k] != g.1 {
        assert (k, r.held[k]) in live;
      }
    }
  }

  lemma DroppingKeepsExclusive(r: Registry, live: Grants, key: Key, rest: Grants)
    requires Exclusive(r, live) && rest == set g | g in live && g.0 != key
    ensures Exclusive(Dropped(r, key), rest)
  {
    if key in r.held {
      assert Dropped(r, key) == Released(r, {key});
      EndingKeepsExclusive(r, live, {key}, rest);
    }
  }

  lemma RecoverKeepsExclusive(r: Registry, live: Grants, key: Key, preferred: nat, refused: set<nat>)
    requires Exclusive(r, live)
    ensures var (after, port) := Apply(r, Recover(key, preferred, refused));
            Exclusive(after, live + (match port case Some(p) => {(key, p)} case None => {}))
  {
    ScanIsLeastAndComplete(r, key, refused);
    if key in r.held { assert live + {(key, r.held[key])} == live; }
  }

  lemma StepKeepsExclusive(r: Registry, live: Grants, op: Op)
    requires Exclusive(r, live)
    ensures Exclusive(Apply(r, op).0, LiveAfter(live, r, op))
  {
    var rest := set g | g in live && !Ends(op, g.0);
    match op
    case Recover(key, preferred, refused) =>
      RecoverKeepsExclusive(r, live, key, preferred, refused);
      assert rest == live;
    case Declare(key) =>
      assert rest == live;
    case Reassign(key, refused) =>
      DroppingKeepsExclusive(r, live, key, rest);
      ScanIsLeastAndComplete(Dropped(r, key), key, refused);
    case Release(stage, appKey) =>
      EndingKeepsExclusive(r, live, KeysOf(r, stage, appKey), rest);
  }

  lemma {:induction false} RunIsExclusive(ops: seq<Op>)
    ensures Exclusive(After(EMPTY, ops), Live(ops))
    ensures Consistent(After(EMPTY, ops))
  {
    if ops != [] {
      var before := ops[..|ops| - 1];
      RunIsExclusive(before);
      StepKeepsExclusive(After(EMPTY, before), Live(before), ops[|ops| - 1]);
    }
  }

  /** The grant made by the call at position `i` of a run. */
  function GrantAt(ops: seq<Op>, i: nat): Option<(Key, nat)>
    requires i < |ops|
  {
    Handed(After(EMPTY, ops[..i]), ops[i])
  }

  /** What one more call on a history does to its live grants. */
  lemma LiveStep(log: seq<Op>, op: Op)
    ensures Live(log + [op]) == LiveAfter(Live(log), After(EMPTY, log), op)
    ensures After(EMPTY, log + [op]) == Apply(After(EMPTY, log), op).0
  {
    assert (log + [op])[..|log|] == log;
  }

  /** A live grant outlives any further calls that do not end it. */
  lemma {:induction false} LivePersists(log: seq<Op>, more: seq<Op>, g: (Key, nat))
    requires g in Live(log)
    requires forall i :: 0 <= i < |more| ==> !Ends(more[i], g.0)
    ensures g in Live(log + more)
  {
    if more == [] {
      assert log + more == log;
    } else {
      var n := |more| - 1;
      LivePersists(log, more[..n], g);
      assert log + more == (log + more[..n]) + [more[n]];
      LiveStep(log + more[..n], more[n]);
    }
  }

  lemma {:induction false} GrantStaysLive(ops: seq<Op>, i: nat, j: nat)
    requires i < j <= |ops| && GrantAt(ops, i).Some?
    requires forall m :: i < m < j ==> !Ends(ops[m], GrantAt(ops, i).value.0)
    ensures GrantAt(ops, i).value in Live(ops[..j])
    decreases j
  {
    assert ops[..j][..j - 1] == ops[..j - 1];
    if i + 1 < j {
      GrantStaysLive(ops, i, j - 1);
    }
  }

  /** A port handed to one key goes to a different key only after the first key
      was reassigned or its app released, however `Declare` moved it meanwhile. */
  lemma PortChangesHandsOnlyAfterItsGrantEnds(ops: seq<Op>, i: nat, j: nat)
    requires i < j < |ops| && GrantAt(ops, i).Some? && GrantAt(ops, j).Some?
    requires GrantAt(ops, i).value.1 == GrantAt(ops, j).value.1
    requires GrantAt(ops, i).value.0 != GrantAt(ops, j).value.0
    ensures exists m :: i < m < j && Ends(ops[m], GrantAt(ops, i).value.0)
  {
    var first, second := GrantAt(ops, i).value, GrantAt(ops, j).value;
    if forall m :: i < m < j ==> !Ends(ops[m], first.0) {
      GrantStaysLive(ops, i, j);
      RunIsExclusive(ops[..j]);
      GrantsAreOfFreePorts(After(EMPTY, ops[..j]), Live(ops[..j]), ops[j]);
      assert false;
    }
  }

  /** A call hands its key a port that no other key has a live grant for. */
  lemma GrantsAreOfFreePorts(r: Registry, live: Grants, op: Op)
    requires Exclusive(r, live) && Handed(r, op).Some?
    ensures forall g :: g in live && g.1 == Handed(r, op).value.1 ==> g.0 == Handed(r, op).value.0
  {
    var handed := Handed(r, op).value;
    match op
    case Recover(key, preferred, refused) => ScanIsLeastAndComplete(r, key, refused);
    case Declare(key) =>
    case Reassign(key, refused) =>
      ScanIsLeastAndComplete(Dropped(r, key), key, refused);
      if key in r.held { assert (key, r.held[key]) in live; }
  }

  // ---------------------------------------------------------------------
  // When the two maps agree exactly
  // ---------------------------------------------------------------------

  /** `Declare` takes its declared port although the key already holds another
      one; the old port stays taken. */
  predicate Moves(r: Registry, op: Op) {
    op.Declare? && op.key in r.held && r.held[op.key] != op.key.port && op.key.port !in r.inUse
  }

  /** The taken ports no key holds. */
  function Leaked(r: Registry): set<nat> {
    r.inUse - r.held.Values
  }

  lemma HeldIff(r: Registry, port: nat)
    ensures port in r.held.Values <==> exists k :: k in r.held && r.held[k] == port
  {
  }

  lemma RecordLeaks(r: Registry, key: Key, port: nat)
    requires Consistent(r) && port !in r.inUse
    ensures Leaked(Record(r, key, port))
            == Leaked(r) + (if key in r.held then {r.held[key]} else {})
  {
    var after := Record(r, key, port);
    forall q ensures q in Leaked(after)
                <==> q in Leaked(r) || (key in r.held && q == r.held[key])
    {
      HeldIff(r, q);
      HeldIff(after, q);
      assert key in after.held && after.held[key] == port;
      if q in Leaked(r) {
        forall k | k in after.held ensures after.held[k] != q {
          if k != key { assert k in r.held && r.held[k] == after.held[k]; }
        }
      }
      if key in r.held && q == r.held[key] {
        forall k | k in after.held ensures after.held[k] != q {
          if k != key { assert k in r.held && r.held[k] == after.held[k]; }
        }
      }
      if q in Leaked(after) {
        forall k | k in r.held && k != key ensures r.held[k] != q { assert after.held[k] == r.held[k]; }
      }
    }
  }

  lemma ReleasedLeaks(r: Registry, keys: set<Key>)
    requires Consistent(r)
    ensures Leaked(Released(r, keys)) == Leaked(r)
  {
    var after := Released(r, keys);
    forall q ensures q in Leaked(after) <==> q in Leaked(r) {
      HeldIff(r, q);
      HeldIff(after, q);
      if q in after.inUse && q in r.held.Values {
        var k :| k in r.held && r.held[k] == q;
        assert k !in keys;
        assert k in after.held && after.held[k] == q;
      }
    }
  }

  lemma StepLeaks(r: Registry, op: Op)
    requires Consistent(r)
    ensures Leaked(Apply(r, op).0)
            == Leaked(r) + (if Moves(r, op) then {r.held[op.key]} else {})
  {
    match op
    case Recover(key, preferred, refused) =>
      ScanIsLeastAndComplete(r, key, refused);
      if key !in r.held && Apply(r, op).1.Some? {
        RecordLeaks(r, key, Apply(r, op).1.value);
      }
    case Declare(key) =>
      if key.port !in r.inUse { RecordLeaks(r, key, key.port); }
    case Reassign(key, refused) =>
      var dropped := Dropped(r, key);
      assert dropped == if key in r.held then Released(r, {key}) else r;
      ReleasedLeaks(r, {key});
      ScanIsLeastAndComplete(dropped, key, refused);
      if Apply(r, op).1.Some? {
        RecordLeaks(dropped, key, Apply(r, op).1.value);
      }
    case Release(stage, appKey) =>
      ReleasedLeaks(r, KeysOf(r, stage, appKey));
  }

  ghost predicate EverMoved(ops: seq<Op>) {
    exists i :: 0 <= i < |ops| && MovesAt(ops, i)
  }

  predicate MovesAt(ops: seq<Op>, i: nat)
    requires i < |ops|
  {
    Moves(After(EMPTY, ops[..i]), ops[i])
  }

  lemma MovedByLastOrBefore(ops: seq<Op>)
    requires ops != []
    ensures var n := |ops| - 1; EverMoved(ops) <==> EverMoved(ops[..n]) || MovesAt(ops, n)
  {
    var n := |ops| - 1;
    forall i | 0 <= i < n ensures MovesAt(ops, i) == MovesAt(ops[..n], i) {
      assert ops[..n][..i] == ops[..i];
    }
  }

  lemma {:induction false} LeaksOnlyByMoving(ops: seq<Op>)
    ensures Leaked(After(EMPTY, ops)) != {} <==> EverMoved(ops)
  {
    if ops != [] {
      var n := |ops| - 1;
      LeaksOnlyByMoving(ops[..n]);
      RunIsExclusive(ops[..n]);
      StepLeaks(After(EMPTY, ops[..n]), ops[n]);
      MovedByLastOrBefore(ops);
    }
  }

  /** A run ends with the taken ports being exactly the held ones if and only if
      no `Declare` in it moved a key that held another port. */
  lemma EveryTakenPortIsHeldUnlessAKeyMoved(ops: seq<Op>)
    ensures After(EMPTY, ops).inUse == After(EMPTY, ops).held.Values <==> !EverMoved(ops)
  {
    RunIsExclusive(ops);
    LeaksOnlyByMoving(ops);
    var r := After(EMPTY, ops);
    assert r.held.Values <= r.inUse;
    assert r.inUse == r.held.Values <==> Leaked(r) == {};
  }

  /** Such a run: a DEV app's key is recovered on a port the cloud remembers, then
      declares its own. The remembered port stays taken and nobody holds it. */
  lemma RecoveredThenDeclared(key: Key, remembered: nat) returns (ops: seq<Op>)
    requires 0 < remembered != key.port
    ensures ops == [Recover(key, remembered, {}), Declare(key)] && EverMoved(ops)
    ensures After(EMPTY, ops).held == map[key := key.port] && After(EMPTY, ops).inUse == {remembered, key.port}
  {
    ops := [Recover(key, remembered, {}), Declare(key)];
    var first := Registry(map[key := remembered], {remembered});
    AfterOne(ops[0], first);
    assert ops[..1] == [ops[0]];
    assert MovesAt(ops, 1);
    assert Record(first, key, key.port).held == map[key := key.port];
  }

  lemma AfterOne(op: Op, r: Registry)
    requires Apply(EMPTY, op).0 == r
    ensures After(EMPTY, [op]) == r
  {
    assert [op][..0] == [];
  }

  // ---------------------------------------------------------------------
  // What a held key can rely on
  // ---------------------------------------------------------------------

  predicate Disturbs(op: Op, key: Key) {
    Ends(op, key) || (op.Declare? && op.key == key)
  }

  /** A held key keeps its port through any calls that do not reassign, declare
      or release it, and `Recover` then returns that port whatever it prefers. */
  lemma {:induction false} HeldKeyKeepsItsPort(r: Registry, ops: seq<Op>, key: Key, preferred: nat, refused: set<nat>)
    requires key in r.held
    requires forall i :: 0 <= i < |ops| ==> !Disturbs(ops[i], key)
    ensures key in After(r, ops).held && After(r, ops).held[key] == r.held[key]
    ensures Apply(After(r, ops), Recover(key, preferred, refused)) == (After(r, ops), Some(r.held[key]))
  {
    if ops != [] {
      var n := |ops| - 1;
      HeldKeyKeepsItsPort(r, ops[..n], key, preferred, refused);
      assert !Disturbs(ops[n], key);
    }
  }

  // ---------------------------------------------------------------------
  // The registry object
  // ---------------------------------------------------------------------

  predicate Matches(key: Key, stage: Stage, appKey: nat, protocol: string, port: nat) {
    key.stage == stage && key.appKey == appKey && key.protocol == protocol && key.port == port
  }

  lemma ReleaseOneMore(r: Registry, gone: set<Key>, key: Key)
    requires key in r.held && key !in gone
    ensures key in Released(r, gone).held && Released(r, gone).held[key] == r.held[key]
    ensures Released(r, gone + {key}).held == Released(r, gone).held - {key}
    ensures Released(r, gone + {key}).inUse == Released(r, gone).inUse - {r.held[key]}
  {
  }

  /** The registry object. `log` is the history of calls made on it so far. */
  class HostPortRegistry {
    var held: map<Key, nat>
    var inUse: set<nat>
    ghost var log: seq<Op>

    ghost function View(): Registry
      reads this
    {
      Registry(held, inUse)
    }

    ghost predicate Valid()
      reads this
    {
      View() == After(EMPTY, log)
    }

    constructor ()
      ensures Valid() && View() == EMPTY && log == []
    {
      held, inUse, log := map[], {}, [];
    }

    method Get(key: Key) returns (port: Option<nat>)
      ensures port == if key in View().held then Some(View().held[key]) else None
    {
      port := if key in held then Some(held[key]) else None;
    }

    /** Any assignment of the declared port, whatever its service; the walk
        over the map has no fixed order. */
    method GetByPort(stage: Stage, appKey: nat, protocol: string, port: nat) returns (hostPort: Option<nat>)
      ensures hostPort.Some? ==> exists k :: k in held && Matches(k, stage, appKey, protocol, port)
                                             && held[k] == hostPort.value
      ensures hostPort.None? ==> forall k :: k in held ==> !Matches(k, stage, appKey, protocol, port)
    {
      var unseen := held.Keys;
      while unseen != {}
        invariant unseen <= held.Keys
        invariant forall k :: k in held && k !in unseen ==> !Matches(k, stage, appKey, protocol, port)
      {
        var key :| key in unseen;
        if Matches(key, stage, appKey, protocol, port) {
          return Some(held[key]);
        }
        unseen := unseen - {key};
      }
      hostPort := None;
    }

    method RecoverOrReserve(key: Key, preferred: nat, refused: set<nat>) returns (port: Option<nat>)
      requires Valid()
      modifies this
      ensures Valid() && log == old(log) + [Recover(key, preferred, refused)]
      ensures (View(), port) == Apply(old(View()), Recover(key, preferred, refused))
    {
      log := log + [Recover(key, preferred, refused)];
      assert log[..|log| - 1] == old(log);
      if key in held {
        return Some(held[key]);
      }
      if preferred > 0 {
        if preferred !in inUse {
          RecordPort(key, preferred);
          return Some(preferred);
        }
      }
      port := ReserveFreeLocked(key, refused);
    }

    method ReserveDeclared(key: Key) returns (ok: bool)
      requires Valid()
      modifies this
      ensures Valid() && log == old(log) + [Declare(key)]
      ensures View() == Apply(old(View()), Declare(key)).0
      ensures ok == Apply(old(View()), Declare(key)).1.Some?
    {
      log := log + [Declare(key)];
      assert log[..|log| - 1] == old(log);
      if key in held && held[key] == key.port {
        return true;
      }
      if key.port in inUse {
        return false;
      }
      RecordPort(key, key.port);
      ok := true;
    }

    method ReassignFresh(key: Key, refused: set<nat>) returns (port: Option<nat>)
      requires Valid()
      modifies this
      ensures Valid() && log == old(log) + [Reassign(key, refused)]
      ensures (View(), port) == Apply(old(View()), Reassign(key, refused))
    {
      log := log + [Reassign(key, refused)];
      assert log[..|log| - 1] == old(log);
      if key in held {
        var oldPort := held[key];
        held := held - {key};
        inUse := inUse - {oldPort};
      }
      port := ReserveFreeLocked(key, refused);
    }

    method ReleaseApp(stage: Stage, appKey: nat)
      requires Valid()
      modifies this
      ensures Valid() && log == old(log) + [Release(stage, appKey)]
      ensures View() == Apply(old(View()), Release(stage, appKey)).0
    {
      ghost var r := View();
      ghost var all := KeysOf(r, stage, appKey);
      var unseen := held.Keys;
      ghost var gone: set<Key> := {};
      while unseen != {}
        invariant unseen <= r.held.Keys
        invariant gone == all - unseen
        invariant View() == Released(r, gone)
        invariant log == old(log)
      {
        var key :| key in unseen;
        if OwnedBy(key, stage, appKey) {
          ReleaseOneMore(r, gone, key);
          var port := held[key];
          held := held - {key};
          inUse := inUse - {port};
          gone := gone + {key};
        }
        unseen := unseen - {key};
      }
      assert gone == all;
      log := log + [Release(stage, appKey)];
      assert log[..|log| - 1] == old(log);
    }

    method ReserveFreeLocked(key: Key, refused: set<nat>) returns (found: Option<nat>)
      modifies this`held, this`inUse
      ensures (View(), found) == ReserveFree(old(View()), key, refused)
    {
      ghost var taken := inUse + refused;
      var port := RANGE_START;
      while port <= RANGE_END
        invariant RANGE_START <= port <= RANGE_END + 1
        invariant View() == old(View())
        invariant LeastFree(taken, RANGE_START) == LeastFree(taken, port)
      {
        if port !in inUse && port !in refused {
          RecordPort(key, port);
          return Some(port);
        }
        port := port + 1;
      }
      found := None;
    }

    method RecordPort(key: Key, port: nat)
      modifies this`held, this`inUse
      ensures View() == Record(old(View()), key, port)
    {
      held := held[key := port];
      inUse := inUse + {port};
    }
  }
}
