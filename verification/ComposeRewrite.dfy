/** The two clients of the host-port registry in src/apps/hostports_resolve.go:
    the compose rewriter and the tunnel resolver. */
module ComposeRewrite {
  import opened Wrappers
  import opened HostPorts
  import opened Texts
  import opened ComposePorts

  const BIND_IP := "0.0.0.0"

  datatype App = App(stage: Stage, appKey: nat)

  datatype Rule = Rule(port: nat, protocol: string, localIP: string, hostPort: nat)

  /** A compose service: its `ports:` list, or none the agent can read. */
  datatype Service = Ports(ports: seq<Value>) | Unported

  type Services = map<string, Service>

  /** Host ports the running project publishes, keyed as docker reports them. */
  type Published = map<string, nat>

  function PublishedKey(service: string, port: nat, protocol: string): string {
    service + "|" + Format(port) + "/" + protocol
  }

  /** Docker's keys tell port and protocol of a service apart. */
  lemma PublishedKeysDiffer(service: string, port: nat, protocol: string, otherPort: nat, otherProtocol: string)
    requires |protocol| == |otherProtocol|
    requires PublishedKey(service, port, protocol) == PublishedKey(service, otherPort, otherProtocol)
    ensures port == otherPort && protocol == otherProtocol
  {
    var a, b := Format(port), Format(otherPort);
    var key, start := PublishedKey(service, port, protocol), |service| + 1;
    FormatReadsBack(port);
    FormatReadsBack(otherPort);
    assert |a| == |b|;
    assert key[start..start + |a|] == a && key[start..start + |a|] == b;
    assert key[start + |a| + 1..] == protocol && key[start + |a| + 1..] == otherProtocol;
  }

  function Lookup(ports: Published, key: string): nat {
    if key in ports then ports[key] else 0
  }

  function KeyOf(app: App, service: string, e: Entry): Key {
    Key(app.stage, app.appKey, e.protocol, DeclaredPort(e), service)
  }

  predicate RuleFor(rule: Rule, e: Entry) {
    rule.localIP == "" && MatchesRule(e, rule.port, rule.protocol)
  }

  /** A rule is for an entry the agent understands, not for another address, and
      names the entry's host port, or its container port when no host port is
      authored; every protocol but udp counts as tcp. */
  lemma RuleForMeans(rule: Rule, e: Entry)
    ensures RuleFor(rule, e)
            <==> && rule.localIP == "" && e.rewritable
                 && ((e.hostPort != 0 && rule.port == e.hostPort) || (e.hostPort == 0 && rule.port == e.containerPort))
                 && ((rule.protocol == "udp" && e.protocol == "udp") || (rule.protocol != "udp" && e.protocol == "tcp"))
  {
  }

  ghost predicate HasRule(rules: seq<Rule>, e: Entry) {
    exists i :: 0 <= i < |rules| && RuleFor(rules[i], e)
  }

  /** Entries the rewrite publishes on a managed port. */
  ghost predicate Managed(rules: seq<Rule>, e: Entry) {
    e.rewritable && (e.hostPort != 0 || HasRule(rules, e))
  }

  // ---------------------------------------------------------------------
  // What a rewritten service looks like
  // ---------------------------------------------------------------------

  /** One entry before and after: unmanaged entries are untouched, every other
      one publishes a port that is granted to the entry's own key. */
  ghost predicate EntryRewritten(
      app: App, service: string, rules: seq<Rule>, before: Value, after: Value, live: Grants) {
    var e := ParseEntry(before);
    if Managed(rules, e)
    then exists port :: (KeyOf(app, service, e), port) in live && after == RewriteEntry(e, BIND_IP, port)
    else after == before
  }

  /** The same with the port the registry holds for the key right now. */
  ghost predicate EntryHolds(
      app: App, service: string, rules: seq<Rule>, before: Value, after: Value, held: map<Key, nat>) {
    var e := ParseEntry(before);
    Managed(rules, e) ==>
      KeyOf(app, service, e) in held && after == RewriteEntry(e, BIND_IP, held[KeyOf(app, service, e)])
  }

  ghost predicate Rewritten(
      app: App, service: string, rules: seq<Rule>, before: seq<Value>, after: seq<Value>, live: Grants) {
    && |after| == |before|
    && forall i :: 0 <= i < |before| ==> EntryRewritten(app, service, rules, before[i], after[i], live)
  }

  ghost predicate Holds(
      app: App, service: string, rules: seq<Rule>, before: seq<Value>, after: seq<Value>, held: map<Key, nat>) {
    && |after| == |before|
    && forall i :: 0 <= i < |before| ==> EntryHolds(app, service, rules, before[i], after[i], held)
  }

  /** The calls of a rewrite: reservations only, all for this app. */
  ghost predicate Reserves(app: App, ops: seq<Op>) {
    forall i :: 0 <= i < |ops| ==>
      && (ops[i].Recover? || (ops[i].Declare? && app.stage.DEV?))
      && OwnedBy(ops[i].key, app.stage, app.appKey)
  }

  /** Every key is an old one or belongs to a rewritable entry of the services. */
  ghost predicate KeysFrom(app: App, services: Services, before: set<Key>, after: set<Key>) {
    forall k :: k in after && k !in before ==> FromEntry(app, services, k)
  }

  ghost predicate FromEntry(app: App, services: Services, k: Key) {
    exists name: string, i: nat :: EntryAt(services, name, i) && KeyFrom(app, name, services[name].ports[i], k)
  }

  predicate EntryAt(services: Services, name: string, i: nat) {
    name in services && services[name].Ports? && i < |services[name].ports|
  }

  lemma {:induction false} ReservesEndNothing(app: App, ops: seq<Op>, key: Key)
    requires Reserves(app, ops)
    ensures forall i :: 0 <= i < |ops| ==> !Ends(ops[i], key)
    ensures app.stage.PROD? ==> forall i :: 0 <= i < |ops| ==> !Disturbs(ops[i], key)
  {
    forall i | 0 <= i < |ops| ensures !Ends(ops[i], key) && (app.stage.PROD? ==> !Disturbs(ops[i], key)) {
      assert ops[i].Recover? || ops[i].Declare?;
    }
  }

  lemma LiveGrows(app: App, log: seq<Op>, more: seq<Op>)
    requires Reserves(app, more)
    ensures Live(log) <= Live(log + more)
  {
    forall g | g in Live(log) ensures g in Live(log + more) {
      ReservesEndNothing(app, more, g.0);
      LivePersists(log, more, g);
    }
  }

  /** A growing history keeps what was rewritten before it grew. */
  lemma RewrittenStays(
      app: App, service: string, rules: seq<Rule>, before: seq<Value>, after: seq<Value>, live: Grants,
      later: Grants)
    requires Rewritten(app, service, rules, before, after, live) && live <= later
    ensures Rewritten(app, service, rules, before, after, later)
  {
    forall i | 0 <= i < |before| ensures EntryRewritten(app, service, rules, before[i], after[i], later) {
      assert EntryRewritten(app, service, rules, before[i], after[i], live);
    }
  }

  ghost predicate Extends(held: map<Key, nat>, later: map<Key, nat>) {
    forall k :: k in held ==> k in later && later[k] == held[k]
  }

  lemma HoldsStays(
      app: App, service: string, rules: seq<Rule>, before: seq<Value>, after: seq<Value>, held: map<Key, nat>,
      later: map<Key, nat>)
    requires Holds(app, service, rules, before, after, held) && Extends(held, later)
    ensures Holds(app, service, rules, before, after, later)
  {
    forall i | 0 <= i < |before| ensures EntryHolds(app, service, rules, before[i], after[i], later) {
      assert EntryHolds(app, service, rules, before[i], after[i], held);
    }
  }

  // ---------------------------------------------------------------------
  // The rewriter
  // ---------------------------------------------------------------------

  /** Position `i` holds the first rule that matches. */
  ghost predicate FirstAt(rules: seq<Rule>, e: Entry, i: nat) {
    i < |rules| && RuleFor(rules[i], e) && forall j :: 0 <= j < i ==> !RuleFor(rules[j], e)
  }

  method FindRule(rules: seq<Rule>, e: Entry) returns (rule: Option<Rule>)
    ensures rule.Some? <==> HasRule(rules, e)
    ensures rule.Some? ==> exists i: nat :: FirstAt(rules, e, i) && rule == Some(rules[i])
  {
    for i := 0 to |rules|
      invariant forall j :: 0 <= j < i ==> !RuleFor(rules[j], e)
    {
      if RuleFor(rules[i], e) {
        assert FirstAt(rules, e, i);
        return Some(rules[i]);
      }
    }
    rule := None;
  }

  /** Reserves the port for one managed entry. */
  method ReserveEntry(
      reg: HostPortRegistry, app: App, service: string, e: Entry, preferred: nat)
    returns (port: Option<nat>)
    requires reg.Valid()
    modifies reg
    ensures reg.Valid() && old(reg.log) <= reg.log && Reserves(app, reg.log[|old(reg.log)|..])
    ensures port.Some? ==> (KeyOf(app, service, e), port.value) in Live(reg.log)
    ensures app.stage.PROD? ==> Extends(old(reg.held), reg.held)
    ensures port.Some? ==> KeyOf(app, service, e) in reg.held && reg.held[KeyOf(app, service, e)] == port.value
    ensures reg.held.Keys <= old(reg.held).Keys + {KeyOf(app, service, e)}
    ensures app.stage.PROD? || preferred > 0 ==> Recovered(old(reg.View()), KeyOf(app, service, e), preferred, port)
    ensures app.stage.DEV? && preferred == 0 && DeclaredPort(e) !in old(reg.inUse) ==> port == Some(DeclaredPort(e))
    ensures forall i :: |old(reg.log)| <= i < |reg.log| ==>
              || Asks(reg.log[i], KeyOf(app, service, e), preferred)
              || (app.stage.DEV? && preferred == 0 && reg.log[i] == Declare(KeyOf(app, service, e)))
    ensures port.None? ==> |old(reg.log)| < |reg.log| && LastCallFailed(reg.log)
  {
    var key := KeyOf(app, service, e);
    if app.stage.DEV? && preferred == 0 {
      var declared := DeclareKey(reg, key);
      if declared {
        return Some(key.port);
      }
    }
    port := RecoverKey(reg, key, preferred);
  }

  /** The last call on the registry handed out no port. */
  ghost predicate LastCallFailed(log: seq<Op>) {
    log != [] && GrantAt(log, |log| - 1).None?
  }

  /** The call recovers `key`, preferring `preferred`. */
  predicate Asks(op: Op, key: Key, preferred: nat) {
    op.Recover? && op.key == key && op.preferred == preferred
  }

  method DeclareKey(reg: HostPortRegistry, key: Key) returns (ok: bool)
    requires reg.Valid()
    modifies reg
    ensures reg.Valid() && reg.log == old(reg.log) + [Declare(key)]
    ensures ok ==> Granted(reg, key, key.port)
    ensures key.port !in old(reg.inUse) ==> ok
    ensures reg.held.Keys <= old(reg.held).Keys + {key}
  {
    LiveStep(reg.log, Declare(key));
    ok := reg.ReserveDeclared(key);
  }

  method RecoverKey(reg: HostPortRegistry, key: Key, preferred: nat) returns (port: Option<nat>)
    requires reg.Valid()
    modifies reg
    ensures reg.Valid() && old(reg.log) <= reg.log && |reg.log| == |old(reg.log)| + 1
    ensures Asks(reg.log[|old(reg.log)|], key, preferred)
    ensures port.Some? ==> Granted(reg, key, port.value)
    ensures Extends(old(reg.held), reg.held) && reg.held.Keys <= old(reg.held).Keys + {key}
    ensures Recovered(old(reg.View()), key, preferred, port)
    ensures port.None? ==> LastCallFailed(reg.log)
  {
    var refused: set<nat> := *;
    LiveStep(reg.log, Recover(key, preferred, refused));
    port := reg.RecoverOrReserve(key, preferred, refused);
  }

  /** A key that holds a port gets that one back; any other gets the preferred
      port as long as that is free. */
  ghost predicate Recovered(before: Registry, key: Key, preferred: nat, port: Option<nat>) {
    && (key in before.held ==> port == Some(before.held[key]))
    && (key !in before.held && 0 < preferred && preferred !in before.inUse ==> port == Some(preferred))
  }

  /** The key holds the port, and the grant is live. */
  ghost predicate Granted(reg: HostPortRegistry, key: Key, port: nat)
    reads reg
  {
    (key, port) in Live(reg.log) && key in reg.held && reg.held[key] == port
  }

  /** The port the cloud remembers for an entry: that of the first rule that
      matches, none without a matching rule. */
  ghost predicate Remembers(rules: seq<Rule>, e: Entry, remembered: nat) {
    if HasRule(rules, e) then exists i: nat :: FirstAt(rules, e, i) && remembered == rules[i].hostPort
    else remembered == 0
  }

  /** What a managed entry publishes. Wanted is what the running project publishes
      for it, else what the cloud remembers. A key that holds a port publishes it
      again; a fresh one publishes the wanted port, if that is free. A DEV entry
      nothing is wanted for publishes its declared port, if that is free. */
  ghost predicate Republished(
      stage: Stage, before: Registry, key: Key, e: Entry, wanted: nat, rewritten: Option<Value>) {
    if stage.DEV? && wanted == 0
    then DeclaredPort(e) !in before.inUse ==> rewritten == Some(RewriteEntry(e, BIND_IP, DeclaredPort(e)))
    else
      && (key in before.held ==> rewritten == Some(RewriteEntry(e, BIND_IP, before.held[key])))
      && (key !in before.held && 0 < wanted && wanted !in before.inUse ==>
            rewritten == Some(RewriteEntry(e, BIND_IP, wanted)))
  }

  /** The port wanted for an entry. */
  ghost predicate Wants(
      service: string, rules: seq<Rule>, published: Published, e: Entry, wanted: nat) {
    var running := Lookup(published, PublishedKey(service, e.containerPort, e.protocol));
    if running != 0 then wanted == running else Remembers(rules, e, wanted)
  }

  /** A call the rewriter makes for one entry: it recovers the entry's key with the
      wanted port, or declares it for a DEV entry nothing is wanted for. */
  ghost predicate CallFor(
      app: App, service: string, rules: seq<Rule>, published: Published, raw: Value, op: Op) {
    var e := ParseEntry(raw);
    && Managed(rules, e)
    && exists wanted: nat ::
         && Wants(service, rules, published, e, wanted)
         && (Asks(op, KeyOf(app, service, e), wanted)
             || (app.stage.DEV? && wanted == 0 && op == Declare(KeyOf(app, service, e))))
  }

  ghost predicate CallsFor(
      app: App, service: string, rules: seq<Rule>, published: Published, ports: seq<Value>, ops: seq<Op>) {
    forall i :: 0 <= i < |ops| ==> CallForOne(app, service, rules, published, ports, ops[i])
  }

  ghost predicate CallForOne(
      app: App, service: string, rules: seq<Rule>, published: Published, ports: seq<Value>, op: Op) {
    exists n :: 0 <= n < |ports| && CallFor(app, service, rules, published, ports[n], op)
  }

  /** Every call of a whole rewrite is one of these, for some entry. */
  ghost predicate AllCallsFor(app: App, services: Services, rules: seq<Rule>, published: Published, ops: seq<Op>) {
    forall i :: 0 <= i < |ops| ==> CallForSome(app, services, rules, published, ops[i])
  }

  ghost predicate CallForSome(app: App, services: Services, rules: seq<Rule>, published: Published, op: Op) {
    exists name :: name in services && services[name].Ports?
                   && CallForOne(app, name, rules, published, services[name].ports, op)
  }

  lemma MoreCallsFor(
      app: App, service: string, rules: seq<Rule>, published: Published, ports: seq<Value>, n: nat,
      start: seq<Op>, log: seq<Op>, now: seq<Op>)
    requires n < |ports| && start <= log <= now
    requires CallsFor(app, service, rules, published, ports, log[|start|..])
    requires forall i :: |log| <= i < |now| ==> CallFor(app, service, rules, published, ports[n], now[i])
    ensures CallsFor(app, service, rules, published, ports, now[|start|..])
  {
    var ops := now[|start|..];
    forall i | 0 <= i < |ops| ensures CallForOne(app, service, rules, published, ports, ops[i]) {
      if i < |log| - |start| {
        assert ops[i] == log[|start|..][i];
      } else {
        assert ops[i] == now[|start| + i];
      }
    }
  }

  lemma MoreServices(
      app: App, services: Services, name: string, rules: seq<Rule>, published: Published,
      start: seq<Op>, log: seq<Op>, now: seq<Op>)
    requires name in services && services[name].Ports? && start <= log <= now
    requires AllCallsFor(app, services, rules, published, log[|start|..])
    requires CallsFor(app, name, rules, published, services[name].ports, now[|log|..])
    ensures AllCallsFor(app, services, rules, published, now[|start|..])
  {
    var ops := now[|start|..];
    forall i | 0 <= i < |ops| ensures CallForSome(app, services, rules, published, ops[i]) {
      if i < |log| - |start| {
        assert ops[i] == log[|start|..][i];
      } else {
        assert ops[i] == now[|log|..][i - (|log| - |start|)];
      }
    }
  }

  method RewriteOne(
      reg: HostPortRegistry, app: App, service: string, raw: Value, rules: seq<Rule>, published: Published)
    returns (rewritten: Option<Value>)
    requires reg.Valid()
    modifies reg
    ensures reg.Valid() && old(reg.log) <= reg.log && Reserves(app, reg.log[|old(reg.log)|..])
    ensures rewritten.Some? ==> EntryRewritten(app, service, rules, raw, rewritten.value, Live(reg.log))
    ensures app.stage.PROD? ==> Extends(old(reg.held), reg.held)
    ensures app.stage.PROD? && rewritten.Some? ==> EntryHolds(app, service, rules, raw, rewritten.value, reg.held)
    ensures forall k :: k in reg.held && k !in old(reg.held) ==> KeyFrom(app, service, raw, k)
    ensures Managed(rules, ParseEntry(raw)) ==>
              var e := ParseEntry(raw);
              var running := Lookup(published, PublishedKey(service, e.containerPort, e.protocol));
              exists wanted: nat ::
                && Wants(service, rules, published, e, wanted)
                && Republished(app.stage, old(reg.View()), KeyOf(app, service, e), e, wanted, rewritten)
    ensures forall i :: |old(reg.log)| <= i < |reg.log| ==>
              CallFor(app, service, rules, published, raw, reg.log[i])
    ensures rewritten.None? ==> |old(reg.log)| < |reg.log| && LastCallFailed(reg.log)
  {
    var e := ParseEntry(raw);
    var rule := FindRule(rules, e);
    if !e.rewritable || (e.hostPort == 0 && rule.None?) {
      return Some(raw);
    }
    var preferred := Lookup(published, PublishedKey(service, e.containerPort, e.protocol));
    if preferred == 0 && rule.Some? {
      preferred := rule.value.hostPort;
    }
    assert Wants(service, rules, published, e, preferred);
    var port := ReserveEntry(reg, app, service, e, preferred);
    if port.None? {
      return None;
    }
    rewritten := Some(RewriteEntry(e, BIND_IP, port.value));
  }

  method RewriteService(
      reg: HostPortRegistry, app: App, service: string, ports: seq<Value>, rules: seq<Rule>, published: Published)
    returns (rewritten: seq<Value>, ok: bool)
    requires reg.Valid()
    modifies reg
    ensures reg.Valid() && old(reg.log) <= reg.log && Reserves(app, reg.log[|old(reg.log)|..])
    ensures ok ==> Rewritten(app, service, rules, ports, rewritten, Live(reg.log))
    ensures app.stage.PROD? ==> Extends(old(reg.held), reg.held)
    ensures app.stage.PROD? && ok ==> Holds(app, service, rules, ports, rewritten, reg.held)
    ensures forall k :: k in reg.held && k !in old(reg.held) ==>
              exists i :: 0 <= i < |ports| && KeyFrom(app, service, ports[i], k)
    ensures CallsFor(app, service, rules, published, ports, reg.log[|old(reg.log)|..])
    ensures !ok ==> |old(reg.log)| < |reg.log| && LastCallFailed(reg.log)
  {
    rewritten := [];
    ghost var start := reg.log;
    for n := 0 to |ports|
      invariant reg.Valid() && start <= reg.log && Reserves(app, reg.log[|start|..])
      invariant Rewritten(app, service, rules, ports[..n], rewritten, Live(reg.log))
      invariant app.stage.PROD? ==> Extends(old(reg.held), reg.held)
      invariant app.stage.PROD? ==> Holds(app, service, rules, ports[..n], rewritten, reg.held)
      invariant forall k :: k in reg.held && k !in old(reg.held) ==>
                  exists i :: 0 <= i < n && KeyFrom(app, service, ports[i], k)
      invariant CallsFor(app, service, rules, published, ports, reg.log[|start|..])
    {
      ghost var log, held, done := reg.log, reg.held, rewritten;
      var entry := RewriteOne(reg, app, service, ports[n], rules, published);
      ExtendLog(app, start, log, reg.log);
      MoreCallsFor(app, service, rules, published, ports, n, start, log, reg.log);
      if entry.None? {
        return rewritten, false;
      }
      rewritten := rewritten + [entry.value];
      RewrittenStays(app, service, rules, ports[..n], done, Live(log), Live(reg.log));
      RewrittenAppend(app, service, rules, ports, n, done, entry.value, Live(reg.log));
      if app.stage.PROD? {
        HoldsStays(app, service, rules, ports[..n], done, held, reg.held);
        HoldsAppend(app, service, rules, ports, n, done, entry.value, reg.held);
      }
    }
    assert ports[..|ports|] == ports;
    ok := true;
  }

  ghost predicate KeyFrom(app: App, service: string, raw: Value, k: Key) {
    ParseEntry(raw).rewritable && k == KeyOf(app, service, ParseEntry(raw))
  }

  lemma ExtendLog(app: App, start: seq<Op>, log: seq<Op>, now: seq<Op>)
    requires start <= log <= now && Reserves(app, log[|start|..]) && Reserves(app, now[|log|..])
    ensures start <= now && Reserves(app, now[|start|..]) && Live(log) <= Live(now)
  {
    var more := now[|log|..];
    assert now == log + more;
    assert now[|start|..] == log[|start|..] + more;
    LiveGrows(app, log, more);
  }

  lemma RewrittenAppend(
      app: App, service: string, rules: seq<Rule>, ports: seq<Value>, n: nat, done: seq<Value>, next: Value,
      live: Grants)
    requires n < |ports| && Rewritten(app, service, rules, ports[..n], done, live)
    requires EntryRewritten(app, service, rules, ports[n], next, live)
    ensures Rewritten(app, service, rules, ports[..n + 1], done + [next], live)
  {
    forall i | 0 <= i < n + 1 ensures EntryRewritten(app, service, rules, ports[..n + 1][i], (done + [next])[i], live) {
      if i < n { assert EntryRewritten(app, service, rules, ports[..n][i], done[i], live); }
    }
  }

  lemma HoldsAppend(
      app: App, service: string, rules: seq<Rule>, ports: seq<Value>, n: nat, done: seq<Value>, next: Value,
      held: map<Key, nat>)
    requires n < |ports| && Holds(app, service, rules, ports[..n], done, held)
    requires EntryHolds(app, service, rules, ports[n], next, held)
    ensures Holds(app, service, rules, ports[..n + 1], done + [next], held)
  {
    forall i | 0 <= i < n + 1 ensures EntryHolds(app, service, rules, ports[..n + 1][i], (done + [next])[i], held) {
      if i < n { assert EntryHolds(app, service, rules, ports[..n][i], done[i], held); }
    }
  }

  ghost predicate ServiceRewritten(
      app: App, name: string, rules: seq<Rule>, before: Service, after: Service, live: Grants) {
    match before
    case Unported => after == before
    case Ports(ports) => after.Ports? && Rewritten(app, name, rules, ports, after.ports, live)
  }

  ghost predicate ServiceHolds(
      app: App, name: string, rules: seq<Rule>, before: Service, after: Service, held: map<Key, nat>) {
    before.Ports? ==> after.Ports? && Holds(app, name, rules, before.ports, after.ports, held)
  }

  /** Services are walked in no fixed order. The walk fails only right after a call
      that handed out no port, and then leaves the services not yet reached as they
      were authored. */
  method RewriteCompose(reg: HostPortRegistry, app: App, services: Services, rules: seq<Rule>, published: Published)
    returns (out: Services, ok: bool)
    requires reg.Valid()
    modifies reg
    ensures reg.Valid() && old(reg.log) <= reg.log && Reserves(app, reg.log[|old(reg.log)|..])
    ensures out.Keys == services.Keys
    ensures forall name :: name in services ==>
              (!ok && out[name] == services[name])
              || ServiceRewritten(app, name, rules, services[name], out[name], Live(reg.log))
    ensures app.stage.PROD? ==> Extends(old(reg.held), reg.held)
    ensures app.stage.PROD? && ok ==>
              forall name :: name in services ==> ServiceHolds(app, name, rules, services[name], out[name], reg.held)
    ensures KeysFrom(app, services, old(reg.held).Keys, reg.held.Keys)
    ensures AllCallsFor(app, services, rules, published, reg.log[|old(reg.log)|..])
    ensures !ok ==> |old(reg.log)| < |reg.log| && LastCallFailed(reg.log)
  {
    out := services;
    ghost var start, h0 := reg.log, reg.held;
    var unseen := services.Keys;
    assert start[|start|..] == [];
    while unseen != {}
      invariant reg.Valid() && Walked(app, services, rules, published, out, unseen, start, reg.log, h0, reg.held)
      decreases unseen
    {
      var name :| name in unseen;
      if services[name].Ports? {
        ghost var log, held := reg.log, reg.held;
        var ports, done := RewriteService(reg, app, name, services[name].ports, rules, published);
        WalkOn(app, services, rules, published, out, unseen, start, log, reg.log, h0, held, reg.held, name);
        if !done {
          return out, false;
        }
        WalkedOne(app, services, rules, published, out, unseen, start, reg.log, h0, reg.held, name, Ports(ports));
        out := out[name := Ports(ports)];
      } else {
        WalkedOne(app, services, rules, published, out, unseen, start, reg.log, h0, reg.held, name, out[name]);
        assert out[name := out[name]] == out;
      }
      unseen := unseen - {name};
    }
    ok := true;
  }

  /** How far the walk has come: `unseen` services are as authored, the others
      rewritten, and every call so far was made for an entry. */
  ghost predicate Walked(
      app: App, services: Services, rules: seq<Rule>, published: Published, out: Services, unseen: set<string>,
      start: seq<Op>, log: seq<Op>, h0: map<Key, nat>, held: map<Key, nat>) {
    && unseen <= services.Keys && out.Keys == services.Keys
    && start <= log && Reserves(app, log[|start|..])
    && (forall name :: name in unseen ==> out[name] == services[name])
    && (forall name :: name in services && name !in unseen ==>
          ServiceRewritten(app, name, rules, services[name], out[name], Live(log)))
    && (app.stage.PROD? ==> Extends(h0, held))
    && (app.stage.PROD? ==> forall name :: name in services && name !in unseen ==>
          ServiceHolds(app, name, rules, services[name], out[name], held))
    && KeysFrom(app, services, h0.Keys, held.Keys)
    && AllCallsFor(app, services, rules, published, log[|start|..])
  }

  lemma WalkedOne(
      app: App, services: Services, rules: seq<Rule>, published: Published, out: Services, unseen: set<string>,
      start: seq<Op>, log: seq<Op>, h0: map<Key, nat>, held: map<Key, nat>, name: string, after: Service)
    requires Walked(app, services, rules, published, out, unseen, start, log, h0, held) && name in unseen
    requires ServiceRewritten(app, name, rules, services[name], after, Live(log))
    requires app.stage.PROD? ==> ServiceHolds(app, name, rules, services[name], after, held)
    ensures Walked(app, services, rules, published, out[name := after], unseen - {name}, start, log, h0, held)
  {
  }

  /** The calls for one more service keep all that. */
  lemma WalkOn(
      app: App, services: Services, rules: seq<Rule>, published: Published, out: Services, unseen: set<string>,
      start: seq<Op>, log: seq<Op>, now: seq<Op>, h0: map<Key, nat>, held: map<Key, nat>, later: map<Key, nat>,
      name: string)
    requires Walked(app, services, rules, published, out, unseen, start, log, h0, held)
    requires name in services && services[name].Ports? && log <= now && Reserves(app, now[|log|..])
    requires app.stage.PROD? ==> Extends(held, later)
    requires forall k :: k in later && k !in held ==>
               exists i :: 0 <= i < |services[name].ports| && KeyFrom(app, name, services[name].ports[i], k)
    requires CallsFor(app, name, rules, published, services[name].ports, now[|log|..])
    ensures Walked(app, services, rules, published, out, unseen, start, now, h0, later)
  {
    GrowStep(app, services, out, unseen, rules, start, log, now, held, later);
    NewKeysComeFromEntries(app, services, name, h0.Keys, held.Keys, later.Keys);
    MoreServices(app, services, name, rules, published, start, log, now);
  }

  /** Rewriting one more service keeps the finished ones finished. */
  lemma GrowStep(app: App, services: Services, out: Services, unseen: set<string>, rules: seq<Rule>,
                 start: seq<Op>, log: seq<Op>, now: seq<Op>, held: map<Key, nat>, later: map<Key, nat>)
    requires out.Keys == services.Keys
    requires start <= log <= now && Reserves(app, log[|start|..]) && Reserves(app, now[|log|..])
    requires forall name :: name in services && name !in unseen ==>
               ServiceRewritten(app, name, rules, services[name], out[name], Live(log))
    requires app.stage.PROD? ==> Extends(held, later)
    requires app.stage.PROD? ==> forall name :: name in services && name !in unseen ==>
               ServiceHolds(app, name, rules, services[name], out[name], held)
    ensures Reserves(app, now[|start|..])
    ensures forall name :: name in services && name !in unseen ==>
              ServiceRewritten(app, name, rules, services[name], out[name], Live(now))
    ensures app.stage.PROD? ==> forall name :: name in services && name !in unseen ==>
              ServiceHolds(app, name, rules, services[name], out[name], later)
  {
    ExtendLog(app, start, log, now);
    forall name | name in services && name !in unseen
      ensures ServiceRewritten(app, name, rules, services[name], out[name], Live(now))
      ensures app.stage.PROD? ==> ServiceHolds(app, name, rules, services[name], out[name], later)
    {
      if services[name].Ports? {
        RewrittenStays(app, name, rules, services[name].ports, out[name].ports, Live(log), Live(now));
        if app.stage.PROD? {
          HoldsStays(app, name, rules, services[name].ports, out[name].ports, held, later);
        }
      }
    }
  }

  lemma NewKeysComeFromEntries(
      app: App, services: Services, name: string, first: set<Key>, before: set<Key>, after: set<Key>)
    requires KeysFrom(app, services, first, before)
    requires name in services && services[name].Ports?
    requires forall k :: k in after && k !in before ==>
               exists i :: 0 <= i < |services[name].ports| && KeyFrom(app, name, services[name].ports[i], k)
    ensures KeysFrom(app, services, first, after)
  {
    forall k | k in after && k !in first ensures FromEntry(app, services, k) {
      if k !in before {
        var i :| 0 <= i < |services[name].ports| && KeyFrom(app, name, services[name].ports[i], k);
        assert EntryAt(services, name, i);
      }
    }
  }

  // ---------------------------------------------------------------------
  // Device-wide collision freedom
  // ---------------------------------------------------------------------

  /** A rewritten entry that parses again publishes the port it was given. */
  lemma PublishesItsPort(e: Entry, port: nat)
    requires e == ParseEntry(e.raw) && e.rewritable
    requires ParseEntry(RewriteEntry(e, BIND_IP, port)).rewritable
    ensures ParseEntry(RewriteEntry(e, BIND_IP, port)).hostPort == port
  {
    if e.raw.Obj? { LongRoundTrip(e, BIND_IP, port); } else { ShortRoundTrip(e, BIND_IP, port); }
  }

  /** Take two entries of any two apps, rewritten at any two moments of the
      device's history `log`, whose keys differ and have not been reassigned or
      released since. They publish different host ports. */
  lemma RewrittenEntriesNeverCollide(
      log: seq<Op>, i: nat, j: nat,
      app1: App, service1: string, rules1: seq<Rule>, before1: Value, after1: Value,
      app2: App, service2: string, rules2: seq<Rule>, before2: Value, after2: Value)
    requires i <= |log| && j <= |log|
    requires EntryRewritten(app1, service1, rules1, before1, after1, Live(log[..i]))
    requires EntryRewritten(app2, service2, rules2, before2, after2, Live(log[..j]))
    requires Managed(rules1, ParseEntry(before1)) && Managed(rules2, ParseEntry(before2))
    requires KeyOf(app1, service1, ParseEntry(before1)) != KeyOf(app2, service2, ParseEntry(before2))
    requires forall m :: i <= m < |log| ==> !Ends(log[m], KeyOf(app1, service1, ParseEntry(before1)))
    requires forall m :: j <= m < |log| ==> !Ends(log[m], KeyOf(app2, service2, ParseEntry(before2)))
    requires ParseEntry(after1).rewritable && ParseEntry(after2).rewritable
    ensures ParseEntry(after1).hostPort != ParseEntry(after2).hostPort
  {
    var p1 := PublishedGrant(log, i, app1, service1, rules1, before1, after1);
    var p2 := PublishedGrant(log, j, app2, service2, rules2, before2, after2);
    RunIsExclusive(log);
  }

  lemma PublishedGrant(log: seq<Op>, i: nat, app: App, service: string, rules: seq<Rule>, before: Value, after: Value)
    returns (port: nat)
    requires i <= |log| && Managed(rules, ParseEntry(before)) && ParseEntry(after).rewritable
    requires EntryRewritten(app, service, rules, before, after, Live(log[..i]))
    requires forall m :: i <= m < |log| ==> !Ends(log[m], KeyOf(app, service, ParseEntry(before)))
    ensures ParseEntry(after).hostPort == port && (KeyOf(app, service, ParseEntry(before)), port) in Live(log)
  {
    var e := ParseEntry(before);
    var key := KeyOf(app, service, e);
    port :| (key, port) in Live(log[..i]) && after == RewriteEntry(e, BIND_IP, port);
    StillLive(log, i, (key, port));
    PublishesItsPort(e, port);
  }

  lemma StillLive(log: seq<Op>, i: nat, g: (Key, nat))
    requires i <= |log| && g in Live(log[..i])
    requires forall m :: i <= m < |log| ==> !Ends(log[m], g.0)
    ensures g in Live(log)
  {
    assert log == log[..i] + log[i..];
    LivePersists(log[..i], log[i..], g);
  }

  // ---------------------------------------------------------------------
  // The tunnel resolver
  // ---------------------------------------------------------------------

  /** What docker reports about the app when a rule is resolved. */
  datatype Docker =
    | Compose(services: Services, published: Published)
    | Plain(bindings: Option<map<string, nat>>, networkMode: Option<string>)

  predicate Refers(services: Services, rule: Rule, name: string, i: nat) {
    EntryAt(services, name, i) && MatchesRule(ParseEntry(services[name].ports[i]), rule.port, rule.protocol)
  }

  /** The running project publishes an entry the rule refers to on `port`. */
  predicate PublishedAs(services: Services, published: Published, rule: Rule, name: string, i: nat, port: nat) {
    && Refers(services, rule, name, i)
    && var e := ParseEntry(services[name].ports[i]);
       port == Lookup(published, PublishedKey(name, e.containerPort, e.protocol))
  }

  /** ... or the rule refers to no entry at all. */
  ghost predicate ComposeBinding(services: Services, published: Published, rule: Rule, service: string, bound: nat) {
    if exists n: string, i: nat :: Refers(services, rule, n, i)
    then exists i: nat :: PublishedAs(services, published, rule, service, i, bound)
    else service == "" && bound == 0
  }

  /** Some entry the rule refers to; the walk has no fixed order. */
  method FindComposeRulePort(services: Services, published: Published, rule: Rule) returns (service: string, port: nat)
    ensures TunnelKeyNames(services, rule, service) && ComposeBinding(services, published, rule, service, port)
  {
    var unseen := services.Keys;
    while unseen != {}
      invariant unseen <= services.Keys
      invariant forall name: string, i: nat :: name !in unseen ==> !Refers(services, rule, name, i)
      decreases unseen
    {
      var name :| name in unseen;
      if services[name].Ports? {
        var ports := services[name].ports;
        for n := 0 to |ports|
          invariant forall i: nat :: i < n ==> !Refers(services, rule, name, i)
        {
          var e := ParseEntry(ports[n]);
          if MatchesRule(e, rule.port, rule.protocol) {
            port := Lookup(published, PublishedKey(name, e.containerPort, e.protocol));
            assert PublishedAs(services, published, rule, name, n, port);
            return name, port;
          }
        }
      }
      unseen := unseen - {name};
    }
    return "", 0;
  }

  /** The host port docker binds for a plain container's declared port. */
  function PlainBinding(docker: Docker, rule: Rule): nat
    requires docker.Plain?
  {
    if docker.bindings.None? then 0
    else Lookup(docker.bindings.value, Format(rule.port) + "/" + WireProtocol(rule.protocol))
  }

  predicate OnHostNetwork(docker: Docker)
    requires docker.Plain?
  {
    docker.bindings == Some(map[]) && docker.networkMode == Some("host")
  }

  /** Resolving a rule of a plain app that no key is known for: docker's own
      binding wins, then the host network, then the persisted hint. */
  ghost predicate PlainStep(app: App, rule: Rule, docker: Docker, before: Registry, after: Registry, port: Option<nat>)
    requires docker.Plain?
  {
    var bound := PlainBinding(docker, rule);
    if bound == 0 && OnHostNetwork(docker) then after == before && port == Some(rule.port)
    else RecoverStep(before, TunnelKey(app, rule, ""), Hint(rule, bound), after, port)
  }

  /** The same for a compose app: what the running project publishes, then the
      persisted hint, under the key of the entry the rule refers to. */
  ghost predicate ComposeStep(
      app: App, rule: Rule, docker: Docker, before: Registry, after: Registry, port: Option<nat>)
    requires docker.Compose?
  {
    exists service: string, bound: nat ::
      && ComposeBinding(docker.services, docker.published, rule, service, bound)
      && RecoverStep(before, TunnelKey(app, rule, service), Hint(rule, bound), after, port)
  }

  /** The port to recover: what is bound, or else what the cloud remembers. */
  function Hint(rule: Rule, bound: nat): nat {
    if bound != 0 then bound else rule.hostPort
  }

  /** A key without a port: nothing without a port to recover, that port if it is
      free, and otherwise whatever the pool has. */
  ghost predicate RecoverStep(before: Registry, key: Key, preferred: nat, after: Registry, port: Option<nat>) {
    if preferred == 0 then after == before && port == None
    else if preferred !in before.inUse then after == Record(before, key, preferred) && port == Some(preferred)
    else exists refused :: (after, port) == ReserveFree(before, key, refused)
  }

  /** Where a rule's port could be recovered from: the service to key it by, the
      port to prefer (0 when nothing is known), or a port to dial as it is. */
  method TunnelCandidate(rule: Rule, docker: Docker) returns (service: string, preferred: nat, direct: Option<nat>)
    ensures docker.Compose? ==>
              && direct.None? && TunnelKeyNames(docker.services, rule, service)
              && exists bound: nat ::
                   ComposeBinding(docker.services, docker.published, rule, service, bound)
                   && preferred == Hint(rule, bound)
    ensures docker.Plain? ==>
              && service == ""
              && preferred == Hint(rule, PlainBinding(docker, rule))
              && (direct == if PlainBinding(docker, rule) == 0 && OnHostNetwork(docker) then Some(rule.port) else None)
  {
    service, preferred, direct := "", rule.hostPort, None;
    match docker {
      case Compose(services, published) =>
        var name, bound := FindComposeRulePort(services, published, rule);
        service := name;
        if bound != 0 {
          preferred := bound;
        }
        assert preferred == Hint(rule, bound);
      case Plain(bindings, networkMode) =>
        if bindings.Some? {
          var bound := Lookup(bindings.value, Format(rule.port) + "/" + WireProtocol(rule.protocol));
          if bound != 0 {
            preferred := bound;
          } else if bindings.value == map[] && networkMode == Some("host") {
            direct := Some(rule.port);
          }
        }
    }
  }

  /** The port frpc should dial for a rule. Reads the registry, or recovers an
      assignment from docker's view and the persisted hint. When the port to
      recover is taken by another key, the registry hands out a fresh one. */
  method ResolveTunnel(reg: HostPortRegistry, app: App, rule: Rule, docker: Docker) returns (port: Option<nat>)
    requires reg.Valid()
    modifies reg
    ensures reg.Valid()
    ensures docker.Compose? ==> TunnelStep(app, rule, docker.services, old(reg.held), reg.held, port)
    ensures ReturnsKnown(app, rule, old(reg.View()), reg.View(), port)
    ensures (forall k :: k in old(reg.held) ==> !RuleKey(app, rule, k)) ==>
              if docker.Plain? then PlainStep(app, rule, docker, old(reg.View()), reg.View(), port)
              else ComposeStep(app, rule, docker, old(reg.View()), reg.View(), port)
  {
    var known := reg.GetByPort(app.stage, app.appKey, WireProtocol(rule.protocol), rule.port);
    if known.Some? {
      return known;
    }
    var service, preferred, direct := TunnelCandidate(rule, docker);
    if direct.Some? {
      return direct;
    }
    if preferred == 0 {
      return None;
    }
    var refused: set<nat> := *;
    RecoverTunnel(app, rule, docker, reg.View(), service, preferred, refused);
    port := reg.RecoverOrReserve(TunnelKey(app, rule, service), preferred, refused);
  }

  lemma RecoverTunnel(
      app: App, rule: Rule, docker: Docker, before: Registry, service: string, preferred: nat, refused: set<nat>)
    requires preferred > 0 && forall k :: k in before.held ==> !RuleKey(app, rule, k)
    requires docker.Compose? ==> TunnelKeyNames(docker.services, rule, service)
    requires docker.Plain? ==>
               && service == "" && (PlainBinding(docker, rule) != 0 || !OnHostNetwork(docker))
               && preferred == Hint(rule, PlainBinding(docker, rule))
    ensures var (after, port) := Apply(before, Recover(TunnelKey(app, rule, service), preferred, refused));
            && (docker.Compose? ==> TunnelStep(app, rule, docker.services, before.held, after.held, port))
            && (docker.Plain? ==> PlainStep(app, rule, docker, before, after, port))
            && RecoverStep(before, TunnelKey(app, rule, service), preferred, after, port)
  {
    assert TunnelKey(app, rule, service) !in before.held by {
      assert RuleKey(app, rule, TunnelKey(app, rule, service));
    }
  }

  /** A port some key of the rule holds is returned, and nothing changes. */
  ghost predicate ReturnsKnown(app: App, rule: Rule, before: Registry, after: Registry, port: Option<nat>) {
    (exists k :: k in before.held && RuleKey(app, rule, k)) ==>
      && after == before
      && exists k :: k in before.held && RuleKey(app, rule, k) && port == Some(before.held[k])
  }

  predicate RuleKey(app: App, rule: Rule, k: Key) {
    Matches(k, app.stage, app.appKey, WireProtocol(rule.protocol), rule.port)
  }

  /** Resolving a rule of a compose app: a port some key of the rule holds and
      nothing changed, or nothing at all, or one new key for the rule. */
  ghost predicate TunnelStep(
      app: App, rule: Rule, services: Services, before: map<Key, nat>, after: map<Key, nat>, port: Option<nat>) {
    || (after == before && exists k :: k in before && RuleKey(app, rule, k) && port == Some(before[k]))
    || (after == before && port == None && forall k :: k in before ==> !RuleKey(app, rule, k))
    || (port.Some? && (forall k :: k in before ==> !RuleKey(app, rule, k))
        && exists name :: TunnelKeyNames(services, rule, name)
                          && after == before[TunnelKey(app, rule, name) := port.value])
  }

  function TunnelKey(app: App, rule: Rule, name: string): Key {
    Key(app.stage, app.appKey, WireProtocol(rule.protocol), rule.port, name)
  }

  /** The service a recovered tunnel key carries: that of an entry the rule
      refers to, or none when it refers to no entry. */
  ghost predicate TunnelKeyNames(services: Services, rule: Rule, name: string) {
    if exists n: string, i: nat :: Refers(services, rule, n, i)
    then exists i: nat :: Refers(services, rule, name, i)
    else name == ""
  }

  // ---------------------------------------------------------------------
  // Tunnel and compose file agree
  // ---------------------------------------------------------------------

  /** The rule refers to exactly one entry, and the registry knows the declared
      port under no other key than that entry's. */
  ghost predicate Unambiguous(app: App, services: Services, rule: Rule, held: map<Key, nat>, name: string, i: nat) {
    && Refers(services, rule, name, i)
    && (forall n: string, j: nat :: Refers(services, rule, n, j) ==> n == name && j == i)
    && SoleKey(app, rule, held, name)
  }

  ghost predicate SoleKey(app: App, rule: Rule, held: map<Key, nat>, name: string) {
    forall k :: k in held && RuleKey(app, rule, k) ==> k == TunnelKey(app, rule, name)
  }

  lemma EntryKeyIsTunnelKey(app: App, services: Services, rule: Rule, name: string, i: nat)
    requires Refers(services, rule, name, i)
    ensures KeyOf(app, name, ParseEntry(services[name].ports[i])) == TunnelKey(app, rule, name)
  {
  }

  /** New keys of a rewrite leave the rule unambiguous. */
  lemma RewriteKeepsUnambiguous(
      app: App, services: Services, rule: Rule, before: map<Key, nat>, after: map<Key, nat>, name: string, i: nat)
    requires Unambiguous(app, services, rule, before, name, i)
    requires KeysFrom(app, services, before.Keys, after.Keys)
    ensures Unambiguous(app, services, rule, after, name, i)
  {
    forall k | k in after && RuleKey(app, rule, k) ensures k == TunnelKey(app, rule, name) {
      if k !in before {
        assert FromEntry(app, services, k);
        var n: string, j: nat :| EntryAt(services, n, j) && KeyFrom(app, n, services[n].ports[j], k);
        assert Refers(services, rule, n, j);
      }
    }
  }

  lemma TunnelKeepsUnambiguous(
      app: App, services: Services, rule: Rule, before: map<Key, nat>, after: map<Key, nat>, port: Option<nat>,
      name: string, i: nat)
    requires Unambiguous(app, services, rule, before, name, i)
    requires TunnelStep(app, rule, services, before, after, port)
    ensures Unambiguous(app, services, rule, after, name, i)
    ensures port.Some? ==> TunnelKey(app, rule, name) in after && after[TunnelKey(app, rule, name)] == port.value
    ensures TunnelKey(app, rule, name) in before ==> port.Some? && after == before
    ensures Extends(before, after)
  {
  }

  /** Calls other parts of the agent make meanwhile: anything that leaves this
      app's key alone and adds no second key for the rule. */
  ghost predicate Bystanders(app: App, rule: Rule, name: string, ops: seq<Op>) {
    forall i :: 0 <= i < |ops| ==>
      && !Disturbs(ops[i], TunnelKey(app, rule, name))
      && (!ops[i].Release? && RuleKey(app, rule, ops[i].key) ==> ops[i].key == TunnelKey(app, rule, name))
  }

  method Perform(reg: HostPortRegistry, ops: seq<Op>)
    requires reg.Valid()
    modifies reg
    ensures reg.Valid() && reg.log == old(reg.log) + ops
    ensures reg.View() == After(old(reg.View()), ops)
  {
    assert ops[..0] == [];
    for n := 0 to |ops|
      invariant reg.Valid() && reg.log == old(reg.log) + ops[..n]
      invariant reg.View() == After(old(reg.View()), ops[..n])
    {
      match ops[n] {
        case Recover(key, preferred, refused) => var _ := reg.RecoverOrReserve(key, preferred, refused);
        case Declare(key) => var _ := reg.ReserveDeclared(key);
        case Reassign(key, refused) => var _ := reg.ReassignFresh(key, refused);
        case Release(stage, appKey) => reg.ReleaseApp(stage, appKey);
      }
      assert ops[..n + 1][..n] == ops[..n] && ops[..n + 1] == ops[..n] + [ops[n]];
    }
    assert ops[..|ops|] == ops;
  }

  lemma {:induction false} BystandersKeepSoleKey(app: App, rule: Rule, r: Registry, ops: seq<Op>, name: string)
    requires SoleKey(app, rule, r.held, name) && Bystanders(app, rule, name, ops)
    ensures SoleKey(app, rule, After(r, ops).held, name)
  {
    if ops != [] {
      var n := |ops| - 1;
      BystandersKeepSoleKey(app, rule, r, ops[..n], name);
      var before, op := After(r, ops[..n]), ops[n];
      assert !op.Release? && RuleKey(app, rule, op.key) ==> op.key == TunnelKey(app, rule, name);
      forall k | k in Apply(before, op).0.held && k !in before.held ensures !op.Release? && k == op.key {}
    }
  }

  lemma BystandersKeepUnambiguous(
      app: App, services: Services, rule: Rule, r: Registry, ops: seq<Op>, name: string, i: nat)
    requires Unambiguous(app, services, rule, r.held, name, i) && Bystanders(app, rule, name, ops)
    ensures Unambiguous(app, services, rule, After(r, ops).held, name, i)
  {
    BystandersKeepSoleKey(app, rule, r, ops, name);
  }

  /** Both clients run, in either order, with any bystanders in between. When
      both return a port, it is one port: the rule's key is assigned once and
      the compose file publishes what the tunnel dials. */
  method TunnelAndComposeAgree(reg: HostPortRegistry, app: App, services: Services, rules: seq<Rule>, rule: Rule,
                               running: Published, published: Published, between: seq<Op>, tunnelFirst: bool,
                               ghost name: string, ghost i: nat)
    returns (port: Option<nat>, out: Services, ok: bool)
    requires reg.Valid() && app.stage.PROD?
    requires rule in rules && rule.localIP == ""
    requires Unambiguous(app, services, rule, reg.held, name, i)
    requires Bystanders(app, rule, name, between)
    modifies reg
    ensures reg.Valid()
    ensures forall k :: k in reg.held && RuleKey(app, rule, k) ==> k == TunnelKey(app, rule, name)
    ensures ok ==> EntryAt(out, name, i) && TunnelKey(app, rule, name) in reg.held
                   && var port := reg.held[TunnelKey(app, rule, name)];
                      out[name].ports[i] == RewriteEntry(ParseEntry(services[name].ports[i]), BIND_IP, port)
    ensures port.Some? && (ok || tunnelFirst) ==>
              TunnelKey(app, rule, name) in reg.held && reg.held[TunnelKey(app, rule, name)] == port.value
    ensures ok && !tunnelFirst ==> port.Some?
  {
    ghost var key := TunnelKey(app, rule, name);
    ghost var h0 := reg.held;
    if tunnelFirst {
      port := ResolveTunnel(reg, app, rule, Compose(services, running));
      TunnelKeepsUnambiguous(app, services, rule, h0, reg.held, port, name, i);
    } else {
      out, ok := RewriteCompose(reg, app, services, rules, published);
      RewriteKeepsUnambiguous(app, services, rule, h0, reg.held, name, i);
      if ok { PublishesHeldPort(app, services, out, rules, rule, reg.held, name, i); }
    }
    ghost var r1 := reg.View();
    Perform(reg, between);
    BystandersKeepUnambiguous(app, services, rule, r1, between, name, i);
    if key in r1.held { HeldKeyKeepsItsPort(r1, between, key, 0, {}); }
    ghost var h2 := reg.held;
    if tunnelFirst {
      out, ok := RewriteCompose(reg, app, services, rules, published);
      RewriteKeepsUnambiguous(app, services, rule, h2, reg.held, name, i);
      if ok { PublishesHeldPort(app, services, out, rules, rule, reg.held, name, i); }
    } else {
      port := ResolveTunnel(reg, app, rule, Compose(services, running));
      TunnelKeepsUnambiguous(app, services, rule, h2, reg.held, port, name, i);
    }
  }

  lemma PublishesHeldPort(
      app: App, services: Services, out: Services, rules: seq<Rule>, rule: Rule, held: map<Key, nat>, name: string,
      i: nat)
    requires Refers(services, rule, name, i) && rule in rules && rule.localIP == ""
    requires out.Keys == services.Keys && ServiceHolds(app, name, rules, services[name], out[name], held)
    ensures EntryAt(out, name, i) && TunnelKey(app, rule, name) in held
            && out[name].ports[i]
               == RewriteEntry(ParseEntry(services[name].ports[i]), BIND_IP, held[TunnelKey(app, rule, name)])
  {
    var e := ParseEntry(services[name].ports[i]);
    assert RuleFor(rule, e);
    assert HasRule(rules, e);
    EntryKeyIsTunnelKey(app, services, rule, name, i);
    assert EntryHolds(app, name, rules, services[name].ports[i], out[name].ports[i], held);
  }
}
