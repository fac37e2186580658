/** Parsing and printing of compose `ports:` entries (src/apps/compose_ports.go). */
module ComposePorts {
  import opened Wrappers
  import opened Texts

  // ---------------------------------------------------------------------
  // Text
  // ---------------------------------------------------------------------

  /** One port number of at most 16 bits; 0 stands for anything else. */
  function ParsePort(s: string): nat {
    if s != "" && (forall i :: 0 <= i < |s| ==> IsDigit(s[i])) && Decimal(s) <= 0xFFFF then Decimal(s) else 0
  }

  function LastIndex(s: string, c: char): (i: Option<nat>)
    ensures i.Some? ==> i.value < |s|
  {
    if s == "" then None
    else if s[|s| - 1] == c then Some(|s| - 1)
    else LastIndex(s[..|s| - 1], c)
  }

  // ---------------------------------------------------------------------
  // Entries
  // ---------------------------------------------------------------------

  /** A decoded JSON or YAML value. `Float` carries what converting the number
      to an unsigned 64-bit integer yields. */
  datatype Value =
    | Text(s: string)
    | Float(converted: nat)
    | Int(n: int)
    | Obj(fields: map<string, Value>)
    | Other

  datatype Entry = Entry(
    service: string, hostIP: string, hostPort: nat, containerPort: nat,
    protocol: string, raw: Value, rewritable: bool)

  function WireProtocol(protocol: string): string {
    if protocol == "udp" then "udp" else "tcp"
  }

  function DeclaredPort(e: Entry): nat {
    if e.hostPort != 0 then e.hostPort else e.containerPort
  }

  predicate MatchesRule(e: Entry, rulePort: nat, ruleProtocol: string) {
    e.rewritable && DeclaredPort(e) == rulePort && e.protocol == WireProtocol(ruleProtocol)
  }

  function ParseEntry(raw: Value): (e: Entry)
    ensures e.raw == raw && e.service == "" && (e.protocol == "tcp" || e.protocol == "udp")
    ensures e.rewritable ==> e.containerPort > 0
  {
    var entry := Entry("", "", 0, 0, "tcp", raw, false);
    match raw
    case Text(s) => ParseShort(s, entry)
    case Float(n) => entry.(containerPort := n, rewritable := n > 0)
    case Int(n) =>
      var port := n % 0x1_0000_0000_0000_0000;
      entry.(containerPort := port, rewritable := port > 0)
    case Obj(fields) => ParseLong(fields, entry)
    case Other => entry
  }

  /** [[IP:]HOST:]CONTAINER[/PROTOCOL] */
  function ParseShort(value: string, entry: Entry): (e: Entry)
    requires entry.protocol == "tcp" && !entry.rewritable
    ensures e.raw == entry.raw && e.service == entry.service && (e.protocol == "tcp" || e.protocol == "udp")
    ensures e.rewritable ==> e.containerPort > 0
  {
    if '$' in value then entry
    else
      match LastIndex(value, '/')
      case None => ParseSpec(value, entry)
      case Some(slash) =>
        var protocol := Lower(value[slash + 1..]);
        if protocol != "tcp" && protocol != "udp" then entry
        else ParseSpec(value[..slash], entry.(protocol := protocol))
  }

  function ParseSpec(spec: string, entry: Entry): (e: Entry)
    requires !entry.rewritable
    ensures e.raw == entry.raw && e.service == entry.service && e.protocol == entry.protocol
    ensures e.rewritable ==> e.containerPort > 0
  {
    var parts := Split(spec, ':');
    var n := |parts|;
    var container := ParsePort(parts[n - 1]);
    if n == 1 then entry.(containerPort := container, rewritable := container > 0)
    else
      var host := ParsePort(parts[n - 2]);
      var withHost := entry.(hostIP := if n == 2 then entry.hostIP else Join(parts[..n - 2], ":"), hostPort := host);
      if host == 0 then withHost
      else withHost.(containerPort := container, rewritable := container > 0)
  }

  function PortValue(fields: map<string, Value>, name: string): nat {
    if name !in fields then 0
    else match fields[name]
      case Text(s) => ParsePort(s)
      case Float(n) => n
      case Int(n) => n % 0x1_0000_0000_0000_0000
      case _ => 0
  }

  function ParseLong(fields: map<string, Value>, entry: Entry): (e: Entry)
    requires entry.protocol == "tcp" && !entry.rewritable
    ensures e.raw == entry.raw && e.service == entry.service && (e.protocol == "tcp" || e.protocol == "udp")
    ensures e.rewritable ==> e.containerPort > 0
  {
    var e1 := entry.(containerPort := PortValue(fields, "target"));
    if e1.containerPort == 0 then e1
    else
      var given := "protocol" in fields && fields["protocol"].Text?;
      var protocol := if given then Lower(fields["protocol"].s) else "tcp";
      if protocol != "tcp" && protocol != "udp" then e1
      else
        var e2 := e1.(protocol := protocol);
        var e3 := if "host_ip" in fields && fields["host_ip"].Text? then e2.(hostIP := fields["host_ip"].s) else e2;
        if "published" !in fields then e3.(rewritable := true)
        else
          var e4 := e3.(hostPort := PortValue(fields, "published"));
          if e4.hostPort == 0 then e4 else e4.(rewritable := true)
  }

  /** The replacement value that publishes the entry on `bindIP:hostPort`. */
  function RewriteEntry(e: Entry, bindIP: string, hostPort: nat): Value {
    match e.raw
    case Obj(fields) => Obj(fields["published" := Text(Format(hostPort))]["host_ip" := Text(bindIP)])
    case _ => Text(ShortSpec(e, bindIP, hostPort) + if e.protocol == "udp" then "/udp" else "")
  }

  function ShortSpec(e: Entry, bindIP: string, hostPort: nat): string {
    bindIP + ":" + Format(hostPort) + ":" + Format(e.containerPort)
  }

  lemma ParsePortOfFormat(n: nat)
    ensures ParsePort(Format(n)) == if n <= 0xFFFF then n else 0
  {
    FormatReadsBack(n);
  }

  // ---------------------------------------------------------------------
  // The protocol suffix
  // ---------------------------------------------------------------------

  lemma {:induction false} LastIndexIsLast(s: string, c: char)
    ensures match LastIndex(s, c)
            case None => c !in s
            case Some(i) => i < |s| && s[i] == c && c !in s[i + 1..]
  {
    if s != "" && s[|s| - 1] != c {
      LastIndexIsLast(s[..|s| - 1], c);
      if LastIndex(s, c).Some? {
        var i := LastIndex(s, c).value;
        assert s[i + 1..] == s[..|s| - 1][i + 1..] + [s[|s| - 1]];
      } else {
        assert s == s[..|s| - 1] + [s[|s| - 1]];
      }
    }
  }

  lemma {:induction false} SlashIsLast(before: string, after: string)
    requires '/' !in after
    ensures LastIndex(before + "/" + after, '/') == Some(|before|)
  {
    var s := before + "/" + after;
    if after == "" {
      assert s[|s| - 1] == '/';
    } else {
      var n := |after| - 1;
      assert s[..|s| - 1] == before + "/" + after[..n];
      assert s[|s| - 1] == after[n];
      SlashIsLast(before, after[..n]);
    }
  }

  lemma ColonIsNoProtocol(s: string)
    requires ':' in s
    ensures Lower(s) != "tcp" && Lower(s) != "udp"
  {
    var i :| 0 <= i < |s| && s[i] == ':';
    assert Lower(s)[i] == ':';
  }

  // ---------------------------------------------------------------------
  // Parsing a printed entry
  // ---------------------------------------------------------------------

  lemma ParsePrintedSpec(e: Entry, bindIP: string, hostPort: nat, entry: Entry)
    requires !entry.rewritable
    ensures var back := ParseSpec(ShortSpec(e, bindIP, hostPort), entry);
            if 1 <= hostPort <= 0xFFFF && 1 <= e.containerPort <= 0xFFFF
            then back == entry.(hostIP := bindIP, hostPort := hostPort, containerPort := e.containerPort,
                                rewritable := true)
            else !back.rewritable
  {
    var host, container := Format(hostPort), Format(e.containerPort);
    NotInFormat(hostPort, ':');
    NotInFormat(e.containerPort, ':');
    var spec := ShortSpec(e, bindIP, hostPort);
    assert spec == (bindIP + [':'] + host) + [':'] + container;
    SplitConcat(bindIP + [':'] + host, container, ':');
    SplitConcat(bindIP, host, ':');
    SplitPlain(host, ':');
    SplitPlain(container, ':');
    var ipParts, parts := Split(bindIP, ':'), Split(spec, ':');
    assert parts == ipParts + [host] + [container];
    assert parts[..|parts| - 2] == ipParts;
    assert parts[|parts| - 2] == host && parts[|parts| - 1] == container;
    JoinUndoesSplit(bindIP, ':');
    ParsePortOfFormat(hostPort);
    ParsePortOfFormat(e.containerPort);
  }

  lemma SpecCharacters(e: Entry, bindIP: string, hostPort: nat, c: char)
    requires !IsDigit(c) && c != ':'
    ensures c in ShortSpec(e, bindIP, hostPort) <==> c in bindIP
  {
    NotInFormat(hostPort, c);
    NotInFormat(e.containerPort, c);
  }

  /** What printing an entry needs in order to be readable again. */
  predicate Printable(e: Entry, bindIP: string, hostPort: nat) {
    && 1 <= hostPort <= 0xFFFF
    && (e.raw.Obj? || (e.containerPort <= 0xFFFF && '$' !in bindIP && ('/' !in bindIP || e.protocol == "udp")))
  }

  lemma UdpRoundTrip(e: Entry, bindIP: string, hostPort: nat, entry: Entry)
    requires entry.protocol == "tcp" && !entry.rewritable && e.containerPort > 0
    ensures var back := ParseShort(ShortSpec(e, bindIP, hostPort) + "/udp", entry);
            if 1 <= hostPort <= 0xFFFF && e.containerPort <= 0xFFFF && '$' !in bindIP
            then back == entry.(hostIP := bindIP, hostPort := hostPort, containerPort := e.containerPort,
                                protocol := "udp", rewritable := true)
            else !back.rewritable
  {
    var spec := ShortSpec(e, bindIP, hostPort);
    var value := spec + "/udp";
    SpecCharacters(e, bindIP, hostPort, '$');
    assert '$' in value <==> '$' in spec;
    assert value == spec + "/" + "udp";
    SlashIsLast(spec, "udp");
    assert value[|spec| + 1..] == "udp" && value[..|spec|] == spec;
    assert Lower("udp") == "udp";
    ParsePrintedSpec(e, bindIP, hostPort, entry.(protocol := "udp"));
  }

  lemma TcpRoundTrip(e: Entry, bindIP: string, hostPort: nat, entry: Entry)
    requires entry.protocol == "tcp" && !entry.rewritable && e.containerPort > 0
    ensures var back := ParseShort(ShortSpec(e, bindIP, hostPort), entry);
            if 1 <= hostPort <= 0xFFFF && e.containerPort <= 0xFFFF && '$' !in bindIP && '/' !in bindIP
            then back == entry.(hostIP := bindIP, hostPort := hostPort, containerPort := e.containerPort,
                                rewritable := true)
            else !back.rewritable
  {
    SpecCharacters(e, bindIP, hostPort, '$');
    if '/' in bindIP {
      ParseWithSlash(e, bindIP, hostPort, entry);
    } else {
      ParseWithoutSlash(e, bindIP, hostPort, entry);
      ParsePrintedSpec(e, bindIP, hostPort, entry);
    }
  }

  lemma ParseWithoutSlash(e: Entry, bindIP: string, hostPort: nat, entry: Entry)
    requires '/' !in bindIP && entry.protocol == "tcp" && !entry.rewritable
    ensures var spec := ShortSpec(e, bindIP, hostPort);
            if '$' in spec then !ParseShort(spec, entry).rewritable
            else ParseShort(spec, entry) == ParseSpec(spec, entry)
  {
    SpecCharacters(e, bindIP, hostPort, '/');
    LastIndexIsLast(ShortSpec(e, bindIP, hostPort), '/');
  }

  lemma ParseWithSlash(e: Entry, bindIP: string, hostPort: nat, entry: Entry)
    requires '/' in bindIP && entry.protocol == "tcp" && !entry.rewritable
    ensures !ParseShort(ShortSpec(e, bindIP, hostPort), entry).rewritable
  {
    SlashInAddress(e, bindIP, hostPort);
  }

  /** With a slash in the address, what follows the last slash holds a colon. */
  lemma SlashInAddress(e: Entry, bindIP: string, hostPort: nat)
    requires '/' in bindIP
    ensures var spec := ShortSpec(e, bindIP, hostPort);
            match LastIndex(spec, '/')
            case None => false
            case Some(i) => i < |spec| && Lower(spec[i + 1..]) != "tcp" && Lower(spec[i + 1..]) != "udp"
  {
    var spec := ShortSpec(e, bindIP, hostPort);
    var tail := ":" + Format(hostPort) + ":" + Format(e.containerPort);
    NotInFormat(hostPort, '/');
    NotInFormat(e.containerPort, '/');
    assert spec == bindIP + tail && '/' !in tail;
    LastIndexIsLast(bindIP, '/');
    var i := LastIndex(bindIP, '/').value;
    var before, after := bindIP[..i], bindIP[i + 1..] + tail;
    assert spec == before + "/" + after;
    SlashIsLast(before, after);
    assert spec[i + 1..] == after && after[|bindIP| - i - 1] == ':';
    ColonIsNoProtocol(after);
  }

  lemma ShortRoundTrip(e: Entry, bindIP: string, hostPort: nat)
    requires e == ParseEntry(e.raw) && e.rewritable && !e.raw.Obj?
    ensures var out := RewriteEntry(e, bindIP, hostPort);
            if Printable(e, bindIP, hostPort)
            then ParseEntry(out) == Entry("", bindIP, hostPort, e.containerPort, e.protocol, out, true)
            else !ParseEntry(out).rewritable
  {
    var entry := Entry("", "", 0, 0, "tcp", RewriteEntry(e, bindIP, hostPort), false);
    if e.protocol == "udp" {
      UdpRoundTrip(e, bindIP, hostPort, entry);
    } else {
      assert ShortSpec(e, bindIP, hostPort) + "" == ShortSpec(e, bindIP, hostPort);
      TcpRoundTrip(e, bindIP, hostPort, entry);
    }
  }

  lemma LongRoundTrip(e: Entry, bindIP: string, hostPort: nat)
    requires e == ParseEntry(e.raw) && e.rewritable && e.raw.Obj?
    ensures var out := RewriteEntry(e, bindIP, hostPort);
            if 1 <= hostPort <= 0xFFFF
            then ParseEntry(out) == Entry("", bindIP, hostPort, e.containerPort, e.protocol, out, true)
            else !ParseEntry(out).rewritable
  {
    ParsePortOfFormat(hostPort);
  }

  /** Parsing a rewritten entry gives back the bind address, the new host port
      and the entry's own container port and protocol, exactly when the result
      is printable. The agent binds on "0.0.0.0", see `ManagedRoundTrip`. */
  lemma ParseUndoesRewrite(raw: Value, bindIP: string, hostPort: nat)
    requires ParseEntry(raw).rewritable
    ensures var e := ParseEntry(raw);
            var out := RewriteEntry(e, bindIP, hostPort);
            Printable(e, bindIP, hostPort)
            <==> ParseEntry(out) == e.(hostIP := bindIP, hostPort := hostPort, raw := out)
  {
    var e := ParseEntry(raw);
    if raw.Obj? { LongRoundTrip(e, bindIP, hostPort); } else { ShortRoundTrip(e, bindIP, hostPort); }
  }

  lemma ManagedRoundTrip(raw: Value, hostPort: nat)
    requires ParseEntry(raw).rewritable
    ensures var e := ParseEntry(raw);
            var out := RewriteEntry(e, "0.0.0.0", hostPort);
            ParseEntry(out) == e.(hostIP := "0.0.0.0", hostPort := hostPort, raw := out)
            <==> 1 <= hostPort <= 0xFFFF && (raw.Obj? || e.containerPort <= 0xFFFF)
  {
    ParseUndoesRewrite(raw, "0.0.0.0", hostPort);
  }

  /** Long syntax keeps every key but the two the agent owns. */
  lemma LongSyntaxKeepsOtherKeys(raw: Value, bindIP: string, hostPort: nat, name: string)
    requires raw.Obj? && name != "published" && name != "host_ip"
    ensures var out := RewriteEntry(ParseEntry(raw), bindIP, hostPort);
            && out.Obj?
            && (name in out.fields <==> name in raw.fields)
            && (name in raw.fields ==> out.fields[name] == raw.fields[name])
  {
  }

  /** A port read from text always fits 16 bits, so every authored short entry
      is printable on the agent's bind address. */
  lemma AuthoredShortEntryIsPrintable(s: string, hostPort: nat)
    requires ParseEntry(Text(s)).rewritable && 1 <= hostPort <= 0xFFFF
    ensures Printable(ParseEntry(Text(s)), "0.0.0.0", hostPort)
  {
    match LastIndex(s, '/') case None => case Some(_) =>
  }
}
