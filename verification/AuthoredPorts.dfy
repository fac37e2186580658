/** What an authored compose port entry means (src/apps/compose_ports.go), read off
    its text: every form of the short syntax, bare numbers and the long syntax. */
module AuthoredPorts {
  import opened Wrappers
  import opened Texts
  import opened ComposePorts

  /** A port number as written: digits, leading zeros allowed, 1 to 65535. */
  ghost predicate PortNumber(s: string) {
    s != "" && AllDigits(s) && 1 <= Decimal(s) <= 0xFFFF
  }

  lemma ParsePortMeans(s: string)
    ensures ParsePort(s) == if PortNumber(s) then Decimal(s) else 0
  {
  }

  lemma FormatIsPortNumber(n: nat)
    ensures PortNumber(Format(n)) <==> 1 <= n <= 0xFFFF
    ensures Decimal(Format(n)) == n
  {
    FormatReadsBack(n);
  }

  // ---------------------------------------------------------------------
  // Short syntax
  // ---------------------------------------------------------------------

  /** CONTAINER, HOST:CONTAINER and ADDRESS:HOST:CONTAINER; an address may hold
      colons, the two ports may not. */
  datatype Form =
    | Bare(container: string)
    | Published(host: string, container: string)
    | Bound(address: string, host: string, container: string)

  function Spelled(f: Form): string {
    match f
    case Bare(container) => container
    case Published(host, container) => host + ":" + container
    case Bound(address, host, container) => address + ":" + host + ":" + container
  }

  ghost predicate WellFormed(f: Form) {
    ':' !in f.container && (!f.Bare? ==> ':' !in f.host)
  }

  ghost predicate HasNumbers(f: Form) {
    PortNumber(f.container) && (!f.Bare? ==> PortNumber(f.host))
  }

  /** The entry a form describes. */
  function Described(f: Form, protocol: string, raw: Value): Entry {
    Entry("",
          if f.Bound? then f.address else "",
          if f.Bare? then 0 else Decimal(f.host),
          Decimal(f.container), protocol, raw, true)
  }

  lemma PartsOfPublished(host: string, container: string)
    requires ':' !in host && ':' !in container
    ensures Split(host + ":" + container, ':') == [host, container]
  {
    SplitPlain(host, ':');
    SplitPlain(container, ':');
    SplitConcat(host, container, ':');
  }

  lemma PartsOfBound(address: string, host: string, container: string)
    requires ':' !in host && ':' !in container
    ensures Split(address + ":" + host + ":" + container, ':') == Split(address, ':') + [host, container]
  {
    PartsOfPublished(host, container);
    SplitConcat(address, host + ":" + container, ':');
    assert address + ":" + host + ":" + container == address + ":" + (host + ":" + container);
  }

  /** Without protocol: the numbers decide whether the text is understood, and each
      stands for what its place says. */
  lemma SpecMeans(f: Form, protocol: string, raw: Value)
    requires WellFormed(f)
    ensures var e := ParseSpec(Spelled(f), Entry("", "", 0, 0, protocol, raw, false));
            if HasNumbers(f) then e == Described(f, protocol, raw) else !e.rewritable
  {
    ParsePortMeans(f.container);
    match f {
      case Bare(container) => SplitPlain(container, ':');
      case Published(host, container) =>
        PartsOfPublished(host, container);
        ParsePortMeans(host);
      case Bound(address, host, container) =>
        PartsOfBound(address, host, container);
        ParsePortMeans(host);
        var parts := Split(Spelled(f), ':');
        assert parts[..|parts| - 2] == Split(address, ':');
        JoinUndoesSplit(address, ':');
    }
  }

  function Suffix(protocol: Option<string>): string {
    match protocol case None => "" case Some(p) => "/" + p
  }

  /** The protocol a suffix names, in any letter case; none names tcp. */
  function Named(protocol: Option<string>): string {
    match protocol case None => "tcp" case Some(p) => Lower(p)
  }

  /** The slash that matters is the last one. */
  ghost predicate Suffixed(f: Form, protocol: Option<string>) {
    match protocol case None => '/' !in Spelled(f) case Some(p) => '/' !in p
  }

  /** What a short entry means, for every form, with and without a protocol: a
      variable, an unknown protocol or anything but numbers in the places of ports
      leaves it alone; otherwise its parts are what their places say. */
  lemma ShortMeans(f: Form, protocol: Option<string>)
    requires WellFormed(f) && Suffixed(f, protocol)
    ensures var text := Spelled(f) + Suffix(protocol);
            var understood := '$' !in text && HasNumbers(f) && (Named(protocol) == "tcp" || Named(protocol) == "udp");
            if understood then ParseEntry(Text(text)) == Described(f, Named(protocol), Text(text))
            else !ParseEntry(Text(text)).rewritable
  {
    SpecMeans(f, Named(protocol), Text(Spelled(f) + Suffix(protocol)));
    SuffixIsFound(f, protocol);
  }

  lemma SuffixIsFound(f: Form, protocol: Option<string>)
    requires Suffixed(f, protocol)
    ensures var spec, text := Spelled(f), Spelled(f) + Suffix(protocol);
            match protocol
            case None => LastIndex(text, '/') == None && text == spec
            case Some(p) => LastIndex(text, '/') == Some(|spec|) && text[..|spec|] == spec && text[|spec| + 1..] == p
  {
    var spec, text := Spelled(f), Spelled(f) + Suffix(protocol);
    match protocol {
      case None =>
        assert text == spec;
        LastIndexIsLast(text, '/');
      case Some(p) =>
        assert text == spec + "/" + p;
        SlashIsLast(spec, p);
    }
  }

  /** Every text is of some form, so `ShortMeans` covers the whole short syntax. */
  lemma EveryTextHasAForm(text: string) returns (f: Form, protocol: Option<string>)
    ensures WellFormed(f) && Suffixed(f, protocol) && text == Spelled(f) + Suffix(protocol)
  {
    var spec := text;
    protocol := None;
    LastIndexIsLast(text, '/');
    if LastIndex(text, '/').Some? {
      var slash := LastIndex(text, '/').value;
      spec, protocol := text[..slash], Some(text[slash + 1..]);
      assert text == spec + ("/" + text[slash + 1..]);
    }
    f := FormOf(spec);
    assert Spelled(f) + "" == Spelled(f);
  }

  lemma FormOf(spec: string) returns (f: Form)
    ensures WellFormed(f) && Spelled(f) == spec
  {
    LastIndexIsLast(spec, ':');
    if LastIndex(spec, ':').None? {
      f := Bare(spec);
    } else {
      var second := LastIndex(spec, ':').value;
      var before, container := spec[..second], spec[second + 1..];
      LastIndexIsLast(before, ':');
      if LastIndex(before, ':').None? {
        f := Published(before, container);
      } else {
        var first := LastIndex(before, ':').value;
        f := Bound(before[..first], before[first + 1..], container);
        assert before == before[..first] + ":" + before[first + 1..];
      }
      assert spec == before + ":" + container;
    }
  }

  /** The ports as numbers, the protocol left out or in lower case. */
  ghost predicate Written(f: Form, host: nat, container: nat, protocol: Option<string>) {
    && 1 <= host <= 0xFFFF && 1 <= container <= 0xFFFF
    && f.container == Format(container) && (!f.Bare? ==> f.host == Format(host))
    && (f.Bound? ==> '$' !in f.address && '/' !in f.address)
    && (protocol == None || protocol == Some("tcp") || protocol == Some("udp"))
  }

  /** The common case: "80", "8080:80" and "127.0.0.1:8080:80", each alone, with
      "/tcp" and with "/udp". */
  lemma WrittenPorts(f: Form, host: nat, container: nat, protocol: Option<string>)
    requires Written(f, host, container, protocol)
    ensures var text := Text(Spelled(f) + Suffix(protocol));
            ParseEntry(text) == Entry("", if f.Bound? then f.address else "", if f.Bare? then 0 else host, container,
                                      if protocol == Some("udp") then "udp" else "tcp", text, true)
  {
    WrittenIsUnderstood(f, host, container, protocol);
    ShortMeans(f, protocol);
  }

  lemma WrittenIsUnderstood(f: Form, host: nat, container: nat, protocol: Option<string>)
    requires Written(f, host, container, protocol)
    ensures WellFormed(f) && HasNumbers(f) && Suffixed(f, protocol) && '$' !in Spelled(f) + Suffix(protocol)
    ensures Named(protocol) == if protocol == Some("udp") then "udp" else "tcp"
    ensures Decimal(f.container) == container && (!f.Bare? ==> Decimal(f.host) == host)
  {
    FormatIsPortNumber(host);
    FormatIsPortNumber(container);
    NotInFormat(host, ':');
    NotInFormat(container, ':');
    PlainText(f, host, container, '/');
    PlainText(f, host, container, '$');
    assert Lower("tcp") == "tcp" && Lower("udp") == "udp";
  }

  lemma PlainText(f: Form, host: nat, container: nat, c: char)
    requires f.container == Format(container) && (!f.Bare? ==> f.host == Format(host))
    requires !IsDigit(c) && c != ':' && (f.Bound? ==> c !in f.address)
    ensures c !in Spelled(f)
  {
    NotInFormat(host, c);
    NotInFormat(container, c);
  }

  /** Bare numbers are container ports. */
  lemma NumbersMean(n: nat)
    requires 0 < n < 0x1_0000_0000_0000_0000
    ensures ParseEntry(Int(n)) == Entry("", "", 0, n, "tcp", Int(n), true)
    ensures ParseEntry(Float(n)) == Entry("", "", 0, n, "tcp", Float(n), true)
    ensures !ParseEntry(Int(0)).rewritable && !ParseEntry(Float(0)).rewritable && !ParseEntry(Other).rewritable
  {
  }

  // ---------------------------------------------------------------------
  // Long syntax
  // ---------------------------------------------------------------------

  /** The number a field carries: a port number as text, or a number; else none. */
  ghost predicate Carries(fields: map<string, Value>, name: string, n: nat) {
    && n > 0 && name in fields
    && match fields[name]
       case Text(s) => PortNumber(s) && Decimal(s) == n
       case Float(m) => m == n
       case Int(m) => m % 0x1_0000_0000_0000_0000 == n
       case _ => false
  }

  lemma PortValueMeans(fields: map<string, Value>, name: string, n: nat)
    ensures Carries(fields, name, n) <==> n > 0 && PortValue(fields, name) == n
  {
    if name in fields && fields[name].Text? { ParsePortMeans(fields[name].s); }
  }

  function TextOf(fields: map<string, Value>, name: string, otherwise: string): string {
    if name in fields && fields[name].Text? then fields[name].s else otherwise
  }

  /** What a long entry means: it is understood exactly when `target` carries a
      port, `protocol` names one of the two and `published`, if there at all,
      carries a port; each field then stands for what its name says. */
  lemma LongMeans(fields: map<string, Value>, target: nat, published: nat)
    requires Carries(fields, "target", target) || (target == 0 && forall n :: !Carries(fields, "target", n))
    requires Carries(fields, "published", published) || (published == 0 && forall n :: !Carries(fields, "published", n))
    ensures var protocol := Lower(TextOf(fields, "protocol", "tcp"));
            var understood := target > 0 && (protocol == "tcp" || protocol == "udp")
                              && ("published" in fields ==> published > 0);
            if understood
            then ParseEntry(Obj(fields))
                 == Entry("", TextOf(fields, "host_ip", ""), published, target, protocol, Obj(fields), true)
            else !ParseEntry(Obj(fields)).rewritable
  {
    PortValueMeans(fields, "target", PortValue(fields, "target"));
    PortValueMeans(fields, "published", PortValue(fields, "published"));
    PortValueMeans(fields, "target", target);
    PortValueMeans(fields, "published", published);
    assert Lower("tcp") == "tcp";
  }

  // ---------------------------------------------------------------------
  // Rules
  // ---------------------------------------------------------------------

  /** A rule matches an authored entry by the host port, or by the container port
      when no host port is authored, and by protocol, udp or not. */
  lemma RuleMatchesAuthored(f: Form, protocol: Option<string>, rulePort: nat, ruleProtocol: string)
    requires WellFormed(f) && Suffixed(f, protocol) && '$' !in Spelled(f) + Suffix(protocol) && HasNumbers(f)
    requires Named(protocol) == "tcp" || Named(protocol) == "udp"
    ensures MatchesRule(ParseEntry(Text(Spelled(f) + Suffix(protocol))), rulePort, ruleProtocol)
            <==> && rulePort == Decimal(if f.Bare? then f.container else f.host)
                 && (Named(protocol) == "udp" <==> ruleProtocol == "udp")
  {
    ShortMeans(f, protocol);
  }
}
