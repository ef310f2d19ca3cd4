/** The node's own firewall: a configuration is rendered to an nftables batch, applied, and then persisted. */
module HostFirewall {
  import opened Wrappers
  import opened Text
  import opened Store
  import opened Addresses
  import Nft

  // ----- configuration -----

  datatype Action = Accept | Drop | Reject

  datatype Protocol = Tcp | Udp | Icmp | Any

  datatype Policy = AcceptPolicy | DropPolicy

  datatype Rule = Rule(action: Action, protocol: Protocol, sourceCidr: Option<string>, destPort: Option<nat>)

  datatype Config = Config(enabled: bool, defaultInputPolicy: Policy, rules: seq<Rule>)

  const TABLE := "daygleve_host"

  /** What is in force when nothing has been saved. */
  const DEFAULT_CONFIG := Config(false, AcceptPolicy, [])

  predicate ValidRule(parse: AddressParser, rule: Rule) {
    && (rule.sourceCidr.Some? ==> ParseCidr(parse, rule.sourceCidr.value).Some?)
    && (rule.destPort.Some? ==> rule.protocol.Tcp? || rule.protocol.Udp?)
  }

  /** Ports are 16-bit in the request type. */
  predicate PortsFit(cfg: Config) {
    forall rule :: rule in cfg.rules && rule.destPort.Some? ==> rule.destPort.value <= 65535
  }

  predicate ValidConfig(parse: AddressParser, cfg: Config) {
    forall rule :: rule in cfg.rules ==> ValidRule(parse, rule)
  }

  method Validate(parse: AddressParser, cfg: Config) returns (r: Result<(), AppError>)
    ensures r.Ok? <==> ValidConfig(parse, cfg)
    ensures r.Err? ==> r.error == Validation
  {
    for i := 0 to |cfg.rules|
      invariant forall k :: 0 <= k < i ==> ValidRule(parse, cfg.rules[k])
    {
      var rule := cfg.rules[i];
      assert rule in cfg.rules;
      if rule.sourceCidr.Some? && ParseCidr(parse, rule.sourceCidr.value).None? {
        return Err(Validation);
      }
      if rule.destPort.Some? && !(rule.protocol.Tcp? || rule.protocol.Udp?) {
        return Err(Validation);
      }
    }
    return Ok(());
  }

  // ----- what a configuration means for a packet -----

  predicate ProtocolMatches(protocol: Protocol, port: Option<nat>, p: Nft.Packet) {
    match protocol
    case Tcp => p.transport.Tcp? && (port.Some? ==> p.transport.port == port.value)
    case Udp => p.transport.Udp? && (port.Some? ==> p.transport.port == port.value)
    case Icmp => p.transport.Icmp? || p.transport.IcmpV6?
    case Any => true
  }

  predicate RuleMatches(parse: AddressParser, rule: Rule, p: Nft.Packet) {
    && (rule.sourceCidr.Some? ==>
          var cidr := ParseCidr(parse, rule.sourceCidr.value);
          cidr.Some? && Covers(cidr.value, p.source))
    && ProtocolMatches(rule.protocol, rule.destPort, p)
  }

  function VerdictOf(action: Action): Nft.Verdict {
    match action
    case Accept => Nft.Accept
    case Drop => Nft.Drop
    case Reject => Nft.Reject
  }

  /** The operator's rules in order; the default policy for a packet none of them matches. */
  function RulesMeaning(parse: AddressParser, rules: seq<Rule>, policy: Policy, p: Nft.Packet): Nft.Verdict {
    if rules == [] then (if policy.DropPolicy? then Nft.Drop else Nft.Accept)
    else if RuleMatches(parse, rules[0], p) then VerdictOf(rules[0].action)
    else RulesMeaning(parse, rules[1..], policy, p)
  }

  function Meaning(parse: AddressParser, cfg: Config, p: Nft.Packet): Nft.Verdict {
    if !cfg.enabled then Nft.Accept
    else if p.loopback then Nft.Accept
    else if p.tracking == Nft.Established || p.tracking == Nft.Related then Nft.Accept
    else RulesMeaning(parse, cfg.rules, cfg.defaultInputPolicy, p)
  }

  // ----- the rules the batch is meant to install -----

  function SourceMatch(cidr: Cidr): Nft.Match {
    if cidr.addr.V4? then Nft.SourceV4(cidr) else Nft.SourceV6(cidr)
  }

  function ProtocolMatch(protocol: Protocol, port: Option<nat>): seq<Nft.Match> {
    match protocol
    case Tcp => [if port.Some? then Nft.TcpPort(port.value) else Nft.AnyTcp]
    case Udp => [if port.Some? then Nft.UdpPort(port.value) else Nft.AnyUdp]
    case Icmp => [Nft.AnyIcmp]
    case Any => []
  }

  function Compiled(parse: AddressParser, rule: Rule): Nft.Rule
    requires ValidRule(parse, rule)
  {
    Nft.Rule((if rule.sourceCidr.Some? then [SourceMatch(ParseCidr(parse, rule.sourceCidr.value).value)] else [])
             + ProtocolMatch(rule.protocol, rule.destPort),
             VerdictOf(rule.action))
  }

  function CompiledRules(parse: AddressParser, rules: seq<Rule>): (r: seq<Nft.Rule>)
    requires forall rule :: rule in rules ==> ValidRule(parse, rule)
    ensures |r| == |rules|
    ensures forall i :: 0 <= i < |rules| ==> r[i] == Compiled(parse, rules[i])
  {
    if rules == [] then [] else [Compiled(parse, rules[0])] + CompiledRules(parse, rules[1..])
  }

  const BASELINE := [Nft.Rule([Nft.LoopbackInput], Nft.Accept), Nft.Rule([Nft.ReturnTraffic], Nft.Accept)]

  function ChainRules(parse: AddressParser, cfg: Config): seq<Nft.Rule>
    requires ValidConfig(parse, cfg)
  {
    if !cfg.enabled then []
    else BASELINE + CompiledRules(parse, cfg.rules)
         + (if cfg.defaultInputPolicy.DropPolicy? then [Nft.Rule([], Nft.Drop)] else [])
  }

  const INPUT_HOOK := Nft.Hook("filter", "input", "0")

  function InputChain(parse: AddressParser, cfg: Config): Nft.Chain
    requires ValidConfig(parse, cfg)
  {
    Nft.Chain(Some(INPUT_HOOK), Nft.Accept, ChainRules(parse, cfg))
  }

  /** A chain called `input` already in the table must be the same base chain, or nft refuses the batch. */
  predicate Compatible(rs: Nft.Ruleset) {
    ("inet", TABLE) in rs && "input" in rs[("inet", TABLE)] ==> rs[("inet", TABLE)]["input"].base == Some(INPUT_HOOK)
  }

  /** The prefix length is written with a leading plus, which the service accepts and nft does not read. */
  predicate PlusPrefix(cidr: string) {
    var cut := SplitOnce(cidr, '/');
    cut.Some? && cut.value.1 != "" && cut.value.1[0] == '+'
  }

  predicate RuleLegible(rule: Rule) {
    rule.sourceCidr.Some? ==> !PlusPrefix(rule.sourceCidr.value)
  }

  /** Every rule that is rendered can be read by nft. */
  predicate Legible(cfg: Config) {
    cfg.enabled ==> forall rule :: rule in cfg.rules ==> RuleLegible(rule)
  }

  /** Only the input chain of the service's own table is replaced. */
  function Installed(parse: AddressParser, cfg: Config, rs: Nft.Ruleset): Nft.Ruleset
    requires ValidConfig(parse, cfg)
  {
    var table := if ("inet", TABLE) in rs then rs[("inet", TABLE)] else map[];
    rs[("inet", TABLE) := table["input" := InputChain(parse, cfg)]]
  }

  // ----- meaning is preserved -----

  lemma CompiledHolds(parse: AddressParser, rule: Rule, p: Nft.Packet)
    requires ValidRule(parse, rule)
    ensures Nft.AllHold(Compiled(parse, rule).matches, p) <==> RuleMatches(parse, rule, p)
  {
    var source := if rule.sourceCidr.Some? then [SourceMatch(ParseCidr(parse, rule.sourceCidr.value).value)] else [];
    var protocol := ProtocolMatch(rule.protocol, rule.destPort);
    assert Nft.AllHold(source + protocol, p) <==> Nft.AllHold(source, p) && Nft.AllHold(protocol, p);
    assert Nft.AllHold(source, p) <==> |source| == 0 || Nft.Holds(source[0], p);
    assert Nft.AllHold(protocol, p) <==> |protocol| == 0 || Nft.Holds(protocol[0], p);
  }

  /** The installed rules decide each packet as the operator's list with its default policy does. */
  lemma {:induction false} RulesPreserved(parse: AddressParser, rules: seq<Rule>, policy: Policy, p: Nft.Packet)
    requires forall rule :: rule in rules ==> ValidRule(parse, rule)
    ensures var tail := if policy.DropPolicy? then [Nft.Rule([], Nft.Drop)] else [];
            Nft.Evaluate(CompiledRules(parse, rules) + tail, Nft.Accept, p) == RulesMeaning(parse, rules, policy, p)
  {
    var tail := if policy.DropPolicy? then [Nft.Rule([], Nft.Drop)] else [];
    if rules == [] {
      assert CompiledRules(parse, rules) + tail == tail;
    } else {
      CompiledHolds(parse, rules[0], p);
      RulesPreserved(parse, rules[1..], policy, p);
      assert (CompiledRules(parse, rules) + tail)[1..] == CompiledRules(parse, rules[1..]) + tail;
    }
  }

  /** The installed chain gives every packet the verdict the configuration means, whatever the ruleset held before. */
  lemma MeaningPreserved(parse: AddressParser, cfg: Config, rs: Nft.Ruleset, p: Nft.Packet)
    requires ValidConfig(parse, cfg)
    ensures var chain := Installed(parse, cfg, rs)[("inet", TABLE)]["input"];
            && chain.base == Some(INPUT_HOOK)
            && Nft.Evaluate(chain.rules, chain.policy, p) == Meaning(parse, cfg, p)
  {
    if cfg.enabled {
      var tail := if cfg.defaultInputPolicy.DropPolicy? then [Nft.Rule([], Nft.Drop)] else [];
      var operator := CompiledRules(parse, cfg.rules) + tail;
      var rules := ChainRules(parse, cfg);
      assert rules == BASELINE + operator;
      assert rules[1..][1..] == operator;
      assert rules[0] == BASELINE[0] && rules[1..][0] == BASELINE[1];
      assert Nft.AllHold(BASELINE[0].matches, p) <==> Nft.Holds(BASELINE[0].matches[0], p);
      assert Nft.AllHold(BASELINE[1].matches, p) <==> Nft.Holds(BASELINE[1].matches[0], p);
      RulesPreserved(parse, cfg.rules, cfg.defaultInputPolicy, p);
    }
  }

  /** A node with nothing saved accepts every packet: no rule of any source, and no dropping policy, is in force. */
  lemma UnconfiguredAcceptsAll(parse: AddressParser, records: map<string, Config>, rs: Nft.Ruleset, p: Nft.Packet)
    requires RECORD_ID !in records
    ensures ValidConfig(parse, Saved(records)) && Legible(Saved(records))
    ensures var chain := Installed(parse, Saved(records), rs)[("inet", TABLE)]["input"];
            Nft.Evaluate(chain.rules, chain.policy, p) == Nft.Accept
  {
    MeaningPreserved(parse, Saved(records), rs, p);
  }

  /** Every other chain, and every other table, is as it was. */
  lemma OtherChainsUntouched(parse: AddressParser, cfg: Config, rs: Nft.Ruleset, key: (string, string), chain: string)
    requires ValidConfig(parse, cfg)
    requires key != ("inet", TABLE) || chain != "input"
    ensures var after := Installed(parse, cfg, rs);
            && (key in rs ==> key in after)
            && (key in after && key != ("inet", TABLE) ==> key in rs && after[key] == rs[key])
            && (key in rs && chain in rs[key] ==> chain in after[key] && after[key][chain] == rs[key][chain])
            && (key in rs && chain in after[key] ==> chain in rs[key])
  {
  }

  // ----- rendering -----

  function FamilyKeyword(addr: IpAddr): string {
    if addr.V4? then "ip" else "ip6"
  }

  method CidrFamily(parse: AddressParser, cidr: string) returns (r: Result<string, AppError>)
    ensures ParseCidr(parse, cidr).Some? ==> r == Ok(FamilyKeyword(ParseCidr(parse, cidr).value.addr))
    ensures r.Err? ==> r.error == Internal
  {
    var split := SplitOnce(cidr, '/');
    var addr := parse(if split.Some? then split.value.0 else cidr);
    if addr.None? {
      return Err(Internal);
    }
    return Ok(FamilyKeyword(addr.value));
  }

  /** Adding the words of one match in front of the words of a rule adds that match in front. */
  lemma ParsePrepend(parse: AddressParser, words: seq<string>, m: Nft.Match, rest: seq<string>)
    requires |words| >= 1 && |rest| >= 1
    requires Nft.ParseMatch(parse, words + rest) == Some((m, |words|))
    requires Nft.ParseRule(parse, rest).Some?
    ensures var tail := Nft.ParseRule(parse, rest).value;
            Nft.ParseRule(parse, words + rest) == Some(Nft.Rule([m] + tail.matches, tail.verdict))
  {
    assert (words + rest)[|words|..] == rest;
  }

  /** The words that select the protocol, and how the renderer prints them. */
  function ProtocolWords(protocol: Protocol, port: Option<nat>): seq<string> {
    match protocol
    case Tcp => if port.Some? then ["tcp", "dport", Decimal(port.value)] else ["meta", "l4proto", "tcp"]
    case Udp => if port.Some? then ["udp", "dport", Decimal(port.value)] else ["meta", "l4proto", "udp"]
    case Icmp => ["meta", "l4proto", "{", "icmp,", "icmpv6", "}"]
    case Any => []
  }

  lemma PortMatchRead(parse: AddressParser, protocol: Protocol, port: nat, rest: seq<string>)
    requires port <= 65535 && (protocol.Tcp? || protocol.Udp?)
    ensures Nft.ParseMatch(parse, ProtocolWords(protocol, Some(port)) + rest)
         == Some((ProtocolMatch(protocol, Some(port))[0], 3))
  {
    hide ParseCidr, Decimal;
    ParseOfDecimal(port);
    var all := ProtocolWords(protocol, Some(port)) + rest;
    assert all[0] == (if protocol.Tcp? then "tcp" else "udp") && all[1] == "dport" && all[2] == Decimal(port);
    assert all[0] != "iif" && all[0] != "ct" && all[0] != "meta";
  }

  lemma PlainMatchRead(parse: AddressParser, protocol: Protocol, port: Option<nat>, rest: seq<string>)
    requires protocol.Icmp? || ((protocol.Tcp? || protocol.Udp?) && port.None?)
    ensures var words := ProtocolWords(protocol, port);
            Nft.ParseMatch(parse, words + rest) == Some((ProtocolMatch(protocol, port)[0], |words|))
  {
    hide ParseCidr, Decimal, Nft.ParsePort;
    var words := ProtocolWords(protocol, port);
    var all := words + rest;
    assert all[0] == "meta" && all[1] == "l4proto" && all[2] == words[2] && all[..|words|] == words;
    assert all[..3] == words[..3];
  }

  lemma ProtocolWordsFit(protocol: Protocol, port: Option<nat>)
    ensures forall w :: w in ProtocolWords(protocol, port) ==> w != [] && NoWhitespace(w)
  {
    if port.Some? {
      DecimalPlain(port.value);
    }
    hide Decimal;
  }

  lemma ProtocolRead(parse: AddressParser, rule: Rule, words: seq<string>, verdict: string)
    requires rule.destPort.Some? ==> rule.destPort.value <= 65535
    requires words == ProtocolWords(rule.protocol, rule.destPort)
    requires Nft.ParseVerdict(verdict) == Some(VerdictOf(rule.action))
    ensures Nft.ParseRule(parse, words + [verdict])
         == Some(Nft.Rule(ProtocolMatch(rule.protocol, rule.destPort), VerdictOf(rule.action)))
    ensures forall w :: w in words ==> w != [] && NoWhitespace(w)
  {
    var tail := Nft.Rule([], VerdictOf(rule.action));
    assert Nft.ParseRule(parse, [verdict]) == Some(tail);
    hide Nft.ParseMatch, Nft.ParseRule, NoWhitespace, Nft.ParseVerdict;
    ProtocolWordsFit(rule.protocol, rule.destPort);
    if rule.protocol.Any? {
      assert words + [verdict] == [verdict];
    } else {
      var m := ProtocolMatch(rule.protocol, rule.destPort);
      if !rule.protocol.Icmp? && rule.destPort.Some? {
        PortMatchRead(parse, rule.protocol, rule.destPort.value, [verdict]);
      } else {
        PlainMatchRead(parse, rule.protocol, rule.destPort, [verdict]);
      }
      hide ProtocolWords;
      ParsePrepend(parse, words, m[0], [verdict]);
      assert [m[0]] + [] == m;
    }
  }

  function VerdictWord(action: Action): string {
    match action
    case Accept => "accept"
    case Drop => "drop"
    case Reject => "reject"
  }

  function SourceWords(parse: AddressParser, rule: Rule): seq<string>
    requires ValidRule(parse, rule)
  {
    if rule.sourceCidr.Some?
    then [FamilyKeyword(ParseCidr(parse, rule.sourceCidr.value).value.addr), "saddr", rule.sourceCidr.value]
    else []
  }

  /** The words one rule is rendered to, and how nft reads them. */
  function RuleWords(parse: AddressParser, rule: Rule): (words: seq<string>)
    requires ValidRule(parse, rule)
    ensures |words| >= 1
  {
    SourceWords(parse, rule) + ProtocolWords(rule.protocol, rule.destPort)
    + [VerdictWord(rule.action)]
  }

  ghost predicate AllWords(ws: seq<string>) {
    forall i :: 0 <= i < |ws| ==> ws[i] != [] && NoWhitespace(ws[i])
  }

  /** nft reads a validated CIDR as the service does, except for a leading plus. */
  lemma CidrRead(parse: AddressParser, text: string)
    requires ParseCidr(parse, text).Some?
    ensures Nft.ReadCidr(parse, text) == if PlusPrefix(text) then None else ParseCidr(parse, text)
  {
    var prefix := SplitOnce(text, '/').value.1;
    if PlusPrefix(text) {
      PlusIsNotDecimal(prefix);
    }
  }

  lemma SourceMatchRead(parse: AddressParser, text: string, rest: seq<string>)
    requires ParseCidr(parse, text).Some?
    ensures var cidr := ParseCidr(parse, text).value;
            Nft.ParseMatch(parse, [FamilyKeyword(cidr.addr), "saddr", text] + rest)
            == if PlusPrefix(text) then None else Some((SourceMatch(cidr), 3))
  {
    CidrRead(parse, text);
    hide ParseCidr, Nft.ParsePort, Nft.ReadCidr, PlusPrefix;
    var cidr := ParseCidr(parse, text).value;
    var words := [FamilyKeyword(cidr.addr), "saddr", text] + rest;
    assert words[0] == FamilyKeyword(cidr.addr) && words[1] == "saddr" && words[2] == text;
  }

  lemma MatchRefused(parse: AddressParser, words: seq<string>)
    requires |words| > 1 && Nft.ParseMatch(parse, words).None?
    ensures Nft.ParseRule(parse, words).None?
  {
    hide Nft.ParseMatch;
  }

  lemma SourceRead(parse: AddressParser, text: string, rest: seq<string>)
    requires AddressSyntax(parse)
    requires ParseCidr(parse, text).Some?
    requires |rest| >= 1 && Nft.ParseRule(parse, rest).Some?
    ensures var cidr := ParseCidr(parse, text).value;
            var source := [FamilyKeyword(cidr.addr), "saddr", text];
            var tail := Nft.ParseRule(parse, rest).value;
            && AllWords(source)
            && Nft.ParseRule(parse, source + rest)
               == if PlusPrefix(text) then None else Some(Nft.Rule([SourceMatch(cidr)] + tail.matches, tail.verdict))
  {
    hide ParseCidr, Nft.ParseRule, Nft.ParseMatch, AddressSyntax, SourceMatch, PlusPrefix;
    var cidr := ParseCidr(parse, text).value;
    var source := [FamilyKeyword(cidr.addr), "saddr", text];
    SourceMatchRead(parse, text, rest);
    if PlusPrefix(text) {
      MatchRefused(parse, source + rest);
    } else {
      ParsePrepend(parse, source, SourceMatch(cidr), rest);
    }
    assert AllWords(source) by {
      CidrIsWord(parse, text);
    }
  }

  /** nft reads a rendered rule back as exactly the compiled rule, unless its prefix length carries a plus. */
  lemma RuleRead(parse: AddressParser, rule: Rule)
    requires AddressSyntax(parse)
    requires ValidRule(parse, rule)
    requires rule.destPort.Some? ==> rule.destPort.value <= 65535
    ensures var words := RuleWords(parse, rule);
            AllWords(words)
            && Nft.ParseRule(parse, words) == if RuleLegible(rule) then Some(Compiled(parse, rule)) else None
  {
    hide ParseCidr, Nft.ParseRule, NoWhitespace, ProtocolWords, FamilyKeyword, PlusPrefix;
    var protocol := ProtocolWords(rule.protocol, rule.destPort);
    var verdict := VerdictWord(rule.action);
    VerdictRead(rule.action);
    ProtocolRead(parse, rule, protocol, verdict);
    var tail := protocol + [verdict];
    assert AllWords(tail) by {
      assert forall i :: 0 <= i < |protocol| ==> protocol[i] in protocol;
    }
    if rule.sourceCidr.Some? {
      SourceRead(parse, rule.sourceCidr.value, tail);
      var source := SourceWords(parse, rule);
      assert RuleWords(parse, rule) == source + tail;
      assert forall i :: 0 <= i < |source + tail| ==> (source + tail)[i] == if i < 3 then source[i] else tail[i - 3];
    } else {
      assert RuleWords(parse, rule) == tail;
      assert [] + ProtocolMatch(rule.protocol, rule.destPort) == ProtocolMatch(rule.protocol, rule.destPort);
    }
  }

  lemma VerdictRead(action: Action)
    ensures Nft.ParseVerdict(VerdictWord(action)) == Some(VerdictOf(action))
    ensures VerdictWord(action) != [] && NoWhitespace(VerdictWord(action))
  {
  }

  method RenderRule(parse: AddressParser, rule: Rule) returns (r: Result<string, AppError>)
    requires ValidRule(parse, rule)
    ensures r == Ok(Unwords(RuleWords(parse, rule)))
  {
    var parts: seq<string> := [];
    if rule.sourceCidr.Some? {
      var cidr := rule.sourceCidr.value;
      var family := CidrFamily(parse, cidr);
      if family.Err? {
        return family;
      }
      parts := parts + [Unwords([family.value, "saddr", cidr])];
    }
    match rule.protocol {
      case Tcp =>
        parts := parts + [Unwords(if rule.destPort.Some? then ["tcp", "dport", Decimal(rule.destPort.value)]
                                  else ["meta", "l4proto", "tcp"])];
      case Udp =>
        parts := parts + [Unwords(if rule.destPort.Some? then ["udp", "dport", Decimal(rule.destPort.value)]
                                  else ["meta", "l4proto", "udp"])];
      case Icmp =>
        parts := parts + [Unwords(["meta", "l4proto", "{", "icmp,", "icmpv6", "}"])];
      case Any =>
    }
    var verdict := match rule.action case Accept => "accept" case Drop => "drop" case Reject => "reject";
    parts := parts + [verdict];
    PartsPrint(parse, rule, parts);
    return Ok(Unwords(parts));
  }

  /** Printing groups of words in two stages prints the words. */
  lemma PartsPrint(parse: AddressParser, rule: Rule, parts: seq<string>)
    requires ValidRule(parse, rule)
    requires var source := SourceWords(parse, rule);
             var protocol := ProtocolWords(rule.protocol, rule.destPort);
             parts == (if source == [] then [] else [Unwords(source)])
                      + (if protocol == [] then [] else [Unwords(protocol)]) + [VerdictWord(rule.action)]
    ensures Unwords(parts) == Unwords(RuleWords(parse, rule))
  {
    var source := SourceWords(parse, rule);
    var protocol := ProtocolWords(rule.protocol, rule.destPort);
    var verdict := VerdictWord(rule.action);
    var tail := (if protocol == [] then [] else [Unwords(protocol)]) + [verdict];
    if protocol != [] {
      JoinAppend(protocol, [verdict], ' ');
      assert tail == [Join(protocol, ' '), verdict] && tail[1..] == [verdict];
    } else {
      assert protocol + [verdict] == tail;
    }
    assert Join(tail, ' ') == Join(protocol + [verdict], ' ');
    if source != [] {
      assert parts == [Unwords(source)] + tail && parts[1..] == tail;
      assert source + (protocol + [verdict]) == RuleWords(parse, rule);
      JoinAppend(source, protocol + [verdict], ' ');
    } else {
      assert parts == tail && protocol + [verdict] == RuleWords(parse, rule);
    }
  }

  // ----- the batch -----

  function TableLine(): string {
    Unwords(["add", "table", "inet", TABLE])
  }

  function ChainLine(): string {
    Unwords(ChainWords())
  }

  function FlushLine(): string {
    Unwords(["flush", "chain", "inet", TABLE, "input"])
  }

  function AddRuleWords(): seq<string> {
    ["add", "rule", "inet", TABLE, "input"]
  }

  /** `add rule inet <table> input <body>`. */
  function RuleLine(body: string): string {
    Unwords(AddRuleWords()) + " " + body
  }

  function LoopbackLine(): string {
    RuleLine(Unwords(["iif", "lo", "accept"]))
  }

  function ReturnTrafficLine(): string {
    RuleLine(Unwords(["ct", "state", "established,related", "accept"]))
  }

  function RuleLines(parse: AddressParser, rules: seq<Rule>): (lines: seq<string>)
    requires forall rule :: rule in rules ==> ValidRule(parse, rule)
    ensures |lines| == |rules|
    ensures forall i :: 0 <= i < |rules| ==> lines[i] == RuleLine(Unwords(RuleWords(parse, rules[i])))
  {
    seq(|rules|, i requires 0 <= i < |rules| => assert rules[i] in rules; RuleLine(Unwords(RuleWords(parse, rules[i]))))
  }

  function BaselineLines(): seq<string> {
    [TableLine(), ChainLine(), FlushLine(), LoopbackLine(), ReturnTrafficLine()]
  }

  function BatchLines(parse: AddressParser, cfg: Config): seq<string>
    requires ValidConfig(parse, cfg)
  {
    if !cfg.enabled then BaselineLines()[..3]
    else
      var lines := BaselineLines() + RuleLines(parse, cfg.rules);
      if cfg.defaultInputPolicy.DropPolicy? then lines + [RuleLine("drop")] else lines
  }

  method EmptyBatch() returns (b: string)
    ensures b == Unlines([])
  {
    b := "";
  }

  method PushLine(b: string, line: string, ghost lines: seq<string>) returns (after: string)
    requires b == Unlines(lines)
    ensures after == Unlines(lines + [line])
  {
    after := b + line + "\n";
    UnlinesPush(lines, line);
  }

  method AppendRules(parse: AddressParser, rules: seq<Rule>, batch: string, ghost lines: seq<string>)
    returns (r: Result<string, AppError>)
    requires forall rule :: rule in rules ==> ValidRule(parse, rule)
    requires batch == Unlines(lines)
    ensures r == Ok(Unlines(lines + RuleLines(parse, rules)))
  {
    hide RuleLine, Unwords, RuleWords, Unlines, ValidRule;
    var b := batch;
    ghost var expected := RuleLines(parse, rules);
    assert lines + expected[..0] == lines;
    for i := 0 to |rules|
      invariant b == Unlines(lines + expected[..i])
    {
      assert rules[i] in rules;
      var body := RenderRule(parse, rules[i]);
      if body.Err? {
        return body;
      }
      b := PushLine(b, RuleLine(body.value), lines + expected[..i]);
      assert lines + expected[..i] + [expected[i]] == lines + expected[..i + 1];
    }
    assert lines + expected[..|rules|] == lines + expected;
    return Ok(b);
  }

  method PushNext(b: string, ghost lines: seq<string>, ghost n: nat, line: string) returns (after: string)
    requires n < |lines| && lines[n] == line && b == Unlines(lines[..n])
    ensures after == Unlines(lines[..n + 1])
  {
    hide Unlines;
    assert lines[..n] + [line] == lines[..n + 1];
    after := PushLine(b, line, lines[..n]);
  }

  method NftHostBatch(parse: AddressParser, cfg: Config) returns (r: Result<string, AppError>)
    requires ValidConfig(parse, cfg)
    ensures r == Ok(Unlines(BatchLines(parse, cfg)))
  {
    hide TableLine, ChainLine, FlushLine, LoopbackLine, ReturnTrafficLine, RuleLine, RuleLines, Unlines;
    ghost var lines := BaselineLines();
    var b := EmptyBatch();
    assert lines[..0] == [];
    b := PushNext(b, lines, 0, TableLine());
    b := PushNext(b, lines, 1, ChainLine());
    b := PushNext(b, lines, 2, FlushLine());
    if !cfg.enabled {
      return Ok(b);
    }
    b := PushNext(b, lines, 3, LoopbackLine());
    b := PushNext(b, lines, 4, ReturnTrafficLine());
    assert lines[..5] == lines;
    r := AppendRules(parse, cfg.rules, b, lines);
    if r.Err? {
      return;
    }
    if cfg.defaultInputPolicy.DropPolicy? {
      b := PushLine(r.value, RuleLine("drop"), lines + RuleLines(parse, cfg.rules));
      return Ok(b);
    }
  }

  // ----- what nft makes of the batch -----

  function AddRules(rules: seq<Nft.Rule>): (cmds: seq<Nft.Command>)
    ensures |cmds| == |rules|
    ensures forall i :: 0 <= i < |rules| ==> cmds[i] == Nft.AddRule("inet", TABLE, "input", rules[i])
  {
    if rules == [] then [] else [Nft.AddRule("inet", TABLE, "input", rules[0])] + AddRules(rules[1..])
  }

  function Commands(parse: AddressParser, cfg: Config): seq<Nft.Command>
    requires ValidConfig(parse, cfg)
  {
    Preamble() + AddRules(ChainRules(parse, cfg))
  }

  /** A line that nft reads as the given command. */
  ghost predicate Reads(parse: AddressParser, line: string, outcome: Option<Nft.Command>) {
    IsLine(line) && Nft.ParseCommand(parse, Words(line)) == outcome
  }

  lemma LineReads(parse: AddressParser, ws: seq<string>)
    requires |ws| >= 1 && AllWords(ws)
    ensures Reads(parse, Unwords(ws), Nft.ParseCommand(parse, ws))
  {
    hide Nft.ParseCommand;
    WordsOfJoin(ws);
    JoinIsLine(ws);
  }

  lemma TableWordsFit()
    ensures AllWords(["add", "table", "inet", TABLE]) && AllWords(["flush", "chain", "inet", TABLE, "input"])
  {
  }

  lemma TableLineReads(parse: AddressParser)
    ensures Reads(parse, TableLine(), Some(Nft.AddTable("inet", TABLE)))
  {
    hide AllWords, Reads, Join;
    var ws := ["add", "table", "inet", TABLE];
    TableWordsFit();
    LineReads(parse, ws);
  }

  function ChainWords(): seq<string> {
    ["add", "chain", "inet", TABLE, "input", "{", "type", "filter", "hook", "input", "priority", "0;", "policy", "accept;", "}"]
  }

  lemma ChainWordsFit()
    ensures |ChainWords()| >= 1 && AllWords(ChainWords())
  {
  }

  lemma ChainCommand(parse: AddressParser)
    ensures Nft.ParseCommand(parse, ChainWords()) == Some(Nft.AddChain("inet", TABLE, "input", INPUT_HOOK, Nft.Accept))
  {
    hide Nft.ParseRule;
    assert "0;"[..1] == "0";
  }

  lemma ChainLineReads(parse: AddressParser)
    ensures Reads(parse, ChainLine(), Some(Nft.AddChain("inet", TABLE, "input", INPUT_HOOK, Nft.Accept)))
  {
    hide AllWords, Reads, Join, ChainWords, Nft.ParseCommand;
    ChainWordsFit();
    ChainCommand(parse);
    LineReads(parse, ChainWords());
  }

  lemma FlushLineReads(parse: AddressParser)
    ensures Reads(parse, FlushLine(), Some(Nft.FlushChain("inet", TABLE, "input")))
  {
    hide AllWords, Reads, Join;
    var ws := ["flush", "chain", "inet", TABLE, "input"];
    TableWordsFit();
    LineReads(parse, ws);
  }

  lemma RulePrefix()
    ensures |AddRuleWords()| >= 1 && AllWords(AddRuleWords())
  {
  }

  /** The command that adds what a rule line was read as. */
  function Added(rule: Option<Nft.Rule>): Option<Nft.Command> {
    match rule
    case None => None
    case Some(r) => Some(Nft.AddRule("inet", TABLE, "input", r))
  }

  lemma ParseRuleCommand(parse: AddressParser, words: seq<string>)
    requires |words| >= 1
    ensures Nft.ParseCommand(parse, AddRuleWords() + words) == Added(Nft.ParseRule(parse, words))
  {
    hide Nft.ParseRule, Nft.ParseCommand;
    var ws := AddRuleWords() + words;
    assert ws[5..] == words && ws[0] == "add" && ws[1] == "rule";
    ParseAddRule(parse, ws);
  }

  lemma ParseAddRule(parse: AddressParser, ws: seq<string>)
    requires |ws| > 5 && ws[0] == "add" && ws[1] == "rule"
    ensures var rule := Nft.ParseRule(parse, ws[5..]);
            Nft.ParseCommand(parse, ws)
            == if rule.None? then None else Some(Nft.AddRule(ws[2], ws[3], ws[4], rule.value))
  {
    hide Nft.ParseRule;
    assert ws[1] != "chain" && ws[0] != "flush";
  }

  lemma RuleLineReads(parse: AddressParser, words: seq<string>)
    requires |words| >= 1 && AllWords(words)
    ensures Reads(parse, RuleLine(Unwords(words)), Added(Nft.ParseRule(parse, words)))
  {
    hide Nft.ParseRule, Nft.ParseCommand, NoWhitespace, Reads, Join, AddRuleWords, Added;
    var prefix := AddRuleWords();
    ParseRuleCommand(parse, words);
    RulePrefix();
    JoinAppend(prefix, words, ' ');
    LineReads(parse, prefix + words);
  }

  lemma LoopbackLineReads(parse: AddressParser)
    ensures Reads(parse, LoopbackLine(), Added(Some(BASELINE[0])))
  {
    hide RuleLine, Reads;
    var words := ["iif", "lo", "accept"];
    assert words[..2] == ["iif", "lo"] && words[2..] == ["accept"];
    assert [Nft.LoopbackInput] + [] == BASELINE[0].matches;
    RuleLineReads(parse, words);
  }

  lemma ReturnTrafficLineReads(parse: AddressParser)
    ensures Reads(parse, ReturnTrafficLine(), Added(Some(BASELINE[1])))
  {
    hide RuleLine, Reads;
    var words := ["ct", "state", "established,related", "accept"];
    assert words[..3] == ["ct", "state", "established,related"] && words[3..] == ["accept"];
    assert [Nft.ReturnTraffic] + [] == BASELINE[1].matches;
    assert words[0] != "iif";
    assert Nft.ParseMatch(parse, words) == Some((Nft.ReturnTraffic, 3));
    assert Nft.ParseRule(parse, ["accept"]) == Some(Nft.Rule([], Nft.Accept));
    RuleLineReads(parse, words);
  }

  lemma DropLineReads(parse: AddressParser)
    ensures Reads(parse, RuleLine("drop"), Added(Some(Nft.Rule([], Nft.Drop))))
  {
    hide RuleLine, Reads;
    RuleLineReads(parse, ["drop"]);
  }

  lemma {:induction false} LinesRead(parse: AddressParser, lines: seq<string>, cmds: seq<Nft.Command>)
    requires |lines| == |cmds|
    requires forall i :: 0 <= i < |lines| ==> Reads(parse, lines[i], Some(cmds[i]))
    ensures Nft.ParseLines(parse, lines) == Some(cmds)
  {
    hide Nft.ParseCommand, Words, IsLine;
    if lines != [] {
      assert Reads(parse, lines[0], Some(cmds[0]));
      LinesRead(parse, lines[1..], cmds[1..]);
      assert cmds == [cmds[0]] + cmds[1..];
    }
  }

  lemma TextReads(parse: AddressParser, lines: seq<string>, cmds: seq<Nft.Command>)
    requires |lines| == |cmds|
    requires forall i :: 0 <= i < |lines| ==> Reads(parse, lines[i], Some(cmds[i]))
    ensures Nft.ParseLines(parse, Lines(Unlines(lines))) == Some(cmds)
  {
    hide Nft.ParseCommand, Nft.ParseLines, Words, IsLine, Lines, Unlines;
    LinesRead(parse, lines, cmds);
    LinesOfUnlines(lines);
  }

  /** One line that cannot be read refuses the whole text. */
  lemma {:induction false} LineRefused(parse: AddressParser, lines: seq<string>, i: nat)
    requires i < |lines| && Reads(parse, lines[i], None)
    ensures Nft.ParseLines(parse, lines) == None
  {
    hide Nft.ParseCommand, Words, IsLine;
    if i > 0 {
      LineRefused(parse, lines[1..], i - 1);
    }
  }

  lemma TextRefused(parse: AddressParser, lines: seq<string>, outcomes: seq<Option<Nft.Command>>, i: nat)
    requires |lines| == |outcomes| && i < |lines| && outcomes[i] == None
    requires forall k :: 0 <= k < |lines| ==> Reads(parse, lines[k], outcomes[k])
    ensures Nft.ParseLines(parse, Lines(Unlines(lines))) == None
  {
    hide Nft.ParseCommand, Nft.ParseLines, Words, IsLine, Lines, Unlines;
    LineRefused(parse, lines, i);
    forall k | 0 <= k < |lines|
      ensures IsLine(lines[k])
    {
      assert Reads(parse, lines[k], outcomes[k]);
    }
    LinesOfUnlines(lines);
  }

  /** What nft reads each line of the batch as. */
  function Outcomes(parse: AddressParser, cfg: Config): (r: seq<Option<Nft.Command>>)
    requires ValidConfig(parse, cfg)
    ensures |r| == |Commands(parse, cfg)|
    ensures forall i :: 0 <= i < |r| ==> r[i] == if RefusedAt(cfg, i) then None else Some(Commands(parse, cfg)[i])
  {
    var cmds := Commands(parse, cfg);
    seq(|cmds|, i requires 0 <= i < |cmds| => if RefusedAt(cfg, i) then None else Some(cmds[i]))
  }

  /** Line `i` renders a rule that nft cannot read. */
  predicate RefusedAt(cfg: Config, i: int) {
    cfg.enabled && 5 <= i < 5 + |cfg.rules| && !RuleLegible(cfg.rules[i - 5])
  }

  function BaselineCommands(): seq<Nft.Command> {
    Preamble() + [Nft.AddRule("inet", TABLE, "input", BASELINE[0]), Nft.AddRule("inet", TABLE, "input", BASELINE[1])]
  }

  lemma BaselineReads(parse: AddressParser)
    ensures |BaselineLines()| == |BaselineCommands()| == 5
    ensures forall i :: 0 <= i < 5 ==> Reads(parse, BaselineLines()[i], Some(BaselineCommands()[i]))
  {
    hide Reads, TableLine, ChainLine, FlushLine, LoopbackLine, ReturnTrafficLine;
    TableLineReads(parse);
    ChainLineReads(parse);
    FlushLineReads(parse);
    LoopbackLineReads(parse);
    ReturnTrafficLineReads(parse);
  }

  /** The lines before the operator's rules. */
  lemma BaselineAt(parse: AddressParser, cfg: Config, i: nat)
    requires ValidConfig(parse, cfg) && i < 5 && (!cfg.enabled ==> i < 3)
    ensures i < |BatchLines(parse, cfg)| && i < |Commands(parse, cfg)|
    ensures BatchLines(parse, cfg)[i] == BaselineLines()[i] && Commands(parse, cfg)[i] == BaselineCommands()[i]
  {
    hide TableLine, ChainLine, FlushLine, LoopbackLine, ReturnTrafficLine, RuleLine, ValidRule, CompiledRules, RuleLines;
  }

  /** The closing drop. */
  lemma DropAt(parse: AddressParser, cfg: Config)
    requires ValidConfig(parse, cfg) && cfg.enabled && cfg.defaultInputPolicy.DropPolicy?
    ensures var i := 5 + |cfg.rules|;
            && i < |BatchLines(parse, cfg)| && BatchLines(parse, cfg)[i] == RuleLine("drop")
            && i < |Commands(parse, cfg)|
            && Commands(parse, cfg)[i] == Nft.AddRule("inet", TABLE, "input", Nft.Rule([], Nft.Drop))
  {
    hide TableLine, ChainLine, FlushLine, LoopbackLine, ReturnTrafficLine, RuleLine, ValidRule;
  }

  lemma LineCount(parse: AddressParser, cfg: Config)
    requires ValidConfig(parse, cfg)
    ensures var n := if !cfg.enabled then 3
                     else 5 + |cfg.rules| + if cfg.defaultInputPolicy.DropPolicy? then 1 else 0;
            |BatchLines(parse, cfg)| == n && |Commands(parse, cfg)| == n
  {
    hide TableLine, ChainLine, FlushLine, LoopbackLine, ReturnTrafficLine, RuleLine, ValidRule;
  }

  lemma EveryLineReads(parse: AddressParser, cfg: Config)
    requires AddressSyntax(parse)
    requires ValidConfig(parse, cfg) && PortsFit(cfg)
    ensures var lines, outcomes := BatchLines(parse, cfg), Outcomes(parse, cfg);
            |lines| == |outcomes| && forall i :: 0 <= i < |lines| ==> Reads(parse, lines[i], outcomes[i])
  {
    hide Reads, BatchLines, Commands, BaselineLines, BaselineCommands, RuleLine, Outcomes, RuleLegible, ValidConfig, PortsFit;
    LineCount(parse, cfg);
    BaselineReads(parse);
    DropLineReads(parse);
    var lines := BatchLines(parse, cfg);
    forall i | 0 <= i < |lines|
      ensures Reads(parse, lines[i], Outcomes(parse, cfg)[i])
    {
      if i < 5 {
        BaselineAt(parse, cfg, i);
      } else if i < 5 + |cfg.rules| {
        RuleAtReads(parse, cfg, i - 5);
      } else {
        DropAt(parse, cfg);
      }
    }
  }

  lemma RuleAtReads(parse: AddressParser, cfg: Config, k: nat)
    requires AddressSyntax(parse)
    requires ValidConfig(parse, cfg) && PortsFit(cfg) && cfg.enabled && k < |cfg.rules|
    ensures |BatchLines(parse, cfg)| > 5 + k && |Outcomes(parse, cfg)| > 5 + k
    ensures Reads(parse, BatchLines(parse, cfg)[5 + k], Outcomes(parse, cfg)[5 + k])
  {
    hide Reads, TableLine, ChainLine, FlushLine, LoopbackLine, ReturnTrafficLine, RuleLine, Unwords, RuleWords, Nft.ParseRule,
         ValidRule, Compiled, Outcomes, RuleLegible;
    var rule := cfg.rules[k];
    assert rule in cfg.rules;
    RuleRead(parse, rule);
    assert BatchLines(parse, cfg)[5 + k] == RuleLine(Unwords(RuleWords(parse, rule)));
    assert ChainRules(parse, cfg)[2 + k] == Compiled(parse, rule);
    RuleLineReads(parse, RuleWords(parse, rule));
  }

  lemma {:induction false} ApplyAddRules(rules: seq<Nft.Rule>, rs: Nft.Ruleset)
    requires ("inet", TABLE) in rs && "input" in rs[("inet", TABLE)]
    ensures var table := rs[("inet", TABLE)];
            var chain := table["input"];
            Nft.ApplyAll(AddRules(rules), rs)
            == Some(rs[("inet", TABLE) := table["input" := chain.(rules := chain.rules + rules)]])
  {
    var key := ("inet", TABLE);
    var table := rs[key];
    var chain := table["input"];
    if rules == [] {
      assert chain.rules + rules == chain.rules;
      assert table["input" := chain] == table && rs[key := table] == rs;
    } else {
      var next := rs[key := table["input" := chain.(rules := chain.rules + [rules[0]])]];
      ApplyAddRule(rules[0], rs);
      ApplyAddRules(rules[1..], next);
      hide Nft.Apply;
      assert AddRules(rules) == [Nft.AddRule("inet", TABLE, "input", rules[0])] + AddRules(rules[1..]);
      assert chain.rules + [rules[0]] + rules[1..] == chain.rules + rules;
      var last := chain.(rules := chain.rules + rules);
      assert next[key]["input" := last] == table["input" := last];
      assert next[key := table["input" := last]] == rs[key := table["input" := last]];
    }
  }

  lemma ApplyAddRule(rule: Nft.Rule, rs: Nft.Ruleset)
    requires ("inet", TABLE) in rs && "input" in rs[("inet", TABLE)]
    ensures var table := rs[("inet", TABLE)];
            var chain := table["input"];
            Nft.Apply(Nft.AddRule("inet", TABLE, "input", rule), rs)
            == Some(rs[("inet", TABLE) := table["input" := chain.(rules := chain.rules + [rule])]])
  {
  }

  /** The table as the preamble leaves it: an empty input chain with an accepting policy, everything else kept. */
  function Flushed(rs: Nft.Ruleset): Nft.Ruleset {
    var table := if ("inet", TABLE) in rs then rs[("inet", TABLE)] else map[];
    rs[("inet", TABLE) := table["input" := Nft.Chain(Some(INPUT_HOOK), Nft.Accept, [])]]
  }

  function Preamble(): seq<Nft.Command> {
    [Nft.AddTable("inet", TABLE), Nft.AddChain("inet", TABLE, "input", INPUT_HOOK, Nft.Accept),
     Nft.FlushChain("inet", TABLE, "input")]
  }

  lemma {:induction false} ApplyAllAppend(a: seq<Nft.Command>, b: seq<Nft.Command>, rs: Nft.Ruleset)
    ensures Nft.ApplyAll(a + b, rs)
         == if Nft.ApplyAll(a, rs).None? then None else Nft.ApplyAll(b, Nft.ApplyAll(a, rs).value)
  {
    if a == [] {
      assert a + b == b;
    } else {
      assert (a + b)[1..] == a[1..] + b;
      var next := Nft.Apply(a[0], rs);
      if next.Some? {
        ApplyAllAppend(a[1..], b, next.value);
      }
    }
  }

  lemma ApplyThree(a: Nft.Command, b: Nft.Command, c: Nft.Command, rs: Nft.Ruleset)
    ensures var after := Nft.Apply(a, rs);
            Nft.ApplyAll([a, b, c], rs)
            == if after.None? then None
               else var second := Nft.Apply(b, after.value);
                    if second.None? then None else Nft.Apply(c, second.value)
  {
    hide Nft.Apply;
    assert [a, b, c][1..] == [b, c] && [b, c][1..] == [c] && [c][1..] == [];
    var first := Nft.Apply(a, rs);
    if first.Some? {
      var second := Nft.Apply(b, first.value);
      assert Nft.ApplyAll([a, b, c], rs) == Nft.ApplyAll([b, c], first.value);
      if second.Some? {
        assert Nft.ApplyAll([b, c], first.value) == Nft.ApplyAll([c], second.value);
        assert Nft.ApplyAll([c], second.value) == Nft.Apply(c, second.value);
      }
    }
  }

  lemma ApplyPreamble(rs: Nft.Ruleset)
    ensures Nft.ApplyAll(Preamble(), rs) == if Compatible(rs) then Some(Flushed(rs)) else None
  {
    var key := ("inet", TABLE);
    var cmds := Preamble();
    ApplyThree(cmds[0], cmds[1], cmds[2], rs);
    hide Nft.ApplyAll;
    var rs1 := if key in rs then rs else rs[key := map[]];
    if Compatible(rs) {
      var table := rs1[key];
      var chain := if "input" in table then table["input"].(policy := Nft.Accept)
                   else Nft.Chain(Some(INPUT_HOOK), Nft.Accept, []);
      var rs2 := rs1[key := table["input" := chain]];
      assert Nft.Apply(cmds[1], rs1) == Some(rs2);
      var empty := chain.(rules := []);
      assert table["input" := chain]["input" := empty] == table["input" := empty];
      assert rs2[key := table["input" := empty]] == rs[key := table["input" := empty]];
    }
  }

  /** Running the commands installs the chain exactly when no foreign chain is in the way; otherwise nothing happens. */
  lemma ApplyCommands(parse: AddressParser, cfg: Config, rs: Nft.Ruleset)
    requires ValidConfig(parse, cfg)
    ensures Nft.ApplyAll(Commands(parse, cfg), rs) == if Compatible(rs) then Some(Installed(parse, cfg, rs)) else None
  {
    hide ChainRules, Nft.ApplyAll, Compatible, Preamble;
    var rules := ChainRules(parse, cfg);
    ApplyPreamble(rs);
    ApplyAllAppend(Preamble(), AddRules(rules), rs);
    var flushed := Flushed(rs);
    ApplyAddRules(rules, flushed);
    var key := ("inet", TABLE);
    assert [] + rules == rules;
    var table := if key in rs then rs[key] else map[];
    var chain := InputChain(parse, cfg);
    assert flushed[key]["input" := chain] == table["input" := chain];
    assert flushed[key := table["input" := chain]] == rs[key := table["input" := chain]];
  }

  /** nft reads the rendered text as the commands of the configuration exactly when it can read every rule. */
  lemma BatchReads(parse: AddressParser, cfg: Config)
    requires AddressSyntax(parse)
    requires ValidConfig(parse, cfg) && PortsFit(cfg)
    ensures Nft.ParseLines(parse, Lines(Unlines(BatchLines(parse, cfg))))
         == if Legible(cfg) then Some(Commands(parse, cfg)) else None
  {
    hide ValidConfig, BatchLines, Commands, Outcomes, Reads, RuleLegible, Lines, Unlines, Nft.ParseLines;
    EveryLineReads(parse, cfg);
    var lines, outcomes := BatchLines(parse, cfg), Outcomes(parse, cfg);
    if Legible(cfg) {
      assert forall i :: 0 <= i < |lines| ==> !RefusedAt(cfg, i);
      TextReads(parse, lines, Commands(parse, cfg));
    } else {
      var k :| 0 <= k < |cfg.rules| && !RuleLegible(cfg.rules[k]);
      assert RefusedAt(cfg, 5 + k);
      LineCount(parse, cfg);
      TextRefused(parse, lines, outcomes, 5 + k);
    }
  }

  /** The rendered text, run by nft on any ruleset, installs the configuration exactly when no foreign chain is in the way
      and no prefix length is written with a plus; otherwise it is refused as a whole. */
  lemma BatchInstalls(parse: AddressParser, cfg: Config, rs: Nft.Ruleset)
    requires AddressSyntax(parse)
    requires ValidConfig(parse, cfg) && PortsFit(cfg)
    ensures Nft.RunBatch(parse, Unlines(BatchLines(parse, cfg)), rs)
         == if Compatible(rs) && Legible(cfg) then Some(Installed(parse, cfg, rs)) else None
  {
    hide ValidConfig, BatchLines, Commands, Legible, Lines, Unlines, Nft.ParseLines, Nft.ApplyAll, Installed, Compatible;
    BatchReads(parse, cfg);
    ApplyCommands(parse, cfg, rs);
  }

  lemma PlusAccepted(parse: AddressParser, address: string, digits: string)
    requires '/' !in address && parse(address).Some?
    requires ParseDecimal(digits).Some? && ParseDecimal(digits).value <= Width(parse(address).value)
    ensures ParseCidr(parse, address + "/" + ("+" + digits)).Some? && PlusPrefix(address + "/" + ("+" + digits))
  {
    SplitOnceAt(address, '/', "+" + digits);
    assert ("+" + digits)[1..] == digits;
  }

  /** A range the service accepts and nft refuses, whatever the host's rules are. */
  lemma PlusRefused(parse: AddressParser, bits: nat, rs: Nft.Ruleset)
    requires AddressSyntax(parse) && parse("10.0.0.0") == Some(V4(bits))
    ensures var cfg := Config(true, DropPolicy, [Rule(Accept, Any, Some("10.0.0.0/+8"), None)]);
            && ValidConfig(parse, cfg)
            && Nft.RunBatch(parse, Unlines(BatchLines(parse, cfg)), rs) == None
  {
    hide Nft.RunBatch, BatchLines, ParseCidr, PlusPrefix, AddressSyntax, Unlines;
    var cidr := "10.0.0.0/+8";
    assert ParseDecimal("8") == Some(8);
    assert cidr == "10.0.0.0" + "/" + ("+" + "8");
    PlusAccepted(parse, "10.0.0.0", "8");
    var rule := Rule(Accept, Any, Some(cidr), None);
    var cfg := Config(true, DropPolicy, [rule]);
    assert rule in cfg.rules && !RuleLegible(rule);
    BatchInstalls(parse, cfg, rs);
  }

  // ----- the service -----

  /** The kernel's rules, changed only through `nft -f`. */
  class Host {
    var ruleset: Nft.Ruleset

    constructor (rs: Nft.Ruleset)
      ensures ruleset == rs
    {
      ruleset := rs;
    }

    /** The broker, the file write or nft itself may fail, and a batch is applied as a whole or not at all; the answer about
        an applied batch may be lost. */
    method RunNft(parse: AddressParser, batch: string) returns (ok: bool)
      modifies this
      ensures ok ==> Nft.RunBatch(parse, batch, old(ruleset)) == Some(ruleset)
      ensures !ok ==> ruleset == old(ruleset) || Nft.RunBatch(parse, batch, old(ruleset)) == Some(ruleset)
    {
      var reached: bool := *;
      var answered: bool := *;
      var outcome := Nft.RunBatch(parse, batch, ruleset);
      if reached && outcome.Some? {
        ruleset := outcome.value;
      }
      return reached && outcome.Some? && answered;
    }
  }

  const RECORD_ID := "host"

  /** The saved configuration, or the default when there is none. */
  function Saved(records: map<string, Config>): Config {
    if RECORD_ID in records then records[RECORD_ID] else DEFAULT_CONFIG
  }

  class HostFirewallService {
    const parse: AddressParser
    const store: JsonStore<Config>
    const host: Host

    constructor (parse: AddressParser, store: JsonStore<Config>, host: Host)
      ensures this.parse == parse && this.store == store && this.host == host
    {
      this.parse := parse;
      this.store := store;
      this.host := host;
    }

    method ApplyConfig(cfg: Config) returns (r: Result<(), AppError>)
      requires AddressSyntax(parse) && ValidConfig(parse, cfg) && PortsFit(cfg)
      modifies host
      ensures r.Ok? ==> Compatible(old(host.ruleset)) && Legible(cfg)
                        && host.ruleset == Installed(parse, cfg, old(host.ruleset))
      ensures r.Err? ==> host.ruleset == old(host.ruleset)
                         || (Compatible(old(host.ruleset)) && Legible(cfg)
                             && host.ruleset == Installed(parse, cfg, old(host.ruleset)))
    {
      var batch := NftHostBatch(parse, cfg);
      if batch.Err? {
        return Err(Internal);
      }
      BatchInstalls(parse, cfg, host.ruleset);
      var ok := host.RunNft(parse, batch.value);
      return if ok then Ok(()) else Err(Hypervisor);
    }

    /** Validate, apply, then persist: a ruleset the host refused never becomes the saved one. */
    method Update(cfg: Config) returns (r: Result<Config, AppError>)
      requires AddressSyntax(parse) && PortsFit(cfg)
      modifies host, store
      ensures !ValidConfig(parse, cfg) ==> r == Err(Validation) && host.ruleset == old(host.ruleset)
      ensures r.Ok? ==> r.value == cfg && ValidConfig(parse, cfg) && Compatible(old(host.ruleset)) && Legible(cfg)
                        && host.ruleset == Installed(parse, cfg, old(host.ruleset))
      ensures store.records == if r.Ok? then old(store.records)[RECORD_ID := cfg] else old(store.records)
      ensures r.Err? && host.ruleset != old(host.ruleset) ==>
                ValidConfig(parse, cfg) && host.ruleset == Installed(parse, cfg, old(host.ruleset))
    {
      var valid := Validate(parse, cfg);
      if valid.Err? {
        return Err(valid.error);
      }
      var applied := ApplyConfig(cfg);
      if applied.Err? {
        return Err(applied.error);
      }
      var ok := store.Put(RECORD_ID, cfg);
      return if ok then Ok(cfg) else Err(Internal);
    }

    /** At startup the saved configuration is installed again; a failure leaves the host as it is, or with that
        configuration when only the answer was lost. */
    method ApplyPersisted() returns (ok: bool)
      requires AddressSyntax(parse)
      requires ValidConfig(parse, Saved(store.records)) && PortsFit(Saved(store.records))
      modifies host
      ensures ok ==> host.ruleset == Installed(parse, Saved(store.records), old(host.ruleset))
      ensures host.ruleset == old(host.ruleset)
              || (Compatible(old(host.ruleset)) && Legible(Saved(store.records))
                  && host.ruleset == Installed(parse, Saved(store.records), old(host.ruleset)))
    {
      var applied := ApplyConfig(Saved(store.records));
      return applied.Ok?;
    }
  }
}
