/** The fragment of nftables the host firewall talks to: rulesets, the batch language, and packet verdicts. */
module Nft {
  import opened Wrappers
  import opened Text
  import opened Addresses

  // ----- packets and rules -----

  datatype Transport = Tcp(port: nat) | Udp(port: nat) | Icmp | IcmpV6 | OtherTransport(number: nat)

  datatype Tracking = New | Established | Related | Invalid | Untracked

  datatype Packet = Packet(loopback: bool, tracking: Tracking, source: IpAddr, transport: Transport)

  datatype Verdict = Accept | Drop | Reject

  datatype Match = LoopbackInput | ReturnTraffic | SourceV4(cidr: Cidr) | SourceV6(cidr: Cidr) | TcpPort(port: nat)
                 | UdpPort(port: nat) | AnyTcp | AnyUdp | AnyIcmp

  datatype Rule = Rule(matches: seq<Match>, verdict: Verdict)

  predicate Holds(m: Match, p: Packet) {
    match m
    case LoopbackInput => p.loopback
    case ReturnTraffic => p.tracking == Established || p.tracking == Related
    case SourceV4(cidr) => p.source.V4? && Covers(cidr, p.source)
    case SourceV6(cidr) => p.source.V6? && Covers(cidr, p.source)
    case TcpPort(port) => p.transport == Tcp(port)
    case UdpPort(port) => p.transport == Udp(port)
    case AnyTcp => p.transport.Tcp?
    case AnyUdp => p.transport.Udp?
    case AnyIcmp => p.transport.Icmp? || p.transport.IcmpV6?
  }

  predicate AllHold(ms: seq<Match>, p: Packet) {
    forall m :: m in ms ==> Holds(m, p)
  }

  datatype Hook = Hook(kind: string, hook: string, priority: string)

  datatype Chain = Chain(base: Option<Hook>, policy: Verdict, rules: seq<Rule>)

  type Table = map<string, Chain>

  /** Tables by family and name. */
  type Ruleset = map<(string, string), Table>

  /** The verdict of the first rule whose matches all hold, else the policy of the chain. */
  function Evaluate(rules: seq<Rule>, policy: Verdict, p: Packet): Verdict {
    if rules == [] then policy
    else if AllHold(rules[0].matches, p) then rules[0].verdict
    else Evaluate(rules[1..], policy, p)
  }

  // ----- the batch language -----

  datatype Command = AddTable(family: string, table: string)
                   | AddChain(family: string, table: string, chain: string, base: Hook, policy: Verdict)
                   | FlushChain(family: string, table: string, chain: string)
                   | AddRule(family: string, table: string, chain: string, rule: Rule)

  function ParseVerdict(word: string): Option<Verdict> {
    if word == "accept" then Some(Accept)
    else if word == "drop" then Some(Drop)
    else if word == "reject" then Some(Reject)
    else None
  }

  function ParsePort(word: string): Option<nat> {
    match ParseDecimal(word)
    case None => None
    case Some(n) => if n <= 65535 then Some(n) else None
  }

  /** An address with a prefix length in plain digits. */
  function ReadCidr(parse: AddressParser, s: string): Option<Cidr> {
    match SplitOnce(s, '/')
    case None => None
    case Some((address, prefix)) =>
      var addr, n := parse(address), ParseDecimal(prefix);
      if addr.Some? && n.Some? && n.value <= Width(addr.value) then Some(Cidr(addr.value, n.value)) else None
  }

  /** One match in front of the remaining words, with the number of words it takes. */
  function ParseMatch(parse: AddressParser, ws: seq<string>): (r: Option<(Match, nat)>)
    ensures r.Some? ==> 0 < r.value.1 <= |ws|
  {
    if ["iif", "lo"] <= ws then Some((LoopbackInput, 2))
    else if ["ct", "state", "established,related"] <= ws then Some((ReturnTraffic, 3))
    else if ["meta", "l4proto", "tcp"] <= ws then Some((AnyTcp, 3))
    else if ["meta", "l4proto", "udp"] <= ws then Some((AnyUdp, 3))
    else if ["meta", "l4proto", "{", "icmp,", "icmpv6", "}"] <= ws then Some((AnyIcmp, 6))
    else if |ws| < 3 then None
    else if ws[0] == "tcp" && ws[1] == "dport" then
      (match ParsePort(ws[2]) case None => None case Some(n) => Some((TcpPort(n), 3)))
    else if ws[0] == "udp" && ws[1] == "dport" then
      (match ParsePort(ws[2]) case None => None case Some(n) => Some((UdpPort(n), 3)))
    else if (ws[0] == "ip" || ws[0] == "ip6") && ws[1] == "saddr" then
      match ReadCidr(parse, ws[2])
      case None => None
      case Some(cidr) =>
        if ws[0] == "ip" && cidr.addr.V4? then Some((SourceV4(cidr), 3))
        else if ws[0] == "ip6" && cidr.addr.V6? then Some((SourceV6(cidr), 3))
        else None
    else None
  }

  /** Matches, then one verdict as the last word. */
  function ParseRule(parse: AddressParser, ws: seq<string>): Option<Rule>
    decreases |ws|
  {
    if |ws| == 1 then
      match ParseVerdict(ws[0])
      case None => None
      case Some(v) => Some(Rule([], v))
    else
      match ParseMatch(parse, ws)
      case None => None
      case Some((m, n)) =>
        match ParseRule(parse, ws[n..])
        case None => None
        case Some(rule) => Some(Rule([m] + rule.matches, rule.verdict))
  }

  function ParseCommand(parse: AddressParser, ws: seq<string>): Option<Command> {
    if |ws| == 4 && ws[0] == "add" && ws[1] == "table" then Some(AddTable(ws[2], ws[3]))
    else if |ws| == 15 && ws[0] == "add" && ws[1] == "chain" && ws[5] == "{" && ws[6] == "type" && ws[8] == "hook"
            && ws[10] == "priority" && ws[11] != [] && ws[11][|ws[11]| - 1] == ';' && ws[12] == "policy"
            && (ws[13] == "accept;" || ws[13] == "drop;") && ws[14] == "}" then
      Some(AddChain(ws[2], ws[3], ws[4], Hook(ws[7], ws[9], ws[11][..|ws[11]| - 1]),
                    if ws[13] == "accept;" then Accept else Drop))
    else if |ws| == 5 && ws[0] == "flush" && ws[1] == "chain" then Some(FlushChain(ws[2], ws[3], ws[4]))
    else if |ws| > 5 && ws[0] == "add" && ws[1] == "rule" then
      match ParseRule(parse, ws[5..])
      case None => None
      case Some(rule) => Some(AddRule(ws[2], ws[3], ws[4], rule))
    else None
  }

  function ParseLines(parse: AddressParser, lines: seq<string>): Option<seq<Command>> {
    if lines == [] then Some([])
    else
      match ParseCommand(parse, Words(lines[0]))
      case None => None
      case Some(cmd) =>
        match ParseLines(parse, lines[1..])
        case None => None
        case Some(rest) => Some([cmd] + rest)
  }

  /** Adding a table that exists changes nothing; adding a base chain that exists only updates its policy and is refused
      when its hook differs. */
  function Apply(cmd: Command, rs: Ruleset): Option<Ruleset> {
    match cmd
    case AddTable(f, t) => if (f, t) in rs then Some(rs) else Some(rs[(f, t) := map[]])
    case AddChain(f, t, c, base, policy) =>
      if (f, t) !in rs then None
      else
        var table := rs[(f, t)];
        if c !in table then Some(rs[(f, t) := table[c := Chain(Some(base), policy, [])]])
        else if table[c].base == Some(base) then Some(rs[(f, t) := table[c := table[c].(policy := policy)]])
        else None
    case FlushChain(f, t, c) =>
      if (f, t) !in rs || c !in rs[(f, t)] then None
      else Some(rs[(f, t) := rs[(f, t)][c := rs[(f, t)][c].(rules := [])]])
    case AddRule(f, t, c, rule) =>
      if (f, t) !in rs || c !in rs[(f, t)] then None
      else Some(rs[(f, t) := rs[(f, t)][c := rs[(f, t)][c].(rules := rs[(f, t)][c].rules + [rule])]])
  }

  function ApplyAll(cmds: seq<Command>, rs: Ruleset): Option<Ruleset> {
    if cmds == [] then Some(rs)
    else
      match Apply(cmds[0], rs)
      case None => None
      case Some(next) => ApplyAll(cmds[1..], next)
  }

  /** `nft -f`: the whole text is parsed, then applied as one transaction; None leaves the host untouched. */
  function RunBatch(parse: AddressParser, text: string, rs: Ruleset): Option<Ruleset> {
    match ParseLines(parse, Lines(text))
    case None => None
    case Some(cmds) => ApplyAll(cmds, rs)
  }
}
