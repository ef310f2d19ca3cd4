/** Container configuration blocks: what the LXC service renders and what the broker's own validator lets through. */
module LxcConfig {
  import opened Wrappers
  import opened Text
  import opened Collections
  import opened Addresses

  datatype Network = Network(bridge: string, vlan: Option<nat>, ip: Option<string>)

  datatype Mount = Mount(source: string, destination: string, readOnly: bool)

  datatype Refusal = EmptyBlock | TooLong | HasNul | NotPermitted | BadMount

  // ----- request validation -----

  predicate NetworkValid(parse: AddressParser, net: Network) {
    && SafeId(net.bridge)
    && (net.vlan.Some? ==> 1 <= net.vlan.value <= 4094)
    && (net.ip.Some? ==> ParseCidr(parse, net.ip.value).Some?)
  }

  predicate SafeAbsolute(p: string) {
    p != "" && p[0] == '/' && ".." !in Split(p, '/') && ByteLength(p) <= 1024 && Plain(p)
  }

  predicate MountValid(m: Mount) {
    && SafeAbsolute(Trim(m.source)) && SafeAbsolute(Trim(m.destination))
    && TrimStartSlashes(Trim(m.destination)) != ""
  }

  // ----- rendering -----

  function Banner(): string {
    "# --- DaygleVE limits & networking ---"
  }

  function MemoryKey(): string {
    "lxc.cgroup2." + "memory.max"
  }

  function CpuKey(): string {
    "lxc.cgroup2." + "cpu.max"
  }

  function NetKey(i: nat, field: string): string {
    "lxc.net." + Decimal(i) + field
  }

  function MountPrefix(): string {
    "lxc.mount.entry = "
  }

  function Setting(key: string, value: string): string {
    key + " = " + value
  }

  function MountOptions(readOnly: bool): string {
    if readOnly then "bind,ro,create=dir" else "bind,rw,create=dir"
  }

  /** What follows the destination in a mount entry. */
  function MountTail(readOnly: bool): string {
    " " + "none" + (" " + MountOptions(readOnly) + " 0 0")
  }

  function MountEntry(m: Mount): string {
    Trim(m.source) + " " + TrimStartSlashes(m.destination) + MountTail(m.readOnly)
  }

  function MountLine(m: Mount): string {
    MountPrefix() + MountEntry(m)
  }

  function NetworkLines(i: nat, net: Network): seq<string> {
    [Setting(NetKey(i, ".type"), "veth"), Setting(NetKey(i, ".link"), net.bridge), Setting(NetKey(i, ".flags"), "up")]
    + (if net.vlan.Some? then [Setting(NetKey(i, ".vlan.id"), Decimal(net.vlan.value))] else [])
    + (if net.ip.Some? then [Setting(NetKey(i, ".ipv4.address"), net.ip.value)] else [])
  }

  function AllNetworkLines(nets: seq<Network>): seq<string> {
    if nets == [] then []
    else AllNetworkLines(nets[..|nets| - 1]) + NetworkLines(|nets| - 1, nets[|nets| - 1])
  }

  function MountLines(mounts: seq<Mount>): (lines: seq<string>)
    ensures |lines| == |mounts| && forall i :: 0 <= i < |mounts| ==> lines[i] == MountLine(mounts[i])
  {
    seq(|mounts|, i requires 0 <= i < |mounts| => MountLine(mounts[i]))
  }

  /** Sixty-four bit arithmetic, wrapping. */
  function MemoryBytes(memoryMib: nat): nat {
    memoryMib * 1024 * 1024 % 0x1_0000_0000_0000_0000
  }

  function LimitLines(vcpus: nat, memoryMib: nat): seq<string> {
    ["", Banner(), Setting(MemoryKey(), Decimal(MemoryBytes(memoryMib))),
     Setting(CpuKey(), Decimal(vcpus * 100_000) + " 100000")]
  }

  function Block(vcpus: nat, memoryMib: nat, nets: seq<Network>, mounts: seq<Mount>): string {
    Unlines(LimitLines(vcpus, memoryMib) + AllNetworkLines(nets) + MountLines(mounts))
  }

  // ----- the broker's validator -----

  predicate NoTraversal(p: string) {
    ".." !in Split(p, '/') && forall c :: c in p ==> !IsControl(c)
  }

  predicate OptionAllowed(opt: string) {
    opt == "bind" || opt == "ro" || opt == "rw" || opt == "create=dir" || opt == "create=file"
  }

  predicate OptionsAllowed(options: string) {
    var opts := Split(options, ',');
    "bind" in opts && forall i :: 0 <= i < |opts| ==> OptionAllowed(opts[i])
  }

  predicate EntryAllowed(value: string) {
    var fields := Words(value);
    && |fields| == 6
    && StartsWith(fields[0], "/") && NoTraversal(fields[0])
    && !StartsWith(fields[1], "/") && NoTraversal(fields[1])
    && fields[2] == "none" && OptionsAllowed(fields[3]) && fields[4] == "0" && fields[5] == "0"
  }

  predicate BodyAllowed(body: string) {
    && Contains(body, " = ")
    && match StripPrefix(body, MountPrefix()) {
         case Some(value) => EntryAllowed(value)
         case None => StartsWith(body, "lxc.cgroup2.") || StartsWith(body, "lxc.net.")
       }
  }

  predicate LineAllowed(line: string) {
    Trim(line) == "" || StartsWith(TrimStart(line), "#") || BodyAllowed(Trim(line))
  }

  predicate LinesAllowed(text: string) {
    var lines := Lines(text);
    forall i :: 0 <= i < |lines| ==> LineAllowed(lines[i])
  }

  ghost predicate BlockAllowed(block: string) {
    block != "" && ByteLength(block) <= 8192 && '\0' !in block && LinesAllowed(block)
  }

  method ValidateMountEntry(value: string) returns (r: Result<(), Refusal>)
    ensures r.Ok? <==> EntryAllowed(value)
  {
    var fields := Words(value);
    if |fields| != 6 {
      return Err(BadMount);
    }
    if !StartsWith(fields[0], "/") || ".." in Split(fields[0], '/') || exists c :: c in fields[0] && IsControl(c) {
      return Err(BadMount);
    }
    if StartsWith(fields[1], "/") || fields[1] == "" || ".." in Split(fields[1], '/')
       || exists c :: c in fields[1] && IsControl(c) {
      return Err(BadMount);
    }
    if fields[2] != "none" {
      return Err(BadMount);
    }
    var sawBind := false;
    var opts := Split(fields[3], ',');
    for i := 0 to |opts|
      invariant sawBind <==> "bind" in opts[..i]
      invariant forall k :: 0 <= k < i ==> OptionAllowed(opts[k])
    {
      if opts[i] == "bind" {
        sawBind := true;
      } else if opts[i] != "ro" && opts[i] != "rw" && opts[i] != "create=dir" && opts[i] != "create=file" {
        return Err(BadMount);
      }
      assert opts[..i + 1] == opts[..i] + [opts[i]];
    }
    assert opts[..|opts|] == opts;
    if !sawBind || fields[4] != "0" || fields[5] != "0" {
      return Err(BadMount);
    }
    return Ok(());
  }

  method ValidateBlock(block: string) returns (r: Result<(), Refusal>)
    ensures r.Ok? <==> BlockAllowed(block)
  {
    hide EntryAllowed, Contains, Trim, TrimStart, Lines, StripPrefix, StartsWith, MountPrefix, ByteLength;
    if block == "" {
      return Err(EmptyBlock);
    }
    if ByteLength(block) > 8192 {
      return Err(TooLong);
    }
    if '\0' in block {
      return Err(HasNul);
    }
    var lines := Lines(block);
    for i := 0 to |lines|
      invariant forall k :: 0 <= k < i ==> LineAllowed(lines[k])
    {
      var line := lines[i];
      if Trim(line) == "" || StartsWith(TrimStart(line), "#") {
        continue;
      }
      var body := Trim(line);
      if !Contains(body, " = ") {
        return Err(NotPermitted);
      }
      var value := StripPrefix(body, MountPrefix());
      if value.Some? {
        var entry := ValidateMountEntry(value.value);
        if entry.Err? {
          return entry;
        }
        continue;
      }
      if !(StartsWith(body, "lxc.cgroup2.") || StartsWith(body, "lxc.net.")) {
        return Err(NotPermitted);
      }
    }
    return Ok(());
  }

  // ----- writing the block -----

  method CheckPath(p: string) returns (ok: bool)
    ensures ok <==> SafeAbsolute(p)
  {
    if !StartsWith(p, "/") || ".." in Split(p, '/') {
      return false;
    }
    if ByteLength(p) > 1024 || exists c :: c in p && (IsWhitespace(c) || IsControl(c)) {
      return false;
    }
    return true;
  }

  method ValidateMount(m: Mount) returns (ok: bool)
    ensures ok <==> MountValid(m)
  {
    hide SafeAbsolute, Trim;
    var sourceOk := CheckPath(Trim(m.source));
    var destinationOk := CheckPath(Trim(m.destination));
    return sourceOk && destinationOk && TrimStartSlashes(Trim(m.destination)) != "";
  }

  method WriteConfig(vcpus: nat, memoryMib: nat, nets: seq<Network>, mounts: seq<Mount>)
    returns (r: Result<string, AppError>)
    ensures r.Ok? <==> forall i :: 0 <= i < |mounts| ==> MountValid(mounts[i])
    ensures r.Ok? ==> r.value == Block(vcpus, memoryMib, nets, mounts)
  {
    hide MountValid, MountLine, NetworkLines, Setting, Banner, MemoryKey, CpuKey, MemoryBytes, Decimal;
    ghost var lines := LimitLines(vcpus, memoryMib);
    var block := "\n" + Banner() + "\n";
    block := block + Setting(MemoryKey(), Decimal(MemoryBytes(memoryMib))) + "\n";
    block := block + Setting(CpuKey(), Decimal(vcpus * 100_000) + " 100000") + "\n";
    LimitText(vcpus, memoryMib);
    for i := 0 to |nets|
      invariant lines == LimitLines(vcpus, memoryMib) + AllNetworkLines(nets[..i])
      invariant block == Unlines(lines)
    {
      var text := RenderNetwork(i, nets[i]);
      UnlinesAppend(lines, NetworkLines(i, nets[i]));
      assert nets[..i + 1][..i] == nets[..i];
      block := block + text;
      lines := lines + NetworkLines(i, nets[i]);
    }
    assert nets[..|nets|] == nets;
    ghost var head := lines;
    for i := 0 to |mounts|
      invariant forall k :: 0 <= k < i ==> MountValid(mounts[k])
      invariant lines == head + MountLines(mounts[..i])
      invariant block == Unlines(lines)
    {
      var valid := ValidateMount(mounts[i]);
      if !valid {
        return Err(Validation);
      }
      UnlinesPush(lines, MountLine(mounts[i]));
      assert MountLines(mounts[..i + 1]) == MountLines(mounts[..i]) + [MountLine(mounts[i])];
      block := block + MountLine(mounts[i]) + "\n";
      lines := lines + [MountLine(mounts[i])];
    }
    assert mounts[..|mounts|] == mounts;
    return Ok(block);
  }

  lemma LimitText(vcpus: nat, memoryMib: nat)
    ensures "\n" + Banner() + "\n" + Setting(MemoryKey(), Decimal(MemoryBytes(memoryMib))) + "\n"
            + Setting(CpuKey(), Decimal(vcpus * 100_000) + " 100000") + "\n" == Unlines(LimitLines(vcpus, memoryMib))
  {
    hide Setting, Banner, MemoryKey, CpuKey, MemoryBytes, Decimal;
    var lines := LimitLines(vcpus, memoryMib);
    UnlinesPush(lines[..3], lines[3]);
    UnlinesPush(lines[..2], lines[2]);
    UnlinesPush(lines[..1], lines[1]);
    UnlinesPush([], lines[0]);
    assert lines[..3] + [lines[3]] == lines;
    assert lines[..2] + [lines[2]] == lines[..3];
    assert lines[..1] + [lines[1]] == lines[..2];
    assert [] + [lines[0]] == lines[..1];
  }

  method RenderNetwork(i: nat, net: Network) returns (text: string)
    ensures text == Unlines(NetworkLines(i, net))
  {
    hide Setting, NetKey, Decimal;
    ghost var lines := [Setting(NetKey(i, ".type"), "veth")];
    text := Setting(NetKey(i, ".type"), "veth") + "\n";
    assert text == Unlines(lines) by {
      UnlinesPush([], lines[0]);
    }
    UnlinesPush(lines, Setting(NetKey(i, ".link"), net.bridge));
    text := text + Setting(NetKey(i, ".link"), net.bridge) + "\n";
    lines := lines + [Setting(NetKey(i, ".link"), net.bridge)];
    UnlinesPush(lines, Setting(NetKey(i, ".flags"), "up"));
    text := text + Setting(NetKey(i, ".flags"), "up") + "\n";
    lines := lines + [Setting(NetKey(i, ".flags"), "up")];
    if net.vlan.Some? {
      UnlinesPush(lines, Setting(NetKey(i, ".vlan.id"), Decimal(net.vlan.value)));
      text := text + Setting(NetKey(i, ".vlan.id"), Decimal(net.vlan.value)) + "\n";
      lines := lines + [Setting(NetKey(i, ".vlan.id"), Decimal(net.vlan.value))];
    }
    if net.ip.Some? {
      UnlinesPush(lines, Setting(NetKey(i, ".ipv4.address"), net.ip.value));
      text := text + Setting(NetKey(i, ".ipv4.address"), net.ip.value) + "\n";
      lines := lines + [Setting(NetKey(i, ".ipv4.address"), net.ip.value)];
    }
    assert lines == NetworkLines(i, net);
  }

  // ----- cutting rendered text into lines -----

  lemma LinesAt(first: string, rest: string)
    requires '\n' !in first
    ensures Lines(first + "\n" + rest) == [StripCarriageReturn(first)] + Lines(rest)
  {
    hide StripCarriageReturn;
    SplitOnceAt(first, '\n', rest);
  }

  lemma Regroup(first: string, rest: string, b: string)
    ensures (first + "\n" + rest) + b == first + "\n" + (rest + b)
  {
  }

  /** A line feed in the middle of a text cuts it in two, whatever stands on either side. */
  lemma {:induction false} LinesSplit(a: string, b: string)
    ensures Lines((a + "\n") + b) == Lines(a + "\n") + Lines(b)
    decreases |a|
  {
    assert Lines([]) == [];
    match SplitOnce(a, '\n')
    case None =>
      hide Lines, StripCarriageReturn, SplitOnce;
      LinesAt(a, b);
      LinesAt(a, []);
      assert a + "\n" + [] == a + "\n";
    case Some((first, rest)) =>
      hide Lines, StripCarriageReturn, SplitOnce;
      assert a == first + "\n" + rest;
      LinesSplit(rest, b);
      LinesAt(first, rest + "\n");
      LinesAt(first, rest + "\n" + b);
      Regroup(first, rest, "\n");
      Regroup(first, rest + "\n", b);
  }

  /** A rendered block is judged line by line, even when a rendered line contains line feeds. */
  lemma {:induction false} UnlinesAllowed(raws: seq<string>)
    ensures LinesAllowed(Unlines(raws)) <==> forall i :: 0 <= i < |raws| ==> LinesAllowed(raws[i] + "\n")
  {
    hide LineAllowed;
    if raws == [] {
      assert Lines([]) == [];
    } else {
      var text := raws[0] + "\n";
      var rest := raws[1..];
      UnlinesAllowed(rest);
      LinesSplit(raws[0], Unlines(rest));
      var first, later := Lines(text), Lines(Unlines(rest));
      assert LinesAllowed(Unlines(raws)) <==> LinesAllowed(text) && LinesAllowed(Unlines(rest)) by {
        AllOfAppend(first, later);
      }
      assert forall i :: 0 <= i < |rest| ==> rest[i] == raws[i + 1];
      assert raws == [raws[0]] + rest;
    }
  }

  lemma AllOfAppend(a: seq<string>, b: seq<string>)
    ensures (forall i :: 0 <= i < |a + b| ==> LineAllowed((a + b)[i])) <==>
            (forall i :: 0 <= i < |a| ==> LineAllowed(a[i])) && (forall i :: 0 <= i < |b| ==> LineAllowed(b[i]))
  {
    hide LineAllowed;
    if forall i :: 0 <= i < |a + b| ==> LineAllowed((a + b)[i]) {
      assert forall i :: 0 <= i < |a| ==> a[i] == (a + b)[i];
      assert forall i :: 0 <= i < |b| ==> b[i] == (a + b)[|a| + i];
    }
  }

  lemma OneLineAllowed(line: string)
    requires IsLine(line)
    ensures LinesAllowed(line + "\n") <==> LineAllowed(line)
  {
    hide LineAllowed;
    LinesFirst(line, []);
    assert line + "\n" + [] == line + "\n";
    assert Lines(line + "\n") == [line];
    assert [line][0] == line;
  }

  // ----- settings are accepted -----

  /** Printable on one line: no line feed, no NUL, no whitespace at the end. */
  predicate Printable(value: string) {
    value != "" && '\n' !in value && '\0' !in value && !IsWhitespace(value[|value| - 1])
  }

  lemma PlainPrints(value: string)
    requires value != "" && Plain(value)
    ensures Printable(value)
  {
    assert value[|value| - 1] in value;
  }

  /** A key of one of the two permitted families. */
  predicate KeyAllowed(key: string) {
    (StartsWith(key, "lxc.cgroup2.") || StartsWith(key, "lxc.net.")) && Plain(key)
  }

  lemma SettingBody(key: string, value: string)
    requires KeyAllowed(key)
    ensures BodyAllowed(Setting(key, value))
  {
    hide EntryAllowed, Plain;
    var line := Setting(key, value);
    assert line[|key|..] == " = " + value;
    assert " = " <= line[|key|..];
    assert line[4] == key[4];
    assert StripPrefix(line, MountPrefix()).None? by {
      assert MountPrefix()[4] == 'm';
    }
    if StartsWith(key, "lxc.net.") {
      assert StartsWith(line, "lxc.net.");
    }
  }

  lemma SettingAllowed(key: string, value: string)
    requires KeyAllowed(key) && Printable(value)
    ensures LinesAllowed(Setting(key, value) + "\n") && '\0' !in Setting(key, value) && IsLine(Setting(key, value))
  {
    var line := Setting(key, value);
    SettingBody(key, value);
    assert line != [] && line[0] == 'l' && line[|line| - 1] == value[|value| - 1];
    assert '\n' !in key && '\0' !in key;
    hide KeyAllowed, BodyAllowed;
    assert IsLine(line) && '\0' !in line;
    TrimOfTrimmed(line);
    OneLineAllowed(line);
  }

  // ----- mount entries -----

  /** A destination that survives rendering: absolute as written, on one line. */
  predicate Renderable(m: Mount) {
    m.destination != "" && m.destination[0] == '/' && '\n' !in m.destination
  }

  ghost predicate Blank(s: string) {
    forall c :: c in s ==> IsWhitespace(c)
  }

  lemma {:induction false} WordsSkip(blank: string, rest: string)
    requires Blank(blank)
    ensures Words(blank + rest) == Words(rest)
  {
    if blank == [] {
      assert blank + rest == rest;
    } else {
      WordsSkip(blank[1..], rest);
      assert (blank + rest)[1..] == blank[1..] + rest;
    }
  }

  lemma WordThen(word: string, tail: string)
    requires word != [] && NoWhitespace(word)
    requires tail != [] ==> IsWhitespace(tail[0])
    ensures Words(word + tail) == [word] + Words(tail)
  {
    if tail == [] {
      WordsOfOne(word);
      assert word + tail == word && Words([]) == [];
    } else {
      assert Words(tail) == Words(tail[1..]);
      hide Words, NoWhitespace;
      WordsFirst(word, tail[0], tail[1..]);
      assert word + tail == word + [tail[0]] + tail[1..];
    }
  }

  function TailFields(readOnly: bool): seq<string> {
    ["none", MountOptions(readOnly), "0", "0"]
  }

  /** A space in front of a word starts a new field. */
  lemma SpacedWord(word: string, tail: string)
    requires word != [] && NoWhitespace(word)
    requires tail != [] ==> IsWhitespace(tail[0])
    ensures Words(" " + word + tail) == [word] + Words(tail)
  {
    hide NoWhitespace, Words;
    Assoc(" ", word, tail);
    WordsSkip(" ", word + tail);
    WordThen(word, tail);
  }

  lemma ZeroWords()
    ensures Words(" 0 0") == ["0", "0"]
  {
    SpacedWord("0", "");
    SpacedWord("0", " 0");
    hide Words;
    assert " " + "0" + "" == " 0" && " " + "0" + " 0" == " 0 0";
    assert Words("") == [] by {
      WordsOfNothing();
    }
  }

  lemma WordsOfNothing()
    ensures Words("") == []
  {
  }

  lemma TailWords(readOnly: bool)
    ensures Words(MountTail(readOnly)) == TailFields(readOnly)
  {
    hide MountOptions, Words, NoWhitespace;
    var options := MountOptions(readOnly);
    OptionsWord(readOnly);
    ZeroWords();
    SpacedWord(options, " 0 0");
    assert NoWhitespace("none") by {
      NoneIsWord();
    }
    SpacedWord("none", " " + options + " 0 0");
  }

  lemma OptionsWord(readOnly: bool)
    ensures MountOptions(readOnly) != [] && NoWhitespace(MountOptions(readOnly))
  {
  }

  lemma NoneIsWord()
    ensures NoWhitespace("none")
  {
  }

  lemma TailPrintable(readOnly: bool)
    ensures '\n' !in MountTail(readOnly) && '\0' !in MountTail(readOnly)
    ensures MountTail(readOnly) != "" && MountTail(readOnly)[0] == ' '
    ensures MountTail(readOnly)[|MountTail(readOnly)| - 1] == '0'
  {
  }

  /** The broker finds exactly the bind mount that was asked for among the options. */
  lemma OptionsRead(readOnly: bool)
    ensures OptionsAllowed(MountOptions(readOnly))
    ensures "ro" in Split(MountOptions(readOnly), ',') <==> readOnly
  {
    hide MountOptions, Split;
    OptionsSplit(readOnly);
    var opts := Split(MountOptions(readOnly), ',');
    assert opts[0] == "bind" && opts[1] == (if readOnly then "ro" else "rw") && opts[2] == "create=dir";
  }

  lemma OptionsSplit(readOnly: bool)
    ensures Split(MountOptions(readOnly), ',') == ["bind", if readOnly then "ro" else "rw", "create=dir"]
  {
    hide Split;
    if readOnly {
      OptionsText("ro");
      assert "bind,ro,create=dir" == "bind" + [','] + ("ro" + [','] + "create=dir");
    } else {
      OptionsText("rw");
      assert "bind,rw,create=dir" == "bind" + [','] + ("rw" + [','] + "create=dir");
    }
  }

  lemma OptionsText(access: string)
    requires ',' !in access
    ensures Split("bind" + [','] + (access + [','] + "create=dir"), ',') == ["bind", access, "create=dir"]
  {
    hide Split;
    SplitFirst("bind", ',', access + [','] + "create=dir");
    SplitFirst(access, ',', "create=dir");
    SplitNone("create=dir", ',');
  }

  function Leading(s: string): string {
    s[..|s| - |TrimStart(s)|]
  }

  function Trailing(s: string): string {
    TrimStart(s)[|Trim(s)|..]
  }

  lemma TrimParts(s: string)
    ensures s == Leading(s) + Trim(s) + Trailing(s)
    ensures Blank(Leading(s)) && Blank(Trailing(s))
    ensures s != "" && !IsWhitespace(s[0]) ==> Leading(s) == ""
  {
    hide TrimStart, TrimEnd, IsWhitespace;
    var t := TrimStart(s);
    var k := |s| - |t|;
    assert s == s[..k] + s[k..];
    assert t == t[..|Trim(s)|] + t[|Trim(s)|..];
  }

  lemma SlashStep(s: string)
    requires s != "" && s[0] == '/'
    ensures TrimStartSlashes(s) == TrimStartSlashes(s[1..])
  {
  }

  lemma {:induction false} SlashesThen(s: string, tail: string)
    requires TrimStartSlashes(s) != ""
    ensures TrimStartSlashes(s + tail) == TrimStartSlashes(s) + tail
  {
    if s[0] == '/' {
      hide TrimStartSlashes;
      SlashStep(s);
      SlashesThen(s[1..], tail);
      SlashStep(s + tail);
      assert (s + tail)[1..] == s[1..] + tail;
    }
  }

  lemma PlainSlashes(s: string)
    requires Plain(s)
    ensures Plain(TrimStartSlashes(s)) && NoWhitespace(TrimStartSlashes(s)) && NoWhitespace(s)
  {
    hide IsWhitespace, IsControl;
    TrimStartSlashesParts(s);
    assert forall c :: c in TrimStartSlashes(s) ==> c in s;
  }

  /** The destination field as the broker sees it: relative only when the destination was written without leading
      whitespace. */
  function DestinationField(m: Mount): string {
    if m.destination != "" && m.destination[0] == '/' then TrimStartSlashes(Trim(m.destination)) else Trim(m.destination)
  }

  lemma StartsWithSlash(s: string)
    ensures StartsWith(s, "/") <==> s != "" && s[0] == '/'
  {
  }

  lemma DestinationParts(m: Mount)
    requires MountValid(m)
    ensures TrimStartSlashes(m.destination) == Leading(m.destination) + DestinationField(m) + Trailing(m.destination)
    ensures DestinationField(m) != "" && Plain(DestinationField(m)) && NoWhitespace(DestinationField(m))
    ensures m.destination != "" && (StartsWith(DestinationField(m), "/") <==> m.destination[0] != '/')
  {
    hide Leading, Trailing, Plain, NoWhitespace, Split, ByteLength, Blank, StartsWith, Trim;
    var d := m.destination;
    var t := Trim(d);
    TrimParts(d);
    PlainSlashes(t);
    StartsWithSlash(DestinationField(m));
    if d[0] == '/' {
      assert Leading(d) == "";
      assert Leading(d) + t == t;
      SlashesThen(t, Trailing(d));
      hide TrimStartSlashes;
      assert Leading(d) + DestinationField(m) == DestinationField(m);
    } else {
      assert TrimStartSlashes(d) == d;
    }
  }

  /** The fields of a rendered entry are the trimmed source, the destination and the options. */
  lemma EntryFields(m: Mount)
    requires MountValid(m)
    ensures Words(MountEntry(m)) == [Trim(m.source), DestinationField(m)] + TailFields(m.readOnly)
  {
    var source, field, tail := Trim(m.source), DestinationField(m), MountTail(m.readOnly);
    var lead, trail := Leading(m.destination), Trailing(m.destination);
    DestinationParts(m);
    TrimParts(m.destination);
    TailWords(m.readOnly);
    TailPrintable(m.readOnly);
    assert NoWhitespace(source) && NoWhitespace(field);
    hide MountValid, MountTail, TailFields, Trim, DestinationField, Leading, Trailing, Words, TrimStartSlashes,
         MountOptions;
    FieldsOf(source, lead, field, trail, tail);
  }

  lemma FieldsOf(source: string, lead: string, field: string, trail: string, tail: string)
    requires source != "" && NoWhitespace(source) && field != "" && NoWhitespace(field)
    requires Blank(lead) && Blank(trail) && tail != "" && IsWhitespace(tail[0])
    ensures Words(source + " " + (lead + field + trail) + tail) == [source, field] + Words(tail)
  {
    hide NoWhitespace, Words;
    WordsSkip(trail, tail);
    assert (trail + tail) != [] && IsWhitespace((trail + tail)[0]);
    WordThen(field, trail + tail);
    WordsSkip(lead, field + (trail + tail));
    var rest := lead + (field + (trail + tail));
    WordsSkip(" ", rest);
    WordThen(source, " " + rest);
    hide Blank, IsWhitespace;
    Assoc(source + " ", lead + field + trail, tail);
    Assoc(source, " ", lead + field + trail + tail);
    Assoc(lead + field, trail, tail);
    Assoc(lead, field, trail + tail);
  }

  lemma {:induction false} SlashesTraversal(p: string)
    requires ".." !in Split(p, '/')
    ensures ".." !in Split(TrimStartSlashes(p), '/')
  {
    if p != "" && p[0] == '/' {
      var rest := Split(p[1..], '/');
      assert Split(p, '/') == [[]] + rest;
      assert forall x :: x in rest ==> x in [[]] + rest;
      SlashesTraversal(p[1..]);
    }
  }

  /** The broker accepts a rendered entry exactly when the destination came out relative. */
  lemma EntryJudged(m: Mount)
    requires MountValid(m)
    ensures EntryAllowed(MountEntry(m)) <==> m.destination[0] == '/'
  {
    hide MountEntry, MountOptions, Split, Words, TrimStartSlashes, Trim, ByteLength, OptionsAllowed, StartsWith;
    EntryFields(m);
    OptionsRead(m.readOnly);
    DestinationParts(m);
    SlashesTraversal(Trim(m.destination));
    StartsWithSlash(Trim(m.source));
    var fields := Words(MountEntry(m));
    assert fields[0] == Trim(m.source) && fields[1] == DestinationField(m) && fields[3] == MountOptions(m.readOnly);
  }

  // ----- a destination with a line feed in it -----

  /** No prefix of `z` has more than one word. */
  ghost predicate Sparse(z: string) {
    forall k :: 0 <= k <= |z| ==> |Words(z[..k])| <= 1
  }

  lemma BlankWords(s: string)
    requires Blank(s)
    ensures Words(s) == []
  {
    WordsSkip(s, []);
    assert s + [] == s;
  }

  lemma PaddedIsSparse(lead: string, field: string, trail: string)
    requires Blank(lead) && Blank(trail) && NoWhitespace(field)
    ensures Sparse(lead + field + trail)
  {
    var z := lead + field + trail;
    forall k | 0 <= k <= |z|
      ensures |Words(z[..k])| <= 1
    {
      if k <= |lead| {
        assert z[..k] == lead[..k];
        BlankWords(lead[..k]);
      } else if k <= |lead| + |field| {
        var part := field[..k - |lead|];
        assert z[..k] == lead + part;
        WordsSkip(lead, part);
        WordsOfOne(part);
      } else {
        var part := trail[..k - |lead| - |field|];
        assert z[..k] == lead + (field + part);
        WordsSkip(lead, field + part);
        BlankWords(part);
        if field == [] {
          assert field + part == part;
        } else {
          WordThen(field, part);
        }
      }
    }
  }

  lemma TrimKeepsHead(head: string, z: string) returns (m: nat)
    requires head != "" && !IsWhitespace(head[0]) && !IsWhitespace(head[|head| - 1])
    ensures m <= |z| && Trim(head + z) == head + z[..m]
    ensures TrimStart(head + z) == head + z
  {
    var line := head + z;
    assert line[0] == head[0] && line[|head| - 1] == head[|head| - 1];
    assert TrimStart(line) == line;
    hide TrimStart, IsWhitespace;
    var r := TrimEnd(line);
    assert |r| >= |head|;
    m := |r| - |head|;
    assert line[..|r|] == head + z[..m];
  }

  lemma PrefixThen(source: string)
    requires source != "" && source[0] == '/' && NoWhitespace(source)
    ensures var head := MountPrefix() + source; head[0] == 'l' && !IsWhitespace(head[|head| - 1]) && |head| > 0
  {
    var head := MountPrefix() + source;
    assert head[|head| - 1] == source[|source| - 1];
    assert source[|source| - 1] in source;
  }

  /** An entry cut off after its second field is refused. */
  lemma CutEntryRefused(source: string, w: string)
    requires source != "" && source[0] == '/' && NoWhitespace(source) && Sparse(w)
    ensures !LineAllowed(MountPrefix() + source + " " + w)
  {
    hide NoWhitespace, MountPrefix, Words, Contains, Trim, TrimStart;
    var head, z := MountPrefix() + source, " " + w;
    PrefixThen(source);
    Assoc(head, " ", w);
    var m := TrimKeepsHead(head, z);
    Assoc(MountPrefix(), source, z[..m]);
    if m > 0 {
      assert z[..m] == " " + w[..m - 1];
      WordsSkip(" ", w[..m - 1]);
    } else {
      BlankWords([]);
      assert z[..m] == [];
    }
    WordThen(source, z[..m]);
    var body := Trim(head + z);
    assert body == MountPrefix() + (source + z[..m]);
    assert StripPrefix(body, MountPrefix()) == Some(source + z[..m]);
    assert |Words(source + z[..m])| <= 2;
    assert body[0] == 'l' && !StartsWith(head + z, "#");
  }

  lemma SparsePrefix(z: string, k: nat)
    requires Sparse(z) && k <= |z|
    ensures Sparse(z[..k])
  {
    hide Words;
    assert forall j :: 0 <= j <= k ==> z[..k][..j] == z[..j];
  }

  lemma StripAfter(head: string, w: string)
    ensures exists k :: 0 <= k <= |w| && StripCarriageReturn(head + " " + w) == head + " " + w[..k]
  {
    var line := head + " " + w;
    if w == "" {
      assert line[|line| - 1] == ' ';
      assert w[..0] == w;
    } else {
      assert line[|line| - 1] == w[|w| - 1];
      assert line[..|line| - 1] == head + " " + w[..|w| - 1];
      assert w[..|w|] == w;
    }
  }

  lemma TrimmedOnOneLine(m: Mount)
    requires MountValid(m)
    ensures '\n' !in Trim(m.destination)
  {
  }

  lemma InPadding(c: char, lead: string, middle: string, other: string, trail: string)
    requires c in lead + middle + trail && c !in middle
    ensures c in lead + other + trail
  {
    assert c in lead || c in trail;
  }

  lemma DestinationCut(m: Mount) returns (w: string, rest: string)
    requires MountValid(m) && '\n' in m.destination
    ensures TrimStartSlashes(m.destination) == w + "\n" + rest
    ensures '\n' !in w && Sparse(w)
  {
    hide Trim, TrimStartSlashes, Words, Leading, Trailing, DestinationField, Plain, NoWhitespace, Blank, MountValid, SplitOnce,
         Sparse;
    var d := m.destination;
    var rel := TrimStartSlashes(d);
    TrimmedOnOneLine(m);
    DestinationParts(m);
    TrimParts(d);
    PaddedIsSparse(Leading(d), DestinationField(m), Trailing(d));
    InPadding('\n', Leading(d), Trim(d), DestinationField(m), Trailing(d));
    var cut := SplitOnce(rel, '\n');
    w, rest := cut.value.0, cut.value.1;
    assert w == rel[..|w|];
    SparsePrefix(rel, |w|);
  }

  /** A line feed in the destination cuts the entry, and its first line is refused. */
  lemma CutMountRefused(m: Mount)
    requires MountValid(m) && '\n' in m.destination
    ensures !LinesAllowed(MountLine(m) + "\n")
  {
    var source, tail := Trim(m.source), MountTail(m.readOnly);
    assert '\n' !in source;
    PlainSlashes(source);
    hide LineAllowed, Trim, TrimStartSlashes, MountPrefix, MountTail, Split, ByteLength, Words, Sparse, Plain, NoWhitespace,
         StripCarriageReturn, Lines;
    var w, rest := DestinationCut(m);
    var head := MountPrefix() + source;
    PrefixHasNoBreak();
    EntryCut(source, w, rest, tail);
    LinesAt(head + " " + w, rest + tail + "\n");
    StripAfter(head, w);
    var k :| 0 <= k <= |w| && StripCarriageReturn(head + " " + w) == head + " " + w[..k];
    SparsePrefix(w, k);
    CutEntryRefused(source, w[..k]);
    assert Lines(MountLine(m) + "\n")[0] == head + " " + w[..k];
  }

  lemma PrefixHasNoBreak()
    ensures '\n' !in MountPrefix() && '\0' !in MountPrefix()
  {
  }

  lemma EntryCut(source: string, w: string, rest: string, tail: string)
    ensures MountPrefix() + (source + " " + (w + "\n" + rest) + tail) + "\n"
         == (MountPrefix() + source + " " + w) + "\n" + (rest + tail + "\n")
  {
    hide MountPrefix;
    var a, b := MountPrefix() + (source + " " + (w + "\n" + rest) + tail) + "\n",
                (MountPrefix() + source + " " + w) + "\n" + (rest + tail + "\n");
    assert |a| == |b| && forall i :: 0 <= i < |a| ==> a[i] == b[i];
  }

  lemma EntryLine(entry: string)
    requires entry != "" && !IsWhitespace(entry[|entry| - 1])
    ensures LineAllowed(MountPrefix() + entry) <==> EntryAllowed(entry)
  {
    hide EntryAllowed, MountPrefix, Trim, TrimStart, Contains;
    var line := MountPrefix() + entry;
    PrefixStarts();
    PrefixHasEquals(entry);
    var m := TrimKeepsHead(line, "");
    assert line + "" == line && Trim(line) == line;
    assert StripPrefix(line, MountPrefix()) == Some(entry);
    assert line[0] == 'l' && !StartsWith(line, "#");
  }

  /** A validated mount is accepted exactly when its destination survives rendering. */
  lemma MountJudged(m: Mount)
    requires MountValid(m)
    ensures LinesAllowed(MountLine(m) + "\n") <==> Renderable(m)
  {
    hide MountValid, EntryAllowed, MountEntry, MountPrefix, LinesAllowed, LineAllowed;
    DestinationParts(m);
    if '\n' in m.destination {
      CutMountRefused(m);
    } else {
      MountText(m);
      EntryJudged(m);
      EntryEnds(m);
      OneLineAllowed(MountLine(m));
      EntryLine(MountEntry(m));
    }
  }

  lemma EntryEnds(m: Mount)
    ensures var entry := MountEntry(m); entry != "" && !IsWhitespace(entry[|entry| - 1])
  {
    hide MountTail, Trim;
    TailPrintable(m.readOnly);
  }

  lemma PrefixHasEquals(rest: string)
    ensures Contains(MountPrefix() + rest, " = ")
  {
    var line := MountPrefix() + rest;
    assert line[15..] == " = " + rest;
  }

  lemma MountText(m: Mount)
    requires MountValid(m)
    ensures '\0' !in MountLine(m)
    ensures MountLine(m)[0] == 'l' && MountLine(m)[|MountLine(m)| - 1] == '0'
    ensures '\n' !in m.destination ==> IsLine(MountLine(m))
  {
    var source, rel, tail := Trim(m.source), TrimStartSlashes(m.destination), MountTail(m.readOnly);
    SourceText(m);
    DestinationText(m);
    TailPrintable(m.readOnly);
    PrefixHasNoBreak();
    PrefixStarts();
    hide MountValid, Trim, MountPrefix, MountTail, TrimStartSlashes, IsWhitespace;
    var line := MountLine(m);
    assert line == MountPrefix() + (source + " " + rel + tail);
    hide MountLine, MountEntry;
    InParts('\0', MountPrefix(), source, rel, tail);
    InParts('\n', MountPrefix(), source, rel, tail);
    EndsOfParts(MountPrefix(), source + " " + rel, tail);
  }

  lemma EndsOfParts(prefix: string, middle: string, tail: string)
    requires prefix != "" && tail != ""
    ensures var line := prefix + (middle + tail); line[0] == prefix[0] && line[|line| - 1] == tail[|tail| - 1]
  {
  }

  lemma InParts(c: char, prefix: string, source: string, rel: string, tail: string)
    requires c != ' ' && c !in prefix && c !in source && c !in tail
    ensures c in prefix + (source + " " + rel + tail) <==> c in rel
  {
    assert c !in source + " ";
    var a, b := source + " " + rel, source + " " + rel + tail;
    assert c in a <==> c in rel;
    assert c in b <==> c in a;
  }

  lemma SourceText(m: Mount)
    requires MountValid(m)
    ensures '\0' !in Trim(m.source) && '\n' !in Trim(m.source)
  {
    hide Trim, Split, ByteLength, TrimStartSlashes;
  }

  lemma DestinationText(m: Mount)
    requires MountValid(m)
    ensures var rel := TrimStartSlashes(m.destination);
            '\0' !in rel && ('\n' !in m.destination ==> '\n' !in rel)
  {
    hide Split, ByteLength;
    TrimParts(m.destination);
    TrimStartSlashesParts(m.destination);
    hide Trim, TrimStartSlashes, Leading, Trailing;
    assert '\0' !in Trim(m.destination);
    assert '\0' !in m.destination;
  }

  lemma PrefixStarts()
    ensures |MountPrefix()| > 0 && MountPrefix()[0] == 'l'
  {
  }

  // ----- whole blocks -----

  /** Fit for a block: one line, accepted when followed by a line feed, and free of NUL. */
  predicate Fine(line: string) {
    LinesAllowed(line + "\n") && '\0' !in line && IsLine(line)
  }

  lemma NetKeyAllowed(i: nat, field: string)
    requires Plain(field)
    ensures KeyAllowed(NetKey(i, field))
  {
    DecimalPlain(i);
    hide IsWhitespace, IsControl;
    assert Plain("lxc.net.") by {
      NetPrefixPlain();
    }
  }

  lemma NetPrefixPlain()
    ensures Plain("lxc.net.")
    ensures Plain(".type") && Plain(".link") && Plain(".flags") && Plain(".vlan.id") && Plain(".ipv4.address")
  {
  }

  lemma NetSetting(i: nat, field: string, value: string)
    requires Plain(field) && value != "" && Plain(value)
    ensures Fine(Setting(NetKey(i, field), value))
  {
    hide Plain, LinesAllowed, NetKey, Setting;
    NetKeyAllowed(i, field);
    PlainPrints(value);
    SettingAllowed(NetKey(i, field), value);
  }

  lemma SafeIdPlain(id: string)
    requires SafeId(id)
    ensures id != "" && Plain(id)
  {
  }

  lemma WordsPlain()
    ensures Plain("veth") && Plain("up")
  {
  }

  lemma NetworkFine(parse: AddressParser, i: nat, net: Network)
    requires AddressSyntax(parse) && NetworkValid(parse, net)
    ensures forall line :: line in NetworkLines(i, net) ==> Fine(line)
  {
    hide Plain, Fine, NetKey, Setting, SafeId, ParseCidr, AddressSyntax, Decimal;
    NetPrefixPlain();
    WordsPlain();
    SafeIdPlain(net.bridge);
    NetSetting(i, ".type", "veth");
    NetSetting(i, ".link", net.bridge);
    NetSetting(i, ".flags", "up");
    if net.vlan.Some? {
      DecimalPlain(net.vlan.value);
      NetSetting(i, ".vlan.id", Decimal(net.vlan.value));
    }
    if net.ip.Some? {
      CidrIsWord(parse, net.ip.value);
      NetSetting(i, ".ipv4.address", net.ip.value);
    }
  }

  lemma {:induction false} NetworksFine(parse: AddressParser, nets: seq<Network>)
    requires AddressSyntax(parse) && forall net :: net in nets ==> NetworkValid(parse, net)
    ensures forall line :: line in AllNetworkLines(nets) ==> Fine(line)
  {
    hide Fine, NetworkValid, AddressSyntax, NetworkLines;
    if nets != [] {
      NetworksFine(parse, nets[..|nets| - 1]);
      NetworkFine(parse, |nets| - 1, nets[|nets| - 1]);
    }
  }

  lemma LimitKeyAllowed(field: string)
    requires Plain(field)
    ensures KeyAllowed("lxc.cgroup2." + field)
  {
    assert Plain("lxc.cgroup2.");
  }

  lemma LimitKeysAllowed()
    ensures KeyAllowed(MemoryKey()) && KeyAllowed(CpuKey())
  {
    hide KeyAllowed;
    LimitKeyAllowed("memory.max");
    LimitKeyAllowed("cpu.max");
  }

  lemma BannerText()
    ensures Banner() != "" && Banner()[0] == '#' && IsLine(Banner()) && '\0' !in Banner()
  {
  }

  lemma BannerFine()
    ensures Fine("") && Fine(Banner())
  {
    hide LinesAllowed, LineAllowed, Banner;
    BannerText();
    CommentAllowed(Banner());
    BlankAllowed();
    OneLineAllowed("");
    OneLineAllowed(Banner());
  }

  lemma CommentAllowed(line: string)
    requires line != "" && line[0] == '#'
    ensures LineAllowed(line)
  {
    hide BodyAllowed, Trim;
    assert !IsWhitespace(line[0]);
    assert TrimStart(line) == line;
    assert StartsWith(line, "#");
  }

  lemma BlankAllowed()
    ensures LineAllowed("")
  {
    hide BodyAllowed, TrimStart, StartsWith;
    assert |Trim("")| == 0;
  }

  lemma LimitsFine(vcpus: nat, memoryMib: nat)
    ensures forall line :: line in LimitLines(vcpus, memoryMib) ==> Fine(line)
  {
    hide LinesAllowed, Setting, Banner, MemoryKey, CpuKey, MemoryBytes, KeyAllowed;
    LimitKeysAllowed();
    BannerFine();
    var memory, share := Decimal(MemoryBytes(memoryMib)), Decimal(vcpus * 100_000);
    DecimalPlain(MemoryBytes(memoryMib));
    DecimalPlain(vcpus * 100_000);
    PlainPrints(memory);
    SettingAllowed(MemoryKey(), memory);
    assert Printable(share + " 100000");
    SettingAllowed(CpuKey(), share + " 100000");
  }

  lemma {:induction false} NulInUnlines(raws: seq<string>)
    requires forall i :: 0 <= i < |raws| ==> '\0' !in raws[i]
    ensures '\0' !in Unlines(raws)
  {
    if raws != [] {
      NulInUnlines(raws[1..]);
    }
  }

  /** The broker accepts the block of a validated container exactly when it is short enough and every mount destination is
      written without leading whitespace and without line feeds. */
  lemma BlockJudged(parse: AddressParser, vcpus: nat, memoryMib: nat, nets: seq<Network>, mounts: seq<Mount>)
    requires AddressSyntax(parse)
    requires forall net :: net in nets ==> NetworkValid(parse, net)
    requires forall m :: m in mounts ==> MountValid(m)
    ensures var block := Block(vcpus, memoryMib, nets, mounts);
            BlockAllowed(block) <==> ByteLength(block) <= 8192 && forall m :: m in mounts ==> Renderable(m)
  {
    hide Fine, NetworkValid, MountValid, AddressSyntax, LinesAllowed, LimitLines, AllNetworkLines, MountLine,
         Renderable, ByteLength, Unlines;
    var settings := LimitLines(vcpus, memoryMib) + AllNetworkLines(nets);
    var raws := settings + MountLines(mounts);
    LimitsFine(vcpus, memoryMib);
    NetworksFine(parse, nets);
    MountsJudged(settings, mounts);
    UnlinesAllowed(raws);
    NulInUnlines(raws);
    BlockNotEmpty(vcpus, memoryMib, nets, mounts);
  }

  lemma BlockNotEmpty(vcpus: nat, memoryMib: nat, nets: seq<Network>, mounts: seq<Mount>)
    ensures Block(vcpus, memoryMib, nets, mounts) != ""
  {
    hide Setting, AllNetworkLines, MountLines, MemoryBytes, Decimal;
    var raws := LimitLines(vcpus, memoryMib) + AllNetworkLines(nets) + MountLines(mounts);
    assert |raws| >= 4;
  }

  lemma MountsJudged(settings: seq<string>, mounts: seq<Mount>)
    requires forall line :: line in settings ==> Fine(line)
    requires forall m :: m in mounts ==> MountValid(m)
    ensures var raws := settings + MountLines(mounts);
            && (forall i :: 0 <= i < |raws| ==> '\0' !in raws[i])
            && ((forall i :: 0 <= i < |raws| ==> LinesAllowed(raws[i] + "\n")) <==> forall m :: m in mounts ==> Renderable(m))
  {
    hide MountValid, LinesAllowed, MountLine, Renderable;
    var lines := MountLines(mounts);
    var raws := settings + lines;
    forall i | 0 <= i < |lines|
      ensures '\0' !in lines[i]
      ensures LinesAllowed(lines[i] + "\n") <==> Renderable(mounts[i])
    {
      MountText(mounts[i]);
      MountJudged(mounts[i]);
    }
    forall i | 0 <= i < |settings|
      ensures '\0' !in settings[i] && LinesAllowed(settings[i] + "\n")
    {
      assert Fine(settings[i]);
    }
    if forall i :: 0 <= i < |raws| ==> LinesAllowed(raws[i] + "\n") {
      forall k | 0 <= k < |mounts|
        ensures Renderable(mounts[k])
      {
        assert raws[|settings| + k] == lines[k];
      }
    }
    if forall m :: m in mounts ==> Renderable(m) {
      forall i | 0 <= i < |raws|
        ensures LinesAllowed(raws[i] + "\n")
      {
        if i >= |settings| {
          assert raws[i] == lines[i - |settings|] && Renderable(mounts[i - |settings|]);
        }
      }
    }
  }

  /** A mount written without surrounding whitespace is renderable, so such a block fails on size alone. */
  lemma TidyMountRenders(m: Mount)
    requires MountValid(m) && Trim(m.destination) == m.destination
    ensures Renderable(m)
  {
    assert '\n' !in m.destination;
  }

  /** Reading a rendered entry back: the source, the destination below the root, and the access asked for. */
  lemma MountRecovered(m: Mount)
    requires MountValid(m) && Renderable(m)
    ensures Lines(MountLine(m) + "\n") == [MountLine(m)]
    ensures var fields := Words(StripPrefix(MountLine(m), MountPrefix()).value);
            && |fields| == 6
            && fields[0] == Trim(m.source)
            && fields[1] == TrimStartSlashes(Trim(m.destination))
            && ("ro" in Split(fields[3], ',') <==> m.readOnly)
  {
    hide MountEntry, MountPrefix, Words, Split, Trim, Lines, MountOptions;
    EntryFields(m);
    OptionsRead(m.readOnly);
    assert StripPrefix(MountLine(m), MountPrefix()) == Some(MountEntry(m));
    MountText(m);
    LinesFirst(MountLine(m), []);
    assert MountLine(m) + "\n" + [] == MountLine(m) + "\n";
    LinesOfNothing();
  }

  // ----- reading the settings back -----

  /** A configuration line as it is read: a key and a value around the first equals sign. */
  function ReadSetting(line: string): Option<(string, string)> {
    match SplitOnce(line, '=')
    case None => None
    case Some((key, value)) => Some((Trim(key), Trim(value)))
  }

  /** Every value the lines give to a key. */
  function Values(lines: seq<string>, key: string): seq<string> {
    if lines == [] then []
    else
      var rest := Values(lines[1..], key);
      match ReadSetting(lines[0])
      case None => rest
      case Some((k, value)) => if k == key then [value] + rest else rest
  }

  /** The lines set exactly what the network asks for, under its own number. */
  ghost predicate NetworkRead(lines: seq<string>, i: nat, net: Network) {
    && Values(lines, "lxc.net." + Decimal(i) + ".type") == ["veth"]
    && Values(lines, "lxc.net." + Decimal(i) + ".link") == [net.bridge]
    && Values(lines, "lxc.net." + Decimal(i) + ".flags") == ["up"]
    && Values(lines, "lxc.net." + Decimal(i) + ".vlan.id") == (if net.vlan.Some? then [Decimal(net.vlan.value)] else [])
    && Values(lines, "lxc.net." + Decimal(i) + ".ipv4.address") == (if net.ip.Some? then [net.ip.value] else [])
  }

  lemma {:induction false} ValuesAppend(a: seq<string>, b: seq<string>, key: string)
    ensures Values(a + b, key) == Values(a, key) + Values(b, key)
  {
    hide ReadSetting;
    if a == [] {
      assert a + b == b;
    } else {
      ValuesAppend(a[1..], b, key);
      assert (a + b)[1..] == a[1..] + b && (a + b)[0] == a[0];
    }
  }

  predicate Tidy(s: string) {
    s != "" && !IsWhitespace(s[0]) && !IsWhitespace(s[|s| - 1])
  }

  lemma SettingRead(key: string, value: string)
    requires '=' !in key && Tidy(key) && Tidy(value)
    ensures ReadSetting(Setting(key, value)) == Some((key, value))
  {
    hide Trim;
    SplitOnceAt(key + " ", '=', " " + value);
    assert Setting(key, value) == (key + " ") + ['='] + (" " + value);
    TrimExactly("", key, " ");
    TrimExactly(" ", value, "");
    assert "" + key + " " == key + " " && " " + value + "" == " " + value;
  }

  function OneIf(c: bool, value: string): seq<string> {
    if c then [value] else []
  }

  lemma OneValue(key: string, value: string, wanted: string)
    requires '=' !in key && Tidy(key) && Tidy(value)
    ensures Values([Setting(key, value)], wanted) == OneIf(key == wanted, value)
  {
    SettingRead(key, value);
    hide Setting, ReadSetting, Tidy;
    assert [Setting(key, value)][1..] == [];
  }

  lemma PlainIsTidy(s: string)
    requires s != "" && Plain(s)
    ensures Tidy(s)
  {
    assert s[0] in s && s[|s| - 1] in s;
  }

  lemma NetKeyText(i: nat, field: string)
    requires field != "" && Plain(field) && '=' !in field
    ensures '=' !in NetKey(i, field) && Tidy(NetKey(i, field)) && |NetKey(i, field)| > 4 && NetKey(i, field)[4] == 'n'
  {
    assert field[|field| - 1] in field;
  }

  lemma NetKeysDiffer(i: nat, f: string, j: nat, g: string)
    requires f != "" && f[0] == '.' && g != "" && g[0] == '.'
    ensures NetKey(i, f) == NetKey(j, g) <==> i == j && f == g
  {
    if NetKey(i, f) == NetKey(j, g) {
      var a, b := Decimal(i), Decimal(j);
      assert ("lxc.net." + a + f)[8..] == a + f && ("lxc.net." + b + g)[8..] == b + g;
      assert a + f == a + ['.'] + f[1..] && b + g == b + ['.'] + g[1..];
      SplitOnceAt(a, '.', f[1..]);
      SplitOnceAt(b, '.', g[1..]);
      ParseOfDecimal(i);
      ParseOfDecimal(j);
    }
  }

  /** The values a network gives to one of its own keys. */
  function NetValue(net: Network, f: string): seq<string> {
    OneIf(".type" == f, "veth") + OneIf(".link" == f, net.bridge) + OneIf(".flags" == f, "up")
    + OneIf(net.vlan.Some? && ".vlan.id" == f, if net.vlan.Some? then Decimal(net.vlan.value) else "")
    + OneIf(net.ip.Some? && ".ipv4.address" == f, if net.ip.Some? then net.ip.value else "")
  }

  lemma NetSettingValue(i: nat, field: string, value: string, k: nat, f: string)
    requires field != "" && field[0] == '.' && Plain(field) && '=' !in field && f != "" && f[0] == '.'
    requires value != "" && Plain(value)
    ensures Values([Setting(NetKey(i, field), value)], NetKey(k, f)) == OneIf(i == k && field == f, value)
  {
    hide Values, Setting, NetKey, Tidy, Plain;
    NetKeyText(i, field);
    PlainIsTidy(value);
    NetKeysDiffer(i, field, k, f);
    OneValue(NetKey(i, field), value, NetKey(k, f));
  }

  lemma FieldsFit()
    ensures forall f :: f in {".type", ".link", ".flags", ".vlan.id", ".ipv4.address"} ==> f != "" && f[0] == '.' && '=' !in f
  {
  }

  lemma NetworkValues(parse: AddressParser, i: nat, net: Network, k: nat, f: string)
    requires AddressSyntax(parse) && NetworkValid(parse, net) && f != "" && f[0] == '.'
    ensures Values(NetworkLines(i, net), NetKey(k, f)) == if i == k then NetValue(net, f) else []
  {
    hide Values, Plain, NetKey, Setting, SafeId, ParseCidr, AddressSyntax, Decimal;
    var key := NetKey(k, f);
    NetPrefixPlain();
    FieldsFit();
    WordsPlain();
    SafeIdPlain(net.bridge);
    NetSettingValue(i, ".type", "veth", k, f);
    NetSettingValue(i, ".link", net.bridge, k, f);
    NetSettingValue(i, ".flags", "up", k, f);
    var a, b, c := Setting(NetKey(i, ".type"), "veth"), Setting(NetKey(i, ".link"), net.bridge), Setting(NetKey(i, ".flags"), "up");
    ValuesAppend([a], [b], key);
    ValuesAppend([a] + [b], [c], key);
    assert [a] + [b] + [c] == [a, b, c];
    var vlan := if net.vlan.Some? then [Setting(NetKey(i, ".vlan.id"), Decimal(net.vlan.value))] else [];
    var ip := if net.ip.Some? then [Setting(NetKey(i, ".ipv4.address"), net.ip.value)] else [];
    ValuesOfNothing(key);
    if net.vlan.Some? {
      DecimalPlain(net.vlan.value);
      NetSettingValue(i, ".vlan.id", Decimal(net.vlan.value), k, f);
    }
    if net.ip.Some? {
      CidrIsWord(parse, net.ip.value);
      NetSettingValue(i, ".ipv4.address", net.ip.value, k, f);
    }
    ValuesAppend([a, b, c], vlan, key);
    ValuesAppend([a, b, c] + vlan, ip, key);
  }

  lemma ValuesOfNothing(key: string)
    ensures Values([], key) == []
  {
  }

  lemma {:induction false} NetworksValues(parse: AddressParser, nets: seq<Network>, k: nat, f: string)
    requires AddressSyntax(parse) && f != "" && f[0] == '.'
    requires forall net :: net in nets ==> NetworkValid(parse, net)
    ensures Values(AllNetworkLines(nets), NetKey(k, f)) == if k < |nets| then NetValue(nets[k], f) else []
  {
    hide Values, NetworkValid, AddressSyntax, NetworkLines, NetKey, NetValue;
    ValuesOfNothing(NetKey(k, f));
    if nets != [] {
      var n := |nets| - 1;
      NetworksValues(parse, nets[..n], k, f);
      NetworkValues(parse, n, nets[n], k, f);
      ValuesAppend(AllNetworkLines(nets[..n]), NetworkLines(n, nets[n]), NetKey(k, f));
    }
  }

  lemma {:induction false} NetworksSilent(parse: AddressParser, nets: seq<Network>, key: string)
    requires AddressSyntax(parse) && |key| > 4 && key[4] != 'n'
    requires forall net :: net in nets ==> NetworkValid(parse, net)
    ensures Values(AllNetworkLines(nets), key) == []
  {
    hide Values, NetworkValid, AddressSyntax, NetworkLines;
    ValuesOfNothing(key);
    if nets != [] {
      var n := |nets| - 1;
      NetworksSilent(parse, nets[..n], key);
      NetworkSilent(parse, n, nets[n], key);
      ValuesAppend(AllNetworkLines(nets[..n]), NetworkLines(n, nets[n]), key);
    }
  }

  lemma NetworkSilent(parse: AddressParser, i: nat, net: Network, key: string)
    requires AddressSyntax(parse) && NetworkValid(parse, net) && |key| > 4 && key[4] != 'n'
    ensures Values(NetworkLines(i, net), key) == []
  {
    forall line | line in NetworkLines(i, net)
      ensures ReadSetting(line).Some? && |ReadSetting(line).value.0| > 4 && ReadSetting(line).value.0[4] == 'n'
    {
      NetworkLineKey(parse, i, net, line);
    }
    hide ReadSetting, NetworkLines, NetworkValid, AddressSyntax;
    NoneFor(NetworkLines(i, net), key);
  }

  lemma NetworkLineKey(parse: AddressParser, i: nat, net: Network, line: string)
    requires AddressSyntax(parse) && NetworkValid(parse, net) && line in NetworkLines(i, net)
    ensures ReadSetting(line).Some? && |ReadSetting(line).value.0| > 4 && ReadSetting(line).value.0[4] == 'n'
  {
    hide Plain, NetKey, Setting, SafeId, ParseCidr, AddressSyntax, Decimal, ReadSetting;
    NetPrefixPlain();
    FieldsFit();
    WordsPlain();
    SafeIdPlain(net.bridge);
    NetSettingKey(i, ".type", "veth");
    NetSettingKey(i, ".link", net.bridge);
    NetSettingKey(i, ".flags", "up");
    if net.vlan.Some? {
      DecimalPlain(net.vlan.value);
      NetSettingKey(i, ".vlan.id", Decimal(net.vlan.value));
    }
    if net.ip.Some? {
      CidrIsWord(parse, net.ip.value);
      NetSettingKey(i, ".ipv4.address", net.ip.value);
    }
  }

  lemma NetSettingKey(i: nat, field: string, value: string)
    requires field != "" && Plain(field) && '=' !in field && value != "" && Plain(value)
    ensures var r := ReadSetting(Setting(NetKey(i, field), value)); r.Some? && |r.value.0| > 4 && r.value.0[4] == 'n'
  {
    hide Setting, NetKey, Tidy, Plain, ReadSetting;
    NetKeyText(i, field);
    PlainIsTidy(value);
    SettingRead(NetKey(i, field), value);
  }

  lemma {:induction false} NoneFor(lines: seq<string>, key: string)
    requires forall line :: line in lines ==> ReadSetting(line).Some? && ReadSetting(line).value.0 != key
    ensures Values(lines, key) == []
  {
    hide ReadSetting;
    if lines != [] {
      NoneFor(lines[1..], key);
    }
  }

  lemma LimitKeyTexts()
    ensures MemoryKey() == "lxc.cgroup2.memory.max" && CpuKey() == "lxc.cgroup2.cpu.max"
    ensures MemoryKey() != CpuKey()
    ensures '=' !in MemoryKey() && '=' !in CpuKey() && '=' !in Banner()
    ensures Tidy(MemoryKey()) && Tidy(CpuKey())
    ensures |MemoryKey()| > 4 && MemoryKey()[4] == 'c' && |CpuKey()| > 4 && CpuKey()[4] == 'c'
  {
    assert |MemoryKey()| == 22 && |CpuKey()| == 19;
  }

  lemma NoSetting(line: string, key: string)
    requires '=' !in line
    ensures Values([line], key) == []
  {
    assert [line][1..] == [];
  }

  lemma LimitValues(vcpus: nat, memoryMib: nat, key: string)
    ensures Values(LimitLines(vcpus, memoryMib), key)
         == OneIf(MemoryKey() == key, Decimal(MemoryBytes(memoryMib)))
            + OneIf(CpuKey() == key, Decimal(vcpus * 100_000) + " 100000")
  {
    hide Values, Banner, MemoryKey, CpuKey, Setting, Decimal, MemoryBytes, Plain;
    var memory, share := Decimal(MemoryBytes(memoryMib)), Decimal(vcpus * 100_000) + " 100000";
    LimitKeyTexts();
    DecimalPlain(MemoryBytes(memoryMib));
    PlainIsTidy(memory);
    DecimalPlain(vcpus * 100_000);
    PlainIsTidy(Decimal(vcpus * 100_000));
    assert Tidy(share);
    hide Tidy;
    NoSetting("", key);
    NoSetting(Banner(), key);
    OneValue(MemoryKey(), memory, key);
    OneValue(CpuKey(), share, key);
    var c, d := Setting(MemoryKey(), memory), Setting(CpuKey(), share);
    ValuesAppend([""], [Banner()], key);
    ValuesAppend([""] + [Banner()], [c], key);
    ValuesAppend([""] + [Banner()] + [c], [d], key);
    assert [""] + [Banner()] + [c] + [d] == LimitLines(vcpus, memoryMib);
  }

  lemma MountKey(m: Mount)
    ensures ReadSetting(MountLine(m)).Some? && ReadSetting(MountLine(m)).value.0 == "lxc.mount.entry"
  {
    hide MountEntry, Trim;
    SplitOnceAt("lxc.mount.entry ", '=', " " + MountEntry(m));
    assert MountLine(m) == "lxc.mount.entry " + ['='] + (" " + MountEntry(m));
    TrimExactly("", "lxc.mount.entry", " ");
    assert "" + "lxc.mount.entry" + " " == "lxc.mount.entry ";
  }

  lemma {:induction false} MountValues(mounts: seq<Mount>, key: string)
    requires |key| > 4 && key[4] != 'm'
    ensures Values(MountLines(mounts), key) == []
  {
    hide ReadSetting, MountLine;
    if mounts != [] {
      MountKey(mounts[0]);
      assert "lxc.mount.entry"[4] == 'm';
      MountValues(mounts[1..], key);
      assert MountLines(mounts)[1..] == MountLines(mounts[1..]);
    }
  }

  /** Reading an accepted block back gives the limits and the networks asked for, each once, and nothing else of their
      kind; memory is counted in bytes of a 64-bit word. */
  lemma BlockSets(parse: AddressParser, vcpus: nat, memoryMib: nat, nets: seq<Network>, mounts: seq<Mount>)
    requires AddressSyntax(parse)
    requires forall net :: net in nets ==> NetworkValid(parse, net)
    requires forall m :: m in mounts ==> MountValid(m) && Renderable(m)
    ensures var lines := Lines(Block(vcpus, memoryMib, nets, mounts));
            && Values(lines, "lxc.cgroup2.memory.max") == [Decimal(memoryMib * 1048576 % 0x1_0000_0000_0000_0000)]
            && Values(lines, "lxc.cgroup2.cpu.max") == [Decimal(vcpus * 100000) + " 100000"]
            && (forall i :: 0 <= i < |nets| ==> NetworkRead(lines, i, nets[i]))
            && (forall i: nat :: i >= |nets| ==> Values(lines, "lxc.net." + Decimal(i) + ".type") == [])
  {
    hide Fine, NetworkValid, AddressSyntax, Lines, Values, LimitLines, AllNetworkLines, MountLine, MountValid, Renderable,
         Decimal, MemoryBytes, MemoryKey, CpuKey, NetworkRead, NetKey, NetValue, MountLines, Block;
    var lines := Lines(Block(vcpus, memoryMib, nets, mounts));
    var limits, networks, entries := LimitLines(vcpus, memoryMib), AllNetworkLines(nets), MountLines(mounts);
    LinesRead(parse, vcpus, memoryMib, nets, mounts);
    LimitsRead(parse, vcpus, memoryMib, nets, mounts);
    forall i: nat | i < |nets|
      ensures NetworkRead(lines, i, nets[i])
    {
      forall f | f != "" && f[0] == '.'
        ensures Values(lines, NetKey(i, f)) == NetValue(nets[i], f)
      {
        NetworkSettingRead(parse, vcpus, memoryMib, nets, mounts, i, f);
      }
      FieldsRead(lines, i, nets[i]);
    }
    forall i: nat | i >= |nets|
      ensures Values(lines, "lxc.net." + Decimal(i) + ".type") == []
    {
      NetworkSettingRead(parse, vcpus, memoryMib, nets, mounts, i, ".type");
      TypeKey(i);
    }
  }

  lemma TypeKey(i: nat)
    ensures NetKey(i, ".type") == "lxc.net." + Decimal(i) + ".type"
  {
  }

  lemma FieldsRead(lines: seq<string>, i: nat, net: Network)
    requires forall f :: f != "" && f[0] == '.' ==> Values(lines, NetKey(i, f)) == NetValue(net, f)
    ensures NetworkRead(lines, i, net)
  {
    hide Values, NetValue;
    NetValueType(net);
    NetValueLink(net);
    NetValueFlags(net);
    NetValueVlan(net);
    NetValueAddress(net);
    forall f
      ensures NetKey(i, f) == "lxc.net." + Decimal(i) + f
    {
    }
    hide NetKey, Decimal;
    assert ".type" != "" && ".link" != "" && ".flags" != "" && ".vlan.id" != "" && ".ipv4.address" != "";
  }

  lemma NetValueType(net: Network)
    ensures NetValue(net, ".type") == ["veth"]
  {
    hide Decimal;
    assert ".type"[1] == 't';
  }

  lemma NetValueLink(net: Network)
    ensures NetValue(net, ".link") == [net.bridge]
  {
    hide Decimal;
    assert ".link"[1] == 'l';
  }

  lemma NetValueFlags(net: Network)
    ensures NetValue(net, ".flags") == ["up"]
  {
    hide Decimal;
    assert ".flags"[1] == 'f';
  }

  lemma NetValueVlan(net: Network)
    ensures NetValue(net, ".vlan.id") == if net.vlan.Some? then [Decimal(net.vlan.value)] else []
  {
    hide Decimal;
    assert ".vlan.id"[1] == 'v';
  }

  lemma NetValueAddress(net: Network)
    ensures NetValue(net, ".ipv4.address") == if net.ip.Some? then [net.ip.value] else []
  {
    hide Decimal;
    assert ".ipv4.address"[1] == 'i';
  }

  lemma LimitsRead(parse: AddressParser, vcpus: nat, memoryMib: nat, nets: seq<Network>, mounts: seq<Mount>)
    requires AddressSyntax(parse)
    requires forall net :: net in nets ==> NetworkValid(parse, net)
    ensures var lines := LimitLines(vcpus, memoryMib) + AllNetworkLines(nets) + MountLines(mounts);
            && Values(lines, "lxc.cgroup2.memory.max") == [Decimal(memoryMib * 1048576 % 0x1_0000_0000_0000_0000)]
            && Values(lines, "lxc.cgroup2.cpu.max") == [Decimal(vcpus * 100000) + " 100000"]
  {
    LimitKeyTexts();
    hide NetworkValid, AddressSyntax, Values, LimitLines, AllNetworkLines, Decimal, MemoryKey, CpuKey, MountLines;
    forall key | key == MemoryKey() || key == CpuKey()
      ensures Values(LimitLines(vcpus, memoryMib) + AllNetworkLines(nets) + MountLines(mounts), key)
           == Values(LimitLines(vcpus, memoryMib), key)
    {
      ValuesAppend(LimitLines(vcpus, memoryMib), AllNetworkLines(nets), key);
      ValuesAppend(LimitLines(vcpus, memoryMib) + AllNetworkLines(nets), MountLines(mounts), key);
      NetworksSilent(parse, nets, key);
      MountValues(mounts, key);
    }
    LimitValues(vcpus, memoryMib, MemoryKey());
    LimitValues(vcpus, memoryMib, CpuKey());
  }

  lemma NetKeyFamily(i: nat, f: string)
    ensures |NetKey(i, f)| > 4 && NetKey(i, f)[4] == 'n'
  {
  }

  lemma LimitsSilent(vcpus: nat, memoryMib: nat, key: string)
    requires |key| > 4 && key[4] != 'c'
    ensures Values(LimitLines(vcpus, memoryMib), key) == []
  {
    hide Values, LimitLines, Decimal, MemoryKey, CpuKey, MemoryBytes;
    LimitKeyTexts();
    LimitValues(vcpus, memoryMib, key);
  }

  lemma NetworkSettingRead(parse: AddressParser, vcpus: nat, memoryMib: nat, nets: seq<Network>, mounts: seq<Mount>, i: nat,
                           f: string)
    requires AddressSyntax(parse) && f != "" && f[0] == '.'
    requires forall net :: net in nets ==> NetworkValid(parse, net)
    ensures Values(LimitLines(vcpus, memoryMib) + AllNetworkLines(nets) + MountLines(mounts), NetKey(i, f))
         == if i < |nets| then NetValue(nets[i], f) else []
  {
    hide NetworkValid, AddressSyntax, Values, LimitLines, AllNetworkLines, MountLines, NetKey, NetValue;
    var key := NetKey(i, f);
    NetKeyFamily(i, f);
    LimitsSilent(vcpus, memoryMib, key);
    NetworksValues(parse, nets, i, f);
    MountValues(mounts, key);
    ValuesAppend(LimitLines(vcpus, memoryMib), AllNetworkLines(nets), key);
    ValuesAppend(LimitLines(vcpus, memoryMib) + AllNetworkLines(nets), MountLines(mounts), key);
  }

  lemma LinesRead(parse: AddressParser, vcpus: nat, memoryMib: nat, nets: seq<Network>, mounts: seq<Mount>)
    requires AddressSyntax(parse)
    requires forall net :: net in nets ==> NetworkValid(parse, net)
    requires forall m :: m in mounts ==> MountValid(m) && Renderable(m)
    ensures Lines(Block(vcpus, memoryMib, nets, mounts))
         == LimitLines(vcpus, memoryMib) + AllNetworkLines(nets) + MountLines(mounts)
  {
    hide NetworkValid, AddressSyntax, Lines, LimitLines, AllNetworkLines, MountLine, MountValid, Unlines, LinesAllowed;
    LimitsFine(vcpus, memoryMib);
    NetworksFine(parse, nets);
    var settings, entries := LimitLines(vcpus, memoryMib) + AllNetworkLines(nets), MountLines(mounts);
    forall i | 0 <= i < |entries|
      ensures IsLine(entries[i])
    {
      MountText(mounts[i]);
    }
    forall i | 0 <= i < |settings|
      ensures IsLine(settings[i])
    {
      assert settings[i] in settings && Fine(settings[i]);
    }
    LinesOfUnlines(settings + entries);
  }

  lemma LinesOfNothing()
    ensures Lines([]) == []
  {
  }

  lemma SpaceTrimmed(word: string)
    requires word != "" && !IsWhitespace(word[0]) && !IsWhitespace(word[|word| - 1])
    ensures Trim(" " + word) == word
  {
    TrimOfTrimmed(word);
    var s := " " + word;
    assert s[0] == ' ' && s[1..] == word;
    assert TrimStart(s) == TrimStart(word);
  }

  lemma TrimExample()
    ensures Trim(" /data") == "/data" && Trim("/srv") == "/srv"
  {
    hide Trim;
    assert " " + "/data" == " /data";
    SpaceTrimmed("/data");
    TrimOfTrimmed("/srv");
  }

  lemma OneComponent(name: string)
    requires name != "" && '/' !in name && name != ".." && Plain(name) && ByteLength("/" + name) <= 1024
    ensures SafeAbsolute("/" + name) && TrimStartSlashes("/" + name) == name
  {
    hide ByteLength;
    SplitFirst("", '/', name);
    SplitNone(name, '/');
    assert "" + ['/'] + name == "/" + name;
    assert ("/" + name)[1..] == name;
    assert Split("/" + name, '/') == ["", name];
  }

  lemma ExampleBytes()
    ensures ByteLength("/data") == 5 && ByteLength("/srv") == 4
  {
  }

  /** Leading whitespace passes the service's validation and is then refused by the broker. */
  lemma UntidyMountRefused()
    ensures var m := Mount("/srv", " /data", false); MountValid(m) && !LinesAllowed(MountLine(m) + "\n")
  {
    hide Trim, Split, ByteLength, TrimStartSlashes, LinesAllowed, MountLine;
    var m := Mount("/srv", " /data", false);
    TrimExample();
    ExampleBytes();
    assert "/" + "data" == "/data" && "/" + "srv" == "/srv";
    OneComponent("data");
    OneComponent("srv");
    MountJudged(m);
  }
}
