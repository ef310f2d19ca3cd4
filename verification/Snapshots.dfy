/** Disk snapshots of a virtual machine: one name over all its ZFS datasets. */
module Snapshots {
  import opened Wrappers
  import opened Text
  import opened Numbers
  import opened Collections

  /** One ZFS snapshot; the description property prints as "-" when unset. */
  datatype ZfsSnap = ZfsSnap(used: nat, creation: nat, description: string)

  /** The snapshots of every dataset on the host. */
  type Zfs = map<string, map<string, ZfsSnap>>

  datatype Kind = Disk | Ram

  datatype VmSnapshot = VmSnapshot(name: string, kind: Kind, usedBytes: nat, description: Option<string>, createdAt: int)

  /** A saved memory image, filed by name in the backend's own directory. */
  datatype RamImage = RamImage(bytes: nat, createdAt: int, description: Option<string>)

  datatype Counted = Counted(snap: VmSnapshot, disks: nat)

  datatype ZfsError = MissingDataset | AlreadyExists | OtherFailure

  function ClonePrefix(): string {
    "daygleve-clone-"
  }

  predicate Reserved(tag: string) {
    StartsWith(tag, ClonePrefix())
  }

  predicate SafeSnapshot(name: string) {
    && !Reserved(name) && name != "" && name[0] != '-'
    && forall c :: c in name ==> IsAlphanumeric(c) || c in ".-_:"
  }

  /** A name that no clone uses, that is no option, of letters, digits and four punctuation marks. */
  method EnsureSafe(name: string) returns (ok: bool)
    ensures ok <==> SafeSnapshot(name)
  {
    if "daygleve-clone-" <= name {
      return false;
    }
    return name != "" && !("-" <= name)
           && forall c :: c in name ==> IsAlphanumeric(c) || c == '.' || c == '-' || c == '_' || c == ':';
  }

  predicate SafeDataset(name: string) {
    && name != "" && name[0] != '-' && (forall part :: part in Split(name, '/') ==> part != "" && part != "." && part != "..")
    && forall c :: c in name ==> IsAlphanumeric(c) || c in ".-_:/"
  }

  /** The datasets behind a VM's disks; disks without one are skipped, an unsafe one is an error. */
  function SnapshotDatasets(disks: seq<string>): (r: Result<seq<string>, AppError>)
    ensures r.Ok? ==> |r.value| <= |disks| && forall d :: d in r.value ==> SafeDataset(d)
  {
    if disks == [] then Ok([])
    else
      match SnapshotDatasets(disks[..|disks| - 1])
      case Err(e) => Err(e)
      case Ok(before) =>
        var d := Trim(disks[|disks| - 1]);
        if d == "" then Ok(before) else if SafeDataset(d) then Ok(before + [d]) else Err(Validation)
  }

  /** Every disk's dataset is safe, and the list holds exactly those that are named. */
  lemma {:induction false} SnapshotDatasetsExactly(disks: seq<string>, d: string)
    ensures SnapshotDatasets(disks).Ok? <==> forall i :: 0 <= i < |disks| ==> Trim(disks[i]) == "" || SafeDataset(Trim(disks[i]))
    ensures SnapshotDatasets(disks).Ok? ==>
              (d in SnapshotDatasets(disks).value <==> d != "" && exists i :: 0 <= i < |disks| && Trim(disks[i]) == d)
    ensures SnapshotDatasets(disks).Err? ==> SnapshotDatasets(disks).error == Validation
  {
    hide SafeDataset, Trim;
    if disks != [] {
      SnapshotDatasetsExactly(disks[..|disks| - 1], d);
      assert forall i :: 0 <= i < |disks| - 1 ==> disks[..|disks| - 1][i] == disks[i];
    }
  }

  predicate On(zfs: Zfs, dataset: string, tag: string) {
    dataset in zfs && tag in zfs[dataset]
  }

  /** Present on every disk of a VM that has disks. */
  ghost predicate OnEvery(zfs: Zfs, datasets: seq<string>, tag: string) {
    datasets != [] && forall i :: 0 <= i < |datasets| ==> On(zfs, datasets[i], tag)
  }

  ghost predicate OnNone(zfs: Zfs, datasets: seq<string>, tag: string) {
    forall i :: 0 <= i < |datasets| ==> !On(zfs, datasets[i], tag)
  }

  // ----- the table `zfs list` prints -----

  predicate NoControl(s: string) {
    forall c :: c in s ==> !IsControl(c)
  }

  predicate SnapFits(snap: ZfsSnap) {
    snap.used <= U64_MAX && snap.creation <= I64_MAX && NoControl(snap.description)
  }

  ghost predicate HostFits(zfs: Zfs) {
    forall d, tag :: On(zfs, d, tag) ==> NoControl(d) && '@' !in d && NoControl(tag) && SnapFits(zfs[d][tag])
  }

  function RowText(dataset: string, tag: string, snap: ZfsSnap): string {
    Join([dataset + "@" + tag, Decimal(snap.used), Decimal(snap.creation), snap.description], '\t')
  }

  datatype Row = Row(tag: string, used: nat, creation: int, description: string)

  /** Unsigned 64-bit numbers as `str::parse` reads them. */
  function ParseU64(s: string): Option<nat> {
    var digits := if s != [] && s[0] == '+' then s[1..] else s;
    match ParseDecimal(digits)
    case None => None
    case Some(n) => if n <= U64_MAX then Some(n) else None
  }

  function ParseI64(s: string): Option<int> {
    var negative := s != [] && s[0] == '-';
    var digits := if s != [] && (s[0] == '+' || s[0] == '-') then s[1..] else s;
    match ParseDecimal(digits)
    case None => None
    case Some(n) =>
      var m: int := n;
      var value := if negative then -m else m;
      if 0 <= value + I64_MAX + 1 && value <= I64_MAX then Some(value) else None
  }

  /** One line of the table; a malformed row is nothing. */
  function ParseRow(line: string): Option<Row> {
    var cols := Split(line, '\t');
    if |cols| < 3 then None
    else
      var used, creation := ParseU64(cols[1]), ParseI64(cols[2]);
      var name := SplitOnce(cols[0], '@');
      if used.None? || creation.None? || name.None? then None
      else Some(Row(name.value.1, used.value, creation.value, if |cols| > 3 then cols[3] else "-"))
  }

  lemma DecimalRead(n: nat)
    ensures n <= U64_MAX ==> ParseU64(Decimal(n)) == Some(n)
    ensures n <= I64_MAX ==> ParseI64(Decimal(n)) == Some(n)
  {
    ParseOfDecimal(n);
    var s := Decimal(n);
    assert s[0] in s;
  }

  lemma NoControlNoTab(s: string)
    requires NoControl(s)
    ensures '\t' !in s && '\n' !in s && (s != "" ==> s[|s| - 1] != '\r')
  {
    assert s != "" ==> s[|s| - 1] in s;
  }

  lemma DecimalNoControl(n: nat)
    ensures NoControl(Decimal(n))
  {
  }

  /** What is printed for a snapshot is read back as that snapshot. */
  lemma RowRead(dataset: string, tag: string, snap: ZfsSnap)
    requires NoControl(dataset) && '@' !in dataset && NoControl(tag) && SnapFits(snap)
    ensures ParseRow(RowText(dataset, tag, snap)) == Some(Row(tag, snap.used, snap.creation, snap.description))
  {
    var cols := [dataset + "@" + tag, Decimal(snap.used), Decimal(snap.creation), snap.description];
    assert NoControl(dataset + "@" + tag);
    hide ParseU64, ParseI64, Decimal, NoControl, Join, Split, SplitOnce;
    DecimalNoControl(snap.used);
    DecimalNoControl(snap.creation);
    forall i | 0 <= i < 4
      ensures '\t' !in cols[i]
    {
      NoControlNoTab(cols[i]);
    }
    SplitOfJoin(cols, '\t');
    DecimalRead(snap.used);
    DecimalRead(snap.creation);
    SplitOnceAt(dataset, '@', tag);
  }

  lemma RowIsLine(dataset: string, tag: string, snap: ZfsSnap)
    requires NoControl(dataset) && NoControl(tag) && SnapFits(snap)
    ensures IsLine(RowText(dataset, tag, snap))
  {
    var cols := [dataset + "@" + tag, Decimal(snap.used), Decimal(snap.creation), snap.description];
    assert NoControl(dataset + "@" + tag);
    DecimalNoControl(snap.used);
    DecimalNoControl(snap.creation);
    var line := RowText(dataset, tag, snap);
    hide Decimal, Join, RowText, IsControl;
    forall c | c in line
      ensures c != '\n' && c != '\r'
    {
      JoinContains(cols, '\t', c);
      if c != '\t' {
        var i :| 0 <= i < 4 && c in cols[i];
        assert !IsControl(c);
      }
      BreaksAreControl();
    }
    assert line != [] ==> line[|line| - 1] in line;
  }

  lemma BreaksAreControl()
    ensures IsControl('\n') && IsControl('\r') && IsControl('\t')
  {
  }

  function RowTexts(dataset: string, snaps: map<string, ZfsSnap>, order: seq<string>): (rows: seq<string>)
    requires forall tag :: tag in order ==> tag in snaps
    ensures |rows| == |order|
    ensures forall i :: 0 <= i < |order| ==> rows[i] == RowText(dataset, order[i], snaps[order[i]])
  {
    seq(|order|, i requires 0 <= i < |order| => RowText(dataset, order[i], snaps[order[i]]))
  }

  // ----- the running total -----

  /** Count one more disk that carries the snapshot. */
  function Merge(before: Option<Counted>, row: Row): Counted {
    var c := if before.Some? then before.value else Counted(VmSnapshot(row.tag, Disk, 0, None, row.creation), 0);
    var description := if c.snap.description.None? && !Blank(row.description)
                       then Some(row.description) else c.snap.description;
    Counted(c.snap.(usedBytes := Min(c.snap.usedBytes + row.used, U64_MAX), description := description), c.disks + 1)
  }

  function RowOf(tag: string, snap: ZfsSnap): Row {
    Row(tag, snap.used, snap.creation, snap.description)
  }

  /** What the disks, in order, contribute to one name. */
  function Tally(zfs: Zfs, datasets: seq<string>, tag: string): Option<Counted> {
    if datasets == [] then None
    else
      var n := |datasets| - 1;
      var before := Tally(zfs, datasets[..n], tag);
      if On(zfs, datasets[n], tag) then Some(Merge(before, RowOf(tag, zfs[datasets[n]][tag]))) else before
  }

  function SumUsed(zfs: Zfs, datasets: seq<string>, tag: string): nat {
    if datasets == [] then 0
    else
      var n := |datasets| - 1;
      SumUsed(zfs, datasets[..n], tag) + if On(zfs, datasets[n], tag) then zfs[datasets[n]][tag].used else 0
  }

  function DisksWith(zfs: Zfs, datasets: seq<string>, tag: string): (n: nat)
    ensures n <= |datasets|
    ensures n == |datasets| <==> forall i :: 0 <= i < |datasets| ==> On(zfs, datasets[i], tag)
  {
    if datasets == [] then 0
    else
      var n := |datasets| - 1;
      DisksWith(zfs, datasets[..n], tag) + if On(zfs, datasets[n], tag) then 1 else 0
  }

  predicate Blank(description: string) {
    description == "-" || description == ""
  }

  ghost predicate BlankBefore(zfs: Zfs, datasets: seq<string>, tag: string, n: nat)
    requires n <= |datasets|
  {
    forall i :: 0 <= i < n && On(zfs, datasets[i], tag) ==> Blank(zfs[datasets[i]][tag].description)
  }

  /** The description shown is that of the first disk with one. */
  ghost predicate Described(zfs: Zfs, datasets: seq<string>, tag: string, description: Option<string>) {
    match description
    case None => BlankBefore(zfs, datasets, tag, |datasets|)
    case Some(text) =>
      exists i :: 0 <= i < |datasets| && On(zfs, datasets[i], tag) && zfs[datasets[i]][tag].description == text
                  && !Blank(text) && BlankBefore(zfs, datasets, tag, i)
  }

  /** The total of a name: how many disks carry it, and the capped sum of their sizes. */
  lemma {:induction false} TallyMeaning(zfs: Zfs, datasets: seq<string>, tag: string)
    ensures Tally(zfs, datasets, tag).None? <==> DisksWith(zfs, datasets, tag) == 0
    ensures datasets != [] && On(zfs, datasets[0], tag) ==> Tally(zfs, datasets, tag).Some?
    ensures Tally(zfs, datasets, tag).Some? ==>
              var c := Tally(zfs, datasets, tag).value;
              && c.disks == DisksWith(zfs, datasets, tag)
              && c.snap.name == tag && c.snap.kind == Disk
              && c.snap.usedBytes == Min(SumUsed(zfs, datasets, tag), U64_MAX)
              && (On(zfs, datasets[0], tag) ==> c.snap.createdAt == zfs[datasets[0]][tag].creation)
  {
    if datasets != [] {
      var n := |datasets| - 1;
      TallyMeaning(zfs, datasets[..n], tag);
      assert n > 0 ==> datasets[..n][0] == datasets[0];
      SumNone(zfs, datasets[..n], tag);
    }
  }

  lemma {:induction false} SumNone(zfs: Zfs, datasets: seq<string>, tag: string)
    ensures DisksWith(zfs, datasets, tag) == 0 ==> SumUsed(zfs, datasets, tag) == 0
  {
    if datasets != [] {
      SumNone(zfs, datasets[..|datasets| - 1], tag);
    }
  }

  lemma {:induction false} TallyDescribed(zfs: Zfs, datasets: seq<string>, tag: string)
    ensures var t := Tally(zfs, datasets, tag);
            Described(zfs, datasets, tag, if t.Some? then t.value.snap.description else None)
  {
    if datasets != [] {
      var n := |datasets| - 1;
      var before := Tally(zfs, datasets[..n], tag);
      TallyDescribed(zfs, datasets[..n], tag);
      assert forall i :: 0 <= i < n ==> datasets[..n][i] == datasets[i];
      if before.Some? && before.value.snap.description.Some? {
        var text := before.value.snap.description.value;
        var i :| 0 <= i < n && On(zfs, datasets[..n][i], tag) && zfs[datasets[..n][i]][tag].description == text
                 && BlankBefore(zfs, datasets[..n], tag, i);
        assert On(zfs, datasets[i], tag) && BlankBefore(zfs, datasets, tag, i);
      } else {
        assert BlankBefore(zfs, datasets, tag, n);
      }
    }
  }

  // ----- the table of one dataset -----

  type Table = map<string, Counted>

  function Get(table: Table, tag: string): Option<Counted> {
    if tag in table then Some(table[tag]) else None
  }

  /** The table holds the total of every name that users may see. */
  ghost predicate Totals(table: Table, zfs: Zfs, datasets: seq<string>) {
    forall tag :: Get(table, tag) == if Reserved(tag) then None else Tally(zfs, datasets, tag)
  }

  /** Partway through a dataset: the names listed so far are counted. */
  ghost predicate Partial(table: Table, before: Table, snaps: map<string, ZfsSnap>, listed: seq<string>)
    requires forall tag :: tag in listed ==> tag in snaps
  {
    forall tag :: Get(table, tag) ==
                  if tag in listed && !Reserved(tag) then Some(Merge(Get(before, tag), RowOf(tag, snaps[tag])))
                  else Get(before, tag)
  }

  lemma PartialDone(table: Table, before: Table, zfs: Zfs, datasets: seq<string>, n: nat, order: seq<string>)
    requires n < |datasets| && datasets[n] in zfs && Enumerates(order, zfs[datasets[n]].Keys)
    requires Totals(before, zfs, datasets[..n]) && Partial(table, before, zfs[datasets[n]], order)
    ensures Totals(table, zfs, datasets[..n + 1])
  {
    hide Merge, Reserved;
    assert datasets[..n + 1][..n] == datasets[..n];
  }

  lemma NothingThere(table: Table, zfs: Zfs, datasets: seq<string>, n: nat)
    requires n < |datasets| && datasets[n] !in zfs && Totals(table, zfs, datasets[..n])
    ensures Totals(table, zfs, datasets[..n + 1])
  {
    hide Merge, Reserved;
    assert datasets[..n + 1][..n] == datasets[..n];
  }

  lemma PartialStep(table: Table, before: Table, snaps: map<string, ZfsSnap>, order: seq<string>, j: nat)
    requires Enumerates(order, snaps.Keys) && j < |order| && Partial(table, before, snaps, order[..j])
    ensures Reserved(order[j]) ==> Partial(table, before, snaps, order[..j + 1])
    ensures !Reserved(order[j]) ==>
              var tag := order[j];
              Partial(table[tag := Merge(Get(table, tag), RowOf(tag, snaps[tag]))], before, snaps, order[..j + 1])
  {
    hide Merge, Reserved, RowOf;
    var tag := order[j];
    assert order[..j + 1] == order[..j] + [tag];
    assert tag !in order[..j];
  }

  /** A name is listed exactly when every disk carries it, with the capped sum of its sizes. */
  ghost predicate Lists(snaps: seq<VmSnapshot>, zfs: Zfs, datasets: seq<string>) {
    && (forall tag :: (exists s :: s in snaps && s.name == tag) <==> OnEvery(zfs, datasets, tag) && !Reserved(tag))
    && (forall s :: s in snaps ==> Faithful(s, zfs, datasets))
    && (forall i, j :: 0 <= i < j < |snaps| ==> snaps[i].name != snaps[j].name)
  }

  ghost predicate Faithful(s: VmSnapshot, zfs: Zfs, datasets: seq<string>) {
    && s.kind == Disk && s.usedBytes == Min(SumUsed(zfs, datasets, s.name), U64_MAX)
    && Described(zfs, datasets, s.name, s.description)
    && datasets != [] && On(zfs, datasets[0], s.name) && s.createdAt == zfs[datasets[0]][s.name].creation
  }

  /** Keeping the names counted on all disks keeps exactly the names on every disk. */
  lemma CompleteNames(table: Table, zfs: Zfs, datasets: seq<string>, tag: string)
    requires Totals(table, zfs, datasets)
    ensures tag in table && |datasets| > 0 && table[tag].disks == |datasets| <==>
            OnEvery(zfs, datasets, tag) && !Reserved(tag)
    ensures tag in table ==> table[tag].snap.name == tag
    ensures tag in table && OnEvery(zfs, datasets, tag) ==> Faithful(table[tag].snap, zfs, datasets)
  {
    hide Reserved, Tally, SumUsed, Described;
    TallyMeaning(zfs, datasets, tag);
    TallyDescribed(zfs, datasets, tag);
    assert Get(table, tag) == if Reserved(tag) then None else Tally(zfs, datasets, tag);
    if OnEvery(zfs, datasets, tag) {
      assert On(zfs, datasets[0], tag);
    }
  }

  lemma RowsRead(zfs: Zfs, dataset: string, order: seq<string>)
    requires HostFits(zfs) && dataset in zfs && Enumerates(order, zfs[dataset].Keys)
    ensures var rows := RowTexts(dataset, zfs[dataset], order);
            && Lines(Unlines(rows)) == rows
            && forall i :: 0 <= i < |order| ==>
                 order[i] in zfs[dataset] && ParseRow(rows[i]) == Some(RowOf(order[i], zfs[dataset][order[i]]))
  {
    hide ParseRow, RowText, Lines, Unlines, IsLine, NoControl, SnapFits;
    var rows := RowTexts(dataset, zfs[dataset], order);
    forall i | 0 <= i < |order|
      ensures IsLine(rows[i]) && ParseRow(rows[i]) == Some(RowOf(order[i], zfs[dataset][order[i]]))
    {
      assert order[i] in order && On(zfs, dataset, order[i]);
      RowRead(dataset, order[i], zfs[dataset][order[i]]);
      RowIsLine(dataset, order[i], zfs[dataset][order[i]]);
    }
    LinesOfUnlines(rows);
  }

  lemma EmptyTotals(zfs: Zfs, datasets: seq<string>)
    ensures Totals(map[], zfs, datasets[..0])
  {
  }

  lemma NoneListed(table: Table, snaps: map<string, ZfsSnap>, order: seq<string>)
    requires Enumerates(order, snaps.Keys)
    ensures Partial(table, table, snaps, order[..0])
    ensures forall i :: 0 <= i < |order| ==> order[i] in snaps
  {
  }

  /** Count every row of one dataset's table. */
  method AddRows(before: Table, lines: seq<string>, ghost snaps: map<string, ZfsSnap>, ghost order: seq<string>)
    returns (table: Table)
    requires Enumerates(order, snaps.Keys) && |lines| == |order|
    requires forall i :: 0 <= i < |order| ==> order[i] in snaps && ParseRow(lines[i]) == Some(RowOf(order[i], snaps[order[i]]))
    ensures forall tag :: tag in order ==> tag in snaps
    ensures Partial(table, before, snaps, order)
  {
    hide Enumerates, Partial, ParseRow, Merge, Reserved;
    table := before;
    NoneListed(table, snaps, order);
    for j := 0 to |lines|
      invariant Partial(table, before, snaps, order[..j])
    {
      PartialStep(table, before, snaps, order, j);
      var row := ParseRow(lines[j]);
      if row.None? {
        continue;
      }
      var tag := row.value.tag;
      if Reserved(tag) {
        continue;
      }
      table := table[tag := Merge(Get(table, tag), row.value)];
    }
    assert order[..|order|] == order;
  }

  /** The names counted on every disk. */
  method Complete(table: Table, diskCount: nat) returns (snaps: seq<VmSnapshot>)
    requires forall tag :: tag in table ==> table[tag].snap.name == tag
    ensures forall s :: s in snaps <==> Picked(table, diskCount, s)
    ensures forall i, j :: 0 <= i < j < |snaps| ==> snaps[i].name != snaps[j].name
  {
    snaps := [];
    var todo := table.Keys;
    while todo != {}
      invariant todo <= table.Keys
      invariant forall s :: s in snaps <==> Picked(table, diskCount, s) && s.name !in todo
      invariant forall i, j :: 0 <= i < j < |snaps| ==> snaps[i].name != snaps[j].name
      decreases todo
    {
      var tag :| tag in todo;
      if diskCount > 0 && table[tag].disks == diskCount {
        assert forall s :: s in snaps ==> s.name != tag;
        snaps := snaps + [table[tag].snap];
      }
      todo := todo - {tag};
    }
  }

  ghost predicate Picked(table: Table, diskCount: nat, s: VmSnapshot) {
    s.name in table && table[s.name] == Counted(s, diskCount) && diskCount > 0
  }

  lemma CompleteLists(table: Table, zfs: Zfs, datasets: seq<string>, snaps: seq<VmSnapshot>)
    requires Totals(table, zfs, datasets)
    requires forall s :: s in snaps <==> Picked(table, |datasets|, s)
    requires forall i, j :: 0 <= i < j < |snaps| ==> snaps[i].name != snaps[j].name
    ensures Lists(snaps, zfs, datasets)
  {
    hide Totals, OnEvery, Reserved, Faithful;
    forall tag
      ensures (exists s :: s in snaps && s.name == tag) <==> OnEvery(zfs, datasets, tag) && !Reserved(tag)
    {
      CompleteNames(table, zfs, datasets, tag);
      if OnEvery(zfs, datasets, tag) && !Reserved(tag) {
        assert Picked(table, |datasets|, table[tag].snap);
      }
    }
    forall s | s in snaps
      ensures Faithful(s, zfs, datasets)
    {
      CompleteNames(table, zfs, datasets, s.name);
    }
  }

  lemma TotalsNamed(table: Table, zfs: Zfs, datasets: seq<string>)
    requires Totals(table, zfs, datasets)
    ensures forall tag :: tag in table ==> table[tag].snap.name == tag
  {
    hide Totals;
    forall tag | tag in table
      ensures table[tag].snap.name == tag
    {
      CompleteNames(table, zfs, datasets, tag);
    }
  }

  /** Only the named snapshot of the given datasets may differ. */
  ghost predicate OthersKept(before: Zfs, after: Zfs, datasets: seq<string>, tag: string) {
    && before.Keys == after.Keys
    && forall d, t :: d !in datasets || t != tag ==>
                        (On(after, d, t) <==> On(before, d, t)) && (On(before, d, t) ==> after[d][t] == before[d][t])
  }

  lemma KeptFurther(a: Zfs, b: Zfs, c: Zfs, datasets: seq<string>, tag: string)
    requires OthersKept(a, b, datasets, tag) && OthersKept(b, c, datasets, tag)
    ensures OthersKept(a, c, datasets, tag)
  {
    forall d, t | d !in datasets || t != tag
      ensures (On(c, d, t) <==> On(a, d, t)) && (On(a, d, t) ==> c[d][t] == a[d][t])
    {
      assert (On(b, d, t) <==> On(a, d, t)) && (On(c, d, t) <==> On(b, d, t));
    }
  }

  lemma PutKept(zfs: Zfs, d: string, tag: string, snap: ZfsSnap, datasets: seq<string>)
    requires d in zfs && d in datasets
    ensures OthersKept(zfs, zfs[d := zfs[d][tag := snap]], datasets, tag)
    ensures HostFits(zfs) && NoControl(d) && '@' !in d && NoControl(tag) && SnapFits(snap) ==>
              HostFits(zfs[d := zfs[d][tag := snap]])
  {
    hide SnapFits, NoControl;
    var after := zfs[d := zfs[d][tag := snap]];
    assert after.Keys == zfs.Keys;
    forall x, t
      ensures On(after, x, t) <==> On(zfs, x, t) || (x == d && t == tag)
      ensures On(after, x, t) ==> after[x][t] == if x == d && t == tag then snap else zfs[x][t]
    {
    }
  }

  lemma RemoveKept(zfs: Zfs, d: string, tag: string, datasets: seq<string>)
    requires d in zfs && d in datasets
    ensures OthersKept(zfs, zfs[d := zfs[d] - {tag}], datasets, tag)
    ensures HostFits(zfs) ==> HostFits(zfs[d := zfs[d] - {tag}])
  {
    hide SnapFits, NoControl;
    var after := zfs[d := zfs[d] - {tag}];
    assert after.Keys == zfs.Keys;
    forall x, t
      ensures On(after, x, t) <==> On(zfs, x, t) && !(x == d && t == tag)
      ensures On(after, x, t) ==> after[x][t] == zfs[x][t]
    {
    }
  }

  lemma NamesFit(name: string)
    ensures SafeSnapshot(name) ==> NoControl(name) && !Reserved(name)
    ensures SafeDataset(name) ==> NoControl(name) && '@' !in name
  {
    hide Split, Reserved;
  }

  // ----- what a capture leaves behind -----

  /** How the host answers a create: whether the listings run, which targets the capture creates where it can, whether its
      success is reported, and which destroy and set commands work. */
  datatype HostAnswers = HostAnswers(lists: bool, created: seq<bool>, answered: bool, works: seq<bool>, sets: seq<bool>,
                                     relists: bool)

  /** No target exists yet, every dataset does, and none is named twice. */
  ghost predicate Capturable(zfs: Zfs, datasets: seq<string>, tag: string) {
    && (forall i :: 0 <= i < |datasets| ==> datasets[i] in zfs && !On(zfs, datasets[i], tag))
    && (forall i, j :: 0 <= i < j < |datasets| ==> datasets[i] != datasets[j])
  }

  ghost predicate Succeeds(zfs: Zfs, datasets: seq<string>, tag: string, created: seq<bool>, answered: bool)
    requires |created| >= |datasets|
  {
    Capturable(zfs, datasets, tag) && (forall i :: 0 <= i < |datasets| ==> created[i]) && answered
  }

  /** Some command of the list for this dataset takes effect. */
  ghost predicate SomeFor(datasets: seq<string>, flags: seq<bool>, d: string)
    requires |flags| >= |datasets|
  {
    exists i :: 0 <= i < |datasets| && datasets[i] == d && flags[i]
  }

  /** The dataset carries the name once the capture has run. */
  ghost predicate Attempted(zfs: Zfs, datasets: seq<string>, tag: string, created: seq<bool>, d: string)
    requires |created| >= |datasets|
  {
    On(zfs, d, tag) || (d in zfs && SomeFor(datasets, created, d))
  }

  ghost predicate AnswersFit(answers: HostAnswers, datasets: seq<string>) {
    |answers.created| >= |datasets| && |answers.works| >= |datasets| && |answers.sets| >= |datasets|
  }

  /** The dataset carries the name after a create that got as far as the capture: all of them when the capture succeeds,
      otherwise those the cleanup has not reached. */
  ghost predicate CarriedAfter(zfs: Zfs, datasets: seq<string>, tag: string, answers: HostAnswers, d: string)
    requires AnswersFit(answers, datasets)
  {
    if Succeeds(zfs, datasets, tag, answers.created, answers.answered) then On(zfs, d, tag) || d in datasets
    else Attempted(zfs, datasets, tag, answers.created, d) && !SomeFor(datasets, answers.works, d)
  }

  ghost predicate AllWork(answers: HostAnswers, datasets: seq<string>)
    requires AnswersFit(answers, datasets)
  {
    forall i :: 0 <= i < |datasets| ==> answers.works[i]
  }

  /** A disk loses a snapshot of that name it had before exactly when it had one and its destroy command works; when all of
      them work, that is whenever any disk had one. Such a capture never succeeds. */
  lemma IncompleteIsLost(zfs: Zfs, datasets: seq<string>, tag: string, answers: HostAnswers)
    requires AnswersFit(answers, datasets)
    ensures forall i :: 0 <= i < |datasets| ==>
              (On(zfs, datasets[i], tag) && !CarriedAfter(zfs, datasets, tag, answers, datasets[i]) <==>
               On(zfs, datasets[i], tag) && SomeFor(datasets, answers.works, datasets[i]))
    ensures AllWork(answers, datasets) ==>
              ((exists i :: 0 <= i < |datasets| && On(zfs, datasets[i], tag)
                            && !CarriedAfter(zfs, datasets, tag, answers, datasets[i]))
               <==> !OnNone(zfs, datasets, tag))
    ensures !OnNone(zfs, datasets, tag) ==> !Succeeds(zfs, datasets, tag, answers.created, answers.answered)
  {
    if AllWork(answers, datasets) && !OnNone(zfs, datasets, tag) {
      var i :| 0 <= i < |datasets| && On(zfs, datasets[i], tag);
      assert SomeFor(datasets, answers.works, datasets[i]);
    }
  }

  /** When the cleanup commands work, the name ends on all disks or on none. */
  lemma AllOrNone(zfs: Zfs, datasets: seq<string>, tag: string, answers: HostAnswers)
    requires AnswersFit(answers, datasets) && AllWork(answers, datasets)
    ensures (forall i :: 0 <= i < |datasets| ==> CarriedAfter(zfs, datasets, tag, answers, datasets[i]))
         || (forall i :: 0 <= i < |datasets| ==> !CarriedAfter(zfs, datasets, tag, answers, datasets[i]))
  {
    forall i | 0 <= i < |datasets|
      ensures SomeFor(datasets, answers.works, datasets[i])
    {
      assert answers.works[i];
    }
  }

  /** Two disks, the name on the first only, every command working: afterwards it is on neither. */
  lemma IncompleteExample(snap: ZfsSnap)
    ensures var zfs: Zfs := map["tank/a" := map["daily" := snap], "tank/b" := map[]];
            var datasets := ["tank/a", "tank/b"];
            var answers := HostAnswers(true, [true, true], true, [true, true], [true, true], true);
            && On(zfs, "tank/a", "daily") && !OnEvery(zfs, datasets, "daily")
            && (forall d :: !CarriedAfter(zfs, datasets, "daily", answers, d))
  {
    var zfs: Zfs := map["tank/a" := map["daily" := snap], "tank/b" := map[]];
    var datasets := ["tank/a", "tank/b"];
    var answers := HostAnswers(true, [true, true], true, [true, true], [true, true], true);
    assert On(zfs, datasets[0], "daily") && !On(zfs, datasets[1], "daily");
    assert SomeFor(datasets, answers.works, datasets[0]) && SomeFor(datasets, answers.works, datasets[1]);
    forall d
      ensures !CarriedAfter(zfs, datasets, "daily", answers, d)
    {
      if d in zfs {
        assert d == datasets[0] || d == datasets[1];
      }
    }
  }

  /** How a create ended: refused before the capture, captured, or cleaned up after a failed capture. */
  datatype Outcome = Refused | Captured | NotCaptured

  // ----- memory images, and the order of the list -----

  /** An entry for a memory image. A file that cannot be inspected loses its size, and perhaps its time, which is then that
      of the listing; a description that cannot be read is missing. */
  ghost predicate FromImage(s: VmSnapshot, images: map<string, RamImage>, now: int) {
    && s.kind == Ram && s.name in images && SafeSnapshot(s.name)
    && var image := images[s.name];
       && (s.usedBytes == image.bytes || (s.usedBytes == 0 && s.createdAt == now))
       && (s.createdAt == image.createdAt || s.createdAt == now)
       && (s.description == image.description || s.description == None)
  }

  predicate NewestFirst(snaps: seq<VmSnapshot>) {
    forall i, j :: 0 <= i < j < |snaps| ==> snaps[i].createdAt >= snaps[j].createdAt
  }

  /** Insert behind every entry that is not older. */
  method InsertByAge(sorted: seq<VmSnapshot>, s: VmSnapshot) returns (r: seq<VmSnapshot>)
    requires NewestFirst(sorted)
    ensures NewestFirst(r) && multiset(r) == multiset(sorted) + multiset{s}
  {
    var i := 0;
    while i < |sorted| && sorted[i].createdAt >= s.createdAt
      invariant 0 <= i <= |sorted|
      invariant forall k :: 0 <= k < i ==> sorted[k].createdAt >= s.createdAt
    {
      i := i + 1;
    }
    r := sorted[..i] + [s] + sorted[i..];
    assert sorted == sorted[..i] + sorted[i..];
  }

  method SortNewestFirst(snaps: seq<VmSnapshot>) returns (r: seq<VmSnapshot>)
    ensures NewestFirst(r) && multiset(r) == multiset(snaps)
  {
    r := [];
    for i := 0 to |snaps|
      invariant NewestFirst(r) && multiset(r) == multiset(snaps[..i])
    {
      assert snaps[..i + 1] == snaps[..i] + [snaps[i]];
      r := InsertByAge(r, snaps[i]);
    }
    assert snaps[..|snaps|] == snaps;
  }

  lemma SameEntries(r: seq<VmSnapshot>, a: seq<VmSnapshot>, b: seq<VmSnapshot>)
    requires multiset(r) == multiset(a + b)
    ensures forall s :: s in r <==> s in a || s in b
  {
    forall s
      ensures s in r <==> s in a || s in b
    {
      assert s in r <==> s in multiset(r);
      assert s in a + b <==> s in multiset(a + b);
    }
  }

  class KvmHost {
    var zfs: Zfs
    var images: map<string, RamImage>
    /** Whether the zfs tools are on this host. */
    const installed: bool

    ghost predicate Valid()
      reads this
    {
      HostFits(zfs) && (!installed ==> zfs == map[])
    }

    constructor (zfs: Zfs, images: map<string, RamImage>, installed: bool)
      requires HostFits(zfs) && (!installed ==> zfs == map[])
      ensures Valid() && this.zfs == zfs && this.images == images && this.installed == installed
    {
      this.zfs, this.images, this.installed := zfs, images, installed;
    }

    /** `zfs list` of one dataset's own snapshots, in any order; `runs` is whether the command itself goes through. */
    method RunList(dataset: string, runs: bool) returns (r: Result<Option<string>, ZfsError>, ghost order: seq<string>)
      requires Valid()
      ensures r.Ok? && r.value.None? ==> !installed
      ensures r.Ok? && r.value.Some? ==>
                && installed && dataset in zfs && Enumerates(order, zfs[dataset].Keys)
                && r.value.value == Unlines(RowTexts(dataset, zfs[dataset], order))
      ensures r == Err(MissingDataset) ==> installed && dataset !in zfs
      ensures runs && r.Err? ==> r.error == MissingDataset
      ensures r != Err(AlreadyExists)
    {
      order := [];
      if !installed {
        return Ok(None), order;
      }
      if !runs {
        return Err(OtherFailure), order;
      }
      if dataset !in zfs {
        return Err(MissingDataset), order;
      }
      var todo := zfs[dataset].Keys;
      var listed: seq<string> := [];
      while todo != {}
        invariant todo <= zfs[dataset].Keys
        invariant forall tag :: tag in listed <==> tag in zfs[dataset] && tag !in todo
        invariant forall i, j :: 0 <= i < j < |listed| ==> listed[i] != listed[j]
        decreases todo
      {
        var tag :| tag in todo;
        listed := listed + [tag];
        todo := todo - {tag};
      }
      order := listed;
      return Ok(Some(Unlines(RowTexts(dataset, zfs[dataset], listed)))), order;
    }

    /** The disk snapshots of a VM: exactly the names that every disk carries. Without the tools there are none; a failing
        command is an error, not an empty list. */
    method ListDiskSnapshots(datasets: seq<string>, runs: bool) returns (r: Result<seq<VmSnapshot>, AppError>)
      requires Valid()
      ensures runs ==> r.Ok?
      ensures r.Ok? ==> Lists(r.value, zfs, datasets)
      ensures r.Err? ==> r.error == Hypervisor
    {
      hide HostFits, Lists, Totals, Partial, Enumerates, ParseRow, Merge, Reserved, RowOf, Lines, Unlines;
      var table: Table := map[];
      EmptyTotals(zfs, datasets);
      for n := 0 to |datasets|
        invariant Totals(table, zfs, datasets[..n])
      {
        var out, order := RunList(datasets[n], runs);
        if out.Err? {
          if out.error.MissingDataset? {
            NothingThere(table, zfs, datasets, n);
            continue;
          }
          return Err(Hypervisor);
        }
        if out.value.None? {
          NothingThere(table, zfs, datasets, n);
          continue;
        }
        ghost var before := table;
        RowsRead(zfs, datasets[n], order);
        table := AddRows(table, Lines(out.value.value), zfs[datasets[n]], order);
        PartialDone(table, before, zfs, datasets, n, order);
      }
      assert datasets[..|datasets|] == datasets;
      TotalsNamed(table, zfs, datasets);
      var snaps := Complete(table, |datasets|);
      CompleteLists(table, zfs, datasets, snaps);
      return Ok(snaps);
    }

    /** The memory images that can be read, each once; an unreadable directory ends the listing without an error. */
    method ListImages(now: int) returns (ram: seq<VmSnapshot>)
      ensures forall s :: s in ram ==> FromImage(s, images, now)
      ensures forall i, j :: 0 <= i < j < |ram| ==> ram[i].name != ram[j].name
    {
      ram := [];
      var todo := images.Keys;
      while todo != {}
        invariant todo <= images.Keys
        invariant forall s :: s in ram ==> FromImage(s, images, now) && s.name !in todo
        invariant forall i, j :: 0 <= i < j < |ram| ==> ram[i].name != ram[j].name
        decreases todo
      {
        var stop: bool := *;
        if stop {
          return;
        }
        var name :| name in todo;
        if SafeSnapshot(name) {
          assert forall s :: s in ram ==> s.name != name;
          var inspected: bool := *;
          var dated: bool := *;
          var described: bool := *;
          var image := images[name];
          ram := ram + [VmSnapshot(name, Ram, if inspected then image.bytes else 0,
                                   if described then image.description else None,
                                   if inspected && dated then image.createdAt else now)];
        }
        todo := todo - {name};
      }
    }

    /** The snapshots of a VM: its disk snapshots and the memory images, newest first. */
    method ListSnapshots(datasets: seq<string>, runs: bool, now: int)
      returns (r: Result<seq<VmSnapshot>, AppError>, ghost disk: seq<VmSnapshot>, ghost ram: seq<VmSnapshot>)
      requires Valid()
      ensures r.Ok? ==>
                && NewestFirst(r.value) && multiset(r.value) == multiset(disk + ram)
                && Lists(disk, zfs, datasets)
                && (forall s :: s in ram ==> FromImage(s, images, now))
                && (forall i, j :: 0 <= i < j < |ram| ==> ram[i].name != ram[j].name)
      ensures r.Err? ==> r.error == Hypervisor && !runs
    {
      hide Lists, HostFits, FromImage;
      var listed := ListDiskSnapshots(datasets, runs);
      if listed.Err? {
        return listed, [], [];
      }
      var readable := ListImages(now);
      var snaps := SortNewestFirst(listed.value + readable);
      return Ok(snaps), listed.value, readable;
    }

    /** Whether every dataset has the snapshot; a VM without disks has none, and a failing tool is an error. */
    method SnapshotOnAllDisks(datasets: seq<string>, tag: string) returns (r: Result<bool, AppError>)
      requires Valid()
      ensures r.Ok? ==> r.value == OnEvery(zfs, datasets, tag)
      ensures r.Ok? && datasets != [] ==> installed
    {
      if datasets == [] {
        return Ok(false);
      }
      for n := 0 to |datasets|
        invariant forall i :: 0 <= i < n ==> On(zfs, datasets[i], tag)
        invariant n > 0 ==> installed
      {
        if !installed {
          return Err(Hypervisor);
        }
        var runs: bool := *;
        if !runs {
          return Err(Hypervisor);
        }
        if !On(zfs, datasets[n], tag) {
          return Ok(false);
        }
      }
      return Ok(true);
    }

    /** One `zfs snapshot` over all targets. It succeeds exactly when every target can be created and is, and the success is
        reported; otherwise any of them may have been created. */
    method RunSnapshot(datasets: seq<string>, tag: string, created: seq<bool>, answered: bool) returns (r: Result<(), ZfsError>)
      requires Valid() && NoControl(tag) && forall d :: d in datasets ==> NoControl(d) && '@' !in d
      requires datasets != [] && |created| >= |datasets|
      modifies this`zfs
      ensures Valid() && OthersKept(old(zfs), zfs, datasets, tag)
      ensures r.Ok? <==> Succeeds(old(zfs), datasets, tag, created, answered)
      ensures forall d :: On(zfs, d, tag) <==> Attempted(old(zfs), datasets, tag, created, d)
    {
      hide HostFits, OthersKept, SnapFits, NoControl;
      NothingChanged(zfs, datasets, tag);
      r := if answered then Ok(()) else Err(OtherFailure);
      for n := 0 to |datasets|
        invariant Valid() && OthersKept(old(zfs), zfs, datasets, tag) && zfs.Keys == old(zfs).Keys
        invariant r.Ok? <==> Succeeds(old(zfs), datasets[..n], tag, created, answered)
        invariant forall d :: On(zfs, d, tag) <==> Attempted(old(zfs), datasets[..n], tag, created, d)
      {
        var d := datasets[n];
        CaptureStep(old(zfs), datasets, tag, created, answered, n);
        if d !in zfs {
          r := Err(MissingDataset);
        } else if On(zfs, d, tag) {
          r := Err(AlreadyExists);
        } else if !created[n] {
          r := Err(OtherFailure);
        } else {
          var snap := NewSnap();
          PutKept(zfs, d, tag, snap, datasets);
          KeptFurther(old(zfs), zfs, zfs[d := zfs[d][tag := snap]], datasets, tag);
          zfs := zfs[d := zfs[d][tag := snap]];
        }
      }
      assert datasets[..|datasets|] == datasets;
    }

    /** Sizes and times are the host's business. */
    method NewSnap() returns (snap: ZfsSnap)
      ensures SnapFits(snap)
    {
      assert SnapFits(ZfsSnap(0, 0, "-"));
      snap :| SnapFits(snap);
    }

    /** `zfs destroy` of one target; `works` is whether the command succeeds on a snapshot that exists. */
    method Destroy(dataset: string, tag: string, works: bool, ghost datasets: seq<string>) returns (ok: bool)
      requires Valid() && dataset in datasets
      modifies this`zfs
      ensures Valid() && OthersKept(old(zfs), zfs, datasets, tag)
      ensures ok <==> works && On(old(zfs), dataset, tag)
      ensures !ok ==> zfs == old(zfs)
      ensures forall d :: On(zfs, d, tag) <==> On(old(zfs), d, tag) && !(ok && d == dataset)
    {
      hide HostFits, OthersKept;
      NothingChanged(zfs, datasets, tag);
      if !works || !On(zfs, dataset, tag) {
        return false;
      }
      RemoveKept(zfs, dataset, tag, datasets);
      zfs := zfs[dataset := zfs[dataset] - {tag}];
      return true;
    }

    /** Destroy every target, ignoring failures: the name is gone exactly where some destroy command works. */
    method CleanUp(datasets: seq<string>, tag: string, works: seq<bool>)
      requires Valid() && |works| >= |datasets|
      modifies this`zfs
      ensures Valid() && OthersKept(old(zfs), zfs, datasets, tag)
      ensures forall d :: On(zfs, d, tag) <==> On(old(zfs), d, tag) && !SomeFor(datasets, works, d)
    {
      hide HostFits, OthersKept;
      NothingChanged(zfs, datasets, tag);
      for n := 0 to |datasets|
        invariant Valid() && OthersKept(old(zfs), zfs, datasets, tag)
        invariant forall d :: On(zfs, d, tag) <==> On(old(zfs), d, tag) && !SomeFor(datasets[..n], works, d)
      {
        ghost var before := zfs;
        SomeForStep(datasets, works, n);
        var _ := Destroy(datasets[n], tag, works[n], datasets);
        KeptFurther(old(zfs), before, zfs, datasets, tag);
      }
      assert datasets[..|datasets|] == datasets;
    }

    /** Store the description on every target, ignoring failures; `sets` is which of the commands work. */
    method Annotate(datasets: seq<string>, tag: string, text: string, sets: seq<bool>)
      requires Valid() && |sets| >= |datasets| && NoControl(tag) && NoControl(text) && forall d :: d in datasets ==> NoControl(d) && '@' !in d
      modifies this`zfs
      ensures Valid() && OthersKept(old(zfs), zfs, datasets, tag)
      ensures forall d :: On(zfs, d, tag) <==> On(old(zfs), d, tag)
      ensures forall d :: On(zfs, d, tag) ==>
                zfs[d][tag] == if SomeFor(datasets, sets, d) then old(zfs)[d][tag].(description := text) else old(zfs)[d][tag]
    {
      hide HostFits, OthersKept, NoControl;
      NothingChanged(zfs, datasets, tag);
      for n := 0 to |datasets|
        invariant Valid() && OthersKept(old(zfs), zfs, datasets, tag)
        invariant forall d :: On(zfs, d, tag) <==> On(old(zfs), d, tag)
        invariant forall d :: On(zfs, d, tag) ==>
                    zfs[d][tag] == if SomeFor(datasets[..n], sets, d) then old(zfs)[d][tag].(description := text)
                                   else old(zfs)[d][tag]
      {
        var d := datasets[n];
        SomeForStep(datasets, sets, n);
        if sets[n] && On(zfs, d, tag) {
          var snap := zfs[d][tag].(description := text);
          assert SnapFits(snap) by {
            OneFits(zfs, d, tag);
          }
          PutKept(zfs, d, tag, snap, datasets);
          KeptFurther(old(zfs), zfs, zfs[d := zfs[d][tag := snap]], datasets, tag);
          zfs := zfs[d := zfs[d][tag := snap]];
        }
      }
      assert datasets[..|datasets|] == datasets;
    }

    /** Store a description, made fit for the table it is read back from, on every target. */
    method Describe(datasets: seq<string>, tag: string, given: string, sets: seq<bool>)
      requires Valid() && |sets| >= |datasets|
      requires NoControl(tag) && forall d :: d in datasets ==> NoControl(d) && '@' !in d
      requires forall i :: 0 <= i < |datasets| ==> On(zfs, datasets[i], tag)
      modifies this`zfs
      ensures Valid() && OthersKept(old(zfs), zfs, datasets, tag)
      ensures forall d :: On(zfs, d, tag) <==> On(old(zfs), d, tag)
      ensures (forall i :: 0 <= i < |datasets| ==> sets[i]) ==> Annotated(zfs, datasets, tag, Sanitized(given))
    {
      hide HostFits, OthersKept, NoControl, Annotated, SomeFor, Sanitized;
      Annotate(datasets, tag, Sanitized(given), sets);
      if forall i :: 0 <= i < |datasets| ==> sets[i] {
        AllAnnotated(old(zfs), zfs, datasets, tag, Sanitized(given), sets);
      }
    }

    /** Take a snapshot of every disk under one name. A name already complete is refused untouched; once the capture has been
        attempted, which disks carry the name is determined by what was there and by the host's answers. */
    method CreateDiskSnapshot(disks: seq<string>, name: string, description: Option<string>, answers: HostAnswers, now: int)
      returns (r: Result<VmSnapshot, AppError>, ghost datasets: seq<string>, ghost outcome: Outcome)
      requires Valid() && |answers.created| >= |disks| && |answers.works| >= |disks| && |answers.sets| >= |disks|
      modifies this`zfs
      ensures Valid() && OthersKept(old(zfs), zfs, datasets, name) && AnswersFit(answers, datasets)
      ensures SnapshotDatasets(disks).Ok? ==> datasets == SnapshotDatasets(disks).value
      ensures !SafeSnapshot(name) || SnapshotDatasets(disks).Err? || datasets == [] ==> r == Err(Validation) && outcome == Refused
      ensures OnEvery(old(zfs), datasets, name) ==> outcome == Refused
      ensures SafeSnapshot(name) && datasets != [] && answers.lists && !OnEvery(old(zfs), datasets, name) && name !in images ==>
                outcome != Refused
      ensures outcome == Refused ==> r.Err? && zfs == old(zfs)
      ensures outcome != Refused ==>
                && (outcome == Captured <==> Succeeds(old(zfs), datasets, name, answers.created, answers.answered))
                && forall d :: On(zfs, d, name) <==> CarriedAfter(old(zfs), datasets, name, answers, d)
      ensures r.Ok? ==> outcome == Captured && r.value.name == name
                        && (Faithful(r.value, zfs, datasets) || FromImage(r.value, images, now))
      ensures outcome == Captured && answers.relists ==> r.Ok?
      ensures r.Ok? && name !in images && description.Some? && Trim(description.value) != ""
              && (forall i :: 0 <= i < |datasets| ==> answers.sets[i]) ==>
                ShownAs(r.value.description, description.value)
    {
      hide HostFits, OthersKept, SafeDataset, SafeSnapshot, Reserved, NoControl, Faithful, SnapshotDatasets, OnEvery, OnNone, Lists,
           FromImage, NewestFirst, Succeeds, Attempted, SomeFor,
           Annotated, ShownAs, Sanitized, Trim;
      outcome := Refused;
      var found := SnapshotDatasets(disks);
      var targets := if found.Ok? then found.value else [];
      datasets := targets;
      NothingChanged(zfs, datasets, name);
      var safe := EnsureSafe(name);
      if !safe || found.Err? || targets == [] {
        return Err(Validation), datasets, outcome;
      }
      var present, disk, ram := ListSnapshots(targets, answers.lists, now);
      if present.Err? {
        return Err(present.error), datasets, outcome;
      }
      SameEntries(present.value, disk, ram);
      NamesFit(name);
      NameListed(disk, zfs, datasets, name);
      if name !in images {
        NotAnImage(ram, images, name, now);
      }
      var taken := FindName(present.value, name);
      if taken.Some? {
        return Err(Conflict), datasets, outcome;
      }
      TargetsFit(targets, name);
      var capture := RunSnapshot(targets, name, answers.created, answers.answered);
      ghost var captured := zfs;
      if capture.Err? {
        CleanUp(targets, name, answers.works);
        KeptFurther(old(zfs), captured, zfs, datasets, name);
        outcome := NotCaptured;
        return Err(if capture.error.AlreadyExists? then Conflict else Hypervisor), datasets, outcome;
      }
      outcome := Captured;
      CapturedEverywhere(old(zfs), zfs, datasets, name, answers);
      if description.Some? && Trim(description.value) != "" {
        Describe(targets, name, description.value, answers.sets);
        KeptFurther(old(zfs), captured, zfs, datasets, name);
      }
      EveryTarget(zfs, datasets, name);
      var listed, diskNow, ramNow := ListSnapshots(targets, answers.relists, now);
      if listed.Err? {
        return Err(listed.error), datasets, outcome;
      }
      SameEntries(listed.value, diskNow, ramNow);
      NameListed(diskNow, zfs, datasets, name);
      var made := FindName(listed.value, name);
      if made.None? {
        return Err(Internal), datasets, outcome;
      }
      MadeShown(diskNow, ramNow, zfs, datasets, images, now, made.value, description);
      return Ok(made.value), datasets, outcome;
    }
  }

  lemma SomeForStep(datasets: seq<string>, flags: seq<bool>, n: nat)
    requires n < |datasets| <= |flags|
    ensures forall d :: SomeFor(datasets[..n + 1], flags, d) <==>
                        SomeFor(datasets[..n], flags, d) || (d == datasets[n] && flags[n])
  {
    forall d
      ensures SomeFor(datasets[..n + 1], flags, d) <==> SomeFor(datasets[..n], flags, d) || (d == datasets[n] && flags[n])
    {
      if SomeFor(datasets[..n], flags, d) {
        var i :| 0 <= i < n && datasets[..n][i] == d && flags[i];
        assert datasets[..n + 1][i] == d;
      }
      if d == datasets[n] && flags[n] {
        assert datasets[..n + 1][n] == d;
      }
      if SomeFor(datasets[..n + 1], flags, d) {
        var i :| 0 <= i <= n && datasets[..n + 1][i] == d && flags[i];
        assert i < n ==> datasets[..n][i] == d;
      }
    }
  }

  /** One more target of the capture. */
  lemma CaptureStep(zfs: Zfs, datasets: seq<string>, tag: string, created: seq<bool>, answered: bool, n: nat)
    requires n < |datasets| <= |created|
    ensures forall d :: Attempted(zfs, datasets[..n + 1], tag, created, d) <==>
                        Attempted(zfs, datasets[..n], tag, created, d) || (d == datasets[n] && d in zfs && created[n])
    ensures Succeeds(zfs, datasets[..n + 1], tag, created, answered) <==>
            && Succeeds(zfs, datasets[..n], tag, created, answered)
            && datasets[n] in zfs && !Attempted(zfs, datasets[..n], tag, created, datasets[n]) && created[n]
  {
    SomeForStep(datasets, created, n);
    var before, after := datasets[..n], datasets[..n + 1];
    assert forall i :: 0 <= i < n ==> after[i] == before[i];
    assert after[n] == datasets[n];
    if Succeeds(zfs, before, tag, created, answered) {
      assert SomeFor(before, created, datasets[n]) <==> exists i :: 0 <= i < n && before[i] == datasets[n];
    }
    if Succeeds(zfs, after, tag, created, answered) {
      assert Succeeds(zfs, before, tag, created, answered);
      assert forall i :: 0 <= i < n ==> before[i] != datasets[n];
    }
  }

  lemma CapturedEverywhere(before: Zfs, after: Zfs, datasets: seq<string>, tag: string, answers: HostAnswers)
    requires AnswersFit(answers, datasets) && Succeeds(before, datasets, tag, answers.created, answers.answered)
    requires forall d :: On(after, d, tag) <==> Attempted(before, datasets, tag, answers.created, d)
    ensures forall i :: 0 <= i < |datasets| ==> On(after, datasets[i], tag)
    ensures forall d :: On(after, d, tag) <==> CarriedAfter(before, datasets, tag, answers, d)
  {
    forall i | 0 <= i < |datasets|
      ensures SomeFor(datasets, answers.created, datasets[i])
    {
      assert answers.created[i];
    }
  }

  lemma NotAnImage(ram: seq<VmSnapshot>, images: map<string, RamImage>, name: string, now: int)
    requires (forall s :: s in ram ==> FromImage(s, images, now)) && name !in images
    ensures forall s :: s in ram ==> s.name != name
  {
  }

  method FindName(snaps: seq<VmSnapshot>, name: string) returns (r: Option<VmSnapshot>)
    ensures r.Some? ==> r.value in snaps && r.value.name == name
    ensures r.None? ==> forall s :: s in snaps ==> s.name != name
  {
    for i := 0 to |snaps|
      invariant forall k :: 0 <= k < i ==> snaps[k].name != name
    {
      if snaps[i].name == name {
        return Some(snaps[i]);
      }
    }
    return None;
  }

  lemma NameListed(snaps: seq<VmSnapshot>, zfs: Zfs, datasets: seq<string>, name: string)
    requires Lists(snaps, zfs, datasets) && !Reserved(name)
    ensures (exists s :: s in snaps && s.name == name) <==> OnEvery(zfs, datasets, name)
  {
    hide OnEvery, Reserved, Faithful;
  }

  lemma ListedFaithful(snaps: seq<VmSnapshot>, zfs: Zfs, datasets: seq<string>, s: VmSnapshot)
    requires Lists(snaps, zfs, datasets) && s in snaps
    ensures Faithful(s, zfs, datasets)
  {
    hide OnEvery, Reserved, Faithful;
  }

  lemma EveryTarget(zfs: Zfs, datasets: seq<string>, name: string)
    requires datasets != [] && forall i :: 0 <= i < |datasets| ==> On(zfs, datasets[i], name)
    ensures OnEvery(zfs, datasets, name)
  {
  }

  lemma TargetsFit(targets: seq<string>, name: string)
    requires SafeSnapshot(name) && forall d :: d in targets ==> SafeDataset(d)
    ensures NoControl(name) && forall d :: d in targets ==> NoControl(d) && '@' !in d
  {
    hide SafeSnapshot, SafeDataset, NoControl;
    NamesFit(name);
    forall d | d in targets
      ensures NoControl(d) && '@' !in d
    {
      NamesFit(d);
    }
  }

  /** What the list shows of a description: its control characters replaced by spaces, and trimmed; nothing if that leaves
      nothing, or a lone hyphen. */
  ghost predicate ShownAs(shown: Option<string>, given: string) {
    exists spaced: string ::
      && |spaced| == |given|
      && (forall i :: 0 <= i < |given| ==> spaced[i] == if IsControl(given[i]) then ' ' else given[i])
      && shown == if Trim(spaced) == "" || Trim(spaced) == "-" then None else Some(Trim(spaced))
  }

  /** Every target carries the name with this description. */
  ghost predicate Annotated(zfs: Zfs, datasets: seq<string>, tag: string, text: string) {
    forall i :: 0 <= i < |datasets| ==> On(zfs, datasets[i], tag) && zfs[datasets[i]][tag].description == text
  }

  lemma AllAnnotated(before: Zfs, after: Zfs, datasets: seq<string>, tag: string, text: string, sets: seq<bool>)
    requires |sets| >= |datasets| && forall i :: 0 <= i < |datasets| ==> sets[i]
    requires forall i :: 0 <= i < |datasets| ==> On(before, datasets[i], tag)
    requires forall d :: On(after, d, tag) <==> On(before, d, tag)
    requires forall d :: On(after, d, tag) && On(before, d, tag) ==>
               after[d][tag] == if SomeFor(datasets, sets, d) then before[d][tag].(description := text) else before[d][tag]
    ensures Annotated(after, datasets, tag, text)
  {
    forall i | 0 <= i < |datasets|
      ensures On(after, datasets[i], tag) && after[datasets[i]][tag].description == text
    {
      assert SomeFor(datasets, sets, datasets[i]);
    }
  }

  lemma AnnotationShown(zfs: Zfs, datasets: seq<string>, s: VmSnapshot, given: string)
    requires Faithful(s, zfs, datasets) && Annotated(zfs, datasets, s.name, Sanitized(given))
    ensures ShownAs(s.description, given)
  {
    hide SumUsed, IsControl, Trim, NoControl;
    assert |Spaced(given)| == |given|;
    assert Sanitized(given) == Trim(Spaced(given));
  }

  /** The entry read back is faithful, and shows the description when that is stored on every target. */
  lemma MadeShown(disk: seq<VmSnapshot>, ram: seq<VmSnapshot>, zfs: Zfs, datasets: seq<string>, images: map<string, RamImage>,
                  now: int, made: VmSnapshot, description: Option<string>)
    requires Lists(disk, zfs, datasets) && (forall s :: s in ram ==> FromImage(s, images, now))
    requires made in disk || made in ram
    ensures Faithful(made, zfs, datasets) || FromImage(made, images, now)
    ensures made.name !in images && description.Some? && Annotated(zfs, datasets, made.name, Sanitized(description.value)) ==>
              ShownAs(made.description, description.value)
  {
    hide Lists, Faithful, Annotated, ShownAs, Sanitized;
    if made in disk {
      ListedFaithful(disk, zfs, datasets, made);
      if description.Some? && Annotated(zfs, datasets, made.name, Sanitized(description.value)) {
        AnnotationShown(zfs, datasets, made, description.value);
      }
    }
  }

  function Spaced(s: string): (r: string)
    ensures |r| == |s| && NoControl(r)
    ensures forall i :: 0 <= i < |s| ==> r[i] == if IsControl(s[i]) then ' ' else s[i]
  {
    if s == [] then [] else Spaced(s[..|s| - 1]) + [if IsControl(s[|s| - 1]) then ' ' else s[|s| - 1]]
  }

  /** Control characters would break the table the description is read back from. */
  function Sanitized(s: string): (r: string)
    ensures NoControl(r)
  {
    var t := Spaced(s);
    assert TrimStart(t) == t[|t| - |TrimStart(t)|..];
    Trim(t)
  }

  lemma NothingChanged(zfs: Zfs, datasets: seq<string>, tag: string)
    ensures OthersKept(zfs, zfs, datasets, tag)
  {
  }

  lemma OneFits(zfs: Zfs, d: string, tag: string)
    requires HostFits(zfs) && On(zfs, d, tag)
    ensures SnapFits(zfs[d][tag])
  {
  }
}
