/** Path-scoped access control: roles granted on resource paths, and the permissions a caller holds at a path. */
module Acl {
  import opened Wrappers
  import opened Text
  import opened Collections
  import opened Store
  import opened Accounts

  // ----- paths -----

  predicate GoodSegment(segment: string) {
    segment != "" && segment != "." && segment != ".." && Plain(segment)
  }

  predicate AllGood(segments: seq<string>) {
    forall i :: 0 <= i < |segments| ==> GoodSegment(segments[i])
  }

  /** A single leading slash, no trailing one except the bare root, and no empty, dotted or blank segments. */
  function NormalizePath(path: string): Result<string, AppError> {
    var trimmed := Trim(path);
    if trimmed == "" then Err(Validation)
    else
      var rooted := if trimmed[0] == '/' then trimmed else "/" + trimmed;
      var normalized := if |rooted| > 1 then TrimEndSlashes(rooted) else rooted;
      if normalized == "" then Err(Validation)
      else if normalized == "/" then Ok(normalized)
      else
        if AllGood(Split(normalized, '/')[1..]) then Ok(normalized) else Err(Validation)
  }

  /** Whether a grant on `grantPath` covers `target`. */
  predicate PathCovers(grantPath: string, target: string, propagate: bool) {
    if grantPath == target then true
    else if !propagate then false
    else if grantPath == "/" then true
    else StartsWith(target, grantPath + "/")
  }

  // ----- paths as lists of segments -----

  predicate IsSegment(s: string) {
    s != "" && '/' !in s
  }

  predicate AreSegments(segs: seq<string>) {
    forall i :: 0 <= i < |segs| ==> IsSegment(segs[i])
  }

  /** The path with these segments. */
  function PathOf(segs: seq<string>): string {
    if segs == [] then "/" else Join([""] + segs, '/')
  }

  /** The segments of a path. */
  function Segments(path: string): seq<string> {
    if path == "/" then [] else Split(path, '/')[1..]
  }

  /** A path that is written from its segments. */
  predicate IsPath(path: string) {
    AreSegments(Segments(path)) && path == PathOf(Segments(path))
  }

  lemma SegmentsOfPath(segs: seq<string>)
    requires AreSegments(segs)
    ensures Segments(PathOf(segs)) == segs
    ensures IsPath(PathOf(segs))
  {
    if segs != [] {
      var parts := [""] + segs;
      SplitOfJoin(parts, '/');
      assert parts[1..] == segs;
      PathLength(segs);
    }
  }

  /** A path with segments is longer than the bare root. */
  lemma PathLength(segs: seq<string>)
    requires segs != [] && AreSegments(segs)
    ensures |PathOf(segs)| > 1 && PathOf(segs)[0] == '/' && PathOf(segs) == "/" + Join(segs, '/')
  {
    assert ([""] + segs)[1..] == segs;
    assert IsSegment(segs[0]);
    assert |Join(segs, '/')| >= |segs[0]|;
    assert PathOf(segs) == [] + ['/'] + Join(segs, '/');
  }

  lemma PathsEqual(a: string, b: string)
    requires IsPath(a) && IsPath(b) && Segments(a) == Segments(b)
    ensures a == b
  {
  }

  /** Writing a longer list of segments extends the text of the shorter one by a slash and the rest. */
  lemma PathExtends(segs: seq<string>, more: seq<string>)
    requires segs != [] && more != []
    ensures PathOf(segs + more) == PathOf(segs) + "/" + Join(more, '/')
  {
    assert [""] + (segs + more) == ([""] + segs) + more;
    JoinAppend([""] + segs, more, '/');
  }

  /** The fast prefix test on text is the prefix test on segments. */
  lemma CoversIsPrefix(grantPath: string, target: string)
    requires IsPath(grantPath) && IsPath(target)
    ensures PathCovers(grantPath, target, true) <==> Segments(grantPath) <= Segments(target)
    ensures PathCovers(grantPath, target, false) <==> Segments(grantPath) == Segments(target)
  {
    var g, t := Segments(grantPath), Segments(target);
    if g == t {
      PathsEqual(grantPath, target);
    } else if g != [] {
      if g <= t {
        var more := t[|g|..];
        assert t == g + more;
        PathExtends(g, more);
      } else if StartsWith(target, grantPath + "/") {
        TextPrefix(grantPath, target);
        assert false;
      }
    }
  }

  lemma TextPrefix(grantPath: string, target: string)
    requires IsPath(grantPath) && IsPath(target) && Segments(grantPath) != []
    requires StartsWith(target, grantPath + "/")
    ensures Segments(grantPath) <= Segments(target)
  {
    var g, rest := Segments(grantPath), target[|grantPath| + 1..];
    assert grantPath == PathOf(g) && AreSegments(g);
    hide Split, Join, PathOf, IsSegment, IsPath, AreSegments, Segments;
    assert target == grantPath + "/" + rest;
    var tail := Split(rest, '/');
    PathThen(g, rest);
    assert [""] + (g + tail) == ([""] + g) + tail;
    SegmentsAfterRoot(target, g + tail, ([""] + g) + tail);
  }

  /** A path with more text behind a slash is split into its segments and the pieces of that text. */
  lemma PathThen(g: seq<string>, rest: string)
    requires g != [] && AreSegments(g)
    ensures Split(PathOf(g) + "/" + rest, '/') == ([""] + g) + Split(rest, '/')
  {
    var parts, tail := [""] + g, Split(rest, '/');
    assert PathOf(g) == Join(parts, '/');
    NoSlashInParts(g, rest);
    hide Split, Join, PathOf, AreSegments;
    JoinOfSplit(rest, '/');
    JoinAppend(parts, tail, '/');
    SplitOfJoin(parts + tail, '/');
  }

  lemma SegmentsAfterRoot(target: string, segs: seq<string>, parts: seq<string>)
    requires Split(target, '/') == parts && parts == [""] + segs && |segs| > 1
    ensures Segments(target) == segs
  {
    assert parts[1..] == segs;
  }

  lemma NoSlashInParts(g: seq<string>, rest: string)
    requires AreSegments(g)
    ensures var all := [""] + g + Split(rest, '/');
            forall i :: 0 <= i < |all| ==> '/' !in all[i]
  {
    var parts, tail := [""] + g, Split(rest, '/');
    forall i | 0 <= i < |parts + tail|
      ensures '/' !in (parts + tail)[i]
    {
      if 1 <= i < |parts| {
        assert IsSegment(g[i - 1]);
      }
    }
  }

  /** Coverage by propagating grants is a partial order. */
  lemma CoverageIsPartialOrder(a: string, b: string, c: string)
    requires IsPath(a) && IsPath(b) && IsPath(c)
    ensures PathCovers(a, a, true)
    ensures PathCovers(a, b, true) && PathCovers(b, a, true) ==> a == b
    ensures PathCovers(a, b, true) && PathCovers(b, c, true) ==> PathCovers(a, c, true)
  {
    hide PathCovers, IsPath, Segments;
    CoversIsPrefix(a, a);
    CoversIsPrefix(a, b);
    CoversIsPrefix(b, a);
    CoversIsPrefix(b, c);
    CoversIsPrefix(a, c);
    if PathCovers(a, b, true) && PathCovers(b, a, true) {
      assert Segments(a) == Segments(b);
      PathsEqual(a, b);
    }
  }

  // ----- normalization -----

  /** The paths that normalization leaves alone. */
  predicate Normal(path: string) {
    IsPath(path) && AllGood(Segments(path))
  }

  /** A rooted text whose pieces are good segments is a normal path. */
  lemma RootedIsNormal(q: string)
    requires q != "" && q[0] == '/' && q != "/"
    requires AllGood(Split(q, '/')[1..])
    ensures Normal(q)
  {
    hide GoodSegment;
    var parts := Split(q, '/');
    JoinOfSplit(q, '/');
    SplitFirst("", '/', q[1..]);
    assert q == "" + ['/'] + q[1..];
    assert parts[0] == "" && |parts| > 1;
    assert parts == [""] + parts[1..];
    forall i | 0 <= i < |parts[1..]|
      ensures IsSegment(parts[1..][i])
    {
      assert GoodSegment(parts[1..][i]);
      GoodIsNotEmpty(parts[1..][i]);
    }
  }

  lemma GoodIsNotEmpty(s: string)
    requires GoodSegment(s)
    ensures s != ""
  {
  }

  /** Whatever normalization returns is a normal path. */
  lemma NormalizeIsNormal(path: string)
    requires NormalizePath(path).Ok?
    ensures Normal(NormalizePath(path).value)
  {
    hide AllGood, Normal, Trim;
    var q := NormalizePath(path).value;
    if q == "/" {
      RootIsNormal();
    } else {
      assert q[0] == '/';
      RootedIsNormal(q);
    }
  }

  lemma RootIsNormal()
    ensures Normal("/")
  {
  }

  /** A normal path is returned unchanged, so normalization is idempotent. */
  lemma NormalizeFixesNormal(path: string)
    requires Normal(path)
    ensures NormalizePath(path) == Ok(path)
  {
    var segs := Segments(path);
    if segs == [] {
      assert path == "/";
      TrimOfTrimmed(path);
    } else {
      PathLength(segs);
      var last := segs[|segs| - 1];
      LastCharacter([""] + segs);
      assert path[|path| - 1] == last[|last| - 1];
      assert GoodSegment(last);
      assert last[|last| - 1] in last;
      assert IsSegment(last);
      TrimOfTrimmed(path);
      assert TrimEndSlashes(path) == path;
    }
  }

  lemma {:induction false} LastCharacter(parts: seq<string>)
    requires |parts| >= 1 && parts[|parts| - 1] != ""
    ensures var text, last := Join(parts, '/'), parts[|parts| - 1];
            text != "" && text[|text| - 1] == last[|last| - 1]
  {
    if |parts| > 1 {
      LastCharacter(parts[1..]);
    }
  }

  lemma NormalizeIdempotent(path: string)
    requires NormalizePath(path).Ok?
    ensures NormalizePath(NormalizePath(path).value) == NormalizePath(path)
  {
    hide NormalizePath, Normal;
    NormalizeIsNormal(path);
    NormalizeFixesNormal(NormalizePath(path).value);
  }

  lemma NormalizeErrors(path: string)
    ensures NormalizePath(path).Err? ==> NormalizePath(path).error == Validation
  {
  }

  predicate OnlySlashes(s: string) {
    forall i :: 0 <= i < |s| ==> s[i] == '/'
  }

  /** A text that spells these segments: the bare root, or the segments with or without a slash in front and with any
      number of slashes behind. */
  ghost predicate Spells(text: string, segs: seq<string>) {
    if segs == [] then text == "/"
    else exists slashes: string ::
           && OnlySlashes(slashes)
           && (text == "/" + Join(segs, '/') + slashes || text == Join(segs, '/') + slashes)
  }

  /** Normalization accepts exactly the texts that, trimmed, spell good segments, and returns the path of those segments. */
  lemma NormalizeExactly(path: string, segs: seq<string>)
    requires AreSegments(segs)
    ensures NormalizePath(path) == Ok(PathOf(segs)) <==> AllGood(segs) && Spells(Trim(path), segs)
  {
    hide Trim, PathOf, AllGood, Spells, NormalizePath, AreSegments;
    if segs == [] {
      OnlyRootIsRoot(path);
    } else {
      if AllGood(segs) && Spells(Trim(path), segs) {
        SpelledIsAccepted(path, segs);
      }
      if NormalizePath(path) == Ok(PathOf(segs)) {
        AcceptedIsSpelled(path, segs);
      }
    }
  }

  lemma SpelledIsAccepted(path: string, segs: seq<string>)
    requires segs != [] && AreSegments(segs) && AllGood(segs) && Spells(Trim(path), segs)
    ensures NormalizePath(path) == Ok(PathOf(segs))
  {
    hide Trim, Join, Split, AllGood, PathOf, AreSegments;
    var trimmed := Trim(path);
    var slashes: string :| OnlySlashes(slashes)
                           && (trimmed == "/" + Join(segs, '/') + slashes || trimmed == Join(segs, '/') + slashes);
    SpelledIsRead(segs, trimmed, slashes);
    PathLength(segs);
    SegmentsOfPath(segs);
  }

  lemma AcceptedIsSpelled(path: string, segs: seq<string>)
    requires segs != [] && AreSegments(segs) && NormalizePath(path) == Ok(PathOf(segs))
    ensures AllGood(segs) && Spells(Trim(path), segs)
  {
    hide Trim, Join, Split, AllGood, PathOf, AreSegments, NormalizePath, OnlySlashes;
    var trimmed, q := Trim(path), PathOf(segs);
    PathLength(segs);
    SegmentsOfPath(segs);
    var slashes := AcceptedMeans(path);
    if trimmed != q + slashes {
      assert q + slashes == "/" + trimmed;
      assert trimmed == ("/" + trimmed)[1..] == (q + slashes)[1..] == q[1..] + slashes;
    }
  }

  /** An accepted path other than the root is the trimmed text, rooted, without the slashes behind. */
  lemma AcceptedMeans(path: string) returns (slashes: string)
    requires NormalizePath(path).Ok? && NormalizePath(path).value != "/"
    ensures var trimmed, q := Trim(path), NormalizePath(path).value;
            && OnlySlashes(slashes) && AllGood(Split(q, '/')[1..])
            && (trimmed == q + slashes || "/" + trimmed == q + slashes)
  {
    hide Trim, Split, AllGood;
    var trimmed, q := Trim(path), NormalizePath(path).value;
    var rooted := if trimmed[0] == '/' then trimmed else "/" + trimmed;
    slashes := rooted[|q|..];
  }

  lemma OnlyRootIsRoot(path: string)
    ensures NormalizePath(path) == Ok(PathOf([])) <==> AllGood([]) && Spells(Trim(path), [])
  {
    hide Trim;
    if Trim(path) != "" {
      SlashesOnly(Trim(path));
    }
  }

  /** With the slashes behind it stripped, a text that spells segments is their path. */
  lemma SpelledIsRead(segs: seq<string>, text: string, slashes: string)
    requires segs != [] && AreSegments(segs) && OnlySlashes(slashes)
    requires text == "/" + Join(segs, '/') + slashes || text == Join(segs, '/') + slashes
    ensures text != ""
    ensures var rooted := if text[0] == '/' then text else "/" + text;
            |rooted| > 1 && TrimEndSlashes(rooted) == PathOf(segs)
  {
    PathLength(segs);
    var q := PathOf(segs);
    FirstCharacter(segs);
    LastCharacter(segs);
    assert IsSegment(segs[0]) && IsSegment(segs[|segs| - 1]);
    assert q[|q| - 1] == Join(segs, '/')[|q| - 2];
    hide Join, PathOf, IsSegment, AreSegments;
    var rooted := if text[0] == '/' then text else "/" + text;
    assert rooted == q + slashes;
    SlashesStripped(q, slashes);
  }

  lemma FirstCharacter(segs: seq<string>)
    requires segs != [] && segs[0] != ""
    ensures Join(segs, '/') != "" && Join(segs, '/')[0] == segs[0][0]
  {
  }

  lemma {:induction false} SlashesStripped(q: string, slashes: string)
    requires q != "" && q[|q| - 1] != '/' && OnlySlashes(slashes)
    ensures TrimEndSlashes(q + slashes) == q
  {
    var text := q + slashes;
    if slashes == "" {
      assert text == q;
    } else {
      assert text[..|text| - 1] == q + slashes[..|slashes| - 1];
      SlashesStripped(q, slashes[..|slashes| - 1]);
    }
  }

  /** Only the bare root normalizes to the root. */
  lemma SlashesOnly(trimmed: string)
    requires trimmed != ""
    ensures var rooted := if trimmed[0] == '/' then trimmed else "/" + trimmed;
            (if |rooted| > 1 then TrimEndSlashes(rooted) else rooted) == "/" <==> trimmed == "/"
  {
  }

  // ----- permissions -----

  datatype Permission = VmRead | VmWrite | VmPower | LxcRead | LxcWrite | LxcPower | StorageRead | StorageWrite
                      | NetworkRead | NetworkWrite | GpuRead | GpuWrite | MetricsRead | OperationsRead | OperationsWrite
                      | BackupRead | BackupWrite | PoolRead | PoolWrite | NotificationRead | NotificationWrite | TlsRead
                      | TlsWrite | AuditRead | UserAdmin

  function Granted(role: Role): seq<Permission> {
    match role
    case Admin =>
      [VmRead, VmWrite, VmPower, LxcRead, LxcWrite, LxcPower, StorageRead, StorageWrite, NetworkRead, NetworkWrite,
       GpuRead, GpuWrite, MetricsRead, OperationsRead, OperationsWrite, BackupRead, BackupWrite, PoolRead, PoolWrite,
       NotificationRead, NotificationWrite, TlsRead, TlsWrite, AuditRead, UserAdmin]
    case Operator =>
      [VmRead, VmWrite, VmPower, LxcRead, LxcWrite, LxcPower, StorageRead, StorageWrite, NetworkRead, NetworkWrite,
       GpuRead, GpuWrite, MetricsRead, OperationsRead, OperationsWrite, BackupRead, BackupWrite, PoolRead, PoolWrite,
       NotificationRead, NotificationWrite, TlsRead]
    case Viewer =>
      [VmRead, LxcRead, StorageRead, NetworkRead, GpuRead, MetricsRead, OperationsRead, BackupRead, PoolRead,
       NotificationRead, TlsRead]
  }

  /** Reading a resource, its operations or its metrics; the audit log is not among them. */
  predicate Reads(p: Permission) {
    || p.VmRead? || p.LxcRead? || p.StorageRead? || p.NetworkRead? || p.GpuRead? || p.MetricsRead? || p.OperationsRead?
    || p.BackupRead? || p.PoolRead? || p.NotificationRead? || p.TlsRead?
  }

  /** What a role is for: a viewer looks, an operator does everything except certificates, audit and accounts, an
      administrator does everything. */
  predicate Allows(role: Role, p: Permission) {
    match role
    case Viewer => Reads(p)
    case Operator => p != TlsWrite && p != AuditRead && p != UserAdmin
    case Admin => true
  }

  lemma GrantedMeans(role: Role, p: Permission)
    ensures p in Granted(role) <==> Allows(role, p)
  {
    match role
    case Viewer =>
      GrantedToViewer(p);
    case Operator =>
      GrantedToOperator(p);
      DeniedToOperator();
    case Admin =>
      GrantedToAdmin(p);
  }

  lemma GrantedToViewer(p: Permission)
    ensures p in Granted(Viewer) <==> Reads(p)
  {
  }

  lemma GrantedToOperator(p: Permission)
    ensures p in Granted(Operator) || p == TlsWrite || p == AuditRead || p == UserAdmin
  {
  }

  lemma DeniedToOperator()
    ensures TlsWrite !in Granted(Operator) && AuditRead !in Granted(Operator) && UserAdmin !in Granted(Operator)
  {
  }

  lemma GrantedToAdmin(p: Permission)
    ensures p in Granted(Admin)
  {
  }

  ghost predicate NoRepeats<T>(s: seq<T>) {
    forall i, j :: 0 <= i < j < |s| ==> s[i] != s[j]
  }

  ghost predicate FromRoles(roles: seq<Role>, p: Permission) {
    exists role :: role in roles && Allows(role, p)
  }

  /** The permissions of all the roles together, each listed once. */
  method EffectivePermissions(roles: seq<Role>) returns (perms: seq<Permission>)
    ensures NoRepeats(perms)
    ensures forall p :: p in perms <==> FromRoles(roles, p)
  {
    hide Granted, Allows;
    perms := [];
    for i := 0 to |roles|
      invariant NoRepeats(perms)
      invariant forall p :: p in perms <==> FromRoles(roles[..i], p)
    {
      perms := AddAll(perms, Granted(roles[i]));
      assert forall p :: p in Granted(roles[i]) <==> Allows(roles[i], p) by {
        forall p
          ensures p in Granted(roles[i]) <==> Allows(roles[i], p)
        {
          GrantedMeans(roles[i], p);
        }
      }
      assert roles[..i + 1] == roles[..i] + [roles[i]];
    }
    assert roles[..|roles|] == roles;
  }

  /** Append the entries that are not there yet. */
  method AddAll(perms: seq<Permission>, granted: seq<Permission>) returns (all: seq<Permission>)
    requires NoRepeats(perms)
    ensures NoRepeats(all)
    ensures forall p :: p in all <==> p in perms || p in granted
  {
    all := perms;
    for i := 0 to |granted|
      invariant NoRepeats(all)
      invariant forall p :: p in all <==> p in perms || p in granted[..i]
    {
      if granted[i] !in all {
        all := all + [granted[i]];
      }
      assert granted[..i + 1] == granted[..i] + [granted[i]];
    }
    assert granted[..|granted|] == granted;
  }

  // ----- grants -----

  datatype Entry = Entry(id: Id, path: string, subject: Id, role: Role, propagate: bool, createdAt: Time)

  datatype Grant = Grant(path: string, role: Role, propagate: bool)

  /** A root grant for each of the user's roles, then every explicit entry. */
  function GrantsFor(roles: seq<Role>, entries: seq<Entry>): (grants: seq<Grant>)
    ensures |grants| == |roles| + |entries|
    ensures forall i :: 0 <= i < |roles| ==> grants[i] == Grant("/", roles[i], true)
    ensures forall i :: 0 <= i < |entries| ==>
              grants[|roles| + i] == Grant(entries[i].path, entries[i].role, entries[i].propagate)
  {
    seq(|roles|, i requires 0 <= i < |roles| => Grant("/", roles[i], true))
    + seq(|entries|, i requires 0 <= i < |entries| => Grant(entries[i].path, entries[i].role, entries[i].propagate))
  }

  /** Some grant covering the path carries the permission. */
  ghost predicate Holds(grants: seq<Grant>, path: string, p: Permission) {
    exists g :: g in grants && PathCovers(g.path, path, g.propagate) && Allows(g.role, p)
  }

  method EffectivePermissionsAt(grants: seq<Grant>, path: string) returns (perms: seq<Permission>)
    ensures NoRepeats(perms)
    ensures forall p :: p in perms <==> Holds(grants, path, p)
  {
    hide Allows, PathCovers;
    var roles: seq<Role> := [];
    for i := 0 to |grants|
      invariant forall role :: role in roles <==>
                  exists k :: 0 <= k < i && grants[k].role == role && PathCovers(grants[k].path, path, grants[k].propagate)
    {
      var g := grants[i];
      if PathCovers(g.path, path, g.propagate) && g.role !in roles {
        roles := roles + [g.role];
      }
    }
    perms := EffectivePermissions(roles);
    forall p
      ensures p in perms <==> Holds(grants, path, p)
    {
      if FromRoles(roles, p) {
        var role :| role in roles && Allows(role, p);
        var k :| 0 <= k < |grants| && grants[k].role == role && PathCovers(grants[k].path, path, grants[k].propagate);
        assert grants[k] in grants;
      }
      if Holds(grants, path, p) {
        var g :| g in grants && PathCovers(g.path, path, g.propagate) && Allows(g.role, p);
        var k :| 0 <= k < |grants| && grants[k] == g;
        assert g.role in roles;
      }
    }
  }

  /** More grants never take a permission away. */
  lemma HoldsIsMonotone(grants: seq<Grant>, more: seq<Grant>, path: string, p: Permission)
    requires forall g :: g in grants ==> g in more
    requires Holds(grants, path, p)
    ensures Holds(more, path, p)
  {
    hide Allows, PathCovers;
  }

  /** What a propagating grant gives at a path is held at every path below it. */
  lemma HeldBelow(grants: seq<Grant>, g: Grant, path: string, below: string, p: Permission)
    requires g in grants && g.propagate && IsPath(g.path) && IsPath(path) && IsPath(below)
    requires PathCovers(g.path, path, g.propagate) && Allows(g.role, p)
    requires Segments(path) <= Segments(below)
    ensures Holds(grants, below, p)
  {
    hide Allows, PathCovers, IsPath, Segments;
    CoversIsPrefix(path, below);
    CoverageIsPartialOrder(g.path, path, below);
  }

  /** A node-wide role reaches every path. */
  lemma RootRolesReachEverywhere(roles: seq<Role>, entries: seq<Entry>, path: string, p: Permission)
    requires FromRoles(roles, p)
    ensures Holds(GrantsFor(roles, entries), path, p)
  {
    hide Allows;
    var role :| role in roles && Allows(role, p);
    var i :| 0 <= i < |roles| && roles[i] == role;
    var g := GrantsFor(roles, entries)[i];
    assert g in GrantsFor(roles, entries) && PathCovers(g.path, path, g.propagate);
  }

  /** Whoever has only viewers' grants changes nothing and administers nothing, at any path. */
  lemma ViewersOnlyRead(grants: seq<Grant>, path: string, p: Permission)
    requires forall g :: g in grants ==> g.role == Viewer
    requires !Reads(p)
    ensures !Holds(grants, path, p)
  {
  }

  /** A node-wide administrator may do anything anywhere. */
  lemma AdminsMayAll(grants: seq<Grant>, path: string, p: Permission)
    ensures Grant("/", Admin, true) in grants ==> Holds(grants, path, p)
  {
    var root := Grant("/", Admin, true);
    assert PathCovers(root.path, path, root.propagate) && Allows(root.role, p);
  }

  /** Roles are nested: raising the role of every grant takes nothing away. */
  lemma HigherRolesHoldMore(grants: seq<Grant>, path: string, p: Permission, raised: seq<Grant>)
    requires |raised| == |grants|
    requires forall i :: 0 <= i < |grants| ==>
               raised[i].path == grants[i].path && raised[i].propagate == grants[i].propagate
               && (raised[i].role == grants[i].role || raised[i].role == Admin
                   || (raised[i].role == Operator && grants[i].role == Viewer))
    requires Holds(grants, path, p)
    ensures Holds(raised, path, p)
  {
    hide PathCovers;
    var g :| g in grants && PathCovers(g.path, path, g.propagate) && Allows(g.role, p);
    var i :| 0 <= i < |grants| && grants[i] == g;
    assert raised[i] in raised;
  }

  // ----- the service -----

  ghost predicate SameGrant(a: Entry, b: Entry) {
    a.subject == b.subject && a.path == b.path && a.role == b.role && a.propagate == b.propagate
  }

  /** Entries are filed by id, on normal paths, and no grant is listed twice. */
  ghost predicate Filed(entries: map<Id, Entry>) {
    && (forall id :: id in entries ==> entries[id].id == id && Normal(entries[id].path))
    && (forall a, b :: a in entries && b in entries && a != b ==> !SameGrant(entries[a], entries[b]))
  }

  /** Nothing is saved that is not also in memory. */
  ghost predicate Cached(saved: map<Id, Entry>, entries: map<Id, Entry>) {
    forall id :: id in saved ==> id in entries && entries[id] == saved[id]
  }

  lemma FiledUnderId(entries: map<Id, Entry>, id: Id)
    requires Filed(entries) && id in entries
    ensures entries[id].id == id
  {
  }

  lemma AddKeeps(saved: map<Id, Entry>, entries: map<Id, Entry>, entry: Entry)
    requires Filed(entries) && Cached(saved, entries) && entry.id !in entries && Normal(entry.path)
    requires forall id :: id in entries ==> !SameGrant(entries[id], entry)
    ensures Filed(entries[entry.id := entry]) && Cached(saved[entry.id := entry], entries[entry.id := entry])
  {
    hide Normal;
  }

  lemma RemoveKeeps(saved: map<Id, Entry>, entries: map<Id, Entry>, gone: set<Id>)
    requires Filed(entries) && Cached(saved, entries)
    ensures Filed(entries - gone) && Cached(saved - gone, entries - gone) && Cached(saved - gone, entries)
  {
    hide Normal, SameGrant;
  }

  function SubjectIds(entries: map<Id, Entry>, user: Id): set<Id> {
    set id | id in entries && entries[id].subject == user
  }

  /** The cache and the store after deleting entries in order, of which the first `done` deletes went through: the cache
      follows only when all of them did. */
  ghost function Removed(entries: map<Id, Entry>, saved: map<Id, Entry>, order: seq<Id>, done: nat)
    : (map<Id, Entry>, map<Id, Entry>)
    requires done <= |order|
  {
    (if done == |order| then entries - Elements(order) else entries, saved - Elements(order[..done]))
  }

  /** Memory and store part company exactly when some delete went through and a later one failed; what memory then still
      grants and the store has lost are the entries deleted before the failure. */
  lemma StaleAfterRemoval(entries: map<Id, Entry>, user: Id, order: seq<Id>, done: nat)
    requires Enumerates(order, SubjectIds(entries, user)) && done <= |order|
    ensures var (cache, saved) := Removed(entries, entries, order, done);
            && (cache != saved <==> 0 < done < |order|)
            && (done < |order| ==> cache.Keys - saved.Keys == Elements(order[..done]))
  {
    var (cache, saved) := Removed(entries, entries, order, done);
    assert forall id :: id in order ==> id in Elements(order);
    if done == |order| {
      assert order[..done] == order;
    } else {
      forall id | id in order[..done]
        ensures id in entries
      {
        assert id in order;
      }
      assert cache.Keys - saved.Keys == Elements(order[..done]);
      if done == 0 {
        assert saved == entries;
      } else {
        assert order[0] in Elements(order[..done]) && order[0] in cache && order[0] !in saved;
      }
    }
  }

  lemma OthersStay(entries: map<Id, Entry>, user: Id)
    ensures forall id :: id in entries - SubjectIds(entries, user) <==> id in entries && entries[id].subject != user
  {
  }

  /** Two entries of one subject are enough. */
  lemma StaleExample(a: Entry, b: Entry)
    requires a.id != b.id && a.subject == b.subject
    ensures var entries := map[a.id := a, b.id := b];
            && Enumerates([a.id, b.id], SubjectIds(entries, a.subject))
            && Removed(entries, entries, [a.id, b.id], 1) == (entries, map[b.id := b])
  {
    var entries := map[a.id := a, b.id := b];
    assert [a.id, b.id][..1] == [a.id];
    assert entries - Elements([a.id]) == map[b.id := b];
  }

  class AclService {
    const store: JsonStore<Entry>
    var entries: map<Id, Entry>

    ghost predicate Valid()
      reads this, store
    {
      Filed(entries) && Cached(store.records, entries)
    }

    /** Startup: the saved entries are loaded into memory. */
    constructor (store: JsonStore<Entry>)
      requires Filed(store.records)
      ensures Valid() && this.store == store && entries == store.records
    {
      this.store := store;
      entries := store.records;
    }

    method Create(id: Id, path: string, subject: Id, role: Role, propagate: bool, now: Time)
      returns (r: Result<Entry, AppError>)
      requires Valid() && id !in entries
      modifies this, store
      ensures Valid()
      ensures NormalizePath(path).Err? ==> r == Err(Validation)
      ensures r.Ok? ==>
                && NormalizePath(path) == Ok(r.value.path)
                && r.value.subject == subject && r.value.role == role && r.value.propagate == propagate
                && r.value.id in entries && entries[r.value.id] == r.value
      ensures entries == old(entries) || (r.Ok? && r.value.id == id && entries == old(entries)[id := r.value]
                                          && store.records == old(store.records)[id := r.value])
      ensures entries == old(entries) ==> store.records == old(store.records)
    {
      hide NormalizePath, Normal, Filed, Cached;
      var normal := NormalizePath(path);
      if normal.Err? {
        NormalizeErrors(path);
        return Err(normal.error);
      }
      NormalizeIsNormal(path);
      var p := normal.value;
      if existing :| existing in entries && entries[existing].subject == subject && entries[existing].path == p
                     && entries[existing].role == role && entries[existing].propagate == propagate {
        FiledUnderId(entries, existing);
        return Ok(entries[existing]);
      }
      var entry := Entry(id, p, subject, role, propagate, now);
      AddKeeps(store.records, entries, entry);
      var ok := store.Put(id, entry);
      if !ok {
        return Err(Internal);
      }
      entries := entries[id := entry];
      return Ok(entry);
    }

    method Delete(id: Id) returns (r: Result<(), AppError>)
      requires Valid()
      modifies this, store
      ensures Valid()
      ensures id !in old(entries) ==> r == Err(NotFound)
      ensures r.Ok? ==> entries == old(entries) - {id} && store.records == old(store.records) - {id}
      ensures r.Err? ==> entries == old(entries) && store.records == old(store.records)
    {
      hide Filed, Cached;
      if id !in entries {
        return Err(NotFound);
      }
      RemoveKeeps(store.records, entries, {id});
      var ok := store.Delete(id);
      if !ok {
        return Err(Internal);
      }
      entries := entries - {id};
      return Ok(());
    }

    /** Every entry of a deleted account goes, one delete after the other. A failing delete leaves the cache alone, and with
        it entries the store has already dropped; the next start loads the smaller set. */
    method RemoveSubject(user: Id) returns (r: Result<(), AppError>, ghost order: seq<Id>, ghost done: nat)
      requires Valid()
      modifies this, store
      ensures Valid()
      ensures Enumerates(order, SubjectIds(old(entries), user)) && done <= |order|
      ensures r.Ok? ==>
                && (forall id :: id in entries <==> id in old(entries) && old(entries)[id].subject != user)
                && (forall id :: id in entries ==> entries[id] == old(entries)[id])
      ensures r.Ok? <==> done == |order|
      ensures (entries, store.records) == Removed(old(entries), old(store.records), order, done)
    {
      hide Filed, Cached, SubjectIds;
      var ids := SubjectIds(entries, user);
      var todo := ids;
      order, done := [], 0;
      while todo != {}
        invariant entries == old(entries) && Valid()
        invariant Enumerates(order, ids - todo) && todo <= ids && done == |order|
        invariant store.records == old(store.records) - Elements(order)
        decreases todo
      {
        var id :| id in todo;
        RemoveKeeps(store.records, entries, {id});
        var ok := store.Delete(id);
        EnumeratesPush(order, ids - todo, id);
        assert ids - (todo - {id}) == ids - todo + {id};
        if !ok {
          ghost var rest := ListOf(todo - {id});
          EnumeratesJoin(order + [id], ids - todo + {id}, rest, todo - {id});
          assert ids - todo + {id} + (todo - {id}) == ids;
          ghost var was := order;
          order := order + [id] + rest;
          assert order[..done] == was;
          return Err(Internal), order, done;
        }
        todo := todo - {id};
        order := order + [id];
        done := done + 1;
        assert old(store.records) - Elements(order) == old(store.records) - Elements(order[..done - 1]) - {id};
      }
      assert ids - todo == ids;
      RemoveKeeps(old(store.records), entries, ids);
      assert Elements(order) == ids && order[..done] == order;
      OthersStay(entries, user);
      entries := entries - ids;
      return Ok(()), order, done;
    }
  }
}
