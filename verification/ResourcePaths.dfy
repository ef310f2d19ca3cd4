/** From a request URI to the resource path its permission is checked at. */
module ResourcePaths {
  import opened Wrappers
  import opened Text
  import opened Acl
  import opened Accounts

  function NonEmpty(parts: seq<string>): seq<string> {
    if parts == [] then [] else (if parts[0] == "" then [] else [parts[0]]) + NonEmpty(parts[1..])
  }

  /** The URI without its `/api/<version>` prefix, when it has one. */
  function StripApi(uri: string): string {
    if StartsWith(uri, "/api/") then
      match SplitOnce(uri[5..], '/')
      case Some((_, after)) => after
      case None => ""
    else uri
  }

  function UriSegments(uri: string): seq<string> {
    NonEmpty(Split(StripApi(uri), '/'))
  }

  /** The resources that grants can be scoped to. */
  predicate IsCollection(s: string) {
    s == "vms" || s == "containers" || s == "pools"
  }

  /** Everything below one VM, container or pool is checked at that item; a bare collection at itself; all else at the
      root. */
  function ResourcePathFor(uri: string): string {
    var segs := UriSegments(uri);
    if segs == [] || !IsCollection(segs[0]) then "/"
    else if |segs| == 1 then PathOf([segs[0]])
    else PathOf([segs[0], segs[1]])
  }

  // ----- one item, one path -----

  lemma {:induction false} NonEmptySegments(text: string)
    ensures AreSegments(NonEmpty(Split(text, '/')))
  {
    PiecesAreSegments(Split(text, '/'));
  }

  lemma {:induction false} PiecesAreSegments(parts: seq<string>)
    requires forall i :: 0 <= i < |parts| ==> '/' !in parts[i]
    ensures AreSegments(NonEmpty(parts))
  {
    if parts != [] {
      PiecesAreSegments(parts[1..]);
    }
  }

  lemma CollectionsDiffer(k: string)
    requires IsCollection(k)
    ensures IsSegment(k) && k[0] != 'a'
  {
  }

  /** The pieces of an item URI, whether or not it starts with a slash. */
  lemma ItemPieces(k: string, id: string, tail: string)
    requires IsSegment(k) && IsSegment(id) && (tail != "" ==> tail[0] == '/')
    ensures var text := k + "/" + id + tail;
            && |NonEmpty(Split(text, '/'))| >= 2
            && NonEmpty(Split(text, '/'))[..2] == [k, id]
            && NonEmpty(Split("/" + text, '/')) == NonEmpty(Split(text, '/'))
  {
    var text := k + "/" + id + tail;
    SplitFirst(k, '/', id + tail);
    assert text == k + ['/'] + (id + tail);
    if tail == "" {
      SplitNone(id, '/');
      assert id + tail == id;
      NonEmptyTwo(k, id, []);
      assert [k] + [id] == [k, id] + [];
    } else {
      SplitFirst(id, '/', tail[1..]);
      assert id + tail == id + ['/'] + tail[1..];
      NonEmptyTwo(k, id, Split(tail[1..], '/'));
      assert [k] + ([id] + Split(tail[1..], '/')) == [k, id] + Split(tail[1..], '/');
    }
    SplitFirst("", '/', text);
    assert "/" + text == "" + ['/'] + text;
    assert ([""] + Split(text, '/'))[1..] == Split(text, '/');
  }

  lemma NonEmptyTwo(a: string, b: string, rest: seq<string>)
    requires a != "" && b != ""
    ensures NonEmpty([a, b] + rest) == [a, b] + NonEmpty(rest)
  {
    var all := [a, b] + rest;
    assert all[1..] == [b] + rest && ([b] + rest)[1..] == rest;
  }

  /** Every URI below one item, with or without the version prefix, is checked at that item. */
  lemma ItemUriResolves(k: string, id: string, tail: string, version: string)
    requires (k == "vms" || k == "containers" || k == "pools") && IsSegment(id) && (tail != "" ==> tail[0] == '/')
    requires '/' !in version
    ensures ResourcePathFor("/" + k + "/" + id + tail) == PathOf([k, id])
    ensures ResourcePathFor("/api/" + version + "/" + k + "/" + id + tail) == PathOf([k, id])
  {
    hide ResourcePathFor, PathOf, IsSegment;
    ItemOfCollection(k, id, tail, version);
  }

  lemma ItemOfCollection(k: string, id: string, tail: string, version: string)
    requires IsCollection(k) && IsSegment(id) && (tail != "" ==> tail[0] == '/')
    requires '/' !in version
    ensures ResourcePathFor("/" + k + "/" + id + tail) == PathOf([k, id])
    ensures ResourcePathFor("/api/" + version + "/" + k + "/" + id + tail) == PathOf([k, id])
  {
    CollectionsDiffer(k);
    hide IsCollection, PathOf, StripApi;
    var text := k + "/" + id + tail;
    ItemPieces(k, id, tail);
    Regrouped("/", k, id, tail);
    Regrouped("/api/" + version + "/", k, id, tail);
    NotVersioned(text);
    Versioned(version, text);
  }

  /** A bare collection is checked at itself. */
  lemma CollectionUriResolves(k: string, version: string)
    requires k == "vms" || k == "containers" || k == "pools"
    requires '/' !in version
    ensures ResourcePathFor("/" + k) == PathOf([k])
    ensures ResourcePathFor("/api/" + version + "/" + k) == PathOf([k])
  {
    CollectionsDiffer(k);
    hide PathOf, StripApi;
    NotVersioned(k);
    Versioned(version, k);
    SplitNone(k, '/');
    SplitFirst("", '/', k);
    assert "/" + k == "" + ['/'] + k;
    assert ([""] + [k])[1..] == [k];
    AllKept([k]);
  }

  /** Every other endpoint is checked at the root. */
  lemma OtherUrisAtRoot(k: string, tail: string, version: string)
    requires IsSegment(k) && k != "vms" && k != "containers" && k != "pools" && (tail != "" ==> tail[0] == '/')
    requires '/' !in version
    ensures ResourcePathFor("/api/" + version + "/" + k + tail) == "/"
    ensures k != "api" ==> ResourcePathFor("/" + k + tail) == "/"
  {
    hide PathOf, StripApi;
    var text := k + tail;
    FirstPiece(k, tail);
    assert "/api/" + version + "/" + k + tail == "/api/" + version + "/" + text;
    Versioned(version, text);
    assert "/" + k + tail == "/" + text;
    if k != "api" {
      NotApi(k, tail);
    }
  }

  lemma FirstPiece(k: string, tail: string)
    requires IsSegment(k) && (tail != "" ==> tail[0] == '/')
    ensures var pieces := NonEmpty(Split(k + tail, '/'));
            pieces != [] && pieces[0] == k && NonEmpty(Split("/" + (k + tail), '/')) == pieces
  {
    var text := k + tail;
    if tail == "" {
      assert text == k;
      SplitNone(k, '/');
    } else {
      assert text == k + ['/'] + tail[1..];
      SplitFirst(k, '/', tail[1..]);
    }
    SplitFirst("", '/', text);
    assert "/" + text == "" + ['/'] + text;
    assert ([""] + Split(text, '/'))[1..] == Split(text, '/');
  }

  /** A URI carries a version prefix only when its first piece is "api". */
  lemma NotApi(k: string, tail: string)
    requires IsSegment(k) && k != "api" && (tail != "" ==> tail[0] == '/')
    ensures StripApi("/" + (k + tail)) == "/" + (k + tail)
  {
    var uri := "/" + (k + tail);
    if StartsWith(uri, "/api/") {
      assert k + tail == uri[1..] == "api" + ['/'] + uri[5..];
      SplitFirst("api", '/', uri[5..]);
      FirstPiece(k, tail);
      assert false;
    }
  }

  lemma Regrouped(prefix: string, k: string, id: string, tail: string)
    ensures prefix + k + "/" + id + tail == prefix + (k + "/" + id + tail)
  {
    var a, b := prefix + k + "/" + id + tail, prefix + (k + "/" + id + tail);
    assert |a| == |b| && forall i :: 0 <= i < |a| ==> a[i] == b[i];
  }

  lemma Versioned(version: string, text: string)
    requires '/' !in version
    ensures StripApi("/api/" + version + "/" + text) == text
  {
    var uri := "/api/" + version + "/" + text;
    assert uri[5..] == version + ['/'] + text;
    SplitOnceAt(version, '/', text);
  }

  lemma NotVersioned(text: string)
    requires text != "" && text[0] != 'a'
    ensures StripApi("/" + text) == "/" + text
  {
    assert ("/" + text)[1] == text[0];
    assert "/api/"[1] == 'a';
  }

  lemma PathShape(k: string, segs: seq<string>)
    requires IsCollection(k) && AreSegments(segs) && |segs| >= 1 && segs[0] == k
    ensures UriSegments(PathOf(segs)) == segs
  {
    CollectionsDiffer(k);
    PathLength(segs);
    var text := Join(segs, '/');
    assert PathOf(segs) == "/" + text;
    assert text[0] == k[0];
    NotVersioned(text);
    SplitOfJoin(segs, '/');
    SplitFirst("", '/', text);
    assert "/" + text == "" + ['/'] + text;
    assert ([""] + segs)[1..] == segs;
    AllKept(segs);
  }

  lemma {:induction false} AllKept(segs: seq<string>)
    requires AreSegments(segs)
    ensures NonEmpty(segs) == segs
  {
    if segs != [] {
      AllKept(segs[1..]);
    }
  }

  /** Resolving a resource path gives the same resource path. */
  lemma ResolutionIdempotent(uri: string)
    ensures ResourcePathFor(ResourcePathFor(uri)) == ResourcePathFor(uri)
  {
    hide PathOf, IsCollection;
    var segs := UriSegments(uri);
    NonEmptySegments(StripApi(uri));
    if segs == [] || !IsCollection(segs[0]) {
      RootResolves();
    } else {
      var kept := if |segs| == 1 then [segs[0]] else [segs[0], segs[1]];
      PathShape(segs[0], kept);
    }
  }

  lemma RootResolves()
    ensures ResourcePathFor("/") == "/"
  {
    SplitFirst("", '/', "");
    assert "/" == "" + ['/'] + "";
    assert [""] + [""] == ["", ""] && ["", ""][1..] == [""] && [""][1..] == [];
  }

  // ----- which grants matter -----

  function AtOneOf(grants: seq<Grant>, paths: set<string>): seq<Grant> {
    if grants == [] then []
    else (if grants[0].path in paths then [grants[0]] else []) + AtOneOf(grants[1..], paths)
  }

  lemma {:induction false} AtOneOfHas(grants: seq<Grant>, paths: set<string>, g: Grant)
    ensures g in AtOneOf(grants, paths) <==> g in grants && g.path in paths
  {
    if grants != [] {
      AtOneOfHas(grants[1..], paths, g);
      assert g in grants <==> g == grants[0] || g in grants[1..];
    }
  }

  /** The check at an item looks only at grants on the root, the collection and the item itself. */
  lemma OnlyThreePathsMatter(grants: seq<Grant>, k: string, id: string, p: Permission)
    requires IsSegment(k) && IsSegment(id)
    requires forall g :: g in grants ==> IsPath(g.path)
    ensures var item := PathOf([k, id]);
            Holds(grants, item, p) <==> Holds(AtOneOf(grants, {"/", PathOf([k]), item}), item, p)
  {
    hide Allows;
    var item := PathOf([k, id]);
    var paths := {"/", PathOf([k]), item};
    if Holds(grants, item, p) {
      var g :| g in grants && PathCovers(g.path, item, g.propagate) && Allows(g.role, p);
      GrantAbove(g, k, id);
      AtOneOfHas(grants, paths, g);
    }
    if Holds(AtOneOf(grants, paths), item, p) {
      var g :| g in AtOneOf(grants, paths) && PathCovers(g.path, item, g.propagate) && Allows(g.role, p);
      AtOneOfHas(grants, paths, g);
    }
  }

  lemma GrantAbove(g: Grant, k: string, id: string)
    requires IsSegment(k) && IsSegment(id) && IsPath(g.path)
    requires PathCovers(g.path, PathOf([k, id]), g.propagate)
    ensures g.path == "/" || g.path == PathOf([k]) || g.path == PathOf([k, id])
  {
    SegmentsOfPath([k, id]);
    CoversIsPrefix(g.path, PathOf([k, id]));
    var segs := Segments(g.path);
    hide PathOf, PathCovers, Segments;
    assert segs <= [k, id];
    if |segs| == 0 {
      assert segs == [];
    } else if |segs| == 1 {
      assert segs == [k];
    } else {
      assert segs == [k, id];
    }
    RootText();
  }

  lemma RootText()
    ensures PathOf([]) == "/"
  {
  }

  // ----- the check -----

  datatype Caller = Caller(grants: seq<Grant>, permissions: seq<Permission>)

  /** A caller with grants is resolved by path; one without, an API token, by its flat permission set. */
  method RequireAt(caller: Caller, p: Permission, path: string) returns (r: Result<(), AppError>)
    ensures r == if (if caller.grants == [] then p in caller.permissions else Holds(caller.grants, path, p))
                 then Ok(()) else Err(Forbidden)
    ensures caller.grants != [] && (forall g :: g in caller.grants ==> g.role == Viewer) && !Reads(p) ==> r == Err(Forbidden)
    ensures Grant("/", Admin, true) in caller.grants ==> r == Ok(())
  {
    hide Allows;
    var held;
    if caller.grants == [] {
      held := p in caller.permissions;
    } else {
      var perms := EffectivePermissionsAt(caller.grants, path);
      held := p in perms;
      if !Reads(p) && forall g :: g in caller.grants ==> g.role == Viewer {
        ViewersOnlyRead(caller.grants, path, p);
      }
      AdminsMayAll(caller.grants, path, p);
    }
    return if held then Ok(()) else Err(Forbidden);
  }
}
