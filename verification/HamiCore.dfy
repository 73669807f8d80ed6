/** The HAMi-Core hook tree and the manager that owns it (cmd/hami-kubelet-plugin/hami_core.go). */
module HamiCore {
  import opened Base

  datatype FileKind = Regular | Irregular

  /** An entry of vgpu/containers: a cache directory with its files, or something else. */
  datatype Item = Dir(files: map<string, FileKind>) | NotDir

  type Tree = map<string, Item>

  function Marker(uid: string): string {
    ".claim-" + uid
  }

  function CacheFile(uid: string): string {
    uid + ".cache"
  }

  function DirName(podUid: string, container: string): string {
    podUid + "_" + container
  }

  /** Container names are DNS labels, so the last underscore separates the two parts. */
  lemma DirNameInjective(pod: string, container: string, pod': string, container': string)
    requires '_' !in container && '_' !in container'
    requires DirName(pod, container) == DirName(pod', container')
    ensures pod == pod' && container == container'
  {
    var d := DirName(pod, container);
    assert d[|pod|] == '_' && d[|pod'|] == '_';
    assert forall i :: |pod| < i < |d| ==> d[i] == container[i - |pod| - 1];
    assert forall i :: |pod'| < i < |d| ==> d[i] == container'[i - |pod'| - 1];
    assert |pod| == |pod'|;
    assert d[..|pod|] == pod && d[..|pod'|] == pod';
    assert d[|pod| + 1..] == container && d[|pod'| + 1..] == container';
  }

  lemma MarkerInjective(u: string, v: string)
    ensures Marker(u) == Marker(v) ==> u == v
  {
    assert Marker(u)[7..] == u && Marker(v)[7..] == v;
  }

  lemma MarkerIsNoCacheFile(u: string, v: string)
    requires '.' !in v
    ensures Marker(u) != CacheFile(v)
  {
    assert Marker(u)[0] == '.' && Marker(u)[2] == 'l';
    assert v != "" ==> CacheFile(v)[0] in v;
    assert v == "" ==> CacheFile(v)[2] == 'a';
  }

  /** Ownership file names of distinct claims are distinct when the UID in the cache file's name has no dot. */
  lemma OwnershipNamesInjective(u: string, v: string)
    requires '.' !in v
    ensures Marker(u) == Marker(v) ==> u == v
    ensures CacheFile(u) == CacheFile(v) ==> u == v
    ensures Marker(u) != CacheFile(v)
  {
    MarkerInjective(u, v);
    MarkerIsNoCacheFile(u, v);
    if CacheFile(u) == CacheFile(v) {
      assert |u| == |v|;
      assert CacheFile(u)[..|u|] == u && CacheFile(v)[..|v|] == v;
    }
  }

  /** One claim's marker is another claim's cache file exactly if the UIDs continue each other around a common part. */
  lemma MarkerIsCacheFileIff(u: string, v: string)
    ensures Marker(u) == CacheFile(v) <==> exists x :: u == x + ".cache" && v == ".claim-" + x
  {
    if Marker(u) == CacheFile(v) {
      if |v| < 7 {
        ShortIsNoMarker(u, v);
      } else {
        var x := v[7..];
        assert CacheFile(v)[..7] == v[..7] && Marker(u)[..7] == ".claim-";
        assert v == ".claim-" + x;
        assert Marker(u)[7..] == u && CacheFile(v)[7..] == x + ".cache";
      }
    }
    if x :| u == x + ".cache" && v == ".claim-" + x {
      assert Marker(u) == ".claim-" + x + ".cache" == CacheFile(v);
    }
  }

  lemma ShortIsNoMarker(u: string, v: string)
    requires |v| < 7
    ensures Marker(u) != CacheFile(v)
  {
    var m, c := Marker(u), CacheFile(v);
    assert m[..7] == ".claim-";
    assert c[|v|] == '.' && c[|v| + 1] == 'c' && c[|v| + 2] == 'a';
    assert |v| > 0 ==> m[|v|] == ".claim-"[|v|];
    assert m[2] == 'l';
  }

  /** For example these. */
  lemma DottedUidsCollide()
    ensures Marker("x.cache") == CacheFile(".claim-x")
  {
    assert "x.cache" == "x" + ".cache" && ".claim-x" == ".claim-" + "x";
    MarkerIsCacheFileIff("x.cache", ".claim-x");
  }

  predicate Owned(item: Item, uid: string) {
    item.Dir? && (Marker(uid) in item.files || CacheFile(uid) in item.files)
  }

  /** The tree without a claim's directories. */
  function Released(tree: Tree, uid: string): Tree {
    map d | d in tree && !Owned(tree[d], uid) :: tree[d]
  }

  predicate Shrunk(item: Item, item': Item) {
    item.Dir? && item'.Dir? && item'.files.Keys <= item.files.Keys && forall f :: f in item'.files ==> item'.files[f] == item.files[f]
  }

  /** Everything a release of uid's directories may have done to the tree when it returns or is
      interrupted: only owned directories are gone or have lost files. */
  ghost predicate Releases(tree: Tree, uid: string, tree': Tree, done: bool) {
    && tree'.Keys <= tree.Keys
    && (forall d :: d in tree && !Owned(tree[d], uid) ==> d in tree' && tree'[d] == tree[d])
    && (forall d :: d in tree' ==> tree'[d] == tree[d] || Shrunk(tree[d], tree'[d]))
    && (done ==> tree' == Released(tree, uid))
  }

  /** A completed release leaves nothing to release, and releasing again changes nothing. */
  lemma ReleaseIdempotent(tree: Tree, uid: string)
    ensures forall d :: d in Released(tree, uid) ==> !Owned(Released(tree, uid)[d], uid)
    ensures Released(Released(tree, uid), uid) == Released(tree, uid)
  {
  }

  /** A release that failed and was then repeated ends where an uninterrupted one does, exactly
      when no directory survived the first attempt with both its ownership files removed. */
  lemma RetryConvergesIff(tree: Tree, uid: string, tree1: Tree)
    requires Releases(tree, uid, tree1, false)
    ensures Released(tree1, uid) == Released(tree, uid) <==>
            forall d :: d in tree1 && Owned(tree[d], uid) ==> Owned(tree1[d], uid)
  {
    var a, b := Released(tree1, uid), Released(tree, uid);
    if forall d :: d in tree1 && Owned(tree[d], uid) ==> Owned(tree1[d], uid) {
      forall d | d in b ensures d in a && a[d] == b[d] {
        assert !Owned(tree[d], uid);
      }
      forall d | d in a ensures d in b {
        assert !Owned(tree1[d], uid);
      }
      assert a == b;
    } else {
      var d :| d in tree1 && Owned(tree[d], uid) && !Owned(tree1[d], uid);
      assert d in a && d !in b;
    }
  }

  /** Everything the preparation of directory dir for uid may have done: removal (possibly partial),
      creation of the empty directory, then the marker. */
  ghost predicate Places(tree: Tree, dir: string, uid: string, tree': Tree, done: bool) {
    && tree' - {dir} == tree - {dir}
    && (|| (dir in tree' && dir in tree && (tree'[dir] == tree[dir] || Shrunk(tree[dir], tree'[dir])) && !done)
        || (dir !in tree' && !done)
        || (dir in tree' && tree'[dir] == Dir(map[]) && !done)
        || (dir in tree' && tree'[dir] == Dir(map[Marker(uid) := Regular])))
  }

  /** filepath.IsLocal, filepath.Base and the "." test together, on a Unix host. */
  predicate ValidClaimUid(uid: string) {
    uid != "" && uid != "." && uid != ".." && '/' !in uid
  }

  class HamiCoreManager {
    /** vgpu/containers; None when the directory does not exist. */
    var containers: Option<Tree>
    /** vgpu/claims, the layout before containers/. */
    var legacy: set<string>

    constructor (containers: Option<Tree>, legacy: set<string>)
      ensures this.containers == containers && this.legacy == legacy
    {
      this.containers, this.legacy := containers, legacy;
    }

    function Dirs(): Tree
      reads this
    {
      if containers.Some? then containers.value else map[]
    }

    /** os.RemoveAll below containers/: on failure some files, or the item, may be gone. */
    method RemoveAll(dir: string) returns (ok: bool)
      modifies this`containers
      ensures (old(containers).Some? <==> containers.Some?) && Dirs() - {dir} == old(Dirs()) - {dir}
      ensures dir in Dirs() ==> dir in old(Dirs()) && (Dirs()[dir] == old(Dirs()[dir]) || Shrunk(old(Dirs()[dir]), Dirs()[dir]))
      ensures ok ==> dir !in Dirs()
    {
      ok := true;
      if containers.None? {
        return;
      }
      var tree, fails := containers.value, *;
      if dir in tree && fails {
        ok := false;
        var gone: set<string> := *;
        if tree[dir].Dir? {
          containers := Some(tree[dir := Dir(tree[dir].files - gone)]);
        }
      } else {
        containers := Some(tree - {dir});
      }
    }

    /** os.ReadDir, in any order. */
    method ReadDir() returns (listing: seq<string>)
      ensures ListingOf(Dirs(), listing)
    {
      var rest := Dirs().Keys;
      listing := [];
      while rest != {}
        invariant rest <= Dirs().Keys
        invariant forall d :: d in listing <==> d in Dirs() && d !in rest
        invariant forall i, j :: 0 <= i < j < |listing| ==> listing[i] != listing[j]
        decreases |rest|
      {
        var d :| d in rest;
        rest := rest - {d};
        listing := listing + [d];
      }
    }

    /** The ownership test of one directory: either ownership file, which must be a regular file. */
    method IsOwned(item: Item, uid: string) returns (r: Result<bool>)
      ensures r.Ok? ==> r.value == Owned(item, uid)
    {
      if item.NotDir? {
        return Ok(false);
      }
      var names := [Marker(uid), CacheFile(uid)];
      for k := 0 to 2
        invariant forall m :: 0 <= m < k ==> names[m] !in item.files
      {
        if names[k] in item.files {
          return if item.files[names[k]] == Irregular then Err else Ok(true);
        }
        if * {
          return Err;  // the file could not be inspected
        }
      }
      assert names[0] !in item.files && names[1] !in item.files;
      r := Ok(false);
    }

    /** What has become of the tree when the first i entries of the listing have been dealt with. */
    static ghost predicate ReleasedUpTo(before: Tree, uid: string, listing: seq<string>, i: nat, after: Tree) {
      && after.Keys <= before.Keys && i <= |listing|
      && (forall d :: d in before && !Owned(before[d], uid) ==> d in after && after[d] == before[d])
      && (forall j :: i <= j < |listing| ==> listing[j] in after && listing[j] in before && after[listing[j]] == before[listing[j]])
      && (forall j :: 0 <= j < i && listing[j] in before && Owned(before[listing[j]], uid) ==> listing[j] !in after)
    }

    static ghost predicate ListingOf(tree: Tree, listing: seq<string>) {
      (forall d :: d in listing <==> d in tree) && forall i, j :: 0 <= i < j < |listing| ==> listing[i] != listing[j]
    }

    /** Taking the next owned directory away, wholly or in part. */
    static lemma NextReleased(before: Tree, uid: string, listing: seq<string>, i: nat, tree: Tree, tree': Tree, gone: bool)
      requires ListingOf(before, listing) && ReleasedUpTo(before, uid, listing, i, tree) && i < |listing|
      requires var dir := listing[i];
               && Owned(before[dir], uid) && tree' - {dir} == tree - {dir}
               && (dir in tree' ==> tree'[dir] == tree[dir] || Shrunk(tree[dir], tree'[dir])) && (gone ==> dir !in tree')
      ensures gone ==> ReleasedUpTo(before, uid, listing, i + 1, tree')
      ensures Releases(before, uid, tree', false)
    {
      var dir := listing[i];
      forall d | d != dir ensures (d in tree' <==> d in tree) && (d in tree ==> tree'[d] == tree[d]) {
        assert d in tree' <==> d in tree' - {dir};
        assert d in tree <==> d in tree - {dir};
        assert d in tree ==> (tree - {dir})[d] == (tree' - {dir})[d];
      }
      forall d | d in tree' ensures tree'[d] == before[d] || Shrunk(before[d], tree'[d]) {
        StillListed(before, uid, listing, i, tree, d);
      }
    }

    /** A directory that is still there is as it was. */
    static lemma StillListed(before: Tree, uid: string, listing: seq<string>, i: nat, tree: Tree, d: string)
      requires ListingOf(before, listing) && ReleasedUpTo(before, uid, listing, i, tree) && d in tree
      ensures d in before && tree[d] == before[d]
    {
      assert d in listing;
      var j :| 0 <= j < |listing| && listing[j] == d;
    }

    static lemma UntouchedReleases(before: Tree, uid: string, listing: seq<string>, i: nat, tree: Tree)
      requires ListingOf(before, listing) && ReleasedUpTo(before, uid, listing, i, tree)
      ensures Releases(before, uid, tree, false)
      ensures i == |listing| ==> tree == Released(before, uid)
    {
      forall d | d in tree ensures d in before && tree[d] == before[d] {
        StillListed(before, uid, listing, i, tree, d);
      }
      if i == |listing| {
        forall d | d in tree ensures !Owned(tree[d], uid) {
          assert d in listing;
          var j :| 0 <= j < |listing| && listing[j] == d;
        }
        assert tree == Released(before, uid);
      }
    }

    /** HAMiCoreManager.Unprepare, for any listing order of the directory. Success leaves no directory
        owned by the claim and every other one as it was; failure touches owned directories only. */
    method Unprepare(uid: string, listing: seq<string>) returns (ok: bool)
      requires ListingOf(Dirs(), listing)
      modifies this
      ensures Releases(old(Dirs()), uid, Dirs(), ok) && (containers.Some? <==> old(containers).Some?)
      ensures legacy == old(legacy) || legacy == old(legacy) - {uid}
      ensures ok ==> ValidClaimUid(uid) && uid !in legacy
      ensures !ValidClaimUid(uid) ==> legacy == old(legacy) && containers == old(containers)
    {
      if !ValidClaimUid(uid) {
        return false;
      }
      if * {
        return false;  // the legacy directory could not be removed
      }
      legacy := legacy - {uid};
      if containers.None? {
        return true;
      }
      if * {
        return false;  // the directory could not be listed
      }
      ghost var before := Dirs();
      var i := 0;
      while i < |listing|
        invariant 0 <= i <= |listing| && containers.Some? && legacy == old(legacy) - {uid}
        invariant ReleasedUpTo(before, uid, listing, i, Dirs())
      {
        UntouchedReleases(before, uid, listing, i, Dirs());
        var owned := IsOwned(Dirs()[listing[i]], uid);
        if owned.Err? {
          return false;
        }
        if owned.value {
          ghost var tree := Dirs();
          ok := RemoveAll(listing[i]);
          NextReleased(before, uid, listing, i, tree, Dirs(), ok);
          if !ok {
            return;
          }
        }
        i := i + 1;
      }
      UntouchedReleases(before, uid, listing, i, Dirs());
      ok := true;
    }

    /** The file system part of GetCDIContainerEdits: a fresh directory that carries the marker. */
    method PlaceMarker(dir: string, uid: string) returns (ok: bool)
      modifies this`containers
      ensures Places(old(Dirs()), dir, uid, Dirs(), ok)
    {
      ok := RemoveAll(dir);
      if !ok {
        return;
      }
      if * {
        return false;  // MkdirAll failed
      }
      containers := Some(Dirs()[dir := Dir(map[])]);
      assert Dirs() - {dir} == old(Dirs()) - {dir};
      if * {
        return false;  // Chmod or WriteFile failed
      }
      containers := Some(Dirs()[dir := Dir(map[Marker(uid) := Regular])]);
      assert Dirs() - {dir} == old(Dirs()) - {dir};
    }
  }
}
