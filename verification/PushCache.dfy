/** Incremental push with a checksum cache: PushChangedFiles of devil/android/device_utils.py. */
module PushCache {
  type Path = string

  /** A file or a directory on the host; a directory maps relative paths to contents. */
  datatype Host = File(content: string) | Dir(files: map<string, string>)

  datatype Root = Root(host: Host, device: Path)
  {
    /** `device_path.rstrip('/')`. */
    function Base(): Path {
      RStrip(device)
    }
  }

  /** `[ignore_other_files, sums]`. */
  datatype Entry = Entry(ignoreOther: bool, sums: map<Path, int>)

  type Checksum = string -> int

  // ---------------------------------------------------------------------------------
  // Paths
  // ---------------------------------------------------------------------------------

  function RStrip(d: Path): (e: Path)
    ensures e != "" ==> e[|e| - 1] != '/'
  {
    if d != "" && d[|d| - 1] == '/' then RStrip(d[..|d| - 1]) else d
  }

  /** Of the slashes at the end all are stripped, and nothing else. */
  lemma {:induction false} RStripStrips(d: Path)
    ensures RStrip(d) <= d && forall i :: |RStrip(d)| <= i < |d| ==> d[i] == '/'
    decreases |d|
  {
    if d != "" && d[|d| - 1] == '/' {
      RStripStrips(d[..|d| - 1]);
    }
  }

  /** `p` with any number of slashes after it. */
  predicate IsSlashed(p: Path, d: Path) {
    p != "" && p[|p| - 1] != '/' && p <= d && forall i :: |p| <= i < |d| ==> d[i] == '/'
  }

  lemma {:induction false} SlashedIsStripped(p: Path, d: Path)
    requires IsSlashed(p, d)
    ensures RStrip(d) == p
    decreases |d|
  {
    if |d| > |p| {
      SlashedIsStripped(p, d[..|d| - 1]);
    }
  }

  /** `posixpath.join(base, rel)` for a base that is not empty and has no trailing slash. */
  function Join(base: Path, rel: string): Path {
    base + "/" + rel
  }

  predicate Under(base: Path, p: Path) {
    |p| > |base| + 1 && p[..|base|] == base && p[|base|] == '/'
  }

  predicate AtOrUnder(base: Path, p: Path) {
    p == base || Under(base, p)
  }

  predicate Apart(d: Path, e: Path) {
    !AtOrUnder(d, e) && !AtOrUnder(e, d)
  }

  /** Roots that are not nested share no file. */
  lemma SharedIsNested(d: Path, e: Path, p: Path)
    requires AtOrUnder(d, p) && AtOrUnder(e, p)
    requires d != "" && e != "" && d[|d| - 1] != '/' && e[|e| - 1] != '/'
    ensures !Apart(d, e)
  {
    if |d| < |e| {
      assert e == p[..|e|] && e[..|d|] == p[..|d|] && e[|d|] == p[|d|];
    } else if |e| < |d| {
      assert d == p[..|d|] && d[..|e|] == p[..|e|] && d[|e|] == p[|e|];
    }
  }

  // ---------------------------------------------------------------------------------
  // What a push wants
  // ---------------------------------------------------------------------------------

  ghost predicate ValidRoot(r: Root) {
    r.Base() != "" && (r.host.Dir? ==> "" !in r.host.files)
  }

  /** No root is "/", and none is inside another. */
  ghost predicate ValidRoots(roots: seq<Root>) {
    && (forall i :: 0 <= i < |roots| ==> ValidRoot(roots[i]))
    && (forall i, k :: 0 <= i < k < |roots| ==> Apart(roots[i].Base(), roots[k].Base()))
  }

  predicate IsTarget(r: Root, p: Path) {
    match r.host
    case File(_) => p == r.Base()
    case Dir(files) => Under(r.Base(), p) && p[|r.Base()| + 1..] in files
  }

  function Source(r: Root, p: Path): string
    requires IsTarget(r, p)
  {
    match r.host
    case File(content) => content
    case Dir(files) => files[p[|r.Base()| + 1..]]
  }

  /** A path that the push of `r` decides about. */
  predicate Governs(r: Root, deleteStale: bool, p: Path) {
    IsTarget(r, p) || (deleteStale && r.host.Dir? && AtOrUnder(r.Base(), p))
  }

  /** What `PushChangedFiles` is for: each root is mirrored and nothing else is touched. */
  ghost predicate Mirrored(before: map<Path, string>, after: map<Path, string>, roots: seq<Root>, deleteStale: bool) {
    && (forall i, p :: 0 <= i < |roots| && Governs(roots[i], deleteStale, p) ==> RootDone(after, roots[i], p))
    && (forall p :: (forall i :: 0 <= i < |roots| ==> !Governs(roots[i], deleteStale, p)) ==> SameAt(before, after, p))
  }

  ghost predicate RootDone(after: map<Path, string>, r: Root, p: Path) {
    if IsTarget(r, p) then p in after && after[p] == Source(r, p) else p !in after
  }

  ghost predicate SameAt(before: map<Path, string>, after: map<Path, string>, p: Path) {
    (p in before <==> p in after) && (p in before ==> before[p] == after[p])
  }

  /** `q` is `p` or somewhere below it. */
  predicate IsAt(p: Path, q: Path) {
    q == p || p + "/" < q
  }

  lemma AtIsAtOrUnder(p: Path, q: Path)
    ensures IsAt(p, q) <==> AtOrUnder(p, q)
  {
    if Under(p, q) {
      assert q[..|p| + 1] == p + "/";
    }
    if p + "/" < q {
      assert q[..|p|] == (p + "/")[..|p|] == p && q[|p|] == (p + "/")[|p|];
    }
  }

  /** The path of a relative path below a directory, and back. */
  lemma PathBelow(p: Path, rel: string)
    requires rel != ""
    ensures Under(p, p + "/" + rel) && (p + "/" + rel)[|p| + 1..] == rel
  {
    var q := p + "/" + rel;
    assert q[..|p|] == p && q[|p|] == '/';
  }

  lemma BelowPath(p: Path, q: Path)
    requires Under(p, q)
    ensures q == p + "/" + q[|p| + 1..]
  {
    assert q == q[..|p|] + [q[|p|]] + q[|p| + 1..];
  }

  /**
    What a push has done at the device path `p` of a root: a file is there; of a directory each file is
    at its own path below, and with stale deletion there is nothing else.
   */
  ghost predicate Placed(after: map<Path, string>, r: Root, p: Path, deleteStale: bool) {
    match r.host
    case File(content) => p in after && after[p] == content
    case Dir(files) =>
      && (forall rel :: rel in files ==> p + "/" + rel in after && after[p + "/" + rel] == files[rel])
      && (deleteStale ==> forall q :: q in after && IsAt(p, q) ==> exists rel :: rel in files && q == p + "/" + rel)
  }

  /** On the device paths themselves, with or without slashes after them. */
  lemma MirroredIsPlaced(before: map<Path, string>, after: map<Path, string>, roots: seq<Root>, deleteStale: bool,
                         i: nat, p: Path)
    requires Mirrored(before, after, roots, deleteStale) && ValidRoots(roots)
    requires i < |roots| && IsSlashed(p, roots[i].device)
    ensures Placed(after, roots[i], p, deleteStale)
  {
    var r := roots[i];
    SlashedIsStripped(p, r.device);
    assert ValidRoot(r);
    if r.host.Dir? {
      forall rel | rel in r.host.files
        ensures p + "/" + rel in after && after[p + "/" + rel] == r.host.files[rel]
      {
        PathBelow(p, rel);
        assert Governs(r, deleteStale, p + "/" + rel);
      }
      forall q | deleteStale && q in after && IsAt(p, q)
        ensures exists rel :: rel in r.host.files && q == p + "/" + rel
      {
        AtIsAtOrUnder(p, q);
        assert Governs(r, deleteStale, q) && RootDone(after, r, q);
        BelowPath(p, q);
      }
    } else {
      assert Governs(r, deleteStale, p);
    }
  }

  /** A path that is not at or below the device path of any root is not touched. */
  lemma MirroredTouchesNothingElse(before: map<Path, string>, after: map<Path, string>, roots: seq<Root>,
                                   deleteStale: bool, paths: seq<Path>, q: Path)
    requires Mirrored(before, after, roots, deleteStale) && |paths| == |roots|
    requires forall i :: 0 <= i < |roots| ==> IsSlashed(paths[i], roots[i].device) && !IsAt(paths[i], q)
    ensures SameAt(before, after, q)
  {
    forall i | 0 <= i < |roots| ensures !Governs(roots[i], deleteStale, q) {
      SlashedIsStripped(paths[i], roots[i].device);
      AtIsAtOrUnder(paths[i], q);
    }
  }

  /** The outcome does not depend on the cache: there is only one. */
  lemma MirroredUnique(before: map<Path, string>, a: map<Path, string>, b: map<Path, string>, roots: seq<Root>,
                       deleteStale: bool)
    requires Mirrored(before, a, roots, deleteStale) && Mirrored(before, b, roots, deleteStale)
    ensures a == b
  {
    forall p ensures SameAt(a, b, p) {
      if forall i :: 0 <= i < |roots| ==> !Governs(roots[i], deleteStale, p) {
        assert SameAt(before, a, p) && SameAt(before, b, p);
      } else {
        var i :| 0 <= i < |roots| && Governs(roots[i], deleteStale, p);
        assert RootDone(a, roots[i], p) && RootDone(b, roots[i], p);
      }
    }
    forall p ensures p in a <==> p in b
             ensures p in a ==> a[p] == b[p]
    {
      assert SameAt(a, b, p);
    }
  }

  // ---------------------------------------------------------------------------------
  // What a push knows
  // ---------------------------------------------------------------------------------

  /** `CalculateDeviceMd5Sums` of the whole device path, or of the targets only. */
  function Measured(checksum: Checksum, files: map<Path, string>, r: Root, ignoreOther: bool): map<Path, int> {
    map p | p in files && (if ignoreOther then IsTarget(r, p) else AtOrUnder(r.Base(), p)) :: checksum(files[p])
  }

  /** `ignore_other_files`. */
  predicate IgnoresOther(r: Root, trackStale: bool) {
    !trackStale && r.host.Dir?
  }

  type Cache = map<Path, Entry>

  predicate Hit(enabled: bool, cache: Cache, r: Root, trackStale: bool) {
    enabled && r.Base() in cache && cache[r.Base()].ignoreOther == IgnoresOther(r, trackStale)
  }

  /** `calculate_device_checksums`. */
  function Known(checksum: Checksum, enabled: bool, cache: Cache, files: map<Path, string>, r: Root, trackStale: bool):
    map<Path, int>
  {
    if Hit(enabled, cache, r, trackStale) then cache[r.Base()].sums
    else Measured(checksum, files, r, IgnoresOther(r, trackStale))
  }

  /** The key that line 1372 makes for a root that is a file: the device path and a slash. */
  function FileKey(base: Path): Path {
    base + "/"
  }

  /** What an entry may claim of the device. */
  ghost predicate EntryTrue(checksum: Checksum, files: map<Path, string>, base: Path, e: Entry) {
    if e.ignoreOther then
      forall p :: p in e.sums ==> Under(base, p) && p in files && e.sums[p] == checksum(files[p])
    else if FileKey(base) in e.sums then
      e.sums.Keys == {FileKey(base)}
    else
      forall p :: (p in e.sums <==> p in files && AtOrUnder(base, p))
        && (p in e.sums ==> e.sums[p] == checksum(files[p]))
  }

  ghost predicate CacheTrue(checksum: Checksum, files: map<Path, string>, cache: Cache) {
    forall d :: d in cache ==> EntryTrue(checksum, files, d, cache[d])
  }

  /** Only the entry of a root that is a file is keyed with a slash. */
  predicate KindsAgree(cache: Cache, r: Root) {
    r.host.Dir? && r.Base() in cache ==> FileKey(r.Base()) !in cache[r.Base()].sums
  }

  predicate IsChanged(checksum: Checksum, known: map<Path, int>, r: Root, p: Path) {
    IsTarget(r, p) && (p !in known || known[p] != checksum(Source(r, p)))
  }

  predicate IsStale(known: map<Path, int>, r: Root, p: Path) {
    r.host.Dir? && p in known && !IsTarget(r, p)
  }

  ghost predicate Injective(checksum: Checksum) {
    forall a, b :: checksum(a) == checksum(b) ==> a == b
  }

  /** The device when a push begins. */
  datatype Setting =
    Setting(checksum: Checksum, enabled: bool, deleteStale: bool, cache: Cache, files: map<Path, string>)
  {
    function KnownOf(r: Root): map<Path, int> {
      Known(checksum, enabled, cache, files, r, deleteStale)
    }

    predicate Changes(r: Root, p: Path) {
      IsChanged(checksum, KnownOf(r), r, p)
    }

    predicate Drops(r: Root, p: Path) {
      IsStale(KnownOf(r), r, p)
    }

    ghost predicate Valid() {
      Injective(checksum) && CacheTrue(checksum, files, cache)
    }
  }

  /** A target that is not pushed is up to date. */
  lemma UnchangedIsCurrent(s: Setting, r: Root, p: Path)
    requires s.Valid() && ValidRoot(r) && IsTarget(r, p) && !s.Changes(r, p)
    ensures p in s.files && s.files[p] == Source(r, p)
  {
    var known := s.KnownOf(r);
    if Hit(s.enabled, s.cache, r, s.deleteStale) {
      assert EntryTrue(s.checksum, s.files, r.Base(), s.cache[r.Base()]);
      assert p != FileKey(r.Base());
    }
  }

  /** Stale tracking finds the device files at or under the root that are no targets, and no others. */
  lemma StaleIsExact(s: Setting, r: Root, p: Path)
    requires s.Valid() && ValidRoot(r) && KindsAgree(s.cache, r) && s.deleteStale
    ensures s.Drops(r, p) <==> r.host.Dir? && p in s.files && AtOrUnder(r.Base(), p) && !IsTarget(r, p)
  {
    if Hit(s.enabled, s.cache, r, true) {
      assert EntryTrue(s.checksum, s.files, r.Base(), s.cache[r.Base()]);
    }
  }

  // ---------------------------------------------------------------------------------
  // All roots together
  // ---------------------------------------------------------------------------------

  /** The first and third results of `_GetChangedAndStaleFiles`. */
  datatype Plan = Plan(changed: map<Path, string>, stale: set<Path>)

  ghost predicate IsPlan(s: Setting, r: Root, plan: Plan) {
    && (forall p :: p in plan.changed <==> s.Changes(r, p))
    && (forall p :: p in plan.changed ==> IsTarget(r, p) && plan.changed[p] == Source(r, p))
    && (forall p :: p in plan.stale <==> s.Drops(r, p))
  }

  ghost predicate ArePlans(s: Setting, roots: seq<Root>, plans: seq<Plan>) {
    |plans| <= |roots| && forall i :: 0 <= i < |plans| ==> IsPlan(s, roots[i], plans[i])
  }

  function AllChanged(plans: seq<Plan>): map<Path, string>
    decreases |plans|
  {
    if plans == [] then map[] else AllChanged(plans[..|plans| - 1]) + plans[|plans| - 1].changed
  }

  function AllStale(plans: seq<Plan>): set<Path>
    decreases |plans|
  {
    if plans == [] then {} else AllStale(plans[..|plans| - 1]) + plans[|plans| - 1].stale
  }

  lemma {:induction false} InAll(plans: seq<Plan>, p: Path)
    ensures p in AllChanged(plans) <==> exists i :: 0 <= i < |plans| && p in plans[i].changed
    ensures p in AllChanged(plans) ==>
      exists i :: 0 <= i < |plans| && p in plans[i].changed && AllChanged(plans)[p] == plans[i].changed[p]
    ensures p in AllStale(plans) <==> exists i :: 0 <= i < |plans| && p in plans[i].stale
    decreases |plans|
  {
    if plans != [] {
      var init, last := plans[..|plans| - 1], plans[|plans| - 1];
      InAll(init, p);
      assert forall i :: 0 <= i < |init| ==> plans[i] == init[i];
    }
  }

  /** A path at or under one root is governed by no other. */
  lemma OneRoot(roots: seq<Root>, i: nat, k: nat, p: Path)
    requires ValidRoots(roots) && i < |roots| && k < |roots|
    requires AtOrUnder(roots[i].Base(), p) && AtOrUnder(roots[k].Base(), p)
    ensures i == k
  {
    SharedIsNested(roots[i].Base(), roots[k].Base(), p);
    SharedIsNested(roots[k].Base(), roots[i].Base(), p);
  }

  /** The device once the stale files are removed and the changed ones pushed. */
  function After(s: Setting, plans: seq<Plan>): map<Path, string> {
    (if s.deleteStale then s.files - AllStale(plans) else s.files) + AllChanged(plans)
  }

  /** Removing the stale files and pushing the changed ones mirrors the roots. */
  lemma PushMirrors(s: Setting, roots: seq<Root>, plans: seq<Plan>)
    requires s.Valid() && ValidRoots(roots) && |plans| == |roots| && ArePlans(s, roots, plans)
    requires forall i :: 0 <= i < |roots| ==> KindsAgree(s.cache, roots[i])
    ensures Mirrored(s.files, After(s, plans), roots, s.deleteStale)
  {
    var after := After(s, plans);
    forall i, p | 0 <= i < |roots| && Governs(roots[i], s.deleteStale, p) ensures RootDone(after, roots[i], p) {
      RootIsDone(s, roots, plans, i, p);
    }
    forall p | forall i :: 0 <= i < |roots| ==> !Governs(roots[i], s.deleteStale, p) ensures SameAt(s.files, after, p) {
      RestIsSame(s, roots, plans, p);
    }
  }

  lemma DropsAreGoverned(s: Setting, r: Root, p: Path)
    requires s.Valid() && ValidRoot(r) && KindsAgree(s.cache, r) && s.deleteStale
    ensures s.Drops(r, p) <==> Governs(r, true, p) && !IsTarget(r, p) && p in s.files
  {
    StaleIsExact(s, r, p);
  }

  /** A plan that names a governed path is the plan of the root that governs it. */
  lemma PlanOfRoot(s: Setting, roots: seq<Root>, plans: seq<Plan>, i: nat, k: nat, p: Path)
    requires s.Valid() && ValidRoots(roots) && |plans| == |roots| && ArePlans(s, roots, plans)
    requires i < |roots| && k < |roots| && KindsAgree(s.cache, roots[k])
    requires Governs(roots[i], s.deleteStale, p) && (p in plans[k].changed || (s.deleteStale && p in plans[k].stale))
    ensures i == k
  {
    assert IsPlan(s, roots[k], plans[k]);
    if s.deleteStale && p in plans[k].stale {
      DropsAreGoverned(s, roots[k], p);
    }
    OneRoot(roots, i, k, p);
  }

  /** The changed and stale files, at one path of root `i`. */
  lemma AllAtRoot(s: Setting, roots: seq<Root>, plans: seq<Plan>, i: nat, p: Path)
    requires s.Valid() && ValidRoots(roots) && |plans| == |roots| && ArePlans(s, roots, plans)
    requires forall k :: 0 <= k < |roots| ==> KindsAgree(s.cache, roots[k])
    requires i < |roots| && Governs(roots[i], s.deleteStale, p)
    ensures p in AllChanged(plans) <==> p in plans[i].changed
    ensures p in AllChanged(plans) ==> AllChanged(plans)[p] == plans[i].changed[p]
    ensures s.deleteStale ==> (p in AllStale(plans) <==> p in plans[i].stale)
  {
    InAll(plans, p);
    forall k | 0 <= k < |roots| && (p in plans[k].changed || (s.deleteStale && p in plans[k].stale)) ensures k == i {
      PlanOfRoot(s, roots, plans, i, k, p);
    }
  }

  lemma RootIsDone(s: Setting, roots: seq<Root>, plans: seq<Plan>, i: nat, p: Path)
    requires s.Valid() && ValidRoots(roots) && |plans| == |roots| && ArePlans(s, roots, plans)
    requires forall k :: 0 <= k < |roots| ==> KindsAgree(s.cache, roots[k])
    requires i < |roots| && Governs(roots[i], s.deleteStale, p)
    ensures RootDone(After(s, plans), roots[i], p)
  {
    var r := roots[i];
    AllAtRoot(s, roots, plans, i, p);
    assert IsPlan(s, r, plans[i]);
    if IsTarget(r, p) && !s.Changes(r, p) {
      UnchangedIsCurrent(s, r, p);
    }
    if s.deleteStale {
      DropsAreGoverned(s, r, p);
    }
  }

  lemma RestIsSame(s: Setting, roots: seq<Root>, plans: seq<Plan>, p: Path)
    requires s.Valid() && ValidRoots(roots) && |plans| == |roots| && ArePlans(s, roots, plans)
    requires forall k :: 0 <= k < |roots| ==> KindsAgree(s.cache, roots[k])
    ensures SameAt(s.files, After(s, plans), p) || exists i :: 0 <= i < |roots| && Governs(roots[i], s.deleteStale, p)
  {
    InAll(plans, p);
    if i :| 0 <= i < |plans| && (p in plans[i].changed || (s.deleteStale && p in plans[i].stale)) {
      assert IsPlan(s, roots[i], plans[i]);
      if s.deleteStale {
        DropsAreGoverned(s, roots[i], p);
      }
      assert Governs(roots[i], s.deleteStale, p);
    }
  }

  // ---------------------------------------------------------------------------------
  // Committing the cache
  // ---------------------------------------------------------------------------------

  /** The host files by relative path; the path of a file relative to itself is empty. */
  function HostFiles(h: Host): map<string, string> {
    match h
    case File(content) => map["" := content]
    case Dir(files) => files
  }

  predicate IsJoin(base: Path, p: Path) {
    |p| > |base| && p[..|base|] == base && p[|base|] == '/'
  }

  /** The `new_sums` of `cache_commit_func`. */
  ghost predicate IsNewSums(checksum: Checksum, r: Root, sums: map<Path, int>) {
    forall p ::
      && (p in sums <==> IsJoin(r.Base(), p) && p[|r.Base()| + 1..] in HostFiles(r.host))
      && (p in sums ==> sums[p] == checksum(HostFiles(r.host)[p[|r.Base()| + 1..]]))
  }

  ghost predicate IsCommit(checksum: Checksum, r: Root, trackStale: bool, e: Entry) {
    e.ignoreOther == IgnoresOther(r, trackStale) && IsNewSums(checksum, r, e.sums)
  }

  ghost predicate AllDone(after: map<Path, string>, r: Root, deleteStale: bool) {
    forall p :: Governs(r, deleteStale, p) ==> RootDone(after, r, p)
  }

  /** The committed entry is true of the device that has just been pushed to. */
  lemma CommitIsTrue(checksum: Checksum, after: map<Path, string>, r: Root, deleteStale: bool, e: Entry)
    requires ValidRoot(r) && IsCommit(checksum, r, deleteStale, e) && AllDone(after, r, deleteStale)
    ensures EntryTrue(checksum, after, r.Base(), e) && (r.host.Dir? ==> FileKey(r.Base()) !in e.sums)
  {
    match r.host
    case File(_) =>
      assert FileKey(r.Base())[|r.Base()| + 1..] == "";
      forall p | p in e.sums ensures p == FileKey(r.Base()) {
        assert p == p[..|r.Base()|] + [p[|r.Base()|]] + p[|r.Base()| + 1..];
      }
    case Dir(files) =>
      assert FileKey(r.Base())[|r.Base()| + 1..] == "";
      forall p ensures p in e.sums <==> IsTarget(r, p) {
        assert p in e.sums ==> p[|r.Base()| + 1..] != "";
      }
      forall p | p in e.sums ensures Under(r.Base(), p) && p in after && e.sums[p] == checksum(after[p]) {
        assert Governs(r, deleteStale, p) && RootDone(after, r, p);
      }
      forall p | deleteStale && p in after && AtOrUnder(r.Base(), p) ensures p in e.sums {
        assert Governs(r, deleteStale, p) && RootDone(after, r, p);
      }
  }

  /** An entry for a path that is apart from every root stays true. */
  lemma ApartEntryStaysTrue(s: Setting, roots: seq<Root>, after: map<Path, string>, d: Path)
    requires ValidRoots(roots) && Mirrored(s.files, after, roots, s.deleteStale)
    requires d in s.cache && EntryTrue(s.checksum, s.files, d, s.cache[d]) && d != "" && d[|d| - 1] != '/'
    requires forall i :: 0 <= i < |roots| ==> Apart(d, roots[i].Base())
    ensures EntryTrue(s.checksum, after, d, s.cache[d])
  {
    var e := s.cache[d];
    forall p ensures p in e.sums ==> AtOrUnder(d, p) ==> SameAt(s.files, after, p)
      ensures p in after && AtOrUnder(d, p) ==> SameAt(s.files, after, p)
    {
      if AtOrUnder(d, p) {
        ApartIsSame(s, roots, after, d, p);
      }
    }
    if !e.ignoreOther && FileKey(d) !in e.sums {
      forall p ensures p in e.sums <==> p in after && AtOrUnder(d, p) {
        assert AtOrUnder(d, p) ==> SameAt(s.files, after, p) by {
          if AtOrUnder(d, p) {
            ApartIsSame(s, roots, after, d, p);
          }
        }
      }
    }
  }

  lemma ApartIsSame(s: Setting, roots: seq<Root>, after: map<Path, string>, d: Path, p: Path)
    requires ValidRoots(roots) && Mirrored(s.files, after, roots, s.deleteStale)
    requires d != "" && d[|d| - 1] != '/' && forall i :: 0 <= i < |roots| ==> Apart(d, roots[i].Base())
    requires AtOrUnder(d, p)
    ensures SameAt(s.files, after, p)
  {
    forall i | 0 <= i < |roots| ensures !Governs(roots[i], s.deleteStale, p) {
      if AtOrUnder(roots[i].Base(), p) {
        SharedIsNested(d, roots[i].Base(), p);
      }
    }
  }

  /** Nothing is left to do for the root. */
  ghost predicate Idle(s: Setting, r: Root) {
    forall p :: !s.Changes(r, p) && !(s.deleteStale && s.Drops(r, p))
  }

  /**
    Pushing the same root again does nothing, unless it is a file and the cache is on: the key
    of its entry ends in a slash and is never found.
   */
  lemma SecondPushIff(s: Setting, r: Root)
    requires ValidRoot(r) && AllDone(s.files, r, s.deleteStale)
    requires r.Base() in s.cache && IsCommit(s.checksum, r, s.deleteStale, s.cache[r.Base()])
    ensures Idle(s, r) <==> (r.host.Dir? || !s.enabled)
  {
    var base := r.Base();
    var known := s.KnownOf(r);
    assert FileKey(base)[|base| + 1..] == "";
    if r.host.File? {
      assert RootDone(s.files, r, base);
      assert s.enabled ==> base !in known && s.Changes(r, base);
    }
    if r.host.Dir? || !s.enabled {
      forall p ensures !s.Changes(r, p) && !(s.deleteStale && s.Drops(r, p)) {
        assert Governs(r, s.deleteStale, p) ==> RootDone(s.files, r, p);
        assert s.enabled && p in known && |p| == |base| + 1 ==> p[|base| + 1..] == "";
      }
    }
  }

  // ---------------------------------------------------------------------------------
  // The object
  // ---------------------------------------------------------------------------------

  /** `posixpath.dirname`. */
  function Dirname(p: Path): Path {
    var head := Head(p);
    if RStrip(head) == "" then head else RStrip(head)
  }

  /** Up to and with the last slash. */
  function Head(p: Path): Path {
    if p == "" || p[|p| - 1] == '/' then p else Head(p[..|p| - 1])
  }

  /** The directory that a push into nothing needs. */
  function DirFor(r: Root): Path {
    if r.host.Dir? then r.device else Dirname(r.device)
  }

  /** The directory of a file is what comes before its name. */
  lemma DirnameOfFile(p: Path, name: string)
    requires p != "" && p[|p| - 1] != '/' && name != "" && '/' !in name
    ensures Dirname(p + "/" + name) == p && Dirname("/" + name) == "/"
  {
    HeadOf(p + "/", name);
    HeadOf("/", name);
    SlashedIsStripped(p, p + "/");
    assert RStrip("/") == RStrip("");
  }

  lemma {:induction false} HeadOf(p: Path, name: string)
    requires p != "" && p[|p| - 1] == '/' && '/' !in name
    ensures Head(p + name) == p
    decreases |name|
  {
    if name == "" {
      assert p + name == p;
    } else {
      HeadOf(p, name[..|name| - 1]);
      assert (p + name)[..|p + name| - 1] == p + name[..|name| - 1];
    }
  }

  /** Nothing of the root seems to be on the device: all targets are pushed, and nothing is stale. */
  ghost predicate IsBare(r: Root, plan: Plan) {
    plan.changed != map[] && plan.stale == {} && forall p :: IsTarget(r, p) ==> p in plan.changed
  }

  ghost predicate IsMissing(roots: seq<Root>, plans: seq<Plan>, d: Path)
    requires |plans| <= |roots|
  {
    exists i :: 0 <= i < |plans| && d == DirFor(roots[i]) && IsBare(roots[i], plans[i])
  }

  lemma NothingMissing(roots: seq<Root>)
    ensures AreMissing(roots, [], [])
  {
  }

  ghost predicate AreMissing(roots: seq<Root>, plans: seq<Plan>, dirs: seq<Path>)
    requires |plans| <= |roots|
  {
    forall d :: d in dirs <==> IsMissing(roots, plans, d)
  }

  lemma BareIff(r: Root, plan: Plan, upToDate: set<Path>)
    requires forall p :: p in upToDate <==> IsTarget(r, p) && p !in plan.changed
    ensures IsBare(r, plan) <==> plan.changed != map[] && upToDate == {} && plan.stale == {}
  {
    assert (forall p :: p !in upToDate) <==> upToDate == {};
    assert (forall p :: IsTarget(r, p) ==> p in plan.changed) <==> forall p :: p !in upToDate;
  }

  lemma NoPlans(s: Setting, roots: seq<Root>)
    ensures ArePlans(s, roots, []) && AllChanged([]) == map[] && AllStale([]) == {}
  {
  }

  lemma PlansNext(s: Setting, roots: seq<Root>, plans: seq<Plan>, plan: Plan)
    requires |plans| < |roots| && ArePlans(s, roots, plans) && IsPlan(s, roots[|plans|], plan)
    ensures ArePlans(s, roots, plans + [plan])
    ensures AllChanged(plans + [plan]) == AllChanged(plans) + plan.changed
    ensures AllStale(plans + [plan]) == AllStale(plans) + plan.stale
  {
    hide IsPlan;
    assert (plans + [plan])[..|plans|] == plans;
  }

  /** One more plan, whose targets that are not pushed are `upToDate`. */
  lemma MissingNext(roots: seq<Root>, plans: seq<Plan>, dirs: seq<Path>, plan: Plan, upToDate: set<Path>)
    requires |plans| < |roots| && AreMissing(roots, plans, dirs)
    requires forall p :: p in upToDate <==> IsTarget(roots[|plans|], p) && p !in plan.changed
    ensures
      var r := roots[|plans|];
      var bare := plan.changed != map[] && upToDate == {} && plan.stale == {};
      AreMissing(roots, plans + [plan], if bare then dirs + [DirFor(r)] else dirs)
  {
    var r, more := roots[|plans|], plans + [plan];
    BareIff(r, plan, upToDate);
    forall d ensures IsMissing(roots, more, d) <==> IsMissing(roots, plans, d) || (d == DirFor(r) && IsBare(r, plan)) {
      hide IsBare, DirFor;
      if IsMissing(roots, plans, d) {
        var i :| 0 <= i < |plans| && d == DirFor(roots[i]) && IsBare(roots[i], plans[i]);
        assert more[i] == plans[i];
      }
    }
  }

  datatype Command = Rm(paths: set<Path>) | Mkdir(dirs: seq<Path>) | AdbPush(content: string, path: Path)

  function Effect(files: map<Path, string>, c: Command): map<Path, string> {
    match c
    case Rm(gone) => files - gone
    case Mkdir(_) => files
    case AdbPush(content, path) => files[path := content]
  }

  /** What the commands make of the files of the device. */
  function Replay(files: map<Path, string>, cs: seq<Command>): map<Path, string>
    decreases |cs|
  {
    if cs == [] then files else Effect(Replay(files, cs[..|cs| - 1]), cs[|cs| - 1])
  }

  lemma ReplayNext(files: map<Path, string>, cs: seq<Command>, c: Command)
    ensures Replay(files, cs + [c]) == Effect(Replay(files, cs), c)
  {
    assert (cs + [c])[..|cs|] == cs;
  }

  lemma ReplayPush(files: map<Path, string>, cs: seq<Command>, content: string, path: Path)
    ensures Replay(files, cs + [AdbPush(content, path)]) == Replay(files, cs)[path := content]
  {
    ReplayNext(files, cs, AdbPush(content, path));
  }

  /** Each file is pushed once. */
  ghost predicate ArePushes(cs: seq<Command>, changed: map<Path, string>) {
    && |cs| == |changed|
    && (forall i :: 0 <= i < |cs| ==> cs[i].AdbPush? && cs[i].path in changed && cs[i].content == changed[cs[i].path])
    && forall i, k :: 0 <= i < k < |cs| ==> cs[i].path != cs[k].path
  }

  /** All but the files of `rest` have been pushed. */
  ghost predicate Pushed(cs: seq<Command>, changed: map<Path, string>, rest: set<Path>) {
    && |cs| == |changed.Keys| - |rest|
    && (forall i :: 0 <= i < |cs| ==>
          cs[i].AdbPush? && cs[i].path in changed && cs[i].path !in rest && cs[i].content == changed[cs[i].path])
    && forall i, k :: 0 <= i < k < |cs| ==> cs[i].path != cs[k].path
  }

  lemma NothingPushed(changed: map<Path, string>)
    ensures Pushed([], changed, changed.Keys)
  {
  }

  lemma PushedNext(cs: seq<Command>, changed: map<Path, string>, rest: set<Path>, p: Path)
    requires Pushed(cs, changed, rest) && p in rest && p in changed
    ensures Pushed(cs + [AdbPush(changed[p], p)], changed, rest - {p})
  {
  }

  lemma AllPushed(cs: seq<Command>, changed: map<Path, string>)
    requires Pushed(cs, changed, {})
    ensures ArePushes(cs, changed) && (cs == [] <==> changed == map[])
  {
    assert |changed.Keys| == |changed|;
  }

  /** The stale files go first, then the missing directories are made, then the files are pushed. */
  ghost predicate InOrder(told: seq<Command>, stale: set<Path>, dirs: seq<Path>, changed: map<Path, string>) {
    exists pushes :: ArePushes(pushes, changed)
      && told == (if stale != {} then [Rm(stale)] else []) + (if dirs != [] then [Mkdir(dirs)] else []) + pushes
  }

  /** All targets of the root are to be pushed, and nothing is stale. */
  ghost predicate Bare(s: Setting, r: Root) {
    && (exists p :: s.Changes(r, p)) && (forall p :: IsTarget(r, p) ==> s.Changes(r, p))
    && forall p :: !s.Drops(r, p)
  }

  /** The directories that the roots need of which nothing is there. */
  ghost predicate AreNeeded(s: Setting, roots: seq<Root>, dirs: seq<Path>) {
    forall d :: d in dirs <==> exists i :: 0 <= i < |roots| && d == DirFor(roots[i]) && Bare(s, roots[i])
  }

  lemma BareIsBare(s: Setting, r: Root, plan: Plan)
    requires IsPlan(s, r, plan)
    ensures IsBare(r, plan) <==> Bare(s, r)
  {
    assert plan.changed != map[] <==> exists p :: p in plan.changed;
    assert plan.stale == {} <==> forall p :: p !in plan.stale;
  }

  lemma MissingAreNeeded(s: Setting, roots: seq<Root>, plans: seq<Plan>, dirs: seq<Path>)
    requires |plans| == |roots| && ArePlans(s, roots, plans) && AreMissing(roots, plans, dirs)
    ensures AreNeeded(s, roots, dirs)
  {
    forall i | 0 <= i < |roots| ensures IsBare(roots[i], plans[i]) <==> Bare(s, roots[i]) {
      BareIsBare(s, roots[i], plans[i]);
    }
    hide IsPlan, IsBare, Bare, DirFor;
    forall d ensures IsMissing(roots, plans, d)
      <==> exists i :: 0 <= i < |roots| && d == DirFor(roots[i]) && Bare(s, roots[i]) {
    }
  }

  /** What the device is told: what the push needs and nothing else, and the files show the effect. */
  ghost predicate Told(s: Setting, roots: seq<Root>, told: seq<Command>, after: map<Path, string>) {
    && Replay(s.files, told) == after
    && exists stale, dirs, changed ::
         && InOrder(told, stale, dirs, changed) && AreNeeded(s, roots, dirs)
         && (forall p :: p in stale <==> s.deleteStale && exists i :: 0 <= i < |roots| && s.Drops(roots[i], p))
         && (forall p :: p in changed <==> exists i :: 0 <= i < |roots| && s.Changes(roots[i], p))
  }

  lemma ReplayRm(files: map<Path, string>, gone: set<Path>)
    ensures Replay(files, if gone != {} then [Rm(gone)] else []) == files - gone
  {
    assert files - {} == files;
    ReplayNext(files, [], Rm(gone));
    assert [] + [Rm(gone)] == [Rm(gone)];
  }

  lemma ReplayMk(files: map<Path, string>, before: seq<Command>, dirs: seq<Path>)
    ensures Replay(files, before + (if dirs != [] then [Mkdir(dirs)] else [])) == Replay(files, before)
  {
    ReplayNext(files, before, Mkdir(dirs));
    assert before + [] == before;
  }

  lemma PushesInOrder(gone: set<Path>, dirs: seq<Path>, changed: map<Path, string>, pushes: seq<Command>)
    requires if changed == map[] then pushes == [] else ArePushes(pushes, changed)
    ensures
      var rm := if gone != {} then [Rm(gone)] else [];
      var mk := if dirs != [] then [Mkdir(dirs)] else [];
      InOrder(rm + mk + pushes, gone, dirs, changed)
  {
    assert ArePushes(pushes, changed);
  }

  lemma NothingChangedNothingMissing(roots: seq<Root>, plans: seq<Plan>, dirs: seq<Path>)
    requires |plans| == |roots| && AreMissing(roots, plans, dirs)
    ensures AllChanged(plans) == map[] ==> dirs == []
  {
    hide DirFor;
    if AllChanged(plans) == map[] && dirs != [] {
      assert IsMissing(roots, plans, dirs[0]);
      var i :| 0 <= i < |plans| && dirs[0] == DirFor(roots[i]) && IsBare(roots[i], plans[i]);
      var p :| p in plans[i].changed;
      InAll(plans, p);
    }
  }

  lemma PlansAreTold(s: Setting, roots: seq<Root>, plans: seq<Plan>, dirs: seq<Path>, told: seq<Command>,
                     after: map<Path, string>)
    requires |plans| == |roots| && ArePlans(s, roots, plans) && AreNeeded(s, roots, dirs)
    requires Replay(s.files, told) == after
    requires InOrder(told, if s.deleteStale then AllStale(plans) else {}, dirs, AllChanged(plans))
    ensures Told(s, roots, told, after)
  {
    hide InOrder, AreNeeded, Replay;
    forall p
      ensures p in AllChanged(plans) <==> exists i :: 0 <= i < |roots| && s.Changes(roots[i], p)
      ensures p in AllStale(plans) <==> exists i :: 0 <= i < |roots| && s.Drops(roots[i], p)
    {
      InAll(plans, p);
      forall i | 0 <= i < |plans|
        ensures (p in plans[i].changed <==> s.Changes(roots[i], p)) && (p in plans[i].stale <==> s.Drops(roots[i], p))
      {
        assert IsPlan(s, roots[i], plans[i]);
      }
    }
  }

  lemma NoneOrAll(files: map<Path, string>, changed: map<Path, string>)
    ensures files + (changed - changed.Keys) == files && files + (changed - {}) == files + changed
  {
  }

  lemma FilesNext(files: map<Path, string>, changed: map<Path, string>, rest: set<Path>, p: Path)
    requires p in rest && rest <= changed.Keys
    ensures (files + (changed - rest))[p := changed[p]] == files + (changed - (rest - {p}))
  {
  }

  class DeviceUtils {
    const checksum: Checksum
    const enableDeviceFilesCache: bool
    var cache: Cache                // _cache['device_path_checksums']
    var files: map<Path, string>    // the device
    var commands: seq<Command>      // what the device was told to do

    ghost predicate Valid()
      reads this
    {
      && Injective(checksum) && CacheTrue(checksum, files, cache)
      && forall d :: d in cache ==> d != "" && d[|d| - 1] != '/'
    }

    constructor (checksum: Checksum, enableDeviceFilesCache: bool, files: map<Path, string>)
      ensures this.checksum == checksum && this.enableDeviceFilesCache == enableDeviceFilesCache && this.files == files
      ensures cache == map[] && commands == [] && (Injective(checksum) ==> Valid())
    {
      this.checksum, this.enableDeviceFilesCache := checksum, enableDeviceFilesCache;
      this.files, cache, commands := files, map[], [];
    }

    ghost function Now(deleteStale: bool): Setting
      reads this
    {
      Setting(checksum, enableDeviceFilesCache, deleteStale, cache, files)
    }

    /** `_GetChangedAndStaleFiles`; the last result is what the commit function will store. */
    method GetChangedAndStaleFiles(r: Root, trackStale: bool)
      returns (toPush: map<Path, string>, upToDate: set<Path>, toDelete: set<Path>, commit: Entry)
      requires ValidRoot(r)
      modifies `cache
      ensures cache - {r.Base()} == old(cache) - {r.Base()}
      ensures IsPlan(old(Now(trackStale)), r, Plan(toPush, toDelete))
      ensures forall p :: p in upToDate <==> IsTarget(r, p) && p !in toPush
      ensures IsCommit(checksum, r, trackStale, commit)
    {
      var base := r.Base();
      var ignoreOtherFiles := !trackStale && r.host.Dir?;
      var hostFiles := HostFiles(r.host);
      var deviceChecksums;
      if enableDeviceFilesCache && base in cache && cache[base].ignoreOther == ignoreOtherFiles {
        deviceChecksums := cache[base].sums;
      } else {
        deviceChecksums := Measured(checksum, files, r, ignoreOtherFiles);
        cache := cache[base := Entry(ignoreOtherFiles, deviceChecksums)];
      }
      ghost var known := deviceChecksums;
      toPush, upToDate, toDelete := map[], {}, {};
      match r.host {
        case File(content) =>
          if base in deviceChecksums && deviceChecksums[base] == checksum(content) {
            upToDate := {base};
          } else {
            toPush := map[base := content];
          }
        case Dir(_) =>
          toPush, upToDate, deviceChecksums := Compare(r, deviceChecksums);
          toDelete := deviceChecksums.Keys;
      }
      var newSums := NewSums(r);
      commit := Entry(ignoreOtherFiles, newSums);
    }

    /** The loop of lines 1360-1368 over the host's checksums. */
    method Compare(r: Root, known: map<Path, int>)
      returns (toPush: map<Path, string>, upToDate: set<Path>, left: map<Path, int>)
      requires ValidRoot(r) && r.host.Dir?
      ensures forall p :: p in toPush <==> IsChanged(checksum, known, r, p)
      ensures forall p :: p in toPush ==> IsTarget(r, p) && toPush[p] == Source(r, p)
      ensures forall p :: p in upToDate <==> IsTarget(r, p) && p !in toPush
      ensures forall p :: p in left <==> p in known && !IsTarget(r, p)
    {
      var base := r.Base();
      var rest := r.host.files.Keys;
      toPush, upToDate, left := map[], {}, known;
      while rest != {}
        invariant rest <= r.host.files.Keys
        invariant forall p :: p in toPush <==> IsChanged(checksum, known, r, p) && p[|base| + 1..] !in rest
        invariant forall p :: p in toPush ==> IsTarget(r, p) && toPush[p] == Source(r, p)
        invariant forall p :: p in upToDate <==> IsTarget(r, p) && p[|base| + 1..] !in rest && p !in toPush
        invariant forall p :: p in left <==> p in known && !(IsTarget(r, p) && p[|base| + 1..] !in rest)
        invariant forall p :: p in left ==> left[p] == known[p]
      {
        var rel :| rel in rest;
        rest := rest - {rel};
        var p := Join(base, rel);
        assert p[..|base|] == base && p[|base| + 1..] == rel && IsTarget(r, p);
        assert forall q :: IsTarget(r, q) && q[|base| + 1..] == rel ==> q == p by {
          forall q | IsTarget(r, q) && q[|base| + 1..] == rel ensures q == p {
            assert q == q[..|base|] + [q[|base|]] + q[|base| + 1..];
          }
        }
        var content := r.host.files[rel];
        if p in left && left[p] == checksum(content) {
          upToDate := upToDate + {p};
        } else {
          toPush := toPush[p := content];
        }
        left := left - {p};
      }
    }

    /** The dictionary of `cache_commit_func`. */
    method NewSums(r: Root) returns (sums: map<Path, int>)
      ensures IsNewSums(checksum, r, sums)
    {
      var base := r.Base();
      var hostFiles := HostFiles(r.host);
      var rest := hostFiles.Keys;
      sums := map[];
      while rest != {}
        invariant rest <= hostFiles.Keys
        invariant forall p :: p in sums <==> IsJoin(base, p) && p[|base| + 1..] in hostFiles.Keys - rest
        invariant forall p :: p in sums ==> sums[p] == checksum(hostFiles[p[|base| + 1..]])
      {
        var rel :| rel in rest;
        rest := rest - {rel};
        var p := Join(base, rel);
        assert p[..|base|] == base && p[|base| + 1..] == rel;
        forall q | IsJoin(base, q) && q[|base| + 1..] == rel ensures q == p {
          assert q == q[..|base|] + [q[|base|]] + q[|base| + 1..];
        }
        sums := sums[p := checksum(hostFiles[rel])];
      }
    }

    /** The first loop: nothing on the device changes yet. */
    method CollectAll(roots: seq<Root>, deleteStale: bool)
      returns (changed: map<Path, string>, stale: set<Path>, missingDirs: seq<Path>, commits: seq<Entry>,
               ghost plans: seq<Plan>)
      requires ValidRoots(roots)
      modifies `cache
      ensures forall d :: !IsRoot(roots, |roots|, d) ==> SameEntry(old(cache), cache, d)
      ensures |commits| == |roots| == |plans| && changed == AllChanged(plans) && stale == AllStale(plans)
      ensures forall i :: 0 <= i < |roots| ==> IsCommit(checksum, roots[i], deleteStale, commits[i])
      ensures ArePlans(old(Now(deleteStale)), roots, plans)
      ensures AreMissing(roots, plans, missingDirs)
    {
      hide IsCommit, IsPlan, SameEntry, IsRoot, AreMissing, ArePlans, AllChanged, AllStale;
      NothingMissing(roots);
      ghost var s := Now(deleteStale);
      changed, stale, missingDirs, commits, plans := map[], {}, [], [], [];
      SameEntries(s.cache);
      NoPlans(s, roots);
      for i := 0 to |roots|
        invariant |commits| == i == |plans| && changed == AllChanged(plans) && stale == AllStale(plans)
        invariant forall d :: !IsRoot(roots, i, d) ==> SameEntry(s.cache, cache, d)
        invariant forall k :: 0 <= k < i ==> IsCommit(checksum, roots[k], deleteStale, commits[k])
        invariant ArePlans(s, roots, plans)
        invariant AreMissing(roots, plans, missingDirs)
      {
        ghost var was := Now(deleteStale);
        RootIsNew(roots, i);
        var c, u, d, e := GetChangedAndStaleFiles(roots[i], deleteStale);
        SamePlan(s, was, roots[i], Plan(c, d));
        OtherEntries(s.cache, was.cache, cache, roots, i);
        MissingNext(roots, plans, missingDirs, Plan(c, d), u);
        PlansNext(s, roots, plans, Plan(c, d));
        changed, stale, commits, plans := changed + c, stale + d, commits + [e], plans + [Plan(c, d)];
        if c != map[] && u == {} && d == {} {
          missingDirs := missingDirs + [DirFor(roots[i])];
        }
      }
    }

    method PushChangedFiles(roots: seq<Root>, deleteStale: bool)
      requires Valid() && ValidRoots(roots) && Separate(cache, roots)
      requires forall i :: 0 <= i < |roots| ==> KindsAgree(cache, roots[i])
      modifies this
      ensures Valid() && Separate(cache, roots)
      ensures Mirrored(old(files), files, roots, deleteStale)
      ensures forall i :: 0 <= i < |roots| ==> Committed(checksum, cache, roots[i], deleteStale)
      ensures forall d :: !IsRoot(roots, |roots|, d) ==> SameEntry(old(cache), cache, d)
      ensures commands == old(commands) <==> old(AllIdle(Now(deleteStale), roots))
      ensures old(commands) <= commands
      ensures Told(old(Now(deleteStale)), roots, commands[|old(commands)|..], files)
      ensures forall i, p :: 0 <= i < |roots| && IsSlashed(p, roots[i].device) ==>
        Placed(files, roots[i], p, deleteStale)
    {
      hide Mirrored, AllIdle, Separate, CacheTrue, IsPlan, ArePlans, IsCommit, SameEntry, IsRoot;
      hide KindsAgree, ValidRoots, AllChanged, AllStale, Injective, RStrip, Told, Placed, Replay, InOrder;
      hide AreNeeded, AreMissing, IsMissing, IsSlashed;
      ghost var s := Now(deleteStale);
      var changed, stale, missingDirs, commits, plans := CollectAll(roots, deleteStale);
      PushMirrors(s, roots, plans);
      IdleIff(s, roots, plans);
      MissingAreNeeded(s, roots, plans, missingDirs);
      NothingChangedNothingMissing(roots, plans, missingDirs);
      Perform(changed, stale, missingDirs, deleteStale);
      PlansAreTold(s, roots, plans, missingDirs, commands[|old(commands)|..], files);
      forall i, p | 0 <= i < |roots| && IsSlashed(p, roots[i].device) ensures Placed(files, roots[i], p, deleteStale) {
        MirroredIsPlaced(s.files, files, roots, deleteStale, i, p);
      }
      ghost var was := cache;
      CommitAll(roots, commits);
      SameTwice(s.cache, was, cache, roots);
      CacheStaysTrue(s, roots, files, cache);
    }

    /** Lines 1289-1295. */
    method Perform(changed: map<Path, string>, stale: set<Path>, missingDirs: seq<Path>, deleteStale: bool)
      requires changed == map[] ==> missingDirs == []
      modifies `files, `commands
      ensures files == (if deleteStale then old(files) - stale else old(files)) + changed
      ensures commands == old(commands) <==> changed == map[] && (deleteStale ==> stale == {})
      ensures old(commands) <= commands
      ensures
        var told := commands[|old(commands)|..];
        Replay(old(files), told) == files && InOrder(told, if deleteStale then stale else {}, missingDirs, changed)
    {
      hide ArePushes, Replay, InOrder;
      ghost var was, gone := commands, if deleteStale then stale else {};
      ghost var rm := if gone != {} then [Rm(gone)] else [];
      ghost var mk := if missingDirs != [] then [Mkdir(missingDirs)] else [];
      ReplayRm(files, gone);
      ReplayMk(files, rm, missingDirs);
      if deleteStale && stale != {} {
        files, commands := files - stale, commands + [Rm(stale)];
      }
      ghost var pushes := [];
      if changed != map[] {
        if missingDirs != [] {
          commands := commands + [Mkdir(missingDirs)];
        }
        assert commands == was + (rm + mk);
        pushes := PushFilesImpl(changed, old(files), rm + mk);
      }
      assert rm + mk + [] == rm + mk;
      assert commands == was + (rm + mk + pushes);
      assert commands[|was|..] == rm + mk + pushes;
      PushesInOrder(gone, missingDirs, changed, pushes);
    }

    /** `_PushFilesImpl`: the files reach the device one by one or in an archive. */
    method PushFilesImpl(changed: map<Path, string>, ghost start: map<Path, string>, ghost before: seq<Command>)
      returns (ghost pushes: seq<Command>)
      requires Replay(start, before) == files
      modifies `files, `commands
      ensures files == old(files) + changed && commands == old(commands) + pushes
      ensures Replay(start, before + pushes) == files && ArePushes(pushes, changed)
      ensures pushes == [] <==> changed == map[]
    {
      hide *;
      pushes := [];
      var rest := changed.Keys;
      NothingPushed(changed);
      NoneOrAll(files, changed);
      assert before + pushes == before;
      while rest != {}
        invariant rest <= changed.Keys && Pushed(pushes, changed, rest)
        invariant files == old(files) + (changed - rest) && commands == old(commands) + pushes
        invariant Replay(start, before + pushes) == files
      {
        var p :| p in rest;
        ghost var push := AdbPush(changed[p], p);
        PushedNext(pushes, changed, rest, p);
        ReplayPush(start, before + pushes, changed[p], p);
        assert before + pushes + [push] == before + (pushes + [push]);
        FilesNext(old(files), changed, rest, p);
        rest := rest - {p};
        files, commands := files[p := changed[p]], commands + [AdbPush(changed[p], p)];
        pushes := pushes + [push];
      }
      AllPushed(pushes, changed);
    }

    /** The loop over the commit functions. */
    method CommitAll(roots: seq<Root>, commits: seq<Entry>)
      requires ValidRoots(roots) && |commits| == |roots|
      modifies `cache
      ensures forall i :: 0 <= i < |roots| ==> roots[i].Base() in cache && cache[roots[i].Base()] == commits[i]
      ensures forall d :: !IsRoot(roots, |roots|, d) ==> SameEntry(old(cache), cache, d)
    {
      for i := 0 to |roots|
        invariant forall k :: 0 <= k < i ==> roots[k].Base() in cache && cache[roots[k].Base()] == commits[k]
        invariant forall d :: !IsRoot(roots, i, d) ==> SameEntry(old(cache), cache, d)
      {
        assert forall k :: 0 <= k < i ==> Apart(roots[k].Base(), roots[i].Base());
        ghost var was := cache;
        cache := cache[roots[i].Base() := commits[i]];
        OtherEntries(old(cache), was, cache, roots, i);
      }
    }
  }

  ghost predicate IsRoot(roots: seq<Root>, n: nat, d: Path)
    requires n <= |roots|
  {
    exists i :: 0 <= i < n && roots[i].Base() == d
  }

  lemma RootIsNew(roots: seq<Root>, i: nat)
    requires ValidRoots(roots) && i < |roots|
    ensures !IsRoot(roots, i, roots[i].Base())
  {
    assert forall k :: 0 <= k < i ==> Apart(roots[k].Base(), roots[i].Base());
  }

  lemma SameEntries(a: Cache)
    ensures forall d :: SameEntry(a, a, d)
  {
  }

  /** What changes at root `i` only changes no entry but the root's. */
  lemma OtherEntries(start: Cache, a: Cache, b: Cache, roots: seq<Root>, i: nat)
    requires i < |roots| && a - {roots[i].Base()} == b - {roots[i].Base()}
    requires forall d :: !IsRoot(roots, i, d) ==> SameEntry(start, a, d)
    ensures forall d :: !IsRoot(roots, i + 1, d) ==> SameEntry(start, b, d)
  {
    forall d | !IsRoot(roots, i + 1, d) ensures SameEntry(start, b, d) {
      assert roots[i].Base() != d && !IsRoot(roots, i, d);
      assert d in a <==> d in a - {roots[i].Base()};
      assert d in b <==> d in b - {roots[i].Base()};
      assert d in a ==> a[d] == (a - {roots[i].Base()})[d] && b[d] == (b - {roots[i].Base()})[d];
    }
  }

  lemma SameTwice(a: Cache, b: Cache, c: Cache, roots: seq<Root>)
    requires forall d :: !IsRoot(roots, |roots|, d) ==> SameEntry(a, b, d)
    requires forall d :: !IsRoot(roots, |roots|, d) ==> SameEntry(b, c, d)
    ensures forall d :: !IsRoot(roots, |roots|, d) ==> SameEntry(a, c, d)
  {
  }

  /** A plan depends on no cache entry but the root's own. */
  lemma SamePlan(s: Setting, t: Setting, r: Root, plan: Plan)
    requires SameEntry(s.cache, t.cache, r.Base()) && t == s.(cache := t.cache)
    ensures IsPlan(s, r, plan) <==> IsPlan(t, r, plan)
  {
    assert s.KnownOf(r) == t.KnownOf(r);
  }

  ghost predicate AllIdle(s: Setting, roots: seq<Root>) {
    forall i :: 0 <= i < |roots| ==> Idle(s, roots[i])
  }

  lemma IdleIff(s: Setting, roots: seq<Root>, plans: seq<Plan>)
    requires |plans| == |roots| && ArePlans(s, roots, plans)
    ensures AllIdle(s, roots) <==> AllChanged(plans) == map[] && (s.deleteStale ==> AllStale(plans) == {})
  {
    forall p ensures (p in AllChanged(plans) || (s.deleteStale && p in AllStale(plans)))
      <==> SomeRootBusy(s, roots, p) {
      InAll(plans, p);
      forall i | 0 <= i < |plans|
        ensures (p in plans[i].changed <==> s.Changes(roots[i], p)) && (p in plans[i].stale <==> s.Drops(roots[i], p))
      {
        assert IsPlan(s, roots[i], plans[i]);
      }
    }
    BusyRoots(s, roots);
  }

  lemma BusyRoots(s: Setting, roots: seq<Root>)
    ensures AllIdle(s, roots) <==> forall p :: !SomeRootBusy(s, roots, p)
  {
    if AllIdle(s, roots) {
      assert forall i :: 0 <= i < |roots| ==> Idle(s, roots[i]);
    } else {
      var i :| 0 <= i < |roots| && !Idle(s, roots[i]);
      var p :| s.Changes(roots[i], p) || (s.deleteStale && s.Drops(roots[i], p));
      assert SomeRootBusy(s, roots, p);
    }
  }

  ghost predicate SomeRootBusy(s: Setting, roots: seq<Root>, p: Path) {
    exists i :: 0 <= i < |roots| && (s.Changes(roots[i], p) || (s.deleteStale && s.Drops(roots[i], p)))
  }

  /** The committed cache is true of the device after the push. */
  lemma CacheStaysTrue(s: Setting, roots: seq<Root>, after: map<Path, string>, cache: Cache)
    requires s.Valid() && ValidRoots(roots) && Separate(s.cache, roots)
    requires forall d :: d in s.cache ==> d != "" && d[|d| - 1] != '/'
    requires Mirrored(s.files, after, roots, s.deleteStale)
    requires forall i :: 0 <= i < |roots| ==> Committed(s.checksum, cache, roots[i], s.deleteStale)
    requires forall d :: !IsRoot(roots, |roots|, d) ==> SameEntry(s.cache, cache, d)
    ensures CacheTrue(s.checksum, after, cache) && Separate(cache, roots)
    ensures forall d :: d in cache ==> d != "" && d[|d| - 1] != '/'
  {
    forall d | d in cache ensures EntryTrue(s.checksum, after, d, cache[d]) && d != "" && d[|d| - 1] != '/'
      ensures forall i :: 0 <= i < |roots| ==> d == roots[i].Base() || Apart(d, roots[i].Base())
    {
      if IsRoot(roots, |roots|, d) {
        var i :| 0 <= i < |roots| && roots[i].Base() == d;
        assert Committed(s.checksum, cache, roots[i], s.deleteStale);
        CommitIsTrue(s.checksum, after, roots[i], s.deleteStale, cache[d]);
      } else {
        assert SameEntry(s.cache, cache, d);
        ApartEntryStaysTrue(s, roots, after, d);
      }
    }
  }

  ghost predicate SameEntry(a: Cache, b: Cache, d: Path) {
    (d in a <==> d in b) && (d in a ==> a[d] == b[d])
  }

  ghost predicate Committed(checksum: Checksum, cache: Cache, r: Root, deleteStale: bool) {
    r.Base() in cache && IsCommit(checksum, r, deleteStale, cache[r.Base()])
  }

  /** Paths that were pushed to before are not nested with the ones pushed to now. */
  ghost predicate Separate(cache: Cache, roots: seq<Root>) {
    forall d, i :: d in cache && 0 <= i < |roots| ==> d == roots[i].Base() || Apart(d, roots[i].Base())
  }

  /** The cache is only a cache: with it or without it, the device ends up the same. */
  lemma CacheIsTransparent(s: Setting, roots: seq<Root>, plans: seq<Plan>, uncached: seq<Plan>)
    requires s.Valid() && ValidRoots(roots) && forall i :: 0 <= i < |roots| ==> KindsAgree(s.cache, roots[i])
    requires |plans| == |roots| && ArePlans(s, roots, plans)
    requires |uncached| == |roots| && ArePlans(s.(enabled := false), roots, uncached)
    ensures After(s, plans) == After(s, uncached)
  {
    hide Mirrored, AllChanged, AllStale, ArePlans, KindsAgree, ValidRoots;
    var t := s.(enabled := false);
    PushMirrors(s, roots, plans);
    PushMirrors(t, roots, uncached);
    assert After(t, uncached) == After(s, uncached);
    MirroredUnique(s.files, After(s, plans), After(s, uncached), roots, s.deleteStale);
  }

  // ---------------------------------------------------------------------------------
  // Runs of pushes
  // ---------------------------------------------------------------------------------

  datatype Push = Push(roots: seq<Root>, deleteStale: bool)

  /** The cache knows of the roots, or of paths apart from them. */
  ghost predicate Fits(cache: Cache, roots: seq<Root>) {
    Separate(cache, roots) && forall i :: 0 <= i < |roots| ==> KindsAgree(cache, roots[i])
  }

  /** Roots of different pushes are apart, or the same path and both files or both directories. */
  ghost predicate Compatible(a: seq<Root>, b: seq<Root>) {
    forall i, k :: 0 <= i < |a| && 0 <= k < |b| ==>
      Apart(a[i].Base(), b[k].Base()) || (a[i].Base() == b[k].Base() && (a[i].host.Dir? <==> b[k].host.Dir?))
  }

  /** The cache fits every push, whichever comes next. */
  ghost predicate ValidPushes(cache: Cache, pushes: seq<Push>) {
    && (forall i :: 0 <= i < |pushes| ==> ValidRoots(pushes[i].roots) && Fits(cache, pushes[i].roots))
    && (forall i, k :: 0 <= i < |pushes| && 0 <= k < |pushes| ==> Compatible(pushes[i].roots, pushes[k].roots))
  }

  /** A push leaves the cache fit for the other pushes. */
  lemma FitsStays(checksum: Checksum, was: Cache, cache: Cache, roots: seq<Root>, deleteStale: bool, others: seq<Root>)
    requires ValidRoots(roots) && Fits(was, others) && Compatible(roots, others)
    requires forall i :: 0 <= i < |roots| ==> Committed(checksum, cache, roots[i], deleteStale)
    requires forall d :: !IsRoot(roots, |roots|, d) ==> SameEntry(was, cache, d)
    ensures Fits(cache, others)
  {
    forall d, k | d in cache && 0 <= k < |others|
      ensures Apart(d, others[k].Base()) || (d == others[k].Base() && KindsAgree(cache, others[k]))
    {
      if IsRoot(roots, |roots|, d) {
        var i :| 0 <= i < |roots| && roots[i].Base() == d;
        assert Committed(checksum, cache, roots[i], deleteStale);
        assert FileKey(d)[|d| + 1..] == "";
      } else {
        assert SameEntry(was, cache, d);
      }
    }
  }

  /** The device after each push: every push mirrors its roots. */
  ghost predicate IsHistory(pushes: seq<Push>, history: seq<map<Path, string>>) {
    && |history| == |pushes| + 1
    && forall i :: 0 <= i < |pushes| ==> Mirrored(history[i], history[i + 1], pushes[i].roots, pushes[i].deleteStale)
  }

  lemma {:induction false} HistoryUnique(pushes: seq<Push>, a: seq<map<Path, string>>, b: seq<map<Path, string>>,
                                         n: nat)
    requires IsHistory(pushes, a) && IsHistory(pushes, b) && a[0] == b[0] && n <= |pushes|
    ensures a[n] == b[n]
    decreases n
  {
    if n > 0 {
      HistoryUnique(pushes, a, b, n - 1);
      MirroredUnique(a[n - 1], a[n], b[n], pushes[n - 1].roots, pushes[n - 1].deleteStale);
    }
  }

  /** Any sequence of pushes: each mirrors its roots, and the cache stays true of the device throughout. */
  method PushAll(device: DeviceUtils, pushes: seq<Push>)
    returns (ghost history: seq<map<Path, string>>, ghost caches: seq<Cache>)
    requires device.Valid() && ValidPushes(device.cache, pushes)
    modifies device
    ensures device.Valid() && IsHistory(pushes, history) && |caches| == |pushes| + 1
    ensures history[0] == old(device.files) && history[|pushes|] == device.files
    ensures forall i :: 0 <= i <= |pushes| ==> CacheTrue(device.checksum, history[i], caches[i])
    ensures caches[0] == old(device.cache) && caches[|pushes|] == device.cache
  {
    hide Mirrored, CacheTrue, ValidPushes;
    history, caches := [device.files], [device.cache];
    for i := 0 to |pushes|
      invariant device.Valid() && |history| == |caches| == i + 1
      invariant history[0] == old(device.files) && caches[0] == old(device.cache)
      invariant history[i] == device.files && caches[i] == device.cache
      invariant forall k :: 0 <= k < i ==> Mirrored(history[k], history[k + 1], pushes[k].roots, pushes[k].deleteStale)
      invariant forall k :: 0 <= k <= i ==> CacheTrue(device.checksum, history[k], caches[k])
      invariant ValidPushes(device.cache, pushes)
    {
      PushOne(device, pushes, i);
      history, caches := history + [device.files], caches + [device.cache];
    }
  }

  method PushOne(device: DeviceUtils, pushes: seq<Push>, i: nat)
    requires device.Valid() && i < |pushes| && ValidPushes(device.cache, pushes)
    modifies device
    ensures device.Valid() && ValidPushes(device.cache, pushes)
      && CacheTrue(device.checksum, device.files, device.cache)
    ensures Mirrored(old(device.files), device.files, pushes[i].roots, pushes[i].deleteStale)
  {
    hide Mirrored, Fits, Compatible, CacheTrue, Injective, ValidRoots, Committed, IsRoot, SameEntry;
    ghost var was := device.cache;
    FitsMeans(was, pushes[i].roots);
    device.PushChangedFiles(pushes[i].roots, pushes[i].deleteStale);
    forall k | 0 <= k < |pushes| ensures Fits(device.cache, pushes[k].roots) {
      FitsStays(device.checksum, was, device.cache, pushes[i].roots, pushes[i].deleteStale, pushes[k].roots);
    }
  }

  lemma FitsMeans(cache: Cache, roots: seq<Root>)
    requires Fits(cache, roots)
    ensures Separate(cache, roots) && forall i :: 0 <= i < |roots| ==> KindsAgree(cache, roots[i])
  {
  }

  /** With the cache and without it, any sequence of pushes ends in the same device, whatever either cache knew. */
  method PushAllTwice(cached: DeviceUtils, uncached: DeviceUtils, pushes: seq<Push>)
    requires cached != uncached && cached.files == uncached.files && !uncached.enableDeviceFilesCache
    requires cached.Valid() && ValidPushes(cached.cache, pushes)
    requires uncached.Valid() && ValidPushes(uncached.cache, pushes)
    modifies cached, uncached
    ensures cached.files == uncached.files
  {
    ghost var a, ca := PushAll(cached, pushes);
    ghost var b, cb := PushAll(uncached, pushes);
    HistoryUnique(pushes, a, b, |pushes|);
  }

  /** A second identical push sends nothing unless the cache is on and some root is a file. */
  method PushTwice(device: DeviceUtils, roots: seq<Root>, deleteStale: bool) returns (sent: bool)
    requires device.Valid() && ValidRoots(roots) && Separate(device.cache, roots)
    requires forall i :: 0 <= i < |roots| ==> KindsAgree(device.cache, roots[i])
    modifies device
    ensures Mirrored(old(device.files), device.files, roots, deleteStale)
    ensures sent <==> device.enableDeviceFilesCache && exists i :: 0 <= i < |roots| && roots[i].host.File?
  {
    device.PushChangedFiles(roots, deleteStale);
    ghost var files := device.files;
    forall i | 0 <= i < |roots| ensures KindsAgree(device.cache, roots[i])
      ensures Idle(device.Now(deleteStale), roots[i]) <==> (roots[i].host.Dir? || !device.enableDeviceFilesCache)
    {
      var r := roots[i];
      assert AllDone(files, r, deleteStale) && Committed(device.checksum, device.cache, r, deleteStale);
      CommitIsTrue(device.checksum, files, r, deleteStale, device.cache[r.Base()]);
      SecondPushIff(device.Now(deleteStale), r);
    }
    var before := device.commands;
    device.PushChangedFiles(roots, deleteStale);
    sent := device.commands != before;
    MirroredTwice(old(device.files), files, device.files, roots, deleteStale);
  }

  lemma MirroredTwice(a: map<Path, string>, b: map<Path, string>, c: map<Path, string>, roots: seq<Root>,
                      deleteStale: bool)
    requires Mirrored(a, b, roots, deleteStale) && Mirrored(b, c, roots, deleteStale)
    ensures Mirrored(a, c, roots, deleteStale)
  {
    forall p | forall i :: 0 <= i < |roots| ==> !Governs(roots[i], deleteStale, p) ensures SameAt(a, c, p) {
      assert SameAt(a, b, p) && SameAt(b, c, p);
    }
  }
}
