/**
  Merging and searching dependency information: dependency_manager/local_path_info.py,
  dependency_info.py and manager.py.
 */
module Dependencies {
  import opened Wrappers

  type Path = string

  /** The files that exist, with their modification times. */
  type FileSystem = map<Path, int>

  /** `_path_priority_groups`. */
  type Groups = seq<seq<Path>>

  // ---------------------------------------------------------------------------------
  // The search
  // ---------------------------------------------------------------------------------

  /** The first of the newest existing paths of a group. */
  function Newest(fs: FileSystem, group: seq<Path>): (best: Option<Path>)
    ensures best.Some? ==> best.value in fs
    decreases |group|
  {
    if group == [] then None
    else
      var best, last := Newest(fs, group[..|group| - 1]), group[|group| - 1];
      if last in fs && (best.None? || fs[last] > fs[best.value]) then Some(last) else best
  }

  /** `GetLocalPath`: the newest of the first group that has an existing path. */
  function Search(fs: FileSystem, groups: Groups): Option<Path>
    decreases |groups|
  {
    if groups == [] then None
    else
      var earlier := Search(fs, groups[..|groups| - 1]);
      if earlier.Some? then earlier else Newest(fs, groups[|groups| - 1])
  }

  predicate Listed(groups: Groups, path: Path) {
    exists i :: 0 <= i < |groups| && path in groups[i]
  }

  // ---------------------------------------------------------------------------------
  // The merge
  // ---------------------------------------------------------------------------------

  /** The paths of a group that are not listed yet. */
  function Unlisted(groups: Groups, group: seq<Path>): seq<Path>
    decreases |group|
  {
    if group == [] then []
    else
      var last := group[|group| - 1];
      Unlisted(groups, group[..|group| - 1]) + (if Listed(groups, last) then [] else [last])
  }

  function Absorb(groups: Groups, group: seq<Path>): Groups {
    var more := Unlisted(groups, group);
    if more == [] then groups else groups + [more]
  }

  /** `LocalPathInfo.Update`. */
  function Merge(a: Groups, b: Groups): Groups
    decreases |b|
  {
    if b == [] then a else Absorb(Merge(a, b[..|b| - 1]), b[|b| - 1])
  }

  /** The documented search: first in `a`, then in `b`. */
  function OrElse(first: Option<Path>, second: Option<Path>): Option<Path> {
    if first.Some? then first else second
  }

  /** A search that finds something finds an existing path; one that finds nothing has seen none. */
  lemma {:induction false} NewestExists(fs: FileSystem, group: seq<Path>)
    ensures Newest(fs, group).None? <==> forall p :: p in group ==> p !in fs
    ensures Newest(fs, group).Some? ==> Newest(fs, group).value in group && Newest(fs, group).value in fs
    decreases |group|
  {
    if group != [] {
      NewestExists(fs, group[..|group| - 1]);
      assert forall p :: p in group <==> p in group[..|group| - 1] || p == group[|group| - 1];
    }
  }

  /** No existing path is newer, and none that is as new comes earlier. */
  lemma {:induction false} NewestIsFirstMaximum(fs: FileSystem, group: seq<Path>)
    ensures Newest(fs, group).Some? ==>
      exists k :: 0 <= k < |group| && group[k] == Newest(fs, group).value && IsFirstMaximum(fs, group, k)
    decreases |group|
  {
    if group != [] {
      var init := group[..|group| - 1];
      NewestIsFirstMaximum(fs, init);
      NewestExists(fs, init);
      if Newest(fs, init).Some? {
        var k :| 0 <= k < |init| && init[k] == Newest(fs, init).value && IsFirstMaximum(fs, init, k);
        assert group[k] == init[k];
        assert Newest(fs, group) == Newest(fs, init) ==> IsFirstMaximum(fs, group, k);
        assert Newest(fs, group) != Newest(fs, init) ==> IsFirstMaximum(fs, group, |group| - 1);
      } else if Newest(fs, group).Some? {
        assert IsFirstMaximum(fs, group, |group| - 1);
      }
    }
  }

  predicate IsFirstMaximum(fs: FileSystem, group: seq<Path>, k: nat)
    requires k < |group|
  {
    && group[k] in fs
    && (forall j :: 0 <= j < |group| && group[j] in fs ==> fs[group[j]] <= fs[group[k]])
    && (forall j :: 0 <= j < k && group[j] in fs ==> fs[group[j]] < fs[group[k]])
  }

  lemma {:induction false} SearchFindsNothing(fs: FileSystem, groups: Groups)
    ensures Search(fs, groups).None? <==> forall p :: Listed(groups, p) ==> p !in fs
    decreases |groups|
  {
    if groups != [] {
      var n := |groups| - 1;
      SearchFindsNothing(fs, groups[..n]);
      NewestExists(fs, groups[n]);
      forall p ensures Listed(groups, p) <==> Listed(groups[..n], p) || p in groups[n] {
        if Listed(groups[..n], p) {
          var i :| 0 <= i < n && p in groups[..n][i];
          assert p in groups[i];
        }
        if Listed(groups, p) && p !in groups[n] {
          var i :| 0 <= i < |groups| && p in groups[i];
          assert p in groups[..n][i];
        }
      }
    }
  }

  /** Dropping paths that do not exist changes nothing, not even which of equally new ones is found. */
  lemma {:induction false} UnlistedIsAsGood(fs: FileSystem, groups: Groups, group: seq<Path>)
    requires forall p :: Listed(groups, p) ==> p !in fs
    ensures Newest(fs, Unlisted(groups, group)) == Newest(fs, group)
    decreases |group|
  {
    hide Listed;
    if group != [] {
      var init, last := group[..|group| - 1], group[|group| - 1];
      UnlistedIsAsGood(fs, groups, init);
      NewestOfMore(fs, Unlisted(groups, init), last);
      if Listed(groups, last) {
        assert Unlisted(groups, group) == Unlisted(groups, init);
      }
    }
  }

  lemma NewestOfMore(fs: FileSystem, group: seq<Path>, last: Path)
    ensures
      var best := Newest(fs, group);
      Newest(fs, group + [last]) == if last in fs && (best.None? || fs[last] > fs[best.value]) then Some(last) else best
  {
    var more := group + [last];
    assert more[..|more| - 1] == group;
  }

  lemma AbsorbRefines(fs: FileSystem, groups: Groups, group: seq<Path>)
    ensures Search(fs, Absorb(groups, group)) == OrElse(Search(fs, groups), Newest(fs, group))
  {
    hide Unlisted, Listed;
    var more := Unlisted(groups, group);
    if Search(fs, groups).None? {
      SearchFindsNothing(fs, groups);
      UnlistedIsAsGood(fs, groups, group);
    }
    var all := groups + [more];
    assert all[..|all| - 1] == groups;
  }

  /** Merging refines searching: for every file system the merged groups answer as one after the other. */
  lemma {:induction false} MergeRefinesSearch(fs: FileSystem, a: Groups, b: Groups)
    ensures Search(fs, Merge(a, b)) == OrElse(Search(fs, a), Search(fs, b))
    decreases |b|
  {
    hide Newest, Absorb;
    if b != [] {
      var n := |b| - 1;
      MergeRefinesSearch(fs, a, b[..n]);
      AbsorbRefines(fs, Merge(a, b[..n]), b[n]);
    }
  }

  // ---------------------------------------------------------------------------------
  // Dependency information
  // ---------------------------------------------------------------------------------

  type Key = (string, string)  // dependency and platform

  /** What is needed to download, and the version that the config gives, if any. */
  datatype CloudInfo = CloudInfo(bucket: string, hash: string, version: Option<string>)

  datatype Info = Info(key: Key, configPaths: seq<string>, local: Option<Groups>, cloud: Option<CloudInfo>)

  datatype Error = ValueError | UnsupportedConfigFormatError | NoPathFoundError

  function Find(fs: FileSystem, local: Option<Groups>): Option<Path> {
    if local.Some? then Search(fs, local.value) else None
  }

  function MergeLocal(a: Option<Groups>, b: Option<Groups>): Option<Groups> {
    if a.None? then b else if b.None? then a else Some(Merge(a.value, b.value))
  }

  /** `DependencyInfo.Update`. */
  function UpdateInfo(a: Info, b: Info): Result<Info, Error> {
    if a.key != b.key || (a.cloud.Some? && b.cloud.Some?) then Err(ValueError)
    else
      Ok(Info(a.key, a.configPaths + b.configPaths, MergeLocal(a.local, b.local),
              if b.cloud.Some? then b.cloud else a.cloud))
  }

  lemma MergeLocalRefines(fs: FileSystem, a: Option<Groups>, b: Option<Groups>)
    ensures Find(fs, MergeLocal(a, b)) == OrElse(Find(fs, a), Find(fs, b))
  {
    if a.Some? && b.Some? {
      MergeRefinesSearch(fs, a.value, b.value);
    }
  }

  // ---------------------------------------------------------------------------------
  // The lookup table
  // ---------------------------------------------------------------------------------

  /** `_lookup_dict`, with its two levels of keys in one. */
  type Table = map<Key, Info>

  function AddInfo(table: Table, info: Info): Result<Table, Error> {
    if info.key !in table then Ok(table[info.key := info])
    else
      match UpdateInfo(table[info.key], info)
      case Ok(merged) => Ok(table[info.key := merged])
      case Err(e) => Err(e)
  }

  /** The table after the first `n` of the infos of all configs, in order. */
  function Build(infos: seq<Info>, n: nat): Result<Table, Error>
    requires n <= |infos|
  {
    if n == 0 then Ok(map[])
    else
      match Build(infos, n - 1)
      case Ok(table) => AddInfo(table, infos[n - 1])
      case Err(e) => Err(e)
  }

  /** Two infos give cloud information for one dependency and platform. */
  ghost predicate CloudConflict(infos: seq<Info>, n: nat)
    requires n <= |infos|
  {
    exists i, k :: 0 <= i < k < n && infos[i].key == infos[k].key && infos[i].cloud.Some? && infos[k].cloud.Some?
  }

  predicate Mentioned(infos: seq<Info>, n: nat, key: Key)
    requires n <= |infos|
  {
    exists i :: 0 <= i < n && infos[i].key == key
  }

  /** The documented search: the configs one after the other. */
  function SearchConfigs(fs: FileSystem, infos: seq<Info>, n: nat, key: Key): Option<Path>
    requires n <= |infos|
  {
    if n == 0 then None
    else
      var earlier := SearchConfigs(fs, infos, n - 1, key);
      if infos[n - 1].key == key then OrElse(earlier, Find(fs, infos[n - 1].local)) else earlier
  }

  function ConfigPaths(infos: seq<Info>, n: nat, key: Key): seq<string>
    requires n <= |infos|
  {
    if n == 0 then []
    else ConfigPaths(infos, n - 1, key) + (if infos[n - 1].key == key then infos[n - 1].configPaths else [])
  }

  /** What an entry must say. */
  ghost predicate EntryIsRight(infos: seq<Info>, n: nat, key: Key, entry: Info)
    requires n <= |infos|
  {
    && entry.key == key
    && entry.configPaths == ConfigPaths(infos, n, key)
    && (forall c :: entry.cloud == Some(c) <==>
          exists i :: 0 <= i < n && infos[i].key == key && infos[i].cloud == Some(c))
    && (forall fs :: Find(fs, entry.local) == SearchConfigs(fs, infos, n, key))
  }

  ghost predicate KeyIsRight(infos: seq<Info>, n: nat, table: Table, key: Key)
    requires n <= |infos|
  {
    && (key in table <==> Mentioned(infos, n, key))
    && (key in table ==> EntryIsRight(infos, n, key, table[key]))
  }

  lemma {:induction false} Unmentioned(fs: FileSystem, infos: seq<Info>, n: nat, key: Key)
    requires n <= |infos| && !Mentioned(infos, n, key)
    ensures ConfigPaths(infos, n, key) == [] && SearchConfigs(fs, infos, n, key) == None
    decreases n
  {
    if n > 0 {
      assert !Mentioned(infos, n - 1, key);
      Unmentioned(fs, infos, n - 1, key);
    }
  }

  /** The first info of its key. */
  lemma NewKeyIsRight(infos: seq<Info>, n: nat)
    requires 0 < n <= |infos| && !Mentioned(infos, n - 1, infos[n - 1].key)
    ensures EntryIsRight(infos, n, infos[n - 1].key, infos[n - 1])
  {
    var info := infos[n - 1];
    Unmentioned(map[], infos, n - 1, info.key);
    forall fs ensures Find(fs, info.local) == SearchConfigs(fs, infos, n, info.key) {
      Unmentioned(fs, infos, n - 1, info.key);
    }
  }

  /** One more info for a key that has an entry. */
  lemma MergedKeyIsRight(infos: seq<Info>, n: nat, entry: Info)
    requires 0 < n <= |infos| && EntryIsRight(infos, n - 1, infos[n - 1].key, entry)
    requires UpdateInfo(entry, infos[n - 1]).Ok?
    ensures EntryIsRight(infos, n, infos[n - 1].key, UpdateInfo(entry, infos[n - 1]).value)
  {
    var info := infos[n - 1];
    var merged := UpdateInfo(entry, info).value;
    forall fs ensures Find(fs, merged.local) == SearchConfigs(fs, infos, n, info.key) {
      MergeLocalRefines(fs, entry.local, info.local);
    }
    forall c ensures merged.cloud == Some(c)
      <==> exists i :: 0 <= i < n && infos[i].key == info.key && infos[i].cloud == Some(c) {
      assert entry.cloud == Some(c)
        <==> exists i :: 0 <= i < n - 1 && infos[i].key == info.key && infos[i].cloud == Some(c);
    }
  }

  /** An info for another key changes nothing. */
  lemma OtherKeyIsRight(infos: seq<Info>, n: nat, key: Key, entry: Info)
    requires 0 < n <= |infos| && infos[n - 1].key != key && EntryIsRight(infos, n - 1, key, entry)
    ensures EntryIsRight(infos, n, key, entry)
  {
    forall fs ensures Find(fs, entry.local) == SearchConfigs(fs, infos, n, key) {
      assert SearchConfigs(fs, infos, n, key) == SearchConfigs(fs, infos, n - 1, key);
    }
    forall c ensures entry.cloud == Some(c)
      <==> exists i :: 0 <= i < n && infos[i].key == key && infos[i].cloud == Some(c) {
      assert entry.cloud == Some(c) <==> exists i :: 0 <= i < n - 1 && infos[i].key == key && infos[i].cloud == Some(c);
    }
  }

  /** A conflict appears with the info that repeats the cloud information of an entry. */
  lemma ConflictAppears(infos: seq<Info>, n: nat, table: Table)
    requires 0 < n <= |infos| && !CloudConflict(infos, n - 1) && KeyIsRight(infos, n - 1, table, infos[n - 1].key)
    ensures AddInfo(table, infos[n - 1]).Ok? <==> !CloudConflict(infos, n)
  {
    var info := infos[n - 1];
    if info.key in table && table[info.key].cloud.Some? {
      var c := table[info.key].cloud.value;
      assert table[info.key].cloud == Some(c);
    }
    if CloudConflict(infos, n) {
      var i, k :| 0 <= i < k < n && infos[i].key == infos[k].key && infos[i].cloud.Some? && infos[k].cloud.Some?;
      assert k == n - 1;
      assert infos[i].cloud == Some(infos[i].cloud.value);
    }
  }

  lemma AddIsRight(infos: seq<Info>, n: nat, table: Table, key: Key)
    requires 0 < n <= |infos| && KeyIsRight(infos, n - 1, table, key)
    requires KeyIsRight(infos, n - 1, table, infos[n - 1].key)
    requires AddInfo(table, infos[n - 1]).Ok?
    ensures KeyIsRight(infos, n, AddInfo(table, infos[n - 1]).value, key)
  {
    hide EntryIsRight, UpdateInfo;
    var info := infos[n - 1];
    assert Mentioned(infos, n - 1, key) ==> Mentioned(infos, n, key);
    if key != info.key {
      if key in table {
        OtherKeyIsRight(infos, n, key, table[key]);
      }
    } else if key in table {
      MergedKeyIsRight(infos, n, table[key]);
    } else {
      NewKeyIsRight(infos, n);
    }
  }

  /**
    Building the table succeeds exactly when no dependency gets cloud information twice for a
    platform; then every entry lists its configs in order, keeps the one cloud information there
    is, and is searched as documented.
   */
  lemma {:induction false} BuildIsRight(infos: seq<Info>, n: nat)
    requires n <= |infos|
    ensures Build(infos, n).Ok? <==> !CloudConflict(infos, n)
    ensures Build(infos, n).Ok? ==> forall key :: KeyIsRight(infos, n, Build(infos, n).value, key)
    decreases n
  {
    if n > 0 {
      hide KeyIsRight, AddInfo;
      BuildIsRight(infos, n - 1);
      if Build(infos, n - 1).Ok? {
        var table := Build(infos, n - 1).value;
        ConflictAppears(infos, n, table);
        if AddInfo(table, infos[n - 1]).Ok? {
          var next := AddInfo(table, infos[n - 1]).value;
          forall key ensures KeyIsRight(infos, n, next, key) {
            AddIsRight(infos, n, table, key);
          }
        }
      } else {
        ConflictStays(infos, n);
      }
    } else {
      assert forall key :: KeyIsRight(infos, 0, map[], key);
    }
  }

  lemma ConflictStays(infos: seq<Info>, n: nat)
    requires 0 < n <= |infos| && CloudConflict(infos, n - 1)
    ensures CloudConflict(infos, n)
  {
  }

  // ---------------------------------------------------------------------------------
  // The objects
  // ---------------------------------------------------------------------------------

  lemma {:induction false} SearchPrefix(fs: FileSystem, groups: Groups, n: nat)
    requires n <= |groups| && Search(fs, groups[..n]).Some?
    ensures Search(fs, groups) == Search(fs, groups[..n])
    decreases |groups|
  {
    if n == |groups| {
      assert groups[..n] == groups;
    } else {
      assert groups[..|groups| - 1][..n] == groups[..n];
      SearchPrefix(fs, groups[..|groups| - 1], n);
    }
  }

  class LocalPathInfo {
    var pathPriorityGroups: Groups

    constructor (groups: Groups)
      ensures pathPriorityGroups == groups
    {
      pathPriorityGroups := groups;
    }

    method GetLocalPath(fs: FileSystem) returns (path: Option<Path>)
      ensures path == Search(fs, pathPriorityGroups)
    {
      for i := 0 to |pathPriorityGroups|
        invariant Search(fs, pathPriorityGroups[..i]) == None
      {
        path := Newest(fs, pathPriorityGroups[i]);
        assert pathPriorityGroups[..i + 1][..i] == pathPriorityGroups[..i];
        if path.Some? {
          SearchPrefix(fs, pathPriorityGroups, i + 1);
          return;
        }
      }
      assert pathPriorityGroups[..|pathPriorityGroups|] == pathPriorityGroups;
      return None;
    }

    method IsPathInLocalPaths(path: Path) returns (found: bool)
      ensures found <==> Listed(pathPriorityGroups, path)
    {
      for i := 0 to |pathPriorityGroups|
        invariant forall k :: 0 <= k < i ==> path !in pathPriorityGroups[k]
      {
        if path in pathPriorityGroups[i] {
          return true;
        }
      }
      return false;
    }

    method Update(info: LocalPathInfo?)
      modifies this
      ensures pathPriorityGroups
        == if info == null then old(pathPriorityGroups)
           else Merge(old(pathPriorityGroups), old(info.pathPriorityGroups))
    {
      if info == null {
        return;
      }
      var groups := info.pathPriorityGroups;
      for i := 0 to |groups|
        invariant pathPriorityGroups == Merge(old(pathPriorityGroups), groups[..i])
      {
        var groupList := [];
        for k := 0 to |groups[i]|
          invariant pathPriorityGroups == Merge(old(pathPriorityGroups), groups[..i])
          invariant groupList == Unlisted(pathPriorityGroups, groups[i][..k])
        {
          assert groups[i][..k + 1][..k] == groups[i][..k];
          var listed := IsPathInLocalPaths(groups[i][k]);
          if !listed {
            groupList := groupList + [groups[i][k]];
          }
        }
        assert groups[i][..|groups[i]|] == groups[i] && groups[..i + 1][..i] == groups[..i];
        if groupList != [] {
          pathPriorityGroups := pathPriorityGroups + [groupList];
        }
      }
      assert groups[..|groups|] == groups;
    }
  }

  class DependencyInfo {
    const key: Key
    var configPaths: seq<string>
    var localPathInfo: LocalPathInfo?
    var cloudStorageInfo: Option<CloudInfo>

    constructor (key: Key, configPath: string, localPathInfo: LocalPathInfo?, cloudStorageInfo: Option<CloudInfo>)
      ensures this.key == key && configPaths == [configPath]
      ensures this.localPathInfo == localPathInfo && this.cloudStorageInfo == cloudStorageInfo
    {
      this.key, this.configPaths := key, [configPath];
      this.localPathInfo, this.cloudStorageInfo := localPathInfo, cloudStorageInfo;
    }

    ghost function AsInfo(): Info
      reads this, localPathInfo
    {
      var local := if localPathInfo == null then None else Some(localPathInfo.pathPriorityGroups);
      Info(key, configPaths, local, cloudStorageInfo)
    }

    /** `new` takes no further part: its local path information may be adopted. */
    method Update(info: DependencyInfo) returns (error: Option<Error>)
      requires Apart(this, info)
      modifies this, localPathInfo
      ensures error == None <==> UpdateInfo(old(AsInfo()), old(info.AsInfo())).Ok?
      ensures error == None ==> UpdateInfo(old(AsInfo()), old(info.AsInfo())) == Ok(AsInfo())
      ensures error != None ==>
        error == Some(ValueError) && AsInfo() == old(AsInfo()).(configPaths := old(configPaths) + old(info.configPaths))
      ensures localPathInfo == old(localPathInfo) || (old(localPathInfo) == null && localPathInfo == info.localPathInfo)
    {
      configPaths := configPaths + info.configPaths;
      if key != info.key {
        return Some(ValueError);
      }
      if info.cloudStorageInfo.Some? {
        if cloudStorageInfo.Some? {
          return Some(ValueError);
        }
        cloudStorageInfo := info.cloudStorageInfo;
      }
      if localPathInfo == null {
        localPathInfo := info.localPathInfo;
      } else {
        localPathInfo.Update(info.localPathInfo);
      }
      return None;
    }

    method GetLocalPath(fs: FileSystem) returns (path: Option<Path>)
      ensures path == Find(fs, AsInfo().local)
    {
      if localPathInfo == null {
        return None;
      }
      path := localPathInfo.GetLocalPath(fs);
    }
  }

  /** Different objects with different local path information. */
  ghost predicate Apart(a: DependencyInfo, b: DependencyInfo)
    reads a, b
  {
    a != b && (a.localPathInfo == null || a.localPathInfo != b.localPathInfo)
  }

  const DEFAULT_TYPE := "default"

  ghost predicate InRegion(d: DependencyInfo, region: set<object>)
    reads d
  {
    d in region && (d.localPathInfo != null ==> d.localPathInfo in region)
  }

  class DependencyManager {
    var lookupDict: map<Key, DependencyInfo>

    constructor ()
      ensures lookupDict == map[]
    {
      lookupDict := map[];
    }

    /** The entries and the objects still to come share no local path information. */
    ghost predicate Separate(all: seq<DependencyInfo>, n: nat)
      reads this, lookupDict.Values, all
    {
      && (forall a, b :: a in lookupDict && b in lookupDict && a != b ==> Apart(lookupDict[a], lookupDict[b]))
      && (forall a, i :: a in lookupDict && n <= i < |all| ==> Apart(lookupDict[a], all[i]))
      && (forall i, k :: n <= i < k < |all| ==> Apart(all[i], all[k]))
    }

    ghost predicate StandsFor(table: Table)
      reads this, lookupDict.Values, set d | d in lookupDict.Values && d.localPathInfo != null :: d.localPathInfo
    {
      lookupDict.Keys == table.Keys && forall key :: key in lookupDict ==> lookupDict[key].AsInfo() == table[key]
    }

    method Insert(info: DependencyInfo, ghost all: seq<DependencyInfo>, ghost n: nat, ghost table: Table)
      requires Separate(all, n) && StandsFor(table) && n < |all| && all[n] == info && info.key !in table
      modifies this
      ensures Separate(all, n + 1) && StandsFor(table[info.key := info.AsInfo()])
      ensures forall i :: n < i < |all| ==> all[i].AsInfo() == old(all[i].AsInfo())
      ensures lookupDict == old(lookupDict)[info.key := info]
    {
      assert forall a :: a in lookupDict ==> Apart(lookupDict[a], all[n]);
      lookupDict := lookupDict[info.key := info];
    }

    method Merge(info: DependencyInfo, ghost all: seq<DependencyInfo>, ghost n: nat, ghost table: Table)
      returns (error: Option<Error>)
      requires Separate(all, n) && StandsFor(table) && n < |all| && all[n] == info && info.key in table
      modifies lookupDict[info.key], lookupDict[info.key].localPathInfo
      ensures error != None ==> error == Some(ValueError)
      ensures error == None <==> UpdateInfo(table[info.key], old(info.AsInfo())).Ok?
      ensures error == None ==>
        Separate(all, n + 1) && StandsFor(table[info.key := UpdateInfo(table[info.key], old(info.AsInfo())).value])
      ensures forall i :: n < i < |all| ==> all[i].AsInfo() == old(all[i].AsInfo())
      ensures lookupDict[info.key].localPathInfo in {old(lookupDict[info.key].localPathInfo), old(info.localPathInfo)}
    {
      hide UpdateInfo, StandsFor;
      Entries(table);
      var entry := lookupDict[info.key];
      assert Apart(entry, info);
      error := entry.Update(info);
      forall a | a in lookupDict && a != info.key
        ensures lookupDict[a].AsInfo() == table[a]
        ensures error == None ==> Apart(lookupDict[a], entry) && Apart(entry, lookupDict[a])
      {
        assert old(Apart(lookupDict[a], entry)) && old(Apart(lookupDict[a], all[n]));
      }
      forall i | n < i < |all|
        ensures all[i].AsInfo() == old(all[i].AsInfo()) && (error == None ==> Apart(entry, all[i]))
      {
        assert old(Apart(entry, all[i])) && old(Apart(all[n], all[i]));
      }
      MergedStandsFor(table, info.key);
      if error == None {
        MergedIsSeparate(all, n, info.key);
      }
    }

    lemma MergedIsSeparate(all: seq<DependencyInfo>, n: nat, key: Key)
      requires n < |all| && key in lookupDict
      requires forall a, b :: a in lookupDict && b in lookupDict && a != b && a != key && b != key ==>
        Apart(lookupDict[a], lookupDict[b])
      requires forall a :: a in lookupDict && a != key ==>
        Apart(lookupDict[a], lookupDict[key]) && Apart(lookupDict[key], lookupDict[a])
      requires forall a, i :: a in lookupDict && a != key && n < i < |all| ==> Apart(lookupDict[a], all[i])
      requires forall i :: n < i < |all| ==> Apart(lookupDict[key], all[i])
      requires forall i, k :: n < i < k < |all| ==> Apart(all[i], all[k])
      ensures Separate(all, n + 1)
    {
    }

    lemma Entries(table: Table)
      requires StandsFor(table)
      ensures lookupDict.Keys == table.Keys
      ensures forall key :: key in lookupDict ==> lookupDict[key].AsInfo() == table[key]
    {
    }

    lemma MergedStandsFor(table: Table, key: Key)
      requires lookupDict.Keys == table.Keys && key in lookupDict
      requires forall a :: a in lookupDict && a != key ==> lookupDict[a].AsInfo() == table[a]
      ensures StandsFor(table[key := lookupDict[key].AsInfo()])
    {
    }

    /** The body of the loop of `_UpdateDependencies`; `values` are the infos as they were at first. */
    method AddDependencyInfo(info: DependencyInfo, ghost all: seq<DependencyInfo>, ghost values: seq<Info>,
                             ghost n: nat, ghost region: set<object>)
      returns (error: Option<Error>)
      requires Holds(all, values, n) && n < |all| && all[n] == info && Inside(all, region) && this !in region
      modifies this, region
      ensures error == None <==> Build(values, n + 1).Ok?
      ensures error == None ==> Holds(all, values, n + 1)
      ensures error != None ==> error == Some(ValueError)
      ensures Inside(all, region)
    {
      hide Separate, UpdateInfo, StandsFor;
      ghost var table := Build(values, n).value;
      assert InRegion(all[n], region);
      SameKeys(table);
      if info.key !in lookupDict {
        Insert(info, all, n, table);
        return None;
      } else {
        ghost var entry := lookupDict[info.key];
        assert InRegion(entry, region);
        error := Merge(info, all, n, table);
        assert InRegion(entry, region);
        assert forall i :: 0 <= i < |all| && all[i] != entry ==>
          old(InRegion(all[i], region)) && InRegion(all[i], region);
        assert forall k :: k in lookupDict && lookupDict[k] != entry ==>
          old(InRegion(lookupDict[k], region)) && InRegion(lookupDict[k], region);
      }
    }

    lemma SameKeys(table: Table)
      requires StandsFor(table)
      ensures lookupDict.Keys == table.Keys
    {
    }

    /** `region` has all objects that building the table may change. */
    ghost predicate Inside(all: seq<DependencyInfo>, region: set<object>)
      reads this, lookupDict.Values, all
    {
      && (forall key :: key in lookupDict ==> InRegion(lookupDict[key], region))
      && (forall i :: 0 <= i < |all| ==> InRegion(all[i], region))
    }

    /** The table stands for the first `n` infos. */
    ghost predicate Holds(all: seq<DependencyInfo>, values: seq<Info>, n: nat)
      reads this, lookupDict.Values, all
      reads set d | d in lookupDict.Values && d.localPathInfo != null :: d.localPathInfo
      reads set d | d in all && d.localPathInfo != null :: d.localPathInfo
    {
      && |values| == |all| && n <= |all| && Separate(all, n)
      && Build(values, n).Ok? && StandsFor(Build(values, n).value)
      && forall i :: n <= i < |all| ==> all[i].AsInfo() == values[i]
    }

    lemma HeldIsBuilt(all: seq<DependencyInfo>, values: seq<Info>, n: nat)
      requires Holds(all, values, n)
      ensures |values| == |all| && n <= |all| && Build(values, n).Ok?
    {
    }

    /** `_UpdateDependencies` for a config whose infos are the next ones of `all`. */
    method UpdateDependencies(config: Config, supported: seq<string>, ghost all: seq<DependencyInfo>,
                              ghost values: seq<Info>,
                              ghost n: nat, ghost region: set<object>)
      returns (error: Option<Error>)
      requires Holds(all, values, n) && Inside(all, region) && this !in region
      requires n + |config.infos| <= |all| && all[n..n + |config.infos|] == config.infos
      modifies this, region
      ensures Inside(all, region)
      ensures error == Some(UnsupportedConfigFormatError) <==> !IsSupported(config, supported)
      ensures IsSupported(config, supported) ==> (error == None <==> Build(values, n + |config.infos|).Ok?)
      ensures error == None ==> Holds(all, values, n + |config.infos|)
    {
      hide Inside, Build;
      if supported != [] && config.configType !in supported {
        return Some(UnsupportedConfigFormatError);
      }
      HeldIsBuilt(all, values, n);
      hide Holds;
      for i := 0 to |config.infos|
        invariant Holds(all, values, n + i) && Inside(all, region)
        invariant Build(values, n + i).Ok?
      {
        assert all[n + i] == all[n..n + |config.infos|][i];
        error := AddDependencyInfo(config.infos[i], all, values, n + i, region);
        if error != None {
          BuildStops(values, n + i + 1, n + |config.infos|);
          return;
        }
        HeldIsBuilt(all, values, n + i + 1);
      }
      return None;
    }

    /** `_GetDependencyInfo`. */
    method GetDependencyInfo(dependency: string, platform: string, ghost table: Table) returns (info: DependencyInfo?)
      requires StandsFor(table)
      ensures
        var key := ChosenKey(table, dependency, platform);
        if key in table then info != null && info.AsInfo() == table[key] else info == null
    {
      hide ChosenKey;
      SameKeys(table);
      ChosenKeyCases(table, dependency, platform);
      var deviceType := platform;
      if (dependency, deviceType) !in lookupDict {
        deviceType := DEFAULT_TYPE;
      }
      if (dependency, deviceType) !in lookupDict {
        return null;
      }
      return lookupDict[(dependency, deviceType)];
    }

    method LocalPath(fs: FileSystem, dependency: string, platform: string, ghost table: Table)
      returns (path: Result<Path, Error>)
      requires StandsFor(table)
      ensures
        var found := LookUp(fs, table, dependency, platform);
        path == if found.Some? then Ok(found.value) else Err(NoPathFoundError)
    {
      var info := GetDependencyInfo(dependency, platform, table);
      if info == null {
        return Err(NoPathFoundError);
      }
      var local := info.GetLocalPath(fs);
      if local == None || local.value !in fs {
        if local.Some? {
          SearchFindsExisting(fs, info.AsInfo().local.value);
        }
        return Err(NoPathFoundError);
      }
      return Ok(local.value);
    }

    /** `remote` is what downloading comes to: a path that exists then, or nothing. */
    method FetchPathWithVersion(fs: FileSystem, remote: CloudInfo -> Option<Path>, dependency: string, platform: string,
                                ghost table: Table)
      returns (path: Result<(Path, Option<string>), Error>)
      requires StandsFor(table)
      ensures path == Fetch(fs, remote, table, dependency, platform)
    {
      var info := GetDependencyInfo(dependency, platform, table);
      if info == null {
        return Err(NoPathFoundError);
      }
      var local := info.GetLocalPath(fs);
      if local.Some? && local.value in fs {
        return Ok((local.value, None));
      }
      if local.Some? {
        SearchFindsExisting(fs, info.AsInfo().local.value);
      }
      if info.cloudStorageInfo.Some? && remote(info.cloudStorageInfo.value).Some? {
        return Ok((remote(info.cloudStorageInfo.value).value, info.cloudStorageInfo.value.version));
      }
      return Err(NoPathFoundError);
    }
  }

  lemma {:induction false} SearchFindsExisting(fs: FileSystem, groups: Groups)
    ensures Search(fs, groups).Some? ==> Search(fs, groups).value in fs
    decreases |groups|
  {
    if groups != [] {
      SearchFindsExisting(fs, groups[..|groups| - 1]);
    }
  }

  /** `default` is used only if the platform has no entry. */
  function ChosenKey(table: Table, dependency: string, platform: string): Key {
    if (dependency, platform) in table then (dependency, platform) else (dependency, DEFAULT_TYPE)
  }

  lemma ChosenKeyCases(table: Table, dependency: string, platform: string)
    ensures (dependency, platform) in table ==> ChosenKey(table, dependency, platform) == (dependency, platform)
    ensures (dependency, platform) !in table ==> ChosenKey(table, dependency, platform) == (dependency, DEFAULT_TYPE)
  {
  }

  function LookUp(fs: FileSystem, table: Table, dependency: string, platform: string): Option<Path> {
    var key := ChosenKey(table, dependency, platform);
    if key in table then Find(fs, table[key].local) else None
  }

  /** A local path wins; else the download, whose cloud information has the version. */
  function Fetch(fs: FileSystem, remote: CloudInfo -> Option<Path>, table: Table, dependency: string, platform: string):
    Result<(Path, Option<string>), Error>
  {
    var key := ChosenKey(table, dependency, platform);
    if key !in table then Err(NoPathFoundError)
    else
      match Find(fs, table[key].local)
      case Some(path) => Ok((path, None))
      case None =>
        var cloud := table[key].cloud;
        if cloud.Some? && remote(cloud.value).Some? then Ok((remote(cloud.value).value, cloud.value.version))
        else Err(NoPathFoundError)
  }

  /** The documented answer, for every list of configs: config by config, with the default as a last resort. */
  lemma LookUpIsDocumented(fs: FileSystem, infos: seq<Info>, dependency: string, platform: string)
    requires Build(infos, |infos|).Ok?
    ensures
      var own := Mentioned(infos, |infos|, (dependency, platform));
      LookUp(fs, Build(infos, |infos|).value, dependency, platform)
        == SearchConfigs(fs, infos, |infos|, (dependency, if own then platform else DEFAULT_TYPE))
  {
    var n := |infos|;
    var table := Build(infos, n).value;
    var key := ChosenKey(table, dependency, platform);
    BuildIsRight(infos, n);
    assert KeyIsRight(infos, n, table, (dependency, platform)) && KeyIsRight(infos, n, table, key);
    if key !in table {
      Unmentioned(fs, infos, n, key);
    }
  }

  datatype Config = Config(configType: string, infos: seq<DependencyInfo>)

  predicate IsSupported(config: Config, supported: seq<string>) {
    supported == [] || config.configType in supported
  }

  lemma {:induction false} BuildStops(infos: seq<Info>, n: nat, m: nat)
    requires n <= m <= |infos| && Build(infos, n).Err?
    ensures Build(infos, m).Err?
    decreases m
  {
    if n < m {
      BuildStops(infos, n, m - 1);
    }
  }

  /** One of the infos for the key has cloud information c. */
  ghost predicate HasCloud(infos: seq<Info>, n: nat, key: Key, c: CloudInfo)
    requires n <= |infos|
  {
    exists i :: 0 <= i < n && infos[i].key == key && infos[i].cloud == Some(c)
  }

  /** What is fetched: the documented local path, else what downloads for any config of the dependency. */
  lemma FetchIsDocumented(fs: FileSystem, remote: CloudInfo -> Option<Path>, infos: seq<Info>, dependency: string,
                          platform: string)
    requires Build(infos, |infos|).Ok?
    ensures
      var n := |infos|;
      var own := Mentioned(infos, n, (dependency, platform));
      var key := (dependency, if own then platform else DEFAULT_TYPE);
      var fetched := Fetch(fs, remote, Build(infos, n).value, dependency, platform);
      match SearchConfigs(fs, infos, n, key)
      case Some(path) => fetched == Ok((path, None))
      case None =>
        && (forall c :: HasCloud(infos, n, key, c) && remote(c).Some? ==> fetched == Ok((remote(c).value, c.version)))
        && ((forall c :: HasCloud(infos, n, key, c) ==> remote(c).None?) ==> fetched == Err(NoPathFoundError))
  {
    var n := |infos|;
    var table := Build(infos, n).value;
    var key := ChosenKey(table, dependency, platform);
    LookUpIsDocumented(fs, infos, dependency, platform);
    BuildIsRight(infos, n);
    assert KeyIsRight(infos, n, table, (dependency, platform)) && KeyIsRight(infos, n, table, key);
    forall c ensures key in table ==> (table[key].cloud == Some(c) <==> HasCloud(infos, n, key, c)) {
    }
    if key !in table {
      forall c ensures !HasCloud(infos, n, key, c) {
        assert !Mentioned(infos, n, key);
      }
    } else if table[key].cloud.Some? {
      assert HasCloud(infos, n, key, table[key].cloud.value);
    }
  }

  function AllInfos(configs: seq<Config>, n: nat): seq<DependencyInfo>
    requires n <= |configs|
  {
    if n == 0 then [] else AllInfos(configs, n - 1) + configs[n - 1].infos
  }

  lemma {:induction false} AllInfosPrefix(configs: seq<Config>, n: nat, m: nat)
    requires n <= m <= |configs|
    ensures AllInfos(configs, n) <= AllInfos(configs, m) && AllInfos(configs, 0) == []
    ensures n > 0 ==> AllInfos(configs, n) == AllInfos(configs, n - 1) + configs[n - 1].infos
    decreases m
  {
    if n < m {
      AllInfosPrefix(configs, n, m - 1);
    }
  }

  /** The values of the objects. */
  ghost function Values(all: seq<DependencyInfo>): (values: seq<Info>)
    reads all, set d | d in all && d.localPathInfo != null :: d.localPathInfo
    ensures |values| == |all| && forall i :: 0 <= i < |all| ==> values[i] == all[i].AsInfo()
  {
    seq(|all|, i requires 0 <= i < |all| reads all, set d | d in all && d.localPathInfo != null :: d.localPathInfo =>
      all[i].AsInfo())
  }

  /** The objects share nothing, and `region` has them and what they refer to. */
  ghost predicate Unshared(all: seq<DependencyInfo>, region: set<object>)
    reads all
  {
    && (forall i :: 0 <= i < |all| ==> InRegion(all[i], region))
    && (forall i, k :: 0 <= i < k < |all| ==> Apart(all[i], all[k]))
  }

  method EmptyManager(ghost all: seq<DependencyInfo>, ghost values: seq<Info>, ghost region: set<object>)
    returns (manager: DependencyManager)
    requires Unshared(all, region) && values == Values(all)
    ensures fresh(manager) && manager.Holds(all, values, 0) && manager.Inside(all, region)
  {
    manager := new DependencyManager();
    assert manager.lookupDict.Values == {};
  }

  /** The constructor of the manager. */
  method MakeManager(configs: seq<Config>, supported: seq<string>, ghost region: set<object>)
    returns (manager: DependencyManager, error: Option<Error>)
    requires Unshared(AllInfos(configs, |configs|), region)
    modifies region
    ensures
      var values := old(Values(AllInfos(configs, |configs|)));
      && (error == None <==>
            (forall i :: 0 <= i < |configs| ==> IsSupported(configs[i], supported)) && !CloudConflict(values, |values|))
      && (error == None ==> Build(values, |values|).Ok? && manager.StandsFor(Build(values, |values|).value))
  {
    hide Build, CloudConflict, AllInfos, Values, IsSupported, Unshared;
    ghost var all := AllInfos(configs, |configs|);
    ghost var values := Values(all);
    BuildIsRight(values, |values|);
    AllInfosPrefix(configs, 0, |configs|);
    manager := EmptyManager(all, values, region);
    for i := 0 to |configs|
      invariant AllInfos(configs, i) <= all && manager !in region
      invariant manager.Holds(all, values, |AllInfos(configs, i)|) && manager.Inside(all, region)
      invariant forall k :: 0 <= k < i ==> IsSupported(configs[k], supported)
    {
      ghost var n := |AllInfos(configs, i)|;
      AllInfosPrefix(configs, i + 1, |configs|);
      error := manager.UpdateDependencies(configs[i], supported, all, values, n, region);
      if error != None {
        if IsSupported(configs[i], supported) {
          BuildStops(values, n + |configs[i].infos|, |all|);
        }
        return;
      }
    }
    return manager, None;
  }
}
