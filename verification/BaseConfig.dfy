/** Updating dependencies in cloud storage and in a config file: dependency_manager/base_config.py. */
module BaseConfig {
  import opened Wrappers
  import opened CloudStore
  import opened Uploader
  import opened Transaction

  /** What a config file says about one dependency on one platform; "" stands for a missing value. */
  type PlatformData = map<string, string>

  datatype Dependency = Dependency(bucket: string, baseFolder: string, fileInfo: map<string, PlatformData>)

  type Config = map<string, Dependency>

  datatype Error = ReadWriteError | ValueError | IOError | UploadConflict | CloudStorageError

  // ---------------------------------------------------------------------------------
  // Remote paths
  // ---------------------------------------------------------------------------------

  predicate IsHexDigit(c: char) {
    '0' <= c <= '9' || 'a' <= c <= 'f'
  }

  /** The shape of `hashlib.sha1().hexdigest()`. */
  predicate IsSha1(h: string) {
    |h| == 40 && forall i :: 0 <= i < |h| ==> IsHexDigit(h[i])
  }

  /** `_CloudStorageRemotePath`: lines 351-355. */
  function RemotePath(dependency: string, hash: string, baseFolder: string): string {
    var file := dependency + "_" + hash;
    if baseFolder == "" then file else baseFolder + "/" + file
  }

  lemma RemotePathEnd(dependency: string, hash: string, baseFolder: string)
    requires IsSha1(hash)
    ensures
      var p := RemotePath(dependency, hash, baseFolder);
      |p| > 40 && p[|p| - 40..] == hash
  {
  }

  /** The `.old` backup of a remote path is never a remote path: `l` is no hex digit. */
  lemma BackupIsNoRemotePath(a: string, h: string, f: string, a': string, h': string, f': string)
    requires IsSha1(h) && IsSha1(h')
    ensures RemotePath(a, h, f) + ".old" != RemotePath(a', h', f')
  {
    var p, q := RemotePath(a, h, f) + ".old", RemotePath(a', h', f');
    RemotePathEnd(a', h', f');
    assert p[|p| - 2] == 'l';
    assert q[|q| - 2] == h'[38];
  }

  /** Equal remote paths end in equal hashes. */
  lemma RemotePathHash(a: string, h: string, f: string, a': string, h': string, f': string)
    requires IsSha1(h) && IsSha1(h') && RemotePath(a, h, f) == RemotePath(a', h', f')
    ensures h == h'
  {
    RemotePathEnd(a, h, f);
    RemotePathEnd(a', h', f');
  }

  /** In one folder, different dependencies or contents never share a remote path. */
  lemma RemotePathInjective(a: string, h: string, a': string, h': string, f: string)
    requires IsSha1(h) && IsSha1(h') && RemotePath(a, h, f) == RemotePath(a', h', f)
    ensures a == a' && h == h'
  {
    RemotePathHash(a, h, f, a', h', f);
    var n := if f == "" then 0 else |f| + 1;
    var p := RemotePath(a, h, f);
    assert p[n..] == a + "_" + h && RemotePath(a', h', f)[n..] == a' + "_" + h';
    assert (a + "_" + h)[..|p| - n - 41] == a && (a' + "_" + h')[..|p| - n - 41] == a';
  }

  // ---------------------------------------------------------------------------------
  // Adding update jobs
  // ---------------------------------------------------------------------------------

  predicate HasPlatform(config: Config, dependency: string, platform: string) {
    && dependency in config
    && platform in config[dependency].fileInfo && config[dependency].fileInfo[platform] != map[]
  }

  /** `_SetPlatformData`: lines 304-313. */
  function SetPlatformData(config: Config, dependency: string, platform: string, key: string, data: string): Config
    requires HasPlatform(config, dependency, platform)
  {
    var d := config[dependency];
    config[dependency :=
      if key == "cloud_storage_bucket" then d.(bucket := data)
      else if key == "cloud_storage_base_folder" then d.(baseFolder := data)
      else d.(fileInfo := d.fileInfo[platform := d.fileInfo[platform][key := data]])]
  }

  /** `file` is the content of the new file, None if there is no file. */
  datatype Request = Request(dependency: string, platform: string, file: Option<Blob>, version: string)

  datatype AddResult = AddResult(error: Option<Error>, config: Config, jobs: seq<Job>)

  /** The config after an accepted request, or after one that is refused for want of a bucket. */
  function Requested(hash: Blob -> string, config: Config, r: Request): Config
    requires HasPlatform(config, r.dependency, r.platform) && r.file.Some?
  {
    var c := if r.version == "" then config
             else SetPlatformData(config, r.dependency, r.platform, "version_in_cs", r.version);
    SetPlatformData(c, r.dependency, r.platform, "cloud_storage_hash", hash(r.file.value))
  }

  /** `AddCloudStorageDependencyUpdateJob`, lines 232-246, up to `execute_job`. */
  function AddJob(hash: Blob -> string, writable: bool, config: Config, disk: Config, jobs: seq<Job>,
                  r: Request, execute: bool): AddResult
  {
    if !writable || (config != disk && execute) then AddResult(Some(ReadWriteError), config, jobs)
    else if !HasPlatform(config, r.dependency, r.platform) then AddResult(Some(ValueError), config, jobs)
    else if r.file.None? then AddResult(Some(IOError), config, jobs)
    else
      var h := hash(r.file.value);
      var c := Requested(hash, config, r);
      var d := c[r.dependency];
      // The uploader refuses to be made without a bucket, after the config has changed.
      if d.bucket == "" then AddResult(Some(ValueError), c, jobs)
      else AddResult(None, c, jobs + [NewJob(Key(d.bucket, RemotePath(r.dependency, h, d.baseFolder)), r.file.value)])
  }

  /** What the config says of one dependency on one platform; "" if nothing. */
  function Says(config: Config, dependency: string, platform: string, key: string): string {
    if dependency !in config then ""
    else
      var d := config[dependency];
      if key == "cloud_storage_bucket" then d.bucket
      else if key == "cloud_storage_base_folder" then d.baseFolder
      else if platform in d.fileInfo && key in d.fileInfo[platform] then d.fileInfo[platform][key]
      else ""
  }

  /**
    When a request is refused, and what an accepted one does: it records the hash and the version, if
    one is given, and nothing else, and one upload to the path of that hash is pending.
   */
  lemma RequestOutcome(hash: Blob -> string, writable: bool, config: Config, disk: Config, jobs: seq<Job>,
                       r: Request, execute: bool, d: string, p: string, key: string)
    ensures
      var a := AddJob(hash, writable, config, disk, jobs, r, execute);
      var known := HasPlatform(config, r.dependency, r.platform);
      var bucket := Says(config, r.dependency, r.platform, "cloud_storage_bucket");
      && (a.error == Some(ReadWriteError) <==> !writable || (execute && config != disk))
      && (a.error != Some(ReadWriteError) ==>
            && (a.error == Some(IOError) <==> known && r.file.None?)
            && (a.error == Some(ValueError) <==> !known || (r.file.Some? && bucket == "")))
      && (a.error.Some? ==> a.jobs == jobs)
      && (a.error.None? ==>
            && known && r.file.Some? && bucket != ""
            && var h := hash(r.file.value);
               var folder := Says(config, r.dependency, r.platform, "cloud_storage_base_folder");
               && a.jobs == jobs + [NewJob(Key(bucket, RemotePath(r.dependency, h, folder)), r.file.value)]
               && Says(a.config, d, p, key)
                    == if (d, p) != (r.dependency, r.platform) then Says(config, d, p, key)
                       else if key == "cloud_storage_hash" then h
                       else if key == "version_in_cs" && r.version != "" then r.version
                       else Says(config, d, p, key))
  {
    if HasPlatform(config, r.dependency, r.platform) && r.file.Some? {
      RequestedSays(hash, config, r, d, p, key);
      OwnTarget(hash, config, r);
    }
  }

  lemma SetSays(config: Config, dependency: string, platform: string, k: string, data: string,
                d: string, p: string, key: string)
    requires HasPlatform(config, dependency, platform) && (k == "version_in_cs" || k == "cloud_storage_hash")
    ensures
      var c := SetPlatformData(config, dependency, platform, k, data);
      && HasPlatform(c, dependency, platform)
      && Says(c, d, p, key) == if (d, p, key) == (dependency, platform, k) then data else Says(config, d, p, key)
  {
  }

  lemma RequestedSays(hash: Blob -> string, config: Config, r: Request, d: string, p: string, key: string)
    requires HasPlatform(config, r.dependency, r.platform) && r.file.Some?
    ensures
      Says(Requested(hash, config, r), d, p, key)
        == if (d, p) != (r.dependency, r.platform) then Says(config, d, p, key)
           else if key == "cloud_storage_hash" then hash(r.file.value)
           else if key == "version_in_cs" && r.version != "" then r.version
           else Says(config, d, p, key)
  {
    hide SetPlatformData, Says, HasPlatform;
    var c := if r.version == "" then config
             else SetPlatformData(config, r.dependency, r.platform, "version_in_cs", r.version);
    SetSays(config, r.dependency, r.platform, "version_in_cs", r.version, d, p, key);
    SetSays(c, r.dependency, r.platform, "cloud_storage_hash", hash(r.file.value), d, p, key);
  }

  /** A pending job uploads to a remote path that ends in the hash of its content. */
  ghost predicate Hashed(hash: Blob -> string, j: Job) {
    exists dependency, baseFolder :: j.target.path == RemotePath(dependency, hash(j.blob), baseFolder)
  }

  ghost predicate AllHashed(hash: Blob -> string, jobs: seq<Job>) {
    forall i :: 0 <= i < |jobs| ==> Hashed(hash, jobs[i])
  }

  ghost predicate GivesSha1(hash: Blob -> string) {
    forall blob :: IsSha1(hash(blob))
  }

  /** Jobs made by `AddJob` are what the transaction asks of its caller. */
  lemma HashedJobsAreHanded(hash: Blob -> string, jobs: seq<Job>)
    requires GivesSha1(hash) && Fresh(jobs) && AllHashed(hash, jobs)
    ensures Handed(jobs)
  {
    forall i, k | 0 <= i < |jobs| && 0 <= k < |jobs| ensures Old(jobs[i].target) != jobs[k].target {
      assert Hashed(hash, jobs[i]) && Hashed(hash, jobs[k]);
      var a, f :| jobs[i].target.path == RemotePath(a, hash(jobs[i].blob), f);
      var a', f' :| jobs[k].target.path == RemotePath(a', hash(jobs[k].blob), f');
      BackupIsNoRemotePath(a, hash(jobs[i].blob), f, a', hash(jobs[k].blob), f');
    }
  }

  /** Where the config says that the dependency is to be downloaded from. */
  function ConfigTarget(config: Config, dependency: string, platform: string): Option<(Key, string)> {
    if HasPlatform(config, dependency, platform) && "cloud_storage_hash" in config[dependency].fileInfo[platform] then
      var d := config[dependency];
      var h := d.fileInfo[platform]["cloud_storage_hash"];
      Some((Key(d.bucket, RemotePath(dependency, h, d.baseFolder)), h))
    else None
  }

  /** The object that the config points to is pending upload. */
  ghost predicate Awaited(hash: Blob -> string, config: Config, jobs: seq<Job>, dependency: string, platform: string) {
    exists i :: 0 <= i < |jobs|
      && ConfigTarget(config, dependency, platform) == Some((jobs[i].target, hash(jobs[i].blob)))
  }

  /** A request changes nothing about where another dependency or platform is to be found. */
  lemma OtherTargetStays(hash: Blob -> string, config: Config, r: Request, dependency: string, platform: string)
    requires HasPlatform(config, r.dependency, r.platform) && r.file.Some?
    requires (dependency, platform) != (r.dependency, r.platform)
    ensures ConfigTarget(Requested(hash, config, r), dependency, platform) == ConfigTarget(config, dependency, platform)
  {
  }

  /** And points its own at the new content. */
  lemma OwnTarget(hash: Blob -> string, config: Config, r: Request)
    requires HasPlatform(config, r.dependency, r.platform) && r.file.Some?
    ensures r.dependency in config && r.dependency in Requested(hash, config, r)
    ensures
      var d := config[r.dependency];
      var h := hash(r.file.value);
      && Requested(hash, config, r)[r.dependency].bucket == d.bucket
      && Requested(hash, config, r)[r.dependency].baseFolder == d.baseFolder
      && ConfigTarget(Requested(hash, config, r), r.dependency, r.platform)
           == Some((Key(d.bucket, RemotePath(r.dependency, h, d.baseFolder)), h))
  {
  }

  /** One successful request points the config at its own job and disturbs no earlier request. */
  lemma AddKeepsAwaited(hash: Blob -> string, config: Config, disk: Config, jobs: seq<Job>, r: Request, execute: bool,
                        dependency: string, platform: string)
    requires Fresh(jobs) && AllHashed(hash, jobs)
    requires AddJob(hash, true, config, disk, jobs, r, execute).error.None?
    ensures
      var a := AddJob(hash, true, config, disk, jobs, r, execute);
      && Fresh(a.jobs) && AllHashed(hash, a.jobs)
      && (if (dependency, platform) == (r.dependency, r.platform)
             || Awaited(hash, config, jobs, dependency, platform) then
            Awaited(hash, a.config, a.jobs, dependency, platform)
          else ConfigTarget(a.config, dependency, platform) == ConfigTarget(config, dependency, platform))
  {
    hide HasPlatform, Requested, ConfigTarget, RemotePath;
    var a := AddJob(hash, true, config, disk, jobs, r, execute);
    var last := a.jobs[|jobs|];
    OwnTarget(hash, config, r);
    var d, h := config[r.dependency], hash(r.file.value);
    assert last == NewJob(Key(d.bucket, RemotePath(r.dependency, h, d.baseFolder)), r.file.value);
    assert Hashed(hash, last);
    if (dependency, platform) == (r.dependency, r.platform) {
      assert ConfigTarget(a.config, dependency, platform) == Some((last.target, hash(last.blob)));
    } else {
      OtherTargetStays(hash, config, r, dependency, platform);
      var was := ConfigTarget(config, dependency, platform);
      if i: nat :| i < |jobs| && was == Some((jobs[i].target, hash(jobs[i].blob))) {
        assert a.jobs[i] == jobs[i];
      }
    }
  }

  // ---------------------------------------------------------------------------------
  // Executing them
  // ---------------------------------------------------------------------------------

  datatype UpdateResult = UpdateResult(result: Result<bool, Error>, disk: Config, jobs: seq<Job>, world: World)

  function ErrorOf(cause: Option<Failure>): Error {
    match cause
    case None => IOError  // the config file could not be written
    case Some(Conflict) => UploadConflict
    case Some(StorageError) => CloudStorageError
  }

  /** `ExecuteUpdateJobs`: lines 270-289. */
  ghost function ExecuteUpdate(writable: bool, config: Config, disk: Config, jobs: seq<Job>, w: World,
                               force: bool): UpdateResult
  {
    if !writable then UpdateResult(Err(ReadWriteError), disk, jobs, w)
    else if config == disk then UpdateResult(Ok(false), disk, jobs, w)
    else if jobs == [] then UpdateResult(Ok(true), disk, jobs, w)
    else
      var b := Execute(w, jobs, force);
      match b.result
      case Committed => UpdateResult(Ok(true), config, [], b.world)
      case RolledBack(cause) => UpdateResult(Err(ErrorOf(cause)), disk, b.jobs, b.world)
      case Stranded => UpdateResult(Err(CloudStorageError), disk, b.jobs, b.world)
  }

  /**
    What an update comes to.  With uploads pending it returns True if and only if none of its
    operations fails and it is forced, or all targets are new and different; if that alone is missing
    it raises the conflict.  A failed config write is reported if and only if all uploads were done and
    could be undone, a failed storage operation in all other cases.
   */
  lemma UpdateOutcome(writable: bool, config: Config, disk: Config, jobs: seq<Job>, w: World, force: bool)
    requires Handed(jobs)
    ensures
      var u := ExecuteUpdate(writable, config, disk, jobs, w, force);
      var quiet := Quiet(w.fails, w.clock, u.world.clock);
      var allowed := force || AllNew(w.objects, jobs, |jobs|);
      var uploaded := Uploads(w, jobs, force, |jobs|);
      && (u.result == Err(ReadWriteError) <==> !writable)
      && (u.result == Ok(false) <==> writable && config == disk)
      && (writable && config != disk && jobs != [] ==>
            && (u.result == Ok(true) <==> quiet && allowed)
            && (u.result == Err(UploadConflict) <==> quiet && !allowed)
            && (u.result == Ok(true) <==> u.disk == config)
            && (u.result == Err(IOError) <==>
                uploaded.result.None? && FailsNow(uploaded.world) &&
                Rollbacks(Tick(uploaded.world, uploaded.world.objects), uploaded.jobs, |jobs|).result)
            && (u.result.Ok? || u.result.error in {UploadConflict, IOError, CloudStorageError}))
  {
    hide Uploads, Rollbacks, AllNew;
    CommittedIff(w, jobs, force);
    UploadsShape(w, jobs, force, |jobs|);
  }

  /** A run of requests; None if one of them is refused. */
  function AddAll(hash: Blob -> string, config: Config, disk: Config, jobs: seq<Job>, rs: seq<Request>)
    : Option<(Config, seq<Job>)>
    decreases |rs|
  {
    if rs == [] then Some((config, jobs))
    else
      match AddAll(hash, config, disk, jobs, rs[..|rs| - 1])
      case None => None
      case Some((c, js)) =>
        var a := AddJob(hash, true, c, disk, js, rs[|rs| - 1], false);
        if a.error.None? then Some((a.config, a.jobs)) else None
  }

  ghost predicate IsRequested(rs: seq<Request>, dependency: string, platform: string) {
    exists i :: 0 <= i < |rs| && rs[i].dependency == dependency && rs[i].platform == platform
  }

  lemma NothingRequested(rs: seq<Request>, dependency: string, platform: string, hash: Blob -> string)
    requires |rs| == 0
    ensures !IsRequested(rs, dependency, platform) && Fresh([]) && AllHashed(hash, [])
  {
  }

  lemma RequestedBefore(rs: seq<Request>, dependency: string, platform: string)
    requires |rs| > 0
    ensures
      var n := |rs| - 1;
      IsRequested(rs, dependency, platform) ==>
        IsRequested(rs[..n], dependency, platform) || (dependency, platform) == (rs[n].dependency, rs[n].platform)
  {
    var n := |rs| - 1;
    if i: nat :| i < n && rs[i].dependency == dependency && rs[i].platform == platform {
      assert rs[..n][i] == rs[i];
    }
  }

  /** What was requested is awaited, and the rest of the config still points where it did. */
  lemma {:induction false} AddAllAwaits(hash: Blob -> string, config: Config, disk: Config, rs: seq<Request>,
                                        dependency: string, platform: string)
    requires AddAll(hash, config, disk, [], rs).Some?
    ensures
      var (c, js) := AddAll(hash, config, disk, [], rs).value;
      && Fresh(js) && AllHashed(hash, js)
      && (IsRequested(rs, dependency, platform) ==> Awaited(hash, c, js, dependency, platform))
      && (Awaited(hash, c, js, dependency, platform)
          || ConfigTarget(c, dependency, platform) == ConfigTarget(config, dependency, platform))
    decreases |rs|
  {
    if |rs| == 0 {
      NothingRequested(rs, dependency, platform, hash);
    } else {
      hide AddJob, ConfigTarget, Awaited, IsRequested, Fresh, AllHashed;
      var n := |rs| - 1;
      var (c, js) := AddAll(hash, config, disk, [], rs[..n]).value;
      AddAllAwaits(hash, config, disk, rs[..n], dependency, platform);
      AddKeepsAwaited(hash, c, disk, js, rs[n], false, dependency, platform);
      RequestedBefore(rs, dependency, platform);
    }
  }

  /** After a committed update the object at a job's target has the hash of that job's content. */
  lemma CommittedHash(hash: Blob -> string, jobs: seq<Job>, w: World, force: bool, i: nat)
    requires GivesSha1(hash) && Standard(jobs) && AllHashed(hash, jobs) && i < |jobs|
    requires Execute(w, jobs, force).result.Committed?
    ensures
      var objects := Execute(w, jobs, force).world.objects;
      jobs[i].target in objects && hash(objects[jobs[i].target]) == hash(jobs[i].blob)
  {
    var key := jobs[i].target;
    assert forall m :: 0 <= m < |jobs| ==> Old(jobs[m].target) != key;
    UploadsDeliver(w, jobs, force, |jobs|, key);
    LastForAfter(jobs, i, |jobs|);
    var h := LastFor(jobs, |jobs|, key).value;
    assert Hashed(hash, jobs[i]) && Hashed(hash, jobs[h]);
    var a, f :| key.path == RemotePath(a, hash(jobs[i].blob), f);
    var a', f' :| key.path == RemotePath(a', hash(jobs[h].blob), f');
    RemotePathHash(a, hash(jobs[i].blob), f, a', hash(jobs[h].blob), f');
  }

  /**
    The point of it all: after any run of accepted requests and an update that returns True,
    the config on disk points every requested dependency at an object of the recorded hash.
   */
  lemma UpdatedConfigIsDownloadable(hash: Blob -> string, config: Config, disk: Config, rs: seq<Request>,
                                    w: World, force: bool, i: nat)
    requires GivesSha1(hash) && i < |rs| && AddAll(hash, config, disk, [], rs).Some?
    requires
      var (c, js) := AddAll(hash, config, disk, [], rs).value;
      ExecuteUpdate(true, c, disk, js, w, force).result == Ok(true)
    ensures
      var (c, js) := AddAll(hash, config, disk, [], rs).value;
      var u := ExecuteUpdate(true, c, disk, js, w, force);
      var target := ConfigTarget(u.disk, rs[i].dependency, rs[i].platform);
      && u.disk == c && u.jobs == []
      && target.Some? && target.value.0 in u.world.objects
      && hash(u.world.objects[target.value.0]) == target.value.1
  {
    AddAllAwaits(hash, config, disk, rs, rs[i].dependency, rs[i].platform);
    assert IsRequested(rs, rs[i].dependency, rs[i].platform);
    var (c, js) := AddAll(hash, config, disk, [], rs).value;
    HashedJobsAreHanded(hash, js);
    var k :| 0 <= k < |js|
      && ConfigTarget(c, rs[i].dependency, rs[i].platform) == Some((js[k].target, hash(js[k].blob)));
    CommittedHash(hash, js, w, force, k);
  }

  // ---------------------------------------------------------------------------------
  // Runs of updates
  // ---------------------------------------------------------------------------------

  /** Every object at a remote path has the hash that its name says. */
  ghost predicate Honest(hash: Blob -> string, objects: map<Key, Blob>) {
    forall key, d, h, f :: key in objects && key.path == RemotePath(d, h, f) && IsSha1(h) ==> hash(objects[key]) == h
  }

  /** No content that a job uploads shares its hash with different content in the store. */
  ghost predicate NoCollision(hash: Blob -> string, objects: map<Key, Blob>, jobs: seq<Job>) {
    forall i, key :: 0 <= i < |jobs| && key in objects && hash(objects[key]) == hash(jobs[i].blob)
      ==> objects[key] == jobs[i].blob
  }

  /** With honest names and without collisions, what is uploaded to an existing target is what was there. */
  lemma HonestRepeatsAreHarmless(hash: Blob -> string, objects: map<Key, Blob>, jobs: seq<Job>)
    requires GivesSha1(hash) && NoCollision(hash, objects, jobs) && Honest(hash, objects) && AllHashed(hash, jobs)
    ensures RepeatsHarmless(objects, jobs)
  {
    hide RemotePath;
    forall i, j | 0 <= i < j < |jobs| && jobs[i].target == jobs[j].target && jobs[i].target in objects
      ensures jobs[i].blob == objects[jobs[i].target]
    {
      assert Hashed(hash, jobs[i]);
    }
  }

  /** A backup is no remote path of any content, so it is no concern of `Honest`. */
  lemma BackupHasNoHash(hash: Blob -> string, jobs: seq<Job>, key: Key, d: string, h: string, f: string)
    requires GivesSha1(hash) && AllHashed(hash, jobs) && IsSha1(h) && key.path == RemotePath(d, h, f)
    ensures !IsBackup(jobs, key)
  {
    hide RemotePath;
    forall i: nat | i < |jobs| ensures key != Old(jobs[i].target) {
      assert Hashed(hash, jobs[i]);
      var a, b :| jobs[i].target.path == RemotePath(a, hash(jobs[i].blob), b);
      BackupIsNoRemotePath(a, hash(jobs[i].blob), b, d, h, f);
    }
  }

  /**
    All or nothing, for accepted requests: after an update that failed and was rolled back the
    config on disk and every key but the backups are as they were.
   */
  lemma FailedUpdateChangesNothing(hash: Blob -> string, config: Config, disk: Config, rs: seq<Request>,
                                   w: World, force: bool, key: Key)
    requires GivesSha1(hash) && AddAll(hash, config, disk, [], rs).Some?
    requires
      var (c, js) := AddAll(hash, config, disk, [], rs).value;
      && (force ==> Honest(hash, w.objects) && NoCollision(hash, w.objects, js))
      && c != disk && js != [] && Execute(w, js, force).result.RolledBack? && !IsBackup(js, key)
    ensures
      var (c, js) := AddAll(hash, config, disk, [], rs).value;
      var u := ExecuteUpdate(true, c, disk, js, w, force);
      u.result.Err? && u.disk == disk && SameAt(u.world.objects, w.objects, key)
  {
    hide Execute;
    var (c, js) := AddAll(hash, config, disk, [], rs).value;
    AddAllAwaits(hash, config, disk, rs, "", "");
    HashedJobsAreHanded(hash, js);
    if force {
      HonestRepeatsAreHarmless(hash, w.objects, js);
    }
    RollbackRestores(w, js, force, key);
  }

  /** The dependency of a platform is to be found where the config says, with the recorded hash. */
  ghost predicate Found(hash: Blob -> string, objects: map<Key, Blob>, target: (Key, string)) {
    IsSha1(target.1) && target.0 in objects && hash(objects[target.0]) == target.1
  }

  ghost predicate Downloadable(hash: Blob -> string, config: Config, objects: map<Key, Blob>) {
    forall d, p :: ConfigTarget(config, d, p).Some? ==> Found(hash, objects, ConfigTarget(config, d, p).value)
  }

  lemma TargetIsRemote(config: Config, d: string, p: string)
    requires ConfigTarget(config, d, p).Some?
    ensures
      var (key, h) := ConfigTarget(config, d, p).value;
      d in config && key.path == RemotePath(d, h, config[d].baseFolder)
  {
  }

  /** The object is found now, and is in no danger from trying or undoing the uploads. */
  ghost predicate Safe(hash: Blob -> string, target: (Key, string), jobs: seq<Job>, objects: map<Key, Blob>) {
    IsSha1(target.1) && Kept(blob => hash(blob) == target.1, target.0, true, jobs, objects)
  }

  /** A remote path with a hash is no backup, and what is uploaded there has that hash. */
  lemma RemoteGoes(hash: Blob -> string, jobs: seq<Job>, key: Key, d: string, h: string, f: string)
    requires GivesSha1(hash) && Standard(jobs) && AllHashed(hash, jobs) && IsSha1(h) && key.path == RemotePath(d, h, f)
    ensures Goes(blob => hash(blob) == h, key, jobs)
  {
    hide RemotePath;
    BackupHasNoHash(hash, jobs, key, d, h, f);
    forall i: nat | i < |jobs|
      ensures jobs[i].target != Old(key) && (jobs[i].target == key ==> hash(jobs[i].blob) == h) {
      assert Hashed(hash, jobs[i]);
      var a, b :| jobs[i].target.path == RemotePath(a, hash(jobs[i].blob), b);
      BackupIsNoRemotePath(d, h, f, a, hash(jobs[i].blob), b);
      if jobs[i].target == key {
        RemotePathHash(d, h, f, a, hash(jobs[i].blob), b);
      }
    }
  }

  /** What a config points to stays safe in any update, however it ends. */
  lemma SafeStays(hash: Blob -> string, config: Config, jobs: seq<Job>, w: World, force: bool, d: string, p: string)
    requires GivesSha1(hash) && Standard(jobs) && AllHashed(hash, jobs)
    requires ConfigTarget(config, d, p).Some? && Safe(hash, ConfigTarget(config, d, p).value, jobs, w.objects)
    ensures var e := Execute(w, jobs, force); Safe(hash, ConfigTarget(config, d, p).value, e.jobs, e.world.objects)
  {
    hide Execute, ConfigTarget, RemotePath, Kept, Goes;
    TargetIsRemote(config, d, p);
    var (key, h) := ConfigTarget(config, d, p).value;
    RemoteGoes(hash, jobs, key, d, h, config[d].baseFolder);
    NothingIsLost(blob => hash(blob) == h, key, true, w, jobs, force);
  }

  lemma SafeIsFound(hash: Blob -> string, target: (Key, string), jobs: seq<Job>, objects: map<Key, Blob>)
    ensures Safe(hash, target, jobs, objects) ==> Found(hash, objects, target)
    ensures Fresh(jobs) && Found(hash, objects, target) ==> Safe(hash, target, jobs, objects)
  {
  }

  // ---------------------------------------------------------------------------------
  // A session: a config object is made for the file, given requests and executed
  // ---------------------------------------------------------------------------------

  datatype State = State(disk: Config, world: World)

  /** `forces` are the arguments of the calls of `ExecuteUpdateJobs`, one for each. */
  datatype Session = Session(requests: seq<Request>, forces: seq<bool>)

  /** The file, the pending uploads and the store while the config object is used. */
  datatype Held = Held(disk: Config, jobs: seq<Job>, world: World)

  ghost function Executed(c: Config, h: Held, force: bool): Held {
    var u := ExecuteUpdate(true, c, h.disk, h.jobs, h.world, force);
    Held(u.disk, u.jobs, u.world)
  }

  ghost function ExecutedAll(c: Config, h: Held, forces: seq<bool>, n: nat): Held
    requires n <= |forces|
  {
    if n == 0 then h else Executed(c, ExecutedAll(c, h, forces, n - 1), forces[n - 1])
  }

  /** A session in which a request is refused is given up. */
  ghost function After(hash: Blob -> string, s: State, session: Session): State {
    match AddAll(hash, s.disk, s.disk, [], session.requests)
    case None => s
    case Some((c, js)) =>
      var h := ExecutedAll(c, Held(s.disk, js, s.world), session.forces, |session.forces|);
      State(h.disk, h.world)
  }

  /** The config points where the old one did, or awaits an upload. */
  ghost predicate Follows(hash: Blob -> string, c: Config, js: seq<Job>, disk: Config) {
    && AllHashed(hash, js) && Standard(js)
    && forall d, p :: Awaited(hash, c, js, d, p) || ConfigTarget(c, d, p) == ConfigTarget(disk, d, p)
  }

  /** The update has been committed, or nothing has been backed up and all that the file points to is safe. */
  ghost predicate Sound(hash: Blob -> string, c: Config, js: seq<Job>, disk: Config, h: Held) {
    if h.disk == c then Downloadable(hash, c, h.world.objects)
    else
      && h.disk == disk && SameUploads(h.jobs, js) && Unbacked(h.jobs)
      && forall d, p :: ConfigTarget(disk, d, p).Some? ==>
           Safe(hash, ConfigTarget(disk, d, p).value, h.jobs, h.world.objects)
  }

  lemma SoundIsDownloadable(hash: Blob -> string, c: Config, js: seq<Job>, disk: Config, h: Held)
    requires Sound(hash, c, js, disk, h)
    ensures Downloadable(hash, h.disk, h.world.objects)
  {
    if h.disk != c {
      forall d, p | ConfigTarget(disk, d, p).Some?
        ensures Found(hash, h.world.objects, ConfigTarget(disk, d, p).value) {
        SafeIsFound(hash, ConfigTarget(disk, d, p).value, h.jobs, h.world.objects);
      }
    }
  }

  lemma SameUploadsFollow(hash: Blob -> string, c: Config, js: seq<Job>, disk: Config, jobs: seq<Job>)
    requires Follows(hash, c, js, disk) && SameUploads(jobs, js) && Unbacked(jobs)
    ensures Follows(hash, c, jobs, disk)
  {
    hide ConfigTarget, RemotePath;
    forall i | 0 <= i < |jobs| ensures Hashed(hash, jobs[i]) {
      assert Hashed(hash, js[i]);
    }
    forall d, p ensures Awaited(hash, c, jobs, d, p) || ConfigTarget(c, d, p) == ConfigTarget(disk, d, p) {
      if Awaited(hash, c, js, d, p) {
        var i :| 0 <= i < |js| && ConfigTarget(c, d, p) == Some((js[i].target, hash(js[i].blob)));
        assert ConfigTarget(c, d, p) == Some((jobs[i].target, hash(jobs[i].blob)));
      }
    }
  }

  /** After a committed update what was awaited is found. */
  lemma AwaitedIsFound(hash: Blob -> string, c: Config, jobs: seq<Job>, w: World, force: bool, d: string, p: string)
    requires GivesSha1(hash) && Standard(jobs) && AllHashed(hash, jobs)
    requires Execute(w, jobs, force).result.Committed? && Awaited(hash, c, jobs, d, p)
    ensures
      var target := ConfigTarget(c, d, p);
      target.Some? && Found(hash, Execute(w, jobs, force).world.objects, target.value)
  {
    hide ConfigTarget, RemotePath, Uploads;
    var k :| 0 <= k < |jobs| && ConfigTarget(c, d, p) == Some((jobs[k].target, hash(jobs[k].blob)));
    CommittedHash(hash, jobs, w, force, k);
  }

  /** One dependency of a config that has just been written. */
  lemma WrittenIsFound(hash: Blob -> string, c: Config, disk: Config, h: Held, force: bool, d: string, p: string)
    requires GivesSha1(hash) && Follows(hash, c, h.jobs, disk) && ConfigTarget(c, d, p).Some?
    requires Execute(h.world, h.jobs, force).result.Committed?
    requires ConfigTarget(disk, d, p).Some? ==> Safe(hash, ConfigTarget(disk, d, p).value, h.jobs, h.world.objects)
    ensures Found(hash, Execute(h.world, h.jobs, force).world.objects, ConfigTarget(c, d, p).value)
  {
    hide Execute, ConfigTarget, Safe, Found;
    if Awaited(hash, c, h.jobs, d, p) {
      AwaitedIsFound(hash, c, h.jobs, h.world, force, d, p);
    } else {
      SafeStays(hash, disk, h.jobs, h.world, force, d, p);
      var e := Execute(h.world, h.jobs, force);
      SafeIsFound(hash, ConfigTarget(disk, d, p).value, e.jobs, e.world.objects);
    }
  }

  /** Without force an execution leaves everything sound; with force it leaves the file sound. */
  lemma ExecutionKeeps(hash: Blob -> string, c: Config, js: seq<Job>, disk: Config, h: Held, force: bool)
    requires GivesSha1(hash) && Follows(hash, c, js, disk) && Sound(hash, c, js, disk, h)
    ensures
      var n := Executed(c, h, force);
      Downloadable(hash, n.disk, n.world.objects) && (!force ==> Sound(hash, c, js, disk, n))
  {
    hide Execute, ConfigTarget, Safe, Found, AllHashed;
    var n := Executed(c, h, force);
    if h.disk == c || h.jobs == [] {
      SoundIsDownloadable(hash, c, js, disk, h);
    } else {
      SameUploadsFollow(hash, c, js, disk, h.jobs);
      var e := Execute(h.world, h.jobs, force);
      ExecuteShape(h.world, h.jobs, force);
      forall d, p | ConfigTarget(disk, d, p).Some?
        ensures Safe(hash, ConfigTarget(disk, d, p).value, e.jobs, e.world.objects)
        ensures Found(hash, e.world.objects, ConfigTarget(disk, d, p).value)
      {
        SafeStays(hash, disk, h.jobs, h.world, force, d, p);
        SafeIsFound(hash, ConfigTarget(disk, d, p).value, e.jobs, e.world.objects);
      }
      if e.result.Committed? {
        forall d, p | ConfigTarget(c, d, p).Some? ensures Found(hash, e.world.objects, ConfigTarget(c, d, p).value) {
          WrittenIsFound(hash, c, disk, h, force, d, p);
        }
      }
    }
  }

  /** Only the last call is forced, if any is. */
  predicate ForcedLast(forces: seq<bool>) {
    forall k: nat :: k + 1 < |forces| ==> !forces[k]
  }

  lemma {:induction false} ExecutionsKeep(hash: Blob -> string, c: Config, js: seq<Job>, disk: Config, h: Held,
                                          forces: seq<bool>, n: nat)
    requires GivesSha1(hash) && Follows(hash, c, js, disk) && Sound(hash, c, js, disk, h)
    requires n <= |forces| && ForcedLast(forces)
    ensures
      var e := ExecutedAll(c, h, forces, n);
      Downloadable(hash, e.disk, e.world.objects) && (n < |forces| ==> Sound(hash, c, js, disk, e))
    decreases n
  {
    hide Sound, Downloadable, Follows, Executed;
    if n == 0 {
      SoundIsDownloadable(hash, c, js, disk, h);
    } else {
      ExecutionsKeep(hash, c, js, disk, h, forces, n - 1);
      ExecutionKeeps(hash, c, js, disk, ExecutedAll(c, h, forces, n - 1), forces[n - 1]);
    }
  }

  /** At the beginning of a session. */
  lemma SoundAtFirst(hash: Blob -> string, s: State, rs: seq<Request>)
    requires GivesSha1(hash) && Downloadable(hash, s.disk, s.world.objects)
      && AddAll(hash, s.disk, s.disk, [], rs).Some?
    ensures
      var (c, js) := AddAll(hash, s.disk, s.disk, [], rs).value;
      Follows(hash, c, js, s.disk) && Sound(hash, c, js, s.disk, Held(s.disk, js, s.world))
  {
    hide ConfigTarget, Found, Safe, AllHashed, Awaited;
    var (c, js) := AddAll(hash, s.disk, s.disk, [], rs).value;
    AddAllAwaits(hash, s.disk, s.disk, rs, "", "");
    HashedJobsAreHanded(hash, js);
    forall d, p ensures Awaited(hash, c, js, d, p) || ConfigTarget(c, d, p) == ConfigTarget(s.disk, d, p) {
      AddAllAwaits(hash, s.disk, s.disk, rs, d, p);
    }
    forall d, p | ConfigTarget(s.disk, d, p).Some?
      ensures Safe(hash, ConfigTarget(s.disk, d, p).value, js, s.world.objects)
    {
      SafeIsFound(hash, ConfigTarget(s.disk, d, p).value, js, s.world.objects);
    }
  }

  lemma SessionKeepsDownloadable(hash: Blob -> string, s: State, session: Session)
    requires GivesSha1(hash) && Downloadable(hash, s.disk, s.world.objects) && ForcedLast(session.forces)
    ensures var t := After(hash, s, session); Downloadable(hash, t.disk, t.world.objects)
  {
    hide Downloadable, Follows, Sound, ExecutedAll;
    if AddAll(hash, s.disk, s.disk, [], session.requests).Some? {
      var (c, js) := AddAll(hash, s.disk, s.disk, [], session.requests).value;
      SoundAtFirst(hash, s, session.requests);
      ExecutionsKeep(hash, c, js, s.disk, Held(s.disk, js, s.world), session.forces, |session.forces|);
    }
  }

  ghost function AfterAll(hash: Blob -> string, s: State, sessions: seq<Session>): State
    decreases |sessions|
  {
    if sessions == [] then s
    else After(hash, AfterAll(hash, s, sessions[..|sessions| - 1]), sessions[|sessions| - 1])
  }

  /**
    Over any number of sessions, whichever operations fail, rollbacks included, and however often an
    update is tried again: the config on disk points every dependency at an object with the recorded
    hash if it did so before.
   */
  lemma {:induction false} AlwaysDownloadable(hash: Blob -> string, s: State, sessions: seq<Session>)
    requires GivesSha1(hash) && Downloadable(hash, s.disk, s.world.objects)
    requires forall i :: 0 <= i < |sessions| ==> ForcedLast(sessions[i].forces)
    ensures var t := AfterAll(hash, s, sessions); Downloadable(hash, t.disk, t.world.objects)
    decreases |sessions|
  {
    hide Downloadable, After, ForcedLast;
    if |sessions| > 0 {
      var n := |sessions| - 1;
      AlwaysDownloadable(hash, s, sessions[..n]);
      SessionKeepsDownloadable(hash, AfterAll(hash, s, sessions[..n]), sessions[n]);
    }
  }

  // ---------------------------------------------------------------------------------
  // Trying again after a forced call
  // ---------------------------------------------------------------------------------

  /** A config file that records the hash of `a`, where `a` is found; `b` is in the object named None. */
  function Recording(hash: Blob -> string, a: Blob): (c: Config)
    ensures HasPlatform(c, "dep", "linux")
  {
    var data: PlatformData := map["cloud_storage_hash" := hash(a)];
    assert "cloud_storage_hash" in data;
    map["dep" := Dependency("bucket", "", map["linux" := data])]
  }

  function RecordedKey(hash: Blob -> string, a: Blob): Key {
    Key("bucket", RemotePath("dep", hash(a), ""))
  }

  function Stored(hash: Blob -> string, a: Blob, b: Blob): map<Key, Blob> {
    map[RecordedKey(hash, a) := a, Key("bucket", "None") := b]
  }

  /** The content is uploaded once more, for a new version. */
  function NewVersion(a: Blob): Request {
    Request("dep", "linux", Some(a), "2")
  }

  lemma RecordingIsDownloadable(hash: Blob -> string, a: Blob, b: Blob)
    requires GivesSha1(hash)
    ensures Downloadable(hash, Recording(hash, a), Stored(hash, a, b))
  {
    var data: PlatformData := map["cloud_storage_hash" := hash(a)];
    assert "cloud_storage_hash" in data;
    assert Recording(hash, a)["dep"].fileInfo["linux"] == data;
    RemotePathEnd("dep", hash(a), "");
  }

  lemma NewVersionIsAdded(hash: Blob -> string, a: Blob)
    ensures
      var disk := Recording(hash, a);
      var c := Requested(hash, disk, NewVersion(a));
      && c != disk
        && ConfigTarget(c, "dep", "linux") == ConfigTarget(disk, "dep", "linux")
          == Some((RecordedKey(hash, a), hash(a)))
      && AddAll(hash, disk, disk, [], [NewVersion(a)]) == Some((c, [NewJob(RecordedKey(hash, a), a)]))
  {
    var disk, r := Recording(hash, a), NewVersion(a);
    var data: PlatformData := map["cloud_storage_hash" := hash(a)];
    assert "cloud_storage_hash" in data && "version_in_cs" !in data;
    assert disk["dep"].fileInfo["linux"] == data;
    OwnTarget(hash, disk, r);
    SameRequested(hash, disk, r);
    OneRequest(hash, disk, r);
    var j := NewJob(RecordedKey(hash, a), a);
    assert AddJob(hash, true, disk, disk, [], r, false).jobs == [] + [j] == [j];
  }

  lemma OneRequest(hash: Blob -> string, disk: Config, r: Request)
    requires AddJob(hash, true, disk, disk, [], r, false).error.None?
    ensures
      var a := AddJob(hash, true, disk, disk, [], r, false);
      AddAll(hash, disk, disk, [], [r]) == Some((a.config, a.jobs))
  {
    hide AddJob;
    assert [r][..0] == [];
    assert AddAll(hash, disk, disk, [], []) == Some((disk, []));
  }

  /** The failing operations: all before call k, the insertion of call k, and then all but one copy. */
  function Breaking(k: nat): nat -> bool {
    t => t < k || t == k + 2 || t == k + 4 || t >= k + 6
  }

  /** The job once a rollback has forgotten its backup. */
  function Stale(j: Job): Job {
    Job(j.target, None, j.blob, false, true)
  }

  /** What an execution of one pending upload comes to, if the upload fails. */
  lemma ExecutedOne(c: Config, h: Held, j: Job, force: bool)
    requires h.disk != c && h.jobs == [j] && UploadJob(h.world, j, force).result.Some?
    ensures
      var r := UploadJob(h.world, j, force);
      var u := RollbackJob(r.world, r.job);
      Executed(c, h, force) == Held(h.disk, [u.job], u.world)
  {
    hide Execute, UploadJob, RollbackJob;
    ExecuteOne(h.world, j, force);
  }

  /** The store after `n` calls of which the k-th is forced. */
  ghost predicate BrokenAt(hash: Blob -> string, a: Blob, b: Blob, k: nat, n: nat, h: Held) {
    var j := NewJob(RecordedKey(hash, a), a);
    var start := Stored(hash, a, b);
    var backed := start[Old(j.target) := a];
    && h.disk == Recording(hash, a) && h.world.fails == Breaking(k)
    && (if n <= k then h.jobs == [j] && h.world.objects == start && h.world.clock == n
        else if n == k + 1 then h.jobs == [Stale(j)] && h.world.objects == backed && h.world.clock == k + 4
        else h.jobs == [Stale(j)] && h.world.objects == backed[j.target := b] && h.world.clock >= k + 6)
  }

  lemma NoneIsNoTarget(hash: Blob -> string, a: Blob, b: Blob)
    requires GivesSha1(hash)
    ensures
      var key := RecordedKey(hash, a);
      key.path != "None" && Old(key).path != "None" && Old(key) != key
      && Stored(hash, a, b)[key] == a && Stored(hash, a, b)[Key("bucket", "None")] == b
  {
    RemotePathEnd("dep", hash(a), "");
  }

  lemma BreakingStep(hash: Blob -> string, a: Blob, b: Blob, c: Config, k: nat, n: nat, h: Held, force: bool)
    requires GivesSha1(hash) && BrokenAt(hash, a, b, k, n, h) && c != h.disk && (n == k ==> force)
    ensures BrokenAt(hash, a, b, k, n + 1, Executed(c, h, force))
  {
    hide Executed, RemotePath, Recording, GivesSha1;
    NoneIsNoTarget(hash, a, b);
    var j := NewJob(RecordedKey(hash, a), a);
    ExecutedOne(c, h, if n <= k then j else Stale(j), force);
  }

  lemma {:induction false} BreakingRun(hash: Blob -> string, a: Blob, b: Blob, forces: seq<bool>, k: nat, n: nat)
    requires GivesSha1(hash) && k < |forces| && forces[k] && n <= |forces|
    ensures
      var disk := Recording(hash, a);
      var h := Held(disk, [NewJob(RecordedKey(hash, a), a)], World(Stored(hash, a, b), 0, Breaking(k)));
      BrokenAt(hash, a, b, k, n, ExecutedAll(Requested(hash, disk, NewVersion(a)), h, forces, n))
    decreases n
  {
    hide Executed, RecordedKey, Stored;
    var disk := Recording(hash, a);
    var c := Requested(hash, disk, NewVersion(a));
    if n > 0 {
      var h := Held(disk, [NewJob(RecordedKey(hash, a), a)], World(Stored(hash, a, b), 0, Breaking(k)));
      BreakingRun(hash, a, b, forces, k, n - 1);
      NewVersionIsAdded(hash, a);
      BreakingStep(hash, a, b, c, k, n - 1, ExecutedAll(c, h, forces, n - 1), forces[n - 1]);
    }
  }

  lemma StoredIsHonest(hash: Blob -> string, a: Blob)
    requires GivesSha1(hash)
    ensures Honest(hash, Stored(hash, a, a))
  {
    hide RemotePath;
    forall key, d, h, f | key in Stored(hash, a, a) && key.path == RemotePath(d, h, f) && IsSha1(h)
      ensures hash(a) == h {
      RemotePathEnd(d, h, f);
      RemotePathHash("dep", hash(a), "", d, h, f);
    }
  }

  /** The insertion fails after the backup copy, and the rollback succeeds. */
  lemma FailsAndIsRolledBack(w: World, j: Job)
    requires j == NewJob(j.target, j.blob) && j.target in w.objects && Old(j.target) != j.target
    requires w.clock == 0 && w.fails == Breaking(0)
    ensures
      var e := Execute(w, [j], true);
      e.result.RolledBack? && Old(j.target) in e.world.objects
  {
    ExecuteOne(w, j, true);
  }

  /** An instance: a forced update of an honest store that fails and is rolled back, having made a backup. */
  lemma ForcedUpdateFails(hash: Blob -> string, a: Blob)
    requires GivesSha1(hash)
    ensures var disk := Recording(hash, a); AddAll(hash, disk, disk, [], [NewVersion(a)]).Some?
    ensures
      var disk, key := Recording(hash, a), RecordedKey(hash, a);
      var (c, js) := AddAll(hash, disk, disk, [], [NewVersion(a)]).value;
      var w := World(Stored(hash, a, a), 0, Breaking(0));
      && Honest(hash, w.objects) && NoCollision(hash, w.objects, js)
      && c != disk && js != [] && Execute(w, js, true).result.RolledBack? && !IsBackup(js, key)
      && Execute(w, js, true).world.objects != w.objects
  {
    hide RemotePath, Execute, AddAll, Breaking;
    NewVersionIsAdded(hash, a);
    StoredIsHonest(hash, a);
    NoneIsNoTarget(hash, a, a);
    var w, j := World(Stored(hash, a, a), 0, Breaking(0)), NewJob(RecordedKey(hash, a), a);
    FailsAndIsRolledBack(w, j);
    assert Old(j.target) !in w.objects;
  }

  /** A session with a forced call before its last one may leave wrong content where the config on disk points. */
  lemma ForcedEarlyBreaks(hash: Blob -> string, a: Blob, b: Blob, forces: seq<bool>)
    returns (s: State, rs: seq<Request>)
    requires GivesSha1(hash) && hash(a) != hash(b) && !ForcedLast(forces)
    ensures Downloadable(hash, s.disk, s.world.objects)
    ensures var t := After(hash, s, Session(rs, forces)); !Downloadable(hash, t.disk, t.world.objects)
  {
    hide RemotePath;
    var k: nat :| k + 1 < |forces| && forces[k];
    s := State(Recording(hash, a), World(Stored(hash, a, b), 0, Breaking(k)));
    rs := [NewVersion(a)];
    RecordingIsDownloadable(hash, a, b);
    NewVersionIsAdded(hash, a);
    BreakingRun(hash, a, b, forces, k, |forces|);
    var t := After(hash, s, Session(rs, forces));
    assert t.disk == s.disk && t.world.objects[RecordedKey(hash, a)] == b;
  }

  /**
    A session keeps the file on disk downloadable, whatever is stored, requested and fails, if and only
    if no call of `ExecuteUpdateJobs` before its last one is forced.
   */
  lemma SessionIsSafeIff(hash: Blob -> string, a: Blob, b: Blob, forces: seq<bool>)
    requires GivesSha1(hash) && hash(a) != hash(b)
    ensures
      (forall s: State, rs: seq<Request> :: Downloadable(hash, s.disk, s.world.objects) ==>
         var t := After(hash, s, Session(rs, forces)); Downloadable(hash, t.disk, t.world.objects))
        <==> ForcedLast(forces)
  {
    hide Downloadable, After;
    if ForcedLast(forces) {
      forall s: State, rs: seq<Request> | Downloadable(hash, s.disk, s.world.objects)
        ensures var t := After(hash, s, Session(rs, forces)); Downloadable(hash, t.disk, t.world.objects)
      {
        SessionKeepsDownloadable(hash, s, Session(rs, forces));
      }
    } else {
      var s, rs := ForcedEarlyBreaks(hash, a, b, forces);
    }
  }

  /**
    `ExecuteUpdateJobs` promises to write all config changes.  When it returns True it has
    done so if and only if an upload was pending.
   */
  lemma ReturnsTrueHavingWritten(config: Config, disk: Config, jobs: seq<Job>, w: World, force: bool)
    requires ExecuteUpdate(true, config, disk, jobs, w, force).result == Ok(true)
    ensures ExecuteUpdate(true, config, disk, jobs, w, force).disk == config <==> jobs != []
  {
  }

  /** The config already says what the request asks for. */
  predicate IsRecorded(hash: Blob -> string, config: Config, r: Request)
    requires HasPlatform(config, r.dependency, r.platform) && r.file.Some?
  {
    var data := config[r.dependency].fileInfo[r.platform];
    && (r.version != "" ==> "version_in_cs" in data && data["version_in_cs"] == r.version)
    && "cloud_storage_hash" in data && data["cloud_storage_hash"] == hash(r.file.value)
  }

  lemma SamePlatformData(config: Config, dependency: string, platform: string, key: string, data: string)
    requires HasPlatform(config, dependency, platform)
    requires key != "cloud_storage_bucket" && key != "cloud_storage_base_folder"
    ensures
      var was := config[dependency].fileInfo[platform];
      var c := SetPlatformData(config, dependency, platform, key, data);
      && HasPlatform(c, dependency, platform) && c[dependency].fileInfo[platform] == was[key := data]
      && (c == config <==> key in was && was[key] == data)
  {
    var was := config[dependency].fileInfo[platform];
    if key in was && was[key] == data {
      var d := config[dependency];
      assert was[key := data] == was && d.fileInfo[platform := was] == d.fileInfo;
    }
  }

  lemma SameRequested(hash: Blob -> string, config: Config, r: Request)
    requires HasPlatform(config, r.dependency, r.platform) && r.file.Some?
    ensures Requested(hash, config, r) == config <==> IsRecorded(hash, config, r)
  {
    hide SetPlatformData;
    SamePlatformData(config, r.dependency, r.platform, "version_in_cs", r.version);
    var c := if r.version == "" then config
             else SetPlatformData(config, r.dependency, r.platform, "version_in_cs", r.version);
    SamePlatformData(c, r.dependency, r.platform, "cloud_storage_hash", hash(r.file.value));
    var was := config[r.dependency].fileInfo[r.platform];
    var data := c[r.dependency].fileInfo[r.platform];
    var now := data["cloud_storage_hash" := hash(r.file.value)];
    assert r.version != "" ==> now["version_in_cs"] == r.version;
  }

  /**
    A refused request: the next update of the clean config returns True without writing if and
    only if the dependency has no bucket and the config said something else before.
   */
  lemma RefusedThenTrueIff(hash: Blob -> string, disk: Config, r: Request, execute: bool, w: World, force: bool)
    requires AddJob(hash, true, disk, disk, [], r, execute).error.Some?
    ensures
      var a := AddJob(hash, true, disk, disk, [], r, execute);
      var u := ExecuteUpdate(true, a.config, disk, a.jobs, w, force);
      && u.disk == disk && u.world == w
      && (u.result == Ok(true) && u.disk != a.config
          <==> HasPlatform(disk, r.dependency, r.platform) && r.file.Some? && !IsRecorded(hash, disk, r))
  {
    hide Requested, IsRecorded, HasPlatform;
    if HasPlatform(disk, r.dependency, r.platform) && r.file.Some? {
      SameRequested(hash, disk, r);
    }
  }

  const LINUX: PlatformData := map["cloud_storage_hash" := "0"]
  const NO_BUCKET: Config := map["dep" := Dependency("", "", map["linux" := LINUX])]

  /** A request for a dependency without a bucket is refused, and then True is returned and nothing is written. */
  lemma ReturnsTrueWithoutWriting(hash: Blob -> string, blob: Blob, w: World)
    ensures
      var r := Request("dep", "linux", Some(blob), "2");
      var a := AddJob(hash, true, NO_BUCKET, NO_BUCKET, [], r, false);
      var u := ExecuteUpdate(true, a.config, NO_BUCKET, a.jobs, w, false);
      a.error == Some(ValueError) && u.result == Ok(true) && u.disk == NO_BUCKET && u.disk != a.config
  {
    var r := Request("dep", "linux", Some(blob), "2");
    assert "cloud_storage_hash" in LINUX && "version_in_cs" !in LINUX;
    assert NO_BUCKET["dep"].fileInfo["linux"] == LINUX;
    OwnTarget(hash, NO_BUCKET, r);
    RefusedThenTrueIff(hash, NO_BUCKET, r, false, w, false);
  }

  // ---------------------------------------------------------------------------------
  // The object
  // ---------------------------------------------------------------------------------

  function AsJobs(uploads: seq<CloudStorageUploader>): seq<Job>
    reads uploads
  {
    seq(|uploads|, i requires 0 <= i < |uploads| reads uploads => uploads[i].AsJob())
  }

  lemma AsJobsAppend(uploads: seq<CloudStorageUploader>, upload: CloudStorageUploader)
    ensures AsJobs(uploads + [upload]) == AsJobs(uploads) + [upload.AsJob()]
  {
  }

  /** An update that ends as `u` says, for a caller who ignores what it returns. */
  ghost predicate Ends(error: Option<Error>, disk: Config, jobs: seq<Job>, world: World, u: UpdateResult) {
    && error == (if u.result.Err? then Some(u.result.error) else None)
    && disk == u.disk && jobs == u.jobs && world == u.world
  }

  class BaseConfig {
    const writable: bool
    const hash: Blob -> string
    const store: CloudStorage
    var configData: Config
    var disk: Config  // the dependencies in the file at config_path
    var pendingUploads: seq<CloudStorageUploader>

    ghost predicate Valid()
      reads this, pendingUploads
    {
      Distinct(pendingUploads)
    }

    constructor (writable: bool, hash: Blob -> string, store: CloudStorage, disk: Config)
      ensures Valid() && pendingUploads == [] && configData == disk && this.disk == disk
      ensures this.writable == writable && this.hash == hash && this.store == store
    {
      this.writable, this.hash, this.store := writable, hash, store;
      configData, this.disk, pendingUploads := disk, disk, [];
    }

    /** The lines up to `execute_job`. */
    method AddUpdateJob(r: Request, execute: bool) returns (error: Option<Error>)
      requires Valid()
      modifies this`configData, this`pendingUploads
      ensures Valid() && old(pendingUploads) <= pendingUploads
      ensures forall k :: |old(pendingUploads)| <= k < |pendingUploads| ==> fresh(pendingUploads[k])
      ensures AddResult(error, configData, AsJobs(pendingUploads))
           == AddJob(hash, writable, old(configData), disk, old(AsJobs(pendingUploads)), r, execute)
    {
      hide SetPlatformData, HasPlatform, RemotePath, AsJobs, ConfigTarget;
      if !writable || (configData != disk && execute) {
        return Some(ReadWriteError);
      }
      if !HasPlatform(configData, r.dependency, r.platform) {
        return Some(ValueError);
      }
      if r.file.None? {
        return Some(IOError);
      }
      var h := hash(r.file.value);
      OwnTarget(hash, configData, r);
      SamePlatformData(configData, r.dependency, r.platform, "version_in_cs", r.version);
      if r.version != "" {
        configData := SetPlatformData(configData, r.dependency, r.platform, "version_in_cs", r.version);
      }
      configData := SetPlatformData(configData, r.dependency, r.platform, "cloud_storage_hash", h);
      assert configData == Requested(hash, old(configData), r);
      hide Requested;
      var d := configData[r.dependency];
      if d.bucket == "" {
        return Some(ValueError);
      }
      var upload := new CloudStorageUploader(Key(d.bucket, RemotePath(r.dependency, h, d.baseFolder)), r.file.value);
      pendingUploads := pendingUploads + [upload];
      AsJobsAppend(old(pendingUploads), upload);
      return None;
    }

    /** One request, executed at once if `execute` is set. */
    method AddCloudStorageDependencyUpdateJob(r: Request, execute: bool) returns (error: Option<Error>)
      requires Valid()
      modifies this, pendingUploads, store
      ensures Valid()
      ensures
        var a := AddJob(hash, writable, old(configData), old(disk), old(AsJobs(pendingUploads)), r, execute);
        && configData == a.config
        && (if a.error.Some? || !execute then
              AddResult(error, configData, AsJobs(pendingUploads)) == a && disk == old(disk)
                && store.world == old(store.world)
            else
              Ends(error, disk, AsJobs(pendingUploads), store.world,
                   ExecuteUpdate(writable, a.config, old(disk), a.jobs, old(store.world), false)))
    {
      hide AddJob, ExecuteUpdate;
      error := AddUpdateJob(r, execute);
      if error.None? && execute {
        var result := ExecuteUpdateJobs(false);
        error := if result.Err? then Some(result.error) else None;
      }
    }

    /** The loop of lines 278-279. */
    method UploadPending(force: bool, ghost jobs: seq<Job>) returns (failure: Option<Failure>)
      requires Distinct(pendingUploads) && Hold(pendingUploads, jobs)
      modifies pendingUploads, store
      ensures
        var b := Uploads(old(store.world), jobs, force, |jobs|);
        failure == b.result && Hold(pendingUploads, b.jobs) && store.world == b.world
    {
      hide UploadJob, Uploads;
      ghost var w, done: seq<Job> := store.world, [];
      UploadsNone(w, jobs, force);
      for i := 0 to |pendingUploads|
        invariant Uploads(w, jobs, force, i) == Batch(None, done, store.world)
        invariant forall k :: 0 <= k < i ==> pendingUploads[k].AsJob() == done[k]
        invariant forall k :: i <= k < |pendingUploads| ==> pendingUploads[k].AsJob() == jobs[k]
      {
        UploadsNext(w, jobs, force, i);
        failure := pendingUploads[i].Upload(store, force);
        done := done + [pendingUploads[i].AsJob()];
        if failure.Some? {
          UploadsStop(w, jobs, force, i + 1, |jobs|);
          HoldsFrom(pendingUploads, done, jobs);
          return;
        }
      }
      return None;
    }

    /** The loop of lines 286-287; false when a rollback raises. */
    method RollbackPending(ghost jobs: seq<Job>) returns (ok: bool)
      requires Distinct(pendingUploads) && Hold(pendingUploads, jobs)
      modifies pendingUploads, store
      ensures
        var b := Rollbacks(old(store.world), jobs, |jobs|);
        ok == b.result && Hold(pendingUploads, b.jobs) && store.world == b.world
    {
      hide RollbackJob, Rollbacks;
      ghost var w, done: seq<Job> := store.world, [];
      assert Resumes(Rollbacks(w, jobs, |jobs|), Rollbacks(w, jobs, |jobs|), done);
      for i := |pendingUploads| downto 0
        invariant |done| == |jobs| - i
        invariant Resumes(Rollbacks(w, jobs, |jobs|), Rollbacks(store.world, jobs, i), done)
        invariant forall k :: i <= k < |pendingUploads| ==> pendingUploads[k].AsJob() == done[k - i]
        invariant forall k :: 0 <= k < i ==> pendingUploads[k].AsJob() == jobs[k]
      {
        RollbackNext(w, jobs, i, done, store.world);
        var upload := pendingUploads[i];
        assert forall k :: 0 <= k < |pendingUploads| && k != i ==> pendingUploads[k] != upload;
        var changed := upload.Rollback(store);
        done := [pendingUploads[i].AsJob()] + done;
        if changed.None? {
          return false;
        }
      }
      RollbacksNone(store.world, jobs);
      return true;
    }

    method ExecuteUpdateJobs(force: bool) returns (result: Result<bool, Error>)
      requires Valid()
      modifies this`disk, this`pendingUploads, pendingUploads, store
      ensures configData == old(configData) && Valid()
      ensures UpdateResult(result, disk, AsJobs(pendingUploads), store.world)
           == ExecuteUpdate(writable, configData, old(disk), old(AsJobs(pendingUploads)), old(store.world), force)
    {
      hide UploadJob, RollbackJob, Uploads, Rollbacks;
      ghost var jobs := AsJobs(pendingUploads);
      if !writable {
        return Err(ReadWriteError);
      }
      if configData == disk {
        return Ok(false);
      }
      if pendingUploads == [] {
        return Ok(true);
      }
      UploadsShape(store.world, jobs, force, |jobs|);
      ghost var up := Uploads(store.world, jobs, force, |jobs|);
      var failure := UploadPending(force, jobs);
      if failure.None? {
        var written := store.WriteConfig();
        if written {
          disk, pendingUploads := configData, [];
          return Ok(true);
        }
      }
      ghost var down := Rollbacks(store.world, up.jobs, |jobs|);
      var ok := RollbackPending(up.jobs);
      HoldsAsJobs(pendingUploads, down.jobs);
      return Err(if ok then ErrorOf(failure) else CloudStorageError);
    }
  }

  ghost predicate Distinct(uploads: seq<CloudStorageUploader>) {
    forall i, k :: 0 <= i < k < |uploads| ==> uploads[i] != uploads[k]
  }

  /** The uploaders have the fields that `jobs` lists. */
  ghost predicate Hold(uploads: seq<CloudStorageUploader>, jobs: seq<Job>)
    reads uploads
  {
    |jobs| == |uploads| && forall k :: 0 <= k < |uploads| ==> uploads[k].AsJob() == jobs[k]
  }

  lemma HoldsFrom(uploads: seq<CloudStorageUploader>, done: seq<Job>, jobs: seq<Job>)
    requires |done| <= |jobs| == |uploads|
    requires forall k :: 0 <= k < |done| ==> uploads[k].AsJob() == done[k]
    requires forall k :: |done| <= k < |uploads| ==> uploads[k].AsJob() == jobs[k]
    ensures Hold(uploads, done + jobs[|done|..|jobs|])
  {
  }

  lemma HoldsAsJobs(uploads: seq<CloudStorageUploader>, jobs: seq<Job>)
    requires Hold(uploads, jobs)
    ensures AsJobs(uploads) == jobs
  {
  }

  lemma UploadsNone(w: World, jobs: seq<Job>, force: bool)
    ensures Uploads(w, jobs, force, 0) == Batch(None, [], w)
  {
  }

  /** One turn of the upload loop. */
  lemma UploadsNext(w: World, jobs: seq<Job>, force: bool, i: nat)
    requires i < |jobs| && Uploads(w, jobs, force, i).result.None?
    ensures
      var b := Uploads(w, jobs, force, i);
      var r := UploadJob(b.world, jobs[i], force);
      Uploads(w, jobs, force, i + 1) == Batch(r.result, b.jobs + [r.job], r.world)
  {
    hide UploadJob;
  }

  lemma RollbacksNone(w: World, jobs: seq<Job>)
    ensures Rollbacks(w, jobs, 0) == Batch(true, [], w)
  {
  }

  /** `whole` is `rest` carried on after the jobs of `done`. */
  ghost predicate Resumes(whole: Batch<bool>, rest: Batch<bool>, done: seq<Job>) {
    whole == Batch(rest.result, rest.jobs + done, rest.world)
  }

  /** One turn of the rollback loop. */
  lemma RollbackNext(w: World, jobs: seq<Job>, i: nat, done: seq<Job>, now: World)
    requires i < |jobs|
    requires Resumes(Rollbacks(w, jobs, |jobs|), Rollbacks(now, jobs, i + 1), done)
    ensures
      var r := RollbackJob(now, jobs[i]);
      if r.result.None? then Rollbacks(w, jobs, |jobs|) == Batch(false, jobs[..i] + ([r.job] + done), r.world)
      else Resumes(Rollbacks(w, jobs, |jobs|), Rollbacks(r.world, jobs, i), [r.job] + done)
  {
    hide RollbackJob;
    var r := RollbackJob(now, jobs[i]);
    if r.result.None? {
      assert jobs[..i] + [r.job] + done == jobs[..i] + ([r.job] + done);
    } else {
      var rest := Rollbacks(r.world, jobs, i).jobs;
      assert rest + [r.job] + done == rest + ([r.job] + done);
    }
  }
}
