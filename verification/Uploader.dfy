/**
  Cloud-storage operations as dependency_manager/uploader.py uses them: each one either
  takes effect or fails without effect.  Which ones fail is decided by `fails`, a function of
  the number of operations done so far, so a claim for every `fails` is a claim about every
  pattern of failures.
 */
module CloudStore {
  import opened Wrappers

  datatype Key = Key(bucket: string, path: string)

  type Blob = string

  datatype World = World(objects: map<Key, Blob>, clock: nat, fails: nat -> bool)

  function Tick(w: World, objects: map<Key, Blob>): World {
    w.(objects := objects, clock := w.clock + 1)
  }

  predicate FailsNow(w: World) {
    w.fails(w.clock)
  }

  /** `Exists`; None when the request itself fails. */
  function ExistsOp(w: World, key: Key): (Option<bool>, World) {
    (if FailsNow(w) then None else Some(key in w.objects), Tick(w, w.objects))
  }

  /** `Copy` within the store; the source has to be there. */
  function CopyOp(w: World, from: Key, to: Key): (bool, World) {
    if FailsNow(w) || from !in w.objects then (false, Tick(w, w.objects))
    else (true, Tick(w, w.objects[to := w.objects[from]]))
  }

  function InsertOp(w: World, key: Key, blob: Blob): (bool, World) {
    if FailsNow(w) then (false, Tick(w, w.objects)) else (true, Tick(w, w.objects[key := blob]))
  }

  function DeleteOp(w: World, key: Key): (bool, World) {
    if FailsNow(w) || key !in w.objects then (false, Tick(w, w.objects))
    else (true, Tick(w, w.objects - {key}))
  }

  /** The remote store, updated in place. */
  class CloudStorage {
    var world: World

    constructor (world: World)
      ensures this.world == world
    {
      this.world := world;
    }

    method Exists(key: Key) returns (found: Option<bool>)
      modifies this
      ensures (found, world) == ExistsOp(old(world), key)
    {
      found := if FailsNow(world) then None else Some(key in world.objects);
      world := Tick(world, world.objects);
    }

    method Copy(from: Key, to: Key) returns (ok: bool)
      modifies this
      ensures (ok, world) == CopyOp(old(world), from, to)
    {
      ok := !FailsNow(world) && from in world.objects;
      world := Tick(world, if ok then world.objects[to := world.objects[from]] else world.objects);
    }

    method Insert(key: Key, blob: Blob) returns (ok: bool)
      modifies this
      ensures (ok, world) == InsertOp(old(world), key, blob)
    {
      ok := !FailsNow(world);
      world := Tick(world, if ok then world.objects[key := blob] else world.objects);
    }

    method Delete(key: Key) returns (ok: bool)
      modifies this
      ensures (ok, world) == DeleteOp(old(world), key)
    {
      ok := !FailsNow(world) && key in world.objects;
      world := Tick(world, if ok then world.objects - {key} else world.objects);
    }

    /** Writing the config file, which is not in the store, may fail as well. */
    method WriteConfig() returns (ok: bool)
      modifies this
      ensures ok == !FailsNow(old(world)) && world == Tick(old(world), old(world).objects)
    {
      ok := !FailsNow(world);
      world := Tick(world, world.objects);
    }
  }
}

/** Uploads with a backup copy, and their rollback. */
module Uploader {
  import opened Wrappers
  import opened CloudStore

  /** The fields of a CloudStorageUploader; `blob` is the content of its local file. */
  datatype Job = Job(target: Key, backup: Option<Key>, blob: Blob, updated: bool, backedUp: bool)

  datatype Failure = Conflict | StorageError

  function Old(key: Key): Key {
    key.(path := key.path + ".old")
  }

  /** A newly made uploader, without an explicit backup path. */
  function NewJob(target: Key, blob: Blob): Job {
    Job(target, Some(Old(target)), blob, false, false)
  }

  /** Once the backup path is set to None, Python formats it into the URL of an object named None. */
  function BackupKey(j: Job): Key {
    if j.backup.Some? then j.backup.value else j.target.(path := "None")
  }

  datatype JobResult<T> = JobResult(result: T, job: Job, world: World)

  function InsertJob(w: World, j: Job): JobResult<Option<Failure>> {
    var (ok, w') := InsertOp(w, j.target, j.blob);
    if ok then JobResult(None, j.(updated := true), w') else JobResult(Some(StorageError), j, w')
  }

  /** `Upload(force)`: lines 51-76. */
  function UploadJob(w: World, j: Job, force: bool): JobResult<Option<Failure>>
  {
    var (found, w1) := ExistsOp(w, j.target);
    if found.None? then JobResult(Some(StorageError), j, w1)
    else if !found.value then InsertJob(w1, j)
    else if !force then JobResult(Some(Conflict), j, w1)
    else
      var (copied, w2) := CopyOp(w1, j.target, BackupKey(j));
      if copied then InsertJob(w2, j.(backedUp := true)) else JobResult(Some(StorageError), j, w2)
  }

  /** `Rollback()`: lines 90-100; None when it raises, else whether it changed the store. */
  function RollbackJob(w: World, j: Job): JobResult<Option<bool>>
  {
    if j.backedUp then
      var (ok, w') := CopyOp(w, BackupKey(j), j.target);
      if ok then JobResult(Some(true), j.(backup := None, updated := false), w')
      else JobResult(None, j, w')
    else if j.updated then
      var (ok, w') := DeleteOp(w, j.target);
      if ok then JobResult(Some(true), j.(updated := false), w') else JobResult(None, j, w')
    else JobResult(Some(false), j, w)
  }

  class CloudStorageUploader {
    const target: Key
    const blob: Blob
    var backup: Option<Key>
    var updated: bool
    var backedUp: bool

    function AsJob(): Job
      reads this
    {
      Job(target, backup, blob, updated, backedUp)
    }

    constructor (target: Key, blob: Blob)
      ensures AsJob() == NewJob(target, blob)
    {
      this.target := target;
      this.blob := blob;
      backup := Some(Old(target));
      updated, backedUp := false, false;
    }

    method Upload(store: CloudStorage, force: bool) returns (failure: Option<Failure>)
      modifies this`updated, this`backedUp, store
      ensures JobResult(failure, AsJob(), store.world) == UploadJob(old(store.world), old(AsJob()), force)
    {
      var found := store.Exists(target);
      if found.None? {
        return Some(StorageError);
      }
      if found.value {
        if !force {
          return Some(Conflict);
        }
        var copied := store.Copy(target, BackupKey(AsJob()));
        if !copied {
          return Some(StorageError);
        }
        backedUp := true;
      }
      var inserted := store.Insert(target, blob);
      if !inserted {
        return Some(StorageError);
      }
      updated := true;
      return None;
    }

    method Rollback(store: CloudStorage) returns (changed: Option<bool>)
      modifies this`updated, this`backup, store
      ensures JobResult(changed, AsJob(), store.world) == RollbackJob(old(store.world), old(AsJob()))
    {
      changed := Some(false);
      if backedUp {
        var ok := store.Copy(BackupKey(AsJob()), target);
        if !ok {
          return None;
        }
        changed := Some(true);
        backup := None;
      } else if updated {
        var ok := store.Delete(target);
        if !ok {
          return None;
        }
        changed := Some(true);
      }
      updated := false;
    }
  }
}
