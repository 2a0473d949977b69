/**
  ExecuteUpdateJobs of dependency_manager/base_config.py, lines 276-289: upload everything,
  write the config file, and on any failure undo everything in reverse order.
 */
module Transaction {
  import opened Wrappers
  import opened CloudStore
  import opened Uploader

  datatype Batch<T> = Batch(result: T, jobs: seq<Job>, world: World)

  /** Upload the first `n` jobs in order, up to and including the first upload that fails. */
  ghost function Uploads(w: World, jobs: seq<Job>, force: bool, n: nat): (b: Batch<Option<Failure>>)
    requires n <= |jobs|
    ensures |b.jobs| == n
  {
    if n == 0 then Batch(None, [], w)
    else
      var b := Uploads(w, jobs, force, n - 1);
      if b.result.Some? then Batch(b.result, b.jobs + [jobs[n - 1]], b.world)
      else
        var r := UploadJob(b.world, jobs[n - 1], force);
        Batch(r.result, b.jobs + [r.job], r.world)
  }

  lemma UploadJobShape(w: World, j: Job, force: bool)
    ensures
      var r := UploadJob(w, j, force);
      && r.world.fails == w.fails && w.clock < r.world.clock
      && r.job.target == j.target && r.job.blob == j.blob && r.job.backup == j.backup
  {
  }

  /** Uploading changes nothing of a job but its two flags. */
  lemma {:induction false} UploadsShape(w: World, jobs: seq<Job>, force: bool, n: nat)
    requires n <= |jobs|
    ensures
      var b := Uploads(w, jobs, force, n);
      && b.world.fails == w.fails
      && forall i :: 0 <= i < n ==>
           b.jobs[i].target == jobs[i].target && b.jobs[i].blob == jobs[i].blob && b.jobs[i].backup == jobs[i].backup
  {
    hide UploadJob;
    if n > 0 {
      UploadsShape(w, jobs, force, n - 1);
      UploadJobShape(Uploads(w, jobs, force, n - 1).world, jobs[n - 1], force);
    }
  }

  /** After a failed upload the later jobs are left as they were. */
  lemma {:induction false} UploadsStop(w: World, jobs: seq<Job>, force: bool, n: nat, m: nat)
    requires n <= m <= |jobs| && Uploads(w, jobs, force, n).result.Some?
    ensures
      var b := Uploads(w, jobs, force, n);
      Uploads(w, jobs, force, m) == Batch(b.result, b.jobs + jobs[n..m], b.world)
  {
    var b := Uploads(w, jobs, force, n);
    if m == n {
      assert b.jobs + jobs[n..m] == b.jobs;
    } else {
      UploadsStop(w, jobs, force, n, m - 1);
      assert b.jobs + jobs[n..m - 1] + [jobs[m - 1]] == b.jobs + jobs[n..m];
    }
  }

  /** Roll back the first `n` jobs from the last to the first; false, and no further, when one raises. */
  ghost function Rollbacks(w: World, jobs: seq<Job>, n: nat): (b: Batch<bool>)
    requires n <= |jobs|
    ensures |b.jobs| == n
    decreases n
  {
    if n == 0 then Batch(true, [], w)
    else
      var r := RollbackJob(w, jobs[n - 1]);
      if r.result.None? then Batch(false, jobs[..n - 1] + [r.job], r.world)
      else
        var b := Rollbacks(r.world, jobs, n - 1);
        Batch(b.result, b.jobs + [r.job], b.world)
  }

  datatype Outcome =
    | Committed                           // every upload and the config write succeeded
    | RolledBack(cause: Option<Failure>)  // undone; the cause is None if the config write failed
    | Stranded                            // a rollback raised

  /** Writing the config file is one more operation that may fail without effect. */
  ghost function Execute(w: World, jobs: seq<Job>, force: bool): Batch<Outcome>
  {
    UploadsShape(w, jobs, force, |jobs|);
    var up := Uploads(w, jobs, force, |jobs|);
    if up.result.None? && !FailsNow(up.world) then Batch(Committed, up.jobs, Tick(up.world, up.world.objects))
    else
      var w1 := if up.result.None? then Tick(up.world, up.world.objects) else up.world;
      var down := Rollbacks(w1, up.jobs, |jobs|);
      Batch(if down.result then RolledBack(up.result) else Stranded, down.jobs, down.world)
  }

  // ---------------------------------------------------------------------------------
  // What the caller hands over
  // ---------------------------------------------------------------------------------

  ghost predicate Fresh(jobs: seq<Job>) {
    forall i :: 0 <= i < |jobs| ==> jobs[i] == NewJob(jobs[i].target, jobs[i].blob)
  }

  /** No backup location is itself an upload location. */
  ghost predicate BackupsApart(jobs: seq<Job>) {
    forall i, j :: 0 <= i < |jobs| && 0 <= j < |jobs| ==> Old(jobs[i].target) != jobs[j].target
  }

  ghost predicate IsBackup(jobs: seq<Job>, key: Key) {
    exists i :: 0 <= i < |jobs| && key == Old(jobs[i].target)
  }

  /**
    Uploading twice to a location that already exists is harmless only if every upload but
    the last puts there what was there already.
   */
  ghost predicate RepeatsHarmless(objects: map<Key, Blob>, jobs: seq<Job>) {
    forall i, j :: 0 <= i < j < |jobs| && jobs[i].target == jobs[j].target && jobs[i].target in objects
      ==> jobs[i].blob == objects[jobs[i].target]
  }

  // ---------------------------------------------------------------------------------
  // Rolling back
  // ---------------------------------------------------------------------------------

  predicate Touched(j: Job) {
    j.updated || j.backedUp
  }

  /** The first job that changed `key`. */
  ghost function First(jobs: seq<Job>, key: Key): Option<Job> {
    if jobs == [] then None
    else
      var earlier, last := First(jobs[..|jobs| - 1], key), jobs[|jobs| - 1];
      if earlier.None? && Touched(last) && last.target == key then Some(last) else earlier
  }

  lemma FirstAppend(jobs: seq<Job>, j: Job, key: Key)
    ensures First(jobs + [j], key)
         == if First(jobs, key).None? && Touched(j) && j.target == key then Some(j) else First(jobs, key)
  {
    assert (jobs + [j])[..|jobs|] == jobs;
  }

  /** Every job backs up to the `.old` location, and no such location is a target. */
  ghost predicate Standard(jobs: seq<Job>) {
    && (forall i :: 0 <= i < |jobs| ==> jobs[i].backup == Some(Old(jobs[i].target)))
    && BackupsApart(jobs)
  }

  ghost predicate SameAt(a: map<Key, Blob>, b: map<Key, Blob>, key: Key) {
    (key in a <==> key in b) && (key in a ==> a[key] == b[key])
  }

  lemma OldInjective(a: Key, b: Key)
    requires Old(a) == Old(b)
    ensures a == b
  {
    assert Old(a).path[..|Old(a).path| - 4] == a.path;
    assert Old(b).path[..|Old(b).path| - 4] == b.path;
  }

  lemma {:induction false} FirstIsOne(jobs: seq<Job>, key: Key) returns (i: nat)
    requires First(jobs, key).Some?
    ensures i < |jobs| && First(jobs, key) == Some(jobs[i]) && jobs[i].target == key
  {
    var n := |jobs| - 1;
    if First(jobs[..n], key).None? {
      i := n;
    } else {
      i := FirstIsOne(jobs[..n], key);
    }
  }

  /** A rollback writes to the job's own target and nowhere else. */
  lemma RollbackJobWrites(w: World, j: Job, key: Key)
    requires key != j.target || !Touched(j)
    ensures SameAt(RollbackJob(w, j).world.objects, w.objects, key)
  {
  }

  /** What undoing must find and what it then leaves at a key that `first` was the first to change. */
  ghost predicate Undone(before: map<Key, Blob>, after: map<Key, Blob>, first: Option<Job>, key: Key) {
    match first
    case None => SameAt(after, before, key)
    case Some(j) =>
      if j.backedUp then key in after && Old(key) in before && after[key] == before[Old(key)]
      else key !in after
  }

  lemma RollbackOwn(w: World, j: Job)
    requires Touched(j) && j.backup == Some(Old(j.target)) && RollbackJob(w, j).result.Some?
    ensures Undone(w.objects, RollbackJob(w, j).world.objects, Some(j), j.target)
  {
  }

  /** After a completed rollback, what is at a key was decided by the first job that changed it. */
  lemma {:induction false} RollbackAt(w: World, jobs: seq<Job>, n: nat, key: Key)
    requires Standard(jobs) && n <= |jobs| && Rollbacks(w, jobs, n).result
    ensures Undone(w.objects, Rollbacks(w, jobs, n).world.objects, First(jobs[..n], key), key)
    decreases n
  {
    hide RollbackJob;
    if n > 0 {
      var last := jobs[n - 1];
      var w1 := RollbackJob(w, last).world;
      RollbackAt(w1, jobs, n - 1, key);
      FirstAppend(jobs[..n - 1], last, key);
      assert jobs[..n] == jobs[..n - 1] + [last];
      if First(jobs[..n - 1], key).Some? {
        var i := FirstIsOne(jobs[..n - 1], key);
        assert Old(jobs[i].target) != last.target;
        RollbackJobWrites(w, last, Old(key));
      } else if Touched(last) && last.target == key {
        RollbackOwn(w, last);
      } else {
        RollbackJobWrites(w, last, key);
      }
    }
  }

  // ---------------------------------------------------------------------------------
  // Uploading
  // ---------------------------------------------------------------------------------

  ghost predicate Wrote(jobs: seq<Job>, key: Key, blob: Blob) {
    exists h :: 0 <= h < |jobs| && jobs[h].target == key && jobs[h].blob == blob
  }

  /**
    What uploads that began with `objects0` have done to `key` so far: nothing, if no job
    changed it; otherwise the first job that did tells how to get back.  The last two clauses
    say that the way back leads to the right content, and need `exact`.
   */
  ghost predicate KeyTrail(objects0: map<Key, Blob>, jobs: seq<Job>, objects: map<Key, Blob>,
                           force: bool, exact: bool, key: Key)
  {
    && (key in objects0 ==> key in objects)
    && (!force && key in objects0 ==> First(jobs, key).None?)
    && (match First(jobs, key)
        case None => SameAt(objects, objects0, key)
        case Some(j) =>
          if key in objects0 then j.backedUp && Old(key) in objects
          else !j.backedUp && j.updated && key in objects)
    && (exact && key in objects0 ==> objects[key] == objects0[key] || Wrote(jobs, key, objects[key]))
    && (exact && key in objects0 && First(jobs, key).Some? ==> objects[Old(key)] == objects0[key])
  }

  lemma UploadJobWrites(w: World, j: Job, force: bool, key: Key)
    requires j.backup == Some(Old(j.target)) && key != j.target && key != Old(j.target)
    ensures SameAt(UploadJob(w, j, force).world.objects, w.objects, key)
  {
  }

  lemma WroteGrows(jobs: seq<Job>, j: Job, key: Key, blob: Blob)
    ensures Wrote(jobs + [j], key, blob) <==> Wrote(jobs, key, blob) || (j.target == key && j.blob == blob)
  {
    if Wrote(jobs, key, blob) {
      var h :| 0 <= h < |jobs| && jobs[h].target == key && jobs[h].blob == blob;
      assert (jobs + [j])[h] == jobs[h];
    }
    assert (jobs + [j])[|jobs|] == j;
  }

  lemma TrailOfOther(objects0: map<Key, Blob>, jobs: seq<Job>, w: World, j: Job, force: bool, exact: bool, key: Key)
    requires KeyTrail(objects0, jobs, w.objects, force, exact, key)
    requires j == NewJob(j.target, j.blob) && j.target != key && Old(j.target) != key
    requires First(jobs, key).Some? ==> j.target != Old(key)
    ensures var r := UploadJob(w, j, force); KeyTrail(objects0, jobs + [r.job], r.world.objects, force, exact, key)
  {
    var r := UploadJob(w, j, force);
    FirstAppend(jobs, r.job, key);
    UploadJobWrites(w, j, force, key);
    if First(jobs, key).Some? {
      if Old(key) == Old(j.target) {
        OldInjective(key, j.target);
      }
      UploadJobWrites(w, j, force, Old(key));
    }
    if key in objects0 {
      WroteGrows(jobs, r.job, key, w.objects[key]);
    }
  }

  lemma TrailOfTarget(objects0: map<Key, Blob>, jobs: seq<Job>, w: World, j: Job, force: bool, exact: bool)
    requires KeyTrail(objects0, jobs, w.objects, force, exact, j.target)
    requires j == NewJob(j.target, j.blob) && Old(j.target) != j.target
    requires force && exact && j.target in objects0 ==>
      forall blob :: Wrote(jobs, j.target, blob) ==> blob == objects0[j.target]
    ensures var r := UploadJob(w, j, force); KeyTrail(objects0, jobs + [r.job], r.world.objects, force, exact, j.target)
  {
    var key := j.target;
    var r := UploadJob(w, j, force);
    FirstAppend(jobs, r.job, key);
    if key in objects0 {
      WroteGrows(jobs, r.job, key, r.world.objects[key]);
    }
  }

  /** An upload that was never attempted adds nothing to a trail. */
  lemma TrailOfUntouched(objects0: map<Key, Blob>, jobs: seq<Job>, objects: map<Key, Blob>, j: Job,
                         force: bool, exact: bool, key: Key)
    requires KeyTrail(objects0, jobs, objects, force, exact, key) && !Touched(j)
    ensures KeyTrail(objects0, jobs + [j], objects, force, exact, key)
  {
    FirstAppend(jobs, j, key);
    if key in objects0 {
      WroteGrows(jobs, j, key, objects[key]);
    }
  }

  ghost predicate Handed(jobs: seq<Job>) {
    Fresh(jobs) && BackupsApart(jobs)
  }

  lemma TrailStep(objects0: map<Key, Blob>, jobs: seq<Job>, done: seq<Job>, w: World, force: bool, exact: bool,
                  key: Key)
    requires Handed(jobs) && |done| < |jobs| && !IsBackup(jobs, key)
    requires forall h :: 0 <= h < |done| ==> done[h].target == jobs[h].target && done[h].blob == jobs[h].blob
    requires force && exact ==> RepeatsHarmless(objects0, jobs)
    requires KeyTrail(objects0, done, w.objects, force, exact, key)
    ensures
      var r := UploadJob(w, jobs[|done|], force);
      KeyTrail(objects0, done + [r.job], r.world.objects, force, exact, key)
  {
    hide UploadJob, KeyTrail;
    var last := jobs[|done|];
    if last.target != key {
      if First(done, key).Some? {
        var i := FirstIsOne(done, key);
        assert Old(jobs[i].target) != last.target;
      }
      TrailOfOther(objects0, done, w, last, force, exact, key);
    } else {
      forall blob | force && exact && key in objects0 && Wrote(done, key, blob) ensures blob == objects0[key] {
        var h :| 0 <= h < |done| && done[h].target == key && done[h].blob == blob;
        assert jobs[h].target == last.target;
      }
      TrailOfTarget(objects0, done, w, last, force, exact);
    }
  }

  lemma {:induction false} UploadTrail(w: World, jobs: seq<Job>, force: bool, n: nat, exact: bool, key: Key)
    requires Handed(jobs) && n <= |jobs| && !IsBackup(jobs, key)
    requires force && exact ==> RepeatsHarmless(w.objects, jobs)
    ensures var b := Uploads(w, jobs, force, n); KeyTrail(w.objects, b.jobs, b.world.objects, force, exact, key)
  {
    hide UploadJob, RepeatsHarmless, IsBackup, BackupsApart;
    if n > 0 {
      UploadTrail(w, jobs, force, n - 1, exact, key);
      UploadsShape(w, jobs, force, n - 1);
      var b := Uploads(w, jobs, force, n - 1);
      if b.result.Some? {
        TrailOfUntouched(w.objects, b.jobs, b.world.objects, jobs[n - 1], force, exact, key);
      } else {
        TrailStep(w.objects, jobs, b.jobs, b.world, force, exact, key);
      }
    }
  }

  lemma UploadsStayStandard(w: World, jobs: seq<Job>, force: bool, n: nat)
    requires Handed(jobs) && n <= |jobs|
    ensures Standard(Uploads(w, jobs, force, n).jobs)
  {
    UploadsShape(w, jobs, force, n);
  }

  // ---------------------------------------------------------------------------------
  // All or nothing
  // ---------------------------------------------------------------------------------

  /**
    Nothing: whatever fails, a rollback that completes leaves every key but the backup
    locations as it was.
   */
  lemma RollbackRestores(w: World, jobs: seq<Job>, force: bool, key: Key)
    requires Handed(jobs) && (force ==> RepeatsHarmless(w.objects, jobs))
    requires Execute(w, jobs, force).result.RolledBack? && !IsBackup(jobs, key)
    ensures SameAt(Execute(w, jobs, force).world.objects, w.objects, key)
  {
    var up := Uploads(w, jobs, force, |jobs|);
    UploadTrail(w, jobs, force, |jobs|, true, key);
    UploadsStayStandard(w, jobs, force, |jobs|);
    var w1 := if up.result.None? then Tick(up.world, up.world.objects) else up.world;
    RollbackAt(w1, up.jobs, |jobs|, key);
    assert up.jobs[..|jobs|] == up.jobs;
  }

  /** The last of the first `n` jobs for `key`. */
  ghost function LastFor(jobs: seq<Job>, n: nat, key: Key): (i: Option<nat>)
    requires n <= |jobs|
    ensures i.Some? ==> i.value < n && jobs[i.value].target == key
  {
    if n == 0 then None
    else if jobs[n - 1].target == key then Some(n - 1)
    else LastFor(jobs, n - 1, key)
  }

  lemma UploadedIsThere(w: World, j: Job, force: bool)
    ensures
      var r := UploadJob(w, j, force);
      r.result.None? ==> j.target in r.world.objects && r.world.objects[j.target] == j.blob
  {
  }

  lemma {:induction false} UploadsDeliver(w: World, jobs: seq<Job>, force: bool, n: nat, key: Key)
    requires Standard(jobs) && n <= |jobs| && !IsBackup(jobs, key) && Uploads(w, jobs, force, n).result.None?
    ensures
      var b := Uploads(w, jobs, force, n);
      match LastFor(jobs, n, key)
      case None => SameAt(b.world.objects, w.objects, key)
      case Some(i) => key in b.world.objects && b.world.objects[key] == jobs[i].blob
  {
    hide UploadJob, BackupsApart;
    if n > 0 {
      var before := Uploads(w, jobs, force, n - 1);
      UploadsDeliver(w, jobs, force, n - 1, key);
      UploadedIsThere(before.world, jobs[n - 1], force);
      if jobs[n - 1].target != key {
        UploadJobWrites(before.world, jobs[n - 1], force, key);
      }
    }
  }

  lemma UploadedJobIsTouched(w: World, j: Job, force: bool)
    ensures
      var r := UploadJob(w, j, force);
      r.job.target == j.target && (r.result.None? ==> Touched(r.job))
  {
  }

  lemma {:induction false} UploadedIsTouched(w: World, jobs: seq<Job>, force: bool, n: nat, key: Key)
    requires n <= |jobs|
    requires Uploads(w, jobs, force, n).result.None? && LastFor(jobs, n, key).Some?
    ensures First(Uploads(w, jobs, force, n).jobs, key).Some?
  {
    UploadedJobIsTouched(Uploads(w, jobs, force, n - 1).world, jobs[n - 1], force);
    hide UploadJob;
    var b := Uploads(w, jobs, force, n - 1);
    FirstAppend(b.jobs, UploadJob(b.world, jobs[n - 1], force).job, key);
    if jobs[n - 1].target != key {
      UploadedIsTouched(w, jobs, force, n - 1, key);
    }
  }

  /**
    All: after a committed update every target holds its new content, every other key but
    the backup locations is as it was, and what was replaced is kept at its backup location.
   */
  lemma CommitDelivers(w: World, jobs: seq<Job>, force: bool, key: Key)
    requires Handed(jobs) && Execute(w, jobs, force).result.Committed? && !IsBackup(jobs, key)
    ensures
      var after := Execute(w, jobs, force).world.objects;
      match LastFor(jobs, |jobs|, key)
      case None => SameAt(after, w.objects, key)
      case Some(i) =>
        && key in after && after[key] == jobs[i].blob
        && (key in w.objects ==> force)
        && (key in w.objects && RepeatsHarmless(w.objects, jobs) ==>
              Old(key) in after && after[Old(key)] == w.objects[key])
  {
    UploadsDeliver(w, jobs, force, |jobs|, key);
    if LastFor(jobs, |jobs|, key).Some? && key in w.objects {
      UploadTrail(w, jobs, force, |jobs|, RepeatsHarmless(w.objects, jobs), key);
      UploadedIsTouched(w, jobs, force, |jobs|, key);
    }
  }

  // ---------------------------------------------------------------------------------
  // Whatever fails
  // ---------------------------------------------------------------------------------

  /** `key` is not lost, its content is good, and so is the content that a rollback would put there. */
  ghost predicate Kept(good: Blob -> bool, key: Key, before: bool, jobs: seq<Job>, objects: map<Key, Blob>) {
    && (key in objects ==> good(objects[key]))
    && (before ==> key in objects)
    && forall i :: 0 <= i < |jobs| && jobs[i].target == key && Touched(jobs[i]) ==>
         && (before ==> jobs[i].backedUp)
         && (jobs[i].backedUp ==> Old(key) in objects && good(objects[Old(key)]))
  }

  /** A job that has not forgotten its backup path may be tried again: its flags say what it has done before. */
  lemma UploadKeeps(good: Blob -> bool, key: Key, before: bool, jobs: seq<Job>, w: World, i: nat, force: bool)
    requires Kept(good, key, before, jobs, w.objects) && i < |jobs|
    requires jobs[i].backup == Some(Old(jobs[i].target)) && Old(jobs[i].target) != key && jobs[i].target != Old(key)
    requires jobs[i].target == key ==> good(jobs[i].blob)
    ensures var r := UploadJob(w, jobs[i], force); Kept(good, key, before, jobs[i := r.job], r.world.objects)
  {
    if Old(key) == Old(jobs[i].target) {
      OldInjective(key, jobs[i].target);
    }
  }

  /** `key` is no backup, and the backup of `key` no target; what is uploaded there is good. */
  ghost predicate Goes(good: Blob -> bool, key: Key, jobs: seq<Job>) {
    && Standard(jobs) && !IsBackup(jobs, key)
    && forall i :: 0 <= i < |jobs| ==> jobs[i].target != Old(key) && (jobs[i].target == key ==> good(jobs[i].blob))
  }

  lemma {:induction false} UploadsKeep(good: Blob -> bool, key: Key, before: bool, w: World, jobs: seq<Job>,
                                       force: bool, n: nat)
    requires Goes(good, key, jobs) && n <= |jobs| && Kept(good, key, before, jobs, w.objects)
    ensures var b := Uploads(w, jobs, force, n); Kept(good, key, before, b.jobs + jobs[n..], b.world.objects)
  {
    hide UploadJob, Kept;
    if n == 0 {
      assert [] + jobs[0..] == jobs;
    } else {
      UploadsKeep(good, key, before, w, jobs, force, n - 1);
      var b := Uploads(w, jobs, force, n - 1);
      var all := b.jobs + jobs[n - 1..];
      if b.result.Some? {
        assert b.jobs + [jobs[n - 1]] + jobs[n..] == all;
      } else {
        var r := UploadJob(b.world, jobs[n - 1], force);
        UploadKeeps(good, key, before, all, b.world, n - 1, force);
        assert b.jobs + [r.job] + jobs[n..] == all[n - 1 := r.job];
      }
    }
  }

  lemma RollbackKeeps(good: Blob -> bool, key: Key, before: bool, jobs: seq<Job>, w: World, i: nat)
    requires Kept(good, key, before, jobs, w.objects) && i < |jobs|
    requires jobs[i].backup == Some(Old(jobs[i].target)) && jobs[i].target != Old(key)
    ensures var r := RollbackJob(w, jobs[i]); Kept(good, key, before, jobs[i := r.job], r.world.objects)
  {
  }

  lemma {:induction false} RollbacksKeep(good: Blob -> bool, key: Key, before: bool, w: World, jobs: seq<Job>,
                                         more: seq<Job>, n: nat)
    requires Goes(good, key, jobs) && n <= |jobs| && Kept(good, key, before, jobs[..n] + more, w.objects)
    ensures var b := Rollbacks(w, jobs, n); Kept(good, key, before, b.jobs + more, b.world.objects)
    decreases n
  {
    hide RollbackJob, Kept;
    if n == 0 {
      assert jobs[..0] + more == [] + more;
    } else {
      var r := RollbackJob(w, jobs[n - 1]);
      var all := jobs[..n] + more;
      RollbackKeeps(good, key, before, all, w, n - 1);
      assert all[n - 1 := r.job] == jobs[..n - 1] + ([r.job] + more);
      if r.result.None? {
        assert jobs[..n - 1] + [r.job] + more == jobs[..n - 1] + ([r.job] + more);
      } else {
        RollbacksKeep(good, key, before, r.world, jobs, [r.job] + more, n - 1);
        var b := Rollbacks(r.world, jobs, n - 1);
        assert b.jobs + [r.job] + more == b.jobs + ([r.job] + more);
      }
    }
  }

  /** A key is no concern of uploads that only set flags. */
  lemma UploadsGo(good: Blob -> bool, key: Key, w: World, jobs: seq<Job>, force: bool)
    requires Goes(good, key, jobs)
    ensures Goes(good, key, Uploads(w, jobs, force, |jobs|).jobs)
  {
    hide UploadJob, Uploads;
    UploadsShape(w, jobs, force, |jobs|);
  }

  /**
    Whatever fails, a rollback included: what was at a key stays there or is replaced by what some
    job uploads there.
   */
  lemma NothingIsLost(good: Blob -> bool, key: Key, before: bool, w: World, jobs: seq<Job>, force: bool)
    requires Goes(good, key, jobs) && Kept(good, key, before, jobs, w.objects)
    ensures var e := Execute(w, jobs, force); Kept(good, key, before, e.jobs, e.world.objects)
  {
    hide UploadJob, RollbackJob, Uploads, Rollbacks, Kept, Goes;
    var n := |jobs|;
    var up := Uploads(w, jobs, force, n);
    UploadsKeep(good, key, before, w, jobs, force, n);
    UploadsGo(good, key, w, jobs, force);
    assert up.jobs + jobs[n..] == up.jobs;
    var w1 := if up.result.None? then Tick(up.world, up.world.objects) else up.world;
    assert up.jobs[..n] + [] == up.jobs;
    RollbacksKeep(good, key, before, w1, up.jobs, [], n);
    var down := Rollbacks(w1, up.jobs, n);
    assert down.jobs + [] == down.jobs;
  }

  /** The same uploads, whatever their flags. */
  ghost predicate SameUploads(a: seq<Job>, b: seq<Job>) {
    |a| == |b| && forall i :: 0 <= i < |a| ==> a[i].target == b[i].target && a[i].blob == b[i].blob
  }

  /** No job has made a backup, so none has forgotten where it is. */
  ghost predicate Unbacked(jobs: seq<Job>) {
    forall i :: 0 <= i < |jobs| ==> !jobs[i].backedUp && jobs[i].backup == Some(Old(jobs[i].target))
  }

  lemma {:induction false} UnforcedUploads(w: World, jobs: seq<Job>, n: nat)
    requires Unbacked(jobs) && n <= |jobs|
    ensures Unbacked(Uploads(w, jobs, false, n).jobs)
    decreases n
  {
    if n > 0 {
      UnforcedUploads(w, jobs, n - 1);
    }
  }

  lemma {:induction false} RollbacksShape(w: World, jobs: seq<Job>, n: nat)
    requires n <= |jobs|
    ensures
      var b := Rollbacks(w, jobs, n);
      SameUploads(b.jobs, jobs[..n]) && (Unbacked(jobs) ==> Unbacked(b.jobs))
    decreases n
  {
    if n > 0 {
      RollbacksShape(RollbackJob(w, jobs[n - 1]).world, jobs, n - 1);
    }
  }

  /** An update without force makes no backups. */
  lemma ExecuteShape(w: World, jobs: seq<Job>, force: bool)
    ensures var after := Execute(w, jobs, force).jobs; SameUploads(after, jobs)
    ensures !force && Unbacked(jobs) ==> Unbacked(Execute(w, jobs, force).jobs)
  {
    hide UploadJob, RollbackJob, Uploads, Rollbacks;
    var up := Uploads(w, jobs, force, |jobs|);
    var w1 := if up.result.None? then Tick(up.world, up.world.objects) else up.world;
    UploadsShape(w, jobs, force, |jobs|);
    RollbacksShape(w1, up.jobs, |jobs|);
    assert up.jobs[..|jobs|] == up.jobs;
    if !force && Unbacked(jobs) {
      UnforcedUploads(w, jobs, |jobs|);
    }
  }

  // ---------------------------------------------------------------------------------
  // A rollback does not fail by itself
  // ---------------------------------------------------------------------------------

  /** The objects that a rollback of the first `n` jobs will copy from or delete are there. */
  ghost predicate Undoable(jobs: seq<Job>, n: nat, objects: map<Key, Blob>)
    requires n <= |jobs|
  {
    && (forall i :: 0 <= i < n && jobs[i].backedUp ==> Old(jobs[i].target) in objects)
    && (forall i :: 0 <= i < n && Touched(jobs[i]) ==> jobs[i].target in objects)
    && (forall i, h :: 0 <= i < h < n && Touched(jobs[i]) && Touched(jobs[h]) && jobs[i].target == jobs[h].target
          ==> jobs[h].backedUp)
  }

  lemma UploadJobFacts(w: World, j: Job, force: bool)
    requires j == NewJob(j.target, j.blob)
    ensures
      var r := UploadJob(w, j, force);
      && r.job.target == j.target && w.objects.Keys <= r.world.objects.Keys
      && (r.job.backedUp ==> Old(j.target) in r.world.objects)
      && (Touched(r.job) ==> j.target in r.world.objects)
      && (Touched(r.job) && j.target in w.objects ==> r.job.backedUp)
  {
  }

  lemma UndoableAppend(jobs: seq<Job>, objects: map<Key, Blob>, j: Job, objects': map<Key, Blob>)
    requires Undoable(jobs, |jobs|, objects) && objects.Keys <= objects'.Keys
    requires j.backedUp ==> Old(j.target) in objects'
    requires Touched(j) ==> j.target in objects' && (j.target in objects ==> j.backedUp)
    ensures Undoable(jobs + [j], |jobs| + 1, objects')
  {
  }

  lemma {:induction false} UploadsAreUndoable(w: World, jobs: seq<Job>, force: bool, n: nat)
    requires Handed(jobs) && n <= |jobs|
    ensures var b := Uploads(w, jobs, force, n); Undoable(b.jobs, n, b.world.objects)
  {
    hide UploadJob;
    if n > 0 {
      UploadsAreUndoable(w, jobs, force, n - 1);
      var b := Uploads(w, jobs, force, n - 1);
      if b.result.Some? {
        UndoableAppend(b.jobs, b.world.objects, jobs[n - 1], b.world.objects);
      } else {
        var r := UploadJob(b.world, jobs[n - 1], force);
        UploadJobFacts(b.world, jobs[n - 1], force);
        UndoableAppend(b.jobs, b.world.objects, r.job, r.world.objects);
      }
    }
  }

  /** No operation from number `from` on and before number `to` fails. */
  ghost predicate Quiet(fails: nat -> bool, from: nat, to: nat) {
    forall t: nat :: from <= t < to ==> !fails(t)
  }

  /** Undoing one job raises only if its operation fails or does not find its object. */
  lemma RollbackJobOutcome(w: World, j: Job)
    ensures
      var r := RollbackJob(w, j);
      var source := if j.backedUp then BackupKey(j) else j.target;
      && r.world.fails == w.fails && w.clock <= r.world.clock
      && (Quiet(w.fails, w.clock, r.world.clock) && (Touched(j) ==> source in w.objects) ==> r.result.Some?)
      && (r.result.Some? ==> Quiet(w.fails, w.clock, r.world.clock))
      && (j.backedUp || !Touched(j) ==> w.objects.Keys <= r.world.objects.Keys)
  {
  }

  lemma {:induction false} RollbacksClock(w: World, jobs: seq<Job>, n: nat)
    requires n <= |jobs|
    ensures
      var b := Rollbacks(w, jobs, n);
      && b.world.fails == w.fails && w.clock <= b.world.clock
      && (b.result ==> Quiet(w.fails, w.clock, b.world.clock))
    decreases n
  {
    hide RollbackJob;
    if n > 0 {
      RollbackJobOutcome(w, jobs[n - 1]);
      RollbacksClock(RollbackJob(w, jobs[n - 1]).world, jobs, n - 1);
    }
  }

  /** If none of its storage operations fails, the rollback completes. */
  lemma {:induction false} RollbackCompletes(w: World, jobs: seq<Job>, n: nat)
    requires Standard(jobs) && n <= |jobs| && Undoable(jobs, n, w.objects)
    requires Quiet(w.fails, w.clock, Rollbacks(w, jobs, n).world.clock)
    ensures Rollbacks(w, jobs, n).result
    decreases n
  {
    hide RollbackJob;
    if n > 0 {
      var last := jobs[n - 1];
      var w1 := RollbackJob(w, last).world;
      RollbackJobOutcome(w, last);
      forall i | 0 <= i < n - 1
        ensures jobs[i].backedUp ==> Old(jobs[i].target) in w1.objects
        ensures Touched(jobs[i]) ==> jobs[i].target in w1.objects
      {
        assert Old(jobs[i].target) != last.target;
        RollbackJobWrites(w, last, Old(jobs[i].target));
        if jobs[i].target != last.target {
          RollbackJobWrites(w, last, jobs[i].target);
        }
      }
      RollbacksClock(w1, jobs, n - 1);
      if RollbackJob(w, last).result.Some? {
        RollbackCompletes(w1, jobs, n - 1);
      }
    }
  }

  // ---------------------------------------------------------------------------------
  // Exactly when an update is committed
  // ---------------------------------------------------------------------------------

  /** The first `n` targets are new and different. */
  ghost predicate AllNew(objects: map<Key, Blob>, jobs: seq<Job>, n: nat)
    requires n <= |jobs|
  {
    && (forall i :: 0 <= i < n ==> jobs[i].target !in objects)
    && forall i, k :: 0 <= i < k < n ==> jobs[i].target != jobs[k].target
  }

  /** The result, and what an upload without force adds. */
  lemma UploadJobOutcome(w: World, j: Job, force: bool)
    ensures
      var r := UploadJob(w, j, force);
      var quiet := Quiet(w.fails, w.clock, r.world.clock);
      && r.world.fails == w.fails && w.clock < r.world.clock
      && (r.result.None? <==> quiet && (force || j.target !in w.objects))
      && (r.result == Some(Conflict) <==> quiet && !force && j.target in w.objects)
      && (r.result.None? && !force ==> r.world.objects.Keys == w.objects.Keys + {j.target})
  {
  }

  lemma {:induction false} UploadsOutcome(w: World, jobs: seq<Job>, force: bool, n: nat)
    requires n <= |jobs|
    ensures
      var b := Uploads(w, jobs, force, n);
      var quiet := Quiet(w.fails, w.clock, b.world.clock);
      && b.world.fails == w.fails && w.clock <= b.world.clock
      && (b.result.None? <==> quiet && (force || AllNew(w.objects, jobs, n)))
      && (b.result == Some(Conflict) <==> quiet && !force && !AllNew(w.objects, jobs, n))
      && (b.result.None? && !force ==>
            forall key :: key in b.world.objects <==> key in w.objects || IsTarget(jobs, n, key))
  {
    hide UploadJob;
    if n > 0 {
      UploadsOutcome(w, jobs, force, n - 1);
      UploadJobOutcome(Uploads(w, jobs, force, n - 1).world, jobs[n - 1], force);
      OneMoreTarget(w.objects, jobs, n);
    }
  }

  ghost predicate IsTarget(jobs: seq<Job>, n: nat, key: Key)
    requires n <= |jobs|
  {
    exists i :: 0 <= i < n && jobs[i].target == key
  }

  lemma OneMoreTarget(objects: map<Key, Blob>, jobs: seq<Job>, n: nat)
    requires 0 < n <= |jobs|
    ensures
      AllNew(objects, jobs, n) <==>
        AllNew(objects, jobs, n - 1) && jobs[n - 1].target !in objects && !IsTarget(jobs, n - 1, jobs[n - 1].target)
    ensures forall key :: IsTarget(jobs, n, key) <==> IsTarget(jobs, n - 1, key) || key == jobs[n - 1].target
  {
    forall key ensures IsTarget(jobs, n, key) <==> IsTarget(jobs, n - 1, key) || key == jobs[n - 1].target {
      assert key == jobs[n - 1].target ==> 0 <= n - 1 < n && jobs[n - 1].target == key;
    }
  }

  /**
    An update is committed if and only if none of its operations fails and it is forced, or all its
    targets are new and different.  If that alone is missing it is undone, as a conflict.
   */
  lemma CommittedIff(w: World, jobs: seq<Job>, force: bool)
    requires Handed(jobs)
    ensures
      var e := Execute(w, jobs, force);
      var quiet := Quiet(w.fails, w.clock, e.world.clock);
      var allowed := force || AllNew(w.objects, jobs, |jobs|);
      && (e.result.Committed? <==> quiet && allowed)
      && (e.result == RolledBack(Some(Conflict)) <==> quiet && !allowed)
  {
    hide UploadJob, RollbackJob, Uploads, Rollbacks, AllNew;
    var n := |jobs|;
    var up := Uploads(w, jobs, force, n);
    UploadsOutcome(w, jobs, force, n);
    if up.result.Some? || FailsNow(up.world) {
      var w1 := if up.result.None? then Tick(up.world, up.world.objects) else up.world;
      UploadsStayStandard(w, jobs, force, n);
      UploadsAreUndoable(w, jobs, force, n);
      RollbacksClock(w1, up.jobs, n);
      if Quiet(w1.fails, w1.clock, Rollbacks(w1, up.jobs, n).world.clock) {
        RollbackCompletes(w1, up.jobs, n);
      }
    }
  }

  // ---------------------------------------------------------------------------------
  // Exactly when a failed update is undone
  // ---------------------------------------------------------------------------------

  /** A rollback that completes under these failures restores every key but the backups. */
  ghost predicate Undoes(objects: map<Key, Blob>, jobs: seq<Job>, force: bool, fails: nat -> bool)
  {
    var e := Execute(World(objects, 0, fails), jobs, force);
    e.result.RolledBack? ==> forall key :: !IsBackup(jobs, key) ==> SameAt(e.world.objects, objects, key)
  }

  lemma UploadJobSame(w: World, fails: nat -> bool, j: Job, force: bool)
    requires forall t: nat :: t < UploadJob(w, j, force).world.clock ==> fails(t) == w.fails(t)
    ensures
      var a, b := UploadJob(w, j, force), UploadJob(w.(fails := fails), j, force);
      a.result == b.result && a.job == b.job && b.world == a.world.(fails := fails)
  {
  }

  /** Two worlds that differ only in failures yet to come run alike. */
  lemma {:induction false} SameUntil(w: World, fails: nat -> bool, jobs: seq<Job>, force: bool, n: nat)
    requires n <= |jobs|
    requires forall t: nat :: t < Uploads(w, jobs, force, n).world.clock ==> fails(t) == w.fails(t)
    ensures
      var a, b := Uploads(w, jobs, force, n), Uploads(w.(fails := fails), jobs, force, n);
      && a.result == b.result && a.jobs == b.jobs && b.world == a.world.(fails := fails)
  {
    hide UploadJob;
    if n > 0 {
      var a := Uploads(w, jobs, force, n - 1);
      UploadsShape(w, jobs, force, n - 1);
      UploadJobShape(a.world, jobs[n - 1], force);
      SameUntil(w, fails, jobs, force, n - 1);
      if a.result.None? {
        UploadJobSame(a.world, fails, jobs[n - 1], force);
      }
    }
  }

  /** Forced uploads fail only if a storage operation does. */
  lemma {:induction false} ForcedUploadsSucceed(w: World, jobs: seq<Job>, n: nat)
    requires n <= |jobs| && forall t: nat :: !w.fails(t)
    ensures Uploads(w, jobs, true, n).result.None?
  {
    if n > 0 {
      ForcedUploadsSucceed(w, jobs, n - 1);
      UploadsShape(w, jobs, true, n - 1);
    }
  }

  /** A forced upload over an existing object, with a failure after its backup copy. */
  lemma FailsAfterBackup(w: World, j: Job)
    requires j == NewJob(j.target, j.blob) && j.target in w.objects
    requires forall t: nat :: w.fails(t) <==> t == w.clock + 2
    ensures
      var r := UploadJob(w, j, true);
      && r.result.Some? && r.world.clock == w.clock + 3
      && r.world.objects == w.objects[Old(j.target) := w.objects[j.target]]
  {
  }

  /** The first `n` uploads, with a first failure at operation `stop`, which comes after all of them. */
  lemma QuietPrefix(objects: map<Key, Blob>, jobs: seq<Job>, n: nat, key: Key) returns (stop: nat)
    requires Handed(jobs) && n <= |jobs| && !IsBackup(jobs, key) && LastFor(jobs, n, key).Some?
    ensures
      var up := Uploads(World(objects, 0, (t: nat) => t == stop), jobs, true, n);
      && up.result.None? && up.world.clock + 2 == stop
      && key in up.world.objects && up.world.objects[key] == jobs[LastFor(jobs, n, key).value].blob
      && First(up.jobs, key).Some?
  {
    var quiet := World(objects, 0, t => false);
    ForcedUploadsSucceed(quiet, jobs, n);
    UploadsDeliver(quiet, jobs, true, n, key);
    stop := Uploads(quiet, jobs, true, n).world.clock + 2;
    var fails: nat -> bool := (t: nat) => t == stop;
    SameUntil(quiet, fails, jobs, true, n);
    assert World(objects, 0, fails) == quiet.(fails := fails);
    UploadedIsTouched(World(objects, 0, fails), jobs, true, n, key);
  }

  lemma {:induction false} FirstStays(jobs: seq<Job>, more: seq<Job>, key: Key)
    requires First(jobs, key).Some?
    ensures First(jobs + more, key).Some?
    decreases |more|
  {
    if more == [] {
      assert jobs + more == jobs;
    } else {
      var m := |more| - 1;
      FirstStays(jobs, more[..m], key);
      FirstAppend(jobs + more[..m], more[m], key);
      assert jobs + more[..m] + [more[m]] == jobs + more;
    }
  }

  /** Stopping right after the backup copy of job `n` leaves at its backup location what came before. */
  lemma StopAtInsert(objects: map<Key, Blob>, jobs: seq<Job>, n: nat) returns (fails: nat -> bool)
    requires Handed(jobs) && n < |jobs|
    requires !IsBackup(jobs, jobs[n].target) && LastFor(jobs, n, jobs[n].target).Some?
    ensures
      var key := jobs[n].target;
      var up := Uploads(World(objects, 0, fails), jobs, true, |jobs|);
      && up.result.Some? && First(up.jobs, key).Some?
      && Old(key) in up.world.objects
      && up.world.objects[Old(key)] == jobs[LastFor(jobs, n, key).value].blob
      && forall t: nat :: t >= up.world.clock ==> !fails(t)
  {
    hide UploadJob, First, LastFor, IsBackup;
    var j := jobs[n];
    var stop := QuietPrefix(objects, jobs, n, j.target);
    fails := (t: nat) => t == stop;
    var w := World(objects, 0, fails);
    var up := Uploads(w, jobs, true, n);
    var r := UploadJob(up.world, j, true);
    UploadsShape(w, jobs, true, n);
    FailsAfterBackup(up.world, j);
    assert Uploads(w, jobs, true, n + 1) == Batch(r.result, up.jobs + [r.job], r.world);
    hide Uploads;
    UploadsStop(w, jobs, true, n + 1, |jobs|);
    FirstAppend(up.jobs, r.job, j.target);
    FirstStays(up.jobs + [r.job], jobs[n + 1..|jobs|], j.target);
  }

  /** The next job after `i` for the same target. */
  ghost function NextFor(jobs: seq<Job>, i: nat, j: nat): (h: nat)
    requires i < j < |jobs| && jobs[i].target == jobs[j].target
    ensures i < h <= j && jobs[h].target == jobs[i].target && LastFor(jobs, h, jobs[i].target) == Some(i)
    decreases j
  {
    LastForAfter(jobs, i, j);
    var last := LastFor(jobs, j, jobs[i].target).value;
    if last == i then j else NextFor(jobs, i, last)
  }

  lemma {:induction false} LastForAfter(jobs: seq<Job>, i: nat, n: nat)
    requires i < n <= |jobs|
    ensures LastFor(jobs, n, jobs[i].target).Some? && i <= LastFor(jobs, n, jobs[i].target).value
  {
    if jobs[n - 1].target != jobs[i].target {
      LastForAfter(jobs, i, n - 1);
    }
  }

  /**
    The failure that cannot be undone: the second of two uploads to an existing location
    backs up what the first one put there, over the only copy of the original, and then fails.
   */
  lemma HarmfulRepeat(objects: map<Key, Blob>, jobs: seq<Job>, i: nat, j: nat) returns (fails: nat -> bool)
    requires Handed(jobs)
    requires i < j < |jobs| && jobs[i].target == jobs[j].target && jobs[i].target in objects
    requires jobs[i].blob != objects[jobs[i].target]
    ensures !Undoes(objects, jobs, true, fails)
  {
    var key := jobs[i].target;
    assert forall m :: 0 <= m < |jobs| ==> Old(jobs[m].target) != jobs[i].target;
    fails := StopAtInsert(objects, jobs, NextFor(jobs, i, j));
    UndoneWrongly(World(objects, 0, fails), jobs, key, jobs[i].blob);
  }

  /** A failed upload whose backup holds the wrong content restores the wrong content. */
  lemma UndoneWrongly(w: World, jobs: seq<Job>, key: Key, wrong: Blob)
    requires Handed(jobs) && w.clock == 0 && key in w.objects && w.objects[key] != wrong && !IsBackup(jobs, key)
    requires
      var up := Uploads(w, jobs, true, |jobs|);
      && up.result.Some? && First(up.jobs, key).Some?
      && Old(key) in up.world.objects && up.world.objects[Old(key)] == wrong
      && forall t: nat :: t >= up.world.clock ==> !w.fails(t)
    ensures !Undoes(w.objects, jobs, true, w.fails)
  {
    hide UploadJob, RollbackJob, Uploads, Rollbacks, First, RepeatsHarmless, BackupsApart;
    var n := |jobs|;
    var up := Uploads(w, jobs, true, n);
    UploadsShape(w, jobs, true, n);
    UploadTrail(w, jobs, true, n, false, key);
    UploadsStayStandard(w, jobs, true, n);
    UploadsAreUndoable(w, jobs, true, n);
    RollbackCompletes(up.world, up.jobs, n);
    RollbackAt(up.world, up.jobs, n, key);
    assert up.jobs[..n] == up.jobs;
    assert w == World(w.objects, 0, w.fails);
  }

  /**
    Every failure that can be rolled back is undone, if and only if the update is not forced
    or repeats no existing location harmfully.
   */
  lemma UndoneIff(objects: map<Key, Blob>, jobs: seq<Job>, force: bool)
    requires Handed(jobs)
    ensures (forall fails :: Undoes(objects, jobs, force, fails)) <==> (force ==> RepeatsHarmless(objects, jobs))
  {
    if force && !RepeatsHarmless(objects, jobs) {
      var i: nat, j: nat :| i < j < |jobs| && jobs[i].target == jobs[j].target && jobs[i].target in objects
        && jobs[i].blob != objects[jobs[i].target];
      var fails := HarmfulRepeat(objects, jobs, i, j);
    } else {
      forall fails: nat -> bool ensures Undoes(objects, jobs, force, fails) {
        var w := World(objects, 0, fails);
        if Execute(w, jobs, force).result.RolledBack? {
          forall key | !IsBackup(jobs, key) ensures SameAt(Execute(w, jobs, force).world.objects, objects, key) {
            RollbackRestores(w, jobs, force, key);
          }
        }
      }
    }
  }

  // ---------------------------------------------------------------------------------
  // Trying again
  // ---------------------------------------------------------------------------------

  /** What a rollback leaves of a job: it forgets the backup path, but not that there was a backup. */
  function Forgotten(j: Job): Job {
    if j.backedUp then j.(backup := None, updated := false) else j.(updated := false)
  }

  lemma {:induction false} RollbacksForget(w: World, jobs: seq<Job>, n: nat)
    requires n <= |jobs| && Rollbacks(w, jobs, n).result
    ensures forall i :: 0 <= i < n ==> Rollbacks(w, jobs, n).jobs[i] == Forgotten(jobs[i])
    decreases n
  {
    if n > 0 {
      RollbacksForget(RollbackJob(w, jobs[n - 1]).world, jobs, n - 1);
    }
  }

  /** The jobs after a failed update that was rolled back: as before, but for those that made a backup. */
  lemma RolledBackJobs(w: World, jobs: seq<Job>, force: bool)
    requires Handed(jobs) && Execute(w, jobs, force).result.RolledBack?
    ensures
      var after := Execute(w, jobs, force).jobs;
      |after| == |jobs| && forall i :: 0 <= i < |jobs| ==>
        after[i].target == jobs[i].target && (if after[i].backedUp then after[i].backup.None? else after[i] == jobs[i])
  {
    hide UploadJob, RollbackJob, Uploads, Rollbacks;
    var up := Uploads(w, jobs, force, |jobs|);
    var w1 := if up.result.None? then Tick(up.world, up.world.objects) else up.world;
    UploadsShape(w, jobs, force, |jobs|);
    RollbacksForget(w1, up.jobs, |jobs|);
  }

  function NoneKey(j: Job): Key {
    j.target.(path := "None")
  }

  /** A rollback raises at a job whose backup path is forgotten. */
  lemma {:induction false} ForgottenRaises(w: World, jobs: seq<Job>, n: nat, i: nat)
    requires i < n <= |jobs| && jobs[i].backedUp && jobs[i].backup.None? && NoneKey(jobs[i]) !in w.objects
    requires forall h :: 0 <= h < |jobs| ==> jobs[h].target.path != "None"
    ensures !Rollbacks(w, jobs, n).result
    decreases n
  {
    if i < n - 1 {
      var r := RollbackJob(w, jobs[n - 1]);
      RollbackJobWrites(w, jobs[n - 1], NoneKey(jobs[i]));
      if r.result.Some? {
        ForgottenRaises(r.world, jobs, n - 1, i);
      }
    }
  }

  /** If the first operation fails, nothing is uploaded. */
  lemma FirstOperationFails(w: World, jobs: seq<Job>, force: bool)
    requires jobs != [] && FailsNow(w)
    ensures Uploads(w, jobs, force, |jobs|) == Batch(Some(StorageError), jobs, Tick(w, w.objects))
  {
    assert Uploads(w, jobs, force, 0) == Batch(None, [], w);
    assert Uploads(w, jobs, force, 1) == Batch(Some(StorageError), [jobs[0]], Tick(w, w.objects));
    UploadsStop(w, jobs, force, 1, |jobs|);
    assert [jobs[0]] + jobs[1..] == jobs;
  }

  /** A forced upload fails only by an operation that does. */
  lemma {:induction false} ForcedFailure(w: World, jobs: seq<Job>, n: nat, t: nat)
    requires n <= |jobs| && (forall x: nat :: w.fails(x) ==> x == t) && w.clock <= t
    ensures
      var b := Uploads(w, jobs, true, n);
      b.world.fails == w.fails && (b.result.Some? ==> t < b.world.clock)
  {
    if n > 0 {
      ForcedFailure(w, jobs, n - 1, t);
    }
  }

  /** One failure alone never strands an update with fresh jobs. */
  lemma OneFailureIsUndone(w: World, jobs: seq<Job>, t: nat)
    requires Handed(jobs) && w.clock <= t && forall x: nat :: w.fails(x) <==> x == t
    ensures !Execute(w, jobs, true).result.Stranded?
  {
    hide UploadJob, RollbackJob, Uploads, Rollbacks;
    var up := Uploads(w, jobs, true, |jobs|);
    ForcedFailure(w, jobs, |jobs|, t);
    if up.result.Some? || FailsNow(up.world) {
      var w1 := if up.result.None? then Tick(up.world, up.world.objects) else up.world;
      UploadsStayStandard(w, jobs, true, |jobs|);
      UploadsAreUndoable(w, jobs, true, |jobs|);
      RollbackCompletes(w1, up.jobs, |jobs|);
    }
  }

  /** The update tried again, when one operation fails. */
  ghost function Again(first: Batch<Outcome>, t: nat): Batch<Outcome> {
    Execute(first.world.(fails := x => x == t), first.jobs, true)
  }

  /**
    After a forced update that failed and was rolled back: trying it again survives any one failure
    if and only if the first attempt had made no backup.
   */
  lemma RetryIff(w: World, jobs: seq<Job>)
    requires Handed(jobs) && Execute(w, jobs, true).result.RolledBack?
    requires forall i :: 0 <= i < |jobs| ==> jobs[i].target.path != "None"
    requires forall i :: 0 <= i < |jobs| ==> NoneKey(jobs[i]) !in Execute(w, jobs, true).world.objects
    ensures
      var first := Execute(w, jobs, true);
      (forall t: nat :: t >= first.world.clock ==> !Again(first, t).result.Stranded?)
        <==> (forall i :: 0 <= i < |first.jobs| ==> !first.jobs[i].backedUp)
  {
    hide Execute, Rollbacks, Uploads;
    var first := Execute(w, jobs, true);
    RolledBackJobs(w, jobs, true);
    if i: nat :| i < |first.jobs| && first.jobs[i].backedUp {
      RetryStrands(first, i);
    } else {
      assert first.jobs == jobs;
      forall t: nat | t >= first.world.clock ensures !Again(first, t).result.Stranded? {
        OneFailureIsUndone(first.world.(fails := x => x == t), jobs, t);
      }
    }
  }

  lemma RetryStrands(first: Batch<Outcome>, i: nat)
    requires i < |first.jobs| && first.jobs[i].backedUp && first.jobs[i].backup.None?
    requires NoneKey(first.jobs[i]) !in first.world.objects
    requires forall h :: 0 <= h < |first.jobs| ==> first.jobs[h].target.path != "None"
    ensures Again(first, first.world.clock).result.Stranded?
  {
    hide Rollbacks, Uploads;
    var t := first.world.clock;
    var w := first.world.(fails := x => x == t);
    FirstOperationFails(w, first.jobs, true);
    ForgottenRaises(Tick(w, w.objects), first.jobs, |first.jobs|, i);
  }

  /** A failed update of one job. */
  lemma ExecuteOne(w: World, j: Job, force: bool)
    requires UploadJob(w, j, force).result.Some?
    ensures
      var r := UploadJob(w, j, force);
      var u := RollbackJob(r.world, r.job);
      Execute(w, [j], force) == Batch(if u.result.Some? then RolledBack(r.result) else Stranded, [u.job], u.world)
  {
    hide UploadJob, RollbackJob;
    var r := UploadJob(w, j, force);
    var u := RollbackJob(r.world, r.job);
    assert Uploads(w, [j], force, 0) == Batch(None, [], w);
    assert Uploads(w, [j], force, 1) == Batch(r.result, [r.job], r.world);
    assert Rollbacks(u.world, [r.job], 0) == Batch(true, [], u.world);
    assert Rollbacks(r.world, [r.job], 1) == Batch(u.result.Some?, [u.job], u.world);
  }
}
