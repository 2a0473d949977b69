# Catapult tooling, modelled and proved in Dafny

The repository vendors catapult, the tooling behind systrace.  This project models the parts of it
that keep state across calls, processes or threads, and proves what they promise.

| file | what it models |
|---|---|
| `PseudoLock.dfy` | downloads from cloud storage under a pseudo lock: every system call of any number of calls is one step of a transition system |
| `Uploader.dfy`, `Transaction.dfy`, `BaseConfig.dfy` | uploads to cloud storage with backup and rollback, the whole update as a transaction, and the config that records it |
| `Flags.dfy`, `FlagChanger.dfy` | the parser and printer of command-line flags, and the stack of flag sets kept in a file on the device |
| `PushCache.dfy` | incremental push of files to a device with a checksum cache |
| `Threads.dfy` | thread groups, time-outs and nested retries: a small-step machine, and the objects it stands for |
| `Dependencies.dfy` | merging and searching the local paths of dependencies, and the manager's look-up table |
| `CmdHelper.dfy`, `Snippet.dfy` | the chunked line splitter, and shell quoting against a small shell reader |
| `Listing.dfy`, `NestedDicts.dfy` | the two parsers of indented listings, and the nested dictionary objects that they fill |
| `UsbTree.dfy` | the tree of USB devices built from a listing |
| `Ports.dfy`, `Percentile.dfy` | the port allocator and percentile interpolation |
| `Wrappers.dfy`, `Text.dfy` | shared result types and string operations |

Operations outside the program are parameters.  A cloud-storage operation fails or succeeds by a
schedule `fails` that the theorems quantify over; a failed operation has no effect.  In the lock,
refusals, I/O errors, time-outs and crashes are events of the run.  Which port is free, what a try
of a function comes to and what a download returns are functions that the theorems quantify over.
The order in which Python enumerates a set or dictionary is left open.

Where the code does not do what its documentation says, the code is modelled and the exact
condition is proved: `Transaction.UndoneIff`, `Transaction.RetryIff`,
`BaseConfig.SessionIsSafeIff`, `BaseConfig.ReturnsTrueHavingWritten`, `BaseConfig.RefusedThenTrueIff`,
`PushCache.SecondPushIff`, `Threads.RetriesDoNotMultiplyIff`, `LineStream.StreamingIsBatchIff`, `Flags.RoundTripIff`,
`Snippet.SnippetIsRunIff`, `Lsusb.ShownIff`, `Ports.DocumentedResultIff`.

## Model
| member | source | states |
|---|---|---|
| PseudoLock.MutualExclusion | armhf/udroid/wrapper/systrace-dir/catapult/common/py_utils/py_utils/cloud_storage.py:243-329 | In every reachable state of every interleaving of any number of calls, with refusals, time-outs, failed downloads and crashes, at most one call owns the pseudo lock of a path, and it holds the flock of the inode that the path names now. |
| PseudoLock.Step | armhf/udroid/wrapper/systrace-dir/catapult/common/py_utils/py_utils/lock.py:32-43 | Every single step, with a lock granted, refused or released, by its holder or by its death, keeps the invariant that ties descriptors, flocks, names, temporary files and program counters together. |
| PseudoLock.RunKeepsInv | armhf/udroid/wrapper/systrace-dir/catapult/common/py_utils/py_utils/cloud_storage.py:243-329 | So does every run of any number of calls, from any state in which it holds. |
| PseudoLock.RemovesOwnFile | armhf/udroid/wrapper/systrace-dir/catapult/common/py_utils/py_utils/cloud_storage.py:317-324 | When a release deletes the lock file, the path still names the very file that the call had locked, nobody holds a flock on it, and no call owns the pseudo lock of the path. |
| PseudoLock.UnguardedIsBroken | armhf/udroid/wrapper/systrace-dir/catapult/common/py_utils/py_utils/cloud_storage.py:245-261 | Without the global lock there is a run, the interleaving that the comment tells, in which two calls own one pseudo lock at once. |
| PseudoLock.AtomicReplacement | armhf/udroid/wrapper/systrace-dir/catapult/common/py_utils/py_utils/cloud_storage.py:337-355 | A file at a download path only ever changes in one step, by a call that owns its pseudo lock, and becomes the complete remote object that the call asked for. |
| PseudoLock.DownloadAtomicity | armhf/udroid/wrapper/systrace-dir/catapult/common/py_utils/py_utils/cloud_storage.py:337-355 | After any run with failing, retried or killed copies the file at a path is what was there before the run or a complete remote object requested for that path in the run. |
| PseudoLock.ReleasesWithRequestedHash | armhf/udroid/wrapper/systrace-dir/catapult/common/py_utils/py_utils/cloud_storage.py:383-399 | When `GetIfHashChanged` has not failed and releases the lock, the local file has the requested hash if the remote object has it; when it is about to return False the file has it anyway. |
| PseudoLock.NoTempSurvives | armhf/udroid/wrapper/systrace-dir/catapult/common/py_utils/py_utils/cloud_storage.py:341-355 | In every reachable state each temporary file belongs to a call that is still downloading or was killed; none belongs to a call that completed. |
| PseudoLock.RefusalsChangeNoLock | armhf/udroid/wrapper/systrace-dir/catapult/common/py_utils/py_utils/cloud_storage.py:275-302 | No step of an acquisition attempt that does not gain ownership changes who holds a flock, or removes or replaces a lock file. |
| PseudoLock.GlobalLockDrains | armhf/udroid/wrapper/systrace-dir/catapult/common/py_utils/py_utils/cloud_storage.py:285-329 | No hold-and-wait: each step of the holder of the global lock brings it nearer to letting go, at most four steps in all, and no step of another call delays it. |
| PseudoLock.CriticalSectionCanFinish | armhf/udroid/wrapper/systrace-dir/catapult/common/py_utils/py_utils/cloud_storage.py:337-399 | From every reachable state a call in its critical section can be driven to a completed release by its own steps and those of the holder of the global lock, none of them a crash, an I/O error or a time-out; it then reports what was to be expected: a copy that was still to come or to be moved has put the remote object at the path and is reported as a change, a file that already has the requested hash is reported as up to date and is untouched. |
| PseudoLock.GetDelivers | armhf/udroid/wrapper/systrace-dir/catapult/common/py_utils/py_utils/cloud_storage.py:337-399 | A whole call with nothing in its way: the remote object is at the path afterwards and a change is reported, or, exactly if the file already had the requested hash, no file is touched and none is reported; no lock file and no temporary file is left. |
| PseudoLock.FailsIff | armhf/udroid/wrapper/systrace-dir/catapult/common/py_utils/py_utils/cloud_storage.py:264-355 | In every run, whatever other calls do, a call fails if and only if it was killed, timed out, or met under the lock an I/O error, an error of gsutil or a second server error: no error there is passed over, and nothing else makes it fail. |
| PseudoLock.ServerErrorIsRetriedOnce | armhf/udroid/wrapper/systrace-dir/catapult/common/py_utils/py_utils/cloud_storage.py:346-352 | A first server error changes nothing of what is to be expected of the call, a second one makes it fail. |
| PseudoLock.DescriptorsAreClosed | armhf/udroid/wrapper/systrace-dir/catapult/common/py_utils/py_utils/cloud_storage.py:285-324 | No descriptor leaks: what a call opens is the lock file of its own path, and it keeps it open until it closes it, after a refused attempt or in a release, or until it ends. |
| PseudoLock.FreeLockCanBeTaken | armhf/udroid/wrapper/systrace-dir/catapult/common/py_utils/py_utils/cloud_storage.py:275-302 | Whenever nobody owns the pseudo lock of a path and the global lock is free, an attempt succeeds and the body begins, with the hash check exactly if a hash was given, also when a killed call left its lock file behind. A gsutil child that outlives its killed caller has inherited the lock and counts as its owner. |
| PseudoLock.OrphanLetsGo | armhf/udroid/wrapper/systrace-dir/catapult/common/py_utils/py_utils/cloud_storage.py:148-150 | Once such a child has ended, nobody owns the pseudo lock of that path. |
| Uploader.CloudStorageUploader.Upload | armhf/udroid/wrapper/systrace-dir/catapult/dependency_manager/dependency_manager/uploader.py:35-76 | The object changes its fields and the store exactly as the specification function says, for every operation that may fail and in every state of the object, also when a rollback has set its backup path to None. |
| Uploader.CloudStorageUploader.Rollback | armhf/udroid/wrapper/systrace-dir/catapult/dependency_manager/dependency_manager/uploader.py:78-100 | Likewise for the undoing of one upload. |
| Transaction.RollbackRestores | armhf/udroid/wrapper/systrace-dir/catapult/dependency_manager/dependency_manager/base_config.py:276-288 | Nothing: for fresh uploaders, whichever operation fails, a rollback that completes leaves every key of the store but the backup locations as it was (if no existing target is uploaded twice with force in a harmful way). |
| Transaction.UndoneIff | armhf/udroid/wrapper/systrace-dir/catapult/dependency_manager/dependency_manager/base_config.py:276-288 | Exactly when that holds: every failure that can be rolled back is undone if and only if the update is not forced, or every repeated upload to an existing target but the last puts there what was there already. |
| Transaction.HarmfulRepeat | armhf/udroid/wrapper/systrace-dir/catapult/dependency_manager/dependency_manager/uploader.py:51-67 | The failing family: two forced uploads to one existing target, the first with new content; some failure then restores the wrong content, because the second backup overwrites the only copy of the original. |
| Transaction.CommitDelivers | armhf/udroid/wrapper/systrace-dir/catapult/dependency_manager/dependency_manager/base_config.py:276-281 | All: after a committed update each target holds the content of its last upload, all other keys but the backups are unchanged, and replaced content is kept at its backup location. |
| Transaction.CommittedIff | armhf/udroid/wrapper/systrace-dir/catapult/dependency_manager/dependency_manager/uploader.py:35-76 | An update is committed if and only if none of its operations fails and it is forced, or no target exists and no two are the same; if that alone is missing it is rolled back with the conflict. |
| Transaction.RollbackCompletes | armhf/udroid/wrapper/systrace-dir/catapult/dependency_manager/dependency_manager/uploader.py:78-100 | If no storage operation fails from there on, the rollback completes: everything that it copies back or deletes is there. |
| Transaction.NothingIsLost | armhf/udroid/wrapper/systrace-dir/catapult/dependency_manager/dependency_manager/base_config.py:276-288 | Whatever fails, rollbacks included, and also for jobs that were tried before: a key that is no backup keeps an object, and its content is what was there or what some job uploads there (stated for every property that both have). |
| Transaction.RetryIff | armhf/udroid/wrapper/systrace-dir/catapult/dependency_manager/dependency_manager/uploader.py:78-100 | After a forced update that was rolled back, in a store without an object named None: trying it again survives any one failure without a rollback that raises if and only if the first attempt had made no backup: a rollback forgets the backup path but not that there was a backup. |
| BaseConfig.BackupIsNoRemotePath | armhf/udroid/wrapper/systrace-dir/catapult/dependency_manager/dependency_manager/base_config.py:351-355 | The `.old` backup of a remote path is never itself a remote path, since remote paths end in a SHA-1 hash. |
| BaseConfig.RemotePathInjective | armhf/udroid/wrapper/systrace-dir/catapult/dependency_manager/dependency_manager/base_config.py:351-355 | In one folder two dependencies, or two contents of different hash, never share a remote path. |
| BaseConfig.HashedJobsAreHanded | armhf/udroid/wrapper/systrace-dir/catapult/dependency_manager/dependency_manager/base_config.py:232-246 | Jobs that the config makes have backups apart from all targets: what the transaction asks of its caller. |
| BaseConfig.UpdatedConfigIsDownloadable | armhf/udroid/wrapper/systrace-dir/catapult/dependency_manager/dependency_manager/base_config.py:193-289 | After any run of accepted requests and an update that returns True, the config on disk points every requested dependency at an object in the store that has the recorded hash, and nothing is pending. |
| BaseConfig.AlwaysDownloadable | armhf/udroid/wrapper/systrace-dir/catapult/dependency_manager/dependency_manager/base_config.py:193-289 | Over any number of sessions on one file and store, each trying its update any number of times and forcing only the last call, whichever operations fail, rollbacks included: the config on disk points every dependency at an object of the recorded hash if it did so before. |
| BaseConfig.SessionIsSafeIff | armhf/udroid/wrapper/systrace-dir/catapult/dependency_manager/dependency_manager/base_config.py:250-289 | Exactly then: whatever is stored, requested and fails, a session keeps the file on disk downloadable if and only if no call of `ExecuteUpdateJobs` before its last one is forced, for every hash that tells some two contents apart. |
| BaseConfig.FailedUpdateChangesNothing | armhf/udroid/wrapper/systrace-dir/catapult/dependency_manager/dependency_manager/base_config.py:193-289 | After accepted requests and an update that failed and was rolled back, the config on disk and every key of the store but the backups are as they were; with force, for a store whose names are honest and whose contents do not collide with different uploaded ones. |
| BaseConfig.ForcedUpdateFails | armhf/udroid/wrapper/systrace-dir/catapult/dependency_manager/dependency_manager/base_config.py:276-288 | An instance with force, for every hash: an honest store without collisions, and an update that makes a backup, fails and is rolled back. |
| BaseConfig.HonestRepeatsAreHarmless | armhf/udroid/wrapper/systrace-dir/catapult/dependency_manager/dependency_manager/base_config.py:351-355 | In a store in which every object has the hash that its name says and collides with no different uploaded content, a repeated upload to an existing target puts there what was there. |
| BaseConfig.ReturnsTrueHavingWritten | armhf/udroid/wrapper/systrace-dir/catapult/dependency_manager/dependency_manager/base_config.py:270-289 | `ExecuteUpdateJobs` promises to write all config changes; when it returns True it has done so if and only if an upload was pending. |
| BaseConfig.RefusedThenTrueIff | armhf/udroid/wrapper/systrace-dir/catapult/dependency_manager/dependency_manager/base_config.py:232-289 | After a first request on a clean config that is refused, the next update returns True without writing a changed config if and only if the platform and the file are there and the config did not say already what was asked for: the bucket is missed only after the config has changed. |
| BaseConfig.ReturnsTrueWithoutWriting | armhf/udroid/wrapper/systrace-dir/catapult/dependency_manager/dependency_manager/base_config.py:232-289 | The concrete failing input: one request for a dependency without a bucket is refused, and the update after it returns True and writes nothing. |
| BaseConfig.BaseConfig.AddCloudStorageDependencyUpdateJob | armhf/udroid/wrapper/systrace-dir/catapult/dependency_manager/dependency_manager/base_config.py:232-248 | The method changes config data and pending uploads as the specification function says, refusals and a missing local file included; with `execute_job` the update follows at once. |
| BaseConfig.RequestOutcome | armhf/udroid/wrapper/systrace-dir/catapult/dependency_manager/dependency_manager/base_config.py:232-248 | Exactly which requests are refused and how; an accepted one records the hash, and the version if one is given, for its own dependency and platform and nothing else, and leaves one upload of the file to the path of that hash pending. |
| BaseConfig.UpdateOutcome | armhf/udroid/wrapper/systrace-dir/catapult/dependency_manager/dependency_manager/base_config.py:270-289 | Exactly when an update returns True or False and which error it raises: with uploads pending it returns True, having written the config, if and only if nothing fails and it is forced or all targets are new and different. |
| BaseConfig.BaseConfig.ExecuteUpdateJobs | armhf/udroid/wrapper/systrace-dir/catapult/dependency_manager/dependency_manager/base_config.py:250-289 | The two loops, the config write and the clean-up end in the result, config file, uploaders and store of the specification function. |
| Flags.ParseFlags | armhf/udroid/wrapper/systrace-dir/catapult/devil/devil/android/flag_changer.py:210-252 | The character loop computes the parse that the lemmas below speak of. |
| Flags.NoEmptyFlag | armhf/udroid/wrapper/systrace-dir/catapult/devil/devil/android/flag_changer.py:225-252 | Whatever the line, no empty flag is returned: the current flag is None or non-empty throughout. |
| Flags.TokensAreRead | armhf/udroid/wrapper/systrace-dir/catapult/devil/devil/android/flag_changer.py:210-252 | Any tokens of bare characters, escaped characters and quoted strings in either quotes, each followed by any white space, are read as their contents, the first left out. |
| Flags.QuotedIff | armhf/udroid/wrapper/systrace-dir/catapult/devil/devil/android/flag_changer.py:275-300 | A flag is written as it is if and only if it is not empty and has but letters, digits, `_` and `-` beside the `=` after its key. |
| Flags.RunEscaped | armhf/udroid/wrapper/systrace-dir/catapult/devil/devil/android/flag_changer.py:229-244 | Inside double quotes an escaped string is read back as the string itself, backslashes and quotes included. |
| Flags.RoundTripIff | armhf/udroid/wrapper/systrace-dir/catapult/devil/devil/android/flag_changer.py:210-300 | Parsing the serialization of a list of flags returns that list if and only if no flag is empty or ends in a backslash. |
| Flags.ReparseIff | armhf/udroid/wrapper/systrace-dir/catapult/devil/devil/android/flag_changer.py:210-300 | Flags that were parsed survive serializing and parsing again if and only if none ends in a backslash. |
| FlagChanger.WrittenIsRead | armhf/udroid/wrapper/systrace-dir/catapult/devil/devil/android/flag_changer.py:91-107 | A set of flags in the round-trip domain, without line breaks, is read from the device file as it was written, missing file, line ends and stripping included. |
| FlagChanger.FlagChanger.UpdateCommandLineFile | armhf/udroid/wrapper/systrace-dir/catapult/devil/devil/android/flag_changer.py:193-207 | After every update the top of the stack is what the device file parses to, the file is missing exactly if the wanted set is empty, and flags that can be carried arrive as wanted. |
| FlagChanger.FlagChanger.PushFlags | armhf/udroid/wrapper/systrace-dir/catapult/devil/devil/android/flag_changer.py:158-178 | Each push adds one level, (top plus added) minus removed, that the device file agrees with. |
| FlagChanger.FlagChanger.Restore | armhf/udroid/wrapper/systrace-dir/catapult/devil/devil/android/flag_changer.py:180-191 | A restore takes one level away and gives the device the level below; with nothing to take away it is refused and changes nothing. |
| FlagChanger.StackBelow | armhf/udroid/wrapper/systrace-dir/catapult/devil/devil/android/flag_changer.py:158-191 | Changes that never restore more than they pushed leave the stack below them untouched. |
| FlagChanger.PerformAll | armhf/udroid/wrapper/systrace-dir/catapult/devil/devil/android/flag_changer.py:88-207 | Any balanced run of pushes, replacements and restores, of whatever flags, returns both the stack and the set of flags on the device to where they began, if the file can carry those; if it can carry all, the stack is the intended one throughout. |
| FlagChanger.CustomCommandLineFlags | armhf/udroid/wrapper/systrace-dir/catapult/devil/devil/android/flag_changer.py:23-56 | However uses of the context manager nest, whatever flags they set and whatever is raised in their bodies: each body that begins sees on the device the flags of its own use, if the file can carry them, and SELinux not enforcing where it must not be; leaving one gives the device its SELinux mode back, and its set of flags if the file can carry it, and an exception passes through. |
| PushCache.DeviceUtils.PushChangedFiles | armhf/udroid/wrapper/systrace-dir/catapult/devil/devil/android/device_utils.py:1270-1297 | Each push mirrors its roots: every host file has equal content on the device, at the device path and its own relative path however many slashes follow the device path, with stale deletion nothing else is left at or under a directory root, nothing else is touched; the cache stays true of the device, with entries of other paths as they were; nothing is sent exactly if nothing was to do; and the commands sent, stale files first, then the directories that are needed, then each changed file once, replayed on the old device give the new one. |
| PushCache.DeviceUtils.GetChangedAndStaleFiles | armhf/udroid/wrapper/systrace-dir/catapult/devil/devil/android/device_utils.py:1299-1377 | The loop over the host checksums finds exactly the changed, the up-to-date and the stale files, whether the checksums were measured or cached. |
| PushCache.UnchangedIsCurrent | armhf/udroid/wrapper/systrace-dir/catapult/devil/devil/android/device_utils.py:1331-1368 | With a true cache and collision-free checksums, a target that is not pushed has the content of its host file already. |
| PushCache.StaleIsExact | armhf/udroid/wrapper/systrace-dir/catapult/devil/devil/android/device_utils.py:1358-1369 | Stale tracking finds the device files at or under a root that are no targets, and no others. |
| PushCache.CommitIsTrue | armhf/udroid/wrapper/systrace-dir/catapult/devil/devil/android/device_utils.py:1371-1375 | What the commit function stores is true of the device that has just been pushed to. |
| PushCache.CacheStaysTrue | armhf/udroid/wrapper/systrace-dir/catapult/devil/devil/android/device_utils.py:1270-1297 | After a push every cache entry, of old paths and new, is true of the device. |
| PushCache.MirroredUnique | armhf/udroid/wrapper/systrace-dir/catapult/devil/devil/android/device_utils.py:1270-1297 | There is only one device state that mirrors the roots. |
| PushCache.MirroredIsPlaced | armhf/udroid/wrapper/systrace-dir/catapult/devil/devil/android/device_utils.py:1270-1338 | A mirrored device has every host file of a root at the root path, a slash and its relative path, for the root path as given with or without slashes after it. |
| PushCache.MirroredTouchesNothingElse | armhf/udroid/wrapper/systrace-dir/catapult/devil/devil/android/device_utils.py:1270-1297 | What is not at or below the device path of a root is as it was. |
| PushCache.DirnameOfFile | armhf/udroid/wrapper/systrace-dir/catapult/devil/devil/android/device_utils.py:1282-1286 | The directory of a single file is what comes before its name. |
| PushCache.CacheIsTransparent | armhf/udroid/wrapper/systrace-dir/catapult/devil/devil/android/device_utils.py:1331-1341 | With the cache and without it one push leaves the same device. |
| PushCache.PushAll | armhf/udroid/wrapper/systrace-dir/catapult/devil/devil/android/device_utils.py:1270-1297 | Any sequence of pushes to paths that are equal or not nested: each mirrors its roots, and the cache is true of the device after every one. |
| PushCache.PushAllTwice | armhf/udroid/wrapper/systrace-dir/catapult/devil/devil/android/device_utils.py:1331-1341 | Two devices with equal files, one with the cache and one without, are equal again after any such sequence. |
| PushCache.SecondPushIff | armhf/udroid/wrapper/systrace-dir/catapult/devil/devil/android/device_utils.py:1354-1377 | An identical second push of a root does nothing if and only if the root is a directory or the cache is off: the cached key of a single file ends in a slash and is never found. |
| PushCache.PushTwice | armhf/udroid/wrapper/systrace-dir/catapult/devil/devil/android/device_utils.py:1270-1297 | The same for a whole list of roots, as commands that reach the device. |
| Threads.CurrentTimeoutThreadGroup | armhf/udroid/wrapper/systrace-dir/catapult/devil/devil/utils/timeout_retry.py:60-71 | The walk up the links of the group objects ends, and finds what the search over the list of all groups finds. |
| Threads.NextKeepsInv | armhf/udroid/wrapper/systrace-dir/catapult/devil/devil/utils/reraiser_thread.py:114-160 | Every step of every thread keeps the invariant: links point to groups made earlier, and whoever made the group of an enclosed thread still blocks on it. |
| Threads.WalkFindsInnermost | armhf/udroid/wrapper/systrace-dir/catapult/devil/devil/utils/timeout_retry.py:60-71 | In every reachable state the walk from an enclosed thread finds the timeout group of the nearest thread that waits for it. |
| Threads.BodiesRunWithinBound | armhf/udroid/wrapper/systrace-dir/catapult/devil/devil/android/decorators.py:37-57 | In every run of every program of decorated functions, direct calls of `Run`, `RunAsync` calls and groups started without blocking, with exceptions, callers that catch them and go on, time-outs, abandoned threads and join slices, the bodies run no more often than a bound in which the retries of nested decorated functions do not multiply. |
| Threads.CalmRunsAreExact | armhf/udroid/wrapper/systrace-dir/catapult/devil/devil/utils/timeout_retry.py:148-175 | In every run of every program in which no body raises and nothing times out, no thread raises, the bodies run so far are no more than the program has, and when all threads have ended each has run exactly once: a try that succeeded is not repeated and no handler runs. |
| Threads.CanReturn | armhf/udroid/wrapper/systrace-dir/catapult/devil/devil/utils/reraiser_thread.py:114-160 | Every program has a run in which every thread returns, each body having run once. |
| Threads.ThrownIsCaught | armhf/udroid/wrapper/systrace-dir/catapult/devil/devil/utils/reraiser_thread.py:130-160 | An exception of a body, a join or a time-out goes to the nearest handler of its thread, which goes on with what comes after it; without one the thread ends with it. |
| Threads.TriesAreMade | armhf/udroid/wrapper/systrace-dir/catapult/devil/devil/utils/timeout_retry.py:148-175 | Whatever its tries come to, returning, raising or timing out, a call of `Run` can make exactly the tries up to the last that the loop allows, and then returns if that one returned and raises otherwise. |
| Threads.RetriesDoNotMultiplyIff | armhf/udroid/wrapper/systrace-dir/catapult/devil/devil/android/decorators.py:48-57 | The documented rule, exactly: every run of a chain of decorated functions, direct calls of `Run`, `RunAsync` hops and groups apart executes the body at most outermost retries + 1 times, if and only if inside the outermost function with tries no retry gets through: no direct call retries, and no decorated function does where nothing encloses it for certain. |
| Threads.ChainUsesAllTries | armhf/udroid/wrapper/systrace-dir/catapult/devil/devil/android/decorators.py:48-57 | For every chain that keeps the rule some run executes the body exactly so often. |
| Threads.WatchedEscapes | armhf/udroid/wrapper/systrace-dir/catapult/devil/devil/utils/reraiser_thread.py:130-160 | The shortest failing chains: no retries around, and inside one retry of a direct call, or of a decorated function after a `RunAsync` with a watcher or in a group that was started without blocking. |
| Threads.Run | armhf/udroid/wrapper/systrace-dir/catapult/devil/devil/utils/timeout_retry.py:148-175 | The retry loop returns the first try that succeeds or must not be repeated, after at most retries + 1 tries, all earlier ones having failed. |
| Threads.WaitFor | armhf/udroid/wrapper/systrace-dir/catapult/devil/devil/utils/timeout_retry.py:74-115 | The wait ends with the first check that finds the condition met or too little time left for another period, and with None only after exactly the allowed number of checks of which none was either. |
| Threads.GetAllReturnValues | armhf/udroid/wrapper/systrace-dir/catapult/devil/devil/utils/reraiser_thread.py:193-228 | The values come in the order of the functions; if any raised, what the first of them raised is raised, after all threads have ended; and the TimeoutError of the join only if the watcher timed out while a thread was alive. |
| Threads.ReraiserThreadGroup.Link | armhf/udroid/wrapper/systrace-dir/catapult/devil/devil/utils/reraiser_thread.py:122-126 | Linking a group to the group of the current thread keeps all links pointing to earlier groups. |
| Threads.ReraiserThreadGroup.JoinAll | armhf/udroid/wrapper/systrace-dir/catapult/devil/devil/utils/reraiser_thread.py:130-160 | The join ends when every thread has ended or its own time-out is over, and raises then what the first thread raised that has ended so; or it raises when the watcher has timed out. Either way it clears the link of its own group and of no other. |
| Dependencies.NewestIsFirstMaximum | armhf/udroid/wrapper/systrace-dir/catapult/dependency_manager/dependency_manager/local_path_info.py:13-19 | Of a group the first of the newest existing paths is chosen. |
| Dependencies.MergeRefinesSearch | armhf/udroid/wrapper/systrace-dir/catapult/dependency_manager/dependency_manager/local_path_info.py:13-34 | For every file system the search after a de-duplicating merge finds what the first info finds, else what the second alone finds, also among equally new files. |
| Dependencies.LocalPathInfo.Update | armhf/udroid/wrapper/systrace-dir/catapult/dependency_manager/dependency_manager/local_path_info.py:25-34 | The loops that append the unlisted paths of each group compute the merge. |
| Dependencies.LocalPathInfo.GetLocalPath | armhf/udroid/wrapper/systrace-dir/catapult/dependency_manager/dependency_manager/local_path_info.py:13-19 | The loop over the groups computes the search. |
| Dependencies.DependencyInfo.Update | armhf/udroid/wrapper/systrace-dir/catapult/dependency_manager/dependency_manager/dependency_info.py:35-59 | The update extends the config paths, refuses another key or a second cloud information, and adopts or merges the local paths. |
| Dependencies.BuildIsRight | armhf/udroid/wrapper/systrace-dir/catapult/dependency_manager/dependency_manager/manager.py:198-224 | For any list of infos the table is built exactly if no dependency gets cloud information twice for a platform; then each entry has its config paths in order, the one cloud information there is, and a local search equal to the config-by-config search. |
| Dependencies.LookUpIsDocumented | armhf/udroid/wrapper/systrace-dir/catapult/dependency_manager/dependency_manager/manager.py:226-246 | A look-up answers as documented, config by config, and uses `default` only if the platform has no entry. |
| Dependencies.FetchIsDocumented | armhf/udroid/wrapper/systrace-dir/catapult/dependency_manager/dependency_manager/manager.py:86-97 | For any list of configs: a path found by the config-by-config search is fetched without a version; else the download of the one cloud information for that key, with it; else nothing. |
| Dependencies.MakeManager | armhf/udroid/wrapper/systrace-dir/catapult/dependency_manager/dependency_manager/manager.py:48-51 | Construction over the objects of all configs succeeds exactly if all config types are supported and no cloud information conflicts, and then stands for that table. |
| Dependencies.DependencyManager.LocalPath | armhf/udroid/wrapper/systrace-dir/catapult/dependency_manager/dependency_manager/manager.py:133-158 | The path of the look-up, or NoPathFoundError. |
| Dependencies.DependencyManager.FetchPathWithVersion | armhf/udroid/wrapper/systrace-dir/catapult/dependency_manager/dependency_manager/manager.py:54-97 | A local path wins and has no version; else the download, with the version that its cloud information records, if any; else NoPathFoundError. |
| LineStream.IterCmdOutputLines | armhf/udroid/wrapper/systrace-dir/catapult/devil/devil/utils/cmd_helper.py:414-449 | The loop over chunks with its buffer yields the line split of the output in which every line break that a chunk boundary tears apart is doubled. |
| LineStream.StreamCount | armhf/udroid/wrapper/systrace-dir/catapult/devil/devil/utils/cmd_helper.py:438-449 | The stream yields one line too many for every CR that is torn from its LF. |
| LineStream.StreamingIsBatchIff | armhf/udroid/wrapper/systrace-dir/catapult/devil/devil/utils/cmd_helper.py:438-449 | The yielded lines are the line split of the whole output if and only if no chunk ends between a CR and its LF. |
| Text.SplitLinesAreLines | armhf/udroid/wrapper/systrace-dir/catapult/devil/devil/utils/cmd_helper.py:438-449 | The line split, on which both rest, gives the lines of any text: each ends at the first LF, CR or CR LF, the last perhaps at the end. |
| Snippet.SingleQuoteIsOneWord | armhf/udroid/wrapper/systrace-dir/catapult/devil/devil/utils/cmd_helper.py:24-39 | A quoted string is read by the shell as one word, literally. |
| Snippet.JoinSplit | armhf/udroid/wrapper/systrace-dir/catapult/devil/devil/utils/cmd_helper.py:83-86 | Joining what was split at the value gives the argument back. |
| Snippet.SplitLeavesNone | armhf/udroid/wrapper/systrace-dir/catapult/devil/devil/utils/cmd_helper.py:83-86 | No part has the value left in it, and there is more than one part if and only if the value occurs: every occurrence is replaced. |
| Snippet.SafeIsNotSpecial | armhf/udroid/wrapper/systrace-dir/catapult/devil/devil/utils/cmd_helper.py:21-21 | Left without quotes are exactly the visible characters that mean nothing to a shell. |
| Snippet.SnippetIsTheCommand | armhf/udroid/wrapper/systrace-dir/catapult/devil/devil/utils/cmd_helper.py:70-88 | For all arguments and every non-empty value: with the variable set to the value, the words of the snippet are exactly the original arguments. |
| Snippet.SnippetIsRunIff | armhf/udroid/wrapper/systrace-dir/catapult/devil/devil/utils/cmd_helper.py:70-88 | The snippet runs the command unless, and only unless, its first argument is a reserved word, or the part of it before the value needs no quotes and begins with a name and an equals sign: `pipes.quote` leaves both as they are. |
| Manifest.ParseManifest | armhf/udroid/wrapper/systrace-dir/catapult/devil/devil/android/apk_helper.py:39-77 | The loop fills dictionary objects in place, through a stack of references to the open ones; the object it returns means what the specification function says, or the same error is raised. |
| NestedDicts.MeaningIsOne | armhf/udroid/wrapper/systrace-dir/catapult/devil/devil/android/apk_helper.py:54-75 | What a dictionary object means, with those below it, is one dictionary. |
| NestedDicts.PopMirrors | armhf/udroid/wrapper/systrace-dir/catapult/devil/devil/android/apk_helper.py:54-55 | Taking a reference off the stack attaches its dictionary, as it is by then, to its parent. |
| Manifest.ParseInvertsPrint | armhf/udroid/wrapper/systrace-dir/catapult/devil/devil/android/apk_helper.py:42-77 | For every document, parsing its preorder listing gives the dictionary of the document, or the error that its first offending item causes. |
| Manifest.EntriesAreRight | armhf/udroid/wrapper/systrace-dir/catapult/devil/devil/android/apk_helper.py:57-75 | In that dictionary an attribute has its text, a tag the list of its elements in document order, and there is nothing else. |
| Manifest.AcceptedIff | armhf/udroid/wrapper/systrace-dir/catapult/devil/devil/android/apk_helper.py:57-75 | A document is accepted if and only if, at every level, no attribute shares its key with anything. |
| Manifest.ErrorIs | armhf/udroid/wrapper/systrace-dir/catapult/devil/devil/android/apk_helper.py:57-75 | Which error refuses a document: that of an attribute whose key is taken, of an element whose tag is an attribute, or of what is inside. |
| Manifest.OtherLinesAreIgnored | armhf/udroid/wrapper/systrace-dir/catapult/devil/devil/android/apk_helper.py:46-77 | A line that is neither element nor attribute changes nothing where no deeper line follows; unindented it is an error. |
| Lsusb.LsusbvOnDevice | armhf/udroid/wrapper/systrace-dir/catapult/devil/devil/utils/lsusb.py:77-135 | Likewise; a header line in the midst of a device replaces even an open group of its name. |
| Lsusb.ParseInvertsPrint | armhf/udroid/wrapper/systrace-dir/catapult/devil/devil/utils/lsusb.py:77-135 | For every tree, parsing the header and the preorder listing gives the nested dictionary of the tree. |
| Lsusb.DistinctSiblingsAreKept | armhf/udroid/wrapper/systrace-dir/catapult/devil/devil/utils/lsusb.py:116-131 | With distinct sibling names every node is found under its own name with its own content. |
| Lsusb.ShownIff | armhf/udroid/wrapper/systrace-dir/catapult/devil/devil/utils/lsusb.py:116-131 | Every node of a tree is shown under its own name with its own value, description and content, at every level, if and only if siblings have different names and no name is taken by what its parent has already: `_value` and `_desc` below an entry, `bus`, `device` and `desc` below the root. |
| Lsusb.ListingsDiffer | armhf/udroid/wrapper/systrace-dir/catapult/devil/devil/utils/lsusb.py:77-135 | For such trees the parsed dictionaries are equal exactly if the trees are, but for the order of siblings. |
| Lsusb.OtherLinesAreIgnored | armhf/udroid/wrapper/systrace-dir/catapult/devil/devil/utils/lsusb.py:100-133 | A line that matches nothing changes nothing where no deeper line, and no header, follows. |
| UsbTree.BuildAgrees | armhf/udroid/wrapper/systrace-dir/catapult/devil/devil/utils/find_usb_devices.py:274-309 | For every listing of different devices the tree is built exactly if parents precede children, ports are free and serial numbers follow a device; then the nodes are the listed devices, each once, under the listed parent, at the listed port + 1, with its own serial number. |
| UsbTree.FirstErrorIsReported | armhf/udroid/wrapper/systrace-dir/catapult/devil/devil/utils/find_usb_devices.py:274-309 | Otherwise the error is that of the first line that cannot be added: AttributeError for a missing parent, ValueError for a taken port or a serial number without a device. |
| UsbTree.GetBusNumberToDeviceTreeMap | armhf/udroid/wrapper/systrace-dir/catapult/devil/devil/utils/find_usb_devices.py:274-309 | The objects that the loop builds are those of the listing, with the same error if there is one. |
| UsbTree.USBNode.AllNodes | armhf/udroid/wrapper/systrace-dir/catapult/devil/devil/utils/find_usb_devices.py:117-126 | The recursive enumeration yields a node and exactly its descendants, each once. |
| UsbTree.BelowBusIff | armhf/udroid/wrapper/systrace-dir/catapult/devil/devil/utils/find_usb_devices.py:117-126 | What is enumerated from a bus is that bus and all devices on it. |
| UsbTree.USBNode.FindDeviceNumber | armhf/udroid/wrapper/systrace-dir/catapult/devil/devil/utils/find_usb_devices.py:128-143 | The search finds a device of that number below the node if there is one, and None only if there is none. |
| UsbTree.FindOnBus | armhf/udroid/wrapper/systrace-dir/catapult/devil/devil/utils/find_usb_devices.py:296-307 | From the bus, the search finds the object of the one device that has this number on the bus, and None only if there is none. |
| Ports.PortFile.AllocateTestServerPort | armhf/udroid/wrapper/systrace-dir/catapult/devil/devil/android/ports.py:45-83 | The loop finds the first free port, whatever the file held; a port in range is returned and its successor written over the content. |
| Ports.PortsIncrease | armhf/udroid/wrapper/systrace-dir/catapult/devil/devil/android/ports.py:45-83 | Between resets, ports given to any callers in any order and with any availability strictly increase. |
| Ports.AllocatedIs | armhf/udroid/wrapper/systrace-dir/catapult/devil/devil/android/ports.py:60-73 | A port in range is returned exactly if it is the first free one from the stored one on, and 0 exactly if the first free one is beyond the range; the next port is the one after it, or stays. |
| Ports.DocumentedResultIff | armhf/udroid/wrapper/systrace-dir/catapult/devil/devil/android/ports.py:45-51 | The documented results, 0 or a port in range, are returned if and only if some port from the stored one up to 65535 is free. |
| Ports.OverflowEscapes | armhf/udroid/wrapper/systrace-dir/catapult/devil/devil/android/ports.py:60-73 | The failing input: no port left, and 65536 is returned. |
| Ports.ParseDecimal | armhf/udroid/wrapper/systrace-dir/catapult/devil/devil/android/ports.py:60-71 | Reading what was written gives the number back. |
| Ports.FileStaysDecimal | armhf/udroid/wrapper/systrace-dir/catapult/devil/devil/android/ports.py:45-83 | As long as only these calls write the file, it holds exactly the decimal of the next port, though it is overwritten without truncation. |
| Ports.OverwriteIff | armhf/udroid/wrapper/systrace-dir/catapult/devil/devil/android/ports.py:60-71 | Such an overwrite leaves exactly what was written if and only if that is no shorter than what was there. |
| Percentile.PercentileMonotone | armhf/udroid/wrapper/systrace-dir/catapult/common/lab/commits.py:48-57 | Over exact reals a higher percentile of sorted data is never lower. |
| Percentile.PercentileBounded | armhf/udroid/wrapper/systrace-dir/catapult/common/lab/commits.py:48-57 | Every percentile lies between the first and the last element. |
| Percentile.PercentileAtGrid | armhf/udroid/wrapper/systrace-dir/catapult/common/lab/commits.py:48-57 | The percentile i / (n - 1) is element i. |
| Percentile.PercentileIsLinear | armhf/udroid/wrapper/systrace-dir/catapult/common/lab/commits.py:48-57 | Between two grid points the value is linear. |

## Left out
- PseudoLock: the lock and its callers are values of one transition system rather than objects, since every interleaving of them is the point; lock paths and download paths are kept apart; creation of directories, polling intervals, the Windows branches and deletion of the lock file by others are not modelled.
- Uploader.CloudStorageUploader.Upload: explicit backup paths are not modelled.
- Transaction.RollbackRestores: a failed operation has no effect; one that takes effect and is then interrupted, say by Ctrl+C, sets no flag of the uploader, so the rollback of the source does not undo it.
- Transaction.UndoneIff: likewise.
- Transaction.RetryIff: likewise.
- BaseConfig.FailedUpdateChangesNothing: likewise.
- BaseConfig: JSON text and partial writes of the config file; "" stands for a missing value.
- BaseConfig.BaseConfig.AddCloudStorageDependencyUpdateJob: the local file is taken not to change between hashing and upload.
- BaseConfig.AlwaysDownloadable: a session in which a request is refused is taken to be given up; carrying on with it is `BaseConfig.RefusedThenTrueIff`.
- FlagChanger: the legacy file is only removed, the check of the file name is left out, and flags with line breaks are not shown to be carried by the file; `ReplaceFlags` takes a set, as only membership matters.
- PushCache.DeviceUtils.PushChangedFiles: directories on the device and conflicts between a file and a directory of one name, symbolic links, pushes that fail midway, the fall-back when checksums cannot be computed, and the choice between single and zipped pushes, which deliver the same files; the lists of files to push are maps, since their device paths differ.  The root "/" is excluded: stripped of its slash it is empty and the joined paths are relative.  Paths that were pushed to at different times are equal or not nested, and a path stays a file or a directory.
- Threads: stack dumps and wall-clock time (a time-out may happen at any step of a wait); the machine does not carry return values.
- Threads.BodiesRunWithinBound: that the bound is reached is shown for chains of one function each, not for all programs.
- Threads.Run: thread creation is part of the small-step machine, not of this loop, which takes the outcome of each try as given.
- Threads.WaitFor: a wait without limits whose condition is never met does not end, so it has no result to speak of.
- Threads.GetAllReturnValues: nor does a join, without a watcher, of a thread that never ends.
- Dependencies: `_lookup_dict` has its two levels of keys in one; downloads themselves, and `PrefetchPaths`.
- LineStream: iteration time-outs, on which a late chunk is dropped, and exit statuses.
- Snippet.SnippetIsTheCommand: the reader knows the characters that the printers use and fails on others; whether the words are run as a command is `Snippet.SnippetIsRunIff`; `DoubleQuote` is left out.
- Manifest.ParseManifest: the regular expressions; lines are given as depth and kind.
- Lsusb.LsusbvOnDevice: likewise.
- UsbTree: descriptions, display, hubs and physical ports.
- UsbTree.BuildAgrees: listings in which one bus has two devices of one number, where the search depends on the order of a dictionary.
- UsbTree.GetBusNumberToDeviceTreeMap: likewise.
- Ports.PortFile.AllocateTestServerPort: white space and a sign, which `int` accepts around the number, and failures to open or lock the file.
- Percentile: rounding of floating-point numbers.
- Telemetry, tracing agents, option parsing, adb and fastboot plumbing, battery handling and HTML code are not modelled.
