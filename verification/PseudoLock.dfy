/**
  The pseudo lock that guards cloud-storage downloads, as a step system.

  Any number of calls of `Get` / `GetIfHashChanged` run at once, one `Pid` per call.
  Every system call of `_FileLock`, `_AttemptPseudoLockAcquisition`,
  `_AttemptPseudoLockRelease`, `_GetLocked` and `GetIfHashChanged` is one step, so every
  interleaving of those calls is a run of `Exec`.  Calls may be refused, may fail, may give
  up waiting, and may be killed between any two steps; a gsutil child that is at work then dies
  as well, or lives on with the descriptors that it has inherited.

  The kernel side is the POSIX one: a path names an inode, `flock` is held per open file
  description on an inode, closing or dying drops it, and an inode number may be reused
  as soon as no path names it and no description is open on it.
*/
module PseudoLock {
  import opened Wrappers

  type Pid = nat
  type Path = string
  type Inode = nat
  type TempName = nat
  type Blob = string

  /** One call: `want` is the `file_hash` of `GetIfHashChanged`, and `None` for `Get`. */
  datatype Request = Request(path: Path, source: string, want: Option<string>)

  datatype Verdict = Changed | UpToDate | Failed

  /** Where a call stands inside the body of the `with _FileLock` block. */
  datatype Stage =
    | Check
    | MakeTemp
    | Copying(temp: TempName, first: bool)
    | Downloaded(temp: TempName)
    | Cleanup(temp: TempName, moved: bool)

  datatype Pc =
    | Idle
    // The acquisition attempt; LockFile .. Refused hold the global lock.
    | AskGlobal(req: Request)
    | OpenFile(req: Request)
    | LockFile(req: Request, fd: Inode)
    | Acquired(req: Request, fd: Inode)
    | Refused(req: Request, spare: Option<Inode>)
    | CloseRefused(req: Request, spare: Option<Inode>)
    // The critical section.
    | Body(req: Request, fd: Inode, stage: Stage)
    // The release attempt; Unlock .. Removed hold the global lock.
    | AskRelease(req: Request, fd: Inode, verdict: Verdict)
    | Unlock(req: Request, fd: Inode, verdict: Verdict)
    | CloseFile(req: Request, fd: Inode, verdict: Verdict)
    | Remove(req: Request, fd: Inode, verdict: Verdict)
    | Removed(req: Request, verdict: Verdict)
    // The release gave up: the descriptor stays open, and locked, until it is collected.
    | Stuck(req: Request, fd: Inode)
    | Finished(verdict: Verdict)
    | Crashed
    // Killed while downloading: the gsutil child lives on with the descriptors it inherited.
    | Orphan(req: Request, fd: Inode, temp: TempName)

  datatype Temp = Temp(owner: Pid, data: Blob)

  /** What the kernel and the disk hold. */
  datatype Kernel = Kernel(
    names: map<Path, Inode>,     // the lock file of each download path, if it exists
    holder: map<Inode, Pid>,     // who holds the flock of an inode
    global: Option<Pid>,         // who holds the flock of cloud_storage_global_lock.py
    files: map<Path, Blob>,      // the downloaded files
    temps: map<TempName, Temp>)  // partial downloads

  datatype State = State(k: Kernel, pcs: map<Pid, Pc>)

  /** The remote bucket, the hash function, and whether the global lock is used at all. */
  datatype Env = Env(remote: map<string, Blob>, hash: Blob -> string, guarded: bool)

  datatype Event =
    | Begin(req: Request)
    | Proceed                    // the next system call, when it has one outcome
    | OpenExisting               // open(path, 'w') on an existing lock file
    | OpenCreate(inode: Inode)   // open(path, 'w') creating the lock file
    | IoError                    // the next system call raises IOError
    | MakeTempFile(temp: TempName)
    | CopyPart(data: Blob)       // gsutil has written this much so far
    | CopyOk
    | CopyServerError
    | CopyError
    | GiveUp                     // WaitFor raises TimeoutException
    | Collected                  // the leaked descriptor of a timed-out release is closed
    | Crash                      // killed, and so is a gsutil child
    | CrashAlone                 // killed; the gsutil child lives on
    | ChildExit

  function PcOf(s: State, p: Pid): Pc {
    if p in s.pcs then s.pcs[p] else Idle
  }

  /** The inode of the lock file on which a call has a descriptor open. */
  function OpenFd(pc: Pc): Option<Inode> {
    match pc
    case LockFile(_, fd) => Some(fd)
    case Acquired(_, fd) => Some(fd)
    case Refused(_, spare) => spare
    case CloseRefused(_, spare) => spare
    case Body(_, fd, _) => Some(fd)
    case AskRelease(_, fd, _) => Some(fd)
    case Unlock(_, fd, _) => Some(fd)
    case CloseFile(_, fd, _) => Some(fd)
    case Stuck(_, fd) => Some(fd)
    case Orphan(_, fd, _) => Some(fd)
    case _ => None
  }

  /** The call, or the child that it left, holds the pseudo lock of its path. */
  predicate Owns(pc: Pc) {
    pc.Acquired? || pc.Body? || pc.AskRelease? || pc.Unlock? || pc.Stuck? || pc.Orphan?
  }

  predicate HoldsGlobal(pc: Pc) {
    pc.OpenFile? || pc.LockFile? || pc.Acquired? || pc.Refused?
    || pc.Unlock? || pc.CloseFile? || pc.Remove? || pc.Removed?
  }

  /** The temporary file that a call has on disk. */
  function TempOf(pc: Pc): Option<TempName> {
    if pc.Orphan? then Some(pc.temp)
    else if !pc.Body? then None
    else match pc.stage
      case Copying(t, _) => Some(t)
      case Downloaded(t) => Some(t)
      case Cleanup(t, moved) => if moved then None else Some(t)
      case Check => None
      case MakeTemp => None
  }

  /** `i` is the number of no existing file: nothing names it and nobody has it open. */
  ghost predicate Unused(s: State, i: Inode) {
    && i !in s.k.names.Values && i !in s.k.holder
    && forall p: Pid :: OpenFd(PcOf(s, p)) != Some(i)
  }

  function DropFlock(k: Kernel, p: Pid): Kernel {
    k.(holder := map i | i in k.holder && k.holder[i] != p :: k.holder[i])
  }

  function DropGlobal(k: Kernel, p: Pid): Kernel {
    if k.global == Some(p) then k.(global := None) else k
  }

  function TakeGlobal(env: Env, k: Kernel, p: Pid): Kernel {
    if env.guarded then k.(global := Some(p)) else k
  }

  predicate UpToDateNow(env: Env, k: Kernel, req: Request) {
    req.want.Some? && req.path in k.files && env.hash(k.files[req.path]) == req.want.value
  }

  /** The effect of one step: the new kernel state and where the call stands then. */
  datatype Effect = Effect(k: Kernel, pc: Pc) | Impossible

  /** The acquisition attempt: cloud_storage.py lines 264-267 and 285-302. */
  function AcquireNext(env: Env, k: Kernel, pc: Pc, p: Pid, e: Event): Effect {
    match pc
    case AskGlobal(req) =>
      if e.Proceed? && k.global.None? then Effect(TakeGlobal(env, k, p), OpenFile(req))
      else if e.Proceed? || e.IoError? then Effect(k, CloseRefused(req, None))
      else if e.GiveUp? then Effect(k, Finished(Failed))
      else Impossible
    case OpenFile(req) =>
      if e.OpenExisting? && req.path in k.names then Effect(k, LockFile(req, k.names[req.path]))
      else if e.OpenCreate? && req.path !in k.names then
        Effect(k.(names := k.names[req.path := e.inode]), LockFile(req, e.inode))
      else if e.IoError? then Effect(k, Refused(req, None))
      else Impossible
    case LockFile(req, fd) =>
      if e.Proceed? && fd !in k.holder then
        Effect(k.(holder := k.holder[fd := p]), Acquired(req, fd))
      else if e.Proceed? || e.IoError? then Effect(k, Refused(req, Some(fd)))
      else Impossible
    case Acquired(req, fd) =>
      var stage := if req.want.Some? then Check else MakeTemp;
      if e.Proceed? then Effect(DropGlobal(k, p), Body(req, fd, stage)) else Impossible
    case Refused(req, spare) =>
      if e.Proceed? then Effect(DropGlobal(k, p), CloseRefused(req, spare)) else Impossible
    case CloseRefused(req, _) =>
      if e.Proceed? then Effect(k, AskGlobal(req)) else Impossible
    case _ => Impossible
  }

  /** The body of the critical section: cloud_storage.py lines 337-355 and 395-399. */
  function BodyNext(env: Env, k: Kernel, pc: Pc, p: Pid, e: Event): Effect
    requires pc.Body?
  {
    var Body(req, fd, stage) := pc;
    match stage
    case Check =>
      if !e.Proceed? then Impossible
      else if UpToDateNow(env, k, req) then Effect(k, AskRelease(req, fd, UpToDate))
      else Effect(k, Body(req, fd, MakeTemp))
    case MakeTemp =>
      if e.MakeTempFile? && e.temp !in k.temps then
        Effect(k.(temps := k.temps[e.temp := Temp(p, "")]), Body(req, fd, Copying(e.temp, true)))
      else if e.IoError? then Effect(k, AskRelease(req, fd, Failed))
      else Impossible
    case Copying(t, first) =>
      if e.CopyPart? then Effect(k.(temps := k.temps[t := Temp(p, e.data)]), pc)
      else if e.CopyOk? && req.source in env.remote then
        Effect(k.(temps := k.temps[t := Temp(p, env.remote[req.source])]), Body(req, fd, Downloaded(t)))
      else if e.CopyServerError? && first then Effect(k, Body(req, fd, Copying(t, false)))
      else if e.CopyServerError? || e.CopyError? then Effect(k, Body(req, fd, Cleanup(t, false)))
      else Impossible
    case Downloaded(t) =>
      if e.Proceed? && t in k.temps then
        Effect(k.(files := k.files[req.path := k.temps[t].data], temps := k.temps - {t}),
               Body(req, fd, Cleanup(t, true)))
      else if e.IoError? then Effect(k, Body(req, fd, Cleanup(t, false)))
      else Impossible
    case Cleanup(t, moved) =>
      // The `finally` clause: after a successful move the temporary file is gone already.
      if !e.Proceed? then Impossible
      else if moved then Effect(k, AskRelease(req, fd, Changed))
      else Effect(k.(temps := k.temps - {t}), AskRelease(req, fd, Failed))
  }

  /** The release attempt: cloud_storage.py lines 271-273 and 313-329. */
  function ReleaseNext(env: Env, k: Kernel, pc: Pc, p: Pid, e: Event): Effect {
    match pc
    case AskRelease(req, fd, v) =>
      if e.Proceed? && k.global.None? then Effect(TakeGlobal(env, k, p), Unlock(req, fd, v))
      else if e.Proceed? || e.IoError? then Effect(k, pc)
      else if e.GiveUp? then Effect(k, Stuck(req, fd))
      else Impossible
    case Unlock(req, fd, v) =>
      if e.Proceed? then Effect(k.(holder := k.holder - {fd}), CloseFile(req, fd, v)) else Impossible
    case CloseFile(req, fd, v) =>
      if e.Proceed? then Effect(k, Remove(req, fd, v)) else Impossible
    case Remove(req, fd, v) =>
      if e.Proceed? then Effect(k.(names := k.names - {req.path}), Removed(req, v)) else Impossible
    case Removed(req, v) =>
      if e.Proceed? then Effect(DropGlobal(k, p), Finished(v)) else Impossible
    case Stuck(req, fd) =>
      if e.Collected? then Effect(DropFlock(k, p), Finished(Failed)) else Impossible
    case _ => Impossible
  }

  predicate Acquiring(pc: Pc) {
    pc.AskGlobal? || pc.OpenFile? || pc.LockFile? || pc.Acquired? || pc.Refused? || pc.CloseRefused?
  }

  /** The child that a killed call has left: it goes on writing its temporary file, and ends. */
  function OrphanNext(k: Kernel, pc: Pc, p: Pid, e: Event): Effect
    requires pc.Orphan?
  {
    if e.CopyPart? then Effect(k.(temps := k.temps[pc.temp := Temp(p, e.data)]), pc)
    else if e.ChildExit? then Effect(DropFlock(k, p), Crashed)
    else Impossible
  }

  function StepOf(env: Env, k: Kernel, pc: Pc, p: Pid, e: Event): Effect {
    if pc.Idle? then if e.Begin? then Effect(k, AskGlobal(e.req)) else Impossible
    else if pc.Finished? || pc.Crashed? then Impossible
    else if e.Crash? then Effect(DropGlobal(DropFlock(k, p), p), Crashed)
    else if e.CrashAlone? then
      if pc.Body? && pc.stage.Copying? then Effect(k, Orphan(pc.req, pc.fd, pc.stage.temp)) else Impossible
    else if pc.Body? then BodyNext(env, k, pc, p, e)
    else if pc.Orphan? then OrphanNext(k, pc, p, e)
    else if Acquiring(pc) then AcquireNext(env, k, pc, p, e)
    else ReleaseNext(env, k, pc, p, e)
  }

  /** One step of call `p`; `None` when `e` cannot happen next. */
  ghost function Next(env: Env, s: State, p: Pid, e: Event): Option<State> {
    if e.OpenCreate? && !Unused(s, e.inode) then None
    else
      match StepOf(env, s.k, PcOf(s, p), p, e)
      case Impossible => None
      case Effect(k, pc) => Some(State(k, s.pcs[p := pc]))
  }

  datatype Label = Label(pid: Pid, event: Event)

  /** The state at the end of a run, if every label of it can happen in turn. */
  ghost function Exec(env: Env, s: State, run: seq<Label>): Option<State> {
    if run == [] then Some(s)
    else
      var last := run[|run| - 1];
      match Exec(env, s, run[..|run| - 1])
      case None => None
      case Some(t) => Next(env, t, last.pid, last.event)
  }

  /** Before any call: the disk may hold stale lock files and earlier downloads. */
  ghost predicate Initial(s: State) {
    && s.pcs == map[] && s.k.holder == map[] && s.k.global.None? && s.k.temps == map[]
    && Injective(s.k.names)
  }

  ghost predicate Injective(names: map<Path, Inode>) {
    forall a, b :: a in names && b in names && names[a] == names[b] ==> a == b
  }

  // ---------------------------------------------------------------------------------
  // The invariant
  // ---------------------------------------------------------------------------------

  ghost predicate LockInv(s: State) {
    && Injective(s.k.names)
    && (forall p: Pid :: PcInv(s.k, p, PcOf(s, p)))
    && (forall i: Inode :: HolderInv(s, i))
  }

  /** Who owns the pseudo lock holds the flock of the very inode its path names. */
  ghost predicate PcInv(k: Kernel, p: Pid, pc: Pc) {
    && (HoldsGlobal(pc) <==> k.global == Some(p))
    && (Owns(pc) ==> && pc.req.path in k.names && k.names[pc.req.path] == pc.fd
                     && pc.fd in k.holder && k.holder[pc.fd] == p)
    && (pc.LockFile? ==> pc.req.path in k.names && k.names[pc.req.path] == pc.fd)
    && (pc.CloseFile? || pc.Remove? ==>
          pc.req.path in k.names && k.names[pc.req.path] == pc.fd && pc.fd !in k.holder)
  }

  ghost predicate HolderInv(s: State, i: Inode) {
    i in s.k.holder ==> var pc := PcOf(s, s.k.holder[i]); Owns(pc) && OpenFd(pc) == Some(i)
  }

  /** A finished body has left the file it promised. */
  ghost predicate Delivered(env: Env, k: Kernel, req: Request, v: Verdict) {
    match v
    case Failed => true
    case UpToDate => UpToDateNow(env, k, req)
    case Changed =>
      && req.source in env.remote
      && req.path in k.files && k.files[req.path] == env.remote[req.source]
  }

  ghost predicate DataInv(env: Env, s: State) {
    && (forall t: TempName :: TempInv(s, t))
    && (forall p: Pid :: PcDataInv(env, s.k, p, PcOf(s, p)))
  }

  /** Only a running call that has not finished with it, or a killed one, leaves a temporary file. */
  ghost predicate TempInv(s: State, t: TempName) {
    t in s.k.temps ==>
      var pc := PcOf(s, s.k.temps[t].owner); TempOf(pc) == Some(t) || pc.Crashed?
  }

  ghost predicate PcDataInv(env: Env, k: Kernel, p: Pid, pc: Pc) {
    && (TempOf(pc).Some? ==> TempOf(pc).value in k.temps && k.temps[TempOf(pc).value].owner == p)
    && (pc.Body? && pc.stage.Downloaded? ==>
          && pc.req.source in env.remote
          && k.temps[pc.stage.temp].data == env.remote[pc.req.source])
    && (pc.Body? && pc.stage.Cleanup? && pc.stage.moved ==> Delivered(env, k, pc.req, Changed))
    && (pc.AskRelease? || pc.Unlock? ==> Delivered(env, k, pc.req, pc.verdict))
  }

  ghost predicate Inv(env: Env, s: State) {
    LockInv(s) && DataInv(env, s)
  }

  lemma InitialInv(env: Env, s: State)
    requires Initial(s)
    ensures Inv(env, s)
  {
  }

  /** A step that leaves lock files and flocks as they are. */
  ghost predicate Quiet(k: Kernel, pc: Pc, k': Kernel, pc': Pc, p: Pid) {
    && k'.names == k.names && k'.holder == k.holder
    && (k'.global == k.global || ((k'.global == None || k'.global == Some(p))
                                  && (k.global == None || k.global == Some(p))))
    && PcInv(k', p, pc')
    && (Owns(pc) ==> Owns(pc') && OpenFd(pc') == OpenFd(pc))
  }

  lemma QuietKeepsLocks(s: State, p: Pid, k': Kernel, pc': Pc)
    requires LockInv(s) && Quiet(s.k, PcOf(s, p), k', pc', p)
    ensures LockInv(State(k', s.pcs[p := pc']))
  {
    var t := State(k', s.pcs[p := pc']);
    forall q: Pid ensures PcInv(t.k, q, PcOf(t, q)) {
      assert PcInv(s.k, q, PcOf(s, q));
    }
    forall i: Inode ensures HolderInv(t, i) {
      assert HolderInv(s, i);
    }
  }

  lemma BodyIsQuiet(env: Env, k: Kernel, pc: Pc, p: Pid, e: Event)
    requires PcInv(k, p, pc) && pc.Body? && BodyNext(env, k, pc, p, e).Effect?
    ensures var f := BodyNext(env, k, pc, p, e); Quiet(k, pc, f.k, f.pc, p)
  {
  }

  lemma AcquireIsQuiet(env: Env, k: Kernel, pc: Pc, p: Pid, e: Event)
    requires env.guarded && PcInv(k, p, pc) && AcquireNext(env, k, pc, p, e).Effect?
    requires !(pc.OpenFile? && e.OpenCreate?)
    requires pc.LockFile? && e.Proceed? ==> pc.fd in k.holder
    ensures var f := AcquireNext(env, k, pc, p, e); Quiet(k, pc, f.k, f.pc, p)
  {
  }

  lemma ReleaseIsQuiet(env: Env, k: Kernel, pc: Pc, p: Pid, e: Event)
    requires env.guarded && PcInv(k, p, pc) && ReleaseNext(env, k, pc, p, e).Effect?
    requires !pc.Unlock? && !pc.Remove? && !pc.Stuck?
    ensures var f := ReleaseNext(env, k, pc, p, e); Quiet(k, pc, f.k, f.pc, p)
  {
  }

  lemma CreateKeepsLocks(s: State, p: Pid, req: Request, i: Inode)
    requires LockInv(s) && PcOf(s, p).OpenFile? && req.path !in s.k.names && Unused(s, i)
    ensures LockInv(State(s.k.(names := s.k.names[req.path := i]), s.pcs[p := LockFile(req, i)]))
  {
    var t := State(s.k.(names := s.k.names[req.path := i]), s.pcs[p := LockFile(req, i)]);
    assert PcInv(s.k, p, PcOf(s, p));
    forall q: Pid ensures PcInv(t.k, q, PcOf(t, q)) {
      assert PcInv(s.k, q, PcOf(s, q));
    }
    forall j: Inode ensures HolderInv(t, j) {
      assert HolderInv(s, j);
    }
  }

  lemma FlockKeepsLocks(s: State, p: Pid, req: Request, i: Inode)
    requires LockInv(s) && PcOf(s, p) == LockFile(req, i) && i !in s.k.holder
    ensures LockInv(State(s.k.(holder := s.k.holder[i := p]), s.pcs[p := Acquired(req, i)]))
  {
    var t := State(s.k.(holder := s.k.holder[i := p]), s.pcs[p := Acquired(req, i)]);
    assert PcInv(s.k, p, PcOf(s, p));
    forall q: Pid ensures PcInv(t.k, q, PcOf(t, q)) {
      assert PcInv(s.k, q, PcOf(s, q));
    }
    forall j: Inode ensures HolderInv(t, j) {
      assert HolderInv(s, j);
    }
  }

  lemma UnlockKeepsLocks(s: State, p: Pid, req: Request, i: Inode, v: Verdict)
    requires LockInv(s) && PcOf(s, p) == Unlock(req, i, v)
    ensures LockInv(State(s.k.(holder := s.k.holder - {i}), s.pcs[p := CloseFile(req, i, v)]))
  {
    var t := State(s.k.(holder := s.k.holder - {i}), s.pcs[p := CloseFile(req, i, v)]);
    assert PcInv(s.k, p, PcOf(s, p));
    forall q: Pid ensures PcInv(t.k, q, PcOf(t, q)) {
      assert PcInv(s.k, q, PcOf(s, q));
    }
    forall j: Inode ensures HolderInv(t, j) {
      assert HolderInv(s, j);
    }
  }

  lemma RemoveKeepsLocks(s: State, p: Pid, req: Request, i: Inode, v: Verdict)
    requires LockInv(s) && PcOf(s, p) == Remove(req, i, v)
    ensures LockInv(State(s.k.(names := s.k.names - {req.path}), s.pcs[p := Removed(req, v)]))
  {
    var t := State(s.k.(names := s.k.names - {req.path}), s.pcs[p := Removed(req, v)]);
    assert PcInv(s.k, p, PcOf(s, p));
    forall q: Pid ensures PcInv(t.k, q, PcOf(t, q)) {
      assert PcInv(s.k, q, PcOf(s, q));
    }
    forall j: Inode ensures HolderInv(t, j) {
      assert HolderInv(s, j);
    }
  }

  /** Dying, or closing a leaked descriptor, drops the flock and leaves the file behind. */
  lemma DropKeepsLocks(s: State, p: Pid, pc: Pc)
    requires LockInv(s) && (pc.Crashed? || pc.Finished?)
    ensures LockInv(State(DropGlobal(DropFlock(s.k, p), p), s.pcs[p := pc]))
  {
    var t := State(DropGlobal(DropFlock(s.k, p), p), s.pcs[p := pc]);
    assert PcInv(s.k, p, PcOf(s, p));
    forall q: Pid ensures PcInv(t.k, q, PcOf(t, q)) {
      assert PcInv(s.k, q, PcOf(s, q));
    }
    forall j: Inode ensures HolderInv(t, j) {
      assert HolderInv(s, j);
    }
  }

  lemma LockStep(env: Env, s: State, p: Pid, e: Event)
    requires env.guarded && LockInv(s) && Next(env, s, p, e).Some?
    ensures LockInv(Next(env, s, p, e).value)
  {
    var pc := PcOf(s, p);
    var f := StepOf(env, s.k, pc, p, e);
    assert PcInv(s.k, p, pc);
    if pc.Idle? {
      QuietKeepsLocks(s, p, f.k, f.pc);
    } else if e.Crash? {
      DropKeepsLocks(s, p, Crashed);
    } else if pc.Stuck? {
      DropKeepsLocks(s, p, Finished(Failed));
    } else if pc.Orphan? && e.ChildExit? {
      DropKeepsLocks(s, p, Crashed);
    } else if pc.Unlock? {
      UnlockKeepsLocks(s, p, pc.req, pc.fd, pc.verdict);
    } else if pc.Remove? {
      RemoveKeepsLocks(s, p, pc.req, pc.fd, pc.verdict);
    } else if pc.OpenFile? && e.OpenCreate? {
      CreateKeepsLocks(s, p, pc.req, e.inode);
    } else if pc.LockFile? && e.Proceed? && pc.fd !in s.k.holder {
      FlockKeepsLocks(s, p, pc.req, pc.fd);
    } else {
      if e.CrashAlone? || pc.Orphan? {
        assert Quiet(s.k, pc, f.k, f.pc, p);
      } else if pc.Body? {
        BodyIsQuiet(env, s.k, pc, p, e);
      } else if Acquiring(pc) {
        AcquireIsQuiet(env, s.k, pc, p, e);
      } else {
        ReleaseIsQuiet(env, s.k, pc, p, e);
      }
      QuietKeepsLocks(s, p, f.k, f.pc);
    }
  }

  /** Two calls that own the pseudo lock of one path are the same call. */
  lemma SoleOwner(s: State, p: Pid, q: Pid)
    requires LockInv(s) && Owns(PcOf(s, p)) && Owns(PcOf(s, q))
    requires PcOf(s, p).req.path == PcOf(s, q).req.path
    ensures p == q
  {
    assert PcInv(s.k, p, PcOf(s, p)) && PcInv(s.k, q, PcOf(s, q));
  }

  /** How a step of `p` changes files and temporary files: only its own. */
  ghost predicate Tidy(k: Kernel, pc: Pc, k': Kernel, pc': Pc) {
    && (forall t :: t in k'.temps && Some(t) != TempOf(pc') ==> t in k.temps && k'.temps[t] == k.temps[t])
    && (forall t :: t in k.temps && Some(t) != TempOf(pc) ==> t in k'.temps && k'.temps[t] == k.temps[t])
    && (TempOf(pc).Some? && TempOf(pc).value in k'.temps ==> TempOf(pc') == TempOf(pc) || pc'.Crashed?)
    && (TempOf(pc').Some? && TempOf(pc') != TempOf(pc) ==> TempOf(pc').value !in k.temps)
    && (k'.files == k.files || (Owns(pc) && FilesDifferAt(k.files, k'.files, pc.req.path)))
  }

  ghost predicate FilesDifferAt(files: map<Path, Blob>, files': map<Path, Blob>, path: Path) {
    path in files' && files' == files[path := files'[path]]
  }

  lemma TidyKeepsTemps(s: State, p: Pid, t: State)
    requires t.pcs == s.pcs[p := PcOf(t, p)]
    requires Tidy(s.k, PcOf(s, p), t.k, PcOf(t, p)) && !PcOf(s, p).Crashed?
    requires forall u: TempName :: TempInv(s, u)
    requires var mine := TempOf(PcOf(t, p)); mine.Some? && mine.value in t.k.temps ==> t.k.temps[mine.value].owner == p
    ensures forall u: TempName :: TempInv(t, u)
  {
    forall u: TempName ensures TempInv(t, u) {
      assert TempInv(s, u);
    }
  }

  lemma TidyKeepsOthers(env: Env, s: State, p: Pid, k': Kernel, pc': Pc, q: Pid)
    requires Inv(env, s) && Tidy(s.k, PcOf(s, p), k', pc') && q != p
    ensures PcDataInv(env, k', q, PcOf(s, q))
  {
    var pc := PcOf(s, q);
    assert PcDataInv(env, s.k, q, pc) && PcDataInv(env, s.k, p, PcOf(s, p));
    if Owns(pc) && Owns(PcOf(s, p)) && pc.req.path == PcOf(s, p).req.path {
      SoleOwner(s, p, q);
    }
  }

  lemma TidyKeepsData(env: Env, s: State, p: Pid, k': Kernel, pc': Pc)
    requires Inv(env, s) && Tidy(s.k, PcOf(s, p), k', pc') && PcDataInv(env, k', p, pc')
    requires !PcOf(s, p).Crashed?
    ensures DataInv(env, State(k', s.pcs[p := pc']))
  {
    var t := State(k', s.pcs[p := pc']);
    TidyKeepsTemps(s, p, t);
    forall q: Pid ensures PcDataInv(env, k', q, PcOf(t, q)) {
      if q != p {
        TidyKeepsOthers(env, s, p, k', pc', q);
      }
    }
  }

  lemma BodyIsTidy(env: Env, k: Kernel, pc: Pc, p: Pid, e: Event)
    requires pc.Body? && BodyNext(env, k, pc, p, e).Effect? && PcDataInv(env, k, p, pc)
    ensures var f := BodyNext(env, k, pc, p, e); Tidy(k, pc, f.k, f.pc) && PcDataInv(env, f.k, p, f.pc)
  {
    BodyKeepsData(env, k, pc, p, e);
    hide PcDataInv;
    TempIsThere(env, k, pc, p);
  }

  lemma BodyKeepsData(env: Env, k: Kernel, pc: Pc, p: Pid, e: Event)
    requires pc.Body? && BodyNext(env, k, pc, p, e).Effect? && PcDataInv(env, k, p, pc)
    ensures var f := BodyNext(env, k, pc, p, e); PcDataInv(env, f.k, p, f.pc)
  {
  }

  lemma TempIsThere(env: Env, k: Kernel, pc: Pc, p: Pid)
    requires PcDataInv(env, k, p, pc)
    ensures TempOf(pc).Some? ==> TempOf(pc).value in k.temps && k.temps[TempOf(pc).value].owner == p
  {
  }

  lemma AcquireIsTidy(env: Env, k: Kernel, pc: Pc, p: Pid, e: Event)
    requires AcquireNext(env, k, pc, p, e).Effect?
    ensures var f := AcquireNext(env, k, pc, p, e); Tidy(k, pc, f.k, f.pc) && PcDataInv(env, f.k, p, f.pc)
  {
    AcquireSavesNothing(env, k, pc, p, e);
    hide AcquireNext;
  }

  lemma AcquireSavesNothing(env: Env, k: Kernel, pc: Pc, p: Pid, e: Event)
    requires AcquireNext(env, k, pc, p, e).Effect?
    ensures
      var f := AcquireNext(env, k, pc, p, e);
      && f.k.files == k.files && f.k.temps == k.temps && TempOf(pc).None? && TempOf(f.pc).None?
      && !f.pc.AskRelease? && !f.pc.Unlock?
      && (f.pc.Body? ==> !f.pc.stage.Downloaded? && !f.pc.stage.Cleanup?)
  {
  }

  lemma ReleaseIsTidy(env: Env, k: Kernel, pc: Pc, p: Pid, e: Event)
    requires ReleaseNext(env, k, pc, p, e).Effect? && PcDataInv(env, k, p, pc)
    ensures var f := ReleaseNext(env, k, pc, p, e); Tidy(k, pc, f.k, f.pc) && PcDataInv(env, f.k, p, f.pc)
  {
  }

  lemma StepIsTidy(env: Env, k: Kernel, pc: Pc, p: Pid, e: Event)
    requires StepOf(env, k, pc, p, e).Effect? && PcDataInv(env, k, p, pc)
    ensures var f := StepOf(env, k, pc, p, e); Tidy(k, pc, f.k, f.pc) && PcDataInv(env, f.k, p, f.pc)
  {
    if !pc.Idle? && !e.Crash? && !e.CrashAlone? && !pc.Orphan? {
      if pc.Body? {
        BodyIsTidy(env, k, pc, p, e);
      } else if Acquiring(pc) {
        AcquireIsTidy(env, k, pc, p, e);
      } else {
        ReleaseIsTidy(env, k, pc, p, e);
      }
    }
  }

  lemma Step(env: Env, s: State, p: Pid, e: Event)
    requires env.guarded && Inv(env, s) && Next(env, s, p, e).Some?
    ensures Inv(env, Next(env, s, p, e).value)
  {
    LockStep(env, s, p, e);
    var pc := PcOf(s, p);
    var f := StepOf(env, s.k, pc, p, e);
    assert PcDataInv(env, s.k, p, pc);
    StepIsTidy(env, s.k, pc, p, e);
    TidyKeepsData(env, s, p, f.k, f.pc);
  }

  lemma {:induction false} RunKeepsInv(env: Env, s: State, run: seq<Label>)
    requires env.guarded && Inv(env, s) && Exec(env, s, run).Some?
    ensures Inv(env, Exec(env, s, run).value)
  {
    if run != [] {
      var before := run[..|run| - 1];
      var last := run[|run| - 1];
      RunKeepsInv(env, s, before);
      Step(env, Exec(env, s, before).value, last.pid, last.event);
    }
  }

  // ---------------------------------------------------------------------------------
  // Safety over whole runs
  // ---------------------------------------------------------------------------------

  ghost predicate Reachable(env: Env, s: State) {
    exists init, run :: Initial(init) && Exec(env, init, run) == Some(s)
  }

  lemma ReachableInv(env: Env, s: State)
    requires env.guarded && Reachable(env, s)
    ensures Inv(env, s)
  {
    var init, run :| Initial(init) && Exec(env, init, run) == Some(s);
    InitialInv(env, init);
    RunKeepsInv(env, init, run);
  }

  /**
    Mutual exclusion: in every reachable state of every interleaving, at most one call owns
    the pseudo lock of a path, and it holds the flock of the inode that the path names now.
   */
  lemma MutualExclusion(env: Env, s: State, p: Pid, q: Pid)
    requires env.guarded && Reachable(env, s)
    requires Owns(PcOf(s, p)) && Owns(PcOf(s, q)) && PcOf(s, p).req.path == PcOf(s, q).req.path
    ensures p == q
    ensures
      var path := PcOf(s, p).req.path;
      && path in s.k.names && OpenFd(PcOf(s, p)) == Some(s.k.names[path])
      && s.k.names[path] in s.k.holder && s.k.holder[s.k.names[path]] == p
  {
    ReachableInv(env, s);
    SoleOwner(s, p, q);
    assert PcInv(s.k, p, PcOf(s, p));
  }

  /**
    The removal of line 320 deletes the file the call itself created or opened, at a moment
    when nobody holds a flock on it.
   */
  lemma RemovesOwnFile(env: Env, s: State, p: Pid)
    requires env.guarded && Reachable(env, s) && PcOf(s, p).Remove?
    ensures
      var pc := PcOf(s, p);
      && pc.req.path in s.k.names && s.k.names[pc.req.path] == pc.fd && pc.fd !in s.k.holder
      && forall q: Pid :: Owns(PcOf(s, q)) ==> PcOf(s, q).req.path != pc.req.path
  {
    ReachableInv(env, s);
    assert PcInv(s.k, p, PcOf(s, p));
    forall q: Pid | Owns(PcOf(s, q)) ensures PcOf(s, q).req.path != PcOf(s, p).req.path {
      assert PcInv(s.k, q, PcOf(s, q));
    }
  }

  /**
    The file at a download path is replaced only by a call that owns its pseudo lock, in one
    step, and by the complete remote object that the call asked for.
   */
  lemma AtomicReplacement(env: Env, s: State, p: Pid, e: Event, path: Path)
    requires env.guarded && Reachable(env, s) && Next(env, s, p, e).Some?
    requires
      var t := Next(env, s, p, e).value;
      (path in t.k.files) != (path in s.k.files) || (path in s.k.files && t.k.files[path] != s.k.files[path])
    ensures
      var t := Next(env, s, p, e).value; var pc := PcOf(s, p);
      && Owns(pc) && pc.req.path == path
      && pc.req.source in env.remote
      && path in t.k.files && t.k.files[path] == env.remote[pc.req.source]
  {
    ReachableInv(env, s);
    assert PcDataInv(env, s.k, p, PcOf(s, p));
    StepIsTidy(env, s.k, PcOf(s, p), p, e);
    OnlyMoveWrites(env, s.k, PcOf(s, p), p, e);
  }

  lemma OnlyMoveWrites(env: Env, k: Kernel, pc: Pc, p: Pid, e: Event)
    requires StepOf(env, k, pc, p, e).Effect? && StepOf(env, k, pc, p, e).k.files != k.files
    ensures pc.Body? && pc.stage.Downloaded? && e.Proceed?
  {
    if Acquiring(pc) && !e.Crash? && !e.CrashAlone? {
      AcquireIsTidy(env, k, pc, p, e);
    }
  }

  /** Some call of the run asked for `source` at `path`. */
  ghost predicate Requested(run: seq<Label>, path: Path, source: string) {
    exists i :: 0 <= i < |run| && run[i].event.Begin?
      && run[i].event.req.path == path && run[i].event.req.source == source
  }

  /** The request of a started call is one that the run began. */
  predicate HasRequest(pc: Pc) {
    !pc.Idle? && !pc.Finished? && !pc.Crashed?
  }

  lemma StepKeepsRequest(env: Env, k: Kernel, pc: Pc, p: Pid, e: Event)
    requires StepOf(env, k, pc, p, e).Effect? && HasRequest(StepOf(env, k, pc, p, e).pc)
    ensures
      var pc' := StepOf(env, k, pc, p, e).pc;
      if pc.Idle? then e == Begin(pc'.req) else HasRequest(pc) && pc'.req == pc.req
  {
  }

  lemma {:induction false} RequestsComeFromRun(env: Env, init: State, run: seq<Label>, p: Pid)
    requires Initial(init) && Exec(env, init, run).Some?
    requires HasRequest(PcOf(Exec(env, init, run).value, p))
    ensures var req := PcOf(Exec(env, init, run).value, p).req; Requested(run, req.path, req.source)
  {
    if run != [] {
      var before, last := run[..|run| - 1], run[|run| - 1];
      var s := Exec(env, init, before).value;
      var pc := PcOf(s, p);
      if last.pid == p {
        StepKeepsRequest(env, s.k, pc, p, last.event);
        if pc.Idle? {
          assert run[|run| - 1] == last;
          return;
        }
      }
      RequestsComeFromRun(env, init, before, p);
      var i :| 0 <= i < |before| && before[i].event.Begin?
        && before[i].event.req.path == pc.req.path && before[i].event.req.source == pc.req.source;
      assert run[i] == before[i];
    }
  }

  /**
    Download atomicity over whole runs, with failing, retried and killed downloads: what is
    at a path is what was there before the run, or a complete remote object requested for it.
   */
  lemma {:induction false} DownloadAtomicity(env: Env, init: State, run: seq<Label>, path: Path)
    requires env.guarded && Initial(init) && Exec(env, init, run).Some?
    ensures
      var files := Exec(env, init, run).value.k.files;
      || (path in files && exists source :: Requested(run, path, source)
                             && source in env.remote && files[path] == env.remote[source])
      || (path in files && path in init.k.files && files[path] == init.k.files[path])
      || (path !in files && path !in init.k.files)
  {
    if run != [] {
      var before, last := run[..|run| - 1], run[|run| - 1];
      var s := Exec(env, init, before).value;
      var t := Exec(env, init, run).value;
      DownloadAtomicity(env, init, before, path);
      if (path in t.k.files) != (path in s.k.files) || (path in s.k.files && t.k.files[path] != s.k.files[path]) {
        AtomicReplacement(env, s, last.pid, last.event, path);
        RequestsComeFromRun(env, init, before, last.pid);
        RequestedGrows(before, last, path, PcOf(s, last.pid).req.source);
      } else if path in s.k.files && !(path in init.k.files && s.k.files[path] == init.k.files[path]) {
        var source :| Requested(before, path, source) && source in env.remote && s.k.files[path] == env.remote[source];
        RequestedGrows(before, last, path, source);
      }
    }
  }

  lemma RequestedGrows(before: seq<Label>, last: Label, path: Path, source: string)
    requires Requested(before, path, source)
    ensures Requested(before + [last], path, source)
  {
    var run := before + [last];
    var i :| 0 <= i < |before| && before[i].event.Begin?
      && before[i].event.req.path == path && before[i].event.req.source == source;
    assert run[i] == before[i];
  }

  /**
    When `GetIfHashChanged` releases the lock without having failed, the local file has the
    requested hash, provided the remote object has it; and when it returns False the file
    already had it.
   */
  lemma ReleasesWithRequestedHash(env: Env, s: State, p: Pid)
    requires env.guarded && Reachable(env, s) && PcOf(s, p).Unlock? && !PcOf(s, p).verdict.Failed?
    requires PcOf(s, p).req.want.Some?
    ensures
      var req := PcOf(s, p).req;
      && req.path in s.k.files
      && ((req.source in env.remote ==> env.hash(env.remote[req.source]) == req.want.value)
          ==> env.hash(s.k.files[req.path]) == req.want.value)
      && (PcOf(s, p).verdict.UpToDate? ==> env.hash(s.k.files[req.path]) == req.want.value)
  {
    ReachableInv(env, s);
    assert PcDataInv(env, s.k, p, PcOf(s, p));
  }

  /** No temporary file survives a call that completed, however it completed. */
  lemma NoTempSurvives(env: Env, s: State, t: TempName)
    requires env.guarded && Reachable(env, s) && t in s.k.temps
    ensures var pc := PcOf(s, s.k.temps[t].owner); TempOf(pc) == Some(t) || pc.Crashed?
    ensures !PcOf(s, s.k.temps[t].owner).Finished?
  {
    ReachableInv(env, s);
    assert TempInv(s, t);
  }

  /** An attempt that does not end in ownership changes no ownership and removes no file. */
  lemma RefusalsChangeNoLock(env: Env, s: State, p: Pid, e: Event)
    requires env.guarded && Reachable(env, s) && Next(env, s, p, e).Some?
    requires Acquiring(PcOf(s, p)) && !Owns(PcOf(s, p)) && !Owns(PcOf(Next(env, s, p, e).value, p))
    ensures
      var t := Next(env, s, p, e).value;
      && t.k.holder == s.k.holder
      && forall path :: path in s.k.names ==> path in t.k.names && t.k.names[path] == s.k.names[path]
  {
    ReachableInv(env, s);
    if e.Crash? {
      forall i | i in s.k.holder ensures s.k.holder[i] != p {
        assert HolderInv(s, i);
      }
    } else {
      RefusalEffect(env, s.k, PcOf(s, p), p, e);
    }
  }

  /** What was open stays open until it is closed, and what is opened is the lock file of the path. */
  ghost predicate KeepsFd(before: Pc, after: Pc, k: Kernel) {
    && (OpenFd(before).Some? && OpenFd(after) != OpenFd(before) ==>
          before.CloseRefused? || before.CloseFile? || after.Finished? || after.Crashed?)
    && (OpenFd(before).None? && OpenFd(after).Some? ==>
          after.req.path in k.names && OpenFd(after) == Some(k.names[after.req.path]))
  }

  lemma AcquireKeepsFd(env: Env, k: Kernel, pc: Pc, p: Pid, e: Event)
    requires AcquireNext(env, k, pc, p, e).Effect?
    ensures KeepsFd(pc, AcquireNext(env, k, pc, p, e).pc, AcquireNext(env, k, pc, p, e).k)
  {
  }

  lemma BodyKeepsFd(env: Env, k: Kernel, pc: Pc, p: Pid, e: Event)
    requires pc.Body? && BodyNext(env, k, pc, p, e).Effect?
    ensures KeepsFd(pc, BodyNext(env, k, pc, p, e).pc, BodyNext(env, k, pc, p, e).k)
  {
  }

  lemma ReleaseKeepsFd(env: Env, k: Kernel, pc: Pc, p: Pid, e: Event)
    requires ReleaseNext(env, k, pc, p, e).Effect?
    ensures KeepsFd(pc, ReleaseNext(env, k, pc, p, e).pc, ReleaseNext(env, k, pc, p, e).k)
  {
  }

  /**
    No descriptor leaks: a call keeps the lock file open until it closes it, after a refused attempt
    or in a release, or until it ends.  What it opens is the lock file of its own path.
   */
  lemma DescriptorsAreClosed(env: Env, s: State, p: Pid, e: Event)
    requires Next(env, s, p, e).Some?
    ensures KeepsFd(PcOf(s, p), PcOf(Next(env, s, p, e).value, p), Next(env, s, p, e).value.k)
  {
    hide AcquireNext, BodyNext, ReleaseNext, KeepsFd;
    var pc := PcOf(s, p);
    if pc.Body? && BodyNext(env, s.k, pc, p, e).Effect? {
      BodyKeepsFd(env, s.k, pc, p, e);
    }
    if AcquireNext(env, s.k, pc, p, e).Effect? {
      AcquireKeepsFd(env, s.k, pc, p, e);
    }
    if ReleaseNext(env, s.k, pc, p, e).Effect? {
      ReleaseKeepsFd(env, s.k, pc, p, e);
    }
    if pc.Idle? || pc.Orphan? || e.Crash? || e.CrashAlone? {
      OthersKeepFd(env, s.k, pc, p, e);
    }
  }

  lemma OthersKeepFd(env: Env, k: Kernel, pc: Pc, p: Pid, e: Event)
    requires StepOf(env, k, pc, p, e).Effect?
    requires pc.Idle? || pc.Orphan? || e.Crash? || e.CrashAlone?
    ensures KeepsFd(pc, StepOf(env, k, pc, p, e).pc, StepOf(env, k, pc, p, e).k)
  {
  }

  lemma RefusalEffect(env: Env, k: Kernel, pc: Pc, p: Pid, e: Event)
    requires AcquireNext(env, k, pc, p, e).Effect? && !Owns(pc) && !Owns(AcquireNext(env, k, pc, p, e).pc)
    ensures
      var k' := AcquireNext(env, k, pc, p, e).k;
      && k'.holder == k.holder
      && forall path :: path in k.names ==> path in k'.names && k'.names[path] == k.names[path]
  {
  }

  // ---------------------------------------------------------------------------------
  // Progress
  // ---------------------------------------------------------------------------------

  /** How many steps a call still takes before it lets go of the global lock. */
  function HoldDistance(pc: Pc): nat {
    match pc
    case OpenFile(_) => 3
    case LockFile(_, _) => 2
    case Acquired(_, _) => 1
    case Refused(_, _) => 1
    case Unlock(_, _, _) => 4
    case CloseFile(_, _, _) => 3
    case Remove(_, _, _) => 2
    case Removed(_, _) => 1
    case _ => 0
  }

  lemma EffectDistance(env: Env, k: Kernel, pc: Pc, p: Pid, e: Event)
    requires env.guarded && StepOf(env, k, pc, p, e).Effect? && HoldsGlobal(pc)
    ensures HoldDistance(StepOf(env, k, pc, p, e).pc) < HoldDistance(pc)
  {
  }

  /**
    No hold-and-wait: whoever holds the global lock lets go of it within four steps of its
    own, whatever those steps turn out to be, and no step of another call delays it.
   */
  lemma GlobalLockDrains(env: Env, s: State, p: Pid, q: Pid, e: Event)
    requires env.guarded && Reachable(env, s) && s.k.global == Some(p) && Next(env, s, q, e).Some?
    ensures
      var t := Next(env, s, q, e).value; var d, d' := HoldDistance(PcOf(s, p)), HoldDistance(PcOf(t, p));
      && 1 <= d <= 4
      && (if q == p then d' < d && (t.k.global == Some(p) <==> d' != 0) && (d' == 0 ==> t.k.global.None?)
          else d' == d && t.k.global == Some(p))
  {
    hide StepOf, PcInv, DataInv, HolderInv, Injective;
    ReachableInv(env, s);
    Step(env, s, q, e);
    var t := Next(env, s, q, e).value;
    GlobalHolder(s, p);
    GlobalHolder(t, p);
    if q == p {
      EffectDistance(env, s.k, PcOf(s, p), p, e);
      forall r: Pid ensures r != p ==> t.k.global != Some(r) {
        GlobalHolder(s, r);
        GlobalHolder(t, r);
      }
    }
  }

  lemma GlobalHolder(s: State, p: Pid)
    requires LockInv(s)
    ensures s.k.global == Some(p) <==> HoldsGlobal(PcOf(s, p))
    ensures s.k.global == Some(p) <==> HoldDistance(PcOf(s, p)) != 0
  {
    assert PcInv(s.k, p, PcOf(s, p));
  }

  lemma {:induction false} ExecConcat(env: Env, s: State, a: seq<Label>, b: seq<Label>)
    requires Exec(env, s, a).Some?
    ensures Exec(env, s, a + b) == Exec(env, Exec(env, s, a).value, b)
  {
    if b == [] {
      assert a + b == a;
    } else {
      var last := |b| - 1;
      assert (a + b)[..|a + b| - 1] == a + b[..last];
      ExecConcat(env, s, a, b[..last]);
    }
  }

  lemma ExecOne(env: Env, s: State, l: Label)
    ensures Exec(env, s, [l]) == Next(env, s, l.pid, l.event)
  {
    assert [l][..0] == [];
    assert Exec(env, s, []) == Some(s);
  }

  predicate IsTrouble(e: Event) {
    e.Crash? || e.CrashAlone? || e.IoError? || e.GiveUp?
  }

  /**
    A run in which nobody is killed, fails to use a lock file or gives up, and only `p` and, if given,
    `q` take steps.
   */
  ghost predicate Between(run: seq<Label>, p: Pid, q: Option<Pid>) {
    forall l :: l in run ==> !IsTrouble(l.event) && (l.pid == p || q == Some(l.pid))
  }

  /** How a lock file is opened, whether it exists or not. */
  ghost function OpenEvent(s: State, path: Path): (e: Event)
    ensures e.OpenCreate? ==> Unused(s, e.inode)
  {
    if path in s.k.names then OpenExisting else OpenCreate(FreshInode(s))
  }

  /** The step that takes a holder of the global lock towards letting go of it. */
  ghost function DrainEvent(s: State, pc: Pc): Event {
    if pc.OpenFile? then OpenEvent(s, pc.req.path) else Proceed
  }

  lemma {:induction false} DrainGlobal(env: Env, s: State, p: Pid) returns (run: seq<Label>, t: State)
    requires env.guarded && Inv(env, s) && s.k.global == Some(p)
    ensures Exec(env, s, run) == Some(t) && Inv(env, t) && Between(run, p, None)
    ensures t.k.global.None? && forall q: Pid :: q != p ==> PcOf(t, q) == PcOf(s, q)
    ensures t.k.files == s.k.files && t.k.temps == s.k.temps
    decreases HoldDistance(PcOf(s, p))
  {
    var pc := PcOf(s, p);
    var l := Label(p, DrainEvent(s, pc));
    assert PcInv(s.k, p, pc);
    EffectDistance(env, s.k, pc, p, l.event);
    var m := Next(env, s, p, l.event).value;
    Step(env, s, p, l.event);
    ExecOne(env, s, l);
    assert PcInv(m.k, p, PcOf(m, p));
    if m.k.global == Some(p) {
      var rest;
      rest, t := DrainGlobal(env, m, p);
      run := [l] + rest;
      ExecConcat(env, s, [l], rest);
    } else {
      run, t := [l], m;
      forall r: Pid ensures m.k.global != Some(r) {
        assert PcInv(m.k, r, PcOf(m, r)) && PcInv(s.k, r, PcOf(s, r));
      }
    }
  }

  ghost function UpperBound(s: set<nat>): (m: nat)
    ensures forall x :: x in s ==> x < m
  {
    if s == {} then 0
    else
      var x :| x in s;
      var m := UpperBound(s - {x});
      assert forall y :: y in s ==> y == x || y in s - {x};
      if x < m then m else x + 1
  }

  /** The step that takes the body towards its end, downloading if the object is there. */
  ghost function BodyEvent(env: Env, k: Kernel, req: Request, stage: Stage): Event {
    match stage
    case MakeTemp => MakeTempFile(UpperBound(k.temps.Keys))
    case Copying(_, _) => if req.source in env.remote then CopyOk else CopyError
    case _ => Proceed
  }

  /** What a call will report if it meets no trouble: the download is delivered if the object is there. */
  function Expected(env: Env, k: Kernel, req: Request, stage: Stage): Verdict {
    match stage
    case Check =>
      if UpToDateNow(env, k, req) then UpToDate else if req.source in env.remote then Changed else Failed
    case MakeTemp => if req.source in env.remote then Changed else Failed
    case Copying(_, _) => if req.source in env.remote then Changed else Failed
    case Downloaded(_) => Changed
    case Cleanup(_, moved) => if moved then Changed else Failed
  }

  /** The downloaded files when it has reported that. */
  function FilesThen(env: Env, k: Kernel, req: Request, stage: Stage): map<Path, Blob> {
    if Expected(env, k, req, stage).Changed? && !stage.Cleanup? && req.source in env.remote then
      k.files[req.path := env.remote[req.source]]
    else k.files
  }

  /** And the temporary files: its own is gone. */
  function TempsThen(k: Kernel, pc: Pc): map<TempName, Temp> {
    if TempOf(pc).Some? then k.temps - {TempOf(pc).value} else k.temps
  }

  function BodyDistance(stage: Stage): nat {
    match stage
    case Check => 5
    case MakeTemp => 4
    case Copying(_, _) => 3
    case Downloaded(_) => 2
    case Cleanup(_, _) => 1
  }

  lemma BodyEventWorks(env: Env, k: Kernel, pc: Pc, p: Pid)
    requires pc.Body? && PcDataInv(env, k, p, pc)
    ensures
      var f := BodyNext(env, k, pc, p, BodyEvent(env, k, pc.req, pc.stage));
      && f.Effect? && f.k.global == k.global && f.k.names == k.names
      && f.pc.req == pc.req
      && (f.pc.AskRelease? || (f.pc.Body? && BodyDistance(f.pc.stage) < BodyDistance(pc.stage)))
      && !BodyEvent(env, k, pc.req, pc.stage).OpenCreate?
      && !IsTrouble(BodyEvent(env, k, pc.req, pc.stage))
  {
  }

  /** That step brings the call nearer to what is expected of it. */
  lemma BodyEventDelivers(env: Env, k: Kernel, pc: Pc, p: Pid)
    requires pc.Body? && PcDataInv(env, k, p, pc)
    ensures
      var f := BodyNext(env, k, pc, p, BodyEvent(env, k, pc.req, pc.stage));
      var v := Expected(env, k, pc.req, pc.stage);
      && f.Effect? && TempsThen(f.k, f.pc) == TempsThen(k, pc)
      && (if f.pc.Body? then
            Expected(env, f.k, f.pc.req, f.pc.stage) == v
            && FilesThen(env, f.k, f.pc.req, f.pc.stage) == FilesThen(env, k, pc.req, pc.stage)
          else f.pc.AskRelease? && f.pc.verdict == v && f.k.files == FilesThen(env, k, pc.req, pc.stage))
  {
    var f := BodyNext(env, k, pc, p, BodyEvent(env, k, pc.req, pc.stage));
    match pc.stage
    case MakeTemp => assert f.k.temps - {TempOf(f.pc).value} == k.temps;
    case Copying(t, _) => assert f.k.temps - {t} == k.temps - {t};
    case _ =>
  }

  lemma {:induction false} FinishBody(env: Env, s: State, p: Pid) returns (run: seq<Label>, t: State)
    requires env.guarded && Inv(env, s) && PcOf(s, p).Body?
    ensures Exec(env, s, run) == Some(t) && Inv(env, t) && Between(run, p, None)
    ensures PcOf(t, p).AskRelease? && PcOf(t, p).req == PcOf(s, p).req && t.k.global == s.k.global
    ensures forall q: Pid :: q != p ==> PcOf(t, q) == PcOf(s, q)
    ensures
      var pc := PcOf(s, p);
      && PcOf(t, p).verdict == Expected(env, s.k, pc.req, pc.stage)
      && t.k.files == FilesThen(env, s.k, pc.req, pc.stage) && t.k.temps == TempsThen(s.k, pc)
    decreases BodyDistance(PcOf(s, p).stage)
  {
    var pc := PcOf(s, p);
    var l := Label(p, BodyEvent(env, s.k, pc.req, pc.stage));
    assert PcDataInv(env, s.k, p, pc);
    BodyEventWorks(env, s.k, pc, p);
    BodyEventDelivers(env, s.k, pc, p);
    var m := Next(env, s, p, l.event).value;
    Step(env, s, p, l.event);
    ExecOne(env, s, l);
    if PcOf(m, p).Body? {
      var rest;
      rest, t := FinishBody(env, m, p);
      run := [l] + rest;
      ExecConcat(env, s, [l], rest);
    } else {
      run, t := [l], m;
    }
  }

  lemma {:induction false} FinishRelease(env: Env, s: State, p: Pid) returns (run: seq<Label>, t: State)
    requires env.guarded && Inv(env, s)
    requires
      var pc := PcOf(s, p);
      || (pc.AskRelease? && s.k.global.None?)
      || pc.Unlock? || pc.CloseFile? || pc.Remove? || (pc.Removed? && pc.req.path !in s.k.names)
    ensures Exec(env, s, run) == Some(t) && Inv(env, t) && Between(run, p, None)
    ensures PcOf(t, p) == Finished(PcOf(s, p).verdict) && PcOf(s, p).req.path !in t.k.names && t.k.global.None?
    ensures t.k.files == s.k.files && t.k.temps == s.k.temps
    decreases if PcOf(s, p).AskRelease? then 5 else HoldDistance(PcOf(s, p))
  {
    var pc := PcOf(s, p);
    assert PcInv(s.k, p, pc);
    var m := Next(env, s, p, Proceed).value;
    Step(env, s, p, Proceed);
    ExecOne(env, s, Label(p, Proceed));
    if pc.Removed? {
      run, t := [Label(p, Proceed)], m;
    } else {
      var rest;
      rest, t := FinishRelease(env, m, p);
      run := [Label(p, Proceed)] + rest;
      ExecConcat(env, s, [Label(p, Proceed)], rest);
    }
  }

  /** Where the body of a call begins. */
  function FirstStage(req: Request): Stage {
    if req.want.Some? then Check else MakeTemp
  }

  /** What a call that owns its pseudo lock will report, and what it leaves, if it meets no trouble. */
  ghost predicate Completes(env: Env, s: State, pc: Pc, v: Verdict, t: State) {
    match pc
    case Acquired(req, _) =>
      && v == Expected(env, s.k, req, FirstStage(req))
      && t.k.files == FilesThen(env, s.k, req, FirstStage(req)) && t.k.temps == s.k.temps
    case Body(req, _, stage) =>
      && v == Expected(env, s.k, req, stage)
      && t.k.files == FilesThen(env, s.k, req, stage) && t.k.temps == TempsThen(s.k, pc)
    case AskRelease(_, _, verdict) => v == verdict && t.k.files == s.k.files && t.k.temps == s.k.temps
    case Unlock(_, _, verdict) => v == verdict && t.k.files == s.k.files && t.k.temps == s.k.temps
    case _ => false
  }

  /**
    From every reachable state a call in its critical section can be driven to a completed
    release: it reports what is expected of it, the lock file is gone, the global lock is free, and
    on the way only the call itself and whoever held the global lock took a step.
   */
  lemma CriticalSectionCanFinish(env: Env, s: State, p: Pid) returns (run: seq<Label>, t: State, v: Verdict)
    requires env.guarded && Reachable(env, s)
    requires Owns(PcOf(s, p)) && !PcOf(s, p).Stuck? && !PcOf(s, p).Orphan?
    ensures Exec(env, s, run) == Some(t) && Between(run, p, s.k.global)
    ensures PcOf(t, p) == Finished(v) && PcOf(s, p).req.path !in t.k.names && t.k.global.None?
    ensures Completes(env, s, PcOf(s, p), v, t)
  {
    hide Exec, Next, StepOf, PcInv, Between;
    ReachableInv(env, s);
    if PcOf(s, p).Unlock? {
      run, t := FinishRelease(env, s, p);
      BetweenGrows(run, [], p, s.k.global);
      v := PcOf(s, p).verdict;
      return;
    }
    var m;
    run, m := GlobalIsFreed(env, s, p);
    if PcOf(m, p).Body? {
      var more, m' := FinishBody(env, m, p);
      ExecConcat(env, s, run, more);
      BetweenGrows(more, run, p, s.k.global);
      run, m := run + more, m';
    }
    v := PcOf(m, p).verdict;
    var more, m' := FinishRelease(env, m, p);
    ExecConcat(env, s, run, more);
    BetweenGrows(more, run, p, s.k.global);
    run, t := run + more, m';
  }

  lemma BetweenGrows(more: seq<Label>, run: seq<Label>, p: Pid, q: Option<Pid>)
    requires Between(more, p, None) && (run == [] || Between(run, p, q))
    ensures Between(run + more, p, q) && Between(more, p, q)
  {
    forall l | l in run + more ensures !IsTrouble(l.event) && (l.pid == p || q == Some(l.pid)) {
      assert l in run || l in more;
    }
  }

  /** Whoever holds the global lock lets go of it; an owner that holds it enters its body. */
  lemma GlobalIsFreed(env: Env, s: State, p: Pid) returns (run: seq<Label>, m: State)
    requires env.guarded && Inv(env, s)
    requires PcOf(s, p).Acquired? || PcOf(s, p).Body? || PcOf(s, p).AskRelease?
    ensures Exec(env, s, run) == Some(m) && Inv(env, m) && Between(run, p, s.k.global) && m.k.global.None?
    ensures m.k.files == s.k.files && m.k.temps == s.k.temps
    ensures
      var pc := PcOf(s, p);
      PcOf(m, p) == if pc.Acquired? then Body(pc.req, pc.fd, FirstStage(pc.req)) else pc
  {
    assert PcInv(s.k, p, PcOf(s, p));
    if PcOf(s, p).Acquired? {
      m := Next(env, s, p, Proceed).value;
      Step(env, s, p, Proceed);
      run := [Label(p, Proceed)];
      ExecOne(env, s, run[0]);
    } else if s.k.global.Some? {
      run, m := DrainGlobal(env, s, s.k.global.value);
    } else {
      run, m := [], s;
      assert Exec(env, s, []) == Some(s);
    }
  }

  /** An inode number that the kernel can hand out. */
  ghost function FreshInode(s: State): (i: Inode)
    ensures Unused(s, i)
  {
    var fds := set p | p in s.pcs && OpenFd(s.pcs[p]).Some? :: OpenFd(s.pcs[p]).value;
    var i := UpperBound(s.k.names.Values + s.k.holder.Keys + fds);
    assert forall p: Pid :: OpenFd(PcOf(s, p)).Some? ==> OpenFd(PcOf(s, p)).value in fds;
    i
  }

  lemma NotHeld(s: State, path: Path)
    requires LockInv(s) && path in s.k.names
    requires forall q: Pid :: Owns(PcOf(s, q)) ==> PcOf(s, q).req.path != path
    ensures s.k.names[path] !in s.k.holder
  {
    var fd := s.k.names[path];
    assert HolderInv(s, fd);
    forall q: Pid | Owns(PcOf(s, q)) ensures OpenFd(PcOf(s, q)) != Some(fd) {
      assert PcInv(s.k, q, PcOf(s, q));
    }
  }

  lemma Extend(env: Env, s: State, run: seq<Label>, l: Label)
    requires Exec(env, s, run).Some?
    ensures Exec(env, s, run + [l]) == Next(env, Exec(env, s, run).value, l.pid, l.event)
  {
    assert (run + [l])[..|run + [l]| - 1] == run;
  }

  lemma OpenFreeLockFile(env: Env, s: State, p: Pid) returns (run: seq<Label>, t: State)
    requires env.guarded && LockInv(s) && PcOf(s, p).AskGlobal? && s.k.global.None?
    requires forall q: Pid :: Owns(PcOf(s, q)) ==> PcOf(s, q).req.path != PcOf(s, p).req.path
    ensures Exec(env, s, run) == Some(t) && |run| == 2 && Between(run, p, None)
    ensures
      var pc := PcOf(t, p);
      && pc.LockFile? && pc.req == PcOf(s, p).req && pc.fd !in t.k.holder && t.k.global == Some(p)
      && t.k.files == s.k.files && t.k.temps == s.k.temps
  {
    var path := PcOf(s, p).req.path;
    var take := Label(p, Proceed);
    var s1 := Next(env, s, p, Proceed).value;
    Extend(env, s, [], take);
    var open := Label(p, OpenEvent(s1, path));
    t := Next(env, s1, p, open.event).value;
    Extend(env, s, [take], open);
    if path in s.k.names {
      NotHeld(s, path);
    }
    run := [take] + [open];
  }

  /**
    Crashes do no lasting harm: whenever nobody owns the pseudo lock of a path and the global
    lock is free, an attempt succeeds, whether or not a killed call left its lock file behind.
   */
  lemma FreeLockCanBeTaken(env: Env, s: State, p: Pid) returns (run: seq<Label>, t: State)
    requires env.guarded && Reachable(env, s) && PcOf(s, p).AskGlobal? && s.k.global.None?
    requires forall q: Pid :: Owns(PcOf(s, q)) ==> PcOf(s, q).req.path != PcOf(s, p).req.path
    ensures Exec(env, s, run) == Some(t) && |run| == 4 && Between(run, p, None)
    ensures PcOf(t, p).Body? && PcOf(t, p).req == PcOf(s, p).req && t.k.global.None?
    ensures PcOf(t, p).stage == FirstStage(PcOf(s, p).req) && t.k.files == s.k.files && t.k.temps == s.k.temps
  {
    ReachableInv(env, s);
    var opening, s2 := OpenFreeLockFile(env, s, p);
    var s3 := Next(env, s2, p, Proceed).value;
    Extend(env, s, opening, Label(p, Proceed));
    t := Next(env, s3, p, Proceed).value;
    Extend(env, s, opening + [Label(p, Proceed)], Label(p, Proceed));
    run := opening + [Label(p, Proceed)] + [Label(p, Proceed)];
  }

  /**
    A whole call of `Get` or `GetIfHashChanged` when nothing is in its way: the object that it asked
    for is at the path and it reports a change, or, if the file already had the requested hash, nothing
    is touched and it reports none.  No lock file and no temporary file is left.
   */
  lemma GetDelivers(env: Env, s: State, p: Pid, req: Request) returns (run: seq<Label>, t: State)
    requires env.guarded && Reachable(env, s) && PcOf(s, p).Idle? && s.k.global.None?
    requires forall q: Pid :: Owns(PcOf(s, q)) ==> PcOf(s, q).req.path != req.path
    requires req.source in env.remote
    ensures Exec(env, s, run) == Some(t) && Between(run, p, None) && [Label(p, Begin(req))] <= run
    ensures
      var current := req.want.Some? && req.path in s.k.files && env.hash(s.k.files[req.path]) == req.want.value;
      && PcOf(t, p) == Finished(if current then UpToDate else Changed)
      && t.k.files == (if current then s.k.files else s.k.files[req.path := env.remote[req.source]])
      && t.k.temps == s.k.temps && req.path !in t.k.names && t.k.global.None?
  {
    hide Next, StepOf, Exec, Inv, Reachable;
    var begin := Label(p, Begin(req));
    var s1 := Begun(env, s, p, req);
    forall q: Pid | Owns(PcOf(s1, q)) ensures PcOf(s1, q).req.path != req.path {
      assert q != p && Owns(PcOf(s, q));
    }
    var taking, s2 := FreeLockCanBeTaken(env, s1, p);
    ReachedExec(env, s1, taking);
    var finishing, s3, v := CriticalSectionCanFinish(env, s2, p);
    ExecConcat(env, s1, taking, finishing);
    ExecConcat(env, s, [begin], taking + finishing);
    run, t := [begin] + (taking + finishing), s3;
  }

  lemma Begun(env: Env, s: State, p: Pid, req: Request) returns (t: State)
    requires Reachable(env, s) && PcOf(s, p).Idle?
    ensures Reachable(env, t) && Exec(env, s, [Label(p, Begin(req))]) == Some(t)
    ensures t.k == s.k && PcOf(t, p) == AskGlobal(req) && forall q: Pid :: q != p ==> PcOf(t, q) == PcOf(s, q)
  {
    var begin := Label(p, Begin(req));
    t := Next(env, s, p, Begin(req)).value;
    ExecOne(env, s, begin);
    ReachedExec(env, s, [begin]);
  }

  lemma ReachedExec(env: Env, s: State, more: seq<Label>)
    requires Reachable(env, s) && Exec(env, s, more).Some?
    ensures Reachable(env, Exec(env, s, more).value)
  {
    var init, run :| Initial(init) && Exec(env, init, run) == Some(s);
    ExecConcat(env, init, run, more);
    assert Exec(env, init, run + more) == Exec(env, s, more);
  }

  /** A first server error costs nothing, a second one the download. */
  lemma ServerErrorIsRetriedOnce(env: Env, s: State, p: Pid)
    requires env.guarded && Reachable(env, s) && PcOf(s, p).Body? && PcOf(s, p).stage.Copying?
    requires PcOf(s, p).req.source in env.remote
    ensures
      var pc, t := PcOf(s, p), Next(env, s, p, CopyServerError);
      && t.Some? && t.value.k == s.k && PcOf(t.value, p).Body? && PcOf(t.value, p).req == pc.req
      && Expected(env, t.value.k, pc.req, PcOf(t.value, p).stage) == (if pc.stage.first then Changed else Failed)
      && (PcOf(t.value, p).stage.Copying? ==> !PcOf(t.value, p).stage.first)
  {
  }

  /**
    What makes a call fail: a kill, a time-out, and under the lock an I/O error, an error of gsutil, or
    a second server error.  An I/O error of an attempt to take or to release the lock does not.
   */
  predicate IsFatal(pc: Pc, e: Event) {
    || e.Crash? || e.CrashAlone? || e.GiveUp?
    || (pc.Body? && (e.IoError? || e.CopyError? || (e.CopyServerError? && pc.stage.Copying? && !pc.stage.first)))
  }

  /** The call has not failed and is not about to. */
  predicate IsWell(pc: Pc) {
    match pc
    case Body(_, _, stage) => stage.Cleanup? ==> stage.moved
    case AskRelease(_, _, v) => !v.Failed?
    case Unlock(_, _, v) => !v.Failed?
    case CloseFile(_, _, v) => !v.Failed?
    case Remove(_, _, v) => !v.Failed?
    case Removed(_, v) => !v.Failed?
    case Finished(v) => !v.Failed?
    case Stuck(_, _) => false
    case Crashed => false
    case Orphan(_, _, _) => false
    case _ => true
  }

  lemma StepIsWell(env: Env, k: Kernel, pc: Pc, p: Pid, e: Event)
    requires StepOf(env, k, pc, p, e).Effect?
    ensures IsWell(StepOf(env, k, pc, p, e).pc) <==> IsWell(pc) && !IsFatal(pc, e)
  {
  }

  /** Step i of the run is one of call p, and makes it fail. */
  ghost predicate FailsAt(env: Env, init: State, run: seq<Label>, p: Pid, i: nat) {
    && i < |run| && run[i].pid == p && Exec(env, init, run[..i]).Some?
    && IsFatal(PcOf(Exec(env, init, run[..i]).value, p), run[i].event)
  }

  /** A call fails if and only if something made it fail, whatever other calls do: nothing is passed over. */
  lemma {:induction false} FailsIff(env: Env, init: State, run: seq<Label>, p: Pid)
    requires Initial(init) && Exec(env, init, run).Some?
    ensures IsWell(PcOf(Exec(env, init, run).value, p)) <==> forall i: nat :: !FailsAt(env, init, run, p, i)
  {
    if run != [] {
      var n := |run| - 1;
      var before, last := run[..n], run[n];
      FailsIff(env, init, before, p);
      var s := Exec(env, init, before).value;
      if last.pid == p {
        StepIsWell(env, s.k, PcOf(s, p), p, last.event);
      }
      forall i: nat | i < n ensures FailsAt(env, init, run, p, i) <==> FailsAt(env, init, before, p, i) {
        assert before[..i] == run[..i];
      }
      assert FailsAt(env, init, run, p, n) <==> last.pid == p && IsFatal(PcOf(s, p), last.event);
    }
  }

  /** A killed call may leave a child that owns the lock; it owns it no more when the child has ended. */
  lemma OrphanLetsGo(env: Env, s: State, p: Pid)
    requires env.guarded && Reachable(env, s) && PcOf(s, p).Orphan?
    ensures
      var path := PcOf(s, p).req.path;
      var t := Next(env, s, p, ChildExit);
      t.Some? && t.value.k.global == s.k.global && forall q: Pid :: Owns(PcOf(t.value, q)) ==>
        PcOf(t.value, q).req.path != path
  {
    ReachableInv(env, s);
    var t := Next(env, s, p, ChildExit).value;
    forall q: Pid | Owns(PcOf(t, q)) ensures PcOf(t, q).req.path != PcOf(s, p).req.path {
      if PcOf(s, q).req.path == PcOf(s, p).req.path {
        SoleOwner(s, p, q);
      }
    }
    GlobalHolder(s, p);
  }

  // ---------------------------------------------------------------------------------
  // Why the guard is there
  // ---------------------------------------------------------------------------------

  const ONE := Request("a", "b", None)

  /** The state in which nothing has happened and the disk is empty. */
  const CLEAN := State(Kernel(map[], map[], None, map[], map[]), map[])

  /** One more label of a run, given its effect on the kernel and on the stepping call. */
  lemma Go(env: Env, run: seq<Label>, s: State, p: Pid, e: Event, k: Kernel, pc: Pc)
    returns (longer: seq<Label>, t: State)
    requires Exec(env, CLEAN, run) == Some(s) && (e.OpenCreate? ==> Unused(s, e.inode))
    requires StepOf(env, s.k, PcOf(s, p), p, e) == Effect(k, pc)
    ensures Exec(env, CLEAN, longer) == Some(t) && t.k == k && PcOf(t, p) == pc
    ensures forall q: Pid :: q != p ==> PcOf(t, q) == PcOf(s, q)
  {
    longer, t := run + [Label(p, e)], Next(env, s, p, e).value;
    Extend(env, CLEAN, run, Label(p, e));
  }

  /** Unguarded, a call opens or creates the lock file whenever it likes. */
  lemma BadOpen(env: Env, run: seq<Label>, s: State, p: Pid, i: Inode) returns (longer: seq<Label>, t: State)
    requires !env.guarded && Exec(env, CLEAN, run) == Some(s) && PcOf(s, p).Idle? && s.k.global.None?
    requires if "a" in s.k.names then s.k.names["a"] == i else Unused(s, i)
    ensures Exec(env, CLEAN, longer) == Some(t) && PcOf(t, p) == LockFile(ONE, i)
    ensures t.k == s.k.(names := s.k.names["a" := i])
    ensures forall q: Pid :: q != p ==> PcOf(t, q) == PcOf(s, q)
  {
    longer, t := Go(env, run, s, p, Begin(ONE), s.k, AskGlobal(ONE));
    longer, t := Go(env, longer, t, p, Proceed, s.k, OpenFile(ONE));
    var e := if "a" in s.k.names then OpenExisting else OpenCreate(i);
    assert "a" in s.k.names ==> s.k.names == s.k.names["a" := i];
    longer, t := Go(env, longer, t, p, e, s.k.(names := s.k.names["a" := i]), LockFile(ONE, i));
  }

  lemma BadLock(env: Env, run: seq<Label>, s: State, p: Pid, i: Inode) returns (longer: seq<Label>, t: State)
    requires !env.guarded && Exec(env, CLEAN, run) == Some(s) && PcOf(s, p) == LockFile(ONE, i)
    requires i !in s.k.holder
    ensures Exec(env, CLEAN, longer) == Some(t) && PcOf(t, p) == Acquired(ONE, i)
    ensures t.k == s.k.(holder := s.k.holder[i := p])
    ensures forall q: Pid :: q != p ==> PcOf(t, q) == PcOf(s, q)
  {
    longer, t := Go(env, run, s, p, Proceed, s.k.(holder := s.k.holder[i := p]), Acquired(ONE, i));
  }

  /** An owner whose download fails asks to release. */
  lemma BadBody(env: Env, run: seq<Label>, s: State, p: Pid, i: Inode) returns (longer: seq<Label>, t: State)
    requires !env.guarded && Exec(env, CLEAN, run) == Some(s) && PcOf(s, p) == Acquired(ONE, i)
    requires s.k.global.None?
    ensures Exec(env, CLEAN, longer) == Some(t) && PcOf(t, p) == AskRelease(ONE, i, Failed) && t.k == s.k
    ensures forall q: Pid :: q != p ==> PcOf(t, q) == PcOf(s, q)
  {
    longer, t := Go(env, run, s, p, Proceed, s.k, Body(ONE, i, MakeTemp));
    longer, t := Go(env, longer, t, p, IoError, s.k, AskRelease(ONE, i, Failed));
  }

  lemma BadUnlock(env: Env, run: seq<Label>, s: State, p: Pid, i: Inode) returns (longer: seq<Label>, t: State)
    requires !env.guarded && Exec(env, CLEAN, run) == Some(s) && PcOf(s, p) == AskRelease(ONE, i, Failed)
    requires s.k.global.None?
    ensures Exec(env, CLEAN, longer) == Some(t) && PcOf(t, p) == CloseFile(ONE, i, Failed)
    ensures t.k == s.k.(holder := s.k.holder - {i})
    ensures forall q: Pid :: q != p ==> PcOf(t, q) == PcOf(s, q)
  {
    longer, t := Go(env, run, s, p, Proceed, s.k, Unlock(ONE, i, Failed));
    longer, t := Go(env, longer, t, p, Proceed, s.k.(holder := s.k.holder - {i}), CloseFile(ONE, i, Failed));
  }

  lemma BadRemove(env: Env, run: seq<Label>, s: State, p: Pid, i: Inode) returns (longer: seq<Label>, t: State)
    requires Exec(env, CLEAN, run) == Some(s) && PcOf(s, p) == CloseFile(ONE, i, Failed)
    ensures Exec(env, CLEAN, longer) == Some(t) && PcOf(t, p) == Removed(ONE, Failed)
    ensures t.k == s.k.(names := s.k.names - {"a"})
    ensures forall q: Pid :: q != p ==> PcOf(t, q) == PcOf(s, q)
  {
    longer, t := Go(env, run, s, p, Proceed, s.k, Remove(ONE, i, Failed));
    longer, t := Go(env, longer, t, p, Proceed, s.k.(names := s.k.names - {"a"}), Removed(ONE, Failed));
  }

  /** Call 0 has unlocked the file and will remove it; call 1 has found it meanwhile and locked it. */
  lemma BadStart(env: Env) returns (run: seq<Label>, s: State)
    requires !env.guarded
    ensures Exec(env, CLEAN, run) == Some(s) && s.k.global.None?
    ensures s.k.names == map["a" := 0] && s.k.holder == map[0 := 1]
    ensures PcOf(s, 0) == CloseFile(ONE, 0, Failed) && PcOf(s, 1) == Acquired(ONE, 0)
    ensures forall q: Pid :: q > 1 ==> PcOf(s, q) == Idle
  {
    assert Exec(env, CLEAN, []) == Some(CLEAN);
    hide Exec, Next, StepOf;
    run, s := BadOpen(env, [], CLEAN, 0, 0);
    run, s := BadLock(env, run, s, 0, 0);
    run, s := BadBody(env, run, s, 0, 0);
    run, s := BadUnlock(env, run, s, 0, 0);
    run, s := BadOpen(env, run, s, 1, 0);
    run, s := BadLock(env, run, s, 1, 0);
  }

  /**
    Without the global lock the protocol is broken, by the interleaving of lines 251-258
    (calls 0, 1 and 2 are its Processes 1, 2 and 3): two calls own one pseudo lock at once.
   */
  lemma UnguardedIsBroken(env: Env) returns (run: seq<Label>, s: State)
    requires !env.guarded
    ensures Initial(CLEAN) && Exec(env, CLEAN, run) == Some(s)
    ensures Owns(PcOf(s, 1)) && Owns(PcOf(s, 2)) && PcOf(s, 1).req.path == PcOf(s, 2).req.path
  {
    hide Exec, Next, StepOf;
    run, s := BadStart(env);
    run, s := BadRemove(env, run, s, 0, 0);
    run, s := BadOpen(env, run, s, 2, 1);
    run, s := BadLock(env, run, s, 2, 1);
  }
}
