/**
  Threads, thread groups and nested retries: devil/utils/reraiser_thread.py,
  devil/utils/timeout_retry.py and the wrapper of devil/android/decorators.py, with the direct call
  in py_utils/__init__.py and the groups started without blocking of devil/utils/parallelizer.py.
 */
module Threads {
  import opened Wrappers

  // ---------------------------------------------------------------------------------
  // Programs
  // ---------------------------------------------------------------------------------

  /**
    What a thread runs: a body that may raise, one thing after another, a caller that handles what
    is raised, a function decorated with `_TimeoutRetryWrapper`, a direct call of `timeout_retry.Run`,
    `RunAsync` of some functions, with a watcher or without, or a group that is started without
    blocking, while the caller does something else and then may or may not join it.
   */
  datatype Prog =
    | Body
    | Then(first: Prog, second: Prog)
    | Catch(risky: Prog, handler: Prog)
    | Decorated(retries: nat, inner: Prog)
    | Retried(retries: nat, inner: Prog)
    | Async(funcs: seq<Prog>, watched: bool)
    | Spread(funcs: seq<Prog>, meanwhile: Prog)

  /**
    What is known beforehand of the search for an enclosing timeout group: it finds one, it
    finds none, or that depends on whether a watcher has given up on the thread.
   */
  datatype Mode = Enclosed | Free | Unsure

  function Within(m: Mode, watched: bool): Mode {
    if m.Enclosed? && watched then Unsure else m
  }

  function Max(a: nat, b: nat): nat {
    if a < b then b else a
  }

  function Times(n: nat, b: nat): nat {
    if n == 0 then 0 else Times(n - 1, b) + b
  }

  /** A first try and `retries` more. */
  function Tries(retries: nat, b: nat): nat {
    Times(retries + 1, b)
  }

  /** A decorated function around something that runs bodies so often when enclosed, or when that is unsure. */
  function Wrapped(m: Mode, retries: nat, inside: nat, unsure: nat): nat {
    match m
    case Enclosed => inside
    case Free => Tries(retries, inside)
    case Unsure => Max(Tries(retries, inside), unsure)
  }

  /** How often the bodies of a program run at most. */
  function Bound(p: Prog, m: Mode): nat
    decreases p
  {
    match p
    case Body => 1
    case Then(a, b) => Bound(a, m) + Bound(b, m)
    case Catch(a, b) => Bound(a, m) + Bound(b, m)
    case Decorated(r, q) => Wrapped(m, r, Bound(q, Enclosed), Bound(q, Unsure))
    case Retried(r, q) => Tries(r, Bound(q, Enclosed))
    case Async(funcs, watched) => BoundOfFirst(p, |funcs|, Within(m, watched))
    case Spread(funcs, q) => BoundOfFirst(p, |funcs|, Free) + Bound(q, m)
  }

  predicate HasFuncs(p: Prog) {
    p.Async? || p.Spread?
  }

  function BoundOfFirst(p: Prog, n: nat, m: Mode): nat
    requires HasFuncs(p) && n <= |p.funcs|
    decreases p, n
  {
    if n == 0 then 0 else BoundOfFirst(p, n - 1, m) + Bound(p.funcs[n - 1], m)
  }

  // ---------------------------------------------------------------------------------
  // Thread groups
  // ---------------------------------------------------------------------------------

  /** `creator` is the index of the thread that made the group. */
  datatype Group = Group(isTimeout: bool, blockedParent: Option<nat>, creator: nat)

  /** Links only point to groups that were made earlier. */
  ghost predicate Forest(groups: seq<Group>) {
    forall g :: 0 <= g < |groups| ==> groups[g].blockedParent.Some? ==> groups[g].blockedParent.value < g
  }

  /**
    `CurrentTimeoutThreadGroup`: the walk up the links.  It stops at a link that does not point
    to an earlier group, where the loop of the source might not end; `Forest` rules that out.
   */
  function TimeoutGroup(groups: seq<Group>, group: Option<nat>): Option<nat>
    decreases if group.Some? then group.value + 1 else 0
  {
    if group.None? || group.value >= |groups| then None
    else if groups[group.value].isTimeout then group
    else
      var up := groups[group.value].blockedParent;
      if up.Some? && up.value < group.value then TimeoutGroup(groups, up) else None
  }

  // ---------------------------------------------------------------------------------
  // The machine
  // ---------------------------------------------------------------------------------

  /** What a thread has on its stack; the first item is the one it is busy with. */
  datatype Item =
    | Todo(prog: Prog)
    | Handler(prog: Prog)
    | AwaitRun(group: nat, tries: nat, retries: nat, inner: Prog)
    | AwaitAsync(group: nat, watched: bool)
    | Finish(group: nat)

  datatype Status = Running | Returned | Raised

  /** `mode` is a note for the proof: no step depends on it. */
  datatype Thread = Thread(group: Option<nat>, mode: Mode, work: seq<Item>, status: Status)

  datatype State = State(groups: seq<Group>, threads: seq<Thread>, executed: nat)

  datatype Event =
    | Proceed(raises: bool)  // the next step of the thread; only a body raises by itself
                             // (at Finish: the group is never joined)
    | Joined(retry: bool)    // the awaited threads have ended; `retry_if_func`
    | TimedOut(retry: bool)  // the watchdog of the awaited group has expired
    | Slice                  // 60 seconds of joining are over: the link is cleared, and joining goes on

  ghost predicate AllEnded(s: State, g: nat) {
    forall i :: 0 <= i < |s.threads| && s.threads[i].group == Some(g) ==> !s.threads[i].status.Running?
  }

  ghost predicate SomeRaised(s: State, g: nat) {
    exists i :: 0 <= i < |s.threads| && s.threads[i].group == Some(g) && s.threads[i].status.Raised?
  }

  function Pop(t: Thread): Thread
    requires t.work != []
  {
    t.(work := t.work[1..])
  }

  function Replace(t: Thread, item: Item): Thread
    requires t.work != []
  {
    t.(work := [item] + t.work[1..])
  }

  /** What is left of the stack when an exception passes: from the first handler on. */
  function Unwind(work: seq<Item>): seq<Item> {
    if work == [] then []
    else if work[0].Handler? then [Todo(work[0].prog)] + work[1..]
    else Unwind(work[1..])
  }

  /** The exception is handled, or leaves the thread. */
  function Raise(t: Thread): Thread {
    var work := Unwind(t.work);
    if work == [] then t.(work := [], status := Raised) else t.(work := work)
  }

  function Start(group: nat, mode: Mode, p: Prog): Thread {
    Thread(Some(group), mode, [Todo(p)], Running)
  }

  /** Thread `i` becomes `t`. */
  function Put(s: State, i: nat, t: Thread): State
    requires i < |s.threads|
  {
    s.(threads := s.threads[i := t])
  }

  function Unlink(s: State, g: nat): State {
    if g < |s.groups| then s.(groups := s.groups[g := s.groups[g].(blockedParent := None)]) else s
  }

  /** Thread `i` makes a group of new threads, linked to its own group, and blocks on it. */
  function Grow(s: State, i: nat, isTimeout: bool, item: Item, more: seq<Thread>): State
    requires i < |s.threads| && s.threads[i].work != []
  {
    State(
      s.groups + [Group(isTimeout, s.threads[i].group, i)],
      s.threads[i := Replace(s.threads[i], item)] + more,
      s.executed)
  }

  /** One try of `Run`: a timeout group of one thread. */
  function Try(s: State, i: nat, tries: nat, retries: nat, q: Prog): State
    requires i < |s.threads| && s.threads[i].work != []
  {
    var g := |s.groups|;
    Grow(s, i, true, AwaitRun(g, tries, retries, q), [Start(g, Enclosed, q)])
  }

  /** `RunAsync`. */
  function Spawn(s: State, i: nat, funcs: seq<Prog>, watched: bool): State
    requires i < |s.threads| && s.threads[i].work != []
  {
    var g := |s.groups|;
    Grow(s, i, false, AwaitAsync(g, watched), Starts(g, Within(s.threads[i].mode, watched), funcs))
  }

  function Starts(g: nat, m: Mode, funcs: seq<Prog>): seq<Thread> {
    seq(|funcs|, k requires 0 <= k < |funcs| => Start(g, m, funcs[k]))
  }

  /** New threads in a group that no group blocks on. */
  function Loose(s: State, i: nat, funcs: seq<Prog>): State {
    State(s.groups + [Group(false, None, i)], s.threads + Starts(|s.groups|, Free, funcs), s.executed)
  }

  /** `StartAll()`, and what the caller does meanwhile. */
  function Scatter(s: State, i: nat, funcs: seq<Prog>, q: Prog): State
    requires i < |s.threads| && s.threads[i].work != []
  {
    var t := s.threads[i];
    Loose(Put(s, i, t.(work := [Todo(q), Finish(|s.groups|)] + t.work[1..])), i, funcs)
  }

  /** A failed try: another one, or the exception goes on. */
  function Failed(s: State, i: nat, retry: bool): State
    requires i < |s.threads| && s.threads[i].work != [] && s.threads[i].work[0].AwaitRun?
  {
    var a := s.threads[i].work[0];
    if a.tries > a.retries || !retry then Put(s, i, Raise(s.threads[i]))
    else Try(s, i, a.tries + 1, a.retries, a.inner)
  }

  ghost function Next(s: State, i: nat, e: Event): Option<State> {
    if i >= |s.threads| || !s.threads[i].status.Running? then None
    else
      var t := s.threads[i];
      if t.work == [] then
        if e.Proceed? then Some(Put(s, i, t.(status := Returned))) else None
      else
        match t.work[0]
        case Todo(p) => if e.Proceed? then Some(Call(s, i, p, e.raises)) else None
        case Handler(_) => if e.Proceed? then Some(Put(s, i, Pop(t))) else None
        case AwaitRun(g, _, _, _) =>
          (match e
           case Proceed(_) => None
           case Joined(retry) =>
             if !AllEnded(s, g) then None
             else if SomeRaised(s, g) then Some(Failed(Unlink(s, g), i, retry))
             else Some(Put(Unlink(s, g), i, Pop(t)))
           case TimedOut(retry) => Some(Failed(Unlink(s, g), i, retry))
           case Slice => Some(Unlink(s, g)))
        case AwaitAsync(g, watched) =>
          if e.Joined? && AllEnded(s, g) then
            Some(Put(Unlink(s, g), i, if SomeRaised(s, g) then Raise(t) else Pop(t)))
          else if e.TimedOut? && watched then Some(Put(Unlink(s, g), i, Raise(t)))
          else None
        case Finish(g) =>
          (match e
           case Proceed(_) => Some(Put(s, i, Pop(t)))
           case Joined(_) =>
             if AllEnded(s, g) then Some(Put(s, i, if SomeRaised(s, g) then Raise(t) else Pop(t))) else None
           case TimedOut(_) => Some(Put(s, i, Raise(t)))
           case Slice => None)
  }

  /** The thread calls `p`. */
  ghost function Call(s: State, i: nat, p: Prog, raises: bool): State
    requires i < |s.threads| && s.threads[i].work != []
  {
    var t := s.threads[i];
    match p
    case Body => Put(s, i, if raises then Raise(t) else Pop(t)).(executed := s.executed + 1)
    case Then(a, b) => Put(s, i, t.(work := [Todo(a), Todo(b)] + t.work[1..]))
    case Catch(a, b) => Put(s, i, t.(work := [Todo(a), Handler(b)] + t.work[1..]))
    case Decorated(r, q) =>
      // Inside a timeout group that exists already the function is just called.
      if TimeoutGroup(s.groups, t.group).Some? then Put(s, i, Replace(t, Todo(q)))
      else Try(s, i, 1, r, q)
    case Retried(r, q) => Try(s, i, 1, r, q)
    case Async(funcs, watched) => Spawn(s, i, funcs, watched)
    case Spread(funcs, q) => Scatter(s, i, funcs, q)
  }

  // ---------------------------------------------------------------------------------
  // The invariant
  // ---------------------------------------------------------------------------------

  /** The creator of the group of an enclosed thread is enclosed itself and blocks on the group. */
  ghost predicate Blocks(s: State, j: nat, g: nat) {
    && j < |s.threads| && g < |s.groups|
    && s.threads[j].status.Running? && s.threads[j].mode.Enclosed?
    && s.threads[j].work != [] && s.threads[j].work[0] == AwaitAsync(g, false)
    && s.groups[g].blockedParent == s.threads[j].group
  }

  ghost predicate IsEnclosed(s: State, i: nat, g: nat)
    requires g < |s.groups|
  {
    s.groups[g].isTimeout || (s.groups[g].creator < i && Blocks(s, s.groups[g].creator, g))
  }

  /** An item on which no linked group relies. */
  predicate IsIdle(item: Item) {
    item.Todo? || item.Handler? || item.Finish?
  }

  ghost predicate ItemInv(s: State, i: nat, item: Item) {
    match item
    case Todo(_) => true
    case Handler(_) => true
    case Finish(_) => true
    case AwaitRun(g, tries, retries, _) => g < |s.groups| && s.groups[g].isTimeout && tries <= retries + 1
    case AwaitAsync(g, _) => g < |s.groups| && !s.groups[g].isTimeout && s.groups[g].creator == i
  }

  ghost predicate ThreadInv(s: State, i: nat)
    requires i < |s.threads|
  {
    var t := s.threads[i];
    && (t.group.Some? ==> t.group.value < |s.groups|)
    && (t.status.Running? ==>
      && (forall k :: 0 <= k < |t.work| ==> ItemInv(s, i, t.work[k]))
      && (forall k :: 0 < k < |t.work| ==> IsIdle(t.work[k]))
      && (t.mode.Enclosed? ==> t.group.Some? && IsEnclosed(s, i, t.group.value))
      && (t.mode.Free? ==> TimeoutGroup(s.groups, t.group).None?))
  }

  ghost predicate Inv(s: State) {
    Forest(s.groups) && forall i :: 0 <= i < |s.threads| ==> ThreadInv(s, i)
  }

  /** The timeout group that a thread runs under: its own, or that of the thread that waits for it. */
  ghost function Innermost(s: State, i: nat): Option<nat>
    requires Inv(s) && i < |s.threads| && s.threads[i].status.Running? && s.threads[i].mode.Enclosed?
    decreases i
  {
    assert ThreadInv(s, i);
    var g := s.threads[i].group.value;
    if s.groups[g].isTimeout then Some(g) else Innermost(s, s.groups[g].creator)
  }

  /** The walk finds the innermost enclosing timeout group. */
  lemma {:induction false} WalkFindsInnermost(s: State, i: nat)
    requires Inv(s) && i < |s.threads| && s.threads[i].status.Running? && s.threads[i].mode.Enclosed?
    ensures TimeoutGroup(s.groups, s.threads[i].group).Some?
    ensures TimeoutGroup(s.groups, s.threads[i].group) == Innermost(s, i)
    decreases i
  {
    assert ThreadInv(s, i);
    var g := s.threads[i].group.value;
    if !s.groups[g].isTimeout {
      WalkFindsInnermost(s, s.groups[g].creator);
    }
  }

  // ---------------------------------------------------------------------------------
  // Every step keeps it
  // ---------------------------------------------------------------------------------

  lemma {:induction false} WalkAfterUnlink(groups: seq<Group>, g: nat, h: Option<nat>)
    requires g < |groups| && TimeoutGroup(groups, h).None?
    ensures TimeoutGroup(groups[g := groups[g].(blockedParent := None)], h).None?
    decreases if h.Some? then h.value + 1 else 0
  {
    if h.Some? && h.value < |groups| {
      var up := groups[h.value].blockedParent;
      if up.Some? && up.value < h.value {
        WalkAfterUnlink(groups, g, up);
      }
    }
  }

  lemma {:induction false} WalkAfterNew(groups: seq<Group>, more: Group, h: Option<nat>)
    requires h.Some? ==> h.value < |groups|
    ensures TimeoutGroup(groups + [more], h) == TimeoutGroup(groups, h)
    decreases if h.Some? then h.value + 1 else 0
  {
    if h.Some? {
      var up := groups[h.value].blockedParent;
      if up.Some? && up.value < h.value {
        WalkAfterNew(groups, more, up);
      }
    }
  }

  /** What a thread may become: the same place, and a stack of the right shape. */
  ghost predicate MayBecome(s: State, i: nat, t: Thread)
    requires i < |s.threads|
  {
    && t.group == s.threads[i].group && t.mode == s.threads[i].mode
    && (t.status.Running? ==> s.threads[i].status.Running?)
    && (forall k :: 0 <= k < |t.work| ==> ItemInv(s, i, t.work[k]))
    && (forall k :: 0 < k < |t.work| ==> IsIdle(t.work[k]))
  }

  /** No running thread relies on the link of group `g` or on who waits for it. */
  ghost predicate Unneeded(s: State, g: nat) {
    g < |s.groups| ==>
      || s.groups[g].isTimeout
      || forall k :: 0 <= k < |s.threads| && s.threads[k].group == Some(g) && s.threads[k].status.Running? ==>
           !s.threads[k].mode.Enclosed?
  }

  lemma PutKeepsInv(s: State, i: nat, t: Thread)
    requires Inv(s) && i < |s.threads| && MayBecome(s, i, t)
    requires forall g :: Blocks(s, i, g) ==> Unneeded(s, g)
    ensures Inv(Put(s, i, t))
  {
    var n := Put(s, i, t);
    forall k | 0 <= k < |n.threads| ensures ThreadInv(n, k) {
      assert ThreadInv(s, k);
      if n.threads[k].status.Running? && n.threads[k].mode.Enclosed? {
        var g := n.threads[k].group.value;
        assert IsEnclosed(s, k, g);
        assert !s.groups[g].isTimeout ==> s.groups[g].creator != i;
      }
      forall w | 0 <= w < |n.threads[k].work|
        ensures n.threads[k].status.Running? ==> ItemInv(n, k, n.threads[k].work[w]) {
        assert k == i || n.threads[k].status.Running? ==> ItemInv(s, k, n.threads[k].work[w]);
      }
    }
  }

  lemma UnlinkKeepsInv(s: State, g: nat)
    requires Inv(s) && Unneeded(s, g)
    ensures Inv(Unlink(s, g))
  {
    if g < |s.groups| {
      var n := Unlink(s, g);
      forall k | 0 <= k < |n.threads| ensures ThreadInv(n, k) {
        assert ThreadInv(s, k);
        if n.threads[k].status.Running? {
          if n.threads[k].mode.Enclosed? {
            assert IsEnclosed(s, k, n.threads[k].group.value);
          }
          if n.threads[k].mode.Free? {
            WalkAfterUnlink(s.groups, g, n.threads[k].group);
          }
          forall w | 0 <= w < |n.threads[k].work| ensures ItemInv(n, k, n.threads[k].work[w]) {
            assert ItemInv(s, k, n.threads[k].work[w]);
          }
        }
      }
    }
  }

  /** What may be added: the awaited item fits the group, and so do the modes of the threads. */
  ghost predicate MayGrow(s: State, i: nat, isTimeout: bool, item: Item, more: seq<Thread>)
    requires i < |s.threads|
  {
    && (forall k :: 0 <= k < |more| ==>
      more[k].group == Some(|s.groups|) && |more[k].work| == 1 && more[k].work[0].Todo? && more[k].status.Running?)
    && (match item
        case Todo(_) => false
        case Handler(_) => false
        case Finish(_) => false
        case AwaitRun(g, tries, retries, _) =>
          isTimeout && g == |s.groups| && tries <= retries + 1 && forall k :: 0 <= k < |more| ==> more[k].mode.Enclosed?
        case AwaitAsync(g, watched) =>
          && !isTimeout && g == |s.groups|
          && forall k :: 0 <= k < |more| ==> more[k].mode == Within(s.threads[i].mode, watched))
  }

  lemma GrowKeepsInv(s: State, i: nat, isTimeout: bool, item: Item, more: seq<Thread>)
    requires Inv(s) && i < |s.threads| && s.threads[i].status.Running? && s.threads[i].work != []
    requires !s.threads[i].work[0].AwaitAsync? && MayGrow(s, i, isTimeout, item, more)
    ensures Inv(Grow(s, i, isTimeout, item, more))
  {
    var n := Grow(s, i, isTimeout, item, more);
    assert ThreadInv(s, i);
    forall k | 0 <= k < |n.threads| ensures ThreadInv(n, k) {
      if k < |s.threads| {
        OldThreadAfterGrow(s, i, isTimeout, item, more, k);
      } else {
        NewThreadAfterGrow(s, i, isTimeout, item, more, k);
      }
    }
  }

  lemma OldThreadAfterGrow(s: State, i: nat, isTimeout: bool, item: Item, more: seq<Thread>, k: nat)
    requires Inv(s) && i < |s.threads| && s.threads[i].status.Running? && s.threads[i].work != []
    requires !s.threads[i].work[0].AwaitAsync? && MayGrow(s, i, isTimeout, item, more) && k < |s.threads|
    ensures ThreadInv(Grow(s, i, isTimeout, item, more), k)
  {
    var n := Grow(s, i, isTimeout, item, more);
    assert ThreadInv(s, k);
    if n.threads[k].status.Running? {
      WalkAfterNew(s.groups, n.groups[|s.groups|], n.threads[k].group);
      if n.threads[k].mode.Enclosed? {
        assert IsEnclosed(s, k, n.threads[k].group.value);
      }
      forall w | 0 <= w < |n.threads[k].work| ensures ItemInv(n, k, n.threads[k].work[w]) {
        assert (k != i || w > 0) ==> ItemInv(s, k, s.threads[k].work[w]);
      }
    }
  }

  lemma NewThreadAfterGrow(s: State, i: nat, isTimeout: bool, item: Item, more: seq<Thread>, k: nat)
    requires Inv(s) && i < |s.threads| && s.threads[i].status.Running? && s.threads[i].work != []
    requires MayGrow(s, i, isTimeout, item, more) && |s.threads| <= k < |s.threads| + |more|
    ensures ThreadInv(Grow(s, i, isTimeout, item, more), k)
  {
    var n := Grow(s, i, isTimeout, item, more);
    var g := |s.groups|;
    assert ThreadInv(s, i);
    assert n.threads[k] == more[k - |s.threads|];
    WalkAfterNew(s.groups, n.groups[g], s.threads[i].group);
    assert n.groups[g] == Group(isTimeout, s.threads[i].group, i);
    if !isTimeout && n.threads[k].mode.Enclosed? {
      assert Blocks(n, i, g);
    }
  }

  lemma LooseKeepsInv(s: State, i: nat, funcs: seq<Prog>)
    requires Inv(s)
    ensures Inv(Loose(s, i, funcs))
  {
    var n := Loose(s, i, funcs);
    forall k | 0 <= k < |n.threads| ensures ThreadInv(n, k) {
      if k < |s.threads| {
        OldThreadAfterLoose(s, i, funcs, k);
      } else {
        assert n.threads[k] == Start(|s.groups|, Free, funcs[k - |s.threads|]);
      }
    }
  }

  lemma OldThreadAfterLoose(s: State, i: nat, funcs: seq<Prog>, k: nat)
    requires Inv(s) && k < |s.threads|
    ensures ThreadInv(Loose(s, i, funcs), k)
  {
    var n := Loose(s, i, funcs);
    assert ThreadInv(s, k);
    if n.threads[k].status.Running? {
      WalkAfterNew(s.groups, n.groups[|s.groups|], n.threads[k].group);
      if n.threads[k].mode.Enclosed? {
        assert IsEnclosed(s, k, n.threads[k].group.value);
      }
      forall w | 0 <= w < |n.threads[k].work| ensures ItemInv(n, k, n.threads[k].work[w]) {
        assert ItemInv(s, k, s.threads[k].work[w]);
      }
    }
  }

  /** Nobody relies on a group that `i` awaits, once its threads have ended or a watcher gives up. */
  lemma AwaitedIsUnneeded(s: State, i: nat)
    requires Inv(s) && i < |s.threads| && s.threads[i].status.Running? && s.threads[i].work != []
    ensures
      match s.threads[i].work[0]
      case Todo(_) => true
      case Handler(_) => true
      case Finish(_) => true
      case AwaitRun(g, _, _, _) => Unneeded(s, g)
      case AwaitAsync(g, watched) => AllEnded(s, g) || watched ==> Unneeded(s, g)
  {
    assert ThreadInv(s, i) && ItemInv(s, i, s.threads[i].work[0]);
    if s.threads[i].work[0].AwaitAsync? {
      var g := s.threads[i].work[0].group;
      forall k | 0 <= k < |s.threads| && s.threads[k].group == Some(g) && s.threads[k].status.Running?
        && s.threads[k].mode.Enclosed?
        ensures !AllEnded(s, g) && !s.threads[i].work[0].watched
      {
        assert ThreadInv(s, k) && IsEnclosed(s, k, g);
      }
    }
  }

  lemma {:induction false} UnwindIsIdle(work: seq<Item>)
    requires forall k :: 0 < k < |work| ==> IsIdle(work[k])
    ensures forall k :: 0 <= k < |Unwind(work)| ==> IsIdle(Unwind(work)[k])
    decreases |work|
  {
    if work != [] && !work[0].Handler? {
      UnwindIsIdle(work[1..]);
    }
  }

  lemma RaiseKeepsInv(s: State, i: nat)
    requires Inv(s) && i < |s.threads| && s.threads[i].status.Running?
    requires forall g :: Blocks(s, i, g) ==> Unneeded(s, g)
    ensures Inv(Put(s, i, Raise(s.threads[i])))
  {
    assert ThreadInv(s, i);
    UnwindIsIdle(s.threads[i].work);
    PutKeepsInv(s, i, Raise(s.threads[i]));
  }

  lemma FailedKeepsInv(s: State, i: nat, retry: bool)
    requires Inv(s) && i < |s.threads| && s.threads[i].status.Running?
    requires s.threads[i].work != [] && s.threads[i].work[0].AwaitRun?
    ensures Inv(Failed(s, i, retry))
  {
    var a := s.threads[i].work[0];
    if a.tries > a.retries || !retry {
      RaiseKeepsInv(s, i);
    } else {
      var g := |s.groups|;
      GrowKeepsInv(s, i, true, AwaitRun(g, a.tries + 1, a.retries, a.inner), [Start(g, Enclosed, a.inner)]);
    }
  }

  lemma CallKeepsInv(s: State, i: nat, p: Prog, raises: bool)
    requires Inv(s) && i < |s.threads| && s.threads[i].status.Running?
    requires s.threads[i].work != [] && s.threads[i].work[0].Todo?
    ensures Inv(Call(s, i, p, raises))
  {
    var t := s.threads[i];
    var g := |s.groups|;
    assert ThreadInv(s, i);
    assert forall k :: 0 <= k < |t.work| ==> ItemInv(s, i, t.work[k]);
    match p
    case Body =>
      if raises {
        RaiseKeepsInv(s, i);
      } else {
        PutKeepsInv(s, i, Pop(t));
      }
      MoreExecuted(Put(s, i, if raises then Raise(t) else Pop(t)), s.executed + 1);
    case Then(a, b) => PutKeepsInv(s, i, t.(work := [Todo(a), Todo(b)] + t.work[1..]));
    case Catch(a, b) => PutKeepsInv(s, i, t.(work := [Todo(a), Handler(b)] + t.work[1..]));
    case Decorated(r, q) =>
      if TimeoutGroup(s.groups, t.group).Some? {
        PutKeepsInv(s, i, Replace(t, Todo(q)));
      } else {
        GrowKeepsInv(s, i, true, AwaitRun(g, 1, r, q), [Start(g, Enclosed, q)]);
      }
    case Retried(r, q) => GrowKeepsInv(s, i, true, AwaitRun(g, 1, r, q), [Start(g, Enclosed, q)]);
    case Async(funcs, watched) =>
      GrowKeepsInv(s, i, false, AwaitAsync(g, watched), Starts(g, Within(t.mode, watched), funcs));
    case Spread(funcs, q) =>
      var n := t.(work := [Todo(q), Finish(g)] + t.work[1..]);
      PutKeepsInv(s, i, n);
      LooseKeepsInv(Put(s, i, n), i, funcs);
  }

  lemma MoreExecuted(s: State, executed: nat)
    requires Inv(s)
    ensures Inv(s.(executed := executed))
  {
    var n := s.(executed := executed);
    forall k | 0 <= k < |n.threads| ensures ThreadInv(n, k) {
      assert ThreadInv(s, k);
      if n.threads[k].status.Running? {
        if n.threads[k].mode.Enclosed? {
          assert IsEnclosed(s, k, n.threads[k].group.value);
        }
        forall w | 0 <= w < |n.threads[k].work| ensures ItemInv(n, k, n.threads[k].work[w]) {
          assert ItemInv(s, k, n.threads[k].work[w]);
        }
      }
    }
  }

  lemma NextKeepsInv(s: State, i: nat, e: Event)
    requires Inv(s) && Next(s, i, e).Some?
    ensures Inv(Next(s, i, e).value)
  {
    var t := s.threads[i];
    assert ThreadInv(s, i);
    assert forall k :: 0 <= k < |t.work| ==> ItemInv(s, i, t.work[k]);
    if t.work == [] {
      PutKeepsInv(s, i, t.(status := Returned));
    } else {
      AwaitedIsUnneeded(s, i);
      match t.work[0]
      case Todo(p) => CallKeepsInv(s, i, p, e.raises);
      case Handler(_) => PutKeepsInv(s, i, Pop(t));
      case Finish(g) =>
        if e.TimedOut? || (e.Joined? && SomeRaised(s, g)) {
          RaiseKeepsInv(s, i);
        } else {
          PutKeepsInv(s, i, Pop(t));
        }
      case AwaitRun(g, _, _, _) =>
        UnlinkKeepsInv(s, g);
        var u := Unlink(s, g);
        assert ThreadInv(u, i);
        if e.TimedOut? || (e.Joined? && SomeRaised(s, g)) {
          FailedKeepsInv(u, i, e.retry);
        } else if e.Joined? {
          PutKeepsInv(u, i, Pop(t));
        }
      case AwaitAsync(g, watched) =>
        UnlinkKeepsInv(s, g);
        var u := Unlink(s, g);
        assert ThreadInv(u, i);
        assert forall h :: Blocks(u, i, h) ==> h == g;
        if e.TimedOut? || SomeRaised(s, g) {
          RaiseKeepsInv(u, i);
        } else {
          PutKeepsInv(u, i, Pop(t));
        }
    }
  }

  // ---------------------------------------------------------------------------------
  // How often bodies run
  // ---------------------------------------------------------------------------------

  /** How many bodies an item can still run, other than in threads that exist already. */
  function ItemPotential(item: Item, m: Mode): nat {
    match item
    case Todo(p) => Bound(p, m)
    case Handler(p) => Bound(p, m)
    case AwaitRun(_, tries, retries, q) =>
      if tries <= retries + 1 then Times(retries + 1 - tries, Bound(q, Enclosed)) else 0
    case AwaitAsync(_, _) => 0
    case Finish(_) => 0
  }

  function WorkPotential(work: seq<Item>, m: Mode): nat {
    if work == [] then 0 else ItemPotential(work[0], m) + WorkPotential(work[1..], m)
  }

  function Potential(t: Thread): nat {
    if t.status.Running? then WorkPotential(t.work, t.mode) else 0
  }

  function Total(threads: seq<Thread>): nat
    decreases |threads|
  {
    if threads == [] then 0 else Total(threads[..|threads| - 1]) + Potential(threads[|threads| - 1])
  }

  lemma {:induction false} TotalAfterPut(threads: seq<Thread>, i: nat, t: Thread)
    requires i < |threads|
    ensures Total(threads[i := t]) + Potential(threads[i]) == Total(threads) + Potential(t)
    decreases |threads|
  {
    var n := |threads| - 1;
    if i < n {
      TotalAfterPut(threads[..n], i, t);
      assert threads[i := t][..n] == threads[..n][i := t];
    } else {
      assert threads[i := t][..n] == threads[..n];
    }
  }

  lemma {:induction false} TotalAppend(a: seq<Thread>, b: seq<Thread>)
    ensures Total(a + b) == Total(a) + Total(b)
    decreases |b|
  {
    if b == [] {
      assert a + b == a;
    } else {
      TotalAppend(a, b[..|b| - 1]);
      assert (a + b)[..|a + b| - 1] == a + b[..|b| - 1];
    }
  }

  lemma {:induction false} TotalOfStarts(g: nat, m: Mode, p: Prog, n: nat)
    requires HasFuncs(p) && n <= |p.funcs|
    ensures Total(Starts(g, m, p.funcs)[..n]) == BoundOfFirst(p, n, m)
    decreases n
  {
    hide Bound, Potential;
    var all := Starts(g, m, p.funcs);
    if n > 0 {
      TotalOfStarts(g, m, p, n - 1);
      assert all[..n][..n - 1] == all[..n - 1];
      PotentialOfStart(g, m, p.funcs[n - 1]);
    }
  }

  lemma OneItem(item: Item, m: Mode)
    ensures WorkPotential([item], m) == ItemPotential(item, m)
  {
    hide ItemPotential;
    var work := [item];
    assert work[1..] == [] && WorkPotential(work[1..], m) == 0;
  }

  lemma PotentialOfStart(g: nat, m: Mode, p: Prog)
    ensures Potential(Start(g, m, p)) == Bound(p, m)
  {
    OneItem(Todo(p), m);
  }

  /** What has run and what can still run. */
  function Budget(s: State): nat {
    s.executed + Total(s.threads)
  }

  lemma BudgetAfterPut(s: State, i: nat, t: Thread)
    requires i < |s.threads|
    ensures Budget(Put(s, i, t)) + Potential(s.threads[i]) == Budget(s) + Potential(t)
  {
    TotalAfterPut(s.threads, i, t);
  }

  lemma BudgetAfterGrow(s: State, i: nat, isTimeout: bool, item: Item, more: seq<Thread>)
    requires i < |s.threads| && s.threads[i].status.Running? && s.threads[i].work != []
    ensures
      var m := s.threads[i].mode;
      Budget(Grow(s, i, isTimeout, item, more)) + ItemPotential(s.threads[i].work[0], m)
        == Budget(s) + ItemPotential(item, m) + Total(more)
  {
    var t := Replace(s.threads[i], item);
    TotalAfterPut(s.threads, i, t);
    TotalAppend(s.threads[i := t], more);
    assert t.work[1..] == s.threads[i].work[1..];
  }

  lemma {:induction false} UnwindBudget(work: seq<Item>, m: Mode)
    ensures WorkPotential(Unwind(work), m) <= WorkPotential(work, m)
    decreases |work|
  {
    hide Bound;
    if work != [] {
      if work[0].Handler? {
        assert ([Todo(work[0].prog)] + work[1..])[1..] == work[1..];
      } else {
        UnwindBudget(work[1..], m);
      }
    }
  }

  /** Raising from the first item gives up what that item could still run. */
  lemma RaiseBudget(s: State, i: nat)
    requires i < |s.threads| && s.threads[i].status.Running? && s.threads[i].work != []
      && !s.threads[i].work[0].Handler?
    ensures Budget(Put(s, i, Raise(s.threads[i]))) + ItemPotential(s.threads[i].work[0], s.threads[i].mode) <= Budget(s)
  {
    hide ItemPotential, Total;
    var t := s.threads[i];
    BudgetAfterPut(s, i, Raise(t));
    UnwindBudget(t.work[1..], t.mode);
  }

  lemma FailedBudget(s: State, i: nat, retry: bool)
    requires Inv(s) && i < |s.threads| && s.threads[i].status.Running?
    requires s.threads[i].work != [] && s.threads[i].work[0].AwaitRun?
    ensures Budget(Failed(s, i, retry)) <= Budget(s)
  {
    hide Bound, Times, Total;
    var a := s.threads[i].work[0];
    if a.tries > a.retries || !retry {
      RaiseBudget(s, i);
    } else {
      assert ThreadInv(s, i) && ItemInv(s, i, a);
      BudgetAfterTry(s, i, a.tries + 1, a.retries, a.inner);
    }
  }

  lemma TimesStep(n: nat, b: nat)
    requires n > 0
    ensures Times(n, b) == Times(n - 1, b) + b
  {
  }

  lemma BudgetAfterTry(s: State, i: nat, tries: nat, retries: nat, q: Prog)
    requires i < |s.threads| && s.threads[i].status.Running? && s.threads[i].work != []
    requires 1 <= tries <= retries + 1
    ensures Budget(Try(s, i, tries, retries, q)) + ItemPotential(s.threads[i].work[0], s.threads[i].mode)
      == Budget(s) + Times(retries + 2 - tries, Bound(q, Enclosed))
  {
    hide Bound, Times, Potential;
    TimesStep(retries + 2 - tries, Bound(q, Enclosed));
    var g := |s.groups|;
    var child := Start(g, Enclosed, q);
    BudgetAfterGrow(s, i, true, AwaitRun(g, tries, retries, q), [child]);
    PotentialOfStart(g, Enclosed, q);
    assert [child][..0] == [];
  }

  /** Replacing the first item of the stack. */
  lemma ReplaceBudget(s: State, i: nat, items: seq<Item>)
    requires i < |s.threads| && s.threads[i].status.Running? && s.threads[i].work != []
    ensures
      var t := s.threads[i];
      Budget(Put(s, i, t.(work := items + t.work[1..]))) + ItemPotential(t.work[0], t.mode)
        == Budget(s) + WorkPotential(items, t.mode)
  {
    hide ItemPotential, Total;
    var t := s.threads[i];
    WorkAppend(items, t.work[1..], t.mode);
    BudgetAfterPut(s, i, t.(work := items + t.work[1..]));
  }

  lemma {:induction false} WorkAppend(a: seq<Item>, b: seq<Item>, m: Mode)
    ensures WorkPotential(a + b, m) == WorkPotential(a, m) + WorkPotential(b, m)
    decreases |a|
  {
    hide ItemPotential;
    if a == [] {
      assert a + b == b;
    } else {
      WorkAppend(a[1..], b, m);
      assert (a + b)[1..] == a[1..] + b;
    }
  }

  lemma CallBody(s: State, i: nat, raises: bool)
    requires i < |s.threads| && s.threads[i].status.Running? && s.threads[i].work != []
      && s.threads[i].work[0] == Todo(Body)
    ensures Budget(Call(s, i, Body, raises)) <= Budget(s)
  {
    if raises {
      RaiseBudget(s, i);
    } else {
      BudgetAfterPut(s, i, Pop(s.threads[i]));
    }
  }

  lemma CallThen(s: State, i: nat, a: Prog, b: Prog, raises: bool)
    requires i < |s.threads| && s.threads[i].status.Running?
    requires s.threads[i].work != [] && s.threads[i].work[0] == Todo(Then(a, b))
    ensures Budget(Call(s, i, Then(a, b), raises)) <= Budget(s)
  {
    var m := s.threads[i].mode;
    ReplaceBudget(s, i, [Todo(a), Todo(b)]);
    WorkAppend([Todo(a)], [Todo(b)], m);
    OneItem(Todo(a), m);
    OneItem(Todo(b), m);
    assert [Todo(a)] + [Todo(b)] == [Todo(a), Todo(b)];
    assert Bound(Then(a, b), m) == Bound(a, m) + Bound(b, m);
  }

  lemma CallCatch(s: State, i: nat, a: Prog, b: Prog, raises: bool)
    requires i < |s.threads| && s.threads[i].status.Running? && s.threads[i].work != []
      && s.threads[i].work[0] == Todo(Catch(a, b))
    ensures Budget(Call(s, i, Catch(a, b), raises)) <= Budget(s)
  {
    var m := s.threads[i].mode;
    ReplaceBudget(s, i, [Todo(a), Handler(b)]);
    WorkAppend([Todo(a)], [Handler(b)], m);
    OneItem(Todo(a), m);
    OneItem(Handler(b), m);
    assert [Todo(a)] + [Handler(b)] == [Todo(a), Handler(b)];
    assert Bound(Catch(a, b), m) == Bound(a, m) + Bound(b, m);
  }

  lemma CallDecorated(s: State, i: nat, r: nat, q: Prog, raises: bool)
    requires Inv(s) && i < |s.threads| && s.threads[i].status.Running?
    requires s.threads[i].work != [] && s.threads[i].work[0] == Todo(Decorated(r, q))
    ensures Budget(Call(s, i, Decorated(r, q), raises)) <= Budget(s)
  {
    var t := s.threads[i];
    if t.mode.Enclosed? {
      WalkFindsInnermost(s, i);
    } else if t.mode.Free? {
      FreeFindsNone(s, i);
    }
    hide Inv, Budget, Bound, Times, Try, TimeoutGroup;
    if TimeoutGroup(s.groups, t.group).Some? {
      CallUnwrapped(s, i, r, q);
    } else {
      CallWrapped(s, i, r, q);
    }
  }

  lemma CallUnwrapped(s: State, i: nat, r: nat, q: Prog)
    requires i < |s.threads| && s.threads[i].status.Running? && !s.threads[i].mode.Free?
    requires s.threads[i].work != [] && s.threads[i].work[0] == Todo(Decorated(r, q))
    ensures Budget(Put(s, i, Replace(s.threads[i], Todo(q)))) <= Budget(s)
  {
    hide Bound, Budget, WorkPotential;
    var t := s.threads[i];
    DecoratedBound(r, q, t.mode);
    ReplaceBudget(s, i, [Todo(q)]);
    OneItem(Todo(q), t.mode);
  }

  lemma CallWrapped(s: State, i: nat, r: nat, q: Prog)
    requires i < |s.threads| && s.threads[i].status.Running? && !s.threads[i].mode.Enclosed?
    requires s.threads[i].work != [] && s.threads[i].work[0] == Todo(Decorated(r, q))
    ensures Budget(Try(s, i, 1, r, q)) <= Budget(s)
  {
    hide Bound, Budget, Try, Times;
    DecoratedBound(r, q, s.threads[i].mode);
    BudgetAfterTry(s, i, 1, r, q);
  }

  lemma FreeFindsNone(s: State, i: nat)
    requires Inv(s) && i < |s.threads| && s.threads[i].status.Running? && s.threads[i].mode.Free?
    ensures TimeoutGroup(s.groups, s.threads[i].group).None?
  {
    assert ThreadInv(s, i);
  }

  lemma UnfoldDecorated(r: nat, q: Prog, m: Mode)
    ensures Bound(Decorated(r, q), m) == Wrapped(m, r, Bound(q, Enclosed), Bound(q, Unsure))
  {
    hide Wrapped, BoundOfFirst;
  }

  lemma DecoratedBound(r: nat, q: Prog, m: Mode)
    ensures !m.Free? ==> Bound(q, m) <= Bound(Decorated(r, q), m)
    ensures !m.Enclosed? ==> Tries(r, Bound(q, Enclosed)) <= Bound(Decorated(r, q), m)
  {
    hide Tries, Bound;
    UnfoldDecorated(r, q, m);
  }

  lemma CallAsync(s: State, i: nat, p: Prog, raises: bool)
    requires p.Async? && i < |s.threads| && s.threads[i].status.Running?
    requires s.threads[i].work != [] && s.threads[i].work[0] == Todo(p)
    ensures Budget(Call(s, i, p, raises)) <= Budget(s)
  {
    hide Times, BoundOfFirst, Total;
    var g, m := |s.groups|, Within(s.threads[i].mode, p.watched);
    BudgetAfterGrow(s, i, false, AwaitAsync(g, p.watched), Starts(g, m, p.funcs));
    TotalOfStarts(g, m, p, |p.funcs|);
    assert Starts(g, m, p.funcs)[..|p.funcs|] == Starts(g, m, p.funcs);
  }

  lemma CallRetried(s: State, i: nat, r: nat, q: Prog, raises: bool)
    requires i < |s.threads| && s.threads[i].status.Running?
    requires s.threads[i].work != [] && s.threads[i].work[0] == Todo(Retried(r, q))
    ensures Budget(Call(s, i, Retried(r, q), raises)) <= Budget(s)
  {
    hide Budget, Try, Times, Bound;
    UnfoldRetried(r, q, s.threads[i].mode);
    BudgetAfterTry(s, i, 1, r, q);
  }

  lemma UnfoldRetried(r: nat, q: Prog, m: Mode)
    ensures Bound(Retried(r, q), m) == Tries(r, Bound(q, Enclosed))
  {
    hide BoundOfFirst, Wrapped, Tries;
  }

  lemma UnfoldSpread(p: Prog, m: Mode)
    requires p.Spread?
    ensures Bound(p, m) == BoundOfFirst(p, |p.funcs|, Free) + Bound(p.meanwhile, m)
  {
    hide BoundOfFirst, Wrapped, Tries;
  }

  lemma CallSpread(s: State, i: nat, funcs: seq<Prog>, q: Prog, raises: bool)
    requires i < |s.threads| && s.threads[i].status.Running?
    requires s.threads[i].work != [] && s.threads[i].work[0] == Todo(Spread(funcs, q))
    ensures Budget(Call(s, i, Spread(funcs, q), raises)) <= Budget(s)
  {
    hide Bound, BoundOfFirst, Total;
    var g, t, p := |s.groups|, s.threads[i], Spread(funcs, q);
    var items := [Todo(q), Finish(g)];
    ReplaceBudget(s, i, items);
    WorkAppend([Todo(q)], [Finish(g)], t.mode);
    OneItem(Todo(q), t.mode);
    OneItem(Finish(g), t.mode);
    assert [Todo(q)] + [Finish(g)] == items;
    UnfoldSpread(p, t.mode);
    var n := Put(s, i, t.(work := items + t.work[1..]));
    TotalAppend(n.threads, Starts(g, Free, funcs));
    TotalOfStarts(g, Free, p, |funcs|);
    assert Starts(g, Free, funcs)[..|funcs|] == Starts(g, Free, funcs);
  }

  lemma CallBudget(s: State, i: nat, p: Prog, raises: bool)
    requires Inv(s) && i < |s.threads| && s.threads[i].status.Running?
    requires s.threads[i].work != [] && s.threads[i].work[0] == Todo(p)
    ensures Budget(Call(s, i, p, raises)) <= Budget(s)
  {
    hide Inv, Budget, Call;
    match p
    case Body => CallBody(s, i, raises);
    case Then(a, b) => CallThen(s, i, a, b, raises);
    case Catch(a, b) => CallCatch(s, i, a, b, raises);
    case Decorated(r, q) => CallDecorated(s, i, r, q, raises);
    case Retried(r, q) => CallRetried(s, i, r, q, raises);
    case Async(_, _) => CallAsync(s, i, p, raises);
    case Spread(funcs, q) => CallSpread(s, i, funcs, q, raises);
  }

  lemma NextBudget(s: State, i: nat, e: Event)
    requires Inv(s) && Next(s, i, e).Some?
    ensures Budget(Next(s, i, e).value) <= Budget(s)
  {
    var t := s.threads[i];
    assert ThreadInv(s, i);
    assert forall k :: 0 <= k < |t.work| ==> ItemInv(s, i, t.work[k]);
    if t.work == [] {
      BudgetAfterPut(s, i, t.(status := Returned));
    } else {
      match t.work[0]
      case Todo(p) => CallBudget(s, i, p, e.raises);
      case Handler(_) => BudgetAfterPut(s, i, Pop(t));
      case Finish(g) =>
        if e.TimedOut? || (e.Joined? && SomeRaised(s, g)) {
          RaiseBudget(s, i);
        } else {
          BudgetAfterPut(s, i, Pop(t));
        }
      case AwaitRun(g, _, _, _) =>
        AwaitedIsUnneeded(s, i);
        UnlinkKeepsInv(s, g);
        var u := Unlink(s, g);
        if e.TimedOut? || (e.Joined? && SomeRaised(s, g)) {
          FailedBudget(u, i, e.retry);
        } else if e.Joined? {
          BudgetAfterPut(u, i, Pop(t));
        }
      case AwaitAsync(g, watched) =>
        if e.TimedOut? || SomeRaised(s, g) {
          RaiseBudget(Unlink(s, g), i);
        } else {
          BudgetAfterPut(Unlink(s, g), i, Pop(t));
        }
    }
  }

  // ---------------------------------------------------------------------------------
  // Whole runs
  // ---------------------------------------------------------------------------------

  /** The main thread, which belongs to no group, is about to run `p`. */
  function Initial(p: Prog): State {
    State([], [Thread(None, Free, [Todo(p)], Running)], 0)
  }

  ghost function Exec(s: State, run: seq<(nat, Event)>): Option<State>
    decreases |run|
  {
    if run == [] then Some(s)
    else
      match Exec(s, run[..|run| - 1])
      case None => None
      case Some(t) => Next(t, run[|run| - 1].0, run[|run| - 1].1)
  }

  lemma InitialIsGood(p: Prog)
    ensures Inv(Initial(p)) && Budget(Initial(p)) == Bound(p, Free)
  {
    hide Bound;
    var main := Initial(p).threads[0];
    OneItem(Todo(p), Free);
    assert [main][..0] == [] && Total([main][..0]) == 0;
    assert ThreadInv(Initial(p), 0);
  }

  lemma {:induction false} RunKeepsInv(p: Prog, run: seq<(nat, Event)>)
    requires Exec(Initial(p), run).Some?
    ensures
      var s := Exec(Initial(p), run).value;
      Inv(s) && Budget(s) <= Bound(p, Free)
    decreases |run|
  {
    hide Budget, Inv, Next, Bound, Initial;
    if run == [] {
      InitialIsGood(p);
    } else {
      RunKeepsInv(p, run[..|run| - 1]);
      var t := Exec(Initial(p), run[..|run| - 1]).value;
      NextKeepsInv(t, run[|run| - 1].0, run[|run| - 1].1);
      NextBudget(t, run[|run| - 1].0, run[|run| - 1].1);
    }
  }

  /** In every run of every program the bodies run no more often than the bound says. */
  lemma BodiesRunWithinBound(p: Prog, run: seq<(nat, Event)>)
    requires Exec(Initial(p), run).Some?
    ensures Exec(Initial(p), run).value.executed <= Bound(p, Free)
  {
    RunKeepsInv(p, run);
  }

  // ---------------------------------------------------------------------------------
  // Runs without exceptions
  // ---------------------------------------------------------------------------------

  /** How many bodies a program has, but for those of its handlers. */
  function Bodies(p: Prog): nat
    decreases p
  {
    match p
    case Body => 1
    case Then(a, b) => Bodies(a) + Bodies(b)
    case Catch(a, _) => Bodies(a)
    case Decorated(_, q) => Bodies(q)
    case Retried(_, q) => Bodies(q)
    case Async(funcs, _) => BodiesOfFirst(p, |funcs|)
    case Spread(funcs, q) => BodiesOfFirst(p, |funcs|) + Bodies(q)
  }

  function BodiesOfFirst(p: Prog, n: nat): nat
    requires HasFuncs(p) && n <= |p.funcs|
    decreases p, n
  {
    if n == 0 then 0 else BodiesOfFirst(p, n - 1) + Bodies(p.funcs[n - 1])
  }

  /** The bodies that a thread still has to run itself. */
  function LeftIn(work: seq<Item>): nat {
    if work == [] then 0 else (if work[0].Todo? then Bodies(work[0].prog) else 0) + LeftIn(work[1..])
  }

  function Left(t: Thread): nat {
    if t.status.Running? then LeftIn(t.work) else 0
  }

  function LeftOfAll(threads: seq<Thread>): nat
    decreases |threads|
  {
    if threads == [] then 0 else LeftOfAll(threads[..|threads| - 1]) + Left(threads[|threads| - 1])
  }

  /** No body raises, and no watcher or watchdog gives up. */
  predicate IsCalm(e: Event) {
    !e.TimedOut? && (e.Proceed? ==> !e.raises)
  }

  ghost predicate NoneRaised(s: State) {
    forall i :: 0 <= i < |s.threads| ==> !s.threads[i].status.Raised?
  }

  lemma {:induction false} LeftAfterPut(threads: seq<Thread>, i: nat, t: Thread)
    requires i < |threads|
    ensures LeftOfAll(threads[i := t]) + Left(threads[i]) == LeftOfAll(threads) + Left(t)
    decreases |threads|
  {
    hide Left;
    var n := |threads| - 1;
    if i < n {
      LeftAfterPut(threads[..n], i, t);
      assert threads[i := t][..n] == threads[..n][i := t];
    } else {
      assert threads[i := t][..n] == threads[..n];
    }
  }

  lemma {:induction false} LeftAppend(a: seq<Thread>, b: seq<Thread>)
    ensures LeftOfAll(a + b) == LeftOfAll(a) + LeftOfAll(b)
    decreases |b|
  {
    hide Left;
    if b == [] {
      assert a + b == a;
    } else {
      LeftAppend(a, b[..|b| - 1]);
      assert (a + b)[..|a + b| - 1] == a + b[..|b| - 1];
    }
  }

  lemma {:induction false} LeftOfStarts(g: nat, m: Mode, p: Prog, n: nat)
    requires HasFuncs(p) && n <= |p.funcs|
    ensures LeftOfAll(Starts(g, m, p.funcs)[..n]) == BodiesOfFirst(p, n)
    decreases n
  {
    hide Bodies, Left;
    var all := Starts(g, m, p.funcs);
    if n > 0 {
      LeftOfStarts(g, m, p, n - 1);
      assert all[..n][..n - 1] == all[..n - 1];
      LeftOfStart(g, m, p.funcs[n - 1]);
    }
  }

  lemma LeftOfStart(g: nat, m: Mode, p: Prog)
    ensures Left(Start(g, m, p)) == Bodies(p)
  {
    hide Bodies;
    LeftOne(Todo(p), []);
  }

  lemma LeftOne(item: Item, work: seq<Item>)
    ensures LeftIn([item] + work) == (if item.Todo? then Bodies(item.prog) else 0) + LeftIn(work)
    ensures LeftIn([item]) == if item.Todo? then Bodies(item.prog) else 0
  {
    hide Bodies;
    assert ([item] + work)[1..] == work && [item][1..] == [];
  }

  /** What has run and what is left, together. */
  function Share(s: State): nat {
    s.executed + LeftOfAll(s.threads)
  }

  lemma ShareAfterPut(s: State, i: nat, t: Thread)
    requires i < |s.threads|
    ensures Share(Put(s, i, t)) + Left(s.threads[i]) == Share(s) + Left(t)
  {
    LeftAfterPut(s.threads, i, t);
  }

  /** A new first item, and new threads. */
  lemma ShareAfterGrow(s: State, i: nat, isTimeout: bool, item: Item, more: seq<Thread>)
    requires i < |s.threads| && s.threads[i].status.Running? && s.threads[i].work != [] && !item.Todo?
    requires s.threads[i].work[0].Todo?
    ensures
      Share(Grow(s, i, isTimeout, item, more)) + Bodies(s.threads[i].work[0].prog) == Share(s) + LeftOfAll(more)
  {
    hide Bodies;
    var t := s.threads[i];
    LeftAfterPut(s.threads, i, Replace(t, item));
    LeftAppend(s.threads[i := Replace(t, item)], more);
    LeftOne(item, t.work[1..]);
    LeftOne(t.work[0], t.work[1..]);
    assert [t.work[0]] + t.work[1..] == t.work;
  }

  lemma LeftOfTry(g: nat, q: Prog)
    ensures LeftOfAll([Start(g, Enclosed, q)]) == Bodies(q)
  {
    hide Bodies, Left;
    LeftOfStart(g, Enclosed, q);
    assert [Start(g, Enclosed, q)][..0] == [];
  }

  lemma ShareAfterScatter(s: State, i: nat, funcs: seq<Prog>, q: Prog)
    requires i < |s.threads| && s.threads[i].status.Running? && s.threads[i].work != []
    requires s.threads[i].work[0] == Todo(Spread(funcs, q))
    ensures Share(Scatter(s, i, funcs, q)) == Share(s)
  {
    hide Left;
    var t, p, g := s.threads[i], Spread(funcs, q), |s.groups|;
    var n := t.(work := [Todo(q), Finish(g)] + t.work[1..]);
    LeftAfterPut(s.threads, i, n);
    LeftAppend(s.threads[i := n], Starts(g, Free, funcs));
    LeftOfStarts(g, Free, p, |funcs|);
    assert Starts(g, Free, funcs)[..|funcs|] == Starts(g, Free, funcs);
    LeftOfThread(t, Todo(p), t.work[1..]);
    LeftOfThread(n, Todo(q), [Finish(g)] + t.work[1..]);
    LeftOne(Finish(g), t.work[1..]);
    assert [Todo(q)] + ([Finish(g)] + t.work[1..]) == n.work;
  }

  lemma LeftOfThread(t: Thread, item: Item, work: seq<Item>)
    requires t.status.Running? && t.work == [item] + work
    ensures Left(t) == (if item.Todo? then Bodies(item.prog) else 0) + LeftIn(work)
  {
    hide Bodies;
    LeftOne(item, work);
  }

  /** Replacing the first item, which is something to do, by another. */
  lemma ShareAfterReplace(s: State, i: nat, item: Item)
    requires i < |s.threads| && s.threads[i].status.Running? && s.threads[i].work != []
    requires s.threads[i].work[0].Todo?
    ensures
      var t := s.threads[i];
      Share(Put(s, i, t.(work := [item] + t.work[1..]))) + Bodies(t.work[0].prog)
        == Share(s) + (if item.Todo? then Bodies(item.prog) else 0)
  {
    hide Bodies, Left, Share;
    var t := s.threads[i];
    var n := t.(work := [item] + t.work[1..]);
    ShareAfterPut(s, i, n);
    LeftOfThread(t, t.work[0], t.work[1..]);
    LeftOfThread(n, item, t.work[1..]);
  }

  /** Or by two others. */
  lemma ShareAfterTwo(s: State, i: nat, a: Prog, item: Item)
    requires i < |s.threads| && s.threads[i].status.Running? && s.threads[i].work != []
    requires s.threads[i].work[0].Todo?
    ensures
      var t := s.threads[i];
      Share(Put(s, i, t.(work := [Todo(a), item] + t.work[1..]))) + Bodies(t.work[0].prog)
        == Share(s) + Bodies(a) + (if item.Todo? then Bodies(item.prog) else 0)
  {
    hide Bodies, Left, Share;
    var t := s.threads[i];
    var n := t.(work := [Todo(a), item] + t.work[1..]);
    ShareAfterPut(s, i, n);
    LeftOfThread(t, t.work[0], t.work[1..]);
    LeftOne(item, t.work[1..]);
    assert n.work == [Todo(a)] + ([item] + t.work[1..]);
    LeftOfThread(n, Todo(a), [item] + t.work[1..]);
  }

  lemma ShareAfterPop(s: State, i: nat)
    requires i < |s.threads| && s.threads[i].status.Running? && s.threads[i].work != []
    ensures
      var item := s.threads[i].work[0];
      Share(Put(s, i, Pop(s.threads[i]))) + (if item.Todo? then Bodies(item.prog) else 0) == Share(s)
  {
    hide Bodies;
    var t := s.threads[i];
    ShareAfterPut(s, i, Pop(t));
    LeftOfThread(t, t.work[0], t.work[1..]);
  }

  lemma CallShare(s: State, i: nat, p: Prog)
    requires i < |s.threads| && s.threads[i].status.Running? && s.threads[i].work != []
    requires s.threads[i].work[0] == Todo(p)
    ensures Share(Call(s, i, p, false)) == Share(s)
  {
    hide Share, Left, LeftOfAll;
    var t, g := s.threads[i], |s.groups|;
    match p
    case Body =>
      ShareAfterPop(s, i);
      MoreShare(Put(s, i, Pop(t)), s.executed + 1);
    case Then(a, b) =>
      ShareAfterTwo(s, i, a, Todo(b));
    case Catch(a, b) =>
      ShareAfterTwo(s, i, a, Handler(b));
    case Decorated(r, q) =>
      if TimeoutGroup(s.groups, t.group).Some? {
        ShareAfterReplace(s, i, Todo(q));
      } else {
        TryShare(s, i, r, q);
      }
    case Retried(r, q) => TryShare(s, i, r, q);
    case Async(funcs, watched) =>
      var m := Within(t.mode, watched);
      ShareAfterGrow(s, i, false, AwaitAsync(g, watched), Starts(g, m, funcs));
      LeftOfStarts(g, m, p, |funcs|);
      assert Starts(g, m, funcs)[..|funcs|] == Starts(g, m, funcs);
    case Spread(funcs, q) => ShareAfterScatter(s, i, funcs, q);
  }

  lemma MoreShare(s: State, executed: nat)
    ensures Share(s.(executed := executed)) + s.executed == Share(s) + executed
  {
  }

  lemma TryShare(s: State, i: nat, r: nat, q: Prog)
    requires i < |s.threads| && s.threads[i].status.Running? && s.threads[i].work != []
    requires s.threads[i].work[0].Todo? && Bodies(s.threads[i].work[0].prog) == Bodies(q)
    ensures Share(Try(s, i, 1, r, q)) == Share(s)
  {
    hide Bodies, Share, LeftOfAll;
    var g := |s.groups|;
    ShareAfterGrow(s, i, true, AwaitRun(g, 1, r, q), [Start(g, Enclosed, q)]);
    LeftOfTry(g, q);
  }

  /** A calm step makes no body run that is not among those, and loses none. */
  lemma CalmStep(s: State, i: nat, e: Event)
    requires NoneRaised(s) && Next(s, i, e).Some? && IsCalm(e)
    ensures var n := Next(s, i, e).value; NoneRaised(n) && Share(n) == Share(s)
  {
    hide Share, Left, LeftOfAll, Bodies;
    var t := s.threads[i];
    if t.work == [] {
      ShareAfterPut(s, i, t.(status := Returned));
      EmptyHasNothing(t);
    } else {
      match t.work[0]
      case Todo(p) =>
        CallShare(s, i, p);
        CallRaisesNothing(s, i, p);
      case Handler(_) => ShareAfterPop(s, i);
      case Finish(_) => ShareAfterPop(s, i);
      case AwaitRun(g, _, _, _) =>
        UnlinkShare(s, g);
        ShareAfterPop(Unlink(s, g), i);
      case AwaitAsync(g, _) =>
        UnlinkShare(s, g);
        ShareAfterPop(Unlink(s, g), i);
    }
  }

  lemma EmptyHasNothing(t: Thread)
    requires t.work == []
    ensures Left(t) == 0 && Left(t.(status := Returned)) == 0
  {
  }

  lemma UnlinkShare(s: State, g: nat)
    ensures Share(Unlink(s, g)) == Share(s)
  {
  }

  lemma CallRaisesNothing(s: State, i: nat, p: Prog)
    requires NoneRaised(s) && i < |s.threads| && s.threads[i].status.Running? && s.threads[i].work != []
    ensures NoneRaised(Call(s, i, p, false))
  {
  }

  ghost predicate IsCalmRun(run: seq<(nat, Event)>) {
    forall k :: 0 <= k < |run| ==> IsCalm(run[k].1)
  }

  /**
    In every run of every program in which no body raises and no time-out happens, what has run and
    what is left are together the bodies of the program: none is repeated, skipped or a handler's.
   */
  lemma {:induction false} CalmRunsAreExact(p: Prog, run: seq<(nat, Event)>)
    requires Exec(Initial(p), run).Some? && IsCalmRun(run)
    ensures
      var s := Exec(Initial(p), run).value;
      && NoneRaised(s) && s.executed <= Bodies(p)
      && ((forall i :: 0 <= i < |s.threads| ==> !s.threads[i].status.Running?) ==> s.executed == Bodies(p))
  {
    CalmShare(p, run);
    var s := Exec(Initial(p), run).value;
    if forall i :: 0 <= i < |s.threads| ==> !s.threads[i].status.Running? {
      NothingLeft(s.threads);
    }
  }

  lemma {:induction false} CalmShare(p: Prog, run: seq<(nat, Event)>)
    requires Exec(Initial(p), run).Some? && IsCalmRun(run)
    ensures var s := Exec(Initial(p), run).value; NoneRaised(s) && Share(s) == Bodies(p)
    decreases |run|
  {
    hide Share, Next, Bodies, Initial;
    if run == [] {
      InitialShare(p);
    } else {
      CalmShare(p, run[..|run| - 1]);
      CalmStep(Exec(Initial(p), run[..|run| - 1]).value, run[|run| - 1].0, run[|run| - 1].1);
    }
  }

  lemma InitialShare(p: Prog)
    ensures NoneRaised(Initial(p)) && Share(Initial(p)) == Bodies(p)
  {
    hide Bodies, Left;
    var main := Initial(p).threads[0];
    LeftOfThread(main, Todo(p), []);
    assert [main][..0] == [] && LeftOfAll([main][..0]) == 0;
  }

  lemma {:induction false} NothingLeft(threads: seq<Thread>)
    requires forall i :: 0 <= i < |threads| ==> !threads[i].status.Running?
    ensures LeftOfAll(threads) == 0
    decreases |threads|
  {
    if threads != [] {
      NothingLeft(threads[..|threads| - 1]);
    }
  }

  // ---------------------------------------------------------------------------------
  // Chains
  // ---------------------------------------------------------------------------------

  /**
    A decorated function, a direct call of `timeout_retry.Run`, `RunAsync` of one function, or a group
    of one thread that is started without blocking and joined; each calls the next link once.
   */
  datatype Link = Deco(retries: nat) | Direct(retries: nat) | Hop(watched: bool) | Apart

  const NOTHING := Async([], false)

  /** The links around one body. */
  function Chain(links: seq<Link>): Prog {
    if links == [] then Body
    else
      match links[0]
      case Deco(r) => Decorated(r, Chain(links[1..]))
      case Direct(r) => Retried(r, Chain(links[1..]))
      case Hop(watched) => Async([Chain(links[1..])], watched)
      case Apart => Spread([Chain(links[1..])], NOTHING)
  }

  predicate HasTries(link: Link) {
    link.Deco? || link.Direct?
  }

  /** The tries of the outermost function that has some. */
  function OuterTries(links: seq<Link>): nat {
    if links == [] then 1
    else if HasTries(links[0]) then links[0].retries + 1
    else OuterTries(links[1..])
  }

  /**
    A retry gets through: a direct call that retries always does.  A decorated function that retries
    does where nothing encloses it, and where that depends on a watcher; within it, all is enclosed.
   */
  predicate GetsThrough(links: seq<Link>, m: Mode) {
    links != []
    && match links[0]
       case Deco(r) =>
         (!m.Enclosed? && r > 0) || GetsThrough(links[1..], Enclosed) || (m.Unsure? && GetsThrough(links[1..], Unsure))
       case Direct(r) => r > 0 || GetsThrough(links[1..], Enclosed)
       case Hop(watched) => GetsThrough(links[1..], Within(m, watched))
       case Apart => GetsThrough(links[1..], Free)
  }

  /** A retry gets through inside the outermost function that has tries. */
  predicate Escapes(links: seq<Link>) {
    links != [] && if HasTries(links[0]) then GetsThrough(links[1..], Enclosed) else Escapes(links[1..])
  }

  lemma {:induction false} TimesOne(n: nat)
    ensures Times(n, 1) == n
  {
    if n > 0 {
      TimesOne(n - 1);
    }
  }

  /** A decorated function around something that runs the body once. */
  lemma DecoratedOnce(r: nat, q: Prog)
    requires Bound(q, Enclosed) == 1
    ensures Bound(Decorated(r, q), Enclosed) == 1 && Bound(Decorated(r, q), Free) == r + 1
    ensures r == 0 && Bound(q, Unsure) == 1 ==> Bound(Decorated(r, q), Unsure) == 1
  {
    hide Bound, Times;
    UnfoldDecorated(r, q, Enclosed);
    UnfoldDecorated(r, q, Free);
    UnfoldDecorated(r, q, Unsure);
    TimesOne(r + 1);
  }

  lemma RetriedOnce(r: nat, q: Prog, m: Mode)
    requires Bound(q, Enclosed) == 1
    ensures Bound(Retried(r, q), m) == r + 1
  {
    hide Bound, Times;
    UnfoldRetried(r, q, m);
    TimesOne(r + 1);
  }

  lemma BodyOnce(m: Mode)
    ensures Bound(Body, m) == 1
  {
  }

  lemma UnfoldAsync(p: Prog, m: Mode)
    requires p.Async?
    ensures Bound(p, m) == BoundOfFirst(p, |p.funcs|, Within(m, p.watched))
  {
    hide BoundOfFirst, Wrapped;
  }

  lemma HopBound(q: Prog, watched: bool, m: Mode)
    ensures Bound(Async([q], watched), m) == Bound(q, Within(m, watched))
  {
    hide Bound, Within;
    var p, w := Async([q], watched), Within(m, watched);
    UnfoldAsync(p, m);
    assert BoundOfFirst(p, 1, w) == BoundOfFirst(p, 0, w) + Bound(p.funcs[0], w);
  }

  lemma ApartBound(q: Prog, m: Mode)
    ensures Bound(Spread([q], NOTHING), m) == Bound(q, Free)
  {
    hide Bound;
    var p := Spread([q], NOTHING);
    UnfoldSpread(p, m);
    UnfoldAsync(NOTHING, m);
    assert BoundOfFirst(p, 1, Free) == BoundOfFirst(p, 0, Free) + Bound(p.funcs[0], Free);
  }

  /** If no retry gets through the body runs once. */
  lemma {:induction false} BoundInside(links: seq<Link>, m: Mode)
    requires !GetsThrough(links, m)
    ensures Bound(Chain(links), m) == 1
    decreases |links|
  {
    hide Bound;
    if links == [] {
      BodyOnce(m);
    } else {
      var rest := links[1..];
      match links[0]
      case Deco(r) =>
        BoundInside(rest, Enclosed);
        if m.Unsure? {
          BoundInside(rest, Unsure);
        }
        DecoratedOnce(r, Chain(rest));
      case Direct(r) =>
        BoundInside(rest, Enclosed);
        RetriedOnce(r, Chain(rest), m);
      case Hop(watched) =>
        BoundInside(rest, Within(m, watched));
        HopBound(Chain(rest), watched, m);
      case Apart =>
        BoundInside(rest, Free);
        ApartBound(Chain(rest), m);
    }
  }

  lemma {:induction false} BoundOutside(links: seq<Link>)
    requires !Escapes(links)
    ensures Bound(Chain(links), Free) == OuterTries(links)
    decreases |links|
  {
    hide Bound;
    if links == [] {
      BodyOnce(Free);
    } else {
      var q := Chain(links[1..]);
      match links[0]
      case Deco(r) =>
        BoundInside(links[1..], Enclosed);
        DecoratedOnce(r, q);
      case Direct(r) =>
        BoundInside(links[1..], Enclosed);
        RetriedOnce(r, q, Free);
      case Hop(watched) =>
        BoundOutside(links[1..]);
        HopBound(q, watched, Free);
      case Apart =>
        BoundOutside(links[1..]);
        ApartBound(q, Free);
    }
  }

  // ---------------------------------------------------------------------------------
  // Runs of chains
  // ---------------------------------------------------------------------------------

  ghost predicate Reachable(p: Prog, s: State) {
    exists run :: Exec(Initial(p), run) == Some(s)
  }

  lemma ReachableInv(p: Prog, s: State)
    requires Reachable(p, s)
    ensures Inv(s)
  {
    var run :| Exec(Initial(p), run) == Some(s);
    RunKeepsInv(p, run);
  }

  lemma Reach(p: Prog, s: State, i: nat, e: Event)
    requires Reachable(p, s) && Next(s, i, e).Some?
    ensures Reachable(p, Next(s, i, e).value)
  {
    hide Next;
    var run :| Exec(Initial(p), run) == Some(s);
    var longer := run + [(i, e)];
    assert longer[..|longer| - 1] == run;
    assert Exec(Initial(p), longer) == Some(Next(s, i, e).value);
  }

  /** Thread t is about to run the links, and nothing else. */
  ghost predicate IsAt(s: State, t: nat, links: seq<Link>) {
    t < |s.threads| && s.threads[t].status.Running? && s.threads[t].work == [Todo(Chain(links))]
  }

  predicate IsOver(s: State, t: nat) {
    t < |s.threads| && s.threads[t].status.Raised?
  }

  /** From s to u only thread t of the old threads has changed, no old group has, and new threads are in new groups. */
  ghost predicate Only(s: State, u: State, t: nat) {
    && |s.threads| <= |u.threads| && |s.groups| <= |u.groups| && t < |s.threads|
    && (forall g :: 0 <= g < |s.groups| ==> u.groups[g] == s.groups[g])
    && (forall k :: 0 <= k < |s.threads| && k != t ==> u.threads[k] == s.threads[k])
    && u.threads[t].group == s.threads[t].group
    && (forall k :: |s.threads| <= k < |u.threads| ==>
      u.threads[k].group.Some? && u.threads[k].group.value >= |s.groups|)
  }

  ghost function WalkOf(s: State, t: nat): Option<nat>
    requires t < |s.threads|
  {
    TimeoutGroup(s.groups, s.threads[t].group)
  }

  /** The body of a thread at the end of the chain raises. */
  lemma BodyStep(p: Prog, s: State, t: nat) returns (u: State)
    requires Reachable(p, s) && IsAt(s, t, [])
    ensures Reachable(p, u) && Only(s, u, t) && IsOver(u, t) && u.executed == s.executed + 1
    ensures |u.threads| == |s.threads| && u.groups == s.groups
  {
    assert Unwind(s.threads[t].work[1..]) == [];
    u := Next(s, t, Proceed(true)).value;
    Reach(p, s, t, Proceed(true));
  }

  /** A decorated function inside a timeout group just calls the next link. */
  lemma PassStep(p: Prog, s: State, t: nat, links: seq<Link>) returns (u: State)
    requires Reachable(p, s) && IsAt(s, t, links) && links != [] && links[0].Deco? && WalkOf(s, t).Some?
    ensures Reachable(p, u) && Only(s, u, t) && IsAt(u, t, links[1..]) && u.groups == s.groups
      && u.executed == s.executed
  {
    u := Next(s, t, Proceed(false)).value;
    Reach(p, s, t, Proceed(false));
    assert u.threads[t].work == [Todo(Chain(links[1..]))];
  }

  /** A hop: thread t blocks on a new thread, whose group is linked to that of t. */
  lemma HopStep(p: Prog, s: State, t: nat, links: seq<Link>) returns (u: State)
    requires Reachable(p, s) && IsAt(s, t, links) && links != [] && links[0].Hop?
    ensures Reachable(p, u) && Only(s, u, t) && u.executed == s.executed
    ensures u.groups == s.groups + [Group(false, s.threads[t].group, t)]
    ensures u.threads[t].status.Running? && u.threads[t].work == [AwaitAsync(|s.groups|, links[0].watched)]
    ensures |u.threads| == |s.threads| + 1 && IsAt(u, |s.threads|, links[1..])
    ensures u.threads[|s.threads|].group == Some(|s.groups|)
    ensures WalkOf(u, |s.threads|) == WalkOf(s, t)
  {
    ReachableInv(p, s);
    assert ThreadInv(s, t);
    u := Next(s, t, Proceed(false)).value;
    Reach(p, s, t, Proceed(false));
    assert u.threads[t].work == [AwaitAsync(|s.groups|, links[0].watched)];
    WalkAfterNew(s.groups, u.groups[|s.groups|], s.threads[t].group);
  }

  /** Once the awaited thread is over its exception goes on in the thread that waits. */
  lemma JoinHop(p: Prog, s: State, t: nat, c: nat, g: nat, watched: bool) returns (u: State)
    requires Reachable(p, s) && t < |s.threads| && s.threads[t].status.Running?
      && s.threads[t].work == [AwaitAsync(g, watched)]
    requires IsOver(s, c) && s.threads[c].group == Some(g) && g < |s.groups|
    requires forall k :: 0 <= k < |s.threads| && k != c ==> s.threads[k].group != Some(g)
    ensures Reachable(p, u) && IsOver(u, t) && u == Put(Unlink(s, g), t, u.threads[t]) && u.executed == s.executed
    ensures u.threads[t].group == s.threads[t].group
  {
    assert AllEnded(s, g) && SomeRaised(s, g);
    assert Unwind(s.threads[t].work[1..]) == [];
    u := Next(s, t, Joined(true)).value;
    Reach(p, s, t, Joined(true));
  }

  /** A group apart: its thread is outside all timeout groups. */
  lemma ApartStep(p: Prog, s: State, t: nat, links: seq<Link>) returns (u: State)
    requires Reachable(p, s) && IsAt(s, t, links) && links != [] && links[0].Apart?
    ensures Reachable(p, u) && Only(s, u, t) && u.executed == s.executed
    ensures |u.groups| == |s.groups| + 1 && u.threads[t].status.Running?
    ensures u.threads[t].work == [Todo(NOTHING), Finish(|s.groups|)]
    ensures |u.threads| == |s.threads| + 1 && IsAt(u, |s.threads|, links[1..])
    ensures u.threads[|s.threads|].group == Some(|s.groups|) && WalkOf(u, |s.threads|).None?
  {
    u := Next(s, t, Proceed(false)).value;
    Reach(p, s, t, Proceed(false));
    assert u.threads[t].work == [Todo(NOTHING), Finish(|s.groups|)];
  }

  /** Doing nothing meanwhile. */
  lemma NothingStep(p: Prog, s: State, t: nat, g: nat) returns (u: State)
    requires Reachable(p, s) && t < |s.threads| && s.threads[t].status.Running?
    requires s.threads[t].work == [Todo(NOTHING), Finish(g)]
    ensures Reachable(p, u) && Only(s, u, t) && u.executed == s.executed && |u.threads| == |s.threads|
    ensures u.threads[t].status.Running? && u.threads[t].work == [Finish(g)]
  {
    ReachableInv(p, s);
    var h := |s.groups|;
    var v := Next(s, t, Proceed(false)).value;
    Reach(p, s, t, Proceed(false));
    assert v.threads[t].work == [AwaitAsync(h, false), Finish(g)];
    forall k | 0 <= k < |v.threads| ensures v.threads[k].group != Some(h) {
      assert ThreadInv(s, k);
    }
    assert AllEnded(v, h) && !SomeRaised(v, h);
    u := Next(v, t, Joined(true)).value;
    Reach(p, v, t, Joined(true));
    assert u.threads[t].work == [Finish(g)];
  }

  /** Joining a group apart whose thread has raised. */
  lemma FinishStep(p: Prog, s: State, t: nat, c: nat, g: nat) returns (u: State)
    requires Reachable(p, s) && t < |s.threads| && s.threads[t].status.Running? && s.threads[t].work == [Finish(g)]
    requires IsOver(s, c) && s.threads[c].group == Some(g)
    requires forall k :: 0 <= k < |s.threads| && k != c ==> s.threads[k].group != Some(g)
    ensures Reachable(p, u) && Only(s, u, t) && IsOver(u, t) && u.executed == s.executed
  {
    assert AllEnded(s, g) && SomeRaised(s, g);
    assert Unwind(s.threads[t].work[1..]) == [];
    u := Next(s, t, Joined(true)).value;
    Reach(p, s, t, Joined(true));
  }

  /** A try that is not repeated: its exception goes on. */
  lemma LetGo(p: Prog, s: State, t: nat, c: nat, g: nat, k: nat, r: nat, q: Prog) returns (u: State)
    requires Reachable(p, s) && t < |s.threads| && s.threads[t].status.Running? && g < |s.groups|
    requires s.threads[t].work == [AwaitRun(g, k, r, q)]
    requires IsOver(s, c) && s.threads[c].group == Some(g)
    requires forall i :: 0 <= i < |s.threads| && i != c ==> s.threads[i].group != Some(g)
    ensures Reachable(p, u) && IsOver(u, t) && u == Put(Unlink(s, g), t, u.threads[t]) && u.executed == s.executed
    ensures u.threads[t].group == s.threads[t].group
  {
    assert AllEnded(s, g) && SomeRaised(s, g);
    assert Unwind(s.threads[t].work[1..]) == [];
    u := Next(s, t, Joined(false)).value;
    Reach(p, s, t, Joined(false));
  }

  /** The chain, wherever it is: its body runs and raises, and the exception comes up to thread t. */
  lemma {:induction false} Crash(p: Prog, s: State, t: nat, links: seq<Link>) returns (u: State)
    requires Reachable(p, s) && IsAt(s, t, links)
    ensures Reachable(p, u) && Only(s, u, t) && IsOver(u, t) && u.executed >= s.executed + 1
    decreases |links|
  {
    if links == [] {
      u := BodyStep(p, s, t);
    } else if links[0].Hop? {
      u := CrashHop(p, s, t, links);
    } else if links[0].Apart? {
      u := CrashApart(p, s, t, links);
    } else if links[0].Deco? && WalkOf(s, t).Some? {
      var v := PassStep(p, s, t, links);
      u := Crash(p, v, t, links[1..]);
    } else {
      var v, c := BeginTry(p, s, t, links);
      var g := v.threads[c].group.value;
      var w := Crash(p, v, c, links[1..]);
      u := LetGo(p, w, t, c, g, 1, links[0].retries, Chain(links[1..]));
    }
  }

  lemma {:induction false} CrashHop(p: Prog, s: State, t: nat, links: seq<Link>) returns (u: State)
    requires Reachable(p, s) && IsAt(s, t, links) && links != [] && links[0].Hop?
    ensures Reachable(p, u) && Only(s, u, t) && IsOver(u, t) && u.executed >= s.executed + 1
    decreases |links|, 0
  {
    var g, c := |s.groups|, |s.threads|;
    var v := HopStep(p, s, t, links);
    var w := Crash(p, v, c, links[1..]);
    ReachableInv(p, s);
    forall k | 0 <= k < |w.threads| && k != c ensures w.threads[k].group != Some(g) {
      assert k < c ==> ThreadInv(s, k);
    }
    u := JoinHop(p, w, t, c, g, links[0].watched);
  }

  lemma {:induction false} CrashApart(p: Prog, s: State, t: nat, links: seq<Link>) returns (u: State)
    requires Reachable(p, s) && IsAt(s, t, links) && links != [] && links[0].Apart?
    ensures Reachable(p, u) && Only(s, u, t) && IsOver(u, t) && u.executed >= s.executed + 1
    decreases |links|, 0
  {
    var g, c := |s.groups|, |s.threads|;
    var v := ApartStep(p, s, t, links);
    var x := NothingStep(p, v, t, g);
    var w := Crash(p, x, c, links[1..]);
    ReachableInv(p, s);
    forall k | 0 <= k < |w.threads| && k != c ensures w.threads[k].group != Some(g) {
      assert k < c ==> ThreadInv(s, k);
    }
    u := FinishStep(p, w, t, c, g);
  }

  /** Thread t is at try k of r + 1, and the only thread of that try, c, is at the start of the links. */
  ghost predicate Trying(s: State, t: nat, c: nat, k: nat, r: nat, links: seq<Link>) {
    && t < |s.threads| && t != c && IsAt(s, c, links) && 1 <= k <= r + 1
    && s.threads[c].group.Some? && s.threads[t].status.Running?
    && (var g := s.threads[c].group.value;
        && g < |s.groups| && s.groups[g].isTimeout && s.threads[t].work == [AwaitRun(g, k, r, Chain(links))]
        && forall i :: 0 <= i < |s.threads| && i != c ==> s.threads[i].group != Some(g))
  }

  /** The first link begins with a try: it is a direct call, or outside all timeout groups. */
  ghost predicate BeginsTry(s: State, t: nat, links: seq<Link>) {
    t < |s.threads| && links != [] && (links[0].Direct? || (links[0].Deco? && WalkOf(s, t).None?))
  }

  /** The first try of a function begins. */
  lemma BeginTry(p: Prog, s: State, t: nat, links: seq<Link>) returns (u: State, c: nat)
    requires Reachable(p, s) && IsAt(s, t, links) && BeginsTry(s, t, links)
    ensures Reachable(p, u) && Trying(u, t, c, 1, links[0].retries, links[1..]) && u.executed == s.executed
    ensures Only(s, u, t) && c == |s.threads| && |u.threads| == c + 1 && u.threads[c].group == Some(|s.groups|)
    ensures |u.groups| == |s.groups| + 1
  {
    ReachableInv(p, s);
    var r, q, g := links[0].retries, Chain(links[1..]), |s.groups|;
    u, c := Next(s, t, Proceed(false)).value, |s.threads|;
    Reach(p, s, t, Proceed(false));
    assert u.threads[t].work == [AwaitRun(g, 1, r, q)];
    forall i | 0 <= i < |u.threads| && i != c ensures u.threads[i].group != Some(g) {
      assert ThreadInv(s, i);
    }
  }

  /** A try whose thread is over is followed by the next. */
  lemma TryAgain(p: Prog, s: State, t: nat, c: nat, g: nat, k: nat, r: nat, links: seq<Link>) returns (u: State, d: nat)
    requires Reachable(p, s) && t < |s.threads| && s.threads[t].status.Running? && k <= r && 1 <= k
    requires g < |s.groups| && s.threads[t].work == [AwaitRun(g, k, r, Chain(links))]
    requires IsOver(s, c) && s.threads[c].group == Some(g)
    requires forall i :: 0 <= i < |s.threads| && i != c ==> s.threads[i].group != Some(g)
    ensures Reachable(p, u) && Trying(u, t, d, k + 1, r, links) && u.executed == s.executed
    ensures d == |s.threads| && |u.threads| == d + 1 && |u.groups| == |s.groups| + 1
  {
    ReachableInv(p, s);
    assert AllEnded(s, g) && SomeRaised(s, g);
    var h := |s.groups|;
    u, d := Next(s, t, Joined(true)).value, |s.threads|;
    Reach(p, s, t, Joined(true));
    assert u.threads[t].work == [AwaitRun(h, k + 1, r, Chain(links))];
    forall i | 0 <= i < |u.threads| && i != d ensures u.threads[i].group != Some(h) {
      assert ThreadInv(s, i);
    }
  }

  /** One try after the other fails, down to the last. */
  lemma {:induction false} ToLastTry(p: Prog, s: State, t: nat, c: nat, k: nat, r: nat, links: seq<Link>)
    returns (u: State, d: nat)
    requires Reachable(p, s) && Trying(s, t, c, k, r, links)
    ensures Reachable(p, u) && Trying(u, t, d, r + 1, r, links) && u.executed >= s.executed + (r + 1 - k)
    decreases r + 1 - k
  {
    hide Next, Chain, Initial, Exec, TimeoutGroup, Inv;
    if k == r + 1 {
      u, d := s, c;
    } else {
      var g := s.threads[c].group.value;
      var v := Crash(p, s, c, links);
      forall i | 0 <= i < |v.threads| && i != c ensures v.threads[i].group != Some(g) {
      }
      var w, e := TryAgain(p, v, t, c, g, k, r, links);
      u, d := ToLastTry(p, w, t, e, k + 1, r, links);
    }
  }

  /** A walk from group h comes by group g, if it gets that far. */
  ghost predicate Hangs(groups: seq<Group>, h: Option<nat>, g: nat)
    decreases if h.Some? then h.value + 1 else 0
  {
    && h.Some? && h.value < |groups| && !groups[h.value].isTimeout
    && (h.value == g
        || (var up := groups[h.value].blockedParent; up.Some? && up.value < h.value && Hangs(groups, up, g)))
  }

  lemma {:induction false} HangsCut(groups: seq<Group>, h: Option<nat>, g: nat)
    requires g < |groups| && Hangs(groups, h, g)
    ensures TimeoutGroup(groups[g := groups[g].(blockedParent := None)], h).None?
    decreases if h.Some? then h.value + 1 else 0
  {
    if h.value != g {
      HangsCut(groups, groups[h.value].blockedParent, g);
    }
  }

  lemma {:induction false} HangsAfterNew(groups: seq<Group>, more: Group, h: Option<nat>, g: nat)
    requires Hangs(groups, h, g)
    ensures Hangs(groups + [more], h, g)
    decreases if h.Some? then h.value + 1 else 0
  {
    if h.value != g {
      HangsAfterNew(groups, more, groups[h.value].blockedParent, g);
    }
  }

  /** The watcher of thread t gives up. */
  lemma GiveUp(p: Prog, s: State, t: nat, g: nat) returns (u: State)
    requires Reachable(p, s) && t < |s.threads| && g < |s.groups| && s.threads[t].status.Running?
    requires s.threads[t].work == [AwaitAsync(g, true)]
    ensures Reachable(p, u) && t < |u.threads| && u == Put(Unlink(s, g), t, u.threads[t]) && u.executed == s.executed
  {
    u := Next(s, t, TimedOut(true)).value;
    Reach(p, s, t, TimedOut(true));
  }

  /** What the mode of a chain means for the walk: while it is unsure, thread h watches group g on the way up. */
  ghost predicate FitsWalk(s: State, t: nat, m: Mode, h: nat, g: nat) {
    && t < |s.threads| && (m.Free? <==> WalkOf(s, t).None?)
    && (m.Unsure? ==>
      && h < |s.threads| && h != t && s.threads[h].status.Running? && s.threads[h].work == [AwaitAsync(g, true)]
      && g < |s.groups| && Hangs(s.groups, s.threads[t].group, g))
  }

  /** Where a retry gets through, the body runs more than once. */
  lemma {:induction false} Escape(p: Prog, s: State, t: nat, links: seq<Link>, m: Mode, h: nat, g: nat)
    returns (u: State)
    requires Reachable(p, s) && IsAt(s, t, links) && GetsThrough(links, m) && FitsWalk(s, t, m, h, g)
    ensures Reachable(p, u) && u.executed >= s.executed + 2
    decreases |links|
  {
    var rest := links[1..];
    match links[0]
    case Hop(watched) => u := EscapeHop(p, s, t, links, m, h, g);
    case Apart =>
      var v := ApartStep(p, s, t, links);
      u := Escape(p, v, |s.threads|, rest, Free, h, g);
    case Direct(r) => u := EscapeTry(p, s, t, links);
    case Deco(r) =>
      if m.Free? {
        u := EscapeTry(p, s, t, links);
      } else if m.Unsure? && r > 0 {
        var x := GiveUp(p, s, h, g);
        HangsCut(s.groups, s.threads[t].group, g);
        u := EscapeTry(p, x, t, links);
      } else {
        var v := PassStep(p, s, t, links);
        u := Escape(p, v, t, rest, if GetsThrough(rest, Enclosed) then Enclosed else Unsure, h, g);
      }
  }

  lemma {:induction false} EscapeTry(p: Prog, s: State, t: nat, links: seq<Link>) returns (u: State)
    requires Reachable(p, s) && IsAt(s, t, links) && BeginsTry(s, t, links)
    requires links[0].retries > 0 || GetsThrough(links[1..], Enclosed)
    ensures Reachable(p, u) && u.executed >= s.executed + 2
    decreases |links|, 0
  {
    if links[0].retries > 0 {
      u := Exhaust(p, s, t, links);
    } else {
      var v, c := BeginTry(p, s, t, links);
      u := Escape(p, v, c, links[1..], Enclosed, 0, 0);
    }
  }

  lemma {:induction false} EscapeHop(p: Prog, s: State, t: nat, links: seq<Link>, m: Mode, h: nat, g: nat)
    returns (u: State)
    requires Reachable(p, s) && IsAt(s, t, links) && GetsThrough(links, m) && FitsWalk(s, t, m, h, g) && links[0].Hop?
    ensures Reachable(p, u) && u.executed >= s.executed + 2
    decreases |links|, 0
  {
    var watched := links[0].watched;
    var v := HopStep(p, s, t, links);
    if m.Unsure? {
      HangsAfterNew(s.groups, v.groups[|s.groups|], s.threads[t].group, g);
      u := Escape(p, v, |s.threads|, links[1..], m, h, g);
    } else {
      u := Escape(p, v, |s.threads|, links[1..], Within(m, watched), t, |s.groups|);
    }
  }

  /** A function with tries uses them up. */
  lemma Exhaust(p: Prog, s: State, t: nat, links: seq<Link>) returns (u: State)
    requires Reachable(p, s) && IsAt(s, t, links) && BeginsTry(s, t, links)
    ensures Reachable(p, u) && u.executed >= s.executed + links[0].retries + 1
  {
    var v, c := BeginTry(p, s, t, links);
    var w, d := ToLastTry(p, v, t, c, 1, links[0].retries, links[1..]);
    u := Crash(p, w, d, links[1..]);
  }

  /**
    From outside all timeout groups: all tries of the outermost function that has some, and one more
    run if it escapes.
   */
  lemma {:induction false} Approach(p: Prog, s: State, t: nat, links: seq<Link>) returns (u: State)
    requires Reachable(p, s) && IsAt(s, t, links) && WalkOf(s, t).None?
    ensures Reachable(p, u) && u.executed >= s.executed + OuterTries(links) + (if Escapes(links) then 1 else 0)
    decreases |links|
  {
    if links == [] {
      u := BodyStep(p, s, t);
    } else if links[0].Hop? {
      var v := HopStep(p, s, t, links);
      u := Approach(p, v, |s.threads|, links[1..]);
    } else if links[0].Apart? {
      var v := ApartStep(p, s, t, links);
      u := Approach(p, v, |s.threads|, links[1..]);
    } else if Escapes(links) {
      var r := links[0].retries;
      var v, c := BeginTry(p, s, t, links);
      var w, d := ToLastTry(p, v, t, c, 1, r, links[1..]);
      u := Escape(p, w, d, links[1..], Enclosed, 0, 0);
    } else {
      u := Exhaust(p, s, t, links);
    }
  }

  lemma RunChain(links: seq<Link>) returns (run: seq<(nat, Event)>)
    ensures Exec(Initial(Chain(links)), run).Some?
    ensures Exec(Initial(Chain(links)), run).value.executed >= OuterTries(links) + (if Escapes(links) then 1 else 0)
  {
    var p := Chain(links);
    assert Exec(Initial(p), []) == Some(Initial(p));
    var u := Approach(p, Initial(p), 0, links);
    run :| Exec(Initial(p), run) == Some(u);
  }

  /** In every run of the chain the body runs no more often than the outermost function has tries. */
  ghost predicate RetriesDoNotMultiply(links: seq<Link>) {
    forall run :: Exec(Initial(Chain(links)), run).Some? ==>
      Exec(Initial(Chain(links)), run).value.executed <= OuterTries(links)
  }

  /**
    Nested retries do not multiply, if and only if inside the outermost function that has tries no
    retry gets through: no direct call retries, and no decorated function retries after a `RunAsync`
    with a watcher or in a group apart.
   */
  lemma RetriesDoNotMultiplyIff(links: seq<Link>)
    ensures RetriesDoNotMultiply(links) <==> !Escapes(links)
  {
    if Escapes(links) {
      var run := RunChain(links);
    } else {
      BoundOutside(links);
      forall run | Exec(Initial(Chain(links)), run).Some?
        ensures Exec(Initial(Chain(links)), run).value.executed <= OuterTries(links)
      {
        BodiesRunWithinBound(Chain(links), run);
      }
    }
  }

  /** And then some run uses all those tries. */
  lemma ChainUsesAllTries(links: seq<Link>)
    requires !Escapes(links)
    ensures exists s :: Reachable(Chain(links), s) && s.executed == OuterTries(links)
  {
    hide Exec, Bound, Chain, OuterTries, Escapes, Initial;
    var run := RunChain(links);
    BoundOutside(links);
    BodiesRunWithinBound(Chain(links), run);
    assert Reachable(Chain(links), Exec(Initial(Chain(links)), run).value);
  }

  /**
    The shortest failing chains: no retries around, and inside one retry of a direct call, or of a
    decorated function after a `RunAsync` with a watcher or in a group apart.
   */
  lemma WatchedEscapes()
    ensures !RetriesDoNotMultiply([Deco(0), Hop(true), Deco(1)])
    ensures !RetriesDoNotMultiply([Deco(0), Apart, Deco(1)])
    ensures !RetriesDoNotMultiply([Deco(0), Direct(1)])
  {
    EscapesAfter(Hop(true), Unsure);
    EscapesAfter(Apart, Free);
    assert [Deco(0), Direct(1)][1..] == [Direct(1)];
    assert GetsThrough([Direct(1)], Enclosed);
    RetriesDoNotMultiplyIff([Deco(0), Direct(1)]);
  }

  lemma EscapesAfter(link: Link, m: Mode)
    requires (link, m) == (Hop(true), Unsure) || (link, m) == (Apart, Free)
    ensures !RetriesDoNotMultiply([Deco(0), link, Deco(1)])
  {
    var links := [Deco(0), link, Deco(1)];
    assert links[1..] == [link, Deco(1)] && links[1..][1..] == [Deco(1)];
    assert GetsThrough([Deco(1)], m);
    RetriesDoNotMultiplyIff(links);
  }

  // ---------------------------------------------------------------------------------
  // Everything can return
  // ---------------------------------------------------------------------------------

  ghost predicate CalmlyReached(p: Prog, s: State) {
    exists run :: Exec(Initial(p), run) == Some(s) && IsCalmRun(run)
  }

  lemma CalmReach(p: Prog, s: State, i: nat, e: Event)
    requires CalmlyReached(p, s) && Next(s, i, e).Some? && IsCalm(e)
    ensures CalmlyReached(p, Next(s, i, e).value)
  {
    hide Next;
    var run :| Exec(Initial(p), run) == Some(s) && IsCalmRun(run);
    var longer := run + [(i, e)];
    assert longer[..|longer| - 1] == run;
    assert Exec(Initial(p), longer) == Some(Next(s, i, e).value);
  }

  lemma CalmIsReachable(p: Prog, s: State)
    requires CalmlyReached(p, s)
    ensures Reachable(p, s) && Inv(s)
  {
    var run :| Exec(Initial(p), run) == Some(s) && IsCalmRun(run);
    ReachableInv(p, s);
  }

  /** Thread t is running, with `item` before it and then the rest. */
  predicate IsBusy(s: State, t: nat, item: Item, rest: seq<Item>) {
    t < |s.threads| && s.threads[t].status.Running? && s.threads[t].work == [item] + rest
  }

  /** From s to u only threads t to t + n - 1 of the old threads have changed, and all new threads have returned. */
  ghost predicate Worked(s: State, u: State, t: nat, n: nat) {
    && |s.threads| <= |u.threads| && |s.groups| <= |u.groups| && t + n <= |s.threads|
    && (forall k :: 0 <= k < |s.threads| && !(t <= k < t + n) ==> u.threads[k] == s.threads[k])
    && (forall k :: t <= k < t + n ==> u.threads[k].group == s.threads[k].group)
    && forall k :: |s.threads| <= k < |u.threads| ==>
         u.threads[k].status.Returned? && u.threads[k].group.Some? && u.threads[k].group.value >= |s.groups|
  }

  /** Thread t has done its first item and is at the rest. */
  ghost predicate HasDone(s: State, u: State, t: nat, rest: seq<Item>) {
    t < |u.threads| && Worked(s, u, t, 1) && u.threads[t].status.Running? && u.threads[t].work == rest
  }

  lemma WorkedTwice(s: State, v: State, u: State, t: nat)
    requires Worked(s, v, t, 1) && Worked(v, u, t, 1)
    ensures Worked(s, u, t, 1)
  {
  }

  /** What a call that makes no thread puts on the stack. */
  function Inner(q: Prog): seq<Item> {
    match q
    case Then(a, b) => [Todo(a), Todo(b)]
    case Catch(a, b) => [Todo(a), Handler(b)]
    case Decorated(_, a) => [Todo(a)]
    case _ => []
  }

  lemma InnerStep(p: Prog, s: State, t: nat, q: Prog, rest: seq<Item>) returns (u: State)
    requires CalmlyReached(p, s) && IsBusy(s, t, Todo(q), rest)
    requires q.Body? || q.Then? || q.Catch? || (q.Decorated? && WalkOf(s, t).Some?)
    ensures CalmlyReached(p, u) && HasDone(s, u, t, Inner(q) + rest)
  {
    assert s.threads[t].work[1..] == rest;
    u := Next(s, t, Proceed(false)).value;
    CalmReach(p, s, t, Proceed(false));
    assert u.threads[t].work == Inner(q) + rest;
  }

  lemma HandlerStep(p: Prog, s: State, t: nat, q: Prog, rest: seq<Item>) returns (u: State)
    requires CalmlyReached(p, s) && IsBusy(s, t, Handler(q), rest)
    ensures CalmlyReached(p, u) && HasDone(s, u, t, rest)
  {
    assert s.threads[t].work[1..] == rest;
    u := Next(s, t, Proceed(false)).value;
    CalmReach(p, s, t, Proceed(false));
  }

  /** Thread t has made a group of n threads, each with its function to do, and is itself at the given items. */
  ghost predicate HasMade(s: State, v: State, t: nat, funcs: seq<Prog>, items: seq<Item>) {
    var g, c, n := |s.groups|, |s.threads|, |funcs|;
    && t < c && |v.groups| == g + 1 && |v.threads| == c + n
    && (forall k :: 0 <= k < c && k != t ==> v.threads[k] == s.threads[k])
    && v.threads[t].group == s.threads[t].group && v.threads[t].status.Running? && v.threads[t].work == items
    && (forall k :: 0 <= k < n ==> IsBusy(v, c + k, Todo(funcs[k]), []))
    && (forall k :: c <= k < c + n ==> v.threads[k].group == Some(g))
    && NoneElse(v, g, c, n)
  }

  /** The new state, without what the links say of it. */
  ghost predicate Makes(s: State, v: State, t: nat, funcs: seq<Prog>, items: seq<Item>) {
    && t < |s.threads| && |v.groups| == |s.groups| + 1 && |v.threads| == |s.threads| + |funcs|
    && v.threads[..|s.threads|] == s.threads[t := s.threads[t].(work := items)]
    && forall k :: 0 <= k < |funcs| ==>
         v.threads[|s.threads| + k] == Start(|s.groups|, v.threads[|s.threads| + k].mode, funcs[k])
  }

  lemma MakesHasMade(s: State, v: State, t: nat, funcs: seq<Prog>, items: seq<Item>)
    requires Inv(s) && Makes(s, v, t, funcs, items) && s.threads[t].status.Running?
    ensures HasMade(s, v, t, funcs, items)
  {
    hide Inv, IsBusy, NoneElse;
    var c := |s.threads|;
    NewAreBusy(s, v, t, funcs, items);
    forall k | 0 <= k < c && k != t ensures v.threads[k] == s.threads[k] {
      assert v.threads[k] == v.threads[..c][k];
    }
    assert v.threads[t] == v.threads[..c][t];
    GroupIsNew(s, v, |s.groups|, c, |funcs|);
  }

  lemma NewAreBusy(s: State, v: State, t: nat, funcs: seq<Prog>, items: seq<Item>)
    requires Makes(s, v, t, funcs, items)
    ensures
      var g, c, n := |s.groups|, |s.threads|, |funcs|;
      && (forall k :: 0 <= k < n ==> IsBusy(v, c + k, Todo(funcs[k]), []))
      && forall k :: c <= k < c + n ==> v.threads[k].group == Some(g)
  {
    var g, c, n := |s.groups|, |s.threads|, |funcs|;
    forall k | 0 <= k < n ensures IsBusy(v, c + k, Todo(funcs[k]), []) {
      assert v.threads[c + k] == Start(g, v.threads[c + k].mode, funcs[k]);
    }
    forall k | c <= k < c + n ensures v.threads[k].group == Some(g) {
      assert v.threads[c + (k - c)] == Start(g, v.threads[c + (k - c)].mode, funcs[k - c]);
    }
  }

  lemma MakeStep(p: Prog, s: State, t: nat, q: Prog, funcs: seq<Prog>, items: seq<Item>, rest: seq<Item>)
    returns (v: State)
    requires CalmlyReached(p, s) && IsBusy(s, t, Todo(q), rest)
    requires
      var g := |s.groups|;
      || (q.Async? && funcs == q.funcs && items == [AwaitAsync(g, q.watched)] + rest)
      || (q.Spread? && funcs == q.funcs && items == [Todo(q.meanwhile)] + ([Finish(g)] + rest))
      || (q.Retried? && funcs == [q.inner] && items == [AwaitRun(g, 1, q.retries, q.inner)] + rest)
      || (q.Decorated? && WalkOf(s, t).None? && funcs == [q.inner]
          && items == [AwaitRun(g, 1, q.retries, q.inner)] + rest)
    ensures CalmlyReached(p, v) && HasMade(s, v, t, funcs, items)
  {
    CalmIsReachable(p, s);
    hide Inv, CalmlyReached, HasMade;
    v := CallMakes(s, t, q, funcs, items, rest);
    CalmReach(p, s, t, Proceed(false));
    hide Next;
    MakesHasMade(s, v, t, funcs, items);
  }

  lemma CallMakes(s: State, t: nat, q: Prog, funcs: seq<Prog>, items: seq<Item>, rest: seq<Item>) returns (v: State)
    requires IsBusy(s, t, Todo(q), rest)
    requires
      var g := |s.groups|;
      || (q.Async? && funcs == q.funcs && items == [AwaitAsync(g, q.watched)] + rest)
      || (q.Spread? && funcs == q.funcs && items == [Todo(q.meanwhile)] + ([Finish(g)] + rest))
      || (q.Retried? && funcs == [q.inner] && items == [AwaitRun(g, 1, q.retries, q.inner)] + rest)
      || (q.Decorated? && WalkOf(s, t).None? && funcs == [q.inner]
          && items == [AwaitRun(g, 1, q.retries, q.inner)] + rest)
    ensures Next(s, t, Proceed(false)) == Some(v) && Makes(s, v, t, funcs, items)
  {
    v := Next(s, t, Proceed(false)).value;
    hide TimeoutGroup, Makes, Grow, Loose;
    var g, m := |s.groups|, s.threads[t].mode;
    if q.Async? {
      assert v == Grow(s, t, false, AwaitAsync(g, q.watched), Starts(g, Within(m, q.watched), funcs));
      GrowMakes(s, t, false, AwaitAsync(g, q.watched), Starts(g, Within(m, q.watched), funcs), funcs, rest);
    } else if q.Spread? {
      LooseMakes(s, t, q, rest);
    } else {
      assert v == Grow(s, t, true, AwaitRun(g, 1, q.retries, q.inner), [Start(g, Enclosed, q.inner)]);
      GrowMakes(s, t, true, AwaitRun(g, 1, q.retries, q.inner), [Start(g, Enclosed, q.inner)], funcs, rest);
    }
  }

  lemma GrowMakes(s: State, t: nat, isTimeout: bool, item: Item, more: seq<Thread>, funcs: seq<Prog>, rest: seq<Item>)
    requires t < |s.threads| && s.threads[t].work != [] && s.threads[t].work[1..] == rest
    requires |more| == |funcs| && forall k :: 0 <= k < |more| ==> more[k] == Start(|s.groups|, more[k].mode, funcs[k])
    ensures Makes(s, Grow(s, t, isTimeout, item, more), t, funcs, [item] + rest)
  {
  }

  lemma LooseMakes(s: State, t: nat, q: Prog, rest: seq<Item>)
    requires t < |s.threads| && s.threads[t].work != [] && s.threads[t].work[1..] == rest && q.Spread?
    ensures
      Makes(s, Scatter(s, t, q.funcs, q.meanwhile), t, q.funcs, [Todo(q.meanwhile)] + ([Finish(|s.groups|)] + rest))
  {
    assert [Todo(q.meanwhile), Finish(|s.groups|)] + rest == [Todo(q.meanwhile)] + ([Finish(|s.groups|)] + rest);
  }

  /** Whatever a thread has to do, it can do without an exception, and then all threads that this took have returned. */
  lemma {:induction false} Complete(p: Prog, s: State, t: nat, q: Prog, rest: seq<Item>) returns (u: State)
    requires CalmlyReached(p, s) && IsBusy(s, t, Todo(q), rest)
    ensures CalmlyReached(p, u) && HasDone(s, u, t, rest)
    decreases q, 2
  {
    hide Next, CalmlyReached, TimeoutGroup, Worked;
    match q
    case Body =>
      u := InnerStep(p, s, t, q, rest);
      assert [] + rest == rest;
    case Then(a, b) =>
      var v := InnerStep(p, s, t, q, rest);
      assert [Todo(a), Todo(b)] + rest == [Todo(a)] + ([Todo(b)] + rest);
      var w := Complete(p, v, t, a, [Todo(b)] + rest);
      WorkedTwice(s, v, w, t);
      u := Complete(p, w, t, b, rest);
      WorkedTwice(s, w, u, t);
    case Catch(a, b) =>
      var v := InnerStep(p, s, t, q, rest);
      assert [Todo(a), Handler(b)] + rest == [Todo(a)] + ([Handler(b)] + rest);
      var w := Complete(p, v, t, a, [Handler(b)] + rest);
      WorkedTwice(s, v, w, t);
      u := HandlerStep(p, w, t, b, rest);
      WorkedTwice(s, w, u, t);
    case Decorated(r, a) =>
      if WalkOf(s, t).Some? {
        var v := InnerStep(p, s, t, q, rest);
        u := Complete(p, v, t, a, rest);
        WorkedTwice(s, v, u, t);
      } else {
        u := CompleteTry(p, s, t, q, r, a, rest);
      }
    case Retried(r, a) => u := CompleteTry(p, s, t, q, r, a, rest);
    case Async(_, _) => u := CompleteAsync(p, s, t, q, rest);
    case Spread(_, _) => u := CompleteSpread(p, s, t, q, rest);
  }

  /** One try is enough. */
  lemma {:induction false} CompleteTry(p: Prog, s: State, t: nat, q: Prog, r: nat, a: Prog, rest: seq<Item>)
    returns (u: State)
    requires CalmlyReached(p, s) && IsBusy(s, t, Todo(q), rest)
    requires q == Retried(r, a) || (q == Decorated(r, a) && WalkOf(s, t).None?)
    ensures CalmlyReached(p, u) && HasDone(s, u, t, rest)
    decreases q, 1
  {
    hide Next, CalmlyReached, TimeoutGroup;
    var g, c := |s.groups|, |s.threads|;
    var item := AwaitRun(g, 1, r, a);
    var v := MakeStep(p, s, t, q, [a], [item] + rest, rest);
    assert IsBusy(v, c + 0, Todo([a][0]), []);
    var w := Complete(p, v, c, a, []);
    var x := ReturnThread(p, w, c);
    u := JoinGroup(p, x, t, item, g, c, 1, rest);
  }

  /** The threads of a new group are n threads from c on. */
  ghost predicate NoneElse(s: State, g: nat, c: nat, n: nat) {
    forall k :: 0 <= k < |s.threads| && !(c <= k < c + n) ==> s.threads[k].group != Some(g)
  }

  lemma GroupIsNew(s: State, v: State, g: nat, c: nat, n: nat)
    requires Inv(s) && g == |s.groups| && c == |s.threads| && |v.threads| == c + n
    requires forall k :: 0 <= k < c ==> v.threads[k].group == s.threads[k].group
    ensures NoneElse(v, g, c, n)
  {
    forall k | 0 <= k < c ensures v.threads[k].group != Some(g) {
      assert ThreadInv(s, k);
    }
  }

  lemma ReturnThread(p: Prog, s: State, c: nat) returns (u: State)
    requires CalmlyReached(p, s) && c < |s.threads| && s.threads[c].status.Running? && s.threads[c].work == []
    ensures CalmlyReached(p, u) && u == Put(s, c, s.threads[c].(status := Returned))
  {
    u := Next(s, c, Proceed(false)).value;
    CalmReach(p, s, c, Proceed(false));
  }

  /** Joining a group all of whose threads have returned. */
  lemma JoinGroup(p: Prog, s: State, t: nat, item: Item, g: nat, c: nat, n: nat, rest: seq<Item>) returns (u: State)
    requires CalmlyReached(p, s) && IsBusy(s, t, item, rest) && g < |s.groups|
    requires (item.AwaitRun? || item.AwaitAsync? || item.Finish?) && item.group == g
    requires NoneElse(s, g, c, n) && c + n <= |s.threads|
    requires forall k :: c <= k < c + n ==> s.threads[k].status.Returned?
    ensures CalmlyReached(p, u) && u == Put(if item.Finish? then s else Unlink(s, g), t, Pop(s.threads[t]))
    ensures u.threads[t].work == rest && u.threads[t].status.Running?
  {
    assert AllEnded(s, g) && !SomeRaised(s, g);
    assert s.threads[t].work[1..] == rest;
    u := Next(s, t, Joined(false)).value;
    CalmReach(p, s, t, Joined(false));
  }

  /** The first n functions of a group, one thread after the other. */
  lemma {:induction false} CompleteFirst(p: Prog, s: State, c: nat, q: Prog, n: nat) returns (u: State)
    requires CalmlyReached(p, s) && HasFuncs(q) && n <= |q.funcs| && c + |q.funcs| <= |s.threads|
    requires forall k :: 0 <= k < |q.funcs| ==> IsBusy(s, c + k, Todo(q.funcs[k]), [])
    ensures CalmlyReached(p, u) && Worked(s, u, c, n)
    ensures forall k :: c <= k < c + n ==> u.threads[k].status.Returned?
    decreases q, 0, n
  {
    hide Next, CalmlyReached;
    if n == 0 {
      u := s;
    } else {
      var v := CompleteFirst(p, s, c, q, n - 1);
      var t := c + n - 1;
      assert IsBusy(s, t, Todo(q.funcs[n - 1]), []) && v.threads[t] == s.threads[t];
      var w := Complete(p, v, t, q.funcs[n - 1], []);
      u := ReturnThread(p, w, t);
    }
  }

  /** The threads of the group have returned, and thread t may have worked meanwhile. */
  ghost predicate GroupIsThrough(s: State, v: State, w: State, t: nat, n: nat) {
    && Worked(v, w, |s.threads|, n) && forall k :: |s.threads| <= k < |s.threads| + n ==> w.threads[k].status.Returned?
  }

  /** The group's threads are the only ones in it, and all that is new has returned. */
  ghost predicate Through(s: State, w: State, t: nat, n: nat) {
    && Worked(s, w, t, 1) && NoneElse(w, |s.groups|, |s.threads|, n)
    && |s.threads| + n <= |w.threads| && |s.groups| < |w.groups|
    && forall k :: |s.threads| <= k < |s.threads| + n ==> w.threads[k].status.Returned?
  }

  lemma GroupReturned(s: State, v: State, w: State, t: nat, funcs: seq<Prog>, items: seq<Item>)
    requires HasMade(s, v, t, funcs, items) && GroupIsThrough(s, v, w, t, |funcs|)
    ensures Through(s, w, t, |funcs|)
  {
    var g, c, n := |s.groups|, |s.threads|, |funcs|;
    forall k | 0 <= k < c ensures w.threads[k] == v.threads[k] && w.threads[k].group != Some(g) {
      assert w.threads[k] == v.threads[k];
      assert NoneElse(v, g, c, n) && v.threads[k].group != Some(g);
    }
    forall k | c <= k < |w.threads|
      ensures w.threads[k].status.Returned? && w.threads[k].group.Some? && w.threads[k].group.value >= g
      ensures !(c <= k < c + n) ==> w.threads[k].group != Some(g)
    {
      if k < c + n {
        assert IsBusy(v, c + (k - c), Todo(funcs[k - c]), []) && w.threads[k].group == v.threads[k].group;
      }
    }
  }

  lemma MeanwhileStays(s: State, w: State, x: State, t: nat, n: nat)
    requires Through(s, w, t, n) && Worked(w, x, t, 1) && t < |s.threads|
    ensures Through(s, x, t, n)
  {
    WorkedTwice(s, w, x, t);
  }

  lemma JoinedIsWorked(s: State, x: State, u: State, t: nat, thread: Thread)
    requires Worked(s, x, t, 1) && thread.group == x.threads[t].group
    requires u.threads == x.threads[t := thread] && |u.groups| == |x.groups|
    ensures Worked(s, u, t, 1)
  {
  }

  lemma {:induction false} CompleteAsync(p: Prog, s: State, t: nat, q: Prog, rest: seq<Item>) returns (u: State)
    requires CalmlyReached(p, s) && IsBusy(s, t, Todo(q), rest) && q.Async?
    ensures CalmlyReached(p, u) && HasDone(s, u, t, rest)
    decreases q, 1
  {
    hide Next, CalmlyReached, NoneElse;
    var g, c, n := |s.groups|, |s.threads|, |q.funcs|;
    var item := AwaitAsync(g, q.watched);
    var v := MakeStep(p, s, t, q, q.funcs, [item] + rest, rest);
    var w := CompleteFirst(p, v, c, q, n);
    GroupReturned(s, v, w, t, q.funcs, [item] + rest);
    assert w.threads[t] == v.threads[t];
    u := JoinGroup(p, w, t, item, g, c, n, rest);
    JoinedIsWorked(s, w, u, t, Pop(w.threads[t]));
  }

  lemma {:induction false} CompleteSpread(p: Prog, s: State, t: nat, q: Prog, rest: seq<Item>) returns (u: State)
    requires CalmlyReached(p, s) && IsBusy(s, t, Todo(q), rest) && q.Spread?
    ensures CalmlyReached(p, u) && HasDone(s, u, t, rest)
    decreases q, 1
  {
    hide Next, CalmlyReached, NoneElse;
    var g, c, n := |s.groups|, |s.threads|, |q.funcs|;
    var items := [Finish(g)] + rest;
    var v := MakeStep(p, s, t, q, q.funcs, [Todo(q.meanwhile)] + items, rest);
    var w := CompleteFirst(p, v, c, q, n);
    assert w.threads[t] == v.threads[t];
    var x := Complete(p, w, t, q.meanwhile, items);
    GroupReturned(s, v, w, t, q.funcs, [Todo(q.meanwhile)] + items);
    MeanwhileStays(s, w, x, t, n);
    u := JoinGroup(p, x, t, Finish(g), g, c, n, rest);
    JoinedIsWorked(s, x, u, t, Pop(x.threads[t]));
  }

  /** Every program has a run in which every thread returns, and then each of its bodies has run once. */
  lemma CanReturn(p: Prog) returns (s: State)
    ensures CalmlyReached(p, s) && s.executed == Bodies(p)
    ensures forall i :: 0 <= i < |s.threads| ==> s.threads[i].status.Returned?
  {
    var s0 := Initial(p);
    assert Exec(Initial(p), []) == Some(s0) && IsCalmRun([]);
    assert [Todo(p)] + [] == [Todo(p)];
    var u := Complete(p, s0, 0, p, []);
    s := ReturnThread(p, u, 0);
    var run :| Exec(Initial(p), run) == Some(s) && IsCalmRun(run);
    CalmRunsAreExact(p, run);
  }

  // ---------------------------------------------------------------------------------
  // Where exceptions go
  // ---------------------------------------------------------------------------------

  predicate NoHandler(work: seq<Item>) {
    forall k :: 0 <= k < |work| ==> !work[k].Handler?
  }

  /** Thread i raises: a body does, a last try has failed, or a joined thread has raised or takes too long. */
  ghost predicate Throws(s: State, i: nat, e: Event)
    requires i < |s.threads| && s.threads[i].work != []
  {
    match s.threads[i].work[0]
    case Todo(p) => p.Body? && e.Proceed? && e.raises
    case Handler(_) => false
    case AwaitRun(g, tries, retries, _) =>
      && ((e.Joined? && AllEnded(s, g) && SomeRaised(s, g)) || e.TimedOut?)
      && (tries > retries || !e.retry)
    case AwaitAsync(g, watched) => (e.Joined? && AllEnded(s, g) && SomeRaised(s, g)) || (e.TimedOut? && watched)
    case Finish(g) => (e.Joined? && AllEnded(s, g) && SomeRaised(s, g)) || e.TimedOut?
  }

  /** An exception goes to the nearest handler, with what comes after it; without one it ends the thread. */
  lemma ThrownIsCaught(s: State, i: nat, e: Event, above: seq<Item>, handler: Option<Prog>, below: seq<Item>)
    requires i < |s.threads| && s.threads[i].status.Running? && above != [] && NoHandler(above)
    requires s.threads[i].work == above + (if handler.Some? then [Handler(handler.value)] + below else [])
    requires Throws(s, i, e)
    ensures Next(s, i, e).Some?
    ensures
      var t := Next(s, i, e).value.threads[i];
      if handler.Some? then t.status.Running? && t.work == [Todo(handler.value)] + below
      else t.status.Raised? && t.work == []
    ensures |Next(s, i, e).value.threads| == |s.threads|
  {
    UnwindAbove(above, handler, below);
  }

  lemma {:induction false} UnwindAbove(above: seq<Item>, handler: Option<Prog>, below: seq<Item>)
    requires NoHandler(above)
    ensures
      Unwind(above + (if handler.Some? then [Handler(handler.value)] + below else []))
        == if handler.Some? then [Todo(handler.value)] + below else []
    decreases |above|
  {
    var work := above + (if handler.Some? then [Handler(handler.value)] + below else []);
    if above == [] {
      if handler.Some? {
        assert work == [Handler(handler.value)] + below && work[1..] == below;
      }
    } else {
      UnwindAbove(above[1..], handler, below);
      assert work[1..] == above[1..] + (if handler.Some? then [Handler(handler.value)] + below else []);
    }
  }

  /** Only those steps raise in a thread. */
  lemma OnlyThrownRaises(s: State, i: nat, e: Event, k: nat)
    requires Next(s, i, e).Some? && k < |s.threads| && !s.threads[k].status.Raised?
    requires Next(s, i, e).value.threads[k].status.Raised?
    ensures k == i && s.threads[i].work != [] && Throws(s, i, e)
  {
  }

  // ---------------------------------------------------------------------------------
  // How many tries
  // ---------------------------------------------------------------------------------

  /** What a try comes to; `again(k)` is `retry_if_func` of what the k-th try raised. */
  datatype Attempt = Returns | Raises | TakesTooLong

  /** Try n is the last: all before it failed and were to be repeated, and it returns or must not be repeated. */
  ghost predicate IsLastTry(attempt: nat -> Attempt, again: nat -> bool, retries: nat, n: nat) {
    && 1 <= n <= retries + 1
    && (forall k :: 1 <= k < n ==> !attempt(k).Returns? && again(k))
    && (attempt(n).Returns? || n == retries + 1 || !again(n))
  }

  /** How many of the first n tries end. */
  function Ended(attempt: nat -> Attempt, n: nat): nat {
    if n == 0 then 0 else Ended(attempt, n - 1) + (if attempt(n).TakesTooLong? then 0 else 1)
  }

  /** The main thread is at try k of a body, and so many groups and bodies there have been. */
  ghost predicate AtTry(s: State, c: nat, attempt: nat -> Attempt, retries: nat, k: nat) {
    && 0 < |s.threads| && Trying(s, 0, c, k, retries, []) && c == k && |s.threads| == k + 1
    && |s.groups| == k && k > 0 && s.executed == Ended(attempt, k - 1)
  }

  /** A try that takes too long is followed by another; the watchdog leaves the old thread behind. */
  lemma TimeOutTry(p: Prog, s: State, t: nat, c: nat, k: nat, r: nat, links: seq<Link>) returns (u: State, d: nat)
    requires Reachable(p, s) && Trying(s, t, c, k, r, links) && k <= r
    ensures Reachable(p, u) && Trying(u, t, d, k + 1, r, links) && u.executed == s.executed
    ensures d == |s.threads| && |u.threads| == d + 1 && |u.groups| == |s.groups| + 1
  {
    ReachableInv(p, s);
    var h := |s.groups|;
    u, d := Next(s, t, TimedOut(true)).value, |s.threads|;
    Reach(p, s, t, TimedOut(true));
    assert u.threads[t].work == [AwaitRun(h, k + 1, r, Chain(links))];
    forall i | 0 <= i < |u.threads| && i != d ensures u.threads[i].group != Some(h) {
      assert ThreadInv(s, i);
    }
  }

  /** A failed try that is to be repeated is followed by another. */
  lemma FailTry(p: Prog, s: State, c: nat, attempt: nat -> Attempt, retries: nat, k: nat) returns (u: State)
    requires Reachable(p, s) && AtTry(s, c, attempt, retries, k) && !attempt(k).Returns? && k <= retries
    ensures Reachable(p, u) && AtTry(u, k + 1, attempt, retries, k + 1)
  {
    hide Next, Reachable, Chain;
    var g, d := s.threads[c].group.value, 0;
    if attempt(k).Raises? {
      var v := BodyStep(p, s, c);
      u, d := TryAgain(p, v, 0, c, g, k, retries, []);
    } else {
      u, d := TimeOutTry(p, s, 0, c, k, retries, []);
    }
  }

  lemma BodyReturns(p: Prog, s: State, c: nat) returns (u: State)
    requires Reachable(p, s) && IsAt(s, c, [])
    ensures Reachable(p, u)
    ensures u == Put(s, c, s.threads[c].(work := [], status := Returned)).(executed := s.executed + 1)
  {
    var v := Next(s, c, Proceed(false)).value;
    Reach(p, s, c, Proceed(false));
    assert v.threads[c].work == [];
    u := Next(v, c, Proceed(false)).value;
    Reach(p, v, c, Proceed(false));
  }

  /** The end of the last try, seen from the main thread. */
  ghost predicate MainIsThrough(s: State, u: State, returned: bool) {
    && 0 < |u.threads| == |s.threads| && |u.groups| == |s.groups| && u.executed == s.executed
    && u.threads[0].work == [] && (if returned then u.threads[0].status.Running? else u.threads[0].status.Raised?)
  }

  /** Joining the group of the last try. */
  lemma JoinTry(p: Prog, s: State, c: nat, g: nat, k: nat, r: nat, q: Prog, again: bool) returns (u: State)
    requires Reachable(p, s) && 0 < |s.threads| && s.threads[0].status.Running? && g < |s.groups|
    requires s.threads[0].work == [AwaitRun(g, k, r, q)] && c < |s.threads| && s.threads[c].group == Some(g)
    requires !s.threads[c].status.Running?
    requires forall i :: 0 <= i < |s.threads| && i != c ==> s.threads[i].group != Some(g)
    requires s.threads[c].status.Returned? || k > r || !again
    ensures Reachable(p, u) && MainIsThrough(s, u, s.threads[c].status.Returned?)
  {
    assert AllEnded(s, g) && (SomeRaised(s, g) <==> s.threads[c].status.Raised?);
    assert s.threads[0].work[1..] == [] && Unwind([]) == [];
    u := Next(s, 0, Joined(again)).value;
    Reach(p, s, 0, Joined(again));
  }

  lemma TimeOutLast(p: Prog, s: State, g: nat, k: nat, r: nat, q: Prog, again: bool) returns (u: State)
    requires Reachable(p, s) && 0 < |s.threads| && s.threads[0].status.Running? && g < |s.groups|
    requires s.threads[0].work == [AwaitRun(g, k, r, q)] && (k > r || !again)
    ensures Reachable(p, u) && MainIsThrough(s, u, false)
  {
    assert s.threads[0].work[1..] == [] && Unwind([]) == [];
    u := Next(s, 0, TimedOut(again)).value;
    Reach(p, s, 0, TimedOut(again));
  }

  /** The last try: the main thread goes on, or raises. */
  lemma LastTry(p: Prog, s: State, c: nat, attempt: nat -> Attempt, again: nat -> bool, retries: nat, n: nat)
    returns (u: State)
    requires Reachable(p, s) && AtTry(s, c, attempt, retries, n) && IsLastTry(attempt, again, retries, n)
    ensures Reachable(p, u) && |u.groups| == n && u.executed == Ended(attempt, n) && |u.threads| == n + 1
    ensures u.threads[0].work == []
    ensures if attempt(n).Returns? then u.threads[0].status.Running? else u.threads[0].status.Raised?
  {
    hide Next, Reachable, Chain;
    var g := s.threads[c].group.value;
    match attempt(n)
    case Returns =>
      var v := BodyReturns(p, s, c);
      u := JoinTry(p, v, c, g, n, retries, Chain([]), false);
    case Raises =>
      var v := BodyStep(p, s, c);
      u := JoinTry(p, v, c, g, n, retries, Chain([]), again(n));
    case TakesTooLong =>
      u := TimeOutLast(p, s, g, n, retries, Chain([]), again(n));
  }

  lemma {:induction false} ToTry(p: Prog, s: State, attempt: nat -> Attempt, again: nat -> bool, retries: nat,
                                 n: nat, k: nat) returns (u: State)
    requires Reachable(p, s) && AtTry(s, 1, attempt, retries, 1) && IsLastTry(attempt, again, retries, n) && 1 <= k <= n
    ensures Reachable(p, u) && AtTry(u, k, attempt, retries, k)
    decreases k
  {
    hide AtTry, Reachable;
    if k == 1 {
      u := s;
    } else {
      var v := ToTry(p, s, attempt, again, retries, n, k - 1);
      u := FailTry(p, v, k - 1, attempt, retries, k - 1);
    }
  }

  /**
    Whatever the tries come to, returning, raising or being timed out: a call of `Run` makes them up to
    the last, one group for each, and then goes on if that one returned and raises otherwise.
   */
  lemma TriesAreMade(attempt: nat -> Attempt, again: nat -> bool, retries: nat, n: nat) returns (s: State)
    requires IsLastTry(attempt, again, retries, n)
    ensures Reachable(Retried(retries, Body), s)
    ensures |s.groups| == n && s.executed == Ended(attempt, n) && |s.threads| == n + 1
    ensures s.threads[0].work == []
    ensures if attempt(n).Returns? then s.threads[0].status.Running? else s.threads[0].status.Raised?
  {
    hide AtTry, Reachable;
    var p := Retried(retries, Body);
    var s1 := FirstTry(attempt, retries);
    var v := ToTry(p, s1, attempt, again, retries, n, n);
    s := LastTry(p, v, n, attempt, again, retries, n);
  }

  lemma FirstTry(attempt: nat -> Attempt, retries: nat) returns (s: State)
    ensures Reachable(Retried(retries, Body), s) && AtTry(s, 1, attempt, retries, 1)
  {
    hide Chain, Next, Exec, Reachable;
    var p := Retried(retries, Body);
    DirectChain(retries);
    InitialIsReachable(p);
    var c;
    s, c := BeginTry(p, Initial(p), 0, [Direct(retries)]);
  }

  lemma DirectChain(retries: nat)
    ensures [Direct(retries)][1..] == [] && Chain([]) == Body && Chain([Direct(retries)]) == Retried(retries, Body)
  {
    assert [Direct(retries)][1..] == [];
  }

  lemma InitialIsReachable(p: Prog)
    ensures Reachable(p, Initial(p))
  {
    assert Exec(Initial(p), []) == Some(Initial(p));
  }

  // ---------------------------------------------------------------------------------
  // The objects
  // ---------------------------------------------------------------------------------

  class ReraiserThreadGroup {
    const isTimeout: bool  // a TimeoutRetryThreadGroup
    ghost const id: nat    // its place among all groups ever made
    ghost const creator: nat
    var blockedParentThreadGroup: ReraiserThreadGroup?

    constructor (isTimeout: bool, ghost id: nat, ghost creator: nat)
      ensures this.isTimeout == isTimeout && this.id == id
      ensures this.creator == creator && blockedParentThreadGroup == null
    {
      this.isTimeout, this.id, this.creator, blockedParentThreadGroup := isTimeout, id, creator, null;
    }

    /** `StartAll(will_block=True)`, before the threads start; `current` is `CurrentThreadGroup()`. */
    method Link(current: ReraiserThreadGroup?, ghost all: seq<ReraiserThreadGroup>)
      requires Registered(all) && id < |all| && all[id] == this && blockedParentThreadGroup == null
      requires current != null ==> current.id < id && all[current.id] == current
      modifies this
      ensures Registered(all)
      ensures View(all) == old(View(all))[id := Group(isTimeout, IdOf(current), creator)]
    {
      blockedParentThreadGroup := current;
    }

    /** `_JoinAll`: whichever way it ends, the link to the waiting group is cleared. */
    method JoinAll<T(==)>(join: Join<T>, ghost end: nat, ghost all: seq<ReraiserThreadGroup>)
      returns (result: JoinResult<T>, now: nat)
      requires Registered(all) && id < |all| && all[id] == this && join.EndsBy(end)
      modifies this
      ensures Registered(all)
      ensures View(all) == old(View(all))[id := Group(isTimeout, None, creator)]
      ensures join.IsResult(result, now)
    {
      result, now := JoinThreads(join, end);
      blockedParentThreadGroup := null;
    }
  }

  /**
    What a join meets: thread k comes to `outcomes[k]`, Timeout for a TimeoutError that its function
    raised, and has done so at time n if `ended(n, k)`; at time n the watcher has timed out if
    `expired(n)`, and the `timeout` of the join itself is over if `late(n)`.  Each join takes a while.
   */
  datatype Join<T> = Join(outcomes: seq<Outcome<T>>, ended: (nat, nat) -> bool, expired: nat -> bool, late: nat -> bool)
  {
    ghost predicate AllEnded(now: nat) {
      forall k :: 0 <= k < |outcomes| ==> ended(now, k)
    }

    /** From `end` on there is nothing to wait for any more; what has ended stays so. */
    ghost predicate EndsBy(end: nat) {
      && (forall a, b, k :: a <= b && ended(a, k) ==> ended(b, k))
      && forall t :: t >= end ==> expired(t) || late(t) || AllEnded(t)
    }

    /** Thread k is the first of those that have ended with an exception. */
    predicate IsFirstRaised(now: nat, k: nat) {
      && k < |outcomes| && ended(now, k) && !outcomes[k].Value?
      && forall i :: 0 <= i < k && ended(now, i) ==> outcomes[i].Value?
    }

    ghost predicate IsResult(result: JoinResult<T>, now: nat) {
      match result
      case WatcherTimedOut => expired(now) && outcomes != []
      case Reraised(e) => (AllEnded(now) || late(now)) && exists k: nat :: IsFirstRaised(now, k) && e == outcomes[k]
      case Rejoined =>
        (AllEnded(now) || late(now)) && forall k :: 0 <= k < |outcomes| && ended(now, k) ==> outcomes[k].Value?
    }
  }

  /** The TimeoutError of the watcher, what a thread raised, or neither. */
  datatype JoinResult<T> = WatcherTimedOut | Reraised(raised: Outcome<T>) | Rejoined

  lemma EndsInTime<T>(join: Join<T>, end: nat, before: nat, now: nat)
    requires join.EndsBy(end) && !join.late(before) && !join.expired(before) && before <= now
    ensures before >= end ==> join.AllEnded(now)
  {
    if before >= end {
      forall k | 0 <= k < |join.outcomes| ensures join.ended(now, k) {
        assert join.ended(before, k);
      }
    }
  }

  /** The loop over the threads that are still alive, and the loop over all threads. */
  method JoinThreads<T(==)>(join: Join<T>, ghost end: nat) returns (result: JoinResult<T>, now: nat)
    requires join.EndsBy(end)
    ensures join.IsResult(result, now)
  {
    var threads := |join.outcomes|;
    var alive: seq<nat> := seq(threads, (i: nat) => i);
    forall k: nat | k < threads ensures k in alive {
      assert alive[k] == k;
    }
    now := 0;
    while alive != [] && !join.late(now)
      invariant forall i :: 0 <= i < |alive| ==> alive[i] < threads
      invariant forall k: nat :: k < threads && k !in alive ==> join.ended(now, k)
      decreases if now < end then end - now else 0, |alive|
    {
      ghost var before := now;
      var next: seq<nat> := [];
      for i := 0 to |alive|
        invariant now == before + i
        invariant forall k :: 0 <= k < |next| ==> next[k] < threads
        invariant next != [] ==> before < end
        invariant i > 0 ==> !join.expired(before)
        invariant forall k: nat :: k < threads && k !in alive[i..] && k !in next ==> join.ended(now, k)
      {
        if join.expired(now) {
          assert alive[i] < threads;
          return WatcherTimedOut, now;
        }
        now := now + 1;
        EndsInTime(join, end, before, now);
        if !join.ended(now, alive[i]) {
          next := next + [alive[i]];
        }
      }
      alive := next;
    }
    for k := 0 to threads
      invariant forall i :: 0 <= i < k && join.ended(now, i) ==> join.outcomes[i].Value?
    {
      if join.ended(now, k) && !join.outcomes[k].Value? {
        assert join.IsFirstRaised(now, k);
        return Reraised(join.outcomes[k]), now;
      }
    }
    return Rejoined, now;
  }

  ghost function IdOf(g: ReraiserThreadGroup?): Option<nat> {
    if g == null then None else Some(g.id)
  }

  /** All groups ever made, in the order in which they were made. */
  ghost predicate Registered(all: seq<ReraiserThreadGroup>)
    reads all
  {
    forall i :: 0 <= i < |all| ==>
      && all[i].id == i
      && (var up := all[i].blockedParentThreadGroup; up != null ==> up.id < i && all[up.id] == up)
  }

  /** The groups as the machine sees them. */
  ghost function View(all: seq<ReraiserThreadGroup>): seq<Group>
    reads all
  {
    seq(|all|, i requires 0 <= i < |all| reads all =>
      Group(all[i].isTimeout, IdOf(all[i].blockedParentThreadGroup), all[i].creator))
  }

  /** Lines 66-71 of timeout_retry.py: the walk up the links, from the group of the current thread. */
  method CurrentTimeoutThreadGroup(current: ReraiserThreadGroup?, ghost all: seq<ReraiserThreadGroup>)
    returns (found: ReraiserThreadGroup?)
    requires Registered(all) && (current != null ==> current.id < |all| && all[current.id] == current)
    ensures IdOf(found) == TimeoutGroup(View(all), IdOf(current))
    ensures found != null ==> found.isTimeout && found.id < |all| && all[found.id] == found
  {
    var threadGroup := current;
    while threadGroup != null
      invariant threadGroup != null ==> threadGroup.id < |all| && all[threadGroup.id] == threadGroup
      invariant TimeoutGroup(View(all), IdOf(threadGroup)) == TimeoutGroup(View(all), IdOf(current))
      decreases if threadGroup == null then 0 else threadGroup.id + 1
    {
      if threadGroup.isTimeout {
        return threadGroup;
      }
      threadGroup := threadGroup.blockedParentThreadGroup;
    }
    return null;
  }

  datatype Outcome<T> = Value(value: T) | Exception(code: int) | Timeout

  /**
    The loop of `Run`, lines 148-175 of timeout_retry.py: `attempt(n)` is what the n-th try comes to.
    It stops at the first try that succeeds or must not be repeated.
   */
  method Run<T>(attempt: nat -> Outcome<T>, retries: nat, retryIf: Outcome<T> -> bool)
    returns (result: Outcome<T>, tries: nat)
    ensures 1 <= tries <= retries + 1 && result == attempt(tries)
    ensures forall k :: 1 <= k < tries ==> !attempt(k).Value? && retryIf(attempt(k))
    ensures result.Value? || tries == retries + 1 || !retryIf(result)
  {
    var numTry := 1;
    while true
      invariant 1 <= numTry <= retries + 1
      invariant forall k :: 1 <= k < numTry ==> !attempt(k).Value? && retryIf(attempt(k))
      decreases retries + 1 - numTry
    {
      var outcome := attempt(numTry);
      if outcome.Value? || numTry > retries || !retryIf(outcome) {
        return outcome, numTry;
      }
      numTry := numTry + 1;
    }
  }

  /**
    `GetAllReturnValues`: the values in the order of the functions, or what the first function raised,
    or the TimeoutError of the join.
   */
  method GetAllReturnValues<T(==)>(join: Join<T>, ghost end: nat)
    returns (values: Result<seq<T>, Outcome<T>>, joined: bool)
    requires join.EndsBy(end) && forall t :: !join.late(t)
    ensures values.Ok? ==> AreValues(join.outcomes, values.value)
    ensures joined ==> (values.Ok? <==> forall i :: 0 <= i < |join.outcomes| ==> join.outcomes[i].Value?)
    ensures joined && values.Err? ==> IsFirstRaised(join.outcomes, values.error)
    ensures !joined ==>
      values == Err(Timeout) && (exists t :: join.expired(t)) && !join.AllEnded(0)
  {
    if k: nat :| k < |join.outcomes| && !join.ended(0, k) {
      var result, now := JoinThreads(join, end);
      match result {
        case WatcherTimedOut => return Err(Timeout), false;
        case Reraised(raised) =>
          assert join.AllEnded(now);
          return Err(raised), true;
        case Rejoined =>
      }
    }
    var all := [];
    for i := 0 to |join.outcomes|
      invariant |all| == i && forall k :: 0 <= k < i ==> join.outcomes[k] == Value(all[k])
    {
      if !join.outcomes[i].Value? {
        return Err(join.outcomes[i]), true;
      }
      all := all + [join.outcomes[i].value];
    }
    return Ok(all), true;
  }

  predicate AreValues<T(==)>(outcomes: seq<Outcome<T>>, values: seq<T>) {
    |values| == |outcomes| && forall i :: 0 <= i < |outcomes| ==> outcomes[i] == Value(values[i])
  }

  predicate IsFirstRaised<T(==)>(outcomes: seq<Outcome<T>>, raised: Outcome<T>) {
    !raised.Value?
    && exists i :: 0 <= i < |outcomes| && outcomes[i] == raised && forall k :: 0 <= k < i ==> outcomes[k].Value?
  }

  datatype WaitResult = Met | GaveUp | WaitTimedOut

  /**
    `WaitFor`: `condition(n)` is what the n-th check finds, `remaining(n)` the time that the
    timeout group has left then, None without one.  Somewhere the wait ends, be it only by `maxTries`.
   */
  method WaitFor(condition: nat -> bool, remaining: nat -> Option<int>, waitPeriod: nat, maxTries: Option<nat>,
                 ghost end: nat)
    returns (result: WaitResult, checks: nat)
    requires maxTries.Some? || (end > 0 && StopsAt(condition, remaining, waitPeriod, end))
    ensures forall n :: 1 <= n < checks ==> !StopsAt(condition, remaining, waitPeriod, n)
    ensures maxTries.Some? ==> checks <= maxTries.value
    ensures match result
            case Met => checks > 0 && condition(checks)
            case WaitTimedOut => checks > 0 && !condition(checks) && StopsAt(condition, remaining, waitPeriod, checks)
            case GaveUp =>
              && maxTries == Some(checks)
              && (checks > 0 ==> !StopsAt(condition, remaining, waitPeriod, checks))
  {
    checks := 0;
    var left := maxTries;
    while left.None? || left.value > 0
      invariant forall n :: 1 <= n <= checks ==> !StopsAt(condition, remaining, waitPeriod, n)
      invariant left.None? <==> maxTries.None?
      invariant left.Some? ==> left.value >= 0 && checks + left.value == maxTries.value
      decreases if left.Some? then left.value else end - checks
    {
      checks := checks + 1;
      var met := condition(checks);
      if left.Some? {
        left := Some(left.value - 1);
      }
      if met {
        return Met, checks;
      }
      if remaining(checks).Some? && remaining(checks).value < waitPeriod {
        return WaitTimedOut, checks;
      }
    }
    return GaveUp, checks;
  }

  /** A check that ends the wait: the condition is met, or too little time is left for another period. */
  predicate StopsAt(condition: nat -> bool, remaining: nat -> Option<int>, waitPeriod: nat, n: nat) {
    condition(n) || (remaining(n).Some? && remaining(n).value < waitPeriod)
  }
}
