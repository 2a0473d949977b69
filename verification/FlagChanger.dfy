/** Class FlagChanger of devil/android/flag_changer.py: a stack of flag sets kept in a file on the device. */
module FlagChanger {
  import opened Wrappers
  import opened Text
  import opened Flags

  // ---------------------------------------------------------------------------------
  // The file on the device
  // ---------------------------------------------------------------------------------

  function StripLeft(s: string): string {
    if s != "" && IsSpace(s[0]) then StripLeft(s[1..]) else s
  }

  function StripRight(s: string): string {
    if s != "" && IsSpace(s[|s| - 1]) then StripRight(s[..|s| - 1]) else s
  }

  function Strip(s: string): string {
    StripRight(StripLeft(s))
  }

  /** `ReadFile`: the content with every line terminated by LF; None is a missing file. */
  function DeviceFlags(file: Option<string>): seq<string> {
    Parse(if file.Some? then Strip(JoinLines(SplitLines(file.value))) else "")
  }

  function SetOf(flags: seq<string>): set<string> {
    set f | f in flags
  }

  function FlagSet(file: Option<string>): set<string> {
    SetOf(DeviceFlags(file))
  }

  predicate NoBreak(s: string) {
    forall i :: 0 <= i < |s| ==> !IsBreak(s[i])
  }

  /** A flag that the file can carry. */
  predicate Carried(flag: string) {
    RoundTrips(flag) && NoBreak(flag)
  }

  predicate AllCarried(flags: set<string>) {
    forall f :: f in flags ==> Carried(f)
  }

  lemma {:induction false} EscapeNoBreak(s: string)
    requires NoBreak(s)
    ensures NoBreak(EscapeQuotes(s))
    decreases |s|
  {
    if s != "" {
      EscapeNoBreak(s[..|s| - 1]);
    }
  }

  /** No line break, and no space at the end. */
  ghost predicate Closed(s: string) {
    s != "" && NoBreak(s) && !IsSpace(s[|s| - 1])
  }

  lemma QuotedClosed(s: string)
    requires NoBreak(s)
    ensures Closed(Quoted(s))
  {
    EscapeNoBreak(s);
  }

  lemma PlainClosed(s: string)
    requires s != "" && !NeedsQuoting(s)
    ensures Closed(s)
  {
    assert forall i :: 0 <= i < |s| ==> IsPlain(s[i]);
  }

  lemma ConcatClosed(a: string, b: string)
    requires NoBreak(a) && Closed(b)
    ensures Closed(a + b)
  {
  }

  lemma KeyValueClosed(key: string, value: string)
    requires !NeedsQuoting(key) && NoBreak(value)
    ensures Closed(key + "=" + (if NeedsQuoting(value) then Quoted(value) else value))
  {
    assert forall i :: 0 <= i < |key| ==> IsPlain(key[i]);
    var head := key + "=";
    assert Closed(head);
    hide Quoted;
    if NeedsQuoting(value) {
      QuotedClosed(value);
      ConcatClosed(head, Quoted(value));
    } else if value != "" {
      PlainClosed(value);
      ConcatClosed(head, value);
    } else {
      assert head + value == head;
    }
  }

  lemma QuoteFlagClosed(flag: string)
    requires Carried(flag)
    ensures Closed(QuoteFlag(flag))
  {
    hide Quoted, NeedsQuoting, Closed;
    var n := KeyLength(flag);
    var key := flag[..n];
    if NeedsQuoting(key) {
      QuotedClosed(flag);
    } else if n == |flag| {
      PlainClosed(key);
    } else {
      KeyValueClosed(key, flag[n + 1..]);
    }
  }

  lemma NothingPrinted(flags: seq<string>)
    ensures Printed(flags, 0) == "_"
  {
  }

  lemma {:induction false} PrintedClosed(flags: seq<string>, n: nat)
    requires n <= |flags| && forall i :: 0 <= i < n ==> Carried(flags[i])
    ensures Closed(Printed(flags, n)) && Printed(flags, n)[0] == '_'
    decreases n
  {
    hide QuoteFlag, Join, Carried;
    if n == 0 {
      NothingPrinted(flags);
    } else {
      PrintedClosed(flags, n - 1);
      QuoteFlagClosed(flags[n - 1]);
      assert Words(flags, n) == Words(flags, n - 1) + [QuoteFlag(flags[n - 1])];
      JoinAppend(" ", Words(flags, n - 1), QuoteFlag(flags[n - 1]));
    }
  }

  lemma StripTerminated(s: string)
    requires Closed(s) && !IsSpace(s[0])
    ensures Strip(s + "\n") == s
  {
    var t := s + "\n";
    assert t[|t| - 1] == '\n' && t[..|t| - 1] == s;
    assert StripRight(s) == s && StripLeft(t) == t;
  }

  /** What is written comes back: the codec, the missing file and the line ends together. */
  lemma WrittenIsRead(flags: seq<string>)
    requires AllCarried(SetOf(flags))
    ensures DeviceFlags(Serialize(flags)) == flags
  {
    assert forall i :: 0 <= i < |flags| ==> flags[i] in SetOf(flags);
    if flags == [] {
      assert Parse("") == [];
    } else {
      hide Parse;
      var line := Printed(flags, |flags|);
      PrintedClosed(flags, |flags|);
      OneLine(line);
      StripTerminated(line);
      RoundTripIff(flags);
    }
  }

  // ---------------------------------------------------------------------------------
  // The stack of flag sets
  // ---------------------------------------------------------------------------------

  type Stack = s: seq<set<string>> | s != [] witness [{}]

  datatype Change = Push(add: set<string>, remove: set<string>) | Replace(flags: set<string>) | Pop

  function Top(stack: Stack): set<string> {
    stack[|stack| - 1]
  }

  /** The intended effect on the stack. */
  function Apply(stack: Stack, c: Change): Stack {
    match c
    case Push(add, remove) => stack + [Top(stack) + add - remove]
    case Replace(flags) => stack + [flags]
    case Pop => if |stack| > 1 then stack[..|stack| - 1] else stack
  }

  function ApplyAll(stack: Stack, cs: seq<Change>): Stack
    decreases |cs|
  {
    if cs == [] then stack else Apply(ApplyAll(stack, cs[..|cs| - 1]), cs[|cs| - 1])
  }

  /** How many more pushes than restores. */
  function Depth(cs: seq<Change>): int
    decreases |cs|
  {
    if cs == [] then 0 else Depth(cs[..|cs| - 1]) + (if cs[|cs| - 1].Pop? then -1 else 1)
  }

  ghost predicate NeverBelow(cs: seq<Change>) {
    forall n :: 0 <= n <= |cs| ==> Depth(cs[..n]) >= 0
  }

  ghost predicate Balanced(cs: seq<Change>) {
    NeverBelow(cs) && Depth(cs) == 0
  }

  /** Changes that never restore more than they pushed leave what was there untouched. */
  lemma {:induction false} StackBelow(stack: Stack, cs: seq<Change>)
    requires NeverBelow(cs)
    ensures
      var after := ApplyAll(stack, cs);
      |after| == |stack| + Depth(cs) && Depth(cs) >= 0 && after[..|stack|] == stack
    decreases |cs|
  {
    assert cs[..|cs|] == cs;
    if cs != [] {
      var init := cs[..|cs| - 1];
      forall n | 0 <= n <= |init| ensures Depth(init[..n]) >= 0 {
        assert init[..n] == cs[..n];
      }
      StackBelow(stack, init);
    }
  }

  // ---------------------------------------------------------------------------------
  // The object
  // ---------------------------------------------------------------------------------

  const NOUGAT := 24

  class Device {
    const sdk: int
    var cmdline: Option<string>  // the file in /data/local/tmp
    var legacy: Option<string>   // the file in /data/local
    var enforcing: bool          // SELinux

    constructor (sdk: int, cmdline: Option<string>, legacy: Option<string>, enforcing: bool)
      ensures this.sdk == sdk && this.cmdline == cmdline && this.legacy == legacy && this.enforcing == enforcing
    {
      this.sdk, this.cmdline, this.legacy, this.enforcing := sdk, cmdline, legacy, enforcing;
    }
  }

  ghost predicate IsOrderOf(order: seq<string>, flags: set<string>) {
    SetOf(order) == flags && forall i, k :: 0 <= i < k < |order| ==> order[i] != order[k]
  }

  lemma SetOfAppend(order: seq<string>, f: string)
    ensures SetOf(order + [f]) == SetOf(order) + {f}
  {
  }

  /** Iterating over a set: any order. */
  method Enumerate(flags: set<string>) returns (order: seq<string>)
    ensures IsOrderOf(order, flags)
  {
    order := [];
    var rest := flags;
    while rest != {}
      invariant rest <= flags && SetOf(order) == flags - rest
      invariant IsOrderOf(order, flags - rest)
    {
      var f :| f in rest;
      SetOfAppend(order, f);
      order, rest := order + [f], rest - {f};
    }
  }

  lemma NoneIffEmpty(order: seq<string>)
    ensures Serialize(order).None? <==> SetOf(order) == {}
  {
    assert order != [] ==> order[0] in SetOf(order);
  }

  class FlagChanger {
    const device: Device
    var stateStack: Stack

    /** The top of the stack is what the device would parse. */
    ghost predicate Valid()
      reads this, device
    {
      Top(stateStack) == FlagSet(device.cmdline)
    }

    ghost predicate CanCarry()
      reads this
    {
      forall i :: 0 <= i < |stateStack| ==> AllCarried(stateStack[i])
    }

    constructor (device: Device)
      modifies device`legacy
      ensures Valid() && this.device == device && device.legacy == None
      ensures stateStack == [FlagSet(device.cmdline)]
    {
      this.device := device;
      stateStack := [{}];
      new;
      if device.legacy.Some? {
        device.legacy := None;
      }
      var flags := GetCurrentFlags();
    }

    method GetCurrentFlags() returns (flags: seq<string>)
      modifies this
      ensures Valid() && flags == DeviceFlags(device.cmdline)
      ensures stateStack == old(stateStack)[..|old(stateStack)| - 1] + [SetOf(flags)]
    {
      var commandLine := "";
      if device.cmdline.Some? {
        commandLine := Strip(JoinLines(SplitLines(device.cmdline.value)));
      }
      flags := ParseFlags(commandLine);
      stateStack := stateStack[..|stateStack| - 1] + [SetOf(flags)];
    }

    method UpdateCommandLineFile() returns (flags: seq<string>)
      modifies this, device`cmdline
      ensures Valid() && flags == DeviceFlags(device.cmdline)
      ensures stateStack == old(stateStack)[..|old(stateStack)| - 1] + [SetOf(flags)]
      ensures device.cmdline.None? <==> old(Top(stateStack)) == {}
      ensures AllCarried(old(Top(stateStack))) ==>
        stateStack == old(stateStack) && IsOrderOf(flags, Top(stateStack))
    {
      hide Serialize, DeviceFlags;
      ghost var wanted := Top(stateStack);
      var order := Enumerate(Top(stateStack));
      NoneIffEmpty(order);
      device.cmdline := Serialize(order);
      if AllCarried(wanted) {
        WrittenIsRead(order);
        assert stateStack[..|stateStack| - 1] + [wanted] == stateStack;
      }
      flags := GetCurrentFlags();
    }

    method ReplaceFlags(newFlags: set<string>) returns (flags: seq<string>)
      modifies this, device`cmdline
      ensures Valid() && flags == DeviceFlags(device.cmdline)
      ensures stateStack == old(stateStack) + [SetOf(flags)]
      ensures AllCarried(newFlags) ==>
        stateStack == Apply(old(stateStack), Replace(newFlags)) && IsOrderOf(flags, newFlags)
    {
      hide DeviceFlags;
      stateStack := stateStack + [newFlags];
      flags := UpdateCommandLineFile();
    }

    method PushFlags(add: set<string>, remove: set<string>) returns (flags: seq<string>)
      modifies this, device`cmdline
      ensures Valid() && flags == DeviceFlags(device.cmdline)
      ensures stateStack == old(stateStack) + [SetOf(flags)]
      ensures
        var wanted := old(Top(stateStack)) + add - remove;
        AllCarried(wanted) ==> stateStack == Apply(old(stateStack), Push(add, remove)) && IsOrderOf(flags, wanted)
    {
      hide DeviceFlags;
      var newFlags := Top(stateStack);
      if add != {} {
        newFlags := newFlags + add;
      }
      if remove != {} {
        newFlags := newFlags - remove;
      }
      assert newFlags == Top(stateStack) + add - remove;
      flags := ReplaceFlags(newFlags);
    }

    method AddFlags(add: set<string>) returns (flags: seq<string>)
      modifies this, device`cmdline
      ensures Valid() && flags == DeviceFlags(device.cmdline)
      ensures AllCarried(old(Top(stateStack)) + add) ==> stateStack == Apply(old(stateStack), Push(add, {}))
    {
      flags := PushFlags(add, {});
    }

    method RemoveFlags(remove: set<string>) returns (flags: seq<string>)
      modifies this, device`cmdline
      ensures Valid() && flags == DeviceFlags(device.cmdline)
      ensures AllCarried(old(Top(stateStack)) - remove) ==> stateStack == Apply(old(stateStack), Push({}, remove))
    {
      flags := PushFlags({}, remove);
    }

    /** None is the AssertionError for a Restore without a change before it. */
    method Restore() returns (flags: Option<seq<string>>)
      modifies this, device`cmdline
      ensures old(Valid()) || flags.Some? ==> Valid()
      ensures flags.None? <==> |old(stateStack)| == 1
      ensures flags.None? ==> stateStack == old(stateStack) && device.cmdline == old(device.cmdline)
      ensures flags.Some? ==> flags.value == DeviceFlags(device.cmdline) && |stateStack| == |old(stateStack)| - 1
      ensures flags.Some? ==> stateStack[..|stateStack| - 1] == old(stateStack)[..|stateStack| - 1]
      ensures flags.Some? && AllCarried(old(stateStack)[|stateStack| - 1]) ==>
        stateStack == old(stateStack)[..|stateStack|]
      ensures old(CanCarry()) ==> stateStack == Apply(old(stateStack), Pop)
    {
      hide DeviceFlags, Carried;
      if |stateStack| <= 1 {
        return None;
      }
      stateStack := stateStack[..|stateStack| - 1];
      var current := UpdateCommandLineFile();
      return Some(current);
    }
  }

  predicate ChangeCarried(c: Change) {
    match c
    case Push(add, _) => AllCarried(add)
    case Replace(flags) => AllCarried(flags)
    case Pop => true
  }

  /** After changes that never restore more than they pushed: as many levels more, above what was there. */
  ghost predicate Above(stack: Stack, was: Stack, depth: int) {
    |stack| == |was| + depth && depth >= 0 && stack[..|was|] == was
  }

  lemma PrefixNeverBelow(cs: seq<Change>, n: nat)
    requires NeverBelow(cs) && n < |cs|
    ensures Depth(cs[..n]) >= 0 && Depth(cs[..n + 1]) >= 0
    ensures Depth(cs[..n + 1]) == Depth(cs[..n]) + (if cs[n].Pop? then -1 else 1)
  {
    assert cs[..n + 1][..n] == cs[..n];
  }

  /**
    Any client: a balanced run of changes, whatever flags it pushes, gives back both the stack and the
    device's set of flags, if the file can carry the flags that were there at first.  If it can carry
    all, the stack is the intended one throughout.
   */
  method PerformAll(changer: FlagChanger, cs: seq<Change>)
    requires changer.Valid()
    modifies changer, changer.device`cmdline
    ensures changer.Valid()
    ensures Balanced(cs) && AllCarried(old(Top(changer.stateStack))) ==>
      changer.stateStack == old(changer.stateStack)
        && FlagSet(changer.device.cmdline) == old(FlagSet(changer.device.cmdline))
    ensures old(changer.CanCarry()) && (forall i :: 0 <= i < |cs| ==> ChangeCarried(cs[i])) ==>
      changer.CanCarry() && changer.stateStack == ApplyAll(old(changer.stateStack), cs)
  {
    hide FlagSet, DeviceFlags, Carried, NeverBelow;
    ghost var was := changer.stateStack;
    ghost var carried := changer.CanCarry() && forall i :: 0 <= i < |cs| ==> ChangeCarried(cs[i]);
    for i := 0 to |cs|
      invariant changer.Valid()
      invariant NeverBelow(cs) && AllCarried(Top(was)) ==> Above(changer.stateStack, was, Depth(cs[..i]))
      invariant carried ==> changer.CanCarry() && changer.stateStack == ApplyAll(was, cs[..i])
    {
      assert cs[..i + 1][..i] == cs[..i];
      if NeverBelow(cs) {
        PrefixNeverBelow(cs, i);
      }
      match cs[i]
      case Push(add, remove) =>
        assert carried ==> AllCarried(Top(changer.stateStack) + add - remove);
        var flags := changer.PushFlags(add, remove);
      case Replace(flags) =>
        var now := changer.ReplaceFlags(flags);
      case Pop =>
        var flags := changer.Restore();
    }
    assert cs[..|cs|] == cs;
  }

  // ---------------------------------------------------------------------------------
  // The context manager
  // ---------------------------------------------------------------------------------

  /** A use of `CustomCommandLineFlags`, the uses nested in its body, and whether the body raises in the end. */
  datatype Scope = Scope(flags: set<string>, body: seq<Scope>, raises: bool)

  /** An exception from inside, or one of its own. */
  predicate Raises(s: Scope) {
    s.raises || exists i :: 0 <= i < |s.body| && Raises(s.body[i])
  }

  /** The scopes whose bodies begin, in this order: after one that raises no other does. */
  function Entered(s: Scope): seq<Scope>
    decreases s, |s.body| + 1
  {
    [s] + EnteredFirst(s, |s.body|)
  }

  function EnteredFirst(s: Scope, n: nat): seq<Scope>
    requires n <= |s.body|
    decreases s, n
  {
    if n == 0 then []
    else if exists k :: 0 <= k < n - 1 && Raises(s.body[k]) then EnteredFirst(s, n - 1)
    else EnteredFirst(s, n - 1) + Entered(s.body[n - 1])
  }

  /** The device as the body of a scope begins. */
  datatype View = View(flags: set<string>, enforcing: bool)

  /** The body has the flags of its scope, if the file can carry them, and permissive mode where that is needed. */
  predicate Sees(v: View, s: Scope, sdk: int, enforcing: bool) {
    (AllCarried(s.flags) ==> v.flags == s.flags) && v.enforcing == (enforcing && sdk < NOUGAT)
  }

  ghost predicate SeeAll(views: seq<View>, scopes: seq<Scope>, sdk: int, enforcing: bool) {
    |views| == |scopes| && forall i :: 0 <= i < |views| ==> Sees(views[i], scopes[i], sdk, enforcing)
  }

  lemma SeeMore(a: seq<View>, b: seq<View>, s: seq<Scope>, t: seq<Scope>, sdk: int, enforcing: bool)
    requires SeeAll(a, s, sdk, enforcing) && SeeAll(b, t, sdk, enforcing)
    ensures SeeAll(a + b, s + t, sdk, enforcing)
  {
  }

  lemma SeeFirst(view: View, s: Scope, sdk: int, enforcing: bool)
    requires Sees(view, s, sdk, enforcing)
    ensures SeeAll([view], [s] + EnteredFirst(s, 0), sdk, enforcing)
  {
  }

  lemma SeeNext(seen: seq<View>, inner: seq<View>, s: Scope, i: nat, sdk: int, enforcing: bool)
    requires i < |s.body| && forall k :: 0 <= k < i ==> !Raises(s.body[k])
    requires SeeAll(seen, [s] + EnteredFirst(s, i), sdk, enforcing)
    requires SeeAll(inner, Entered(s.body[i]), sdk, enforcing && sdk < NOUGAT)
    ensures SeeAll(seen + inner, [s] + EnteredFirst(s, i + 1), sdk, enforcing)
  {
    SeeMore(seen, inner, [s] + EnteredFirst(s, i), Entered(s.body[i]), sdk, enforcing);
    assert [s] + EnteredFirst(s, i + 1) == [s] + EnteredFirst(s, i) + Entered(s.body[i]);
  }

  lemma {:induction false} EnteredStops(s: Scope, n: nat, m: nat)
    requires 0 < n <= m <= |s.body| && Raises(s.body[n - 1])
    ensures EnteredFirst(s, m) == EnteredFirst(s, n)
    decreases m
  {
    if n < m {
      EnteredStops(s, n, m - 1);
      assert Raises(s.body[n - 1]);
    }
  }

  lemma SeeLast(seen: seq<View>, s: Scope, i: nat, sdk: int, enforcing: bool)
    requires i == |s.body| || (0 < i < |s.body| && Raises(s.body[i - 1]))
    requires SeeAll(seen, [s] + EnteredFirst(s, i), sdk, enforcing)
    ensures SeeAll(seen, Entered(s), sdk, enforcing)
  {
    if i < |s.body| {
      EnteredStops(s, i, |s.body|);
    }
  }

  /**
    However the uses nest, whatever flags they set and whatever is raised in them: each body that
    begins sees its flags and the SELinux mode that it needs, and leaving one gives the device its
    SELinux mode back, and its set of flags if the file can carry it, and lets the exception through.
   */
  method CustomCommandLineFlags(device: Device, s: Scope) returns (raised: bool, ghost seen: seq<View>)
    modifies device
    ensures SeeAll(seen, Entered(s), device.sdk, old(device.enforcing))
    ensures device.enforcing == old(device.enforcing)
    ensures AllCarried(old(FlagSet(device.cmdline))) ==> FlagSet(device.cmdline) == old(FlagSet(device.cmdline))
    ensures raised <==> Raises(s)
    decreases s
  {
    hide DeviceFlags, FlagSet, Carried, EnteredFirst, Entered, SeeAll;
    var needsPermissive := device.sdk >= NOUGAT && device.enforcing;
    if needsPermissive {
      device.enforcing := false;
    }
    var changer := new FlagChanger(device);
    var flags := changer.ReplaceFlags(s.flags);
    raised, seen := false, [View(FlagSet(device.cmdline), device.enforcing)];
    SeeFirst(seen[0], s, device.sdk, old(device.enforcing));
    var i := 0;
    while i < |s.body| && !raised
      invariant 0 <= i <= |s.body|
      invariant SeeAll(seen, [s] + EnteredFirst(s, i), device.sdk, old(device.enforcing))
      invariant raised ==> i > 0 && Raises(s.body[i - 1])
      invariant raised ==> Raises(s)
      invariant !raised ==> forall k :: 0 <= k < i ==> !Raises(s.body[k])
      invariant |changer.stateStack| == 2 && changer.stateStack[0] == old(FlagSet(device.cmdline))
      invariant device.enforcing == (old(device.enforcing) && !needsPermissive)
    {
      ghost var inner;
      raised, inner := CustomCommandLineFlags(device, s.body[i]);
      SeeNext(seen, inner, s, i, device.sdk, old(device.enforcing));
      seen, i := seen + inner, i + 1;
    }
    SeeLast(seen, s, i, device.sdk, old(device.enforcing));
    raised := raised || s.raises;
    var restored := changer.Restore();
    if needsPermissive {
      device.enforcing := true;
    }
  }
}
