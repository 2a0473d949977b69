/** Port allocation for test servers: devil/android/ports.py. */
module Ports {
  import opened Wrappers

  const FIRST := 10201
  const LAST := 30000
  const MAX_PORT := 65535

  // ---------------------------------------------------------------------------------
  // Decimal numbers in a file
  // ---------------------------------------------------------------------------------

  function Digit(n: nat): char
    requires n < 10
  {
    '0' + n as char
  }

  /** `'%d' % n`. */
  function Decimal(n: nat): string {
    if n < 10 then [Digit(n)] else Decimal(n / 10) + [Digit(n % 10)]
  }

  predicate IsDigit(c: char) {
    '0' <= c <= '9'
  }

  /** `int(s)` for plain digits; None is the ValueError. */
  function ParseInt(s: string): Option<nat>
    decreases |s|
  {
    if s == "" || !IsDigit(s[|s| - 1]) then None
    else
      var digit := (s[|s| - 1] - '0') as nat;
      if |s| == 1 then Some(digit)
      else
        match ParseInt(s[..|s| - 1])
        case None => None
        case Some(n) => Some(10 * n + digit)
  }

  lemma {:induction false} ParseDecimal(n: nat)
    ensures ParseInt(Decimal(n)) == Some(n) && Decimal(n) != ""
  {
    var s := Decimal(n);
    if n >= 10 {
      ParseDecimal(n / 10);
      assert s[..|s| - 1] == Decimal(n / 10);
    }
  }

  lemma FiveDigits(n: nat)
    requires 10000 <= n <= 99999
    ensures |Decimal(n)| == 5
  {
    var a, b, c, d := n / 10, n / 100, n / 1000, n / 10000;
    assert a / 10 == b && b / 10 == c && c / 10 == d && 1 <= d <= 9;
    assert |Decimal(d)| == 1;
    assert |Decimal(c)| == 2;
    assert |Decimal(b)| == 3;
    assert |Decimal(a)| == 4;
  }

  /** `seek(0)` and `write(text)`: what is longer stays behind. */
  function Overwrite(content: string, text: string): string {
    if |text| <= |content| then text + content[|text|..] else text
  }

  // ---------------------------------------------------------------------------------
  // What one call does
  // ---------------------------------------------------------------------------------

  type Availability = nat -> bool

  /** The first port from p on that can be bound; binding above 65535 raises. */
  function FirstFree(available: Availability, p: nat): (q: Option<nat>)
    ensures q.Some? ==> p <= q.value <= MAX_PORT && available(q.value)
    ensures q.None? ==> forall k :: p <= k <= MAX_PORT ==> !available(k)
    ensures q.Some? ==> forall k :: p <= k < q.value ==> !available(k)
    decreases MAX_PORT + 1 - p
  {
    if p > MAX_PORT then None else if available(p) then Some(p) else FirstFree(available, p + 1)
  }

  /** The file holds the next port to try. */
  predicate IsNextPort(p: nat) {
    FIRST <= p <= LAST + 1
  }

  ghost predicate FileIs(file: Option<string>, p: nat) {
    file == Some(Decimal(p)) && IsNextPort(p)
  }

  /** The port that is returned, and the next port. */
  function Allocated(available: Availability, p: nat): (nat, nat) {
    match FirstFree(available, p)
    case None => (if p > MAX_PORT then p else MAX_PORT + 1, p)
    case Some(q) => if q > LAST || q < FIRST then (0, p) else (q, q + 1)
  }

  /** What one call returns, and what it leaves in the file, whatever the file says. */
  function Call(available: Availability, file: Option<string>): (nat, Option<string>) {
    var content := if file.Some? then file.value else Decimal(FIRST);
    match ParseInt(content)
    case None => (0, Some(content))  // ValueError, which is logged
    case Some(p) =>
      var (port, next) := Allocated(available, p);
      (port, Some(if next != p then Overwrite(content, Decimal(next)) else content))
  }

  class PortFile {
    var content: Option<string>

    constructor (content: Option<string>)
      ensures this.content == content
    {
      this.content := content;
    }

    method ResetTestServerPortAllocation() returns (ok: bool)
      modifies this
      ensures ok && FileIs(content, FIRST)
    {
      content := Some(Decimal(FIRST));
      return true;
    }

    /** One call under the file lock; a missing file is reset first. */
    method AllocateTestServerPort(available: Availability) returns (port: nat)
      modifies this
      ensures (port, content) == Call(available, old(content))
    {
      if content == None {
        var ok := ResetTestServerPortAllocation();
      }
      var stored := ParseInt(content.value);
      if stored == None {
        return 0;
      }
      port := stored.value;
      while port <= MAX_PORT && !available(port)
        invariant port == stored.value || stored.value <= port <= MAX_PORT + 1
        invariant FirstFree(available, port) == FirstFree(available, stored.value)
        decreases MAX_PORT + 1 - port
      {
        port := port + 1;
      }
      if port > MAX_PORT {
        return;  // OverflowError, which is logged
      }
      if port > LAST || port < FIRST {
        return 0;
      }
      content := Some(Overwrite(content.value, Decimal(port + 1)));
    }
  }

  /**
    Overwriting without truncation leaves exactly what was written if and only if it is no shorter than
    what was there.
   */
  lemma OverwriteIff(content: string, text: string)
    ensures Overwrite(content, text) == text <==> |content| <= |text|
  {
    if |content| == |text| {
      assert content[|text|..] == "";
    }
  }

  /** As long as only these calls write the file, it holds exactly the decimal of the next port. */
  lemma FileStaysDecimal(available: Availability, file: Option<string>, p: nat)
    requires (file == None && p == FIRST) || FileIs(file, p)
    ensures
      var (port, next) := Allocated(available, p);
      Call(available, file).0 == port && FileIs(Call(available, file).1, next)
  {
    hide Decimal, FirstFree;
    ParseDecimal(p);
    var next := Allocated(available, p).1;
    if next != p {
      FiveDigits(p);
      FiveDigits(next);
      OverwriteIff(Decimal(p), Decimal(next));
    }
  }

  // ---------------------------------------------------------------------------------
  // What the callers get
  // ---------------------------------------------------------------------------------

  /** The documented results, 0 or a port in range, are given if and only if some port is left. */
  lemma DocumentedResultIff(available: Availability, p: nat)
    requires IsNextPort(p)
    ensures
      var port := Allocated(available, p).0;
      (port == 0 || FIRST <= port <= LAST) <==> exists k :: p <= k <= MAX_PORT && available(k)
  {
  }

  /** Exactly which port is given out, when 0 is returned, and what the next port is. */
  lemma AllocatedIs(available: Availability, p: nat, q: nat)
    requires IsNextPort(p) && FIRST <= q <= LAST
    ensures
      var (port, next) := Allocated(available, p);
      && (port == q <==> p <= q && available(q) && forall k :: p <= k < q ==> !available(k))
      && (port == 0 <==>
            (forall k :: p <= k <= LAST ==> !available(k)) && exists k :: LAST < k <= MAX_PORT && available(k))
      && next == (if FIRST <= port <= LAST then port + 1 else p)
  {
    var first := FirstFree(available, p);
    if first.Some? && first.value <= q {
      assert available(first.value);
    }
  }

  lemma FreePortIsAvailable(available: Availability, p: nat)
    requires IsNextPort(p)
    ensures var port := Allocated(available, p).0; FIRST <= port <= LAST ==> available(port) && port >= p
  {
  }

  /** The next port after n calls, and the results of n calls, in whatever order the processes make them. */
  function NextPort(calls: seq<Availability>, p: nat, n: nat): nat
    requires n <= |calls|
  {
    if n == 0 then p else Allocated(calls[n - 1], NextPort(calls, p, n - 1)).1
  }

  function Result(calls: seq<Availability>, p: nat, n: nat): nat
    requires n < |calls|
  {
    Allocated(calls[n], NextPort(calls, p, n)).0
  }

  lemma NextGrows(available: Availability, p: nat)
    requires IsNextPort(p)
    ensures IsNextPort(Allocated(available, p).1) && p <= Allocated(available, p).1
  {
  }

  lemma {:induction false} NextPortGrows(calls: seq<Availability>, p: nat, n: nat, m: nat)
    requires n <= m <= |calls| && IsNextPort(p)
    ensures IsNextPort(NextPort(calls, p, m)) && NextPort(calls, p, n) <= NextPort(calls, p, m)
    decreases m
  {
    if m > 0 {
      hide *;
      NextPortStep(calls, p, m - 1);
      if n < m {
        NextPortGrows(calls, p, n, m - 1);
      } else {
        NextPortGrows(calls, p, m - 1, m - 1);
      }
      NextGrows(calls[m - 1], NextPort(calls, p, m - 1));
    }
  }

  lemma NextPortStep(calls: seq<Availability>, p: nat, n: nat)
    requires n < |calls|
    ensures NextPort(calls, p, n + 1) == Allocated(calls[n], NextPort(calls, p, n)).1
  {
  }

  /** Between resets, ports that are given out only ever increase: no two callers get the same one. */
  lemma PortsIncrease(calls: seq<Availability>, p: nat, i: nat, k: nat)
    requires i < k < |calls| && IsNextPort(p)
    requires FIRST <= Result(calls, p, i) <= LAST && FIRST <= Result(calls, p, k) <= LAST
    ensures Result(calls, p, i) < Result(calls, p, k)
  {
    hide FirstFree, NextPort;
    NextPortStep(calls, p, i);
    NextPortGrows(calls, p, 0, i);
    NextPortGrows(calls, p, i + 1, k);
    NextPortGrows(calls, p, 0, k);
    FreePortIsAvailable(calls[k], NextPort(calls, p, k));
  }

  /** No free port at or above the stored one: a result that is neither 0 nor a port. */
  lemma OverflowEscapes()
    ensures Allocated(k => k < FIRST, FIRST).0 == MAX_PORT + 1
  {
    var available: Availability := k => k < FIRST;
    assert FirstFree(available, FIRST) == None;
  }
}
