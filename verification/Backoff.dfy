/** Waiting for the WireGuard interface: a bounded number of attempts with a linearly growing, capped
    delay between them. Durations are signed 64-bit numbers of nanoseconds. */
module Backoff {
  import opened Kube
  import opened Text

  /** An address of an interface: IPv4 as four octets, or anything else. */
  datatype Addr = IPv4(a: nat, b: nat, c: nat, d: nat) | Other

  /** An interface; its addresses may be unreadable. */
  datatype Interface = Interface(name: string, addrs: Option<seq<Addr>>)

  /** What one attempt sees: listing the interfaces may fail. */
  datatype Snapshot = ListFailed | Listed(interfaces: seq<Interface>)

  predicate Usable(x: Addr) {
    x.IPv4? && x.a != 127 && x != IPv4(0, 0, 0, 0)
  }

  function Dotted(x: Addr): string
    requires x.IPv4?
  {
    Dec(x.a) + "." + Dec(x.b) + "." + Dec(x.c) + "." + Dec(x.d)
  }

  predicate Offers(f: Interface, name: string, x: Addr) {
    f.name == name && f.addrs.Some? && x in f.addrs.value && Usable(x)
  }

  /** Some interface of that name has a usable address in this snapshot. */
  ghost predicate Available(s: Snapshot, name: string) {
    s.Listed? && exists f, x | f in s.interfaces :: Offers(f, name, x)
  }

  const TWO63: int := 0x8000_0000_0000_0000
  const TWO64: int := 0x1_0000_0000_0000_0000

  /** Two's complement wrap-around to 64 bits. */
  function Wrap64(x: int): int {
    (x + TWO63) % TWO64 - TWO63
  }

  /** Wrapping changes nothing that fits into 64 bits, and otherwise keeps the residue. */
  lemma WrapsTo64(x: int)
    ensures -0x8000_0000_0000_0000 <= Wrap64(x) < 0x8000_0000_0000_0000
    ensures (Wrap64(x) - x) % 0x1_0000_0000_0000_0000 == 0
    ensures Wrap64(x) == x <==> -0x8000_0000_0000_0000 <= x < 0x8000_0000_0000_0000
  {
    var q := (x + TWO63) / TWO64;
    assert Wrap64(x) == x - q * TWO64;
    assert (-q * TWO64) % TWO64 == 0;
  }

  function Min(x: int, y: int): int {
    if x <= y then x else y
  }

  /** The delay after attempt `a`, as computed: multiplied in 64 bits, then capped. */
  function Delay(b: int, m: int, a: int): int {
    Min(Wrap64(b * a), m)
  }

  /** Sleeping for a negative duration returns at once. */
  function Slept(delay: int): nat {
    if delay > 0 then delay else 0
  }

  /** Total sleep when attempts `1..k` all come back empty-handed; a failed listing does not sleep. */
  function TotalSlept(attempts: seq<Snapshot>, b: int, m: int, k: nat): nat
    requires k <= |attempts|
  {
    if k == 0 then 0
    else TotalSlept(attempts, b, m, k - 1) + if attempts[k - 1].ListFailed? then 0 else Slept(Delay(b, m, k))
  }

  function Last(n: int): nat {
    if n > 0 then n - 1 else 0
  }

  method FindAddress(s: seq<Interface>, name: string) returns (found: Option<Addr>)
    ensures found.Some? <==> Available(Listed(s), name)
    ensures found.Some? ==> exists f | f in s :: Offers(f, name, found.value)
    ensures found.Some? <==>
              exists f, x | f in s && f.addrs.Some? && x in f.addrs.value ::
                f.name == name && x.IPv4? && x.a != 127 && !(x.a == 0 && x.b == 0 && x.c == 0 && x.d == 0)
    ensures found.Some? ==>
              exists f | f in s && f.addrs.Some? :: f.name == name && found.value in f.addrs.value && found.value.IPv4?
  {
    for i := 0 to |s|
      invariant forall f, x | f in s[..i] :: !Offers(f, name, x)
    {
      if s[i].name == name && s[i].addrs.Some? {
        var addrs := s[i].addrs.value;
        for j := 0 to |addrs|
          invariant forall x | x in addrs[..j] :: !Usable(x)
        {
          if Usable(addrs[j]) {
            assert Offers(s[i], name, addrs[j]);
            return Some(addrs[j]);
          }
        }
        assert addrs[..|addrs|] == addrs;
      }
      assert s[..i + 1] == s[..i] + [s[i]];
    }
    assert s[..|s|] == s;
    forall f, x | f in s && f.addrs.Some? && x in f.addrs.value
      ensures !(f.name == name && x.IPv4? && x.a != 127 && !(x.a == 0 && x.b == 0 && x.c == 0 && x.d == 0))
    {
      assert !Offers(f, name, x);
    }
    return None;
  }

  /** The retry loop: `attempts` is what each attempt sees, `n` of them, with base delay `b` and cap `m`.
      The answer is empty exactly if no attempt saw a usable address; otherwise it is one the first
      such attempt saw, and the time slept is that of the attempts before it. */
  method WaitForInterface(name: string, attempts: seq<Snapshot>, b: int, m: int) returns (ip: string, slept: nat)
    ensures ip == "" <==> forall i | 0 <= i < |attempts| :: !Available(attempts[i], name)
    ensures ip == "" ==> slept == TotalSlept(attempts, b, m, if |attempts| > 0 then |attempts| - 1 else 0)
    ensures ip != "" ==>
              exists i, f, x | 0 <= i < |attempts| && attempts[i].Listed? && f in attempts[i].interfaces ::
                && Offers(f, name, x) && ip == Itoa(x.a) + "." + Itoa(x.b) + "." + Itoa(x.c) + "." + Itoa(x.d)
                && (forall j | 0 <= j < i :: !Available(attempts[j], name))
                && slept == TotalSlept(attempts, b, m, i)
  {
    slept := 0;
    var attempt := 1;
    while attempt <= |attempts|
      invariant 1 <= attempt <= |attempts| + 1
      invariant forall j | 0 <= j < attempt - 1 :: !Available(attempts[j], name)
      invariant slept == TotalSlept(attempts, b, m, if attempt <= |attempts| then attempt - 1 else Last(|attempts|))
    {
      var s := attempts[attempt - 1];
      if s.Listed? {
        var found := FindAddress(s.interfaces, name);
        if found.Some? {
          assert Available(s, name);
          ghost var f :| f in s.interfaces && Offers(f, name, found.value);
          ip := Dotted(found.value);
          assert attempts[attempt - 1].Listed? && f in attempts[attempt - 1].interfaces;
          return;
        }
        assert !Available(s, name);
        if attempt < |attempts| {
          var delay := Wrap64(b * attempt);
          if delay > m {
            delay := m;
          }
          slept := slept + Slept(delay);
        }
      }
      attempt := attempt + 1;
    }
    ip := "";
  }

  // ---------- The bound ----------

  /** What `k` delays add up to without wrap-around. */
  function CappedSum(b: int, m: int, k: nat): int {
    if k == 0 then 0 else CappedSum(b, m, k - 1) + Min(b * k, m)
  }

  lemma NoWrap(b: int, m: int, a: int, n: int)
    requires 0 < b && 0 <= m && 0 < a <= n && b * n < TWO63
    ensures Wrap64(b * a) == b * a && Slept(Delay(b, m, a)) == Min(b * a, m)
  {
    assert b * a <= b * n by { MulMono(b, a, n); }
    assert 0 < b * a by { MulMono(b, 1, a); }
  }

  lemma MulMono(b: int, x: int, y: int)
    requires 0 <= b && x <= y
    ensures b * x <= b * y
  {
    assert b * (y - x) >= 0;
  }

  /** Without overflow, `k` attempts sleep at most the capped sum, and exactly that unless some listing
      failed (given a positive cap). */
  lemma {:induction false} SleepBound(attempts: seq<Snapshot>, b: int, m: int, k: nat)
    requires k <= |attempts| && 0 < b && 0 <= m && b * k < TWO63
    ensures TotalSlept(attempts, b, m, k) <= CappedSum(b, m, k)
    ensures m > 0 ==> (TotalSlept(attempts, b, m, k) == CappedSum(b, m, k)
                       <==> forall i | 0 <= i < k :: attempts[i].Listed?)
  {
    if k > 0 {
      MulMono(b, k - 1, k);
      SleepBound(attempts, b, m, k - 1);
      NoWrap(b, m, k, k);
      MulMono(b, 1, k);
    }
  }

  function Triangle(k: nat): nat {
    if k == 0 then 0 else Triangle(k - 1) + k
  }

  lemma {:induction false} TriangleFormula(k: nat)
    ensures Triangle(k) == k * (k + 1) / 2
  {
    if k > 0 {
      TriangleFormula(k - 1);
      assert k * (k + 1) == (k - 1) * k + 2 * k;
    }
  }

  lemma MulAdd(b: int, x: int, y: int)
    ensures b * (x + y) == b * x + b * y
  {
  }

  /** While the delays are below the cap they add up to a triangle. */
  lemma {:induction false} RisingPart(b: int, m: int, k: nat)
    requires 0 < b && b * k <= m
    ensures CappedSum(b, m, k) == b * Triangle(k)
  {
    if k > 0 {
      MulMono(b, k - 1, k);
      RisingPart(b, m, k - 1);
      MulAdd(b, Triangle(k - 1), k);
    }
  }

  /** From then on each adds the cap. */
  lemma {:induction false} FlatPart(b: int, m: int, q: nat, k: nat)
    requires 0 < b && b * q <= m < b * (q + 1) && q <= k
    ensures CappedSum(b, m, k) == b * Triangle(q) + (k - q) * m
  {
    if k == q {
      RisingPart(b, m, q);
    } else {
      FlatPart(b, m, q, k - 1);
      MulMono(b, q + 1, k);
      assert (k - q) * m == (k - 1 - q) * m + m;
    }
  }

  /** The capped sum in closed form, with `q` the number of delays below or at the cap. */
  lemma ClosedForm(b: int, m: int, k: nat)
    requires 0 < b && 0 <= m
    ensures
      var q := m / b;
      CappedSum(b, m, k) == if k > q then b * (q * (q + 1) / 2) + (k - q) * m else b * (k * (k + 1) / 2)
  {
    var q := m / b;
    Quotient(b, m);
    if k > q {
      FlatPart(b, m, q, k);
      TriangleFormula(q);
    } else {
      MulMono(b, k, q);
      RisingPart(b, m, k);
      TriangleFormula(k);
    }
  }

  lemma Quotient(b: int, m: int)
    requires 0 < b && 0 <= m
    ensures 0 <= m / b && b * (m / b) <= m < b * (m / b + 1)
  {
    assert m == b * (m / b) + m % b;
    MulAdd(b, m / b, 1);
  }

  /** The whole wait: whatever the attempts see, `n` of them sleep at most the closed form for `n - 1`. */
  lemma WaitIsBounded(attempts: seq<Snapshot>, b: int, m: int, i: nat)
    requires (i < |attempts| || i == |attempts| == 0) && 0 < b && 0 <= m && b * (|attempts| - 1) < TWO63
    ensures
      var k, q := if |attempts| > 0 then |attempts| - 1 else 0, m / b;
      TotalSlept(attempts, b, m, i) <= if k > q then b * (q * (q + 1) / 2) + (k - q) * m else b * (k * (k + 1) / 2)
  {
    var k := if |attempts| > 0 then |attempts| - 1 else 0;
    MulMono(b, i, k);
    SleepBound(attempts, b, m, i);
    CappedSumGrows(b, m, i, k);
    ClosedForm(b, m, k);
  }

  lemma {:induction false} CappedSumGrows(b: int, m: int, i: nat, k: nat)
    requires 0 < b && 0 <= m && i <= k
    ensures CappedSum(b, m, i) <= CappedSum(b, m, k)
  {
    if i < k {
      CappedSumGrows(b, m, i, k - 1);
      MulMono(b, 0, k);
    }
  }
}
