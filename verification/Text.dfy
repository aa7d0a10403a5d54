/** Strings: decimal numerals, cutting at a separator, splitting and joining. Each printer has a
    parser that accepts its output and nothing else. */
module Text {
  import opened Kube

  // ---------- Decimal numerals ----------

  predicate IsDigit(c: char) {
    '0' <= c <= '9'
  }

  predicate AllDigits(s: string) {
    forall i | 0 <= i < |s| :: IsDigit(s[i])
  }

  function Digit(d: nat): char
    requires d < 10
  {
    (('0' as int) + d) as char
  }

  /** Decimal digits of a natural number, without leading zeros. */
  function Dec(n: nat): string {
    if n < 10 then [Digit(n)] else Dec(n / 10) + [Digit(n % 10)]
  }

  function Value(s: string): nat
    requires AllDigits(s)
  {
    if s == "" then 0 else 10 * Value(s[..|s| - 1]) + (s[|s| - 1] as int - '0' as int)
  }

  /** A non-empty digit string without a superfluous leading zero. */
  predicate Canonical(s: string) {
    s != "" && AllDigits(s) && (|s| > 1 ==> s[0] != '0')
  }

  lemma {:induction false} DecThenValue(n: nat)
    ensures Canonical(Dec(n)) && Value(Dec(n)) == n
    ensures n > 0 ==> Dec(n)[0] != '0'
  {
    if n >= 10 {
      DecThenValue(n / 10);
      var s := Dec(n);
      assert s[..|s| - 1] == Dec(n / 10);
    } else {
      assert Dec(n)[..0] == "";
    }
  }

  lemma {:induction false} ValueThenDec(s: string)
    requires Canonical(s)
    ensures Dec(Value(s)) == s
    ensures s[0] != '0' ==> Value(s) > 0
  {
    var front, last := s[..|s| - 1], s[|s| - 1];
    if front == "" {
      assert s == [last];
    } else {
      ValueThenDec(front);
      assert front[0] == s[0] && Value(front) > 0;
      assert s == front + [last];
      assert Value(s) / 10 == Value(front) && Value(s) % 10 == last as int - '0' as int;
    }
  }

  /** Signed decimal, as `%d` prints it. */
  function Itoa(n: int): string {
    if n < 0 then "-" + Dec(-n) else Dec(n)
  }

  function ParseInt(s: string): Option<int> {
    if Canonical(s) then Negated(Value(s), false)
    else if |s| > 1 && s[0] == '-' && Canonical(s[1..]) && s[1] != '0' then Negated(Value(s[1..]), true)
    else None
  }

  function Negated(n: int, negative: bool): Option<int> {
    Some(if negative then -n else n)
  }

  /** Printing and parsing integers are inverse, in both directions. */
  lemma ItoaParse(n: int, s: string)
    ensures ParseInt(s) == Some(n) <==> s == Itoa(n)
  {
    if s == Itoa(n) {
      DecThenValue(if n < 0 then -n else n);
      if n < 0 {
        assert s[1..] == Dec(-n) && !IsDigit(s[0]);
      }
    }
    if ParseInt(s) == Some(n) {
      if Canonical(s) {
        ValueThenDec(s);
      } else {
        ValueThenDec(s[1..]);
        assert s == "-" + s[1..];
      }
    }
  }

  /** The numerals are decimal: place by place, with the digits in their order. */
  lemma DecimalPlaces(n: nat, d: nat)
    requires d < 10
    ensures Itoa(d) == ["0123456789"[d]]
    ensures n > 0 ==> Itoa(10 * n + d) == Itoa(n) + ["0123456789"[d]] && Itoa(0 - n) == "-" + Itoa(n)
  {
    assert (10 * n + d) / 10 == n && (10 * n + d) % 10 == d;
  }

  /** Lines of text, each with its line break. */
  function Lines(ls: seq<string>): string {
    if ls == [] then "" else ls[0] + "\n" + Lines(ls[1..])
  }

  lemma ItoaChars(n: int)
    ensures forall c | c in Itoa(n) :: IsDigit(c) || c == '-'
  {
    DecThenValue(if n < 0 then -n else n);
    assert forall c | c in Dec(if n < 0 then -n else n) :: IsDigit(c);
  }

  // ---------- Prefixes, suffixes and separators ----------

  function StripPrefix(s: string, p: string): Option<string> {
    if p <= s then Some(s[|p|..]) else None
  }

  function StripSuffix(s: string, p: string): Option<string> {
    if |p| <= |s| && s[|s| - |p|..] == p then Some(s[..|s| - |p|]) else None
  }

  lemma StripPrefixExact(s: string, p: string, r: string)
    ensures StripPrefix(s, p) == Some(r) <==> s == p + r
  {
    if s == p + r {
      assert s[|p|..] == r && s[..|p|] == p;
    }
    if StripPrefix(s, p) == Some(r) {
      assert s == s[..|p|] + s[|p|..];
    }
  }

  lemma StripSuffixExact(s: string, p: string, r: string)
    ensures StripSuffix(s, p) == Some(r) <==> s == r + p
  {
    if s == r + p {
      assert s[|s| - |p|..] == p && s[..|s| - |p|] == r;
    }
    if StripSuffix(s, p) == Some(r) {
      assert s == s[..|s| - |p|] + s[|s| - |p|..];
    }
  }

  /** Cut at the first occurrence of `c`. */
  function Cut(s: string, c: char): Option<(string, string)> {
    if s == "" then None
    else if s[0] == c then Some(("", s[1..]))
    else match Cut(s[1..], c)
      case None => None
      case Some((a, b)) => Some(([s[0]] + a, b))
  }

  /** Cut at the last occurrence of `c`. */
  function CutLast(s: string, c: char): Option<(string, string)> {
    if s == "" then None
    else if s[|s| - 1] == c then Some((s[..|s| - 1], ""))
    else match CutLast(s[..|s| - 1], c)
      case None => None
      case Some((a, b)) => Some((a, b + [s[|s| - 1]]))
  }

  lemma {:induction false} CutExact(s: string, c: char, a: string, b: string)
    ensures Cut(s, c) == Some((a, b)) <==> s == a + [c] + b && c !in a
  {
    if s == "" || s[0] == c {
      if s != "" && s == a + [c] + b && c !in a {
        assert a == "";
        assert s[1..] == b;
      }
      if s != "" { assert s == "" + [c] + s[1..]; }
    } else {
      if a != "" {
        CutExact(s[1..], c, a[1..], b);
        if Cut(s, c) == Some((a, b)) {
          assert a[0] == s[0] && a[1..] == Cut(s[1..], c).value.0;
          assert s == [s[0]] + s[1..] == [a[0]] + (a[1..] + [c] + b) == a + [c] + b;
          assert a == [a[0]] + a[1..];
        }
        if s == a + [c] + b && c !in a {
          assert s[1..] == a[1..] + [c] + b;
          assert a == [s[0]] + a[1..];
        }
      } else {
        assert (a + [c] + b)[0] == c;
      }
    }
  }

  lemma {:induction false} CutLastExact(s: string, c: char, a: string, b: string)
    ensures CutLast(s, c) == Some((a, b)) <==> s == a + [c] + b && c !in b
  {
    if s == "" || s[|s| - 1] == c {
      if s != "" && s == a + [c] + b && c !in b {
        assert b == "";
        assert s[..|s| - 1] == a;
      }
      if s != "" { assert s == s[..|s| - 1] + [c] + ""; }
    } else {
      if b != "" {
        var b', z := b[..|b| - 1], b[|b| - 1];
        CutLastExact(s[..|s| - 1], c, a, b');
        assert b == b' + [z];
        if CutLast(s, c) == Some((a, b)) {
          assert z == s[|s| - 1] && b' == CutLast(s[..|s| - 1], c).value.1;
          assert s == s[..|s| - 1] + [z] == (a + [c] + b') + [z] == a + [c] + b;
        }
        if s == a + [c] + b && c !in b {
          assert s[..|s| - 1] == a + [c] + b' && z == s[|s| - 1];
        }
      } else {
        var u := a + [c] + b;
        assert u[|u| - 1] == c;
      }
    }
  }

  // ---------- White space, as Go's unicode.IsSpace defines it ----------

  predicate IsSpace(c: char) {
    var n := c as int;
    9 <= n <= 13 || n == 0x20 || n == 0x85 || n == 0xA0 || n == 0x1680 || 0x2000 <= n <= 0x200A
    || n == 0x2028 || n == 0x2029 || n == 0x202F || n == 0x205F || n == 0x3000
  }

  predicate NoSpace(s: string) {
    forall c | c in s :: !IsSpace(c)
  }
}
