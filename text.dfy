/**
 * The string operations of JavaScript that the client uses, on `seq<char>`:
 * `trim`, ASCII `toLowerCase`/`toUpperCase`, `includes`, `padStart`,
 * `Number.prototype.toString(radix)`, `parseInt(s, radix)` on digit strings,
 * and `split(sep).pop()`.
 */
module Text {

  /** The characters `String.prototype.trim` removes: ECMAScript WhiteSpace and LineTerminator. */
  predicate IsSpace(c: char) {
    var k := c as int;
    (0x09 <= k <= 0x0D) || k == 0x20 || k == 0xA0 || k == 0x1680 ||
    (0x2000 <= k <= 0x200A) || k == 0x2028 || k == 0x2029 || k == 0x202F ||
    k == 0x205F || k == 0x3000 || k == 0xFEFF
  }

  /** Every character is white space (the empty string included). */
  predicate Blank(s: string) {
    forall i :: 0 <= i < |s| ==> IsSpace(s[i])
  }

  function TrimStart(s: string): (r: string)
    ensures r != [] ==> !IsSpace(r[0])
  {
    if s != [] && IsSpace(s[0]) then TrimStart(s[1..]) else s
  }

  function TrimEnd(s: string): string {
    if s != [] && IsSpace(s[|s| - 1]) then TrimEnd(s[..|s| - 1]) else s
  }

  /** `s.trim()`. */
  function Trim(s: string): string {
    TrimEnd(TrimStart(s))
  }

  lemma {:induction false} TrimStartEmpty(s: string)
    ensures TrimStart(s) == [] <==> Blank(s)
  {
    if s != [] && IsSpace(s[0]) {
      TrimStartEmpty(s[1..]);
      assert Blank(s[1..]) ==> Blank(s) by {
        if Blank(s[1..]) {
          forall i | 0 <= i < |s| ensures IsSpace(s[i]) {
            if i > 0 { assert s[i] == s[1..][i - 1]; }
          }
        }
      }
    }
  }

  lemma {:induction false} TrimEndEmpty(s: string)
    ensures TrimEnd(s) == [] <==> Blank(s)
  {
    if s != [] && IsSpace(s[|s| - 1]) {
      TrimEndEmpty(s[..|s| - 1]);
      assert Blank(s[..|s| - 1]) ==> Blank(s) by {
        if Blank(s[..|s| - 1]) {
          forall i | 0 <= i < |s| ensures IsSpace(s[i]) {
            if i < |s| - 1 { assert s[i] == s[..|s| - 1][i]; }
          }
        }
      }
    }
  }

  /** `!s.trim()` holds exactly for the strings made of white space only. */
  lemma TrimEmptyIffBlank(s: string)
    ensures Trim(s) == [] <==> Blank(s)
  {
    TrimStartEmpty(s);
    TrimEndEmpty(TrimStart(s));
  }

  function LowerChar(c: char): char {
    if 'A' <= c <= 'Z' then (c as int + 32) as char else c
  }

  function UpperChar(c: char): char {
    if 'a' <= c <= 'z' then (c as int - 32) as char else c
  }

  /** `s.toLowerCase()`, restricted to ASCII letters. */
  function Lower(s: string): (r: string)
    ensures |r| == |s|
  {
    seq(|s|, i requires 0 <= i < |s| => LowerChar(s[i]))
  }

  /** `s.toUpperCase()`, restricted to ASCII letters. */
  function Upper(s: string): (r: string)
    ensures |r| == |s|
  {
    seq(|s|, i requires 0 <= i < |s| => UpperChar(s[i]))
  }

  /** `s.includes(sub)`: `sub` occurs in `s` at some position. */
  predicate Contains(s: string, sub: string) {
    exists i :: 0 <= i <= |s| && sub <= s[i..]
  }

  /** `s.padStart(width, fill)` with a one-character fill. */
  function PadStart(s: string, width: nat, fill: char): string {
    if |s| >= width then s else seq(width - |s|, _ => fill) + s
  }

  /** The digit `d` as `toString(radix)` writes it: `0`-`9`, then `a`-`z`. */
  function DigitChar(d: nat): char
    requires d < 36
  {
    if d < 10 then (48 + d) as char else (87 + d) as char
  }

  /** The value of a digit character as `parseInt` reads it (either case), or -1. */
  function DigitValue(c: char): int {
    if '0' <= c <= '9' then c as int - 48
    else if 'a' <= c <= 'z' then c as int - 87
    else if 'A' <= c <= 'Z' then c as int - 55
    else -1
  }

  /** One division step of a number at least as large as the base. */
  lemma DivStep(n: nat, base: nat)
    requires 2 <= base <= n
    ensures n / base < n && 0 <= n % base < base && (n / base) * base + n % base == n
  {
    var q := n / base;
    assert q * base <= n;
    assert q * 2 <= q * base;
  }

  /** `n.toString(base)` for a non-negative integer `n`. */
  function ToRadix(n: nat, base: nat): (r: string)
    requires 2 <= base <= 36
    decreases n
  {
    if n < base then [DigitChar(n)]
    else
      DivStep(n, base);
      ToRadix(n / base, base) + [DigitChar(n % base)]
  }

  /** The value of a string of digits in base `base`, most significant first. */
  function FromRadix(s: string, base: nat): int
  {
    if s == [] then 0 else FromRadix(s[..|s| - 1], base) * base + DigitValue(s[|s| - 1])
  }

  /** `n.toString()`. */
  function Decimal(n: nat): string {
    ToRadix(n, 10)
  }

  predicate IsLowerRadixDigit(c: char) {
    ('0' <= c <= '9') || ('a' <= c <= 'z')
  }

  predicate IsUpperRadixDigit(c: char) {
    ('0' <= c <= '9') || ('A' <= c <= 'Z')
  }

  /** `toString(base)` writes at least one digit, each a `0`-`9` or `a`-`z`, below the base. */
  lemma {:induction false} ToRadixDigits(n: nat, base: nat)
    requires 2 <= base <= 36
    ensures |ToRadix(n, base)| >= 1
    ensures forall i :: 0 <= i < |ToRadix(n, base)| ==>
      IsLowerRadixDigit(ToRadix(n, base)[i]) && 0 <= DigitValue(ToRadix(n, base)[i]) < base
    decreases n
  {
    if n < base {
      DigitBelowBase(n, base);
    } else {
      var q, d := n / base, n % base;
      DivStep(n, base);
      ToRadixDigits(q, base);
      DigitBelowBase(d, base);
      var head := ToRadix(q, base);
      var r := ToRadix(n, base);
      assert r == head + [DigitChar(d)];
      forall i | 0 <= i < |r|
        ensures IsLowerRadixDigit(r[i]) && 0 <= DigitValue(r[i]) < base
      {
        if i < |head| { assert r[i] == head[i]; } else { assert r[i] == DigitChar(d); }
      }
    }
  }

  /** A digit below the base is written as a lower-case digit whose value is below the base. */
  lemma DigitBelowBase(d: nat, base: nat)
    requires d < base <= 36
    ensures IsLowerRadixDigit(DigitChar(d)) && 0 <= DigitValue(DigitChar(d)) < base
  {
  }

  lemma DigitRoundTrip(d: nat)
    requires d < 36
    ensures DigitValue(DigitChar(d)) == d
  {
  }

  lemma FromRadixSnoc(s: string, c: char, base: nat)
    ensures FromRadix(s + [c], base) == FromRadix(s, base) * base + DigitValue(c)
  {
    assert (s + [c])[..|s + [c]| - 1] == s;
  }

  /** Reading back what `toString(base)` wrote gives the number: `parseInt(n.toString(b), b) == n`. */
  lemma {:induction false} FromToRadix(n: nat, base: nat)
    requires 2 <= base <= 36
    ensures FromRadix(ToRadix(n, base), base) == n
    decreases n
  {
    if n < base {
      FromRadixSnoc([], DigitChar(n), base);
      DigitRoundTrip(n);
      assert [] + [DigitChar(n)] == [DigitChar(n)];
    } else {
      var q, d := n / base, n % base;
      DivStep(n, base);
      FromToRadix(q, base);
      assert ToRadix(n, base) == ToRadix(q, base) + [DigitChar(d)];
      FromRadixSnoc(ToRadix(q, base), DigitChar(d), base);
      DigitRoundTrip(d);
      assert FromRadix(ToRadix(n, base), base) == q * base + d;
    }
  }

  /** Upper-casing does not change the value of a digit string (`parseInt` ignores case). */
  lemma {:induction false} FromRadixUpper(s: string, base: nat)
    ensures FromRadix(Upper(s), base) == FromRadix(s, base)
  {
    if s != [] {
      var t := s[..|s| - 1];
      FromRadixUpper(t, base);
      assert Upper(s)[..|s| - 1] == Upper(t);
    }
  }

  /** Upper-casing the digits of `toString(base)` leaves only `0`-`9` and `A`-`Z`. */
  lemma UpperRadixDigits(n: nat, base: nat)
    requires 2 <= base <= 36
    ensures forall i :: 0 <= i < |Upper(ToRadix(n, base))| ==> IsUpperRadixDigit(Upper(ToRadix(n, base))[i])
  {
    ToRadixDigits(n, base);
  }

  /** Distinct numbers have distinct upper-cased representations in any base. */
  lemma UpperRadixInjective(m: nat, n: nat, base: nat)
    requires 2 <= base <= 36
    requires Upper(ToRadix(m, base)) == Upper(ToRadix(n, base))
    ensures m == n
  {
    FromRadixUpper(ToRadix(m, base), base);
    FromRadixUpper(ToRadix(n, base), base);
    FromToRadix(m, base);
    FromToRadix(n, base);
  }

  /** `s.split(sep).pop()`: the text after the last `sep`, or all of `s` when it has none. */
  function AfterLast(s: string, sep: char): (r: string)
    ensures sep !in r
    ensures |r| <= |s| && r == s[|s| - |r|..]
    ensures |r| < |s| ==> s[|s| - |r| - 1] == sep
    ensures sep !in s ==> r == s
  {
    if s == [] then []
    else if s[|s| - 1] == sep then []
    else AfterLast(s[..|s| - 1], sep) + [s[|s| - 1]]
  }
}
