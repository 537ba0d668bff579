/** Small value types and string helpers shared by every other module:
    fixed-width integers, Option/Result, Rust's `{}` formatting of
    unsigned integers, the integer base-10 logarithm and `str::repeat`. */
module Prelude {

  type u8 = x: int | 0 <= x < 0x100
  type u16 = x: int | 0 <= x < 0x1_0000
  type u32 = x: int | 0 <= x < 0x1_0000_0000

  datatype Option<+T> = None | Some(value: T)

  datatype Result<+T, +E> = Success(value: T) | Failure(error: E) {
    predicate IsFailure() { Failure? }
    function PropagateFailure<U>(): Result<U, E>
      requires Failure?
    {
      Failure(error)
    }
    function Extract(): T
      requires Success?
    {
      value
    }
  }

  /** A Rust `char` is a Unicode scalar value: a code point outside the surrogate range. */
  predicate IsScalar(code: int) {
    (0 <= code < 0xD800) || (0xE000 <= code < 0x11_0000)
  }

  predicate IsDigit(c: char) {
    '0' <= c <= '9'
  }

  predicate AllDigits(s: string) {
    forall k :: 0 <= k < |s| ==> IsDigit(s[k])
  }

  function DigitChar(d: nat): (c: char)
    requires d < 10
    ensures IsDigit(c) && c as int - '0' as int == d
  {
    ('0' as int + d) as char
  }

  /** Decimal rendering of an unsigned integer, as `format!("{}", n)` prints it. */
  function Dec(n: nat): (s: string)
    ensures 1 <= |s| && AllDigits(s)
    ensures |s| > 1 ==> s[0] != '0'
  {
    if n < 10 then [DigitChar(n)] else Dec(n / 10) + [DigitChar(n % 10)]
  }

  /** Reads a non-empty string of decimal digits back as a number. */
  function ParseDec(s: string): nat
    requires 1 <= |s| && AllDigits(s)
  {
    var last := s[|s| - 1] as int - '0' as int;
    if |s| == 1 then last else ParseDec(s[..|s| - 1]) * 10 + last
  }

  /** Printing a number in decimal and reading it back gives the number. */
  lemma {:induction false} ParseDecRoundTrip(n: nat)
    ensures ParseDec(Dec(n)) == n
  {
    if n >= 10 {
      var s := Dec(n);
      assert s[..|s| - 1] == Dec(n / 10);
      ParseDecRoundTrip(n / 10);
    }
  }

  /** The longest prefix of `s` made of decimal digits. */
  function LeadingDigits(s: string): (d: string)
    ensures d <= s && AllDigits(d)
    ensures |d| < |s| ==> !IsDigit(s[|d|])
  {
    if |s| == 0 || !IsDigit(s[0]) then [] else [s[0]] + LeadingDigits(s[1..])
  }

  lemma {:induction false} LeadingDigitsOfDigitsThen(d: string, rest: string)
    requires AllDigits(d)
    requires |rest| > 0 && !IsDigit(rest[0])
    ensures LeadingDigits(d + rest) == d
  {
    if |d| > 0 {
      assert (d + rest)[1..] == d[1..] + rest;
      LeadingDigitsOfDigitsThen(d[1..], rest);
    } else {
      assert d + rest == rest;
    }
  }

  function Pow10(k: nat): (p: nat)
    ensures p >= 1
  {
    if k == 0 then 1 else 10 * Pow10(k - 1)
  }

  /** `n.log10()` of the ilog crate: the integer base-10 logarithm, undefined at 0. */
  function ILog10(n: nat): (r: nat)
    requires n >= 1
    ensures Pow10(r) <= n < Pow10(r + 1)
  {
    if n < 10 then 0 else 1 + ILog10(n / 10)
  }

  /** The decimal rendering of `n` has exactly `ILog10(n) + 1` digits. */
  lemma {:induction false} DecLength(n: nat)
    requires n >= 1
    ensures |Dec(n)| == ILog10(n) + 1
  {
    if n >= 10 {
      DecLength(n / 10);
    }
  }

  /** `c.to_string().repeat(n)`. */
  function Repeat(c: char, n: nat): (s: string)
    ensures |s| == n && forall k :: 0 <= k < n ==> s[k] == c
  {
    if n == 0 then [] else Repeat(c, n - 1) + [c]
  }

  function Min(a: nat, b: nat): (m: nat)
    ensures m <= a && m <= b && (m == a || m == b)
  {
    if a <= b then a else b
  }

  /** Taking one more element of a sequence appends that element. */
  lemma TakeOneMore<T>(s: seq<T>, i: nat)
    requires i < |s|
    ensures s[..i + 1] == s[..i] + [s[i]]
  {
  }

  /** Concatenation is associative. */
  lemma AppendAssoc<T>(a: seq<T>, b: seq<T>, c: seq<T>)
    ensures (a + b) + c == a + (b + c)
  {
  }

  /** Updating one key leaves the rest of the map as it was. */
  lemma UpdateOutside<K, V>(m: map<K, V>, k: K, v: V)
    ensures m[k := v] - {k} == m - {k}
  {
  }

  /** The parts one after the other. */
  function Concat<T>(parts: seq<seq<T>>): seq<T> {
    if parts == [] then [] else Concat(parts[..|parts| - 1]) + parts[|parts| - 1]
  }

  lemma ConcatSnoc<T>(parts: seq<seq<T>>, last: seq<T>)
    ensures Concat(parts + [last]) == Concat(parts) + last
  {
    assert (parts + [last])[..|parts|] == parts;
  }

  /** The parts before index m make up a prefix of the whole. */
  lemma {:induction false} ConcatPrefix<T>(parts: seq<seq<T>>, m: nat)
    requires m <= |parts|
    ensures Concat(parts[..m]) <= Concat(parts)
    decreases |parts|
  {
    if m < |parts| {
      var n := |parts| - 1;
      ConcatPrefix(parts[..n], m);
      assert parts[..n][..m] == parts[..m];
      PrefixOfAppend(Concat(parts[..m]), Concat(parts[..n]), parts[n]);
    } else {
      assert parts[..m] == parts;
    }
  }

  /** Part j sits right after the parts before it. */
  lemma ConcatAt<T>(parts: seq<seq<T>>, j: nat)
    requires j < |parts|
    ensures
      var start := |Concat(parts[..j])|;
      start + |parts[j]| <= |Concat(parts)| && Concat(parts)[start..start + |parts[j]|] == parts[j]
  {
    ConcatPrefix(parts, j + 1);
    assert parts[..j + 1] == parts[..j] + [parts[j]];
    ConcatSnoc(parts[..j], parts[j]);
    SliceOfPrefix(Concat(parts[..j]), parts[j], Concat(parts));
  }

  lemma PrefixOfAppend<T>(a: seq<T>, b: seq<T>, c: seq<T>)
    requires a <= b
    ensures a <= b + c
  {
    assert (b + c)[..|b|] == b;
  }

  /** A part of a prefix sits at the same place in the whole sequence. */
  lemma SliceOfPrefix<T>(a: seq<T>, b: seq<T>, c: seq<T>)
    requires a + b <= c
    ensures |a| + |b| <= |c| && c[|a|..|a| + |b|] == b
  {
    assert (a + b)[|a|..|a| + |b|] == b;
  }
}
