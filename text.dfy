/**
 * The string operations the ledger relies on: decimal rendering of numbers
 * (`toString`), JavaScript's `parseInt`, `split(',')`, and the byte order in
 * which directory listings come back (names compared code unit by code unit,
 * a shorter prefix first).
 */
module Text {
  import opened Common

  // ---------------------------------------------------------------- numbers

  function DigitChar(d: int): (c: char)
    requires 0 <= d < 10
  {
    "0123456789"[d]
  }

  /** The value of a digit in radix up to 36, or 36 for a non-digit. */
  function DigitValue(c: char): (v: int)
    ensures 0 <= v <= 36
  {
    if '0' <= c <= '9' then c as int - '0' as int
    else if 'a' <= c <= 'z' then c as int - 'a' as int + 10
    else if 'A' <= c <= 'Z' then c as int - 'A' as int + 10
    else 36
  }

  /** `n.toString()` for a non-negative integer. */
  function NatToString(n: nat): (s: string)
    ensures |s| >= 1
    ensures forall i :: 0 <= i < |s| ==> DigitValue(s[i]) < 10
    decreases n
  {
    if n < 10 then [DigitChar(n)] else NatToString(n / 10) + [DigitChar(n % 10)]
  }

  /** `n.toString()`. */
  function IntToString(n: int): (s: string)
    ensures |s| >= 1
  {
    if n < 0 then "-" + NatToString(-n) else NatToString(n)
  }

  /** The length of the longest prefix of `s` made of digits of `radix`. */
  function DigitRun(s: string, radix: int): (n: nat)
    ensures n <= |s|
    ensures forall i :: 0 <= i < n ==> DigitValue(s[i]) < radix
    ensures n < |s| ==> DigitValue(s[n]) >= radix
    decreases |s|
  {
    if s == [] || DigitValue(s[0]) >= radix then 0 else 1 + DigitRun(s[1..], radix)
  }

  /** The value of a string of digits of `radix`, most significant first. */
  function DigitsValue(s: string, radix: int): int
    decreases |s|
  {
    if s == [] then 0 else DigitsValue(s[..|s| - 1], radix) * radix + DigitValue(s[|s| - 1])
  }

  /** The characters `parseInt` skips before the number. */
  predicate IsSpace(c: char)
  {
    c == ' ' || c == '\t' || c == '\n' || c == '\r' || c == '\U{000B}' || c == '\U{000C}'
    || c == '\U{00A0}' || c == '\U{FEFF}' || c == '\U{1680}' || ('\U{2000}' <= c <= '\U{200A}')
    || c == '\U{2028}' || c == '\U{2029}' || c == '\U{202F}' || c == '\U{205F}' || c == '\U{3000}'
  }

  function TrimStart(s: string): (t: string)
    ensures |t| <= |s|
    ensures t == s[|s| - |t|..]
    ensures t != [] ==> !IsSpace(t[0])
    decreases |s|
  {
    if s != [] && IsSpace(s[0]) then TrimStart(s[1..]) else s
  }

  /** The longest run of digits of `radix` at the start of `v`, or `NaN` if there is none. */
  function ReadRun(v: string, radix: int): (r: Option<int>)
  {
    var n := DigitRun(v, radix);
    if n == 0 then None else Some(DigitsValue(v[..n], radix))
  }

  /** The digits after the sign: a `0x`/`0X` prefix switches to hexadecimal. */
  function ParseUnsigned(u: string): (r: Option<int>)
  {
    if |u| >= 2 && u[0] == '0' && (u[1] == 'x' || u[1] == 'X') then ReadRun(u[2..], 16)
    else ReadRun(u, 10)
  }

  /** `parseInt(s)` with no radix: white space is skipped and one sign is read first. */
  function ParseInt(s: string): (r: Option<int>)
  {
    var t := TrimStart(s);
    var u := if |t| > 0 && (t[0] == '-' || t[0] == '+') then t[1..] else t;
    match ParseUnsigned(u)
    case None => None
    case Some(v) => if |t| > 0 && t[0] == '-' then Some(-v) else Some(v)
  }

  lemma {:induction false} NatToStringValue(n: nat)
    ensures DigitsValue(NatToString(n), 10) == n
    decreases n
  {
    var s := NatToString(n);
    if n >= 10 {
      NatToStringValue(n / 10);
      assert s[..|s| - 1] == NatToString(n / 10);
    }
  }

  /** A run of decimal digits is read whole, in decimal. */
  lemma UnsignedOfDigits(n: nat)
    ensures ParseUnsigned(NatToString(n)) == Some(n)
  {
    var s := NatToString(n);
    NatToStringValue(n);
    assert |s| >= 2 ==> DigitValue(s[1]) < 10;
    assert ParseUnsigned(s) == ReadRun(s, 10);
    assert DigitRun(s, 10) == |s|;
    assert s[..|s|] == s;
  }

  /** Every integer the ledger renders with `toString` reads back with `parseInt`. */
  lemma ParseIntOfIntToString(n: int)
    ensures ParseInt(IntToString(n)) == Some(n)
  {
    var m: nat := if n < 0 then -n else n;
    UnsignedOfDigits(m);
    ParseSigned(NatToString(m), m);
  }

  /** A run of digits reads as its value, and with a leading minus sign as its negation. */
  lemma ParseSigned(digits: string, v: int)
    requires digits != [] && DigitValue(digits[0]) < 10 && ParseUnsigned(digits) == Some(v)
    ensures ParseInt(digits) == Some(v) && ParseInt("-" + digits) == Some(-v)
  {
    assert !IsSpace(digits[0]) && digits[0] != '-' && digits[0] != '+';
    assert TrimStart(digits) == digits;
    var neg := "-" + digits;
    assert !IsSpace(neg[0]);
    assert TrimStart(neg) == neg;
    assert neg[1..] == digits;
  }

  // ---------------------------------------------------------------- split

  function IndexOf(s: string, c: char): (i: int)
    ensures -1 <= i < |s|
    ensures i == -1 <==> c !in s
    ensures i >= 0 ==> s[i] == c && c !in s[..i]
    decreases |s|
  {
    if s == [] then -1
    else if s[0] == c then 0
    else
      var k := IndexOf(s[1..], c);
      assert k >= 0 ==> s[..k + 1] == [s[0]] + s[1..][..k];
      if k == -1 then -1 else k + 1
  }

  /** `s.split(sep)`: the pieces between separators; an empty string gives `['']`. */
  function Split(s: string, sep: char): (parts: seq<string>)
    ensures |parts| >= 1
    ensures forall i :: 0 <= i < |parts| ==> sep !in parts[i]
    decreases |s|
  {
    var i := IndexOf(s, sep);
    if i == -1 then [s] else [s[..i]] + Split(s[i + 1..], sep)
  }

  /** `parts.join(sep)`. */
  function Join(parts: seq<string>, sep: char): string
    decreases |parts|
  {
    if |parts| <= 1 then (if parts == [] then "" else parts[0])
    else parts[0] + [sep] + Join(parts[1..], sep)
  }

  lemma {:induction false} JoinSplit(s: string, sep: char)
    ensures Join(Split(s, sep), sep) == s
    decreases |s|
  {
    var i := IndexOf(s, sep);
    if i != -1 {
      var head, tail := s[..i], s[i + 1..];
      JoinSplit(tail, sep);
      var rest := Split(tail, sep);
      JoinCons(head, rest, sep);
      assert s == head + [sep] + tail;
    }
  }

  lemma JoinCons(head: string, rest: seq<string>, sep: char)
    requires |rest| >= 1
    ensures Join([head] + rest, sep) == head + [sep] + Join(rest, sep)
  {
    var parts := [head] + rest;
    assert parts[0] == head && parts[1..] == rest;
  }

  /** The first separator of `head + [sep] + rest` is the one after `head`. */
  lemma {:induction false} IndexOfAfter(head: string, rest: string, sep: char)
    requires sep !in head
    ensures IndexOf(head + [sep] + rest, sep) == |head|
    decreases |head|
  {
    var s := head + [sep] + rest;
    if head != [] {
      assert s[1..] == head[1..] + [sep] + rest;
      IndexOfAfter(head[1..], rest, sep);
    }
  }

  lemma {:induction false} SplitJoin(parts: seq<string>, sep: char)
    requires |parts| >= 1
    requires forall i :: 0 <= i < |parts| ==> sep !in parts[i]
    ensures Split(Join(parts, sep), sep) == parts
    decreases |parts|
  {
    var s := Join(parts, sep);
    if |parts| == 1 {
      assert IndexOf(s, sep) == -1;
    } else {
      var head := parts[0];
      var rest := Join(parts[1..], sep);
      assert s == head + [sep] + rest;
      IndexOfAfter(head, rest, sep);
      assert s[..|head|] == head;
      assert s[|head| + 1..] == rest;
      SplitJoin(parts[1..], sep);
      assert parts == [head] + parts[1..];
    }
  }

  // ---------------------------------------------------------------- order

  /**
   * Code-unit order of strings, in which `fs.readdirSync` lists a directory:
   * the first differing character decides, and a proper prefix comes first.
   */
  predicate StrLess(a: string, b: string)
    decreases |a|
  {
    |b| > 0 && (|a| == 0 || a[0] < b[0] || (a[0] == b[0] && StrLess(a[1..], b[1..])))
  }

  lemma {:induction false} StrLessIrreflexive(a: string)
    ensures !StrLess(a, a)
    decreases |a|
  {
    if |a| > 0 {
      StrLessIrreflexive(a[1..]);
    }
  }

  lemma {:induction false} StrLessTransitive(a: string, b: string, c: string)
    requires StrLess(a, b) && StrLess(b, c)
    ensures StrLess(a, c)
    decreases |a|
  {
    if |a| > 0 && a[0] == b[0] && b[0] == c[0] {
      StrLessTransitive(a[1..], b[1..], c[1..]);
    }
  }

  lemma {:induction false} StrLessTotal(a: string, b: string)
    requires a != b
    ensures StrLess(a, b) || StrLess(b, a)
    decreases |a|
  {
    if |a| > 0 && |b| > 0 && a[0] == b[0] {
      assert a == [a[0]] + a[1..] && b == [b[0]] + b[1..];
      StrLessTotal(a[1..], b[1..]);
    }
  }
}
