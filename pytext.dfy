/** Python text operations the pipeline relies on, stated exactly:
    `str(int)`, `int(str)`, `str.zfill`, `str.split`, `str.encode("utf-8")`,
    `os.path.join` (POSIX) and `pathlib.Path.stem`. */
module PyText {

  import opened Wrappers

  type byte = b: int | 0 <= b < 256

  // ---------------------------------------------------------------------------
  // Decimal rendering and parsing
  // ---------------------------------------------------------------------------

  predicate IsDigit(c: char) { '0' <= c <= '9' }

  predicate AllDigits(s: string) { forall i :: 0 <= i < |s| ==> IsDigit(s[i]) }

  function DigitChar(d: nat): (c: char)
    requires d < 10
    ensures IsDigit(c) && c as int - '0' as int == d
  {
    ('0' as int + d) as char
  }

  function Pow10(k: nat): (p: nat)
    ensures p >= 1
  {
    if k == 0 then 1 else 10 * Pow10(k - 1)
  }

  /** `str(n)` for a non-negative integer: no sign, no leading zero. */
  function NatToString(n: nat): (s: string)
    ensures |s| >= 1 && AllDigits(s)
    ensures |s| > 1 ==> s[0] != '0'
    decreases n
  {
    if n < 10 then [DigitChar(n)] else NatToString(n / 10) + [DigitChar(n % 10)]
  }

  /** `str(i)` for any integer. */
  function IntToString(i: int): (s: string)
    ensures |s| >= 1
  {
    if i < 0 then "-" + NatToString(-i) else NatToString(i)
  }

  /** The value of a run of decimal digits, most significant first (`int(s)`
      without sign). */
  function ParseNat(s: string): nat
    requires AllDigits(s)
  {
    if s == [] then 0
    else ParseNat(s[..|s| - 1]) * 10 + (s[|s| - 1] as int - '0' as int)
  }

  lemma {:induction false} ParseNatToString(n: nat)
    ensures ParseNat(NatToString(n)) == n
    decreases n
  {
    if n >= 10 {
      var s := NatToString(n);
      assert s[..|s| - 1] == NatToString(n / 10);
      ParseNatToString(n / 10);
    }
  }

  /** Rendering a natural number is injective. */
  lemma NatToStringInjective(a: nat, b: nat)
    requires NatToString(a) == NatToString(b)
    ensures a == b
  {
    ParseNatToString(a);
    ParseNatToString(b);
  }

  /** Rendering an integer is injective (the sign is a non-digit). */
  lemma IntToStringInjective(a: int, b: int)
    requires IntToString(a) == IntToString(b)
    ensures a == b
  {
    if a < 0 && b < 0 {
      assert IntToString(a)[1..] == NatToString(-a);
      assert IntToString(b)[1..] == NatToString(-b);
      NatToStringInjective(-a, -b);
    } else if a >= 0 && b >= 0 {
      NatToStringInjective(a, b);
    } else {
      assert false;
    }
  }

  /** `ParseNat` of a concatenation, splitting off the low digits. */
  lemma {:induction false} ParseNatAppend(p: string, s: string)
    requires AllDigits(p) && AllDigits(s)
    ensures AllDigits(p + s)
    ensures ParseNat(p + s) == ParseNat(p) * Pow10(|s|) + ParseNat(s)
    decreases |s|
  {
    if s == [] {
      assert p + s == p;
    } else {
      var t := s[..|s| - 1];
      var d := s[|s| - 1] as int - '0' as int;
      assert (p + s)[..|p + s| - 1] == p + t;
      assert (p + s)[|p + s| - 1] == s[|s| - 1];
      ParseNatAppend(p, t);
      assert ParseNat(p + s) == ParseNat(p + t) * 10 + d;
      assert Pow10(|s|) == 10 * Pow10(|t|);
      ShiftDigit(ParseNat(p), Pow10(|t|), ParseNat(t), d);
    }
  }

  /** Appending one digit to `x·y + t` multiplies it by ten. */
  lemma ShiftDigit(x: int, y: int, t: int, d: int)
    ensures (x * y + t) * 10 + d == x * (10 * y) + (t * 10 + d)
  {
  }

  /** A digit string with no leading zero stays below the next power of ten. */
  lemma {:induction false} ParseNatBound(s: string)
    requires AllDigits(s)
    ensures ParseNat(s) < Pow10(|s|)
    decreases |s|
  {
    if s != [] {
      ParseNatBound(s[..|s| - 1]);
    }
  }

  /** The number of decimal digits of `n` (at least one). */
  function NumDigits(n: nat): (d: nat)
    ensures d >= 1
  {
    if n < 10 then 1 else 1 + NumDigits(n / 10)
  }

  lemma {:induction false} NatToStringLength(n: nat)
    ensures |NatToString(n)| == NumDigits(n)
    decreases n
  {
    if n >= 10 {
      NatToStringLength(n / 10);
    }
  }

  /** `NumDigits(n)` is the `d` with `10^(d-1) <= n < 10^d` (for `n > 0`). */
  lemma {:induction false} NumDigitsBounds(n: nat)
    ensures n < Pow10(NumDigits(n))
    ensures n > 0 ==> Pow10(NumDigits(n) - 1) <= n
    decreases n
  {
    if n >= 10 {
      NumDigitsBounds(n / 10);
    }
  }

  lemma {:induction false} NumDigitsMonotonic(a: nat, b: nat)
    requires a <= b
    ensures NumDigits(a) <= NumDigits(b)
    decreases b
  {
    if a >= 10 {
      NumDigitsMonotonic(a / 10, b / 10);
    }
  }

  // ---------------------------------------------------------------------------
  // str.zfill
  // ---------------------------------------------------------------------------

  function Zeros(k: nat): (z: string)
    ensures |z| == k && AllDigits(z)
    ensures forall i :: 0 <= i < k ==> z[i] == '0'
  {
    seq(k, _ => '0')
  }

  lemma {:induction false} ParseZeros(k: nat)
    ensures ParseNat(Zeros(k)) == 0
    decreases k
  {
    if k > 0 {
      assert Zeros(k)[..k - 1] == Zeros(k - 1);
      ParseZeros(k - 1);
    }
  }

  /** `s.zfill(width)`: pad on the left with '0' to `width`, keeping a leading
      sign in front of the padding. */
  function ZFill(s: string, width: int): string
  {
    if |s| >= width then s
    else if |s| > 0 && (s[0] == '+' || s[0] == '-') then [s[0]] + Zeros(width - |s|) + s[1..]
    else Zeros(width - |s|) + s
  }

  /** Padding reaches the width, or keeps a longer text as it is; a digit
      text stays all digits and ends with itself. */
  lemma ZFillPads(s: string, width: int)
    ensures |ZFill(s, width)| == if |s| >= width then |s| else width
    ensures AllDigits(s) ==> AllDigits(ZFill(s, width)) && ZFill(s, width)[|ZFill(s, width)| - |s|..] == s
  {
  }

  /** The zero-padded rendering of `n` has exactly `width` characters when it
      fits, and still reads back as `n`. */
  lemma ZFillNat(n: nat, width: nat)
    requires NumDigits(n) <= width
    ensures |ZFill(NatToString(n), width)| == width
    ensures AllDigits(ZFill(NatToString(n), width))
    ensures ParseNat(ZFill(NatToString(n), width)) == n
  {
    NatToStringLength(n);
    ParseNatToString(n);
    ZFillDigits(NatToString(n), width);
  }

  /** Zero-filling a run of digits to a width it fits in gives that width
      and keeps the value. */
  lemma ZFillDigits(s: string, width: nat)
    requires AllDigits(s) && |s| <= width
    ensures |ZFill(s, width)| == width
    ensures AllDigits(ZFill(s, width))
    ensures ParseNat(ZFill(s, width)) == ParseNat(s)
  {
    if |s| < width {
      assert ZFill(s, width) == Zeros(width - |s|) + s by { if |s| > 0 { assert IsDigit(s[0]); } }
      ZeroPad(s, width - |s|);
    }
  }

  /** Leading zeros do not change the value of a run of digits. */
  lemma ZeroPad(s: string, k: nat)
    requires AllDigits(s)
    ensures AllDigits(Zeros(k) + s)
    ensures ParseNat(Zeros(k) + s) == ParseNat(s)
  {
    ParseNatAppend(Zeros(k), s);
    ParseZeros(k);
    assert ParseNat(Zeros(k)) * Pow10(|s|) == 0;
  }

  // ---------------------------------------------------------------------------
  // str.split(sep) for a one-character separator
  // ---------------------------------------------------------------------------

  /** `s.split(sep)`: the pieces between separators, always at least one. */
  function Split(s: string, sep: char): (r: seq<string>)
    ensures |r| >= 1
    ensures forall k :: 0 <= k < |r| ==> sep !in r[k]
  {
    if s == [] then [""]
    else
      var rest := Split(s[1..], sep);
      if s[0] == sep then [""] + rest
      else [[s[0]] + rest[0]] + rest[1..]
  }

  /** `sep.join(parts)`, the inverse of `Split`. */
  function JoinWith(parts: seq<string>, sep: char): string
    requires |parts| >= 1
  {
    if |parts| == 1 then parts[0] else parts[0] + [sep] + JoinWith(parts[1..], sep)
  }

  lemma {:induction false} SplitJoin(s: string, sep: char)
    ensures JoinWith(Split(s, sep), sep) == s
    decreases |s|
  {
    if s != [] {
      SplitJoin(s[1..], sep);
      var rest := Split(s[1..], sep);
      if s[0] != sep && |rest| > 1 {
        assert ([[s[0]] + rest[0]] + rest[1..])[1..] == rest[1..];
      }
    }
  }

  /** Text without the separator splits into itself. */
  lemma {:induction false} SplitNoSep(s: string, sep: char)
    requires sep !in s
    ensures Split(s, sep) == [s]
    decreases |s|
  {
    if s != [] {
      assert sep !in s[1..] by {
        forall k | 0 <= k < |s[1..]| ensures s[1..][k] != sep { assert s[1..][k] == s[k + 1]; }
      }
      SplitNoSep(s[1..], sep);
      assert s[0] != sep by { assert s[0] in s; }
      assert [s[0]] + s[1..] == s;
    }
  }

  /** Splitting `a + [sep] + b`, where `a` has no separator, yields `a` first. */
  lemma {:induction false} SplitFirst(a: string, b: string, sep: char)
    requires sep !in a
    ensures Split(a + [sep] + b, sep) == [a] + Split(b, sep)
    decreases |a|
  {
    if a == [] {
      assert a + [sep] + b == [sep] + b;
      assert ([sep] + b)[1..] == b;
    } else {
      assert (a + [sep] + b)[1..] == a[1..] + [sep] + b;
      assert sep !in a[1..] by {
        forall k | 0 <= k < |a[1..]| ensures a[1..][k] != sep { assert a[1..][k] == a[k + 1]; }
      }
      SplitFirst(a[1..], b, sep);
      assert [a[0]] + a[1..] == a;
    }
  }

  // ---------------------------------------------------------------------------
  // UTF-8 (str.encode("utf-8"))
  // ---------------------------------------------------------------------------

  /** The UTF-8 encoding of one Unicode scalar value (RFC 3629, section 3). */
  function Utf8Char(c: char): (b: seq<byte>)
    ensures 1 <= |b| <= 4
    ensures (|b| == 1) == (c as int < 0x80)
  {
    var n := c as int;
    if n < 0x80 then [n]
    else if n < 0x800 then [0xC0 + n / 64, 0x80 + n % 64]
    else if n < 0x10000 then [0xE0 + n / 4096, 0x80 + (n / 64) % 64, 0x80 + n % 64]
    else [0xF0 + n / 262144, 0x80 + (n / 4096) % 64, 0x80 + (n / 64) % 64, 0x80 + n % 64]
  }

  function Utf8(s: string): seq<byte>
  {
    if s == [] then [] else Utf8Char(s[0]) + Utf8(s[1..])
  }

  lemma {:induction false} Utf8Append(a: string, b: string)
    ensures Utf8(a + b) == Utf8(a) + Utf8(b)
    decreases |a|
  {
    if a != [] {
      assert (a + b)[1..] == a[1..] + b;
      Utf8Append(a[1..], b);
    } else {
      assert a + b == b;
    }
  }

  predicate IsAscii(s: string) { forall i :: 0 <= i < |s| ==> s[i] as int < 0x80 }

  /** ASCII text encodes to its code points, one byte each. */
  lemma {:induction false} Utf8Ascii(s: string)
    requires IsAscii(s)
    ensures |Utf8(s)| == |s|
    ensures forall i :: 0 <= i < |s| ==> Utf8(s)[i] == s[i] as int
    decreases |s|
  {
    if s != [] {
      assert IsAscii(s[1..]) by {
        forall i | 0 <= i < |s[1..]| ensures s[1..][i] as int < 0x80 { assert s[1..][i] == s[i + 1]; }
      }
      Utf8Ascii(s[1..]);
    }
  }

  /** Decodes the first scalar value of a UTF-8 byte string, with the number of
      bytes it took. Only the well-formed shapes `Utf8Char` produces are needed. */
  function DecodeFirst(b: seq<byte>): Option<(char, nat)>
  {
    if |b| == 0 then None
    else
      var b0 := b[0] as int;
      if b0 < 0x80 then Some((b0 as char, 1))
      else if b0 < 0xC0 || |b| < 2 then None
      else
        var b1 := b[1] as int - 0x80;
        if b0 < 0xE0 then CharOf((b0 - 0xC0) * 64 + b1, 2)
        else if |b| < 3 then None
        else
          var b2 := b[2] as int - 0x80;
          if b0 < 0xF0 then CharOf(((b0 - 0xE0) * 64 + b1) * 64 + b2, 3)
          else if |b| < 4 then None
          else CharOf((((b0 - 0xF0) * 64 + b1) * 64 + b2) * 64 + (b[3] as int - 0x80), 4)
  }

  function CharOf(n: int, len: nat): Option<(char, nat)>
  {
    if 0 <= n < 0xD800 || 0xE000 <= n < 0x11_0000 then Some((n as char, len)) else None
  }

  function Utf8Decode(b: seq<byte>): Option<string>
    decreases |b|
  {
    if b == [] then Some([])
    else match DecodeFirst(b)
      case None => None
      case Some((c, k)) =>
        if k == 0 || k > |b| then None
        else match Utf8Decode(b[k..])
          case None => None
          case Some(rest) => Some([c] + rest)
  }

  lemma Utf8Arith2(n: int)
    requires 0x80 <= n < 0x800
    ensures (n / 64) * 64 + n % 64 == n
  {
  }

  lemma Utf8Arith3(n: int)
    requires 0x800 <= n < 0x10000
    ensures ((n / 4096) * 64 + (n / 64) % 64) * 64 + n % 64 == n
  {
    assert (n / 4096) * 64 + (n / 64) % 64 == n / 64;
  }

  lemma Utf8Arith4(n: int)
    requires 0x10000 <= n < 0x11_0000
    ensures (((n / 262144) * 64 + (n / 4096) % 64) * 64 + (n / 64) % 64) * 64 + n % 64 == n
  {
    assert (n / 262144) * 64 + (n / 4096) % 64 == n / 4096;
    assert (n / 4096) * 64 + (n / 64) % 64 == n / 64;
  }

  lemma DecodeFirstChar(c: char, rest: seq<byte>)
    ensures DecodeFirst(Utf8Char(c) + rest) == Some((c, |Utf8Char(c)|))
  {
    var n := c as int;
    var b := Utf8Char(c) + rest;
    assert n as char == c;
    if n < 0x80 {
    } else if n < 0x800 {
      Utf8Arith2(n);
    } else if n < 0x10000 {
      Utf8Arith3(n);
    } else {
      Utf8Arith4(n);
    }
  }

  /** Decoding inverts encoding, so the UTF-8 encoding is injective. */
  lemma {:induction false} Utf8RoundTrip(s: string)
    ensures Utf8Decode(Utf8(s)) == Some(s)
    decreases |s|
  {
    if s != [] {
      var head := Utf8Char(s[0]);
      var b := Utf8(s);
      assert b == head + Utf8(s[1..]);
      DecodeFirstChar(s[0], Utf8(s[1..]));
      assert b[|head|..] == Utf8(s[1..]);
      Utf8RoundTrip(s[1..]);
      assert [s[0]] + s[1..] == s;
    }
  }

  lemma Utf8Injective(a: string, b: string)
    requires Utf8(a) == Utf8(b)
    ensures a == b
  {
    Utf8RoundTrip(a);
    Utf8RoundTrip(b);
  }

  // ---------------------------------------------------------------------------
  // Paths
  // ---------------------------------------------------------------------------

  /** `os.path.join(a, b)` on POSIX. */
  function PathJoin(a: string, b: string): (r: string)
    ensures |b| > 0 && b[0] != '/' && |a| > 0 && a[|a| - 1] != '/' ==> r == a + "/" + b
  {
    if |b| > 0 && b[0] == '/' then b
    else if a == [] || a[|a| - 1] == '/' then a + b
    else a + "/" + b
  }

  /** Joining one directory with two relative names that contain no `/` gives
      different paths for different names. */
  lemma PathJoinInjective(dir: string, x: string, y: string)
    requires |x| > 0 && |y| > 0 && x[0] != '/' && y[0] != '/'
    requires PathJoin(dir, x) == PathJoin(dir, y)
    ensures x == y
  {
    var p := if dir == [] || dir[|dir| - 1] == '/' then dir else dir + "/";
    assert PathJoin(dir, x) == p + x && PathJoin(dir, y) == p + y;
    assert x == (p + x)[|p|..] && y == (p + y)[|p|..];
  }

  /** Two different relative names joined to one directory give different
      paths. */
  lemma PathJoinDistinct(dir: string, x: string, y: string)
    requires |x| > 0 && |y| > 0 && x[0] != '/' && y[0] != '/' && x != y
    ensures PathJoin(dir, x) != PathJoin(dir, y)
  {
    var p := if dir == [] || dir[|dir| - 1] == '/' then dir else dir + "/";
    assert PathJoin(dir, x) == p + x && PathJoin(dir, y) == p + y;
    assert x == (p + x)[|p|..] && y == (p + y)[|p|..];
  }

  /** Index of the last `c` in `s`, or -1 (`str.rfind`). */
  function RFind(s: string, c: char): (i: int)
    ensures -1 <= i < |s|
    ensures i >= 0 ==> s[i] == c
    ensures forall k :: i < k < |s| ==> s[k] != c
  {
    if s == [] then -1
    else if s[|s| - 1] == c then |s| - 1
    else RFind(s[..|s| - 1], c)
  }

  /** `pathlib.PurePath(name).stem` for a single path component: the name
      without its last suffix, where a suffix needs a non-leading dot that is
      not the last character. */
  function Stem(name: string): (r: string)
    ensures |r| <= |name| && r == name[..|r|]
  {
    var i := RFind(name, '.');
    if 0 < i < |name| - 1 then name[..i] else name
  }

  /** The stem of `<base>.<ext>`, for a non-empty base and an extension
      without a dot, is the base. */
  lemma StemOfSuffixed(base: string, ext: string)
    requires base != [] && ext != [] && '.' !in ext
    ensures Stem(base + "." + ext) == base
  {
    var name := base + "." + ext;
    assert name[|base|] == '.';
    forall k | |base| < k < |name|
      ensures name[k] != '.'
    {
      assert name[k] == ext[k - |base| - 1];
    }
    assert RFind(name, '.') == |base|;
    assert name[..|base|] == base;
  }

  // ---------------------------------------------------------------------------
  // Integer division
  // ---------------------------------------------------------------------------

  /** Python's `a // b`, rounding toward minus infinity (Dafny's `/` rounds
      so that the remainder is non-negative, which differs for `b < 0`). */
  function FloorDiv(a: int, b: int): (q: int)
    requires b != 0
    ensures b > 0 ==> b * q <= a < b * q + b
    ensures b < 0 ==> b * q + b < a <= b * q
  {
    if b > 0 then a / b else (-a) / (-b)
  }

  /** Python's `a % b`: the remainder takes the divisor's sign. */
  function FloorMod(a: int, b: int): (r: int)
    requires b != 0
    ensures a == b * FloorDiv(a, b) + r
    ensures b > 0 ==> 0 <= r < b
    ensures b < 0 ==> b < r <= 0
  {
    var q := FloorDiv(a, b);
    assert b < 0 ==> -a == (-b) * q + (-a) % (-b);
    a - b * q
  }

  // ---------------------------------------------------------------------------
  // Slices
  // ---------------------------------------------------------------------------

  /** `xs[:k]`, with Python's meaning for a negative `k` (drop from the end). */
  function SliceTo<T>(xs: seq<T>, k: int): (r: seq<T>)
    ensures |r| <= |xs| && r == xs[..|r|]
    ensures k >= 0 ==> |r| == (if k < |xs| then k else |xs|)
    ensures k < 0 ==> |r| == (if -k < |xs| then |xs| + k else 0)
  {
    if k >= 0 then (if k < |xs| then xs[..k] else xs)
    else if -k < |xs| then xs[..|xs| + k] else []
  }

  /** Regrouping a concatenation, stated once so that proofs about growing
      logs need not rediscover it. */
  lemma AppendAssoc<T>(a: seq<T>, b: seq<T>, c: seq<T>)
    ensures a + b + c == a + (b + c)
  {
  }

  /** The middle part of a three-way concatenation is found at its offset. */
  lemma MidSlice<T>(a: seq<T>, b: seq<T>, c: seq<T>)
    ensures (a + b + c)[..|a|] == a
    ensures (a + b + c)[|a|..|a| + |b|] == b
    ensures forall k :: 0 <= k < |c| ==> (a + b + c)[|a| + |b| + k] == c[k]
  {
    var s := a + b + c;
    assert s[..|a|] == a;
    assert s[|a|..|a| + |b|] == b;
  }
}
