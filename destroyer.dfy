/** The configuration fixer of destroyer.py: HCL leaves numbers written as
    interpolations (`"${5}"`, `"${0.25}"`) as strings, and the fixer turns
    each such string into the number, walking the parsed configuration's
    lists and dicts. */
module Destroyer {

  import opened Wrappers
  import opened PyText
  import opened PyValue

  // ---------------------------------------------------------------------------
  // The pattern \$\{(-?\d*\.\d+|-?\d+)\}
  // ---------------------------------------------------------------------------

  /** The characters the group can hold. */
  predicate NumChar(c: char) { c == '-' || c == '.' || IsDigit(c) }

  /** The end of the run of group characters starting at `j`. */
  function RunEnd(s: string, j: nat): (e: nat)
    requires j <= |s|
    ensures j <= e <= |s|
    ensures forall k :: j <= k < e ==> NumChar(s[k])
    ensures e < |s| ==> !NumChar(s[e])
    decreases |s| - j
  {
    if j == |s| || !NumChar(s[j]) then j else RunEnd(s, j + 1)
  }

  /** The group without its optional leading minus sign. */
  function Unsigned(g: string): string
  {
    if |g| > 0 && g[0] == '-' then g[1..] else g
  }

  /** `-?\d+`. */
  predicate IntLit(g: string)
  {
    var b := Unsigned(g);
    |b| > 0 && AllDigits(b)
  }

  /** `-?\d*\.\d+`: digits, one dot, at least one digit. */
  predicate DecLit(g: string)
  {
    var b := Unsigned(g);
    var k := RFind(b, '.');
    k >= 0 && AllDigits(b[..k]) && k + 1 < |b| && AllDigits(b[k + 1..])
  }

  /** An integer literal has no dot; a decimal literal has one. */
  lemma LiteralDots(g: string)
    ensures IntLit(g) ==> '.' !in g
    ensures DecLit(g) ==> '.' in g
  {
    var b := Unsigned(g);
    if IntLit(g) {
      forall i | 0 <= i < |g| ensures g[i] != '.' {
        if |g| > 0 && g[0] == '-' {
          if i > 0 {
            assert g[i] == b[i - 1];
          }
        } else {
          assert g[i] == b[i];
        }
      }
    }
    if DecLit(g) {
      var k := RFind(b, '.');
      if |g| > 0 && g[0] == '-' {
        assert g[k + 1] == '.';
      } else {
        assert g[k] == '.';
      }
    }
  }

  /** Both literal forms consist of group characters only. */
  lemma LiteralChars(g: string)
    requires IntLit(g) || DecLit(g)
    ensures forall i :: 0 <= i < |g| ==> NumChar(g[i])
  {
    var b := Unsigned(g);
    assert forall i :: 0 <= i < |b| ==> NumChar(b[i]) by {
      if DecLit(g) {
        var k := RFind(b, '.');
        forall i | 0 <= i < |b| ensures NumChar(b[i]) {
          if i < k {
            assert b[i] == b[..k][i];
          } else if i > k {
            assert b[i] == b[k + 1..][i - k - 1];
          }
        }
      }
    }
    forall i | 0 <= i < |g| ensures NumChar(g[i]) {
      if |g| > 0 && g[0] == '-' {
        if i > 0 {
          assert g[i] == b[i - 1];
        }
      } else {
        assert g[i] == b[i];
      }
    }
  }

  /** The group of a match starting at `i`: after `${`, the whole run of
      group characters (the group can hold no `}`, so a shorter one would be
      followed by a group character), which must be followed by `}` and be
      one of the two literal forms. */
  function MatchAt(s: string, i: nat): (r: Option<string>)
    ensures r.Some? ==> (IntLit(r.value) && '.' !in r.value) || (DecLit(r.value) && '.' in r.value)
  {
    if i + 2 <= |s| && s[i] == '$' && s[i + 1] == '{' then
      var j := RunEnd(s, i + 2);
      var g := s[i + 2..j];
      LiteralDots(g);
      if j < |s| && s[j] == '}' && (IntLit(g) || DecLit(g)) then Some(g) else None
    else None
  }

  /** `re.search`: the group of the leftmost match at or after `i`. */
  function FirstMatch(s: string, i: nat): (r: Option<string>)
    ensures r.Some? ==> (IntLit(r.value) && '.' !in r.value) || (DecLit(r.value) && '.' in r.value)
    decreases |s| - i
  {
    if i >= |s| then None
    else match MatchAt(s, i)
      case Some(g) => Some(g)
      case None => FirstMatch(s, i + 1)
  }

  // ---------------------------------------------------------------------------
  // number_fix
  // ---------------------------------------------------------------------------

  predicate Negative(g: string) { |g| > 0 && g[0] == '-' }

  /** `int(g)`. */
  function IntValue(g: string): int
    requires IntLit(g)
  {
    var n: int := ParseNat(Unsigned(g));
    if Negative(g) then -n else n
  }

  /** `float(g)`, as the exact decimal the literal denotes. */
  function DecValue(g: string): real
    requires DecLit(g)
  {
    var b := Unsigned(g);
    var k := RFind(b, '.');
    var x := ParseNat(b[..k]) as real + ParseNat(b[k + 1..]) as real / Pow10(|b| - k - 1) as real;
    if Negative(g) then -x else x
  }

  /** `number_fix(s)`: the number of the first `${...}` match, a float when
      its group has a dot and an int otherwise; the string itself when
      nothing matches. */
  function NumberFix(s: string): (r: Value)
    ensures r.StrV? || r.IntV? || r.FloatV?
    ensures r.StrV? <==> FirstMatch(s, 0).None?
    ensures r.StrV? ==> r.s == s
  {
    match FirstMatch(s, 0)
    case None => StrV(s)
    case Some(g) => if '.' in g then FloatV(DecValue(g)) else IntV(IntValue(g))
  }

  /** No match can start before the first `$`. */
  lemma {:induction false} SkipToDollar(s: string, i: nat, j: nat)
    requires i <= j <= |s|
    requires forall k :: i <= k < j ==> s[k] != '$'
    ensures FirstMatch(s, i) == FirstMatch(s, j)
    decreases j - i
  {
    if i < j {
      SkipToDollar(s, i + 1, j);
    }
  }

  /** The run after `${` ends exactly where the literal `t` does. */
  lemma RunEndAt(s: string, j: nat, t: string)
    requires j + |t| < |s| && s[j..j + |t|] == t && s[j + |t|] == '}'
    requires forall k :: 0 <= k < |t| ==> NumChar(t[k])
    ensures RunEnd(s, j) == j + |t|
  {
    var e := RunEnd(s, j);
    forall k | j <= k < j + |t| ensures NumChar(s[k]) {
      assert s[k] == t[k - j];
    }
    assert !NumChar(s[j + |t|]);
  }

  /** A text with no `$` is returned as it is. */
  lemma NoDollarUnchanged(s: string)
    requires '$' !in s
    ensures NumberFix(s) == StrV(s)
  {
    SkipToDollar(s, 0, |s|);
  }

  /** A literal between `${` and `}` at `i` is the match there. */
  lemma MatchHere(s: string, i: nat, t: string)
    requires IntLit(t) || DecLit(t)
    requires i + 2 + |t| < |s| && s[i] == '$' && s[i + 1] == '{'
    requires s[i + 2..i + 2 + |t|] == t && s[i + 2 + |t|] == '}'
    ensures MatchAt(s, i) == Some(t)
  {
    LiteralChars(t);
    RunEndAt(s, i + 2, t);
    assert s[i + 2..RunEnd(s, i + 2)] == t;
  }

  /** The first `${...}` match decides, whatever text surrounds it: a prefix
      without `$` and any suffix are discarded. */
  lemma FirstLiteralWins(prefix: string, t: string, suffix: string)
    requires '$' !in prefix
    requires IntLit(t) || DecLit(t)
    ensures var s := prefix + "${" + t + "}" + suffix;
            FirstMatch(s, 0) == Some(t)
  {
    var s := prefix + "${" + t + "}" + suffix;
    var i := |prefix|;
    var open, close := prefix + "${", "}" + suffix;
    assert s == open + t + close;
    MidSlice(open, t, close);
    assert close[0] == '}';
    assert s[..i] == open[..i] == prefix;
    SkipToDollar(s, 0, i);
    MatchHere(s, i, t);
  }

  /** `"${<n>}"` inside any text (after a prefix without `$`) becomes the
      integer `n`: rendering an integer and fixing it round-trips. */
  lemma IntRoundTrip(prefix: string, n: int, suffix: string)
    requires '$' !in prefix
    ensures NumberFix(prefix + "${" + IntToString(n) + "}" + suffix) == IntV(n)
  {
    var t := IntToString(n);
    var m: nat := if n < 0 then -n else n;
    assert Unsigned(t) == NatToString(m);
    FirstLiteralWins(prefix, t, suffix);
    ParseNatToString(m);
  }

  /** The parts of `<int>.<frac>`: the dot is the last one, with the
      digits on either side. */
  lemma DecimalParts(ip: string, fp: string)
    requires AllDigits(ip) && AllDigits(fp) && fp != []
    ensures var b := ip + "." + fp;
            && RFind(b, '.') == |ip| && b[..|ip|] == ip && b[|ip| + 1..] == fp
            && Unsigned(b) == b && Unsigned("-" + b) == b && DecLit(b)
  {
    var b := ip + "." + fp;
    assert b[|ip|] == '.';
    forall i | |ip| < i < |b| ensures b[i] != '.' {
      assert b[i] == fp[i - |ip| - 1];
    }
    assert b[..|ip|] == ip && b[|ip| + 1..] == fp;
    assert ("-" + b)[1..] == b;
    if |ip| > 0 {
      assert b[0] == ip[0];
    }
  }

  /** `float` of `[-]<int>.<frac>`. */
  lemma DecimalLiteral(negative: bool, ip: string, fp: string)
    requires AllDigits(ip) && AllDigits(fp) && fp != []
    ensures var b := ip + "." + fp;
            var t := if negative then "-" + b else b;
            var x := ParseNat(ip) as real + ParseNat(fp) as real / Pow10(|fp|) as real;
            DecLit(t) && '.' in t && DecValue(t) == if negative then -x else x
  {
    var b := ip + "." + fp;
    DecimalParts(ip, fp);
    if negative {
      DecimalSigned("-" + b, b, ip, fp);
    } else {
      DecimalSigned(b, b, ip, fp);
    }
  }

  lemma DecimalSigned(t: string, b: string, ip: string, fp: string)
    requires AllDigits(ip) && AllDigits(fp) && fp != [] && b == ip + "." + fp
    requires t == b || t == "-" + b
    ensures var x := ParseNat(ip) as real + ParseNat(fp) as real / Pow10(|fp|) as real;
            DecLit(t) && '.' in t && DecValue(t) == if t == b then x else -x
  {
    DecimalSign(t, b, ip, fp);
    DecimalParts(ip, fp);
    DecimalUnsigned(t, b, ip, fp);
    LiteralDots(t);
  }

  lemma DecimalSign(t: string, b: string, ip: string, fp: string)
    requires AllDigits(ip) && b == ip + "." + fp
    requires t == b || t == "-" + b
    ensures Unsigned(t) == b && (Negative(t) <==> t != b)
  {
    assert ("-" + b)[1..] == b;
    if |ip| > 0 {
      assert b[0] == ip[0] && IsDigit(ip[0]);
    } else {
      assert b[0] == '.';
    }
  }

  lemma DecimalUnsigned(t: string, b: string, ip: string, fp: string)
    requires AllDigits(ip) && AllDigits(fp) && fp != [] && b == ip + "." + fp
    requires Unsigned(t) == b && RFind(b, '.') == |ip| && b[..|ip|] == ip && b[|ip| + 1..] == fp && DecLit(b)
    ensures DecLit(t)
    ensures var x := ParseNat(ip) as real + ParseNat(fp) as real / Pow10(|fp|) as real;
            DecValue(t) == if Negative(t) then -x else x
  {
    assert |b| - |ip| - 1 == |fp|;
  }

  /** `"${<int>.<frac>}"` becomes the exact decimal `int + frac / 10^|frac|`,
      negated with a leading minus; the integer part may be empty. */
  lemma DecimalValue(prefix: string, negative: bool, ip: string, fp: string, suffix: string)
    requires '$' !in prefix
    requires AllDigits(ip) && AllDigits(fp) && fp != []
    ensures var b := ip + "." + fp;
            var t := if negative then "-" + b else b;
            var x := ParseNat(ip) as real + ParseNat(fp) as real / Pow10(|fp|) as real;
            NumberFix(prefix + "${" + t + "}" + suffix) == FloatV(if negative then -x else x)
  {
    var b := ip + "." + fp;
    var t := if negative then "-" + b else b;
    DecimalLiteral(negative, ip, fp);
    FirstLiteralWins(prefix, t, suffix);
  }

  /** A dot with no digit after it does not match: `"${<d>.}"` and
      `"${-<d>.}"` stay strings for every run of digits `d`, `"${5.}"` among
      them. */
  lemma TrailingDotStays(negative: bool, d: string)
    requires AllDigits(d)
    ensures var t := (if negative then "-" else "") + d + ".";
            NumberFix("${" + t + "}") == StrV("${" + t + "}")
  {
    var sign := if negative then "-" else "";
    var t := sign + d + ".";
    var s := "${" + t + "}";
    forall k | 2 <= k < |s| - 1
      ensures NumChar(s[k])
    {
      assert s[k] == t[k - 2];
      if k - 2 < |sign| {
        assert t[k - 2] == '-';
      } else if k - 2 < |sign| + |d| {
        assert t[k - 2] == d[k - 2 - |sign|];
      }
    }
    assert s[|s| - 1] == '}' && !NumChar(s[|s| - 1]);
    var e := RunEnd(s, 2);
    assert e == |s| - 1;
    assert s[2..|s| - 1] == t;
    var b := Unsigned(t);
    assert b == d + ".";
    assert !IntLit(t) by { assert !IsDigit(b[|b| - 1]); }
    assert RFind(b, '.') == |d|;
    assert !DecLit(t);
    assert MatchAt(s, 0) == None;
    forall k | 1 <= k < |s|
      ensures s[k] != '$'
    {
      if 2 <= k < |s| - 1 {
        assert NumChar(s[k]);
      }
    }
    SkipToDollar(s, 1, |s|);
  }

  // ---------------------------------------------------------------------------
  // fix_hcl_dict / list_search
  // ---------------------------------------------------------------------------

  /** A value with every string in it fixed, at any depth. */
  function Fix(v: Value): (r: Value)
    ensures v.StrV? ==> r == NumberFix(v.s)
    ensures !v.StrV? && !v.ListV? && !v.DictV? ==> r == v
    decreases v
  {
    match v
    case StrV(s) => NumberFix(s)
    case ListV(items) => ListV(seq(|items|, i requires 0 <= i < |items| => Fix(items[i])))
    case DictV(m) => DictV(map k | k in m :: Fix(m[k]))
    case _ => v
  }

  /** Two values of the same shape: lists of the same length and dicts with
      the same keys, element by element, with strings standing for any
      scalar the fixer may turn them into and other scalars equal. */
  predicate SameShape(a: Value, b: Value)
    decreases a
  {
    match a
    case ListV(xs) => b.ListV? && |xs| == |b.items| && forall i :: 0 <= i < |xs| ==> SameShape(xs[i], b.items[i])
    case DictV(m) => b.DictV? && m.Keys == b.entries.Keys && forall k :: k in m ==> SameShape(m[k], b.entries[k])
    case StrV(_) => b.StrV? || b.IntV? || b.FloatV?
    case _ => a == b
  }

  /** Fixing keeps every list's length, every dict's keys and every
      non-string scalar. */
  lemma {:induction false} FixKeepsShape(v: Value)
    ensures SameShape(v, Fix(v))
    decreases v
  {
    match v
    case ListV(xs) =>
      forall i | 0 <= i < |xs| ensures SameShape(xs[i], Fix(v).items[i]) {
        FixKeepsShape(xs[i]);
      }
    case DictV(m) =>
      forall k | k in m ensures SameShape(m[k], Fix(v).entries[k]) {
        FixKeepsShape(m[k]);
      }
    case _ =>
  }

  /** Fixing twice is fixing once: a string left as it is has no match. */
  lemma {:induction false} FixIdempotent(v: Value)
    ensures Fix(Fix(v)) == Fix(v)
    decreases v
  {
    match v
    case ListV(xs) =>
      var once := Fix(v).items;
      forall i | 0 <= i < |xs| ensures Fix(once[i]) == once[i] {
        FixIdempotent(xs[i]);
      }
      assert Fix(Fix(v)).items == once;
    case DictV(m) =>
      var once := Fix(v).entries;
      forall k | k in m ensures Fix(once[k]) == once[k] {
        FixIdempotent(m[k]);
      }
      assert Fix(Fix(v)).entries == once;
    case StrV(s) =>
    case _ =>
  }

  /** `list_search(no_detect_list)`: each element is fixed and written back
      in place (a string by `number_fix`, a nested dict or list by the
      recursive call, anything else left); the same list is returned. */
  method ListSearch(a: array<Value>) returns (r: array<Value>)
    modifies a
    ensures r == a
    ensures ListV(a[..]) == Fix(ListV(old(a[..])))
  {
    ghost var start := a[..];
    ghost var fixed := Fix(ListV(start)).items;
    for index := 0 to a.Length
      invariant forall k :: 0 <= k < index ==> a[k] == fixed[k]
      invariant forall k :: index <= k < a.Length ==> a[k] == start[k]
    {
      var item := a[index];
      match item
      case StrV(s) => a[index] := NumberFix(s);
      case DictV(_) => a[index] := Fix(item);
      case ListV(_) => a[index] := Fix(item);
      case _ =>
    }
    assert a[..] == fixed;
    r := a;
  }

  /** The dict part-way through `fix_hcl_dict`: the keys in `done` are
      fixed, the others still hold their old values. */
  function FixedSoFar(start: map<string, Value>, done: set<string>): (r: map<string, Value>)
    ensures r.Keys == start.Keys
  {
    map k | k in start :: if k in done then Fix(start[k]) else start[k]
  }

  /** Fixing one more key changes that key alone. */
  lemma FixedSoFarStep(start: map<string, Value>, done: set<string>, key: string)
    requires key in start && key !in done
    ensures FixedSoFar(start, done)[key] == start[key]
    ensures FixedSoFar(start, done + {key}) == FixedSoFar(start, done)[key := Fix(start[key])]
  {
    var a := FixedSoFar(start, done + {key});
    var b := FixedSoFar(start, done)[key := Fix(start[key])];
    assert a.Keys == b.Keys;
    forall k | k in a ensures a[k] == b[k] {
      if k != key {
        assert (k in done + {key}) == (k in done);
      }
    }
  }

  /** One iteration of `fix_hcl_dict`: the value under `key` is fixed (a
      string by `number_fix`, a nested dict or list by the recursive call,
      anything else left) and written back. */
  method FixEntry(d: PyDict, key: string)
    requires key in d.entries
    modifies d
    ensures d.entries == old(d.entries)[key := Fix(old(d.entries)[key])]
  {
    var value := d.entries[key];
    match value {
      case StrV(s) => d.entries := d.entries[key := NumberFix(s)];
      case ListV(_) => d.entries := d.entries[key := Fix(value)];
      case DictV(_) => d.entries := d.entries[key := Fix(value)];
      case _ => assert d.entries == d.entries[key := Fix(value)];
    }
  }

  /** `fix_hcl_dict(dict_hcl)`: each value is fixed and written back under
      its key, keys in whatever order the dict yields them; the same dict is
      returned. */
  method FixHclDict(d: PyDict) returns (r: PyDict)
    modifies d
    ensures r == d
    ensures DictV(d.entries) == Fix(DictV(old(d.entries)))
  {
    ghost var start := d.entries;
    var rest := d.entries.Keys;
    while rest != {}
      invariant rest <= start.Keys
      invariant d.entries == FixedSoFar(start, start.Keys - rest)
      decreases |rest|
    {
      var key :| key in rest;
      ghost var done := start.Keys - rest;
      FixedSoFarStep(start, done, key);
      FixEntry(d, key);
      rest := rest - {key};
      assert start.Keys - rest == done + {key};
    }
    assert start.Keys - rest == start.Keys;
    assert d.entries == Fix(DictV(start)).entries;
    r := d;
  }
}
