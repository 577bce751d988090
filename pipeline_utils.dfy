/** pepedd/core/pipeline/utils.py: the digit count used for zero-padded names,
    the byte message `mix_seed` hashes and the seed it reads back, and the
    output paths of the two savers. BLAKE2b itself is a parameter. */
module PipelineUtils {

  import opened PyText
  import opened Images

  // ---------------------------------------------------------------------------
  // digits_count
  // ---------------------------------------------------------------------------

  function Abs(n: int): nat { if n < 0 then -n else n }

  /** `digits_count(n)`: 1 for 0, otherwise the `d` with 10^(d-1) <= |n| < 10^d. */
  function DigitsCount(n: int): (d: nat)
    ensures d >= 1
    ensures n == 0 ==> d == 1
    ensures n != 0 ==> Pow10(d - 1) <= Abs(n) < Pow10(d)
  {
    if n == 0 then 1
    else
      NumDigitsBounds(Abs(n));
      NumDigits(Abs(n))
  }

  /** The digit count is the length of the decimal text of |n|. */
  lemma DigitsCountIsLength(n: int)
    ensures DigitsCount(n) == |NatToString(Abs(n))|
  {
    NatToStringLength(Abs(n));
  }

  // ---------------------------------------------------------------------------
  // mix_seed
  // ---------------------------------------------------------------------------

  /** A part handed to `mix_seed`: raw bytes, or an object whose `str` is used
      (text, or an integer). */
  datatype Part = Bytes(raw: seq<byte>) | Text(text: string) | Int(value: int)

  /** `b"|"`. */
  const Bar: byte := 0x7C

  /** What `h.update` receives for one part before the separator. */
  function PartBytes(p: Part): seq<byte>
  {
    match p
    case Bytes(raw) => raw
    case Text(text) => Utf8(text)
    case Int(value) => Utf8(IntToString(value))
  }

  /** Everything hashed for `parts`: each part's bytes followed by `|`, in
      argument order. */
  function Message(parts: seq<Part>): seq<byte>
  {
    if parts == [] then []
    else Message(parts[..|parts| - 1]) + PartBytes(parts[|parts| - 1]) + [Bar]
  }

  /** An eight-byte BLAKE2b digest (`digest_size = 64 // 8`). */
  type Digest = d: seq<byte> | |d| == 8 witness [0, 0, 0, 0, 0, 0, 0, 0]

  /** BLAKE2b with an eight-byte digest (RFC 7693), left abstract. */
  type Hasher = seq<byte> -> Digest

  const Two64: nat := 0x1_0000_0000_0000_0000

  /** `int.from_bytes(d, "little")`. */
  function LittleEndian(d: seq<byte>): nat
  {
    if d == [] then 0 else d[0] + 256 * LittleEndian(d[1..])
  }

  function Pow256(k: nat): (p: nat)
    ensures p >= 1
  {
    if k == 0 then 1 else 256 * Pow256(k - 1)
  }

  lemma {:induction false} LittleEndianBound(d: seq<byte>)
    ensures LittleEndian(d) < Pow256(|d|)
    decreases |d|
  {
    if d != [] {
      LittleEndianBound(d[1..]);
    }
  }

  /** The seed `mix_seed(*parts)` returns: always below 2^64. */
  function MixedSeed(parts: seq<Part>, hash: Hasher): (r: nat)
    ensures r < Two64
  {
    var d := hash(Message(parts));
    LittleEndianBound(d);
    assert Pow256(8) == Two64;
    LittleEndian(d)
  }

  /** `mix_seed(*parts)`, feeding the hasher one `update` at a time. */
  method MixSeed(parts: seq<Part>, hash: Hasher) returns (r: nat)
    ensures r == MixedSeed(parts, hash)
    ensures r < Two64
  {
    var fed: seq<byte> := [];
    for i := 0 to |parts|
      invariant fed == Message(parts[..i])
    {
      assert parts[..i + 1][..i] == parts[..i];
      fed := fed + PartBytes(parts[i]);
      fed := fed + [Bar];
    }
    assert parts[..|parts|] == parts;
    r := MixedSeed(parts, hash);
  }

  /** Each part as the bytes `mix_seed` feeds for it. */
  function AsBytes(parts: seq<Part>): (r: seq<Part>)
    ensures |r| == |parts|
    ensures forall k :: 0 <= k < |parts| ==> r[k] == Bytes(PartBytes(parts[k]))
  {
    seq(|parts|, k requires 0 <= k < |parts| => Bytes(PartBytes(parts[k])))
  }

  /** A text part and a bytes part holding its UTF-8 encoding feed the same
      bytes: replacing every part by its encoding leaves the seed unchanged. */
  lemma {:induction false} TextAndBytesAgree(parts: seq<Part>, hash: Hasher)
    ensures Message(AsBytes(parts)) == Message(parts)
    ensures MixedSeed(AsBytes(parts), hash) == MixedSeed(parts, hash)
    decreases |parts|
  {
    if parts != [] {
      var init := parts[..|parts| - 1];
      assert AsBytes(parts)[..|parts| - 1] == AsBytes(init);
      TextAndBytesAgree(init, hash);
    }
  }

  // --- Decimal text never contains the separator ----------------------------

  lemma DecimalIsAscii(i: int)
    ensures IsAscii(IntToString(i))
    ensures forall k :: 0 <= k < |IntToString(i)| ==> IntToString(i)[k] as int != 0x7C
  {
    var s := IntToString(i);
    if i < 0 {
      var d := NatToString(-i);
      assert s == "-" + d;
      assert forall k :: 1 <= k < |s| ==> s[k] == d[k - 1];
    }
  }

  lemma DecimalHasNoBar(i: int)
    ensures Bar !in Utf8(IntToString(i))
  {
    var s := IntToString(i);
    DecimalIsAscii(i);
    Utf8Ascii(s);
  }

  // --- Locating separators ----------------------------------------------------

  /** The index of the first `|` in `m`, or `|m|`. */
  function FirstBar(m: seq<byte>): (i: nat)
    ensures i <= |m|
    ensures forall k :: 0 <= k < i ==> m[k] != Bar
    ensures i < |m| ==> m[i] == Bar
  {
    if m == [] then 0 else if m[0] == Bar then 0 else 1 + FirstBar(m[1..])
  }

  /** The index of the last `|` in `m`, or -1. */
  function LastBar(m: seq<byte>): (i: int)
    ensures -1 <= i < |m|
    ensures forall k :: i < k < |m| ==> m[k] != Bar
    ensures i >= 0 ==> m[i] == Bar
  {
    if m == [] then -1 else if m[|m| - 1] == Bar then |m| - 1 else LastBar(m[..|m| - 1])
  }

  /** A separator-free prefix is recovered from the message it starts. */
  lemma SplitAtFirstBar(a: seq<byte>, x: seq<byte>, b: seq<byte>, y: seq<byte>)
    requires Bar !in a && Bar !in b
    requires a + [Bar] + x == b + [Bar] + y
    ensures a == b && x == y
  {
    var m := a + [Bar] + x;
    assert forall k :: 0 <= k < |a| ==> m[k] == a[k];
    assert forall k :: 0 <= k < |b| ==> m[k] == b[k];
    assert m[|a|] == Bar;
    assert (b + [Bar] + y)[|b|] == Bar;
    assert FirstBar(m) == |a|;
    assert FirstBar(m) == |b|;
    assert a == m[..|a|];
    assert b == (b + [Bar] + y)[..|b|];
    assert x == m[|a| + 1..];
    assert y == (b + [Bar] + y)[|b| + 1..];
  }

  /** A separator-free suffix is recovered from the message it ends. */
  lemma SplitAtLastBar(x: seq<byte>, a: seq<byte>, y: seq<byte>, b: seq<byte>)
    requires Bar !in a && Bar !in b
    requires x + [Bar] + a == y + [Bar] + b
    ensures x == y && a == b
  {
    var m := x + [Bar] + a;
    var n := y + [Bar] + b;
    assert forall k :: |x| < k < |m| ==> m[k] == a[k - |x| - 1];
    assert forall k :: |y| < k < |n| ==> n[k] == b[k - |y| - 1];
    assert m[|x|] == Bar;
    assert n[|y|] == Bar;
    assert LastBar(m) == |x|;
    assert LastBar(n) == |y|;
    assert x == m[..|x|] && y == n[..|y|];
    assert a == m[|x| + 1..] && b == n[|y| + 1..];
  }

  lemma DropLastBar(p: seq<byte>, q: seq<byte>)
    requires p + [Bar] == q + [Bar]
    ensures p == q
  {
    assert p == (p + [Bar])[..|p|];
    assert q == (q + [Bar])[..|q|];
  }

  function UnitParts(seed: int, path: string): seq<Part> { [Int(seed), Text(path)] }

  function TileParts(seed: int, path: string, index: int): seq<Part> { [Int(seed), Text(path), Int(index)] }

  lemma UnitMessageShape(seed: int, path: string)
    ensures Message(UnitParts(seed, path))
         == Utf8(IntToString(seed)) + [Bar] + (Utf8(path) + [Bar])
  {
    var ps := UnitParts(seed, path);
    assert ps[..1] == [Int(seed)] && ps[..1][..0] == [];
    var d, t := Utf8(IntToString(seed)), Utf8(path);
    assert Message(ps[..1]) == d + [Bar];
    assert Message(ps) == d + [Bar] + t + [Bar];
  }

  lemma TileMessageShape(seed: int, path: string, index: int)
    ensures Message(TileParts(seed, path, index))
         == Utf8(IntToString(seed)) + [Bar] + (Utf8(path) + [Bar] + Utf8(IntToString(index)) + [Bar])
  {
    var ps := TileParts(seed, path, index);
    assert ps[..2] == UnitParts(seed, path);
    UnitMessageShape(seed, path);
    var d, t, e := Utf8(IntToString(seed)), Utf8(path), Utf8(IntToString(index));
    assert PartBytes(ps[2]) == e;
    var x, y := d + [Bar], t + [Bar];
    calc {
      Message(ps);
      Message(UnitParts(seed, path)) + e + [Bar];
      x + y + e + [Bar];
      { AppendAssoc(x, y, e); }
      x + (y + e) + [Bar];
      { AppendAssoc(x, y + e, [Bar]); }
      x + (y + e + [Bar]);
    }
  }

  /** Whole images: different (seed, path) pairs hash different messages, so
      two units can share a generator only through a hash collision. */
  lemma UnitMessageInjective(s1: int, p1: string, s2: int, p2: string)
    requires Message(UnitParts(s1, p1)) == Message(UnitParts(s2, p2))
    ensures s1 == s2 && p1 == p2
  {
    UnitMessageShape(s1, p1);
    UnitMessageShape(s2, p2);
    DecimalHasNoBar(s1);
    DecimalHasNoBar(s2);
    SplitAtFirstBar(Utf8(IntToString(s1)), Utf8(p1) + [Bar], Utf8(IntToString(s2)), Utf8(p2) + [Bar]);
    Utf8Injective(IntToString(s1), IntToString(s2));
    IntToStringInjective(s1, s2);
    DropLastBar(Utf8(p1), Utf8(p2));
    Utf8Injective(p1, p2);
  }

  /** Tiles: the message determines seed, path and tile index, so distinct
      tiles of one image never share a hash input. */
  lemma TileMessageInjective(s1: int, p1: string, i1: int, s2: int, p2: string, i2: int)
    requires Message(TileParts(s1, p1, i1)) == Message(TileParts(s2, p2, i2))
    ensures s1 == s2 && p1 == p2 && i1 == i2
  {
    TileMessageShape(s1, p1, i1);
    TileMessageShape(s2, p2, i2);
    var d1, d2 := Utf8(IntToString(s1)), Utf8(IntToString(s2));
    var e1, e2 := Utf8(IntToString(i1)), Utf8(IntToString(i2));
    DecimalHasNoBar(s1);
    DecimalHasNoBar(s2);
    DecimalHasNoBar(i1);
    DecimalHasNoBar(i2);
    SplitAtFirstBar(d1, Utf8(p1) + [Bar] + e1 + [Bar], d2, Utf8(p2) + [Bar] + e2 + [Bar]);
    Utf8Injective(IntToString(s1), IntToString(s2));
    IntToStringInjective(s1, s2);
    DropLastBar(Utf8(p1) + [Bar] + e1, Utf8(p2) + [Bar] + e2);
    SplitAtLastBar(Utf8(p1), e1, Utf8(p2), e2);
    Utf8Injective(p1, p2);
    Utf8Injective(IntToString(i1), IntToString(i2));
    IntToStringInjective(i1, i2);
  }

  // ---------------------------------------------------------------------------
  // save_lq / save_hq_lq
  // ---------------------------------------------------------------------------

  /** Which saver the pipeline hands to the unit processors (`only_lq`). */
  datatype Saver = SaveLq | SaveHqLq

  /** What the pipeline does to the file system, in order: `rmtree`,
      `makedirs` and image saves. */
  datatype FsEvent = RemoveTree(dir: string) | Created(dir: string) | Save(path: string, image: Image)

  /** `os.path.join(out_path, sub, f"{name}.png")`. */
  function OutFile(out: string, sub: string, name: string): string
  {
    PathJoin(PathJoin(out, sub), name + ".png")
  }

  /** The files a saver writes for one unit: the clipped LQ buffer under
      `lq/`, then, for `save_hq_lq`, the clipped HQ buffer under `hq/` with the
      same file name. */
  function SaveWrites(saver: Saver, lq: Image, hq: Image, out: string, name: string): (w: seq<FsEvent>)
    ensures |w| == (if saver == SaveLq then 1 else 2)
    ensures w[0] == Save(OutFile(out, "lq", name), Clip(lq))
    ensures saver == SaveHqLq ==> w[1] == Save(OutFile(out, "hq", name), Clip(hq))
    ensures forall k :: 0 <= k < |w| ==> w[k].Save? && ImageInRange(w[k].image)
  {
    var l := Save(OutFile(out, "lq", name), Clip(lq));
    if saver == SaveLq then [l] else [l, Save(OutFile(out, "hq", name), Clip(hq))]
  }

  /** The file system, as the log of what was done to it. */
  class Disk {
    var log: seq<FsEvent>

    constructor ()
      ensures log == []
    {
      log := [];
    }

    /** `out_clear(folder)`: removes the tree (a no-op when it is absent). */
    method OutClear(folder: string)
      modifies this
      ensures log == old(log) + [RemoveTree(folder)]
    {
      log := log + [RemoveTree(folder)];
    }

    /** `os.makedirs(dir, exist_ok=True)`. */
    method MakeDirs(dir: string)
      modifies this
      ensures log == old(log) + [Created(dir)]
    {
      log := log + [Created(dir)];
    }

    /** `save_lq` / `save_hq_lq`. */
    method SaveUnit(saver: Saver, lq: Image, hq: Image, out: string, name: string)
      modifies this
      ensures log == old(log) + SaveWrites(saver, lq, hq, out, name)
    {
      var w := Save(OutFile(out, "lq", name), Clip(lq));
      log := log + [w];
      if saver == SaveHqLq {
        log := log + [Save(OutFile(out, "hq", name), Clip(hq))];
      }
    }
  }

  /** The LQ and HQ files of one unit are distinct files; the LQ files of two
      different names are distinct files. */
  lemma OutFilesDistinct(out: string, n1: string, n2: string)
    requires n1 == [] || n1[0] != '/'
    requires n2 == [] || n2[0] != '/'
    ensures OutFile(out, "lq", n1) != OutFile(out, "hq", n1)
    ensures n1 != n2 ==> OutFile(out, "lq", n1) != OutFile(out, "lq", n2)
  {
    var l := PathJoin(out, "lq");
    var h := PathJoin(out, "hq");
    assert l[|l| - 2..] == "lq" && h[|h| - 2..] == "hq";
    assert |l| == |h| && l[|l| - 1] == 'q' && h[|h| - 1] == 'q';
    assert (n1 + ".png")[0] != '/' && (n2 + ".png")[0] != '/';
    assert OutFile(out, "lq", n1) == l + "/" + (n1 + ".png");
    assert OutFile(out, "hq", n1) == h + "/" + (n1 + ".png");
    assert (l + "/" + (n1 + ".png"))[|l| - 2] == 'l';
    assert (h + "/" + (n1 + ".png"))[|h| - 2] == 'h';
    var f1, f2 := OutFile(out, "lq", n1), OutFile(out, "lq", n2);
    assert f2 == l + "/" + (n2 + ".png");
    assert f1[|l| + 1..] == n1 + ".png";
    assert f2[|l| + 1..] == n2 + ".png";
    assert (n1 + ".png")[..|n1|] == n1;
    assert (n2 + ".png")[..|n2|] == n2;
  }
}
