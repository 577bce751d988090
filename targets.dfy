/** The per-algorithm range tables of the compress, dithering and blur
    options and the model validators that complete them: the "before"
    validators of the pepedd-nodes copies, which fill the incoming keyword
    dict, and the "after" validators of the pepedd copies, which fill the
    validated model. */
module TargetFill {

  import opened Wrappers
  import opened PyValue

  // ---------------------------------------------------------------------------
  // Field lists and range constraints
  // ---------------------------------------------------------------------------

  /** `AlgorithmType`: the compress algorithms, and the fields of
      `TargetCompress`. */
  const AlgorithmFields: seq<string> := ["jpeg", "webp", "h264", "hevc", "mpeg2", "mpeg4", "vp9", "avif", "j2000", "bd"]

  /** `LDAlg`: the dithering algorithms, and the fields of `TargetColorCh`. */
  const LDAlgFields: seq<string> := ["floydsteinberg", "jarvisjudiceninke", "stucki", "atkinson", "burkes", "sierra",
                                     "tworowsierra", "sierraLite", "order", "riemersma", "quantize"]

  /** `LiteralBlur`: the blur filters. */
  const LiteralBlur: seq<string> := ["box", "gauss", "median", "lens", "motion", "random", "airy", "ring", "triangle"]

  /** The fields of `TargetKernels`, which is also the list the "before"
      blur validator fills: every filter but "motion". */
  const KernelFields: seq<string> := ["box", "gauss", "median", "lens", "random", "airy", "triangle", "ring"]

  /** `CompressRange`: exactly two integers. */
  predicate CompressRangeOk(xs: seq<int>) { |xs| == 2 }

  /** `PaletteRange`: exactly two integers, each in [8, 255^3]. */
  predicate PaletteRangeOk(xs: seq<int>)
  {
    |xs| == 2 && forall i :: 0 <= i < |xs| ==> 8 <= xs[i] <= 255 * 255 * 255
  }

  /** `KernelRange`: exactly two non-negative numbers. */
  predicate KernelRangeOk(xs: seq<real>)
  {
    |xs| == 2 && forall i :: 0 <= i < |xs| ==> xs[i] >= 0.0
  }

  /** The declared field defaults and the fill defaults of the "before"
      validators all satisfy their range constraints, but two of the pairs
      disagree: dithering fills `[8, 512]` where `color_in_img` defaults to
      `[32, 1024]`, and blur fills `[0.0, 10.0]` where `kernel` defaults to
      `[0, 1]`. */
  lemma DefaultRanges()
    ensures CompressRangeOk([40, 100])
    ensures PaletteRangeOk([32, 1024]) && PaletteRangeOk([8, 512]) && [32, 1024] != [8, 512]
    ensures KernelRangeOk([0.0, 1.0]) && KernelRangeOk([0.0, 10.0]) && [0.0, 1.0] != [0.0, 10.0]
    ensures !PaletteRangeOk([4, 512]) && !PaletteRangeOk([8, 255 * 255 * 255 + 1]) && !PaletteRangeOk([8])
    ensures !KernelRangeOk([-1.0, 1.0]) && !CompressRangeOk([40])
  {
    assert [4, 512][0] == 4;
    assert [8, 255 * 255 * 255 + 1][1] == 255 * 255 * 255 + 1;
    assert [-1.0, 1.0][0] == -1.0;
  }

  /** The names a list of fields covers. */
  function Names(fields: seq<string>): set<string> { set f | f in fields }

  /** The "after" blur validator fills `set(LiteralBlur) - {"motion"}`, which
      is exactly the field set of `TargetKernels`: every field it reads
      exists, and every field of the model is visited. */
  lemma BlurAfterFieldsAreKernelFields()
    ensures Names(LiteralBlur) - {"motion"} == Names(KernelFields)
  {
    assert "motion" !in KernelFields;
    forall f | f in Names(KernelFields) ensures f in Names(LiteralBlur) {
      var i :| 0 <= i < |KernelFields| && KernelFields[i] == f;
      assert f == LiteralBlur[[0, 1, 2, 3, 5, 6, 8, 7][i]];
    }
    forall f | f in Names(LiteralBlur) - {"motion"} ensures f in Names(KernelFields) {
      var i :| 0 <= i < |LiteralBlur| && LiteralBlur[i] == f;
      assert i != 4;
      assert f == KernelFields[[0, 1, 2, 3, 0, 4, 5, 7, 6][i]];
    }
  }

  // ---------------------------------------------------------------------------
  // "before" validators: fill the keyword dict in place
  // ---------------------------------------------------------------------------

  /** The target sub-dict after the loop over `fields`: a field that is
      missing or `None` gets `fill`; every other entry stays. */
  function FillEntries(target: map<string, Value>, fields: seq<string>, fill: Value): (r: map<string, Value>)
  {
    map k | k in target.Keys + Names(fields) ::
      if k in fields && (k !in target || target[k] == NoneV) then fill else target[k]
  }

  /** What `fill_target_*` leaves in the dict: the target entry (created as
      `{}` when missing or `None`) with every field filled with
      `data.get(rangeKey, default)`. A target that is not a dict cannot be
      indexed by field name and raises TypeError, leaving the dict as it
      was. */
  function FilledDict(entries: map<string, Value>, rangeKey: string, targetKey: string,
                      fields: seq<string>, default: Value): Result<map<string, Value>>
  {
    var fill := Get(entries, rangeKey, default);
    var target := if targetKey !in entries || entries[targetKey] == NoneV then DictV(map[]) else entries[targetKey];
    if !target.DictV? then (if fields == [] then Ok(entries) else Err(TypeError))
    else Ok(entries[targetKey := DictV(FillEntries(target.entries, fields, fill))])
  }

  /** No fields: the target stays as it is. */
  lemma FillNone(t: map<string, Value>, fill: Value)
    ensures FillEntries(t, [], fill) == t
  {
    assert Names([]) == {};
  }

  /** Every listed field is present afterwards: `fill` where it was missing
      or `None`, its own value otherwise; other keys keep their values. */
  lemma FillEntriesMeaning(t: map<string, Value>, fields: seq<string>, fill: Value)
    ensures var r := FillEntries(t, fields, fill);
            && (forall f :: f in fields ==> f in r)
            && (forall f :: f in fields && (f !in t || t[f] == NoneV) ==> r[f] == fill)
            && (forall k :: k in t && (k !in fields || t[k] != NoneV) ==> k in r && r[k] == t[k])
            && (fill != NoneV ==> forall f :: f in fields ==> r[f] != NoneV)
  {
    var r := FillEntries(t, fields, fill);
    forall f | f in fields ensures f in r { assert f in Names(fields); }
  }

  /** One more field: filled when the target lacks it or holds `None`. */
  lemma FillStep(t0: map<string, Value>, fs: seq<string>, f: string, fill: Value)
    ensures var t := FillEntries(t0, fs, fill);
            FillEntries(t0, fs + [f], fill) == if f !in t || t[f] == NoneV then t[f := fill] else t
  {
    var t := FillEntries(t0, fs, fill);
    var lhs := FillEntries(t0, fs + [f], fill);
    var rhs := if f !in t || t[f] == NoneV then t[f := fill] else t;
    assert Names(fs + [f]) == Names(fs) + {f} by {
      forall x ensures x in fs + [f] <==> x in fs || x == f {
        if x in fs + [f] {
          var i :| 0 <= i < |fs + [f]| && (fs + [f])[i] == x;
          if i < |fs| { assert fs[i] == x; }
        }
        if x in fs {
          var i :| 0 <= i < |fs| && fs[i] == x;
          assert (fs + [f])[i] == x;
        }
        if x == f { assert (fs + [f])[|fs|] == x; }
      }
    }
    assert lhs.Keys == rhs.Keys;
    forall k | k in lhs ensures lhs[k] == rhs[k] {
      if k != f {
        assert k in fs + [f] <==> k in fs by {
          if k in fs + [f] {
            var i :| 0 <= i < |fs + [f]| && (fs + [f])[i] == k;
            if i < |fs| { assert fs[i] == k; }
          }
          if k in fs {
            var i :| 0 <= i < |fs| && fs[i] == k;
            assert (fs + [f])[i] == k;
          }
        }
      } else {
        assert f in fs + [f] by { assert (fs + [f])[|fs|] == f; }
      }
    }
    assert lhs == rhs;
  }

  /** `fill_target_*(data)` in "before" mode, on the keyword dict: reads the
      fill value, replaces a missing or `None` target by `{}`, then writes
      the fill value into each missing or `None` field, one field at a time. */
  method FillTarget(d: PyDict, rangeKey: string, targetKey: string, fields: seq<string>, default: Value)
    returns (r: Result<()>)
    modifies d
    ensures var f := FilledDict(old(d.entries), rangeKey, targetKey, fields, default);
            && (r.Ok? <==> f.Ok?)
            && (f.Ok? ==> d.entries == f.value)
            && (f.Err? ==> r.error == f.error && d.entries == old(d.entries))
  {
    ghost var e0 := d.entries;
    var fill := Get(d.entries, rangeKey, default);
    if targetKey !in d.entries || d.entries[targetKey] == NoneV {
      d.entries := d.entries[targetKey := DictV(map[])];
    }
    var target := d.entries[targetKey];
    ghost var mid := d.entries;
    assert mid.Keys == e0.Keys + {targetKey};
    assert forall k :: k in mid && k != targetKey ==> mid[k] == e0[k];
    if !target.DictV? {
      if fields != [] {
        return Err(TypeError);
      }
      return Ok(());
    }
    var t := target.entries;
    FillNone(t, fill);
    assert fields[..0] == [];
    for i := 0 to |fields|
      invariant t == FillEntries(target.entries, fields[..i], fill)
      invariant d.entries == mid
    {
      FillStep(target.entries, fields[..i], fields[i], fill);
      assert fields[..i + 1] == fields[..i] + [fields[i]];
      if fields[i] !in t || t[fields[i]] == NoneV {
        t := t[fields[i] := fill];
      }
    }
    assert fields[..|fields|] == fields;
    d.entries := d.entries[targetKey := DictV(t)];
    assert d.entries == e0[targetKey := DictV(t)];
    r := Ok(());
  }

  /** The validator as pydantic calls it: a non-dict is returned as it is;
      a dict is filled in place and the same dict object is returned. */
  method FillBefore(data: Input, rangeKey: string, targetKey: string, fields: seq<string>, default: Value)
    returns (r: Result<Input>)
    modifies if data.DictArg? then {data.d} else {}
    ensures data.OtherArg? ==> r == Ok(data)
    ensures data.DictArg? ==>
              var f := FilledDict(old(data.d.entries), rangeKey, targetKey, fields, default);
              && (r.Ok? <==> f.Ok?)
              && (r.Ok? ==> r.value == data && data.d.entries == f.value)
              && (r.Err? ==> r.error == f.error && data.d.entries == old(data.d.entries))
  {
    if data.OtherArg? {
      return Ok(data);
    }
    var c := FillTarget(data.d, rangeKey, targetKey, fields, default);
    if c.Err? {
      return Err(c.error);
    }
    r := Ok(data);
  }

  /** After a successful fill, every listed field is present in the target
      dict, with `fill` where it was missing or `None` and its own value
      otherwise; the fill value is not `None` unless the caller passed
      `None` for the range key, so with a range key that is absent or set,
      no listed field is left `None`. Keys outside the fields and other
      entries of the dict are untouched. */
  lemma FilledDictMeaning(entries: map<string, Value>, rangeKey: string, targetKey: string,
                          fields: seq<string>, default: Value)
    requires fields != []
    ensures var r := FilledDict(entries, rangeKey, targetKey, fields, default);
            var fill := Get(entries, rangeKey, default);
            var t := if targetKey !in entries then NoneV else entries[targetKey];
            var t0 := if t.DictV? then t.entries else map[];
            r.Ok? ==>
              && targetKey in r.value && r.value[targetKey].DictV?
              && (forall k :: k in entries && k != targetKey ==> k in r.value && r.value[k] == entries[k])
              && (forall f :: f in fields ==> f in r.value[targetKey].entries)
              && (forall f :: f in fields && (f !in t0 || t0[f] == NoneV) ==> r.value[targetKey].entries[f] == fill)
              && (forall k :: k in t0 && (k !in fields || t0[k] != NoneV) ==> r.value[targetKey].entries[k] == t0[k])
              && (fill != NoneV ==> forall f :: f in fields ==> r.value[targetKey].entries[f] != NoneV)
    ensures var r := FilledDict(entries, rangeKey, targetKey, fields, default);
            r.Err? <==> fields != [] && targetKey in entries && entries[targetKey] != NoneV && !entries[targetKey].DictV?
  {
    var fill := Get(entries, rangeKey, default);
    var t := if targetKey !in entries then NoneV else entries[targetKey];
    var t0 := if t.DictV? then t.entries else map[];
    FillEntriesMeaning(t0, fields, fill);
  }

  /** `CompressOptions.fill_target_compress` ("before" mode). */
  method FillTargetCompressBefore(data: Input) returns (r: Result<Input>)
    modifies if data.DictArg? then {data.d} else {}
    ensures data.OtherArg? ==> r == Ok(data)
    ensures data.DictArg? ==>
              var f := FilledDict(old(data.d.entries), "compress", "target_compress", AlgorithmFields, Ints([40, 100]));
              && (r.Ok? <==> f.Ok?) && (r.Ok? ==> r.value == data && data.d.entries == f.value)
  {
    r := FillBefore(data, "compress", "target_compress", AlgorithmFields, Ints([40, 100]));
  }

  /** `DitheringOptions.fill_target_color` ("before" mode). */
  method FillTargetColorBefore(data: Input) returns (r: Result<Input>)
    modifies if data.DictArg? then {data.d} else {}
    ensures data.OtherArg? ==> r == Ok(data)
    ensures data.DictArg? ==>
              var f := FilledDict(old(data.d.entries), "color_in_img", "target_color", LDAlgFields, Ints([8, 512]));
              && (r.Ok? <==> f.Ok?) && (r.Ok? ==> r.value == data && data.d.entries == f.value)
  {
    r := FillBefore(data, "color_in_img", "target_color", LDAlgFields, Ints([8, 512]));
  }

  /** `BlurOptions.fill_target_kernels` ("before" mode). */
  method FillTargetKernelsBefore(data: Input) returns (r: Result<Input>)
    modifies if data.DictArg? then {data.d} else {}
    ensures data.OtherArg? ==> r == Ok(data)
    ensures data.DictArg? ==>
              var f := FilledDict(old(data.d.entries), "kernel", "target_kernels", KernelFields, Floats([0.0, 10.0]));
              && (r.Ok? <==> f.Ok?) && (r.Ok? ==> r.value == data && data.d.entries == f.value)
  {
    r := FillBefore(data, "kernel", "target_kernels", KernelFields, Floats([0.0, 10.0]));
  }

  /** With no `compress` and no `target_compress`, every algorithm, "bd"
      included, gets `[40, 100]`. */
  lemma CompressBeforeFromEmpty()
    ensures var r := FilledDict(map[], "compress", "target_compress", AlgorithmFields, Ints([40, 100]));
            && r.Ok? && "target_compress" in r.value
            && forall f :: f in AlgorithmFields ==> r.value["target_compress"].entries[f] == Ints([40, 100])
  {
    FilledDictMeaning(map[], "compress", "target_compress", AlgorithmFields, Ints([40, 100]));
  }

  /** With no `color_in_img`, the "before" dithering validator fills every
      algorithm with `[8, 512]`, while the model's own `color_in_img`
      default, and so the "after" validator of the pepedd copy, is
      `[32, 1024]`. */
  lemma DitheringCopiesDisagree(entries: map<string, Value>)
    requires "color_in_img" !in entries && "target_color" !in entries
    ensures var r := FilledDict(entries, "color_in_img", "target_color", LDAlgFields, Ints([8, 512]));
            && r.Ok?
            && forall f :: f in LDAlgFields ==> r.value["target_color"].entries[f] == Ints([8, 512]) != Ints([32, 1024])
  {
    FilledDictMeaning(entries, "color_in_img", "target_color", LDAlgFields, Ints([8, 512]));
    assert Ints([8, 512]).items[0] == IntV(8);
    assert Ints([32, 1024]).items[0] == IntV(32);
  }

  /** Likewise for blur: `[0.0, 10.0]` against the `kernel` default `[0, 1]`. */
  lemma BlurCopiesDisagree(entries: map<string, Value>)
    requires "kernel" !in entries && "target_kernels" !in entries
    ensures var r := FilledDict(entries, "kernel", "target_kernels", KernelFields, Floats([0.0, 10.0]));
            && r.Ok?
            && forall f :: f in KernelFields ==> r.value["target_kernels"].entries[f] == Floats([0.0, 10.0]) != Floats([0.0, 1.0])
  {
    FilledDictMeaning(entries, "kernel", "target_kernels", KernelFields, Floats([0.0, 10.0]));
    assert Floats([0.0, 10.0]).items[1] == FloatV(10.0);
    assert Floats([0.0, 1.0]).items[1] == FloatV(1.0);
  }

  // ---------------------------------------------------------------------------
  // "after" validators: fill the validated model
  // ---------------------------------------------------------------------------

  /** The target table after the loop: every visited field that was `None`
      holds the model's range; everything else is kept. */
  function FillAfterOf<T>(target: map<string, Option<seq<T>>>, fields: set<string>, range: seq<T>): (r: map<string, Option<seq<T>>>)
  {
    map k | k in target :: if k in fields && target[k].None? then Some(range) else target[k]
  }

  /** Visiting one more field fills that field alone. */
  lemma FillAfterStep<T>(target: map<string, Option<seq<T>>>, done: set<string>, f: string, range: seq<T>)
    requires f in target && f !in done
    ensures FillAfterOf(target, done, range)[f] == target[f]
    ensures FillAfterOf(target, done + {f}, range)
         == FillAfterOf(target, done, range)[f := if target[f].None? then Some(range) else target[f]]
  {
    var a := FillAfterOf(target, done + {f}, range);
    var b := FillAfterOf(target, done, range)[f := if target[f].None? then Some(range) else target[f]];
    assert a.Keys == b.Keys;
    forall k | k in a ensures a[k] == b[k] {
      if k != f {
        assert (k in done + {f}) == (k in done);
      }
    }
  }

  /** An options model after validation: its common range (`compress`,
      `color_in_img` or `kernel`) and its per-algorithm table, as
      `model_dump()` gives it (one entry per model field). */
  class Options<T> {
    var range: seq<T>
    var target: map<string, Option<seq<T>>>

    constructor(range: seq<T>, target: map<string, Option<seq<T>>>)
      ensures this.range == range && this.target == target
    {
      this.range := range;
      this.target := target;
    }

    /** `fill_target_*(self)` in "after" mode: for each field of the set, in
        whatever order the set yields, a `None` entry becomes the range;
        then the table is replaced by the filled one. Every field visited is
        a model field. */
    method FillAfter(fields: set<string>)
      requires fields <= target.Keys
      modifies this
      ensures range == old(range)
      ensures target == FillAfterOf(old(target), fields, old(range))
    {
      var dict := target;
      var rest := fields;
      while rest != {}
        invariant target == old(target) && range == old(range)
        invariant rest <= fields && fields <= target.Keys
        invariant dict == FillAfterOf(target, fields - rest, range)
        decreases |rest|
      {
        var f :| f in rest;
        ghost var done := fields - rest;
        FillAfterStep(target, done, f, range);
        if dict[f].None? {
          dict := dict[f := Some(range)];
        } else {
          assert dict == dict[f := target[f]];
        }
        rest := rest - {f};
        assert fields - rest == done + {f};
      }
      assert fields - rest == fields;
      target := dict;
    }
  }

  /** After the fill, every visited field holds a value: the range where it
      was `None`, its own value otherwise; so when the fields are all the
      model fields, no entry is `None`, and when the range and every given
      entry satisfy a constraint, so does every entry. */
  lemma FillAfterMeaning<T>(target: map<string, Option<seq<T>>>, fields: set<string>, range: seq<T>, ok: seq<T> -> bool)
    ensures var r := FillAfterOf(target, fields, range);
            && r.Keys == target.Keys
            && (forall f :: f in fields && f in target ==> r[f].Some?)
            && (forall f :: f in fields && f in target && target[f].None? ==> r[f] == Some(range))
            && (forall k :: k in target && target[k].Some? ==> r[k] == target[k])
            && (fields == target.Keys ==> forall k :: k in r ==> r[k].Some?)
            && (ok(range) && (forall k :: k in target && target[k].Some? ==> ok(target[k].value)) ==>
                  forall k :: k in r && r[k].Some? ==> ok(r[k].value))
  {
  }

  /** `CompressOptions.fill_target_compress` ("after" mode). */
  method FillTargetCompressAfter(opts: Options<int>)
    requires opts.target.Keys == Names(AlgorithmFields)
    modifies opts
    ensures opts.range == old(opts.range) && opts.target.Keys == Names(AlgorithmFields)
    ensures forall f :: f in AlgorithmFields ==> opts.target[f].Some?
    ensures forall f :: f in AlgorithmFields ==>
              opts.target[f] == if old(opts.target)[f].None? then Some(opts.range) else old(opts.target)[f]
  {
    opts.FillAfter(Names(AlgorithmFields));
  }

  /** `DitheringOptions.fill_target_compress` ("after" mode). */
  method FillTargetColorAfter(opts: Options<int>)
    requires opts.target.Keys == Names(LDAlgFields)
    modifies opts
    ensures opts.range == old(opts.range) && opts.target.Keys == Names(LDAlgFields)
    ensures forall f :: f in LDAlgFields ==> opts.target[f].Some?
    ensures forall f :: f in LDAlgFields ==>
              opts.target[f] == if old(opts.target)[f].None? then Some(opts.range) else old(opts.target)[f]
  {
    opts.FillAfter(Names(LDAlgFields));
  }

  /** `BlurOptions.fill_target_kernels` ("after" mode): visits
      `set(LiteralBlur) - {"motion"}`. */
  method FillTargetKernelsAfter(opts: Options<real>)
    requires opts.target.Keys == Names(KernelFields)
    modifies opts
    ensures opts.range == old(opts.range) && opts.target.Keys == Names(KernelFields)
    ensures forall f :: f in LiteralBlur && f != "motion" ==> f in opts.target && opts.target[f].Some?
    ensures forall f :: f in KernelFields ==>
              opts.target[f] == if old(opts.target)[f].None? then Some(opts.range) else old(opts.target)[f]
  {
    BlurAfterFieldsAreKernelFields();
    opts.FillAfter(Names(LiteralBlur) - {"motion"});
  }
}
