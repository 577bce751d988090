/** The compress node of pepedd-nodes (pepedd/nodes/compress/compress.py):
    the option checks that keep only the pixel formats, presets and tunes a
    video codec accepts, the list of codec entries built from the options,
    the one quality draw each entry takes, and the node body that picks one
    entry and replaces the lq buffer with its result. The codecs themselves
    (ffmpeg pipes, the JPEG encoder) are a parameter. */
module Compress {

  import opened Wrappers
  import opened PyText
  import opened Rng
  import opened Images
  import opened Nodes

  // ---------------------------------------------------------------------------
  // Tables
  // ---------------------------------------------------------------------------

  /** `InterpolationMap`: the one-letter scaler codes of a sampling name. */
  const InterpolationMap: map<string, string> :=
    map["b" := "bilinear", "c" := "bicubic", "l" := "lanczos", "s" := "spline", "g" := "gauss", "a" := "area"]

  const H264SPF: seq<string> := ["yuv420p", "yuvj420p", "yuv422p", "yuvj422p", "yuv444p", "yuvj444p", "nv12", "nv16",
                                 "nv21", "yuv420p10le", "yuv422p10le", "yuv444p10le", "nv20le", "gray", "gray10le"]
  const H264Preset: seq<string> := ["ultrafast", "superfast", "veryfast", "faster", "fast", "medium", "slow", "slower",
                                    "veryslow", "placebo"]
  const H264Tune: seq<string> := ["film", "animation", "grain", "stillimage", "fastdecode", "zerolatency", "psnr", "ssim"]
  const H265SPF: seq<string> := ["yuv420p", "yuvj420p", "yuv422p", "yuvj422p", "yuv444p", "yuvj444p", "gbrp",
                                 "yuv420p10le", "yuv422p10le", "yuv444p10le", "gbrp10le", "yuv420p12le", "yuv422p12le",
                                 "yuv444p12le", "gbrp12le", "gray", "gray10le", "gray12le"]
  const H265Preset: seq<string> := ["ultrafast", "superfast", "veryfast", "faster", "fast", "medium", "slow", "slower",
                                    "veryslow", "placebo"]
  const H265Tune: seq<string> := ["psnr", "ssim", "grain", "zerolatency", "fastdecode"]
  const MPEG2SPF: seq<string> := ["yuv420p", "yuv422p"]
  const MPEG4SPF: seq<string> := ["yuv420p"]
  const VP9SPF: seq<string> := ["yuv420p", "yuva420p", "yuv422p", "yuv440p", "yuv444p", "yuv420p10le", "yuv422p10le",
                                "yuv440p10le", "yuv444p10le", "yuv420p12le", "yuv422p12le", "yuv440p12le",
                                "yuv444p12le", "gbrp", "gbrp10le", "gbrp12le"]
  const VP9Preset: seq<string> := ["best", "realtime", "good"]
  const VP9Tune: seq<string> := ["default", "screen", "film"]
  const AVIFSPF: seq<string> := ["yuv420p", "yuv422p", "yuv444p", "gbrp", "yuv420p10le", "yuv422p10le", "yuv444p10le",
                                 "yuv420p12le", "yuv422p12le", "yuv444p12le", "gbrp10le", "gbrp12le", "gray",
                                 "gray10le", "gray12le"]

  /** Every pixel-format table is non-empty and starts with "yuv420p", a name
      without an underscore, so the fallback entry of a sampling check is
      well formed. */
  lemma FormatTablesStart()
    ensures H264SPF[0] == H265SPF[0] == MPEG2SPF[0] == MPEG4SPF[0] == VP9SPF[0] == AVIFSPF[0] == "yuv420p"
    ensures '_' !in "yuv420p"
  {
  }

  // ---------------------------------------------------------------------------
  // validate_video_sampling
  // ---------------------------------------------------------------------------

  /** The names an interpolation code can stand for. */
  predicate InterpName(s: string)
  {
    s == "neighbor" || s == "bilinear" || s == "bicubic" || s == "lanczos" || s == "spline" || s == "gauss" || s == "area"
  }

  /** `InterpolationMap.get(key, "neighbor")`. */
  function InterpOf(key: string): (r: string)
    ensures InterpName(r) && '_' !in r
    ensures key !in InterpolationMap ==> r == "neighbor"
  {
    if key in InterpolationMap then InterpolationMap[key] else "neighbor"
  }

  /** The scaler of a split sampling name: "neighbor" without a second
      segment, else the mapped second segment; later segments are ignored. */
  function Interp(parts: seq<string>): (r: string)
    ensures InterpName(r) && '_' !in r
  {
    if |parts| > 1 then InterpOf(parts[1]) else "neighbor"
  }

  /** What one sampling name contributes: `"<mode>_<interp>"` when its text
      before the first underscore is an accepted pixel format, nothing
      otherwise. */
  function SamplingEntry(s: string, validate: seq<string>): Option<string>
  {
    var parts := Split(s, '_');
    if parts[0] in validate then Some(parts[0] + "_" + Interp(parts)) else None
  }

  /** The entries kept from a list of sampling names, in order. */
  function Kept(samplings: seq<string>, validate: seq<string>): seq<string>
  {
    if samplings == [] then []
    else
      var init := Kept(samplings[..|samplings| - 1], validate);
      match SamplingEntry(samplings[|samplings| - 1], validate)
      case Some(e) => init + [e]
      case None => init
  }

  /** `validate_video_sampling(samplings, validate)`: the kept entries, or
      `["<validate[0]>_neighbor"]` when none is kept; with nothing kept and
      an empty table, `validate[0]` raises IndexError. */
  function ValidSamplings(samplings: seq<string>, validate: seq<string>): Result<seq<string>>
  {
    var kept := Kept(samplings, validate);
    if kept != [] then Ok(kept)
    else if validate == [] then Err(IndexError)
    else Ok([validate[0] + "_neighbor"])
  }

  /** The loop of `validate_video_sampling`, appending to `result`. */
  method ValidateVideoSampling(samplings: seq<string>, validate: seq<string>) returns (r: Result<seq<string>>)
    ensures r == ValidSamplings(samplings, validate)
  {
    var result: seq<string> := [];
    for i := 0 to |samplings|
      invariant result == Kept(samplings[..i], validate)
    {
      assert samplings[..i + 1][..i] == samplings[..i];
      var parts := Split(samplings[i], '_');
      var mode := parts[0];
      if mode in validate {
        var interpolate := "neighbor";
        if |parts| > 1 {
          var key := parts[1];
          interpolate := InterpOf(key);
        }
        result := result + [mode + "_" + interpolate];
      }
    }
    assert samplings[..|samplings|] == samplings;
    if result == [] {
      if validate == [] {
        return Err(IndexError);
      }
      return Ok([validate[0] + "_neighbor"]);
    }
    r := Ok(result);
  }

  /** Splitting `"<mode>_<interp>"` gives back the two parts. */
  lemma SplitPair(mode: string, interp: string)
    requires '_' !in mode && '_' !in interp
    ensures Split(mode + "_" + interp, '_') == [mode, interp]
  {
    SplitFirst(mode, interp, '_');
    SplitNoSep(interp, '_');
  }

  /** A kept entry is `"<mode>_<interp>"` where `mode` is the text before the
      first underscore of the input and is in the table, and `interp` is a
      scaler name: it splits into exactly those two parts. */
  lemma SamplingEntryShape(s: string, validate: seq<string>)
    ensures var mode := Split(s, '_')[0];
            var e := SamplingEntry(s, validate);
            && (e.Some? <==> mode in validate)
            && (e.Some? ==> var p := Split(e.value, '_'); |p| == 2 && p[0] == mode && InterpName(p[1]))
  {
    var parts := Split(s, '_');
    SplitPair(parts[0], Interp(parts));
  }

  /** A sampling name `"<mode>_<key><tail>"`, whatever segments follow the
      key, gives `"<mode>_<InterpolationMap.get(key, "neighbor")>"` when the
      mode is accepted, and nothing otherwise. */
  lemma SamplingOfParts(mode: string, key: string, tail: string, validate: seq<string>)
    requires '_' !in mode && '_' !in key
    requires tail == [] || tail[0] == '_'
    ensures SamplingEntry(mode + "_" + key + tail, validate) ==
              if mode in validate then Some(mode + "_" + InterpOf(key)) else None
  {
    var s := mode + "_" + key + tail;
    assert s == mode + ['_'] + (key + tail);
    SplitFirst(mode, key + tail, '_');
    var rest := Split(key + tail, '_');
    if tail == [] {
      assert key + tail == key;
      SplitNoSep(key, '_');
    } else {
      assert key + tail == key + ['_'] + tail[1..];
      SplitFirst(key, tail[1..], '_');
    }
    assert rest[0] == key;
  }

  /** A bare pixel format gives `"<mode>_neighbor"` when accepted. */
  lemma SamplingOfMode(mode: string, validate: seq<string>)
    requires '_' !in mode
    ensures SamplingEntry(mode, validate) == if mode in validate then Some(mode + "_neighbor") else None
  {
    SplitNoSep(mode, '_');
    assert mode + "_" + "neighbor" == mode + "_neighbor";
  }

  /** Checking two lists one after the other keeps the entries of each, in
      order. */
  lemma {:induction false} KeptAppend(a: seq<string>, b: seq<string>, validate: seq<string>)
    ensures Kept(a + b, validate) == Kept(a, validate) + Kept(b, validate)
    decreases |b|
  {
    if b == [] {
      assert a + b == a;
    } else {
      var b' := b[..|b| - 1];
      KeptAppend(a, b', validate);
      assert (a + b)[..|a + b| - 1] == a + b';
      assert (a + b)[|a + b| - 1] == b[|b| - 1];
    }
  }

  /** Every entry kept comes from some input name. */
  lemma {:induction false} KeptFrom(samplings: seq<string>, validate: seq<string>, e: string)
    requires e in Kept(samplings, validate)
    ensures exists i :: 0 <= i < |samplings| && SamplingEntry(samplings[i], validate) == Some(e)
    decreases |samplings|
  {
    var init := samplings[..|samplings| - 1];
    var last := samplings[|samplings| - 1];
    if e in Kept(init, validate) {
      KeptFrom(init, validate, e);
      var i :| 0 <= i < |init| && SamplingEntry(init[i], validate) == Some(e);
      assert samplings[i] == init[i];
    } else {
      assert SamplingEntry(last, validate) == Some(e);
    }
  }

  /** Every entry of a successful check is `"<mode>_<interp>"` with `mode` in
      the table and `interp` a scaler name, and the result is never empty;
      it fails only when nothing is kept and the table is empty. */
  lemma ValidSamplingsShape(samplings: seq<string>, validate: seq<string>)
    requires validate != [] ==> '_' !in validate[0]
    ensures var r := ValidSamplings(samplings, validate);
            && (r.Err? <==> validate == [] && Kept(samplings, validate) == [])
            && (r.Ok? ==> r.value != [])
            && (r.Ok? ==> forall e :: e in r.value ==>
                  var p := Split(e, '_'); |p| == 2 && p[0] in validate && InterpName(p[1]))
  {
    var r := ValidSamplings(samplings, validate);
    if r.Ok? {
      forall e | e in r.value
        ensures var p := Split(e, '_'); |p| == 2 && p[0] in validate && InterpName(p[1])
      {
        if Kept(samplings, validate) != [] {
          KeptFrom(samplings, validate, e);
          var i :| 0 <= i < |samplings| && SamplingEntry(samplings[i], validate) == Some(e);
          SamplingEntryShape(samplings[i], validate);
          var mode := Split(samplings[i], '_')[0];
          assert mode in validate;
          assert Split(e, '_')[0] == mode;
        } else {
          SplitPair(validate[0], "neighbor");
          assert validate[0] + "_" + "neighbor" == validate[0] + "_neighbor";
        }
      }
    }
  }

  /** With nothing accepted, the check falls back to the table's first
      format with the "neighbor" scaler. */
  lemma SamplingFallback(samplings: seq<string>, validate: seq<string>)
    requires validate != []
    requires forall i :: 0 <= i < |samplings| ==> Split(samplings[i], '_')[0] !in validate
    ensures ValidSamplings(samplings, validate) == Ok([validate[0] + "_neighbor"])
  {
    KeptNone(samplings, validate);
  }

  lemma {:induction false} KeptNone(samplings: seq<string>, validate: seq<string>)
    requires forall i :: 0 <= i < |samplings| ==> Split(samplings[i], '_')[0] !in validate
    ensures Kept(samplings, validate) == []
    decreases |samplings|
  {
    if samplings != [] {
      var init := samplings[..|samplings| - 1];
      assert forall i :: 0 <= i < |init| ==> init[i] == samplings[i];
      KeptNone(init, validate);
    }
  }

  // ---------------------------------------------------------------------------
  // validate_video_pt
  // ---------------------------------------------------------------------------

  /** The values that appear in the table, in order, duplicates included. */
  function Filter(values: seq<string>, validate: seq<string>): seq<string>
  {
    if values == [] then []
    else
      var init := Filter(values[..|values| - 1], validate);
      if values[|values| - 1] in validate then init + [values[|values| - 1]] else init
  }

  /** `validate_video_pt(values, validate)`: the accepted values, or
      `[validate[0]]` when none is accepted (IndexError on an empty table). */
  function ValidPresets(values: seq<string>, validate: seq<string>): Result<seq<string>>
  {
    var kept := Filter(values, validate);
    if kept != [] then Ok(kept)
    else if validate == [] then Err(IndexError)
    else Ok([validate[0]])
  }

  /** The loop of `validate_video_pt`. */
  method ValidateVideoPt(values: seq<string>, validate: seq<string>) returns (r: Result<seq<string>>)
    ensures r == ValidPresets(values, validate)
  {
    var result: seq<string> := [];
    for i := 0 to |values|
      invariant result == Filter(values[..i], validate)
    {
      assert values[..i + 1][..i] == values[..i];
      if values[i] in validate {
        result := result + [values[i]];
      }
    }
    assert values[..|values|] == values;
    if result == [] {
      if validate == [] {
        return Err(IndexError);
      }
      return Ok([validate[0]]);
    }
    r := Ok(result);
  }

  /** The filter keeps each accepted value as often as it occurs and drops
      every other value. */
  lemma {:induction false} FilterCounts(values: seq<string>, validate: seq<string>, v: string)
    ensures multiset(Filter(values, validate))[v] == if v in validate then multiset(values)[v] else 0
    decreases |values|
  {
    if values != [] {
      var init := values[..|values| - 1];
      FilterCounts(init, validate, v);
      assert values == init + [values[|values| - 1]];
    }
  }

  /** Filtering two lists one after the other keeps the order of each. */
  lemma {:induction false} FilterAppend(a: seq<string>, b: seq<string>, validate: seq<string>)
    ensures Filter(a + b, validate) == Filter(a, validate) + Filter(b, validate)
    decreases |b|
  {
    if b == [] {
      assert a + b == a;
    } else {
      var b' := b[..|b| - 1];
      FilterAppend(a, b', validate);
      assert (a + b)[..|a + b| - 1] == a + b';
      assert (a + b)[|a + b| - 1] == b[|b| - 1];
    }
  }

  /** When every value is accepted the list comes back unchanged. */
  lemma {:induction false} FilterAllAccepted(values: seq<string>, validate: seq<string>)
    requires forall i :: 0 <= i < |values| ==> values[i] in validate
    ensures Filter(values, validate) == values
    decreases |values|
  {
    if values != [] {
      FilterAllAccepted(values[..|values| - 1], validate);
      assert values == values[..|values| - 1] + [values[|values| - 1]];
    }
  }

  /** A successful check is never empty and holds only table entries; it
      fails exactly when nothing is accepted and the table is empty. */
  lemma ValidPresetsShape(values: seq<string>, validate: seq<string>)
    ensures var r := ValidPresets(values, validate);
            && (r.Err? <==> validate == [] && forall i :: 0 <= i < |values| ==> values[i] !in validate)
            && (r.Ok? ==> r.value != [] && forall x :: x in r.value ==> x in validate)
            && ((forall i :: 0 <= i < |values| ==> values[i] !in validate) && validate != [] ==>
                  r == Ok([validate[0]]))
  {
    forall x ensures x in Filter(values, validate) <==> x in validate && x in values {
      FilterCounts(values, validate, x);
    }
    if forall i :: 0 <= i < |values| ==> values[i] !in validate {
      FilterNone(values, validate);
    }
  }

  lemma {:induction false} FilterNone(values: seq<string>, validate: seq<string>)
    requires forall i :: 0 <= i < |values| ==> values[i] !in validate
    ensures Filter(values, validate) == []
    decreases |values|
  {
    if values != [] {
      var init := values[..|values| - 1];
      assert forall i :: 0 <= i < |init| ==> init[i] == values[i];
      FilterNone(init, validate);
    }
  }

  // ---------------------------------------------------------------------------
  // The list of codec entries
  // ---------------------------------------------------------------------------

  /** The encode functions of the entries. */
  datatype Encoder = RustJson | Webp | J2000 | H264 | H265 | Mpeg2 | Mpeg4 | Vp9 | Avif

  /** A `partial(base_compress, ...)`: the quality range, the sampling,
      preset and tune lists, and the encode function. JPEG samplings and
      quantize tables are kept by name. */
  datatype Entry = Entry(quality: seq<int>, sampling: seq<string>, preset: seq<string>, tune: seq<string>,
                         encoder: Encoder)

  /** `TargetCompress` after validation: a range per algorithm. */
  datatype TargetCompress = TargetCompress(jpeg: seq<int>, webp: seq<int>, h264: seq<int>, hevc: seq<int>,
                                           mpeg2: seq<int>, mpeg4: seq<int>, vp9: seq<int>, avif: seq<int>,
                                           j2000: seq<int>, bd: seq<int>)

  /** The fields of `CompressOptions` the node reads. */
  datatype CompressOptions = CompressOptions(algorithm: seq<string>, samplings: seq<string>,
                                             ffmpegSamplings: seq<string>, quantizeTable: seq<string>,
                                             target: TargetCompress, preset: seq<string>, tune: seq<string>,
                                             probability: real, seed: Option<int>)

  /** The encoder the source gives each algorithm: "hevc" uses h264_encode. */
  function AsWrittenEncoderOf(alg: string): Option<Encoder>
  {
    match alg
    case "jpeg" => Some(RustJson)
    case "webp" => Some(Webp)
    case "j2000" => Some(J2000)
    case "h264" => Some(H264)
    case "hevc" => Some(H264)
    case "mpeg2" => Some(Mpeg2)
    case "mpeg4" => Some(Mpeg4)
    case "vp9" => Some(Vp9)
    case "avif" => Some(Avif)
    case _ => None
  }

  /** The encoder each algorithm evidently calls for: "hevc" gets h265_encode,
      the libx265 encoder its pixel-format, preset and tune tables are for. */
  function EncoderOf(alg: string): Option<Encoder>
  {
    if alg == "hevc" then Some(H265) else AsWrittenEncoderOf(alg)
  }

  /** As written, two algorithms share the H.264 encoder. */
  lemma HevcEncodedAsH264()
    ensures AsWrittenEncoderOf("hevc") == AsWrittenEncoderOf("h264") == Some(H264)
  {
  }

  /** With the H.265 encoder for "hevc", each algorithm has an encoder of its
      own: different algorithms never share one. */
  lemma EncodersDistinct(a: string, b: string)
    requires EncoderOf(a).Some? && EncoderOf(a) == EncoderOf(b)
    ensures a == b
  {
  }

  /** One arm of the `match alg` in `Compress.__init__`: the entry for `alg`,
      or nothing for "bd" and any other name. */
  function EntryOf(alg: string, opts: CompressOptions): (r: Option<Entry>)
    ensures r.Some? <==> EncoderOf(alg).Some?
    ensures r.Some? ==> r.value.encoder == EncoderOf(alg).value
  {
    var t := opts.target;
    match alg
    case "jpeg" => Some(Entry(t.jpeg, opts.samplings, opts.quantizeTable, [], RustJson))
    case "webp" => Some(Entry(t.webp, [], [], [], Webp))
    case "j2000" => Some(Entry(t.j2000, [], [], [], J2000))
    case "h264" => Some(Entry(t.h264, Samplings(opts.ffmpegSamplings, H264SPF), Presets(opts.preset, H264Preset),
                              Presets(opts.tune, H264Tune), H264))
    case "hevc" => Some(Entry(t.hevc, Samplings(opts.ffmpegSamplings, H265SPF), Presets(opts.preset, H265Preset),
                              Presets(opts.tune, H265Tune), H265))
    case "mpeg2" => Some(Entry(t.mpeg2, Samplings(opts.ffmpegSamplings, MPEG2SPF), [], [], Mpeg2))
    case "mpeg4" => Some(Entry(t.mpeg4, Samplings(opts.ffmpegSamplings, MPEG4SPF), [], [], Mpeg4))
    case "vp9" => Some(Entry(t.vp9, Samplings(opts.ffmpegSamplings, VP9SPF), Presets(opts.preset, VP9Preset),
                             Presets(opts.tune, VP9Tune), Vp9))
    case "avif" => Some(Entry(t.avif, Samplings(opts.ffmpegSamplings, AVIFSPF), [], [], Avif))
    case _ => None
  }

  /** The sampling check against a non-empty table, which cannot fail. */
  function Samplings(samplings: seq<string>, validate: seq<string>): (r: seq<string>)
    requires validate != []
    ensures ValidSamplings(samplings, validate) == Ok(r)
  {
    ValidSamplings(samplings, validate).value
  }

  /** The preset or tune check against a non-empty table. */
  function Presets(values: seq<string>, validate: seq<string>): (r: seq<string>)
    requires validate != []
    ensures ValidPresets(values, validate) == Ok(r)
  {
    ValidPresets(values, validate).value
  }

  /** `self.compress_list` for a list of algorithms: one entry per algorithm
      that has an arm, in order. */
  function CompressListOf(algs: seq<string>, opts: CompressOptions): seq<Entry>
  {
    if algs == [] then []
    else
      var init := CompressListOf(algs[..|algs| - 1], opts);
      match EntryOf(algs[|algs| - 1], opts)
      case Some(e) => init + [e]
      case None => init
  }

  /** The loop of `Compress.__init__`, appending to `compress_list`. */
  method BuildCompressList(opts: CompressOptions) returns (list: seq<Entry>)
    ensures list == CompressListOf(opts.algorithm, opts)
  {
    list := [];
    var algs := opts.algorithm;
    for i := 0 to |algs|
      invariant list == CompressListOf(algs[..i], opts)
    {
      assert algs[..i + 1][..i] == algs[..i];
      var e := EntryOf(algs[i], opts);
      if e.Some? {
        list := list + [e.value];
      }
    }
    assert algs[..|algs|] == algs;
  }

  /** The list is the concatenation of the lists of its parts: entries follow
      the order of the algorithms. */
  lemma {:induction false} CompressListAppend(a: seq<string>, b: seq<string>, opts: CompressOptions)
    ensures CompressListOf(a + b, opts) == CompressListOf(a, opts) + CompressListOf(b, opts)
    decreases |b|
  {
    if b == [] {
      assert a + b == a;
    } else {
      var b' := b[..|b| - 1];
      CompressListAppend(a, b', opts);
      assert (a + b)[..|a + b| - 1] == a + b';
      assert (a + b)[|a + b| - 1] == b[|b| - 1];
    }
  }

  /** One entry per algorithm with an arm, none for "bd": the list is empty
      exactly when no listed algorithm has an arm. */
  lemma {:induction false} CompressListSize(algs: seq<string>, opts: CompressOptions)
    ensures |CompressListOf(algs, opts)| <= |algs|
    ensures CompressListOf(algs, opts) == [] <==> forall i :: 0 <= i < |algs| ==> EncoderOf(algs[i]).None?
    ensures CompressListOf(["bd"], opts) == []
    decreases |algs|
  {
    if algs != [] {
      var init := algs[..|algs| - 1];
      CompressListSize(init, opts);
      forall i | 0 <= i < |init| ensures init[i] == algs[i] { }
    }
  }

  /** Every video entry carries a non-empty sampling list of well-formed
      `"<format>_<scaler>"` names from its codec's table, and, where the
      codec takes them, non-empty preset and tune lists from its tables. */
  lemma VideoEntryShape(alg: string, opts: CompressOptions, spf: seq<string>)
    requires alg in {"h264", "hevc", "mpeg2", "mpeg4", "vp9", "avif"}
    requires spf == match alg
                    case "h264" => H264SPF
                    case "hevc" => H265SPF
                    case "mpeg2" => MPEG2SPF
                    case "mpeg4" => MPEG4SPF
                    case "vp9" => VP9SPF
                    case _ => AVIFSPF
    ensures var e := EntryOf(alg, opts).value;
            && e.sampling != []
            && (forall s :: s in e.sampling ==> var p := Split(s, '_'); |p| == 2 && p[0] in spf && InterpName(p[1]))
            && (alg in {"h264", "hevc", "vp9"} ==> e.preset != [] && e.tune != [])
  {
    FormatTablesStart();
    ValidSamplingsShape(opts.ffmpegSamplings, spf);
    if alg == "h264" {
      ValidPresetsShape(opts.preset, H264Preset);
      ValidPresetsShape(opts.tune, H264Tune);
    } else if alg == "hevc" {
      ValidPresetsShape(opts.preset, H265Preset);
      ValidPresetsShape(opts.tune, H265Tune);
    } else if alg == "vp9" {
      ValidPresetsShape(opts.preset, VP9Preset);
      ValidPresetsShape(opts.tune, VP9Tune);
    }
  }

  // ---------------------------------------------------------------------------
  // base_compress and forward
  // ---------------------------------------------------------------------------

  /** An encode function, from the image, the quality and the entry's lists,
      drawing from the stream at `pos`: the decoded image and the draws
      taken. The codec work itself is not part of this model. */
  type Codec = (Encoder, Image, int, seq<string>, seq<string>, seq<string>, Stream, nat) -> Result<(Image, nat)>

  /** `base_compress`: one `safe_randint` on the entry's quality range, then
      the encoder with that quality. */
  function BaseCompressOf(entry: Entry, img: Image, codec: Codec, stream: Stream, pos: nat): (r: Result<(Image, nat)>)
    ensures entry.quality == [] ==> r == Err(IndexError)
  {
    match DrawInt(entry.quality, stream, pos)
    case Err(e) => Err(e)
    case Ok((q, d)) =>
      match codec(entry.encoder, img, q, entry.sampling, entry.preset, entry.tune, stream, pos + d)
      case Err(e) => Err(e)
      case Ok((out, n)) => Ok((out, d + n))
  }

  /** On a proper range `[lo, hi]` the encoder gets a quality in [lo, hi),
      taken by exactly one draw before its own; otherwise it gets `lo` and
      the draw position is unchanged. */
  lemma BaseCompressQuality(entry: Entry, img: Image, codec: Codec, stream: Stream, pos: nat)
    requires |entry.quality| == 2
    ensures var lo, hi := entry.quality[0], entry.quality[1];
            var q := if lo < hi then lo + BelowOf(stream(pos), hi - lo) else lo;
            var d := if lo < hi then 1 else 0;
            && lo <= q && (lo < hi ==> q < hi)
            && BaseCompressOf(entry, img, codec, stream, pos) ==
                 match codec(entry.encoder, img, q, entry.sampling, entry.preset, entry.tune, stream, pos + d)
                 case Err(e) => Err(e)
                 case Ok((out, n)) => Ok((out, d + n))
  {
  }

  /** `Compress.forward` on values: one `choice` among the entries, then that
      entry on the clipped lq buffer; hq is passed through. */
  function CompressEffect(list: seq<Entry>, codec: Codec, bufs: Buffers, stream: Stream, pos: nat): (r: Result<Effect>)
    ensures list == [] ==> r == Err(ValueError)
    ensures r.Ok? ==> r.value.out.hq == bufs.hq && r.value.draws >= 1
    ensures r.Ok? ==> var e := list[BelowOf(stream(pos), |list|)];
                      BaseCompressOf(e, Clip(bufs.lq), codec, stream, pos + 1) == Ok((r.value.out.lq, r.value.draws - 1))
  {
    if list == [] then Err(ValueError)
    else
      var e := list[BelowOf(stream(pos), |list|)];
      match BaseCompressOf(e, Clip(bufs.lq), codec, stream, pos + 1)
      case Err(x) => Err(x)
      case Ok((out, n)) => Ok(Effect(Buffers(out, bufs.hq), 1 + n))
  }

  /** The node body as the pipeline calls it. */
  function CompressForward(list: seq<Entry>, codec: Codec): Forward
  {
    (bufs: Buffers, stream: Stream, pos: nat) => CompressEffect(list, codec, bufs, stream, pos)
  }

  /** A node whose algorithms are all "bd" (or none) has no entries, and its
      body always raises ValueError from `choice`. */
  lemma AllBdFails(opts: CompressOptions, codec: Codec, bufs: Buffers, stream: Stream, pos: nat)
    requires forall i :: 0 <= i < |opts.algorithm| ==> opts.algorithm[i] == "bd"
    ensures CompressEffect(CompressListOf(opts.algorithm, opts), codec, bufs, stream, pos) == Err(ValueError)
  {
    CompressListSize(opts.algorithm, opts);
  }

  /** `Compress.forward` on the state: `lq` is replaced by the chosen entry's
      result, `hq` is untouched, and the state's generator advances by the
      draws taken. */
  method Forward(list: seq<Entry>, codec: Codec, state: LQHQState) returns (r: Result<()>)
    modifies state, state.rng.gen
    ensures state.rng == old(state.rng) && state.hq == old(state.hq)
    ensures var e := CompressEffect(list, codec, Buffers(old(state.lq), old(state.hq)), state.rng.gen.stream,
                                    old(state.rng.gen.pos));
            && (r.Ok? <==> e.Ok?)
            && (e.Err? ==> r == Err(e.error))
            && (e.Ok? ==> state.lq == e.value.out.lq && state.rng.gen.pos == old(state.rng.gen.pos) + e.value.draws)
  {
    var gen := state.rng.gen;
    var entry := gen.Choice(list);
    if entry.Err? {
      return Err(entry.error);
    }
    var quality := state.rng.SafeRandint(List(entry.value.quality));
    if quality.Err? {
      return Err(quality.error);
    }
    var q := quality.value.value;
    var coded := codec(entry.value.encoder, Clip(state.lq), q, entry.value.sampling, entry.value.preset,
                       entry.value.tune, gen.stream, gen.pos);
    if coded.Err? {
      return Err(coded.error);
    }
    gen.Skip(coded.value.1);
    state.lq := coded.value.0;
    r := Ok(());
  }
}
