/** The legacy helpers of src/utils.py: the skip gate `probability` and the
    grayscale pass-through of `img2gray`. */
module LegacyUtils {

  import opened Wrappers
  import opened Rng
  import opened Nodes

  /** `probability(prob)`, with `u` the global uniform draw it takes: the
      answer is "skip", so it is the negation of the node gate. */
  function Probability(prob: real, u: Unit): (skip: bool)
    ensures prob >= 1.0 ==> !skip
    ensures prob <= 0.0 ==> skip
    ensures skip <==> !Gate(prob, u)
  {
    !(prob > UniformOf(u, 0.0, 1.0))
  }

  /** An n-dimensional array: its shape and its samples. */
  datatype NdArray = NdArray(shape: seq<nat>, samples: seq<int>)

  /** `cvt_color(img, CvtType.RGB2GrayBt2020)`, outside this model: the
      converted array, or what the library raised. */
  type Converter = NdArray -> Result<NdArray>

  /** Whether `img2gray` leaves an array as it is: two dimensions, or a single
      channel. */
  predicate IsGray(img: NdArray)
  {
    |img.shape| == 2 || (|img.shape| > 2 && img.shape[2] == 1)
  }

  /** `img2gray`: a 2-D or single-channel array is returned unchanged, any
      other array with a channel axis is converted (and fails when the
      converter raises); an array with fewer than two dimensions reaches
      `img.shape[2]` and raises IndexError. */
  function Img2Gray(img: NdArray, cvt: Converter): (r: Result<NdArray>)
    ensures IsGray(img) ==> r == Ok(img)
    ensures |img.shape| > 2 && !IsGray(img) ==> r == cvt(img)
    ensures |img.shape| < 2 ==> r == Err(IndexError)
    ensures r.Err? ==> |img.shape| < 2 || (!IsGray(img) && cvt(img).Err?)
  {
    if |img.shape| != 2 then
      if |img.shape| <= 2 then Err(IndexError)
      else if img.shape[2] != 1 then cvt(img)
      else Ok(img)
    else Ok(img)
  }

  /** The shape of `lq_hq2grays` for any representation of images, with
      `toGray` its `img2gray`: each image converted on its own, `lq` first,
      and the first conversion that raises decides the exception. */
  function BothGray<T>(lq: T, hq: T, toGray: T -> Result<T>): (r: Result<(T, T)>)
    ensures r.Ok? <==> toGray(lq).Ok? && toGray(hq).Ok?
    ensures r.Ok? ==> r.value == (toGray(lq).value, toGray(hq).value)
    ensures toGray(lq).Err? ==> r == Err(toGray(lq).error)
    ensures toGray(lq).Ok? && toGray(hq).Err? ==> r == Err(toGray(hq).error)
  {
    match toGray(lq)
    case Err(e) => Err(e)
    case Ok(l) =>
      match toGray(hq)
      case Err(e) => Err(e)
      case Ok(h) => Ok((l, h))
  }

  /** `lq_hq2grays`: each image converted on its own, `lq` first; a failure
      is img2gray's IndexError or an exception of the converter. */
  function LqHq2Grays(lq: NdArray, hq: NdArray, cvt: Converter): (r: Result<(NdArray, NdArray)>)
    ensures r.Ok? <==> Img2Gray(lq, cvt).Ok? && Img2Gray(hq, cvt).Ok?
    ensures r.Ok? ==> r.value == (Img2Gray(lq, cvt).value, Img2Gray(hq, cvt).value)
    ensures r.Err? ==> r.error == IndexError
                       || (cvt(lq).Err? && r.error == cvt(lq).error)
                       || (cvt(hq).Err? && r.error == cvt(hq).error)
  {
    BothGray(lq, hq, (x: NdArray) => Img2Gray(x, cvt))
  }

  /** With a converter that never raises, the only exception is IndexError. */
  lemma TotalConverterRaisesIndexError(lq: NdArray, hq: NdArray, cvt: Converter)
    requires forall x :: cvt(x).Ok?
    ensures LqHq2Grays(lq, hq, cvt).Err? ==> LqHq2Grays(lq, hq, cvt).error == IndexError
  {
  }

  /** With a converter that yields gray arrays, converting twice is converting
      once. */
  lemma GrayIdempotent(img: NdArray, cvt: Converter)
    requires cvt(img).Ok? && IsGray(cvt(img).value)
    ensures Img2Gray(img, cvt).Ok? ==> Img2Gray(Img2Gray(img, cvt).value, cvt) == Img2Gray(img, cvt)
  {
  }
}
