/** Image buffers as the orchestration layer sees them. The source works on
    float32 arrays with samples in [0, 1]; here a sample is an integer on the
    scale 0 (black) .. MaxSample (white), so "the mean is exactly 0.0 / 1.0"
    becomes an exact statement about integer sums. One sample per pixel. */
module Images {

  const MaxSample: nat := 255

  /** Rows of samples. */
  type Image = seq<seq<int>>

  /** `img.shape[1]`, taken from the first row (0 for an image without rows). */
  function Width(img: Image): nat { if |img| == 0 then 0 else |img[0]| }

  predicate InRange(x: int) { 0 <= x <= MaxSample }

  predicate RowInRange(row: seq<int>) { forall j :: 0 <= j < |row| ==> InRange(row[j]) }

  predicate ImageInRange(img: Image) { forall i :: 0 <= i < |img| ==> RowInRange(img[i]) }

  /** `x.clip(0, 1)` on one sample. */
  function ClipSample(x: int): (y: int)
    ensures InRange(y)
    ensures InRange(x) ==> y == x
    ensures x < 0 ==> y == 0
    ensures x > MaxSample ==> y == MaxSample
  {
    if x < 0 then 0 else if x > MaxSample then MaxSample else x
  }

  /** `img.clip(0, 1)`: same shape, every sample brought into range, samples
      already in range kept. */
  function Clip(img: Image): (r: Image)
    ensures |r| == |img| && ImageInRange(r)
    ensures forall i :: 0 <= i < |img| ==> |r[i]| == |img[i]|
    ensures forall i, j :: 0 <= i < |img| && 0 <= j < |img[i]| ==> r[i][j] == ClipSample(img[i][j])
  {
    seq(|img|, i requires 0 <= i < |img| => seq(|img[i]|, j requires 0 <= j < |img[i]| => ClipSample(img[i][j])))
  }

  function RowSum(row: seq<int>): int
  {
    if row == [] then 0 else RowSum(row[..|row| - 1]) + row[|row| - 1]
  }

  function Sum(img: Image): int
  {
    if img == [] then 0 else Sum(img[..|img| - 1]) + RowSum(img[|img| - 1])
  }

  function Count(img: Image): nat
  {
    if img == [] then 0 else Count(img[..|img| - 1]) + |img[|img| - 1]|
  }

  /** `np.mean(img) == 0.0 or np.mean(img) == 1.0`. The mean of an empty
      buffer is NaN, which equals neither. */
  predicate MeanIsBlackOrWhite(img: Image)
  {
    Count(img) > 0 && (Sum(img) == 0 || Sum(img) == MaxSample * Count(img))
  }

  lemma {:induction false} RowSumBounds(row: seq<int>)
    requires RowInRange(row)
    ensures 0 <= RowSum(row) <= MaxSample * |row|
    ensures RowSum(row) == 0 <==> forall j :: 0 <= j < |row| ==> row[j] == 0
    ensures RowSum(row) == MaxSample * |row| <==> forall j :: 0 <= j < |row| ==> row[j] == MaxSample
    decreases |row|
  {
    if row != [] {
      var init := row[..|row| - 1];
      assert RowInRange(init) by {
        forall j | 0 <= j < |init| ensures InRange(init[j]) { assert init[j] == row[j]; }
      }
      RowSumBounds(init);
      assert forall j :: 0 <= j < |init| ==> init[j] == row[j];
    }
  }

  lemma {:induction false} SumBounds(img: Image)
    requires ImageInRange(img)
    ensures 0 <= Sum(img) <= MaxSample * Count(img)
    ensures Sum(img) == 0 <==> forall i, j :: 0 <= i < |img| && 0 <= j < |img[i]| ==> img[i][j] == 0
    ensures Sum(img) == MaxSample * Count(img) <==>
              forall i, j :: 0 <= i < |img| && 0 <= j < |img[i]| ==> img[i][j] == MaxSample
    decreases |img|
  {
    if img != [] {
      var init := img[..|img| - 1];
      var last := img[|img| - 1];
      assert ImageInRange(init) by {
        forall i | 0 <= i < |init| ensures RowInRange(init[i]) { assert init[i] == img[i]; }
      }
      SumBounds(init);
      RowSumBounds(last);
      assert forall i :: 0 <= i < |init| ==> init[i] == img[i];
    }
  }

  /** For an image whose samples are in range, the tile check fires exactly
      when there is at least one sample and every sample is black, or every
      sample is white. */
  lemma BlackOrWhiteMeaning(img: Image)
    requires ImageInRange(img)
    ensures MeanIsBlackOrWhite(img) <==>
      Count(img) > 0 &&
      ((forall i, j :: 0 <= i < |img| && 0 <= j < |img[i]| ==> img[i][j] == 0) ||
       (forall i, j :: 0 <= i < |img| && 0 <= j < |img[i]| ==> img[i][j] == MaxSample))
  {
    SumBounds(img);
  }
}
