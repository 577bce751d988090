/** pepedd/core/pipeline/schema.py: the pipeline's options, their defaults,
    and the after-validator that settles `map_type` and `seed`. */
module Schema {

  import opened Wrappers

  const Two64: nat := 0x1_0000_0000_0000_0000

  /** `secrets.randbits(64)`: a value in [0, 2^64). */
  type Bits64 = x: nat | x < Two64

  const DebugSeed: int := 1234

  /** `Degradation`: a registered node type and its options, which this model
      passes through uninterpreted. */
  datatype Degradation = Degradation(kind: string, options: string)

  /** `TileOptions`. */
  datatype TileOptions = TileOptions(size: int := 512, noWb: bool := true)

  /** The values of the `map_type` Literal. */
  const MapTypes: set<string> := {"simple", "thread", "process"}

  /** `PipelineOptions` after validation. `map_type` is a Literal: building
      the model with any other value raises pydantic's ValidationError (a
      ValueError), so the constructor demands one of the three. The field is
      still text because a later assignment is not validated, which is why
      the pipeline's dispatch keeps its unknown-strategy branch. */
  class PipelineOptions {
    var input: string
    var output: string
    var mapType: string
    var degradation: seq<Degradation>
    var numWorkers: Option<int>
    var tile: Option<TileOptions>
    var datasetSize: Option<int>
    var shuffleDataset: bool
    var gray: bool
    var debug: bool
    var onlyLq: bool
    var realName: bool
    var outputClear: bool
    var seed: Option<int>

    /** Construction with the source's defaults, followed by the validator;
        `entropy` is what `secrets.randbits(64)` would return. */
    constructor (degradation: seq<Degradation>, entropy: Bits64,
                 input: string := "input", output: string := "output", mapType: string := "thread",
                 numWorkers: Option<int> := None, tile: Option<TileOptions> := None,
                 datasetSize: Option<int> := None, shuffleDataset: bool := true, gray: bool := false,
                 debug: bool := false, onlyLq: bool := false, realName: bool := false,
                 outputClear: bool := true, seed: Option<int> := None)
      requires mapType in MapTypes
      ensures this.input == input && this.output == output && this.degradation == degradation
      ensures this.numWorkers == numWorkers && this.tile == tile && this.datasetSize == datasetSize
      ensures this.shuffleDataset == shuffleDataset && this.gray == gray && this.debug == debug
      ensures this.onlyLq == onlyLq && this.realName == realName && this.outputClear == outputClear
      ensures this.mapType == (if debug then "simple" else mapType)
      ensures this.seed == Some(SettledSeed(debug, seed, entropy))
    {
      this.input := input;
      this.output := output;
      this.mapType := mapType;
      this.degradation := degradation;
      this.numWorkers := numWorkers;
      this.tile := tile;
      this.datasetSize := datasetSize;
      this.shuffleDataset := shuffleDataset;
      this.gray := gray;
      this.debug := debug;
      this.onlyLq := onlyLq;
      this.realName := realName;
      this.outputClear := outputClear;
      this.seed := seed;
      new;
      ApplyDebugAndSeed(entropy);
    }

    /** `apply_debug_and_seed`: debug forces sequential processing; a missing
        seed becomes 1234 under debug and a fresh 64-bit value otherwise; a
        given seed is kept. Nothing else changes. */
    method ApplyDebugAndSeed(entropy: Bits64)
      modifies this
      ensures mapType == (if old(debug) then "simple" else old(mapType))
      ensures seed == Some(SettledSeed(old(debug), old(seed), entropy))
      ensures input == old(input) && output == old(output) && degradation == old(degradation)
      ensures numWorkers == old(numWorkers) && tile == old(tile) && datasetSize == old(datasetSize)
      ensures shuffleDataset == old(shuffleDataset) && gray == old(gray) && debug == old(debug)
      ensures onlyLq == old(onlyLq) && realName == old(realName) && outputClear == old(outputClear)
    {
      if debug {
        mapType := "simple";
        if seed.None? {
          seed := Some(DebugSeed);
        }
      }
      if seed.None? {
        seed := Some(entropy);
      }
    }
  }

  /** The seed the validator settles on. */
  function SettledSeed(debug: bool, seed: Option<int>, entropy: Bits64): (s: int)
    ensures seed.Some? ==> s == seed.value
    ensures seed.None? && debug ==> s == DebugSeed
    ensures seed.None? && !debug ==> 0 <= s < Two64
  {
    if seed.Some? then seed.value else if debug then DebugSeed else entropy
  }

  /** The defaults the source declares. */
  method Defaults(degradation: seq<Degradation>, entropy: Bits64) returns (o: PipelineOptions, t: TileOptions)
    ensures o.mapType == "thread" && o.shuffleDataset && o.outputClear && !o.debug && !o.onlyLq
    ensures o.input == "input" && o.output == "output" && o.seed == Some(entropy as int)
    ensures t.size == 512 && t.noWb
  {
    o := new PipelineOptions(degradation, entropy);
    t := TileOptions();
  }
}
