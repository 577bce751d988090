# pepedd dataset degrader: a Dafny model of its orchestration core

wtp_dataset_destroyer builds training pairs for image restoration. A high-quality
image (hq) is copied into a low-quality buffer (lq), and a configured chain of
degradation nodes (resize, compress, blur, dither, ...) damages that buffer.
The results are saved as `lq/<name>.png` and `hq/<name>.png`.

This project models what decides *which* work happens and *where* it lands.
The pixel arithmetic is not modelled. The modelled parts are:

- **The random source.** A numpy generator is a stream of unit draws with a
  read position. `SafeRNG` guards degenerate ranges. Each node gates its body
  on one uniform draw. A node with a fixed seed swaps in a generator of its own.
- **The current pipeline** (`pepedd/core`):
  - the catalogue of units: truncation, seeded shuffle, zero-padded or stem
    names;
  - the `mix_seed` message, which seeds each unit and tile;
  - the output tree and the two savers;
  - folding the node chain over one image or its tiles;
  - dispatch on the `simple` / `thread` / `process` strategies and their
    error behaviour;
  - the options validator that settles `map_type` and `seed`;
  - the decorator registry.
- **Two nodes in full orchestration detail:**
  - `Resize`: the size bookkeeping of `adjust_number`, the name dispatch of
    `get_resize`, the draws and early returns of each resampler, and
    `forward`;
  - `Compress`: the pixel-format / preset / tune checks, the entry list, the
    quality draw, and `forward`.
- **The option validators** of the compress, dithering and blur models, in both
  copies:
  - the `pepedd-nodes` copy fills the incoming keyword dict in place;
  - the `pepedd` copy fills the validated model.
- **The resize name tables and the resize name check.**
- **The legacy `src` pipeline:**
  - `ImgProcess`: catalogue, chain through `get_class`, whole-image and tiled
    processing, with each image's exceptions swallowed;
  - the `and` / `or` operators;
  - the `probability` gate, `img2gray`, and the two `safe_arange` helpers.
- **`destroyer.py`'s configuration fixer:** it turns `"${5}"`-style HCL
  interpolations into numbers throughout a parsed configuration.

Objects the source updates in place are Dafny classes:

- the state (`LQHQState`) and the generators;
- a node, the pipeline and `ImgProcess`;
- the registry, the keyword dict of a validator and a validated options model;
- the file system, kept as a log of events.

Each method is proved against a function on values, and the properties are
proved about those functions. External effects are parameters: pixel kernels,
codecs, readers, BLAKE2b and the numpy bit generator.

## Model

| member | source | states |
|---|---|---|
| Rng.UniformOf | pepedd-core/pepedd/core/objects/safe_rng.py:13 | a uniform draw on a proper range lies in [lo, hi) |
| Rng.BelowOf | pepedd-core/pepedd/core/objects/safe_rng.py:20 | an integer draw from n choices is below n |
| Rng.Classify | pepedd-core/pepedd/core/objects/safe_rng.py:9-12 | a non-list passes through; the empty list fails with IndexError; one element or lo >= hi gives the first element; only a proper range draws, from [items[0], items[1]) |
| Rng.SafeUniformOf | src/utils/random.py:5-12 | legacy `safe_uniform`: a non-list (a tuple too) is returned as is; the empty list raises IndexError; one element or lo >= hi gives the first; otherwise a value in [lo, hi) |
| Rng.SafeRandintOf | src/utils/random.py:15-22 | legacy `safe_randint`: the same cases, with an integer in [lo, hi) |
| Rng.DrawInt | pepedd-core/pepedd/core/objects/safe_rng.py:15-20 | `safe_randint` on a list fails exactly on the empty list, agrees with SafeRandintOf, and takes one draw exactly for a proper range |
| Rng.Swap | pepedd/core/pipeline/pipeline.py:99 | one shuffle step exchanges two positions and keeps every other one |
| Rng.SwapPermutes | pepedd/core/pipeline/pipeline.py:99 | a swap keeps the multiset of elements |
| Rng.ShuffleStepsPermutes | pepedd/core/pipeline/pipeline.py:99 | the Fisher-Yates steps keep length and multiset |
| Rng.ShufflePermutes | pepedd/core/pipeline/pipeline.py:99 | a shuffle only reorders: same length, same multiset |
| Rng.Generator.constructor | pepedd-core/pepedd/core/objects/safe_rng.py:6 | a fresh generator reads its seeded stream from position 0 |
| Rng.Generator.Uniform | pepedd/core/objects/node_base.py:17 | `uniform(lo, hi)` consumes exactly one draw and returns UniformOf of it |
| Rng.Generator.Skip | pepedd/core/objects/node_base.py:18 | draws taken by an unmodelled body advance the position and change nothing else |
| Rng.Generator.Integers | pepedd-core/pepedd/core/objects/safe_rng.py:20 | `integers(lo, hi)` consumes one draw and returns a value in [lo, hi) |
| Rng.Generator.Choice | pepedd/nodes/resize/resize.py:202 | `choice` on an empty population raises ValueError without drawing; otherwise one draw picks an element |
| Rng.Generator.Shuffle | pepedd/core/pipeline/pipeline.py:98-99 | the in-place array shuffle leaves exactly Shuffled(old contents) and takes n-1 draws |
| Rng.SafeRng.constructor | pepedd-core/pepedd/core/objects/safe_rng.py:5-6 | `SafeRNG(seed)` holds a fresh generator on the stream of that seed |
| Rng.SafeRng.SafeUniform | pepedd-core/pepedd/core/objects/safe_rng.py:8-13 | result equals SafeUniformOf; the generator advances by one exactly for a proper range, otherwise not at all |
| Rng.SafeRng.SafeRandint | pepedd-core/pepedd/core/objects/safe_rng.py:15-20 | result equals SafeRandintOf; the generator advances by one exactly for a proper range |
| Rng.CallStepMeaning | pepedd-core/pepedd/core/objects/safe_rng.py:8-23 | one call on a SafeRNG (a `safe_*` helper or a delegated `uniform`, `integers`, `choice`, `shuffle`): results within their ranges, ValueError without a draw for `integers` with lo >= hi and for `choice` of nothing, a shuffle is a permutation, and each call's draw count |
| Rng.Replay | pepedd-core/pepedd/core/objects/safe_rng.py:4-23 | one answer per call, and the generator never moves back |
| Rng.ReplayAppend | pepedd-core/pepedd/core/objects/safe_rng.py:4-23 | replaying a + b is replaying a, then b from where a left the generator, for all call lists |
| Rng.MakeCall | pepedd-core/pepedd/core/objects/safe_rng.py:8-23 | a call made through the SafeRNG's methods answers and advances as CallStep |
| Rng.MakeCalls | pepedd-core/pepedd/core/objects/safe_rng.py:4-23 | the loop making the calls one after another on a SafeRNG gives Replay's answers and final position |
| Rng.SameSeedSameResults | pepedd-core/pepedd/core/objects/safe_rng.py:5-6 | two SafeRNGs built from one seed give identical answers to any call sequence, namely Replay from position 0 of that seed's stream |
| Nodes.LQHQState.constructor | pepedd/core/objects/lq_hq_state.py:6-10 | the state holds the given generator and buffers |
| Nodes.Gate | pepedd/core/objects/node_base.py:17-21 | probability >= 1 always runs the body; probability <= 0 never does |
| Nodes.Node.constructor | pepedd/core/objects/node_base.py:9-11 | a node keeps its body, probability (default 1.0) and seed (default None) |
| Nodes.Node.Call | pepedd/core/objects/node_base.py:13-23 | `__call__` behaves as CallOutcome. With a seed, the ambient generator is never drawn from and is restored when the body returns; an exception leaves the node's own generator in the state. Without a seed, a failing call has taken exactly its gate draw, since a modelled body fails atomically. |
| Nodes.Node.RunForward | pepedd/core/objects/node_base.py:18-22 | the body replaces the buffers and advances the generator by its draws; a raising body, atomic in this model, changes nothing |
| Nodes.FixedSeedIgnoresAmbient | pepedd/core/objects/node_base.py:14-19 | with a fixed seed, the decision and the buffers do not depend on the ambient generator, and its position is unchanged |
| Nodes.UnseededGate | pepedd/core/objects/node_base.py:20-22 | without a seed, one gate draw is taken and the body runs iff probability > draw; a skipped node returns the buffers untouched |
| Nodes.ProbabilityExtremes | pepedd/core/objects/node_base.py:17-21 | probability >= 1 always runs; probability <= 0 never runs and leaves the buffers as they were |
| Registry.Registry.constructor | pepedd/core/node_register.py:1 | the registry starts empty |
| Registry.Registry.RegisterClass | pepedd/core/node_register.py:16-28 | afterwards `classes[key] == cls`; every other entry is kept; no other key appears; the class is returned unchanged |
| Registry.Registry.Index | pepedd/core/pipeline/pipeline.py:126 | `registered_classes[key]` succeeds exactly for registered keys, and raises KeyError otherwise |
| Registry.Registry.GetClass | src/utils/registry.py:33-44 | `get_class` returns the registered class, or None for an unregistered key, never raising |
| Registry.RegisterThenLookup | src/utils/registry.py:27-44 | register-then-lookup returns the class; the second registration of a key wins; another key stays unregistered |
| PipelineUtils.DigitsCount | pepedd/core/pipeline/utils.py:29-32 | 1 for 0, otherwise the d with 10^(d-1) <= abs(n) < 10^d |
| PipelineUtils.DigitsCountIsLength | pepedd/core/pipeline/utils.py:29-32 | the digit count is the length of str(abs(n)) |
| PipelineUtils.MixedSeed | pepedd/core/pipeline/utils.py:45-53 | the seed read from an 8-byte digest is below 2^64 |
| PipelineUtils.MixSeed | pepedd/core/pipeline/utils.py:45-53 | the loop of `update` calls computes MixedSeed of the parts |
| PipelineUtils.Message | pepedd/core/pipeline/utils.py:47-52 | the bytes fed to the hasher: each part's bytes followed by `\|`; its properties are UnitMessageShape, TileMessageShape and the two injectivity lemmas |
| PipelineUtils.AsBytes | pepedd/core/pipeline/utils.py:48-51 | each part becomes the bytes `mix_seed` feeds for it |
| PipelineUtils.TextAndBytesAgree | pepedd/core/pipeline/utils.py:48-51 | a text part and a bytes part holding its UTF-8 encoding give the same message and seed |
| PipelineUtils.DecimalHasNoBar | pepedd/core/pipeline/utils.py:51-52 | the encoding of str(int) never contains the `\|` separator |
| PipelineUtils.UnitMessageShape | pepedd-core/pepedd/core/pipeline/process.py:24 | the message for (seed, path) is str(seed), `\|`, path, `\|` |
| PipelineUtils.TileMessageShape | pepedd-core/pepedd/core/pipeline/process.py:50 | the message for (seed, path, index) is those three texts, each followed by `\|` |
| PipelineUtils.UnitMessageInjective | pepedd-core/pepedd/core/pipeline/process.py:24 | different (seed, path) pairs hash different messages |
| PipelineUtils.TileMessageInjective | pepedd-core/pepedd/core/pipeline/process.py:50 | different (seed, path, index) triples hash different messages |
| PipelineUtils.SaveWrites | pepedd/core/pipeline/utils.py:11-26 | `save_lq` writes one file, `lq/<name>.png`; `save_hq_lq` writes that and then `hq/<name>.png`; every saved image is clipped into range |
| PipelineUtils.OutFile | pepedd/core/pipeline/utils.py:11-26 | `os.path.join(out_path, sub, f"{img_name}.png")`; its properties are SaveWrites and OutFilesDistinct |
| PipelineUtils.Disk.constructor | pepedd/core/pipeline/utils.py:56-58 | the file-system log starts empty |
| PipelineUtils.Disk.OutClear | pepedd/core/pipeline/utils.py:56-58 | `out_clear` appends one tree removal |
| PipelineUtils.Disk.MakeDirs | pepedd/core/pipeline/pipeline.py:120 | `makedirs` appends one creation |
| PipelineUtils.Disk.SaveUnit | pepedd/core/pipeline/utils.py:11-26 | a saver appends exactly SaveWrites |
| PipelineUtils.OutFilesDistinct | pepedd/core/pipeline/utils.py:21-25 | the lq and hq files of a unit differ, and two names give two lq files |
| Schema.PipelineOptions.constructor | pepedd/core/pipeline/schema.py:16-47 | construction demands a `map_type` among "simple", "thread" and "process" (the Literal; any other value raises before the pipeline does anything), keeps every given field, and then applies the validator to `map_type` and `seed` |
| Schema.PipelineOptions.ApplyDebugAndSeed | pepedd/core/pipeline/schema.py:37-47 | debug forces "simple"; a missing seed becomes 1234 under debug and the 64-bit entropy otherwise; every other field is unchanged |
| Schema.SettledSeed | pepedd/core/pipeline/schema.py:39-46 | a given seed is kept; otherwise 1234 under debug, or a value in [0, 2^64) |
| Schema.Defaults | pepedd/core/pipeline/schema.py:11-35 | the declared defaults: thread, shuffle on, clear on, debug off, input/output dirs, tile 512 with no_wb on |
| Process.ChainAppend | pepedd-core/pepedd/core/pipeline/process.py:10-13 | folding a + b is folding a, then b on its result; the first exception ends the chain |
| Process.ChainOne | pepedd-core/pepedd/core/pipeline/process.py:11-12 | a one-node chain is one node call |
| Process.NodeIterator | pepedd-core/pepedd/core/pipeline/process.py:10-13 | the loop leaves the buffers and generator position of Chain, or raises its exception |
| Process.StdProcess | pepedd-core/pepedd/core/pipeline/process.py:16-27 | appends exactly StdRun's writes, or raises its exception with nothing written |
| Process.StdRunWritesUnderName | pepedd-core/pepedd/core/pipeline/process.py:19-27 | a successful unit was in the catalogue, and its first write is `lq/<its name>.png` |
| Process.TileNamesDistinct | pepedd-core/pepedd/core/pipeline/process.py:45 | two tiles of one image never share a name |
| Process.TileProcess | pepedd-core/pepedd/core/pipeline/process.py:40-53 | the intended tile loop appends TileRun's writes and fails exactly when TileRun records a failure |
| Process.TileRunStops | pepedd-core/pepedd/core/pipeline/process.py:40-53 | once a tile has failed, later tiles change nothing |
| Process.TileRunNames | pepedd-core/pepedd/core/pipeline/process.py:40-53 | every write goes to `lq/` or `hq/` under `<name>_<index>` of a kept tile, where the index counts every tile the reader yielded, skipped ones included |
| Process.UnitRun | pepedd/core/pipeline/pipeline.py:129-158 | a whole-image unit fails exactly when StdRun fails, and then writes nothing |
| Process.RunUnit | pepedd/core/pipeline/pipeline.py:165 | `self.forward(path)` appends UnitRun's writes and raises its failure |
| Process.TileProcessAsWritten | pepedd-core/pepedd/core/pipeline/process.py:40-53 | the loop as written never writes anything and raises what TileRunAsWritten gives |
| Process.TileAsWrittenFails | pepedd-core/pepedd/core/pipeline/process.py:52 | on one kept tile, the source raises TypeError while the chain fold succeeds and writes it |
| Pipeline.CatalogueIsShuffledPrefix | pepedd/core/pipeline/pipeline.py:94-99 | the catalogue is a permutation of a prefix of the listing, no longer than dataset_size when that is positive, and the prefix itself when shuffling is off |
| Pipeline.Truncated | pepedd/core/pipeline/pipeline.py:95-96 | the kept listing is a prefix of it; a positive dataset_size keeps min(size, n) names; None or 0 keeps the whole listing |
| Pipeline.CatalogueDistinct | pepedd/core/pipeline/pipeline.py:94-99 | a listing without repeats gives a catalogue without repeats |
| Pipeline.SeqNames | pepedd/core/pipeline/pipeline.py:108-112 | sequential names are all digits, as wide as digits_count(n), and pairwise different |
| Pipeline.SeqName | pepedd/core/pipeline/pipeline.py:108-112 | `str(index).zfill(digits_count(n))`; its properties are SeqNames |
| Pipeline.UnitName | pepedd/core/pipeline/pipeline.py:102-112 | the stem in real-name mode, the sequential name otherwise; its properties are SeqNames and RealNamesCollide |
| Pipeline.RealNamesCollide | pepedd/core/pipeline/pipeline.py:102-106 | in real-name mode any two listed files `<base>.<e1>` and `<base>.<e2>` (non-empty base, dot-free extensions) both get the name `base` |
| Pipeline.Entries | pepedd/core/pipeline/pipeline.py:102-112 | entry i assigns `join(in_path, cat[i])` the name of catalogue position i |
| Pipeline.DictOfDistinct | pepedd/core/pipeline/pipeline.py:100-112 | with distinct keys, the dict keeps every assignment, in order |
| Pipeline.DictOf | pepedd/core/pipeline/pipeline.py:100-112 | the dict after a sequence of `d[k] = v` assignments; its properties are DictOfDistinct and DictStep |
| Pipeline.KeysFollowCatalogue | pepedd/core/pipeline/pipeline.py:100-112 | `img_names` has one key per catalogue entry, in catalogue order, mapped to that entry's output name |
| Pipeline.ChainParamsShape | pepedd/core/pipeline/pipeline.py:125-127 | the chain has one node per configuration entry, in order, built by that entry's registered class; any unregistered type makes it fail |
| Pipeline.BuildNodes | pepedd/core/pipeline/pipeline.py:125-127 | building the nodes succeeds or fails as ChainParams, and each node carries its entry's parameters |
| Pipeline.ChainParamsStops | pepedd/core/pipeline/pipeline.py:125-127 | the first failing entry decides the error |
| Pipeline.BindForward | pepedd/core/pipeline/pipeline.py:124-158 | binding fails exactly when the chain cannot be built; otherwise the forward is bound to the chain's nodes |
| Pipeline.SetupEvents | pepedd/core/pipeline/pipeline.py:118-122 | `lq/` is always created; `hq/` is created iff not only_lq; the tree is cleared first iff output_clear; nothing is saved |
| Pipeline.PrepareOutput | pepedd/core/pipeline/pipeline.py:118-122 | appends exactly SetupEvents |
| Pipeline.ListCatalogue | pepedd/core/pipeline/pipeline.py:94-99 | truncation and the in-place shuffle give Catalogue |
| Pipeline.NameUnits | pepedd/core/pipeline/pipeline.py:100-112 | the naming loops fill exactly the dict of Entries, in order |
| Pipeline.NameByStem | pepedd/core/pipeline/pipeline.py:102-106 | the real-name loop fills exactly the dict of Entries with stems, keys in catalogue order |
| Pipeline.NameByPosition | pepedd/core/pipeline/pipeline.py:107-112 | the sequential loop fills exactly the dict of Entries with zero-padded positions, keys in catalogue order |
| Pipeline.DictStep | pepedd/core/pipeline/pipeline.py:103-111 | one `d[k] = v` assignment sets k to v, and adds k at the end of the key order only when it is new |
| Pipeline.SimpleRunStep | pepedd/core/pipeline/pipeline.py:163-165 | one more path extends a run that has not failed with that unit's writes |
| Pipeline.SimpleRunStops | pepedd/core/pipeline/pipeline.py:163-165 | once a unit raises, no later unit runs |
| Pipeline.PoolRunReports | pepedd/core/pipeline/pipeline.py:193-200 | a failing task never stops the others; each reported failure is a task's own exception |
| Pipeline.BrokenPoolFailsAll | pepedd/core/pipeline/pipeline.py:193-200 | a pool whose workers cannot build the chain fails every task, in order, and writes nothing |
| Pipeline.SimpleRunIsThreadPrefix | pepedd/core/pipeline/pipeline.py:162-178 | simple and the all-tasks thread run raise the same exception; simple's writes are a prefix of the all-tasks run's, and equal to them when nothing fails |
| Pipeline.RunAll | pepedd/core/pipeline/pipeline.py:193-200 | the pool loop appends PoolRun's writes and reports its failures |
| Pipeline.PipeLine.constructor | pepedd/core/pipeline/pipeline.py:93-123 | the pipeline keeps its catalogue, names, strategy and settings |
| Pipeline.PipeLine.Create | pepedd/core/pipeline/pipeline.py:72-160 | the output tree is prepared first; construction fails iff the strategy is not "process" and the chain cannot be built; `img_names` follows the catalogue; the forward is bound to the chain |
| Pipeline.PipeLine.RunSimple | pepedd/core/pipeline/pipeline.py:162-165 | appends SimpleRun's writes and raises its first failure |
| Pipeline.PipeLine.RunThread | pepedd/core/pipeline/pipeline.py:167-178 | appends ThreadRunWith's writes: every task up to the first failure in key order, then only the tasks already started when the map cancelled the rest; raises that first failure |
| Pipeline.ThreadRunBetween | pepedd/core/pipeline/pipeline.py:162-178 | for any set of started tasks, thread raises what simple raises, its writes start with simple's, equal them when nothing fails, and are contained (as a multiset) in the all-tasks run |
| Pipeline.ThreadRunExtremes | pepedd/core/pipeline/pipeline.py:167-178 | with nothing started after the failure the thread run is the simple run; with every task started it is the all-tasks run |
| Pipeline.PipeLine.RunProcess | pepedd/core/pipeline/pipeline.py:180-200 | each worker binds its own chain (broken iff the chain cannot be built); every task is attempted; failures are reported, never raised, once every task is submitted (see Concurrency under Left out) |
| Pipeline.PipeLine.Call | pepedd/core/pipeline/pipeline.py:202-223 | an unknown strategy raises ValueError before anything is written; "simple" and "thread" (for the given started tasks) append their run's writes and raise exactly its first failure; "process" appends PoolRun's writes for the pool its workers bind (none when the chain cannot be built) and never raises once every task is submitted (see Concurrency under Left out) |
| Images.ClipSample | pepedd/core/pipeline/utils.py:13 | `clip` brings a sample into range and keeps one already in range |
| Images.Clip | pepedd/core/pipeline/utils.py:13-24 | same shape; every sample clipped |
| Images.BlackOrWhiteMeaning | pepedd-core/pepedd/core/pipeline/process.py:42-44 | for in-range samples, "mean is 0 or 1" holds iff there is a sample and all samples are black, or all are white |
| Images.MeanIsBlackOrWhite | pepedd-core/pepedd/core/pipeline/process.py:42-44 | `mean == 0.0 or mean == 1.0`, false on an empty buffer whose mean is NaN; its meaning is BlackOrWhiteMeaning |
| LegacyUtils.Probability | src/utils.py:7-11 | the answer is "skip" = not (prob > u); prob >= 1 never skips; prob <= 0 always skips |
| LegacyUtils.Img2Gray | src/utils.py:31-35 | 2-D or single-channel arrays are returned unchanged; others are what `cvt_color` gives, its exception included; fewer than two dimensions raise IndexError; nothing else fails |
| LegacyUtils.BothGray | src/utils.py:38-39 | `lq_hq2grays` over any image representation: it succeeds iff both conversions do, giving the two converted images; otherwise the first conversion that raises, lq before hq, decides the exception |
| LegacyUtils.LqHq2Grays | src/utils.py:38-39 | succeeds iff both images convert, each on its own; a failure is img2gray's IndexError or an exception `cvt_color` raised on lq or hq |
| LegacyUtils.TotalConverterRaisesIndexError | src/utils.py:31-39 | with a `cvt_color` that never raises, the only exception of lq_hq2grays is IndexError |
| LegacyUtils.GrayIdempotent | src/utils.py:31-35 | when the converter succeeds with a gray image, converting a converted image changes nothing |
| Ranges.Steps | pepedd-nodes/pepedd/nodes/utils/custom_random.py:17 | element k is start + k·step, inside [start, stop) for a positive step, and the progression stops at the first value past stop |
| Ranges.Arange | pepedd-nodes/pepedd/nodes/utils/custom_random.py:17 | a zero step raises; otherwise the progression Steps |
| Ranges.LegacyArange | src/utils/random.py:25-30 | the empty list raises IndexError; one element or lo >= hi gives [lo]; a third element is the step; a fourth is rejected with TypeError |
| Ranges.SafeArange | pepedd-nodes/pepedd/nodes/utils/custom_random.py:4-17 | empty gives []; one element or start >= stop gives [start]; otherwise arange with step = third element or 1 |
| Ranges.SafeArangeValues | pepedd-nodes/pepedd/nodes/utils/custom_random.py:11-17 | a non-empty result starts with start; every element is start + k·step, inside [start, stop) for a positive step |
| Ranges.SafeArangeIgnoresTail | pepedd-nodes/pepedd/nodes/utils/custom_random.py:13-15 | elements after the third change nothing |
| Ranges.ArangeVersionsAgree | src/utils/random.py:25-30 | the two helpers agree on 1 to 3 elements, and differ on the empty list and on 4 or more elements |
| ResizeTables.Lower | pepedd/nodes/utils/constants.py:4-9 | `lower()` maps each ASCII capital to its lower case and keeps every other character |
| ResizeTables.FilterMapOf | pepedd/nodes/utils/constants.py:3-7 | each key is the lower-cased name of its attribute |
| ResizeTables.AlgMapOf | pepedd/nodes/utils/constants.py:8-12 | each key is one letter, the lower-cased first letter of its attribute |
| ResizeTables.FilterMapKeys | pepedd/nodes/utils/constants.py:3-7 | the filter keys are exactly the lower-cased names of the public non-callable attributes |
| ResizeTables.AlgMapKeys | pepedd/nodes/utils/constants.py:8-12 | the algorithm keys are exactly the lower-cased first letters of the public attributes |
| ResizeTables.ResizeListAdd | pepedd/nodes/utils/constants.py:15-20 | one more algorithm key adds "nearest" (for "n") or its row of `a_f` names |
| ResizeTables.BuildResizeList | pepedd/nodes/utils/constants.py:14-20 | the nested `set.add` loops give exactly ResizeListOf of the two key sets |
| ResizeTables.NearestListed | pepedd/nodes/utils/constants.py:16-17 | "nearest" is listed iff "n" is an algorithm key |
| ResizeTables.PairListed | pepedd/nodes/utils/constants.py:18-20 | `a_f` is listed iff a is a key other than "n" and f a filter key |
| ResizeTables.ValidateResizeAlgorithms | pepedd/nodes/utils/validate.py:7-20 | succeeds iff every name is listed, a dpid name or a composite, and then returns the list itself; otherwise ValueError |
| ResizeTables.DpidAlwaysAccepted | pepedd/nodes/utils/validate.py:9 | any "dpid_" name without a line break passes, whatever the suffix |
| ResizeTables.DpidMatch | pepedd/nodes/utils/validate.py:9 | `re.match(r"^dpid_.*$", s)`, with `$` also matching before one final line break; its property is DpidAlwaysAccepted |
| Resize.AdjustNumber | pepedd/nodes/resize/resize.py:19-25 | returns (a·divider, a) with a a multiple of the divisor and a <= original // divider < a + divisor (mirrored for a negative divisor); a zero divider or divisor raises ZeroDivisionError |
| Resize.LeavesKeepSameSize | pepedd/nodes/resize/resize.py:28-71 | `st_resize`, `sts_resize` and `d_resize` return a same-size image untouched and take no draw |
| Resize.DownDownDrawsBeforeNoOp | pepedd/nodes/resize/resize.py:92-95 | `down_down_resize` takes its step draw before its same-size early return |
| Resize.ApplyDownDown | pepedd/nodes/resize/resize.py:84-105 | `down_down_resize` as a value: the step draw, the same-size return, the down choice, then one call or one call per linspace point; its properties are DownDownDrawsBeforeNoOp, LinspaceEnds and DownDownResize |
| Resize.ApplyDownUp | pepedd/nodes/resize/resize.py:74-81 | `down_up_resize` as a value: the scale draw, the down choice, the shrunk call, the up choice and the call to the target; its properties are DownUpMeaning |
| Resize.DownUpMeaning | pepedd/nodes/resize/resize.py:74-81 | an empty scale range raises IndexError; an empty down list raises ValueError whatever the scale; a drawn scale of 0 raises ZeroDivisionError, evaluated after the down choice; there is no same-size early return, so a success has non-empty down and up lists and took the scale draw and both choice draws |
| Resize.ApplyUpDown | pepedd/nodes/resize/resize.py:108-119 | `up_down_resize` as a value: the scale draw, one down call below 2, otherwise the up choice and call to the scaled size, then the down choice and call to the target; its properties are UpDownMeaning |
| Resize.UpDownMeaning | pepedd/nodes/resize/resize.py:108-119 | an empty scale range raises IndexError; a drawn scale below 2 makes the result independent of the up list, and raises ValueError on an empty down list; a scale of 2 or more raises ValueError on an empty up list; a success always had a down choice, and above 1 an up choice before it |
| Resize.LinspaceEnds | pepedd/nodes/resize/resize.py:100-104 | the linspace points start at the current size and end at the target |
| Resize.DownDownResize | pepedd/nodes/resize/resize.py:84-105 | the loop reassigning `img` gives the image and draw count of Apply on DownDown, and raises exactly its exception |
| Resize.StepDown | pepedd/nodes/resize/resize.py:100-104 | the `for index in range(step)` loop leaves the image and draw count of Stepped after all `step` steps, and raises exactly Stepped's exception |
| Resize.StepsStop | pepedd/nodes/resize/resize.py:103-104 | once a step fails, the whole loop fails with that same exception |
| Resize.Without | pepedd/nodes/resize/resize.py:131 | the `- {name}` difference keeps exactly the other names |
| Resize.LeafOf | pepedd/nodes/resize/resize.py:154-169 | a "d" name fails only with ValueError (float parse), any other only with KeyError (table lookup); a success is a leaf resampler |
| Resize.GetAll | pepedd/nodes/resize/resize.py:131-149 | the list has one function per name, each GetResize of it; a failing name makes it fail with that name's error |
| Resize.GetComposite | pepedd/nodes/resize/resize.py:128-152 | the three composite branches of `get_resize`, each building its lists through GetAll over the set difference; its properties are CompositesExcludeThemselves, MutualCompositesNeverEnd and IgnoresDownDownList |
| Resize.DispatchByPrefix | pepedd/nodes/resize/resize.py:154-169 | non-composite names are dispatched on their first letter and last `_` segment alone; "n" is nearest; "d" parses its lambda |
| Resize.CompositesExcludeThemselves | pepedd/nodes/resize/resize.py:128-152 | a composite never lists itself among its sub-algorithms, and keeps its own scale or step range |
| Resize.MutualCompositesNeverEnd | pepedd/nodes/resize/resize.py:128-152 | `down_up` and `up_down` listing each other raise RecursionError at any depth |
| Resize.SetOrderOfOne | pepedd/nodes/resize/resize.py:181-187 | a set order of one name lists only that name |
| Resize.OnlyFailing | pepedd/nodes/resize/resize.py:131-134 | a list of one failing name fails the same way |
| Resize.DownDownIgnoresItsList | pepedd/nodes/resize/resize.py:140 | as written, changing `down_down.alg_down` changes nothing that is built |
| Resize.IgnoresDownDownList | pepedd/nodes/resize/resize.py:121-169 | as written, no name's construction reads `down_down.alg_down` |
| Resize.GetAllCongruent | pepedd/nodes/resize/resize.py:131-149 | the list depends on the configuration only through GetResize |
| Resize.DownDownUsesItsList | pepedd/nodes/resize/resize.py:138-142 | as intended, `down_down`'s children are built from its own list, without its own name |
| Resize.Dedup | pepedd/nodes/resize/resize.py:181-187 | first occurrences: no repeats, same elements |
| Resize.Reversed | pepedd/nodes/resize/resize.py:181-187 | the reverse order, an equally valid set iteration order |
| Resize.DedupIsSetOrder | pepedd/nodes/resize/resize.py:181-187 | first-occurrence order is a valid set order |
| Resize.ReversedDedupIsSetOrder | pepedd/nodes/resize/resize.py:181-187 | reversed first-occurrence order is a valid set order |
| Resize.SetOrderChangesChoice | pepedd/nodes/resize/resize.py:181-187 | two valid set orders of ["nearest", "dpid_0.5"] give lists that differ at every index |
| Resize.PairOrders | pepedd/nodes/resize/resize.py:181-187 | the two set orders of ["nearest", "dpid_0.5"] are that list and its reverse |
| Resize.LeafNames | pepedd/nodes/resize/resize.py:155-162 | "nearest" is nearest neighbour; "dpid_0.5" is dpid with lambda 0.5 |
| Resize.DpidLast | pepedd/nodes/resize/resize.py:156 | the last segment of "dpid_0.5" is "0.5" |
| Resize.GetAllPair | pepedd/nodes/resize/resize.py:181-192 | two names that build give the two functions, in order |
| Resize.DedupFollowsConfig | pepedd/nodes/resize/resize.py:179-192 | in first-occurrence order, entry i is the function of the i-th distinct name |
| Resize.ResizeNodeOf | pepedd/nodes/resize/resize.py:174-197 | the node holds the lq and hq resampler lists built in first-occurrence order, and keeps scale, divider, olq and spread; it fails iff either list fails to build |
| Resize.Targets | pepedd/nodes/resize/resize.py:204-205 | the hq target is scale times the lq target on each axis; it fails iff scale or divider is zero |
| Resize.ResizeEffect | pepedd/nodes/resize/resize.py:199-213 | with olq, hq is untouched; success needs a spread and an lq list; an empty spread, lq list, or (without olq) hq list fails |
| Resize.ResizeForward | pepedd/nodes/resize/resize.py:199-213 | the node body handed to the chain is ResizeEffect; its properties are ResizeEffect and Forward |
| Resize.TargetsAreScaled | pepedd/nodes/resize/resize.py:204-205 | for positive scale and divider: hq = scale·lq on each axis, and lq is a multiple of divider within one divider below the spread size over scale |
| Resize.Forward | pepedd/nodes/resize/resize.py:199-213 | `forward` replaces hq (unless olq) and lq with ResizeEffect's buffers and advances the generator by its draws; it raises exactly ResizeEffect's exception |
| Resize.ChooseApply | pepedd/nodes/resize/resize.py:208-212 | `choice(list)(img, h, w, rng)` on an empty list raises ValueError; a success has taken at least the choice draw |
| Resize.ResizeWith | pepedd/nodes/resize/resize.py:208-212 | choosing and applying a resampler on the generator gives ChooseApply's image and advances the generator by its draws, or raises exactly its exception |
| Compress.FormatTablesStart | pepedd-nodes/pepedd/nodes/compress/schemas.py:11-125 | every pixel-format table starts with "yuv420p", which has no underscore |
| Compress.InterpOf | pepedd/nodes/compress/comp_maps.py:24-31 | `InterpolationMap.get(key, "neighbor")` is a scaler name without underscore; an unknown key gives "neighbor" |
| Compress.Interp | pepedd-nodes/pepedd/nodes/compress/compress.py:58-61 | the scaler of a split name is a scaler name without underscore |
| Compress.ValidateVideoSampling | pepedd-nodes/pepedd/nodes/compress/compress.py:50-67 | the append loop computes ValidSamplings |
| Compress.SplitPair | pepedd-nodes/pepedd/nodes/compress/compress.py:63 | `"<mode>_<interp>"` splits back into its two parts |
| Compress.SamplingEntryShape | pepedd-nodes/pepedd/nodes/compress/compress.py:53-63 | a name contributes iff its first segment is in the table, and its entry splits into that mode and a scaler name |
| Compress.SamplingOfParts | pepedd-nodes/pepedd/nodes/compress/compress.py:53-63 | `"<mode>_<key><tail>"` gives `"<mode>_<InterpolationMap.get(key, "neighbor")>"` when mode is accepted; later segments are ignored |
| Compress.SamplingOfMode | pepedd-nodes/pepedd/nodes/compress/compress.py:58-63 | a bare accepted mode gives `"<mode>_neighbor"` |
| Compress.KeptAppend | pepedd-nodes/pepedd/nodes/compress/compress.py:53-63 | kept entries of a + b are those of a, then those of b |
| Compress.SamplingEntry | pepedd-nodes/pepedd/nodes/compress/compress.py:53-63 | one sampling name's entry, `<mode>_<interp>` when its first segment is accepted, or nothing; its properties are SamplingEntryShape, SamplingOfParts and SamplingOfMode |
| Compress.Kept | pepedd-nodes/pepedd/nodes/compress/compress.py:53-63 | the entries the loop appends, in input order; its properties are KeptAppend, KeptFrom and KeptNone |
| Compress.KeptFrom | pepedd-nodes/pepedd/nodes/compress/compress.py:53-63 | every kept entry comes from an input name |
| Compress.ValidSamplingsShape | pepedd-nodes/pepedd/nodes/compress/compress.py:50-67 | a success is non-empty and each entry splits into a table mode and a scaler name; it fails iff nothing is kept and the table is empty |
| Compress.SamplingFallback | pepedd-nodes/pepedd/nodes/compress/compress.py:65-66 | with nothing accepted, the result is `["<validate[0]>_neighbor"]` |
| Compress.KeptNone | pepedd-nodes/pepedd/nodes/compress/compress.py:53-63 | no accepted mode means nothing kept |
| Compress.ValidateVideoPt | pepedd-nodes/pepedd/nodes/compress/compress.py:70-78 | the append loop computes ValidPresets |
| Compress.FilterCounts | pepedd-nodes/pepedd/nodes/compress/compress.py:73-75 | each accepted value is kept as often as it occurs; every other value is dropped |
| Compress.Filter | pepedd-nodes/pepedd/nodes/compress/compress.py:73-75 | the values the loop appends, in input order; its properties are FilterCounts, FilterAppend, FilterAllAccepted and FilterNone |
| Compress.FilterAppend | pepedd-nodes/pepedd/nodes/compress/compress.py:73-75 | filtering preserves input order |
| Compress.FilterAllAccepted | pepedd-nodes/pepedd/nodes/compress/compress.py:73-75 | when every value is accepted, the list comes back unchanged |
| Compress.ValidPresetsShape | pepedd-nodes/pepedd/nodes/compress/compress.py:70-78 | a success is non-empty and holds only table entries; with nothing accepted it is `[validate[0]]`; it fails iff nothing is accepted and the table is empty |
| Compress.FilterNone | pepedd-nodes/pepedd/nodes/compress/compress.py:73-75 | nothing accepted means nothing kept |
| Compress.HevcEncodedAsH264 | pepedd-nodes/pepedd/nodes/compress/compress.py:140-152 | as written, "hevc" and "h264" share the H.264 encoder |
| Compress.EncodersDistinct | pepedd-nodes/pepedd/nodes/compress/compress.py:90-204 | with H.265 for "hevc", no two algorithms share an encoder |
| Compress.EntryOf | pepedd-nodes/pepedd/nodes/compress/compress.py:90-204 | an algorithm has an entry iff it has an encoder ("bd" has none), and the entry carries that encoder |
| Compress.Samplings | pepedd-nodes/pepedd/nodes/compress/compress.py:50-67 | against a non-empty table the sampling check cannot fail |
| Compress.Presets | pepedd-nodes/pepedd/nodes/compress/compress.py:70-78 | against a non-empty table the preset check cannot fail |
| Compress.BuildCompressList | pepedd-nodes/pepedd/nodes/compress/compress.py:89-204 | the append loop computes CompressListOf |
| Compress.CompressListAppend | pepedd-nodes/pepedd/nodes/compress/compress.py:90-204 | entries follow the order of the algorithms |
| Compress.CompressListSize | pepedd-nodes/pepedd/nodes/compress/compress.py:90-204 | at most one entry per algorithm; empty iff no algorithm has an arm; "bd" adds nothing |
| Compress.VideoEntryShape | pepedd-nodes/pepedd/nodes/compress/compress.py:116-203 | every video entry has a non-empty sampling list of `<format>_<scaler>` names from its codec's table, and non-empty preset and tune lists where the codec takes them |
| Compress.BaseCompressOf | pepedd-nodes/pepedd/nodes/compress/compress.py:38-47 | an empty quality range raises IndexError |
| Compress.BaseCompressQuality | pepedd-nodes/pepedd/nodes/compress/compress.py:47 | on [lo, hi] the encoder gets a quality in [lo, hi), taken by exactly one draw before its own; on a degenerate range it gets lo and no draw is taken |
| Compress.CompressEffect | pepedd-nodes/pepedd/nodes/compress/compress.py:206-208 | an empty list raises ValueError; hq is passed through; one choice draw picks the entry, which runs on the clipped lq |
| Compress.CompressForward | pepedd-nodes/pepedd/nodes/compress/compress.py:206-208 | the node body handed to the chain is CompressEffect; its properties are CompressEffect and Forward |
| Compress.AllBdFails | pepedd-nodes/pepedd/nodes/compress/compress.py:90-208 | a node whose algorithms are all "bd" always raises ValueError in forward |
| Compress.Forward | pepedd-nodes/pepedd/nodes/compress/compress.py:206-208 | only lq is replaced, hq is untouched, the generator advances by the draws taken, and a failure is exactly CompressEffect's exception |
| TargetFill.DefaultRanges | pepedd-nodes/pepedd/nodes/dithering/schemas.py:4-85 | every declared and filled default meets its range constraint; out-of-range palettes and short ranges are rejected; the dithering and blur fill values differ from the field defaults |
| TargetFill.BlurAfterFieldsAreKernelFields | pepedd/nodes/blur/schemas.py:7-46 | `set(LiteralBlur) - {"motion"}` is exactly the field set of TargetKernels |
| TargetFill.FillNone | pepedd-nodes/pepedd/nodes/compress/schemas.py:227-229 | with no fields, the target is unchanged |
| TargetFill.FillEntriesMeaning | pepedd-nodes/pepedd/nodes/compress/schemas.py:227-229 | every field is present afterwards; missing or None fields get the fill; every other entry is kept; with a non-None fill no field is None |
| TargetFill.FillStep | pepedd-nodes/pepedd/nodes/compress/schemas.py:227-229 | one more field is filled iff it is missing or None |
| TargetFill.FillTarget | pepedd-nodes/pepedd/nodes/compress/schemas.py:213-231 | the dict becomes FilledDict; a failure leaves it unchanged |
| TargetFill.FillBefore | pepedd-nodes/pepedd/nodes/compress/schemas.py:208-231 | a non-dict is returned unchanged; a dict is filled in place and the same object returned |
| TargetFill.FilledDictMeaning | pepedd-nodes/pepedd/nodes/compress/schemas.py:214-229 | other keys are kept; the target becomes a dict ({} when missing or None) with every field present; fill where missing or None; explicit values kept; it fails iff the target is present, not None and not a dict |
| TargetFill.FillTargetCompressBefore | pepedd-nodes/pepedd/nodes/compress/schemas.py:208-231 | fills all ten AlgorithmType fields, "bd" included, from `compress`, default [40, 100] |
| TargetFill.FillTargetColorBefore | pepedd-nodes/pepedd/nodes/dithering/schemas.py:79-102 | fills all eleven LDAlg fields from `color_in_img`, default [8, 512] |
| TargetFill.FillTargetKernelsBefore | pepedd-nodes/pepedd/nodes/blur/schemas.py:39-66 | fills all eight kernel fields, "ring" included, from `kernel`, default [0.0, 10.0] |
| TargetFill.CompressBeforeFromEmpty | pepedd-nodes/pepedd/nodes/compress/schemas.py:214-229 | from an empty dict, every algorithm, "bd" included, gets [40, 100] |
| TargetFill.DitheringCopiesDisagree | pepedd-nodes/pepedd/nodes/dithering/schemas.py:70-85 | without `color_in_img` every algorithm gets [8, 512], not the field default [32, 1024] |
| TargetFill.BlurCopiesDisagree | pepedd-nodes/pepedd/nodes/blur/schemas.py:25-45 | without `kernel` every filter gets [0.0, 10.0], not the field default [0, 1] |
| TargetFill.Options.constructor | pepedd/nodes/compress/schemas.py:141-206 | a validated model holds its range and its table |
| TargetFill.Options.FillAfter | pepedd/nodes/compress/schemas.py:208-216 | the table becomes FillAfterOf of the old table; the range is unchanged |
| TargetFill.FillAfterMeaning | pepedd/nodes/compress/schemas.py:208-216 | keys are kept; every visited field is non-None afterwards; None fields get the range; given values are kept; visiting all fields leaves no None; range constraints are preserved |
| TargetFill.FillTargetCompressAfter | pepedd/nodes/compress/schemas.py:208-216 | every TargetCompress field is non-None; None fields become `compress`; the others are kept |
| TargetFill.FillTargetColorAfter | pepedd/nodes/dithering/schemas.py:79-87 | every LDAlg field is non-None; None fields become `color_in_img`; the others are kept |
| TargetFill.FillTargetKernelsAfter | pepedd/nodes/blur/schemas.py:39-47 | every LiteralBlur name but "motion" is non-None; None fields become `kernel`; the others are kept |
| LegacyProcess.TurnStep | src/logic/process.py:116-117 | one more loss extends a chain that has not failed |
| LegacyProcess.TurnStops | src/logic/process.py:116-117 | after a loss raises, later losses change nothing |
| LegacyProcess.TurnAppend | src/process/logiop_degr.py:25-29 | running a + b is running a, then b on its output from where a's draws ended |
| LegacyProcess.AppendTurns | src/process/logiop_degr.py:25-29 | TurnAppend with the passes of a and b named: a failure in a ends the turn; otherwise b continues on a's output and draws |
| LegacyProcess.ApplyTurn | src/logic/process.py:115-117 | the `(lq, hq)` loop gives Turn's buffers and draws, or its exception |
| LegacyProcess.TurnOfShape | src/logic/process.py:77-79 | the chain has one loss per entry, in config order; a missing or unregistered type makes construction fail |
| LegacyProcess.TurnOfStops | src/logic/process.py:77-79 | the first failing entry decides the error |
| LegacyProcess.BuildTurn | src/logic/process.py:77-79 | the append loop computes TurnOf through `get_class` |
| LegacyProcess.LegacyCatalogueBounds | src/logic/process.py:64-70 | the catalogue has at most 6000 entries, at most `size` when positive, and only listed entries, none repeated beyond the listing |
| LegacyProcess.SizeCut | src/logic/process.py:69-70 | the `[:size]` cut, applied only for a truthy size, keeps at most `size` entries when positive and adds none |
| LegacyProcess.ShuffleList | src/logic/process.py:65-68 | `np.random.shuffle` on a list gives Shuffled and takes n-1 global draws |
| LegacyProcess.ListImages | src/logic/process.py:64-70 | the catalogue step gives LegacyCatalogue and advances the global generator by its draws |
| LegacyProcess.Window | src/logic/process.py:135-138 | a clamped slice, equal to the exact slice when in bounds |
| LegacyProcess.GridDims | src/logic/process.py:134 | (h // T, w // T) for a positive tile size; ZeroDivisionError for size 0 |
| LegacyProcess.Grid | src/logic/process.py:134 | every cell lies inside the (h//T) × (w//T) rectangle |
| LegacyProcess.GridRowMajor | src/logic/process.py:134 | cells run in strictly increasing row-major order and cover the rectangle |
| LegacyProcess.BlockInside | src/logic/process.py:134-138 | a block index below n // T leaves room for the whole block |
| LegacyProcess.TileGeometry | src/logic/process.py:135-138 | tile (Kx, Ky) is the T×T block at rows T·Kx.. and columns T·Ky.., inside the image |
| LegacyProcess.BlockGeometry | src/logic/process.py:135-138 | a block that fits in the image is T×T and sample (r, c) is the image's (x0 + r, y0 + c) |
| LegacyProcess.TilesDisjoint | src/logic/process.py:135-138 | two tiles sharing a sample are the same tile |
| LegacyProcess.SplitNumerals | src/logic/process.py:149 | `"n_Kx_Ky"` splits back into its three numerals |
| LegacyProcess.TileNamesDistinct | src/logic/process.py:149 | different cells or images never share a tile name |
| LegacyProcess.ImageName | src/logic/process.py:118 | `f"{n}.png"`; its properties are ImageNamesDistinct |
| LegacyProcess.ImageNamesDistinct | src/logic/process.py:118 | whole-image names differ for different indices, and never equal a tile name `n_Kx_Ky.png` |
| LegacyProcess.TileName | src/logic/process.py:149 | `f"{n}_{Kx}_{Ky}.png"`; its properties are SplitNumerals and TileNamesDistinct |
| LegacyProcess.TileSkipped | src/logic/process.py:139-145 | a block is dropped by the Laplacian test when a threshold is set, otherwise only when no_wb is set and its mean is 0 or 1; its use is stated by TilesStep |
| LegacyProcess.IndexOf | src/logic/process.py:114-133 | `list.index` gives the first position of the name, or fails when it is absent |
| LegacyProcess.ImgProcess.constructor | src/logic/process.py:55-76 | the processor keeps its settings, with `lq/` and `hq/` output folders under the output |
| LegacyProcess.ImgProcess.Create | src/logic/process.py:54-84 | missing input/output/process raise KeyError with no effect; the catalogue draws come first; a bad chain fails with no folder created; otherwise both folders are created |
| LegacyProcess.ImgProcess.SaveForm | src/logic/process.py:96-101 | `__img_save` saves the pair as it is without `gray`; with `gray` it saves `lq_hq2grays` of the pair, and a conversion that raises saves nothing |
| LegacyProcess.ImgProcess.ImageAttempt | src/logic/process.py:96-122 | an image that raises (in the chain or in the gray conversion) writes nothing; a saved image writes `lq/<n>.png` and `hq/<n>.png`, n its first index in all_images |
| LegacyProcess.ImgProcess.Process | src/logic/process.py:96-122 | `process` appends ImageAttempt's writes and prints its exception |
| LegacyProcess.ImgProcess.TilesStep | src/logic/process.py:134-150 | the attempt over one more cell is TileStep on the attempt so far: a dropped block or an earlier failure changes nothing, a kept block runs the chain on (tile, tile) and saves `n_Kx_Ky.png` under lq and hq, as SaveForm converts them |
| LegacyProcess.ImgProcess.TilesStop | src/logic/process.py:134-153 | after an exception no later tile is processed |
| LegacyProcess.ImgProcess.TilesAttemptNames | src/logic/process.py:134-150 | every write is to `lq/` or `hq/` under the name of a visited cell, at most two per cell |
| LegacyProcess.ImgProcess.ProcessTile | src/logic/process.py:124-153 | `process_tile` appends TileImageAttempt's writes; tiles saved before an exception stay |
| LegacyProcess.ImgProcess.VisitTiles | src/logic/process.py:134-150 | the tile loop appends TilesAttempt's writes |
| LegacyProcess.ImgProcess.VisitCell | src/logic/process.py:135-150 | one loop iteration appends TileStep's writes and draws for that cell, and stops with its failure |
| LegacyProcess.ImgProcess.RunStep | src/logic/process.py:163-164 | one more image appends its writes; an image's exception never stops the run |
| LegacyProcess.ImgProcess.Run | src/logic/process.py:155-164 | every image is attempted in order; writes and the generator position are RunAttempts'; the printed exceptions are RunPrinted, each image's own failure in order |
| LegacyProcess.ImgProcess.RunPrinted | src/logic/process.py:121-122 | at most one printed exception per image |
| LegacyProcess.ImgProcess.ProcessOne | src/logic/process.py:157 | one iteration runs `process_tile` when tiling, else `process` |
| LogicOps.OperandsOf | src/process/logiop_degr.py:9-21 | missing one_process / two_process raise KeyError; probabilities default; both chains are built through TurnOf |
| LogicOps.BuildOperands | src/process/logiop_degr.py:9-21 | the constructor loops compute OperandsOf |
| LogicOps.AndRun | src/process/logiop_degr.py:23-30 | chain one runs iff the first gate passes; chain two only after chain one, iff the second gate passes; with no chain run the buffers are unchanged |
| LogicOps.OrRun | src/process/logiop_degr.py:49-57 | never both chains; chain one iff the first gate passes; chain two iff the first fails and the second passes; otherwise unchanged |
| LogicOps.AndDefaultAlwaysRunsOne | src/process/logiop_degr.py:12 | with a first probability of 1.0 or more (the default is 1.0), chain one always runs, for all operands, buffers and draws |
| LogicOps.OrExtremes | src/process/logiop_degr.py:50-57 | probability 1 runs chain one alone; 0 and 0 run nothing |
| LogicOps.AndEmptyChains | src/process/logiop_degr.py:23-30 | an empty chain two makes `and` a gated chain one; an empty chain one makes it a two-gate filter on chain two |
| LogicOps.AsEffect | src/process/logiop_degr.py:23-49 | an operator is a loss: an exception escapes, otherwise buffers and draws |
| LogicOps.DrawSkip | src/utils.py:7-11 | `probability` takes one global draw and answers Probability of it |
| LogicOps.AndOperator.constructor | src/process/logiop_degr.py:9-21 | the operator keeps its operands |
| LogicOps.AndOperator.Create | src/process/logiop_degr.py:7-21 | construction with defaults (1.0, 0.5) succeeds or fails as OperandsOf |
| LogicOps.AndOperator.Run | src/process/logiop_degr.py:23-30 | `run` gives AndRun's buffers and draws, or its exception |
| LogicOps.RunAnd | src/process/logiop_degr.py:23-30 | on given operands: the buffers and draws of AndRun, or its exception |
| LogicOps.OrOperator.constructor | src/process/logiop_degr.py:35-47 | the operator keeps its operands |
| LogicOps.OrOperator.Create | src/process/logiop_degr.py:33-47 | construction with defaults (0.5, 0.5) succeeds or fails as OperandsOf |
| LogicOps.OrOperator.Run | src/process/logiop_degr.py:49-57 | `run` gives OrRun's buffers and draws, or its exception |
| Destroyer.RunEnd | destroyer.py:8 | the maximal run of `-`, `.` and digits starting at j |
| Destroyer.LiteralDots | destroyer.py:11 | an integer literal has no dot; a decimal literal has one |
| Destroyer.MatchAt | destroyer.py:8 | a match at i is an integer literal without a dot, or a decimal literal with one |
| Destroyer.FirstMatch | destroyer.py:8 | the leftmost match has the same shape |
| Destroyer.NumberFix | destroyer.py:7-15 | the result is the string itself iff nothing matches, and otherwise an int or a float |
| Destroyer.SkipToDollar | destroyer.py:8 | no match starts before the first `$` |
| Destroyer.NoDollarUnchanged | destroyer.py:15 | text without `$` is returned as it is |
| Destroyer.MatchHere | destroyer.py:8 | a literal between `${` and `}` is the match there |
| Destroyer.FirstLiteralWins | destroyer.py:8-14 | the first `${literal}` decides, whatever text surrounds it |
| Destroyer.IntRoundTrip | destroyer.py:8-14 | `"${<n>}"` inside any text becomes the integer n |
| Destroyer.IntValue | destroyer.py:14 | `int(g)` of an integer literal; its property is IntRoundTrip |
| Destroyer.DecimalValue | destroyer.py:8-12 | `"${[-]<int>.<frac>}"` becomes the exact decimal int + frac/10^len, negated with a minus |
| Destroyer.DecValue | destroyer.py:12 | `float(g)` of a decimal literal, as the exact decimal; its property is DecimalValue |
| Destroyer.TrailingDotStays | destroyer.py:8-15 | for every digit run d, with or without a minus sign, `"${d.}"` does not match and stays a string |
| Destroyer.Fix | destroyer.py:18-39 | a string becomes NumberFix of it; other scalars are unchanged |
| Destroyer.FixKeepsShape | destroyer.py:18-39 | list lengths, dict keys and non-string scalars are kept at every depth |
| Destroyer.FixIdempotent | destroyer.py:7-39 | fixing twice is fixing once |
| Destroyer.ListSearch | destroyer.py:18-27 | the list is fixed in place to Fix of its old contents, and the same list is returned |
| Destroyer.FixHclDict | destroyer.py:30-39 | the dict is fixed in place to Fix of its old entries, and the same dict is returned |
| Destroyer.FixEntry | destroyer.py:32-38 | one loop iteration replaces the key's value by Fix of it and changes no other key |
| PyText.NatToString | pepedd/core/pipeline/pipeline.py:110 | `str(n)`: at least one digit, all digits, no leading zero |
| PyText.ParseNatToString | destroyer.py:14 | `int(str(n)) == n` |
| PyText.IntToStringInjective | pepedd/core/pipeline/utils.py:51 | different integers render differently |
| PyText.ZFillNat | pepedd/core/pipeline/pipeline.py:110-112 | `str(i).zfill(w)` has exactly w digits when i fits, and reads back as i |
| PyText.ZFill | pepedd/core/pipeline/pipeline.py:110-112 | `str.zfill`: zeros on the left, after a leading sign; its properties are ZFillPads and ZFillNat |
| PyText.ZFillPads | pepedd/core/pipeline/pipeline.py:110-112 | the result has width characters, or the text's own length when longer; a digit text stays all digits and ends with itself |
| PyText.Split | pepedd-nodes/pepedd/nodes/compress/compress.py:54 | `split` gives at least one piece, none containing the separator |
| PyText.SplitJoin | pepedd-nodes/pepedd/nodes/compress/compress.py:54 | joining the pieces gives the text back |
| PyText.Utf8RoundTrip | pepedd/core/pipeline/utils.py:51 | decoding inverts `encode("utf-8")` |
| PyText.Utf8Injective | pepedd/core/pipeline/utils.py:51 | different texts encode differently |
| PyText.PathJoin | pepedd/core/pipeline/pipeline.py:104 | `os.path.join(a, b)` is `a/b` when b is relative and non-empty and a is non-empty without a trailing `/` |
| PyText.PathJoinInjective | pepedd/core/pipeline/pipeline.py:104-110 | two relative names in one directory give different paths |
| PyText.Stem | pepedd/core/pipeline/pipeline.py:104-106 | the stem is a prefix of the name |
| PyText.StemOfSuffixed | pepedd/core/pipeline/pipeline.py:104-106 | the stem of `<base>.<ext>` (non-empty base, extension without a dot) is the base |
| PyText.FloorMod | pepedd/nodes/resize/resize.py:22-23 | Python's `%`: a = b·(a // b) + r with r of the divisor's sign |
| PyText.FloorDiv | pepedd/nodes/resize/resize.py:22 | Python's `//`: for b > 0, b·q <= a < b·q + b; for b < 0, b·q + b < a <= b·q |
| PyText.SliceTo | pepedd/core/pipeline/pipeline.py:96 | `xs[:k]` is a prefix of length min(k, n), or n + k for negative k |

## Left out

- **Pixel work.** Every blur, dither, noise, halo, lines, screentone, shift,
  subsampling and colour transform is left out. So are the image library's
  `resize` / `dpid_resize` and the codecs (ffmpeg pipes, JPEG, WebP, JPEG
  2000, AVIF). A node body is a `Forward` parameter, a resampler a `Kernel`
  parameter, and an encoder a `Codec` parameter. Each returns its output and
  the draws it took.
- **Images.** Images are integer samples on 0..255, not float32 arrays in
  [0, 1]. `clip(0, 1)` is modelled as clipping to [0, MaxSample]. The
  black-or-white tile test is an exact statement about integer sums.
- **Float rounding.**
  - `int(hq_h * spread)` is exact truncation of a real.
  - `np.linspace` points are exact rationals, truncated.
  - `float(...)` of a decimal literal is the exact decimal.
  - Where float rounding changes a result, the model does not follow it.
- **Spread.** The node takes the values `safe_arange(spread)` produced, over
  integers. Float steps are not modelled.
- **`log10`.** `digits_count` uses the exact digit count; `log10` itself is not
  modelled.
- **Hashing and randomness.**
  - The BLAKE2b digest of `mix_seed` is an abstract `Hasher`.
  - numpy's bit generator is a `Stream` of unit draws. The mapping from a
    draw to an integer or a uniform value is one fixed formula.
  - `secrets.randbits(64)` is an input.
- **Concurrency.**
  - `thread_map`, `process_map` and `ProcessPoolExecutor` run their tasks one
    after another in key order; the writes of concurrent tasks are not
    interleaved.
  - Which thread tasks had started when `Executor.map` cancelled the rest
    after the first failure depends on scheduling; it is a parameter of
    Pipeline.PipeLine.RunThread.
  - A broken worker initializer is modelled as every task failing. In the
    source, `executor.submit` (pepedd/core/pipeline/pipeline.py:193) sits
    outside the try of lines 195-199: when a failing `init_worker` has
    already marked the pool broken, `submit` raises BrokenProcessPool out of
    `_run_process`. Whether that happens depends on timing, so the model's
    "process never raises" for Pipeline.PipeLine.RunProcess and
    Pipeline.PipeLine.Call holds only when every task was submitted before
    the pool broke.
  - LegacyProcess.ImgProcess.Run runs one global numpy generator through
    every image in order. Under the default map_type "process"
    (src/logic/process.py:74, 158-159) each worker starts from a copy of the
    parent's global numpy state, so images in different workers can repeat
    the same draws; under "thread" the draws of concurrent images
    interleave. Neither is modelled.
  - Output interleaving and worker counts are not modelled.
- **File system and logging.**
  - Directory listing is an input sequence. Saves, `makedirs` and `rmtree`
    are events in a log.
  - The debug log file, `print` and `tqdm` are not modelled.
  - `os.path.exists` checks are folded into "create".
- **Readers.** `read` / `read_tiler` are parameters. The tile grid of the
  current pipeline is whatever `read_tiler` yields.
- **Aliasing.** Nested lists and dicts inside a configuration are values. Only
  the outermost container an operation receives is updated in place, so
  aliasing between nested containers is not modelled.
- **Iteration order.** Dict and set iteration orders are left out where the
  result does not depend on them (`fix_hcl_dict`, the "after" validators).
  Where the result does depend on them (`set(opts.alg_lq)`), the order is a
  parameter; see Findings.
- **Text.** `str.lower` covers ASCII only, and the regex `\d` matches ASCII
  digits only.
- **Recursion limit.** Python's recursion limit in `get_resize` is a depth
  bound. Exhausting it gives RecursionError.
- **Error kinds.** `np.ndindex` on negative dimensions is folded into
  GridDims' failure; only the zero tile size is stated exactly.
- **Compress option tables.** `JpegSamplings` and `QuantizeTables` entries are
  kept by name. `TargetCompress` quality ranges after validation are
  sequences, so a `None` quality is not reachable.
- **Compress.EntryOf:** models the intended H.265 encoder for "hevc". The
  as-written arm is AsWrittenEncoderOf; see Findings.
- **Nodes.Node.RunForward:** a raising body is taken to fail atomically. A real
  body can change the state before it raises. Resize's `forward`
  (pepedd/nodes/resize/resize.py:202-212) draws the spread, then replaces
  `hq` and takes the resampler's draws, and only then can fail on the `lq`
  choice. Those partial buffer and generator updates are not modelled. The
  same holds for Nodes.Node.Call. No caller reads the state after an
  exception.
- **Nodes.Node.Call:** "a failing unseeded call has taken exactly its gate
  draw" holds for atomic bodies only; the draws a body takes before raising
  are not modelled (see Nodes.Node.RunForward).
- **Process.TileProcess:** models the intended `node_iterator(nodes, state)`.
  The as-written call `nodes(state)` is TileProcessAsWritten; see Findings.
- **Resize.ResizeNodeOf:** uses first-occurrence order and the intended
  `down_down.alg_down`. The source's hash-dependent set order and its
  `down_up.alg_down` reading are stated separately; see Findings.
- **Unmodelled sources.**
  - src/process/utils.py is not part of this model. Its `probability`,
    `laplace_filter` and gray helpers are taken to be those of src/utils.py.
    `laplace_filter` is a parameter.
  - `img2gray` on the legacy processor's images is the `toGray` parameter,
    because `Image` has no channel axis; LegacyUtils.Img2Gray states it on
    n-dimensional arrays.
  - `color_or_gray` and the read-side gray options of the legacy reader are
    inside the reader parameter.
- **Scripts.**
  - The destroyer command line (argument parsing, HCL loading and the
    `ImgProcess` call, destroyer.py:42-57) is left out.
  - `main.py` and `new_mix.py` are left out.
  - The dynamic import scanning in the package `__init__` files is left out.
- **Registration.** The registration of `and` / `or` under their keys is left
  out as an effect at import time. The Registry class states what a
  registration does.
- **Quantizer.** Palette extraction in the dithering quantizer is left out.

## Findings

| source | as written | input that shows it | evidently intended | confidence | as-written member | corrected member |
|---|---|---|---|---|---|---|
| pepedd-core/pepedd/core/pipeline/process.py:52 | `tile_process` calls `nodes(state)` on the node list itself, which raises TypeError for every kept tile, so tiled runs write nothing | any catalogued path whose reader yields one tile the `wb` check keeps | `state = node_iterator(nodes, state)`, as `std_process` does | high, not executed | Process.TileAsWrittenFails | Process.TileProcess |
| pepedd/nodes/resize/resize.py:140 | the `down_down` branch takes its sub-algorithms from `down_up.alg_down`; `down_down.alg_down` is never read | two configurations that differ only in `down_down.alg_down` build the same function | `set(down_down.alg_down) - {"down_down"}` | high, not executed | Resize.DownDownIgnoresItsList | Resize.DownDownUsesItsList |
| pepedd/nodes/resize/resize.py:181-187 | the lq and hq lists are built in `set` iteration order, which depends on string hashing and changes between interpreter runs, so a fixed seed does not fix the chosen algorithm | `alg_hq = ["nearest", "dpid_0.5"]` under two valid set orders gives lists that differ at every index | a deterministic order, such as first occurrence | medium, not executed | Resize.SetOrderChangesChoice | Resize.DedupFollowsConfig |
| pepedd-nodes/pepedd/nodes/compress/compress.py:150 | the "hevc" arm uses `h264_encode`, although its pixel formats, presets and tunes are the H.265 tables | `algorithm = ["hevc"]` encodes with libx264 | `h265_encode` (pepedd/nodes/compress/comp_funcs.py:98-118) | high, not executed | Compress.HevcEncodedAsH264 | Compress.EncodersDistinct |
