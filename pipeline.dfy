/** pepedd/core/pipeline/pipeline.py: building the catalogue of units and their
    output names, preparing the output tree, binding the node chain, and
    dispatching on the processing strategy. */
module Pipeline {

  import opened Wrappers
  import opened PyText
  import opened Rng
  import opened Nodes
  import opened PipelineUtils
  import opened Process
  import opened Registry
  import opened Schema

  // ---------------------------------------------------------------------------
  // Catalogue
  // ---------------------------------------------------------------------------

  /** `img_names[: opts.dataset_size]` when the size is set and non-zero. */
  function Truncated(listing: seq<string>, datasetSize: Option<int>): (r: seq<string>)
    ensures |r| <= |listing| && r == listing[..|r|]
    ensures datasetSize.Some? && datasetSize.value > 0 ==> |r| == if datasetSize.value < |listing| then datasetSize.value else |listing|
    ensures datasetSize.None? || datasetSize.value == 0 ==> r == listing
  {
    if datasetSize.Some? && datasetSize.value != 0 then SliceTo(listing, datasetSize.value) else listing
  }

  /** The units in processing order: the truncated listing, shuffled by
      `SafeRNG(seed)` when `shuffle_dataset` is set. */
  function Catalogue(listing: seq<string>, datasetSize: Option<int>, shuffle: bool, seed: int, seeder: Seeder): seq<string>
  {
    var kept := Truncated(listing, datasetSize);
    if shuffle then Shuffled(kept, seeder(seed), 0) else kept
  }

  /** Truncation happens before the shuffle: the catalogue holds exactly the
      entries of a prefix of the listing, at most `dataset_size` of them when
      that is positive, and is determined by the seed and the listing. */
  lemma CatalogueIsShuffledPrefix(listing: seq<string>, datasetSize: Option<int>, shuffle: bool, seed: int, seeder: Seeder)
    ensures var kept := Truncated(listing, datasetSize);
            var cat := Catalogue(listing, datasetSize, shuffle, seed, seeder);
            && kept == listing[..|kept|]
            && |cat| == |kept| && multiset(cat) == multiset(kept)
            && (datasetSize.Some? && datasetSize.value > 0 ==> |cat| <= datasetSize.value)
            && (!shuffle ==> cat == kept)
  {
    ShufflePermutes(Truncated(listing, datasetSize), seeder(seed), 0);
  }

  predicate Distinct<T(==)>(s: seq<T>)
  {
    forall i, j :: 0 <= i < j < |s| ==> s[i] != s[j]
  }

  lemma {:induction false} DistinctByMultiset<T>(s: seq<T>, t: seq<T>)
    requires Distinct(s) && multiset(t) == multiset(s)
    ensures Distinct(t)
  {
    forall i, j | 0 <= i < j < |t|
      ensures t[i] != t[j]
    {
      if t[i] == t[j] {
        var x := t[i];
        assert multiset(t)[x] >= 2 by {
          assert t == t[..j] + [t[j]] + t[j + 1..];
          assert t[i] in t[..j];
          assert multiset(t)[x] == multiset(t[..j])[x] + 1 + multiset(t[j + 1..])[x];
        }
        CountAtMostOne(s, x);
        assert false;
      }
    }
  }

  lemma {:induction false} CountAtMostOne<T>(s: seq<T>, x: T)
    requires Distinct(s)
    ensures multiset(s)[x] <= 1
    decreases |s|
  {
    if s != [] {
      var init := s[..|s| - 1];
      assert s == init + [s[|s| - 1]];
      assert Distinct(init);
      CountAtMostOne(init, x);
      if s[|s| - 1] == x {
        assert x !in init by {
          forall k | 0 <= k < |init| ensures init[k] != x { assert init[k] == s[k]; }
        }
      }
    }
  }

  /** A prefix of a listing without repeats is shuffled into an order without
      repeats. */
  lemma CatalogueDistinct(listing: seq<string>, datasetSize: Option<int>, shuffle: bool, seed: int, seeder: Seeder)
    requires Distinct(listing)
    ensures Distinct(Catalogue(listing, datasetSize, shuffle, seed, seeder))
  {
    CatalogueIsShuffledPrefix(listing, datasetSize, shuffle, seed, seeder);
    var kept := Truncated(listing, datasetSize);
    assert Distinct(kept) by {
      forall i, j | 0 <= i < j < |kept| ensures kept[i] != kept[j] { assert kept[i] == listing[i] && kept[j] == listing[j]; }
    }
    DistinctByMultiset(kept, Catalogue(listing, datasetSize, shuffle, seed, seeder));
  }

  // ---------------------------------------------------------------------------
  // Output names
  // ---------------------------------------------------------------------------

  /** `str(index).zfill(digits_count(n))`. */
  function SeqName(index: nat, n: nat): string
  {
    ZFill(NatToString(index), DigitsCount(n))
  }

  /** Sequential names have the width of the unit count and differ from each
      other. */
  lemma SeqNames(i: nat, j: nat, n: nat)
    requires i < n && j < n
    ensures |SeqName(i, n)| == DigitsCount(n)
    ensures AllDigits(SeqName(i, n))
    ensures i != j ==> SeqName(i, n) != SeqName(j, n)
  {
    NumDigitsMonotonic(i, n);
    NumDigitsMonotonic(j, n);
    ZFillNat(i, DigitsCount(n));
    ZFillNat(j, DigitsCount(n));
  }

  /** The output name of catalogue entry `i`. */
  function UnitName(cat: seq<string>, i: nat, realName: bool): string
    requires i < |cat|
  {
    if realName then Stem(cat[i]) else SeqName(i, |cat|)
  }

  /** In real-name mode, two listed files `<base>.<e1>` and `<base>.<e2>`
      (a non-empty base, extensions without a dot) both get the name `base`,
      so the second overwrites the first's outputs. */
  lemma RealNamesCollide(cat: seq<string>, i: nat, j: nat, base: string, e1: string, e2: string)
    requires i < |cat| && j < |cat|
    requires base != [] && e1 != [] && e2 != [] && '.' !in e1 && '.' !in e2
    requires cat[i] == base + "." + e1 && cat[j] == base + "." + e2
    ensures UnitName(cat, i, true) == UnitName(cat, j, true) == base
  {
    StemOfSuffixed(base, e1);
    StemOfSuffixed(base, e2);
  }

  /** The (path, name) assignments of `self.img_names`, in catalogue order. */
  function Entries(cat: seq<string>, inPath: string, realName: bool): (e: seq<(string, string)>)
    ensures |e| == |cat|
    ensures forall i :: 0 <= i < |cat| ==> e[i] == (PathJoin(inPath, cat[i]), UnitName(cat, i, realName))
  {
    seq(|cat|, i requires 0 <= i < |cat| => (PathJoin(inPath, cat[i]), UnitName(cat, i, realName)))
  }

  /** The key order of a dict filled by successive assignments. */
  function DictKeys(pairs: seq<(string, string)>): seq<string>
  {
    if pairs == [] then []
    else
      var ks := DictKeys(pairs[..|pairs| - 1]);
      if pairs[|pairs| - 1].0 in ks then ks else ks + [pairs[|pairs| - 1].0]
  }

  /** The contents of a dict filled by successive assignments. */
  function DictOf(pairs: seq<(string, string)>): map<string, string>
  {
    if pairs == [] then map[]
    else DictOf(pairs[..|pairs| - 1])[pairs[|pairs| - 1].0 := pairs[|pairs| - 1].1]
  }

  /** With distinct keys, the dict keeps every assignment, in order. */
  lemma {:induction false} DictOfDistinct(pairs: seq<(string, string)>)
    requires forall i, j :: 0 <= i < j < |pairs| ==> pairs[i].0 != pairs[j].0
    ensures |DictKeys(pairs)| == |pairs|
    ensures forall i :: 0 <= i < |pairs| ==> DictKeys(pairs)[i] == pairs[i].0
    ensures forall i :: 0 <= i < |pairs| ==> pairs[i].0 in DictOf(pairs) && DictOf(pairs)[pairs[i].0] == pairs[i].1
    ensures forall k :: k in DictOf(pairs) <==> k in DictKeys(pairs)
    decreases |pairs|
  {
    if pairs != [] {
      var init := pairs[..|pairs| - 1];
      var last := pairs[|pairs| - 1];
      assert forall i :: 0 <= i < |init| ==> init[i] == pairs[i];
      DictOfDistinct(init);
      var ks := DictKeys(init);
      assert last.0 !in ks by {
        forall i | 0 <= i < |init| ensures ks[i] != last.0 { }
      }
      assert DictKeys(pairs) == ks + [last.0];
      assert DictOf(pairs) == DictOf(init)[last.0 := last.1];
      forall i | 0 <= i < |pairs|
        ensures DictKeys(pairs)[i] == pairs[i].0
        ensures pairs[i].0 in DictOf(pairs) && DictOf(pairs)[pairs[i].0] == pairs[i].1
      {
        if i < |init| {
          assert init[i] == pairs[i] && pairs[i].0 != last.0;
        }
      }
    }
  }

  lemma {:induction false} DictKeysMatch(pairs: seq<(string, string)>)
    ensures forall k :: k in DictOf(pairs) <==> k in DictKeys(pairs)
    decreases |pairs|
  {
    if pairs != [] {
      DictKeysMatch(pairs[..|pairs| - 1]);
    }
  }

  /** One more assignment `d[k] = v`: a new key goes to the end of the key
      order, and the value is replaced either way. */
  lemma DictStep(pairs: seq<(string, string)>, i: nat)
    requires i < |pairs|
    ensures DictOf(pairs[..i + 1]) == DictOf(pairs[..i])[pairs[i].0 := pairs[i].1]
    ensures DictKeys(pairs[..i + 1]) ==
              if pairs[i].0 in DictOf(pairs[..i]) then DictKeys(pairs[..i]) else DictKeys(pairs[..i]) + [pairs[i].0]
  {
    assert pairs[..i + 1][..i] == pairs[..i];
    DictKeysMatch(pairs[..i]);
  }

  /** A directory entry: non-empty and without `/`. */
  predicate EntryName(name: string) { |name| > 0 && '/' !in name }

  /** For a listing of directory entries, `self.img_names` has one key per
      catalogue entry, `join(in_path, entry)`, in catalogue order, mapped to
      that entry's output name. */
  lemma KeysFollowCatalogue(cat: seq<string>, inPath: string, realName: bool)
    requires Distinct(cat) && forall i :: 0 <= i < |cat| ==> EntryName(cat[i])
    ensures var e := Entries(cat, inPath, realName);
            && |DictKeys(e)| == |cat|
            && (forall i :: 0 <= i < |cat| ==> DictKeys(e)[i] == PathJoin(inPath, cat[i]))
            && (forall i :: 0 <= i < |cat| ==> PathJoin(inPath, cat[i]) in DictOf(e))
            && (forall i :: 0 <= i < |cat| ==> DictOf(e)[PathJoin(inPath, cat[i])] == UnitName(cat, i, realName))
  {
    var e := Entries(cat, inPath, realName);
    forall i, j | 0 <= i < j < |e| ensures e[i].0 != e[j].0 {
      if e[i].0 == e[j].0 {
        assert cat[i][0] in cat[i];
        assert cat[j][0] in cat[j];
        PathJoinInjective(inPath, cat[i], cat[j]);
      }
    }
    DictOfDistinct(e);
  }

  // ---------------------------------------------------------------------------
  // Chain and forward
  // ---------------------------------------------------------------------------

  /** What a registered node class builds from its options (or the exception
      its constructor raises). */
  datatype NodeParams = NodeParams(forward: Forward, probability: real, seed: Option<int>)
  type NodeClass = string -> Result<NodeParams>

  function ParamsOf(n: Node): NodeParams
  {
    NodeParams(n.forward, n.probability, n.seed)
  }

  /** `[registered_classes[deg.type](deg.options) for deg in degradation]`. */
  function ChainParams(degs: seq<Degradation>, classes: map<string, NodeClass>): Result<seq<NodeParams>>
    decreases |degs|
  {
    if degs == [] then Ok([])
    else match ChainParams(degs[..|degs| - 1], classes)
      case Err(e) => Err(e)
      case Ok(ps) =>
        var d := degs[|degs| - 1];
        if d.kind !in classes then Err(KeyError)
        else match classes[d.kind](d.options)
          case Err(e) => Err(e)
          case Ok(p) => Ok(ps + [p])
  }

  /** The chain follows the configuration: one node per entry, in order, and
      it can be built only if every type is registered. */
  lemma {:induction false} ChainParamsShape(degs: seq<Degradation>, classes: map<string, NodeClass>)
    ensures var c := ChainParams(degs, classes);
            && (c.Ok? ==> |c.value| == |degs|
                          && forall i :: 0 <= i < |degs| ==> degs[i].kind in classes && classes[degs[i].kind](degs[i].options) == Ok(c.value[i]))
            && ((exists i :: 0 <= i < |degs| && degs[i].kind !in classes) ==> c.Err?)
    decreases |degs|
  {
    if degs != [] {
      var init := degs[..|degs| - 1];
      ChainParamsShape(init, classes);
      assert forall i :: 0 <= i < |init| ==> init[i] == degs[i];
      if exists i :: 0 <= i < |degs| && degs[i].kind !in classes {
        var i :| 0 <= i < |degs| && degs[i].kind !in classes;
        if i < |init| {
          assert init[i].kind !in classes;
        }
      }
    }
  }

  /** Builds the node chain from the registry. */
  method BuildNodes(degs: seq<Degradation>, registry: Registry<NodeClass>) returns (r: Result<seq<Node>>)
    ensures var c := ChainParams(degs, registry.classes);
            && (r.Ok? <==> c.Ok?)
            && (r.Err? ==> r.error == c.error)
            && (r.Ok? ==> |r.value| == |c.value| && forall i :: 0 <= i < |r.value| ==> ParamsOf(r.value[i]) == c.value[i])
  {
    var nodes: seq<Node> := [];
    for i := 0 to |degs|
      invariant ChainParams(degs[..i], registry.classes).Ok?
      invariant |nodes| == |ChainParams(degs[..i], registry.classes).value|
      invariant forall k :: 0 <= k < |nodes| ==> ParamsOf(nodes[k]) == ChainParams(degs[..i], registry.classes).value[k]
    {
      assert degs[..i + 1][..i] == degs[..i];
      var d := degs[i];
      var cls := registry.Index(d.kind);
      if cls.Err? {
        ChainParamsStops(degs, registry.classes, i + 1);
        return Err(cls.error);
      }
      var p := cls.value(d.options);
      if p.Err? {
        ChainParamsStops(degs, registry.classes, i + 1);
        return Err(p.error);
      }
      var n := new Node(p.value.forward, p.value.probability, p.value.seed);
      nodes := nodes + [n];
    }
    assert degs[..|degs|] == degs;
    r := Ok(nodes);
  }

  lemma {:induction false} ChainParamsStops(degs: seq<Degradation>, classes: map<string, NodeClass>, k: nat)
    requires k <= |degs|
    requires ChainParams(degs[..k], classes).Err?
    ensures ChainParams(degs, classes) == ChainParams(degs[..k], classes)
    decreases |degs| - k
  {
    if k < |degs| {
      assert degs[..k + 1][..k] == degs[..k];
      ChainParamsStops(degs, classes, k + 1);
    } else {
      assert degs[..k] == degs;
    }
  }

  /** The external readers and the hash/seeding primitives. */
  datatype Environment = Environment(read: bool -> Reader, readTiles: (bool, int) -> TileReader,
                                     hash: Hasher, seeder: Seeder)

  /** The options the bound forward depends on. */
  datatype Settings = Settings(output: string, onlyLq: bool, seed: int, tile: Option<TileOptions>, gray: bool)

  /** `save_lq if opts.only_lq else save_hq_lq`. */
  function SaverOf(onlyLq: bool): Saver { if onlyLq then SaveLq else SaveHqLq }

  /** The `partial(tile_process, ...)` or `partial(std_process, ...)`. */
  function ProcessorOf(s: Settings, nodes: seq<Node>, names: map<string, string>, env: Environment): Processor
  {
    var job := Job(SaverOf(s.onlyLq), nodes, s.seed, s.output, names, env.hash, env.seeder);
    if s.tile.Some? then Tiled(job, env.readTiles(s.gray, s.tile.value.size), s.tile.value.noWb)
    else Whole(job, env.read(s.gray))
  }

  /** `p` is a bound forward whose nodes were built from `chain`'s entries,
      in order. */
  ghost predicate ChainBinding(p: Processor, s: Settings, names: map<string, string>, env: Environment,
                               chain: Result<seq<NodeParams>>)
  {
    && chain.Ok?
    && p == ProcessorOf(s, p.job.nodes, names, env)
    && |p.job.nodes| == |chain.value|
    && forall i :: 0 <= i < |chain.value| ==> ParamsOf(p.job.nodes[i]) == chain.value[i]
  }

  /** Builds the nodes and binds the forward (`__init__` and `init_worker`). */
  method BindForward(s: Settings, degs: seq<Degradation>, registry: Registry<NodeClass>,
                     names: map<string, string>, env: Environment) returns (r: Result<Processor>)
    ensures r.Err? <==> ChainParams(degs, registry.classes).Err?
    ensures r.Err? ==> r.error == ChainParams(degs, registry.classes).error
    ensures r.Ok? ==> ChainBinding(r.value, s, names, env, ChainParams(degs, registry.classes))
  {
    var nodes := BuildNodes(degs, registry);
    if nodes.Err? {
      return Err(nodes.error);
    }
    r := Ok(ProcessorOf(s, nodes.value, names, env));
  }

  /** What preparing the output tree does: clear it first when asked, then
      `lq/`, then `hq/` unless only LQ is kept. */
  function SetupEvents(out: string, outputClear: bool, onlyLq: bool): (w: seq<FsEvent>)
    ensures Created(PathJoin(out, "lq")) in w
    ensures Created(PathJoin(out, "hq")) in w <==> !onlyLq
    ensures outputClear <==> (|w| > 0 && w[0] == RemoveTree(out))
    ensures forall k :: 0 <= k < |w| ==> !w[k].Save?
  {
    PathJoinDistinct(out, "lq", "hq");
    (if outputClear then [RemoveTree(out)] else [])
    + [Created(PathJoin(out, "lq"))]
    + (if onlyLq then [] else [Created(PathJoin(out, "hq"))])
  }

  /** Prepares the output tree: `out_clear` when asked, then the `lq` and
      (unless only LQ is kept) `hq` directories. */
  method PrepareOutput(out: string, outputClear: bool, onlyLq: bool, disk: Disk)
    modifies disk
    ensures disk.log == old(disk.log) + SetupEvents(out, outputClear, onlyLq)
  {
    if outputClear {
      disk.OutClear(out);
    }
    disk.MakeDirs(PathJoin(out, "lq"));
    if !onlyLq {
      disk.MakeDirs(PathJoin(out, "hq"));
    }
  }

  /** Listing, truncation and the optional in-place shuffle of `__init__`. */
  method ListCatalogue(listing: seq<string>, datasetSize: Option<int>, shuffle: bool, seed: int, seeder: Seeder)
    returns (cat: seq<string>)
    ensures cat == Catalogue(listing, datasetSize, shuffle, seed, seeder)
  {
    cat := Truncated(listing, datasetSize);
    if shuffle {
      var rng := new SafeRng(seed, seeder);
      var a := new string[|cat|](i requires 0 <= i < |cat| => cat[i]);
      assert a[..] == cat;
      rng.gen.Shuffle(a);
      cat := a[..];
    }
  }

  /** Fills `self.img_names`: the stem of each entry in real-name mode, its
      zero-padded position otherwise. */
  method NameUnits(cat: seq<string>, inPath: string, realName: bool)
    returns (keys: seq<string>, names: map<string, string>)
    ensures keys == DictKeys(Entries(cat, inPath, realName))
    ensures names == DictOf(Entries(cat, inPath, realName))
  {
    if realName {
      keys, names := NameByStem(cat, inPath);
    } else {
      keys, names := NameByPosition(cat, inPath);
    }
  }

  /** The real-name loop: each entry's key is assigned the entry's stem. */
  method NameByStem(cat: seq<string>, inPath: string) returns (keys: seq<string>, names: map<string, string>)
    ensures keys == DictKeys(Entries(cat, inPath, true))
    ensures names == DictOf(Entries(cat, inPath, true))
  {
    ghost var e := Entries(cat, inPath, true);
    keys := [];
    names := map[];
    for i := 0 to |cat|
      invariant keys == DictKeys(e[..i]) && names == DictOf(e[..i])
    {
      DictStep(e, i);
      var key := PathJoin(inPath, cat[i]);
      if key !in names {
        keys := keys + [key];
      }
      names := names[key := Stem(cat[i])];
    }
    assert e[..|cat|] == e;
  }

  /** The sequential loop: each entry's key is assigned its position,
      zero-padded to the width of the entry count. */
  method NameByPosition(cat: seq<string>, inPath: string) returns (keys: seq<string>, names: map<string, string>)
    ensures keys == DictKeys(Entries(cat, inPath, false))
    ensures names == DictOf(Entries(cat, inPath, false))
  {
    ghost var e := Entries(cat, inPath, false);
    keys := [];
    names := map[];
    var zFill := DigitsCount(|cat|);
    for i := 0 to |cat|
      invariant keys == DictKeys(e[..i]) && names == DictOf(e[..i])
    {
      DictStep(e, i);
      var key := PathJoin(inPath, cat[i]);
      if key !in names {
        keys := keys + [key];
      }
      names := names[key := ZFill(NatToString(i), zFill)];
    }
    assert e[..|cat|] == e;
  }

  // ---------------------------------------------------------------------------
  // Running
  // ---------------------------------------------------------------------------

  /** `_run_simple`: the units in key order; the first exception stops the run. */
  function SimpleRun(p: Processor, paths: seq<string>): Run
    decreases |paths|
  {
    if paths == [] then Run([], None)
    else
      var before := SimpleRun(p, paths[..|paths| - 1]);
      if before.failure.Some? then before
      else
        var u := UnitRun(p, paths[|paths| - 1]);
        Run(before.events + u.events, u.failure)
  }

  /** One more unit extends the simple run of a prefix. */
  lemma SimpleRunStep(p: Processor, paths: seq<string>, i: nat)
    requires i < |paths|
    ensures SimpleRun(p, paths[..i + 1]) ==
              if SimpleRun(p, paths[..i]).failure.Some? then SimpleRun(p, paths[..i])
              else Run(SimpleRun(p, paths[..i]).events + UnitRun(p, paths[i]).events, UnitRun(p, paths[i]).failure)
  {
    assert paths[..i + 1][..i] == paths[..i];
  }

  /** Once a unit has raised, no later unit runs. */
  lemma {:induction false} SimpleRunStops(p: Processor, paths: seq<string>, k: nat)
    requires k <= |paths| && SimpleRun(p, paths[..k]).failure.Some?
    ensures SimpleRun(p, paths) == SimpleRun(p, paths[..k])
    decreases |paths| - k
  {
    if k < |paths| {
      SimpleRunStep(p, paths, k);
      SimpleRunStops(p, paths, k + 1);
    } else {
      assert paths[..k] == paths;
    }
  }

  /** What a pool run leaves behind: the units' writes and, per failing task,
      its path and exception. */
  datatype Report = Report(events: seq<FsEvent>, failed: seq<(string, Error)>)

  /** Every task attempted in key order, each exception caught and recorded.
      `None` is a pool whose workers could not build the chain: every task
      then fails without writing anything. */
  function PoolRun(forward: Option<Processor>, paths: seq<string>): Report
    decreases |paths|
  {
    if paths == [] then Report([], [])
    else
      var before := PoolRun(forward, paths[..|paths| - 1]);
      var path := paths[|paths| - 1];
      match forward
      case None => Report(before.events, before.failed + [(path, Raised)])
      case Some(p) =>
        var u := UnitRun(p, path);
        Report(before.events + u.events, before.failed + if u.failure.Some? then [(path, u.failure.value)] else [])
  }

  /** A failing task never stops the others: each reported failure belongs to
      a task and is the exception that task's own unit raises. */
  lemma {:induction false} PoolRunReports(p: Processor, paths: seq<string>)
    ensures var rep := PoolRun(Some(p), paths);
            && |rep.failed| <= |paths|
            && forall k :: 0 <= k < |rep.failed| ==>
                 rep.failed[k].0 in paths && UnitRun(p, rep.failed[k].0).failure == Some(rep.failed[k].1)
    decreases |paths|
  {
    if paths != [] {
      var init := paths[..|paths| - 1];
      PoolRunReports(p, init);
      assert forall x :: x in init ==> x in paths;
    }
  }

  /** A broken pool fails every task, in order, and writes nothing. */
  lemma {:induction false} BrokenPoolFailsAll(paths: seq<string>)
    ensures PoolRun(None, paths).events == []
    ensures |PoolRun(None, paths).failed| == |paths|
    ensures forall k :: 0 <= k < |paths| ==> PoolRun(None, paths).failed[k] == (paths[k], Raised)
    decreases |paths|
  {
    if paths != [] {
      BrokenPoolFailsAll(paths[..|paths| - 1]);
    }
  }

  /** The thread run in which every task had started before the first
      failure was read: all tasks write, and the first failure in key order is
      raised. This is the most the thread strategy can write. */
  function ThreadRun(p: Processor, paths: seq<string>): Run
  {
    var rep := PoolRun(Some(p), paths);
    Run(rep.events, if rep.failed == [] then None else Some(rep.failed[0].1))
  }

  /** `thread_map`, which is `Executor.map`: every task is submitted, the
      results are read in key order, and at the first failing one the map
      cancels every task that no worker has started and raises that failure.
      `started` holds the indices of the tasks a worker had taken up by then;
      which they are depends on scheduling, so it is given. Every task up to
      and including the first failing one has run. */
  function ThreadRunWith(p: Processor, paths: seq<string>, started: set<nat>): Run
    decreases |paths|
  {
    if paths == [] then Run([], None)
    else
      var before := ThreadRunWith(p, paths[..|paths| - 1], started);
      if before.failure.Some? && |paths| - 1 !in started then before
      else
        var u := UnitRun(p, paths[|paths| - 1]);
        Run(before.events + u.events, if before.failure.Some? then before.failure else u.failure)
  }

  /** Whatever the workers had started, the thread strategy raises what the
      simple one raises, writes at least what it writes (as a prefix), writes
      exactly that when nothing fails, and writes no more than the run in
      which every task ran. */
  lemma {:induction false} ThreadRunBetween(p: Processor, paths: seq<string>, started: set<nat>)
    ensures ThreadRunWith(p, paths, started).failure == SimpleRun(p, paths).failure
    ensures SimpleRun(p, paths).events <= ThreadRunWith(p, paths, started).events
    ensures SimpleRun(p, paths).failure.None? ==> ThreadRunWith(p, paths, started).events == SimpleRun(p, paths).events
    ensures multiset(ThreadRunWith(p, paths, started).events) <= multiset(ThreadRun(p, paths).events)
    decreases |paths|
  {
    if paths != [] {
      var init := paths[..|paths| - 1];
      ThreadRunBetween(p, init, started);
      var u := UnitRun(p, paths[|paths| - 1]);
      var w := ThreadRunWith(p, init, started);
      var pool := PoolRun(Some(p), init);
      assert ThreadRun(p, init).events == pool.events;
      assert ThreadRun(p, paths).events == pool.events + u.events;
      assert multiset(pool.events + u.events) == multiset(pool.events) + multiset(u.events);
      if w.failure.Some? {
        assert SimpleRun(p, paths) == SimpleRun(p, init);
        assert multiset(w.events + u.events) == multiset(w.events) + multiset(u.events);
      } else {
        assert w.events == SimpleRun(p, init).events;
      }
    }
  }

  /** With no task started beyond the first failure the thread strategy is
      the simple one; with every task started it is ThreadRun. */
  lemma {:induction false} ThreadRunExtremes(p: Processor, paths: seq<string>, started: set<nat>)
    ensures started == {} ==> ThreadRunWith(p, paths, started) == SimpleRun(p, paths)
    ensures (forall k :: 0 <= k < |paths| ==> k in started) ==> ThreadRunWith(p, paths, started) == ThreadRun(p, paths)
    decreases |paths|
  {
    if paths != [] {
      var init := paths[..|paths| - 1];
      ThreadRunExtremes(p, init, started);
      if forall k :: 0 <= k < |paths| ==> k in started {
        assert |paths| - 1 in started;
        assert forall k :: 0 <= k < |init| ==> k in started;
        var pool := PoolRun(Some(p), init);
        assert ThreadRun(p, init).failure.None? <==> pool.failed == [];
        if pool.failed != [] {
          assert PoolRun(Some(p), paths).failed[0] == pool.failed[0];
        }
      }
    }
  }

  /** The simple and thread strategies raise the same exception, and what the
      simple run writes is the start of what the thread run writes; without a
      failure both write the same. */
  lemma {:induction false} SimpleRunIsThreadPrefix(p: Processor, paths: seq<string>)
    ensures SimpleRun(p, paths).failure == ThreadRun(p, paths).failure
    ensures SimpleRun(p, paths).events <= ThreadRun(p, paths).events
    ensures SimpleRun(p, paths).failure.None? ==> SimpleRun(p, paths).events == ThreadRun(p, paths).events
    decreases |paths|
  {
    if paths != [] {
      var init := paths[..|paths| - 1];
      SimpleRunIsThreadPrefix(p, init);
      var u := UnitRun(p, paths[|paths| - 1]);
      var before := PoolRun(Some(p), init);
      var s := SimpleRun(p, init);
      assert PoolRun(Some(p), paths).events == before.events + u.events;
      if s.failure.Some? {
        assert before.failed != [];
        assert PoolRun(Some(p), paths).failed[0] == before.failed[0];
      } else {
        assert before.failed == [];
      }
    }
  }

  /** Runs every task through `forward` (or fails each against a broken pool),
      recording failures instead of raising them. */
  method RunAll(forward: Option<Processor>, paths: seq<string>, disk: Disk) returns (failed: seq<(string, Error)>)
    modifies disk
    ensures disk.log == old(disk.log) + PoolRun(forward, paths).events
    ensures failed == PoolRun(forward, paths).failed
  {
    failed := [];
    ghost var written: seq<FsEvent> := [];
    for i := 0 to |paths|
      invariant disk.log == old(disk.log) + written
      invariant PoolRun(forward, paths[..i]) == Report(written, failed)
    {
      assert paths[..i + 1][..i] == paths[..i];
      match forward
      case None =>
        failed := failed + [(paths[i], Raised)];
      case Some(p) =>
        var u := RunUnit(p, paths[i], disk);
        AppendAssoc(old(disk.log), written, UnitRun(p, paths[i]).events);
        written := written + UnitRun(p, paths[i]).events;
        if u.Err? {
          failed := failed + [(paths[i], u.error)];
        }
    }
    assert paths[..|paths|] == paths;
  }

  // ---------------------------------------------------------------------------
  // The pipeline object
  // ---------------------------------------------------------------------------

  class PipeLine {
    var inPath: string
    var keys: seq<string>            // `self.img_names`, key order
    var names: map<string, string>   // `self.img_names`, contents
    var outPath: string
    var numWorkers: Option<int>
    var mapType: string
    var forward: Option<Processor>   // `self.forward`, bound unless map_type is "process"
    var settings: Settings
    var degradation: seq<Degradation>
    var registry: Registry<NodeClass>
    var env: Environment

    /** `self.forward` exists exactly when the strategy is not "process". */
    predicate Valid()
      reads this
    {
      forward.Some? <==> mapType != "process"
    }

    constructor (inPath: string, keys: seq<string>, names: map<string, string>, outPath: string,
                 numWorkers: Option<int>, mapType: string, forward: Option<Processor>, settings: Settings,
                 degradation: seq<Degradation>, registry: Registry<NodeClass>, env: Environment)
      ensures this.inPath == inPath && this.keys == keys && this.names == names && this.outPath == outPath
      ensures this.numWorkers == numWorkers && this.mapType == mapType && this.forward == forward
      ensures this.settings == settings && this.degradation == degradation && this.registry == registry
      ensures this.env == env
    {
      this.inPath := inPath;
      this.keys := keys;
      this.names := names;
      this.outPath := outPath;
      this.numWorkers := numWorkers;
      this.mapType := mapType;
      this.forward := forward;
      this.settings := settings;
      this.degradation := degradation;
      this.registry := registry;
      this.env := env;
    }

    /** `PipeLine(options)`, given the directory listing of `opts.input`. The
        output tree is prepared before the chain is built, so an unknown node
        type raises with the tree already cleared and created. */
    static method Create(opts: PipelineOptions, listing: seq<string>, registry: Registry<NodeClass>,
                         env: Environment, disk: Disk) returns (r: Result<PipeLine>)
      requires opts.seed.Some?
      modifies disk
      ensures disk.log == old(disk.log) + SetupEvents(opts.output, opts.outputClear, opts.onlyLq)
      ensures r.Err? <==> opts.mapType != "process" && ChainParams(opts.degradation, registry.classes).Err?
      ensures r.Err? ==> r.error == ChainParams(opts.degradation, registry.classes).error
      ensures r.Ok? ==> fresh(r.value) && r.value.Valid()
      ensures r.Ok? ==>
                var e := Entries(Catalogue(listing, opts.datasetSize, opts.shuffleDataset, opts.seed.value, env.seeder),
                                 opts.input, opts.realName);
                r.value.keys == DictKeys(e) && r.value.names == DictOf(e)
      ensures r.Ok? ==>
                && r.value.inPath == opts.input && r.value.outPath == opts.output
                && r.value.mapType == opts.mapType && r.value.numWorkers == opts.numWorkers
                && r.value.degradation == opts.degradation && r.value.registry == registry && r.value.env == env
                && r.value.settings == Settings(opts.output, opts.onlyLq, opts.seed.value, opts.tile, opts.gray)
      ensures r.Ok? && r.value.forward.Some? ==>
                ChainBinding(r.value.forward.value, r.value.settings, r.value.names, env, ChainParams(opts.degradation, registry.classes))
    {
      var cat := ListCatalogue(listing, opts.datasetSize, opts.shuffleDataset, opts.seed.value, env.seeder);
      var keys, names := NameUnits(cat, opts.input, opts.realName);
      PrepareOutput(opts.output, opts.outputClear, opts.onlyLq, disk);
      var settings := Settings(opts.output, opts.onlyLq, opts.seed.value, opts.tile, opts.gray);
      var forward: Option<Processor> := None;
      if !(opts.mapType == "process") {
        var p := BindForward(settings, opts.degradation, registry, names, env);
        if p.Err? {
          return Err(p.error);
        }
        forward := Some(p.value);
      }
      var pl := new PipeLine(opts.input, keys, names, opts.output, opts.numWorkers, opts.mapType,
                             forward, settings, opts.degradation, registry, env);
      r := Ok(pl);
    }

    /** `_run_simple`: every key, in dict order, through `self.forward`; the
        first exception propagates. */
    method RunSimple(disk: Disk) returns (r: Result<()>)
      requires forward.Some?
      modifies disk
      ensures var run := SimpleRun(forward.value, keys);
              && disk.log == old(disk.log) + run.events
              && (r.Ok? <==> run.failure.None?)
              && (r.Err? ==> run.failure == Some(r.error))
    {
      var paths, p := keys, forward.value;
      ghost var written: seq<FsEvent> := [];
      for i := 0 to |paths|
        invariant disk.log == old(disk.log) + written
        invariant SimpleRun(p, paths[..i]) == Run(written, None)
      {
        SimpleRunStep(p, paths, i);
        var u := RunUnit(p, paths[i], disk);
        AppendAssoc(old(disk.log), written, UnitRun(p, paths[i]).events);
        written := written + UnitRun(p, paths[i]).events;
        if u.Err? {
          SimpleRunStops(p, paths, i + 1);
          return Err(u.error);
        }
      }
      assert paths[..|paths|] == paths;
      r := Ok(());
    }

    /** `_run_thread`: every key through `self.forward`, results read in key
        order; after the first failure only the tasks in `started` still run,
        and that failure is raised. */
    method RunThread(disk: Disk, started: set<nat>) returns (r: Result<()>)
      requires forward.Some?
      modifies disk
      ensures var run := ThreadRunWith(forward.value, keys, started);
              && disk.log == old(disk.log) + run.events
              && (r.Ok? <==> run.failure.None?)
              && (r.Err? ==> run.failure == Some(r.error))
    {
      var paths, p := keys, forward.value;
      ghost var written: seq<FsEvent> := [];
      var failure: Option<Error> := None;
      for i := 0 to |paths|
        invariant disk.log == old(disk.log) + written
        invariant ThreadRunWith(p, paths[..i], started) == Run(written, failure)
      {
        assert paths[..i + 1][..i] == paths[..i];
        if failure.None? || i in started {
          var u := RunUnit(p, paths[i], disk);
          AppendAssoc(old(disk.log), written, UnitRun(p, paths[i]).events);
          written := written + UnitRun(p, paths[i]).events;
          if failure.None? && u.Err? {
            failure := Some(u.error);
          }
        }
      }
      assert paths[..|paths|] == paths;
      r := if failure.None? then Ok(()) else Err(failure.value);
    }

    /** `_run_process`: each worker binds its own chain from the same options;
        every task is attempted and its exception reported, never raised. A
        chain that cannot be built breaks the pool, and every task then fails. */
    method RunProcess(disk: Disk) returns (failed: seq<(string, Error)>, pool: Option<Processor>)
      modifies disk
      ensures pool.None? <==> ChainParams(degradation, registry.classes).Err?
      ensures pool.Some? ==> ChainBinding(pool.value, settings, names, env, ChainParams(degradation, registry.classes))
      ensures disk.log == old(disk.log) + PoolRun(pool, keys).events
      ensures failed == PoolRun(pool, keys).failed
    {
      var p := BindForward(settings, degradation, registry, names, env);
      pool := if p.Ok? then Some(p.value) else None;
      failed := RunAll(pool, keys, disk);
    }

    /** `__call__`: dispatch on the strategy; an unknown one raises
        ValueError before anything runs. The process strategy never raises;
        `pool` is the forward its workers bind (None when the chain cannot be
        built). */
    method Call(disk: Disk, started: set<nat>) returns (r: Result<()>, ghost pool: Option<Processor>)
      requires Valid()
      modifies disk
      ensures mapType !in {"simple", "thread", "process"} ==> r == Err(ValueError) && disk.log == old(disk.log)
      ensures mapType == "simple" ==>
                var run := SimpleRun(forward.value, keys);
                && disk.log == old(disk.log) + run.events
                && (r.Ok? <==> run.failure.None?)
                && (r.Err? ==> run.failure == Some(r.error))
      ensures mapType == "thread" ==>
                var run := ThreadRunWith(forward.value, keys, started);
                && disk.log == old(disk.log) + run.events
                && (r.Ok? <==> run.failure.None?)
                && (r.Err? ==> run.failure == Some(r.error))
      ensures mapType == "process" ==>
                && r.Ok?
                && (pool.None? <==> ChainParams(degradation, registry.classes).Err?)
                && (pool.Some? ==> ChainBinding(pool.value, settings, names, env, ChainParams(degradation, registry.classes)))
                && disk.log == old(disk.log) + PoolRun(pool, keys).events
    {
      pool := None;
      if mapType == "simple" {
        r := RunSimple(disk);
      } else if mapType == "thread" {
        r := RunThread(disk, started);
      } else if mapType == "process" {
        var _, p := RunProcess(disk);
        pool := p;
        r := Ok(());
      } else {
        r := Err(ValueError);
      }
    }
  }
}
