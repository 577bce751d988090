/** pepedd-core/pepedd/core/pipeline/process.py: folding the node chain over a
    state, and processing one input path either as a whole image or tile by
    tile. */
module Process {

  import opened Wrappers
  import opened PyText
  import opened Rng
  import opened Images
  import opened Nodes
  import opened PipelineUtils

  /** The buffers and the generator position reached so far. */
  datatype Threaded = Threaded(out: Buffers, pos: nat)

  /** The node chain on values: each node gets what the previous one returned;
      the first exception ends the chain. */
  function Chain(nodes: seq<Node>, seeder: Seeder, bufs: Buffers, stream: Stream, pos: nat): Result<Threaded>
    decreases |nodes|
  {
    if nodes == [] then Ok(Threaded(bufs, pos))
    else
      match Chain(nodes[..|nodes| - 1], seeder, bufs, stream, pos)
      case Err(e) => Err(e)
      case Ok(t) =>
        var n := nodes[|nodes| - 1];
        match CallOutcome(n.probability, n.seed, n.forward, seeder, t.out, stream, t.pos)
        case Err(e) => Err(e)
        case Ok(o) => Ok(Threaded(o.out, o.pos))
  }

  /** Running `a + b` is running `a`, then `b` on what `a` left. */
  lemma {:induction false} ChainAppend(a: seq<Node>, b: seq<Node>, seeder: Seeder, bufs: Buffers, stream: Stream, pos: nat)
    ensures Chain(a + b, seeder, bufs, stream, pos)
         == match Chain(a, seeder, bufs, stream, pos)
            case Err(e) => Err(e)
            case Ok(t) => Chain(b, seeder, t.out, stream, t.pos)
    decreases |b|
  {
    if b == [] {
      assert a + b == a;
    } else {
      var b' := b[..|b| - 1];
      assert (a + b)[..|a + b| - 1] == a + b';
      assert (a + b)[|a + b| - 1] == b[|b| - 1];
      ChainAppend(a, b', seeder, bufs, stream, pos);
    }
  }

  /** A single node chain is one node call. */
  lemma ChainOne(n: Node, seeder: Seeder, bufs: Buffers, stream: Stream, pos: nat)
    ensures Chain([n], seeder, bufs, stream, pos)
         == match CallOutcome(n.probability, n.seed, n.forward, seeder, bufs, stream, pos)
            case Err(e) => Err(e)
            case Ok(o) => Ok(Threaded(o.out, o.pos))
  {
    assert [n][..0] == [];
  }

  /** `node_iterator(nodes, state)`. */
  method NodeIterator(nodes: seq<Node>, state: LQHQState, seeder: Seeder) returns (r: Result<()>)
    modifies state, state.rng.gen
    ensures var c := Chain(nodes, seeder, old(Buffers(state.lq, state.hq)), old(state.rng.gen.stream), old(state.rng.gen.pos));
            && (r.Ok? <==> c.Ok?)
            && (r.Err? ==> r.error == c.error)
            && (c.Ok? ==> state.rng == old(state.rng) && Buffers(state.lq, state.hq) == c.value.out
                          && state.rng.gen.pos == c.value.pos)
  {
    var rng0 := state.rng;
    for i := 0 to |nodes|
      invariant state.rng == rng0
      invariant Chain(nodes[..i], seeder, old(Buffers(state.lq, state.hq)), rng0.gen.stream, old(state.rng.gen.pos))
             == Ok(Threaded(Buffers(state.lq, state.hq), rng0.gen.pos))
    {
      assert nodes[..i + 1][..i] == nodes[..i];
      var o := nodes[i].Call(state, seeder);
      if o.Err? {
        ChainAppend(nodes[..i + 1], nodes[i + 1..], seeder, old(Buffers(state.lq, state.hq)), rng0.gen.stream, old(state.rng.gen.pos));
        assert nodes[..i + 1] + nodes[i + 1..] == nodes;
        r := Err(o.error);
        return;
      }
    }
    assert nodes[..|nodes|] == nodes;
    r := Ok(());
  }

  // ---------------------------------------------------------------------------
  // Units
  // ---------------------------------------------------------------------------

  /** `reader(img_path)` for whole images. */
  type Reader = string -> Result<Image>

  /** `read_tiler(img_path)`: the tiles, in the order the reader yields them. */
  type TileReader = string -> Result<seq<Image>>

  /** The arguments the pipeline binds with `functools.partial`. */
  datatype Job = Job(saver: Saver, nodes: seq<Node>, seed: int, out: string,
                     names: map<string, string>, hash: Hasher, seeder: Seeder)

  /** The generator a unit starts with: `SafeRNG(mix_seed(*parts))`. */
  function UnitStream(job: Job, parts: seq<Part>): Stream
  {
    job.seeder(MixedSeed(parts, job.hash))
  }

  /** What `std_process` writes for `path`, or the exception it raises. */
  function StdRun(job: Job, read: Reader, path: string): Result<seq<FsEvent>>
  {
    if path !in job.names then Err(KeyError)
    else match read(path)
      case Err(e) => Err(e)
      case Ok(img) =>
        match Chain(job.nodes, job.seeder, Buffers(img, img), UnitStream(job, UnitParts(job.seed, path)), 0)
        case Err(e) => Err(e)
        case Ok(t) => Ok(SaveWrites(job.saver, t.out.lq, t.out.hq, job.out, job.names[path]))
  }

  /** `std_process`: the name is looked up first, the image read, a state
      built with `hq` the image and `lq` a copy and a generator seeded from
      `(seed, path)`, the chain folded, and the result saved under the name. */
  method StdProcess(job: Job, read: Reader, path: string, disk: Disk) returns (r: Result<()>)
    modifies disk
    ensures match StdRun(job, read, path)
            case Ok(w) => r.Ok? && disk.log == old(disk.log) + w
            case Err(e) => r == Err(e) && disk.log == old(disk.log)
  {
    if path !in job.names {
      return Err(KeyError);
    }
    var name := job.names[path];
    var img := read(path);
    if img.Err? {
      return Err(img.error);
    }
    var s := MixSeed(UnitParts(job.seed, path), job.hash);
    var rng := new SafeRng(s, job.seeder);
    var state := new LQHQState(rng, img.value, img.value);
    var c := NodeIterator(job.nodes, state, job.seeder);
    if c.Err? {
      return Err(c.error);
    }
    disk.SaveUnit(job.saver, state.lq, state.hq, job.out, name);
    r := Ok(());
  }

  /** A whole image saved by `std_process` lands under its catalogue name. */
  lemma StdRunWritesUnderName(job: Job, read: Reader, path: string)
    requires StdRun(job, read, path).Ok?
    ensures path in job.names
    ensures var w := StdRun(job, read, path).value;
            |w| >= 1 && w[0].Save? && w[0].path == OutFile(job.out, "lq", job.names[path])
  {
  }

  /** `f"{name}_{index}"`. */
  function TileName(name: string, index: int): string
  {
    name + "_" + IntToString(index)
  }

  /** Two tiles of one image never share a name. */
  lemma TileNamesDistinct(name: string, i: int, j: int)
    requires TileName(name, i) == TileName(name, j)
    ensures i == j
  {
    assert IntToString(i) == TileName(name, i)[|name| + 1..];
    assert IntToString(j) == TileName(name, j)[|name| + 1..];
    IntToStringInjective(i, j);
  }

  /** Writes made so far, and the exception that stopped the loop, if any. */
  datatype Run = Run(events: seq<FsEvent>, failure: Option<Error>)

  /** Whether the `wb` check skips a tile. */
  predicate Skipped(wb: bool, tile: Image)
  {
    wb && MeanIsBlackOrWhite(tile)
  }

  /** The loop of `tile_process` over the first `|tiles|` tiles, with the chain
      folded by `node_iterator` as `std_process` does. */
  function TileRun(job: Job, path: string, wb: bool, tiles: seq<Image>): Run
    decreases |tiles|
  {
    if tiles == [] then Run([], None)
    else
      var before := TileRun(job, path, wb, tiles[..|tiles| - 1]);
      var index := |tiles| - 1;
      var tile := tiles[index];
      if before.failure.Some? || Skipped(wb, tile) then before
      else if path !in job.names then Run(before.events, Some(KeyError))
      else match Chain(job.nodes, job.seeder, Buffers(tile, tile), UnitStream(job, TileParts(job.seed, path, index)), 0)
        case Err(e) => Run(before.events, Some(e))
        case Ok(t) => Run(before.events + SaveWrites(job.saver, t.out.lq, t.out.hq, job.out, TileName(job.names[path], index)), None)
  }

  /** One more tile, in terms of the run so far. */
  lemma TileRunStep(job: Job, path: string, wb: bool, tiles: seq<Image>, i: nat)
    requires i < |tiles|
    ensures var before := TileRun(job, path, wb, tiles[..i]);
            var tile := tiles[i];
            TileRun(job, path, wb, tiles[..i + 1]) ==
              if before.failure.Some? || Skipped(wb, tile) then before
              else if path !in job.names then Run(before.events, Some(KeyError))
              else match Chain(job.nodes, job.seeder, Buffers(tile, tile), UnitStream(job, TileParts(job.seed, path, i)), 0)
                case Err(e) => Run(before.events, Some(e))
                case Ok(t) => Run(before.events + SaveWrites(job.saver, t.out.lq, t.out.hq, job.out, TileName(job.names[path], i)), None)
  {
    assert tiles[..i + 1][..i] == tiles[..i];
  }

  /** `tile_process` with the chain folded over each tile state. A skipped tile
      costs nothing: no name lookup, no generator, no write. An exception ends
      the loop and the tiles already written stay written. */
  method TileProcess(job: Job, read: TileReader, path: string, wb: bool, disk: Disk) returns (r: Result<()>)
    modifies disk
    ensures read(path).Err? ==> r == Err(read(path).error) && disk.log == old(disk.log)
    ensures read(path).Ok? ==>
              var run := TileRun(job, path, wb, read(path).value);
              && disk.log == old(disk.log) + run.events
              && (r.Ok? <==> run.failure.None?)
              && (r.Err? ==> run.failure == Some(r.error))
  {
    var tiles := read(path);
    if tiles.Err? {
      return Err(tiles.error);
    }
    var ts := tiles.value;
    ghost var log0 := disk.log;
    for index := 0 to |ts|
      invariant TileRun(job, path, wb, ts[..index]).failure.None?
      invariant disk.log == log0 + TileRun(job, path, wb, ts[..index]).events
    {
      TileRunStep(job, path, wb, ts, index);
      var tile := ts[index];
      if wb && MeanIsBlackOrWhite(tile) {
        continue;
      }
      if path !in job.names {
        TileRunStops(job, path, wb, ts, index + 1);
        return Err(KeyError);
      }
      var name := TileName(job.names[path], index);
      var s := MixSeed(TileParts(job.seed, path, index), job.hash);
      var rng := new SafeRng(s, job.seeder);
      var state := new LQHQState(rng, tile, tile);
      var c := NodeIterator(job.nodes, state, job.seeder);
      if c.Err? {
        TileRunStops(job, path, wb, ts, index + 1);
        return Err(c.error);
      }
      ghost var before := TileRun(job, path, wb, ts[..index]).events;
      disk.SaveUnit(job.saver, state.lq, state.hq, job.out, name);
      AppendAssoc(log0, before, SaveWrites(job.saver, state.lq, state.hq, job.out, name));
    }
    assert ts[..|ts|] == ts;
    r := Ok(());
  }

  /** Once a prefix of the tiles has failed, later tiles change nothing. */
  lemma {:induction false} TileRunStops(job: Job, path: string, wb: bool, tiles: seq<Image>, k: nat)
    requires k <= |tiles|
    requires TileRun(job, path, wb, tiles[..k]).failure.Some?
    ensures TileRun(job, path, wb, tiles) == TileRun(job, path, wb, tiles[..k])
    decreases |tiles| - k
  {
    if k < |tiles| {
      assert tiles[..k + 1][..k] == tiles[..k];
      TileRunStops(job, path, wb, tiles, k + 1);
    } else {
      assert tiles[..k] == tiles;
    }
  }

  /** `e` saves one of the two files of a kept tile of `tiles`, named after
      the tile's index. */
  ghost predicate NamedTileSave(job: Job, path: string, wb: bool, tiles: seq<Image>, e: FsEvent)
  {
    e.Save? &&
    exists i, sub :: 0 <= i < |tiles| && !Skipped(wb, tiles[i]) && path in job.names &&
      (sub == "lq" || sub == "hq") && e.path == OutFile(job.out, sub, TileName(job.names[path], i))
  }

  /** A save named after a prefix of the tiles is named after all of them. */
  lemma NamedTileSaveGrows(job: Job, path: string, wb: bool, init: seq<Image>, tiles: seq<Image>, e: FsEvent)
    requires |init| <= |tiles| && init == tiles[..|init|]
    requires NamedTileSave(job, path, wb, init, e)
    ensures NamedTileSave(job, path, wb, tiles, e)
  {
    var i, sub :| 0 <= i < |init| && !Skipped(wb, init[i]) && path in job.names &&
      (sub == "lq" || sub == "hq") && e.path == OutFile(job.out, sub, TileName(job.names[path], i));
    assert tiles[i] == init[i];
  }

  /** Every tile that is written is written under `<name>_<index>`, with its
      index among all tiles the reader yielded, skipped ones included. */
  lemma {:induction false} TileRunNames(job: Job, path: string, wb: bool, tiles: seq<Image>)
    ensures forall k :: 0 <= k < |TileRun(job, path, wb, tiles).events| ==>
              NamedTileSave(job, path, wb, tiles, TileRun(job, path, wb, tiles).events[k])
    decreases |tiles|
  {
    if tiles != [] {
      var init := tiles[..|tiles| - 1];
      TileRunNames(job, path, wb, init);
      var index := |tiles| - 1;
      var tile := tiles[index];
      var run := TileRun(job, path, wb, tiles);
      var before := TileRun(job, path, wb, init);
      forall k | 0 <= k < |before.events|
        ensures NamedTileSave(job, path, wb, tiles, before.events[k])
      {
        NamedTileSaveGrows(job, path, wb, init, tiles, before.events[k]);
      }
      if before.failure.Some? || Skipped(wb, tile) || path !in job.names {
        assert run.events == before.events;
      } else {
        var stream := UnitStream(job, TileParts(job.seed, path, index));
        match Chain(job.nodes, job.seeder, Buffers(tile, tile), stream, 0)
        case Err(e) =>
          assert run.events == before.events;
        case Ok(t) =>
          var name := TileName(job.names[path], index);
          var w := SaveWrites(job.saver, t.out.lq, t.out.hq, job.out, name);
          assert run.events == before.events + w;
          forall k | 0 <= k < |w|
            ensures NamedTileSave(job, path, wb, tiles, w[k])
          {
            var sub := if k == 0 then "lq" else "hq";
            assert w[k].path == OutFile(job.out, sub, TileName(job.names[path], index));
          }
      }
    }
  }

  // ---------------------------------------------------------------------------
  // The bound forward of the pipeline
  // ---------------------------------------------------------------------------

  /** `self.forward`: `std_process` or `tile_process` with its arguments bound. */
  datatype Processor = Whole(job: Job, read: Reader) | Tiled(job: Job, readTiles: TileReader, wb: bool)

  /** What processing one path writes, and the exception it ends with. */
  function UnitRun(p: Processor, path: string): (r: Run)
    ensures p.Whole? ==> (r.failure.None? <==> StdRun(p.job, p.read, path).Ok?)
    ensures p.Whole? && r.failure.Some? ==> r.events == []
  {
    match p
    case Whole(job, read) =>
      (match StdRun(job, read, path)
       case Ok(w) => Run(w, None)
       case Err(e) => Run([], Some(e)))
    case Tiled(job, readTiles, wb) =>
      (match readTiles(path)
       case Err(e) => Run([], Some(e))
       case Ok(tiles) => TileRun(job, path, wb, tiles))
  }

  /** `self.forward(img_path)`. */
  method RunUnit(p: Processor, path: string, disk: Disk) returns (r: Result<()>)
    modifies disk
    ensures disk.log == old(disk.log) + UnitRun(p, path).events
    ensures r.Ok? <==> UnitRun(p, path).failure.None?
    ensures r.Err? ==> UnitRun(p, path).failure == Some(r.error)
  {
    match p
    case Whole(job, read) =>
      r := StdProcess(job, read, path, disk);
    case Tiled(job, readTiles, wb) =>
      r := TileProcess(job, readTiles, path, wb, disk);
  }

  // ---------------------------------------------------------------------------
  // tile_process as written
  // ---------------------------------------------------------------------------

  /** `tile_process` as the source has it: at the first tile that is not
      skipped it looks the name up and then calls `nodes(state)` on the node
      list itself, which raises TypeError; nothing is ever written. */
  function TileRunAsWritten(path: string, names: map<string, string>, wb: bool, tiles: seq<Image>): Option<Error>
    decreases |tiles|
  {
    if tiles == [] then None
    else if Skipped(wb, tiles[0]) then TileRunAsWritten(path, names, wb, tiles[1..])
    else if path !in names then Some(KeyError)
    else Some(TypeError)
  }

  method TileProcessAsWritten(job: Job, read: TileReader, path: string, wb: bool, disk: Disk) returns (r: Result<()>)
    modifies disk
    ensures disk.log == old(disk.log)
    ensures read(path).Err? ==> r == Err(read(path).error)
    ensures read(path).Ok? ==>
              match TileRunAsWritten(path, job.names, wb, read(path).value)
              case None => r.Ok?
              case Some(e) => r == Err(e)
  {
    var tiles := read(path);
    if tiles.Err? {
      return Err(tiles.error);
    }
    var ts := tiles.value;
    for index := 0 to |ts|
      invariant TileRunAsWritten(path, job.names, wb, ts) == TileRunAsWritten(path, job.names, wb, ts[index..])
    {
      assert ts[index..][1..] == ts[index + 1..];
      if wb && MeanIsBlackOrWhite(ts[index]) {
        continue;
      }
      if path !in job.names {
        return Err(KeyError);
      }
      // `nodes(state)`: a list is not callable.
      return Err(TypeError);
    }
    r := Ok(());
  }

  /** The discrepancy: for a catalogued path with one tile the `wb` check
      keeps, the source raises TypeError and writes nothing, while the chain
      fold writes that tile whenever the chain succeeds on it. */
  lemma TileAsWrittenFails(job: Job, path: string, wb: bool, tile: Image)
    requires path in job.names && !Skipped(wb, tile)
    requires Chain(job.nodes, job.seeder, Buffers(tile, tile), UnitStream(job, TileParts(job.seed, path, 0)), 0).Ok?
    ensures TileRunAsWritten(path, job.names, wb, [tile]) == Some(TypeError)
    ensures TileRun(job, path, wb, [tile]).failure == None
    ensures |TileRun(job, path, wb, [tile]).events| >= 1
  {
    assert [tile][..0] == [];
  }
}
