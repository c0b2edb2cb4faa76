/** Moving a prefix from one node to another: export, encode, decode, import, and reuse. */
module CrossNode {
  import opened Basics
  import opened Network
  import opened Allocator
  import opened Bundle
  import opened CacheState
  import opened Session
  import opened Contents
  import opened Transparency
  import opened ImportProofs
  import Codec

  // ------------------------------------------------------------------ the shape of pool cells

  ghost predicate CellOk(cfg: Config, cell: Cell) {
    RowOk(cfg.dtype, cfg.kvHeads, cfg.headDim, cell.k) && RowOk(cfg.dtype, cfg.kvHeads, cfg.headDim, cell.v)
  }

  ghost predicate CellsOk(cfg: Config, cells: seq<Cell>) {
    forall s :: 0 <= s < |cells| ==> CellOk(cfg, cells[s])
  }

  /** Every cell of the pool has the configured shape and element width. */
  ghost predicate PoolOk(cfg: Config, pool: Pool) {
    Shaped(cfg, pool) && forall l :: 0 <= l < |pool| ==> CellsOk(cfg, pool[l])
  }

  ghost predicate NetOk(cfg: Config, net: Net) {
    forall l, p, x :: CellOk(cfg, net.project(l, p, x))
  }

  /** The cell all of whose elements are `w`. */
  function FlatCell(cfg: Config, w: Word): Cell {
    var row := seq(cfg.kvHeads, _ => seq(cfg.headDim, _ => w));
    Cell(row, row)
  }

  /** A cell with other keys than `k`. */
  function Unlike(cfg: Config, k: Row): Cell {
    if FlatCell(cfg, 0).k == k then FlatCell(cfg, 1) else FlatCell(cfg, 0)
  }

  /** Cells of this shape have no elements. */
  predicate Elementless(cfg: Config) {
    cfg.kvHeads == 0 || cfg.headDim == 0
  }

  lemma UnlikeDiffers(cfg: Config, k: Row)
    ensures CellOk(cfg, Unlike(cfg, k)) && (!Elementless(cfg) ==> Unlike(cfg, k).k != k)
  {
    if !Elementless(cfg) {
      assert FlatCell(cfg, 0).k[0][0] == 0 && FlatCell(cfg, 1).k[0][0] == 1;
    }
  }

  /** Without elements there is one cell only. */
  lemma ElementlessIsOne(cfg: Config, a: Cell, b: Cell)
    requires Elementless(cfg) && CellOk(cfg, a) && CellOk(cfg, b)
    ensures a == b
  {
    assert forall h :: 0 <= h < cfg.kvHeads ==> a.k[h] == b.k[h] && a.v[h] == b.v[h];
  }

  // ------------------------------------------------------------------ export

  function BlockCells(cfg: Config, c: Cache, l: nat, b: nat): (cells: seq<Cell>)
    requires Mapped(cfg, c) && PoolOk(cfg, c.pool) && l < cfg.numLayers && b < |c.blocks|
    ensures |cells| == BLOCK_SIZE && CellsOk(cfg, cells)
  {
    c.pool[l][Slot(c.blocks, b * BLOCK_SIZE)..Slot(c.blocks, b * BLOCK_SIZE) + BLOCK_SIZE]
  }

  function KRows(cells: seq<Cell>): seq<Row> {
    seq(|cells|, s requires 0 <= s < |cells| => cells[s].k)
  }

  function VRows(cells: seq<Cell>): seq<Row> {
    seq(|cells|, s requires 0 <= s < |cells| => cells[s].v)
  }

  function ExportLayer(cfg: Config, cells: seq<Cell>): (lb: LayerBlock)
    requires CellsOk(cfg, cells)
  {
    LayerBlock(TensorOf(cfg.dtype, cfg.kvHeads, cfg.headDim, KRows(cells)),
               TensorOf(cfg.dtype, cfg.kvHeads, cfg.headDim, VRows(cells)))
  }

  function ExportBlock(cfg: Config, c: Cache, b: nat): BundleBlock
    requires Mapped(cfg, c) && PoolOk(cfg, c.pool) && b < |c.blocks|
  {
    BundleBlock(b, seq(cfg.numLayers, l requires 0 <= l < cfg.numLayers => ExportLayer(cfg, BlockCells(cfg, c, l, b))))
  }

  /** `export_prefix_bundle` */
  function Export(cfg: Config, modelId: string, c: Cache, toks: seq<Token>, count: nat): Result<KvBundle, Reason>
    requires Mapped(cfg, c) && PoolOk(cfg, c.pool)
  {
    if count == 0 || count % BLOCK_SIZE != 0 then Err(Unaligned)
    else if count > c.len then Err(BadTokenCount)
    else if |toks| < count then Err(WrongPrompt)
    else
      var meta := Meta(modelId, count, toks[..count], BLOCK_SIZE, cfg.numLayers, cfg.kvHeads, cfg.headDim, cfg.dtype);
      Ok(KvBundle(meta, seq(count / BLOCK_SIZE, b requires 0 <= b < count / BLOCK_SIZE => ExportBlock(cfg, c, b))))
  }

  /** An exported layer carries the cells it was made from. */
  lemma ExportedCells(cfg: Config, cells: seq<Cell>, o: nat)
    requires CellsOk(cfg, cells) && o < |cells|
    ensures var lb := ExportLayer(cfg, cells); lb.k.n == lb.v.n == |cells| && LandedCell(lb, o) == cells[o]
  {
    RowOfTensorOf(cfg.dtype, cfg.kvHeads, cfg.headDim, KRows(cells), o);
    RowOfTensorOf(cfg.dtype, cfg.kvHeads, cfg.headDim, VRows(cells), o);
  }

  lemma ExportIsPortable(cfg: Config, modelId: string, c: Cache, toks: seq<Token>, count: nat)
    requires Mapped(cfg, c) && PoolOk(cfg, c.pool) && Export(cfg, modelId, c, toks, count).Ok?
    ensures Codec.Portable(Export(cfg, modelId, c, toks, count).value)
  {
    var b := Export(cfg, modelId, c, toks, count).value;
    forall i | 0 <= i < |b.blocks|
      ensures Codec.BlockFits(b.meta, b.blocks[i], i)
    {
    }
  }

  /** What a node exports from a sequence that starts with the prompt, decoded tokens and all, is honest. */
  lemma ExportIsHonest(cfg: Config, net: Net, modelId: string, c: Cache, all: seq<Token>, toks: seq<Token>, count: nat)
    requires Mapped(cfg, c) && PoolOk(cfg, c.pool) && Live(cfg, net, c, all) && toks <= all
    requires Export(cfg, modelId, c, toks, count).Ok?
    ensures Honest(net, Export(cfg, modelId, c, toks, count).value)
  {
    var b := Export(cfg, modelId, c, toks, count).value;
    forall i, l | 0 <= i < |b.blocks| && 0 <= l < |b.blocks[i].layers|
      ensures HonestLayer(net, b.meta.tokenIds, b.blocks[i].layers[l], i, l)
    {
      forall o | 0 <= o < BLOCK_SIZE
        ensures LandedCell(b.blocks[i].layers[l], o) == KvAt(net, toks[..count], l, i * BLOCK_SIZE + o)
      {
        ExportedPosition(cfg, net, c, all, toks, count, i, l, o);
      }
    }
  }

  lemma ExportedPosition(cfg: Config, net: Net, c: Cache, all: seq<Token>, toks: seq<Token>, count: nat,
                         i: nat, l: nat, o: nat)
    requires Mapped(cfg, c) && PoolOk(cfg, c.pool) && Live(cfg, net, c, all) && toks <= all
    requires (i + 1) * BLOCK_SIZE <= count <= |toks| && l < cfg.numLayers && o < BLOCK_SIZE
    ensures var lb := ExportBlock(cfg, c, i).layers[l];
      && lb.k.n == lb.v.n == BLOCK_SIZE
      && LandedCell(lb, o) == KvAt(net, toks[..count], l, i * BLOCK_SIZE + o)
  {
    var cells, p := BlockCells(cfg, c, l, i), i * BLOCK_SIZE + o;
    ExportedCells(cfg, cells, o);
    assert HoldsUpTo(cfg, net, c, all, l, |all|);
    assert Slot(c.blocks, p) == Slot(c.blocks, i * BLOCK_SIZE) + o && CellAt(cfg, c, l, p) == cells[o];
    assert toks[..count][..p + 1] == toks[..p + 1] == all[..p + 1];
    Causal(net, toks[..count], all, l, p);
  }

  // ------------------------------------------------------------------ import

  /** Fitting tensors are written without fail. */
  lemma {:induction false} WriteLayersSucceeds(cfg: Config, pool: Pool, id: nat, meta: Meta, layers: seq<LayerBlock>,
                                               l: nat)
    requires Shaped(cfg, pool) && id < cfg.NumBlocks() && l <= |layers| == cfg.numLayers
    requires meta.blockSize == BLOCK_SIZE && meta.numKvHeads == cfg.kvHeads && meta.headDim == cfg.headDim &&
      meta.dtype == cfg.dtype
    requires forall m :: 0 <= m < |layers| ==> Codec.LayerFits(meta, layers[m])
    ensures WriteLayers(cfg, pool, id, layers, l).1
    decreases |layers| - l
  {
    if l < |layers| {
      assert Codec.LayerFits(meta, layers[l]);
      var (row, ok) := WriteBlock(cfg, pool[l], id, layers[l]);
      WriteLayersSucceeds(cfg, pool[l := row], id, meta, layers, l + 1);
    }
  }

  lemma LandOneSucceeds(cfg: Config, c: Cache, meta: Meta, block: BundleBlock, idx: nat)
    requires Landed(cfg, Landing(c, c.blocks, None)) && |c.alloc.free| > 0
    requires meta.blockSize == BLOCK_SIZE && meta.numLayers == cfg.numLayers
    requires meta.numKvHeads == cfg.kvHeads && meta.headDim == cfg.headDim && meta.dtype == cfg.dtype
    requires Codec.BlockFits(meta, block, idx)
    ensures LandOne(cfg, c, block).stopped.None?
  {
    hide WriteLayers;
    TakeStep(cfg, c);
    WriteLayersSucceeds(cfg, c.pool, Take(c.alloc).value.1, meta, block.layers, 0);
  }

  lemma {:induction false} LandFromSucceeds(cfg: Config, c: Cache, meta: Meta, blocks: seq<BundleBlock>, i: nat)
    requires Landed(cfg, Landing(c, c.blocks, None)) && i <= |blocks| && |c.alloc.free| >= |blocks| - i
    requires meta.blockSize == BLOCK_SIZE && meta.numLayers == cfg.numLayers
    requires meta.numKvHeads == cfg.kvHeads && meta.headDim == cfg.headDim && meta.dtype == cfg.dtype
    requires forall j :: 0 <= j < |blocks| ==> Codec.BlockFits(meta, blocks[j], j)
    ensures LandFrom(cfg, c, blocks, i).stopped.None?
    decreases |blocks| - i
  {
    hide LandOne, Balanced;
    if i < |blocks| {
      LandOneSucceeds(cfg, c, meta, blocks[i], i);
      LandFromSucceeds(cfg, LandOne(cfg, c, blocks[i]).c, meta, blocks, i + 1);
    }
  }

  /** A bundle a frame can carry is imported exactly when the checks accept it and its blocks fit. */
  lemma ImportSucceedsExactly(cfg: Config, c: Cache, b: KvBundle, prompt: seq<Token>)
    requires Inv(cfg, c) && Codec.Portable(b)
    ensures Import(cfg, c, b, prompt).Done? <==>
      Rejects(cfg, b, prompt).None? && |b.blocks| <= |Reset(cfg, c).alloc.free|
  {
    var empty := Reset(cfg, c);
    if Rejects(cfg, b, prompt).None? && |b.blocks| <= |empty.alloc.free| {
      LandFromSucceeds(cfg, empty, b.meta, b.blocks, 0);
    }
  }

  lemma PortableIsSized(cfg: Config, b: KvBundle, prompt: seq<Token>)
    requires Codec.Portable(b) && Rejects(cfg, b, prompt).None?
    ensures SizedBundle(b)
  {
    forall i, l | 0 <= i < |b.blocks| && 0 <= l < |b.blocks[i].layers|
      ensures b.blocks[i].layers[l].k.n == BLOCK_SIZE
    {
      assert Codec.BlockFits(b.meta, b.blocks[i], i);
      assert Codec.LayerFits(b.meta, b.blocks[i].layers[l]);
    }
  }

  /** What an import leaves live is what the bundle carries. */
  lemma ImportedCells(cfg: Config, c: Cache, b: KvBundle, prompt: seq<Token>)
    requires Inv(cfg, c) && Codec.Portable(b) && Import(cfg, c, b, prompt).Done?
    ensures var r := Import(cfg, c, b, prompt).c;
      && Mapped(cfg, r) && |r.blocks| == |b.blocks|
      && forall j :: 0 <= j < |b.blocks| ==> BlockLanded(cfg, r.pool, r.blocks[j], b.blocks[j])
  {
    var empty, r := Reset(cfg, c), Import(cfg, c, b, prompt).c;
    InvMapped(cfg, r);
    PortableIsSized(cfg, b, prompt);
    LandFromAt(cfg, empty, b.blocks, 0);
  }

  // ------------------------------------------------------------------ round trip

  /** The first `count` positions are the same in both caches, layer by layer. */
  ghost predicate SamePrefix(cfg: Config, c: Cache, cfg': Config, d: Cache, count: nat)
    requires Mapped(cfg, c) && Mapped(cfg', d) && cfg.numLayers == cfg'.numLayers
    requires count <= |c.blocks| * BLOCK_SIZE && count <= |d.blocks| * BLOCK_SIZE
  {
    forall l, p :: 0 <= l < cfg.numLayers && 0 <= p < count ==> CellAt(cfg', d, l, p) == CellAt(cfg, c, l, p)
  }

  lemma LandedIsExported(cfg: Config, c: Cache, cfg': Config, d: Cache, l: nat, p: nat)
    requires Mapped(cfg, c) && PoolOk(cfg, c.pool) && Mapped(cfg', d) && l < cfg.numLayers == cfg'.numLayers
    requires p / BLOCK_SIZE < |c.blocks| && p / BLOCK_SIZE < |d.blocks|
    requires BlockLanded(cfg', d.pool, d.blocks[p / BLOCK_SIZE], ExportBlock(cfg, c, p / BLOCK_SIZE))
    ensures CellAt(cfg', d, l, p) == CellAt(cfg, c, l, p)
  {
    var b, o := p / BLOCK_SIZE, p % BLOCK_SIZE;
    var cells, lb := BlockCells(cfg, c, l, b), ExportBlock(cfg, c, b).layers[l];
    ExportedCells(cfg, cells, o);
    assert Slot(c.blocks, p) == Slot(c.blocks, b * BLOCK_SIZE) + o && CellAt(cfg, c, l, p) == cells[o];
    assert LayerLanded(d.pool[l], d.blocks[b], lb) && InBlock(d.blocks[b], Slot(d.blocks, p));
  }

  /** Two nodes that run the same model. */
  predicate SameModel(cfg: Config, cfg': Config) {
    cfg.numLayers == cfg'.numLayers && cfg.kvHeads == cfg'.kvHeads && cfg.headDim == cfg'.headDim &&
      cfg.dtype == cfg'.dtype
  }

  lemma ExportIsAccepted(cfg: Config, modelId: string, c: Cache, toks: seq<Token>, count: nat, cfg': Config,
                         prompt: seq<Token>)
    requires Mapped(cfg, c) && PoolOk(cfg, c.pool) && Export(cfg, modelId, c, toks, count).Ok?
    requires SameModel(cfg, cfg') && toks[..count] <= prompt
    ensures Rejects(cfg', Export(cfg, modelId, c, toks, count).value, prompt).None?
  {
    assert prompt[..count] == toks[..count];
  }

  lemma ImportedIsExported(cfg: Config, modelId: string, c: Cache, toks: seq<Token>, count: nat, cfg': Config, d: Cache)
    requires Mapped(cfg, c) && PoolOk(cfg, c.pool) && Export(cfg, modelId, c, toks, count).Ok?
    requires SameModel(cfg, cfg') && Mapped(cfg', d)
    requires var b := Export(cfg, modelId, c, toks, count).value;
      |d.blocks| == |b.blocks| && forall j :: 0 <= j < |b.blocks| ==>
        BlockLanded(cfg', d.pool, d.blocks[j], b.blocks[j])
    ensures |d.blocks| * BLOCK_SIZE == count && SamePrefix(cfg, c, cfg', d, count)
  {
    var b := Export(cfg, modelId, c, toks, count).value;
    forall l, p | 0 <= l < cfg.numLayers && 0 <= p < count
      ensures CellAt(cfg', d, l, p) == CellAt(cfg, c, l, p)
    {
      var i := p / BLOCK_SIZE;
      assert b.blocks[i] == ExportBlock(cfg, c, i);
      LandedIsExported(cfg, c, cfg', d, l, p);
    }
  }

  /**
   The round trip. A prefix exported on one node, framed, decoded and imported by a node of the same
   model arrives with the exporter's contents in every layer; the import succeeds exactly when the
   importer has blocks for it.
   */
  lemma CrossNodeRoundTrip(cfg: Config, modelId: string, c: Cache, toks: seq<Token>, count: nat, h: Codec.Header,
                           cfg': Config, d: Cache, prompt: seq<Token>)
    requires Mapped(cfg, c) && PoolOk(cfg, c.pool) && Export(cfg, modelId, c, toks, count).Ok?
    requires Codec.HeaderOk(h, Export(cfg, modelId, c, toks, count).value.meta)
    requires Inv(cfg', d) && SameModel(cfg, cfg') && toks[..count] <= prompt
    ensures var b := Export(cfg, modelId, c, toks, count).value;
      && Codec.Encode(h, b).Ok? && Codec.Decode(h, Codec.Encode(h, b).value) == Ok(b)
      && var r := Import(cfg', d, b, prompt);
         && (r.Done? <==> count / BLOCK_SIZE <= |Reset(cfg', d).alloc.free|)
         && (r.Done? ==> r.value == count && Mapped(cfg', r.c) && |r.c.blocks| * BLOCK_SIZE == count
                         && SamePrefix(cfg, c, cfg', r.c, count))
  {
    var b := Export(cfg, modelId, c, toks, count).value;
    ExportIsPortable(cfg, modelId, c, toks, count);
    Codec.CodecInverse(h, b);
    ExportIsAccepted(cfg, modelId, c, toks, count, cfg', prompt);
    ImportSucceedsExactly(cfg', d, b, prompt);
    if Import(cfg', d, b, prompt).Done? {
      ImportedCells(cfg', d, b, prompt);
      ImportedIsExported(cfg, modelId, c, toks, count, cfg', Import(cfg', d, b, prompt).c);
    }
  }

  // ------------------------------------------------------------------ reuse afterwards

  /** Every entry stands for a path in play. */
  ghost predicate Named(cfg: Config, paths: set<seq<Token>>, reg: Registry) {
    forall h :: h in reg ==> exists path :: path in paths && Names(cfg, h, reg[h], path)
  }

  /** No two paths in play share a chained hash. */
  ghost predicate HashesApart(cfg: Config, paths: set<seq<Token>>) {
    forall p, q | p in paths && q in paths && Aligned(p) && Aligned(q) ::
      PathHash(cfg, p) == PathHash(cfg, q) ==> p == q
  }

  lemma NamedIsHit(cfg: Config, paths: set<seq<Token>>, reg: Registry, toks: seq<Token>, b: nat)
    requires Named(cfg, paths, reg) && HashesApart(cfg, paths)
    requires (b + 1) * BLOCK_SIZE <= |toks| && BlockPrefix(toks, b + 1) in paths
    requires HashAt(cfg, toks, b + 1) in reg
    ensures Lookup(cfg, reg, toks, b).Some?
  {
    var h := HashAt(cfg, toks, b + 1);
    var known :| known in paths && Names(cfg, h, reg[h], known);
    PrefixPath(cfg, toks, b + 1);
    assert known == BlockPrefix(toks, b + 1);
  }

  /** Every block of `toks` past the first `b` has an entry under its hash. */
  ghost predicate HashesKnown(cfg: Config, reg: Registry, toks: seq<Token>, b: nat) {
    forall n :: b < n <= |toks| / BLOCK_SIZE ==> HashAt(cfg, toks, n) in reg
  }

  lemma {:induction false} RegisterCovers(cfg: Config, paths: set<seq<Token>>, c: Cache, toks: seq<Token>, b: nat)
    requires Counted(cfg, c) && b <= |toks| / BLOCK_SIZE <= |c.blocks|
    requires Named(cfg, paths, c.reg) && Covers(paths, toks)
    ensures var r := RegisterFrom(cfg, c, toks, b); Named(cfg, paths, r.reg) && HashesKnown(cfg, r.reg, toks, b)
    decreases |toks| / BLOCK_SIZE - b
  {
    hide RegisterOne, Named, Balanced, Chunk;
    if b < |toks| / BLOCK_SIZE {
      var c' := RegisterOne(cfg, c, toks, b);
      RegisterOneNamed(cfg, paths, c, toks, b);
      RegisterCovers(cfg, paths, c', toks, b + 1);
      assert HashAt(cfg, toks, b + 1) in c'.reg;
      assert Submap(c'.reg, RegisterFrom(cfg, c', toks, b + 1).reg);
    }
  }

  lemma RegisterOneNamed(cfg: Config, paths: set<seq<Token>>, c: Cache, toks: seq<Token>, b: nat)
    requires Counted(cfg, c) && (b + 1) * BLOCK_SIZE <= |toks| && b < |c.blocks|
    requires Named(cfg, paths, c.reg) && Covers(paths, toks)
    ensures Named(cfg, paths, RegisterOne(cfg, c, toks, b).reg)
  {
    var r := RegisterOne(cfg, c, toks, b);
    PrefixPath(cfg, toks, b + 1);
    var path := BlockPrefix(toks, b + 1);
    assert path in paths;
    forall h | h in r.reg
      ensures exists path :: path in paths && Names(cfg, h, r.reg[h], path)
    {
      if h !in c.reg {
        assert Names(cfg, h, r.reg[h], path);
      }
    }
  }

  lemma LandRegisters(cfg: Config, paths: set<seq<Token>>, c: Cache, b: KvBundle)
    requires Counted(cfg, c) && Shaped(cfg, c.pool) && c.blocks == [] && c.len == 0 && Named(cfg, paths, c.reg)
    requires |b.meta.tokenIds| == b.meta.tokenCount == |b.blocks| * BLOCK_SIZE && Covers(paths, b.meta.tokenIds)
    requires Land(cfg, c, b).Done?
    ensures var r := Land(cfg, c, b).c; Named(cfg, paths, r.reg) && HashesKnown(cfg, r.reg, b.meta.tokenIds, 0)
  {
    var live := LandFrom(cfg, c, b.blocks, 0).c.(len := b.meta.tokenCount);
    assert live.reg == c.reg;
    RegisterCovers(cfg, paths, live, b.meta.tokenIds, 0);
  }

  /** Known hashes of named paths are hits for every prompt that starts with them. */
  lemma KnownIsHit(cfg: Config, paths: set<seq<Token>>, reg: Registry, toks: seq<Token>, next: seq<Token>, b: nat)
    requires Named(cfg, paths, reg) && HashesApart(cfg, paths) && HashesKnown(cfg, reg, toks, 0)
    requires toks <= next && (b + 1) * BLOCK_SIZE <= |toks| && Covers(paths, next)
    ensures Lookup(cfg, reg, next, b).Some?
  {
    hide Lookup, Chunk, PathHash;
    assert toks[..(b + 1) * BLOCK_SIZE] == next[..(b + 1) * BLOCK_SIZE];
    HashOfPrefix(cfg, toks, next, b + 1);
    assert HashAt(cfg, toks, b + 1) in reg;
    NamedIsHit(cfg, paths, reg, next, b);
  }

  lemma MatchReaches(cfg: Config, paths: set<seq<Token>>, c: Cache, toks: seq<Token>, next: seq<Token>)
    requires Counted(cfg, c) && c.blocks == [] && c.len == 0
    requires Named(cfg, paths, c.reg) && HashesApart(cfg, paths) && HashesKnown(cfg, c.reg, toks, 0)
    requires toks < next && Covers(paths, next) && |toks| % BLOCK_SIZE == 0
    ensures |toks| <= Match(cfg, c, next).len
  {
    var n := |Match(cfg, c, next).blocks|;
    if n < |toks| / BLOCK_SIZE {
      KnownIsHit(cfg, paths, c.reg, toks, next, n);
    }
  }

  /** An imported prefix is reused by every longer prompt that starts with it, absent collisions. */
  lemma ImportedIsReused(cfg: Config, paths: set<seq<Token>>, c: Cache, b: KvBundle, prompt: seq<Token>,
                         next: seq<Token>)
    requires Inv(cfg, c) && Named(cfg, paths, c.reg) && HashesApart(cfg, paths)
    requires Import(cfg, c, b, prompt).Done? && b.meta.tokenIds < next && Covers(paths, next)
    ensures b.meta.tokenCount <= TakeLocal(cfg, Import(cfg, c, b, prompt).c, next).len
  {
    hide Land, Match, Reset, Named, HashesApart;
    var empty, toks := Reset(cfg, c), b.meta.tokenIds;
    CoversPrefix(paths, next, toks);
    LandRegisters(cfg, paths, empty, b);
    MatchReaches(cfg, paths, Reset(cfg, Land(cfg, empty, b).c), toks, next);
  }
}
