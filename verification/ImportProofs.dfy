/** What importing a bundle does to the pool, whether it succeeds or stops half-way. */
module ImportProofs {
  import opened Basics
  import opened Network
  import opened Allocator
  import opened Bundle
  import opened CacheState
  import opened Session
  import opened Contents
  import opened Transparency

  // ------------------------------------------------------------------ one block

  predicate InBlock(id: nat, s: nat) {
    id * BLOCK_SIZE <= s < (id + 1) * BLOCK_SIZE
  }

  /** A tensor block sized for this cache; every decoded bundle with the cache's block size is. */
  predicate Sized(block: BundleBlock) {
    forall l :: 0 <= l < |block.layers| ==> block.layers[l].k.n == BLOCK_SIZE
  }

  function LandedCell(lb: LayerBlock, o: nat): Cell
    requires o < lb.k.n && o < lb.v.n
  {
    Cell(RowOf(lb.k, o), RowOf(lb.v, o))
  }

  /** Block `id` of a pool row holds the tensors of `lb`. */
  ghost predicate LayerLanded(row: seq<Cell>, id: nat, lb: LayerBlock) {
    && lb.k.n == lb.v.n == BLOCK_SIZE && (id + 1) * BLOCK_SIZE <= |row|
    && forall s: nat :: InBlock(id, s) ==> row[s] == LandedCell(lb, s - id * BLOCK_SIZE)
  }

  ghost predicate BlockLanded(cfg: Config, pool: Pool, id: nat, block: BundleBlock)
    requires Shaped(cfg, pool)
  {
    |block.layers| == cfg.numLayers && forall l :: 0 <= l < cfg.numLayers ==> LayerLanded(pool[l], id, block.layers[l])
  }

  /** Only block `id` may differ. */
  ghost predicate OthersSame(cfg: Config, id: nat, pool: Pool, pool': Pool)
    requires Shaped(cfg, pool) && Shaped(cfg, pool')
  {
    forall l, s :: 0 <= l < cfg.numLayers && 0 <= s < cfg.NumSlots() && !InBlock(id, s) ==> pool'[l][s] == pool[l][s]
  }

  lemma WriteBlockLands(cfg: Config, row: seq<Cell>, id: nat, lb: LayerBlock)
    requires lb.k.n == BLOCK_SIZE && id < cfg.NumBlocks() && |row| == cfg.NumSlots()
    ensures var (r, ok) := WriteBlock(cfg, row, id, lb);
      && (forall s :: 0 <= s < |row| && !InBlock(id, s) ==> r[s] == row[s])
      && (ok ==> LayerLanded(r, id, lb))
  {
  }

  lemma {:induction false} WriteLayersLands(cfg: Config, pool: Pool, id: nat, block: BundleBlock, l: nat)
    requires Shaped(cfg, pool) && id < cfg.NumBlocks() && Sized(block) && l <= |block.layers| == cfg.numLayers
    ensures var (r, ok) := WriteLayers(cfg, pool, id, block.layers, l);
      && OthersSame(cfg, id, pool, r)
      && (forall m :: 0 <= m < l ==> r[m] == pool[m])
      && (ok ==> forall m :: l <= m < cfg.numLayers ==> LayerLanded(r[m], id, block.layers[m]))
    decreases |block.layers| - l
  {
    if l < |block.layers| {
      WriteBlockLands(cfg, pool[l], id, block.layers[l]);
      var (row, ok) := WriteBlock(cfg, pool[l], id, block.layers[l]);
      if ok {
        WriteLayersLands(cfg, pool[l := row], id, block, l + 1);
      }
    }
  }

  // ------------------------------------------------------------------ the whole import

  /** Blocks someone held before the import are untouched. */
  ghost predicate HeldSame(cfg: Config, a: Alloc, pool: Pool, pool': Pool)
    requires |a.refs| == cfg.NumBlocks() && Shaped(cfg, pool) && Shaped(cfg, pool')
  {
    forall x :: 0 <= x < cfg.NumBlocks() && a.refs[x] > 0 ==> SameBlock(cfg, x, pool, pool')
  }

  lemma OthersSameHeld(cfg: Config, a: Alloc, id: nat, pool: Pool, pool': Pool)
    requires |a.refs| == cfg.NumBlocks() && Shaped(cfg, pool) && Shaped(cfg, pool')
    requires id < cfg.NumBlocks() && a.refs[id] == 0 && OthersSame(cfg, id, pool, pool')
    ensures HeldSame(cfg, a, pool, pool')
  {
    forall x | 0 <= x < cfg.NumBlocks() && a.refs[x] > 0
      ensures SameBlock(cfg, x, pool, pool')
    {
      forall l, s | 0 <= l < cfg.numLayers && x * BLOCK_SIZE <= s < (x + 1) * BLOCK_SIZE
        ensures pool'[l][s] == pool[l][s]
      {
        assert !InBlock(id, s);
      }
    }
  }

  lemma LandOneAt(cfg: Config, c: Cache, block: BundleBlock)
    requires Landed(cfg, Landing(c, c.blocks, None)) && Sized(block)
    ensures var r := LandOne(cfg, c, block);
      && HeldSame(cfg, c.alloc, c.pool, r.c.pool)
      && (forall x :: 0 <= x < cfg.NumBlocks() && c.alloc.refs[x] > 0 ==> r.c.alloc.refs[x] > 0)
      && (r.stopped.None? ==> BlockLanded(cfg, r.c.pool, r.taken[|c.blocks|], block))
  {
    if |block.layers| == cfg.numLayers {
      TakeStep(cfg, c);
      if Take(c.alloc).Some? {
        var (a, id) := Take(c.alloc).value;
        WriteLayersLands(cfg, c.pool, id, block, 0);
        OthersSameHeld(cfg, c.alloc, id, c.pool, WriteLayers(cfg, c.pool, id, block.layers, 0).0);
      }
    }
  }

  lemma LandedCarriesOver(cfg: Config, pool: Pool, pool': Pool, id: nat, block: BundleBlock)
    requires Shaped(cfg, pool) && Shaped(cfg, pool') && id < cfg.NumBlocks()
    requires SameBlock(cfg, id, pool, pool') && BlockLanded(cfg, pool, id, block)
    ensures BlockLanded(cfg, pool', id, block)
  {
    forall l | 0 <= l < cfg.numLayers
      ensures LayerLanded(pool'[l], id, block.layers[l])
    {
      assert LayerLanded(pool[l], id, block.layers[l]);
    }
  }

  /** The blocks from `i` on are in the pool as the bundle has them. */
  ghost predicate ImportedFrom(cfg: Config, pool: Pool, ids: seq<nat>, blocks: seq<BundleBlock>, i: nat)
    requires Shaped(cfg, pool)
  {
    |ids| == |blocks| && forall j :: i <= j < |blocks| ==> BlockLanded(cfg, pool, ids[j], blocks[j])
  }

  /** Every block the import got through is in the pool as the bundle has it, and nothing held changed. */
  lemma {:induction false} LandFromAt(cfg: Config, c: Cache, blocks: seq<BundleBlock>, i: nat)
    requires Landed(cfg, Landing(c, c.blocks, None)) && |c.blocks| == i <= |blocks|
    requires forall j :: 0 <= j < |blocks| ==> Sized(blocks[j])
    ensures var r := LandFrom(cfg, c, blocks, i);
      && HeldSame(cfg, c.alloc, c.pool, r.c.pool)
      && (r.stopped.None? ==> ImportedFrom(cfg, r.c.pool, r.taken, blocks, i))
    decreases |blocks| - i
  {
    if i < |blocks| {
      LandOneAt(cfg, c, blocks[i]);
      var one := LandOne(cfg, c, blocks[i]);
      if one.stopped.None? {
        LandFromAt(cfg, one.c, blocks, i + 1);
        var r := LandFrom(cfg, one.c, blocks, i + 1);
        HeldSameTwice(cfg, c.alloc, one.c.alloc, c.pool, one.c.pool, r.c.pool);
        if r.stopped.None? {
          assert r.taken[i] == one.taken[i] && one.c.alloc.refs[one.taken[i]] == 1;
          ImportedOneMore(cfg, one.c.pool, r.c.pool, r.taken, blocks, i);
        }
      }
    }
  }

  lemma ImportedOneMore(cfg: Config, pool: Pool, pool': Pool, ids: seq<nat>, blocks: seq<BundleBlock>, i: nat)
    requires Shaped(cfg, pool) && Shaped(cfg, pool') && i < |ids| && ids[i] < cfg.NumBlocks()
    requires ImportedFrom(cfg, pool', ids, blocks, i + 1)
    requires SameBlock(cfg, ids[i], pool, pool') && BlockLanded(cfg, pool, ids[i], blocks[i])
    ensures ImportedFrom(cfg, pool', ids, blocks, i)
  {
    LandedCarriesOver(cfg, pool, pool', ids[i], blocks[i]);
  }

  lemma HeldSameTwice(cfg: Config, a: Alloc, a': Alloc, pool: Pool, pool': Pool, pool'': Pool)
    requires |a.refs| == |a'.refs| == cfg.NumBlocks()
    requires Shaped(cfg, pool) && Shaped(cfg, pool') && Shaped(cfg, pool'')
    requires forall x :: 0 <= x < cfg.NumBlocks() && a.refs[x] > 0 ==> a'.refs[x] > 0
    requires HeldSame(cfg, a, pool, pool') && HeldSame(cfg, a', pool', pool'')
    ensures HeldSame(cfg, a, pool, pool'')
  {
    forall x | 0 <= x < cfg.NumBlocks() && a.refs[x] > 0
      ensures SameBlock(cfg, x, pool, pool'')
    {
      assert SameBlock(cfg, x, pool, pool') && SameBlock(cfg, x, pool', pool'');
    }
  }

  lemma HeldIsRegistered(cfg: Config, c: Cache, pool: Pool)
    requires Counted(cfg, c) && Mapped(cfg, c) && Shaped(cfg, pool) && HeldSame(cfg, c.alloc, c.pool, pool)
    ensures RegisteredSame(cfg, c, pool)
  {
    forall h | h in c.reg
      ensures SameBlock(cfg, c.reg[h].id, c.pool, pool)
    {
      HeldIsReferenced(cfg, c, c.reg[h].id);
    }
  }

  /** The tensors of the bundle are the cold run's keys and values for its tokens. */
  ghost predicate Honest(net: Net, b: KvBundle) {
    forall i, l :: 0 <= i < |b.blocks| && 0 <= l < |b.blocks[i].layers| ==>
      HonestLayer(net, b.meta.tokenIds, b.blocks[i].layers[l], i, l)
  }

  ghost predicate HonestLayer(net: Net, toks: seq<Token>, lb: LayerBlock, i: nat, l: nat) {
    && lb.k.n == lb.v.n == BLOCK_SIZE && (i + 1) * BLOCK_SIZE <= |toks|
    && forall o :: 0 <= o < BLOCK_SIZE ==> LandedCell(lb, o) == KvAt(net, toks, l, i * BLOCK_SIZE + o)
  }

  /** Landed honest blocks are a live sequence. */
  lemma LandedLive(cfg: Config, net: Net, c: Cache, b: KvBundle)
    requires Mapped(cfg, c) && Honest(net, b)
    requires c.len == |b.meta.tokenIds| == |b.blocks| * BLOCK_SIZE && |c.blocks| == |b.blocks|
    requires forall j :: 0 <= j < |b.blocks| ==> BlockLanded(cfg, c.pool, c.blocks[j], b.blocks[j])
    ensures Live(cfg, net, c, b.meta.tokenIds)
  {
    var toks := b.meta.tokenIds;
    forall l | 0 <= l < cfg.numLayers
      ensures HoldsUpTo(cfg, net, c, toks, l, |toks|)
    {
      forall p | 0 <= p < |toks|
        ensures CellAt(cfg, c, l, p) == KvAt(net, toks, l, p)
      {
        LandedPosition(cfg, net, c, toks, b.blocks[p / BLOCK_SIZE], l, p);
      }
    }
  }

  lemma LandedPosition(cfg: Config, net: Net, c: Cache, toks: seq<Token>, block: BundleBlock, l: nat, p: nat)
    requires Mapped(cfg, c) && l < cfg.numLayers && p < |toks| && p < |c.blocks| * BLOCK_SIZE
    requires BlockLanded(cfg, c.pool, c.blocks[p / BLOCK_SIZE], block)
    requires HonestLayer(net, toks, block.layers[l], p / BLOCK_SIZE, l)
    ensures CellAt(cfg, c, l, p) == KvAt(net, toks, l, p)
  {
    var id, s := c.blocks[p / BLOCK_SIZE], Slot(c.blocks, p);
    assert LayerLanded(c.pool[l], id, block.layers[l]) && InBlock(id, s);
    assert LandedCell(block.layers[l], p % BLOCK_SIZE) ==
      KvAt(net, toks, l, p / BLOCK_SIZE * BLOCK_SIZE + p % BLOCK_SIZE);
  }

  // ------------------------------------------------------------------ import_prefix_bundle

  ghost predicate SizedBundle(b: KvBundle) {
    forall i :: 0 <= i < |b.blocks| ==> Sized(b.blocks[i])
  }

  /** Success or failure, an import never touches a registered block. */
  lemma ImportSparesRegistered(cfg: Config, c: Cache, b: KvBundle, prompt: seq<Token>)
    requires Inv(cfg, c) && Mapped(cfg, c) && SizedBundle(b)
    ensures RegisteredSame(cfg, c, Import(cfg, c, b, prompt).c.pool)
  {
    if Rejects(cfg, b, prompt).None? {
      var empty := Reset(cfg, c);
      InvMapped(cfg, empty);
      if |empty.alloc.free| >= |b.blocks| {
        LandFromAt(cfg, empty, b.blocks, 0);
        HeldIsRegistered(cfg, empty, LandFrom(cfg, empty, b.blocks, 0).c.pool);
      }
    }
  }

  lemma SameCounts(a: Alloc, a': Alloc, reg: Registry)
    requires |a.refs| == |a'.refs| && Balanced(a, multiset{}, reg) && Balanced(a', multiset{}, reg)
    ensures a.refs == a'.refs && Unreferenced(a) == Unreferenced(a')
  {
  }

  /** Landing honest blocks on an empty sequence makes the bundle's tokens live. */
  lemma LandExact(cfg: Config, net: Net, paths: set<seq<Token>>, c: Cache, b: KvBundle)
    requires Counted(cfg, c) && Mapped(cfg, c) && c.blocks == [] && c.len == 0
    requires |b.meta.tokenIds| == b.meta.tokenCount == |b.blocks| * BLOCK_SIZE
    requires SizedBundle(b) && Honest(net, b) && Sound(cfg, net, paths, c) && Covers(paths, b.meta.tokenIds)
    requires Land(cfg, c, b).Done?
    ensures var r := Land(cfg, c, b);
      Mapped(cfg, r.c) && Live(cfg, net, r.c, b.meta.tokenIds) && Sound(cfg, net, paths, r.c)
  {
    LandFromAt(cfg, c, b.blocks, 0);
    var landing := LandFrom(cfg, c, b.blocks, 0);
    var live := landing.c.(len := b.meta.tokenCount);
    InvMapped(cfg, live);
    HeldIsRegistered(cfg, c, live.pool);
    SamePoolSound(cfg, net, paths, c, live);
    LandedLive(cfg, net, live, b);
    RegisterSound(cfg, net, paths, live, b.meta.tokenIds, 0);
  }

  /** A successful import of an honest bundle leaves exactly the cold run's contents. */
  lemma ImportExact(cfg: Config, net: Net, paths: set<seq<Token>>, c: Cache, b: KvBundle, prompt: seq<Token>)
    requires Inv(cfg, c) && Mapped(cfg, c) && Sound(cfg, net, paths, c) && Covers(paths, prompt)
    requires SizedBundle(b) && Honest(net, b) && Import(cfg, c, b, prompt).Done?
    ensures var r := Import(cfg, c, b, prompt);
      && r.value <= |prompt| && r.c.len == r.value
      && Mapped(cfg, r.c) && Live(cfg, net, r.c, prompt[..r.value]) && Sound(cfg, net, paths, r.c)
  {
    hide Land, Balanced, Live, Sound;
    var empty := Reset(cfg, c);
    InvMapped(cfg, empty);
    SamePoolSound(cfg, net, paths, c, empty);
    CoversPrefix(paths, prompt, b.meta.tokenIds);
    LandExact(cfg, net, paths, empty, b);
  }

  lemma CoversPrefix(paths: set<seq<Token>>, toks: seq<Token>, prefix: seq<Token>)
    requires Covers(paths, toks) && prefix <= toks
    ensures Covers(paths, prefix)
  {
    forall n | 0 < n <= |prefix| / BLOCK_SIZE
      ensures BlockPrefix(prefix, n) in paths
    {
      assert BlockPrefix(prefix, n) == BlockPrefix(toks, n);
    }
  }
}
