/**
 How far an import's writes reach. `write_block` takes the size of a block from the tensor and never
 compares it with the cache's, so where a write lands depends on the tensor; this is the exact account,
 for every bundle, of the slots an import writes and of what it leaves alone.
 */
module ImportReach {
  import opened Basics
  import opened Network
  import opened Allocator
  import opened Bundle
  import opened CacheState
  import opened Contents
  import opened ImportProofs
  import opened CrossNode
  import Publish

  // ------------------------------------------------------------------ one write

  /** The keys get written: the tensors agree, fit the cache's heads and dtype, and end inside the pool. */
  predicate KeysGo(cfg: Config, id: nat, lb: LayerBlock) {
    && (lb.k.heads, lb.k.n, lb.k.dim) == (lb.v.heads, lb.v.n, lb.v.dim)
    && lb.k.heads == cfg.kvHeads && lb.k.dim == cfg.headDim && lb.k.dtype == cfg.dtype
    && id * lb.k.n + lb.k.n <= cfg.NumSlots()
  }

  /** The values too, so the write succeeds. */
  predicate Goes(cfg: Config, id: nat, lb: LayerBlock) {
    KeysGo(cfg, id, lb) && lb.v.dtype == cfg.dtype
  }

  predicate InRange(id: nat, n: nat, s: nat) {
    id * n <= s < id * n + n
  }

  /** A write succeeds whatever the pool holds, and changes the slots of its range and no others. */
  lemma WriteBlockReach(cfg: Config, row: seq<Cell>, id: nat, lb: LayerBlock)
    requires |row| == cfg.NumSlots()
    ensures var (r, ok) := WriteBlock(cfg, row, id, lb);
      && (ok <==> Goes(cfg, id, lb))
      && forall s: nat :: s < |row| ==>
           if KeysGo(cfg, id, lb) && InRange(id, lb.k.n, s) then
             && r[s].k == RowOf(lb.k, s - id * lb.k.n)
             && r[s].v == if ok then RowOf(lb.v, s - id * lb.v.n) else row[s].v
           else r[s] == row[s]
  {
  }

  /** Whatever cells the row holds, the write leaves the slots outside block `id` alone. */
  ghost predicate InPlace(cfg: Config, id: nat, lb: LayerBlock) {
    forall row: seq<Cell> | |row| == cfg.NumSlots() && CellsOk(cfg, row) ::
      forall s: nat :: s < |row| && !InBlock(id, s) ==> WriteBlock(cfg, row, id, lb).0[s] == row[s]
  }

  /** When a tensor of `n` slots written as block `id` stays inside that block. */
  predicate Stays(id: nat, n: nat) {
    n == 0 || n == BLOCK_SIZE || (id == 0 && n <= BLOCK_SIZE)
  }

  lemma RangeStays(id: nat, n: nat, s: nat)
    requires Stays(id, n) && InRange(id, n, s)
    ensures InBlock(id, s)
  {
  }

  /** A slot of the range that is outside the block: past its end for longer tensors, before it for shorter. */
  lemma RangeSpills(id: nat, n: nat) returns (s: nat)
    requires !Stays(id, n)
    ensures InRange(id, n, s) && !InBlock(id, s)
  {
    if n > BLOCK_SIZE {
      s := id * n + n - 1;
      ProductMonotone(BLOCK_SIZE + 1, n, id + 1);
      assert (id + 1) * n == id * n + n;
      assert (BLOCK_SIZE + 1) * (id + 1) <= n * (id + 1);
    } else {
      s := id * n;
      ProductMonotone(n + 1, BLOCK_SIZE, id);
      assert (n + 1) * id <= BLOCK_SIZE * id;
    }
  }

  lemma InPlaceIf(cfg: Config, id: nat, lb: LayerBlock, row: seq<Cell>, s: nat)
    requires |row| == cfg.NumSlots() && CellsOk(cfg, row) && s < |row| && !InBlock(id, s)
    requires !KeysGo(cfg, id, lb) || Stays(id, lb.k.n) || Elementless(cfg)
    ensures WriteBlock(cfg, row, id, lb).0[s] == row[s]
  {
    hide WriteBlock;
    WriteBlockReach(cfg, row, id, lb);
    if KeysGo(cfg, id, lb) && InRange(id, lb.k.n, s) {
      if Stays(id, lb.k.n) {
        RangeStays(id, lb.k.n, s);
      } else {
        assert CellOk(cfg, row[s]);
        ElementlessIsOne(cfg, WriteBlock(cfg, row, id, lb).0[s], row[s]);
      }
    }
  }

  /**
   A write keeps to its block whatever the pool holds if and only if it is refused, or its tensor stays
   inside, or cells have no elements to tell apart.
   */
  lemma WriteBlockInPlaceExactly(cfg: Config, id: nat, lb: LayerBlock)
    ensures InPlace(cfg, id, lb) <==> !KeysGo(cfg, id, lb) || Stays(id, lb.k.n) || Elementless(cfg)
  {
    hide WriteBlock, KeysGo, Stays, Elementless;
    if !KeysGo(cfg, id, lb) || Stays(id, lb.k.n) || Elementless(cfg) {
      forall row: seq<Cell>, s: nat | |row| == cfg.NumSlots() && CellsOk(cfg, row) && s < |row| && !InBlock(id, s)
        ensures WriteBlock(cfg, row, id, lb).0[s] == row[s]
      {
        InPlaceIf(cfg, id, lb, row, s);
      }
    } else {
      var row, s := Spilled(cfg, id, lb);
    }
  }

  /** A row that a write changes outside its block. */
  lemma Spilled(cfg: Config, id: nat, lb: LayerBlock) returns (row: seq<Cell>, s: nat)
    requires KeysGo(cfg, id, lb) && !Stays(id, lb.k.n) && !Elementless(cfg)
    ensures |row| == cfg.NumSlots() && CellsOk(cfg, row) && s < |row| && !InBlock(id, s)
    ensures WriteBlock(cfg, row, id, lb).0[s] != row[s]
  {
    hide WriteBlock, Stays, CellOk, Elementless;
    s := RangeSpills(id, lb.k.n);
    var other := Unlike(cfg, RowOf(lb.k, s - id * lb.k.n));
    UnlikeDiffers(cfg, RowOf(lb.k, s - id * lb.k.n));
    row := seq(cfg.NumSlots(), _ => other);
    WriteBlockReach(cfg, row, id, lb);
  }

  // ------------------------------------------------------------------ the layers of a block

  /** Slot `s` of layer `m` is written by the layers from `l` on, before the first failure. */
  ghost predicate LayersReach(cfg: Config, id: nat, layers: seq<LayerBlock>, l: nat, m: nat, s: nat)
    decreases |layers| - l
  {
    l < |layers| &&
    (|| (l == m && KeysGo(cfg, id, layers[l]) && InRange(id, layers[l].k.n, s))
     || (Goes(cfg, id, layers[l]) && LayersReach(cfg, id, layers, l + 1, m, s)))
  }

  ghost predicate LayersGo(cfg: Config, id: nat, layers: seq<LayerBlock>, l: nat) {
    forall m :: l <= m < |layers| ==> Goes(cfg, id, layers[m])
  }

  /**
   Success depends on the tensors alone; unreached slots stay; and what ends up at a reached slot does
   not depend on what was there.
   */
  lemma {:induction false} WriteLayersReach(cfg: Config, pool: Pool, pool': Pool, id: nat, layers: seq<LayerBlock>,
                                            l: nat, m: nat, s: nat)
    requires Shaped(cfg, pool) && Shaped(cfg, pool') && l <= |layers| == cfg.numLayers
    requires m < cfg.numLayers && s < cfg.NumSlots()
    ensures var (r, ok) := WriteLayers(cfg, pool, id, layers, l);
      && (ok <==> LayersGo(cfg, id, layers, l))
      && (!LayersReach(cfg, id, layers, l, m, s) ==> r[m][s] == pool[m][s])
      && (LayersReach(cfg, id, layers, l, m, s) || pool[m][s].k == pool'[m][s].k ==>
            r[m][s].k == WriteLayers(cfg, pool', id, layers, l).0[m][s].k)
    decreases |layers| - l
  {
    hide WriteBlock;
    if l < |layers| {
      WriteBlockReach(cfg, pool[l], id, layers[l]);
      WriteBlockReach(cfg, pool'[l], id, layers[l]);
      var (row, ok) := WriteBlock(cfg, pool[l], id, layers[l]);
      var (row', _) := WriteBlock(cfg, pool'[l], id, layers[l]);
      if ok {
        WriteLayersReach(cfg, pool[l := row], pool'[l := row'], id, layers, l + 1, m, s);
      }
    }
  }

  // ------------------------------------------------------------------ the import

  /** Slot `s` of layer `m` is written by the blocks from `i` on, which take their ids off the free list. */
  ghost predicate Reach(cfg: Config, free: seq<nat>, blocks: seq<BundleBlock>, i: nat, m: nat, s: nat)
    decreases |blocks| - i
  {
    i < |blocks| && |blocks[i].layers| == cfg.numLayers && free != [] &&
    var id := free[|free| - 1];
    || LayersReach(cfg, id, blocks[i].layers, 0, m, s)
    || (LayersGo(cfg, id, blocks[i].layers, 0) && Reach(cfg, free[..|free| - 1], blocks, i + 1, m, s))
  }

  /** One block: its writes, and where the next one starts. */
  lemma LandOneReach(cfg: Config, c: Cache, pool': Pool, block: BundleBlock, m: nat, s: nat)
    requires Landed(cfg, Landing(c, c.blocks, None)) && Shaped(cfg, pool') && m < cfg.numLayers && s < cfg.NumSlots()
    requires |block.layers| == cfg.numLayers && c.alloc.free != []
    ensures Landed(cfg, Landing(c.(pool := pool'), c.blocks, None))
    ensures var id := c.alloc.free[|c.alloc.free| - 1];
      var r, r' := LandOne(cfg, c, block), LandOne(cfg, c.(pool := pool'), block);
      && (r.stopped.None? <==> LayersGo(cfg, id, block.layers, 0)) && r'.c == r.c.(pool := r'.c.pool) &&
        r'.stopped == r.stopped
      && r.c.alloc.free == c.alloc.free[..|c.alloc.free| - 1]
      && (!LayersReach(cfg, id, block.layers, 0, m, s) ==> r.c.pool[m][s] == c.pool[m][s])
      && (LayersReach(cfg, id, block.layers, 0, m, s) || c.pool[m][s].k == pool'[m][s].k ==>
            r.c.pool[m][s].k == r'.c.pool[m][s].k)
  {
    hide Balanced, WriteLayers;
    TakeStep(cfg, c);
    var id := c.alloc.free[|c.alloc.free| - 1];
    WriteLayersReach(cfg, c.pool, pool', id, block.layers, 0, m, s);
    WriteLayersReach(cfg, pool', c.pool, id, block.layers, 0, m, s);
  }

  lemma {:induction false} LandFromReach(cfg: Config, c: Cache, pool': Pool, blocks: seq<BundleBlock>, i: nat, m: nat,
                                         s: nat)
    requires Landed(cfg, Landing(c, c.blocks, None)) && Shaped(cfg, pool') && i <= |blocks|
    requires m < cfg.numLayers && s < cfg.NumSlots()
    ensures Landed(cfg, Landing(c.(pool := pool'), c.blocks, None))
    ensures var r, r' := LandFrom(cfg, c, blocks, i), LandFrom(cfg, c.(pool := pool'), blocks, i);
      && (!Reach(cfg, c.alloc.free, blocks, i, m, s) ==> r.c.pool[m][s] == c.pool[m][s])
      && (Reach(cfg, c.alloc.free, blocks, i, m, s) || c.pool[m][s].k == pool'[m][s].k ==>
        r.c.pool[m][s].k == r'.c.pool[m][s].k)
    decreases |blocks| - i
  {
    hide Balanced, LayersReach, LayersGo, LandOne;
    LandStep(cfg, c, blocks, i);
    LandStep(cfg, c.(pool := pool'), blocks, i);
    if i < |blocks| {
      var one := LandOne(cfg, c, blocks[i]);
      if |blocks[i].layers| == cfg.numLayers && c.alloc.free != [] {
        LandOneReach(cfg, c, pool', blocks[i], m, s);
        if one.stopped.None? {
          LandFromReach(cfg, one.c, LandOne(cfg, c.(pool := pool'), blocks[i]).c.pool, blocks, i + 1, m, s);
        }
      } else {
        StopsAtOnce(cfg, c, blocks[i]);
        StopsAtOnce(cfg, c.(pool := pool'), blocks[i]);
      }
    }
  }

  lemma StopsAtOnce(cfg: Config, c: Cache, block: BundleBlock)
    requires Landed(cfg, Landing(c, c.blocks, None)) && (|block.layers| != cfg.numLayers || c.alloc.free == [])
    ensures LandOne(cfg, c, block).stopped.Some? && LandOne(cfg, c, block).c == c
  {
  }

  /** The import gets past its checks and writes into a block the registry holds. */
  ghost predicate ReachesRegistered(cfg: Config, c: Cache, b: KvBundle, prompt: seq<Token>)
    requires Inv(cfg, c)
  {
    var free := Reset(cfg, c).alloc.free;
    && Rejects(cfg, b, prompt).None? && |b.blocks| <= |free|
    && exists h, m: nat, s: nat ::
         h in c.reg && m < cfg.numLayers && InBlock(c.reg[h].id, s) && Reach(cfg, free, b.blocks, 0, m, s)
  }

  /** Whatever cells the pool holds, the import leaves registered blocks alone. */
  ghost predicate AlwaysSpares(cfg: Config, c: Cache, b: KvBundle, prompt: seq<Token>)
    requires Inv(cfg, c) && Mapped(cfg, c)
  {
    forall pool | PoolOk(cfg, pool) ::
      Inv(cfg, c.(pool := pool)) &&
        RegisteredSame(cfg, c.(pool := pool), Import(cfg, c.(pool := pool), b, prompt).c.pool)
  }

  lemma PoolElsewhere(cfg: Config, c: Cache, pool: Pool)
    requires Inv(cfg, c) && Shaped(cfg, pool)
    ensures Inv(cfg, c.(pool := pool)) && Reset(cfg, c.(pool := pool)) == Reset(cfg, c).(pool := pool)
  {
  }

  /** The pool an import leaves is the one its loop leaves, rolled back or not. */
  lemma ImportPool(cfg: Config, c: Cache, b: KvBundle, prompt: seq<Token>)
    requires Inv(cfg, c)
    ensures Import(cfg, c, b, prompt).c.pool ==
      if Rejects(cfg, b, prompt).None? && |b.blocks| <= |Reset(cfg, c).alloc.free|
      then LandFrom(cfg, Reset(cfg, c), b.blocks, 0).c.pool else c.pool
  {
    hide Balanced, Reset, LandFrom, RegisterFrom, DropAll;
  }

  lemma UnreachedIsSame(cfg: Config, c: Cache, b: KvBundle, prompt: seq<Token>)
    requires Inv(cfg, c) && Mapped(cfg, c) && !ReachesRegistered(cfg, c, b, prompt)
    ensures RegisteredSame(cfg, c, Import(cfg, c, b, prompt).c.pool)
  {
    hide Balanced, Reset, LandFrom, Import, Reach;
    ImportPool(cfg, c, b, prompt);
    if Rejects(cfg, b, prompt).None? && |b.blocks| <= |Reset(cfg, c).alloc.free| {
      var empty := Reset(cfg, c);
      forall h, m: nat, s: nat | h in c.reg && m < cfg.numLayers && InBlock(c.reg[h].id, s)
        ensures LandFrom(cfg, empty, b.blocks, 0).c.pool[m][s] == c.pool[m][s]
      {
        LandFromReach(cfg, empty, empty.pool, b.blocks, 0, m, s);
      }
    }
  }

  lemma ReachedDiffers(cfg: Config, c: Cache, b: KvBundle, prompt: seq<Token>, h: Hash, m: nat,
                       s: nat) returns (pool: Pool)
    requires Inv(cfg, c) && Mapped(cfg, c) && Rejects(cfg, b, prompt).None? && |b.blocks| <= |Reset(cfg, c).alloc.free|
    requires h in c.reg && m < cfg.numLayers && InBlock(c.reg[h].id, s) && s < cfg.NumSlots()
    requires Reach(cfg, Reset(cfg, c).alloc.free, b.blocks, 0, m, s)
    requires !Elementless(cfg)
    ensures PoolOk(cfg, pool) && Inv(cfg, c.(pool := pool))
    ensures Import(cfg, c.(pool := pool), b, prompt).c.pool[m][s] != pool[m][s]
  {
    hide Balanced, Reset, LandFrom, Import, Reach, CellOk, Elementless;
    var empty := Reset(cfg, c);
    EmptyIsLanded(cfg, empty);
    var k := LandFrom(cfg, empty, b.blocks, 0).c.pool[m][s].k;
    var other := Unlike(cfg, k);
    pool := seq(cfg.numLayers, _ => seq(cfg.NumSlots(), _ => other));
    UnlikeDiffers(cfg, k);
    LandFromReach(cfg, empty, pool, b.blocks, 0, m, s);
    PoolElsewhere(cfg, c, pool);
    ImportPool(cfg, c.(pool := pool), b, prompt);
  }

  /** Without elements there is one pool only. */
  lemma ElementlessSame(cfg: Config, c: Cache, b: KvBundle, prompt: seq<Token>)
    requires Inv(cfg, c) && Mapped(cfg, c) && PoolOk(cfg, c.pool) && Elementless(cfg)
    ensures RegisteredSame(cfg, c, Import(cfg, c, b, prompt).c.pool)
  {
    hide Inv, Import, CellOk;
    var pool := Import(cfg, c, b, prompt).c.pool;
    Publish.ImportOk(cfg, c, b, prompt);
    forall h, l, s | h in c.reg && 0 <= l < cfg.numLayers && 0 <= s < cfg.NumSlots()
      ensures pool[l][s] == c.pool[l][s]
    {
      assert CellsOk(cfg, pool[l]) && CellsOk(cfg, c.pool[l]);
      ElementlessIsOne(cfg, pool[l][s], c.pool[l][s]);
    }
  }

  /**
   For every bundle, an import leaves registered blocks alone whatever the pool holds, if and only if none
   of the writes it gets to, told from the free list and the shapes of the tensors, reaches one, or cells
   have no elements to tell apart.
   */
  lemma ImportSparesExactly(cfg: Config, c: Cache, b: KvBundle, prompt: seq<Token>)
    requires Inv(cfg, c) && Mapped(cfg, c)
    ensures AlwaysSpares(cfg, c, b, prompt) <==> !ReachesRegistered(cfg, c, b, prompt) || Elementless(cfg)
  {
    hide Balanced, Reset, Import, Reach, Rejects, CellsOk, Elementless;
    if ReachesRegistered(cfg, c, b, prompt) && !Elementless(cfg) {
      var h, m: nat, s: nat :| h in c.reg && m < cfg.numLayers && InBlock(c.reg[h].id, s)
        && Reach(cfg, Reset(cfg, c).alloc.free, b.blocks, 0, m, s);
      var pool := ReachedDiffers(cfg, c, b, prompt, h, m, s);
      assert !SameBlock(cfg, c.reg[h].id, pool, Import(cfg, c.(pool := pool), b, prompt).c.pool);
    } else {
      forall pool | PoolOk(cfg, pool)
        ensures Inv(cfg, c.(pool := pool)) &&
          RegisteredSame(cfg, c.(pool := pool), Import(cfg, c.(pool := pool), b, prompt).c.pool)
      {
        PoolElsewhere(cfg, c, pool);
        if Elementless(cfg) {
          ElementlessSame(cfg, c.(pool := pool), b, prompt);
        } else {
          UnreachedIsSame(cfg, c.(pool := pool), b, prompt);
        }
      }
    }
  }

  lemma {:induction false} SizedLayersReach(cfg: Config, id: nat, layers: seq<LayerBlock>, l: nat, m: nat, s: nat)
    requires LayersReach(cfg, id, layers, l, m, s) && forall i :: 0 <= i < |layers| ==> layers[i].k.n == BLOCK_SIZE
    ensures InBlock(id, s)
    decreases |layers| - l
  {
    if !(l == m && KeysGo(cfg, id, layers[l]) && InRange(id, layers[l].k.n, s)) {
      SizedLayersReach(cfg, id, layers, l + 1, m, s);
    }
  }

  /** Blocks of the cache's size are written into free blocks and nowhere else. */
  lemma {:induction false} SizedReach(cfg: Config, free: seq<nat>, blocks: seq<BundleBlock>, i: nat, m: nat,
                                      s: nat) returns (id: nat)
    requires Reach(cfg, free, blocks, i, m, s) && forall b :: 0 <= b < |blocks| ==> Sized(blocks[b])
    ensures id in free && InBlock(id, s)
    decreases |blocks| - i
  {
    hide LayersReach, LayersGo;
    if LayersReach(cfg, free[|free| - 1], blocks[i].layers, 0, m, s) {
      id := free[|free| - 1];
      SizedLayersReach(cfg, id, blocks[i].layers, 0, m, s);
    } else {
      id := SizedReach(cfg, free[..|free| - 1], blocks, i + 1, m, s);
    }
  }

  /** Tensors of the cache's block size, as every decoded bundle has them, reach nothing registered. */
  lemma SizedReachesNothing(cfg: Config, c: Cache, b: KvBundle, prompt: seq<Token>)
    requires Inv(cfg, c) && SizedBundle(b)
    ensures !ReachesRegistered(cfg, c, b, prompt)
  {
    hide Reset, Reach, Rejects;
    var empty := Reset(cfg, c);
    forall h, m: nat, s: nat | h in c.reg && m < cfg.numLayers && InBlock(c.reg[h].id, s)
      ensures !Reach(cfg, empty.alloc.free, b.blocks, 0, m, s)
    {
      if Reach(cfg, empty.alloc.free, b.blocks, 0, m, s) {
        var id := SizedReach(cfg, empty.alloc.free, b.blocks, 0, m, s);
        HeldIsReferenced(cfg, empty, c.reg[h].id);
      }
    }
  }

  // ------------------------------------------------------------------ failure

  /**
   A failed import is as if nothing had been imported: the checks that come first leave the cache
   as it was; past them only the sequence is gone, with the counts and free blocks of a reset, and
   registered contents are as they were unless a write that went through reached one. Running out of
   blocks is found before anything is allocated, never in the middle.
   */
  lemma ImportAllOrNothing(cfg: Config, c: Cache, b: KvBundle, prompt: seq<Token>)
    requires Inv(cfg, c) && Mapped(cfg, c)
    requires Import(cfg, c, b, prompt).Failed?
    ensures var r, empty := Import(cfg, c, b, prompt), Reset(cfg, c);
      && r.c.reg == c.reg && (!ReachesRegistered(cfg, c, b, prompt) ==> RegisteredSame(cfg, c, r.c.pool))
      && (Rejects(cfg, b, prompt).Some? ==> r.c == c)
      && (Rejects(cfg, b, prompt).None? ==>
            && r.c.blocks == [] && r.c.len == 0 && r.c.alloc.refs == empty.alloc.refs
            && Lists(r.c.alloc.free, Unreferenced(empty.alloc))
            && (r.why == OutOfBlocks <==> |empty.alloc.free| < |b.blocks|))
  {
    hide ReachesRegistered, LandFrom, DropAll, Reset;
    if !ReachesRegistered(cfg, c, b, prompt) {
      UnreachedIsSame(cfg, c, b, prompt);
    }
    if Rejects(cfg, b, prompt).None? {
      var r, empty := Import(cfg, c, b, prompt), Reset(cfg, c);
      assert multiset(r.c.blocks) == multiset{} == multiset(empty.blocks);
      SameCounts(r.c.alloc, empty.alloc, c.reg);
    }
  }
}
