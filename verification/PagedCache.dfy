/**
 The prefix registry and the paged cache, updated in place (src/models/common/prefix.rs,
 src/models/common/cache.rs). Every method is proved to leave exactly what the function of the same
 name in CacheState, Session or CrossNode says.
 */
module PagedCache {
  import opened Basics
  import opened Network
  import opened PoolWrite
  import opened Allocator
  import opened Bundle
  import opened CacheState
  import CrossNode
  import Paged
  import Session

  class PrefixRegistry {
    var entries: Registry

    constructor ()
      ensures entries == map[]
    {
      entries := map[];
    }

    method Insert(h: Hash, tokens: seq<Token>, id: nat)
      modifies this
      ensures entries == old(entries)[h := Entry(tokens, id)]
    {
      entries := entries[h := Entry(tokens, id)];
    }

    /** `drain_block_ids`, in the order `keys` the hash map happens to have */
    method DrainBlockIds() returns (ids: seq<nat>, ghost keys: seq<Hash>)
      modifies this
      ensures entries == map[] && Lists(keys, old(entries).Keys)
      ensures |ids| == |keys| && forall i :: 0 <= i < |ids| ==> ids[i] == old(entries)[keys[i]].id
    {
      ids, keys := [], [];
      while entries != map[]
        invariant entries.Keys <= old(entries).Keys && Lists(keys, old(entries).Keys - entries.Keys)
        invariant forall h :: h in entries ==> entries[h] == old(entries)[h]
        invariant |ids| == |keys| && forall i :: 0 <= i < |ids| ==>
          keys[i] in old(entries) && ids[i] == old(entries)[keys[i]].id
        decreases |entries|
      {
        assert entries.Keys != {} by {
          assert exists h :: h in entries;
        }
        var h :| h in entries;
        ids, keys := ids + [entries[h].id], keys + [h];
        ghost var before := entries;
        entries := entries - {h};
        assert before.Keys == entries.Keys + {h};
        assert |before| == |entries| + 1 by {
          assert before == entries[h := before[h]];
        }
      }
    }
  }

  /** What an operation that reports `r` has left behind. */
  function Left<T>(c: Cache, r: Result<T, Reason>): Outcome<T> {
    match r
    case Ok(value) => Done(c, value)
    case Err(why) => Failed(c, why)
  }

  /** Gathered blocks put back together. */
  function Concat(blocks: seq<seq<Cell>>): seq<Cell> {
    if blocks == [] then [] else Concat(blocks[..|blocks| - 1]) + blocks[|blocks| - 1]
  }

  class KvCache {
    const cfg: Config
    const allocator: Paged.BlockAllocator
    const table: Paged.BlockTable
    const pool: Paged.PagedKvPool
    const registry: PrefixRegistry

    ghost function Repr(): set<object> {
      {allocator, allocator.refCounts, table, pool.kPools, pool.vPools, registry}
    }

    ghost predicate Valid() {
      pool.Valid() && pool.cfg == cfg
    }

    ghost function Abs(): Cache
      requires Valid()
      reads Repr()
    {
      Cache(allocator.Abs(), table.blocks, table.len, registry.entries, pool.Abs())
    }

    constructor (cfg: Config)
      ensures Valid() && fresh(Repr()) && this.cfg == cfg
      ensures Abs() == New(cfg) && Inv(cfg, Abs())
    {
      this.cfg := cfg;
      allocator := new Paged.BlockAllocator(cfg.NumBlocks());
      table := new Paged.BlockTable();
      pool := new Paged.PagedKvPool(cfg);
      registry := new PrefixRegistry();
    }

    /** `allocate` */
    method Allocate() returns (r: Option<nat>)
      requires Valid() && Counted(cfg, Abs())
      modifies Repr()
      ensures match Take(old(Abs()).alloc)
        case None => r.None? && Abs() == old(Abs())
        case Some((a, id)) => r == Some(id) && Abs() == old(Abs()).(alloc := a, blocks := old(Abs()).blocks + [id])
    {
      r := allocator.Allocate();
      if r.Some? {
        table.PushBlock(r.value);
      }
    }

    /** `allocate_kv` */
    method AllocateKv(n: nat) returns (r: Result<(), Reason>)
      requires Valid() && Inv(cfg, Abs())
      modifies Repr()
      ensures Left(Abs(), r) == CacheState.AllocateKv(cfg, old(Abs()), n)
    {
      hide Balanced, GrowTo, Take, Shaped, TailOwned;
      var end := table.len + n;
      if end > cfg.maxSeqLen {
        return Err(Overflow);
      }
      while table.Capacity() < end
        invariant Inv(cfg, Abs()) && Abs().len == old(Abs()).len
        invariant GrowTo(cfg, Abs(), end) == GrowTo(cfg, old(Abs()), end)
        decreases end - table.Capacity()
      {
        GrowStep(cfg, Abs(), end);
        var id := Allocate();
        if id.None? {
          return Err(OutOfBlocks);
        }
      }
      GrowStep(cfg, Abs(), end);
      table.Advance(n);
      r := Ok(());
    }

    /** `write_current` */
    method WriteCurrent(rule: Rule, layer: nat, cells: seq<Cell>)
      requires Valid() && Mapped(cfg, Abs()) && layer < cfg.numLayers && |cells| <= Abs().len <= cfg.maxSeqLen
      modifies Repr()
      ensures Abs() == Session.WriteCurrent(cfg, rule, old(Abs()), layer, cells)
    {
      hide WriteFrom;
      Session.BatchFits(cfg, Abs(), |cells|);
      var slots := Slots(table.blocks, table.len - |cells|, table.len);
      pool.Write(rule, layer, slots, cells);
    }

    /** `gather_blocks`: the live keys and values of a layer, one physical block at a time */
    method GatherBlocks(layer: nat) returns (blocks: seq<seq<Cell>>)
      requires Valid() && Mapped(cfg, Abs()) && layer < cfg.numLayers
      ensures Concat(blocks) == Session.LiveCells(cfg, Abs(), layer)
      ensures forall b :: 0 <= b < |blocks| ==> 0 < |blocks[b]| <= BLOCK_SIZE
    {
      hide Session.LiveCells;
      var numBlocks := (table.len + BLOCK_SIZE - 1) / BLOCK_SIZE;
      blocks := [];
      var b := 0;
      while b < numBlocks
        invariant 0 <= b <= numBlocks && |blocks| == b
        invariant forall d :: 0 <= d < |blocks| ==> 0 < |blocks[d]| <= BLOCK_SIZE
        invariant Concat(blocks) == Session.LiveCells(cfg, Abs(), layer)[..Smaller(b * BLOCK_SIZE, table.len)]
      {
        var start := b * BLOCK_SIZE;
        var n := Smaller(BLOCK_SIZE, table.len - start);
        Session.SlotInPool(cfg, Abs(), start);
        var view := pool.BlockView(layer, Slot(table.blocks, start), n);
        NextView(cfg, Abs(), layer, start, n, view);
        assert (blocks + [view])[..|blocks|] == blocks;
        blocks := blocks + [view];
        b := b + 1;
      }
    }

    /** `reset_sequence` */
    method ResetSequence()
      requires Valid() && Counted(cfg, Abs())
      modifies Repr()
      ensures Abs() == Reset(cfg, old(Abs()))
    {
      var blocks := table.blocks;
      DecrefAll(blocks, multiset{});
      table.Clear();
    }

    /** Dropping one reference on each of `ids`. */
    method DecrefAll(ids: seq<nat>, ghost held: multiset<nat>)
      requires Valid() && Balanced(Abs().alloc, held + multiset(ids), Abs().reg)
      modifies allocator, allocator.refCounts
      ensures allocator.Abs() == DropAll(old(allocator.Abs()), ids, held, Abs().reg)
    {
      var i := 0;
      assert ids[0..] == ids;
      while i < |ids|
        invariant 0 <= i <= |ids| && Balanced(allocator.Abs(), held + multiset(ids[i..]), registry.entries)
        invariant DropAll(allocator.Abs(), ids[i..], held, registry.entries) ==
          DropAll(old(allocator.Abs()), ids, held, registry.entries)
      {
        DropStep(allocator.Abs(), ids[i..], held, registry.entries);
        assert ids[i..][1..] == ids[i + 1..];
        var _ := allocator.Decref(ids[i]);
        i := i + 1;
      }
    }

    /** One more reference to a registered block, which the table maps next. */
    method ShareBlock(id: nat)
      requires Valid() && id < |Abs().alloc.refs|
      modifies Repr()
      ensures Abs() == old(Abs()).(alloc := Incref(old(Abs()).alloc, id), blocks := old(Abs()).blocks + [id])
    {
      allocator.Incref(id);
      table.PushBlock(id);
    }

    /** `match_prefix`, on a just-reset sequence; returns the number of tokens served from the cache */
    method MatchPrefix(toks: seq<Token>) returns (matched: nat)
      requires Valid() && Counted(cfg, Abs()) && Abs().blocks == [] && Abs().len == 0
      modifies Repr()
      ensures Abs() == Match(cfg, old(Abs()), toks) && matched == Abs().len
    {
      hide Balanced, MatchFrom, Lookup, HashAt, ReusableBlocks;
      HashStart(cfg, toks);
      var maxReusable := ReusableBlocks(BLOCK_SIZE, |toks|);
      var parent := PREFIX_HASH_SEED;
      matched := 0;
      var b := 0;
      while b < maxReusable
        invariant 0 <= b <= maxReusable == MatchCap(|toks|) && parent == HashAt(cfg, toks, b) &&
          matched == b * BLOCK_SIZE
        invariant Counted(cfg, Abs()) && |Abs().blocks| == b && Abs().len == 0
        invariant MatchFrom(cfg, Abs(), toks, b) == MatchFrom(cfg, old(Abs()), toks, 0)
      {
        HashStep(cfg, registry.entries, toks, b);
        var chunk := Chunk(toks, b);
        var h := cfg.hash(parent, chunk);
        match Get(registry.entries, h, chunk) {
          case None => break;
          case Some(id) =>
            MatchStep(cfg, Abs(), toks, b);
            ShareBlock(id);
            matched := matched + BLOCK_SIZE;
            parent := h;
        }
        b := b + 1;
      }
      MatchStep(cfg, Abs(), toks, b);
      table.Advance(matched);
    }

    /** `register_prefix` */
    method RegisterPrefix(toks: seq<Token>)
      requires Valid() && Counted(cfg, Abs()) && |toks| / BLOCK_SIZE <= |Abs().blocks|
      modifies Repr()
      ensures Abs() == RegisterFrom(cfg, old(Abs()), toks, 0)
    {
      hide Balanced, RegisterFrom, HashAt;
      HashStart(cfg, toks);
      var numFull := |toks| / BLOCK_SIZE;
      var parent := PREFIX_HASH_SEED;
      var b := 0;
      while b < numFull
        invariant 0 <= b <= numFull && parent == HashAt(cfg, toks, b)
        invariant Counted(cfg, Abs()) && Abs().blocks == old(Abs()).blocks
        invariant RegisterFrom(cfg, Abs(), toks, b) == RegisterFrom(cfg, old(Abs()), toks, 0)
      {
        HashStep(cfg, registry.entries, toks, b);
        var chunk := Chunk(toks, b);
        var h := cfg.hash(parent, chunk);
        RegisterStep(cfg, Abs(), toks, b);
        if h !in registry.entries {
          var id := table.blocks[b];
          allocator.Incref(id);
          registry.Insert(h, chunk, id);
        }
        parent := h;
        b := b + 1;
      }
      RegisterStep(cfg, Abs(), toks, b);
    }

    /** `clear_prefix_cache`, the registry draining in the order `keys` */
    method ClearPrefixCache() returns (ghost keys: seq<Hash>)
      requires Valid() && Counted(cfg, Abs())
      modifies Repr()
      ensures Lists(keys, old(Abs()).reg.Keys) && Abs() == Clear(cfg, old(Abs()), keys)
    {
      ghost var reg := registry.entries;
      var ids: seq<nat>;
      ids, keys := registry.DrainBlockIds();
      DecrefEntries(ids, keys, reg, multiset(table.blocks));
    }

    /** Dropping the reference of every drained entry. */
    method DecrefEntries(ids: seq<nat>, ghost keys: seq<Hash>, ghost reg: Registry, ghost held: multiset<nat>)
      requires Valid() && Balanced(allocator.Abs(), held, reg) && Lists(keys, reg.Keys)
      requires |ids| == |keys| && forall j :: 0 <= j < |keys| ==> keys[j] in reg && reg[keys[j]].id == ids[j]
      modifies allocator, allocator.refCounts
      ensures allocator.Abs() == DropEntries(old(allocator.Abs()), reg, keys, held)
    {
      hide Balanced, DropEntries, Decref, Lists;
      ghost var start := allocator.Abs();
      ghost var rest := reg;
      assert keys[0..] == keys;
      var i := 0;
      while i < |ids|
        invariant 0 <= i <= |ids| && Lists(keys[i..], rest.Keys) && Balanced(allocator.Abs(), held, rest)
        invariant forall h :: h in rest ==> h in reg && rest[h] == reg[h]
        invariant DropEntries(allocator.Abs(), rest, keys[i..], held) == DropEntries(start, reg, keys, held)
      {
        DropEntryStep(allocator.Abs(), rest, keys[i..], held);
        assert keys[i..][1..] == keys[i + 1..];
        rest := rest - {keys[i]};
        var _ := allocator.Decref(ids[i]);
        i := i + 1;
      }
      assert keys[i..] == [];
      DropEntryStep(allocator.Abs(), rest, keys[i..], held);
    }

    /** The layers of one bundle block into the pool, up to the first that does not fit. */
    method WriteLayers(id: nat, layers: seq<LayerBlock>) returns (ok: bool)
      requires Valid() && |layers| == cfg.numLayers
      modifies pool.kPools, pool.vPools
      ensures (pool.Abs(), ok) == CacheState.WriteLayers(cfg, old(pool.Abs()), id, layers, 0)
    {
      var l := 0;
      while l < |layers|
        invariant 0 <= l <= |layers|
        invariant CacheState.WriteLayers(cfg, pool.Abs(), id, layers, l) ==
          CacheState.WriteLayers(cfg, old(pool.Abs()), id, layers, 0)
      {
        ok := pool.WriteBlock(l, id, layers[l]);
        if !ok {
          return;
        }
        l := l + 1;
      }
      ok := true;
    }

    /** One turn of the import: allocate a block, write its layers, map it. */
    method ImportBlock(block: BundleBlock) returns (taken: seq<nat>, stopped: Option<Reason>)
      requires Valid() && Landed(cfg, Landing(Abs(), Abs().blocks, None))
      modifies Repr()
      ensures Landing(Abs(), old(Abs()).blocks + taken, stopped) == LandOne(cfg, old(Abs()), block)
    {
      hide Balanced, CacheState.WriteLayers;
      if |block.layers| != cfg.numLayers {
        return [], Some(BadLayerCount);
      }
      TakeStep(cfg, Abs());
      FreeInRange(cfg, Abs());
      var id := allocator.Allocate();
      if id.None? {
        return [], Some(OutOfBlocks);
      }
      var ok := WriteLayers(id.value, block.layers);
      if !ok {
        return [id.value], Some(BadTensor);
      }
      table.PushBlock(id.value);
      return [id.value], None;
    }

    /** The import loop: the block ids it took, and why it stopped early if it did. */
    method ImportBlocks(blocks: seq<BundleBlock>) returns (ids: seq<nat>, stopped: Option<Reason>)
      requires Valid() && Landed(cfg, Landing(Abs(), Abs().blocks, None)) && Abs().blocks == []
      modifies Repr()
      ensures Landing(Abs(), ids, stopped) == LandFrom(cfg, old(Abs()), blocks, 0)
    {
      hide Landed, LandFrom, LandOne;
      ids, stopped := [], None;
      var i := 0;
      while i < |blocks|
        invariant 0 <= i <= |blocks| && Landed(cfg, Landing(Abs(), Abs().blocks, None)) && ids == table.blocks
        invariant LandFrom(cfg, Abs(), blocks, i) == LandFrom(cfg, old(Abs()), blocks, 0)
      {
        LandStep(cfg, Abs(), blocks, i);
        LandOneMaps(cfg, Abs(), blocks[i]);
        var taken: seq<nat>;
        taken, stopped := ImportBlock(blocks[i]);
        ids := ids + taken;
        if stopped.Some? {
          return;
        }
        i := i + 1;
      }
      LandStep(cfg, Abs(), blocks, i);
      return ids, None;
    }

    /** The import past its checks: all of it, or none with every block given back. */
    method LandBundle(bundle: KvBundle) returns (r: Result<nat, Reason>)
      requires Valid() && Counted(cfg, Abs()) && Abs().blocks == [] && Abs().len == 0
      requires |bundle.meta.tokenIds| == bundle.meta.tokenCount == |bundle.blocks| * BLOCK_SIZE
      modifies Repr()
      ensures Left(Abs(), r) == Land(cfg, old(Abs()), bundle)
    {
      hide Balanced, LandFrom, RegisterFrom, DropAll;
      EmptyIsLanded(cfg, Abs());
      var ids, stopped := ImportBlocks(bundle.blocks);
      if stopped.Some? {
        assert multiset{} + multiset(ids) == multiset(ids);
        DecrefAll(ids, multiset{});
        table.Clear();
        return Err(stopped.value);
      }
      table.Advance(bundle.meta.tokenCount);
      RegisterPrefix(bundle.meta.tokenIds);
      r := Ok(bundle.meta.tokenCount);
    }

    /** `import_prefix_bundle`; returns the imported token count */
    method ImportPrefixBundle(bundle: KvBundle, prompt: seq<Token>) returns (r: Result<nat, Reason>)
      requires Valid() && Inv(cfg, Abs())
      modifies Repr()
      ensures Left(Abs(), r) == Import(cfg, old(Abs()), bundle, prompt)
    {
      hide Balanced, Land, Reset;
      var fault := Rejects(cfg, bundle, prompt);
      if fault.Some? {
        return Err(fault.value);
      }
      ResetSequence();
      if |allocator.free| < |bundle.blocks| {
        return Err(OutOfBlocks);
      }
      r := LandBundle(bundle);
    }

    /** One logical block of the live sequence, all layers. */
    method ExportBlock(b: nat) returns (block: BundleBlock)
      requires Valid() && Mapped(cfg, Abs()) && CrossNode.PoolOk(cfg, Abs().pool) && b < |Abs().blocks|
      ensures block == CrossNode.ExportBlock(cfg, Abs(), b)
    {
      var layers: seq<LayerBlock> := [];
      Session.SlotInPool(cfg, Abs(), b * BLOCK_SIZE);
      while |layers| < cfg.numLayers
        invariant |layers| <= cfg.numLayers
        invariant forall l :: 0 <= l < |layers| ==>
          layers[l] == CrossNode.ExportLayer(cfg, CrossNode.BlockCells(cfg, Abs(), l, b))
      {
        var view := pool.BlockView(|layers|, Slot(table.blocks, b * BLOCK_SIZE), BLOCK_SIZE);
        assert view == CrossNode.BlockCells(cfg, Abs(), |layers|, b);
        layers := layers + [CrossNode.ExportLayer(cfg, view)];
      }
      block := BundleBlock(b, layers);
    }

    /** `export_prefix_bundle` */
    method ExportPrefixBundle(modelId: string, toks: seq<Token>, count: nat) returns (r: Result<KvBundle, Reason>)
      requires Valid() && Mapped(cfg, Abs()) && CrossNode.PoolOk(cfg, Abs().pool)
      ensures r == CrossNode.Export(cfg, modelId, Abs(), toks, count)
    {
      hide Mapped, CrossNode.PoolOk, CrossNode.ExportBlock;
      if count == 0 || count % BLOCK_SIZE != 0 {
        return Err(Unaligned);
      }
      if count > table.len {
        return Err(BadTokenCount);
      }
      if |toks| < count {
        return Err(WrongPrompt);
      }
      LiveIsMapped(cfg, Abs());
      var blocks: seq<BundleBlock> := [];
      while |blocks| < count / BLOCK_SIZE
        invariant |blocks| <= count / BLOCK_SIZE
        invariant forall b :: 0 <= b < |blocks| ==> blocks[b] == CrossNode.ExportBlock(cfg, Abs(), b)
      {
        var block := ExportBlock(|blocks|);
        blocks := blocks + [block];
      }
      var meta := Meta(modelId, count, toks[..count], BLOCK_SIZE, cfg.numLayers, cfg.kvHeads, cfg.headDim, cfg.dtype);
      r := Ok(KvBundle(meta, blocks));
      ghost var expected := CrossNode.Export(cfg, modelId, Abs(), toks, count);
      assert expected.Ok? && expected.value.blocks == blocks;
    }
  }

  lemma LiveIsMapped(cfg: Config, c: Cache)
    requires Mapped(cfg, c)
    ensures c.len <= |c.blocks| * BLOCK_SIZE
  {
  }

  lemma FreeInRange(cfg: Config, c: Cache)
    requires Counted(cfg, c)
    ensures forall b :: b in c.alloc.free ==> b < |c.alloc.refs|
  {
  }

  /** An import step that goes through has mapped what it allocated. */
  lemma LandOneMaps(cfg: Config, c: Cache, block: BundleBlock)
    requires Landed(cfg, Landing(c, c.blocks, None))
    ensures LandOne(cfg, c, block).stopped.None? ==> LandOne(cfg, c, block).c.blocks == LandOne(cfg, c, block).taken
  {
    hide LandOne, Balanced;
  }

  lemma HashStart(cfg: Config, toks: seq<Token>)
    ensures HashAt(cfg, toks, 0) == PREFIX_HASH_SEED
  {
  }

  /** The hash of the next block is chained onto the parent's. */
  lemma HashStep(cfg: Config, reg: Registry, toks: seq<Token>, b: nat)
    requires (b + 1) * BLOCK_SIZE <= |toks|
    ensures HashAt(cfg, toks, b + 1) == cfg.hash(HashAt(cfg, toks, b), Chunk(toks, b))
    ensures Lookup(cfg, reg, toks, b) == Get(reg, cfg.hash(HashAt(cfg, toks, b), Chunk(toks, b)), Chunk(toks, b))
  {
  }

  function Smaller(a: nat, b: nat): nat {
    if a < b then a else b
  }

  /** A block view is the next stretch of the live keys and values. */
  lemma NextView(cfg: Config, c: Cache, layer: nat, start: nat, n: nat, view: seq<Cell>)
    requires Mapped(cfg, c) && layer < cfg.numLayers && start % BLOCK_SIZE == 0 && n <= BLOCK_SIZE &&
      start + n <= c.len && n > 0
    requires Slot(c.blocks, start) + n <= cfg.NumSlots()
    requires view == c.pool[layer][Slot(c.blocks, start)..Slot(c.blocks, start) + n]
    ensures Session.LiveCells(cfg, c, layer)[..start] + view == Session.LiveCells(cfg, c, layer)[..start + n]
  {
    var live := Session.LiveCells(cfg, c, layer);
    forall j | 0 <= j < n
      ensures view[j] == live[start + j]
    {
      assert Slot(c.blocks, start + j) == Slot(c.blocks, start) + j;
      assert live[start + j] == Session.CellAt(cfg, c, layer, start + j);
    }
  }
}
