/**
 Every step of a session keeps the live contents and the registry exact, and a prefill from any
 source of reuse leaves what a cold run would leave.
 */
module Transparency {
  import opened Network
  import opened PoolWrite
  import opened Allocator
  import opened CacheState
  import opened Session
  import opened Contents

  // ------------------------------------------------------------------ forward

  /** The slots a forward call over `n` tokens writes, once it has allocated them. */
  function BatchSlots(cfg: Config, c: Cache, n: nat): seq<nat>
    requires Inv(cfg, c)
  {
    var r := AllocateKv(cfg, c, n);
    if r.Done? then Slots(r.c.blocks, c.len, r.c.len) else []
  }

  /** Growing the table does not move what is there. */
  lemma GrowKeepsLive(cfg: Config, net: Net, c: Cache, r: Cache, past: seq<Token>, toks: seq<Token>, l: nat)
    requires Mapped(cfg, c) && Mapped(cfg, r) && Live(cfg, net, c, past) && l < cfg.numLayers
    requires c.blocks <= r.blocks && r.pool == c.pool && past <= toks
    ensures HoldsUpTo(cfg, net, r, toks, l, c.len)
  {
    assert HoldsUpTo(cfg, net, c, past, l, |past|);
    forall p | 0 <= p < c.len
      ensures CellAt(cfg, r, l, p) == KvAt(net, toks, l, p)
    {
      assert CellAt(cfg, r, l, p) == CellAt(cfg, c, l, p);
      assert past[..p + 1] == toks[..p + 1];
      Causal(net, past, toks, l, p);
    }
  }

  /** The layer loop after allocation, started on a live sequence. */
  lemma LayersFromLive(cfg: Config, net: Net, rule: Rule, c: Cache, c': Cache, past: seq<Token>, ids: seq<Token>)
    requires Mapped(cfg, c) && Live(cfg, net, c, past)
    requires Inv(cfg, c') && Mapped(cfg, c') && OwnedFrom(c', c.len)
    requires c.blocks <= c'.blocks && c'.pool == c.pool && c'.len == c.len + |ids| <= cfg.maxSeqLen
    requires WritesRight(rule, Slots(c'.blocks, c.len, c'.len))
    ensures var (r, ys) := LayersFrom(cfg, net, rule, c', Embedded(net, ids), c.len, 0);
      && Live(cfg, net, r, past + ids)
      && InputsOf(net, past + ids, ys, c.len, cfg.numLayers)
      && RegisteredSame(cfg, c', r.pool)
  {
    OwnedIsExclusive(cfg, c', c.len);
    var toks, xs := past + ids, Embedded(net, ids);
    forall l | 0 <= l < cfg.numLayers
      ensures HoldsUpTo(cfg, net, c', toks, l, c.len)
    {
      GrowKeepsLive(cfg, net, c, c', past, toks, l);
    }
    LayersExact(cfg, net, rule, c', toks, xs, c.len, 0);
  }

  /** A forward call at the live length extends the live sequence and computes a cold run's logits. */
  lemma ForwardExact(cfg: Config, net: Net, rule: Rule, c: Cache, past: seq<Token>, ids: seq<Token>)
    requires Inv(cfg, c) && Mapped(cfg, c) && Live(cfg, net, c, past)
    requires Forward(cfg, net, rule, c, ids, c.len).Done?
    requires WritesRight(rule, BatchSlots(cfg, c, |ids|))
    ensures var r := Forward(cfg, net, rule, c, ids, c.len);
      && Mapped(cfg, r.c) && Live(cfg, net, r.c, past + ids)
      && (forall i :: 0 <= i < |ids| ==> r.value[i] == net.head(ActAt(net, past + ids, cfg.numLayers, c.len + i)))
      && RegisteredSame(cfg, c, r.c.pool)
  {
    hide Inv, LayersFrom, GrowTo, Live;
    var grown := AllocateKv(cfg, c, |ids|);
    InvMapped(cfg, grown.c);
    LayersFromLive(cfg, net, rule, c, grown.c, past, ids);
    InvMapped(cfg, Forward(cfg, net, rule, c, ids, c.len).c);
  }

  /** What allocation adds is the sequence's own, and the layer loop may write it. */
  lemma AllocatedIsExclusive(cfg: Config, c: Cache, n: nat)
    requires Inv(cfg, c) && AllocateKv(cfg, c, n).Done?
    ensures var grown := AllocateKv(cfg, c, n).c; Mapped(cfg, grown) && Exclusive(grown, c.len)
  {
    hide AllocateKv, Balanced, Mapped, Exclusive, OwnedFrom;
    InvMapped(cfg, AllocateKv(cfg, c, n).c);
    OwnedIsExclusive(cfg, AllocateKv(cfg, c, n).c, c.len);
  }

  /** A forward call, successful or not, leaves registered blocks alone. */
  lemma ForwardSpares(cfg: Config, net: Net, rule: Rule, c: Cache, ids: seq<Token>, indexPos: nat)
    requires Inv(cfg, c) && Mapped(cfg, c) && WritesRight(rule, BatchSlots(cfg, c, |ids|))
    ensures RegisteredSame(cfg, c, Forward(cfg, net, rule, c, ids, indexPos).c.pool)
  {
    hide Inv, Exclusive, AllocateKv, LayersFrom, WritesRight, Slots;
    if AllocateKv(cfg, c, |ids|).Done? {
      AllocatedIsExclusive(cfg, c, |ids|);
      LayersSpare(cfg, net, rule, AllocateKv(cfg, c, |ids|).c, Embedded(net, ids), indexPos, 0);
    }
  }

  // ------------------------------------------------------------------ soundness of the registry

  lemma SamePoolSound(cfg: Config, net: Net, paths: set<seq<Token>>, c: Cache, r: Cache)
    requires Mapped(cfg, c) && Mapped(cfg, r) && Sound(cfg, net, paths, c)
    requires Submap(r.reg, c.reg) && RegisteredSame(cfg, c, r.pool)
    ensures Sound(cfg, net, paths, r)
  {
    forall h | h in r.reg
      ensures EntrySound(cfg, net, paths, r.pool, h, r.reg[h])
    {
      assert EntrySound(cfg, net, paths, c.pool, h, c.reg[h]);
      var path :| path in paths && Names(cfg, h, c.reg[h], path) && BlockHolds(cfg, net, c.pool, c.reg[h].id, path);
      assert SameBlock(cfg, c.reg[h].id, c.pool, r.pool);
      HoldsCarriesOver(cfg, net, c.pool, r.pool, c.reg[h].id, path);
    }
  }

  lemma HoldsCarriesOver(cfg: Config, net: Net, pool: Pool, pool': Pool, id: nat, path: seq<Token>)
    requires Shaped(cfg, pool) && Shaped(cfg, pool') && id < cfg.NumBlocks() && Aligned(path)
    requires SameBlock(cfg, id, pool, pool') && BlockHolds(cfg, net, pool, id, path)
    ensures BlockHolds(cfg, net, pool', id, path)
  {
  }

  lemma PrefixLastChunk(toks: seq<Token>, b: nat)
    requires 0 < b * BLOCK_SIZE <= |toks|
    ensures LastChunk(BlockPrefix(toks, b)) == Chunk(toks, b - 1)
  {
  }

  lemma PrefixHash(cfg: Config, toks: seq<Token>, b: nat)
    requires 0 < b * BLOCK_SIZE <= |toks|
    ensures PathHash(cfg, BlockPrefix(toks, b)) == HashAt(cfg, toks, b)
  {
    hide HashAt;
    var path := BlockPrefix(toks, b);
    assert |path| / BLOCK_SIZE == b;
    HashOfPrefix(cfg, path, toks, b);
  }

  /** The path of the first `b` blocks of `toks`. */
  lemma PrefixPath(cfg: Config, toks: seq<Token>, b: nat)
    requires 0 < b * BLOCK_SIZE <= |toks|
    ensures var path := BlockPrefix(toks, b);
      Aligned(path) && PathHash(cfg, path) == HashAt(cfg, toks, b) && LastChunk(path) == Chunk(toks, b - 1)
  {
    hide HashAt, Chunk, PathHash, LastChunk;
    PrefixLastChunk(toks, b);
    PrefixHash(cfg, toks, b);
  }

  /** A live sequence holds, block by block, the contents of its prefixes. */
  lemma LiveBlockHolds(cfg: Config, net: Net, c: Cache, toks: seq<Token>, b: nat)
    requires Mapped(cfg, c) && Live(cfg, net, c, toks) && (b + 1) * BLOCK_SIZE <= |toks|
    ensures b < |c.blocks| && BlockHolds(cfg, net, c.pool, c.blocks[b], BlockPrefix(toks, b + 1))
  {
    var id, path := c.blocks[b], BlockPrefix(toks, b + 1);
    forall l, s | 0 <= l < cfg.numLayers && id * BLOCK_SIZE <= s < (id + 1) * BLOCK_SIZE
      ensures c.pool[l][s] == KvAt(net, path, l, |path| - BLOCK_SIZE + s - id * BLOCK_SIZE)
    {
      var p := b * BLOCK_SIZE + s - id * BLOCK_SIZE;
      assert HoldsUpTo(cfg, net, c, toks, l, |toks|);
      assert Slot(c.blocks, p) == s && CellAt(cfg, c, l, p) == KvAt(net, toks, l, p);
      assert path[..p + 1] == toks[..p + 1];
      Causal(net, path, toks, l, p);
    }
  }

  /** Registering a live prompt adds only sound entries. */
  lemma {:induction false} RegisterSound(cfg: Config, net: Net, paths: set<seq<Token>>, c: Cache, toks: seq<Token>,
                                         b: nat)
    requires Counted(cfg, c) && Mapped(cfg, c) && Live(cfg, net, c, toks) && Sound(cfg, net, paths, c)
    requires Covers(paths, toks) && b <= |toks| / BLOCK_SIZE
    ensures var r := RegisterFrom(cfg, c, toks, b);
      Mapped(cfg, r) && Live(cfg, net, r, toks) && Sound(cfg, net, paths, r)
    decreases |toks| / BLOCK_SIZE - b
  {
    hide RegisterOne, Balanced, Sound, HashAt;
    if b < |toks| / BLOCK_SIZE {
      var c' := RegisterOne(cfg, c, toks, b);
      RegisterOneSound(cfg, net, paths, c, toks, b);
      RegisterSound(cfg, net, paths, c', toks, b + 1);
    }
  }

  /** A pool and table that hold a sequence hold it whatever is registered. */
  lemma LiveElsewhere(cfg: Config, net: Net, c: Cache, r: Cache, toks: seq<Token>)
    requires Mapped(cfg, c) && Mapped(cfg, r) && Live(cfg, net, c, toks)
    requires r.blocks == c.blocks && r.len == c.len && r.pool == c.pool
    ensures Live(cfg, net, r, toks)
  {
    forall l | 0 <= l < cfg.numLayers
      ensures HoldsUpTo(cfg, net, r, toks, l, |toks|)
    {
      assert HoldsUpTo(cfg, net, c, toks, l, |toks|);
      assert forall p :: 0 <= p < |toks| ==> CellAt(cfg, r, l, p) == CellAt(cfg, c, l, p);
    }
  }

  lemma RegisterOneSound(cfg: Config, net: Net, paths: set<seq<Token>>, c: Cache, toks: seq<Token>, b: nat)
    requires Counted(cfg, c) && Mapped(cfg, c) && Live(cfg, net, c, toks) && Sound(cfg, net, paths, c)
    requires Covers(paths, toks) && (b + 1) * BLOCK_SIZE <= |toks| && b < |c.blocks|
    ensures var r := RegisterOne(cfg, c, toks, b);
      Mapped(cfg, r) && Live(cfg, net, r, toks) && Sound(cfg, net, paths, r)
  {
    var r := RegisterOne(cfg, c, toks, b);
    LiveElsewhere(cfg, net, c, r, toks);
    var path := BlockPrefix(toks, b + 1);
    PrefixPath(cfg, toks, b + 1);
    LiveBlockHolds(cfg, net, c, toks, b);
    assert path in paths;
    forall h | h in r.reg
      ensures EntrySound(cfg, net, paths, r.pool, h, r.reg[h])
    {
      if h in c.reg {
        assert EntrySound(cfg, net, paths, c.pool, h, c.reg[h]);
      } else {
        assert Names(cfg, h, r.reg[h], path) && BlockHolds(cfg, net, r.pool, r.reg[h].id, path);
      }
    }
  }

  // ------------------------------------------------------------------ match

  /** Absent collisions, an entry that could stand for a path in play does. */
  lemma EntryHolds(cfg: Config, net: Net, paths: set<seq<Token>>, pool: Pool, h: Hash, e: Entry, path: seq<Token>)
    requires Shaped(cfg, pool) && e.id < cfg.NumBlocks() && EntrySound(cfg, net, paths, pool, h, e)
    requires NoCollision(cfg, paths) && path in paths && Names(cfg, h, e, path)
    ensures BlockHolds(cfg, net, pool, e.id, path)
  {
    var known :| known in paths && Names(cfg, h, e, known) && BlockHolds(cfg, net, pool, e.id, known);
    assert known == path;
  }

  /** The entry a prompt's block hits could stand for the prompt's prefix up to that block. */
  lemma HitNames(cfg: Config, reg: Registry, toks: seq<Token>, b: nat)
    requires (b + 1) * BLOCK_SIZE <= |toks| && Lookup(cfg, reg, toks, b).Some?
    ensures var h := HashAt(cfg, toks, b + 1);
      h in reg && reg[h].id == Lookup(cfg, reg, toks, b).value && Names(cfg, h, reg[h], BlockPrefix(toks, b + 1))
  {
    PrefixPath(cfg, toks, b + 1);
  }

  /** So a registry hit for block `b` of a prompt holds that block's contents. */
  lemma HitHolds(cfg: Config, net: Net, paths: set<seq<Token>>, c: Cache, toks: seq<Token>, b: nat)
    requires Mapped(cfg, c) && Sound(cfg, net, paths, c) && NoCollision(cfg, paths) && Covers(paths, toks)
    requires (b + 1) * BLOCK_SIZE <= |toks| && Lookup(cfg, c.reg, toks, b).Some?
    ensures var id := Lookup(cfg, c.reg, toks, b).value;
      id < cfg.NumBlocks() && BlockHolds(cfg, net, c.pool, id, BlockPrefix(toks, b + 1))
  {
    HitNames(cfg, c.reg, toks, b);
    var h := HashAt(cfg, toks, b + 1);
    EntryHolds(cfg, net, paths, c.pool, h, c.reg[h], BlockPrefix(toks, b + 1));
  }

  /** One position of a matched prefix. */
  lemma MatchedCell(cfg: Config, net: Net, c: Cache, toks: seq<Token>, l: nat, p: nat)
    requires Mapped(cfg, c) && l < cfg.numLayers && p < c.len <= |toks| && c.len % BLOCK_SIZE == 0
    requires var b := p / BLOCK_SIZE; BlockHolds(cfg, net, c.pool, c.blocks[b], BlockPrefix(toks, b + 1))
    ensures CellAt(cfg, c, l, p) == KvAt(net, toks[..c.len], l, p)
  {
    var b := p / BLOCK_SIZE;
    var path, s := BlockPrefix(toks, b + 1), Slot(c.blocks, p);
    assert c.pool[l][s] == KvAt(net, path, l, |path| - BLOCK_SIZE + s - c.blocks[b] * BLOCK_SIZE);
    assert path[..p + 1] == toks[..c.len][..p + 1];
    Causal(net, path, toks[..c.len], l, p);
  }

  /** Table blocks that hold the prefixes of `toks` make it live. */
  lemma MatchedLive(cfg: Config, net: Net, c: Cache, toks: seq<Token>)
    requires Mapped(cfg, c) && c.len == |c.blocks| * BLOCK_SIZE <= |toks|
    requires forall b :: 0 <= b < |c.blocks| ==> BlockHolds(cfg, net, c.pool, c.blocks[b], BlockPrefix(toks, b + 1))
    ensures Live(cfg, net, c, toks[..c.len])
  {
    forall l | 0 <= l < cfg.numLayers
      ensures HoldsUpTo(cfg, net, c, toks[..c.len], l, c.len)
    {
      forall p | 0 <= p < c.len
        ensures CellAt(cfg, c, l, p) == KvAt(net, toks[..c.len], l, p)
      {
        MatchedCell(cfg, net, c, toks, l, p);
      }
    }
  }

  /** A matched prefix is live. */
  lemma MatchExact(cfg: Config, net: Net, paths: set<seq<Token>>, c: Cache, toks: seq<Token>)
    requires Counted(cfg, c) && Mapped(cfg, c) && c.blocks == [] && c.len == 0
    requires Sound(cfg, net, paths, c) && NoCollision(cfg, paths) && Covers(paths, toks)
    ensures var r := Match(cfg, c, toks);
      Mapped(cfg, r) && Live(cfg, net, r, toks[..r.len]) && Sound(cfg, net, paths, r)
  {
    var r := Match(cfg, c, toks);
    forall b | 0 <= b < |r.blocks|
      ensures r.blocks[b] < cfg.NumBlocks()
      ensures BlockHolds(cfg, net, c.pool, r.blocks[b], BlockPrefix(toks, b + 1))
    {
      HitHolds(cfg, net, paths, c, toks, b);
    }
    MatchedLive(cfg, net, r, toks);
    SamePoolSound(cfg, net, paths, c, r);
  }

  /** Whatever state a session starts from, what it matches locally is live. */
  lemma TakeLocalExact(cfg: Config, net: Net, paths: set<seq<Token>>, c: Cache, toks: seq<Token>)
    requires Inv(cfg, c) && Mapped(cfg, c)
    requires Sound(cfg, net, paths, c) && NoCollision(cfg, paths) && Covers(paths, toks)
    ensures var r := TakeLocal(cfg, c, toks);
      Mapped(cfg, r) && r.len <= |toks| && Live(cfg, net, r, toks[..r.len]) && Sound(cfg, net, paths, r)
  {
    var empty := Reset(cfg, c);
    InvMapped(cfg, empty);
    assert forall h :: h in c.reg ==> SameBlock(cfg, c.reg[h].id, c.pool, empty.pool);
    SamePoolSound(cfg, net, paths, c, empty);
    MatchExact(cfg, net, paths, empty, toks);
  }
}
