/**
 What the pool holds. The live sequence holds the keys and values of a cold run over its tokens,
 and every registered block those of the token path it was registered under; every operation of a
 session keeps both, so a run over the cache computes what a cold run computes.
 */
module Contents {
  import opened Network
  import opened PoolWrite
  import opened Allocator
  import opened CacheState
  import opened Session

  // ------------------------------------------------------------------ predicates

  /** Layer `l` holds the cold run's keys and values for the first `n` positions of `toks`. */
  ghost predicate HoldsUpTo(cfg: Config, net: Net, c: Cache, toks: seq<Token>, l: nat, n: nat)
    requires Mapped(cfg, c) && l < cfg.numLayers && n <= |toks| && n <= |c.blocks| * BLOCK_SIZE
  {
    forall p :: 0 <= p < n ==> CellAt(cfg, c, l, p) == KvAt(net, toks, l, p)
  }

  /** The live sequence is `toks`, and every layer holds exactly its keys and values. */
  ghost predicate Live(cfg: Config, net: Net, c: Cache, toks: seq<Token>)
    requires Mapped(cfg, c)
  {
    && c.len == |toks|
    && forall l :: 0 <= l < cfg.numLayers ==> HoldsUpTo(cfg, net, c, toks, l, |toks|)
  }

  /** A block-aligned, nonempty token path. */
  predicate Aligned(path: seq<Token>) {
    |path| > 0 && |path| % BLOCK_SIZE == 0
  }

  function LastChunk(path: seq<Token>): seq<Token>
    requires Aligned(path)
  {
    path[|path| - BLOCK_SIZE..]
  }

  function PathHash(cfg: Config, path: seq<Token>): Hash {
    HashAt(cfg, path, |path| / BLOCK_SIZE)
  }

  /** Block `id` holds the keys and values of the last chunk of `path`, in every layer. */
  ghost predicate BlockHolds(cfg: Config, net: Net, pool: Pool, id: nat, path: seq<Token>)
    requires Shaped(cfg, pool) && id < cfg.NumBlocks() && Aligned(path)
  {
    forall l, s :: 0 <= l < cfg.numLayers && id * BLOCK_SIZE <= s < (id + 1) * BLOCK_SIZE ==>
      pool[l][s] == KvAt(net, path, l, |path| - BLOCK_SIZE + s - id * BLOCK_SIZE)
  }

  /** `path` is what the entry under `h` stands for. */
  predicate Names(cfg: Config, h: Hash, e: Entry, path: seq<Token>) {
    Aligned(path) && PathHash(cfg, path) == h && LastChunk(path) == e.tokens
  }

  /** The entry's block holds the contents of a path in play that the entry stands for. */
  ghost predicate EntrySound(cfg: Config, net: Net, paths: set<seq<Token>>, pool: Pool, h: Hash, e: Entry)
    requires Shaped(cfg, pool) && e.id < cfg.NumBlocks()
  {
    exists path :: path in paths && Names(cfg, h, e, path) && BlockHolds(cfg, net, pool, e.id, path)
  }

  /** Every registered block holds what it was registered for. */
  ghost predicate Sound(cfg: Config, net: Net, paths: set<seq<Token>>, c: Cache)
    requires Mapped(cfg, c)
  {
    forall h :: h in c.reg ==> EntrySound(cfg, net, paths, c.pool, h, c.reg[h])
  }

  /** No two paths in play agree on the chained hash and the last chunk. */
  ghost predicate NoCollision(cfg: Config, paths: set<seq<Token>>) {
    forall p, q | p in paths && q in paths && Aligned(p) && Aligned(q) ::
      PathHash(cfg, p) == PathHash(cfg, q) && LastChunk(p) == LastChunk(q) ==> p == q
  }

  /** The path of the first `b` blocks of `toks`. */
  function BlockPrefix(toks: seq<Token>, b: nat): (path: seq<Token>)
    requires 0 < b * BLOCK_SIZE <= |toks|
    ensures Aligned(path) && |path| == b * BLOCK_SIZE
  {
    toks[..b * BLOCK_SIZE]
  }

  /** The block-aligned prefixes of `toks` are in play. */
  ghost predicate Covers(paths: set<seq<Token>>, toks: seq<Token>) {
    forall b :: 0 < b <= |toks| / BLOCK_SIZE ==> BlockPrefix(toks, b) in paths
  }

  // ------------------------------------------------------------------ one write

  /** The blocks that hold positions from `start` on are in the table once and registered nowhere. */
  ghost predicate Exclusive(c: Cache, start: nat) {
    forall b :: start / BLOCK_SIZE <= b < |c.blocks| ==>
      && (forall d :: 0 <= d < |c.blocks| && d != b ==> c.blocks[d] != c.blocks[b])
      && (forall h :: h in c.reg ==> c.reg[h].id != c.blocks[b])
  }

  lemma OwnedIsExclusive(cfg: Config, c: Cache, start: nat)
    requires Counted(cfg, c) && OwnedFrom(c, start)
    ensures Exclusive(c, start)
  {
    forall b | start / BLOCK_SIZE <= b < |c.blocks|
      ensures forall d :: 0 <= d < |c.blocks| && d != b ==> c.blocks[d] != c.blocks[b]
      ensures forall h :: h in c.reg ==> c.reg[h].id != c.blocks[b]
    {
      SoleOwner(cfg, c, b);
    }
  }

  /** A slot of an exclusive block backs no other position. */
  lemma SlotsApart(c: Cache, start: nat, p: nat, q: nat)
    requires Exclusive(c, start)
    requires start <= p < |c.blocks| * BLOCK_SIZE && q < |c.blocks| * BLOCK_SIZE && p != q
    ensures Slot(c.blocks, p) != Slot(c.blocks, q)
  {
    if p / BLOCK_SIZE != q / BLOCK_SIZE {
      assert c.blocks[q / BLOCK_SIZE] != c.blocks[p / BLOCK_SIZE];
    }
  }

  /** The slots of a block are the same in both pools. */
  ghost predicate SameBlock(cfg: Config, id: nat, pool: Pool, pool': Pool)
    requires id < cfg.NumBlocks() && Shaped(cfg, pool) && Shaped(cfg, pool')
  {
    forall l, s :: 0 <= l < cfg.numLayers && id * BLOCK_SIZE <= s < (id + 1) * BLOCK_SIZE ==> pool'[l][s] == pool[l][s]
  }

  /** The registered blocks are the same in the pool of `c` and in `pool`. */
  ghost predicate RegisteredSame(cfg: Config, c: Cache, pool: Pool)
    requires Mapped(cfg, c) && Shaped(cfg, pool)
  {
    forall h :: h in c.reg ==> SameBlock(cfg, c.reg[h].id, c.pool, pool)
  }

  lemma BatchSlotsDistinct(c: Cache, start: nat)
    requires start <= c.len <= |c.blocks| * BLOCK_SIZE && Exclusive(c, start)
    ensures var slots := Slots(c.blocks, start, c.len);
      forall i, j :: 0 <= i < j < |slots| ==> slots[i] != slots[j]
  {
    var slots := Slots(c.blocks, start, c.len);
    forall i, j | 0 <= i < j < |slots|
      ensures slots[i] != slots[j]
    {
      SlotsApart(c, start, start + i, start + j);
    }
  }

  lemma BatchSparesPast(c: Cache, start: nat, p: nat)
    requires p < start <= c.len <= |c.blocks| * BLOCK_SIZE && Exclusive(c, start)
    ensures Slot(c.blocks, p) !in Slots(c.blocks, start, c.len)
  {
    var slots := Slots(c.blocks, start, c.len);
    forall i | 0 <= i < |slots|
      ensures slots[i] != Slot(c.blocks, p)
    {
      SlotsApart(c, start, start + i, p);
    }
  }

  lemma BatchSparesRegistered(c: Cache, start: nat, h: Hash, s: nat)
    requires start <= c.len <= |c.blocks| * BLOCK_SIZE && Exclusive(c, start)
    requires h in c.reg && c.reg[h].id * BLOCK_SIZE <= s < (c.reg[h].id + 1) * BLOCK_SIZE
    ensures s !in Slots(c.blocks, start, c.len)
  {
    var slots := Slots(c.blocks, start, c.len);
    forall i | 0 <= i < |slots|
      ensures slots[i] != s
    {
      assert c.reg[h].id != c.blocks[(start + i) / BLOCK_SIZE];
    }
  }

  /** What a batch write does to the written layer, slot by slot. */
  lemma WriteCurrentAt(cfg: Config, rule: Rule, c: Cache, l: nat, cells: seq<Cell>)
    requires Mapped(cfg, c) && l < cfg.numLayers && |cells| <= c.len <= cfg.maxSeqLen
    requires Exclusive(c, c.len - |cells|) && WritesRight(rule, Slots(c.blocks, c.len - |cells|, c.len))
    ensures var slots, row := Slots(c.blocks, c.len - |cells|, c.len), WriteCurrent(cfg, rule, c, l, cells).pool[l];
      && (forall i :: 0 <= i < |slots| ==> slots[i] < |row| && row[slots[i]] == cells[i])
      && (forall s :: 0 <= s < |row| && s !in slots ==> row[s] == c.pool[l][s])
  {
    hide WritesRight, Exclusive, WriteFrom;
    BatchFits(cfg, c, |cells|);
    BatchSlotsDistinct(c, c.len - |cells|);
    WriteAt(rule, c.pool[l], Slots(c.blocks, c.len - |cells|, c.len), cells);
  }

  lemma CellWritten(cfg: Config, rule: Rule, c: Cache, l: nat, cells: seq<Cell>, p: nat)
    requires Mapped(cfg, c) && l < cfg.numLayers && |cells| <= c.len <= cfg.maxSeqLen
    requires Exclusive(c, c.len - |cells|) && WritesRight(rule, Slots(c.blocks, c.len - |cells|, c.len))
    requires c.len - |cells| <= p < c.len
    ensures CellAt(cfg, WriteCurrent(cfg, rule, c, l, cells), l, p) == cells[p - (c.len - |cells|)]
  {
    WriteCurrentAt(cfg, rule, c, l, cells);
    var i := p - (c.len - |cells|);
    assert Slots(c.blocks, c.len - |cells|, c.len)[i] == Slot(c.blocks, p);
  }

  /** A batch write lands in its own positions and nowhere else that matters. */
  lemma WriteLands(cfg: Config, rule: Rule, c: Cache, l: nat, cells: seq<Cell>)
    requires Mapped(cfg, c) && l < cfg.numLayers && |cells| <= c.len <= cfg.maxSeqLen
    requires Exclusive(c, c.len - |cells|) && WritesRight(rule, Slots(c.blocks, c.len - |cells|, c.len))
    ensures var start, r := c.len - |cells|, WriteCurrent(cfg, rule, c, l, cells);
      && (forall p :: start <= p < c.len ==> CellAt(cfg, r, l, p) == cells[p - start])
      && (forall p :: 0 <= p < start ==> CellAt(cfg, r, l, p) == CellAt(cfg, c, l, p))
      && RegisteredSame(cfg, c, r.pool)
  {
    hide WriteCurrent, Slots, Exclusive, WritesRight, RegisteredSame;
    var start := c.len - |cells|;
    var slots, r := Slots(c.blocks, start, c.len), WriteCurrent(cfg, rule, c, l, cells);
    WriteCurrentAt(cfg, rule, c, l, cells);
    forall p | start <= p < c.len
      ensures CellAt(cfg, r, l, p) == cells[p - start]
    {
      CellWritten(cfg, rule, c, l, cells, p);
    }
    forall p | 0 <= p < start
      ensures CellAt(cfg, r, l, p) == CellAt(cfg, c, l, p)
    {
      SlotInPool(cfg, c, p);
      BatchSparesPast(c, start, p);
    }
    WriteSparesRegistered(cfg, c, start, l, r.pool);
  }

  lemma WriteSparesRegistered(cfg: Config, c: Cache, start: nat, l: nat, pool: Pool)
    requires Mapped(cfg, c) && Shaped(cfg, pool) && l < cfg.numLayers && start <= c.len && Exclusive(c, start)
    requires forall m :: 0 <= m < cfg.numLayers && m != l ==> pool[m] == c.pool[m]
    requires forall s :: 0 <= s < cfg.NumSlots() && s !in Slots(c.blocks, start, c.len) ==> pool[l][s] == c.pool[l][s]
    ensures RegisteredSame(cfg, c, pool)
  {
    forall h | h in c.reg
      ensures SameBlock(cfg, c.reg[h].id, c.pool, pool)
    {
      forall m, s | 0 <= m < cfg.numLayers && c.reg[h].id * BLOCK_SIZE <= s < (c.reg[h].id + 1) * BLOCK_SIZE
        ensures pool[m][s] == c.pool[m][s]
      {
        assert s < cfg.NumSlots();
        BatchSparesRegistered(c, start, h, s);
      }
    }
  }

  // ------------------------------------------------------------------ forward

  /** Layers below `l` are done for all of `toks`; the others for the first `start` positions. */
  ghost predicate LayersDone(cfg: Config, net: Net, c: Cache, toks: seq<Token>, start: nat, l: nat)
    requires Mapped(cfg, c) && start <= c.len == |toks|
  {
    && (forall m :: 0 <= m < l && m < cfg.numLayers ==> HoldsUpTo(cfg, net, c, toks, m, |toks|))
    && (forall m :: l <= m < cfg.numLayers ==> HoldsUpTo(cfg, net, c, toks, m, start))
  }

  /** `xs` are the inputs of layer `l` at the positions from `start` on. */
  ghost predicate InputsOf(net: Net, toks: seq<Token>, xs: seq<Act>, start: nat, l: nat) {
    start + |xs| == |toks| && forall i :: 0 <= i < |xs| ==> xs[i] == ActAt(net, toks, l, start + i)
  }

  lemma AttendedExact(net: Net, toks: seq<Token>, xs: seq<Act>, start: nat, l: nat, live: seq<Cell>)
    requires InputsOf(net, toks, xs, start, l) && |live| == |toks|
    requires forall p :: 0 <= p < |toks| ==> live[p] == KvAt(net, toks, l, p)
    ensures InputsOf(net, toks, Attended(net, l, start, xs, live), start, l + 1)
  {
    var ys := Attended(net, l, start, xs, live);
    forall i | 0 <= i < |ys|
      ensures ys[i] == ActAt(net, toks, l + 1, start + i)
    {
      assert live[..start + i + 1] == KvUpTo(net, toks, l, start + i + 1);
    }
  }

  /** One layer of a forward pass over the cache is one layer of a cold run. */
  lemma LayerExact(cfg: Config, net: Net, rule: Rule, c: Cache, toks: seq<Token>, xs: seq<Act>, start: nat, l: nat)
    requires Mapped(cfg, c) && l < cfg.numLayers && start + |xs| == c.len == |toks| <= cfg.maxSeqLen
    requires Exclusive(c, start) && WritesRight(rule, Slots(c.blocks, start, c.len))
    requires LayersDone(cfg, net, c, toks, start, l) && InputsOf(net, toks, xs, start, l)
    ensures var r := WriteCurrent(cfg, rule, c, l, Projected(net, l, start, xs));
      && LayersDone(cfg, net, r, toks, start, l + 1)
      && InputsOf(net, toks, Attended(net, l, start, xs, LiveCells(cfg, r, l)), start, l + 1)
      && RegisteredSame(cfg, c, r.pool)
  {
    hide WriteCurrent, Slots, Exclusive, WritesRight;
    var cells := Projected(net, l, start, xs);
    var r := WriteCurrent(cfg, rule, c, l, cells);
    WriteLands(cfg, rule, c, l, cells);
    assert HoldsUpTo(cfg, net, c, toks, l, start);
    forall p | 0 <= p < |toks|
      ensures CellAt(cfg, r, l, p) == KvAt(net, toks, l, p)
    {
      if p < start {
        assert CellAt(cfg, c, l, p) == KvAt(net, toks, l, p);
      } else {
        assert cells[p - start] == net.project(l, p, xs[p - start]);
      }
    }
    forall m | 0 <= m < cfg.numLayers && m != l
      ensures HoldsUpTo(cfg, net, r, toks, m, start)
      ensures m < l ==> HoldsUpTo(cfg, net, r, toks, m, |toks|)
    {
      assert forall p :: 0 <= p < c.len ==> CellAt(cfg, r, m, p) == CellAt(cfg, c, m, p);
      assert m < l ==> HoldsUpTo(cfg, net, c, toks, m, |toks|);
      assert m >= l ==> HoldsUpTo(cfg, net, c, toks, m, start);
    }
    AttendedExact(net, toks, xs, start, l, LiveCells(cfg, r, l));
  }

  lemma {:induction false} LayersExact(cfg: Config, net: Net, rule: Rule, c: Cache, toks: seq<Token>, xs: seq<Act>,
                                       start: nat, l: nat)
    requires Mapped(cfg, c) && l <= cfg.numLayers && start + |xs| == c.len == |toks| <= cfg.maxSeqLen
    requires Exclusive(c, start) && WritesRight(rule, Slots(c.blocks, start, c.len))
    requires LayersDone(cfg, net, c, toks, start, l) && InputsOf(net, toks, xs, start, l)
    ensures var (r, ys) := LayersFrom(cfg, net, rule, c, xs, start, l);
      && Live(cfg, net, r, toks)
      && InputsOf(net, toks, ys, start, cfg.numLayers)
      && RegisteredSame(cfg, c, r.pool)
    decreases cfg.numLayers - l
  {
    if l < cfg.numLayers {
      LayerExact(cfg, net, rule, c, toks, xs, start, l);
      var c' := WriteCurrent(cfg, rule, c, l, Projected(net, l, start, xs));
      var ys := Attended(net, l, start, xs, LiveCells(cfg, c', l));
      LayersExact(cfg, net, rule, c', toks, ys, start, l + 1);
    }
  }

  lemma SpareTwice(cfg: Config, c: Cache, c': Cache, pool: Pool)
    requires Mapped(cfg, c) && Mapped(cfg, c') && Shaped(cfg, pool) && c'.reg == c.reg
    requires RegisteredSame(cfg, c, c'.pool) && RegisteredSame(cfg, c', pool)
    ensures RegisteredSame(cfg, c, pool)
  {
    forall h | h in c.reg
      ensures SameBlock(cfg, c.reg[h].id, c.pool, pool)
    {
      assert SameBlock(cfg, c.reg[h].id, c.pool, c'.pool) && SameBlock(cfg, c'.reg[h].id, c'.pool, pool);
    }
  }

  /** The layer loop leaves registered blocks alone, whatever the live sequence holds. */
  lemma {:induction false} LayersSpare(cfg: Config, net: Net, rule: Rule, c: Cache, xs: seq<Act>, indexPos: nat, l: nat)
    requires Mapped(cfg, c) && l <= cfg.numLayers && |xs| <= c.len <= cfg.maxSeqLen
    requires Exclusive(c, c.len - |xs|) && WritesRight(rule, Slots(c.blocks, c.len - |xs|, c.len))
    ensures RegisteredSame(cfg, c, LayersFrom(cfg, net, rule, c, xs, indexPos, l).0.pool)
    decreases cfg.numLayers - l
  {
    hide WriteCurrent, LiveCells, Attended, Slots, WritesRight;
    if l < cfg.numLayers {
      var cells := Projected(net, l, indexPos, xs);
      WriteLands(cfg, rule, c, l, cells);
      var c' := WriteCurrent(cfg, rule, c, l, cells);
      var ys := Attended(net, l, indexPos, xs, LiveCells(cfg, c', l));
      LayersSpare(cfg, net, rule, c', ys, indexPos, l + 1);
      SpareTwice(cfg, c, c', LayersFrom(cfg, net, rule, c', ys, indexPos, l + 1).0.pool);
    }
  }
}
