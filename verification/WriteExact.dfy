/**
 The write loop as written against whole forward calls: the exact condition under which a call leaves
 what it should, whatever the network.
 */
module WriteExact {
  import opened Network
  import opened PoolWrite
  import opened CacheState
  import opened Session
  import opened Contents
  import opened Transparency
  import opened CrossNode
  import Publish

  /** A forward call leaves the layers it has done alone. */
  lemma {:induction false} LayersDoneStay(cfg: Config, net: Net, rule: Rule, c: Cache, xs: seq<Act>, indexPos: nat,
                                          l: nat, m: nat)
    requires Mapped(cfg, c) && l <= cfg.numLayers && |xs| <= c.len <= cfg.maxSeqLen && m < l
    ensures LayersFrom(cfg, net, rule, c, xs, indexPos, l).0.pool[m] == c.pool[m]
    decreases cfg.numLayers - l
  {
    hide WriteCurrent, Attended, LiveCells;
    if l < cfg.numLayers {
      var c' := WriteCurrent(cfg, rule, c, l, Projected(net, l, indexPos, xs));
      LayersDoneStay(cfg, net, rule, c', Attended(net, l, indexPos, xs, LiveCells(cfg, c', l)), indexPos, l + 1, m);
    }
  }

  /** What the layer loop leaves in the first layer is what the first write put there. */
  lemma FirstLayer(cfg: Config, net: Net, rule: Rule, c: Cache, xs: seq<Act>, indexPos: nat)
    requires Mapped(cfg, c) && cfg.numLayers > 0 && |xs| <= c.len <= cfg.maxSeqLen
    ensures LayersFrom(cfg, net, rule, c, xs, indexPos, 0).0.pool[0] ==
      WriteCurrent(cfg, rule, c, 0, Projected(net, 0, indexPos, xs)).pool[0]
  {
    hide WriteCurrent, LiveCells, Attended;
    var c' := WriteCurrent(cfg, rule, c, 0, Projected(net, 0, indexPos, xs));
    LayersDoneStay(cfg, net, rule, c', Attended(net, 0, indexPos, xs, LiveCells(cfg, c', 0)), indexPos, 1, 0);
  }

  // ------------------------------------------------------------------ a network that tells the difference

  /** A network that computes what the cache holds for its live positions, `a` for position `at`, and `b` elsewhere. */
  ghost function Telltale(cfg: Config, c: Cache, at: nat, a: Cell, b: Cell): Net
    requires Mapped(cfg, c)
  {
    Net(_ => [],
        (l: nat, p: nat, _: Act) => if l < cfg.numLayers &&
          p < c.len then CellAt(cfg, c, l, p) else if p == at then a else b,
        (_, _, _, _) => [],
        x => x)
  }

  lemma TelltaleFits(cfg: Config, c: Cache, at: nat, a: Cell, b: Cell, past: seq<Token>)
    requires Mapped(cfg, c) && PoolOk(cfg, c.pool) && CellOk(cfg, a) && CellOk(cfg, b) && |past| == c.len
    ensures NetOk(cfg, Telltale(cfg, c, at, a, b)) && Live(cfg, Telltale(cfg, c, at, a, b), c, past)
  {
    hide CellOk;
    forall l: nat, p: nat | l < cfg.numLayers && p < c.len
      ensures CellOk(cfg, CellAt(cfg, c, l, p))
    {
      SlotInPool(cfg, c, p);
      assert CellsOk(cfg, c.pool[l]);
    }
  }

  /** A token whose run goes astray is not where attention will read it. */
  lemma StrayPosition(cfg: Config, net: Net, c: Cache, xs: seq<Act>, start: nat, i: nat, j: nat)
    requires Mapped(cfg, c) && cfg.numLayers > 0 && start + |xs| == c.len <= cfg.maxSeqLen && Exclusive(c, start)
    requires i < j < |xs| && Slot(c.blocks, start + i) == i && Slot(c.blocks, start + j) != j
    requires var cells := Projected(net, 0, start, xs);
      && CellAt(cfg, c, 0, start + j) != cells[j]
      && forall m :: 0 <= m < |xs| && m != j ==> cells[m] != cells[j]
    ensures CellAt(cfg, LayersFrom(cfg, net, AsWritten, c, xs, start, 0).0, 0, start + j) != Projected(net, 0, start,
      xs)[j]
  {
    hide LayersFrom, WriteFrom, Exclusive, Projected;
    var cells, slots := Projected(net, 0, start, xs), Slots(c.blocks, start, c.len);
    BatchFits(cfg, c, |xs|);
    BatchSlotsDistinct(c, start);
    StrayTokenIsLost(c.pool[0], slots, cells, i, j);
    FirstLayer(cfg, net, AsWritten, c, xs, start);
  }

  // ------------------------------------------------------------------ the exact condition

  /** The call leaves past and new tokens live. */
  ghost predicate LeavesLive(cfg: Config, net: Net, c: Cache, past: seq<Token>, ids: seq<Token>)
    requires Inv(cfg, c)
  {
    var r := Forward(cfg, net, AsWritten, c, ids, c.len);
    r.Done? && Mapped(cfg, r.c) && Live(cfg, net, r.c, past + ids)
  }

  /** Every network of the cache's shape that finds its past live finds past and new tokens live afterwards. */
  ghost predicate AlwaysLive(cfg: Config, c: Cache, past: seq<Token>, ids: seq<Token>)
    requires Inv(cfg, c) && Mapped(cfg, c)
  {
    forall net | NetOk(cfg, net) && Live(cfg, net, c, past) :: LeavesLive(cfg, net, c, past, ids)
  }

  lemma ElementlessLive(cfg: Config, net: Net, c: Cache, toks: seq<Token>)
    requires Elementless(cfg) && NetOk(cfg, net) && Mapped(cfg, c) && PoolOk(cfg, c.pool) && c.len == |toks|
    ensures Live(cfg, net, c, toks)
  {
    hide CellOk;
    forall l, p | 0 <= l < cfg.numLayers && 0 <= p < |toks|
      ensures CellAt(cfg, c, l, p) == KvAt(net, toks, l, p)
    {
      SlotInPool(cfg, c, p);
      assert CellsOk(cfg, c.pool[l]);
      ElementlessIsOne(cfg, CellAt(cfg, c, l, p), KvAt(net, toks, l, p));
    }
  }

  lemma RightIsLive(cfg: Config, net: Net, c: Cache, past: seq<Token>, ids: seq<Token>)
    requires Inv(cfg, c) && Mapped(cfg, c) && PoolOk(cfg, c.pool) && NetOk(cfg, net) && Live(cfg, net, c, past)
    requires AllocateKv(cfg, c, |ids|).Done? && (Elementless(cfg) || Coalescible(BatchSlots(cfg, c, |ids|)))
    ensures LeavesLive(cfg, net, c, past, ids)
  {
    hide Inv, AllocateKv, LayersFrom, PoolOk, NetOk, BatchSlots;
    var r := Forward(cfg, net, AsWritten, c, ids, c.len);
    if Coalescible(BatchSlots(cfg, c, |ids|)) {
      ForwardExact(cfg, net, AsWritten, c, past, ids);
    } else {
      InvMapped(cfg, r.c);
      Publish.ForwardOk(cfg, net, AsWritten, c, ids, c.len);
      ElementlessLive(cfg, net, r.c, past + ids);
    }
  }

  /** Some network finds its past live, and a token of the batch not where it belongs. */
  lemma AstrayCell(cfg: Config, c: Cache, grown: Cache, past: seq<Token>, ids: seq<Token>, i: nat,
                   j: nat) returns (net: Net)
    requires Mapped(cfg, c) && PoolOk(cfg, c.pool) && |past| == c.len && cfg.numLayers > 0 && !Elementless(cfg)
    requires Mapped(cfg, grown) && grown.pool == c.pool && grown.len == c.len + |ids| <= cfg.maxSeqLen &&
      Exclusive(grown, c.len)
    requires i < j < |ids| && Slot(grown.blocks, c.len + i) == i && Slot(grown.blocks, c.len + j) != j
    ensures NetOk(cfg, net) && Live(cfg, net, c, past)
    ensures CellAt(cfg, LayersFrom(cfg, net, AsWritten, grown, Embedded(net, ids), c.len, 0).0, 0, c.len + j) !=
      KvAt(net, past + ids, 0, c.len + j)
  {
    hide LayersFrom, PoolOk, CellsOk, NetOk, Live, Exclusive, CellAt;
    var was := CellAt(cfg, grown, 0, c.len + j);
    var a := Unlike(cfg, was.k);
    var b := Unlike(cfg, a.k);
    UnlikeDiffers(cfg, was.k);
    UnlikeDiffers(cfg, a.k);
    net := Telltale(cfg, c, c.len + j, a, b);
    TelltaleFits(cfg, c, c.len + j, a, b, past);
    StrayPosition(cfg, net, grown, Embedded(net, ids), c.len, i, j);
  }

  lemma AstrayIsNotLive(cfg: Config, c: Cache, past: seq<Token>, ids: seq<Token>) returns (net: Net)
    requires Inv(cfg, c) && Mapped(cfg, c) && PoolOk(cfg, c.pool) && |past| == c.len && cfg.numLayers > 0 &&
      !Elementless(cfg)
    requires AllocateKv(cfg, c, |ids|).Done? && !Coalescible(BatchSlots(cfg, c, |ids|))
    ensures NetOk(cfg, net) && Live(cfg, net, c, past) && !LeavesLive(cfg, net, c, past, ids)
  {
    hide Inv, AllocateKv, LayersFrom, PoolOk, NetOk, Live, Exclusive, Mapped, CellAt, KvAt, Elementless, Slot;
    var grown := AllocateKv(cfg, c, |ids|).c;
    AllocatedIsExclusive(cfg, c, |ids|);
    var slots := BatchSlots(cfg, c, |ids|);
    var i, j :| 0 <= i < j < |slots| && slots[i] == i && slots[j] != j;
    net := AstrayCell(cfg, c, grown, past, ids, i, j);
    if LeavesLive(cfg, net, c, past, ids) {
      NotTold(cfg, net, Forward(cfg, net, AsWritten, c, ids, c.len).c, past + ids, c.len + j);
    }
  }

  lemma NotTold(cfg: Config, net: Net, c: Cache, toks: seq<Token>, p: nat)
    requires Mapped(cfg, c) && cfg.numLayers > 0 && Live(cfg, net, c, toks) && p < |toks|
    ensures CellAt(cfg, c, 0, p) == KvAt(net, toks, 0, p)
  {
    assert HoldsUpTo(cfg, net, c, toks, 0, |toks|);
  }

  /**
   Transparency of the loop as written, exactly. When its allocation goes through, a forward call leaves past
   and new tokens live for every network if and only if no run of its batch goes astray, unless cells have no
   elements at all.
   */
  lemma AsWrittenLiveExactly(cfg: Config, c: Cache, past: seq<Token>, ids: seq<Token>)
    requires Inv(cfg, c) && Mapped(cfg, c) && PoolOk(cfg, c.pool) && |past| == c.len && cfg.numLayers > 0
    requires AllocateKv(cfg, c, |ids|).Done?
    ensures AlwaysLive(cfg, c, past, ids) <==> Elementless(cfg) || Coalescible(BatchSlots(cfg, c, |ids|))
  {
    hide Inv, AllocateKv, PoolOk, NetOk, Live, LeavesLive, BatchSlots, Mapped;
    if Elementless(cfg) || Coalescible(BatchSlots(cfg, c, |ids|)) {
      forall net | NetOk(cfg, net) && Live(cfg, net, c, past)
        ensures LeavesLive(cfg, net, c, past, ids)
      {
        RightIsLive(cfg, net, c, past, ids);
      }
    } else {
      var net := AstrayIsNotLive(cfg, c, past, ids);
    }
  }
}
