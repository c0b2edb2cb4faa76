/**
 A layer's attention over the paged cache (src/models/common/attention.rs): the views `gather_blocks`
 hands out are what the streaming kernel asks for, and the kernel over them is the layer's attention over
 the live keys and values.
 */
module PagedLayer {
  import opened Attention
  import opened CacheState
  import opened CrossNode
  import opened Network
  import opened PagedCache
  import opened PoolWrite
  import Publish
  import Session

  /**
   How a layer uses attention: the number every element stands for, the head count ratio and scale of
   `paged_attention`, the queries of a position, and the rest of the layer over the attention output.
   */
  datatype Heads = Heads(exp: real -> real, value: Word -> real, nRep: nat, scale: real,
                         query: (nat, nat, Act) -> seq<Vec>, rest: (nat, nat, Act, seq<Vec>) -> Act)

  ghost predicate HeadsOk(cfg: Config, hs: Heads) {
    && ExpLaws(hs.exp)
    && forall l, p, x :: |hs.query(l, p, x)| == cfg.kvHeads * hs.nRep && Rows(hs.query(l, p, x), cfg.headDim)
  }

  // ------------------------------------------------------------------ cells as operands

  function PartRow(cell: Cell, part: Part): Row {
    if part.K? then cell.k else cell.v
  }

  /** The keys or values of head `g`, one vector a position. */
  function HeadRows(cfg: Config, hs: Heads, cells: seq<Cell>, part: Part, g: nat): (rows: seq<Vec>)
    requires CellsOk(cfg, cells) && g < cfg.kvHeads
    ensures |rows| == |cells| && Rows(rows, cfg.headDim)
  {
    seq(|cells|, s requires 0 <= s < |cells| =>
      assert CellOk(cfg, cells[s]);
      seq(cfg.headDim, d requires 0 <= d < cfg.headDim => hs.value(PartRow(cells[s], part)[g][d])))
  }

  /** One block view, shaped `(kv_heads, block_n, head_dim)` for keys and for values. */
  function Operand(cfg: Config, hs: Heads, view: seq<Cell>): KvBlock
    requires CellsOk(cfg, view)
  {
    KvBlock(|view|,
            seq(cfg.kvHeads, g requires 0 <= g < cfg.kvHeads => HeadRows(cfg, hs, view, K, g)),
            seq(cfg.kvHeads, g requires 0 <= g < cfg.kvHeads => HeadRows(cfg, hs, view, V, g)))
  }

  function Operands(cfg: Config, hs: Heads, views: seq<seq<Cell>>): (blocks: seq<KvBlock>)
    requires forall b :: 0 <= b < |views| ==> CellsOk(cfg, views[b])
    ensures |blocks| == |views|
  {
    seq(|views|, b requires 0 <= b < |views| => Operand(cfg, hs, views[b]))
  }

  lemma {:induction false} ViewsOk(cfg: Config, views: seq<seq<Cell>>)
    requires CellsOk(cfg, Concat(views))
    ensures forall b :: 0 <= b < |views| ==> CellsOk(cfg, views[b])
  {
    hide CellsOk;
    if views != [] {
      var init, last := views[..|views| - 1], views[|views| - 1];
      ConcatOk(cfg, Concat(init), last);
      ViewsOk(cfg, init);
      assert forall b :: 0 <= b < |init| ==> views[b] == init[b];
    }
  }

  lemma HeadRowsAppend(cfg: Config, hs: Heads, a: seq<Cell>, b: seq<Cell>, part: Part, g: nat)
    requires CellsOk(cfg, a) && CellsOk(cfg, b) && g < cfg.kvHeads
    ensures CellsOk(cfg, a + b)
    ensures HeadRows(cfg, hs, a + b, part, g) == HeadRows(cfg, hs, a, part, g) + HeadRows(cfg, hs, b, part, g)
  {
  }

  lemma OperandOk(cfg: Config, hs: Heads, view: seq<Cell>)
    requires CellsOk(cfg, view) && view != []
    ensures var b := Operand(cfg, hs, view);
      && BlockOk(b, cfg.kvHeads, cfg.headDim) && b.n == |view|
      && forall part: Part, g: nat :: g < cfg.kvHeads ==> PartOf(b, part)[g] == HeadRows(cfg, hs, view, part, g)
  {
    hide HeadRows, CellsOk;
  }

  lemma OperandsSplit(cfg: Config, hs: Heads, views: seq<seq<Cell>>)
    requires views != [] && forall b :: 0 <= b < |views| ==> CellsOk(cfg, views[b])
    ensures var blocks, n := Operands(cfg, hs, views), |views| - 1;
      blocks[..n] == Operands(cfg, hs, views[..n]) && blocks[n] == Operand(cfg, hs, views[n])
  {
    hide Operand, CellsOk;
  }

  /** Nonempty views are operands the kernel takes, and joined they are the gathered cells, head by head. */
  lemma {:induction false} GatheredOperands(cfg: Config, hs: Heads, views: seq<seq<Cell>>)
    requires CellsOk(cfg, Concat(views)) && forall b :: 0 <= b < |views| ==> views[b] != [] && CellsOk(cfg, views[b])
    ensures BlocksOk(Operands(cfg, hs, views), cfg.kvHeads, cfg.headDim)
    ensures KvLen(Operands(cfg, hs, views)) == |Concat(views)|
    ensures forall part: Part, g: nat :: g < cfg.kvHeads ==>
      Joined(Operands(cfg, hs, views), cfg.kvHeads, cfg.headDim, part, g) == HeadRows(cfg, hs, Concat(views), part, g)
  {
    hide HeadRows, CellsOk, Operands, Operand, BlockOk, PartOf;
    var blocks := Operands(cfg, hs, views);
    if views == [] {
      NoRows(cfg, hs);
    } else {
      var init, last := views[..|views| - 1], views[|views| - 1];
      ConcatOk(cfg, Concat(init), last);
      GatheredOperands(cfg, hs, init);
      OperandsSplit(cfg, hs, views);
      OperandOk(cfg, hs, last);
      assert blocks == blocks[..|blocks| - 1] + [blocks[|blocks| - 1]];
      forall part: Part, g: nat | g < cfg.kvHeads
        ensures Joined(blocks, cfg.kvHeads, cfg.headDim, part, g) == HeadRows(cfg, hs, Concat(views), part, g)
      {
        HeadRowsAppend(cfg, hs, Concat(init), last, part, g);
      }
    }
  }

  lemma NoRows(cfg: Config, hs: Heads)
    ensures CellsOk(cfg, []) && forall part: Part, g: nat :: g < cfg.kvHeads ==> HeadRows(cfg, hs, [], part, g) == []
  {
  }

  lemma ConcatOk(cfg: Config, a: seq<Cell>, b: seq<Cell>)
    requires CellsOk(cfg, a + b)
    ensures CellsOk(cfg, a) && CellsOk(cfg, b)
  {
    assert forall s :: 0 <= s < |a| ==> a[s] == (a + b)[s];
    assert forall s :: 0 <= s < |b| ==> b[s] == (a + b)[|a| + s];
  }

  // ------------------------------------------------------------------ the attention of a layer

  /** Dense causal attention of the query at the last of `kv`, head by head. */
  function AttentionAt(cfg: Config, hs: Heads, q: seq<Vec>, kv: seq<Cell>): (heads: seq<Vec>)
    requires ExpLaws(hs.exp) && CellsOk(cfg, kv) && kv != [] && |q| == cfg.kvHeads * hs.nRep && Rows(q, cfg.headDim)
    ensures |heads| == |q|
  {
    seq(|q|, h requires 0 <= h < |q| =>
      var g := KvHead(h, hs.nRep, cfg.kvHeads);
      DenseRow(hs.exp, q[h], HeadRows(cfg, hs, kv, K, g), HeadRows(cfg, hs, kv, V, g), hs.scale, |kv| - 1))
  }

  /** Every layer of the network is grouped-query causal attention and a rest that sees only its output. */
  ghost predicate Attentive(cfg: Config, net: Net, hs: Heads)
    requires HeadsOk(cfg, hs)
  {
    forall l, p, x, kv | CellsOk(cfg, kv) && kv != [] ::
      net.mix(l, p, x, kv) == hs.rest(l, p, x, AttentionAt(cfg, hs, hs.query(l, p, x), kv))
  }

  /** The network is of the cache's shape, and its attention is what `hs` says. */
  ghost predicate Computes(cfg: Config, net: Net, hs: Heads) {
    NetOk(cfg, net) && HeadsOk(cfg, hs) && Attentive(cfg, net, hs)
  }

  /** The network made of projections, heads and a rest. */
  ghost function NetOf(cfg: Config, hs: Heads, embed: Token -> Act, project: (nat, nat, Act) -> Cell,
                       head: Act -> Act): Net
    requires HeadsOk(cfg, hs)
  {
    Net(embed, project,
        (l: nat, p: nat, x: Act, kv: seq<Cell>) =>
          if CellsOk(cfg, kv) && kv != [] then hs.rest(l, p, x, AttentionAt(cfg, hs, hs.query(l, p, x), kv)) else [],
        head)
  }

  /** There is such a network for any heads and any projections of the cache's shape. */
  lemma NetOfComputes(cfg: Config, hs: Heads, embed: Token -> Act, project: (nat, nat, Act) -> Cell, head: Act -> Act)
    requires HeadsOk(cfg, hs) && forall l, p, x :: CellOk(cfg, project(l, p, x))
    ensures Computes(cfg, NetOf(cfg, hs, embed, project, head), hs)
  {
  }

  /** The query batch, indexed `[head][query]`. */
  function Queries(cfg: Config, hs: Heads, l: nat, indexPos: nat, xs: seq<Act>): (q: seq<seq<Vec>>)
    requires forall l, p, x :: |hs.query(l, p, x)| == cfg.kvHeads * hs.nRep
    ensures |q| == cfg.kvHeads * hs.nRep && forall h :: 0 <= h < |q| ==> |q[h]| == |xs|
  {
    var n: nat := cfg.kvHeads * hs.nRep;
    seq(n, h requires 0 <= h < n => seq(|xs|, i requires 0 <= i < |xs| => hs.query(l, indexPos + i, xs[i])[h]))
  }

  /** Row `(h, i)` of the kernel's output is what position `i` of the batch would see alone. */
  lemma KernelRow(cfg: Config, hs: Heads, q: Vec, live: seq<Cell>, g: nat, n: nat)
    requires ExpLaws(hs.exp) && CellsOk(cfg, live) && |q| == cfg.headDim && g < cfg.kvHeads && 0 < n <= |live|
    ensures CellsOk(cfg, live[..n])
    ensures DenseRow(hs.exp, q, HeadRows(cfg, hs, live, K, g), HeadRows(cfg, hs, live, V, g), hs.scale, n - 1) ==
      DenseRow(hs.exp, q, HeadRows(cfg, hs, live[..n], K, g), HeadRows(cfg, hs, live[..n], V, g), hs.scale, n - 1)
  {
    var k, v := HeadRows(cfg, hs, live, K, g), HeadRows(cfg, hs, live, V, g);
    DenseSeesPrefix(hs.exp, q, k, v, hs.scale, n - 1);
    assert k[..n] == HeadRows(cfg, hs, live[..n], K, g) && v[..n] == HeadRows(cfg, hs, live[..n], V, g);
  }

  /** The output at batch position `i`, from the kernel's rows. */
  function Assembled(hs: Heads, l: nat, p: nat, x: Act, out: seq<seq<Vec>>, i: nat): Act
    requires forall h :: 0 <= h < |out| ==> i < |out[h]|
  {
    hs.rest(l, p, x, seq(|out|, h requires 0 <= h < |out| => out[h][i]))
  }

  /** What the kernel owes, over the gathered views, is what the layer is to compute over the live cells. */
  lemma KernelIsMix(cfg: Config, net: Net, hs: Heads, l: nat, indexPos: nat, xs: seq<Act>, views: seq<seq<Cell>>,
                    out: seq<seq<Vec>>, i: nat)
    requires HeadsOk(cfg, hs) && Attentive(cfg, net, hs) && i < |xs| <= |Concat(views)|
    requires CellsOk(cfg, Concat(views)) && forall b :: 0 <= b < |views| ==> views[b] != [] && CellsOk(cfg, views[b])
    requires BlocksOk(Operands(cfg, hs, views), cfg.kvHeads, cfg.headDim) &&
      KvLen(Operands(cfg, hs, views)) == |Concat(views)|
    requires QueriesOk(Queries(cfg, hs, l, indexPos, xs), |xs|, cfg.headDim)
    requires IsDense(hs.exp, Queries(cfg, hs, l, indexPos, xs), Operands(cfg, hs, views), cfg.kvHeads, hs.nRep, |xs|,
                     cfg.headDim, hs.scale, out)
    ensures forall h :: 0 <= h < |out| ==> i < |out[h]|
    ensures Assembled(hs, l, indexPos + i, xs[i], out, i) == Session.Attended(net, l, indexPos, xs, Concat(views))[i]
  {
    hide DenseRow, HeadRows, Joined, CellsOk, KvHead, ExpLaws, BlocksOk, KvLen;
    var live, q := Concat(views), hs.query(l, indexPos + i, xs[i]);
    var n := |live| - |xs| + i + 1;
    GatheredOperands(cfg, hs, views);
    CellsPrefix(cfg, live, n);
    var heads := AttentionAt(cfg, hs, q, live[..n]);
    forall h | 0 <= h < |out|
      ensures out[h][i] == heads[h]
    {
      assert |q[h]| == cfg.headDim;
      KernelRow(cfg, hs, q[h], live, KvHead(h, hs.nRep, cfg.kvHeads), n);
    }
    assert seq(|out|, h requires 0 <= h < |out| => out[h][i]) == heads;
  }

  lemma CellsPrefix(cfg: Config, cells: seq<Cell>, n: nat)
    requires CellsOk(cfg, cells) && n <= |cells|
    ensures CellsOk(cfg, cells[..n])
  {
  }

  lemma QueriesFit(cfg: Config, hs: Heads, l: nat, indexPos: nat, xs: seq<Act>)
    requires HeadsOk(cfg, hs)
    ensures QueriesOk(Queries(cfg, hs, l, indexPos, xs), |xs|, cfg.headDim)
  {
    var q := Queries(cfg, hs, l, indexPos, xs);
    forall h | 0 <= h < |q|
      ensures Rows(q[h], cfg.headDim)
    {
      forall i | 0 <= i < |xs|
        ensures |q[h][i]| == cfg.headDim
      {
        assert Rows(hs.query(l, indexPos + i, xs[i]), cfg.headDim);
      }
    }
  }

  lemma LiveCellsOk(cfg: Config, c: Cache, l: nat)
    requires Mapped(cfg, c) && PoolOk(cfg, c.pool) && l < cfg.numLayers
    ensures CellsOk(cfg, Session.LiveCells(cfg, c, l))
  {
    forall p | 0 <= p < c.len
      ensures CellOk(cfg, Session.LiveCells(cfg, c, l)[p])
    {
      Session.SlotInPool(cfg, c, p);
      assert CellsOk(cfg, c.pool[l]);
    }
  }

  /**
   A layer's `forward` over the cache: write the batch's keys and values, gather the block views, stream
   the kernel over them. It leaves and answers what the layer loop of the model asks of the layer.
   */
  method Forward(net: Net, hs: Heads, rule: Rule, cache: KvCache, layer: nat, indexPos: nat, xs: seq<Act>)
    returns (ys: seq<Act>)
    requires cache.Valid() && Mapped(cache.cfg, cache.Abs()) && |xs| <= cache.Abs().len <= cache.cfg.maxSeqLen
    requires layer < cache.cfg.numLayers && PoolOk(cache.cfg, cache.Abs().pool) && Computes(cache.cfg, net, hs)
    modifies cache.Repr()
    ensures cache.Abs() ==
      Session.WriteCurrent(cache.cfg, rule, old(cache.Abs()), layer, Session.Projected(net, layer, indexPos, xs))
    ensures PoolOk(cache.cfg, cache.Abs().pool)
    ensures ys == Session.Attended(net, layer, indexPos, xs, Session.LiveCells(cache.cfg, cache.Abs(), layer))
  {
    hide ExpLaws, Attentive, NetOk, IsDense, BlocksOk, QueriesOk, PoolOk, CellsOk, Mapped, Session.LiveCells,
      Session.WriteCurrent;
    var cfg := cache.cfg;
    var cells := Session.Projected(net, layer, indexPos, xs);
    ProjectedOk(cfg, net, layer, indexPos, xs);
    Publish.WriteCurrentOk(cfg, rule, cache.Abs(), layer, cells);
    cache.WriteCurrent(rule, layer, cells);
    var views := cache.GatherBlocks(layer);
    LiveCellsOk(cfg, cache.Abs(), layer);
    ViewsOk(cfg, views);
    GatheredOperands(cfg, hs, views);
    QueriesFit(cfg, hs, layer, indexPos, xs);
    var q := Queries(cfg, hs, layer, indexPos, xs);
    var out := PagedAttention(hs.exp, q, Operands(cfg, hs, views), cfg.kvHeads, hs.nRep, |xs|, cfg.headDim, hs.scale);
    DenseShape(hs.exp, q, Operands(cfg, hs, views), cfg.kvHeads, hs.nRep, |xs|, cfg.headDim, hs.scale, out);
    forall i | 0 <= i < |xs|
      ensures Assembled(hs, layer, indexPos + i, xs[i], out, i) ==
        Session.Attended(net, layer, indexPos, xs, Concat(views))[i]
    {
      KernelIsMix(cfg, net, hs, layer, indexPos, xs, views, out, i);
    }
    ys := seq(|xs|, i requires 0 <= i < |xs| && forall h :: 0 <= h < |out| ==> |out[h]| == |xs| =>
      Assembled(hs, layer, indexPos + i, xs[i], out, i));
  }

  lemma DenseShape(exp: real -> real, q: seq<seq<Vec>>, blocks: seq<KvBlock>, kvHeads: nat, nRep: nat, seqQ: nat,
                   dim: nat, scale: real, out: seq<seq<Vec>>)
    requires ExpLaws(exp) && BlocksOk(blocks, kvHeads, dim) && QueriesOk(q, seqQ, dim)
    requires |q| == kvHeads * nRep && seqQ <= KvLen(blocks) &&
      IsDense(exp, q, blocks, kvHeads, nRep, seqQ, dim, scale, out)
    ensures |out| == |q| && forall h :: 0 <= h < |out| ==> |out[h]| == seqQ
  {
  }

  lemma ProjectedOk(cfg: Config, net: Net, l: nat, indexPos: nat, xs: seq<Act>)
    requires NetOk(cfg, net)
    ensures CellsOk(cfg, Session.Projected(net, l, indexPos, xs))
  {
  }
}
