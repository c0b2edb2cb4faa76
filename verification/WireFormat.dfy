/**
 The frame byte by byte, as its documentation lays it out (src/kv_cache/bundle.rs:1-23): magic, version,
 header length, header, and the tensors block by block, layer by layer, keys before values, each in row-major
 order, every number little-endian.
 */
module WireFormat {
  import opened Network
  import opened Bundle
  import opened Codec

  // ------------------------------------------------------------------ numbers

  lemma Regroup(q: nat, b: nat, r': nat, a: nat, r: nat)
    ensures (q * b + r') * a + r == q * (a * b) + (r' * a + r)
  {
    calc {
      (q * b + r') * a;
      q * b * a + r' * a;
      { assert q * b * a == q * (a * b); }
      q * (a * b) + r' * a;
    }
  }

  lemma DivideTwice(x: nat, a: nat, b: nat)
    requires a > 0 && b > 0
    ensures x / a / b == x / (a * b)
  {
    DivideParts(x, a, b, x / a, x % a, x / a / b, x / a % b);
  }

  lemma DivideParts(x: nat, a: nat, b: nat, q: nat, r: nat, q': nat, r': nat)
    requires x == q * a + r && q == q' * b + r' && r < a && r' < b
    ensures a * b > 0 && x / (a * b) == q'
  {
    Regroup(q', b, r', a, r);
    BelowProduct(r', b, a, r);
    assert b * a == a * b;
    Divided(x, q', a * b, r' * a + r);
  }

  lemma Divided(x: nat, q: nat, n: nat, r: nat)
    requires r < n && x == q * n + r
    ensures x / n == q
  {
    DivModUnique(q, n, r);
  }

  predicate Has<T(==)>(s: seq<T>, at: nat, x: T) {
    at < |s| && s[at] == x
  }

  /** Byte `t` of a number is its digit to the base 256, least significant first. */
  lemma {:induction false} ByteAt(x: nat, w: nat, t: nat)
    requires t < w
    ensures LeBytes(x, w)[t] == x / Pow256(t) % 256
  {
    if t > 0 {
      ByteAt(x / 256, w - 1, t - 1);
      DivideTwice(x, 256, Pow256(t - 1));
    }
  }

  lemma Past<T>(a: seq<T>, b: seq<T>, n: nat, k: nat)
    requires n == |a| + k && k < |b|
    ensures (a + b)[n] == b[k]
  {
  }

  lemma {:induction false} WordAt(ws: seq<Word>, w: nat, i: nat, t: nat)
    requires i < |ws| && t < w
    ensures i * w + t < |WordsBytes(ws, w)| && WordsBytes(ws, w)[i * w + t] == LeBytes(ws[i], w)[t]
  {
    BelowProduct(i, |ws|, w, t);
    var head, tail := LeBytes(ws[0], w), WordsBytes(ws[1..], w);
    if i > 0 {
      WordAt(ws[1..], w, i - 1, t);
      OneMore(i, w);
      Past(head, tail, i * w + t, (i - 1) * w + t);
    }
  }

  // ------------------------------------------------------------------ tensors in the payload

  datatype Side = Keys | Values {
    function Index(): nat {
      if Keys? then 0 else 1
    }
  }

  function SideOf(lb: LayerBlock, side: Side): Tensor {
    if side.Keys? then lb.k else lb.v
  }

  /** Where piece `i` of pieces of one size starts. */
  function Start(i: nat, size: nat): nat {
    i * size
  }

  lemma FirstStart(size: nat)
    ensures Start(0, size) == 0
  {
  }

  lemma NextStart(i: nat, size: nat)
    requires i > 0
    ensures Start(i, size) == size + Start(i - 1, size)
  {
    OneMore(i, size);
  }

  lemma LayerAt(meta: Meta, lb: LayerBlock, side: Side, o: nat)
    requires LayerFits(meta, lb) && o < TensorSize(meta)
    ensures |LayerBytes(lb)| == LayerSize(meta) && |TensorBytes(SideOf(lb, side))| == TensorSize(meta)
    ensures side.Index() * TensorSize(meta) + o < |LayerBytes(lb)|
    ensures LayerBytes(lb)[side.Index() * TensorSize(meta) + o] == TensorBytes(SideOf(lb, side))[o]
  {
    hide TensorSize, TensorBytes;
    TensorRoundTrip(meta, lb.k);
    TensorRoundTrip(meta, lb.v);
    if side.Values? {
      Past(TensorBytes(lb.k), TensorBytes(lb.v), TensorSize(meta) + o, o);
    }
  }

  /** Byte `o` of one side of layer `l`. */
  lemma {:induction false} LayersAt(meta: Meta, layers: seq<LayerBlock>, l: nat, side: Side, o: nat, inner: nat)
    requires l < |layers| && o < TensorSize(meta) && forall m :: 0 <= m < |layers| ==> LayerFits(meta, layers[m])
    requires inner == side.Index() * TensorSize(meta) + o
    ensures |TensorBytes(SideOf(layers[l], side))| == TensorSize(meta)
    ensures Has(LayersBytes(layers), Start(l, LayerSize(meta)) + inner, TensorBytes(SideOf(layers[l], side))[o])
  {
    hide TensorSize, TensorBytes, LayerBytes, LayerSize, LayerFits, SideOf, Start;
    FirstStart(LayerSize(meta));
    var head, tail := LayerBytes(layers[0]), LayersBytes(layers[1..]);
    LayerAt(meta, layers[0], side, o);
    if l > 0 {
      LayersAt(meta, layers[1..], l - 1, side, o, inner);
      NextStart(l, LayerSize(meta));
      Past(head, tail, Start(l, LayerSize(meta)) + inner, Start(l - 1, LayerSize(meta)) + inner);
    }
  }

  lemma LayersLength(meta: Meta, block: BundleBlock, idx: nat)
    requires BlockFits(meta, block, idx)
    ensures |LayersBytes(block.layers)| == BlockSize(meta)
  {
    LayersRoundTrip(meta, block.layers);
  }

  /** Byte `o` of block `i`. */
  lemma {:induction false} BlocksAt(meta: Meta, blocks: seq<BundleBlock>, b: nat, i: nat, o: nat)
    requires i < |blocks| && o < BlockSize(meta) && forall m :: 0 <= m < |blocks| ==> BlockFits(meta, blocks[m], b + m)
    ensures |LayersBytes(blocks[i].layers)| == BlockSize(meta)
    ensures Has(BlocksBytes(blocks), Start(i, BlockSize(meta)) + o, LayersBytes(blocks[i].layers)[o])
    decreases |blocks|
  {
    hide BlockSize, LayersBytes, BlockFits, Start;
    FirstStart(BlockSize(meta));
    var head, tail := LayersBytes(blocks[0].layers), BlocksBytes(blocks[1..]);
    LayersLength(meta, blocks[0], b + 0);
    if i > 0 {
      RestFits(meta, blocks, b);
      BlocksAt(meta, blocks[1..], b + 1, i - 1, o);
      NextStart(i, BlockSize(meta));
      Past(head, tail, Start(i, BlockSize(meta)) + o, Start(i - 1, BlockSize(meta)) + o);
    }
  }

  lemma SameOffset(i: nat, layers: nat, l: nat, side: nat, size: nat)
    ensures Start(i, layers * (2 * size)) + (Start(l, 2 * size) + side * size) ==
      Start((i * layers + l) * 2 + side, size)
  {
    calc {
      ((i * layers + l) * 2 + side) * size;
      (i * layers + l) * 2 * size + side * size;
      (i * layers + l) * (2 * size) + side * size;
      i * layers * (2 * size) + l * (2 * size) + side * size;
      i * (layers * (2 * size)) + (l * (2 * size) + side * size);
    }
  }

  /** Byte `o` of one side of layer `l` of block `i` in the payload. */
  lemma PayloadAt(meta: Meta, blocks: seq<BundleBlock>, i: nat, l: nat, side: Side, o: nat)
    requires i < |blocks| && l < meta.numLayers && o < TensorSize(meta)
    requires forall m :: 0 <= m < |blocks| ==> BlockFits(meta, blocks[m], m)
    ensures l < |blocks[i].layers| && |TensorBytes(SideOf(blocks[i].layers[l], side))| == TensorSize(meta)
    ensures Has(BlocksBytes(blocks), Start((i * meta.numLayers + l) * 2 + side.Index(), TensorSize(meta)) + o,
                TensorBytes(SideOf(blocks[i].layers[l], side))[o])
  {
    hide TensorSize, TensorBytes, LayersBytes, BlocksBytes, LayerFits, SideOf, Start;
    assert BlockFits(meta, blocks[i], i);
    var inner := side.Index() * TensorSize(meta) + o;
    LayersLength(meta, blocks[i], i);
    LayersAt(meta, blocks[i].layers, l, side, o, inner);
    forall m | 0 <= m < |blocks|
      ensures BlockFits(meta, blocks[m], 0 + m)
    {
    }
    BlocksAt(meta, blocks, 0, i, Start(l, LayerSize(meta)) + inner);
    SameOffset(i, meta.numLayers, l, side.Index(), TensorSize(meta));
  }

  /** Byte `t` of the element of head `head`, slot `slot` and dimension `d`, in row-major order. */
  lemma ElementAt(t: Tensor, head: nat, slot: nat, d: nat, b: nat)
    requires head < t.heads && slot < t.n && d < t.dim && b < t.dtype.SizeInBytes()
    ensures var at := ((head * t.n + slot) * t.dim + d) * t.dtype.SizeInBytes() + b;
      at < |TensorBytes(t)| && TensorBytes(t)[at] == RowOf(t, slot)[head][d] / Pow256(b) % 256
  {
    var i := Index(t, head, slot, d);
    WordAt(t.data, t.dtype.SizeInBytes(), i, b);
    ByteAt(t.data[i], t.dtype.SizeInBytes(), b);
  }

  /** The ten bytes before the header, and the header. */
  lemma PrefixBytes(h: Header, meta: Meta, payload: seq<Byte>)
    requires |h.to(meta)| < Pow256(4)
    ensures var bs, header := Frame(h, meta, payload), h.to(meta);
      && |bs| == 10 + |header| + |payload|
      && bs[..4] == [0x46, 0x4C, 0x4B, 0x56] && bs[4] == 1 && bs[5] == 0
      && (forall t: nat :: t < 4 ==> bs[6 + t] == |header| / Pow256(t) % 256)
      && bs[10..10 + |header|] == header && bs[10 + |header|..] == payload
  {
    var bs, header := Frame(h, meta, payload), h.to(meta);
    FrameParts(h, meta, payload);
    assert bs[4..6] == LeBytes(VERSION, 2) && bs[6..10] == LeBytes(|header|, 4);
    assert bs[4] == bs[4..6][0] && bs[5] == bs[4..6][1];
    ByteAt(1, 2, 0);
    ByteAt(1, 2, 1);
    assert Pow256(0) == 1 && Pow256(1) == 256;
    forall t: nat | t < 4
      ensures bs[6 + t] == |header| / Pow256(t) % 256
    {
      assert bs[6 + t] == bs[6..10][t];
      ByteAt(|header|, 4, t);
    }
  }

  /** Where byte `t` of an element is in the payload. */
  function Offset(m: Meta, i: nat, l: nat, side: Side, head: nat, slot: nat, d: nat, t: nat): nat {
    var size := m.dtype.SizeInBytes();
    ((i * m.numLayers + l) * 2 + side.Index()) * (m.numKvHeads * m.blockSize * m.headDim * size)
    + (((head * m.blockSize + slot) * m.headDim + d) * size + t)
  }

  /** Byte `at` is byte `t` of the element of the tensor's slot. */
  ghost predicate HasByte(bs: seq<Byte>, at: nat, tensor: Tensor, head: nat, slot: nat, d: nat, t: nat) {
    && head < tensor.heads && slot < tensor.n && d < tensor.dim && at < |bs|
    && bs[at] == RowOf(tensor, slot)[head][d] / Pow256(t) % 256
  }

  lemma PayloadHasByte(m: Meta, blocks: seq<BundleBlock>, i: nat, l: nat, side: Side, head: nat, slot: nat, d: nat,
                       t: nat)
    requires i < |blocks| && l < m.numLayers && forall n :: 0 <= n < |blocks| ==> BlockFits(m, blocks[n], n)
    requires head < m.numKvHeads && slot < m.blockSize && d < m.headDim && t < m.dtype.SizeInBytes()
    ensures l < |blocks[i].layers|
    ensures HasByte(BlocksBytes(blocks), Offset(m, i, l, side, head, slot, d, t), SideOf(blocks[i].layers[l], side),
      head, slot, d, t)
  {
    hide BlocksBytes, TensorBytes, Pow256, RowOf, SideOf;
    assert BlockFits(m, blocks[i], i) && LayerFits(m, blocks[i].layers[l]);
    var tensor := SideOf(blocks[i].layers[l], side);
    SideFits(m, blocks[i].layers[l], side);
    var o := ((head * tensor.n + slot) * tensor.dim + d) * tensor.dtype.SizeInBytes() + t;
    ElementAt(tensor, head, slot, d, t);
    TensorRoundTrip(m, tensor);
    PayloadAt(m, blocks, i, l, side, o);
  }

  lemma SideFits(m: Meta, lb: LayerBlock, side: Side)
    requires LayerFits(m, lb)
    ensures Codec.Fits(m, SideOf(lb, side))
  {
  }

  /** Where every byte of every element of every tensor is in the frame. */
  lemma FrameAt(h: Header, b: KvBundle, i: nat, l: nat, side: Side, head: nat, slot: nat, d: nat, t: nat)
    requires Portable(b) && HeaderOk(h, b.meta) && i < |b.blocks| && l < b.meta.numLayers
    requires head < b.meta.numKvHeads && slot < b.meta.blockSize && d < b.meta.headDim && t < b.meta.dtype.SizeInBytes()
    ensures Encode(h, b).Ok? && l < |b.blocks[i].layers|
    ensures HasByte(Encode(h, b).value, 10 + |h.to(b.meta)| + Offset(b.meta, i, l, side, head, slot, d, t),
                    SideOf(b.blocks[i].layers[l], side), head, slot, d, t)
  {
    hide BlocksBytes, Pow256, RowOf, SideOf, Offset, Decode, BlocksFault;
    var m := b.meta;
    assert BlockFits(m, b.blocks[i], i);
    CodecInverse(h, b);
    PayloadHasByte(m, b.blocks, i, l, side, head, slot, d, t);
    PrefixBytes(h, m, BlocksBytes(b.blocks));
    var bs, k := Encode(h, b).value, Offset(m, i, l, side, head, slot, d, t);
    assert bs[10 + |h.to(m)| + k] == bs[10 + |h.to(m)|..][k];
  }
}
