/** The binary frame of a KV bundle (src/kv_cache/bundle.rs, `KvBundleCodec`). */
module Codec {
  import opened Basics
  import opened Network
  import opened Bundle

  type Byte = b: nat | b < 256

  /** The JSON header, as a pair of maps; `from` is partial because JSON may not parse. */
  datatype Header = Header(to: Meta -> seq<Byte>, from: seq<Byte> -> Option<Meta>)

  const MAGIC: seq<Byte> := [0x46, 0x4C, 0x4B, 0x56]  // "FLKV"
  const VERSION: nat := 1
  const PREFIX: nat := 10

  datatype Reason =
    | TooShort | BadMagic | BadVersion | Truncated | BadHeader | Unaligned | BadTokenCount | BadPayload
    | BadBlockCount | BadLayerCount | BadDType

  // ------------------------------------------------------------------ little-endian words

  /** The low `w` bytes of `x`, least significant first. */
  function LeBytes(x: nat, w: nat): (bs: seq<Byte>)
    ensures |bs| == w
  {
    if w == 0 then [] else [x % 256] + LeBytes(x / 256, w - 1)
  }

  function LeValue(bs: seq<Byte>): nat {
    if bs == [] then 0 else bs[0] + 256 * LeValue(bs[1..])
  }

  function Pow256(w: nat): (p: nat)
    ensures p > 0
  {
    if w == 0 then 1 else 256 * Pow256(w - 1)
  }

  lemma LimitIsPower(d: DType)
    ensures Pow256(d.SizeInBytes()) == d.Limit()
  {
    PowersOfWidth();
  }

  lemma PowersOfWidth()
    ensures Pow256(2) == 0x1_0000 && Pow256(4) == 0x1_0000_0000
  {
    assert Pow256(2) == 0x1_0000;
    assert Pow256(3) == 256 * Pow256(2);
  }

  lemma {:induction false} LeRoundTrip(x: nat, w: nat)
    requires x < Pow256(w)
    ensures LeValue(LeBytes(x, w)) == x
  {
    if w > 0 {
      LeRoundTrip(x / 256, w - 1);
      assert LeBytes(x, w)[1..] == LeBytes(x / 256, w - 1);
    }
  }

  lemma {:induction false} LeBack(bs: seq<Byte>)
    ensures LeValue(bs) < Pow256(|bs|) && LeBytes(LeValue(bs), |bs|) == bs
  {
    if bs != [] {
      LeBack(bs[1..]);
      assert LeValue(bs) / 256 == LeValue(bs[1..]);
    }
  }

  function WordsBytes(ws: seq<Word>, w: nat): (bs: seq<Byte>)
    ensures |bs| == |ws| * w
  {
    if ws == [] then [] else LeBytes(ws[0], w) + WordsBytes(ws[1..], w)
  }

  /** `chunks_exact(w)`, each chunk read as a little-endian word */
  function BytesWords(bs: seq<Byte>, w: nat): (ws: seq<Word>)
    requires w > 0
    ensures |ws| == |bs| / w
  {
    if |bs| < w then [] else
      QuotientStep(|bs|, w);
      [LeValue(bs[..w])] + BytesWords(bs[w..], w)
  }

  lemma QuotientStep(n: nat, w: nat)
    requires 0 < w <= n
    ensures (n - w) / w == n / w - 1
  {
    QuotientUnique((n - w) / w + 1, (n - w) % w, n / w, n % w, w);
  }

  lemma {:induction false} WordsRoundTrip(ws: seq<Word>, w: nat)
    requires w > 0 && forall i :: 0 <= i < |ws| ==> ws[i] < Pow256(w)
    ensures BytesWords(WordsBytes(ws, w), w) == ws
  {
    if ws != [] {
      var bs := WordsBytes(ws, w);
      assert bs[..w] == LeBytes(ws[0], w) && bs[w..] == WordsBytes(ws[1..], w);
      assert |ws| * w >= w;
      LeRoundTrip(ws[0], w);
      WordsRoundTrip(ws[1..], w);
    }
  }

  lemma {:induction false} BytesRoundTrip(bs: seq<Byte>, w: nat, n: nat)
    requires w > 0 && |bs| == n * w
    ensures forall i :: 0 <= i < |BytesWords(bs, w)| ==> BytesWords(bs, w)[i] < Pow256(w)
    ensures |BytesWords(bs, w)| == n && WordsBytes(BytesWords(bs, w), w) == bs
    decreases n
  {
    if n == 0 {
      assert bs == [];
    } else {
      assert n * w == (n - 1) * w + w;
      BytesRoundTrip(bs[w..], w, n - 1);
      LeBack(bs[..w]);
      var ws := BytesWords(bs, w);
      assert ws[0] == LeValue(bs[..w]) && ws[1..] == BytesWords(bs[w..], w);
      assert bs == bs[..w] + bs[w..];
    }
  }

  // ------------------------------------------------------------------ tensors

  function TensorBytes(t: Tensor): (bs: seq<Byte>)
    ensures |bs| == |t.data| * t.dtype.SizeInBytes()
  {
    WordsBytes(t.data, t.dtype.SizeInBytes())
  }

  function TensorSize(meta: Meta): nat {
    meta.numKvHeads * meta.blockSize * meta.headDim * meta.dtype.SizeInBytes()
  }

  function TensorFrom(meta: Meta, bs: seq<Byte>): (t: Tensor)
    requires |bs| == TensorSize(meta)
    ensures Fits(meta, t) && TensorBytes(t) == bs
  {
    var w := meta.dtype.SizeInBytes();
    BytesRoundTrip(bs, w, meta.numKvHeads * meta.blockSize * meta.headDim);
    LimitIsPower(meta.dtype);
    RawTensor(meta.dtype, meta.numKvHeads, meta.blockSize, meta.headDim, BytesWords(bs, w))
  }

  ghost predicate Fits(meta: Meta, t: RawTensor) {
    t.dtype == meta.dtype && t.heads == meta.numKvHeads && t.n == meta.blockSize && t.dim == meta.headDim
  }

  /** Decoding the bytes of a tensor gives the tensor. */
  lemma TensorRoundTrip(meta: Meta, t: Tensor)
    requires Fits(meta, t)
    ensures |TensorBytes(t)| == TensorSize(meta) && TensorFrom(meta, TensorBytes(t)) == t
  {
    LimitIsPower(t.dtype);
    WordsRoundTrip(t.data, t.dtype.SizeInBytes());
  }

  // ------------------------------------------------------------------ payload

  function LayerBytes(lb: LayerBlock): seq<Byte> {
    TensorBytes(lb.k) + TensorBytes(lb.v)
  }

  function LayersBytes(layers: seq<LayerBlock>): seq<Byte> {
    if layers == [] then [] else LayerBytes(layers[0]) + LayersBytes(layers[1..])
  }

  function BlocksBytes(blocks: seq<BundleBlock>): seq<Byte> {
    if blocks == [] then [] else LayersBytes(blocks[0].layers) + BlocksBytes(blocks[1..])
  }

  function LayerSize(meta: Meta): nat {
    2 * TensorSize(meta)
  }

  function BlockSize(meta: Meta): nat {
    meta.numLayers * LayerSize(meta)
  }

  lemma OneMore(n: nat, size: nat)
    requires n > 0
    ensures n * size == size + (n - 1) * size
  {
  }

  /** Cutting one piece of `size` bytes off `n` of them. */
  lemma CutOne(len: nat, n: nat, size: nat)
    requires n > 0 && len == n * size
    ensures size <= len && len - size == (n - 1) * size
  {
    assert n * size == size + (n - 1) * size;
  }

  function LayerFrom(meta: Meta, bs: seq<Byte>): (lb: LayerBlock)
    requires |bs| == LayerSize(meta)
    ensures LayerFits(meta, lb) && LayerBytes(lb) == bs
  {
    assert bs == bs[..TensorSize(meta)] + bs[TensorSize(meta)..];
    LayerBlock(TensorFrom(meta, bs[..TensorSize(meta)]), TensorFrom(meta, bs[TensorSize(meta)..]))
  }

  ghost predicate LayerFits(meta: Meta, lb: LayerBlock) {
    Fits(meta, lb.k) && Fits(meta, lb.v)
  }

  function LayersFrom(meta: Meta, bs: seq<Byte>, count: nat): (layers: seq<LayerBlock>)
    requires |bs| == count * LayerSize(meta)
    ensures |layers| == count
    ensures forall l :: 0 <= l < count ==> LayerFits(meta, layers[l])
  {
    if count == 0 then [] else
      var n := LayerSize(meta);
      CutOne(|bs|, count, n);
      [LayerFrom(meta, bs[..n])] + LayersFrom(meta, bs[n..], count - 1)
  }

  lemma {:induction false} LayersBack(meta: Meta, bs: seq<Byte>, count: nat)
    requires |bs| == count * LayerSize(meta)
    ensures LayersBytes(LayersFrom(meta, bs, count)) == bs
  {
    hide LayerFrom, LayerBytes, TensorSize;
    if count > 0 {
      var n := LayerSize(meta);
      CutOne(|bs|, count, n);
      LayersBack(meta, bs[n..], count - 1);
      var layers := LayersFrom(meta, bs, count);
      assert layers[0] == LayerFrom(meta, bs[..n]) && layers[1..] == LayersFrom(meta, bs[n..], count - 1);
      assert bs == bs[..n] + bs[n..];
    }
  }

  function BlocksFrom(meta: Meta, bs: seq<Byte>, count: nat, b: nat): (blocks: seq<BundleBlock>)
    requires |bs| == count * BlockSize(meta)
    ensures |blocks| == count
    ensures forall i :: 0 <= i < count ==> BlockFits(meta, blocks[i], b + i)
    decreases count
  {
    if count == 0 then [] else
      var n := BlockSize(meta);
      CutOne(|bs|, count, n);
      [BundleBlock(b, LayersFrom(meta, bs[..n], meta.numLayers))] + BlocksFrom(meta, bs[n..], count - 1, b + 1)
  }

  /** Decoding one block off the front of `head + tail`. */
  lemma BlocksFromStep(meta: Meta, head: seq<Byte>, tail: seq<Byte>, count: nat, b: nat)
    requires |head| == BlockSize(meta) && |tail| == count * BlockSize(meta)
    ensures |head + tail| == (count + 1) * BlockSize(meta)
    ensures BlocksFrom(meta, head + tail, count + 1, b) ==
      [BundleBlock(b, LayersFrom(meta, head, meta.numLayers))] + BlocksFrom(meta, tail, count, b + 1)
  {
    OneMore(count + 1, BlockSize(meta));
    assert (head + tail)[..|head|] == head && (head + tail)[|head|..] == tail;
  }

  lemma {:induction false} BlocksBack(meta: Meta, bs: seq<Byte>, count: nat, b: nat)
    requires |bs| == count * BlockSize(meta)
    ensures BlocksBytes(BlocksFrom(meta, bs, count, b)) == bs
    decreases count
  {
    if count > 0 {
      CutOne(|bs|, count, BlockSize(meta));
      var head, tail := bs[..BlockSize(meta)], bs[BlockSize(meta)..];
      assert bs == head + tail;
      BlocksFromStep(meta, head, tail, count - 1, b);
      LayersBack(meta, head, meta.numLayers);
      BlocksBack(meta, tail, count - 1, b + 1);
      var blocks := BlocksFrom(meta, bs, count, b);
      assert blocks[1..] == BlocksFrom(meta, tail, count - 1, b + 1);
    }
  }

  ghost predicate BlockFits(meta: Meta, block: BundleBlock, idx: nat) {
    && block.logicalIdx == idx && |block.layers| == meta.numLayers
    && forall l :: 0 <= l < |block.layers| ==> LayerFits(meta, block.layers[l])
  }

  lemma LayerRoundTrip(meta: Meta, lb: LayerBlock)
    requires LayerFits(meta, lb)
    ensures |LayerBytes(lb)| == LayerSize(meta) && LayerFrom(meta, LayerBytes(lb)) == lb
  {
    TensorRoundTrip(meta, lb.k);
    TensorRoundTrip(meta, lb.v);
    assert LayerBytes(lb)[..TensorSize(meta)] == TensorBytes(lb.k);
    assert LayerBytes(lb)[TensorSize(meta)..] == TensorBytes(lb.v);
  }

  /** Decoding one layer off the front of `head + tail`. */
  lemma LayersFromStep(meta: Meta, head: seq<Byte>, tail: seq<Byte>, count: nat)
    requires |head| == LayerSize(meta) && |tail| == count * LayerSize(meta)
    ensures |head + tail| == (count + 1) * LayerSize(meta)
    ensures LayersFrom(meta, head + tail, count + 1) == [LayerFrom(meta, head)] + LayersFrom(meta, tail, count)
  {
    OneMore(count + 1, LayerSize(meta));
    assert (head + tail)[..|head|] == head && (head + tail)[|head|..] == tail;
  }

  lemma {:induction false} LayersRoundTrip(meta: Meta, layers: seq<LayerBlock>)
    requires forall l :: 0 <= l < |layers| ==> LayerFits(meta, layers[l])
    ensures |LayersBytes(layers)| == |layers| * LayerSize(meta)
    ensures LayersFrom(meta, LayersBytes(layers), |layers|) == layers
  {
    if layers != [] {
      LayerRoundTrip(meta, layers[0]);
      LayersRoundTrip(meta, layers[1..]);
      LayersFromStep(meta, LayerBytes(layers[0]), LayersBytes(layers[1..]), |layers| - 1);
    }
  }

  lemma {:induction false} BlocksRoundTrip(meta: Meta, blocks: seq<BundleBlock>, b: nat)
    requires forall i :: 0 <= i < |blocks| ==> BlockFits(meta, blocks[i], b + i)
    ensures |BlocksBytes(blocks)| == |blocks| * BlockSize(meta)
    ensures BlocksFrom(meta, BlocksBytes(blocks), |blocks|, b) == blocks
    decreases |blocks|
  {
    hide LayersFrom, LayersBytes;
    if blocks != [] {
      assert BlockFits(meta, blocks[0], b + 0);
      LayersRoundTrip(meta, blocks[0].layers);
      RestFits(meta, blocks, b);
      BlocksRoundTrip(meta, blocks[1..], b + 1);
      BlocksFromStep(meta, LayersBytes(blocks[0].layers), BlocksBytes(blocks[1..]), |blocks| - 1, b);
    }
  }

  lemma RestFits(meta: Meta, blocks: seq<BundleBlock>, b: nat)
    requires blocks != [] && forall i :: 0 <= i < |blocks| ==> BlockFits(meta, blocks[i], b + i)
    ensures forall i :: 0 <= i < |blocks[1..]| ==> BlockFits(meta, blocks[1..][i], b + 1 + i)
  {
    forall i | 0 <= i < |blocks[1..]|
      ensures BlockFits(meta, blocks[1..][i], b + 1 + i)
    {
      assert BlockFits(meta, blocks[i + 1], b + (i + 1));
    }
  }

  // ------------------------------------------------------------------ frames

  function Frame(h: Header, meta: Meta, payload: seq<Byte>): seq<Byte> {
    var header := h.to(meta);
    MAGIC + LeBytes(VERSION, 2) + LeBytes(|header|, 4) + header + payload
  }

  /** What stops `encode` inside its loops: the first ill-formed layer list or tensor. */
  function LayersFault(meta: Meta, layers: seq<LayerBlock>): Option<Reason> {
    if layers == [] then None
    else if layers[0].k.dtype != meta.dtype || layers[0].v.dtype != meta.dtype then Some(BadDType)
    else LayersFault(meta, layers[1..])
  }

  function BlocksFault(meta: Meta, blocks: seq<BundleBlock>): Option<Reason> {
    if blocks == [] then None
    else if |blocks[0].layers| != meta.numLayers then Some(BadLayerCount)
    else
      var fault := LayersFault(meta, blocks[0].layers);
      if fault.Some? then fault else BlocksFault(meta, blocks[1..])
  }

  /** `encode` */
  function Encode(h: Header, b: KvBundle): Result<seq<Byte>, Reason> {
    var meta := b.meta;
    if meta.blockSize == 0 || meta.tokenCount % meta.blockSize != 0 then Err(Unaligned)
    else if |b.blocks| != meta.tokenCount / meta.blockSize then Err(BadBlockCount)
    else
      match BlocksFault(meta, b.blocks)
      case Some(why) => Err(why)
      case None => Ok(Frame(h, meta, BlocksBytes(b.blocks)))
  }

  /** `decode` */
  function Decode(h: Header, bs: seq<Byte>): Result<KvBundle, Reason> {
    if |bs| < PREFIX then Err(TooShort)
    else if bs[..4] != MAGIC then Err(BadMagic)
    else if LeValue(bs[4..6]) != VERSION then Err(BadVersion)
    else
      var headerEnd := PREFIX + LeValue(bs[6..10]);
      if |bs| < headerEnd then Err(Truncated) else
        match h.from(bs[PREFIX..headerEnd])
        case None => Err(BadHeader)
        case Some(meta) =>
          if meta.blockSize == 0 then Err(Unaligned)
          else if meta.tokenCount == 0 || meta.tokenCount % meta.blockSize != 0 then Err(Unaligned)
          else if |meta.tokenIds| != meta.tokenCount then Err(BadTokenCount)
          else
            var count := meta.tokenCount / meta.blockSize;
            if |bs| - headerEnd != count * BlockSize(meta) then Err(BadPayload)
            else Ok(KvBundle(meta, BlocksFrom(meta, bs[headerEnd..], count, 0)))
  }

  /** Bundles a frame can carry: the token ids and every tensor agree with the metadata. */
  ghost predicate Portable(b: KvBundle) {
    && b.meta.blockSize > 0 && b.meta.tokenCount > 0 && b.meta.tokenCount % b.meta.blockSize == 0
    && |b.meta.tokenIds| == b.meta.tokenCount
    && |b.blocks| == b.meta.tokenCount / b.meta.blockSize
    && forall i :: 0 <= i < |b.blocks| ==> BlockFits(b.meta, b.blocks[i], i)
  }

  /** The header of this bundle survives serialization and fits the frame's length field. */
  ghost predicate HeaderOk(h: Header, meta: Meta) {
    h.from(h.to(meta)) == Some(meta) && |h.to(meta)| < Pow256(4)
  }

  /** Where the parts of a frame sit. */
  lemma FrameParts(h: Header, meta: Meta, payload: seq<Byte>)
    requires |h.to(meta)| < Pow256(4)
    ensures var bs, n := Frame(h, meta, payload), |h.to(meta)|;
      && |bs| == PREFIX + n + |payload|
      && bs[..4] == MAGIC && LeValue(bs[4..6]) == VERSION && LeValue(bs[6..10]) == n
      && bs[PREFIX..PREFIX + n] == h.to(meta) && bs[PREFIX + n..] == payload
  {
    var bs, n := Frame(h, meta, payload), |h.to(meta)|;
    assert bs[4..6] == LeBytes(VERSION, 2) && bs[6..10] == LeBytes(n, 4);
    PowersOfWidth();
    LeRoundTrip(VERSION, 2);
    LeRoundTrip(n, 4);
  }

  lemma {:induction false} FittingHasNoFault(meta: Meta, layers: seq<LayerBlock>)
    requires forall l :: 0 <= l < |layers| ==> LayerFits(meta, layers[l])
    ensures LayersFault(meta, layers).None?
  {
    if layers != [] {
      assert LayerFits(meta, layers[0]);
      FittingHasNoFault(meta, layers[1..]);
    }
  }

  lemma {:induction false} PortableHasNoFault(meta: Meta, blocks: seq<BundleBlock>, b: nat)
    requires forall i :: 0 <= i < |blocks| ==> BlockFits(meta, blocks[i], b + i)
    ensures BlocksFault(meta, blocks).None?
    decreases |blocks|
  {
    if blocks != [] {
      assert BlockFits(meta, blocks[0], b + 0);
      FittingHasNoFault(meta, blocks[0].layers);
      RestFits(meta, blocks, b);
      PortableHasNoFault(meta, blocks[1..], b + 1);
    }
  }

  /** The tensors of a block can be written under these metadata. */
  ghost predicate Writable(meta: Meta, block: BundleBlock) {
    && |block.layers| == meta.numLayers
    && forall l :: 0 <= l < |block.layers| ==>
      block.layers[l].k.dtype == meta.dtype && block.layers[l].v.dtype == meta.dtype
  }

  lemma {:induction false} LayersFaultExactly(meta: Meta, layers: seq<LayerBlock>)
    ensures LayersFault(meta, layers).None? <==>
      forall l :: 0 <= l < |layers| ==> layers[l].k.dtype == meta.dtype && layers[l].v.dtype == meta.dtype
  {
    if layers != [] {
      LayersFaultExactly(meta, layers[1..]);
      assert forall l :: 0 < l < |layers| ==> layers[l] == layers[1..][l - 1];
    }
  }

  lemma {:induction false} BlocksFaultExactly(meta: Meta, blocks: seq<BundleBlock>)
    ensures BlocksFault(meta, blocks).None? <==> forall i :: 0 <= i < |blocks| ==> Writable(meta, blocks[i])
  {
    hide LayersFault;
    if blocks != [] {
      LayersFaultExactly(meta, blocks[0].layers);
      BlocksFaultExactly(meta, blocks[1..]);
      assert forall i :: 0 < i < |blocks| ==> blocks[i] == blocks[1..][i - 1];
    }
  }

  /** A bundle is encoded exactly when its blocks are as many as its metadata say and its tensors of their dtype. */
  lemma EncodesExactly(h: Header, b: KvBundle)
    ensures Encode(h, b).Ok? <==>
      && b.meta.blockSize > 0 && b.meta.tokenCount % b.meta.blockSize == 0
      && |b.blocks| == b.meta.tokenCount / b.meta.blockSize
      && forall i :: 0 <= i < |b.blocks| ==> Writable(b.meta, b.blocks[i])
  {
    hide BlocksFault, BlocksBytes, Writable;
    BlocksFaultExactly(b.meta, b.blocks);
  }

  /** What `decode` accepts is portable, and its payload is the re-encoding of what it decoded to. */
  lemma DecodedIsPortable(h: Header, bs: seq<Byte>)
    requires Decode(h, bs).Ok?
    ensures var b := Decode(h, bs).value;
      && Portable(b)
      && |bs| >= PREFIX + LeValue(bs[6..10])
      && h.from(bs[PREFIX..PREFIX + LeValue(bs[6..10])]) == Some(b.meta)
      && bs[PREFIX + LeValue(bs[6..10])..] == BlocksBytes(b.blocks)
  {
    var b := Decode(h, bs).value;
    var end := PREFIX + LeValue(bs[6..10]);
    BlocksBack(b.meta, bs[end..], |b.blocks|, 0);
    forall i | 0 <= i < |b.blocks|
      ensures BlockFits(b.meta, b.blocks[i], i)
    {
      assert BlockFits(b.meta, b.blocks[i], 0 + i);
    }
  }

  /** A frame decodes to the bundle it encodes exactly when the bundle is portable. */
  lemma CodecInverse(h: Header, b: KvBundle)
    requires HeaderOk(h, b.meta)
    ensures Portable(b) <==> Encode(h, b).Ok? && Decode(h, Encode(h, b).value) == Ok(b)
  {
    if Portable(b) {
      PortableHasNoFault(b.meta, b.blocks, 0);
      BlocksRoundTrip(b.meta, b.blocks, 0);
      FrameParts(h, b.meta, BlocksBytes(b.blocks));
    }
    if Encode(h, b).Ok? && Decode(h, Encode(h, b).value) == Ok(b) {
      DecodedIsPortable(h, Encode(h, b).value);
    }
  }

  // ------------------------------------------------------------------ the payload size in a machine word

  const WORD_LIMIT: nat := 0x1_0000_0000_0000_0000

  /** Unchecked arithmetic keeps the low 64 bits. */
  function Wrapped(n: nat): nat {
    n % WORD_LIMIT
  }

  /** The payload size as `decode` multiplies it out, wrapping at every step. */
  function MachineSize(meta: Meta, count: nat): nat {
    var elems := Wrapped(Wrapped(meta.numKvHeads * meta.blockSize) * meta.headDim);
    var bytes := Wrapped(elems * meta.dtype.SizeInBytes());
    Wrapped(Wrapped(Wrapped(count * meta.numLayers) * 2) * bytes)
  }

  lemma WrappedTimes(a: nat, b: nat)
    ensures Wrapped(Wrapped(a) * b) == Wrapped(a * b)
  {
    var q, r := a / WORD_LIMIT, a % WORD_LIMIT;
    var q', r' := r * b / WORD_LIMIT, r * b % WORD_LIMIT;
    calc {
      a * b;
      (q * WORD_LIMIT + r) * b;
      q * b * WORD_LIMIT + r * b;
      (q * b + q') * WORD_LIMIT + r';
    }
    DivModUnique(q * b + q', WORD_LIMIT, r');
  }

  lemma MachineSizeWraps(meta: Meta, count: nat)
    ensures MachineSize(meta, count) == Wrapped(count * BlockSize(meta))
  {
    var heads, dim, size := meta.numKvHeads * meta.blockSize, meta.headDim, meta.dtype.SizeInBytes();
    var elems := Wrapped(Wrapped(heads) * dim);
    var tensors := Wrapped(Wrapped(count * meta.numLayers) * 2);
    WrappedTimes(heads, dim);
    WrappedTimes(heads * dim, size);
    WrappedTimes(count * meta.numLayers, 2);
    WrappedTwice(count * meta.numLayers * 2, heads * dim * size);
    SameProduct(count, meta.numLayers, TensorSize(meta));
  }

  lemma WrappedTwice(a: nat, b: nat)
    ensures Wrapped(Wrapped(a) * Wrapped(b)) == Wrapped(a * b)
  {
    WrappedTimes(a, Wrapped(b));
    WrappedTimes(b, a);
    assert Wrapped(b) * a == a * Wrapped(b) && b * a == a * b;
  }

  lemma SameProduct(count: nat, layers: nat, tensor: nat)
    ensures count * layers * 2 * tensor == count * (layers * (2 * tensor))
  {
  }

  /** The machine's size check decides as the check over whole numbers does. */
  predicate ChecksAlike(meta: Meta, count: nat, len: nat) {
    len == MachineSize(meta, count) <==> len == count * BlockSize(meta)
  }

  /** The two checks agree on every payload there can be if and only if the size fits a machine word. */
  lemma SizeCheckExactly(meta: Meta, count: nat)
    ensures (forall len: nat :: len < WORD_LIMIT ==> ChecksAlike(meta, count, len)) <==>
      count * BlockSize(meta) < WORD_LIMIT
  {
    hide MachineSize, BlockSize;
    MachineSizeWraps(meta, count);
    assert MachineSize(meta, count) < WORD_LIMIT;
    assert ChecksAlike(meta, count, MachineSize(meta, count)) ==> MachineSize(meta, count) == count * BlockSize(meta);
  }
}
