/**
 `KvBundleCodec` with its loops (src/kv_cache/bundle.rs): `Encode` appends to a growing buffer and
 `Decode` walks an offset through the payload; both compute exactly the functions of Codec.
 */
module FrameCodec {
  import opened Basics
  import opened Bundle
  import opened Codec

  // ------------------------------------------------------------------ encoding

  lemma LayersFrontier(meta: Meta, layers: seq<LayerBlock>, l: nat, done: seq<Byte>)
    requires l < |layers|
    ensures LayersFault(meta, layers[l..]).None? ==>
      layers[l].k.dtype == layers[l].v.dtype == meta.dtype && LayersFault(meta, layers[l + 1..]).None?
    ensures layers[l].k.dtype == layers[l].v.dtype == meta.dtype ==>
      LayersFault(meta, layers[l..]) == LayersFault(meta, layers[l + 1..])
    ensures !(layers[l].k.dtype == layers[l].v.dtype == meta.dtype) ==> LayersFault(meta, layers[l..]) == Some(BadDType)
    ensures done + LayersBytes(layers[l..]) ==
      done + TensorBytes(layers[l].k) + TensorBytes(layers[l].v) + LayersBytes(layers[l + 1..])
  {
    assert layers[l..][0] == layers[l] && layers[l..][1..] == layers[l + 1..];
    assert LayersBytes(layers[l..]) ==
      TensorBytes(layers[l].k) + TensorBytes(layers[l].v) + LayersBytes(layers[l + 1..]);
  }

  /** The inner loop of `encode`: the tensors of one block, up to the first of the wrong dtype. */
  method EncodeLayers(meta: Meta, layers: seq<LayerBlock>, out: seq<Byte>) returns (r: Result<seq<Byte>, Reason>)
    ensures match LayersFault(meta, layers)
      case Some(why) => r == Err(why)
      case None => r == Ok(out + LayersBytes(layers))
  {
    var buffer := out;
    var l := 0;
    assert layers[0..] == layers;
    while l < |layers|
      invariant 0 <= l <= |layers|
      invariant LayersFault(meta, layers[l..]) == LayersFault(meta, layers)
      invariant buffer + LayersBytes(layers[l..]) == out + LayersBytes(layers)
    {
      LayersFrontier(meta, layers, l, buffer);
      if layers[l].k.dtype != meta.dtype {
        return Err(BadDType);
      }
      buffer := buffer + TensorBytes(layers[l].k);
      if layers[l].v.dtype != meta.dtype {
        return Err(BadDType);
      }
      buffer := buffer + TensorBytes(layers[l].v);
      l := l + 1;
    }
    assert layers[l..] == [] && buffer + [] == buffer;
    r := Ok(buffer);
  }

  lemma BlocksFrontier(meta: Meta, blocks: seq<BundleBlock>, b: nat, done: seq<Byte>)
    requires b < |blocks|
    ensures |blocks[b].layers| != meta.numLayers ==> BlocksFault(meta, blocks[b..]) == Some(BadLayerCount)
    ensures |blocks[b].layers| == meta.numLayers ==>
      BlocksFault(meta, blocks[b..]) ==
        if LayersFault(meta, blocks[b].layers).Some? then LayersFault(meta, blocks[b].layers)
          else BlocksFault(meta, blocks[b + 1..])
    ensures done + BlocksBytes(blocks[b..]) == done + LayersBytes(blocks[b].layers) + BlocksBytes(blocks[b + 1..])
  {
    assert blocks[b..][0] == blocks[b] && blocks[b..][1..] == blocks[b + 1..];
    assert BlocksBytes(blocks[b..]) == LayersBytes(blocks[b].layers) + BlocksBytes(blocks[b + 1..]);
  }

  method Encode(h: Header, b: KvBundle) returns (r: Result<seq<Byte>, Reason>)
    ensures r == Codec.Encode(h, b)
  {
    hide LayersFault, LayersBytes, LeBytes;
    var meta := b.meta;
    if meta.blockSize == 0 || meta.tokenCount % meta.blockSize != 0 {
      return Err(Unaligned);
    }
    if |b.blocks| != meta.tokenCount / meta.blockSize {
      return Err(BadBlockCount);
    }
    var header := h.to(meta);
    var out := MAGIC;
    out := out + LeBytes(VERSION, 2);
    out := out + LeBytes(|header|, 4);
    out := out + header;
    ghost var front := out;
    var i := 0;
    assert b.blocks[0..] == b.blocks;
    while i < |b.blocks|
      invariant 0 <= i <= |b.blocks|
      invariant BlocksFault(meta, b.blocks[i..]) == BlocksFault(meta, b.blocks)
      invariant out + BlocksBytes(b.blocks[i..]) == front + BlocksBytes(b.blocks)
    {
      BlocksFrontier(meta, b.blocks, i, out);
      if |b.blocks[i].layers| != meta.numLayers {
        return Err(BadLayerCount);
      }
      var encoded := EncodeLayers(meta, b.blocks[i].layers, out);
      if encoded.Err? {
        return encoded;
      }
      out := encoded.value;
      i := i + 1;
    }
    assert b.blocks[i..] == [] && out + [] == out;
    r := Ok(out);
  }

  // ------------------------------------------------------------------ decoding

  lemma SplitFront(bs: seq<Byte>, off: nat, end: nat, n: nat)
    requires off + n <= end <= |bs|
    ensures bs[off..end][..n] == bs[off..off + n] && bs[off..end][n..] == bs[off + n..end]
  {
  }

  lemma LayersStep(meta: Meta, bs: seq<Byte>, off: nat, end: nat, count: nat, done: seq<LayerBlock>)
    requires off <= end <= |bs| && end - off == count * LayerSize(meta) && count > 0
    ensures off + LayerSize(meta) <= end && end - (off + LayerSize(meta)) == (count - 1) * LayerSize(meta)
    ensures done + LayersFrom(meta, bs[off..end], count) ==
      done + [LayerFrom(meta, bs[off..off + LayerSize(meta)])] + LayersFrom(meta, bs[off + LayerSize(meta)..end],
        count - 1)
  {
    CutOne(end - off, count, LayerSize(meta));
    SplitFront(bs, off, end, LayerSize(meta));
  }

  /** The inner loop of `decode`: the layers of one block, the offset advancing tensor by tensor. */
  method DecodeLayers(meta: Meta, payload: seq<Byte>, start: nat) returns (layers: seq<LayerBlock>, off: nat)
    requires start + BlockSize(meta) <= |payload|
    ensures off == start + BlockSize(meta)
    ensures layers == LayersFrom(meta, payload[start..start + BlockSize(meta)], meta.numLayers)
  {
    hide LayersFrom, TensorFrom;
    var size := TensorSize(meta);
    ghost var end := start + BlockSize(meta);
    layers, off := [], start;
    var l := 0;
    while l < meta.numLayers
      invariant 0 <= l <= meta.numLayers && start <= off <= end && end - off == (meta.numLayers - l) * LayerSize(meta)
      invariant layers + LayersFrom(meta, payload[off..end], meta.numLayers - l) ==
        LayersFrom(meta, payload[start..end], meta.numLayers)
    {
      LayersStep(meta, payload, off, end, meta.numLayers - l, layers);
      SplitFront(payload, off, off + LayerSize(meta), size);
      var k := TensorFrom(meta, payload[off..off + size]);
      off := off + size;
      var v := TensorFrom(meta, payload[off..off + size]);
      off := off + size;
      layers := layers + [LayerBlock(k, v)];
      l := l + 1;
    }
    NoLayers(meta, payload[off..end]);
    assert layers + [] == layers;
  }

  lemma NoLayers(meta: Meta, bs: seq<Byte>)
    requires |bs| == 0 * LayerSize(meta)
    ensures LayersFrom(meta, bs, 0) == []
  {
  }

  lemma BlocksStep(meta: Meta, bs: seq<Byte>, off: nat, count: nat, b: nat, done: seq<BundleBlock>)
    requires off <= |bs| && |bs| - off == count * BlockSize(meta) && count > 0
    ensures off + BlockSize(meta) <= |bs| && |bs| - (off + BlockSize(meta)) == (count - 1) * BlockSize(meta)
    ensures done + BlocksFrom(meta, bs[off..], count, b) ==
      done + [BundleBlock(b, LayersFrom(meta, bs[off..off + BlockSize(meta)], meta.numLayers))]
           + BlocksFrom(meta, bs[off + BlockSize(meta)..], count - 1, b + 1)
  {
    hide LayersFrom, BlockSize;
    CutOne(|bs| - off, count, BlockSize(meta));
    SplitFront(bs, off, |bs|, BlockSize(meta));
    assert bs[off..] == bs[off..|bs|] && bs[off + BlockSize(meta)..] == bs[off + BlockSize(meta)..|bs|];
  }

  /** The outer loop of `decode`; the offset ends exactly at the end of the payload. */
  method DecodeBlocks(meta: Meta, payload: seq<Byte>, count: nat) returns (blocks: seq<BundleBlock>, off: nat)
    requires |payload| == count * BlockSize(meta)
    ensures blocks == BlocksFrom(meta, payload, count, 0) && off == |payload|
  {
    hide BlocksFrom, LayersFrom;
    blocks, off := [], 0;
    var b := 0;
    assert payload[0..] == payload && [] + BlocksFrom(meta, payload, count, 0) == BlocksFrom(meta, payload, count, 0);
    while b < count
      invariant 0 <= b <= count && off <= |payload| && |payload| - off == (count - b) * BlockSize(meta)
      invariant blocks + BlocksFrom(meta, payload[off..], count - b, b) == BlocksFrom(meta, payload, count, 0)
    {
      BlocksStep(meta, payload, off, count - b, b, blocks);
      var layers: seq<LayerBlock>;
      layers, off := DecodeLayers(meta, payload, off);
      blocks := blocks + [BundleBlock(b, layers)];
      b := b + 1;
    }
    NoBlocks(meta, payload[off..], b);
    assert blocks + [] == blocks;
  }

  lemma NoBlocks(meta: Meta, bs: seq<Byte>, b: nat)
    requires |bs| == 0 * BlockSize(meta)
    ensures BlocksFrom(meta, bs, 0, b) == []
  {
  }

  method Decode(h: Header, bs: seq<Byte>) returns (r: Result<KvBundle, Reason>)
    ensures r == Codec.Decode(h, bs)
  {
    hide BlocksFrom;
    if |bs| < PREFIX {
      return Err(TooShort);
    }
    if bs[..4] != MAGIC {
      return Err(BadMagic);
    }
    if LeValue(bs[4..6]) != VERSION {
      return Err(BadVersion);
    }
    var headerEnd := PREFIX + LeValue(bs[6..10]);
    if |bs| < headerEnd {
      return Err(Truncated);
    }
    var parsed := h.from(bs[PREFIX..headerEnd]);
    if parsed.None? {
      return Err(BadHeader);
    }
    var meta := parsed.value;
    if meta.blockSize == 0 {
      return Err(Unaligned);
    }
    if meta.tokenCount == 0 || meta.tokenCount % meta.blockSize != 0 {
      return Err(Unaligned);
    }
    if |meta.tokenIds| != meta.tokenCount {
      return Err(BadTokenCount);
    }
    var count := meta.tokenCount / meta.blockSize;
    var payload := bs[headerEnd..];
    if |payload| != count * BlockSize(meta) {
      return Err(BadPayload);
    }
    var blocks, _ := DecodeBlocks(meta, payload, count);
    r := Ok(KvBundle(meta, blocks));
  }
}
