/**
 What a node publishes is what another may trust: the pool keeps its shape over every run, so a
 session can always export its prefix, and the exported frame is an honest remote object.
 */
module Publish {
  import opened Basics
  import opened Network
  import opened PoolWrite
  import opened Allocator
  import opened Bundle
  import opened CacheState
  import opened Session
  import opened Contents
  import opened ImportProofs
  import opened PrefillProofs
  import opened Runs
  import opened CrossNode
  import Codec

  // ------------------------------------------------------------------ the shape of the pool

  lemma {:induction false} WriteFromOk(cfg: Config, rule: Rule, row: seq<Cell>, slots: seq<nat>, cells: seq<Cell>,
                                       i: nat)
    requires Fits(|row|, slots) && |cells| == |slots| && i <= |slots|
    requires CellsOk(cfg, row) && CellsOk(cfg, cells)
    ensures CellsOk(cfg, WriteFrom(rule, row, slots, cells, i))
    decreases |slots| - i
  {
    if i < |slots| {
      var n := RunFrom(rule, slots, i, 1);
      RunFits(rule, |row|, slots, i);
      WriteFromOk(cfg, rule, SetRun(row, slots[i], cells[i..i + n]), slots, cells, i + n);
    }
  }

  lemma WriteCurrentOk(cfg: Config, rule: Rule, c: Cache, l: nat, cells: seq<Cell>)
    requires Mapped(cfg, c) && l < cfg.numLayers && |cells| <= c.len <= cfg.maxSeqLen
    requires PoolOk(cfg, c.pool) && CellsOk(cfg, cells)
    ensures PoolOk(cfg, WriteCurrent(cfg, rule, c, l, cells).pool)
  {
    BatchFits(cfg, c, |cells|);
    WriteFromOk(cfg, rule, c.pool[l], Slots(c.blocks, c.len - |cells|, c.len), cells, 0);
  }

  lemma {:induction false} LayersFromOk(cfg: Config, net: Net, rule: Rule, c: Cache, xs: seq<Act>, indexPos: nat,
                                        l: nat)
    requires Mapped(cfg, c) && l <= cfg.numLayers && |xs| <= c.len <= cfg.maxSeqLen
    requires PoolOk(cfg, c.pool) && NetOk(cfg, net)
    ensures PoolOk(cfg, LayersFrom(cfg, net, rule, c, xs, indexPos, l).0.pool)
    decreases cfg.numLayers - l
  {
    if l < cfg.numLayers {
      var cells := Projected(net, l, indexPos, xs);
      WriteCurrentOk(cfg, rule, c, l, cells);
      var c' := WriteCurrent(cfg, rule, c, l, cells);
      LayersFromOk(cfg, net, rule, c', Attended(net, l, indexPos, xs, LiveCells(cfg, c', l)), indexPos, l + 1);
    }
  }

  lemma ForwardOk(cfg: Config, net: Net, rule: Rule, c: Cache, ids: seq<Token>, indexPos: nat)
    requires Inv(cfg, c) && PoolOk(cfg, c.pool) && NetOk(cfg, net)
    ensures PoolOk(cfg, Forward(cfg, net, rule, c, ids, indexPos).c.pool)
  {
    var grown := AllocateKv(cfg, c, |ids|);
    if grown.Done? {
      InvMapped(cfg, grown.c);
      LayersFromOk(cfg, net, rule, grown.c, Embedded(net, ids), indexPos, 0);
    }
  }

  lemma WriteBlockOk(cfg: Config, row: seq<Cell>, id: nat, lb: LayerBlock)
    requires CellsOk(cfg, row)
    ensures CellsOk(cfg, WriteBlock(cfg, row, id, lb).0)
  {
  }

  lemma {:induction false} WriteLayersOk(cfg: Config, pool: Pool, id: nat, layers: seq<LayerBlock>, l: nat)
    requires PoolOk(cfg, pool) && |layers| == cfg.numLayers && l <= |layers|
    ensures PoolOk(cfg, WriteLayers(cfg, pool, id, layers, l).0)
    decreases |layers| - l
  {
    if l < |layers| {
      WriteBlockOk(cfg, pool[l], id, layers[l]);
      var (row, ok) := WriteBlock(cfg, pool[l], id, layers[l]);
      if ok {
        WriteLayersOk(cfg, pool[l := row], id, layers, l + 1);
      }
    }
  }

  lemma {:induction false} LandFromOk(cfg: Config, c: Cache, blocks: seq<BundleBlock>, i: nat)
    requires Landed(cfg, Landing(c, c.blocks, None)) && i <= |blocks| && PoolOk(cfg, c.pool)
    ensures PoolOk(cfg, LandFrom(cfg, c, blocks, i).c.pool)
    decreases |blocks| - i
  {
    if i < |blocks| {
      LandOneOk(cfg, c, blocks[i]);
      var one := LandOne(cfg, c, blocks[i]);
      if one.stopped.None? {
        LandFromOk(cfg, one.c, blocks, i + 1);
      }
    }
  }

  lemma LandOneOk(cfg: Config, c: Cache, block: BundleBlock)
    requires Landed(cfg, Landing(c, c.blocks, None)) && PoolOk(cfg, c.pool)
    ensures PoolOk(cfg, LandOne(cfg, c, block).c.pool)
  {
    if |block.layers| == cfg.numLayers && Take(c.alloc).Some? {
      WriteLayersOk(cfg, c.pool, Take(c.alloc).value.1, block.layers, 0);
    }
  }

  lemma ImportOk(cfg: Config, c: Cache, b: KvBundle, prompt: seq<Token>)
    requires Inv(cfg, c) && PoolOk(cfg, c.pool)
    ensures PoolOk(cfg, Import(cfg, c, b, prompt).c.pool)
  {
    if Rejects(cfg, b, prompt).None? {
      LandFromOk(cfg, Reset(cfg, c), b.blocks, 0);
    }
  }

  lemma ImportRemoteOk(e: Engine, c: Cache, bytes: seq<Codec.Byte>, prompt: seq<Token>)
    requires Inv(e.cfg, c) && PoolOk(e.cfg, c.pool)
    ensures PoolOk(e.cfg, ImportRemote(e, c, bytes, prompt).c.pool)
  {
    match Codec.Decode(e.header, bytes)
    case Err(_) =>
    case Ok(b) => ImportOk(e.cfg, c, b, prompt);
  }

  lemma AcquireOk(e: Engine, c: Cache, prompt: seq<Token>, remote: Remote)
    requires Inv(e.cfg, c) && PoolOk(e.cfg, c.pool)
    ensures PoolOk(e.cfg, Acquire(e, c, prompt, remote).c.pool)
  {
    AcquiredPool(e, c, prompt, remote);
    if remote.Found? {
      ImportRemoteOk(e, TakeLocal(e.cfg, c, prompt), remote.bytes, prompt);
    }
  }

  lemma {:induction false} GenerateOk(e: Engine, c: Cache, toks: seq<Token>, pos: nat)
    requires Inv(e.cfg, c) && PoolOk(e.cfg, c.pool) && NetOk(e.cfg, e.net)
    ensures PoolOk(e.cfg, Generate(e, c, toks, pos).c.pool)
    decreases |toks|
  {
    if toks != [] {
      ForwardOk(e.cfg, e.net, e.rule, c, [toks[0]], pos);
      var f := Forward(e.cfg, e.net, e.rule, c, [toks[0]], pos);
      if f.Done? {
        GenerateOk(e, f.c, toks[1..], pos + 1);
      }
    }
  }

  lemma PrefillOk(e: Engine, c: Cache, prompt: seq<Token>, remote: Remote)
    requires Inv(e.cfg, c) && PoolOk(e.cfg, c.pool) && NetOk(e.cfg, e.net)
    ensures PoolOk(e.cfg, Prefill(e, c, prompt, remote).c.pool)
  {
    var p := Acquire(e, c, prompt, remote);
    AcquireOk(e, c, prompt, remote);
    if p.reused < |prompt| {
      ForwardOk(e.cfg, e.net, e.rule, p.c, prompt[p.reused..], p.reused);
    }
  }

  lemma AfterOk(e: Engine, c: Cache, req: Request)
    requires Inv(e.cfg, c) && (req.ClearCache? ==> Lists(req.keys, c.reg.Keys))
    requires PoolOk(e.cfg, c.pool) && NetOk(e.cfg, e.net)
    ensures PoolOk(e.cfg, After(e, c, req).pool)
  {
    if req.Serve? {
      PrefillOk(e, c, req.prompt, req.remote);
      var p := Prefill(e, c, req.prompt, req.remote);
      if p.Done? {
        GenerateOk(e, p.c, req.replies, |req.prompt|);
      }
    }
  }

  lemma {:induction false} RunKeepsPoolOk(e: Engine, c: Cache, reqs: seq<Request>)
    requires Inv(e.cfg, c) && Runnable(e, c, reqs) && PoolOk(e.cfg, c.pool) && NetOk(e.cfg, e.net)
    ensures PoolOk(e.cfg, RunOf(e, c, reqs).pool)
    decreases |reqs|
  {
    hide Inv, After, PoolOk, NetOk;
    if reqs != [] {
      AfterOk(e, c, reqs[0]);
      RunKeepsPoolOk(e, After(e, c, reqs[0]), reqs[1..]);
    }
  }

  lemma NewPoolOk(cfg: Config)
    ensures PoolOk(cfg, New(cfg).pool)
  {
    assert RowOk(cfg.dtype, cfg.kvHeads, cfg.headDim, ZeroRow(cfg));
  }

  /** The pool keeps its shape over every run from an empty cache, whatever the remote sends. */
  lemma RunPoolOk(e: Engine, reqs: seq<Request>)
    requires Runnable(e, New(e.cfg), reqs) && NetOk(e.cfg, e.net)
    ensures PoolOk(e.cfg, RunOf(e, New(e.cfg), reqs).pool)
  {
    hide Runnable, NetOk, PoolOk;
    NewPoolOk(e.cfg);
    RunKeepsPoolOk(e, New(e.cfg), reqs);
  }

  // ------------------------------------------------------------------ publishing

  /** The export and encoding of `finish`: the reusable prefix of a served prompt. */
  function Published(e: Engine, c: Cache, prompt: seq<Token>): Result<seq<Codec.Byte>, Reason>
    requires Mapped(e.cfg, c) && PoolOk(e.cfg, c.pool)
  {
    match Export(e.cfg, e.modelId, c, prompt, ReusableTokenCount(BLOCK_SIZE, |prompt|))
    case Err(why) => Err(why)
    case Ok(b) =>
      match Codec.Encode(e.header, b)
      case Err(_) => Err(BadFrame)
      case Ok(bytes) => Ok(bytes)
  }

  /** `should_store`, with the engine's two blocks at least (src/kv_cache/manager.rs:66) */
  function ShouldStore(promptTokens: nat, reusable: nat, reused: nat): bool {
    promptTokens >= 2 * BLOCK_SIZE && reusable > 0 && reused < reusable
  }

  /** `finish`: what is left for the engine to put, if anything. */
  function Finished(e: Engine, enabled: bool, c: Cache, prompt: seq<Token>, reused: nat): Option<seq<Codec.Byte>>
    requires Mapped(e.cfg, c) && PoolOk(e.cfg, c.pool)
  {
    var reusable := ReusableTokenCount(BLOCK_SIZE, |prompt|);
    if !enabled || reusable == 0 || !ShouldStore(|prompt|, reusable, reused) then None
    else
      match Published(e, c, prompt)
      case Err(_) => None
      case Ok(bytes) => Some(bytes)
  }

  /** What `finish` exports: the metadata of the reusable prefix. */
  function PublishedMeta(e: Engine, prompt: seq<Token>): Meta
  {
    var count := ReusableTokenCount(BLOCK_SIZE, |prompt|);
    ReusableWithin(|prompt|);
    Meta(e.modelId, count, prompt[..count], BLOCK_SIZE, e.cfg.numLayers, e.cfg.kvHeads, e.cfg.headDim, e.cfg.dtype)
  }

  lemma ReusableWithin(len: nat)
    ensures ReusableTokenCount(BLOCK_SIZE, len) <= len && ReusableTokenCount(BLOCK_SIZE, len) % BLOCK_SIZE == 0
  {
    if len > 0 {
      var full := (len - 1) / BLOCK_SIZE;
      assert ReusableTokenCount(BLOCK_SIZE, len) == full * 16;
    }
  }

  /** After a request that served the prompt, export and encoding go through unless there is nothing to export. */
  lemma PublishSucceedsExactly(e: Engine, c: Cache, prompt: seq<Token>)
    requires Mapped(e.cfg, c) && PoolOk(e.cfg, c.pool) && |prompt| <= c.len
    ensures Published(e, c, prompt).Ok? <==> |prompt| > BLOCK_SIZE
  {
    hide Mapped, PoolOk;
    var count := ReusableTokenCount(BLOCK_SIZE, |prompt|);
    if |prompt| > BLOCK_SIZE {
      ExportIsPortable(e.cfg, e.modelId, c, prompt, count);
      var b := Export(e.cfg, e.modelId, c, prompt, count).value;
      Codec.PortableHasNoFault(b.meta, b.blocks, 0);
    }
  }

  /**
   Publishing never fails on a request that was served: `finish` has something to put exactly when there
   is a store, the prompt has two blocks, and part of its reusable prefix was computed here.
   */
  lemma FinishPublishesExactly(e: Engine, enabled: bool, c: Cache, prompt: seq<Token>, reused: nat)
    requires Mapped(e.cfg, c) && PoolOk(e.cfg, c.pool) && |prompt| <= c.len
    ensures Finished(e, enabled, c, prompt, reused).Some? <==>
      enabled && |prompt| >= 2 * BLOCK_SIZE && reused < ReusableTokenCount(BLOCK_SIZE, |prompt|)
  {
    hide Mapped, PoolOk, Published;
    PublishSucceedsExactly(e, c, prompt);
  }

  /** Engines of one fleet: one header format, and those that share a model id share the network. */
  ghost predicate Kin(e: Engine, e': Engine) {
    e'.header == e.header && (e'.modelId == e.modelId ==> e'.net == e.net)
  }

  /**
   A frame published from a sequence that starts with the prompt, whatever was decoded after it, is an
   honest remote object for every engine with the same header format, whatever prompt it is fetched for:
   one of the same model finds the cold run's contents, any other turns it down.
   */
  lemma PublishedIsHonest(e: Engine, c: Cache, all: seq<Token>, prompt: seq<Token>, e': Engine, next: seq<Token>)
    requires Mapped(e.cfg, c) && PoolOk(e.cfg, c.pool) && Live(e.cfg, e.net, c, all) && prompt <= all
    requires Published(e, c, prompt).Ok? && Kin(e, e') && Codec.HeaderOk(e.header, PublishedMeta(e, prompt))
    ensures HonestRemote(e', next, Found(Published(e, c, prompt).value))
  {
    hide Honest, Codec.Portable, Codec.Decode, Mapped, PoolOk, Live, Rejects;
    var count := ReusableTokenCount(BLOCK_SIZE, |prompt|);
    ExportIsPortable(e.cfg, e.modelId, c, prompt, count);
    ExportIsHonest(e.cfg, e.net, e.modelId, c, all, prompt, count);
    Codec.CodecInverse(e.header, Export(e.cfg, e.modelId, c, prompt, count).value);
  }

  /**
   From a request to the next node's trust: whatever a served request reused, imported and decoded, the
   frame its session publishes is an honest remote object for every engine of the fleet.
   */
  lemma ServedPublishesHonest(e: Engine, paths: set<seq<Token>>, c: Cache, prompt: seq<Token>, remote: Remote,
                              replies: seq<Token>, e': Engine, next: seq<Token>)
    requires Ready(e, paths, c) && RequestOk(e, paths, c, prompt, remote) && PoolOk(e.cfg, c.pool) &&
      NetOk(e.cfg, e.net)
    requires Prefill(e, c, prompt, remote).Done? &&
      Generate(e, Prefill(e, c, prompt, remote).c, replies, |prompt|).Done?
    requires Kin(e, e') && Codec.HeaderOk(e.header, PublishedMeta(e, prompt))
    ensures var g := Generate(e, Prefill(e, c, prompt, remote).c, replies, |prompt|);
      && Mapped(e.cfg, g.c) && PoolOk(e.cfg, g.c.pool) && Live(e.cfg, e.net, g.c, prompt + replies)
      && (Published(e, g.c, prompt).Ok? ==> HonestRemote(e', next, Found(Published(e, g.c, prompt).value)))
  {
    hide Inv, Prefill, Generate, RequestOk, Published, HonestRemote, PoolOk, NetOk, Codec.HeaderOk;
    var p := Prefill(e, c, prompt, remote);
    PrefillTransparent(e, paths, c, prompt, remote);
    GenerateExact(e, paths, p.c, prompt, replies);
    PrefillOk(e, c, prompt, remote);
    GenerateOk(e, p.c, replies, |prompt|);
    var g := Generate(e, p.c, replies, |prompt|);
    if Published(e, g.c, prompt).Ok? {
      PublishedIsHonest(e, g.c, prompt + replies, prompt, e', next);
    }
  }
}
