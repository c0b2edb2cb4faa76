/**
 Where the code falls short of what it is for: families of runs on which the write loop as written corrupts
 the cache, an honest frame from the store fails a request that succeeds without it, and a bundle whose
 tensors are shorter than a block overwrites a registered one.
 */
module Divergence {
  import opened Basics
  import opened Network
  import opened PoolWrite
  import opened Allocator
  import opened Bundle
  import opened CacheState
  import opened Session
  import opened Contents
  import opened ImportProofs
  import opened Runs
  import opened Reuse
  import opened ImportReach
  import opened Outcomes
  import opened PrefillProofs
  import opened Transparency
  import opened WriteExact
  import Codec
  import CrossNode
  import Publish

  // ------------------------------------------------------------------ a short request on a fresh cache

  /** No block of the table is spare: it ends in the block of the last live position. */
  predicate Snug(blocks: nat, len: nat) {
    blocks == 0 || (blocks - 1) * BLOCK_SIZE < len
  }

  /** A cache that has served one short prompt: nothing registered, blocks in allocation order. */
  ghost predicate Short(cfg: Config, c: Cache) {
    Inv(cfg, c) && Linear(cfg, c) && c.reg == map[] && Snug(|c.blocks|, c.len)
  }

  /** The blocks cover the context window. */
  lemma BlocksCover(cfg: Config, n: nat)
    requires n <= cfg.maxSeqLen
    ensures n <= cfg.NumBlocks() * BLOCK_SIZE
  {
  }

  lemma GrowStaysShort(cfg: Config, c: Cache, end: nat)
    requires Inv(cfg, c) && Linear(cfg, c) && c.len <= end <= cfg.maxSeqLen && Snug(|c.blocks|, c.len)
    ensures var r := GrowTo(cfg, c, end);
      r.Done? && Linear(cfg, r.c) && Snug(|r.c.blocks|, end)
  {
    GrowLinear(cfg, c, end);
    BlocksCover(cfg, end);
  }

  lemma AllocateIsGrow(cfg: Config, c: Cache, n: nat)
    requires Inv(cfg, c) && c.len + n <= cfg.maxSeqLen && GrowTo(cfg, c, c.len + n).Done?
    ensures var g, r := GrowTo(cfg, c, c.len + n), AllocateKv(cfg, c, n);
      r.Done? && r.c.blocks == g.c.blocks && r.c.alloc == g.c.alloc
  {
    hide GrowTo, Balanced;
  }

  lemma AllocateStaysShort(cfg: Config, c: Cache, n: nat)
    requires Short(cfg, c) && c.len + n <= cfg.maxSeqLen
    ensures AllocateKv(cfg, c, n).Done?
    ensures Short(cfg, AllocateKv(cfg, c, n).c)
  {
    hide GrowTo, AllocateKv, Balanced;
    GrowStaysShort(cfg, c, c.len + n);
    AllocateIsGrow(cfg, c, n);
    var g, r := GrowTo(cfg, c, c.len + n).c, AllocateKv(cfg, c, n).c;
    assert r.blocks == g.blocks && r.alloc.free == g.alloc.free;
  }

  lemma ForwardStaysShort(cfg: Config, net: Net, rule: Rule, c: Cache, ids: seq<Token>)
    requires Short(cfg, c) && c.len + |ids| <= cfg.maxSeqLen
    ensures var r := Forward(cfg, net, rule, c, ids, c.len);
      r.Done? && Short(cfg, r.c) && r.c.len == c.len + |ids|
  {
    AllocateStaysShort(cfg, c, |ids|);
    InvMapped(cfg, AllocateKv(cfg, c, |ids|).c);
  }

  lemma {:induction false} GenerateStaysShort(e: Engine, c: Cache, toks: seq<Token>)
    requires Short(e.cfg, c) && c.len + |toks| <= e.cfg.maxSeqLen
    ensures Short(e.cfg, Generate(e, c, toks, c.len).c)
    ensures Generate(e, c, toks, c.len).c.len == c.len + |toks|
    decreases |toks|
  {
    hide Forward, Inv, Linear;
    if toks != [] {
      ForwardStaysShort(e.cfg, e.net, e.rule, c, [toks[0]]);
      GenerateStaysShort(e, Forward(e.cfg, e.net, e.rule, c, [toks[0]], c.len).c, toks[1..]);
    }
  }

  lemma FromZero(toks: seq<Token>)
    ensures toks[0..] == toks
  {
  }

  lemma NewShort(cfg: Config)
    ensures Short(cfg, New(cfg))
  {
    NewLinear(cfg);
  }

  /** A prompt shorter than a block registers nothing. */
  lemma ShortPrefill(e: Engine, prompt: seq<Token>)
    requires 0 < |prompt| < BLOCK_SIZE && |prompt| <= e.cfg.maxSeqLen
    ensures var r := Prefill(e, New(e.cfg), prompt, Disabled);
      r.Done? && Short(e.cfg, r.c) && r.c.len == |prompt|
  {
    NewShort(e.cfg);
    ColdAcquire(e, prompt);
    FromZero(prompt);
    ForwardStaysShort(e.cfg, e.net, e.rule, New(e.cfg), prompt);
  }

  /** So nothing is registered however much is generated after it. */
  lemma ShortRequest(e: Engine, prompt: seq<Token>, replies: seq<Token>)
    requires 0 < |prompt| < BLOCK_SIZE && |prompt| + |replies| <= e.cfg.maxSeqLen
    ensures var c := After(e, New(e.cfg), Serve(prompt, Disabled, replies));
      Short(e.cfg, c) && c.len == |prompt| + |replies|
  {
    ShortPrefill(e, prompt);
    GenerateStaysShort(e, Prefill(e, New(e.cfg), prompt, Disabled).c, replies);
  }

  // ------------------------------------------------------------------ the reset turns the free list round

  /** Three blocks, all held once by the sequence: the table is 0, 1, 2 and nothing is free. */
  lemma ThreeHeld(cfg: Config, c: Cache)
    requires Short(cfg, c) && cfg.maxSeqLen == 48 && 32 < c.len
    ensures c.blocks == [0, 1, 2] && c.alloc.free == [] && c.alloc.refs == [1, 1, 1]
  {
    assert cfg.NumBlocks() == 3;
    assert |c.blocks| == 3;
    assert c.blocks == [0, 1, 2];
    assert forall b :: Holders(c.reg, b) == {};
    assert forall b :: 0 <= b < 3 ==> c.alloc.refs[b] == References(multiset([0, 1, 2]), c.reg, b);
  }

  /** Letting go of a block nobody else holds frees it. */
  lemma DropLast(a: Alloc, b: nat, more: seq<nat>, reg: Registry) returns (next: Alloc)
    requires Balanced(a, multiset{} + multiset([b] + more), reg) && b < |a.refs| && a.refs[b] == 1
    ensures next.refs == a.refs[b := 0] && next.free == a.free + [b] && Balanced(next, multiset{} + multiset(more), reg)
    ensures DropAll(a, [b] + more, multiset{}, reg) == DropAll(next, more, multiset{}, reg)
  {
    hide Balanced, DropAll;
    var ids := [b] + more;
    assert ids[0] == b && ids[1..] == more;
    DropStep(a, ids, multiset{}, reg);
    next := Decref(a, b);
  }

  lemma DropNone(a: Alloc, reg: Registry)
    requires Balanced(a, multiset{} + multiset([]), reg)
    ensures DropAll(a, [], multiset{}, reg) == a
  {
  }

  /** `reset_sequence` frees them in table order. */
  lemma DropThree(a: Alloc, reg: Registry)
    requires a.refs == [1, 1, 1] && a.free == [] && Balanced(a, multiset{} + multiset([0, 1, 2]), reg)
    ensures DropAll(a, [0, 1, 2], multiset{}, reg).free == [0, 1, 2]
  {
    hide Balanced, Decref, DropAll;
    assert [0] + [1, 2] == [0, 1, 2] && [1] + [2] == [1, 2] && [2] + [] == [2];
    var one := DropLast(a, 0, [1, 2], reg);
    var two := DropLast(one, 1, [2], reg);
    var three := DropLast(two, 2, [], reg);
    DropNone(three, reg);
  }

  lemma ResetThree(cfg: Config, c: Cache)
    requires Short(cfg, c) && cfg.maxSeqLen == 48 && 32 < c.len
    ensures Reset(cfg, c).alloc.free == [0, 1, 2]
  {
    ThreeHeld(cfg, c);
    assert multiset{} + multiset([0, 1, 2]) == multiset(c.blocks);
    DropThree(c.alloc, c.reg);
  }

  lemma GrowOne(cfg: Config, c: Cache, end: nat) returns (next: Cache)
    requires Inv(cfg, c) && c.alloc.free != [] && |c.blocks| * BLOCK_SIZE < end
    ensures Inv(cfg, next) && GrowTo(cfg, c, end) == GrowTo(cfg, next, end)
    ensures next.alloc.free == c.alloc.free[..|c.alloc.free| - 1]
    ensures next.blocks == c.blocks + [c.alloc.free[|c.alloc.free| - 1]]
  {
    GrowStep(cfg, c, end);
    var (a, id) := Take(c.alloc).value;
    next := c.(alloc := a, blocks := c.blocks + [id]);
  }

  /** So the next sequence gets them back to front. */
  lemma GrowBackwards(cfg: Config, c: Cache)
    requires Inv(cfg, c) && c.blocks == [] && c.alloc.free == [0, 1, 2]
    ensures GrowTo(cfg, c, 40).Done? && GrowTo(cfg, c, 40).c.blocks == [2, 1, 0]
  {
    hide Inv;
    var one := GrowOne(cfg, c, 40);
    assert one.blocks == [2] && one.alloc.free == [0, 1];
    var two := GrowOne(cfg, one, 40);
    assert two.blocks == [2, 1] && two.alloc.free == [0];
    var three := GrowOne(cfg, two, 40);
    assert three.blocks == [2, 1, 0];
  }

  /** Over the table 2, 1, 0 the run that starts at token 16 swallows token 32, whose place is slot 0. */
  lemma RunSwallows(row: seq<Cell>, slots: seq<nat>, cells: seq<Cell>)
    requires Fits(|row|, slots) && |cells| == |slots| == 40
    requires forall i :: 0 <= i < 40 ==> slots[i] == Slot([2, 1, 0], i)
    ensures WriteFrom(AsWritten, row, slots, cells, 0)[32] == cells[32]
    ensures !Coalescible(slots)
  {
    assert slots[16] == 16 && slots[32] == 0;
    AsWrittenRest(row, slots, cells, 0, 16);
  }

  lemma WriteSwallows(cfg: Config, c: Cache, cells: seq<Cell>)
    requires Mapped(cfg, c) && cfg.numLayers > 0 && c.blocks == [2, 1, 0] && c.len == |cells| == 40 <= cfg.maxSeqLen
    ensures |c.pool[0]| > 32 && WriteCurrent(cfg, AsWritten, c, 0, cells).pool[0][32] == cells[32]
  {
    hide WriteFrom;
    BatchFits(cfg, c, 40);
    var slots := Slots(c.blocks, 0, 40);
    assert slots[0] == 32;
    RunSwallows(c.pool[0], slots, cells);
  }

  lemma FirstLayerSwallows(cfg: Config, net: Net, c: Cache, toks: seq<Token>)
    requires Mapped(cfg, c) && cfg.numLayers > 0 && c.blocks == [2, 1, 0] && c.len == |toks| == 40 <= cfg.maxSeqLen
    ensures var r := LayersFrom(cfg, net, AsWritten, c, Embedded(net, toks), 0, 0).0;
      CellAt(cfg, r, 0, 0) == KvAt(net, toks, 0, 32)
  {
    hide WriteCurrent, LayersFrom;
    FirstLayer(cfg, net, AsWritten, c, Embedded(net, toks), 0);
    WriteSwallows(cfg, c, Projected(net, 0, 0, Embedded(net, toks)));
    assert Slot([2, 1, 0], 0) == 32;
  }

  lemma ForwardSwallows(cfg: Config, net: Net, c: Cache, toks: seq<Token>)
    requires Inv(cfg, c) && c.blocks == [] && c.len == 0 && c.alloc.free == [0, 1, 2]
    requires cfg.maxSeqLen == 48 && cfg.numLayers > 0 && |toks| == 40
    ensures var r := Forward(cfg, net, AsWritten, c, toks, 0);
      r.Done? && Mapped(cfg, r.c) && CellAt(cfg, r.c, 0, 0) == KvAt(net, toks, 0, 32)
  {
    hide LayersFrom, CellAt, Balanced;
    GrowBackwards(cfg, c);
    AllocateIsGrow(cfg, c, 40);
    var grown := AllocateKv(cfg, c, 40);
    InvMapped(cfg, grown.c);
    FirstLayerSwallows(cfg, net, grown.c, toks);
  }

  /** An empty registry matches nothing. */
  lemma NothingToMatch(cfg: Config, c: Cache, toks: seq<Token>)
    requires Inv(cfg, c) && c.reg == map[]
    ensures TakeLocal(cfg, c, toks) == Reset(cfg, c)
  {
    hide Balanced;
    if MatchCap(|toks|) > 0 {
      assert Lookup(cfg, c.reg, toks, 0).None?;
    }
  }

  lemma AcquireEmpty(e: Engine, c: Cache, prompt: seq<Token>)
    requires Inv(e.cfg, c) && c.reg == map[]
    ensures Acquire(e, c, prompt, Disabled) == Plan(Reset(e.cfg, c), 0, None, 0, None)
  {
    hide Inv, Match, DropAll;
    NothingToMatch(e.cfg, c, prompt);
  }

  /**
   A run on which the cache as written goes wrong. On a cache of three blocks, a prompt shorter than
   a block whose answer reaches into the third block leaves nothing registered; the reset frees
   blocks 0, 1, 2 in that order, the next prompt gets them back to front, and its batch write puts
   the keys and values of token 32 where attention will read those of token 0.
   */
  lemma LoopAsWrittenCorrupts(e: Engine, prompt: seq<Token>, replies: seq<Token>, next: seq<Token>)
    requires e.rule.AsWritten? && e.cfg.maxSeqLen == 48 && e.cfg.numLayers > 0
    requires 0 < |prompt| < BLOCK_SIZE && 32 < |prompt| + |replies| <= 48 && |next| == 40
    ensures var r := Prefill(e, After(e, New(e.cfg), Serve(prompt, Disabled, replies)), next, Disabled);
      && r.Done? && Mapped(e.cfg, r.c) && CellAt(e.cfg, r.c, 0, 0) == KvAt(e.net, next, 0, 32)
      && (KvAt(e.net, next, 0, 32) != KvAt(e.net, next, 0, 0) ==> !Live(e.cfg, e.net, r.c, next))
  {
    hide Short, Forward, After, Reset, CellAt;
    var c := After(e, New(e.cfg), Serve(prompt, Disabled, replies));
    ShortRequest(e, prompt, replies);
    ResetThree(e.cfg, c);
    AcquireEmpty(e, c, next);
    FromZero(next);
    ForwardSwallows(e.cfg, e.net, Reset(e.cfg, c), next);
    RegisteredCell(e.cfg, Forward(e.cfg, e.net, e.rule, Reset(e.cfg, c), next, 0).c, next);
    var r := Prefill(e, c, next, Disabled);
    if Live(e.cfg, e.net, r.c, next) {
      assert HoldsUpTo(e.cfg, e.net, r.c, next, 0, |next|);
    }
  }

  lemma RegisteredCell(cfg: Config, c: Cache, toks: seq<Token>)
    requires Inv(cfg, c) && Mapped(cfg, c) && 0 < |toks| <= c.len && cfg.numLayers > 0
    ensures var r := Register(cfg, c, toks); Mapped(cfg, r) && CellAt(cfg, r, 0, 0) == CellAt(cfg, c, 0, 0)
  {
    hide Balanced, RegisterFrom;
    InvMapped(cfg, Register(cfg, c, toks));
  }

  // ------------------------------------------------------------------ one block served

  /** A cache that has served one prompt of exactly one block: it holds block 0 and registers it. */
  ghost predicate OneBlock(cfg: Config, c: Cache, prompt: seq<Token>)
    requires |prompt| == BLOCK_SIZE
  {
    && Inv(cfg, c) && c.blocks == [0] && c.alloc.refs != [] && c.alloc.refs[0] == 2
    && c.alloc.free != [] && c.alloc.free[|c.alloc.free| - 1] == 1 && |c.alloc.free| == cfg.NumBlocks() - 1
    && c.reg == map[HashAt(cfg, prompt, 1) := Entry(Chunk(prompt, 0), 0)]
  }

  lemma ShortIsFirst(cfg: Config, c: Cache)
    requires Short(cfg, c) && c.len == BLOCK_SIZE && cfg.maxSeqLen >= 2 * BLOCK_SIZE
    ensures c.blocks == [0] && c.alloc.refs != [] && c.alloc.refs[0] == 1
    ensures c.alloc.free != [] && c.alloc.free[|c.alloc.free| - 1] == 1 && |c.alloc.free| == cfg.NumBlocks() - 1
  {
    assert |c.blocks| == 1;
    assert c.blocks == [0];
    assert Holders(c.reg, 0) == {};
    assert c.alloc.refs[0] == References(multiset([0]), c.reg, 0);
  }

  lemma RegistersFirst(cfg: Config, c: Cache, prompt: seq<Token>)
    requires Short(cfg, c) && c.len == |prompt| == BLOCK_SIZE && cfg.maxSeqLen >= 2 * BLOCK_SIZE
    ensures OneBlock(cfg, Register(cfg, c, prompt), prompt)
  {
    hide Balanced;
    ShortIsFirst(cfg, c);
    RegisterStep(cfg, c, prompt, 0);
    RegisterStep(cfg, RegisterOne(cfg, c, prompt, 0), prompt, 1);
  }

  lemma OneBlockServed(e: Engine, prompt: seq<Token>)
    requires |prompt| == BLOCK_SIZE && e.cfg.maxSeqLen >= 2 * BLOCK_SIZE
    ensures OneBlock(e.cfg, After(e, New(e.cfg), Serve(prompt, Disabled, [])), prompt)
  {
    hide Short, OneBlock, Register, Forward, New;
    NewShort(e.cfg);
    NewEmpty(e.cfg);
    ColdAcquire(e, prompt);
    FromZero(prompt);
    ForwardStaysShort(e.cfg, e.net, e.rule, New(e.cfg), prompt);
    RegistersFirst(e.cfg, Forward(e.cfg, e.net, e.rule, New(e.cfg), prompt, 0).c, prompt);
  }

  lemma NewEmpty(cfg: Config)
    ensures New(cfg).len == 0 && New(cfg).blocks == []
  {
  }

  /** The reset gives up the table's reference, and the next free block is block 1. */
  lemma OneBlockReset(cfg: Config, c: Cache, prompt: seq<Token>)
    requires |prompt| == BLOCK_SIZE && OneBlock(cfg, c, prompt)
    ensures Reset(cfg, c).alloc.free == c.alloc.free
  {
    assert multiset{} + multiset([0]) == multiset(c.blocks);
    DropStep(c.alloc, [0], multiset{}, c.reg);
    assert [0][1..] == [];
  }

  // ------------------------------------------------------------------ an honest frame that costs a request

  /** A prompt as long as the window whose first block is `first` and whose second is another. */
  predicate Follows(cfg: Config, first: seq<Token>, next: seq<Token>) {
    && |first| == BLOCK_SIZE && |next| == cfg.maxSeqLen && |next| >= 3 * BLOCK_SIZE && |next| % BLOCK_SIZE == 0
    && next[..BLOCK_SIZE] == first && Chunk(next, 1) != first
  }

  /** Of such a prompt exactly the first block is found. */
  lemma OneBlockMatches(cfg: Config, c: Cache, first: seq<Token>, next: seq<Token>)
    requires Follows(cfg, first, next) && OneBlock(cfg, c, first)
    ensures |TakeLocal(cfg, c, next).blocks| == 1 && TakeLocal(cfg, c, next).len == BLOCK_SIZE
    ensures |Reset(cfg, c).alloc.free| * BLOCK_SIZE == |next| - BLOCK_SIZE
  {
    hide Balanced, Reset, MatchFrom;
    OneBlockReset(cfg, c, first);
    assert Chunk(next, 0) == first == Chunk(first, 0);
    assert first[..BLOCK_SIZE] == next[..BLOCK_SIZE];
    HashOfPrefix(cfg, first, next, 1);
    assert Lookup(cfg, c.reg, next, 0).Some?;
    assert Lookup(cfg, c.reg, next, 1).None?;
  }

  lemma FollowsReusable(cfg: Config, first: seq<Token>, next: seq<Token>)
    requires Follows(cfg, first, next)
    ensures ReusableTokenCount(BLOCK_SIZE, |next|) == |next| - BLOCK_SIZE
  {
    CapFormulasAgree(BLOCK_SIZE, |next|);
    var full := |next| / BLOCK_SIZE;
    assert ReusableBlocks(BLOCK_SIZE, |next|) == full - 1;
  }

  /** A cold prefill leaves the whole prompt live, even with the write loop as written. */
  lemma ColdLive(e: Engine, prompt: seq<Token>)
    requires prompt != [] && |prompt| <= e.cfg.maxSeqLen && CrossNode.NetOk(e.cfg, e.net)
    ensures var r := Prefill(e, New(e.cfg), prompt, Disabled);
      r.Done? && Mapped(e.cfg, r.c) && CrossNode.PoolOk(e.cfg, r.c.pool) && Live(e.cfg, e.net, r.c, prompt)
  {
    hide Forward, Register, Inv, CrossNode.PoolOk, New;
    var c := New(e.cfg);
    NewShort(e.cfg);
    NewEmpty(e.cfg);
    ColdAcquire(e, prompt);
    FromZero(prompt);
    ForwardStaysShort(e.cfg, e.net, e.rule, c, prompt);
    FreshBatch(e.cfg, |prompt|);
    InvMapped(e.cfg, c);
    ForwardExact(e.cfg, e.net, e.rule, c, [], prompt);
    assert [] + prompt == prompt;
    Publish.NewPoolOk(e.cfg);
    Publish.PrefillOk(e, c, prompt, Disabled);
    var f := Forward(e.cfg, e.net, e.rule, c, prompt, 0).c;
    InvMapped(e.cfg, Register(e.cfg, f, prompt));
    LiveElsewhere(e.cfg, e.net, f, Register(e.cfg, f, prompt), prompt);
  }

  /** What a served request publishes decodes to its export and is accepted for the same prompt. */
  lemma PublishedIsTaken(e: Engine, from: Cache, c: Cache, prompt: seq<Token>)
    requires Mapped(e.cfg, from) && CrossNode.PoolOk(e.cfg, from.pool) && |prompt| <= from.len && |prompt| > BLOCK_SIZE
    requires Codec.HeaderOk(e.header, Publish.PublishedMeta(e, prompt)) && Inv(e.cfg, c)
    requires TakeLocal(e.cfg, c, prompt).len < ReusableTokenCount(BLOCK_SIZE, |prompt|)
    requires ReusableTokenCount(BLOCK_SIZE, |prompt|) <= |Reset(e.cfg, c).alloc.free| * BLOCK_SIZE
    ensures Publish.Published(e, from, prompt).Ok? &&
      Takes(e, c, prompt, Found(Publish.Published(e, from, prompt).value))
    ensures Codec.Decode(e.header, Publish.Published(e, from, prompt).value).value.meta.tokenCount ==
      ReusableTokenCount(BLOCK_SIZE, |prompt|)
  {
    hide Mapped, CrossNode.PoolOk, Codec.Portable, Codec.Decode, Codec.Encode, Rejects, TakeLocal, Reset, Inv;
    var count := ReusableTokenCount(BLOCK_SIZE, |prompt|);
    Publish.ReusableWithin(|prompt|);
    Publish.PublishSucceedsExactly(e, from, prompt);
    CrossNode.ExportIsPortable(e.cfg, e.modelId, from, prompt, count);
    Codec.CodecInverse(e.header, CrossNode.Export(e.cfg, e.modelId, from, prompt, count).value);
    CrossNode.ExportIsAccepted(e.cfg, e.modelId, from, prompt, count, e.cfg, prompt);
  }

  /**
   A request that fails because the store answers, and answers honestly. An engine has served a prompt of one
   block; the next prompt fills the window and starts with it. Alone the engine shares the block and succeeds.
   But an engine of the same configuration has published the prompt's reusable prefix: taking that frame gives
   up the shared block, fills every free one, and leaves none for the suffix.
   */
  lemma HonestFrameCostsRequest(e: Engine, first: seq<Token>, next: seq<Token>)
    requires Follows(e.cfg, first, next) && CrossNode.NetOk(e.cfg, e.net)
    requires Codec.HeaderOk(e.header, Publish.PublishedMeta(e, next))
    ensures var c, from := After(e, New(e.cfg), Serve(first, Disabled, [])), Prefill(e, New(e.cfg), next, Disabled).c;
      && Mapped(e.cfg, from) && CrossNode.PoolOk(e.cfg, from.pool) && Live(e.cfg, e.net, from, next)
      && Publish.Published(e, from, next).Ok?
      && var remote := Found(Publish.Published(e, from, next).value);
         && HonestRemote(e, next, remote) && Prefill(e, c, next, Disabled).Done? && Prefill(e, c, next, remote).Failed?
  {
    hide After, New, Prefill, OneBlock, Reset, TakeLocal, Rejects, Codec.Decode, Inv, Mapped, CrossNode.PoolOk, Live,
      Publish.Published, HonestRemote, CrossNode.NetOk, Codec.HeaderOk;
    var c, from := After(e, New(e.cfg), Serve(first, Disabled, [])), Prefill(e, New(e.cfg), next, Disabled).c;
    OneBlockServed(e, first);
    OneBlockMatches(e.cfg, c, first, next);
    FollowsReusable(e.cfg, first, next);
    ColdLive(e, next);
    PublishedIsTaken(e, from, c, next);
    Publish.PublishedIsHonest(e, from, next, next, e, next);
    PrefillSucceedsExactly(e, c, next, Disabled);
    StoreCostsExactly(e, c, next, Found(Publish.Published(e, from, next).value));
  }

  // ------------------------------------------------------------------ tensors of the wrong size

  /** Layers that all go through put the first layer's cells into its range. */
  lemma FirstLayerLands(cfg: Config, pool: Pool, id: nat, layers: seq<LayerBlock>, s: nat)
    requires Shaped(cfg, pool) && |layers| == cfg.numLayers > 0 && LayersGo(cfg, id, layers, 0)
    requires InRange(id, layers[0].k.n, s) && s < cfg.NumSlots()
    ensures WriteLayers(cfg, pool, id, layers, 0).1
    ensures WriteLayers(cfg, pool, id, layers, 0).0[0][s] == LandedCell(layers[0], s - id * layers[0].k.n)
  {
    WriteLayersReach(cfg, pool, pool, id, layers, 0, 0, s);
    var (row, ok) := WriteBlock(cfg, pool[0], id, layers[0]);
    assert Goes(cfg, id, layers[0]);
    LaterLayersStay(cfg, pool[0 := row], id, layers, 1, 0, s);
  }

  lemma {:induction false} LaterLayersStay(cfg: Config, pool: Pool, id: nat, layers: seq<LayerBlock>, l: nat, m: nat,
                                           s: nat)
    requires Shaped(cfg, pool) && m < l <= |layers| == cfg.numLayers && s < cfg.NumSlots()
    ensures WriteLayers(cfg, pool, id, layers, l).0[m] == pool[m]
    decreases |layers| - l
  {
    hide WriteBlock;
    if l < |layers| {
      var (row, ok) := WriteBlock(cfg, pool[l], id, layers[l]);
      if ok {
        LaterLayersStay(cfg, pool[l := row], id, layers, l + 1, m, s);
      }
    }
  }

  /** A half-size tensor written as block 1 lands on the second half of block 0. */
  lemma HalfBlockLandsOne(e: Engine, c: Cache, block: BundleBlock, s: nat)
    requires Landed(e.cfg, Landing(c, c.blocks, None)) && e.cfg.numLayers > 0 && e.cfg.maxSeqLen >= 2 * BLOCK_SIZE
    requires c.alloc.free != [] && c.alloc.free[|c.alloc.free| - 1] == 1 && InRange(1, 8, s)
    requires var lb := LayerBlock(BlankTensor(e.cfg, 8), BlankTensor(e.cfg, 8));
      |block.layers| == e.cfg.numLayers && forall l :: 0 <= l < |block.layers| ==> block.layers[l] == lb
    ensures var r := LandOne(e.cfg, c, block);
      r.stopped.None? && r.c.pool[0][s] == Cell(ZeroRow(e.cfg), ZeroRow(e.cfg))
  {
    hide Balanced, WriteLayers, BlankTensor;
    TakeStep(e.cfg, c);
    FirstLayerLands(e.cfg, c.pool, 1, block.layers, s);
    BlankCell(e.cfg, s - 8);
  }

  lemma HalfBlockLands(e: Engine, c: Cache, prompt: seq<Token>, s: nat)
    requires |prompt| == BLOCK_SIZE && OneBlock(e.cfg, c, prompt) && e.cfg.numLayers > 0
    requires e.cfg.maxSeqLen >= 2 * BLOCK_SIZE && InRange(1, 8, s)
    ensures var r := LandFrom(e.cfg, Reset(e.cfg, c), BlankBundle(e, prompt, 8).blocks, 0);
      r.stopped.None? && r.c.pool[0][s] == Cell(ZeroRow(e.cfg), ZeroRow(e.cfg))
  {
    hide Counted, Reset, BlankTensor, LandOne, LandFrom;
    var blocks, empty := BlankBundle(e, prompt, 8).blocks, Reset(e.cfg, c);
    OneBlockReset(e.cfg, c, prompt);
    EmptyIsLanded(e.cfg, empty);
    LandStep(e.cfg, empty, blocks, 0);
    HalfBlockLandsOne(e, empty, blocks[0], s);
    LandStep(e.cfg, LandOne(e.cfg, empty, blocks[0]).c, blocks, 1);
  }

  lemma BlankCell(cfg: Config, o: nat)
    requires o < 8
    ensures LandedCell(LayerBlock(BlankTensor(cfg, 8), BlankTensor(cfg, 8)), o) == Cell(ZeroRow(cfg), ZeroRow(cfg))
  {
    var rows := seq(8, _ => ZeroRow(cfg));
    BlankRows(cfg, rows);
    RowOfTensorOf(cfg.dtype, cfg.kvHeads, cfg.headDim, rows, o);
  }

  predicate ZeroedAt(cfg: Config, pool: Pool, l: nat, s: nat) {
    l < |pool| && s < |pool[l]| && pool[l][s] == Cell(ZeroRow(cfg), ZeroRow(cfg))
  }

  /**
   An accepted import that overwrites a registered block. A cache serves a prompt of one block, which
   registers block 0; importing a bundle for the same tokens whose tensors have half a block's slots then
   succeeds, and leaves zeros in the second half of the registered block.
   */
  lemma HalfSizedImportOverwrites(e: Engine, prompt: seq<Token>, s: nat)
    requires |prompt| == BLOCK_SIZE && e.cfg.numLayers > 0 && e.cfg.maxSeqLen >= 2 * BLOCK_SIZE && InRange(1, 8, s)
    ensures var c := After(e, New(e.cfg), Serve(prompt, Disabled, []));
      var r := Import(e.cfg, c, BlankBundle(e, prompt, 8), prompt);
      && HashAt(e.cfg, prompt, 1) in c.reg && InBlock(c.reg[HashAt(e.cfg, prompt, 1)].id, s)
      && r.Done? && ZeroedAt(e.cfg, r.c.pool, 0, s)
  {
    hide After, New, Balanced, Reset, LandFrom, RegisterFrom, Rejects, BlankTensor;
    var c := After(e, New(e.cfg), Serve(prompt, Disabled, []));
    OneBlockServed(e, prompt);
    OneBlockReset(e.cfg, c, prompt);
    BlankIsAccepted(e, prompt, 8);
    HalfBlockLands(e, c, prompt, s);
  }
}
