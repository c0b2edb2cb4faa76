/** When a prefill succeeds and when it fails, told from what it is called with. */
module Outcomes {
  import opened Basics
  import opened Network
  import opened Allocator
  import opened Bundle
  import opened CacheState
  import opened Session
  import opened ImportProofs
  import opened CrossNode
  import opened Reuse
  import Codec
  import Publish

  // ------------------------------------------------------------------ what an import will do

  /** The free blocks of a reset depend on the registry alone. */
  lemma ResetFree(cfg: Config, c: Cache, c': Cache)
    requires Inv(cfg, c) && Inv(cfg, c') && c.reg == c'.reg
    ensures |Reset(cfg, c).alloc.free| == |Reset(cfg, c').alloc.free|
  {
    hide Reset;
    var r, r' := Reset(cfg, c), Reset(cfg, c');
    assert multiset(r.blocks) == multiset{} == multiset(r'.blocks);
    SameCounts(r.alloc, r'.alloc, c.reg);
    ListsLength(r.alloc.free, Unreferenced(r.alloc));
    ListsLength(r'.alloc.free, Unreferenced(r'.alloc));
  }

  /**
   The remote object is one this engine takes: the local match falls short of the reusable prefix, and the
   object is valid and fits the free blocks. It may hold fewer tokens than were matched.
   */
  ghost predicate Takes(e: Engine, c: Cache, prompt: seq<Token>, remote: Remote)
    requires Inv(e.cfg, c)
  {
    && remote.Found? && TakeLocal(e.cfg, c, prompt).len < ReusableTokenCount(BLOCK_SIZE, |prompt|)
    && Codec.Decode(e.header, remote.bytes).Ok?
    && var b := Codec.Decode(e.header, remote.bytes).value;
       && b.meta.modelId == e.modelId && Rejects(e.cfg, b, prompt).None?
       && |b.blocks| <= |Reset(e.cfg, c).alloc.free|
  }

  lemma ImportRemoteExactly(e: Engine, c: Cache, prompt: seq<Token>, bytes: seq<Codec.Byte>)
    requires Inv(e.cfg, c)
    ensures ImportRemote(e, c, bytes, prompt).Done? <==>
      && Codec.Decode(e.header, bytes).Ok?
      && var b := Codec.Decode(e.header, bytes).value;
         b.meta.modelId == e.modelId && Rejects(e.cfg, b, prompt).None? && |b.blocks| <= |Reset(e.cfg, c).alloc.free|
    ensures ImportRemote(e, c, bytes, prompt).Done? ==>
      ImportRemote(e, c, bytes, prompt).value == Codec.Decode(e.header, bytes).value.meta.tokenCount
  {
    hide Inv, Import, Rejects, Codec.Decode, Reset;
    if Codec.Decode(e.header, bytes).Ok? {
      Codec.DecodedIsPortable(e.header, bytes);
      ImportSucceedsExactly(e.cfg, c, Codec.Decode(e.header, bytes).value, prompt);
    }
  }

  /** A prefix is imported exactly when the engine takes the object, and then all of it. */
  lemma AcquiresExactly(e: Engine, c: Cache, prompt: seq<Token>, remote: Remote)
    requires Inv(e.cfg, c)
    ensures Acquire(e, c, prompt, remote).imported > 0 <==> Takes(e, c, prompt, remote)
    ensures Takes(e, c, prompt, remote) ==>
      && Acquire(e, c, prompt, remote).imported == Codec.Decode(e.header, remote.bytes).value.meta.tokenCount
      && Acquire(e, c, prompt, remote).c == ImportRemote(e, TakeLocal(e.cfg, c, prompt), remote.bytes, prompt).c
      && Acquire(e, c, prompt, remote).hit == Some(true) && Acquire(e, c, prompt, remote).error == None
  {
    hide Balanced, ImportRemote, TakeLocal, Rejects, Codec.Decode, Reset;
    if remote.Found? {
      var local := TakeLocal(e.cfg, c, prompt);
      ImportRemoteExactly(e, local, prompt, remote.bytes);
      ResetFree(e.cfg, c, local);
    }
  }

  // ------------------------------------------------------------------ the whole prompt

  /** The engine takes an object that covers the whole prompt. */
  ghost predicate Covered(e: Engine, c: Cache, prompt: seq<Token>, remote: Remote)
    requires Inv(e.cfg, c)
  {
    Takes(e, c, prompt, remote) && Codec.Decode(e.header, remote.bytes).value.meta.tokenCount == |prompt|
  }

  /**
   The first of two holes in the fallback of `prefill`. A nonempty prompt fails for want of a suffix if and
   only if the engine takes an object that covers all of the prompt; the session then records a hit and no
   error.
   */
  lemma WholePromptAborts(e: Engine, c: Cache, prompt: seq<Token>, remote: Remote)
    requires Inv(e.cfg, c) && prompt != []
    ensures var r := Prefill(e, c, prompt, remote);
      r.Failed? && r.why == EmptySuffix <==> Covered(e, c, prompt, remote)
    ensures Covered(e, c, prompt, remote) ==>
      Acquire(e, c, prompt, remote).hit == Some(true) && Acquire(e, c, prompt, remote).error == None
  {
    hide Inv, Acquire, Takes, Forward, Codec.Decode;
    AcquiresExactly(e, c, prompt, remote);
    var p := Acquire(e, c, prompt, remote);
    if p.reused < |prompt| {
      ForwardReasons(e, p.c, prompt[p.reused..], p.reused);
    }
  }

  lemma ForwardReasons(e: Engine, c: Cache, ids: seq<Token>, indexPos: nat)
    requires Inv(e.cfg, c)
    ensures Forward(e.cfg, e.net, e.rule, c, ids, indexPos).Failed? ==>
      Forward(e.cfg, e.net, e.rule, c, ids, indexPos).why != EmptySuffix
  {
    hide Inv, GrowTo, LayersFrom;
  }

  // ------------------------------------------------------------------ when a prefill succeeds

  /** The blocks the sequence has when the suffix is allocated: what was matched, unless an import replaced it. */
  ghost function Matched(e: Engine, c: Cache, prompt: seq<Token>, remote: Remote): nat
    requires Inv(e.cfg, c)
  {
    if Takes(e, c, prompt, remote) then 0 else |TakeLocal(e.cfg, c, prompt).blocks|
  }

  lemma LocalRoom(cfg: Config, c: Cache, c': Cache, prompt: seq<Token>)
    requires Inv(cfg, c) && Inv(cfg, c') && c'.reg == c.reg
    ensures var local := TakeLocal(cfg, c', prompt);
      && |local.blocks| == |TakeLocal(cfg, c, prompt).blocks|
      && |local.alloc.free| == |Reset(cfg, c).alloc.free|
  {
    hide Balanced, Reset, MatchFrom;
    ResetFree(cfg, c, c');
    MatchMonotone(cfg, Reset(cfg, c), Reset(cfg, c'), prompt);
    MatchMonotone(cfg, Reset(cfg, c'), Reset(cfg, c), prompt);
  }

  /** An import takes its blocks from the free ones and no others. */
  lemma ImportRoom(cfg: Config, c: Cache, b: KvBundle, prompt: seq<Token>)
    requires Inv(cfg, c) && Import(cfg, c, b, prompt).Done?
    ensures var r := Import(cfg, c, b, prompt).c;
      |r.blocks| + |r.alloc.free| == |Reset(cfg, c).alloc.free|
  {
    hide Balanced, Reset, LandFrom, RegisterFrom;
  }

  lemma FailedImportKeepsRegistry(e: Engine, c: Cache, prompt: seq<Token>, bytes: seq<Codec.Byte>)
    requires Inv(e.cfg, c)
    ensures ImportRemote(e, c, bytes, prompt).Failed? ==> ImportRemote(e, c, bytes, prompt).c.reg == c.reg
    ensures ImportRemote(e, c, bytes, prompt).Done? ==>
      var r := ImportRemote(e, c, bytes, prompt).c;
      |r.blocks| + |r.alloc.free| == |Reset(e.cfg, c).alloc.free|
  {
    hide Inv, Import, Reset;
    match Codec.Decode(e.header, bytes)
    case Err(_) =>
    case Ok(b) =>
      if b.meta.modelId == e.modelId && Import(e.cfg, c, b, prompt).Done? {
        ImportRoom(e.cfg, c, b, prompt);
      }
  }

  /** The blocks there are for a suffix, from the inputs. */
  lemma AcquiredRoom(e: Engine, c: Cache, prompt: seq<Token>, remote: Remote)
    requires Inv(e.cfg, c)
    ensures var p := Acquire(e, c, prompt, remote);
      |p.c.blocks| + |p.c.alloc.free| == Matched(e, c, prompt, remote) + |Reset(e.cfg, c).alloc.free|
  {
    hide Inv, ImportRemote, TakeLocal, Takes, Reset;
    LocalRoom(e.cfg, c, c, prompt);
    AcquiresExactly(e, c, prompt, remote);
    if remote.Found? {
      var local := TakeLocal(e.cfg, c, prompt);
      var left := ImportRemote(e, local, remote.bytes, prompt);
      FailedImportKeepsRegistry(e, local, prompt, remote.bytes);
      ResetFree(e.cfg, c, local);
      if left.Failed? {
        LocalRoom(e.cfg, c, left.c, prompt);
      }
    }
  }

  /**
   A prefill succeeds exactly when the prompt is not empty, fits the context window, is not covered by
   the object the store answers with, and the blocks matched and free cover it.
   */
  lemma PrefillSucceedsExactly(e: Engine, c: Cache, prompt: seq<Token>, remote: Remote)
    requires Inv(e.cfg, c)
    ensures Prefill(e, c, prompt, remote).Done? <==>
      && prompt != [] && |prompt| <= e.cfg.maxSeqLen && !Covered(e, c, prompt, remote)
      && |prompt| <= (Matched(e, c, prompt, remote) + |Reset(e.cfg, c).alloc.free|) * BLOCK_SIZE
  {
    hide Inv, Acquire, Takes, Codec.Decode, Reset, Matched, GrowTo, LayersFrom;
    AcquiresExactly(e, c, prompt, remote);
    AcquiredRoom(e, c, prompt, remote);
    var p := Acquire(e, c, prompt, remote);
    if p.reused < |prompt| {
      var ids := prompt[p.reused..];
      assert AllocateKv(e.cfg, p.c, |ids|).Done? <==> Forward(e.cfg, e.net, e.rule, p.c, ids, p.reused).Done?;
    }
  }

  /**
   Where the store costs a request: the engine takes an object that leaves no suffix to run, or one for
   which it gives up the blocks it shares with the registry while the free ones alone do not hold the prompt.
   */
  ghost predicate Costs(e: Engine, c: Cache, prompt: seq<Token>, remote: Remote)
    requires Inv(e.cfg, c)
  {
    && Takes(e, c, prompt, remote)
    && (|| Codec.Decode(e.header, remote.bytes).value.meta.tokenCount == |prompt|
        || |Reset(e.cfg, c).alloc.free| * BLOCK_SIZE < |prompt|)
  }

  /**
   Whether the outcome depends on the store. It never makes a prefill succeed that would fail without it,
   and it makes one fail that would succeed without it in exactly the two cases of `Costs`.
   */
  lemma StoreCostsExactly(e: Engine, c: Cache, prompt: seq<Token>, remote: Remote)
    requires Inv(e.cfg, c)
    ensures Prefill(e, c, prompt, remote).Done? <==>
      Prefill(e, c, prompt, Disabled).Done? && !Costs(e, c, prompt, remote)
  {
    hide Inv, Prefill, Codec.Decode, Reset, TakeLocal, Rejects;
    PrefillSucceedsExactly(e, c, prompt, remote);
    PrefillSucceedsExactly(e, c, prompt, Disabled);
  }

  // ------------------------------------------------------------------ when a request is served to its end

  /** Blocks the sequence has or can get. */
  function Room(c: Cache): nat {
    |c.blocks| + |c.alloc.free|
  }

  lemma {:induction false} GrowOutcome(cfg: Config, c: Cache, end: nat)
    requires Inv(cfg, c)
    ensures Room(GrowTo(cfg, c, end).c) == Room(c)
    ensures GrowTo(cfg, c, end).Failed? ==> GrowTo(cfg, c, end).c.alloc.free == []
    decreases end - |c.blocks| * BLOCK_SIZE
  {
    hide Shaped, TailOwned, References;
    TakeStep(cfg, c);
    GrowStep(cfg, c, end);
    if |c.blocks| * BLOCK_SIZE < end && Take(c.alloc).Some? {
      GrowOutcome(cfg, c.(alloc := Take(c.alloc).value.0, blocks := c.blocks + [Take(c.alloc).value.1]), end);
    }
  }

  /** Allocation moves blocks from the free list to the table and loses none; for want of blocks it takes them all. */
  lemma AllocateOutcome(cfg: Config, c: Cache, n: nat)
    requires Inv(cfg, c)
    ensures var r := AllocateKv(cfg, c, n);
      && Room(r.c) == Room(c)
      && (r.Failed? && c.len + n <= cfg.maxSeqLen ==> r.c.alloc.free == [] && |r.c.blocks| == Room(c))
  {
    hide Inv, GrowTo;
    if c.len + n <= cfg.maxSeqLen {
      GrowOutcome(cfg, c, c.len + n);
    }
  }

  lemma ForwardRoom(e: Engine, c: Cache, ids: seq<Token>)
    requires Inv(e.cfg, c)
    ensures var r := Forward(e.cfg, e.net, e.rule, c, ids, c.len);
      && (r.Done? <==> c.len + |ids| <= e.cfg.maxSeqLen && c.len + |ids| <= Room(c) * BLOCK_SIZE)
      && Room(r.c) == Room(c)
  {
    hide Inv, AllocateKv, LayersFrom, Room;
    AllocateOutcome(e.cfg, c, |ids|);
    RoomIs(c);
    RoomSame(Forward(e.cfg, e.net, e.rule, c, ids, c.len).c, AllocateKv(e.cfg, c, |ids|).c);
  }

  lemma RoomIs(c: Cache)
    ensures Room(c) == |c.blocks| + |c.alloc.free|
  {
  }

  lemma RoomSame(c: Cache, c': Cache)
    ensures c.blocks == c'.blocks && c.alloc == c'.alloc ==> Room(c) == Room(c')
  {
  }

  /** Decoding from the live length goes through exactly when the window and the blocks hold all the tokens. */
  lemma {:induction false} GenerateSucceedsExactly(e: Engine, c: Cache, toks: seq<Token>)
    requires Inv(e.cfg, c) && c.len <= e.cfg.maxSeqLen && c.len <= Room(c) * BLOCK_SIZE
    ensures Generate(e, c, toks, c.len).Done? <==>
      c.len + |toks| <= e.cfg.maxSeqLen && c.len + |toks| <= Room(c) * BLOCK_SIZE
    decreases |toks|
  {
    hide Inv, Forward, Room;
    if toks != [] {
      ForwardRoom(e, c, [toks[0]]);
      var f := Forward(e.cfg, e.net, e.rule, c, [toks[0]], c.len);
      if f.Done? {
        GenerateSucceedsExactly(e, f.c, toks[1..]);
      }
    }
  }

  lemma PrefilledRoom(e: Engine, c: Cache, prompt: seq<Token>, remote: Remote)
    requires Inv(e.cfg, c) && Prefill(e, c, prompt, remote).Done?
    ensures Room(Prefill(e, c, prompt, remote).c) == Matched(e, c, prompt, remote) + |Reset(e.cfg, c).alloc.free|
  {
    hide Inv, Acquire, Forward, RegisterFrom, Matched, Reset;
    var p := Acquire(e, c, prompt, remote);
    AcquiredRoom(e, c, prompt, remote);
    ForwardRoom(e, p.c, prompt[p.reused..]);
  }

  /**
   A request is served to its last token, told from the inputs, exactly when the prompt is not empty and not
   covered by the object the store answers with, and the window and the blocks matched and free hold prompt and
   replies.
   */
  lemma RequestSucceedsExactly(e: Engine, c: Cache, prompt: seq<Token>, remote: Remote, replies: seq<Token>)
    requires Inv(e.cfg, c)
    ensures
      && Prefill(e, c, prompt, remote).Done?
      && Generate(e, Prefill(e, c, prompt, remote).c, replies, |prompt|).Done? <==>
      && prompt != [] && |prompt| + |replies| <= e.cfg.maxSeqLen && !Covered(e, c, prompt, remote)
      && |prompt| + |replies| <= (Matched(e, c, prompt, remote) + |Reset(e.cfg, c).alloc.free|) * BLOCK_SIZE
  {
    hide Inv, Prefill, Generate, Covered, Matched, Reset, Room;
    PrefillSucceedsExactly(e, c, prompt, remote);
    if Prefill(e, c, prompt, remote).Done? {
      PrefilledRoom(e, c, prompt, remote);
      GenerateSucceedsExactly(e, Prefill(e, c, prompt, remote).c, replies);
    }
  }

  // ------------------------------------------------------------------ what a served session reports

  /** How many tokens are reused, from the inputs: those of an object that is taken, else the local match. */
  ghost function Reused(e: Engine, c: Cache, prompt: seq<Token>, remote: Remote): nat
    requires Inv(e.cfg, c)
  {
    if Takes(e, c, prompt, remote) then Codec.Decode(e.header, remote.bytes).value.meta.tokenCount
    else TakeLocal(e.cfg, c, prompt).len
  }

  lemma LocalLength(cfg: Config, c: Cache, c': Cache, prompt: seq<Token>)
    requires Inv(cfg, c) && Inv(cfg, c') && c'.reg == c.reg
    ensures TakeLocal(cfg, c', prompt).len == TakeLocal(cfg, c, prompt).len
  {
    hide Balanced, Reset, MatchFrom;
    MatchMonotone(cfg, Reset(cfg, c), Reset(cfg, c'), prompt);
    MatchMonotone(cfg, Reset(cfg, c'), Reset(cfg, c), prompt);
  }

  /**
   What a session reports of its prefix, from the inputs: the tokens reused and imported, a hit where the store
   had an object that was of use or not needed, and an error where the store failed or its object was not taken.
   */
  lemma AcquireReports(e: Engine, c: Cache, prompt: seq<Token>, remote: Remote)
    requires Inv(e.cfg, c)
    ensures var p, enough := Acquire(e, c, prompt, remote),
              TakeLocal(e.cfg, c, prompt).len >= ReusableTokenCount(BLOCK_SIZE, |prompt|);
      && p.reused == Reused(e, c, prompt, remote)
      && p.imported == (if Takes(e, c, prompt, remote) then p.reused else 0)
      && (p.hit.None? <==> remote.Disabled? || |prompt| <= BLOCK_SIZE)
      && (p.hit == Some(true) <==> |prompt| > BLOCK_SIZE && remote.Found? && (enough || Takes(e, c, prompt, remote)))
      && (p.error.Some? <==>
            |prompt| > BLOCK_SIZE && (remote.GetFailed? || (remote.Found? && !enough && !Takes(e, c, prompt, remote))))
  {
    hide Inv, ImportRemote, TakeLocal, Takes, ReusableTokenCount, Codec.Decode;
    AcquiresExactly(e, c, prompt, remote);
    NothingReusable(|prompt|);
    NotTaken(e, c, prompt, remote);
    if remote.Found? {
      var local := TakeLocal(e.cfg, c, prompt);
      var left := ImportRemote(e, local, remote.bytes, prompt);
      FailedImportKeepsRegistry(e, local, prompt, remote.bytes);
      if left.Failed? {
        LocalLength(e.cfg, c, left.c, prompt);
      }
    }
  }

  lemma NothingReusable(len: nat)
    ensures ReusableTokenCount(BLOCK_SIZE, len) == 0 <==> len <= BLOCK_SIZE
  {
    CapFormulasAgree(BLOCK_SIZE, len);
    if len > BLOCK_SIZE {
      assert ReusableBlocks(BLOCK_SIZE, len) > 0;
    }
  }

  /** Only an object found is taken, and only while the local match falls short. */
  lemma NotTaken(e: Engine, c: Cache, prompt: seq<Token>, remote: Remote)
    requires Inv(e.cfg, c)
    ensures Takes(e, c, prompt, remote) ==>
      remote.Found? && TakeLocal(e.cfg, c, prompt).len < ReusableTokenCount(BLOCK_SIZE, |prompt|)
  {
  }

  /** A prefill that succeeds reports the tokens it reused, and computes logits for all others. */
  lemma PrefillReports(e: Engine, c: Cache, prompt: seq<Token>, remote: Remote)
    requires Inv(e.cfg, c) && Prefill(e, c, prompt, remote).Done?
    ensures var r := Prefill(e, c, prompt, remote).value;
      && r.plan.reused == Reused(e, c, prompt, remote) && r.plan.reused + |r.logits| == |prompt|
      && r.plan.hit == Acquire(e, c, prompt, remote).hit && r.plan.error == Acquire(e, c, prompt, remote).error
      && r.plan.imported == Acquire(e, c, prompt, remote).imported
  {
    hide Inv, Acquire, Forward, Register, Reused;
    AcquireReports(e, c, prompt, remote);
  }

  /**
   What a served session publishes, from the inputs: something exactly when there is a store, the prompt has two
   blocks, and neither the local match nor an object taken from the store already held its reusable prefix.
   */
  lemma ServedPublishesExactly(e: Engine, c: Cache, prompt: seq<Token>, remote: Remote, replies: seq<Token>)
    requires Inv(e.cfg, c) && PoolOk(e.cfg, c.pool) && NetOk(e.cfg, e.net)
    requires Prefill(e, c, prompt, remote).Done? &&
      Generate(e, Prefill(e, c, prompt, remote).c, replies, |prompt|).Done?
    ensures var p := Prefill(e, c, prompt, remote);
      var left := Generate(e, p.c, replies, |prompt|).c;
      && Mapped(e.cfg, left) && PoolOk(e.cfg, left.pool)
      && (Publish.Finished(e, !remote.Disabled?, left, prompt, p.value.plan.reused).Some? <==>
            && !remote.Disabled? && |prompt| >= 2 * BLOCK_SIZE
            && Reused(e, c, prompt, remote) < ReusableTokenCount(BLOCK_SIZE, |prompt|))
  {
    hide Inv, Mapped, PoolOk, NetOk, Prefill, Generate, Publish.Finished, Reused, ReusableTokenCount;
    var p := Prefill(e, c, prompt, remote);
    var left := Generate(e, p.c, replies, |prompt|).c;
    Publish.PrefillOk(e, c, prompt, remote);
    Publish.GenerateOk(e, p.c, replies, |prompt|);
    InvMapped(e.cfg, left);
    PrefillReports(e, c, prompt, remote);
    Publish.FinishPublishesExactly(e, !remote.Disabled?, left, prompt, p.value.plan.reused);
  }

  // ------------------------------------------------------------------ a prompt that aborts

  /** A tensor of `n` zero slots in the cache's shape. */
  function BlankTensor(cfg: Config, n: nat): (t: Tensor)
    ensures t.dtype == cfg.dtype && t.heads == cfg.kvHeads && t.n == n && t.dim == cfg.headDim
  {
    var rows := seq(n, _ => ZeroRow(cfg));
    BlankRows(cfg, rows);
    TensorOf(cfg.dtype, cfg.kvHeads, cfg.headDim, rows)
  }

  lemma BlankRows(cfg: Config, rows: seq<Row>)
    requires forall s :: 0 <= s < |rows| ==> rows[s] == ZeroRow(cfg)
    ensures RowsOk(cfg.dtype, cfg.kvHeads, cfg.headDim, rows)
  {
    assert RowOk(cfg.dtype, cfg.kvHeads, cfg.headDim, ZeroRow(cfg));
  }

  function BlankMeta(e: Engine, prompt: seq<Token>): Meta {
    Meta(e.modelId, |prompt|, prompt, BLOCK_SIZE, e.cfg.numLayers, e.cfg.kvHeads, e.cfg.headDim, e.cfg.dtype)
  }

  /** A bundle for the whole prompt, its tensors of `n` zero slots each. */
  function BlankBundle(e: Engine, prompt: seq<Token>, n: nat): KvBundle {
    var lb := LayerBlock(BlankTensor(e.cfg, n), BlankTensor(e.cfg, n));
    KvBundle(BlankMeta(e, prompt),
             seq(|prompt| / BLOCK_SIZE, i requires 0 <= i => BundleBlock(i, seq(e.cfg.numLayers, _ => lb))))
  }

  lemma BlankIsAccepted(e: Engine, prompt: seq<Token>, n: nat)
    requires prompt != [] && |prompt| % BLOCK_SIZE == 0
    ensures Rejects(e.cfg, BlankBundle(e, prompt, n), prompt).None?
  {
    hide BlankTensor;
    assert prompt[..|prompt|] == prompt;
  }

  lemma BlankIsPortable(e: Engine, prompt: seq<Token>)
    requires prompt != [] && |prompt| % BLOCK_SIZE == 0
    ensures Codec.Portable(BlankBundle(e, prompt, BLOCK_SIZE))
  {
    hide BlankTensor;
    var b := BlankBundle(e, prompt, BLOCK_SIZE);
    forall i | 0 <= i < |b.blocks|
      ensures Codec.BlockFits(b.meta, b.blocks[i], i)
    {
    }
  }

  /** On a new cache, every block-aligned prompt of two blocks or more meets an object that aborts it. */
  lemma WholePromptIsReachable(e: Engine, prompt: seq<Token>) returns (bytes: seq<Codec.Byte>)
    requires |prompt| >= 2 * BLOCK_SIZE && |prompt| % BLOCK_SIZE == 0 && |prompt| <= e.cfg.maxSeqLen
    requires Codec.HeaderOk(e.header, BlankMeta(e, prompt))
    ensures var r := Prefill(e, New(e.cfg), prompt, Found(bytes)); r.Failed? && r.why == EmptySuffix
  {
    hide Prefill, BlankTensor, Codec.Decode, Codec.Encode, Codec.Portable, Rejects, New;
    var b := BlankBundle(e, prompt, BLOCK_SIZE);
    BlankIsPortable(e, prompt);
    BlankIsAccepted(e, prompt, BLOCK_SIZE);
    Codec.CodecInverse(e.header, b);
    bytes := Codec.Encode(e.header, b).value;
    NewHasRoom(e.cfg, prompt);
    WholePromptAborts(e, New(e.cfg), prompt, Found(bytes));
  }

  lemma NewHasRoom(cfg: Config, prompt: seq<Token>)
    requires |prompt| >= 2 * BLOCK_SIZE && |prompt| <= cfg.maxSeqLen
    ensures |prompt| / BLOCK_SIZE <= |Reset(cfg, New(cfg)).alloc.free|
    ensures TakeLocal(cfg, New(cfg), prompt).len < ReusableTokenCount(BLOCK_SIZE, |prompt|)
  {
    var c := New(cfg);
    assert Reset(cfg, c) == c;
    assert Lookup(cfg, c.reg, prompt, 0).None?;
  }
}
