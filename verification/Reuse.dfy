/** How much a request reuses, when a prefill succeeds, and what it has in common with a cold run. */
module Reuse {
  import opened Basics
  import opened Network
  import opened Allocator
  import opened Bundle
  import opened CacheState
  import opened Session
  import opened Contents
  import opened Transparency
  import opened PrefillProofs
  import opened Runs

  // ------------------------------------------------------------------ the cap

  lemma CapAt(blockSize: nat, len: nat, q: nat, r: nat)
    requires r < blockSize && len == q * blockSize + r + 1
    ensures ReusableTokenCount(blockSize, len) == q * blockSize && ReusableBlocks(blockSize, len) == q
  {
    DivModUnique(q, blockSize, r);
    if r + 1 < blockSize {
      DivModUnique(q, blockSize, r + 1);
      assert len / blockSize == q && len % blockSize == r + 1;
    } else {
      DivModUnique(q + 1, blockSize, 0);
      assert (q + 1) * blockSize + 0 == len;
      assert len / blockSize == q + 1 && len % blockSize == 0;
    }
  }

  lemma EmptyPromptCap(blockSize: nat)
    requires blockSize > 0
    ensures ReusableTokenCount(blockSize, 0) == 0 && ReusableBlocks(blockSize, 0) == 0
  {
    DivModUnique(0, blockSize, 0);
  }

  /**
   The two formulas for the reusable prefix agree for every block size and length, and give the
   largest multiple of the block size strictly below a nonempty prompt's length.
   */
  lemma CapFormulasAgree(blockSize: nat, len: nat)
    requires blockSize > 0
    ensures var n := ReusableTokenCount(blockSize, len);
      && n == ReusableBlocks(blockSize, len) * blockSize
      && (len > 0 ==> n < len <= n + blockSize)
      && (len == 0 ==> n == 0)
  {
    hide ReusableTokenCount, ReusableBlocks;
    if len > 0 {
      CapAt(blockSize, len, (len - 1) / blockSize, (len - 1) % blockSize);
    } else {
      EmptyPromptCap(blockSize);
    }
  }

  // ------------------------------------------------------------------ the longest match

  /** The first `n` blocks of `toks` are all registered. */
  ghost predicate ChainRegistered(cfg: Config, reg: Registry, toks: seq<Token>, n: nat)
    requires n * BLOCK_SIZE <= |toks|
  {
    forall b :: 0 <= b < n ==> Lookup(cfg, reg, toks, b).Some?
  }

  /** A match takes the longest registered chain within the cap. */
  lemma MatchIsLongest(cfg: Config, c: Cache, toks: seq<Token>)
    requires Counted(cfg, c) && c.blocks == [] && c.len == 0
    ensures var n := |Match(cfg, c, toks).blocks|;
      && n <= MatchCap(|toks|) && ChainRegistered(cfg, c.reg, toks, n)
      && forall m :: n < m <= MatchCap(|toks|) ==> !ChainRegistered(cfg, c.reg, toks, m)
  {
    var n := |Match(cfg, c, toks).blocks|;
    forall m | n < m <= MatchCap(|toks|)
      ensures !ChainRegistered(cfg, c.reg, toks, m)
    {
      assert Lookup(cfg, c.reg, toks, n).None?;
    }
  }

  /** More entries never mean less reuse. */
  lemma MatchMonotone(cfg: Config, c: Cache, c': Cache, toks: seq<Token>)
    requires Counted(cfg, c) && c.blocks == [] && c.len == 0
    requires Counted(cfg, c') && c'.blocks == [] && c'.len == 0
    requires Submap(c.reg, c'.reg)
    ensures Match(cfg, c, toks).len <= Match(cfg, c', toks).len
  {
    MatchIsLongest(cfg, c', toks);
    var n := |Match(cfg, c, toks).blocks|;
    forall b | 0 <= b < n
      ensures Lookup(cfg, c'.reg, toks, b).Some?
    {
      assert Lookup(cfg, c.reg, toks, b).Some?;
    }
    assert ChainRegistered(cfg, c'.reg, toks, n);
  }

  ghost predicate OnlyServes(reqs: seq<Request>) {
    forall i :: 0 <= i < |reqs| ==> reqs[i].Serve?
  }

  lemma ServeKeepsEntries(e: Engine, c: Cache, req: Request)
    requires Inv(e.cfg, c) && req.Serve?
    ensures Submap(c.reg, After(e, c, req).reg)
  {
  }

  /** Until the registry is cleared no entry goes, whatever later requests import, fail, reset or write. */
  lemma {:induction false} EntriesPersist(e: Engine, c: Cache, reqs: seq<Request>)
    requires Inv(e.cfg, c) && Runnable(e, c, reqs) && OnlyServes(reqs)
    ensures Submap(c.reg, RunOf(e, c, reqs).reg)
    decreases |reqs|
  {
    hide After, Inv;
    if reqs != [] {
      ServeKeepsEntries(e, c, reqs[0]);
      EntriesPersist(e, After(e, c, reqs[0]), reqs[1..]);
    }
  }

  /** Reuse for a given prompt never shrinks until the registry is cleared. */
  lemma ReuseNeverShrinks(e: Engine, c: Cache, reqs: seq<Request>, prompt: seq<Token>)
    requires Inv(e.cfg, c) && Runnable(e, c, reqs) && OnlyServes(reqs)
    ensures TakeLocal(e.cfg, c, prompt).len <= TakeLocal(e.cfg, RunOf(e, c, reqs), prompt).len
  {
    hide Runnable, Match, Balanced;
    EntriesPersist(e, c, reqs);
    MatchMonotone(e.cfg, Reset(e.cfg, c), Reset(e.cfg, RunOf(e, c, reqs)), prompt);
  }

  /**
   Until the registry is cleared, a registered block keeps its entry and its contents, whatever
   later requests match, allocate, write, import, fail or reset, and whether or not the remote is honest.
   */
  lemma {:induction false} RegistryPersists(e: Engine, c: Cache, reqs: seq<Request>)
    requires Inv(e.cfg, c) && Mapped(e.cfg, c) && Runnable(e, c, reqs) && OnlyServes(reqs) && RunWritesRight(e, c, reqs)
    ensures var r := RunOf(e, c, reqs);
      && Submap(c.reg, r.reg) && Shaped(e.cfg, r.pool) && RegisteredSame(e.cfg, c, r.pool)
    decreases |reqs|
  {
    hide After, Balanced, SuffixWritesRight;
    if reqs != [] {
      var req := reqs[0];
      ServeSpares(e, c, req.prompt, req.remote, req.replies);
      var c' := After(e, c, req);
      InvMapped(e.cfg, c');
      ServeKeepsEntries(e, c, req);
      RegistryPersists(e, c', reqs[1..]);
      RegisteredTwice(e.cfg, c, c', RunOf(e, c', reqs[1..]).pool);
    }
  }

  // ------------------------------------------------------------------ the cold run

  /** The blocks of an allocator nobody has returned a block to. */
  ghost predicate InOrder(numBlocks: nat, blocks: seq<nat>, free: seq<nat>) {
    && |blocks| + |free| == numBlocks
    && (forall i :: 0 <= i < |blocks| ==> blocks[i] == i)
    && (forall i :: 0 <= i < |free| ==> free[i] == numBlocks - 1 - i)
  }

  ghost predicate Linear(cfg: Config, c: Cache) {
    InOrder(cfg.NumBlocks(), c.blocks, c.alloc.free)
  }

  lemma {:induction false} GrowLinear(cfg: Config, c: Cache, end: nat)
    requires Inv(cfg, c) && Linear(cfg, c)
    ensures Linear(cfg, GrowTo(cfg, c, end).c)
    decreases end - |c.blocks| * BLOCK_SIZE
  {
    if end > |c.blocks| * BLOCK_SIZE {
      TakeStep(cfg, c);
      if Take(c.alloc).Some? {
        var (a, id) := Take(c.alloc).value;
        GrowLinear(cfg, c.(alloc := a, blocks := c.blocks + [id]), end);
      }
    }
  }

  /** On a fresh cache a batch from position 0 maps every token to its own index. */
  lemma FreshBatch(cfg: Config, n: nat)
    ensures var slots := BatchSlots(cfg, New(cfg), n); forall i :: 0 <= i < |slots| ==> slots[i] == i
  {
    var c := New(cfg);
    NewLinear(cfg);
    GrowLinear(cfg, c, n);
  }

  lemma NewLinear(cfg: Config)
    ensures Linear(cfg, New(cfg))
  {
  }

  lemma ColdAcquire(e: Engine, prompt: seq<Token>)
    ensures Acquire(e, New(e.cfg), prompt, Disabled) == Plan(New(e.cfg), 0, None, 0, None)
  {
    var c := New(e.cfg);
    assert Reset(e.cfg, c) == c;
    if MatchCap(|prompt|) > 0 {
      assert Lookup(e.cfg, c.reg, prompt, 0).None?;
    }
  }

  /** A cold run in an empty cache lands right even with the write loop as written. */
  lemma ColdRequestOk(e: Engine, paths: set<seq<Token>>, prompt: seq<Token>)
    requires Covers(paths, prompt)
    ensures RequestOk(e, paths, New(e.cfg), prompt, Disabled)
  {
    hide Acquire, Inv, Covers;
    ColdAcquire(e, prompt);
    FreshBatch(e.cfg, |prompt|);
  }

  /** The hypotheses of transparency are met by any first request, even with the write loop as written. */
  lemma ColdIsTransparent(e: Engine, paths: set<seq<Token>>, prompt: seq<Token>, replies: seq<Token>)
    requires NoCollision(e.cfg, paths) && Covers(paths, prompt)
    ensures var p := Prefill(e, New(e.cfg), prompt, Disabled);
      p.Done? ==>
        && ColdLogits(e, prompt, p.value.logits)
        && var g := Generate(e, p.c, replies, |prompt|);
           g.Done? ==> ColdReplies(e, prompt, replies, g.value)
  {
    hide Prefill, Generate, NoCollision, Covers, RequestOk, ColdLogits, ColdReplies, New;
    ColdRequestOk(e, paths, prompt);
    RunTransparent(e, paths, [], prompt, Disabled, replies);
  }

  lemma SameContents(cfg: Config, net: Net, c: Cache, c': Cache, toks: seq<Token>)
    requires Mapped(cfg, c) && Mapped(cfg, c') && Live(cfg, net, c, toks) && Live(cfg, net, c', toks)
    ensures forall l, p :: 0 <= l < cfg.numLayers && 0 <= p < |toks| ==> CellAt(cfg, c, l, p) == CellAt(cfg, c', l, p)
  {
    forall l, p | 0 <= l < cfg.numLayers && 0 <= p < |toks|
      ensures CellAt(cfg, c, l, p) == CellAt(cfg, c', l, p)
    {
      assert HoldsUpTo(cfg, net, c, toks, l, |toks|) && HoldsUpTo(cfg, net, c', toks, l, |toks|);
    }
  }

  lemma LastIsLast(e: Engine, toks: seq<Token>, logits: seq<Act>)
    requires ColdLogits(e, toks, logits) && logits != []
    ensures logits[|logits| - 1] == LastLogits(e.net, e.cfg.numLayers, toks)
  {
  }

  /** A prefill that succeeds and a cold run hold the same keys and values and end in the same logits. */
  lemma AgreesWithCold(e: Engine, paths: set<seq<Token>>, c: Cache, prompt: seq<Token>, remote: Remote)
    requires Ready(e, paths, c) && RequestOk(e, paths, c, prompt, remote)
    requires Prefill(e, c, prompt, remote).Done? && Prefill(e, New(e.cfg), prompt, Disabled).Done?
    ensures var r, cold := Prefill(e, c, prompt, remote), Prefill(e, New(e.cfg), prompt, Disabled);
      && Mapped(e.cfg, r.c) && Mapped(e.cfg, cold.c) && r.c.len == cold.c.len == |prompt|
      && (forall l, p :: 0 <= l < e.cfg.numLayers && 0 <= p < |prompt| ==>
            CellAt(e.cfg, r.c, l, p) == CellAt(e.cfg, cold.c, l, p))
      && r.value.logits[|r.value.logits| - 1] == cold.value.logits[|cold.value.logits| - 1]
  {
    hide Prefill, Sound, NoCollision, ActAt;
    NewReady(e, paths);
    ColdRequestOk(e, paths, prompt);
    PrefillTransparent(e, paths, c, prompt, remote);
    PrefillTransparent(e, paths, New(e.cfg), prompt, Disabled);
    var r, cold := Prefill(e, c, prompt, remote), Prefill(e, New(e.cfg), prompt, Disabled);
    SameContents(e.cfg, e.net, r.c, cold.c, prompt);
    LastIsLast(e, prompt, r.value.logits);
    LastIsLast(e, prompt, cold.value.logits);
  }
}
