/**
 A session over the cache against a cold run: whatever mix of local reuse, remote import and failed
 import precedes it, a prefill that succeeds leaves the keys, values and logits of a cold run over
 the whole prompt, and so does every token generated after it, request after request.
 */
module PrefillProofs {
  import opened Network
  import opened PoolWrite
  import opened Allocator
  import opened Bundle
  import opened CacheState
  import opened Session
  import opened Contents
  import opened Transparency
  import opened ImportProofs
  import Codec

  // ------------------------------------------------------------------ hypotheses of a request

  /** The remote object is something the import rejects, or an honest export. */
  ghost predicate HonestRemote(e: Engine, prompt: seq<Token>, remote: Remote) {
    remote.Found? && Codec.Decode(e.header, remote.bytes).Ok? ==>
      var b := Codec.Decode(e.header, remote.bytes).value;
      b.meta.modelId == e.modelId && Rejects(e.cfg, b, prompt).None? ==> Honest(e.net, b)
  }

  /** The cache is as earlier requests leave it, and the token paths in play do not collide. */
  ghost predicate Ready(e: Engine, paths: set<seq<Token>>, c: Cache) {
    Inv(e.cfg, c) && Mapped(e.cfg, c) && Sound(e.cfg, e.net, paths, c) && NoCollision(e.cfg, paths)
  }

  /** The suffix batch of a prefill lands where it should. */
  ghost predicate SuffixWritesRight(e: Engine, p: Cache, prompt: seq<Token>)
    requires Inv(e.cfg, p)
  {
    p.len < |prompt| ==> WritesRight(e.rule, BatchSlots(e.cfg, p, |prompt| - p.len))
  }

  ghost predicate RequestOk(e: Engine, paths: set<seq<Token>>, c: Cache, prompt: seq<Token>, remote: Remote)
    requires Inv(e.cfg, c)
  {
    && Covers(paths, prompt) && HonestRemote(e, prompt, remote)
    && SuffixWritesRight(e, Acquire(e, c, prompt, remote).c, prompt)
  }

  // ------------------------------------------------------------------ acquiring a prefix

  /** A decoded bundle that passes the import's checks has blocks of the cache's size. */
  lemma DecodedIsSized(e: Engine, bytes: seq<Codec.Byte>, prompt: seq<Token>)
    requires Codec.Decode(e.header, bytes).Ok?
    requires Rejects(e.cfg, Codec.Decode(e.header, bytes).value, prompt).None?
    ensures SizedBundle(Codec.Decode(e.header, bytes).value)
  {
    Codec.DecodedIsPortable(e.header, bytes);
    var b := Codec.Decode(e.header, bytes).value;
    forall i, l | 0 <= i < |b.blocks| && 0 <= l < |b.blocks[i].layers|
      ensures b.blocks[i].layers[l].k.n == BLOCK_SIZE
    {
      assert Codec.BlockFits(b.meta, b.blocks[i], i);
      assert Codec.LayerFits(b.meta, b.blocks[i].layers[l]);
    }
  }

  lemma RegisteredTwice(cfg: Config, c: Cache, c': Cache, pool: Pool)
    requires Mapped(cfg, c) && Mapped(cfg, c') && Shaped(cfg, pool)
    requires Submap(c.reg, c'.reg) && RegisteredSame(cfg, c, c'.pool) && RegisteredSame(cfg, c', pool)
    ensures RegisteredSame(cfg, c, pool)
  {
    forall h | h in c.reg
      ensures SameBlock(cfg, c.reg[h].id, c.pool, pool)
    {
      assert SameBlock(cfg, c.reg[h].id, c.pool, c'.pool) && SameBlock(cfg, c'.reg[h].id, c'.pool, pool);
    }
  }

  lemma ImportRemoteExact(e: Engine, paths: set<seq<Token>>, c: Cache, bytes: seq<Codec.Byte>, prompt: seq<Token>)
    requires Ready(e, paths, c) && Covers(paths, prompt) && HonestRemote(e, prompt, Found(bytes))
    ensures var r := ImportRemote(e, c, bytes, prompt);
      && Mapped(e.cfg, r.c) && RegisteredSame(e.cfg, c, r.c.pool) && Sound(e.cfg, e.net, paths, r.c)
      && (r.Done? ==> r.value <= |prompt| && r.c.len == r.value && Live(e.cfg, e.net, r.c, prompt[..r.value]))
  {
    var r := ImportRemote(e, c, bytes, prompt);
    InvMapped(e.cfg, r.c);
    if Codec.Decode(e.header, bytes).Ok? {
      var b := Codec.Decode(e.header, bytes).value;
      if b.meta.modelId == e.modelId && Rejects(e.cfg, b, prompt).None? {
        DecodedIsSized(e, bytes, prompt);
        ImportSparesRegistered(e.cfg, c, b, prompt);
        if r.Done? {
          ImportExact(e.cfg, e.net, paths, c, b, prompt);
        } else {
          SamePoolSound(e.cfg, e.net, paths, c, r.c);
        }
      }
    }
  }

  /** Whatever the bytes decode to, an import from the remote leaves registered blocks alone. */
  lemma ImportRemoteSpares(e: Engine, c: Cache, bytes: seq<Codec.Byte>, prompt: seq<Token>)
    requires Inv(e.cfg, c) && Mapped(e.cfg, c)
    ensures RegisteredSame(e.cfg, c, ImportRemote(e, c, bytes, prompt).c.pool)
  {
    hide Balanced, Import;
    if Codec.Decode(e.header, bytes).Ok? {
      var b := Codec.Decode(e.header, bytes).value;
      if Rejects(e.cfg, b, prompt).None? {
        DecodedIsSized(e, bytes, prompt);
        ImportSparesRegistered(e.cfg, c, b, prompt);
      } else {
        RejectedIsSame(e.cfg, c, b, prompt);
      }
    }
  }

  lemma RejectedIsSame(cfg: Config, c: Cache, b: KvBundle, prompt: seq<Token>)
    requires Inv(cfg, c) && Rejects(cfg, b, prompt).Some?
    ensures Import(cfg, c, b, prompt).c == c
  {
  }

  /** Whatever the remote answers, the pool after acquiring is the old one or an import's. */
  lemma AcquiredPool(e: Engine, c: Cache, prompt: seq<Token>, remote: Remote)
    requires Inv(e.cfg, c)
    ensures var p, local := Acquire(e, c, prompt, remote).c.pool, TakeLocal(e.cfg, c, prompt);
      p == c.pool || (remote.Found? && p == ImportRemote(e, local, remote.bytes, prompt).c.pool)
  {
  }

  lemma AcquireSpares(e: Engine, c: Cache, prompt: seq<Token>, remote: Remote)
    requires Inv(e.cfg, c) && Mapped(e.cfg, c)
    ensures RegisteredSame(e.cfg, c, Acquire(e, c, prompt, remote).c.pool)
  {
    hide Inv, Acquire, ImportRemote;
    var local := TakeLocal(e.cfg, c, prompt);
    InvMapped(e.cfg, local);
    AcquiredPool(e, c, prompt, remote);
    if remote.Found? {
      ImportRemoteSpares(e, local, remote.bytes, prompt);
    }
  }

  /** Every prefill, successful or not and whatever the remote sent, leaves registered blocks alone. */
  lemma PrefillSpares(e: Engine, c: Cache, prompt: seq<Token>, remote: Remote)
    requires Inv(e.cfg, c) && Mapped(e.cfg, c) && SuffixWritesRight(e, Acquire(e, c, prompt, remote).c, prompt)
    ensures RegisteredSame(e.cfg, c, Prefill(e, c, prompt, remote).c.pool)
  {
    hide Counted, TailOwned, Acquire, Forward, WritesRight;
    var p := Acquire(e, c, prompt, remote);
    AcquireSpares(e, c, prompt, remote);
    InvMapped(e.cfg, p.c);
    if p.reused < |prompt| {
      var ids := prompt[p.reused..];
      ForwardSpares(e.cfg, e.net, e.rule, p.c, ids, p.reused);
      RegisteredTwice(e.cfg, c, p.c, Forward(e.cfg, e.net, e.rule, p.c, ids, p.reused).c.pool);
    }
  }

  /** A sequence that starts the prompt, exactly, with the registered blocks as they were. */
  ghost predicate Started(e: Engine, paths: set<seq<Token>>, c: Cache, prompt: seq<Token>, r: Cache)
    requires Mapped(e.cfg, c)
  {
    && Ready(e, paths, r) && RegisteredSame(e.cfg, c, r.pool)
    && r.len <= |prompt| && Live(e.cfg, e.net, r, prompt[..r.len])
  }

  lemma LocalStarts(e: Engine, paths: set<seq<Token>>, c: Cache, prompt: seq<Token>)
    requires Ready(e, paths, c) && Covers(paths, prompt)
    ensures Started(e, paths, c, prompt, TakeLocal(e.cfg, c, prompt))
  {
    TakeLocalExact(e.cfg, e.net, paths, c, prompt);
  }

  lemma RemoteStarts(e: Engine, paths: set<seq<Token>>, c: Cache, bytes: seq<Codec.Byte>, prompt: seq<Token>)
    requires Ready(e, paths, c) && Covers(paths, prompt) && HonestRemote(e, prompt, Found(bytes))
    ensures var r := ImportRemote(e, TakeLocal(e.cfg, c, prompt), bytes, prompt);
      && Ready(e, paths, r.c) && RegisteredSame(e.cfg, c, r.c.pool)
      && (r.Done? ==> r.c.len == r.value && Started(e, paths, c, prompt, r.c))
  {
    var local := TakeLocal(e.cfg, c, prompt);
    LocalStarts(e, paths, c, prompt);
    ImportRemoteExact(e, paths, local, bytes, prompt);
    RegisteredTwice(e.cfg, c, local, ImportRemote(e, local, bytes, prompt).c.pool);
  }

  lemma FallbackStarts(e: Engine, paths: set<seq<Token>>, c: Cache, left: Cache, prompt: seq<Token>)
    requires Mapped(e.cfg, c) && Ready(e, paths, left) && RegisteredSame(e.cfg, c, left.pool) && Covers(paths, prompt)
    ensures Started(e, paths, c, prompt, TakeLocal(e.cfg, left, prompt))
  {
    TakeLocalExact(e.cfg, e.net, paths, left, prompt);
  }

  /** Whatever the remote answers, the acquired prefix is live and the registry as sound as before. */
  lemma AcquireExact(e: Engine, paths: set<seq<Token>>, c: Cache, prompt: seq<Token>, remote: Remote)
    requires Ready(e, paths, c) && Covers(paths, prompt) && HonestRemote(e, prompt, remote)
    ensures Started(e, paths, c, prompt, Acquire(e, c, prompt, remote).c)
  {
    hide ImportRemote, TakeLocal, Sound, NoCollision, Live, RegisteredSame;
    LocalStarts(e, paths, c, prompt);
    if remote.Found? {
      RemoteStarts(e, paths, c, remote.bytes, prompt);
      var left := ImportRemote(e, TakeLocal(e.cfg, c, prompt), remote.bytes, prompt);
      if left.Failed? {
        FallbackStarts(e, paths, c, left.c, prompt);
      }
    }
  }

  // ------------------------------------------------------------------ prefill

  /** The logits of the last `n` of `toks` in a cold run. */
  ghost predicate ColdLogits(e: Engine, toks: seq<Token>, logits: seq<Act>) {
    && |logits| <= |toks|
    && forall i :: 0 <= i < |logits| ==>
         logits[i] == e.net.head(ActAt(e.net, toks, e.cfg.numLayers, |toks| - |logits| + i))
  }

  lemma SplitAt(toks: seq<Token>, n: nat)
    requires n <= |toks|
    ensures toks[..n] + toks[n..] == toks
  {
  }

  /** A forward call, successful or not, keeps the cache ready for the next request. */
  lemma ForwardKeeps(e: Engine, paths: set<seq<Token>>, c: Cache, past: seq<Token>, ids: seq<Token>)
    requires Ready(e, paths, c) && Live(e.cfg, e.net, c, past)
    requires WritesRight(e.rule, BatchSlots(e.cfg, c, |ids|))
    ensures var r := Forward(e.cfg, e.net, e.rule, c, ids, c.len);
      && Ready(e, paths, r.c) && RegisteredSame(e.cfg, c, r.c.pool)
      && (r.Done? ==> Live(e.cfg, e.net, r.c, past + ids) && ColdLogits(e, past + ids, r.value))
  {
    hide Inv, Sound, NoCollision, LayersFrom, GrowTo;
    var r := Forward(e.cfg, e.net, e.rule, c, ids, c.len);
    InvMapped(e.cfg, r.c);
    if r.Done? {
      ForwardExact(e.cfg, e.net, e.rule, c, past, ids);
      assert |past + ids| - |r.value| == c.len;
    }
    SamePoolSound(e.cfg, e.net, paths, c, r.c);
  }

  /** What a finished prefill owes the next request and its caller. */
  ghost predicate Answers(e: Engine, paths: set<seq<Token>>, c: Cache, prompt: seq<Token>, r: Outcome<seq<Act>>)
    requires Mapped(e.cfg, c)
  {
    && Ready(e, paths, r.c) && RegisteredSame(e.cfg, c, r.c.pool)
    && (r.Done? ==> Live(e.cfg, e.net, r.c, prompt) && ColdLogits(e, prompt, r.value))
  }

  lemma SuffixAnswers(e: Engine, paths: set<seq<Token>>, c: Cache, p: Cache, prompt: seq<Token>)
    requires Mapped(e.cfg, c) && Started(e, paths, c, prompt, p) && Submap(c.reg, p.reg)
    requires SuffixWritesRight(e, p, prompt)
    ensures Answers(e, paths, c, prompt, PrefillSuffix(e.cfg, e.net, e.rule, p, prompt, p.len))
  {
    hide Forward, Sound, NoCollision, Live, Inv;
    if p.len < |prompt| {
      var ids := prompt[p.len..];
      SplitAt(prompt, p.len);
      ForwardKeeps(e, paths, p, prompt[..p.len], ids);
      RegisteredTwice(e.cfg, c, p, Forward(e.cfg, e.net, e.rule, p, ids, p.len).c.pool);
    }
  }

  lemma RegisterAnswers(e: Engine, paths: set<seq<Token>>, c: Cache, f: Outcome<seq<Act>>, prompt: seq<Token>)
    requires Mapped(e.cfg, c) && f.Done? && Answers(e, paths, c, prompt, f) && Covers(paths, prompt)
    ensures Answers(e, paths, c, prompt, Done(Register(e.cfg, f.c, prompt), f.value))
  {
    RegisterSound(e.cfg, e.net, paths, f.c, prompt, 0);
  }

  function Served(r: Outcome<Prefilled>): Outcome<seq<Act>> {
    match r
    case Failed(c, why) => Failed(c, why)
    case Done(c, prefilled) => Done(c, prefilled.logits)
  }

  /**
   Prefill transparency. Every prefill keeps the registered blocks and their soundness; one that
   succeeds leaves the whole prompt live and returns the cold run's logits.
   */
  lemma PrefillTransparent(e: Engine, paths: set<seq<Token>>, c: Cache, prompt: seq<Token>, remote: Remote)
    requires Ready(e, paths, c) && RequestOk(e, paths, c, prompt, remote)
    ensures Answers(e, paths, c, prompt, Served(Prefill(e, c, prompt, remote)))
  {
    var p := Acquire(e, c, prompt, remote).c;
    AcquireExact(e, paths, c, prompt, remote);
    SuffixAnswers(e, paths, c, p, prompt);
    var f := PrefillSuffix(e.cfg, e.net, e.rule, p, prompt, p.len);
    if f.Done? {
      RegisterAnswers(e, paths, c, f, prompt);
    }
  }
}
