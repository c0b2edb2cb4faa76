/**
 What a served prompt leaves behind (src/models/common/cache.rs:145-159, src/kv_cache/manager.rs:195-201):
 every full block of it is registered, so the next prompt that starts with it starts from there, over runs
 and whatever the store answered.
 */
module Served {
  import opened Basics
  import opened Network
  import opened Allocator
  import opened Bundle
  import opened CacheState
  import opened Session
  import opened Contents
  import opened ImportProofs
  import opened Runs
  import opened Reuse
  import opened CrossNode
  import Codec

  // ------------------------------------------------------------------ what is registered

  /** Entry `n` of the blocks of `toks`: block `n` of the table, under the chained hash after it. */
  ghost predicate Stands(cfg: Config, c: Cache, toks: seq<Token>, h: Hash, e: Entry, n: nat) {
    n < |toks| / BLOCK_SIZE <= |c.blocks| && h == HashAt(cfg, toks, n + 1) && e == Entry(Chunk(toks, n), c.blocks[n])
  }

  lemma FirstStands(cfg: Config, c: Cache, toks: seq<Token>, b: nat)
    requires b < |toks| / BLOCK_SIZE <= |c.blocks|
    ensures Stands(cfg, c, toks, HashAt(cfg, toks, b + 1), Entry(Chunk(toks, b), c.blocks[b]), b)
  {
  }

  lemma SameStands(cfg: Config, c: Cache, c': Cache, toks: seq<Token>, h: Hash, e: Entry, n: nat)
    requires Stands(cfg, c', toks, h, e, n) && c.blocks == c'.blocks
    ensures Stands(cfg, c, toks, h, e, n)
  {
  }

  lemma {:induction false} RegisterFromExactly(cfg: Config, c: Cache, toks: seq<Token>, b: nat)
    requires Counted(cfg, c) && b <= |toks| / BLOCK_SIZE <= |c.blocks|
    ensures var r := RegisterFrom(cfg, c, toks, b).reg;
      && Submap(c.reg, r) && HashesKnown(cfg, r, toks, b)
      && forall h :: h in r && h !in c.reg ==> exists n :: b <= n && Stands(cfg, c, toks, h, r[h], n)
    decreases |toks| / BLOCK_SIZE - b
  {
    hide Balanced, Chunk, HashAt, Stands;
    if b < |toks| / BLOCK_SIZE {
      RegisterStep(cfg, c, toks, b);
      var c' := RegisterOne(cfg, c, toks, b);
      RegisterFromExactly(cfg, c', toks, b + 1);
      var r := RegisterFrom(cfg, c', toks, b + 1).reg;
      assert HashAt(cfg, toks, b + 1) in r;
      forall h | h in r && h !in c.reg
        ensures exists n :: b <= n && Stands(cfg, c, toks, h, r[h], n)
      {
        if h in c'.reg {
          FirstStands(cfg, c, toks, b);
        } else {
          var n :| b + 1 <= n && Stands(cfg, c', toks, h, r[h], n);
          SameStands(cfg, c, c', toks, h, r[h], n);
        }
      }
    }
  }

  /**
   The registry after `register_prefix`: what was there, and an entry under the hash of every full block of
   the prompt and under no other, each for that block's tokens and the block that holds them.
   */
  lemma RegisterExactly(cfg: Config, c: Cache, toks: seq<Token>)
    requires Inv(cfg, c) && |toks| <= c.len
    ensures var r := Register(cfg, c, toks).reg;
      && Submap(c.reg, r)
      && (forall n :: 0 < n <= |toks| / BLOCK_SIZE ==> HashAt(cfg, toks, n) in r)
      && forall h :: h in r && h !in c.reg ==> exists n: nat :: Stands(cfg, c, toks, h, r[h], n)
  {
    hide Balanced, Stands;
    RegisterFromExactly(cfg, c, toks, 0);
  }

  /** A prefill that succeeds has every full block of its prompt registered. */
  lemma PrefillRegisters(e: Engine, c: Cache, prompt: seq<Token>, remote: Remote)
    requires Inv(e.cfg, c) && Prefill(e, c, prompt, remote).Done?
    ensures prompt != [] && HashesKnown(e.cfg, Prefill(e, c, prompt, remote).c.reg, prompt, 0)
  {
    hide Inv, Acquire, PrefillSuffix, Register;
    var plan := Acquire(e, c, prompt, remote);
    RegisterExactly(e.cfg, PrefillSuffix(e.cfg, e.net, e.rule, plan.c, prompt, plan.reused).c, prompt);
  }

  // ------------------------------------------------------------------ names

  lemma ImportNamed(cfg: Config, paths: set<seq<Token>>, c: Cache, b: KvBundle, prompt: seq<Token>)
    requires Inv(cfg, c) && Named(cfg, paths, c.reg) && Covers(paths, prompt)
    ensures Named(cfg, paths, Import(cfg, c, b, prompt).c.reg)
  {
    hide Land, Reset, Named, Balanced, Covers;
    if Import(cfg, c, b, prompt).Done? {
      CoversPrefix(paths, prompt, b.meta.tokenIds);
      LandRegisters(cfg, paths, Reset(cfg, c), b);
    }
  }

  lemma AcquireNamed(e: Engine, paths: set<seq<Token>>, c: Cache, prompt: seq<Token>, remote: Remote)
    requires Inv(e.cfg, c) && Named(e.cfg, paths, c.reg) && Covers(paths, prompt)
    ensures Named(e.cfg, paths, Acquire(e, c, prompt, remote).c.reg)
  {
    hide Inv, Import, TakeLocal, Named, Covers;
    if remote.Found? {
      var local := TakeLocal(e.cfg, c, prompt);
      match Codec.Decode(e.header, remote.bytes)
      case Err(_) =>
      case Ok(b) => ImportNamed(e.cfg, paths, local, b, prompt);
    }
  }

  lemma AfterNamed(e: Engine, paths: set<seq<Token>>, c: Cache, req: Request)
    requires Inv(e.cfg, c) && Drains(c, req) && Named(e.cfg, paths, c.reg) && (req.Serve? ==> Covers(paths, req.prompt))
    ensures Named(e.cfg, paths, After(e, c, req).reg)
  {
    hide Acquire, RegisterFrom, Forward, Generate, Covers, Balanced;
    if req.Serve? {
      var plan := Acquire(e, c, req.prompt, req.remote);
      AcquireNamed(e, paths, c, req.prompt, req.remote);
      var r := PrefillSuffix(e.cfg, e.net, e.rule, plan.c, req.prompt, plan.reused);
      if r.Done? {
        RegisterCovers(e.cfg, paths, r.c, req.prompt, 0);
      }
    }
  }

  /** Every prompt of the run is in play. */
  ghost predicate AllCovered(paths: set<seq<Token>>, reqs: seq<Request>) {
    forall i :: 0 <= i < |reqs| && reqs[i].Serve? ==> Covers(paths, reqs[i].prompt)
  }

  lemma {:induction false} RunNamed(e: Engine, paths: set<seq<Token>>, c: Cache, reqs: seq<Request>)
    requires Inv(e.cfg, c) && Runnable(e, c, reqs) && Named(e.cfg, paths, c.reg) && AllCovered(paths, reqs)
    ensures Named(e.cfg, paths, RunOf(e, c, reqs).reg)
    decreases |reqs|
  {
    hide Inv, After, Named, Covers;
    if reqs != [] {
      AfterNamed(e, paths, c, reqs[0]);
      RunNamed(e, paths, After(e, c, reqs[0]), reqs[1..]);
    }
  }

  // ------------------------------------------------------------------ reuse

  /** Known hashes are matched as far as the cap goes. */
  lemma KnownIsTaken(cfg: Config, paths: set<seq<Token>>, c: Cache, toks: seq<Token>, next: seq<Token>)
    requires Inv(cfg, c) && Named(cfg, paths, c.reg) && HashesApart(cfg, paths) && HashesKnown(cfg, c.reg, toks, 0)
    requires toks <= next && Covers(paths, next)
    ensures var n := |TakeLocal(cfg, c, next).blocks|;
      && TakeLocal(cfg, c, next).len == n * BLOCK_SIZE && n <= MatchCap(|next|)
      && (n >= |toks| / BLOCK_SIZE || n == MatchCap(|next|))
  {
    hide Balanced, Reset, Named, HashesApart, HashesKnown, Covers, Lookup, MatchCap;
    var n := |TakeLocal(cfg, c, next).blocks|;
    if n < |toks| / BLOCK_SIZE && n < MatchCap(|next|) {
      KnownIsHit(cfg, paths, c.reg, toks, next, n);
    }
  }

  /**
   A served prompt is reused. From an empty cache, over any run: once a prompt is served, however the prefill
   came by its prefix, and until the registry is cleared, a prompt that starts with it is matched at least as
   far as the served prompt has full blocks, absent collisions, or as far as one may be matched that has to
   leave a suffix; a longer prompt always the former.
   */
  lemma ServedIsReused(e: Engine, paths: set<seq<Token>>, before: seq<Request>, prompt: seq<Token>, remote: Remote,
                       replies: seq<Token>, since: seq<Request>, next: seq<Token>)
    requires HashesApart(e.cfg, paths) && Runnable(e, New(e.cfg), before) && AllCovered(paths, before)
    requires Prefill(e, RunOf(e, New(e.cfg), before), prompt, remote).Done?
    requires var served := After(e, RunOf(e, New(e.cfg), before), Serve(prompt, remote, replies));
      Runnable(e, served, since) && OnlyServes(since) && AllCovered(paths, since)
    requires prompt <= next && Covers(paths, next)
    ensures var c := RunOf(e, After(e, RunOf(e, New(e.cfg), before), Serve(prompt, remote, replies)), since);
      var n := TakeLocal(e.cfg, c, next).len;
      && (n >= |prompt| / BLOCK_SIZE * BLOCK_SIZE || n == (|next| - 1) / BLOCK_SIZE * BLOCK_SIZE)
      && (|prompt| < |next| ==> n >= |prompt| / BLOCK_SIZE * BLOCK_SIZE)
  {
    hide Inv, Named, HashesApart, HashesKnown, Covers, Prefill, Generate, Runnable, RunOf, TakeLocal, New;
    var c := RunOf(e, New(e.cfg), before);
    NewIsNamed(e.cfg, paths);
    RunNamed(e, paths, New(e.cfg), before);
    CoversPrefix(paths, next, prompt);
    AfterNamed(e, paths, c, Serve(prompt, remote, replies));
    PrefillRegisters(e, c, prompt, remote);
    var served := After(e, c, Serve(prompt, remote, replies));
    RunNamed(e, paths, served, since);
    EntriesPersist(e, served, since);
    StillKnown(e.cfg, served.reg, RunOf(e, served, since).reg, prompt);
    KnownIsTaken(e.cfg, paths, RunOf(e, served, since), prompt, next);
    CapIsLastBlock(|prompt|, |next|);
  }

  lemma NewIsNamed(cfg: Config, paths: set<seq<Token>>)
    ensures Named(cfg, paths, New(cfg).reg)
  {
  }

  lemma StillKnown(cfg: Config, reg: Registry, more: Registry, toks: seq<Token>)
    requires Submap(reg, more) && HashesKnown(cfg, reg, toks, 0)
    ensures HashesKnown(cfg, more, toks, 0)
  {
  }

  lemma CapIsLastBlock(served: nat, next: nat)
    requires 0 < next
    ensures MatchCap(next) == (next - 1) / BLOCK_SIZE
    ensures served < next ==> served / BLOCK_SIZE <= MatchCap(next)
  {
  }

  // ------------------------------------------------------------------ clearing

  /** After a clear nothing is reused. */
  lemma ClearedReusesNothing(e: Engine, c: Cache, keys: seq<Hash>, prompt: seq<Token>)
    requires Inv(e.cfg, c) && Lists(keys, c.reg.Keys)
    ensures TakeLocal(e.cfg, After(e, c, ClearCache(keys)), prompt).len == 0
  {
    hide Balanced, Reset;
    if MatchCap(|prompt|) > 0 {
      assert Lookup(e.cfg, map[], prompt, 0).None?;
    }
  }

  /** The numbers below `n`, each once, in any order. */
  ghost predicate AllOnce(ids: seq<nat>, n: nat) {
    && (forall b: nat :: b < n <==> b in ids)
    && (forall i, j :: 0 <= i < j < |ids| ==> ids[i] != ids[j])
  }

  /** Nothing leaks: over every run, a clear and a reset give every block back, each once. */
  lemma NothingLeaks(e: Engine, reqs: seq<Request>, keys: seq<Hash>)
    requires Runnable(e, New(e.cfg), reqs) && Lists(keys, RunOf(e, New(e.cfg), reqs).reg.Keys)
    ensures var a := Reset(e.cfg, After(e, RunOf(e, New(e.cfg), reqs), ClearCache(keys))).alloc;
      && |a.refs| == e.cfg.NumBlocks() && (forall b :: 0 <= b < |a.refs| ==> a.refs[b] == 0)
      && AllOnce(a.free, e.cfg.NumBlocks())
  {
    hide Runnable, RunOf, New;
    var c := After(e, RunOf(e, New(e.cfg), reqs), ClearCache(keys));
    NothingHeld(e.cfg, Reset(e.cfg, c));
  }

  lemma NothingHeld(cfg: Config, c: Cache)
    requires Counted(cfg, c) && c.blocks == [] && c.reg == map[]
    ensures (forall b :: 0 <= b < |c.alloc.refs| ==> c.alloc.refs[b] == 0)
    ensures AllOnce(c.alloc.free, cfg.NumBlocks())
  {
    assert multiset(c.blocks) == multiset{};
    forall b | 0 <= b < |c.alloc.refs|
      ensures c.alloc.refs[b] == 0
    {
      assert Holders(c.reg, b) == {};
    }
    assert forall b: nat :: b < cfg.NumBlocks() ==> b in Unreferenced(c.alloc);
  }
}
