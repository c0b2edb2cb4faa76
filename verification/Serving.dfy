/**
 The model's forward pass and the prefill session over the mutable cache
 (src/models/common/model.rs, src/kv_cache/manager.rs, src/engine.rs), each proved to leave exactly
 what the function it is named after in Session says. Every layer runs the streaming kernel over the
 gathered blocks, for networks whose attention is grouped-query attention.
 */
module Serving {
  import opened Basics
  import opened Network
  import opened PoolWrite
  import opened CacheState
  import opened PagedCache
  import Codec
  import CrossNode
  import Fleet
  import FrameCodec
  import PagedLayer
  import Publish
  import Runs
  import Session

  /** `forward`: allocate once, then layer by layer write, gather and attend */
  method Forward(net: Net, hs: PagedLayer.Heads, rule: Rule, cache: KvCache, ids: seq<Token>, indexPos: nat)
    returns (r: Result<seq<Act>, Reason>)
    requires cache.Valid() && Inv(cache.cfg, cache.Abs()) && CrossNode.PoolOk(cache.cfg, cache.Abs().pool)
    requires PagedLayer.Computes(cache.cfg, net, hs)
    modifies cache.Repr()
    ensures CrossNode.PoolOk(cache.cfg, cache.Abs().pool)
    ensures Left(cache.Abs(), r) == Session.Forward(cache.cfg, net, rule, old(cache.Abs()), ids, indexPos)
  {
    hide Inv, Mapped, CacheState.AllocateKv, CrossNode.PoolOk, PagedLayer.Computes;
    var cfg := cache.cfg;
    var grown := cache.AllocateKv(|ids|);
    if grown.Err? {
      return Err(grown.error);
    }
    if cfg.numLayers > 0 && indexPos + |ids| > cfg.maxSeqLen {
      return Err(BadPosition);
    }
    InvMapped(cfg, cache.Abs());
    var xs := RunLayers(net, hs, rule, cache, Session.Embedded(net, ids), indexPos);
    r := Ok(Session.Logits(net, xs));
  }

  /** The layer loop of `forward`. */
  method RunLayers(net: Net, hs: PagedLayer.Heads, rule: Rule, cache: KvCache, inputs: seq<Act>, indexPos: nat)
    returns (xs: seq<Act>)
    requires cache.Valid() && Mapped(cache.cfg, cache.Abs()) && |inputs| <= cache.Abs().len <= cache.cfg.maxSeqLen
    requires CrossNode.PoolOk(cache.cfg, cache.Abs().pool) && PagedLayer.Computes(cache.cfg, net, hs)
    modifies cache.Repr()
    ensures CrossNode.PoolOk(cache.cfg, cache.Abs().pool)
    ensures (cache.Abs(), xs) == Session.LayersFrom(cache.cfg, net, rule, old(cache.Abs()), inputs, indexPos, 0)
  {
    hide Mapped, Session.WriteCurrent, Session.LiveCells, Session.Attended, CrossNode.PoolOk, PagedLayer.Computes;
    var cfg := cache.cfg;
    xs := inputs;
    var l := 0;
    while l < cfg.numLayers
      invariant 0 <= l <= cfg.numLayers && |xs| == |inputs|
      invariant Mapped(cfg, cache.Abs()) && cache.Abs().len == old(cache.Abs()).len &&
        CrossNode.PoolOk(cfg, cache.Abs().pool)
      invariant Session.LayersFrom(cfg, net, rule, cache.Abs(), xs, indexPos, l) ==
        Session.LayersFrom(cfg, net, rule, old(cache.Abs()), inputs, indexPos, 0)
    {
      xs := PagedLayer.Forward(net, hs, rule, cache, l, indexPos, xs);
      l := l + 1;
    }
  }

  /** `prefill_suffix` */
  method PrefillSuffix(net: Net, hs: PagedLayer.Heads, rule: Rule, cache: KvCache, prompt: seq<Token>, reused: nat)
    returns (r: Result<seq<Act>, Reason>)
    requires cache.Valid() && Inv(cache.cfg, cache.Abs()) && CrossNode.PoolOk(cache.cfg, cache.Abs().pool)
    requires PagedLayer.Computes(cache.cfg, net, hs)
    modifies cache.Repr()
    ensures CrossNode.PoolOk(cache.cfg, cache.Abs().pool)
    ensures Left(cache.Abs(), r) == Session.PrefillSuffix(cache.cfg, net, rule, old(cache.Abs()), prompt, reused)
  {
    hide Inv, Session.Forward, CrossNode.PoolOk, PagedLayer.Computes;
    if reused >= |prompt| {
      return Err(EmptySuffix);
    }
    r := Forward(net, hs, rule, cache, prompt[reused..], reused);
  }

  class KvSession {
    const e: Session.Engine
    const hs: PagedLayer.Heads
    const cache: KvCache
    const prompt: seq<Token>
    /** Whether there is a remote store. */
    const enabled: bool
    var reusedPrefixTokens: nat
    var remoteCacheHit: Option<bool>
    var remoteImportedTokens: nat
    var remoteError: Option<Reason>

    ghost predicate Valid()
      reads cache.Repr()
    {
      && cache.Valid() && cache.cfg == e.cfg && Inv(e.cfg, cache.Abs())
      && CrossNode.PoolOk(e.cfg, cache.Abs().pool) && PagedLayer.Computes(e.cfg, e.net, hs)
    }

    /** `bind_session` */
    constructor (e: Session.Engine, hs: PagedLayer.Heads, cache: KvCache, prompt: seq<Token>, enabled: bool)
      requires cache.Valid() && cache.cfg == e.cfg && Inv(e.cfg, cache.Abs())
      requires CrossNode.PoolOk(e.cfg, cache.Abs().pool) && PagedLayer.Computes(e.cfg, e.net, hs)
      ensures Valid() && this.e == e && this.hs == hs && this.cache == cache && this.prompt == prompt &&
        this.enabled == enabled
      ensures reusedPrefixTokens == 0 && remoteCacheHit.None? && remoteImportedTokens == 0 && remoteError.None?
    {
      this.e, this.hs, this.cache, this.prompt, this.enabled := e, hs, cache, prompt, enabled;
      reusedPrefixTokens, remoteCacheHit, remoteImportedTokens, remoteError := 0, None, 0, None;
    }

    /** `reset_sequence`, then `match_prefix` */
    method TakeLocal() returns (matched: nat)
      requires Valid()
      modifies cache.Repr()
      ensures Valid() && cache.Abs() == Session.TakeLocal(e.cfg, old(cache.Abs()), prompt) && matched == cache.Abs().len
    {
      cache.ResetSequence();
      matched := cache.MatchPrefix(prompt);
    }

    /** `import_remote_bundle` */
    method ImportRemoteBundle(bytes: seq<Codec.Byte>) returns (r: Result<nat, Reason>)
      requires Valid()
      modifies cache.Repr()
      ensures Valid() && Left(cache.Abs(), r) == Session.ImportRemote(e, old(cache.Abs()), bytes, prompt)
    {
      hide Inv, Import, CrossNode.PoolOk, PagedLayer.Computes;
      Publish.ImportRemoteOk(e, cache.Abs(), bytes, prompt);
      var decoded := FrameCodec.Decode(e.header, bytes);
      match decoded
      case Err(_) => r := Err(BadFrame);
      case Ok(bundle) =>
        if bundle.meta.modelId != e.modelId {
          r := Err(WrongModel);
        } else {
          r := cache.ImportPrefixBundle(bundle, prompt);
        }
    }

    /** The prefix part of `prefill`: the local match, then the remote object where it would help. */
    method AcquirePrefix(remote: Session.Remote) returns (reused: nat)
      requires Valid() && (enabled <==> !remote.Disabled?)
      requires remoteCacheHit.None? && remoteImportedTokens == 0 && remoteError.None?
      modifies cache.Repr(), this
      ensures Valid() && reusedPrefixTokens == old(reusedPrefixTokens)
      ensures Session.Plan(cache.Abs(), reused, remoteCacheHit, remoteImportedTokens, remoteError) ==
        Session.Acquire(e, old(cache.Abs()), prompt, remote)
    {
      hide Inv, Session.TakeLocal, Session.ImportRemote, Session.ReusableTokenCount, CrossNode.PoolOk,
        PagedLayer.Computes;
      var reusable := Session.ReusableTokenCount(BLOCK_SIZE, |prompt|);
      reused := TakeLocal();
      if remote.Disabled? || reusable == 0 {
        return;
      }
      match remote
      case GetFailed =>
        remoteError, remoteCacheHit := Some(GetError), Some(false);
      case Missing =>
        remoteCacheHit := Some(false);
      case Found(bytes) =>
        if reused >= reusable {
          remoteCacheHit := Some(true);
        } else {
          var imported := ImportRemoteBundle(bytes);
          if imported.Ok? {
            reused, remoteCacheHit, remoteImportedTokens := imported.value, Some(true), imported.value;
          } else {
            remoteError := Some(imported.error);
            reused := TakeLocal();
            remoteCacheHit := Some(false);
          }
        }
    }

    /** `prefill` */
    method Prefill(remote: Session.Remote) returns (r: Result<seq<Act>, Reason>)
      requires Valid() && (enabled <==> !remote.Disabled?)
      requires remoteCacheHit.None? && remoteImportedTokens == 0 && remoteError.None?
      modifies cache.Repr(), this
      ensures Valid()
      ensures var plan := Session.Acquire(e, old(cache.Abs()), prompt, remote);
        && (remoteCacheHit, remoteImportedTokens, remoteError) == (plan.hit, plan.imported, plan.error)
        && match Session.Prefill(e, old(cache.Abs()), prompt, remote)
           case Done(c, out) => cache.Abs() == c && r == Ok(out.logits) && reusedPrefixTokens == out.plan.reused
           case Failed(c, why) => cache.Abs() == c && r == Err(why) && reusedPrefixTokens == old(reusedPrefixTokens)
      ensures r.Ok? ==> reusedPrefixTokens + |r.value| == |prompt|
    {
      hide Inv, Session.Acquire, Session.PrefillSuffix, RegisterFrom, CrossNode.PoolOk, PagedLayer.Computes;
      var reused := AcquirePrefix(remote);
      r := PrefillSuffix(e.net, hs, e.rule, cache, prompt, reused);
      if r.Ok? {
        LiveIsBacked(e.cfg, cache.Abs(), prompt);
        ghost var prefilled := cache.Abs();
        cache.RegisterPrefix(prompt);
        assert cache.Abs() == Register(e.cfg, prefilled, prompt);
        reusedPrefixTokens := reused;
      }
    }

    /** `finish`: the encoded bundle to put, if there is a store, a key, and something new worth it */
    method Finish() returns (r: Option<seq<Codec.Byte>>)
      requires Valid() && Mapped(e.cfg, cache.Abs())
      ensures r == Publish.Finished(e, enabled, cache.Abs(), prompt, reusedPrefixTokens)
    {
      hide Inv, Mapped, CrossNode.PoolOk, CrossNode.Export;
      var reusable := Session.ReusableTokenCount(BLOCK_SIZE, |prompt|);
      if !enabled || reusable == 0 {
        return None;
      }
      if !Publish.ShouldStore(|prompt|, reusable, reusedPrefixTokens) {
        return None;
      }
      var bundle := cache.ExportPrefixBundle(e.modelId, prompt, reusable);
      if bundle.Err? {
        return None;
      }
      var bytes := FrameCodec.Encode(e.header, bundle.value);
      match bytes
      case Err(_) => r := None;
      case Ok(frame) => r := Some(frame);
    }
  }

  lemma LiveIsBacked(cfg: Config, c: Cache, toks: seq<Token>)
    requires Inv(cfg, c) && |toks| <= c.len
    ensures Counted(cfg, c) && |toks| / BLOCK_SIZE <= |c.blocks|
  {
  }

  // ------------------------------------------------------------------ decoding

  function After(out: seq<Act>, r: Outcome<seq<Act>>): Outcome<seq<Act>> {
    match r
    case Failed(c, why) => Failed(c, why)
    case Done(c, rest) => Done(c, out + rest)
  }

  lemma AfterNone(r: Outcome<seq<Act>>)
    ensures After([], r) == r
  {
    match r
    case Failed(_, _) =>
    case Done(_, rest) => assert [] + rest == rest;
  }

  lemma {:induction false} GenerateStep(e: Session.Engine, c: Cache, toks: seq<Token>, pos: nat, out: seq<Act>)
    requires Inv(e.cfg, c)
    ensures toks == [] ==> After(out, Session.Generate(e, c, toks, pos)) == Done(c, out)
    ensures toks != [] ==>
      match Session.Forward(e.cfg, e.net, e.rule, c, [toks[0]], pos)
      case Failed(c', why) => After(out, Session.Generate(e, c, toks, pos)) == Failed(c', why)
      case Done(c', logits) =>
        After(out, Session.Generate(e, c, toks, pos)) ==
          After(out + logits, Session.Generate(e, c', toks[1..], pos + 1))
  {
    hide Inv, Session.Forward;
    if toks == [] {
      assert out + [] == out;
    } else {
      var f := Session.Forward(e.cfg, e.net, e.rule, c, [toks[0]], pos);
      if f.Done? {
        var rest := Session.Generate(e, f.c, toks[1..], pos + 1);
        if rest.Done? {
          assert out + (f.value + rest.value) == out + f.value + rest.value;
        }
      }
    }
  }

  /** The decode loop of `generate`, given the tokens the sampler picks: one forward call each, from `pos` on. */
  method Decode(e: Session.Engine, hs: PagedLayer.Heads, cache: KvCache, toks: seq<Token>, pos: nat)
    returns (r: Result<seq<Act>, Reason>)
    requires cache.Valid() && cache.cfg == e.cfg && Inv(e.cfg, cache.Abs())
    requires CrossNode.PoolOk(e.cfg, cache.Abs().pool) && PagedLayer.Computes(e.cfg, e.net, hs)
    modifies cache.Repr()
    ensures CrossNode.PoolOk(e.cfg, cache.Abs().pool)
    ensures Left(cache.Abs(), r) == Session.Generate(e, old(cache.Abs()), toks, pos)
  {
    hide Inv, Session.Forward, Session.Generate, CrossNode.PoolOk, PagedLayer.Computes;
    var out: seq<Act> := [];
    var i := 0;
    assert toks[0..] == toks;
    AfterNone(Session.Generate(e, cache.Abs(), toks, pos));
    while i < |toks|
      invariant 0 <= i <= |toks| && Inv(e.cfg, cache.Abs()) && CrossNode.PoolOk(e.cfg, cache.Abs().pool)
      invariant After(out, Session.Generate(e, cache.Abs(), toks[i..], pos + i)) ==
        Session.Generate(e, old(cache.Abs()), toks, pos)
    {
      GenerateStep(e, cache.Abs(), toks[i..], pos + i, out);
      assert toks[i..][1..] == toks[i + 1..];
      var logits := Forward(e.net, hs, e.rule, cache, [toks[i]], pos + i);
      if logits.Err? {
        return Err(logits.error);
      }
      out := out + logits.value;
      i := i + 1;
    }
    GenerateStep(e, cache.Abs(), toks[i..], pos + i, out);
    r := Ok(out);
  }

  // ------------------------------------------------------------------ a whole request

  /** What a request leaves and exports, by how far it got. */
  lemma RequestParts(e: Session.Engine, c: Cache, prompt: seq<Token>, remote: Session.Remote, replies: seq<Token>)
    requires Inv(e.cfg, c)
    ensures var p := Session.Prefill(e, c, prompt, remote);
      var left, frame := Runs.After(e, c, Runs.Serve(prompt, remote, replies)),
        Fleet.Exported(e, c, prompt, remote, replies);
      if p.Failed? then left == p.c && frame.None?
      else
        var g := Session.Generate(e, p.c, replies, |prompt|);
        && left == g.c && (g.Failed? ==> frame.None?)
        && (g.Done? && Mapped(e.cfg, left) && CrossNode.PoolOk(e.cfg, left.pool) ==>
              frame == Publish.Finished(e, !remote.Disabled?, left, prompt, p.value.plan.reused))
  {
    hide Inv, CrossNode.PoolOk, Session.Prefill, Session.Generate, Mapped, Publish.Finished;
  }

  /**
   `generate`, given the tokens the sampler picks and what the store answers: a session, its prefill, the decode
   loop, and what is left to publish. It leaves what a request of a run leaves, and publishes what an engine of
   a fleet exports.
   */
  method Generate(e: Session.Engine, hs: PagedLayer.Heads, cache: KvCache, prompt: seq<Token>, remote: Session.Remote,
                  replies: seq<Token>)
    returns (r: Result<seq<Act>, Reason>, frame: Option<seq<Codec.Byte>>)
    requires cache.Valid() && cache.cfg == e.cfg && Inv(e.cfg, cache.Abs())
    requires CrossNode.PoolOk(e.cfg, cache.Abs().pool) && PagedLayer.Computes(e.cfg, e.net, hs)
    modifies cache.Repr()
    ensures CrossNode.PoolOk(e.cfg, cache.Abs().pool)
    ensures cache.Abs() == Runs.After(e, old(cache.Abs()), Runs.Serve(prompt, remote, replies))
    ensures frame == Fleet.Exported(e, old(cache.Abs()), prompt, remote, replies)
    ensures r.Ok? <==>
      && Session.Prefill(e, old(cache.Abs()), prompt, remote).Done?
      && Session.Generate(e, Session.Prefill(e, old(cache.Abs()), prompt, remote).c, replies, |prompt|).Done?
    ensures r.Ok? ==>
      var p := Session.Prefill(e, old(cache.Abs()), prompt, remote);
      r.value == p.value.logits + Session.Generate(e, p.c, replies, |prompt|).value
  {
    hide Inv, CrossNode.PoolOk, PagedLayer.Computes, Session.Prefill, Session.Generate, Mapped, Publish.Finished,
      Session.Acquire, Runs.After, Fleet.Exported;
    frame := None;
    RequestParts(e, cache.Abs(), prompt, remote, replies);
    var session := new KvSession(e, hs, cache, prompt, !remote.Disabled?);
    var logits := session.Prefill(remote);
    if logits.Err? {
      return Err(logits.error), None;
    }
    var decoded := Decode(e, hs, cache, replies, |prompt|);
    if decoded.Err? {
      return Err(decoded.error), None;
    }
    InvMapped(e.cfg, cache.Abs());
    frame := session.Finish();
    r := Ok(logits.value + decoded.value);
  }
}
