/**
 The two halves together. Engines publish frames of live sequences into the shared store and prefill
 from what the store answers, under every interleaving of the protocol; their answers are still those
 of a cold run.
 */
module EndToEnd {
  import opened Basics
  import opened Network
  import opened CacheState
  import opened Session
  import opened Contents
  import opened PrefillProofs
  import opened Publish
  import CrossNode
  import Codec
  import DistKv
  import Master
  import Worker

  /** `bytes` were published after serving `prompt`, from a live sequence of an engine that is kin of `e`. */
  ghost predicate PublishedFrom(e: Engine, from: Engine, c: Cache, all: seq<Token>, prompt: seq<Token>,
                                bytes: Worker.Bytes) {
    && Kin(from, e) && Mapped(from.cfg, c) && CrossNode.PoolOk(from.cfg, c.pool) && Live(from.cfg, from.net, c, all)
    && prompt <= all && Published(from, c, prompt) == Ok(bytes) &&
      Codec.HeaderOk(from.header, PublishedMeta(from, prompt))
  }

  ghost predicate PublishedLive(e: Engine, bytes: Worker.Bytes) {
    exists from, c, all, prompt :: PublishedFrom(e, from, c, all, prompt, bytes)
  }

  lemma PublishedLiveIsHonest(e: Engine, bytes: Worker.Bytes, next: seq<Token>)
    requires PublishedLive(e, bytes)
    ensures HonestRemote(e, next, Found(bytes))
  {
    hide HonestRemote, Mapped, CrossNode.PoolOk, Live, Published;
    var from, c, all, prompt :| PublishedFrom(e, from, c, all, prompt, bytes);
    PublishedIsHonest(from, c, all, prompt, e, next);
  }

  /** Every put of the run is a published frame. */
  ghost predicate OnlyPublished(e: Engine, steps: seq<DistKv.Step>) {
    forall i :: 0 <= i < |steps| && steps[i].PutStart? ==> PublishedLive(e, steps[i].bytes)
  }

  ghost predicate PutsPublished(e: Engine, s: DistKv.Sys) {
    forall slot :: slot in s.puts ==> PublishedLive(e, s.puts[slot].bytes)
  }

  lemma StepPublished(e: Engine, s: DistKv.Sys, step: DistKv.Step)
    requires DistKv.Enabled(s, step) && PutsPublished(e, s) && (step.PutStart? ==> PublishedLive(e, step.bytes))
    ensures PutsPublished(e, DistKv.Apply(s, step))
  {
    hide PublishedLive;
  }

  lemma {:induction false} RunPublished(e: Engine, s: DistKv.Sys, steps: seq<DistKv.Step>)
    requires DistKv.RunOk(s, steps) && PutsPublished(e, s) && OnlyPublished(e, steps)
    ensures PutsPublished(e, DistKv.After(s, steps))
    decreases |steps|
  {
    hide PublishedLive, PutsPublished, DistKv.Enabled, DistKv.Apply;
    if steps != [] {
      StepPublished(e, s, steps[0]);
      RunPublished(e, DistKv.Apply(s, steps[0]), steps[1..]);
    }
  }

  /** What a session makes of the store's answer. */
  function AsRemote(answer: Option<Worker.Bytes>): Remote {
    match answer
    case None => Missing
    case Some(bytes) => Found(bytes)
  }

  /**
   Whatever the store answers after any run of the protocol, stale, from another worker or not at all,
   a prefill that takes it stays transparent: what it leaves live and returns is what a cold run would.
   */
  lemma SharedPrefillTransparent(e: Engine, paths: set<seq<Token>>, c: Cache, prompt: seq<Token>,
                                 steps: seq<DistKv.Step>, key: Master.Key, answer: Option<Worker.Bytes>)
    requires DistKv.RunOk(DistKv.INIT, steps) && OnlyPublished(e, steps)
    requires DistKv.ExactOrMiss(DistKv.After(DistKv.INIT, steps), key, answer)
    requires Ready(e, paths, c) && Covers(paths, prompt)
    requires SuffixWritesRight(e, Acquire(e, c, prompt, AsRemote(answer)).c, prompt)
    ensures Answers(e, paths, c, prompt, Served(Prefill(e, c, prompt, AsRemote(answer))))
  {
    hide Ready, SuffixWritesRight, Acquire, Answers, PublishedLive;
    RunPublished(e, DistKv.INIT, steps);
    if answer.Some? {
      PublishedLiveIsHonest(e, answer.value, prompt);
    }
    PrefillTransparent(e, paths, c, prompt, AsRemote(answer));
  }
}
