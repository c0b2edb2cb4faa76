/**
 Sharing works: a run of a fleet of two engines on which the second reuses, block for block, what the first
 computed, published and put.
 */
module Sharing {
  import opened Basics
  import opened Network
  import opened CacheState
  import opened Session
  import opened Runs
  import opened Outcomes
  import opened Publish
  import opened Fleet
  import Codec
  import CrossNode
  import DistKv
  import Divergence
  import Master
  import Reuse
  import Worker

  const A: Master.Addr := "a"
  const W: Master.WorkerId := "w"

  // ------------------------------------------------------------------ the store

  /** A worker with room comes up and registers; `bytes` are put on it under `key`, with success, and routed to. */
  function StoreSteps(key: Master.Key, bytes: Worker.Bytes, capacity: nat): seq<DistKv.Step> {
    [DistKv.Start(A, capacity), DistKv.Register(0, W, A, capacity), DistKv.PutStart(0, key, bytes, None, Some(W), 0),
     DistKv.Write((key, 1), A), DistKv.Commit((key, 1)), DistKv.GetRoute(0, key)]
  }

  function RouteTo(key: Master.Key): Master.Route {
    Master.Route(key, W, A, 1)
  }

  lemma StepThen(s: DistKv.Sys, steps: seq<DistKv.Step>)
    requires steps != [] && DistKv.Enabled(s, steps[0]) && DistKv.RunOk(DistKv.Apply(s, steps[0]), steps[1..])
    ensures DistKv.RunOk(s, steps) && DistKv.After(s, steps) == DistKv.After(DistKv.Apply(s, steps[0]), steps[1..])
  {
  }

  /** The worker is up and registered. */
  ghost predicate Up(s: DistKv.Sys, capacity: nat) {
    && s.master == Master.State(map[W := Master.WorkerMeta(A, capacity, 0, 1, 0, true)], map[])
    && A in s.stores && s.stores[A] == Worker.Empty(capacity) && s.puts == map[]
  }

  lemma ComesUp(capacity: nat)
    ensures var s := DistKv.Apply(DistKv.INIT, DistKv.Start(A, capacity));
      Up(DistKv.Apply(s, DistKv.Register(0, W, A, capacity)), capacity)
  {
    var s := DistKv.Apply(DistKv.INIT, DistKv.Start(A, capacity));
    assert DistKv.Apply(s, DistKv.Register(0, W, A, capacity)).master.workers ==
      map[W := Master.WorkerMeta(A, capacity, 0, 1, 0, true)];
  }

  ghost predicate Opened(s: DistKv.Sys, key: Master.Key, bytes: Worker.Bytes, capacity: nat, phase: Master.Phase) {
    && s.master == Master.State(map[W := Master.WorkerMeta(A, capacity, |bytes|, 1, 0, true)],
                                map[key := Master.ObjectMeta(1, phase, 0, |bytes|, W, 1)])
    && A in s.stores && s.puts == map[(key, 1) := DistKv.Put(0, bytes)]
  }

  lemma Opens(s: DistKv.Sys, key: Master.Key, bytes: Worker.Bytes, capacity: nat)
    requires Up(s, capacity) && |bytes| <= capacity
    ensures var put := DistKv.PutStart(0, key, bytes, None, Some(W), 0);
      && DistKv.Enabled(s, put) && Opened(DistKv.Apply(s, put), key, bytes, capacity, Master.Writing)
      && DistKv.Apply(s, put).stores == s.stores
  {
    var put := DistKv.PutStart(0, key, bytes, None, Some(W), 0);
    assert Master.Released(s.master, key) == s.master;
    assert Master.HasRoom(s.master, 0, |bytes|, W);
    var m := DistKv.Apply(s, put).master;
    assert m.workers == map[W := Master.WorkerMeta(A, capacity, |bytes|, 1, 0, true)];
    assert m.objects == map[key := Master.ObjectMeta(1, Master.Writing, 0, |bytes|, W, 1)];
  }

  lemma Writes(s: DistKv.Sys, key: Master.Key, bytes: Worker.Bytes, capacity: nat)
    requires Opened(s, key, bytes, capacity, Master.Writing) && |bytes| <= capacity &&
      s.stores[A] == Worker.Empty(capacity)
    ensures var write := DistKv.Write((key, 1), A);
      && DistKv.Enabled(s, write) && Opened(DistKv.Apply(s, write), key, bytes, capacity, Master.Writing)
      && DistKv.Apply(s, write).stores[A].objects == map[(key, 1) := bytes]
  {
  }

  lemma Commits(s: DistKv.Sys, key: Master.Key, bytes: Worker.Bytes, capacity: nat)
    requires Opened(s, key, bytes, capacity, Master.Writing)
    ensures var commit := DistKv.Commit((key, 1));
      && DistKv.Enabled(s, commit) && Opened(DistKv.Apply(s, commit), key, bytes, capacity, Master.Complete)
      && DistKv.Apply(s, commit).stores == s.stores
  {
    assert DistKv.Apply(s, DistKv.Commit((key, 1))).master.objects ==
      map[key := Master.ObjectMeta(1, Master.Complete, 0, |bytes|, W, 1)];
  }

  lemma Routes(s: DistKv.Sys, key: Master.Key, bytes: Worker.Bytes, capacity: nat)
    requires Opened(s, key, bytes, capacity, Master.Complete)
    ensures var s' := DistKv.Apply(s, DistKv.GetRoute(0, key)); RouteTo(key) in s'.routes && s'.stores == s.stores
  {
  }

  /** The put comes through, and the route to it leads to the bytes. */
  lemma StoreServes(key: Master.Key, bytes: Worker.Bytes, capacity: nat)
    requires |bytes| <= capacity
    ensures DistKv.RunOk(DistKv.INIT, StoreSteps(key, bytes, capacity))
    ensures var s := DistKv.After(DistKv.INIT, StoreSteps(key, bytes, capacity));
      RouteTo(key) in s.routes && DistKv.Fetch(s, A, RouteTo(key)) == Some(bytes)
  {
    hide DistKv.Enabled, DistKv.Apply, DistKv.RunOk, DistKv.After, Up, Opened, Worker.Empty;
    var steps := StoreSteps(key, bytes, capacity);
    StartsAnyTime(capacity);
    var s1 := DistKv.Apply(DistKv.INIT, steps[0]);
    RegistersAnyTime(s1, capacity);
    var s2 := DistKv.Apply(s1, steps[1]);
    ComesUp(capacity);
    Opens(s2, key, bytes, capacity);
    var s3 := DistKv.Apply(s2, steps[2]);
    UpIsEmpty(s2, capacity);
    Writes(s3, key, bytes, capacity);
    var s4 := DistKv.Apply(s3, steps[3]);
    Commits(s4, key, bytes, capacity);
    var s5 := DistKv.Apply(s4, steps[4]);
    Routes(s5, key, bytes, capacity);
    RoutesAnyTime(s5, key);
    DistKv.TwoSteps(s4, steps[4], steps[5]);
    assert steps[4..] == [steps[4], steps[5]];
    assert steps[3..][1..] == steps[4..] && steps[2..][1..] == steps[3..] && steps[1..][1..] == steps[2..];
    StepThen(s3, steps[3..]);
    StepThen(s2, steps[2..]);
    StepThen(s1, steps[1..]);
    StepThen(DistKv.INIT, steps);
    FetchesHeld(DistKv.Apply(s5, steps[5]), key, bytes);
  }

  lemma UpIsEmpty(s: DistKv.Sys, capacity: nat)
    requires Up(s, capacity)
    ensures A in s.stores && s.stores[A] == Worker.Empty(capacity)
  {
  }

  lemma StartsAnyTime(capacity: nat)
    ensures DistKv.Enabled(DistKv.INIT, DistKv.Start(A, capacity))
  {
  }

  lemma RegistersAnyTime(s: DistKv.Sys, capacity: nat)
    ensures DistKv.Enabled(s, DistKv.Register(0, W, A, capacity))
  {
  }

  lemma RoutesAnyTime(s: DistKv.Sys, key: Master.Key)
    ensures DistKv.Enabled(s, DistKv.GetRoute(0, key))
  {
  }

  lemma FetchesHeld(s: DistKv.Sys, key: Master.Key, bytes: Worker.Bytes)
    requires A in s.stores && s.stores[A].objects == map[(key, 1) := bytes]
    ensures DistKv.Fetch(s, A, RouteTo(key)) == Some(bytes)
  {
  }

  // ------------------------------------------------------------------ the fleet

  /** The request of the first engine, to which the store has no answer yet. */
  function First(prompt: seq<Token>, key: Master.Key, replies: seq<Token>): Move {
    Serving(0, prompt, LocalHit(A, key), replies)
  }

  /** The request of the second engine, which follows the route to what the first put. */
  function Second(prompt: seq<Token>, key: Master.Key, replies: seq<Token>): Move {
    Serving(1, prompt, Fetched(A, RouteTo(key)), replies)
  }

  lemma NewCovers(cfg: Config, n: nat)
    requires n <= cfg.maxSeqLen
    ensures Reset(cfg, New(cfg)) == New(cfg) && n <= |New(cfg).alloc.free| * BLOCK_SIZE && New(cfg).blocks == []
  {
    Reuse.NewLinear(cfg);
    Divergence.BlocksCover(cfg, n);
  }

  /** Without an answer from the store a new engine has the local match, which is nothing, and all its blocks. */
  lemma NothingFound(e: Engine, prompt: seq<Token>, len: nat)
    requires 2 * BLOCK_SIZE <= |prompt| <= len <= e.cfg.maxSeqLen
    ensures !Covered(e, New(e.cfg), prompt, Missing)
    ensures len <= (Matched(e, New(e.cfg), prompt, Missing) + |Reset(e.cfg, New(e.cfg)).alloc.free|) * BLOCK_SIZE
    ensures Reused(e, New(e.cfg), prompt, Missing) < ReusableTokenCount(BLOCK_SIZE, |prompt|)
  {
    hide Inv, New, Reset, TakeLocal, ReusableTokenCount, Rejects, Codec.Decode;
    NewCovers(e.cfg, len);
    NewHasRoom(e.cfg, prompt);
  }

  /** A first request is served to its end, and there is a frame to put. */
  lemma FirstPublishes(e: Engine, prompt: seq<Token>, replies: seq<Token>)
    requires |prompt| >= 2 * BLOCK_SIZE && |prompt| + |replies| <= e.cfg.maxSeqLen && CrossNode.NetOk(e.cfg, e.net)
    ensures var p := Prefill(e, New(e.cfg), prompt, Missing);
      && p.Done? && Generate(e, p.c, replies, |prompt|).Done?
      && var left := Generate(e, p.c, replies, |prompt|).c;
         && Mapped(e.cfg, left) && CrossNode.PoolOk(e.cfg, left.pool) && left.len == |prompt| + |replies|
         && Exported(e, New(e.cfg), prompt, Missing, replies).Some?
         && Published(e, left, prompt) == Ok(Exported(e, New(e.cfg), prompt, Missing, replies).value)
  {
    hide Inv, Mapped, CrossNode.PoolOk, CrossNode.NetOk, New, Prefill, Generate, Published, Reset, TakeLocal,
      ReusableTokenCount, Covered, Matched, Reused;
    NothingFound(e, prompt, |prompt| + |replies|);
    NewPoolOk(e.cfg);
    RequestSucceedsExactly(e, New(e.cfg), prompt, Missing, replies);
    ServedPublishesExactly(e, New(e.cfg), prompt, Missing, replies);
  }

  /** A new engine that is answered with the frame takes it, and computes the rest of the prompt only. */
  lemma SecondTakes(e: Engine, left: Cache, prompt: seq<Token>)
    requires 2 * BLOCK_SIZE <= |prompt| <= e.cfg.maxSeqLen && |prompt| <= left.len
    requires Mapped(e.cfg, left) && CrossNode.PoolOk(e.cfg, left.pool) && Published(e, left, prompt).Ok?
    requires Codec.HeaderOk(e.header, PublishedMeta(e, prompt))
    ensures var r := Prefill(e, New(e.cfg), prompt, Found(Published(e, left, prompt).value));
      && r.Done? && r.value.plan.reused == ReusableTokenCount(BLOCK_SIZE, |prompt|)
      && r.value.plan.reused + |r.value.logits| == |prompt|
  {
    hide Inv, Mapped, CrossNode.PoolOk, New, Prefill, Published, Reset, TakeLocal, Codec.Decode, Codec.HeaderOk, Takes,
      ReusableTokenCount;
    var remote := Found(Published(e, left, prompt).value);
    NewCovers(e.cfg, |prompt|);
    NewHasRoom(e.cfg, prompt);
    Reuse.CapFormulasAgree(BLOCK_SIZE, |prompt|);
    Divergence.PublishedIsTaken(e, left, New(e.cfg), prompt);
    PrefillSucceedsExactly(e, New(e.cfg), prompt, remote);
    PrefillReports(e, New(e.cfg), prompt, remote);
  }

  /**
   The second engine reuses what the first computed. Two engines of one configuration start empty, over an empty
   store. The first serves any prompt of two blocks or more and publishes; its frame is put, committed and routed
   to; the second is asked the same prompt and follows the route. The run is one of the fleet, the second request
   succeeds, and computes nothing but what has to be left over of the prompt.
   */
  lemma SecondEngineReuses(e: Engine, prompt: seq<Token>, replies: seq<Token>, key: Master.Key, more: seq<Token>)
    requires |prompt| >= 2 * BLOCK_SIZE && |prompt| + |replies| <= e.cfg.maxSeqLen && CrossNode.NetOk(e.cfg, e.net)
    requires Codec.HeaderOk(e.header, PublishedMeta(e, prompt))
    ensures Exported(e, New(e.cfg), prompt, Missing, replies).Some?
    ensures var es, frame := [e, e], Exported(e, New(e.cfg), prompt, Missing, replies).value;
      var moves := [First(prompt, key, replies)] + AsMoves(StoreSteps(key, frame, |frame|));
      && Fleet.RunOk(es, Start(es), moves)
      && var f := Fleet.RunOf(es, Start(es), moves);
         && Enabled(es, f, Second(prompt, key, more))
         && var r := Prefill(e, f.caches[1], prompt, AnswerOf(f.sys, Second(prompt, key, more).source));
            && r.Done? && r.value.plan.reused == ReusableTokenCount(BLOCK_SIZE, |prompt|)
            && r.value.plan.reused + |r.value.logits| == |prompt|
  {
    hide Inv, Mapped, CrossNode.PoolOk, CrossNode.NetOk, New, Prefill, Generate, Published, Exported, After,
      Codec.HeaderOk, StoreSteps, DistKv.RunOk, DistKv.After, ReusableTokenCount;
    var es, f0 := [e, e], Start([e, e]);
    FirstPublishes(e, prompt, replies);
    var frame := Exported(e, New(e.cfg), prompt, Missing, replies).value;
    var first := First(prompt, key, replies);
    assert AnswerOf(f0.sys, first.source) == Missing;
    var f1 := Apply(es, f0, first);
    assert f1.sys == DistKv.INIT && f1.caches[1] == New(e.cfg) && frame in f1.exports;
    StoreServes(key, frame, |frame|);
    PutsOnly(key, frame, |frame|);
    ProtocolRuns(es, f1, StoreSteps(key, frame, |frame|));
    var moves := [first] + AsMoves(StoreSteps(key, frame, |frame|));
    assert moves[0] == first && moves[1..] == AsMoves(StoreSteps(key, frame, |frame|));
    SecondTakes(e, Generate(e, Prefill(e, New(e.cfg), prompt, Missing).c, replies, |prompt|).c, prompt);
  }

  lemma PutsOnly(key: Master.Key, bytes: Worker.Bytes, capacity: nat)
    ensures var steps := StoreSteps(key, bytes, capacity);
      forall i :: 0 <= i < |steps| && steps[i].PutStart? ==> steps[i].bytes == bytes
  {
  }
}
