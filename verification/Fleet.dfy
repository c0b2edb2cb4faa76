/**
 A fleet over one store. Any number of engines, each starting empty, serve requests with whatever the
 store answers them, publish what they have served, and share Master and workers with every other
 client; over every run, every request that succeeds is answered as a cold run would answer it.
 */
module Fleet {
  import opened Basics
  import opened Network
  import opened CacheState
  import opened Session
  import opened Contents
  import opened PrefillProofs
  import opened Runs
  import opened Publish
  import opened EndToEnd
  import Allocator
  import Codec
  import CrossNode
  import DistKv
  import Master
  import Worker

  /** The caches of the engines, the store, and all frames engines have exported so far. */
  datatype State = State(caches: seq<Cache>, sys: DistKv.Sys, exports: set<Worker.Bytes>)

  /** Where the answer to a session's `get_object` comes from. */
  datatype Source =
    | NoStore
    | Broken
    | LocalHit(addr: Master.Addr, key: Master.Key)
    | Fetched(addr: Master.Addr, route: Master.Route)

  /** A protocol step of anyone, one request served by engine `i`, or a clear of its registry. */
  datatype Move =
    | Protocol(step: DistKv.Step)
    | Serving(i: nat, prompt: seq<Token>, source: Source, replies: seq<Token>)
    | Clearing(i: nat, keys: seq<Allocator.Hash>)

  function AnswerOf(sys: DistKv.Sys, source: Source): Remote {
    match source
    case NoStore => Disabled
    case Broken => GetFailed
    case LocalHit(addr, key) => AsRemote(DistKv.LocalRead(sys, addr, key))
    case Fetched(addr, route) => AsRemote(DistKv.Fetch(sys, addr, route))
  }

  // ------------------------------------------------------------------ steps

  /** There is a cache for every engine, and it satisfies the cache's invariant. */
  ghost predicate Standing(es: seq<Engine>, f: State) {
    |f.caches| == |es| && forall i :: 0 <= i < |es| ==> Inv(es[i].cfg, f.caches[i])
  }

  /** The frame `finish` leaves after a request, if it was served to the end and there is something to put. */
  ghost function Exported(e: Engine, c: Cache, prompt: seq<Token>, remote: Remote,
                          replies: seq<Token>): Option<Worker.Bytes>
    requires Inv(e.cfg, c)
  {
    var p := Prefill(e, c, prompt, remote);
    if p.Failed? then None else
      var g := Generate(e, p.c, replies, |prompt|);
      if g.Failed? || !Mapped(e.cfg, g.c) || !CrossNode.PoolOk(e.cfg, g.c.pool) then None
      else Finished(e, !remote.Disabled?, g.c, prompt, p.value.plan.reused)
  }

  /** Puts are of frames some engine exported, at any later time; a fetch follows a route the Master gave out. */
  ghost predicate Enabled(es: seq<Engine>, f: State, move: Move)
    requires Standing(es, f)
  {
    match move
    case Protocol(step) => DistKv.Enabled(f.sys, step) && (step.PutStart? ==> step.bytes in f.exports)
    case Serving(i, prompt, source, replies) => i < |es| && (source.Fetched? ==> source.route in f.sys.routes)
    case Clearing(i, keys) => i < |es| && Lists(keys, f.caches[i].reg.Keys)
  }

  /** Engine `i` has handled a request. */
  ghost function Handled(es: seq<Engine>, f: State, i: nat, req: Request): (f': State)
    requires Standing(es, f) && i < |es| && Drains(f.caches[i], req)
    ensures Standing(es, f')
  {
    hide Inv;
    f.(caches := f.caches[i := After(es[i], f.caches[i], req)])
  }

  ghost function Apply(es: seq<Engine>, f: State, move: Move): (f': State)
    requires Standing(es, f) && Enabled(es, f, move)
    ensures Standing(es, f')
  {
    hide Inv, Prefill, Generate, Exported, AnswerOf;
    match move
    case Protocol(step) => f.(sys := DistKv.Apply(f.sys, step))
    case Serving(i, prompt, source, replies) =>
      var remote := AnswerOf(f.sys, source);
      var frame := Exported(es[i], f.caches[i], prompt, remote, replies);
      var exports := if frame.Some? then f.exports + {frame.value} else f.exports;
      Handled(es, f, i, Serve(prompt, remote, replies)).(exports := exports)
    case Clearing(i, keys) => Handled(es, f, i, ClearCache(keys))
  }

  ghost function Start(es: seq<Engine>): (f: State)
    ensures Standing(es, f)
  {
    State(seq(|es|, i requires 0 <= i < |es| => New(es[i].cfg)), DistKv.INIT, {})
  }

  ghost predicate RunOk(es: seq<Engine>, f: State, moves: seq<Move>)
    requires Standing(es, f)
    decreases |moves|
  {
    moves == [] || (Enabled(es, f, moves[0]) && RunOk(es, Apply(es, f, moves[0]), moves[1..]))
  }

  ghost function RunOf(es: seq<Engine>, f: State, moves: seq<Move>): (f': State)
    requires Standing(es, f) && RunOk(es, f, moves)
    ensures Standing(es, f')
    decreases |moves|
  {
    if moves == [] then f else RunOf(es, Apply(es, f, moves[0]), moves[1..])
  }

  // ------------------------------------------------------------------ its parts

  /** The steps of the store in a run. */
  function StepsOf(moves: seq<Move>): seq<DistKv.Step> {
    if moves == [] then []
    else (if moves[0].Protocol? then [moves[0].step] else []) + StepsOf(moves[1..])
  }

  /** The requests of engine `i` in a run, each with what the store answered it. */
  ghost function RequestsOf(es: seq<Engine>, f: State, moves: seq<Move>, i: nat): seq<Request>
    requires Standing(es, f) && RunOk(es, f, moves)
    decreases |moves|
  {
    if moves == [] then []
    else
      (match moves[0]
       case Serving(j, prompt, source, replies) => if j == i then [Serve(prompt, AnswerOf(f.sys, source), replies)]
         else []
       case Clearing(j, keys) => if j == i then [ClearCache(keys)] else []
       case Protocol(_) => [])
      + RequestsOf(es, Apply(es, f, moves[0]), moves[1..], i)
  }

  lemma StepsOfOne(moves: seq<Move>)
    requires moves != []
    ensures moves[0].Protocol? ==> StepsOf(moves) == [moves[0].step] + StepsOf(moves[1..])
    ensures !moves[0].Protocol? ==> StepsOf(moves) == StepsOf(moves[1..])
  {
  }

  /** The store in a run of the fleet is a run of the protocol. */
  lemma {:induction false} StoreRuns(es: seq<Engine>, f: State, moves: seq<Move>)
    requires Standing(es, f) && RunOk(es, f, moves)
    ensures DistKv.RunOk(f.sys, StepsOf(moves))
    ensures RunOf(es, f, moves).sys == DistKv.After(f.sys, StepsOf(moves))
    decreases |moves|
  {
    hide Inv, Standing, DistKv.Enabled, DistKv.Apply, Exported, AnswerOf, After, StepsOf;
    if moves == [] {
      assert StepsOf(moves) == [] by {
        NoSteps();
      }
    } else {
      StepsOfOne(moves);
      var next := Apply(es, f, moves[0]);
      StoreRuns(es, next, moves[1..]);
      if moves[0].Protocol? {
        var rest := StepsOf(moves[1..]);
        assert StepsOf(moves)[0] == moves[0].step && StepsOf(moves)[1..] == rest;
      }
    }
  }

  lemma NoSteps()
    ensures StepsOf([]) == []
  {
  }

  /** What the next move is to engine `i`. */
  lemma RequestsOfOne(es: seq<Engine>, f: State, moves: seq<Move>, i: nat)
    requires Standing(es, f) && RunOk(es, f, moves) && moves != [] && i < |es|
    ensures var next, rest := Apply(es, f, moves[0]), RequestsOf(es, Apply(es, f, moves[0]), moves[1..], i);
      || (RequestsOf(es, f, moves, i) == rest && next.caches[i] == f.caches[i])
      || exists req :: Inv(es[i].cfg, f.caches[i]) && Drains(f.caches[i], req)
           && RequestsOf(es, f, moves, i) == [req] + rest && next.caches[i] == After(es[i], f.caches[i], req)
  {
    hide Inv, After, Exported, AnswerOf;
    match moves[0]
    case Serving(j, prompt, source, replies) =>
      if j == i {
        var req := Serve(prompt, AnswerOf(f.sys, source), replies);
        assert Drains(f.caches[i], req);
      }
    case Clearing(j, keys) =>
      if j == i {
        assert Drains(f.caches[i], ClearCache(keys));
      }
    case Protocol(_) =>
  }

  /** Every engine of the fleet runs as it would alone, on the requests it gets and what the store answers them. */
  lemma {:induction false} EnginesRun(es: seq<Engine>, f: State, moves: seq<Move>, i: nat)
    requires Standing(es, f) && RunOk(es, f, moves) && i < |es|
    ensures Inv(es[i].cfg, f.caches[i]) && Runnable(es[i], f.caches[i], RequestsOf(es, f, moves, i))
    ensures i < |RunOf(es, f, moves).caches|
    ensures RunOf(es, f, moves).caches[i] == Runs.RunOf(es[i], f.caches[i], RequestsOf(es, f, moves, i))
    decreases |moves|
  {
    hide Inv, After, Apply, Enabled, RequestsOf;
    if moves == [] {
      NoRequests(es, f, i);
    } else {
      var next := Apply(es, f, moves[0]);
      EnginesRun(es, next, moves[1..], i);
      RequestsOfOne(es, f, moves, i);
      var rest := RequestsOf(es, next, moves[1..], i);
      if !(RequestsOf(es, f, moves, i) == rest && next.caches[i] == f.caches[i]) {
        var req :| Drains(f.caches[i], req) && RequestsOf(es, f, moves, i) == [req] + rest
          && next.caches[i] == After(es[i], f.caches[i], req);
        assert ([req] + rest)[0] == req && ([req] + rest)[1..] == rest;
      }
    }
  }

  lemma NoRequests(es: seq<Engine>, f: State, i: nat)
    requires Standing(es, f)
    ensures RequestsOf(es, f, [], i) == []
  {
  }

  function AsMoves(steps: seq<DistKv.Step>): seq<Move> {
    if steps == [] then [] else [Protocol(steps[0])] + AsMoves(steps[1..])
  }

  /** Any run of the protocol that puts exported frames only is a run of the fleet. */
  lemma {:induction false} ProtocolRuns(es: seq<Engine>, f: State, steps: seq<DistKv.Step>)
    requires Standing(es, f) && DistKv.RunOk(f.sys, steps)
    requires forall i :: 0 <= i < |steps| && steps[i].PutStart? ==> steps[i].bytes in f.exports
    ensures RunOk(es, f, AsMoves(steps)) && RunOf(es, f, AsMoves(steps)) == f.(sys := DistKv.After(f.sys, steps))
    decreases |steps|
  {
    hide Inv, DistKv.Enabled, DistKv.Apply;
    if steps != [] {
      var moves := AsMoves(steps);
      assert moves[0] == Protocol(steps[0]) && moves[1..] == AsMoves(steps[1..]);
      ProtocolRuns(es, f.(sys := DistKv.Apply(f.sys, steps[0])), steps[1..]);
    }
  }

  /** A frame that is exported stays with the fleet, so that it may be put at any later time. */
  lemma ExportIsOffered(es: seq<Engine>, f: State, move: Move)
    requires Standing(es, f) && Enabled(es, f, move) && move.Serving?
    ensures var frame := Exported(es[move.i], f.caches[move.i], move.prompt, AnswerOf(f.sys, move.source),
      move.replies);
      frame.Some? ==> frame.value in Apply(es, f, move).exports
    ensures f.exports <= Apply(es, f, move).exports
  {
    hide Inv, Exported, AnswerOf, After;
  }

  // ------------------------------------------------------------------ what is asked of the fleet

  /** Engines agree as engines of one fleet do, and no engine's paths in play collide. */
  ghost predicate Sane(es: seq<Engine>, paths: seq<set<seq<Token>>>) {
    && |paths| == |es|
    && (forall i :: 0 <= i < |es| ==> NoCollision(es[i].cfg, paths[i]) && CrossNode.NetOk(es[i].cfg, es[i].net))
    && (forall i, j :: 0 <= i < |es| && 0 <= j < |es| ==> Kin(es[i], es[j]))
  }

  /** The prompt is in play, its suffix batch does not go astray, and its header survives the frame. */
  ghost predicate MoveOk(es: seq<Engine>, paths: seq<set<seq<Token>>>, f: State, move: Move)
    requires Standing(es, f) && Enabled(es, f, move) && |paths| == |es|
  {
    move.Serving? ==>
      var e, c := es[move.i], f.caches[move.i];
      && Covers(paths[move.i], move.prompt)
      && SuffixWritesRight(e, Acquire(e, c, move.prompt, AnswerOf(f.sys, move.source)).c, move.prompt)
      && Codec.HeaderOk(e.header, PublishedMeta(e, move.prompt))
  }

  ghost predicate MovesOk(es: seq<Engine>, paths: seq<set<seq<Token>>>, f: State, moves: seq<Move>)
    requires Standing(es, f) && RunOk(es, f, moves) && |paths| == |es|
    decreases |moves|
  {
    moves == [] || (MoveOk(es, paths, f, moves[0]) && MovesOk(es, paths, Apply(es, f, moves[0]), moves[1..]))
  }

  // ------------------------------------------------------------------ the invariant

  ghost predicate EngineReady(e: Engine, paths: set<seq<Token>>, c: Cache) {
    Ready(e, paths, c) && CrossNode.PoolOk(e.cfg, c.pool)
  }

  /** Every engine can trust the frame. */
  ghost predicate Trusted(es: seq<Engine>, bytes: Worker.Bytes) {
    forall i :: 0 <= i < |es| ==> PublishedLive(es[i], bytes)
  }

  ghost predicate ExportsTrusted(es: seq<Engine>, f: State) {
    forall bytes :: bytes in f.exports ==> Trusted(es, bytes)
  }

  ghost predicate PutsExported(f: State) {
    forall slot :: slot in f.sys.puts ==> f.sys.puts[slot].bytes in f.exports
  }

  ghost predicate FleetInv(es: seq<Engine>, paths: seq<set<seq<Token>>>, f: State) {
    && Standing(es, f) && |paths| == |es|
    && (forall i :: 0 <= i < |es| ==> EngineReady(es[i], paths[i], f.caches[i]))
    && DistKv.Inv(f.sys) && ExportsTrusted(es, f) && PutsExported(f)
  }

  lemma ProtocolKeeps(es: seq<Engine>, paths: seq<set<seq<Token>>>, f: State, step: DistKv.Step)
    requires FleetInv(es, paths, f) && Enabled(es, f, Protocol(step))
    ensures FleetInv(es, paths, Apply(es, f, Protocol(step)))
  {
    hide DistKv.Inv, EngineReady, Trusted, Inv;
    DistKv.StepKeepsInv(f.sys, step);
    PutsStayExported(f, step);
  }

  lemma PutsStayExported(f: State, step: DistKv.Step)
    requires DistKv.Enabled(f.sys, step) && PutsExported(f) && (step.PutStart? ==> step.bytes in f.exports)
    ensures PutsExported(f.(sys := DistKv.Apply(f.sys, step)))
  {
  }

  /** Whatever the store answers, an engine may take it. */
  lemma AnswerIsHonest(es: seq<Engine>, paths: seq<set<seq<Token>>>, f: State, i: nat, source: Source,
                       prompt: seq<Token>)
    requires FleetInv(es, paths, f) && i < |es| && (source.Fetched? ==> source.route in f.sys.routes)
    ensures HonestRemote(es[i], prompt, AnswerOf(f.sys, source))
  {
    hide EngineReady, Inv, HonestRemote, PublishedLive, DistKv.LocalRead, DistKv.Fetch, DistKv.Inv;
    var answer := if source.LocalHit? then DistKv.LocalRead(f.sys, source.addr, source.key)
                  else if source.Fetched? then DistKv.Fetch(f.sys, source.addr, source.route) else None;
    var key := if source.LocalHit? then source.key else if source.Fetched? then source.route.key else "";
    if source.LocalHit? {
      DistKv.LocalReadIsExact(f.sys, source.addr, source.key);
    } else if source.Fetched? {
      DistKv.FetchIsExact(f.sys, source.addr, source.route);
    }
    if answer.Some? {
      var slot :| slot in f.sys.commits && slot in f.sys.puts && slot.0 == key &&
        f.sys.puts[slot].bytes == answer.value;
      assert Trusted(es, answer.value);
      PublishedLiveIsHonest(es[i], answer.value, prompt);
    } else {
      NothingIsHonest(es[i], prompt, AnswerOf(f.sys, source));
    }
  }

  lemma NothingIsHonest(e: Engine, prompt: seq<Token>, remote: Remote)
    requires !remote.Found?
    ensures HonestRemote(e, prompt, remote)
  {
  }

  /** A request served by a ready engine leaves it ready, and what it exports can be trusted by its kin. */
  lemma ServeKeepsEngine(e: Engine, paths: set<seq<Token>>, c: Cache, prompt: seq<Token>, remote: Remote,
                         replies: seq<Token>, kin: Engine)
    requires EngineReady(e, paths, c) && CrossNode.NetOk(e.cfg, e.net) && RequestOk(e, paths, c, prompt, remote)
    requires Kin(e, kin) && Codec.HeaderOk(e.header, PublishedMeta(e, prompt))
    ensures EngineReady(e, paths, After(e, c, Serve(prompt, remote, replies)))
    ensures Exported(e, c, prompt, remote, replies).Some? ==>
      PublishedLive(kin, Exported(e, c, prompt, remote, replies).value)
  {
    hide Inv, RequestOk, Prefill, Generate, Published, CrossNode.PoolOk, Codec.HeaderOk;
    ServeReady(e, paths, c, prompt, remote, replies);
    AfterOk(e, c, Serve(prompt, remote, replies));
    var frame := Exported(e, c, prompt, remote, replies);
    if frame.Some? {
      ServedPublishesHonest(e, paths, c, prompt, remote, replies, e, prompt);
      var g := Generate(e, Prefill(e, c, prompt, remote).c, replies, |prompt|);
      assert PublishedFrom(kin, e, g.c, prompt + replies, prompt, frame.value);
    }
  }

  lemma ServingKeeps(es: seq<Engine>, paths: seq<set<seq<Token>>>, f: State, move: Move)
    requires Sane(es, paths) && FleetInv(es, paths, f) && move.Serving? && Enabled(es, f, move) &&
      MoveOk(es, paths, f, move)
    ensures FleetInv(es, paths, Apply(es, f, move))
  {
    hide Inv, DistKv.Inv, EngineReady, PublishedLive, Exported, Covers, SuffixWritesRight, HonestRemote, After;
    var e, c, remote := es[move.i], f.caches[move.i], AnswerOf(f.sys, move.source);
    AnswerIsHonest(es, paths, f, move.i, move.source, move.prompt);
    forall j | 0 <= j < |es|
      ensures EngineReady(e, paths[move.i], After(e, c, Serve(move.prompt, remote, move.replies)))
      ensures Exported(e, c, move.prompt, remote, move.replies).Some? ==>
        PublishedLive(es[j], Exported(e, c, move.prompt, remote, move.replies).value)
    {
      assert Kin(es[move.i], es[j]);
      ServeKeepsEngine(e, paths[move.i], c, move.prompt, remote, move.replies, es[j]);
    }
    var frame := Exported(e, c, move.prompt, remote, move.replies);
    assert frame.Some? ==> Trusted(es, frame.value);
  }

  lemma ClearingKeeps(es: seq<Engine>, paths: seq<set<seq<Token>>>, f: State, move: Move)
    requires FleetInv(es, paths, f) && move.Clearing? && Enabled(es, f, move)
    ensures FleetInv(es, paths, Apply(es, f, move))
  {
    hide DistKv.Inv, Trusted, Allocator.Balanced;
    var e, c := es[move.i], f.caches[move.i];
    assert EngineReady(e, paths[move.i], c);
    ClearReady(e, paths[move.i], c, move.keys);
  }

  lemma {:induction false} RunKeepsInv(es: seq<Engine>, paths: seq<set<seq<Token>>>, f: State, moves: seq<Move>)
    requires Sane(es, paths) && FleetInv(es, paths, f) && RunOk(es, f, moves) && MovesOk(es, paths, f, moves)
    ensures FleetInv(es, paths, RunOf(es, f, moves))
    decreases |moves|
  {
    hide Sane, Enabled, Apply, EngineReady, ExportsTrusted, PutsExported, DistKv.Inv, MoveOk;
    if moves != [] {
      match moves[0] {
        case Protocol(step) => ProtocolKeeps(es, paths, f, step);
        case Serving(_, _, _, _) => ServingKeeps(es, paths, f, moves[0]);
        case Clearing(_, _) => ClearingKeeps(es, paths, f, moves[0]);
      }
      RunKeepsInv(es, paths, Apply(es, f, moves[0]), moves[1..]);
    }
  }

  lemma StartsInv(es: seq<Engine>, paths: seq<set<seq<Token>>>)
    requires Sane(es, paths)
    ensures FleetInv(es, paths, Start(es))
  {
    hide Inv, DistKv.Records, DistKv.Copies;
    forall i | 0 <= i < |es|
      ensures EngineReady(es[i], paths[i], Start(es).caches[i])
    {
      NewReady(es[i], paths[i]);
      NewPoolOk(es[i].cfg);
    }
    DistKv.EmptySystem();
  }

  /**
   Over every run of the fleet from empty caches and an empty store, whatever is reused, published, stale,
   lost or overwritten, every engine stays ready, and the next request any of them serves with success is
   answered, token for token, as a cold run of its network would answer it.
   */
  lemma FleetTransparent(es: seq<Engine>, paths: seq<set<seq<Token>>>, moves: seq<Move>, move: Move)
    requires Sane(es, paths) && RunOk(es, Start(es), moves) && MovesOk(es, paths, Start(es), moves)
    requires move.Serving? && Enabled(es, RunOf(es, Start(es), moves), move)
    requires MoveOk(es, paths, RunOf(es, Start(es), moves), move)
    ensures var f := RunOf(es, Start(es), moves);
      && (forall i :: 0 <= i < |es| ==> Ready(es[i], paths[i], f.caches[i]))
      && var e, p := es[move.i], Prefill(es[move.i], f.caches[move.i], move.prompt, AnswerOf(f.sys, move.source));
         p.Done? ==>
           && ColdLogits(e, move.prompt, p.value.logits)
           && var g := Generate(e, p.c, move.replies, |move.prompt|);
              g.Done? ==> ColdReplies(e, move.prompt, move.replies, g.value)
  {
    hide Start, RunOk, MovesOk, Inv, DistKv.Inv, Prefill, Generate, Covers, SuffixWritesRight, HonestRemote,
      ColdLogits, ColdReplies;
    StartsInv(es, paths);
    RunKeepsInv(es, paths, Start(es), moves);
    var f := RunOf(es, Start(es), moves);
    assert forall i :: 0 <= i < |es| ==> EngineReady(es[i], paths[i], f.caches[i]);
    var e, c, remote := es[move.i], f.caches[move.i], AnswerOf(f.sys, move.source);
    AnswerIsHonest(es, paths, f, move.i, move.source, move.prompt);
    PrefillTransparent(e, paths[move.i], c, move.prompt, remote);
    var p := Prefill(e, c, move.prompt, remote);
    if p.Done? {
      GenerateExact(e, paths[move.i], p.c, move.prompt, move.replies);
    }
  }
}
