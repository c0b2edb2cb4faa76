/** Generation after a prefill, and runs of requests over one cache. */
module Runs {
  import opened Basics
  import opened Network
  import opened PoolWrite
  import opened Allocator
  import opened CacheState
  import opened Session
  import opened Contents
  import opened Transparency
  import opened PrefillProofs

  // ------------------------------------------------------------------ generation

  /** A batch of one token cannot go astray, even with the loop as written. */
  lemma SingleWritesRight(rule: Rule, cfg: Config, c: Cache)
    requires Inv(cfg, c)
    ensures WritesRight(rule, BatchSlots(cfg, c, 1))
  {
  }

  /** Token `i` of `out` was answered with the logits a cold run over everything before it gives. */
  ghost predicate ColdReplies(e: Engine, past: seq<Token>, toks: seq<Token>, out: seq<Act>) {
    |out| <= |toks| && forall i :: 0 <= i < |out| ==> out[i] == LastLogits(e.net, e.cfg.numLayers, past + toks[..i + 1])
  }

  lemma RepliesOneMore(e: Engine, past: seq<Token>, toks: seq<Token>, first: seq<Act>, rest: seq<Act>)
    requires toks != [] && |first| == 1 && first[0] == LastLogits(e.net, e.cfg.numLayers, past + [toks[0]])
    requires ColdReplies(e, past + [toks[0]], toks[1..], rest)
    ensures ColdReplies(e, past, toks, first + rest)
  {
    var out := first + rest;
    forall i | 0 <= i < |out|
      ensures out[i] == LastLogits(e.net, e.cfg.numLayers, past + toks[..i + 1])
    {
      if i == 0 {
        assert toks[..1] == [toks[0]];
      } else {
        assert out[i] == rest[i - 1];
        assert past + toks[..i + 1] == past + [toks[0]] + toks[1..][..i];
      }
    }
  }

  /**
   The decode loop, its positions starting at the live length: every forward call appends its token
   to the live sequence at the position RoPE is given, and answers with the cold run's logits.
   */
  lemma {:induction false} GenerateExact(e: Engine, paths: set<seq<Token>>, c: Cache, past: seq<Token>,
                                         toks: seq<Token>)
    requires Ready(e, paths, c) && Live(e.cfg, e.net, c, past)
    ensures var r := Generate(e, c, toks, |past|);
      && Ready(e, paths, r.c) && RegisteredSame(e.cfg, c, r.c.pool)
      && (r.Done? ==> Live(e.cfg, e.net, r.c, past + toks) && ColdReplies(e, past, toks, r.value))
    decreases |toks|
  {
    if toks == [] {
      assert past + toks == past;
    } else {
      SingleWritesRight(e.rule, e.cfg, c);
      ForwardKeeps(e, paths, c, past, [toks[0]]);
      var f := Forward(e.cfg, e.net, e.rule, c, [toks[0]], |past|);
      if f.Done? {
        GenerateRest(e, paths, c, f, past, toks);
      }
    }
  }

  lemma {:induction false} GenerateRest(e: Engine, paths: set<seq<Token>>, c: Cache, f: Outcome<seq<Act>>,
                                        past: seq<Token>, toks: seq<Token>)
    requires toks != [] && Mapped(e.cfg, c) && Submap(c.reg, f.c.reg)
    requires f.Done? && Ready(e, paths, f.c) && RegisteredSame(e.cfg, c, f.c.pool) && |f.value| == 1
    requires Live(e.cfg, e.net, f.c, past + [toks[0]]) && ColdLogits(e, past + [toks[0]], f.value)
    ensures var r := Generate(e, f.c, toks[1..], |past| + 1);
      && Ready(e, paths, r.c) && RegisteredSame(e.cfg, c, r.c.pool)
      && (r.Done? ==> Live(e.cfg, e.net, r.c, past + toks) && ColdReplies(e, past, toks, f.value + r.value))
    decreases |toks|, 0
  {
    GenerateExact(e, paths, f.c, past + [toks[0]], toks[1..]);
    var r := Generate(e, f.c, toks[1..], |past| + 1);
    RegisteredTwice(e.cfg, c, f.c, r.c.pool);
    if r.Done? {
      ConsAppend(past, toks);
      RepliesOneMore(e, past, toks, f.value, r.value);
    }
  }

  lemma ConsAppend(past: seq<Token>, toks: seq<Token>)
    requires toks != []
    ensures past + [toks[0]] + toks[1..] == past + toks
  {
  }

  // ------------------------------------------------------------------ positions

  /** A forward call: the cache it finds, its tokens, and the position RoPE is given. */
  datatype Call = Call(c: Cache, ids: seq<Token>, pos: nat)

  ghost function Made(e: Engine, call: Call): Outcome<seq<Act>>
    requires Inv(e.cfg, call.c)
  {
    Forward(e.cfg, e.net, e.rule, call.c, call.ids, call.pos)
  }

  /** Every forward call of the decode loop. */
  ghost function DecodeCalls(e: Engine, c: Cache, toks: seq<Token>, pos: nat): seq<Call>
    requires Inv(e.cfg, c)
    decreases |toks|
  {
    if toks == [] then [] else
      var f := Forward(e.cfg, e.net, e.rule, c, [toks[0]], pos);
      [Call(c, [toks[0]], pos)] + if f.Done? then DecodeCalls(e, f.c, toks[1..], pos + 1) else []
  }

  /** Every forward call of one request: the suffix prefill, if it gets that far, and the decode loop. */
  ghost function ForwardCalls(e: Engine, c: Cache, prompt: seq<Token>, remote: Remote,
                              replies: seq<Token>): seq<Call>
    requires Inv(e.cfg, c)
  {
    var plan, p := Acquire(e, c, prompt, remote), Prefill(e, c, prompt, remote);
    (if plan.reused < |prompt| then [Call(plan.c, prompt[plan.reused..], plan.reused)] else [])
    + if p.Done? then DecodeCalls(e, p.c, replies, |prompt|) else []
  }

  /** Each call starts on the cache the one before leaves,
    and only the last may fail; `left` is what the last leaves. */
  ghost predicate Chained(e: Engine, c: Cache, calls: seq<Call>, left: Cache)
    decreases |calls|
  {
    if calls == [] then left == c
    else
      && calls[0].c == c && Inv(e.cfg, c) && (Made(e, calls[0]).Failed? ==> |calls| == 1)
      && Chained(e, Made(e, calls[0]).c, calls[1..], left)
  }

  /** The decode loop is its calls: chained, one a token from `pos` on, and all made if it succeeds. */
  lemma {:induction false} DecodeIsItsCalls(e: Engine, c: Cache, toks: seq<Token>, pos: nat)
    requires Inv(e.cfg, c)
    ensures var calls, r := DecodeCalls(e, c, toks, pos), Generate(e, c, toks, pos);
      && Chained(e, c, calls, r.c) && |calls| <= |toks| && (r.Done? ==> |calls| == |toks|)
      && forall i :: 0 <= i < |calls| ==> calls[i].ids == [toks[i]] && calls[i].pos == pos + i
    decreases |toks|
  {
    hide Inv, Forward;
    if toks != [] {
      var f := Forward(e.cfg, e.net, e.rule, c, [toks[0]], pos);
      var calls := DecodeCalls(e, c, toks, pos);
      if f.Done? {
        DecodeIsItsCalls(e, f.c, toks[1..], pos + 1);
        assert calls[1..] == DecodeCalls(e, f.c, toks[1..], pos + 1);
      } else {
        assert calls[1..] == [];
      }
    }
  }

  /** So is a request: the prefill makes the first call or none, and the rest are the decode loop's. */
  lemma RequestIsItsCalls(e: Engine, c: Cache, prompt: seq<Token>, remote: Remote, replies: seq<Token>)
    requires Inv(e.cfg, c)
    ensures var calls, p := ForwardCalls(e, c, prompt, remote, replies), Prefill(e, c, prompt, remote);
      && (calls == [] ==> p.Failed? && p.c == Acquire(e, c, prompt, remote).c)
      && (calls != [] ==>
            && calls[0].c == Acquire(e, c, prompt, remote).c && prompt[|prompt| - |calls[0].ids|..] == calls[0].ids
            && Inv(e.cfg, calls[0].c) && (Made(e, calls[0]).Done? <==> p.Done?)
            && (p.Done? ==>
                  && p.c == Register(e.cfg, Made(e, calls[0]).c, prompt)
                  && Chained(e, p.c, calls[1..], Generate(e, p.c, replies, |prompt|).c))
            && (p.Failed? ==> p.c == Made(e, calls[0]).c && |calls| == 1))
  {
    hide Inv, Acquire, Forward, DecodeCalls, Generate, Register;
    var p, calls := Prefill(e, c, prompt, remote), ForwardCalls(e, c, prompt, remote, replies);
    if p.Done? {
      DecodeIsItsCalls(e, p.c, replies, |prompt|);
      assert calls[1..] == DecodeCalls(e, p.c, replies, |prompt|);
    }
  }

  /** Every call's position is the live length it finds. */
  ghost predicate InStep(calls: seq<Call>) {
    forall i :: 0 <= i < |calls| ==> calls[i].pos == calls[i].c.len
  }

  lemma InStepCons(call: Call, calls: seq<Call>)
    requires call.pos == call.c.len && InStep(calls)
    ensures InStep([call] + calls)
  {
  }

  lemma {:induction false} DecodeAligned(e: Engine, c: Cache, toks: seq<Token>)
    requires Inv(e.cfg, c)
    ensures InStep(DecodeCalls(e, c, toks, c.len))
    decreases |toks|
  {
    hide Inv, Forward;
    if toks != [] {
      var f := Forward(e.cfg, e.net, e.rule, c, [toks[0]], c.len);
      if f.Done? {
        DecodeAligned(e, f.c, toks[1..]);
        InStepCons(Call(c, [toks[0]], c.len), DecodeCalls(e, f.c, toks[1..], c.len + 1));
      }
    }
  }

  /** At every forward call of a request the RoPE position is the live length, so positions and slots coincide. */
  lemma PositionsAligned(e: Engine, c: Cache, prompt: seq<Token>, remote: Remote, replies: seq<Token>)
    requires Inv(e.cfg, c)
    ensures InStep(ForwardCalls(e, c, prompt, remote, replies))
  {
    hide Inv, Acquire, DecodeCalls;
    var p := Prefill(e, c, prompt, remote);
    if p.Done? {
      DecodeAligned(e, p.c, replies);
      var plan := Acquire(e, c, prompt, remote);
      InStepCons(Call(plan.c, prompt[plan.reused..], plan.reused), DecodeCalls(e, p.c, replies, |prompt|));
    }
  }

  // ------------------------------------------------------------------ runs

  datatype Request =
    | Serve(prompt: seq<Token>, remote: Remote, replies: seq<Token>)
    | ClearCache(keys: seq<Hash>)

  /** The cache after a request, successful or not. */
  function After(e: Engine, c: Cache, req: Request): (r: Cache)
    requires Inv(e.cfg, c) && (req.ClearCache? ==> Lists(req.keys, c.reg.Keys))
    ensures Inv(e.cfg, r)
  {
    match req
    case Serve(prompt, remote, replies) =>
      (match Prefill(e, c, prompt, remote)
       case Failed(c', _) => c'
       case Done(c', _) => Generate(e, c', replies, |prompt|).c)
    case ClearCache(keys) =>
      ClearKeepsInv(e.cfg, c, keys);
      Clear(e.cfg, c, keys)
  }

  /** A clear drains the registry in the order its map happens to have. */
  ghost predicate Drains(c: Cache, req: Request) {
    req.ClearCache? ==> Lists(req.keys, c.reg.Keys)
  }

  ghost predicate Runnable(e: Engine, c: Cache, reqs: seq<Request>)
    requires Inv(e.cfg, c)
    decreases |reqs|
  {
    reqs == [] || (Drains(c, reqs[0]) && Runnable(e, After(e, c, reqs[0]), reqs[1..]))
  }

  /**
   The cache after a run of requests, whatever the remote sends, whatever fails, and wherever the
   writes land: reference conservation, the shape of the pool and the ownership of the tail hold.
   */
  ghost function RunOf(e: Engine, c: Cache, reqs: seq<Request>): (r: Cache)
    requires Inv(e.cfg, c) && Runnable(e, c, reqs)
    ensures Inv(e.cfg, r)
    decreases |reqs|
  {
    if reqs == [] then c else RunOf(e, After(e, c, reqs[0]), reqs[1..])
  }

  ghost predicate StepWritesRight(e: Engine, c: Cache, req: Request)
    requires Inv(e.cfg, c)
  {
    req.Serve? ==> SuffixWritesRight(e, Acquire(e, c, req.prompt, req.remote).c, req.prompt)
  }

  /** No prefill of the run writes a batch that goes astray; for the intended loop, every run. */
  ghost predicate RunWritesRight(e: Engine, c: Cache, reqs: seq<Request>)
    requires Inv(e.cfg, c) && Runnable(e, c, reqs)
    decreases |reqs|
  {
    reqs == [] || (StepWritesRight(e, c, reqs[0]) && RunWritesRight(e, After(e, c, reqs[0]), reqs[1..]))
  }

  ghost predicate StepOk(e: Engine, paths: set<seq<Token>>, c: Cache, req: Request)
    requires Inv(e.cfg, c)
  {
    req.Serve? ==> RequestOk(e, paths, c, req.prompt, req.remote)
  }

  /** What transparency asks of a run: prompts in play, honest remotes, and batches that do not go astray. */
  ghost predicate RunOk(e: Engine, paths: set<seq<Token>>, c: Cache, reqs: seq<Request>)
    requires Inv(e.cfg, c) && Runnable(e, c, reqs)
    decreases |reqs|
  {
    reqs == [] || (StepOk(e, paths, c, reqs[0]) && RunOk(e, paths, After(e, c, reqs[0]), reqs[1..]))
  }

  lemma ClearReady(e: Engine, paths: set<seq<Token>>, c: Cache, keys: seq<Hash>)
    requires Ready(e, paths, c) && Lists(keys, c.reg.Keys)
    ensures Ready(e, paths, After(e, c, ClearCache(keys)))
  {
    InvMapped(e.cfg, After(e, c, ClearCache(keys)));
  }

  lemma ServeReady(e: Engine, paths: set<seq<Token>>, c: Cache, prompt: seq<Token>, remote: Remote, replies: seq<Token>)
    requires Ready(e, paths, c) && RequestOk(e, paths, c, prompt, remote)
    ensures Ready(e, paths, After(e, c, Serve(prompt, remote, replies)))
    ensures RegisteredSame(e.cfg, c, After(e, c, Serve(prompt, remote, replies)).pool)
  {
    PrefillTransparent(e, paths, c, prompt, remote);
    var p := Prefill(e, c, prompt, remote);
    if p.Done? {
      GenerateExact(e, paths, p.c, prompt, replies);
      RegisteredTwice(e.cfg, c, p.c, Generate(e, p.c, replies, |prompt|).c.pool);
    }
  }

  lemma {:induction false} GenerateSpares(e: Engine, c: Cache, toks: seq<Token>, pos: nat)
    requires Inv(e.cfg, c) && Mapped(e.cfg, c)
    ensures RegisteredSame(e.cfg, c, Generate(e, c, toks, pos).c.pool)
    decreases |toks|
  {
    hide Counted, TailOwned, Forward;
    if toks != [] {
      SingleWritesRight(e.rule, e.cfg, c);
      ForwardSpares(e.cfg, e.net, e.rule, c, [toks[0]], pos);
      var f := Forward(e.cfg, e.net, e.rule, c, [toks[0]], pos);
      if f.Done? {
        InvMapped(e.cfg, f.c);
        GenerateSpares(e, f.c, toks[1..], pos + 1);
        RegisteredTwice(e.cfg, c, f.c, Generate(e, f.c, toks[1..], pos + 1).c.pool);
      }
    }
  }

  /** A served request leaves registered blocks alone. */
  lemma ServeSpares(e: Engine, c: Cache, prompt: seq<Token>, remote: Remote, replies: seq<Token>)
    requires Inv(e.cfg, c) && Mapped(e.cfg, c) && SuffixWritesRight(e, Acquire(e, c, prompt, remote).c, prompt)
    ensures RegisteredSame(e.cfg, c, After(e, c, Serve(prompt, remote, replies)).pool)
  {
    hide Counted, TailOwned, Prefill, Generate, Acquire, SuffixWritesRight;
    PrefillSpares(e, c, prompt, remote);
    var p := Prefill(e, c, prompt, remote);
    if p.Done? {
      InvMapped(e.cfg, p.c);
      GenerateSpares(e, p.c, replies, |prompt|);
      RegisteredTwice(e.cfg, c, p.c, Generate(e, p.c, replies, |prompt|).c.pool);
    }
  }

  lemma {:induction false} RunReady(e: Engine, paths: set<seq<Token>>, c: Cache, reqs: seq<Request>)
    requires Ready(e, paths, c) && Runnable(e, c, reqs) && RunOk(e, paths, c, reqs)
    ensures Ready(e, paths, RunOf(e, c, reqs))
    decreases |reqs|
  {
    if reqs != [] {
      match reqs[0] {
        case Serve(prompt, remote, replies) => ServeReady(e, paths, c, prompt, remote, replies);
        case ClearCache(keys) => ClearReady(e, paths, c, keys);
      }
      RunReady(e, paths, After(e, c, reqs[0]), reqs[1..]);
    }
  }

  lemma NewReady(e: Engine, paths: set<seq<Token>>)
    requires NoCollision(e.cfg, paths)
    ensures Ready(e, paths, New(e.cfg))
  {
    InvMapped(e.cfg, New(e.cfg));
  }

  /**
   Over every run of requests from an empty cache, whatever they reuse, import, fail or clear, the
   next request that succeeds is answered token for token as a cold run would answer it.
   */
  lemma RunTransparent(e: Engine, paths: set<seq<Token>>, reqs: seq<Request>,
                       prompt: seq<Token>, remote: Remote, replies: seq<Token>)
    requires NoCollision(e.cfg, paths) && Runnable(e, New(e.cfg), reqs) && RunOk(e, paths, New(e.cfg), reqs)
    requires RequestOk(e, paths, RunOf(e, New(e.cfg), reqs), prompt, remote)
    ensures var p := Prefill(e, RunOf(e, New(e.cfg), reqs), prompt, remote);
      p.Done? ==>
        && ColdLogits(e, prompt, p.value.logits)
        && var g := Generate(e, p.c, replies, |prompt|);
           g.Done? ==> ColdReplies(e, prompt, replies, g.value)
  {
    NewReady(e, paths);
    RunReady(e, paths, New(e.cfg), reqs);
    var c := RunOf(e, New(e.cfg), reqs);
    PrefillTransparent(e, paths, c, prompt, remote);
    var p := Prefill(e, c, prompt, remote);
    if p.Done? {
      GenerateExact(e, paths, p.c, prompt, replies);
    }
  }
}
