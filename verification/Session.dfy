/**
 The network run over the paged cache, and the prefill session on top of it
 (src/models/common/model.rs, src/kv_cache/manager.rs, src/kv_cache/key.rs).
 */
module Session {
  import opened Basics
  import opened Network
  import opened PoolWrite
  import opened CacheState
  import Codec

  // ------------------------------------------------------------------ reading and writing the live KV

  lemma SlotInPool(cfg: Config, c: Cache, pos: nat)
    requires Mapped(cfg, c) && pos < |c.blocks| * BLOCK_SIZE
    ensures Slot(c.blocks, pos) < cfg.NumSlots()
  {
    assert c.blocks[pos / BLOCK_SIZE] < cfg.NumBlocks();
  }

  /** What the pool holds for position `p` in layer `l`. */
  function CellAt(cfg: Config, c: Cache, l: nat, p: nat): Cell
    requires Mapped(cfg, c) && l < cfg.numLayers && p < |c.blocks| * BLOCK_SIZE
  {
    SlotInPool(cfg, c, p);
    c.pool[l][Slot(c.blocks, p)]
  }

  /** The live keys and values of a layer in logical order (`kv_blocks`, concatenated). */
  function LiveCells(cfg: Config, c: Cache, l: nat): (live: seq<Cell>)
    requires Mapped(cfg, c) && l < cfg.numLayers
    ensures |live| == c.len
  {
    seq(c.len, p requires 0 <= p < c.len => CellAt(cfg, c, l, p))
  }

  lemma BatchFits(cfg: Config, c: Cache, n: nat)
    requires Mapped(cfg, c) && n <= c.len <= cfg.maxSeqLen
    ensures Fits(cfg.NumSlots(), Slots(c.blocks, c.len - n, c.len))
  {
    var slots := Slots(c.blocks, c.len - n, c.len);
    forall i | 0 <= i < |slots|
      ensures slots[i] < cfg.NumSlots()
    {
      SlotInPool(cfg, c, c.len - n + i);
    }
  }

  /** `write_current`: the trailing tokens of the batch into their slots. */
  function WriteCurrent(cfg: Config, rule: Rule, c: Cache, l: nat, cells: seq<Cell>): (r: Cache)
    requires Mapped(cfg, c) && l < cfg.numLayers && |cells| <= c.len <= cfg.maxSeqLen
    ensures Mapped(cfg, r) && r == c.(pool := r.pool)
    ensures forall m :: 0 <= m < cfg.numLayers && m != l ==> r.pool[m] == c.pool[m]
  {
    BatchFits(cfg, c, |cells|);
    var slots := Slots(c.blocks, c.len - |cells|, c.len);
    c.(pool := c.pool[l := WriteFrom(rule, c.pool[l], slots, cells, 0)])
  }

  // ------------------------------------------------------------------ forward

  function Projected(net: Net, l: nat, indexPos: nat, xs: seq<Act>): (cells: seq<Cell>)
    ensures |cells| == |xs|
  {
    seq(|xs|, i requires 0 <= i < |xs| => net.project(l, indexPos + i, xs[i]))
  }

  /** One layer over a batch at the tail of `live`: query `i` sees the positions up to its own. */
  function Attended(net: Net, l: nat, indexPos: nat, xs: seq<Act>, live: seq<Cell>): (ys: seq<Act>)
    requires |xs| <= |live|
    ensures |ys| == |xs|
  {
    var offset := |live| - |xs|;
    seq(|xs|, i requires 0 <= i < |xs| => net.mix(l, indexPos + i, xs[i], live[..offset + i + 1]))
  }

  /** The layer loop of `forward`, from layer `l` on. */
  function LayersFrom(cfg: Config, net: Net, rule: Rule, c: Cache, xs: seq<Act>, indexPos: nat, l: nat)
    : (r: (Cache, seq<Act>))
    requires Mapped(cfg, c) && l <= cfg.numLayers && |xs| <= c.len <= cfg.maxSeqLen
    ensures Mapped(cfg, r.0) && r.0 == c.(pool := r.0.pool)
    ensures |r.1| == |xs|
    decreases cfg.numLayers - l
  {
    if l == cfg.numLayers then (c, xs) else
      var c' := WriteCurrent(cfg, rule, c, l, Projected(net, l, indexPos, xs));
      LayersFrom(cfg, net, rule, c', Attended(net, l, indexPos, xs, LiveCells(cfg, c', l)), indexPos, l + 1)
  }

  function Embedded(net: Net, ids: seq<Token>): (xs: seq<Act>)
    ensures |xs| == |ids|
  {
    seq(|ids|, i requires 0 <= i < |ids| => net.embed(ids[i]))
  }

  function Logits(net: Net, xs: seq<Act>): (ys: seq<Act>)
    ensures |ys| == |xs|
  {
    seq(|xs|, i requires 0 <= i < |xs| => net.head(xs[i]))
  }

  /** `forward`; the RoPE tables reach up to `max_seq_len`. */
  function Forward(cfg: Config, net: Net, rule: Rule, c: Cache, ids: seq<Token>, indexPos: nat): (r: Outcome<seq<Act>>)
    requires Inv(cfg, c)
    ensures Inv(cfg, r.c) && r.c.reg == c.reg
    ensures r.Done? ==> r.c.len == c.len + |ids| && |r.value| == |ids|
    ensures r.Done? ==> AllocateKv(cfg, c, |ids|).Done?
    ensures indexPos <= c.len && AllocateKv(cfg, c, |ids|).Done? ==> r.Done?
  {
    match AllocateKv(cfg, c, |ids|)
    case Failed(c', why) => Failed(c', why)
    case Done(c', _) =>
      if cfg.numLayers > 0 && indexPos + |ids| > cfg.maxSeqLen then Failed(c', BadPosition) else
        InvMapped(cfg, c');
        var (c'', xs) := LayersFrom(cfg, net, rule, c', Embedded(net, ids), indexPos, 0);
        Done(c'', Logits(net, xs))
  }

  /** `prefill_suffix` */
  function PrefillSuffix(cfg: Config, net: Net, rule: Rule, c: Cache, prompt: seq<Token>, reused: nat)
    : (r: Outcome<seq<Act>>)
    requires Inv(cfg, c)
    ensures Inv(cfg, r.c) && r.c.reg == c.reg
    ensures r.Done? ==> reused < |prompt| && r.c.len == c.len + |prompt| - reused && r.value != []
  {
    if reused >= |prompt| then Failed(c, EmptySuffix)
    else Forward(cfg, net, rule, c, prompt[reused..], reused)
  }

  // ------------------------------------------------------------------ prefill

  /** `reusable_token_count` */
  function ReusableTokenCount(blockSize: nat, promptLen: nat): (n: nat)
    requires blockSize > 0
  {
    if promptLen == 0 then 0 else (promptLen - 1) / blockSize * blockSize
  }

  /** What the remote store answers: disabled, an error, a miss, or the bytes of an object. */
  datatype Remote = Disabled | GetFailed | Missing | Found(bytes: seq<Codec.Byte>)

  /** What all sessions of an engine share. */
  datatype Engine = Engine(cfg: Config, net: Net, rule: Rule, header: Codec.Header, modelId: string)

  /** The sequence after the best prefix was taken, and how it was come by. */
  datatype Plan = Plan(c: Cache, reused: nat, hit: Option<bool>, imported: nat, error: Option<Reason>)

  datatype Prefilled = Prefilled(logits: seq<Act>, plan: Plan)

  /** `import_remote_bundle` */
  function ImportRemote(e: Engine, c: Cache, bytes: seq<Codec.Byte>, prompt: seq<Token>): (r: Outcome<nat>)
    requires Inv(e.cfg, c)
    ensures Inv(e.cfg, r.c)
    ensures Submap(c.reg, r.c.reg)
    ensures r.Done? ==> r.value == r.c.len && 0 < r.value <= |prompt|
  {
    match Codec.Decode(e.header, bytes)
    case Err(_) => Failed(c, BadFrame)
    case Ok(bundle) =>
      if bundle.meta.modelId != e.modelId then Failed(c, WrongModel)
      else Import(e.cfg, c, bundle, prompt)
  }

  /** Reset the sequence and take what the local registry has. */
  function TakeLocal(cfg: Config, c: Cache, prompt: seq<Token>): (r: Cache)
    requires Inv(cfg, c)
    ensures Inv(cfg, r) && r.reg == c.reg && r.pool == c.pool
    ensures r.len <= |prompt| && (prompt != [] ==> r.len < |prompt|)
  {
    Match(cfg, Reset(cfg, c), prompt)
  }

  /** The prefix part of `prefill`: local match, then the remote object where it would help. */
  function Acquire(e: Engine, c: Cache, prompt: seq<Token>, remote: Remote): (p: Plan)
    requires Inv(e.cfg, c)
    ensures Inv(e.cfg, p.c) && p.reused == p.c.len <= |prompt| && p.imported <= |prompt|
    ensures prompt != [] ==> (p.reused == |prompt| <==> p.imported == |prompt|)
    ensures Submap(c.reg, p.c.reg)
  {
    var reusable := ReusableTokenCount(BLOCK_SIZE, |prompt|);
    var local := TakeLocal(e.cfg, c, prompt);
    if remote.Disabled? || reusable == 0 then Plan(local, local.len, None, 0, None) else
      match remote
      case GetFailed => Plan(local, local.len, Some(false), 0, Some(GetError))
      case Missing => Plan(local, local.len, Some(false), 0, None)
      case Found(bytes) =>
        if local.len >= reusable then Plan(local, local.len, Some(true), 0, None) else
          match ImportRemote(e, local, bytes, prompt)
          case Done(imported, n) => Plan(imported, n, Some(true), n, None)
          case Failed(left, why) =>
            var again := TakeLocal(e.cfg, left, prompt);
            Plan(again, again.len, Some(false), 0, Some(why))
  }

  /** `prefill` */
  function Prefill(e: Engine, c: Cache, prompt: seq<Token>, remote: Remote): (r: Outcome<Prefilled>)
    requires Inv(e.cfg, c)
    ensures Inv(e.cfg, r.c)
    ensures Submap(c.reg, r.c.reg)
    ensures r.Done? ==> r.c.len == |prompt| && r.value.logits != []
    ensures r.Done? ==> r.value.plan.reused + |r.value.logits| == |prompt|
  {
    var plan := Acquire(e, c, prompt, remote);
    match PrefillSuffix(e.cfg, e.net, e.rule, plan.c, prompt, plan.reused)
    case Failed(c', why) => Failed(c', why)
    case Done(c', logits) => Done(Register(e.cfg, c', prompt), Prefilled(logits, plan))
  }

  /** The decode loop of `generate`: one forward call a token, at `index_pos` from `pos` on. */
  function Generate(e: Engine, c: Cache, toks: seq<Token>, pos: nat): (r: Outcome<seq<Act>>)
    requires Inv(e.cfg, c)
    ensures Inv(e.cfg, r.c) && r.c.reg == c.reg
    ensures r.Done? ==> r.c.len == c.len + |toks| && |r.value| == |toks|
    decreases |toks|
  {
    if toks == [] then Done(c, []) else
      match Forward(e.cfg, e.net, e.rule, c, [toks[0]], pos)
      case Failed(c', why) => Failed(c', why)
      case Done(c', logits) =>
        match Generate(e, c', toks[1..], pos + 1)
        case Failed(c'', why) => Failed(c'', why)
        case Done(c'', rest) => Done(c'', logits + rest)
  }
}
