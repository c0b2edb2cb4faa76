/**
 The paged, ref-counted, prefix-sharing KV cache as a value (src/models/common/cache.rs).

 Each operation is a function from cache to cache, with the same branches, order of effects and
 failure points as the method it models; the classes of the KvCache module compute exactly these
 functions in place. Contracts here state what each operation keeps: reference conservation, the
 shape of the pool, and exclusive ownership of the blocks the sequence may still write to.
 */
module CacheState {
  import opened Basics
  import opened Network
  import opened Allocator
  import opened Bundle

  const BLOCK_SIZE: nat := 16
  const PREFIX_HASH_SEED: Hash := 0

  datatype Config = Config(numLayers: nat, kvHeads: nat, headDim: nat, maxSeqLen: nat, dtype: DType,
                           hash: (Hash, seq<Token>) -> Hash)
  {
    function NumBlocks(): nat {
      (maxSeqLen + BLOCK_SIZE - 1) / BLOCK_SIZE
    }

    function NumSlots(): nat {
      NumBlocks() * BLOCK_SIZE
    }
  }

  /** Indexed `[layer][slot]`. */
  type Pool = seq<seq<Cell>>

  datatype Cache = Cache(alloc: Alloc, blocks: seq<nat>, len: nat, reg: Registry, pool: Pool)

  datatype Reason =
    | Overflow | OutOfBlocks | EmptySuffix
    | BadConfig | BadDType | Unaligned | BadTokenCount | WrongPrompt | BadBlockCount | BadLayerCount | BadTensor
    | BadPosition | BadFrame | WrongModel | GetError

  /** What an operation leaves behind, whether or not it succeeded. */
  datatype Outcome<+T> = Done(c: Cache, value: T) | Failed(c: Cache, why: Reason)

  // ------------------------------------------------------------------ invariants

  /** Reference conservation for a cache at rest. */
  ghost predicate Counted(cfg: Config, c: Cache) {
    |c.alloc.refs| == cfg.NumBlocks() && Balanced(c.alloc, multiset(c.blocks), c.reg)
  }

  ghost predicate Shaped(cfg: Config, pool: Pool) {
    |pool| == cfg.numLayers && forall l :: 0 <= l < |pool| ==> |pool[l]| == cfg.NumSlots()
  }

  /** The blocks that hold positions from `start` on belong to the sequence alone. */
  ghost predicate OwnedFrom(c: Cache, start: nat) {
    forall b :: start / BLOCK_SIZE <= b < |c.blocks| ==>
      c.blocks[b] < |c.alloc.refs| && c.alloc.refs[c.blocks[b]] == 1
  }

  /** The blocks at or past the live length belong to the sequence alone. */
  ghost predicate TailOwned(c: Cache) {
    OwnedFrom(c, c.len)
  }

  ghost predicate Inv(cfg: Config, c: Cache) {
    && Counted(cfg, c)
    && Shaped(cfg, c.pool)
    && c.len <= |c.blocks| * BLOCK_SIZE
    && TailOwned(c)
  }

  /** Blocks in the table and the registry exist. All that reading and writing the pool relies on. */
  ghost predicate Mapped(cfg: Config, c: Cache) {
    && (forall b :: 0 <= b < |c.blocks| ==> c.blocks[b] < cfg.NumBlocks())
    && (forall h :: h in c.reg ==> c.reg[h].id < cfg.NumBlocks())
    && Shaped(cfg, c.pool)
    && c.len <= |c.blocks| * BLOCK_SIZE
  }

  lemma InvMapped(cfg: Config, c: Cache)
    requires Inv(cfg, c)
    ensures Mapped(cfg, c)
  {
    assert forall b :: 0 <= b < |c.blocks| ==> c.blocks[b] in multiset(c.blocks);
  }

  lemma BlockInRange(cfg: Config, c: Cache, b: nat)
    requires Counted(cfg, c) && b < |c.blocks|
    ensures c.blocks[b] < cfg.NumBlocks() && c.alloc.refs[c.blocks[b]] > 0
  {
    assert c.blocks[b] in multiset(c.blocks);
  }

  /** A block with a single reference that is in the table is there once, and in no registry entry. */
  lemma SoleOwner(cfg: Config, c: Cache, b: nat)
    requires Counted(cfg, c) && b < |c.blocks|
    requires c.blocks[b] < |c.alloc.refs| && c.alloc.refs[c.blocks[b]] == 1
    ensures forall d :: 0 <= d < |c.blocks| && d != b ==> c.blocks[d] != c.blocks[b]
    ensures forall h :: h in c.reg ==> c.reg[h].id != c.blocks[b]
  {
    assert c.blocks[b] in multiset(c.blocks);
    forall d | 0 <= d < |c.blocks| && d != b
      ensures c.blocks[d] != c.blocks[b]
    {
      OccursOnce(c.blocks, b, d);
    }
    forall h | h in c.reg
      ensures c.reg[h].id != c.blocks[b]
    {
      assert h in Holders(c.reg, c.reg[h].id);
      assert Holders(c.reg, c.blocks[b]) == {};
    }
  }

  // ------------------------------------------------------------------ slots

  function Slot(blocks: seq<nat>, pos: nat): nat
    requires pos / BLOCK_SIZE < |blocks|
  {
    blocks[pos / BLOCK_SIZE] * BLOCK_SIZE + pos % BLOCK_SIZE
  }

  function Slots(blocks: seq<nat>, start: nat, end: nat): (s: seq<nat>)
    requires start <= end <= |blocks| * BLOCK_SIZE
    ensures |s| == end - start && forall i :: 0 <= i < |s| ==> s[i] == Slot(blocks, start + i)
  {
    seq<nat>(end - start, i requires 0 <= i < end - start => Slot(blocks, start + i))
  }

  // ------------------------------------------------------------------ new, reset, clear

  function ZeroRow(cfg: Config): Row {
    seq(cfg.kvHeads, _ => seq(cfg.headDim, _ => 0))
  }

  function New(cfg: Config): (c: Cache)
    ensures Inv(cfg, c) && c.blocks == [] && c.len == 0 && c.reg == map[]
  {
    var zero := Cell(ZeroRow(cfg), ZeroRow(cfg));
    Cache(Fresh(cfg.NumBlocks()), [], 0, map[], seq(cfg.numLayers, _ => seq(cfg.NumSlots(), _ => zero)))
  }

  /** `reset_sequence` */
  function Reset(cfg: Config, c: Cache): (r: Cache)
    requires Counted(cfg, c)
    ensures Counted(cfg, r) && TailOwned(r)
    ensures r.blocks == [] && r.len == 0 && r.reg == c.reg && r.pool == c.pool
    ensures |c.alloc.free| <= |r.alloc.free|
  {
    assert multiset{} + multiset(c.blocks) == multiset(c.blocks);
    c.(alloc := DropAll(c.alloc, c.blocks, multiset{}, c.reg), blocks := [], len := 0)
  }

  /** `clear_prefix_cache`, the hash map draining in the order `keys` */
  function Clear(cfg: Config, c: Cache, keys: seq<Hash>): (r: Cache)
    requires Counted(cfg, c) && Lists(keys, c.reg.Keys)
    ensures Counted(cfg, r)
    ensures r.reg == map[] && r.blocks == c.blocks && r.len == c.len && r.pool == c.pool
  {
    c.(alloc := DropEntries(c.alloc, c.reg, keys, multiset(c.blocks)), reg := map[])
  }

  /** Clearing the registry cannot take the tail away from the sequence. */
  lemma ClearKeepsInv(cfg: Config, c: Cache, keys: seq<Hash>)
    requires Inv(cfg, c) && Lists(keys, c.reg.Keys)
    ensures Inv(cfg, Clear(cfg, c, keys))
  {
    var r := Clear(cfg, c, keys);
    forall b | r.len / BLOCK_SIZE <= b < |r.blocks|
      ensures r.alloc.refs[r.blocks[b]] == 1
    {
      BlockInRange(cfg, c, b);
      assert Holders(r.reg, r.blocks[b]) == {};
      assert c.alloc.refs[c.blocks[b]] == 1;
      assert c.blocks[b] in multiset(c.blocks);
    }
  }

  // ------------------------------------------------------------------ allocation

  /** Allocating a block and pushing it into the table. */
  lemma TakeStep(cfg: Config, c: Cache)
    requires Counted(cfg, c)
    ensures Take(c.alloc).None? ==> |c.alloc.free| == 0
    ensures Take(c.alloc).Some? ==>
      var (a, id) := Take(c.alloc).value;
      && Counted(cfg, c.(alloc := a, blocks := c.blocks + [id]))
      && id < cfg.NumBlocks() && c.alloc.refs[id] == 0 && id !in c.blocks
      && a.refs == c.alloc.refs[id := 1] && |a.free| == |c.alloc.free| - 1
  {
    TakeBalanced(c.alloc, multiset(c.blocks), c.reg);
    if Take(c.alloc).Some? {
      var (a, id) := Take(c.alloc).value;
      MultisetOfPush(c.blocks, id);
      assert id !in multiset(c.blocks);
    }
  }

  /** The allocation loop of `allocate_kv`: grow the table until it can hold `end` tokens. */
  function GrowTo(cfg: Config, c: Cache, end: nat): (r: Outcome<()>)
    requires Inv(cfg, c)
    ensures Inv(cfg, r.c)
    ensures r.c.len == c.len && r.c.reg == c.reg && r.c.pool == c.pool && c.blocks <= r.c.blocks
    ensures r.Done? <==> end <= (|c.blocks| + |c.alloc.free|) * BLOCK_SIZE
    ensures r.Failed? ==> r.why == OutOfBlocks
    ensures r.Done? ==> end <= |r.c.blocks| * BLOCK_SIZE
    ensures |r.c.blocks| + |r.c.alloc.free| == |c.blocks| + |c.alloc.free|
    ensures r.Done? && |c.blocks| < |r.c.blocks| ==> (|r.c.blocks| - 1) * BLOCK_SIZE < end
    decreases end - |c.blocks| * BLOCK_SIZE
  {
    if end <= |c.blocks| * BLOCK_SIZE then Done(c, ()) else
      TakeStep(cfg, c);
      match Take(c.alloc)
      case None => Failed(c, OutOfBlocks)
      case Some((a, id)) => GrowTo(cfg, c.(alloc := a, blocks := c.blocks + [id]), end)
  }

  /** One turn of the allocation loop. */
  lemma GrowStep(cfg: Config, c: Cache, end: nat)
    requires Inv(cfg, c)
    ensures end <= |c.blocks| * BLOCK_SIZE ==> GrowTo(cfg, c, end) == Done(c, ())
    ensures |c.blocks| * BLOCK_SIZE < end && Take(c.alloc).None? ==> GrowTo(cfg, c, end) == Failed(c, OutOfBlocks)
    ensures |c.blocks| * BLOCK_SIZE < end && Take(c.alloc).Some? ==>
      var next := c.(alloc := Take(c.alloc).value.0, blocks := c.blocks + [Take(c.alloc).value.1]);
      Inv(cfg, next) && GrowTo(cfg, c, end) == GrowTo(cfg, next, end)
  {
    TakeStep(cfg, c);
  }

  /** `allocate_kv` */
  function AllocateKv(cfg: Config, c: Cache, n: nat): (r: Outcome<()>)
    requires Inv(cfg, c)
    ensures Inv(cfg, r.c)
    ensures r.c.reg == c.reg && r.c.pool == c.pool && c.blocks <= r.c.blocks
    ensures r.c.len == if r.Done? then c.len + n else c.len
    ensures OwnedFrom(r.c, c.len)
    ensures r.Done? <==>
      c.len + n <= cfg.maxSeqLen && c.len + n <= (|c.blocks| + |c.alloc.free|) * BLOCK_SIZE
    ensures r.Done? && |c.blocks| < |r.c.blocks| ==> (|r.c.blocks| - 1) * BLOCK_SIZE < c.len + n
    ensures r.Failed? ==> r.why == if c.len + n > cfg.maxSeqLen then Overflow else OutOfBlocks
  {
    if c.len + n > cfg.maxSeqLen then Failed(c, Overflow) else
      var grown := GrowTo(cfg, c, c.len + n);
      if grown.Failed? then grown else Done(grown.c.(len := c.len + n), ())
  }

  // ------------------------------------------------------------------ prefix hashing

  function Chunk(toks: seq<Token>, b: nat): (r: seq<Token>)
    requires (b + 1) * BLOCK_SIZE <= |toks|
    ensures |r| == BLOCK_SIZE
  {
    toks[b * BLOCK_SIZE..(b + 1) * BLOCK_SIZE]
  }

  /** The chained hash after the first `b` chunks of `toks`. */
  function HashAt(cfg: Config, toks: seq<Token>, b: nat): Hash
    requires b * BLOCK_SIZE <= |toks|
  {
    if b == 0 then PREFIX_HASH_SEED else cfg.hash(HashAt(cfg, toks, b - 1), Chunk(toks, b - 1))
  }

  /** The chained hash of a prefix does not look past it. */
  lemma {:induction false} HashOfPrefix(cfg: Config, a: seq<Token>, a': seq<Token>, b: nat)
    requires b * BLOCK_SIZE <= |a| && b * BLOCK_SIZE <= |a'|
    requires a[..b * BLOCK_SIZE] == a'[..b * BLOCK_SIZE]
    ensures HashAt(cfg, a, b) == HashAt(cfg, a', b)
  {
    if b > 0 {
      var n, m := b * BLOCK_SIZE, (b - 1) * BLOCK_SIZE;
      assert a[..m] == a[..n][..m] == a'[..n][..m] == a'[..m];
      assert Chunk(a, b - 1) == a[..n][m..n] == a'[..n][m..n] == Chunk(a', b - 1);
      HashOfPrefix(cfg, a, a', b - 1);
    }
  }

  /** `PrefixRegistry::get` */
  function Get(reg: Registry, h: Hash, toks: seq<Token>): Option<nat> {
    if h in reg && reg[h].tokens == toks then Some(reg[h].id) else None
  }

  function Lookup(cfg: Config, reg: Registry, toks: seq<Token>, b: nat): Option<nat>
    requires (b + 1) * BLOCK_SIZE <= |toks|
  {
    Get(reg, HashAt(cfg, toks, b + 1), Chunk(toks, b))
  }

  // ------------------------------------------------------------------ match

  /** How many full blocks of a prompt may be reused so that a suffix is left to run. */
  function ReusableBlocks(blockSize: nat, len: nat): nat
    requires blockSize > 0
  {
    var numFull := len / blockSize;
    if len % blockSize == 0 then (if numFull == 0 then 0 else numFull - 1) else numFull
  }

  function MatchCap(len: nat): (cap: nat)
    ensures cap * BLOCK_SIZE <= len && (len > 0 ==> cap * BLOCK_SIZE < len)
  {
    ReusableBlocks(BLOCK_SIZE, len)
  }

  lemma HeldIsReferenced(cfg: Config, c: Cache, id: nat)
    requires Counted(cfg, c) && exists h :: h in c.reg && c.reg[h].id == id
    ensures id < cfg.NumBlocks() && c.alloc.refs[id] > 0
  {
    var h :| h in c.reg && c.reg[h].id == id;
    assert h in Holders(c.reg, id);
  }

  /** Sharing a registered block: the table takes a reference and maps it next. */
  function Share(cfg: Config, c: Cache, id: nat): (r: Cache)
    requires Counted(cfg, c) && exists h :: h in c.reg && c.reg[h].id == id
    ensures Counted(cfg, r)
    ensures r.len == c.len && r.reg == c.reg && r.pool == c.pool && r.alloc.free == c.alloc.free
    ensures r.blocks == c.blocks + [id]
  {
    HeldIsReferenced(cfg, c, id);
    IncrefBalanced(c.alloc, multiset(c.blocks), c.reg, id);
    MultisetOfPush(c.blocks, id);
    c.(alloc := Incref(c.alloc, id), blocks := c.blocks + [id])
  }

  lemma HitIsHeld(cfg: Config, reg: Registry, toks: seq<Token>, b: nat)
    requires (b + 1) * BLOCK_SIZE <= |toks| && Lookup(cfg, reg, toks, b).Some?
    ensures exists h :: h in reg && reg[h].id == Lookup(cfg, reg, toks, b).value
  {
  }

  /** The loop of `match_prefix`, the first `b` blocks already pushed. */
  function MatchFrom(cfg: Config, c: Cache, toks: seq<Token>, b: nat): (r: Cache)
    requires Counted(cfg, c) && |c.blocks| == b <= MatchCap(|toks|)
    ensures Counted(cfg, r)
    ensures r.len == c.len && r.reg == c.reg && r.pool == c.pool && r.alloc.free == c.alloc.free
    ensures c.blocks <= r.blocks && |r.blocks| <= MatchCap(|toks|)
    ensures forall i :: b <= i < |r.blocks| ==> Lookup(cfg, c.reg, toks, i) == Some(r.blocks[i])
    ensures |r.blocks| < MatchCap(|toks|) ==> Lookup(cfg, c.reg, toks, |r.blocks|).None?
    decreases MatchCap(|toks|) - b
  {
    hide Balanced, Lookup, MatchCap;
    if b < MatchCap(|toks|) && Lookup(cfg, c.reg, toks, b).Some? then
      HitIsHeld(cfg, c.reg, toks, b);
      MatchFrom(cfg, Share(cfg, c, Lookup(cfg, c.reg, toks, b).value), toks, b + 1)
    else c
  }

  /** One turn of the matching loop. */
  lemma MatchStep(cfg: Config, c: Cache, toks: seq<Token>, b: nat)
    requires Counted(cfg, c) && |c.blocks| == b <= MatchCap(|toks|)
    ensures b == MatchCap(|toks|) ==> MatchFrom(cfg, c, toks, b) == c
    ensures b < MatchCap(|toks|) ==>
      match Lookup(cfg, c.reg, toks, b)
      case None => MatchFrom(cfg, c, toks, b) == c
      case Some(id) =>
        && id < |c.alloc.refs| && Counted(cfg, c.(alloc := Incref(c.alloc, id), blocks := c.blocks + [id]))
        && MatchFrom(cfg, c, toks, b) ==
          MatchFrom(cfg, c.(alloc := Incref(c.alloc, id), blocks := c.blocks + [id]), toks, b + 1)
  {
    if b < MatchCap(|toks|) && Lookup(cfg, c.reg, toks, b).Some? {
      var id := Lookup(cfg, c.reg, toks, b).value;
      HeldIsReferenced(cfg, c, id);
      assert Share(cfg, c, id) == c.(alloc := Incref(c.alloc, id), blocks := c.blocks + [id]);
    }
  }

  /** `match_prefix`, on a freshly reset sequence */
  function Match(cfg: Config, c: Cache, toks: seq<Token>): (r: Cache)
    requires Counted(cfg, c) && c.blocks == [] && c.len == 0
    ensures Counted(cfg, r) && TailOwned(r)
    ensures r.len == |r.blocks| * BLOCK_SIZE <= |toks|
    ensures r.reg == c.reg && r.pool == c.pool && r.alloc.free == c.alloc.free
    ensures |r.blocks| <= MatchCap(|toks|)
    ensures forall i :: 0 <= i < |r.blocks| ==> Lookup(cfg, c.reg, toks, i) == Some(r.blocks[i])
    ensures |r.blocks| < MatchCap(|toks|) ==> Lookup(cfg, c.reg, toks, |r.blocks|).None?
  {
    var r := MatchFrom(cfg, c, toks, 0);
    r.(len := |r.blocks| * BLOCK_SIZE)
  }

  // ------------------------------------------------------------------ register

  /** Registering logical block `b` of `toks`, unless its hash is taken. */
  function RegisterOne(cfg: Config, c: Cache, toks: seq<Token>, b: nat): (r: Cache)
    requires Counted(cfg, c) && (b + 1) * BLOCK_SIZE <= |toks| && b < |c.blocks|
    ensures Counted(cfg, r)
    ensures r.blocks == c.blocks && r.len == c.len && r.pool == c.pool && r.alloc.free == c.alloc.free
    ensures forall x :: 0 <= x < |c.alloc.refs| && x != c.blocks[b] ==> r.alloc.refs[x] == c.alloc.refs[x]
    ensures var h := HashAt(cfg, toks, b + 1);
      r.reg == if h in c.reg then c.reg else c.reg[h := Entry(Chunk(toks, b), c.blocks[b])]
  {
    var h := HashAt(cfg, toks, b + 1);
    if h in c.reg then c else
      var e := Entry(Chunk(toks, b), c.blocks[b]);
      BlockInRange(cfg, c, b);
      RegisterBalanced(c.alloc, multiset(c.blocks), c.reg, h, e);
      c.(alloc := Incref(c.alloc, c.blocks[b]), reg := c.reg[h := e])
  }

  ghost predicate Submap(a: Registry, b: Registry) {
    forall h :: h in a ==> h in b && b[h] == a[h]
  }

  /** The loop of `register_prefix`, from logical block `b` on. */
  function RegisterFrom(cfg: Config, c: Cache, toks: seq<Token>, b: nat): (r: Cache)
    requires Counted(cfg, c) && b <= |toks| / BLOCK_SIZE <= |c.blocks|
    ensures Counted(cfg, r)
    ensures r.blocks == c.blocks && r.len == c.len && r.pool == c.pool && r.alloc.free == c.alloc.free
    ensures forall x :: 0 <= x < |c.alloc.refs| && x !in c.blocks[b..|toks| / BLOCK_SIZE] ==>
      r.alloc.refs[x] == c.alloc.refs[x]
    ensures Submap(c.reg, r.reg)
    decreases |toks| / BLOCK_SIZE - b
  {
    if b == |toks| / BLOCK_SIZE then c else
      var c' := RegisterOne(cfg, c, toks, b);
      assert c.blocks[b..|toks| / BLOCK_SIZE] == [c.blocks[b]] + c.blocks[b + 1..|toks| / BLOCK_SIZE];
      RegisterFrom(cfg, c', toks, b + 1)
  }

  /** One turn of the registering loop. */
  lemma RegisterStep(cfg: Config, c: Cache, toks: seq<Token>, b: nat)
    requires Counted(cfg, c) && b <= |toks| / BLOCK_SIZE <= |c.blocks|
    ensures b == |toks| / BLOCK_SIZE ==> RegisterFrom(cfg, c, toks, b) == c
    ensures b < |toks| / BLOCK_SIZE ==>
      && c.blocks[b] < |c.alloc.refs|
      && var r := RegisterOne(cfg, c, toks, b);
         Counted(cfg, r) && r.blocks == c.blocks && RegisterFrom(cfg, c, toks, b) == RegisterFrom(cfg, r, toks, b + 1)
  {
    if b < |toks| / BLOCK_SIZE {
      BlockInRange(cfg, c, b);
    }
  }

  /** `register_prefix` of a prompt whose tokens are all live */
  function Register(cfg: Config, c: Cache, toks: seq<Token>): (r: Cache)
    requires Inv(cfg, c) && |toks| <= c.len
    ensures Inv(cfg, r)
    ensures r.blocks == c.blocks && r.len == c.len && r.pool == c.pool && r.alloc.free == c.alloc.free
    ensures Submap(c.reg, r.reg)
  {
    RegisterKeepsTail(cfg, c, toks);
    RegisterFrom(cfg, c, toks, 0)
  }

  lemma RegisterKeepsTail(cfg: Config, c: Cache, toks: seq<Token>)
    requires Inv(cfg, c) && |toks| <= c.len
    ensures TailOwned(RegisterFrom(cfg, c, toks, 0))
  {
    forall b | c.len / BLOCK_SIZE <= b < |c.blocks|
      ensures c.blocks[b] !in c.blocks[0..|toks| / BLOCK_SIZE]
    {
      SoleOwner(cfg, c, b);
    }
  }

  // ------------------------------------------------------------------ import

  function SetK(row: seq<Cell>, start: nat, t: Tensor): (r: seq<Cell>)
    requires start + t.n <= |row|
    ensures |r| == |row|
    ensures forall s :: 0 <= s < |row| ==>
      r[s] == if start <= s < start + t.n then row[s].(k := RowOf(t, s - start)) else row[s]
  {
    seq(|row|, s requires 0 <= s < |row| =>
      if start <= s < start + t.n then row[s].(k := RowOf(t, s - start)) else row[s])
  }

  function SetV(row: seq<Cell>, start: nat, t: Tensor): (r: seq<Cell>)
    requires start + t.n <= |row|
    ensures |r| == |row|
    ensures forall s :: 0 <= s < |row| ==>
      r[s] == if start <= s < start + t.n then row[s].(v := RowOf(t, s - start)) else row[s]
  {
    seq(|row|, s requires 0 <= s < |row| =>
      if start <= s < start + t.n then row[s].(v := RowOf(t, s - start)) else row[s])
  }

  /** `write_block` for one layer: the new pool row and whether the write went through. */
  function WriteBlock(cfg: Config, row: seq<Cell>, id: nat, lb: LayerBlock): (r: (seq<Cell>, bool))
    ensures |r.0| == |row|
  {
    var start := id * lb.k.n;
    if (lb.k.heads, lb.k.n, lb.k.dim) != (lb.v.heads, lb.v.n, lb.v.dim) then (row, false)
    else if lb.k.heads != cfg.kvHeads || lb.k.dim != cfg.headDim then (row, false)
    else if lb.k.dtype != cfg.dtype || start + lb.k.n > |row| then (row, false)
    else if lb.v.dtype != cfg.dtype then (SetK(row, start, lb.k), false)
    else (SetV(SetK(row, start, lb.k), start, lb.v), true)
  }

  /** Writing the layers of one bundle block, from layer `l` on, up to the first failure. */
  function WriteLayers(cfg: Config, pool: Pool, id: nat, layers: seq<LayerBlock>, l: nat): (r: (Pool, bool))
    requires Shaped(cfg, pool) && |layers| == cfg.numLayers && l <= |layers|
    ensures Shaped(cfg, r.0)
    decreases |layers| - l
  {
    if l == |layers| then (pool, true) else
      var (row, ok) := WriteBlock(cfg, pool[l], id, layers[l]);
      var pool' := pool[l := row];
      if ok then WriteLayers(cfg, pool', id, layers, l + 1) else (pool', false)
  }

  /** A half-built import: the blocks allocated so far and why it stopped, if it did. */
  datatype Landing = Landing(c: Cache, taken: seq<nat>, stopped: Option<Reason>)

  /** While an import is under way, what it has allocated is all the sequence holds, and holds alone. */
  ghost predicate Landed(cfg: Config, r: Landing) {
    && |r.c.alloc.refs| == cfg.NumBlocks() && Balanced(r.c.alloc, multiset(r.taken), r.c.reg)
    && (forall b :: 0 <= b < |r.taken| ==> r.taken[b] < cfg.NumBlocks() && r.c.alloc.refs[r.taken[b]] == 1)
    && Shaped(cfg, r.c.pool)
    && (r.stopped.None? ==> r.c.blocks == r.taken)
  }

  /** An empty sequence is where every import starts. */
  lemma EmptyIsLanded(cfg: Config, c: Cache)
    requires Counted(cfg, c) && Shaped(cfg, c.pool) && c.blocks == []
    ensures Landed(cfg, Landing(c, c.blocks, None))
  {
  }

  /** Importing one bundle block. */
  function LandOne(cfg: Config, c: Cache, block: BundleBlock): (r: Landing)
    requires Landed(cfg, Landing(c, c.blocks, None))
    ensures Landed(cfg, r)
    ensures r.c.reg == c.reg && r.c.len == c.len
    ensures c.blocks <= r.taken && |r.taken| <= |c.blocks| + 1
    ensures r.stopped.None? ==> |r.taken| == |c.blocks| + 1 && |r.c.alloc.free| == |c.alloc.free| - 1
    ensures r.stopped == Some(OutOfBlocks) ==> |c.alloc.free| == 0
  {
    if |block.layers| != cfg.numLayers then Landing(c, c.blocks, Some(BadLayerCount)) else
      TakeStep(cfg, c);
      match Take(c.alloc)
      case None => Landing(c, c.blocks, Some(OutOfBlocks))
      case Some((a, id)) =>
        var (pool, ok) := WriteLayers(cfg, c.pool, id, block.layers, 0);
        if ok then Landing(Cache(a, c.blocks + [id], c.len, c.reg, pool), c.blocks + [id], None)
        else Landing(c.(alloc := a, pool := pool), c.blocks + [id], Some(BadTensor))
  }

  /** The import loop over the bundle's blocks, from block `i` on; the table holds what it pushed. */
  function LandFrom(cfg: Config, c: Cache, blocks: seq<BundleBlock>, i: nat): (r: Landing)
    requires Landed(cfg, Landing(c, c.blocks, None)) && i <= |blocks|
    ensures Landed(cfg, r)
    ensures r.c.reg == c.reg && r.c.len == c.len
    ensures c.blocks <= r.taken
    ensures r.stopped.None? ==> |r.taken| == |c.blocks| + |blocks| - i
    ensures r.stopped.None? ==> |r.c.alloc.free| == |c.alloc.free| - (|blocks| - i)
    ensures |c.alloc.free| >= |blocks| - i ==> r.stopped != Some(OutOfBlocks)
    decreases |blocks| - i
  {
    hide LandOne, Balanced;
    if i == |blocks| then Landing(c, c.blocks, None) else
      var one := LandOne(cfg, c, blocks[i]);
      if one.stopped.Some? then one else LandFrom(cfg, one.c, blocks, i + 1)
  }

  /** One turn of the import loop. */
  lemma LandStep(cfg: Config, c: Cache, blocks: seq<BundleBlock>, i: nat)
    requires Landed(cfg, Landing(c, c.blocks, None)) && i <= |blocks|
    ensures i == |blocks| ==> LandFrom(cfg, c, blocks, i) == Landing(c, c.blocks, None)
    ensures i < |blocks| ==>
      var one := LandOne(cfg, c, blocks[i]);
      if one.stopped.Some? then LandFrom(cfg, c, blocks, i) == one
      else
        && Landed(cfg, Landing(one.c, one.c.blocks, None))
        && LandFrom(cfg, c, blocks, i) == LandFrom(cfg, one.c, blocks, i + 1)
  {
    hide LandOne, Balanced;
  }

  /** The checks of `import_prefix_bundle` that come before anything is touched. */
  function Rejects(cfg: Config, bundle: KvBundle, prompt: seq<Token>): Option<Reason> {
    var meta := bundle.meta;
    if meta.blockSize != BLOCK_SIZE || meta.numLayers != cfg.numLayers ||
       meta.numKvHeads != cfg.kvHeads || meta.headDim != cfg.headDim then Some(BadConfig)
    else if meta.dtype != cfg.dtype then Some(BadDType)
    else if meta.tokenCount == 0 || meta.tokenCount % BLOCK_SIZE != 0 then Some(Unaligned)
    else if |meta.tokenIds| != meta.tokenCount then Some(BadTokenCount)
    else if |prompt| < meta.tokenCount || prompt[..meta.tokenCount] != meta.tokenIds then Some(WrongPrompt)
    else if |bundle.blocks| != meta.tokenCount / BLOCK_SIZE then Some(BadBlockCount)
    else None
  }

  /** The import proper, on a reset cache with room for every block. */
  function Land(cfg: Config, c: Cache, bundle: KvBundle): (r: Outcome<nat>)
    requires Counted(cfg, c) && Shaped(cfg, c.pool) && c.blocks == [] && c.len == 0
    requires |bundle.meta.tokenIds| == bundle.meta.tokenCount == |bundle.blocks| * BLOCK_SIZE
    ensures Inv(cfg, r.c)
    ensures Submap(c.reg, r.c.reg)
    ensures r.Failed? ==> r.c.reg == c.reg && r.c.blocks == [] && r.c.len == 0
    ensures r.Done? ==> r.value == bundle.meta.tokenCount == r.c.len
  {
    var landing := LandFrom(cfg, c, bundle.blocks, 0);
    match landing.stopped
    case Some(why) =>
      assert multiset{} + multiset(landing.taken) == multiset(landing.taken);
      var rolledBack := DropAll(landing.c.alloc, landing.taken, multiset{}, landing.c.reg);
      Failed(landing.c.(alloc := rolledBack, blocks := [], len := 0), why)
    case None =>
      var live := landing.c.(len := bundle.meta.tokenCount);
      Done(Register(cfg, live, bundle.meta.tokenIds), bundle.meta.tokenCount)
  }

  /** `import_prefix_bundle` */
  function Import(cfg: Config, c: Cache, bundle: KvBundle, prompt: seq<Token>): (r: Outcome<nat>)
    requires Inv(cfg, c)
    ensures Inv(cfg, r.c)
    ensures Submap(c.reg, r.c.reg)
    ensures r.Failed? ==> r.c.reg == c.reg
    ensures r.Failed? && Rejects(cfg, bundle, prompt).Some? ==> r.c == c
    ensures r.Failed? && Rejects(cfg, bundle, prompt).None? ==> r.c.blocks == [] && r.c.len == 0
    ensures r.Done? ==> Rejects(cfg, bundle, prompt).None? && r.value == bundle.meta.tokenCount == r.c.len
    ensures r.Done? ==> 0 < r.value <= |prompt|
  {
    match Rejects(cfg, bundle, prompt)
    case Some(why) => Failed(c, why)
    case None =>
      var c1 := Reset(cfg, c);
      if |c1.alloc.free| < |bundle.blocks| then Failed(c1, OutOfBlocks) else Land(cfg, c1, bundle)
  }
}
