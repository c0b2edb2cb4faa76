/** The block allocator, block table and KV pool, updated in place (src/models/common/paged.rs). */
module Paged {
  import opened Basics
  import opened Network
  import opened PoolWrite
  import opened Bundle
  import Allocator
  import CacheState

  class BlockAllocator {
    var free: seq<nat>
    const refCounts: array<nat>

    ghost function Abs(): Allocator.Alloc
      reads this, refCounts
    {
      Allocator.Alloc(free, refCounts[..])
    }

    constructor (numBlocks: nat)
      ensures fresh(refCounts) && Abs() == Allocator.Fresh(numBlocks)
    {
      free := seq(numBlocks, i requires 0 <= i < numBlocks => numBlocks - 1 - i);
      refCounts := new nat[numBlocks](_ => 0);
      new;
      assert refCounts[..] == Allocator.Fresh(numBlocks).refs;
    }

    method Allocate() returns (r: Option<nat>)
      requires forall b :: b in free ==> b < refCounts.Length
      modifies this, refCounts
      ensures match Allocator.Take(old(Abs()))
        case None => r.None? && Abs() == old(Abs())
        case Some((a, id)) => r == Some(id) && Abs() == a
    {
      if |free| == 0 {
        return None;
      }
      var id := free[|free| - 1];
      assert id in free;
      free := free[..|free| - 1];
      refCounts[id] := 1;
      r := Some(id);
    }

    method Incref(b: nat)
      requires b < refCounts.Length
      modifies refCounts
      ensures Abs() == Allocator.Incref(old(Abs()), b)
    {
      refCounts[b] := refCounts[b] + 1;
    }

    method Decref(b: nat) returns (freed: bool)
      requires b < refCounts.Length && refCounts[b] > 0
      modifies this, refCounts
      ensures Abs() == Allocator.Decref(old(Abs()), b)
      ensures freed <==> refCounts[b] == 0
    {
      refCounts[b] := refCounts[b] - 1;
      freed := refCounts[b] == 0;
      if freed {
        free := free + [b];
      }
    }
  }

  class BlockTable {
    var blocks: seq<nat>
    var len: nat

    constructor ()
      ensures blocks == [] && len == 0
    {
      blocks := [];
      len := 0;
    }

    function Capacity(): nat
      reads this
    {
      |blocks| * CacheState.BLOCK_SIZE
    }

    method PushBlock(id: nat)
      modifies this
      ensures blocks == old(blocks) + [id] && len == old(len)
    {
      blocks := blocks + [id];
    }

    method Clear()
      modifies this
      ensures blocks == [] && len == 0
    {
      blocks := [];
      len := 0;
    }

    method Advance(n: nat)
      modifies this
      ensures blocks == old(blocks) && len == old(len) + n
    {
      len := len + n;
    }
  }

  /** Per layer a flat run of slots for K and one for V. */
  class PagedKvPool {
    const cfg: CacheState.Config
    const kPools: array2<Row>
    const vPools: array2<Row>

    ghost predicate Valid() {
      && kPools != vPools
      && kPools.Length0 == vPools.Length0 == cfg.numLayers
      && kPools.Length1 == vPools.Length1 == cfg.NumSlots()
    }

    ghost function LayerCells(l: nat): (row: seq<Cell>)
      requires Valid() && l < cfg.numLayers
      reads kPools, vPools
      ensures |row| == cfg.NumSlots()
    {
      seq(cfg.NumSlots(), s requires 0 <= s < cfg.NumSlots() reads kPools, vPools => Cell(kPools[l, s], vPools[l, s]))
    }

    ghost function Abs(): (pool: CacheState.Pool)
      requires Valid()
      reads kPools, vPools
      ensures CacheState.Shaped(cfg, pool)
    {
      seq(cfg.numLayers, l requires 0 <= l < cfg.numLayers reads kPools, vPools => LayerCells(l))
    }

    constructor (cfg: CacheState.Config)
      ensures Valid() && fresh(kPools) && fresh(vPools) && this.cfg == cfg
      ensures Abs() == CacheState.New(cfg).pool
    {
      this.cfg := cfg;
      kPools := new Row[cfg.numLayers, cfg.NumSlots()]((_, _) => CacheState.ZeroRow(cfg));
      vPools := new Row[cfg.numLayers, cfg.NumSlots()]((_, _) => CacheState.ZeroRow(cfg));
      new;
      var zero := Cell(CacheState.ZeroRow(cfg), CacheState.ZeroRow(cfg));
      forall l | 0 <= l < cfg.numLayers
        ensures LayerCells(l) == CacheState.New(cfg).pool[l]
      {
      }
    }

    /** `slice_set` of a run of keys and values */
    method SetRun(layer: nat, start: nat, cells: seq<Cell>)
      requires Valid() && layer < cfg.numLayers && start + |cells| <= cfg.NumSlots()
      modifies kPools, vPools
      ensures Abs() == old(Abs())[layer := PoolWrite.SetRun(old(Abs())[layer], start, cells)]
    {
      forall j | 0 <= j < |cells| {
        kPools[layer, start + j] := cells[j].k;
      }
      forall j | 0 <= j < |cells| {
        vPools[layer, start + j] := cells[j].v;
      }
      forall l | 0 <= l < cfg.numLayers
        ensures LayerCells(l) == if l == layer then PoolWrite.SetRun(old(LayerCells(l)), start, cells)
          else old(LayerCells(l))
      {
      }
    }

    /** `write`: the batch goes in run by run, the runs cut by `rule` */
    method Write(rule: Rule, layer: nat, slots: seq<nat>, cells: seq<Cell>)
      requires Valid() && layer < cfg.numLayers && Fits(cfg.NumSlots(), slots) && |cells| == |slots|
      modifies kPools, vPools
      ensures Abs() == old(Abs())[layer := WriteFrom(rule, old(Abs())[layer], slots, cells, 0)]
    {
      hide WriteFrom;
      ghost var before := Abs();
      var i := 0;
      while i < |slots|
        invariant 0 <= i <= |slots|
        invariant Abs() == before[layer := Abs()[layer]]
        invariant WriteFrom(rule, Abs()[layer], slots, cells, i) == WriteFrom(rule, before[layer], slots, cells, 0)
      {
        var n := RunLength(rule, slots, i);
        ghost var row := Abs()[layer];
        WriteStep(rule, row, slots, cells, i);
        SetRun(layer, slots[i], cells[i..i + n]);
        assert Abs()[layer] == PoolWrite.SetRun(row, slots[i], cells[i..i + n]);
        i := i + n;
      }
      WriteEnds(rule, Abs()[layer], slots, cells);
    }

    /** The inner loop of `write`: how many tokens the run from token `i` takes in. */
    method RunLength(rule: Rule, slots: seq<nat>, i: nat) returns (n: nat)
      requires i < |slots|
      ensures n == RunFrom(rule, slots, i, 1)
    {
      n := 1;
      var startSlot := slots[i];
      while i + n < |slots| &&
        (match rule case AsWritten => i + n == startSlot + n case Intended => slots[i + n] == startSlot + n)
        invariant 1 <= n && i + n <= |slots|
        invariant RunFrom(rule, slots, i, n) == RunFrom(rule, slots, i, 1)
      {
        n := n + 1;
      }
    }

    /** `write_block`: the keys, then the values of one physical block */
    method WriteBlock(layer: nat, id: nat, lb: LayerBlock) returns (ok: bool)
      requires Valid() && layer < cfg.numLayers
      modifies kPools, vPools
      ensures var (row, done) := CacheState.WriteBlock(cfg, old(Abs())[layer], id, lb);
        Abs() == old(Abs())[layer := row] && ok == done
    {
      if (lb.k.heads, lb.k.n, lb.k.dim) != (lb.v.heads, lb.v.n, lb.v.dim) {
        assert old(Abs())[layer := old(Abs())[layer]] == Abs();
        return false;
      }
      if lb.k.heads != cfg.kvHeads || lb.k.dim != cfg.headDim {
        assert old(Abs())[layer := old(Abs())[layer]] == Abs();
        return false;
      }
      var start := id * lb.k.n;
      var wroteK := SetK(layer, start, lb.k);
      if !wroteK {
        assert old(Abs())[layer := old(Abs())[layer]] == Abs();
        return false;
      }
      ok := SetV(layer, start, lb.v);
    }

    /** `slice_set` on the key pool: refused on a dtype mismatch or past the end */
    method SetK(layer: nat, start: nat, t: Tensor) returns (ok: bool)
      requires Valid() && layer < cfg.numLayers
      modifies kPools
      ensures ok <==> t.dtype == cfg.dtype && start + t.n <= cfg.NumSlots()
      ensures Abs() == if ok then old(Abs())[layer := CacheState.SetK(old(Abs())[layer], start, t)] else old(Abs())
    {
      if t.dtype != cfg.dtype || start + t.n > cfg.NumSlots() {
        return false;
      }
      forall j | 0 <= j < t.n {
        kPools[layer, start + j] := RowOf(t, j);
      }
      forall l | 0 <= l < cfg.numLayers
        ensures LayerCells(l) == if l == layer then CacheState.SetK(old(LayerCells(l)), start, t)
          else old(LayerCells(l))
      {
      }
      ok := true;
    }

    method SetV(layer: nat, start: nat, t: Tensor) returns (ok: bool)
      requires Valid() && layer < cfg.numLayers
      modifies vPools
      ensures ok <==> t.dtype == cfg.dtype && start + t.n <= cfg.NumSlots()
      ensures Abs() == if ok then old(Abs())[layer := CacheState.SetV(old(Abs())[layer], start, t)] else old(Abs())
    {
      if t.dtype != cfg.dtype || start + t.n > cfg.NumSlots() {
        return false;
      }
      forall j | 0 <= j < t.n {
        vPools[layer, start + j] := RowOf(t, j);
      }
      forall l | 0 <= l < cfg.numLayers
        ensures LayerCells(l) == if l == layer then CacheState.SetV(old(LayerCells(l)), start, t)
          else old(LayerCells(l))
      {
      }
      ok := true;
    }

    /** `block_view`: `n` slots from `start` */
    method BlockView(layer: nat, start: nat, n: nat) returns (cells: seq<Cell>)
      requires Valid() && layer < cfg.numLayers && start + n <= cfg.NumSlots()
      ensures cells == Abs()[layer][start..start + n]
    {
      cells := seq(n, j
        requires 0 <= j < n && start + n <= kPools.Length1 && layer < kPools.Length0 && Valid()
        reads kPools, vPools =>
        Cell(kPools[layer, start + j], vPools[layer, start + j]));
    }
  }

  /** One run of the outer loop of `write`. */
  lemma WriteStep(rule: Rule, row: seq<Cell>, slots: seq<nat>, cells: seq<Cell>, i: nat)
    requires Fits(|row|, slots) && |cells| == |slots| && i < |slots|
    ensures var n := RunFrom(rule, slots, i, 1);
      && slots[i] + n <= |row|
      && WriteFrom(rule, row, slots, cells, i) ==
        WriteFrom(rule, SetRun(row, slots[i], cells[i..i + n]), slots, cells, i + n)
  {
    RunFits(rule, |row|, slots, i);
  }

  lemma WriteEnds(rule: Rule, row: seq<Cell>, slots: seq<nat>, cells: seq<Cell>)
    requires Fits(|row|, slots) && |cells| == |slots|
    ensures WriteFrom(rule, row, slots, cells, |slots|) == row
  {
  }
}
