/**
 The ref-counted block allocator and the prefix registry as values
 (src/models/common/paged.rs `BlockAllocator`, src/models/common/prefix.rs `PrefixRegistry`).
 */
module Allocator {
  import opened Basics
  import opened Network

  type Hash = nat

  datatype Alloc = Alloc(free: seq<nat>, refs: seq<nat>)

  datatype Entry = Entry(tokens: seq<Token>, id: nat)
  type Registry = map<Hash, Entry>

  /** The registry entries that hold a reference on block `b`. */
  function Holders(reg: Registry, b: nat): set<Hash> {
    set h | h in reg && reg[h].id == b
  }

  /**
   Reference conservation: with `held` the references held outside the registry, every block's
   count is its occurrences in `held` plus its occurrences in the registry, and the free list is
   exactly the unreferenced blocks, each once.
   */
  ghost predicate Balanced(a: Alloc, held: multiset<nat>, reg: Registry) {
    && (forall b :: 0 <= b < |a.refs| ==> a.refs[b] == References(held, reg, b))
    && (forall b :: b in held ==> b < |a.refs|)
    && (forall h :: h in reg ==> reg[h].id < |a.refs|)
    && Lists(a.free, Unreferenced(a))
  }

  function References(held: multiset<nat>, reg: Registry, b: nat): nat {
    held[b] + |Holders(reg, b)|
  }

  ghost function Unreferenced(a: Alloc): set<nat> {
    set b | 0 <= b < |a.refs| && a.refs[b] == 0
  }

  function Fresh(numBlocks: nat): (a: Alloc)
    ensures Balanced(a, multiset{}, map[])
    ensures |a.refs| == numBlocks && |a.free| == numBlocks
  {
    var a := Alloc(seq(numBlocks, i requires 0 <= i < numBlocks => numBlocks - 1 - i), seq(numBlocks, _ => 0));
    FreshBalanced(a);
    a
  }

  lemma FreshBalanced(a: Alloc)
    requires |a.free| == |a.refs|
    requires forall i :: 0 <= i < |a.free| ==> a.free[i] == |a.free| - 1 - i && a.refs[i] == 0
    ensures Balanced(a, multiset{}, map[])
  {
    forall b | 0 <= b < |a.refs|
      ensures b in a.free
    {
      assert a.free[|a.free| - 1 - b] == b;
    }
    assert forall b :: Holders(map[], b) == {};
  }

  /** `allocate`: pop the last free block and give it its first reference. */
  function Take(a: Alloc): (r: Option<(Alloc, nat)>)
    requires forall b :: b in a.free ==> b < |a.refs|
  {
    if a.free == [] then None else
      var id := a.free[|a.free| - 1];
      assert id in a.free;
      Some((Alloc(a.free[..|a.free| - 1], a.refs[id := 1]), id))
  }

  function Incref(a: Alloc, b: nat): Alloc
    requires b < |a.refs|
  {
    a.(refs := a.refs[b := a.refs[b] + 1])
  }

  function Decref(a: Alloc, b: nat): Alloc
    requires b < |a.refs| && a.refs[b] > 0
  {
    var refs := a.refs[b := a.refs[b] - 1];
    Alloc(if refs[b] == 0 then a.free + [b] else a.free, refs)
  }

  lemma TakeBalanced(a: Alloc, held: multiset<nat>, reg: Registry)
    requires Balanced(a, held, reg)
    ensures Take(a).None? <==> Unreferenced(a) == {}
    ensures Take(a).Some? ==>
      var (a', id) := Take(a).value;
      && id < |a.refs| && a.refs[id] == 0 && held[id] == 0 && Holders(reg, id) == {}
      && Balanced(a', held + multiset{id}, reg)
      && a'.refs == a.refs[id := 1] && |a'.free| == |a.free| - 1
  {
    if a.free != [] {
      var id := a.free[|a.free| - 1];
      assert id in a.free;
      var a' := Take(a).value.0;
      assert a.free == a'.free + [id];
      forall b ensures b in a'.free <==> b in Unreferenced(a') {
        if b in a'.free {
          var i :| 0 <= i < |a'.free| && a'.free[i] == b;
          assert a.free[i] == b != id && b in a.free;
        }
        assert b in Unreferenced(a') ==> b in a.free;
      }
      assert Lists(a'.free, Unreferenced(a'));
    } else {
      assert forall b :: b in Unreferenced(a) ==> b in a.free;
    }
  }

  lemma IncrefBalanced(a: Alloc, held: multiset<nat>, reg: Registry, b: nat)
    requires Balanced(a, held, reg) && b < |a.refs| && a.refs[b] > 0
    ensures Balanced(Incref(a, b), held + multiset{b}, reg)
  {
    assert Unreferenced(Incref(a, b)) == Unreferenced(a);
  }

  lemma OneMoreHolder(reg: Registry, h: Hash, e: Entry, b: nat)
    requires h !in reg
    ensures |Holders(reg[h := e], b)| == |Holders(reg, b)| + if b == e.id then 1 else 0
  {
    assert Holders(reg[h := e], b) == Holders(reg, b) + (if b == e.id then {h} else {});
  }

  lemma OneHolderLess(reg: Registry, h: Hash, b: nat)
    requires h in reg
    ensures |Holders(reg, b)| == |Holders(reg - {h}, b)| + if b == reg[h].id then 1 else 0
  {
    assert Holders(reg, b) == Holders(reg - {h}, b) + (if b == reg[h].id then {h} else {});
  }

  /** The registry takes its own reference on a block someone already holds. */
  lemma RegisterBalanced(a: Alloc, held: multiset<nat>, reg: Registry, h: Hash, e: Entry)
    requires Balanced(a, held, reg) && h !in reg && e.id < |a.refs| && a.refs[e.id] > 0
    ensures Balanced(Incref(a, e.id), held, reg[h := e])
  {
    hide Holders;
    var a', reg' := Incref(a, e.id), reg[h := e];
    assert Unreferenced(a') == Unreferenced(a);
    forall b | 0 <= b < |a.refs|
      ensures a'.refs[b] == References(held, reg', b)
    {
      OneMoreHolder(reg, h, e, b);
    }
  }

  lemma FreedBalanced(a: Alloc, b: nat)
    requires Lists(a.free, Unreferenced(a)) && b < |a.refs| && a.refs[b] > 0
    ensures Lists(Decref(a, b).free, Unreferenced(Decref(a, b)))
  {
    var a' := Decref(a, b);
    assert b !in a.free;
    assert Unreferenced(a') == Unreferenced(a) + (if a.refs[b] == 1 then {b} else {});
  }

  lemma DecrefBalanced(a: Alloc, held: multiset<nat>, reg: Registry, b: nat)
    requires Balanced(a, held, reg) && b in held
    ensures b < |a.refs| && a.refs[b] > 0
    ensures Balanced(Decref(a, b), held - multiset{b}, reg)
  {
    FreedBalanced(a, b);
  }

  lemma UnregisterBalanced(a: Alloc, held: multiset<nat>, reg: Registry, h: Hash)
    requires Balanced(a, held, reg) && h in reg
    ensures reg[h].id < |a.refs| && a.refs[reg[h].id] > 0
    ensures Balanced(Decref(a, reg[h].id), held, reg - {h})
  {
    hide Holders;
    var b := reg[h].id;
    OneHolderLess(reg, h, b);
    FreedBalanced(a, b);
    var a', reg' := Decref(a, b), reg - {h};
    forall c | 0 <= c < |a.refs|
      ensures a'.refs[c] == References(held, reg', c)
    {
      OneHolderLess(reg, h, c);
    }
  }

  /** Releasing a list of references one by one (`reset_sequence`, import rollback). */
  function DropAll(a: Alloc, ids: seq<nat>, ghost held: multiset<nat>, ghost reg: Registry): (r: Alloc)
    requires Balanced(a, held + multiset(ids), reg)
    ensures Balanced(r, held, reg)
    ensures |r.refs| == |a.refs|
    ensures |a.free| <= |r.free|
    decreases |ids|
  {
    if ids == [] then
      assert held + multiset(ids) == held;
      a
    else
      MultisetOfTail(ids);
      DecrefBalanced(a, held + multiset(ids), reg, ids[0]);
      assert held + multiset(ids) - multiset{ids[0]} == held + multiset(ids[1..]);
      DropAll(Decref(a, ids[0]), ids[1..], held, reg)
  }

  /** One turn of the loop over the references. */
  lemma DropStep(a: Alloc, ids: seq<nat>, held: multiset<nat>, reg: Registry)
    requires Balanced(a, held + multiset(ids), reg) && ids != []
    ensures ids[0] < |a.refs| && a.refs[ids[0]] > 0
    ensures Balanced(Decref(a, ids[0]), held + multiset(ids[1..]), reg)
    ensures DropAll(a, ids, held, reg) == DropAll(Decref(a, ids[0]), ids[1..], held, reg)
  {
    MultisetOfTail(ids);
    DecrefBalanced(a, held + multiset(ids), reg, ids[0]);
    assert held + multiset(ids) - multiset{ids[0]} == held + multiset(ids[1..]);
  }

  /** Emptying the registry, entry by entry in the order `keys` the hash map happens to drain in. */
  function DropEntries(a: Alloc, reg: Registry, keys: seq<Hash>, ghost held: multiset<nat>): (r: Alloc)
    requires Balanced(a, held, reg) && Lists(keys, reg.Keys)
    ensures Balanced(r, held, map[])
    ensures |r.refs| == |a.refs|
    decreases |keys|
  {
    if keys == [] then
      assert reg == map[];
      a
    else
      assert keys[0] in reg.Keys;
      UnregisterBalanced(a, held, reg, keys[0]);
      assert Lists(keys[1..], (reg - {keys[0]}).Keys) by {
        assert keys == [keys[0]] + keys[1..];
        assert keys[0] !in keys[1..];
      }
      DropEntries(Decref(a, reg[keys[0]].id), reg - {keys[0]}, keys[1..], held)
  }

  /** One turn of the loop over the drained entries. */
  lemma DropEntryStep(a: Alloc, reg: Registry, keys: seq<Hash>, held: multiset<nat>)
    requires Balanced(a, held, reg) && Lists(keys, reg.Keys)
    ensures keys == [] ==> DropEntries(a, reg, keys, held) == a
    ensures keys != [] ==>
      && keys[0] in reg && reg[keys[0]].id < |a.refs| && a.refs[reg[keys[0]].id] > 0
      && Balanced(Decref(a, reg[keys[0]].id), held, reg - {keys[0]}) && Lists(keys[1..], (reg - {keys[0]}).Keys)
      && DropEntries(a, reg, keys, held) == DropEntries(Decref(a, reg[keys[0]].id), reg - {keys[0]}, keys[1..], held)
  {
    hide Balanced, Decref;
    if keys != [] {
      assert keys[0] in reg.Keys;
      UnregisterBalanced(a, held, reg, keys[0]);
      assert keys == [keys[0]] + keys[1..];
      assert keys[0] !in keys[1..];
    }
  }
}
