/**
 A Worker's object store, keyed by key and generation, and the committed index a co-located engine
 keeps in front of it (src/distkv/worker.rs, src/kv_cache/local.rs).
 */
module Worker {
  import opened Basics
  import opened Totals
  import Codec
  import Master

  type Bytes = seq<Codec.Byte>
  type Slot = (Master.Key, nat)

  datatype Store = Store(capacity: nat, used: nat, objects: map<Slot, Bytes>)

  ghost function Sizes(objects: map<Slot, Bytes>): map<Slot, nat> {
    map s | s in objects :: |objects[s]|
  }

  /** What the store says it uses is what it holds, and no more than it may. */
  ghost predicate Accounted(s: Store) {
    s.used == Total(Sizes(s.objects)) && s.used <= s.capacity
  }

  function LengthAt(objects: map<Slot, Bytes>, slot: Slot): nat {
    if slot in objects then |objects[slot]| else 0
  }

  lemma SizesWithout(objects: map<Slot, Bytes>, slot: Slot, bytes: Bytes)
    ensures Total(Sizes(objects)) == LengthAt(objects, slot) + Total(Sizes(objects) - {slot})
    ensures Total(Sizes(objects[slot := bytes])) == |bytes| + Total(Sizes(objects) - {slot})
    ensures Total(Sizes(objects - {slot})) == Total(Sizes(objects) - {slot})
  {
    TotalSet(Sizes(objects), slot, |bytes|);
    assert Sizes(objects[slot := bytes]) == Sizes(objects)[slot := |bytes|];
    assert Sizes(objects - {slot}) == Sizes(objects) - {slot};
  }

  /** `put_bytes`: refused, and without effect, when the store would go over its capacity */
  function Put(s: Store, slot: Slot, bytes: Bytes): (r: (Store, bool))
    requires Accounted(s)
    ensures Accounted(r.0) && r.0.capacity == s.capacity
    ensures r.1 ==> r.0.objects == s.objects[slot := bytes]
    ensures !r.1 ==> r.0 == s
    ensures r.1 <==> s.used + |bytes| <= s.capacity + LengthAt(s.objects, slot)
  {
    SizesWithout(s.objects, slot, bytes);
    var newUsed := s.used - LengthAt(s.objects, slot) + |bytes|;
    if newUsed > s.capacity then (s, false)
    else (Store(s.capacity, newUsed, s.objects[slot := bytes]), true)
  }

  /** `get_bytes` */
  function Get(s: Store, slot: Slot): Option<Bytes> {
    if slot in s.objects then Some(s.objects[slot]) else None
  }

  /** `delete_generation` */
  function Delete(s: Store, slot: Slot): (r: Store)
    requires Accounted(s)
    ensures Accounted(r) && r.capacity == s.capacity && r.objects == s.objects - {slot}
    ensures r.used == s.used - LengthAt(s.objects, slot)
  {
    SizesWithout(s.objects, slot, []);
    assert slot !in s.objects ==> s.objects - {slot} == s.objects;
    if slot in s.objects then s.(used := Master.Less(s.used, |s.objects[slot]|), objects := s.objects - {slot}) else s
  }

  function Empty(capacity: nat): (s: Store)
    ensures Accounted(s)
  {
    assert Sizes(map[]) == map[];
    Store(capacity, 0, map[])
  }

  type GoodStore = s: Store | Accounted(s) ghost witness Empty(0)

  // ------------------------------------------------------------------ in place

  class WorkerStore {
    const capacity: nat
    var used: nat
    var objects: map<Slot, Bytes>

    ghost function Abs(): Store
      reads this
    {
      Store(capacity, used, objects)
    }

    constructor (capacity: nat)
      ensures Abs() == Empty(capacity) && Accounted(Abs())
    {
      this.capacity := capacity;
      used, objects := 0, map[];
      new;
      assert Abs() == Empty(capacity);
    }

    method PutBytes(key: Master.Key, generation: nat, bytes: Bytes) returns (ok: bool)
      requires Accounted(Abs())
      modifies this
      ensures (Abs(), ok) == Put(old(Abs()), (key, generation), bytes) && Accounted(Abs())
    {
      var slot := (key, generation);
      var prevLen := LengthAt(objects, slot);
      SizesWithout(objects, slot, bytes);
      var others: nat := used - prevLen;
      var newUsed := others + |bytes|;
      if newUsed > capacity {
        return false;
      }
      objects := objects[slot := bytes];
      used := newUsed;
      ok := true;
    }

    method GetBytes(key: Master.Key, generation: nat) returns (r: Option<Bytes>)
      ensures r == Get(Abs(), (key, generation))
    {
      r := if (key, generation) in objects then Some(objects[(key, generation)]) else None;
    }

    method DeleteGeneration(key: Master.Key, generation: nat)
      requires Accounted(Abs())
      modifies this
      ensures Abs() == Delete(old(Abs()), (key, generation)) && Accounted(Abs())
    {
      var slot := (key, generation);
      if slot in objects {
        used := Master.Less(used, |objects[slot]|);
        objects := objects - {slot};
      }
      assert Abs() == Delete(old(Abs()), slot);
    }
  }

  /** A store seen through its committed index: staged generations are not served. */
  function Committed(index: map<Master.Key, nat>, s: Store, key: Master.Key): Option<Bytes> {
    if key in index then Get(s, (key, index[key])) else None
  }

  class LocalKvHandle {
    const workerId: Master.WorkerId
    const store: WorkerStore
    var committed: map<Master.Key, nat>

    constructor (workerId: Master.WorkerId, store: WorkerStore)
      ensures this.workerId == workerId && this.store == store && committed == map[]
    {
      this.workerId, this.store, committed := workerId, store, map[];
    }

    method TryGetCommitted(key: Master.Key) returns (r: Option<Bytes>)
      ensures r == Committed(committed, store.Abs(), key)
    {
      if key !in committed {
        return None;
      }
      r := store.GetBytes(key, committed[key]);
    }

    method MarkCommitted(key: Master.Key, generation: nat)
      modifies this
      ensures committed == old(committed)[key := generation]
    {
      committed := committed[key := generation];
    }
  }
}
