/**
 The object store over the protocol (src/kv_cache/distkv_store.rs) and a worker's registration loop
 (src/distkv/registration.rs), as effects on a Master, worker stores and a committed index.
 */
module ObjectStore {
  import opened Basics
  import opened Master
  import opened Worker
  import DistKv
  import ReadBack

  datatype Failure = Refused | Unreachable | StoreFull | CommitRefused

  /** What the Master has on record once a put it opened on `id` commits. */
  lemma OpenedThenCommitted(m: State, key: Key, size: nat, id: WorkerId, pid: PutId)
    requires id in m.workers
    ensures var (c, ok) := Commit(Placed(m, key, size, id, pid), key, pid);
      && ok && key in c.objects
      && c.objects[key] == ObjectMeta(NextGeneration(m, key), Complete, pid, size, id, m.workers[id].epoch)
      && id in c.workers && c.workers[id].epoch == m.workers[id].epoch && c.workers[id].addr == m.workers[id].addr
  {
  }

  lemma ReleasedSame(m: State, key: Key)
    ensures Released(m, key).objects == m.objects && NextGeneration(Released(m, key), key) == NextGeneration(m, key)
  {
  }

  lemma ChosenHasRoom(m: State, now: nat, size: nat, preferred: Option<WorkerId>, id: WorkerId)
    requires CanChoose(m, now, size, preferred, id)
    ensures id in m.workers && !NoRoom(m, now, size)
  {
    assert HasRoom(m, now, size, id);
  }

  class DistKvObjectStore {
    const master: MasterState
    /** The workers that can be reached, by address. */
    const workers: map<Addr, WorkerStore>
    const local: LocalKvHandle?

    constructor (master: MasterState, workers: map<Addr, WorkerStore>, local: LocalKvHandle?)
      ensures this.master == master && this.workers == workers && this.local == local
    {
      this.master, this.workers, this.local := master, workers, local;
    }

    ghost function Stores(): set<WorkerStore> {
      (set a | a in workers :: workers[a]) + (if local == null then {} else {local.store})
    }

    ghost predicate Valid()
      reads Stores()
    {
      forall w :: w in Stores() ==> Accounted(w.Abs())
    }

    predicate Local(id: WorkerId) {
      local != null && local.workerId == id
    }

    /** What `get_object` answers: the committed local copy, or whatever the Master's route leads to. */
    ghost function Answer(now: nat, key: Key): Result<Option<Bytes>, Failure>
      reads master, Stores(), local
    {
      if local != null && Committed(local.committed, local.store.Abs(), key).Some? then
        Ok(Committed(local.committed, local.store.Abs(), key))
      else
        match GetRoute(master.Abs(), now, key)
        case None => Ok(None)
        case Some(r) =>
          if Local(r.worker) then Ok(Get(local.store.Abs(), (key, r.generation)))
          else if r.addr in workers then Ok(Get(workers[r.addr].Abs(), (key, r.generation)))
          else Err(Unreachable)
    }

    /** The read of the engine's own store along a route; what is found is marked. */
    method GetHere(key: Key, generation: nat) returns (r: Option<Bytes>)
      requires local != null
      modifies local
      ensures r == Get(local.store.Abs(), (key, generation))
      ensures local.committed == if r.Some? then old(local.committed)[key := generation] else old(local.committed)
    {
      r := local.store.GetBytes(key, generation);
      if r.Some? {
        local.MarkCommitted(key, generation);
      }
    }

    /** `get_object`; a hit in the engine's own store is marked for the next time */
    method GetObject(now: nat, key: Key) returns (r: Result<Option<Bytes>, Failure>)
      requires Valid()
      modifies local
      ensures Valid() && r == old(Answer(now, key))
      ensures r.Ok? && r.value.Some? ==> Answer(now, key) == r
      ensures var route := GetRoute(master.Abs(), now, key);
        Index() ==
          if old(NoLocalCopy(key)) && route.Some? && Local(route.value.worker)
             && Get(local.store.Abs(), (key, route.value.generation)).Some?
          then old(Index())[key := route.value.generation] else old(Index())
    {
      hide GetRoute, Get;
      if local != null {
        var hit := local.TryGetCommitted(key);
        if hit.Some? {
          return Ok(hit);
        }
      }
      var route := master.LookUpRoute(now, key);
      if route.None? {
        return Ok(None);
      }
      if Local(route.value.worker) {
        var bytes := GetHere(key, route.value.generation);
        return Ok(bytes);
      }
      if route.value.addr !in workers {
        return Err(Unreachable);
      }
      var bytes := workers[route.value.addr].GetBytes(key, route.value.generation);
      r := Ok(bytes);
    }

    /** The bytes are where a write of this generation to this worker goes. */
    ghost predicate StoredAt(id: WorkerId, addr: Addr, key: Key, generation: nat, bytes: Bytes)
      reads Stores()
    {
      if Local(id) then Get(local.store.Abs(), (key, generation)) == Some(bytes)
      else addr in workers && Get(workers[addr].Abs(), (key, generation)) == Some(bytes)
    }

    /** The Master's record of `key` is put `pid`, committed, on a worker of its epoch where `bytes` are stored. */
    ghost predicate Settled(key: Key, bytes: Bytes, pid: PutId)
      reads master, Stores()
    {
      && key in master.objects && master.objects[key].putId == pid && master.objects[key].phase.Complete?
      && var o := master.objects[key];
         && o.worker in master.workers && master.workers[o.worker].epoch == o.workerEpoch
         && StoredAt(o.worker, master.workers[o.worker].addr, key, o.generation, bytes)
    }

    /** No committed copy of the key in the engine's own store, or there is no such engine. */
    ghost predicate NoLocalCopy(key: Key)
      reads Stores(), local
    {
      local == null || Committed(local.committed, local.store.Abs(), key).None?
    }

    /** The engine's own committed copy, whatever its generation, has these bytes. */
    ghost predicate HasCopy(key: Key, bytes: Bytes)
      reads Stores(), local
    {
      local != null && Committed(local.committed, local.store.Abs(), key) == Some(bytes)
    }

    /** The engine's own committed copy is the Master's generation. */
    ghost predicate OwnCopy(key: Key)
      reads master, Stores(), local
    {
      && key in master.objects && Local(master.objects[key].worker)
      && key in local.committed && local.committed[key] == master.objects[key].generation
    }

    /**
     A settled put is what a read answers: from the engine's own copy at any time; else, while its worker is
     alive, if and only if the engine has no committed copy of the key or has one with these bytes.
     */
    lemma SettledIsAnswered(key: Key, bytes: Bytes, pid: PutId, later: nat)
      requires Settled(key, bytes, pid)
      ensures OwnCopy(key) ==> Answer(later, key) == Ok(Some(bytes))
      ensures master.workers[master.objects[key].worker].Usable(later) ==>
        (Answer(later, key) == Ok(Some(bytes)) <==>
           NoLocalCopy(key) || HasCopy(key, bytes))
    {
    }

    /** The state as the protocol's system has it, the engine's store standing at address `home`. */
    ghost function Shared(home: Addr): DistKv.Sys
      requires Valid()
      reads master, Stores(), local
    {
      DistKv.Sys(master.Abs(), map a | a in workers :: workers[a].Abs(),
                 if local == null then map[] else map[home := local.committed], map[], {}, {})
    }

    /** What `get_object` answers here is what an uninterrupted read of the protocol gives. */
    lemma AnswerIsRead(now: nat, key: Key, home: Addr)
      requires Valid() && (local != null ==> home in workers && workers[home] == local.store)
      ensures var read := ReadBack.Read(Shared(home), now, key, if local == null then None
        else Some(ReadBack.Local(home, local.workerId)));
        match Answer(now, key)
        case Ok(answer) => answer == read
        case Err(_) => read.None?
    {
    }

    // ---------------------------------------------------------------- puts

    /** The store of this worker can be reached, in process or at its address. */
    predicate Reaches(id: WorkerId, addr: Addr) {
      Local(id) || addr in workers
    }

    function Target(id: WorkerId, addr: Addr): (w: WorkerStore)
      requires Reaches(id, addr)
      ensures w in Stores()
    {
      if Local(id) then local.store else workers[addr]
    }

    /** What every store holds. */
    ghost function Held(): map<WorkerStore, Store>
      reads Stores()
    {
      map w | w in Stores() :: w.Abs()
    }

    lemma HeldAt(w: WorkerStore)
      requires Valid() && w in Stores()
      ensures w in Held() && Held()[w] == w.Abs() && Accounted(Held()[w])
    {
    }

    ghost function Index(): map<Key, nat>
      reads local
    {
      if local == null then map[] else local.committed
    }

    /** The bytes do not go into the store as it was. */
    ghost predicate Overfull(s: Store, slot: Slot, bytes: Bytes) {
      s.used + |bytes| > s.capacity + LengthAt(s.objects, slot)
    }

    /** The write of `put_object`: in process when the Master pinned the object here. */
    method WriteTo(t: Ticket, key: Key, bytes: Bytes) returns (r: Result<(), Failure>)
      requires Valid()
      modifies Stores()
      ensures Valid()
      ensures r == Err(Unreachable) <==> !Reaches(t.worker, t.addr)
      ensures r == Err(Unreachable) ==> Held() == old(Held())
      ensures Reaches(t.worker, t.addr) ==>
        var w := Target(t.worker, t.addr);
        && (r == Err(StoreFull) <==> Overfull(old(w.Abs()), (key, t.generation), bytes))
        && (r.Ok? || r == Err(StoreFull))
        && Held() == old(Held())[w := Worker.Put(old(w.Abs()), (key, t.generation), bytes).0]
    {
      var stored: bool;
      if Local(t.worker) {
        stored := local.store.PutBytes(key, t.generation, bytes);
      } else if t.addr in workers {
        stored := workers[t.addr].PutBytes(key, t.generation, bytes);
      } else {
        return Err(Unreachable);
      }
      r := if stored then Ok(()) else Err(StoreFull);
    }

    /** The state a put leaves that was placed on worker `id`, from the Master, stores and index before it. */
    ghost predicate Left(m: State, held: map<WorkerStore, Store>, index: map<Key, nat>, key: Key, bytes: Bytes,
                         pid: PutId,
                         id: WorkerId, r: Result<(), Failure>)
      requires id in Released(m, key).workers
      reads master, Stores(), local
    {
      var placed, slot := Placed(Released(m, key), key, |bytes|, id, pid), (key, NextGeneration(m, key));
      var addr := Released(m, key).workers[id].addr;
      && (r == Err(Unreachable) <==> !Reaches(id, addr))
      && (r == Err(Unreachable) ==> Held() == held)
      && (Reaches(id, addr) && Target(id, addr) in held && Accounted(held[Target(id, addr)]) ==>
            var w := Target(id, addr);
            && (r == Err(StoreFull) <==> Overfull(held[w], slot, bytes)) && (r.Ok? || r == Err(StoreFull))
            && Held() == held[w := Worker.Put(held[w], slot, bytes).0])
      && master.Abs() == (if r.Ok? then Commit(placed, key, pid).0 else placed)
      && Index() == if r.Ok? && Local(id) then index[key := slot.1] else index
    }

    /**
     The steps of `put_object`: open a generation, preferably here, write it where it was placed, commit,
     and only then expose it.
     */
    method PutSteps(now: nat, key: Key, bytes: Bytes, pid: PutId) returns (r: Result<(), Failure>, ghost id: WorkerId)
      requires Valid()
      modifies master, Stores(), local
      ensures Valid()
      ensures r == Err(Refused) <==> NoRoom(Released(old(master.Abs()), key), now, |bytes|)
      ensures r == Err(Refused) ==>
        master.Abs() == Released(old(master.Abs()), key) && Held() == old(Held()) && Index() == old(Index())
      ensures r != Err(Refused) ==>
        && id in Released(old(master.Abs()), key).workers
        && CanChoose(Released(old(master.Abs()), key), now, |bytes|, if local == null then None
          else Some(local.workerId), id)
        && Left(old(master.Abs()), old(Held()), old(Index()), key, bytes, pid, id, r)
    {
      hide Valid, NoRoom, Placed, Commit, Released, NextGeneration, CanChoose, Overfull, Accounted, LengthAt, Held,
        Target, Reaches;
      ReleasedSame(master.Abs(), key);
      ghost var released := Released(master.Abs(), key);
      var preferred := if local == null then None else Some(local.workerId);
      var ticket := master.PutStart(now, key, |bytes|, preferred, pid);
      if ticket.None? {
        return Err(Refused), "";
      }
      var t := ticket.value;
      id := t.worker;
      ChosenHasRoom(released, now, |bytes|, preferred, id);
      OpenedThenCommitted(released, key, |bytes|, t.worker, pid);
      if Reaches(id, t.addr) {
        HeldAt(Target(id, t.addr));
      }
      r := WriteTo(t, key, bytes);
      if r.Err? {
        return;
      }
      var committed := master.PutCommit(key, pid);
      if !committed {
        return Err(CommitRefused), id;
      }
      if Local(t.worker) {
        local.MarkCommitted(key, t.generation);
      }
    }

    /** A put that came through is settled, and indexed if it was placed here. */
    lemma LeftIsSettled(m: State, held: map<WorkerStore, Store>, index: map<Key, nat>, key: Key, bytes: Bytes,
                        pid: PutId,
                        id: WorkerId)
      requires id in Released(m, key).workers && Left(m, held, index, key, bytes, pid, id, Ok(()))
      requires Reaches(id, Released(m, key).workers[id].addr) ==>
        var w := Target(id, Released(m, key).workers[id].addr); w in held && Accounted(held[w])
      ensures Settled(key, bytes, pid) && master.objects[key].worker == id && (Local(id) ==> OwnCopy(key))
    {
      hide Released, Accounted;
      ReleasedSame(m, key);
      OpenedThenCommitted(Released(m, key), key, |bytes|, id, pid);
      var w := Target(id, Released(m, key).workers[id].addr);
      assert w in Stores() && Held()[w] == w.Abs();
    }

    /**
     `put_object`, and when it succeeds, told from the state before. It is refused exactly when no worker has
     room; else the worker chosen is out of reach, or its store would go over its capacity, or the put
     succeeds: its commit is never refused. After a success a put placed here is answered even without the
     Master; one placed elsewhere is answered, while its worker is alive, if and only if no committed copy of
     an older generation in the engine's own store hides it.
     */
    method PutObject(now: nat, key: Key, bytes: Bytes, pid: PutId) returns (r: Result<(), Failure>)
      requires Valid()
      modifies master, Stores(), local
      ensures Valid()
      ensures r == Err(Refused) <==> NoRoom(Released(old(master.Abs()), key), now, |bytes|)
      ensures r == Err(Refused) ==>
        master.Abs() == Released(old(master.Abs()), key) && Held() == old(Held()) && Index() == old(Index())
      ensures r != Err(Refused) ==> key in master.objects
      ensures r != Err(Refused) ==>
        var id, m := master.objects[key].worker, Released(old(master.Abs()), key);
        && id in m.workers
        && CanChoose(m, now, |bytes|, if local == null then None else Some(local.workerId), id)
        && Left(old(master.Abs()), old(Held()), old(Index()), key, bytes, pid, id, r)
        && (r == Err(Unreachable) <==> !Reaches(id, m.workers[id].addr))
        && (Reaches(id, m.workers[id].addr) ==>
              var w, slot := Target(id, m.workers[id].addr), (key, NextGeneration(m, key));
              (r.Ok? <==> old(w.used) + |bytes| <= w.capacity + LengthAt(old(w.objects), slot))
              && (r.Err? ==> r.error == StoreFull))
      ensures r.Ok? ==> Settled(key, bytes, pid)
      ensures r.Ok? && Local(master.objects[key].worker) ==> forall later :: Answer(later, key) == Ok(Some(bytes))
      ensures r.Ok? ==> forall later :: master.workers[master.objects[key].worker].Usable(later) ==>
        (Answer(later, key) == Ok(Some(bytes)) <==>
           NoLocalCopy(key) || HasCopy(key, bytes))
    {
      hide Answer, StoredAt, Accounted, NoLocalCopy, HasCopy, OwnCopy, Held, Released, CanChoose, NoRoom, LengthAt,
        Settled;
      ghost var m, held, index := master.Abs(), Held(), Index();
      forall w | w in Stores()
        ensures w in held && held[w] == w.Abs() && Accounted(held[w])
      {
        HeldAt(w);
      }
      ReleasedSame(m, key);
      ghost var id;
      r, id := PutSteps(now, key, bytes, pid);
      if r.Ok? {
        LeftIsSettled(m, held, index, key, bytes, pid, id);
        forall later
          ensures OwnCopy(key) ==> Answer(later, key) == Ok(Some(bytes))
          ensures master.workers[master.objects[key].worker].Usable(later) ==>
            (Answer(later, key) == Ok(Some(bytes)) <==>
               NoLocalCopy(key) || HasCopy(key, bytes))
        {
          SettledIsAnswered(key, bytes, pid, later);
        }
      }
    }
  }

  // ------------------------------------------------------------------ registration

  /** The Master takes heartbeats of epoch `epoch` from worker `id`, and last heard of it at `now`. */
  predicate InStep(m: State, id: WorkerId, epoch: nat, now: nat) {
    id in m.workers && m.workers[id].epoch == epoch && m.workers[id].alive && m.workers[id].lastHeartbeat == now
  }

  /** The background task of a worker: register, then heartbeat for ever. */
  class Registration {
    const master: MasterState
    const id: WorkerId
    const addr: Addr
    const capacity: nat
    var epoch: nat

    /** `register`, once the Master is reached */
    constructor (master: MasterState, now: nat, id: WorkerId, addr: Addr, capacity: nat)
      modifies master
      ensures this.master == master && this.id == id && this.addr == addr && this.capacity == capacity
      ensures master.Abs() == Register(old(master.Abs()), now, id, addr, capacity)
      ensures InStep(master.Abs(), id, epoch, now)
    {
      this.master, this.id, this.addr, this.capacity := master, id, addr, capacity;
      new;
      epoch := master.RegisterWorker(now, id, addr, capacity);
    }

    /**
     One turn of the heartbeat loop: afterwards the worker and the Master agree on the epoch. A refused
     heartbeat, and only that, makes it register again and adopt the epoch it is given.
     */
    method Tick(now: nat)
      modifies this, master
      ensures InStep(master.Abs(), id, epoch, now)
      ensures var (heard, ok) := Heartbeat(old(master.Abs()), now, id, old(epoch));
        master.Abs() == (if ok then heard else Register(old(master.Abs()), now, id, addr, capacity)) &&
          (ok ==> epoch == old(epoch))
      ensures id in old(master.workers) ==> old(master.workers)[id].epoch <= epoch
    {
      var ok := master.ReceiveHeartbeat(now, id, epoch);
      if !ok {
        epoch := master.RegisterWorker(now, id, addr, capacity);
      }
    }
  }
}
