/**
 The Master's metadata state machine (src/distkv/master.rs): worker liveness and capacity, one
 object record per key, placement. `now` is the clock reading of the call.
 */
module Master {
  import opened Basics

  type WorkerId = string
  type Addr = string
  type Key = string
  type PutId = nat

  const HEARTBEAT_TIMEOUT_MS: nat := 10_000

  datatype WorkerMeta = WorkerMeta(addr: Addr, capacity: nat, used: nat, epoch: nat, lastHeartbeat: nat, alive: bool) {
    /** `free_bytes`, saturating */
    function Free(): nat {
      Less(capacity, used)
    }

    /** `worker_is_alive` */
    predicate Usable(now: nat) {
      alive && Less(now, lastHeartbeat) <= HEARTBEAT_TIMEOUT_MS
    }

    predicate Fits(now: nat, size: nat) {
      Usable(now) && Free() >= size
    }
  }

  datatype Phase = Writing | Complete

  datatype ObjectMeta =
    ObjectMeta(generation: nat, phase: Phase, putId: PutId, size: nat, worker: WorkerId, workerEpoch: nat)

  datatype State = State(workers: map<WorkerId, WorkerMeta>, objects: map<Key, ObjectMeta>)

  datatype Ticket = Ticket(putId: PutId, worker: WorkerId, addr: Addr, generation: nat)
  datatype Route = Route(key: Key, worker: WorkerId, addr: Addr, generation: nat)

  /** `saturating_sub` */
  function Less(a: nat, b: nat): nat {
    if a < b then 0 else a - b
  }

  const EMPTY: State := State(map[], map[])

  // ------------------------------------------------------------------ workers

  /** `register_worker`: a new epoch, nothing used, alive */
  function Register(m: State, now: nat, id: WorkerId, addr: Addr, capacity: nat): State {
    var epoch := if id in m.workers then m.workers[id].epoch + 1 else 1;
    m.(workers := m.workers[id := WorkerMeta(addr, capacity, 0, epoch, now, true)])
  }

  /** `heartbeat`: refused for an unknown worker or another epoch than the current one */
  function Heartbeat(m: State, now: nat, id: WorkerId, epoch: nat): (State, bool) {
    if id in m.workers && m.workers[id].epoch == epoch
    then (m.(workers := m.workers[id := m.workers[id].(lastHeartbeat := now, alive := true)]), true)
    else (m, false)
  }

  /** `mark_worker_dead` */
  function MarkDead(m: State, id: WorkerId): State {
    if id in m.workers then m.(workers := m.workers[id := m.workers[id].(alive := false)]) else m
  }

  // ------------------------------------------------------------------ two-phase put

  /** The first effect of `put_start`, refused or not: the reservation of the key's previous generation is let go. */
  function Released(m: State, key: Key): State {
    if key in m.objects && m.objects[key].worker in m.workers then
      var id := m.objects[key].worker;
      m.(workers := m.workers[id := m.workers[id].(used := Less(m.workers[id].used, m.objects[key].size))])
    else m
  }

  predicate HasRoom(m: State, now: nat, size: nat, id: WorkerId) {
    id in m.workers && m.workers[id].Fits(now, size)
  }

  /** A usable preferred worker with room is taken; otherwise one with the most free space of those with room. */
  ghost predicate CanChoose(m: State, now: nat, size: nat, preferred: Option<WorkerId>, id: WorkerId) {
    if preferred.Some? && HasRoom(m, now, size, preferred.value) then id == preferred.value
    else HasRoom(m, now, size, id) && forall x :: HasRoom(m, now, size, x) ==>
      m.workers[x].Free() <= m.workers[id].Free()
  }

  ghost predicate NoRoom(m: State, now: nat, size: nat) {
    forall x :: x in m.workers ==> !HasRoom(m, now, size, x)
  }

  function NextGeneration(m: State, key: Key): nat {
    if key in m.objects then m.objects[key].generation + 1 else 1
  }

  /** The rest of `put_start` once worker `id` is chosen: reserve, and open a new generation. */
  function Placed(m: State, key: Key, size: nat, id: WorkerId, pid: PutId): State
    requires id in m.workers
  {
    var w := m.workers[id];
    State(m.workers[id := w.(used := w.used + size)],
          m.objects[key := ObjectMeta(NextGeneration(m, key), Writing, pid, size, id, w.epoch)])
  }

  /** `put_commit`: only the open generation, only with its own put id */
  function Commit(m: State, key: Key, pid: PutId): (State, bool) {
    if key in m.objects && m.objects[key].phase.Writing? && m.objects[key].putId == pid
    then (m.(objects := m.objects[key := m.objects[key].(phase := Complete)]), true)
    else (m, false)
  }

  /** `get_route`: committed, placed on a usable worker that has not registered again since */
  function GetRoute(m: State, now: nat, key: Key): Option<Route> {
    if key !in m.objects || m.objects[key].phase.Writing? then None
    else
      var o := m.objects[key];
      if o.worker !in m.workers then None
      else
        var w := m.workers[o.worker];
        if !w.Usable(now) || w.epoch != o.workerEpoch then None
        else Some(Route(key, o.worker, w.addr, o.generation))
  }

  // ------------------------------------------------------------------ in place

  class MasterState {
    var workers: map<WorkerId, WorkerMeta>
    var objects: map<Key, ObjectMeta>

    ghost function Abs(): State
      reads this
    {
      State(workers, objects)
    }

    constructor ()
      ensures Abs() == EMPTY
    {
      workers, objects := map[], map[];
    }

    method RegisterWorker(now: nat, id: WorkerId, addr: Addr, capacity: nat) returns (epoch: nat)
      modifies this
      ensures Abs() == Register(old(Abs()), now, id, addr, capacity) && epoch == workers[id].epoch
    {
      if id in workers {
        var w := workers[id];
        workers := workers[id := w.(epoch := w.epoch + 1, addr := addr, capacity := capacity, used := 0,
          lastHeartbeat := now, alive := true)];
      } else {
        workers := workers[id := WorkerMeta(addr, capacity, 0, 1, now, true)];
      }
      epoch := workers[id].epoch;
    }

    method ReceiveHeartbeat(now: nat, id: WorkerId, epoch: nat) returns (ok: bool)
      modifies this
      ensures (Abs(), ok) == Heartbeat(old(Abs()), now, id, epoch)
    {
      if id !in workers || workers[id].epoch != epoch {
        return false;
      }
      workers := workers[id := workers[id].(lastHeartbeat := now, alive := true)];
      ok := true;
    }

    method MarkWorkerDead(id: WorkerId)
      modifies this
      ensures Abs() == MarkDead(old(Abs()), id)
    {
      if id in workers {
        workers := workers[id := workers[id].(alive := false)];
      }
    }

    /** The worker with the most free space of those with room, if any has. */
    method MostFree(now: nat, size: nat) returns (best: Option<WorkerId>)
      ensures best.None? ==> NoRoom(Abs(), now, size)
      ensures best.Some? ==> HasRoom(Abs(), now, size, best.value)
      ensures best.Some? ==> forall x :: HasRoom(Abs(), now, size, x) ==>
        workers[x].Free() <= workers[best.value].Free()
    {
      best := None;
      var rest := workers.Keys;
      while rest != {}
        invariant rest <= workers.Keys
        invariant best.None? ==> forall x :: x in workers.Keys - rest ==> !workers[x].Fits(now, size)
        invariant best.Some? ==> HasRoom(Abs(), now, size, best.value)
        invariant best.Some? ==>
          forall x :: x in workers.Keys - rest && workers[x].Fits(now, size) ==>
            workers[x].Free() <= workers[best.value].Free()
        decreases rest
      {
        var x :| x in rest;
        rest := rest - {x};
        if workers[x].Fits(now, size) && (best.None? || workers[best.value].Free() <= workers[x].Free()) {
          best := Some(x);
        }
      }
    }

    method PutStart(now: nat, key: Key, size: nat, preferred: Option<WorkerId>, pid: PutId) returns (r: Option<Ticket>)
      modifies this
      ensures var released := Released(old(Abs()), key);
        match r
        case None => NoRoom(released, now, size) && Abs() == released
        case Some(t) =>
          && CanChoose(released, now, size, preferred, t.worker)
          && Abs() == Placed(released, key, size, t.worker, pid)
          && t == Ticket(pid, t.worker, released.workers[t.worker].addr, NextGeneration(old(Abs()), key))
    {
      if key in objects && objects[key].worker in workers {
        var prev := objects[key].worker;
        workers := workers[prev := workers[prev].(used := Less(workers[prev].used, objects[key].size))];
      }
      ghost var released := Abs();
      var chosen := preferred;
      if preferred.None? || preferred.value !in workers || !workers[preferred.value].Fits(now, size) {
        chosen := MostFree(now, size);
      }
      if chosen.None? {
        return None;
      }
      var id := chosen.value;
      assert CanChoose(released, now, size, preferred, id);
      var generation := if key in objects then objects[key].generation + 1 else 1;
      var w := workers[id];
      workers := workers[id := w.(used := w.used + size)];
      objects := objects[key := ObjectMeta(generation, Writing, pid, size, id, w.epoch)];
      r := Some(Ticket(pid, id, w.addr, generation));
    }

    method PutCommit(key: Key, pid: PutId) returns (ok: bool)
      modifies this
      ensures (Abs(), ok) == Commit(old(Abs()), key, pid)
    {
      if key !in objects || objects[key].phase != Writing || objects[key].putId != pid {
        return false;
      }
      objects := objects[key := objects[key].(phase := Complete)];
      ok := true;
    }

    /** `get_route` */
    method LookUpRoute(now: nat, key: Key) returns (r: Option<Route>)
      ensures r == GetRoute(Abs(), now, key)
    {
      if key !in objects || objects[key].phase != Complete {
        return None;
      }
      var o := objects[key];
      if o.worker !in workers || !workers[o.worker].Usable(now) || workers[o.worker].epoch != o.workerEpoch {
        return None;
      }
      r := Some(Route(key, o.worker, workers[o.worker].addr, o.generation));
    }
  }
}
