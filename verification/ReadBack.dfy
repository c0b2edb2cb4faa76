/**
 Read your writes, and when not (src/kv_cache/distkv_store.rs): once a put has returned, reads give
 exactly its bytes until something takes them away; a stale local index is the exception.
 */
module ReadBack {
  import opened Basics
  import Codec
  import Master
  import opened Worker
  import opened DistKv

  /** The handle of a co-located engine: where its worker's store is, and the worker's id. */
  datatype Local = Local(addr: Master.Addr, id: Master.WorkerId)

  /** `get_object` with nothing in between its steps: the local index first, then route and fetch. */
  function Read(s: Sys, now: nat, key: Master.Key, local: Option<Local>): Option<Bytes> {
    if local.Some? && LocalRead(s, local.value.addr, key).Some? then LocalRead(s, local.value.addr, key)
    else
      match Master.GetRoute(s.master, now, key)
      case None => None
      case Some(r) =>
        Fetch(s, if local.Some? && local.value.id == r.worker then local.value.addr else r.addr, r)
  }

  // ------------------------------------------------------------------ what has to stay

  /** The Master still points readers of the key at generation `slot.1` on the worker at `addr`. */
  ghost predicate Pointed(s: Sys, slot: Slot, addr: Master.Addr) {
    && slot in s.puts && slot.0 in s.master.objects && slot == Newest(s, slot.0)
    && var o := s.master.objects[slot.0];
       && o.worker in s.master.workers && s.master.workers[o.worker].epoch == o.workerEpoch
       && s.master.workers[o.worker].addr == addr
  }

  predicate Stored(s: Sys, slot: Slot, addr: Master.Addr) {
    addr in s.stores && slot in s.stores[addr].objects
  }

  /** A new generation of the key, or a loss of the worker's epoch. */
  predicate Repoints(s: Sys, slot: Slot, step: Step) {
    || (step.PutStart? && step.key == slot.0 && step.choice.Some?)
    || (step.Register? && slot.0 in s.master.objects && step.id == s.master.objects[slot.0].worker)
  }

  /** An eviction, or a loss of the worker's memory. */
  predicate Drops(slot: Slot, addr: Master.Addr, step: Step) {
    || step == Evict(addr, slot)
    || (step.Start? && step.addr == addr)
    || step == Crash(addr)
  }

  lemma PointedStep(s: Sys, slot: Slot, addr: Master.Addr, step: Step)
    requires Pointed(s, slot, addr) && Enabled(s, step) && !Repoints(s, slot, step)
    ensures Pointed(Apply(s, step), slot, addr)
  {
  }

  lemma StoredStep(s: Sys, slot: Slot, addr: Master.Addr, step: Step)
    requires Stored(s, slot, addr) && Enabled(s, step) && !Drops(slot, addr, step)
    ensures Stored(Apply(s, step), slot, addr)
  {
  }

  ghost predicate NeverRepoints(s: Sys, slot: Slot, steps: seq<Step>)
    requires RunOk(s, steps)
    decreases |steps|
  {
    steps == [] || (!Repoints(s, slot, steps[0]) && NeverRepoints(Apply(s, steps[0]), slot, steps[1..]))
  }

  predicate NeverDrops(slot: Slot, addr: Master.Addr, steps: seq<Step>) {
    forall i :: 0 <= i < |steps| ==> !Drops(slot, addr, steps[i])
  }

  lemma {:induction false} PointedRun(s: Sys, slot: Slot, addr: Master.Addr, steps: seq<Step>)
    requires Pointed(s, slot, addr) && RunOk(s, steps) && NeverRepoints(s, slot, steps)
    ensures Pointed(After(s, steps), slot, addr)
    decreases |steps|
  {
    hide Pointed, Enabled, Apply;
    if steps != [] {
      PointedStep(s, slot, addr, steps[0]);
      PointedRun(Apply(s, steps[0]), slot, addr, steps[1..]);
    }
  }

  lemma {:induction false} StoredRun(s: Sys, slot: Slot, addr: Master.Addr, steps: seq<Step>)
    requires Stored(s, slot, addr) && RunOk(s, steps) && NeverDrops(slot, addr, steps)
    ensures Stored(After(s, steps), slot, addr)
    decreases |steps|
  {
    hide Stored, Drops, Enabled, Apply;
    if steps != [] {
      StoredStep(s, slot, addr, steps[0]);
      StoredRun(Apply(s, steps[0]), slot, addr, steps[1..]);
    }
  }

  // ------------------------------------------------------------------ commits and puts stay

  lemma StepKeepsPuts(s: Sys, step: Step, slot: Slot)
    requires Inv(s) && Enabled(s, step) && slot in s.puts
    ensures var s' := Apply(s, step); slot in s'.puts && s'.puts[slot] == s.puts[slot] && s.commits <= s'.commits
  {
    hide Records, Copies, Accounted;
    if step.PutStart? {
      FreshGeneration(s, step.key);
    }
  }

  lemma {:induction false} RunKeepsPuts(s: Sys, steps: seq<Step>, slot: Slot)
    requires Inv(s) && RunOk(s, steps) && slot in s.puts
    ensures var s' := After(s, steps);
      Inv(s') && slot in s'.puts && s'.puts[slot] == s.puts[slot] && s.commits <= s'.commits
    decreases |steps|
  {
    hide Inv, Enabled, Apply;
    if steps != [] {
      StepKeepsPuts(s, steps[0], slot);
      StepKeepsInv(s, steps[0]);
      RunKeepsPuts(Apply(s, steps[0]), steps[1..], slot);
    }
  }

  // ------------------------------------------------------------------ read back

  /** A committed generation the Master points at and the worker stores is what a routed read returns. */
  lemma RoutedRead(s: Sys, slot: Slot, addr: Master.Addr, now: nat)
    requires Inv(s) && Pointed(s, slot, addr) && Stored(s, slot, addr) && slot in s.commits
    requires s.master.workers[s.master.objects[slot.0].worker].Usable(now)
    ensures Read(s, now, slot.0, None) == Some(s.puts[slot].bytes)
  {
    assert Recorded(s, slot.0);
  }

  /** The handle's fast path: nothing without a handle. */
  function LocalCopy(s: Sys, local: Option<Local>, key: Master.Key): Option<Bytes> {
    if local.Some? then LocalRead(s, local.value.addr, key) else None
  }

  /** A handle that bears the id of the object's worker stands in front of that worker's store. */
  predicate Homed(s: Sys, local: Option<Local>, key: Master.Key, addr: Master.Addr)
    requires key in s.master.objects
  {
    local.Some? && local.value.id == s.master.objects[key].worker ==> local.value.addr == addr
  }

  /**
   Who reads the newest bytes. Of a committed generation the Master points at, stored on a live worker, a
   reader with or without a handle gets the bytes if and only if its own committed copy, if it has one, has them.
   */
  lemma ReadsNewestExactly(s: Sys, slot: Slot, addr: Master.Addr, now: nat, local: Option<Local>)
    requires Inv(s) && Pointed(s, slot, addr) && Stored(s, slot, addr) && slot in s.commits &&
      Homed(s, local, slot.0, addr)
    requires s.master.workers[s.master.objects[slot.0].worker].Usable(now)
    ensures Read(s, now, slot.0, local) == Some(s.puts[slot].bytes) <==>
      LocalCopy(s, local, slot.0).None? || LocalCopy(s, local, slot.0) == Some(s.puts[slot].bytes)
  {
    hide LocalRead;
    RoutedRead(s, slot, addr, now);
    assert Recorded(s, slot.0);
  }

  /** What `put_start` tells its client holds right after it. */
  lemma StartPoints(s: Sys, step: Step)
    requires Inv(s) && step.PutStart? && Enabled(s, step) && step.choice.Some?
    ensures step.choice.value in s.master.workers
    ensures var slot := (step.key, Master.NextGeneration(s.master, step.key));
      var s' := Apply(s, step);
      Pointed(s', slot, s.master.workers[step.choice.value].addr) && s'.puts[slot].bytes == step.bytes
  {
  }

  /**
   Read back after put, over every interleaving. A client opens a generation, writes it where it was
   told, and commits, all with success; whatever else happens in between and afterwards, as long as
   nobody opens a newer generation of the key, its worker does not register again, and the bytes are
   neither evicted nor lost, a read while the worker is alive returns exactly those bytes: always without
   a handle, and with one if and only if the engine's own committed copy, if there is one, has them.
   */
  lemma ReadBackAfterPut(before: seq<Step>, start: Step, s1: Sys, toWrite: seq<Step>, toCommit: seq<Step>,
                         since: seq<Step>, slot: Slot, addr: Master.Addr, now: nat, local: Option<Local>)
    requires RunOk(INIT, before) && start.PutStart? && Enabled(After(INIT, before), start) && start.choice.Some?
    requires start.choice.value in After(INIT, before).master.workers
    requires s1 == Apply(After(INIT, before), start)
    requires slot == (start.key, Master.NextGeneration(After(INIT, before).master, start.key))
    requires addr == After(INIT, before).master.workers[start.choice.value].addr
    requires RunOk(s1, toWrite) && NeverRepoints(s1, slot, toWrite)
    requires var s2 := After(s1, toWrite);
      && Enabled(s2, Write(slot, addr)) && Worker.Put(s2.stores[addr], slot, s2.puts[slot].bytes).1
      && var s3 := Apply(s2, Write(slot, addr));
         && RunOk(s3, toCommit) && NeverRepoints(s3, slot, toCommit) && NeverDrops(slot, addr, toCommit)
         && var s4 := After(s3, toCommit);
            && Enabled(s4, Commit(slot)) && Master.Commit(s4.master, slot.0, s4.puts[slot].pid).1
            && var s5 := Apply(s4, Commit(slot));
               && RunOk(s5, since) && NeverRepoints(s5, slot, since) && NeverDrops(slot, addr, since)
               && var s6 := After(s5, since);
                  slot.0 in s6.master.objects && s6.master.objects[slot.0].worker in s6.master.workers
                  && s6.master.workers[s6.master.objects[slot.0].worker].Usable(now) && Homed(s6, local, slot.0, addr)
    ensures var s6 := After(Apply(After(Apply(After(s1, toWrite), Write(slot, addr)), toCommit), Commit(slot)), since);
      && (Read(s6, now, slot.0, local) == Some(start.bytes) <==>
            LocalCopy(s6, local, slot.0).None? || LocalCopy(s6, local, slot.0) == Some(start.bytes))
      && (local.None? ==> Read(s6, now, slot.0, local) == Some(start.bytes))
  {
    hide Inv, Pointed, Stored, NeverRepoints, NeverDrops;
    RunKeepsInv(INIT, before);
    StartPoints(After(INIT, before), start);
    StepKeepsInv(After(INIT, before), start);
    var s3 := Written(s1, toWrite, slot, addr);
    var s4 := After(s3, toCommit);
    PointedRun(s3, slot, addr, toCommit);
    StoredRun(s3, slot, addr, toCommit);
    RunKeepsPuts(s3, toCommit, slot);
    StepKeepsInv(s4, Commit(slot));
    PointedStep(s4, slot, addr, Commit(slot));
    StoredStep(s4, slot, addr, Commit(slot));
    var s5 := Apply(s4, Commit(slot));
    PointedRun(s5, slot, addr, since);
    StoredRun(s5, slot, addr, since);
    RunKeepsPuts(s5, since, slot);
    ReadsNewestExactly(After(s5, since), slot, addr, now, local);
  }

  /** The first half: up to and including the write. */
  lemma Written(s1: Sys, toWrite: seq<Step>, slot: Slot, addr: Master.Addr) returns (s3: Sys)
    requires Inv(s1) && Pointed(s1, slot, addr) && slot in s1.puts && RunOk(s1, toWrite) &&
      NeverRepoints(s1, slot, toWrite)
    requires var s2 := After(s1, toWrite);
      Enabled(s2, Write(slot, addr)) && Worker.Put(s2.stores[addr], slot, s2.puts[slot].bytes).1
    ensures s3 == Apply(After(s1, toWrite), Write(slot, addr))
    ensures Inv(s3) && Pointed(s3, slot, addr) && Stored(s3, slot, addr) && slot in s3.puts &&
      s3.puts[slot] == s1.puts[slot]
  {
    hide Inv, Pointed, NeverRepoints;
    RunKeepsPuts(s1, toWrite, slot);
    PointedRun(s1, slot, addr, toWrite);
    var s2 := After(s1, toWrite);
    s3 := Apply(s2, Write(slot, addr));
    StepKeepsInv(s2, Write(slot, addr));
    PointedStep(s2, slot, addr, Write(slot, addr));
  }

  // ------------------------------------------------------------------ through the local index

  /** The engine next to `addr` has generation `slot.1` in its committed index. */
  predicate Indexed(s: Sys, slot: Slot, addr: Master.Addr) {
    addr in s.indexes && slot.0 in s.indexes[addr] && s.indexes[addr][slot.0] == slot.1
  }

  /** The engine marks another generation of the key, from a put of its own or a route it was given. */
  predicate Reindexes(slot: Slot, addr: Master.Addr, step: Step) {
    || (step.IndexOwnPut? && step.addr == addr && step.slot.0 == slot.0 && step.slot.1 != slot.1)
    || (step.IndexRoute? && step.addr == addr && step.route.key == slot.0 && step.route.generation != slot.1)
  }

  ghost predicate NeverReindexes(slot: Slot, addr: Master.Addr, steps: seq<Step>) {
    forall i :: 0 <= i < |steps| ==> !Reindexes(slot, addr, steps[i])
  }

  lemma IndexedStep(s: Sys, slot: Slot, addr: Master.Addr, step: Step)
    requires Indexed(s, slot, addr) && Enabled(s, step) && !Reindexes(slot, addr, step) && !Drops(slot, addr, step)
    ensures Indexed(Apply(s, step), slot, addr)
  {
  }

  lemma {:induction false} IndexedRun(s: Sys, slot: Slot, addr: Master.Addr, steps: seq<Step>)
    requires Indexed(s, slot, addr) && RunOk(s, steps) && NeverReindexes(slot, addr, steps) &&
      NeverDrops(slot, addr, steps)
    ensures Indexed(After(s, steps), slot, addr)
    decreases |steps|
  {
    hide Indexed, Drops, Reindexes, Enabled, Apply;
    if steps != [] {
      IndexedStep(s, slot, addr, steps[0]);
      IndexedRun(Apply(s, steps[0]), slot, addr, steps[1..]);
    }
  }

  /**
   A put pinned to the engine's own worker and marked in its index is read back from there, dead worker
   or not, and even past a newer put elsewhere, until the bytes go or the index moves to another generation.
   */
  lemma ReadBackPinned(s: Sys, slot: Slot, local: Local, steps: seq<Step>, now: nat)
    requires Inv(s) && slot in s.commits && Stored(s, slot, local.addr) && local.addr in s.indexes
    requires RunOk(MarkCommitted(s, local.addr, slot), steps)
    requires NeverReindexes(slot, local.addr, steps) && NeverDrops(slot, local.addr, steps)
    ensures Read(After(MarkCommitted(s, local.addr, slot), steps), now, slot.0, Some(local)) == Some(s.puts[slot].bytes)
  {
    hide Issued, PidsApart, Recorded, Apply, NeverReindexes, NeverDrops;
    var marked := MarkCommitted(s, local.addr, slot);
    MarkIsStep(s, slot, local.addr);
    StepKeepsInv(s, IndexOwnPut(local.addr, slot));
    IndexedRun(marked, slot, local.addr, steps);
    StoredRun(marked, slot, local.addr, steps);
    RunKeepsPuts(marked, steps, slot);
  }

  lemma MarkIsStep(s: Sys, slot: Slot, addr: Master.Addr)
    requires slot in s.commits && addr in s.indexes
    ensures Enabled(s, IndexOwnPut(addr, slot)) && Apply(s, IndexOwnPut(addr, slot)) == MarkCommitted(s, addr, slot)
  {
  }

  // ------------------------------------------------------------------ the stale index

  const K: Master.Key := "k"
  const W: Master.WorkerId := "w"
  const A: Master.Addr := "a"

  /** A worker at `A`, registered as `W`. */
  function Up(): seq<Step> {
    [Start(A, 10), Register(0, W, A, 10)]
  }

  /** One put of one byte on `K`, written and committed. */
  function OnePut(generation: nat, byte: Codec.Byte, pid: nat): seq<Step> {
    [PutStart(0, K, [byte], None, Some(W), pid), Write((K, generation), A), Commit((K, generation))]
  }

  function StaleSteps(): seq<Step> {
    Up() + OnePut(1, 1, 0) + [IndexOwnPut(A, (K, 1))] + OnePut(2, 2, 1)
  }

  /** The worker record after `n` puts. */
  function WorkerAfter(used: nat): Master.State {
    Master.State(map[W := Master.WorkerMeta(A, 10, used, 1, 0, true)], map[])
  }

  function OneByte(generation: nat, pid: nat, phase: Master.Phase): Master.State {
    Master.State(map[W := Master.WorkerMeta(A, 10, 1, 1, 0, true)],
      map[K := Master.ObjectMeta(generation, phase, pid, 1, W, 1)])
  }

  lemma UpRuns()
    ensures RunOk(INIT, Up())
    ensures var s := After(INIT, Up());
      s.master == WorkerAfter(0) && s.stores == map[A := Empty(10)] && s.indexes == map[A := map[]] &&
        s.puts == map[] && s.commits == {}
  {
    var s1 := Apply(INIT, Up()[0]);
    TwoSteps(INIT, Up()[0], Up()[1]);
    assert Apply(s1, Up()[1]).master.workers == WorkerAfter(0).workers;
  }

  /** What the trace looks like between puts: generation `n` of `K` committed, or nothing yet. */
  ghost predicate AfterPuts(s: Sys, n: nat, pid: nat) {
    && s.master == (if n == 0 then WorkerAfter(0) else OneByte(n, pid, Master.Complete))
    && A in s.stores && s.stores[A].capacity == 10 && s.stores[A].used == n
    && (forall g :: g > n ==> (K, g) !in s.stores[A].objects)
    && (forall slot :: slot in s.puts ==> s.puts[slot].pid <= pid) && (n == 0 ==> s.puts == map[])
  }

  lemma PutOpens(s: Sys, n: nat, pid: nat, byte: Codec.Byte, next: nat)
    requires n < 2 && AfterPuts(s, n, pid) && (n > 0 ==> next > pid)
    ensures var step := PutStart(0, K, [byte], None, Some(W), next);
      && Enabled(s, step)
      && Apply(s, step) ==
        s.(master := OneByte(n + 1, next, Master.Writing), puts := s.puts[(K, n + 1) := Put(next, [byte])])
  {
    var step := PutStart(0, K, [byte], None, Some(W), next);
    var released := Master.Released(s.master, K);
    assert released.workers == WorkerAfter(0).workers;
    assert Apply(s, step).master.workers == OneByte(n + 1, next, Master.Writing).workers;
    assert Apply(s, step).master.objects == OneByte(n + 1, next, Master.Writing).objects;
  }

  lemma PutWrites(s: Sys, n: nat, byte: Codec.Byte, next: nat)
    requires n < 2 && A in s.stores && s.stores[A].capacity == 10 && s.stores[A].used == n &&
      (K, n + 1) !in s.stores[A].objects
    requires (K, n + 1) in s.puts && s.puts[(K, n + 1)] == Put(next, [byte])
    ensures var step := Write((K, n + 1), A);
      && Enabled(s, step)
      && var s' := Apply(s, step);
         && s' == s.(stores := s'.stores) && A in s'.stores && s'.stores[A].capacity == 10 && s'.stores[A].used == n + 1
         && s'.stores[A].objects == s.stores[A].objects[(K, n + 1) := [byte]]
  {
  }

  lemma PutCommits(s: Sys, generation: nat, byte: Codec.Byte, next: nat)
    requires s.master == OneByte(generation, next, Master.Writing)
    requires (K, generation) in s.puts && s.puts[(K, generation)] == Put(next, [byte])
    ensures var step := Commit((K, generation));
      && Enabled(s, step)
      && Apply(s, step) ==
        s.(master := OneByte(generation, next, Master.Complete), commits := s.commits + {(K, generation)})
  {
    assert Apply(s, Commit((K, generation))).master.objects == OneByte(generation, next, Master.Complete).objects;
  }

  lemma PutRuns(s: Sys, n: nat, pid: nat, byte: Codec.Byte, next: nat)
    requires n < 2 && AfterPuts(s, n, pid) && (n > 0 ==> next > pid)
    ensures RunOk(s, OnePut(n + 1, byte, next))
    ensures var s' := After(s, OnePut(n + 1, byte, next));
      && AfterPuts(s', n + 1, next) && s'.indexes == s.indexes && s'.commits == s.commits + {(K, n + 1)}
      && s'.stores[A].objects == s.stores[A].objects[(K, n + 1) := [byte]]
      && s'.puts == s.puts[(K, n + 1) := Put(next, [byte])]
  {
    hide Enabled, Apply, RunOk, After, WorkerAfter, OneByte;
    var steps := OnePut(n + 1, byte, next);
    PutOpens(s, n, pid, byte, next);
    var s1 := Apply(s, steps[0]);
    PutWrites(s1, n, byte, next);
    var s2 := Apply(s1, steps[1]);
    PutCommits(s2, n + 1, byte, next);
    TwoSteps(s1, steps[1], steps[2]);
    assert steps[1..] == [steps[1], steps[2]];
    OneMoreStep(s, steps);
  }

  lemma OneMoreStep(s: Sys, steps: seq<Step>)
    requires steps != [] && Enabled(s, steps[0]) && RunOk(Apply(s, steps[0]), steps[1..])
    ensures RunOk(s, steps) && After(s, steps) == After(Apply(s, steps[0]), steps[1..])
  {
  }

  lemma MarkRuns(s: Sys)
    requires (K, 1) in s.commits && A in s.indexes
    ensures RunOk(s, [IndexOwnPut(A, (K, 1))]) && After(s, [IndexOwnPut(A, (K, 1))]) == MarkCommitted(s, A, (K, 1))
  {
    var mark := [IndexOwnPut(A, (K, 1))];
    assert mark[1..] == [];
    OneMoreStep(s, mark);
  }

  /** The engine's own put, marked. */
  lemma OwnPutRuns()
    ensures RunOk(INIT, Up() + OnePut(1, 1, 0) + [IndexOwnPut(A, (K, 1))])
    ensures var s := After(INIT, Up() + OnePut(1, 1, 0) + [IndexOwnPut(A, (K, 1))]);
      AfterPuts(s, 1, 0) && s.indexes == map[A := map[K := 1]] && s.stores[A].objects == map[(K, 1) := [1]]
  {
    hide Enabled, Apply, RunOk, After, Up, OnePut;
    UpRuns();
    var s0 := After(INIT, Up());
    PutRuns(s0, 0, 0, 1, 0);
    RunOfRun(INIT, Up(), OnePut(1, 1, 0));
    MarkRuns(After(s0, OnePut(1, 1, 0)));
    RunOfRun(INIT, Up() + OnePut(1, 1, 0), [IndexOwnPut(A, (K, 1))]);
  }

  /**
   The documented exception is reachable. An engine has its own first put of a key in its index; a
   client elsewhere then overwrites the key, with success. The Master points at the new generation and
   a client without a handle reads its bytes, but the engine goes on reading the old ones.
   */
  lemma StaleIndexIsReachable()
    ensures RunOk(INIT, StaleSteps())
    ensures var s := After(INIT, StaleSteps());
      && (K, 2) in s.commits && K in s.master.objects && (K, 2) == Newest(s, K)
      && Read(s, 0, K, None) == Some([2]) && Read(s, 0, K, Some(Local(A, W))) == Some([1])
  {
    hide Enabled, Apply, RunOk, After, Up, OnePut;
    OwnPutRuns();
    var own := Up() + OnePut(1, 1, 0) + [IndexOwnPut(A, (K, 1))];
    PutRuns(After(INIT, own), 1, 0, 2, 1);
    RunOfRun(INIT, own, OnePut(2, 2, 1));
  }
}
