/**
 The DistKV protocol as steps: one Master, any number of worker processes and concurrent clients,
 messages delayed, duplicated or lost. A put is a `put_start`, any number of writes at any later
 time, and any number of commits; a read is a route and, at any later time, a fetch. A worker that
 registers again keeps its bytes (src/distkv/registration.rs:74-80); one that restarts loses them.
 */
module DistKv {
  import opened Basics
  import Master
  import opened Worker

  /** What a client was told when it opened generation `slot.1` of key `slot.0`, and what it will write. */
  datatype Put = Put(pid: Master.PutId, bytes: Bytes)

  /**
   `stores` and `indexes` belong to the worker processes, by address. `puts` are all generations ever
   issued, `commits` those whose commit the Master accepted, `routes` all routes ever handed out.
   */
  datatype Sys = Sys(master: Master.State, stores: map<Master.Addr, GoodStore>,
                     indexes: map<Master.Addr, map<Master.Key, nat>>,
                     puts: map<Slot, Put>, commits: set<Slot>, routes: set<Master.Route>)

  const INIT: Sys := Sys(Master.EMPTY, map[], map[], map[], {}, {})

  datatype Step =
    | Start(addr: Master.Addr, capacity: nat)
    | Crash(addr: Master.Addr)
    | Register(now: nat, id: Master.WorkerId, addr: Master.Addr, capacity: nat)
    | Heartbeat(now: nat, id: Master.WorkerId, epoch: nat)
    | MarkDead(id: Master.WorkerId)
    | PutStart(now: nat, key: Master.Key, bytes: Bytes, preferred: Option<Master.WorkerId>,
               choice: Option<Master.WorkerId>, pid: Master.PutId)
    | Write(slot: Slot, addr: Master.Addr)
    | Commit(slot: Slot)
    | IndexOwnPut(addr: Master.Addr, slot: Slot)
    | GetRoute(now: nat, key: Master.Key)
    | IndexRoute(addr: Master.Addr, route: Master.Route)
    | Evict(addr: Master.Addr, slot: Slot)

  function SlotOf(r: Master.Route): Slot {
    (r.key, r.generation)
  }

  ghost predicate FreshPid(s: Sys, pid: Master.PutId) {
    forall slot :: slot in s.puts ==> s.puts[slot].pid != pid
  }

  ghost predicate Enabled(s: Sys, step: Step) {
    match step
    case PutStart(now, key, bytes, preferred, choice, pid) =>
      var released := Master.Released(s.master, key);
      FreshPid(s, pid) &&
      (match choice
       case Some(id) => Master.CanChoose(released, now, |bytes|, preferred, id)
       case None => Master.NoRoom(released, now, |bytes|))
    case Write(slot, addr) => slot in s.puts && addr in s.stores
    case Commit(slot) => slot in s.puts
    case IndexOwnPut(addr, slot) => slot in s.commits && addr in s.indexes
    case IndexRoute(addr, route) => route in s.routes && addr in s.indexes
    case Evict(addr, slot) => addr in s.stores
    case _ => true
  }

  ghost function Apply(s: Sys, step: Step): Sys
    requires Enabled(s, step)
  {
    match step
    case Start(addr, capacity) => s.(stores := s.stores[addr := Empty(capacity)], indexes := s.indexes[addr := map[]])
    case Crash(addr) => s.(stores := s.stores - {addr}, indexes := s.indexes - {addr})
    case Register(now, id, addr, capacity) => s.(master := Master.Register(s.master, now, id, addr, capacity))
    case Heartbeat(now, id, epoch) => s.(master := Master.Heartbeat(s.master, now, id, epoch).0)
    case MarkDead(id) => s.(master := Master.MarkDead(s.master, id))
    case PutStart(now, key, bytes, preferred, choice, pid) => AfterPutStart(s, key, bytes, choice, pid)
    case Write(slot, addr) =>
      s.(stores := s.stores[addr := Worker.Put(s.stores[addr], slot, s.puts[slot].bytes).0])
    case Commit(slot) =>
      var (master, ok) := Master.Commit(s.master, slot.0, s.puts[slot].pid);
      s.(master := master, commits := if ok then s.commits + {slot} else s.commits)
    case IndexOwnPut(addr, slot) => MarkCommitted(s, addr, slot)
    case GetRoute(now, key) =>
      (match Master.GetRoute(s.master, now, key)
       case None => s
       case Some(r) => s.(routes := s.routes + {r}))
    case IndexRoute(addr, route) => MarkCommitted(s, addr, SlotOf(route))
    case Evict(addr, slot) => s.(stores := s.stores[addr := Delete(s.stores[addr], slot)])
  }

  /** `mark_committed` at the engine next to `addr` */
  function MarkCommitted(s: Sys, addr: Master.Addr, slot: Slot): Sys
    requires addr in s.indexes
  {
    var index: map<Master.Key, nat> := s.indexes[addr][slot.0 := slot.1];
    s.(indexes := s.indexes[addr := index])
  }

  ghost function AfterPutStart(s: Sys, key: Master.Key, bytes: Bytes, choice: Option<Master.WorkerId>,
                               pid: Master.PutId): Sys
    requires choice.Some? ==> choice.value in Master.Released(s.master, key).workers
  {
    var released := Master.Released(s.master, key);
    match choice
    case None => s.(master := released)
    case Some(id) =>
      var slot := (key, Master.NextGeneration(s.master, key));
      s.(master := Master.Placed(released, key, |bytes|, id, pid), puts := s.puts[slot := Put(pid, bytes)])
  }

  // ------------------------------------------------------------------ runs

  ghost predicate RunOk(s: Sys, steps: seq<Step>)
    decreases |steps|
  {
    steps == [] || (Enabled(s, steps[0]) && RunOk(Apply(s, steps[0]), steps[1..]))
  }

  ghost function After(s: Sys, steps: seq<Step>): Sys
    requires RunOk(s, steps)
    decreases |steps|
  {
    if steps == [] then s else After(Apply(s, steps[0]), steps[1..])
  }

  lemma OneStep(s: Sys, step: Step)
    requires Enabled(s, step)
    ensures RunOk(s, [step]) && After(s, [step]) == Apply(s, step)
  {
    hide Enabled, Apply;
    var one := [step];
    assert one[0] == step && one[1..] == [];
  }

  lemma TwoSteps(s: Sys, one: Step, two: Step)
    requires Enabled(s, one) && Enabled(Apply(s, one), two)
    ensures RunOk(s, [one, two]) && After(s, [one, two]) == Apply(Apply(s, one), two)
  {
    hide Enabled, Apply;
    var both := [one, two];
    OneStep(Apply(s, one), two);
    assert both[0] == one && both[1..] == [two];
  }

  // ------------------------------------------------------------------ the invariant

  /** Every generation issued is at most the key's current one. */
  ghost predicate Issued(s: Sys) {
    forall slot :: slot in s.puts ==> slot.0 in s.master.objects && 1 <= slot.1 <= s.master.objects[slot.0].generation
  }

  ghost predicate PidsApart(s: Sys) {
    forall p, q :: p in s.puts && q in s.puts && s.puts[p].pid == s.puts[q].pid ==> p == q
  }

  function Newest(s: Sys, key: Master.Key): Slot
    requires key in s.master.objects
  {
    (key, s.master.objects[key].generation)
  }

  /** The Master's record of a key is its newest put, and complete exactly when that put was committed. */
  ghost predicate Recorded(s: Sys, key: Master.Key)
    requires key in s.master.objects
  {
    var slot, o := Newest(s, key), s.master.objects[key];
    slot in s.puts && o.putId == s.puts[slot].pid && o.size == |s.puts[slot].bytes| &&
      (o.phase.Complete? <==> slot in s.commits)
  }

  /** A store holds nothing but what the put of that generation wrote. */
  ghost predicate StoresHonest(s: Sys) {
    forall a, slot :: a in s.stores && slot in s.stores[a].objects ==>
      slot in s.puts && s.stores[a].objects[slot] == s.puts[slot].bytes
  }

  /** Local indexes and routes name committed generations only. */
  ghost predicate IndexesCommitted(s: Sys) {
    forall a, k :: a in s.indexes && k in s.indexes[a] ==> (k, s.indexes[a][k]) in s.commits
  }

  ghost predicate RoutesCommitted(s: Sys) {
    forall r :: r in s.routes ==> SlotOf(r) in s.commits
  }

  /** The Master's records against the puts issued and committed. */
  ghost predicate Records(s: Sys) {
    Issued(s) && PidsApart(s) && s.commits <= s.puts.Keys && forall key :: key in s.master.objects ==> Recorded(s, key)
  }

  /** The processes' copies against the same. */
  ghost predicate Copies(s: Sys) {
    StoresHonest(s) && IndexesCommitted(s) && RoutesCommitted(s)
  }

  ghost predicate Inv(s: Sys) {
    Records(s) && Copies(s)
  }

  lemma SameRecords(s: Sys, s': Sys)
    requires Records(s) && s'.master.objects == s.master.objects && s'.puts == s.puts && s'.commits == s.commits
    ensures Records(s')
  {
    forall key | key in s'.master.objects
      ensures Recorded(s', key)
    {
      assert Recorded(s, key);
    }
  }

  /** More puts and more commits leave the copies honest. */
  lemma SameCopies(s: Sys, s': Sys)
    requires Copies(s) && s'.stores == s.stores && s'.indexes == s.indexes && s'.routes == s.routes
    requires s.commits <= s'.commits && forall slot :: slot in s.puts ==>
      slot in s'.puts && s'.puts[slot] == s.puts[slot]
    ensures Copies(s')
  {
  }

  lemma FreshGeneration(s: Sys, key: Master.Key)
    requires Records(s)
    ensures (key, Master.NextGeneration(s.master, key)) !in s.puts
  {
  }

  lemma OpenedRecords(s: Sys, s': Sys, slot: Slot, put: Put)
    requires Records(s) && slot !in s.puts && slot.1 == Master.NextGeneration(s.master, slot.0) && FreshPid(s, put.pid)
    requires s'.puts == s.puts[slot := put] && s'.commits == s.commits
    requires slot.0 in s'.master.objects && s'.master.objects == s.master.objects[slot.0 := s'.master.objects[slot.0]]
    requires var o := s'.master.objects[slot.0];
      o.generation == slot.1 && o.putId == put.pid && o.size == |put.bytes| && o.phase.Writing?
    ensures Records(s')
  {
    forall k | k in s'.master.objects
      ensures Recorded(s', k)
    {
      if k != slot.0 {
        assert Recorded(s, k);
      }
    }
  }

  lemma PutStartKeeps(s: Sys, key: Master.Key, bytes: Bytes, choice: Option<Master.WorkerId>, pid: Master.PutId)
    requires Inv(s) && FreshPid(s, pid)
    requires choice.Some? ==> choice.value in Master.Released(s.master, key).workers
    ensures Inv(AfterPutStart(s, key, bytes, choice, pid))
  {
    hide Records, Copies;
    var s' := AfterPutStart(s, key, bytes, choice, pid);
    if choice.Some? {
      var slot := (key, Master.NextGeneration(s.master, key));
      FreshGeneration(s, key);
      OpenedRecords(s, s', slot, Put(pid, bytes));
    } else {
      SameRecords(s, s');
    }
    SameCopies(s, s');
  }

  lemma CommittedRecords(s: Sys, s': Sys, slot: Slot)
    requires Records(s) && slot in s.puts && slot == Newest(s, slot.0) && s.master.objects[slot.0].phase.Writing?
    requires s'.puts == s.puts && s'.commits == s.commits + {slot}
    requires s'.master.objects == s.master.objects[slot.0 := s.master.objects[slot.0].(phase := Master.Complete)]
    ensures Records(s')
  {
    forall k | k in s'.master.objects
      ensures Recorded(s', k)
    {
      assert Recorded(s, k);
    }
  }

  /** A commit goes through exactly when its put is the key's newest and was not committed before. */
  lemma CommitsOnceWhileNewest(s: Sys, slot: Slot)
    requires Inv(s) && slot in s.puts
    ensures slot.0 in s.master.objects
    ensures Master.Commit(s.master, slot.0, s.puts[slot].pid).1 <==> slot == Newest(s, slot.0) && slot !in s.commits
  {
    hide Copies;
    assert Recorded(s, slot.0);
    var newest := Newest(s, slot.0);
    if s.puts[newest].pid == s.puts[slot].pid {
      assert newest == slot;
    }
  }

  lemma CommitKeeps(s: Sys, slot: Slot)
    requires Inv(s) && slot in s.puts
    ensures Inv(Apply(s, Commit(slot)))
  {
    CommitsOnceWhileNewest(s, slot);
    hide Records, Copies;
    var s' := Apply(s, Commit(slot));
    if Master.Commit(s.master, slot.0, s.puts[slot].pid).1 {
      CommittedRecords(s, s', slot);
    } else {
      SameRecords(s, s');
    }
    SameCopies(s, s');
  }

  /** A route names the newest generation of its key, and that generation was committed. */
  lemma RouteIsNewest(s: Sys, now: nat, key: Master.Key)
    requires Inv(s) && Master.GetRoute(s.master, now, key).Some?
    ensures key in s.master.objects
    ensures var r := Master.GetRoute(s.master, now, key).value;
      r.key == key && SlotOf(r) == Newest(s, key) && SlotOf(r) in s.commits
    ensures forall slot :: slot in s.puts && slot.0 == key ==>
      slot.1 <= Master.GetRoute(s.master, now, key).value.generation
  {
    assert Recorded(s, key);
  }

  /** What a worker process does to its store keeps it honest. */
  lemma StoreStepKeeps(s: Sys, step: Step)
    requires Copies(s) && Enabled(s, step) && (step.Start? || step.Crash? || step.Write? || step.Evict?)
    ensures Copies(Apply(s, step))
  {
    hide Accounted;
  }

  lemma IndexStepKeeps(s: Sys, addr: Master.Addr, slot: Slot)
    requires Copies(s) && addr in s.indexes && slot in s.commits
    ensures Copies(MarkCommitted(s, addr, slot))
  {
  }

  lemma RouteKept(s: Sys, r: Master.Route)
    requires Copies(s) && SlotOf(r) in s.commits
    ensures Copies(s.(routes := s.routes + {r}))
  {
  }

  lemma CopiesKeep(s: Sys, step: Step)
    requires Inv(s) && Enabled(s, step) && !step.PutStart? && !step.Commit?
    ensures Copies(Apply(s, step))
  {
    hide Records, StoresHonest, IndexesCommitted;
    match step {
      case IndexOwnPut(addr, slot) => IndexStepKeeps(s, addr, slot);
      case IndexRoute(addr, route) => IndexStepKeeps(s, addr, SlotOf(route));
      case GetRoute(now, key) =>
        if Master.GetRoute(s.master, now, key).Some? {
          RouteIsNewest(s, now, key);
          RouteKept(s, Master.GetRoute(s.master, now, key).value);
        }
      case Register(_, _, _, _) => SameCopies(s, Apply(s, step));
      case Heartbeat(_, _, _) => SameCopies(s, Apply(s, step));
      case MarkDead(_) => SameCopies(s, Apply(s, step));
      case _ => StoreStepKeeps(s, step);
    }
  }

  lemma StepKeepsInv(s: Sys, step: Step)
    requires Inv(s) && Enabled(s, step)
    ensures Inv(Apply(s, step))
  {
    hide Records, Copies;
    match step {
      case PutStart(now, key, bytes, preferred, choice, pid) => PutStartKeeps(s, key, bytes, choice, pid);
      case Commit(slot) => CommitKeeps(s, slot);
      case _ =>
        CopiesKeep(s, step);
        SameRecords(s, Apply(s, step));
    }
  }

  lemma {:induction false} RunKeepsInv(s: Sys, steps: seq<Step>)
    requires Inv(s) && RunOk(s, steps)
    ensures Inv(After(s, steps))
    decreases |steps|
  {
    if steps != [] {
      StepKeepsInv(s, steps[0]);
      RunKeepsInv(Apply(s, steps[0]), steps[1..]);
    }
  }

  // ------------------------------------------------------------------ exact or miss

  /** The local-first read of a co-located engine. */
  function LocalRead(s: Sys, addr: Master.Addr, key: Master.Key): Option<Bytes> {
    if addr in s.stores && addr in s.indexes then Committed(s.indexes[addr], s.stores[addr], key) else None
  }

  /** The fetch at a worker, some time after the route was handed out. */
  function Fetch(s: Sys, addr: Master.Addr, r: Master.Route): Option<Bytes> {
    if addr in s.stores then Get(s.stores[addr], SlotOf(r)) else None
  }

  /** A miss, or the bytes of a put on this key whose commit the Master accepted. */
  ghost predicate ExactOrMiss(s: Sys, key: Master.Key, answer: Option<Bytes>) {
    answer.Some? ==> exists slot ::
      slot in s.commits && slot in s.puts && slot.0 == key && s.puts[slot].bytes == answer.value
  }

  lemma LocalReadIsExact(s: Sys, addr: Master.Addr, key: Master.Key)
    requires Inv(s)
    ensures ExactOrMiss(s, key, LocalRead(s, addr, key))
  {
    hide Records;
    if LocalRead(s, addr, key).Some? {
      assert (key, s.indexes[addr][key]) in s.commits;
    }
  }

  lemma FetchIsExact(s: Sys, addr: Master.Addr, r: Master.Route)
    requires Inv(s) && r in s.routes
    ensures ExactOrMiss(s, r.key, Fetch(s, addr, r))
  {
    hide Records;
    if Fetch(s, addr, r).Some? {
      assert SlotOf(r) in s.commits;
    }
  }

  /**
   Safety over all runs: whatever happened before, between and after, a read is exact or a miss,
   served from the local index without the Master or fetched, from any worker, along any route the
   Master ever handed out.
   */
  lemma EveryReadIsExactOrMiss(steps: seq<Step>, addr: Master.Addr, key: Master.Key, r: Master.Route)
    requires RunOk(INIT, steps)
    ensures var s := After(INIT, steps);
      && ExactOrMiss(s, key, LocalRead(s, addr, key))
      && (r in s.routes ==> ExactOrMiss(s, r.key, Fetch(s, addr, r)))
  {
    hide Inv, ExactOrMiss;
    EmptySystem();
    RunKeepsInv(INIT, steps);
    var s := After(INIT, steps);
    LocalReadIsExact(s, addr, key);
    if r in s.routes {
      FetchIsExact(s, addr, r);
    }
  }

  lemma EmptySystem()
    ensures Inv(INIT)
  {
  }

  // ------------------------------------------------------------------ generations and routes

  lemma StepGrows(s: Sys, step: Step, key: Master.Key)
    requires Enabled(s, step) && key in s.master.objects
    ensures var o, m := s.master.objects[key], Apply(s, step).master;
      && key in m.objects && o.generation <= m.objects[key].generation
      && (m.objects[key].generation == o.generation ==>
        m.objects[key].worker == o.worker && m.objects[key].workerEpoch == o.workerEpoch)
  {
  }

  lemma {:induction false} GenerationsGrow(s: Sys, steps: seq<Step>, key: Master.Key)
    requires RunOk(s, steps) && key in s.master.objects
    ensures var m := After(s, steps).master;
      key in m.objects && s.master.objects[key].generation <= m.objects[key].generation
    decreases |steps|
  {
    if steps != [] {
      StepGrows(s, steps[0], key);
      GenerationsGrow(Apply(s, steps[0]), steps[1..], key);
    }
  }

  lemma RunOfRun(s: Sys, steps: seq<Step>, more: seq<Step>)
    requires RunOk(s, steps) && RunOk(After(s, steps), more)
    ensures RunOk(s, steps + more) && After(s, steps + more) == After(After(s, steps), more)
    decreases |steps|
  {
    hide Enabled, Apply;
    if steps == [] {
      assert steps + more == more;
    } else {
      RunOfRun(Apply(s, steps[0]), steps[1..], more);
      assert (steps + more)[1..] == steps[1..] + more;
    }
  }

  /** Of two routes handed out for a key, the later is never of an older generation, and each is of the newest then. */
  lemma RoutesNeverGoBack(steps: seq<Step>, more: seq<Step>, key: Master.Key, now: nat, now': nat)
    requires RunOk(INIT, steps) && RunOk(After(INIT, steps), more)
    requires Master.GetRoute(After(INIT, steps).master, now, key).Some?
    requires Master.GetRoute(After(After(INIT, steps), more).master, now', key).Some?
    ensures var s, s' := After(INIT, steps), After(After(INIT, steps), more);
      var r, r' := Master.GetRoute(s.master, now, key).value, Master.GetRoute(s'.master, now', key).value;
      && r.generation <= r'.generation
      && (forall slot :: slot in s.puts && slot.0 == key ==> slot.1 <= r.generation)
      && (forall slot :: slot in s'.puts && slot.0 == key ==> slot.1 <= r'.generation)
  {
    hide Inv, Apply;
    var s := After(INIT, steps);
    RunKeepsInv(INIT, steps);
    RunKeepsInv(s, more);
    RouteIsNewest(s, now, key);
    RouteIsNewest(After(s, more), now', key);
    GenerationsGrow(s, more, key);
  }

  /** The generations of a key strictly increase: every `put_start` that succeeds opens one never issued before. */
  lemma PutStartOpensFresh(steps: seq<Step>, step: Step)
    requires RunOk(INIT, steps) && step.PutStart? && Enabled(After(INIT, steps), step) && step.choice.Some?
    ensures var s, s' := After(INIT, steps), Apply(After(INIT, steps), step);
      var slot := (step.key, Master.NextGeneration(s.master, step.key));
      && slot !in s.puts && slot in s'.puts && slot == Newest(s', step.key)
      && forall other :: other in s.puts && other.0 == step.key ==> other.1 < slot.1
  {
    RunKeepsInv(INIT, steps);
    hide Copies;
    FreshGeneration(After(INIT, steps), step.key);
  }

  /** The generations issued for a key are one, two, and so on up to the one on record. */
  ghost predicate Numbered(s: Sys) {
    forall slot: Slot :: slot in s.puts <==>
      slot.0 in s.master.objects && 1 <= slot.1 <= s.master.objects[slot.0].generation
  }

  /** The records and the generations issued are as before, or `put_start` issued the next one of a key. */
  lemma PutsStep(s: Sys, step: Step)
    requires Enabled(s, step)
    ensures var s' := Apply(s, step);
      if step.PutStart? && step.choice.Some? then
        && s'.puts.Keys == s.puts.Keys + {(step.key, Master.NextGeneration(s.master, step.key))}
        && s'.master.objects.Keys == s.master.objects.Keys + {step.key}
        && s'.master.objects[step.key].generation == Master.NextGeneration(s.master, step.key)
        && forall k :: k in s.master.objects && k != step.key ==>
          s'.master.objects[k].generation == s.master.objects[k].generation
      else
        && s'.puts.Keys == s.puts.Keys && s'.master.objects.Keys == s.master.objects.Keys
        && forall k :: k in s.master.objects ==> s'.master.objects[k].generation == s.master.objects[k].generation
  {
  }

  lemma NumberedStep(s: Sys, step: Step)
    requires Enabled(s, step) && Numbered(s)
    ensures Numbered(Apply(s, step))
  {
    hide Enabled, Apply;
    PutsStep(s, step);
    var s' := Apply(s, step);
    forall slot: Slot
      ensures slot in s'.puts <==> slot.0 in s'.master.objects && 1 <= slot.1 <= s'.master.objects[slot.0].generation
    {
      assert slot in s.puts <==> slot.0 in s.master.objects && 1 <= slot.1 <= s.master.objects[slot.0].generation;
      assert slot in s'.puts <==> slot in s'.puts.Keys;
      assert slot.0 in s'.master.objects <==> slot.0 in s'.master.objects.Keys;
    }
  }

  lemma {:induction false} GenerationsAreNumbered(s: Sys, steps: seq<Step>)
    requires RunOk(s, steps) && Numbered(s)
    ensures Numbered(After(s, steps))
    decreases |steps|
  {
    hide Enabled, Apply, Numbered;
    if steps != [] {
      NumberedStep(s, steps[0]);
      GenerationsAreNumbered(Apply(s, steps[0]), steps[1..]);
    }
  }

  /** Over every run from the empty system a key's generations count its successful puts. */
  lemma GenerationsCountPuts(steps: seq<Step>, key: Master.Key, generation: nat)
    requires RunOk(INIT, steps)
    ensures var s := After(INIT, steps);
      (key, generation) in s.puts <==> key in s.master.objects && 1 <= generation <= s.master.objects[key].generation
  {
    GenerationsAreNumbered(INIT, steps);
    assert Numbered(After(INIT, steps));
  }

  // ------------------------------------------------------------------ epochs

  /** The newest generation of `key` was placed under an epoch its worker has left. */
  ghost predicate Orphaned(s: Sys, key: Master.Key) {
    key in s.master.objects && s.master.objects[key].worker in s.master.workers &&
    s.master.objects[key].workerEpoch < s.master.workers[s.master.objects[key].worker].epoch
  }

  lemma OrphanStep(s: Sys, step: Step, key: Master.Key)
    requires Enabled(s, step) && Orphaned(s, key) && !(step.PutStart? && step.key == key)
    ensures Orphaned(Apply(s, step), key)
  {
  }

  /**
   Once its worker has registered again, an object is never routed to any more, however the worker
   heartbeats, registers or what the clocks read, until a new put on the key; its bytes stay where they are.
   */
  lemma {:induction false} OrphanIsNeverRouted(s: Sys, steps: seq<Step>, key: Master.Key, now: nat)
    requires RunOk(s, steps) && Orphaned(s, key)
    requires forall i :: 0 <= i < |steps| ==> !(steps[i].PutStart? && steps[i].key == key)
    ensures Orphaned(After(s, steps), key) && Master.GetRoute(After(s, steps).master, now, key).None?
    decreases |steps|
  {
    if steps != [] {
      OrphanStep(s, steps[0], key);
      OrphanIsNeverRouted(Apply(s, steps[0]), steps[1..], key, now);
    }
  }

  /** Registering again orphans every object placed on the worker. */
  lemma RegisterOrphans(steps: seq<Step>, now: nat, id: Master.WorkerId, addr: Master.Addr, capacity: nat,
                        key: Master.Key)
    requires RunOk(INIT, steps)
    requires key in After(INIT, steps).master.objects && After(INIT, steps).master.objects[key].worker == id
    ensures Orphaned(Apply(After(INIT, steps), Register(now, id, addr, capacity)), key)
  {
    PlacedOnKnown(INIT, steps);
    assert PlacedBefore(After(INIT, steps).master, key);
  }

  /** The object of `key` sits on a worker the Master knows, under an epoch no later than the current one. */
  ghost predicate PlacedBefore(m: Master.State, key: Master.Key)
    requires key in m.objects
  {
    m.objects[key].worker in m.workers && m.objects[key].workerEpoch <= m.workers[m.objects[key].worker].epoch
  }

  ghost predicate EpochsBehind(m: Master.State) {
    forall key :: key in m.objects ==> PlacedBefore(m, key)
  }

  /** Workers are never forgotten, and their epochs never go down. */
  lemma WorkersGrow(s: Sys, step: Step, id: Master.WorkerId)
    requires Enabled(s, step) && id in s.master.workers
    ensures var m := Apply(s, step).master; id in m.workers && s.master.workers[id].epoch <= m.workers[id].epoch
  {
  }

  /** A record stays where it was placed, unless this step places it now, under the epoch of now. */
  lemma PlacementStays(s: Sys, step: Step, key: Master.Key)
    requires Enabled(s, step) && key in Apply(s, step).master.objects
    ensures var m := Apply(s, step).master;
      || (key in s.master.objects && m.objects[key].worker == s.master.objects[key].worker
          && m.objects[key].workerEpoch == s.master.objects[key].workerEpoch)
      || (m.objects[key].worker in m.workers && m.objects[key].workerEpoch == m.workers[m.objects[key].worker].epoch)
  {
  }

  lemma EpochsStep(s: Sys, step: Step)
    requires EpochsBehind(s.master) && Enabled(s, step)
    ensures EpochsBehind(Apply(s, step).master)
  {
    hide Enabled, Apply;
    var m := Apply(s, step).master;
    forall key | key in m.objects
      ensures PlacedBefore(m, key)
    {
      PlacementStays(s, step, key);
      if key in s.master.objects {
        assert PlacedBefore(s.master, key);
        WorkersGrow(s, step, s.master.objects[key].worker);
      }
    }
  }

  lemma {:induction false} PlacedOnKnown(s: Sys, steps: seq<Step>)
    requires EpochsBehind(s.master) && RunOk(s, steps)
    ensures EpochsBehind(After(s, steps).master)
    decreases |steps|
  {
    hide Enabled, Apply, EpochsBehind;
    if steps != [] {
      EpochsStep(s, steps[0]);
      PlacedOnKnown(Apply(s, steps[0]), steps[1..]);
    }
  }

  // ------------------------------------------------------------------ liveness

  /** The worker was declared dead, or has not been heard of for longer than the timeout at `now`. */
  ghost predicate Silent(s: Sys, id: Master.WorkerId, now: nat) {
    id in s.master.workers &&
      (!s.master.workers[id].alive || s.master.workers[id].lastHeartbeat + Master.HEARTBEAT_TIMEOUT_MS < now)
  }

  /** The worker registers, or a heartbeat of its reaches the Master. */
  predicate Heard(id: Master.WorkerId, step: Step) {
    (step.Register? || step.Heartbeat?) && step.id == id
  }

  lemma SilentStep(s: Sys, step: Step, id: Master.WorkerId, now: nat)
    requires Enabled(s, step) && Silent(s, id, now) && !Heard(id, step)
    ensures Silent(Apply(s, step), id, now)
  {
  }

  /** No route and no placement goes to a silent worker until it is heard of again. */
  lemma {:induction false} SilentIsNotUsed(s: Sys, steps: seq<Step>, id: Master.WorkerId, now: nat, key: Master.Key,
                                           size: nat)
    requires RunOk(s, steps) && Silent(s, id, now) && forall i :: 0 <= i < |steps| ==> !Heard(id, steps[i])
    ensures var m := After(s, steps).master;
      && (Master.GetRoute(m, now, key).Some? ==> Master.GetRoute(m, now, key).value.worker != id)
      && !Master.HasRoom(m, now, size, id)
    decreases |steps|
  {
    hide Enabled, Apply;
    if steps != [] {
      SilentStep(s, steps[0], id, now);
      SilentIsNotUsed(Apply(s, steps[0]), steps[1..], id, now, key, size);
    }
  }
}
