/**
 Capacity accounting at the Master over all runs (src/distkv/master.rs). A worker's `used` never
 exceeds its capacity, nor the current-epoch reservations placed on it; it equals them until a
 `put_start` lets go of something it should not, and then the reservations can outgrow the capacity.
 */
module Capacity {
  import opened Basics
  import opened Totals
  import opened Master
  import opened Worker
  import DistKv

  // ------------------------------------------------------------------ reservations

  /** The sizes reserved on worker `id` under its current epoch, by key. */
  ghost function Reservations(m: State, id: WorkerId): map<Key, nat>
    requires id in m.workers
  {
    map k | k in m.objects && m.objects[k].worker == id && m.objects[k].workerEpoch == m.workers[id].epoch ::
      m.objects[k].size
  }

  ghost function Reserved(m: State, id: WorkerId): nat
    requires id in m.workers
  {
    Total(Reservations(m, id))
  }

  /** What `key` contributes to the reservations of `id`. */
  function Share(m: State, id: WorkerId, key: Key): nat
    requires id in m.workers
  {
    if key in m.objects && m.objects[key].worker == id && m.objects[key].workerEpoch == m.workers[id].epoch
    then m.objects[key].size else 0
  }

  /** Changing one object moves the reservations by its share alone. */
  lemma ReservedMoves(m: State, m': State, id: WorkerId, key: Key)
    requires id in m.workers && id in m'.workers && m'.workers[id].epoch == m.workers[id].epoch
    requires m.objects - {key} == m'.objects - {key}
    ensures Share(m, id, key) <= Reserved(m, id)
    ensures Reserved(m', id) == Reserved(m, id) - Share(m, id, key) + Share(m', id, key)
  {
    var r, r' := Reservations(m, id), Reservations(m', id);
    TotalSet(r, key, 0);
    TotalSet(r', key, 0);
    assert r - {key} == r' - {key} by {
      forall k | k != key
        ensures k in r <==> k in r'
        ensures k in r ==> r[k] == r'[k]
      {
        assert k in m.objects <==> k in m.objects - {key};
        assert k in m'.objects <==> k in m'.objects - {key};
        assert k in m.objects ==> (m.objects - {key})[k] == m.objects[k];
        assert k in m'.objects ==> (m'.objects - {key})[k] == m'.objects[k];
      }
    }
  }

  ghost predicate WorkerWithin(m: State, id: WorkerId)
    requires id in m.workers
  {
    m.workers[id].used <= m.workers[id].capacity && m.workers[id].used <= Reserved(m, id)
  }

  ghost predicate Within(m: State) {
    forall id :: id in m.workers ==> WorkerWithin(m, id)
  }

  ghost predicate WorkerExact(m: State, id: WorkerId)
    requires id in m.workers
  {
    m.workers[id].used == Reserved(m, id)
  }

  ghost predicate Exact(m: State) {
    forall id :: id in m.workers ==> WorkerExact(m, id)
  }

  // ------------------------------------------------------------------ registration and liveness

  lemma RegisterAccounts(m: State, now: nat, id: WorkerId, addr: Addr, capacity: nat)
    requires DistKv.EpochsBehind(m)
    ensures var m' := Master.Register(m, now, id, addr, capacity);
      && WorkerExact(m', id) && WorkerWithin(m', id)
      && forall x :: x in m.workers && x != id ==>
        x in m'.workers && m'.workers[x] == m.workers[x] && Reservations(m', x) == Reservations(m, x)
  {
    var m' := Master.Register(m, now, id, addr, capacity);
    assert Reservations(m', id) == map[];
  }

  /** Steps that touch neither objects, epochs nor what is used change nothing. */
  lemma SameAccounts(m: State, m': State)
    requires m'.workers.Keys == m.workers.Keys
    requires forall k :: k in m'.objects <==> k in m.objects
    requires forall k :: k in m.objects ==> m'.objects[k].(phase := m.objects[k].phase) == m.objects[k]
    requires forall id :: id in m.workers ==>
      m'.workers[id].epoch == m.workers[id].epoch && m'.workers[id].used == m.workers[id].used &&
        m'.workers[id].capacity == m.workers[id].capacity
    ensures Within(m) ==> Within(m')
    ensures Exact(m) <==> Exact(m')
  {
    forall id | id in m.workers
      ensures Reserved(m', id) == Reserved(m, id)
      ensures WorkerWithin(m, id) <==> WorkerWithin(m', id)
      ensures WorkerExact(m, id) <==> WorkerExact(m', id)
    {
      assert Reservations(m', id) == Reservations(m, id);
    }
  }

  // ------------------------------------------------------------------ put_start

  /** The state `put_start` leaves behind. */
  function Started(m: State, key: Key, size: nat, choice: Option<WorkerId>, pid: PutId): State
    requires choice.Some? ==> choice.value in Released(m, key).workers
  {
    match choice
    case None => Released(m, key)
    case Some(id) => Placed(Released(m, key), key, size, id, pid)
  }

  /** How much of the previous reservation was still counted at worker `id` when it was let go. */
  function LetGo(m: State, key: Key, id: WorkerId): nat
    requires id in m.workers
  {
    if key in m.objects && m.objects[key].worker == id then
      if m.workers[id].used < m.objects[key].size then m.workers[id].used else m.objects[key].size
    else 0
  }

  /** Used and reserved at worker `id` after `put_start`. */
  lemma StartedAt(m: State, key: Key, size: nat, choice: Option<WorkerId>, pid: PutId, id: WorkerId)
    requires choice.Some? ==> choice.value in Released(m, key).workers
    requires id in m.workers
    ensures var m', added := Started(m, key, size, choice, pid), if choice == Some(id) then size else 0;
      && id in m'.workers && m'.workers[id].capacity == m.workers[id].capacity &&
        m'.workers[id].epoch == m.workers[id].epoch
      && m'.workers[id].used == m.workers[id].used - LetGo(m, key, id) + added
      && Share(m, id, key) <= Reserved(m, id)
      && Reserved(m', id) == if choice.None? then Reserved(m, id) else Reserved(m, id) - Share(m, id, key) + added
  {
    var m' := Started(m, key, size, choice, pid);
    if choice.None? {
      assert Reservations(m', id) == Reservations(m, id);
      ReservedMoves(m, m, id, key);
    } else {
      assert m'.objects - {key} == m.objects - {key};
      ReservedMoves(m, m', id, key);
    }
  }

  /** `put_start` reserves only what fits, so `used` stays within capacity and within the reservations. */
  lemma StartedWithin(m: State, now: nat, key: Key, size: nat, choice: Option<WorkerId>, pid: PutId)
    requires Within(m)
    requires choice.Some? ==> HasRoom(Released(m, key), now, size, choice.value)
    ensures Within(Started(m, key, size, choice, pid))
  {
    hide Reserved;
    var m' := Started(m, key, size, choice, pid);
    forall id | id in m'.workers
      ensures WorkerWithin(m', id)
    {
      StartedAt(m, key, size, choice, pid, id);
      assert WorkerWithin(m, id);
    }
  }

  /** What a `put_start` takes off a worker's account without taking it off the reservations. */
  function Lost(m: State, key: Key, refused: bool): nat {
    if key !in m.objects || m.objects[key].worker !in m.workers then 0
    else
      var id := m.objects[key].worker;
      if refused || m.objects[key].workerEpoch != m.workers[id].epoch then LetGo(m, key, id) else 0
  }

  /** What `put_start` may decide: a worker by its rule, or a refusal when none has room. */
  ghost predicate Decides(m: State, now: nat, key: Key, size: nat, preferred: Option<WorkerId>,
                          choice: Option<WorkerId>) {
    match choice
    case Some(id) => CanChoose(Released(m, key), now, size, preferred, id)
    case None => NoRoom(Released(m, key), now, size)
  }

  lemma RefusedForWantOfRoom(m: State, now: nat, key: Key, size: nat, preferred: Option<WorkerId>,
                             choice: Option<WorkerId>)
    requires Decides(m, now, key, size, preferred, choice)
    ensures choice.None? <==> NoRoom(Released(m, key), now, size)
  {
    if choice.Some? {
      assert HasRoom(Released(m, key), now, size, choice.value);
    }
  }

  /**
   From exact accounts, `put_start` leaves exact accounts if and only if it loses nothing: want of room must
   not let go of anything still counted, and neither may an overwrite of an old-epoch placement.
   */
  lemma StartedExactly(m: State, now: nat, key: Key, size: nat, preferred: Option<WorkerId>, choice: Option<WorkerId>,
                       pid: PutId)
    requires Exact(m) && Decides(m, now, key, size, preferred, choice)
    ensures Exact(Started(m, key, size, choice, pid)) <==> Lost(m, key, NoRoom(Released(m, key), now, size)) == 0
  {
    hide Reserved, NoRoom, Released;
    RefusedForWantOfRoom(m, now, key, size, preferred, choice);
    ChosenIsKnown(m, now, key, size, preferred, choice);
    var m' := Started(m, key, size, choice, pid);
    forall id | id in m'.workers
      ensures id in m.workers
      ensures WorkerExact(m', id) <==>
        (key in m.objects && m.objects[key].worker == id ==> Lost(m, key, choice.None?) == 0)
    {
      SameWorkers(m, key, size, choice, pid);
      StartedAt(m, key, size, choice, pid, id);
      assert WorkerExact(m, id);
    }
    SameWorkers(m, key, size, choice, pid);
    if Lost(m, key, choice.None?) != 0 {
      assert !WorkerExact(m', m.objects[key].worker);
    }
  }

  lemma ChosenIsKnown(m: State, now: nat, key: Key, size: nat, preferred: Option<WorkerId>, choice: Option<WorkerId>)
    requires Decides(m, now, key, size, preferred, choice)
    ensures choice.Some? ==> choice.value in Released(m, key).workers && choice.value in m.workers
  {
  }

  lemma SameWorkers(m: State, key: Key, size: nat, choice: Option<WorkerId>, pid: PutId)
    requires choice.Some? ==> choice.value in Released(m, key).workers
    ensures Started(m, key, size, choice, pid).workers.Keys == m.workers.Keys
  {
  }

  // ------------------------------------------------------------------ reservations within capacity

  /** Every `put_start` of `key`, new or not, that worker `id` has room for leaves its reservations within capacity. */
  ghost predicate NeverOverbooks(m: State, now: nat, key: Key, id: WorkerId)
    requires id in m.workers
  {
    forall size: nat, pid: PutId :: HasRoom(Released(m, key), now, size, id) ==>
      id in Started(m, key, size, Some(id), pid).workers &&
      Reserved(Started(m, key, size, Some(id), pid), id) <= m.workers[id].capacity
  }

  /**
   Invariant I6, sharply. On a live worker, every `put_start` of a key leaves the reservations within capacity
   if and only if the account is exact once the key's previous reservation is let go: what is still used is
   what the other keys have reserved.
   */
  lemma OverbooksExactly(m: State, now: nat, key: Key, id: WorkerId)
    requires Within(m) && id in m.workers && m.workers[id].Usable(now)
    ensures NeverOverbooks(m, now, key, id) <==>
      m.workers[id].used - LetGo(m, key, id) == Reserved(m, id) - Share(m, id, key)
  {
    hide Reserved, Share;
    assert WorkerWithin(m, id);
    ReleasedAt(m, now, key, id);
    var w, still := m.workers[id], m.workers[id].used - LetGo(m, key, id);
    forall size: nat, pid: PutId | HasRoom(Released(m, key), now, size, id)
      ensures id in Started(m, key, size, Some(id), pid).workers
      ensures Reserved(Started(m, key, size, Some(id), pid), id) == Reserved(m, id) - Share(m, id, key) + size
      ensures still <= Reserved(m, id) - Share(m, id, key)
    {
      StartedAt(m, key, size, Some(id), pid, id);
      StartedWithin(m, now, key, size, Some(id), pid);
      assert WorkerWithin(Started(m, key, size, Some(id), pid), id);
    }
    var room: nat := w.capacity - still;
    assert HasRoom(Released(m, key), now, room, id);
    assert Reserved(Started(m, key, room, Some(id), 0), id) == Reserved(m, id) - Share(m, id, key) + room;
  }

  lemma ReleasedAt(m: State, now: nat, key: Key, id: WorkerId)
    requires id in m.workers
    ensures id in Released(m, key).workers
    ensures Released(m, key).workers[id] == m.workers[id].(used := m.workers[id].used - LetGo(m, key, id))
  {
  }

  // ------------------------------------------------------------------ over runs

  /** The step is no `put_start` that loses part of a reservation. */
  predicate LosesNothing(s: DistKv.Sys, step: DistKv.Step) {
    step.PutStart? ==> Lost(s.master, step.key, step.choice.None?) == 0
  }

  lemma RegisterKeeps(m: State, now: nat, id: WorkerId, addr: Addr, capacity: nat)
    requires DistKv.EpochsBehind(m)
    ensures Within(m) ==> Within(Master.Register(m, now, id, addr, capacity))
    ensures Exact(m) ==> Exact(Master.Register(m, now, id, addr, capacity))
  {
    hide Register;
    var m' := Master.Register(m, now, id, addr, capacity);
    RegisterAccounts(m, now, id, addr, capacity);
    forall x | x in m'.workers && x != id
      ensures x in m.workers && (WorkerWithin(m, x) ==> WorkerWithin(m', x)) &&
        (WorkerExact(m, x) ==> WorkerExact(m', x))
    {
      RegisterAddsOne(m, now, id, addr, capacity, x);
    }
  }

  lemma RegisterAddsOne(m: State, now: nat, id: WorkerId, addr: Addr, capacity: nat, x: WorkerId)
    requires x in Master.Register(m, now, id, addr, capacity).workers && x != id
    ensures x in m.workers
  {
  }

  lemma StepWithin(s: DistKv.Sys, step: DistKv.Step)
    requires DistKv.Enabled(s, step) && DistKv.EpochsBehind(s.master) && Within(s.master)
    ensures Within(DistKv.Apply(s, step).master)
    ensures Exact(s.master) && LosesNothing(s, step) ==> Exact(DistKv.Apply(s, step).master)
  {
    hide Within, Exact, Lost, DistKv.EpochsBehind;
    match step {
      case PutStart(now, key, bytes, preferred, choice, pid) =>
        StartedWithin(s.master, now, key, |bytes|, choice, pid);
        if Exact(s.master) {
          RefusedForWantOfRoom(s.master, now, key, |bytes|, preferred, choice);
          StartedExactly(s.master, now, key, |bytes|, preferred, choice, pid);
        }
      case Register(now, id, addr, capacity) => RegisterKeeps(s.master, now, id, addr, capacity);
      case Heartbeat(now, id, epoch) => SameAccounts(s.master, DistKv.Apply(s, step).master);
      case MarkDead(id) => SameAccounts(s.master, DistKv.Apply(s, step).master);
      case Commit(slot) => SameAccounts(s.master, DistKv.Apply(s, step).master);
      case _ =>
    }
  }

  /** Over every run, what a worker is said to use is within its capacity and within its reservations. */
  lemma {:induction false} RunWithin(s: DistKv.Sys, steps: seq<DistKv.Step>)
    requires DistKv.RunOk(s, steps) && DistKv.EpochsBehind(s.master) && Within(s.master)
    ensures DistKv.EpochsBehind(DistKv.After(s, steps).master) && Within(DistKv.After(s, steps).master)
    decreases |steps|
  {
    hide Within, DistKv.EpochsBehind;
    if steps != [] {
      StepWithin(s, steps[0]);
      DistKv.EpochsStep(s, steps[0]);
      RunWithin(DistKv.Apply(s, steps[0]), steps[1..]);
    }
  }

  /** No worker the Master already knows registers, and no key that has a record is refused. */
  ghost predicate Calm(s: DistKv.Sys, steps: seq<DistKv.Step>)
    requires DistKv.RunOk(s, steps)
    decreases |steps|
  {
    steps == [] ||
    (&& (steps[0].Register? ==> steps[0].id !in s.master.workers)
     && (steps[0].PutStart? && steps[0].choice.None? ==> steps[0].key !in s.master.objects)
     && Calm(DistKv.Apply(s, steps[0]), steps[1..]))
  }

  /** Every object sits on a known worker under its current epoch. */
  ghost predicate Current(m: State) {
    forall k :: k in m.objects ==>
      m.objects[k].worker in m.workers && m.objects[k].workerEpoch == m.workers[m.objects[k].worker].epoch
  }

  lemma CalmStep(s: DistKv.Sys, step: DistKv.Step)
    requires DistKv.Enabled(s, step) && Current(s.master)
    requires step.Register? ==> step.id !in s.master.workers
    requires step.PutStart? && step.choice.None? ==> step.key !in s.master.objects
    ensures Current(DistKv.Apply(s, step).master) && LosesNothing(s, step)
  {
  }

  /** Along calm runs the accounts are exact: used is the sum of the current reservations. */
  lemma {:induction false} CalmRunIsExact(s: DistKv.Sys, steps: seq<DistKv.Step>)
    requires DistKv.RunOk(s, steps) && Current(s.master) && Within(s.master) && Exact(s.master) && Calm(s, steps)
    ensures Exact(DistKv.After(s, steps).master)
    decreases |steps|
  {
    hide Within, Exact, Current;
    if steps != [] {
      CalmStep(s, steps[0]);
      CurrentIsBehind(s.master);
      StepWithin(s, steps[0]);
      CalmRunIsExact(DistKv.Apply(s, steps[0]), steps[1..]);
    }
  }

  lemma CurrentIsBehind(m: State)
    requires Current(m)
    ensures DistKv.EpochsBehind(m)
  {
  }

  /** From the empty system: within always, exact on every calm run. */
  lemma CapacityIsAccounted(steps: seq<DistKv.Step>, id: WorkerId)
    requires DistKv.RunOk(DistKv.INIT, steps) && id in DistKv.After(DistKv.INIT, steps).master.workers
    ensures var m := DistKv.After(DistKv.INIT, steps).master;
      && m.workers[id].used <= m.workers[id].capacity && m.workers[id].used <= Reserved(m, id)
      && (Calm(DistKv.INIT, steps) ==> m.workers[id].used == Reserved(m, id))
  {
    RunWithin(DistKv.INIT, steps);
    var m := DistKv.After(DistKv.INIT, steps).master;
    assert WorkerWithin(m, id);
    if Calm(DistKv.INIT, steps) {
      CalmRunIsExact(DistKv.INIT, steps);
      assert WorkerExact(m, id);
    }
  }

  // ------------------------------------------------------------------ the two ways accounts drift

  function Blank(n: nat): Bytes {
    seq(n, _ => 0)
  }

  const FIRST: Key := "first"
  const SECOND: Key := "second"
  const W: WorkerId := "w"

  /** A worker of 100 bytes with a put of 60 open on it. */
  function Sixty(): State {
    State(map[W := WorkerMeta("a", 100, 60, 1, 0, true)], map[FIRST := ObjectMeta(1, Writing, 0, 60, W, 1)])
  }

  function SixtySteps(): seq<DistKv.Step> {
    [DistKv.Register(0, W, "a", 100), DistKv.PutStart(0, FIRST, Blank(60), None, Some(W), 0)]
  }

  lemma SixtyIsReachable()
    ensures DistKv.RunOk(DistKv.INIT, SixtySteps())
    ensures var s := DistKv.After(DistKv.INIT, SixtySteps());
      s.master == Sixty() && s.puts == map[(FIRST, 1) := DistKv.Put(0, Blank(60))]
  {
    var register, put := SixtySteps()[0], SixtySteps()[1];
    var s1 := DistKv.Apply(DistKv.INIT, register);
    assert s1.master == State(map[W := WorkerMeta("a", 100, 0, 1, 0, true)], map[]);
    DistKv.TwoSteps(DistKv.INIT, register, put);
    assert DistKv.Apply(s1, put).master.workers == Sixty().workers;
  }

  /** The reservations after a refused overwrite that asked for too much, and a second put. */
  function Overbooked(): State {
    State(map[W := WorkerMeta("a", 100, 60, 1, 0, true)],
          map[FIRST := ObjectMeta(1, Writing, 0, 60, W, 1), SECOND := ObjectMeta(1, Writing, 1, 60, W, 1)])
  }

  function OverbookingSteps(): seq<DistKv.Step> {
    SixtySteps()
    + [DistKv.PutStart(0, FIRST, Blank(101), None, None, 1), DistKv.PutStart(0, SECOND, Blank(60), None, Some(W), 1)]
  }

  /**
   Letting go twice. Overwriting the first key with more than the worker can take is refused, but its
   reservation is let go all the same; a second key then gets the room. Both reservations stand, 120
   bytes on a worker of 100, which the comment on invariant I6 says cannot be.
   */
  lemma RefusalOverbooks()
    ensures DistKv.RunOk(DistKv.INIT, OverbookingSteps())
    ensures DistKv.After(DistKv.INIT, OverbookingSteps()).master == Overbooked()
    ensures Reserved(Overbooked(), W) == 120 > Overbooked().workers[W].capacity
  {
    SixtyIsReachable();
    var s := DistKv.After(DistKv.INIT, SixtySteps());
    var refused, second := OverbookingSteps()[2], OverbookingSteps()[3];
    var s1 := DistKv.Apply(s, refused);
    assert s1.master.workers == map[W := WorkerMeta("a", 100, 0, 1, 0, true)];
    DistKv.TwoSteps(s, refused, second);
    assert DistKv.Apply(s1, second).master.workers == Overbooked().workers;
    DistKv.RunOfRun(DistKv.INIT, SixtySteps(), [refused, second]);
    OverbookedSum();
  }

  lemma OverbookedSum()
    ensures Reserved(Overbooked(), W) == 120
  {
    var r := Reservations(Overbooked(), W);
    assert r == map[FIRST := 60, SECOND := 60];
    TotalTake(r, FIRST);
    assert r - {FIRST} == map[SECOND := 60];
    TotalTake(r - {FIRST}, SECOND);
    assert r - {FIRST} - {SECOND} == map[];
  }

  /** The worker registers again, and a second key is put. */
  function AgainSteps(): seq<DistKv.Step> {
    [DistKv.Register(0, W, "a", 100), DistKv.PutStart(0, SECOND, Blank(60), None, Some(W), 1)]
  }

  /** The first key's 60 bytes are on the old epoch, the second key's on the new one. */
  function TwoEpochs(): State {
    State(map[W := WorkerMeta("a", 100, 60, 2, 0, true)],
          map[FIRST := ObjectMeta(1, Writing, 0, 60, W, 1), SECOND := ObjectMeta(1, Writing, 1, 60, W, 2)])
  }

  /** The first key is overwritten with a hundred bytes. */
  function OverwriteStep(): DistKv.Step {
    DistKv.PutStart(0, FIRST, Blank(100), None, Some(W), 2)
  }

  function Overwritten(): State {
    State(map[W := WorkerMeta("a", 100, 100, 2, 0, true)],
          map[FIRST := ObjectMeta(2, Writing, 2, 100, W, 2), SECOND := ObjectMeta(1, Writing, 1, 60, W, 2)])
  }

  lemma TwoEpochsIsExact()
    ensures Within(TwoEpochs()) && Exact(TwoEpochs()) && Reserved(TwoEpochs(), W) == 60
  {
    var r := Reservations(TwoEpochs(), W);
    assert r == map[SECOND := 60];
    TotalTake(r, SECOND);
    assert r - {SECOND} == map[];
  }

  lemma OverwrittenSum()
    ensures Reserved(Overwritten(), W) == 160
  {
    var r := Reservations(Overwritten(), W);
    assert r == map[FIRST := 100, SECOND := 60];
    TotalTake(r, FIRST);
    assert r - {FIRST} == map[SECOND := 60];
    TotalTake(r - {FIRST}, SECOND);
    assert r - {FIRST} - {SECOND} == map[];
  }

  lemma RegistersAgain(s: DistKv.Sys)
    requires s.master == Sixty()
    ensures var again := DistKv.Register(0, W, "a", 100);
      && DistKv.Enabled(s, again) && DistKv.Apply(s, again).puts == s.puts
      && DistKv.Apply(s, again).master ==
           State(map[W := WorkerMeta("a", 100, 0, 2, 0, true)], map[FIRST := ObjectMeta(1, Writing, 0, 60, W, 1)])
  {
    assert DistKv.Apply(s, DistKv.Register(0, W, "a", 100)).master.workers ==
      map[W := WorkerMeta("a", 100, 0, 2, 0, true)];
  }

  lemma PutsSecond(s: DistKv.Sys)
    requires s.master ==
      State(map[W := WorkerMeta("a", 100, 0, 2, 0, true)], map[FIRST := ObjectMeta(1, Writing, 0, 60, W, 1)])
    requires s.puts == map[(FIRST, 1) := DistKv.Put(0, Blank(60))]
    ensures var second := DistKv.PutStart(0, SECOND, Blank(60), None, Some(W), 1);
      && DistKv.Enabled(s, second) && DistKv.Apply(s, second).puts == s.puts[(SECOND, 1) := DistKv.Put(1, Blank(60))]
      && DistKv.Apply(s, second).master ==
           State(map[W := WorkerMeta("a", 100, 60, 2, 0, true)],
                 map[FIRST := ObjectMeta(1, Writing, 0, 60, W, 1), SECOND := ObjectMeta(1, Writing, 1, 60, W, 2)])
  {
    var m := DistKv.Apply(s, DistKv.PutStart(0, SECOND, Blank(60), None, Some(W), 1)).master;
    assert m.workers == map[W := WorkerMeta("a", 100, 60, 2, 0, true)];
    assert m.objects == map[FIRST := ObjectMeta(1, Writing, 0, 60, W, 1),
      SECOND := ObjectMeta(1, Writing, 1, 60, W, 2)];
  }

  lemma AgainRuns(s: DistKv.Sys)
    requires s.master == Sixty() && s.puts == map[(FIRST, 1) := DistKv.Put(0, Blank(60))]
    ensures DistKv.RunOk(s, AgainSteps())
    ensures DistKv.After(s, AgainSteps()).master == TwoEpochs()
    ensures DistKv.After(s, AgainSteps()).puts == s.puts[(SECOND, 1) := DistKv.Put(1, Blank(60))]
  {
    hide DistKv.RunOk, DistKv.After, DistKv.Enabled, DistKv.Apply;
    RegistersAgain(s);
    PutsSecond(DistKv.Apply(s, AgainSteps()[0]));
    DistKv.TwoSteps(s, AgainSteps()[0], AgainSteps()[1]);
  }

  lemma OverwriteReleases()
    ensures Released(TwoEpochs(), FIRST) ==
      TwoEpochs().(workers := map[W := WorkerMeta("a", 100, 0, 2, 0, true)])
  {
    assert Released(TwoEpochs(), FIRST).workers == map[W := WorkerMeta("a", 100, 0, 2, 0, true)];
  }

  lemma OverwritePlaces()
    ensures W in Released(TwoEpochs(), FIRST).workers
    ensures Placed(Released(TwoEpochs(), FIRST), FIRST, 100, W, 2) == Overwritten()
  {
    hide Released;
    OverwriteReleases();
    var m := Placed(Released(TwoEpochs(), FIRST), FIRST, 100, W, 2);
    assert m.workers == Overwritten().workers;
    assert m.objects == Overwritten().objects;
  }

  lemma OverwriteRuns(s: DistKv.Sys)
    requires s.master == TwoEpochs() && forall slot :: slot in s.puts ==> s.puts[slot].pid < 2
    ensures DistKv.Enabled(s, OverwriteStep()) && DistKv.Apply(s, OverwriteStep()).master == Overwritten()
  {
    hide Released, Placed, Overwritten;
    OverwriteReleases();
    OverwritePlaces();
  }

  /**
   Letting go of another epoch's reservation. The worker registers again, which forgets the first key's 60
   bytes, and a second key reserves 60. The account is exact, but overwriting the first key takes 60 off it,
   and a hundred bytes go in: in one step 160 bytes on a worker of 100.
   */
  lemma OldEpochReleaseOverbooks()
    ensures DistKv.RunOk(DistKv.INIT, SixtySteps() + AgainSteps())
    ensures DistKv.RunOk(DistKv.INIT, SixtySteps() + AgainSteps() + [OverwriteStep()])
    ensures var before := DistKv.After(DistKv.INIT, SixtySteps() + AgainSteps());
      before.master == TwoEpochs() && Within(before.master) && Exact(before.master) && Reserved(before.master, W) == 60
    ensures DistKv.After(DistKv.INIT, SixtySteps() + AgainSteps() + [OverwriteStep()]).master == Overwritten()
    ensures Reserved(Overwritten(), W) == 160 > Overwritten().workers[W].capacity
  {
    hide DistKv.RunOk, DistKv.After, DistKv.Enabled, DistKv.Apply, Within, Exact, Reserved;
    SixtyIsReachable();
    AgainRuns(DistKv.After(DistKv.INIT, SixtySteps()));
    DistKv.RunOfRun(DistKv.INIT, SixtySteps(), AgainSteps());
    var before := DistKv.After(DistKv.INIT, SixtySteps() + AgainSteps());
    OverwriteRuns(before);
    DistKv.OneStep(before, OverwriteStep());
    DistKv.RunOfRun(DistKv.INIT, SixtySteps() + AgainSteps(), [OverwriteStep()]);
    TwoEpochsIsExact();
    OverwrittenSum();
  }
}
