/**
 When a worker is used (src/distkv/master.rs:125-129): over every run, exactly from the moment the Master
 hears of it until ten seconds later, unless it is declared dead.
 */
module Liveness {
  import opened Basics
  import Capacity
  import Master
  import opened DistKv

  /** The step is a sign of life of worker `id` that the Master accepts, received at `t`. */
  ghost predicate Sign(m: Master.State, step: Step, id: Master.WorkerId, t: nat) {
    || (step.Register? && step.id == id && step.now == t)
    || (step.Heartbeat? && step.id == id && step.now == t && id in m.workers && m.workers[id].epoch == step.epoch)
  }

  /** From here on the Master accepts no sign of life of the worker, and nobody declares it dead. */
  ghost predicate Quiet(s: Sys, steps: seq<Step>, id: Master.WorkerId)
    requires RunOk(s, steps)
    decreases |steps|
  {
    steps == [] ||
    (&& (forall t :: !Sign(s.master, steps[0], id, t)) && steps[0] != MarkDead(id)
     && Quiet(Apply(s, steps[0]), steps[1..], id))
  }

  /** The Master last heard of the worker at `t`. */
  ghost predicate LastHeard(m: Master.State, id: Master.WorkerId, t: nat) {
    id in m.workers && m.workers[id].alive && m.workers[id].lastHeartbeat == t
  }

  lemma SignIsHeard(s: Sys, step: Step, id: Master.WorkerId, t: nat)
    requires Enabled(s, step) && Sign(s.master, step, id, t)
    ensures LastHeard(Apply(s, step).master, id, t)
  {
  }

  lemma QuietStep(s: Sys, step: Step, id: Master.WorkerId, t: nat)
    requires Enabled(s, step) && LastHeard(s.master, id, t)
    requires (forall u :: !Sign(s.master, step, id, u)) && step != MarkDead(id)
    ensures LastHeard(Apply(s, step).master, id, t)
  {
    assert step.Register? || step.Heartbeat? ==> !Sign(s.master, step, id, step.now);
  }

  lemma {:induction false} QuietRun(s: Sys, steps: seq<Step>, id: Master.WorkerId, t: nat)
    requires RunOk(s, steps) && LastHeard(s.master, id, t) && Quiet(s, steps, id)
    ensures LastHeard(After(s, steps).master, id, t)
    decreases |steps|
  {
    hide Enabled, Apply, LastHeard, Sign;
    if steps != [] {
      QuietStep(s, steps[0], id, t);
      QuietRun(Apply(s, steps[0]), steps[1..], id, t);
    }
  }

  /** A registration gives the worker its address and capacity until the next one. */
  ghost predicate Described(m: Master.State, sign: Step, id: Master.WorkerId) {
    sign.Register? ==> id in m.workers && m.workers[id].addr == sign.addr && m.workers[id].capacity == sign.capacity
  }

  lemma {:induction false} QuietDescribes(s: Sys, steps: seq<Step>, sign: Step, id: Master.WorkerId)
    requires RunOk(s, steps) && Described(s.master, sign, id) && Quiet(s, steps, id)
    ensures Described(After(s, steps).master, sign, id)
    decreases |steps|
  {
    hide Enabled, Apply, Sign, Described;
    if steps != [] {
      DescribedStep(s, steps[0], sign, id);
      QuietDescribes(Apply(s, steps[0]), steps[1..], sign, id);
    }
  }

  lemma DescribedStep(s: Sys, step: Step, sign: Step, id: Master.WorkerId)
    requires Enabled(s, step) && Described(s.master, sign, id) && forall u :: !Sign(s.master, step, id, u)
    ensures Described(Apply(s, step).master, sign, id)
  {
    assert step.Register? ==> !Sign(s.master, step, id, step.now);
  }

  lemma SignDescribes(s: Sys, step: Step, id: Master.WorkerId, t: nat)
    requires Enabled(s, step) && Sign(s.master, step, id, t)
    ensures Described(Apply(s, step).master, step, id)
  {
  }

  /** The key's object is committed, and its worker has not registered again since it was placed there. */
  ghost predicate Ready(m: Master.State, key: Master.Key, id: Master.WorkerId) {
    && key in m.objects && id in m.workers && m.objects[key].phase == Master.Complete
    && m.objects[key].worker == id && m.objects[key].workerEpoch == m.workers[id].epoch
  }

  /** What is used on the worker once the key's previous reservation is let go. */
  function StillUsed(m: Master.State, key: Master.Key, id: Master.WorkerId): nat
    requires id in m.workers
  {
    var w := m.workers[id];
    if key in m.objects && m.objects[key].worker == id then
      if m.objects[key].size <= w.used then w.used - m.objects[key].size else 0
    else w.used
  }

  /** The room on the worker then. */
  function Left(m: Master.State, key: Master.Key, id: Master.WorkerId): int
    requires id in m.workers
  {
    m.workers[id].capacity - StillUsed(m, key, id)
  }

  lemma FreeAfterRelease(m: Master.State, key: Master.Key, id: Master.WorkerId)
    requires id in m.workers && m.workers[id].used <= m.workers[id].capacity
    ensures id in Master.Released(m, key).workers && Master.Released(m, key).workers[id].Free() == Left(m, key, id)
  {
  }

  lemma RoomAfterRelease(m: Master.State, key: Master.Key, id: Master.WorkerId, t: nat, now: nat, size: nat)
    requires LastHeard(m, id, t) && m.workers[id].used <= m.workers[id].capacity
    ensures Master.HasRoom(Master.Released(m, key), now, size, id) <==>
      now <= t + 10_000 && StillUsed(m, key, id) + size <= m.workers[id].capacity
  {
  }

  lemma HeardRoutes(m: Master.State, key: Master.Key, id: Master.WorkerId, t: nat, now: nat)
    requires LastHeard(m, id, t) && Ready(m, key, id)
    ensures Master.GetRoute(m, now, key) ==
      if now <= t + 10_000 then Some(Master.Route(key, id, m.workers[id].addr, m.objects[key].generation)) else None
  {
  }

  /**
   A worker is used exactly while it was heard of in the last ten seconds. Over every run, if the Master's last
   accepted sign of life of a worker came at `t` and it was not declared dead since, then at every `now` its
   committed objects are routed to if and only if `now <= t + 10_000`; and a `put_start` that prefers it is
   placed on it if and only if moreover the bytes fit beside what is still used. One that is placed elsewhere
   for want of a preference is then not refused, and goes where there is no less room.
   */
  lemma HeardIsUsed(before: seq<Step>, sign: Step, since: seq<Step>, id: Master.WorkerId, t: nat, now: nat,
                    key: Master.Key, put: Step)
    requires RunOk(INIT, before) && Enabled(After(INIT, before), sign) && Sign(After(INIT, before).master, sign, id, t)
    requires var heard := Apply(After(INIT, before), sign); RunOk(heard, since) && Quiet(heard, since, id)
    requires put.PutStart? && put.now == now && put.key == key
    requires Enabled(After(Apply(After(INIT, before), sign), since), put)
    ensures var m := After(Apply(After(INIT, before), sign), since).master;
      && id in m.workers
      && (sign.Register? ==> m.workers[id].addr == sign.addr && m.workers[id].capacity == sign.capacity)
      && (Ready(m, key, id) ==>
            Master.GetRoute(m, now, key) ==
              if now <= t + 10_000 then Some(Master.Route(key, id, m.workers[id].addr, m.objects[key].generation))
                else None)
      && (put.preferred == Some(id) ==>
            (put.choice == Some(id) <==>
               now <= t + 10_000 && StillUsed(m, key, id) + |put.bytes| <= m.workers[id].capacity))
      && (now <= t + 10_000 && StillUsed(m, key, id) + |put.bytes| <= m.workers[id].capacity ==>
            && put.choice.Some? && put.choice.value in m.workers
            && (put.choice == put.preferred || Left(m, key, id) <= Left(m, key, put.choice.value)))
  {
    hide Apply, RunOk, After, Quiet, LastHeard, StillUsed, Master.HasRoom, Master.Released, Master.GetRoute, Ready;
    var s := After(INIT, before);
    SignIsHeard(s, sign, id, t);
    QuietRun(Apply(s, sign), since, id, t);
    SignDescribes(s, sign, id, t);
    QuietDescribes(Apply(s, sign), since, sign, id);
    var m := After(Apply(s, sign), since).master;
    WholeRun(before, sign, since);
    HeardIsKnown(m, id, t);
    Capacity.CapacityIsAccounted(before + ([sign] + since), id);
    RoomAfterRelease(m, key, id, t, now, |put.bytes|);
    if put.choice.Some? {
      ChosenIsRoomy(m, now, key, |put.bytes|, put.preferred, put.choice.value);
      Capacity.CapacityIsAccounted(before + ([sign] + since), put.choice.value);
      FreeAfterRelease(m, key, id);
      FreeAfterRelease(m, key, put.choice.value);
    }
    FreeAfterRelease(m, key, id);
    if Ready(m, key, id) {
      HeardRoutes(m, key, id, t, now);
    }
  }

  lemma HeardIsKnown(m: Master.State, id: Master.WorkerId, t: nat)
    requires LastHeard(m, id, t)
    ensures id in m.workers
  {
  }

  lemma ChosenIsRoomy(m: Master.State, now: nat, key: Master.Key, size: nat, preferred: Option<Master.WorkerId>,
                      id: Master.WorkerId)
    requires Master.CanChoose(Master.Released(m, key), now, size, preferred, id)
    ensures id in m.workers
    ensures preferred != Some(id) ==> forall x :: Master.HasRoom(Master.Released(m, key), now, size, x) ==>
      Master.Released(m, key).workers[x].Free() <= Master.Released(m, key).workers[id].Free()
  {
  }

  lemma WholeRun(before: seq<Step>, sign: Step, since: seq<Step>)
    requires RunOk(INIT, before) && Enabled(After(INIT, before), sign) && RunOk(Apply(After(INIT, before), sign), since)
    ensures RunOk(INIT, before + ([sign] + since))
    ensures After(INIT, before + ([sign] + since)) == After(Apply(After(INIT, before), sign), since)
  {
    hide Enabled, Apply;
    var s, rest := After(INIT, before), [sign] + since;
    assert rest[0] == sign && rest[1..] == since;
    RunOfRun(INIT, before, rest);
  }

  /** A worker declared dead is not used from then on, whatever the clocks read, until it is heard of again. */
  lemma DeclaredIsNotUsed(before: seq<Step>, since: seq<Step>, id: Master.WorkerId, now: nat, key: Master.Key,
                          size: nat)
    requires RunOk(INIT, before) && RunOk(Apply(After(INIT, before), MarkDead(id)), since)
    requires forall i :: 0 <= i < |since| ==> !Heard(id, since[i])
    ensures var m := After(Apply(After(INIT, before), MarkDead(id)), since).master;
      && (Master.GetRoute(m, now, key).Some? ==> Master.GetRoute(m, now, key).value.worker != id)
      && !Master.HasRoom(m, now, size, id)
  {
    hide RunOk, After;
    var s := Apply(After(INIT, before), MarkDead(id));
    if id in s.master.workers {
      SilentIsNotUsed(s, since, id, now, key, size);
    } else {
      UnknownIsNotUsed(s, since, id, now, key, size);
    }
  }

  lemma {:induction false} UnknownIsNotUsed(s: Sys, steps: seq<Step>, id: Master.WorkerId, now: nat, key: Master.Key,
                                            size: nat)
    requires RunOk(s, steps) && id !in s.master.workers && forall i :: 0 <= i < |steps| ==> !Heard(id, steps[i])
    ensures var m := After(s, steps).master;
      && (Master.GetRoute(m, now, key).Some? ==> Master.GetRoute(m, now, key).value.worker != id)
      && !Master.HasRoom(m, now, size, id)
    decreases |steps|
  {
    hide Enabled, Apply;
    if steps != [] {
      StaysUnknown(s, steps[0], id);
      UnknownIsNotUsed(Apply(s, steps[0]), steps[1..], id, now, key, size);
    }
  }

  lemma StaysUnknown(s: Sys, step: Step, id: Master.WorkerId)
    requires Enabled(s, step) && id !in s.master.workers && !Heard(id, step)
    ensures id !in Apply(s, step).master.workers
  {
  }
}
