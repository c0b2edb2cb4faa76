/**
 What a route is good for, and what a loss means: a route that was handed out can be followed, and indexed, at
 any later time while the bytes are there; bytes that were evicted or lost are missed by every reader until
 they are written again.
 */
module RouteLife {
  import opened Basics
  import Master
  import opened Worker
  import opened DistKv
  import opened ReadBack

  lemma {:induction false} RoutesStay(s: Sys, steps: seq<Step>)
    requires RunOk(s, steps)
    ensures s.routes <= After(s, steps).routes
    decreases |steps|
  {
    hide Enabled, Apply;
    if steps != [] {
      RoutesGrow(s, steps[0]);
      RoutesStay(Apply(s, steps[0]), steps[1..]);
    }
  }

  lemma RoutesGrow(s: Sys, step: Step)
    requires Enabled(s, step)
    ensures s.routes <= Apply(s, step).routes
  {
  }

  lemma RouteIsOfPut(s: Sys, now: nat, key: Master.Key)
    requires Inv(s) && Master.GetRoute(s.master, now, key).Some?
    ensures var r := Master.GetRoute(s.master, now, key).value; r.key == key && SlotOf(r) in s.puts
  {
    assert Recorded(s, key);
  }

  lemma StoredIsWritten(s: Sys, slot: Slot, addr: Master.Addr)
    requires Inv(s) && Stored(s, slot, addr) && slot in s.puts
    ensures s.stores[addr].objects[slot] == s.puts[slot].bytes
  {
  }

  /**
   A route serves later. Over every run, once the Master has answered with a route, then as long as the bytes it
   leads to are neither evicted nor lost, whatever newer put, re-registration or death comes in between, a fetch
   along it returns them, and an engine next to the worker that marks it in its index reads them without the Master.
   */
  lemma RouteServesLater(before: seq<Step>, now: nat, key: Master.Key, since: seq<Step>)
    requires RunOk(INIT, before) && Master.GetRoute(After(INIT, before).master, now, key).Some?
    requires var s, r := After(INIT, before), Master.GetRoute(After(INIT, before).master, now, key).value;
      && Stored(s, SlotOf(r), r.addr) && RunOk(Apply(s, GetRoute(now, key)), since)
      && NeverDrops(SlotOf(r), r.addr, since)
    ensures var r := Master.GetRoute(After(INIT, before).master, now, key).value;
      var s := After(Apply(After(INIT, before), GetRoute(now, key)), since);
      && r.key == key && SlotOf(r) in s.puts && r in s.routes
      && Fetch(s, r.addr, r) == Some(s.puts[SlotOf(r)].bytes)
      && (r.addr in s.indexes ==>
            && Enabled(s, IndexRoute(r.addr, r))
            && LocalRead(Apply(s, IndexRoute(r.addr, r)), r.addr, key) == Some(s.puts[SlotOf(r)].bytes))
  {
    hide Inv, RunOk, After, Master.GetRoute, NeverDrops;
    var s, r := After(INIT, before), Master.GetRoute(After(INIT, before).master, now, key).value;
    EmptySystem();
    RunKeepsInv(INIT, before);
    RouteIsOfPut(s, now, key);
    var given := Apply(s, GetRoute(now, key));
    StepKeepsInv(s, GetRoute(now, key));
    StoredRun(given, SlotOf(r), r.addr, since);
    RunKeepsPuts(given, since, SlotOf(r));
    RoutesStay(given, since);
    StoredIsWritten(After(given, since), SlotOf(r), r.addr);
  }

  // ------------------------------------------------------------------ losses

  /** No worker at this address holds this generation. */
  predicate Gone(s: Sys, slot: Slot, addr: Master.Addr) {
    addr in s.stores ==> slot !in s.stores[addr].objects
  }

  lemma GoneStep(s: Sys, slot: Slot, addr: Master.Addr, step: Step)
    requires Gone(s, slot, addr) && Enabled(s, step) && step != Write(slot, addr)
    ensures Gone(Apply(s, step), slot, addr)
  {
  }

  lemma {:induction false} GoneRun(s: Sys, slot: Slot, addr: Master.Addr, steps: seq<Step>)
    requires Gone(s, slot, addr) && RunOk(s, steps) && Write(slot, addr) !in steps
    ensures Gone(After(s, steps), slot, addr)
    decreases |steps|
  {
    hide Gone, Enabled, Apply;
    if steps != [] {
      GoneStep(s, slot, addr, steps[0]);
      GoneRun(Apply(s, steps[0]), slot, addr, steps[1..]);
    }
  }

  lemma DropsAreLosses(s: Sys, slot: Slot, addr: Master.Addr, loss: Step)
    requires Enabled(s, loss) && Drops(slot, addr, loss)
    ensures Gone(Apply(s, loss), slot, addr)
  {
  }

  /** What is evicted or lost is missed by every fetch and local read of that generation until it is written again. */
  lemma LossIsMissed(s: Sys, slot: Slot, addr: Master.Addr, loss: Step, since: seq<Step>)
    requires Enabled(s, loss) && Drops(slot, addr, loss)
    requires RunOk(Apply(s, loss), since) && Write(slot, addr) !in since
    ensures var s' := After(Apply(s, loss), since);
      && (forall r: Master.Route :: SlotOf(r) == slot ==> Fetch(s', addr, r) == None)
      && (Indexed(s', slot, addr) ==> LocalRead(s', addr, slot.0) == None)
  {
    hide Enabled, Apply;
    DropsAreLosses(s, slot, addr, loss);
    GoneRun(Apply(s, loss), slot, addr, since);
  }
}
