/** What the outside world saw of a run is read off its steps alone: which requests departed, and what they cost. */
module SharedSpending {
  import opened Basics
  import opened SharedLedger
  import opened SharedRuns

  datatype Departure = Departure(key: Key, cost: real)

  function CostOf(d: Departure): real {
    d.cost
  }


  /** In this step a reserved request was marked as wired and saved so, and it left the host. */
  predicate Departs(w: World, event: Event, w': World) {
    && event.Do? && event.op.Wire? && event.trueCost.Some? && event.fault != SaveFails
    && w.memory.Some? && w'.memory.Some? && w'.memory.value.wires > w.memory.value.wires
    && HasActive(w.memory.value)
  }

  function DepartureOf(w: World, event: Event, w': World): Departure
    requires Departs(w, event, w')
  {
    Departure(w.memory.value.entries[w.memory.value.active.value - 1].key, event.trueCost.value)
  }

  function After(before: seq<Departure>, w: World, event: Event, w': World): seq<Departure> {
    if Departs(w, event, w') then before + [DepartureOf(w, event, w')] else before
  }

  function Departures(worlds: seq<World>, events: seq<Event>, i: nat): seq<Departure>
    requires i <= |events| < |worlds|
  {
    if i == 0 then [] else After(Departures(worlds, events, i - 1), worlds[i - 1], events[i - 1], worlds[i])
  }

  lemma {:induction false} TotalOfNothing(n: nat)
    ensures Total(Same, seq(n, i => 0.0)) == 0.0
  {
    if n > 0 {
      TotalOfNothing(n - 1);
      assert seq(n, i => 0.0) == seq(n - 1, i => 0.0) + [0.0];
    }
  }

  lemma {:induction false} ExtendedTotal(bill: seq<real>, n: nat)
    ensures Total(Same, Extended(bill, n)) == Total(Same, bill)
  {
    if |bill| <= n {
      TotalOfNothing(n - |bill|);
      assert Extended(bill, n) == bill + seq(n - |bill|, i => 0.0);
      TotalConcat(Same, bill, seq(n - |bill|, i => 0.0));
    } else {
      assert Extended(bill, n) == bill;
    }
  }

  lemma {:induction false} BillTotals(bill: seq<real>, op: Op, a: Attempted, trueCost: Option<real>)
    ensures !LeavesHost(op, a, trueCost) ==> Total(Same, BillAfter(bill, op, a, trueCost)) == Total(Same, bill)
    ensures var n := |a.effect.ledger.entries|;
            LeavesHost(op, a, trueCost) && 0 < n && |bill| <= n && Extended(bill, n)[n - 1] == 0.0 ==>
              Total(Same, BillAfter(bill, op, a, trueCost)) == Total(Same, bill) + trueCost.value
  {
    var n := |a.effect.ledger.entries|;
    ExtendedTotal(bill, n);
    if LeavesHost(op, a, trueCost) && 0 < n && |bill| <= n {
      TotalReplaceLast(Same, Extended(bill, n), trueCost.value);
    }
  }

  /** The wire hook, seen from outside. */
  lemma WireSeen(allowed: Approved, op: Op, fault: Fault, files: Files, l: Ledger, bill: seq<real>, a: Attempted)
    requires Sound(allowed, files, l) && Billed(l, bill) && a == Attempt(allowed, op, fault, files, l) && op.Wire?
    ensures a.saved && a.effect.outcome.Done? <==> a.effect.ledger.wires > l.wires && fault != SaveFails && HasActive(l)
    ensures a.saved ==>
              && HasActive(l) && a.effect.ledger.entries != [] && Last(a.effect.ledger).key == ActiveRow(l).key
              && |bill| <= |a.effect.ledger.entries|
              && Extended(bill, |a.effect.ledger.entries|)[|a.effect.ledger.entries| - 1] == 0.0
  {
    if HasActive(l) {
      ActiveIsLast(allowed, files, l);
      PerformKeepsLast(allowed, op, files, l);
    }
  }

  ghost predicate Told(w: World, departures: seq<Departure>) {
    && |w.sent| == |departures|
    && (forall k :: 0 <= k < |departures| ==> w.sent[k] == departures[k].key)
    && Total(Same, w.bill) == Total(CostOf, departures)
  }

  lemma DoIs(allowed: Approved, w: World, op: Op, fault: Fault, trueCost: Option<real>, w': World, a: Attempted)
    requires Next(allowed, w, Do(op, fault, trueCost), w')
    requires a == Attempt(allowed, op, fault, w.files, w.memory.value)
    ensures w'.bill == BillAfter(w.bill, op, a, trueCost) && w'.sent == SentAfter(w.sent, op, a, trueCost)
            && w'.memory == Some(a.effect.ledger)
  {
  }

  lemma MoreTold(w: World, before: seq<Departure>, d: Departure, w': World)
    requires Told(w, before) && w'.sent == w.sent + [d.key] && Total(Same, w'.bill) == Total(Same, w.bill) + d.cost
    ensures Told(w', before + [d])
  {
    TotalAppend(CostOf, before, d);
  }

  lemma WireTold(allowed: Approved, w: World, op: Op, fault: Fault, trueCost: Option<real>, w': World,
                 before: seq<Departure>, a: Attempted)
    requires w.memory.Some? && Sound(allowed, w.files, w.memory.value) && Billed(w.memory.value, w.bill) && op.Wire?
    requires a == Attempt(allowed, op, fault, w.files, w.memory.value) && Told(w, before)
    requires w'.bill == BillAfter(w.bill, op, a, trueCost) && w'.sent == SentAfter(w.sent, op, a, trueCost)
             && w'.memory == Some(a.effect.ledger)
    ensures Told(w', After(before, w, Do(op, fault, trueCost), w'))
  {
    WireSeen(allowed, op, fault, w.files, w.memory.value, w.bill, a);
    BillTotals(w.bill, op, a, trueCost);
    if LeavesHost(op, a, trueCost) {
      MoreTold(w, before, DepartureOf(w, Do(op, fault, trueCost), w'), w');
    }
  }

  lemma DoTold(allowed: Approved, w: World, op: Op, fault: Fault, trueCost: Option<real>, w': World,
               before: seq<Departure>)
    requires w.memory.Some? && Sound(allowed, w.files, w.memory.value) && Billed(w.memory.value, w.bill)
    requires Next(allowed, w, Do(op, fault, trueCost), w') && Told(w, before)
    ensures Told(w', After(before, w, Do(op, fault, trueCost), w'))
  {
    var a := Attempt(allowed, op, fault, w.files, w.memory.value);
    DoIs(allowed, w, op, fault, trueCost, w', a);
    if op.Wire? {
      WireTold(allowed, w, op, fault, trueCost, w', before, a);
    } else {
      BillTotals(w.bill, op, a, trueCost);
    }
  }

  lemma StepTold(allowed: Approved, w: World, event: Event, w': World, before: seq<Departure>)
    requires Inv(allowed, w) && Next(allowed, w, event, w') && Told(w, before)
    ensures Told(w', After(before, w, event, w'))
  {
    if event.Do? {
      DoTold(allowed, w, event.op, event.fault, event.trueCost, w', before);
    }
  }

  lemma RunTold(allowed: Approved, worlds: seq<World>, events: seq<Event>, i: nat, before: seq<Departure>)
    requires Run(allowed, worlds, events) && 0 < i < |worlds| && Told(worlds[i - 1], before)
    ensures Told(worlds[i], After(before, worlds[i - 1], events[i - 1], worlds[i]))
  {
    RunKeepsInv(allowed, worlds, events, i - 1);
    StepTold(allowed, worlds[i - 1], events[i - 1], worlds[i], before);
  }

  lemma {:induction false} DeparturesTold(allowed: Approved, worlds: seq<World>, events: seq<Event>, i: nat)
    requires Run(allowed, worlds, events) && i < |worlds|
    ensures Told(worlds[i], Departures(worlds, events, i))
  {
    if i > 0 {
      DeparturesTold(allowed, worlds, events, i - 1);
      RunTold(allowed, worlds, events, i, Departures(worlds, events, i - 1));
    }
  }

  /**
   At every moment of a run the requests sent are those that departed, in that order, and the bill adds up to what they
   cost.
   */
  lemma {:induction false} BillIsSpent(allowed: Approved, worlds: seq<World>, events: seq<Event>, i: nat)
    requires Run(allowed, worlds, events) && i < |worlds|
    ensures var departures := Departures(worlds, events, i);
            && |worlds[i].sent| == |departures|
            && (forall k :: 0 <= k < |departures| ==> worlds[i].sent[k] == departures[k].key)
            && Total(Same, worlds[i].bill) == Total(CostOf, departures)
  {
    DeparturesTold(allowed, worlds, events, i);
  }
}

/** The older budget likewise; its runs only count the requests that left. */
module DurableSpending {
  import opened Basics
  import opened DurableLedger
  import opened DurableRuns
  import S = SharedSpending

  /** In this step a reserved request was marked as wired and saved so. */
  predicate Departs(w: World, event: Event, w': World) {
    && event.Do? && event.op.Wire? && !event.saveFails
    && w.memory.Some? && w'.memory.Some? && w'.memory.value.wires > w.memory.value.wires
  }

  function After(before: seq<real>, w: World, event: Event, w': World): seq<real> {
    if Departs(w, event, w') then before + [event.trueCost] else before
  }

  /** What each request that departed cost. */
  function Departures(worlds: seq<World>, events: seq<Event>, i: nat): seq<real>
    requires i <= |events| < |worlds|
  {
    if i == 0 then [] else After(Departures(worlds, events, i - 1), worlds[i - 1], events[i - 1], worlds[i])
  }

  lemma {:induction false} ExtendedTotal(bill: seq<real>, n: nat)
    requires |bill| <= n
    ensures Total(Same, Extended(bill, n)) == Total(Same, bill)
  {
    S.TotalOfNothing(n - |bill|);
    assert Extended(bill, n) == bill + seq(n - |bill|, i => 0.0);
    TotalConcat(Same, bill, seq(n - |bill|, i => 0.0));
  }

  lemma {:induction false} BillTotals(bill: seq<real>, op: Op, a: Attempted, trueCost: real)
    ensures !Leaves(op, a) ==> Total(Same, BillAfter(bill, op, a, trueCost)) == Total(Same, bill)
    ensures var n := |a.effect.ledger.entries|;
            Leaves(op, a) && 0 < n && |bill| <= n && Extended(bill, n)[n - 1] == 0.0 ==>
              Total(Same, BillAfter(bill, op, a, trueCost)) == Total(Same, bill) + trueCost
  {
    var n := |a.effect.ledger.entries|;
    if |bill| <= n {
      ExtendedTotal(bill, n);
      if Leaves(op, a) && 0 < n {
        TotalReplaceLast(Same, Extended(bill, n), trueCost);
      }
    }
  }

  /** The wire hook, seen from outside. */
  lemma WireSeen(limits: Limits, op: Op, saveFails: bool, l: Ledger, bill: seq<real>, a: Attempted)
    requires Sound(limits, l) && Billed(l, bill) && a == Attempt(limits, op, saveFails, l) && op.Wire?
    ensures a.saved <==> a.effect.ledger.wires > l.wires && !saveFails
    ensures a.saved ==>
              && a.effect.ledger.entries != [] && |bill| <= |a.effect.ledger.entries|
              && Extended(bill, |a.effect.ledger.entries|)[|a.effect.ledger.entries| - 1] == 0.0
  {
    WiresOnlyGrow(limits, op, l);
    if l.entries != [] {
      PerformKeepsLast(limits, op, l);
    }
  }

  ghost predicate Told(w: World, departures: seq<real>) {
    w.sent == |departures| && Total(Same, w.bill) == Total(Same, departures)
  }

  lemma DoIs(limits: Limits, w: World, op: Op, saveFails: bool, trueCost: real, w': World, a: Attempted)
    requires Next(limits, w, Do(op, saveFails, trueCost), w')
    requires a == Attempt(limits, op, saveFails, w.memory.value)
    ensures w'.bill == BillAfter(w.bill, op, a, trueCost) && w'.sent == w.sent + (if Leaves(op, a) then 1 else 0)
            && w'.memory == Some(a.effect.ledger)
  {
  }

  lemma DoTold(limits: Limits, w: World, op: Op, saveFails: bool, trueCost: real, w': World, before: seq<real>)
    requires w.memory.Some? && Sound(limits, w.memory.value) && Billed(w.memory.value, w.bill)
    requires Next(limits, w, Do(op, saveFails, trueCost), w') && Told(w, before)
    ensures Told(w', After(before, w, Do(op, saveFails, trueCost), w'))
  {
    var a := Attempt(limits, op, saveFails, w.memory.value);
    DoIs(limits, w, op, saveFails, trueCost, w', a);
    BillTotals(w.bill, op, a, trueCost);
    if op.Wire? {
      WireSeen(limits, op, saveFails, w.memory.value, w.bill, a);
      TotalAppend(Same, before, trueCost);
    }
  }

  lemma StepTold(limits: Limits, w: World, event: Event, w': World, before: seq<real>)
    requires Inv(limits, w) && Next(limits, w, event, w') && Told(w, before)
    ensures Told(w', After(before, w, event, w'))
  {
    if event.Do? {
      DoTold(limits, w, event.op, event.saveFails, event.trueCost, w', before);
    }
  }

  lemma RunTold(limits: Limits, worlds: seq<World>, events: seq<Event>, i: nat, before: seq<real>)
    requires Run(limits, worlds, events) && 0 < i < |worlds| && Told(worlds[i - 1], before)
    ensures Told(worlds[i], After(before, worlds[i - 1], events[i - 1], worlds[i]))
  {
    RunKeepsInv(limits, worlds, events, i - 1);
    StepTold(limits, worlds[i - 1], events[i - 1], worlds[i], before);
  }

  /** At every moment of a run as many requests were sent as departed, and the bill adds up to what those cost. */
  lemma {:induction false} BillIsSpent(limits: Limits, worlds: seq<World>, events: seq<Event>, i: nat)
    requires Run(limits, worlds, events) && i < |worlds|
    ensures worlds[i].sent == |Departures(worlds, events, i)|
    ensures Total(Same, worlds[i].bill) == Total(Same, Departures(worlds, events, i))
  {
    if i > 0 {
      BillIsSpent(limits, worlds, events, i - 1);
      RunTold(limits, worlds, events, i, Departures(worlds, events, i - 1));
    }
  }
}
