/**
 Whole runs of the older budget: processes open or resume it, perform operations whose saves may fail while they go
 on, and
 may die at any point.
 */
module DurableRuns {
  import opened Basics
  import opened DurableLedger

  /**
   As for the shared ledger: saved and held ledgers, the true cost of each saved request, and how many requests left.
   */
  datatype World = World(disk: Option<Ledger>, torn: bool, memory: Option<Ledger>, bill: seq<real>, sent: nat)

  const INITIAL := World(None, false, None, [], 0)

  datatype Event = Open | OpenFails(torn: bool) | Close | Do(op: Op, saveFails: bool, trueCost: real)

  /** A request leaves the host once its wire is saved. */
  predicate Leaves(op: Op, a: Attempted) {
    op.Wire? && a.saved
  }

  function BillAfter(bill: seq<real>, op: Op, a: Attempted, trueCost: real): seq<real> {
    var n := |a.effect.ledger.entries|;
    if !a.saved || n < |bill| then bill
    else if Leaves(op, a) && 0 < n then Extended(bill, n)[n - 1 := trueCost]
    else Extended(bill, n)
  }

  /** Requests not yet saved have cost nothing. */
  function Extended(bill: seq<real>, n: nat): (r: seq<real>)
    requires |bill| <= n
    ensures |r| == n && forall i :: 0 <= i < n ==> r[i] == if i < |bill| then bill[i] else 0.0
  {
    seq(n, i requires 0 <= i < n => if i < |bill| then bill[i] else 0.0)
  }

  predicate ProviderHonest(bill: seq<real>, op: Op, a: Attempted, trueCost: real) {
    var l := a.effect.ledger;
    && (Leaves(op, a) && l.entries != [] ==> 0.0 <= trueCost <= Last(l).reserved)
    && (op.Settle? && l.entries != [] && |bill| == |l.entries| ==> bill[|bill| - 1] <= Charge(Last(l)))
  }

  ghost predicate Next(limits: Limits, w: World, event: Event, w': World) {
    match event
    case Open =>
      && w.memory.None?
      && if w.torn then w' == w
         else if w.disk.None? then w' == w.(disk := Some(FRESH), memory := Some(FRESH))
         else if Resumable(limits, w.disk.value) then w' == w.(memory := w.disk)
         else w' == w
    case OpenFails(torn) => w.memory.None? && w' == w.(torn := w.torn || (torn && w.disk.None?))
    case Close => w' == w.(memory := None)
    case Do(op, saveFails, trueCost) =>
      && w.memory.Some?
      && var a := Attempt(limits, op, saveFails, w.memory.value);
         && ProviderHonest(w.bill, op, a, trueCost)
         && w' == World(if a.saved then Some(a.effect.ledger) else w.disk, w.torn, Some(a.effect.ledger),
                        BillAfter(w.bill, op, a, trueCost), w.sent + if Leaves(op, a) then 1 else 0)
  }

  ghost predicate Run(limits: Limits, worlds: seq<World>, events: seq<Event>) {
    && ValidLimits(limits)
    && |worlds| == |events| + 1
    && worlds[0] == INITIAL
    && forall i :: 0 <= i < |events| ==> Next(limits, worlds[i], events[i], worlds[i + 1])
  }

  // ----- Invariant

  predicate Billed(l: Ledger, bill: seq<real>) {
    && |bill| <= |l.entries|
    && forall i :: 0 <= i < |bill| ==> bill[i] <= Charge(l.entries[i]) && (!l.entries[i].wire ==> bill[i] == 0.0)
  }

  /** A failure that was saved is in memory too, and nothing was reserved since. */
  predicate FailedAlike(disk: Ledger, memory: Ledger) {
    disk.failure.Some? ==>
      memory.failure.Some? && memory.requests == disk.requests && |memory.entries| == |disk.entries|
  }

  ghost predicate Inv(limits: Limits, w: World) {
    && (w.disk.None? ==> w.bill == [] && w.sent == 0 && w.memory.None?)
    && (w.disk.Some? ==>
          && Sound(limits, w.disk.value) && Billed(w.disk.value, w.bill) && |w.bill| == |w.disk.value.entries|
          && w.sent <= w.disk.value.wires)
    && (w.memory.Some? ==>
          && w.disk.Some? && Sound(limits, w.memory.value) && Billed(w.memory.value, w.bill)
          && w.sent <= w.memory.value.wires && FailedAlike(w.disk.value, w.memory.value))
  }

  lemma ChargesNonNegative(limits: Limits, l: Ledger)
    requires Sound(limits, l)
    ensures forall i :: 0 <= i < |l.entries| ==> Charge(l.entries[i]) >= 0.0
  {
    forall i | 0 <= i < |l.entries| ensures Charge(l.entries[i]) >= 0.0 {
      assert RowSound(l.entries[i], i + 1);
    }
  }

  /** The rows before the last stay as they are, and there is at most one more. */
  predicate FrontKept(l: Ledger, l': Ledger) {
    && |l.entries| <= |l'.entries| <= |l.entries| + 1
    && (forall i :: 0 <= i < |l.entries| - 1 ==> l'.entries[i] == l.entries[i])
    && (|l'.entries| > |l.entries| ==> l'.entries == l.entries + [Last(l')])
  }

  lemma PerformKeepsFront(limits: Limits, op: Op, l: Ledger)
    requires Sound(limits, l)
    ensures FrontKept(l, Perform(limits, op, l).ledger)
    ensures |Perform(limits, op, l).ledger.entries| > |l.entries| ==> op.Reserve?
    ensures op.Reserve? ==> Perform(limits, op, l).ledger.entries[..|l.entries|] == l.entries
  {
  }

  lemma PerformKeepsLast(limits: Limits, op: Op, l: Ledger)
    requires Sound(limits, l) && l.entries != [] && !op.Reserve?
    ensures var e := Perform(limits, op, l);
            var before, after := Last(l), Last(e.ledger);
            && |e.ledger.entries| == |l.entries|
            && (!op.Settle? ==> Charge(after) == Charge(before))
            && (Charge(after) != Charge(before) ==> before.wire)
            && (op.Wire? && e.outcome.Done? ==>
                 !before.wire && after.wire && Charge(after) == after.reserved && e.ledger.wires == l.wires + 1)
            && (!(op.Wire? && e.outcome.Done?) ==> after.wire == before.wire && e.ledger.wires == l.wires)
  {
  }

  lemma WiresOnlyGrow(limits: Limits, op: Op, l: Ledger)
    requires Sound(limits, l)
    ensures var e := Perform(limits, op, l);
            e.ledger.wires == l.wires + if op.Wire? && e.outcome.Done? then 1 else 0
    ensures op.Wire? && Perform(limits, op, l).outcome.Done? ==> l.entries != []
  {
  }

  lemma PerformKeepsBilled(limits: Limits, op: Op, l: Ledger, bill: seq<real>)
    requires Sound(limits, l) && Billed(l, bill)
    requires var l' := Perform(limits, op, l).ledger;
             op.Settle? && l'.entries != [] && |bill| == |l'.entries| ==> bill[|bill| - 1] <= Charge(Last(l'))
    ensures Billed(Perform(limits, op, l).ledger, bill)
  {
    var l' := Perform(limits, op, l).ledger;
    PerformKeepsFront(limits, op, l);
    if l.entries != [] && !op.Reserve? {
      PerformKeepsLast(limits, op, l);
    }
    forall i | 0 <= i < |bill| ensures bill[i] <= Charge(l'.entries[i]) && (!l'.entries[i].wire ==> bill[i] == 0.0) {
      if op.Reserve? {
        assert l'.entries[i] == l'.entries[..|l.entries|][i];
      } else if i < |l.entries| - 1 {
        assert l'.entries[i] == l.entries[i];
      }
    }
  }

  lemma SavedBilled(limits: Limits, op: Op, l: Ledger, bill: seq<real>, a: Attempted, trueCost: real)
    requires Sound(limits, l) && a == Attempted(Perform(limits, op, l), true) && Perform(limits, op, l).outcome.Done?
    requires Sound(limits, a.effect.ledger) && Billed(a.effect.ledger, bill) && ProviderHonest(bill, op, a, trueCost)
    ensures var bill' := BillAfter(bill, op, a, trueCost);
            Billed(a.effect.ledger, bill') && |bill'| == |a.effect.ledger.entries|
  {
    ChargesNonNegative(limits, a.effect.ledger);
    if Leaves(op, a) {
      WiresOnlyGrow(limits, op, l);
      PerformKeepsLast(limits, op, l);
    }
  }

  lemma FailedPerform(limits: Limits, op: Op, l: Ledger)
    requires l.failure.Some?
    ensures var l' := Perform(limits, op, l).ledger;
            l'.failure.Some? && l'.requests == l.requests && |l'.entries| == |l.entries|
  {
  }

  lemma AttemptInMemory(limits: Limits, w: World, op: Op, saveFails: bool, a: Attempted, trueCost: real)
    requires Inv(limits, w) && ValidLimits(limits) && w.memory.Some?
    requires a == Attempt(limits, op, saveFails, w.memory.value) && ProviderHonest(w.bill, op, a, trueCost)
    ensures Sound(limits, a.effect.ledger) && Billed(a.effect.ledger, w.bill)
    ensures FailedAlike(w.disk.value, a.effect.ledger)
    ensures a.effect.ledger.wires == w.memory.value.wires
            + if op.Wire? && Perform(limits, op, w.memory.value).outcome.Done? then 1 else 0
  {
    var l := w.memory.value;
    PerformSound(limits, op, l);
    PerformKeepsBilled(limits, op, l, w.bill);
    WiresOnlyGrow(limits, op, l);
    if l.failure.Some? {
      FailedPerform(limits, op, l);
    }
  }

  lemma DoKeepsInv(limits: Limits, w: World, op: Op, saveFails: bool, trueCost: real, w': World)
    requires Inv(limits, w) && ValidLimits(limits) && Next(limits, w, Do(op, saveFails, trueCost), w')
    ensures Inv(limits, w')
  {
    var a := Attempt(limits, op, saveFails, w.memory.value);
    AttemptInMemory(limits, w, op, saveFails, a, trueCost);
    if a.saved {
      SavedBilled(limits, op, w.memory.value, w.bill, a, trueCost);
    }
  }

  lemma FreshSound(limits: Limits)
    ensures Sound(limits, FRESH)
  {
  }

  lemma StepKeepsInv(limits: Limits, w: World, event: Event, w': World)
    requires Inv(limits, w) && ValidLimits(limits) && Next(limits, w, event, w')
    ensures Inv(limits, w')
  {
    match event
    case Open => FreshSound(limits);
    case OpenFails(_) =>
    case Close =>
    case Do(op, saveFails, trueCost) => DoKeepsInv(limits, w, op, saveFails, trueCost, w');
  }

  lemma {:induction false} RunKeepsInv(limits: Limits, worlds: seq<World>, events: seq<Event>, i: nat)
    requires Run(limits, worlds, events) && i < |worlds|
    ensures Inv(limits, worlds[i])
  {
    if i > 0 {
      RunKeepsInv(limits, worlds, events, i - 1);
      StepKeepsInv(limits, worlds[i - 1], events[i - 1], worlds[i]);
    }
  }

  // ----- Main results

  lemma {:induction false} BilledWithinCharge(limits: Limits, l: Ledger, bill: seq<real>)
    requires Sound(limits, l) && Billed(l, bill)
    ensures Total(Same, bill) <= l.charged
  {
    var front, rest := l.entries[..|bill|], l.entries[|bill|..];
    TotalAtMost(Same, bill, Charge, front);
    assert l.entries == front + rest;
    TotalConcat(Charge, front, rest);
    ChargesNonNegative(limits, l);
    TotalNonNegative(Charge, rest);
  }

  /**
   True spending stays within the charge, the charge within one dollar, and resuming is refused only when it must be.
   */
  lemma RunIsSafe(limits: Limits, worlds: seq<World>, events: seq<Event>, i: nat)
    requires Run(limits, worlds, events) && i < |worlds| && worlds[i].disk.Some?
    ensures Total(Same, worlds[i].bill) <= worlds[i].disk.value.charged <= MAX_USD
    ensures worlds[i].memory.Some? ==> Total(Same, worlds[i].bill) <= worlds[i].memory.value.charged <= MAX_USD
    ensures Resumable(limits, worlds[i].disk.value) <==>
              worlds[i].disk.value.failure.None? && worlds[i].disk.value.active.None?
  {
    RunKeepsInv(limits, worlds, events, i);
    BilledWithinCharge(limits, worlds[i].disk.value, worlds[i].bill);
    if worlds[i].memory.Some? {
      BilledWithinCharge(limits, worlds[i].memory.value, worlds[i].bill);
    }
    ResumableIff(limits, worlds[i].disk.value);
  }

  // ----- After a failure

  /** The failure was saved. */
  predicate Failed(w: World) {
    w.disk.Some? && w.disk.value.failure.Some?
  }

  /** The failed process still holds a reservation that was never wired. */
  predicate UnwiredReservation(w: World) {
    w.memory.Some? && HasActive(w.memory.value) && !ActiveRow(w.memory.value).wire
  }

  lemma UnwiredCount(limits: Limits, l: Ledger)
    requires Sound(limits, l) && HasActive(l) && !ActiveRow(l).wire
    ensures l.wires < l.requests && l.active.value == |l.entries|
  {
    CountBounded(Wired, l.entries[..|l.entries| - 1]);
  }

  /**
   A failed run reserves nothing more, but the wire hook does not look at the failure: a request can still leave in the
   next step exactly when the failed process holds a reservation that was never wired.
   */
  lemma WireAfterFailureIff(limits: Limits, w: World)
    requires Inv(limits, w) && ValidLimits(limits) && Failed(w)
    ensures (exists event, w' :: Next(limits, w, event, w') && w'.sent > w.sent) <==> UnwiredReservation(w)
  {
    if UnwiredReservation(w) {
      var l := w.memory.value;
      UnwiredCount(limits, l);
      PerformSound(limits, Wire(true), l);
      var a := Attempt(limits, Wire(true), false, l);
      assert RowSound(Last(a.effect.ledger), |l.entries|);
      var w' := World(Some(a.effect.ledger), w.torn, Some(a.effect.ledger), BillAfter(w.bill, Wire(true), a, 0.0),
          w.sent + 1);
      assert Next(limits, w, Do(Wire(true), false, 0.0), w');
    }
  }

  lemma StaysWired(limits: Limits, op: Op, l: Ledger)
    requires Sound(limits, l) && l.failure.Some? && !(HasActive(l) && !ActiveRow(l).wire)
    ensures var e := Perform(limits, op, l);
            !(op.Wire? && e.outcome.Done?) && !(HasActive(e.ledger) && !ActiveRow(e.ledger).wire)
  {
  }

  lemma FailedStep(limits: Limits, w: World, event: Event, w': World)
    requires Inv(limits, w) && Next(limits, w, event, w') && Failed(w)
    ensures Failed(w') && w'.disk.value.requests == w.disk.value.requests
    ensures !UnwiredReservation(w) ==> !UnwiredReservation(w') && w'.sent == w.sent
  {
    if event.Do? {
      FailedPerform(limits, event.op, w.memory.value);
      if !UnwiredReservation(w) {
        StaysWired(limits, event.op, w.memory.value);
      }
    }
  }

  /**
   Once a failure is saved a run never reserves again, and never sends again if its reservation was wired or closed.
   */
  lemma {:induction false} FailedForever(limits: Limits, worlds: seq<World>, events: seq<Event>, i: nat, j: nat)
    requires Run(limits, worlds, events) && i <= j < |worlds| && Failed(worlds[i])
    ensures Failed(worlds[j]) && worlds[j].disk.value.requests == worlds[i].disk.value.requests
    ensures !UnwiredReservation(worlds[i]) ==> !UnwiredReservation(worlds[j]) && worlds[j].sent == worlds[i].sent
  {
    if i < j {
      FailedForever(limits, worlds, events, i, j - 1);
      RunKeepsInv(limits, worlds, events, j - 1);
      FailedStep(limits, worlds[j - 1], events[j - 1], worlds[j]);
    }
  }

  // ----- A run that wires after its failure

  ghost predicate Reachable(limits: Limits, w: World) {
    exists worlds, events :: Run(limits, worlds, events) && worlds[|worlds| - 1] == w
  }

  lemma ReachedNext(limits: Limits, w: World, event: Event, w': World)
    requires Reachable(limits, w) && Next(limits, w, event, w')
    ensures Reachable(limits, w')
  {
    var worlds, events :| Run(limits, worlds, events) && worlds[|worlds| - 1] == w;
    assert Run(limits, worlds + [w'], events + [event]);
  }

  /** Open, reserve, fail: the class then still lets a request leave. */
  lemma WireAfterFailureHappens(limits: Limits)
    requires ValidLimits(limits) && Reservation(limits.pricing, 0, 0) <= MAX_USD
    ensures exists w :: Reachable(limits, w) && Failed(w) && UnwiredReservation(w)
  {
    assert Run(limits, [INITIAL], []);
    var begun := World(Some(FRESH), false, Some(FRESH), [], 0);
    ReachedNext(limits, INITIAL, Open, begun);
    var reserve := Reserve(true, OldPrompt, "s", 0, 0);
    ReservationNonNegative(limits.pricing, 0, 0);
    var l := AfterReserve(FRESH, OldPrompt, "s", Reservation(limits.pricing, 0, 0));
    assert Attempt(limits, reserve, false, FRESH) == Attempted(Effect(l, Done), true);
    var reserved := World(Some(l), false, Some(l), [0.0], 0);
    assert Extended([], 1) == [0.0];
    ReachedNext(limits, begun, Do(reserve, false, 0.0), reserved);
    var failed := FailEffect(Fail("error"), l).ledger;
    assert Attempt(limits, Fail("error"), false, l) == Attempted(Effect(failed, Done), true);
    assert Extended([0.0], 1) == [0.0];
    ReachedNext(limits, reserved, Do(Fail("error"), false, 0.0),
        reserved.(disk := Some(failed), memory := Some(failed)));
  }

  // ----- A ledger file torn at its creation

  /** A step tears the ledger file exactly when its creation raises half way, and no step mends it. */
  lemma TornIff(limits: Limits, w: World, event: Event, w': World)
    requires Next(limits, w, event, w')
    ensures w'.torn <==> w.torn || (event == OpenFails(true) && w.disk.None?)
  {
  }

  /** Behind a torn file nothing is ever opened, saved or sent. */
  lemma {:induction false} TornForever(limits: Limits, worlds: seq<World>, events: seq<Event>, i: nat, j: nat)
    requires Run(limits, worlds, events) && i <= j < |worlds| && worlds[i].torn
    ensures worlds[j].torn && worlds[j].disk.None? && worlds[j].memory.None? && worlds[j].sent == 0
  {
    if i < j {
      TornForever(limits, worlds, events, i, j - 1);
      TornIff(limits, worlds[j - 1], events[j - 1], worlds[j]);
    } else {
      RunKeepsInv(limits, worlds, events, i);
      TornBeforeSaved(limits, worlds, events, i);
    }
  }

  lemma {:induction false} TornBeforeSaved(limits: Limits, worlds: seq<World>, events: seq<Event>, i: nat)
    requires Run(limits, worlds, events) && i < |worlds| && worlds[i].torn
    ensures worlds[i].disk.None?
  {
    if i > 0 {
      TornIff(limits, worlds[i - 1], events[i - 1], worlds[i]);
      RunKeepsInv(limits, worlds, events, i - 1);
      if worlds[i - 1].torn {
        TornBeforeSaved(limits, worlds, events, i - 1);
      }
    }
  }
}
