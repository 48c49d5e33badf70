/**
 Request receipts that no ledger row accounts for: exactly when they appear, and that a ledger that meets one can never
 reserve again although nothing blocks it.
 */
module SharedOrphans {
  import opened Basics
  import opened SharedLedger
  import opened SharedRuns

  /** The ledger that decides: the one in memory while a process runs, the saved one otherwise. */
  function Held(w: World): Option<Ledger> {
    if w.memory.Some? then w.memory else w.disk
  }

  predicate Counted(p: Path, l: Option<Ledger>) {
    p.RequestPath? ==> l.Some? && p.sequence <= l.value.requests
  }

  ghost predicate NoOrphan(w: World) {
    forall p :: p in w.files ==> Counted(p, Held(w))
  }

  /** The receipt of a reservation raises half way: something is left at its path and no ledger counts it. */
  ghost predicate LeavesReceipt(allowed: Approved, w: World, event: Event) {
    && event.Do? && event.op.Reserve? && event.fault.ReceiptFails? && event.fault.left.Some?
    && w.memory.Some? && WritesReceipt(allowed, event.op, w.files, w.memory.value)
  }

  /** The process ends while a reservation it made was never saved. */
  predicate LosesReservation(w: World, event: Event) {
    event.Close? && w.memory.Some? && w.disk.Some? && w.memory.value.requests > w.disk.value.requests
  }

  lemma PerformCounts(allowed: Approved, op: Op, files: Files, l: Ledger, p: Path)
    requires p.RequestPath? && p in Perform(allowed, op, files, l).files
    ensures l.requests <= Perform(allowed, op, files, l).ledger.requests
    ensures p in files || p.sequence <= Perform(allowed, op, files, l).ledger.requests
  {
  }

  /** A failing receipt creates a request path only inside a reservation. */
  lemma FailedReceiptPath(allowed: Approved, op: Op, fault: Fault, files: Files, l: Ledger, p: Path)
    requires p.RequestPath? && fault.ReceiptFails? && WritesReceipt(allowed, op, files, l)
    requires !(op.Reserve? && fault.left.Some?) && p in Attempt(allowed, op, fault, files, l).effect.files
    ensures p in files && Attempt(allowed, op, fault, files, l).effect.ledger == l
  {
  }

  /** A reservation counts its receipt in memory, saved or not; no other operation creates a request receipt. */
  lemma AttemptCounts(allowed: Approved, op: Op, fault: Fault, files: Files, l: Ledger, p: Path)
    requires p.RequestPath? && p in Attempt(allowed, op, fault, files, l).effect.files
    requires !(op.Reserve? && fault.ReceiptFails? && fault.left.Some? && WritesReceipt(allowed, op, files, l))
    ensures l.requests <= Attempt(allowed, op, fault, files, l).effect.ledger.requests
    ensures p in files || p.sequence <= Attempt(allowed, op, fault, files, l).effect.ledger.requests
  {
    if fault.ReceiptFails? && WritesReceipt(allowed, op, files, l) {
      FailedReceiptPath(allowed, op, fault, files, l, p);
    } else {
      PerformCounts(allowed, op, files, l, p);
    }
  }

  lemma LastReceiptThere(allowed: Approved, files: Files, l: Ledger)
    requires Sound(allowed, files, l) && l.requests > 0
    ensures RequestPath(l.requests) in files
  {
    assert RowSound(files, l.entries[l.requests - 1])
        && RowVerified(allowed, files, l.entries[l.requests - 1], l.requests);
  }

  lemma LeftIsOrphan(allowed: Approved, w: World, event: Event, w': World)
    requires Inv(allowed, w) && Next(allowed, w, event, w') && LeavesReceipt(allowed, w, event)
    ensures !NoOrphan(w')
  {
    assert !Counted(RequestPath(w.memory.value.requests + 1), Held(w'));
  }

  lemma LostIsOrphan(allowed: Approved, w: World, event: Event, w': World)
    requires Inv(allowed, w) && Next(allowed, w, event, w') && LosesReservation(w, event)
    ensures !NoOrphan(w')
  {
    LastReceiptThere(allowed, w.files, w.memory.value);
    assert !Counted(RequestPath(w.memory.value.requests), Held(w'));
  }

  lemma OtherwiseCounted(allowed: Approved, w: World, event: Event, w': World)
    requires Inv(allowed, w) && Next(allowed, w, event, w') && NoOrphan(w)
    requires !LeavesReceipt(allowed, w, event) && !LosesReservation(w, event)
    ensures NoOrphan(w')
  {
    forall p | p in w'.files ensures Counted(p, Held(w')) {
      if p in w.files { assert Counted(p, Held(w)); }
      if event.Do? && p.RequestPath? {
        AttemptCounts(allowed, event.op, event.fault, w.files, w.memory.value, p);
      }
    }
  }

  /**
   A receipt without a row appears in a step exactly when the receipt of a reservation raises and leaves something, or a
   process ends whose reservation was never saved.
   */
  lemma OrphanAppearsIff(allowed: Approved, w: World, event: Event, w': World)
    requires Inv(allowed, w) && Next(allowed, w, event, w') && NoOrphan(w)
    ensures !NoOrphan(w') <==> LeavesReceipt(allowed, w, event) || LosesReservation(w, event)
  {
    if LeavesReceipt(allowed, w, event) {
      LeftIsOrphan(allowed, w, event, w');
    } else if LosesReservation(w, event) {
      LostIsOrphan(allowed, w, event, w');
    } else {
      OtherwiseCounted(allowed, w, event, w');
    }
  }

  /** So none ever appears in a run in which no write inside a reservation fails. */
  lemma {:induction false} OrphanNeedsFailedReservation(allowed: Approved, worlds: seq<World>, events: seq<Event>,
                                                        i: nat)
    requires Run(allowed, worlds, events) && i < |worlds|
    requires forall k :: 0 <= k < |events| && events[k].Do? && events[k].op.Reserve? ==> events[k].fault.NoFault?
    ensures NoOrphan(worlds[i])
    ensures worlds[i].memory.Some? && worlds[i].disk.Some? ==>
              worlds[i].memory.value.requests == worlds[i].disk.value.requests
  {
    if i > 0 {
      OrphanNeedsFailedReservation(allowed, worlds, events, i - 1);
      RunKeepsInv(allowed, worlds, events, i - 1);
      var w, event := worlds[i - 1], events[i - 1];
      OrphanAppearsIff(allowed, w, event, worlds[i]);
      if event.Do? {
        OnlyReserveCounts(allowed, event.op, event.fault, w.files, w.memory.value);
      }
    }
  }

  /** Only a reservation changes how many requests a ledger counts, and without a fault it saves that. */
  lemma OnlyReserveCounts(allowed: Approved, op: Op, fault: Fault, files: Files, l: Ledger)
    requires op.Reserve? ==> fault.NoFault?
    ensures var a := Attempt(allowed, op, fault, files, l); a.saved || a.effect.ledger.requests == l.requests
  {
  }

  // ----- After a receipt was left over

  /** An idle ledger whose next request receipt is already on disk, whether or not a process holds it. */
  predicate Orphaned(w: World) {
    && w.disk.Some? && w.disk.value.active.None?
    && RequestPath(w.disk.value.requests + 1) in w.files
    && (w.memory.Some? ==> w.memory.value.active.None? && w.memory.value.requests == w.disk.value.requests)
  }

  lemma OrphanedPerform(allowed: Approved, op: Op, files: Files, l: Ledger)
    requires Sound(allowed, files, l) && l.active.None? && RequestPath(l.requests + 1) in files
    ensures var e := Perform(allowed, op, files, l);
            e.ledger.active.None? && e.ledger.requests == l.requests && (op.Wire? ==> !e.outcome.Done?)
  {
  }

  lemma OrphanedStep(allowed: Approved, w: World, event: Event, w': World)
    requires Inv(allowed, w) && Next(allowed, w, event, w') && Orphaned(w)
    ensures Orphaned(w') && w'.disk.value.requests == w.disk.value.requests && w'.sent == w.sent
  {
    if event.Do? {
      AttemptGrows(allowed, event.op, event.fault, w.files, w.memory.value);
      AttemptCases(allowed, event.op, event.fault, w.files, w.memory.value);
      OrphanedPerform(allowed, event.op, w.files, w.memory.value);
    }
  }

  /**
   The documented recovery does not cover it: the ledger is idle and, in the process that met the failure or in any
   later one, every reservation finds its receipt already there, so the run can never send again.
   */
  lemma {:induction false} OrphanedForever(allowed: Approved, worlds: seq<World>, events: seq<Event>, i: nat, j: nat)
    requires Run(allowed, worlds, events) && i <= j < |worlds| && Orphaned(worlds[i])
    ensures Orphaned(worlds[j]) && worlds[j].sent == worlds[i].sent
    ensures worlds[j].disk.value.requests == worlds[i].disk.value.requests
  {
    if i < j {
      OrphanedForever(allowed, worlds, events, i, j - 1);
      RunKeepsInv(allowed, worlds, events, j - 1);
      OrphanedStep(allowed, worlds[j - 1], events[j - 1], worlds[j]);
    }
  }

  // ----- Two runs that get there

  const SAMPLES: Approved := map["ab" := {"A"}]
  const FIRST := Reserve("ab", "A", Stage1, "t", "body", 0, STAGE1_MAX_OUTPUT)
  const RECEIPT := RequestFile(Key("ab", "A", Stage1, "core"), "body")
  const STARTED := INITIAL.(disk := Some(FRESH), memory := Some(FRESH))

  lemma FirstReservation()
    ensures Perform(SAMPLES, FIRST, map[], FRESH)
            == Effect(map[RequestPath(1) := RECEIPT],
                      AfterReserve(FRESH, Key("ab", "A", Stage1, "core"), Reservation(0, STAGE1_MAX_OUTPUT), RECEIPT),
                      Done)
  {
  }

  lemma StartedReached()
    ensures Reachable(SAMPLES, STARTED)
  {
    InitiallyReachable(SAMPLES);
    ReachedNext(SAMPLES, INITIAL, Open, STARTED);
  }

  /**
   A full disk is enough: the receipt of the first reservation raises, and the living process is stuck, not blocked.
   */
  lemma TornReceiptWitness()
    ensures exists w :: Reachable(SAMPLES, w) && Orphaned(w) && !Blocked(w) && w.memory.Some?
  {
    FirstReservation();
    StartedReached();
    var stuck := STARTED.(files := map[RequestPath(1) := TornFile]);
    assert Attempt(SAMPLES, FIRST, ReceiptFails(Some(TornFile)), map[], FRESH)
           == Attempted(Effect(stuck.files, FRESH, Raised(WriteFailed)), false);
    ReachedNext(SAMPLES, STARTED, Do(FIRST, ReceiptFails(Some(TornFile)), None), stuck);
  }

  const ACTIVE := AfterReserve(FRESH, Key("ab", "A", Stage1, "core"), Reservation(0, STAGE1_MAX_OUTPUT), RECEIPT)
  const AHEAD := STARTED.(files := map[RequestPath(1) := RECEIPT], memory := Some(ACTIVE))
  const NOTED := AHEAD.(memory := Some(FailEffect(AHEAD.files, ACTIVE).ledger))

  lemma ReservedUnsaved()
    ensures Next(SAMPLES, STARTED, Do(FIRST, SaveFails, None), AHEAD)
  {
    FirstReservation();
    assert Attempt(SAMPLES, FIRST, SaveFails, map[], FRESH)
        == Attempted(Effect(AHEAD.files, ACTIVE, Raised(WriteFailed)), false);
  }

  lemma FailureUnsaved()
    ensures Next(SAMPLES, AHEAD, Do(FailActive, SaveFails, None), NOTED)
  {
    assert Attempt(SAMPLES, FailActive, SaveFails, AHEAD.files, ACTIVE)
           == Attempted(Effect(AHEAD.files, NOTED.memory.value, Raised(WriteFailed)), false);
  }

  /**
   Without any torn file: neither the reservation nor the failure noted after it is saved, and then the process ends.
   */
  lemma LostSaveWitness()
    ensures exists w :: Reachable(SAMPLES, w) && Orphaned(w) && !Blocked(w)
  {
    StartedReached();
    ReservedUnsaved();
    FailureUnsaved();
    ReachedNext(SAMPLES, STARTED, Do(FIRST, SaveFails, None), AHEAD);
    ReachedNext(SAMPLES, AHEAD, Do(FailActive, SaveFails, None), NOTED);
    var ended := NOTED.(memory := None);
    ReachedNext(SAMPLES, NOTED, Close, ended);
    assert Orphaned(ended) && !Blocked(ended);
  }
}
