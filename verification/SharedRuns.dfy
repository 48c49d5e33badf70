/**
 Whole runs of the shared ledger: processes open it, perform operations, and may die at any point; any receipt or
 save may fail while the process goes on, so that its ledger runs ahead of the saved one; and the provider answers as
 it likes.
 */
module SharedRuns {
  import opened Basics
  import opened SharedLedger

  /**
   The saved ledger and receipts, the ledger held by the one process that owns the lock, and what the outside world
   saw: the true cost of each saved request so far and the requests that left the host. `torn` is a ledger file whose
   creation failed half way and which no process can read.
   */
  datatype World = World(
    disk: Option<Ledger>, torn: bool, files: Files, memory: Option<Ledger>, bill: seq<real>, sent: seq<Key>)

  const INITIAL := World(None, false, map[], None, [], [])

  datatype Event =
    | Open                       // a process takes the lock and loads or creates the ledger
    | OpenFails(torn: bool)      // its first write raises, and leaves a torn ledger file if it was creating one
    | Close                      // it lets go, or dies; dying inside an operation is a fault in it and then this
    | Do(op: Op, fault: Fault, trueCost: Option<real>)
                                 // an operation, whatever the disk does to it; a wired request leaves at some true
                                 // cost, or never

  function Opened(w: World): Ledger {
    if w.disk.Some? then Reopened(w.disk.value) else FRESH
  }

  /** A request leaves the host only after its wire is saved, and costs no more than it reserved. */
  predicate LeavesHost(op: Op, a: Attempted, trueCost: Option<real>) {
    op.Wire? && a.effect.outcome.Done? && a.saved && trueCost.Some?
  }

  /** What is billed so far for each of `n` requests; those not yet saved have cost nothing. */
  function Extended(bill: seq<real>, n: nat): (r: seq<real>)
    ensures |bill| <= n ==> |r| == n
    ensures forall i :: 0 <= i < |r| ==> r[i] == if i < |bill| then bill[i] else 0.0
  {
    if |bill| <= n then seq(n, i requires 0 <= i < n => if i < |bill| then bill[i] else 0.0) else bill
  }

  function BillAfter(bill: seq<real>, op: Op, a: Attempted, trueCost: Option<real>): seq<real> {
    var n := |a.effect.ledger.entries|;
    if !a.saved then bill
    else if LeavesHost(op, a, trueCost) && 0 < n && |bill| <= n then Extended(bill, n)[n - 1 := trueCost.value]
    else Extended(bill, n)
  }

  function SentAfter(sent: seq<Key>, op: Op, a: Attempted, trueCost: Option<real>): seq<Key> {
    if LeavesHost(op, a, trueCost) && a.effect.ledger.entries != [] then sent + [Last(a.effect.ledger).key] else sent
  }

  /** What is assumed of the provider: it bills within the reservation, and accepted usage never under-reports. */
  predicate ProviderHonest(bill: seq<real>, op: Op, a: Attempted, trueCost: Option<real>) {
    var l := a.effect.ledger;
    && (LeavesHost(op, a, trueCost) && l.entries != [] ==> 0.0 <= trueCost.value <= Last(l).reserved)
    && (op.Respond? && l.entries != [] && |bill| == |l.entries| ==> bill[|bill| - 1] <= Charge(Last(l)))
  }

  ghost predicate Next(allowed: Approved, w: World, event: Event, w': World) {
    match event
    case Open =>
      && w.memory.None?
      && if w.torn || (w.disk.Some? && !Verified(allowed, w.files, w.disk.value)) then w' == w
         else w' == w.(disk := Some(Opened(w)), memory := Some(Opened(w)))
    case OpenFails(torn) => w.memory.None? && w' == w.(torn := w.torn || (torn && w.disk.None?))
    case Close => w' == w.(memory := None)
    case Do(op, fault, trueCost) =>
      && w.memory.Some?
      && var a := Attempt(allowed, op, fault, w.files, w.memory.value);
         && ProviderHonest(w.bill, op, a, trueCost)
         && w' == World(if a.saved then Some(a.effect.ledger) else w.disk, w.torn, a.effect.files,
                        Some(a.effect.ledger), BillAfter(w.bill, op, a, trueCost), SentAfter(w.sent, op, a, trueCost))
  }

  /** A run from the empty directory: `worlds[i + 1]` follows `worlds[i]` by `events[i]`. */
  ghost predicate Run(allowed: Approved, worlds: seq<World>, events: seq<Event>) {
    && |worlds| == |events| + 1
    && worlds[0] == INITIAL
    && forall i :: 0 <= i < |events| ==> Next(allowed, worlds[i], events[i], worlds[i + 1])
  }

  // ----- Invariant

  predicate HasWiredKey(l: Ledger, key: Key) {
    exists r :: 0 <= r < |l.entries| && l.entries[r].wire && l.entries[r].key == key
  }

  ghost predicate SentOnce(l: Ledger, sent: seq<Key>) {
    && (forall i, j :: 0 <= i < j < |sent| ==> sent[i] != sent[j])
    && (forall i :: 0 <= i < |sent| ==> HasWiredKey(l, sent[i]))
  }

  /** Every bill is covered by its row's charge, and nothing is billed that was not wired. */
  predicate Billed(l: Ledger, bill: seq<real>) {
    && |bill| <= |l.entries|
    && forall i :: 0 <= i < |bill| ==> bill[i] <= Charge(l.entries[i]) && (!l.entries[i].wire ==> bill[i] == 0.0)
  }

  /** A ledger that accounts for everything the outside world saw. */
  ghost predicate Accounts(allowed: Approved, w: World, l: Ledger) {
    Sound(allowed, w.files, l) && Billed(l, w.bill) && SentOnce(l, w.sent)
  }

  /** A ledger saved as blocked is blocked in memory too, and neither has grown since. */
  predicate BlockedAlike(disk: Ledger, memory: Ledger) {
    disk.blocked.Some? ==>
      && memory.blocked.Some? && memory.requests == disk.requests && memory.wires == disk.wires
      && |memory.entries| == |disk.entries|
  }

  /** The ledger in memory may be ahead of the saved one; each accounts for the whole world by itself. */
  ghost predicate Inv(allowed: Approved, w: World) {
    && (w.disk.None? ==> w.bill == [] && w.sent == [] && w.memory.None?)
    && (w.disk.Some? ==> Accounts(allowed, w, w.disk.value) && |w.bill| == |w.disk.value.entries|)
    && (w.memory.Some? ==>
          w.disk.Some? && Accounts(allowed, w, w.memory.value) && BlockedAlike(w.disk.value, w.memory.value))
  }

  lemma FreshSound(allowed: Approved, files: Files)
    ensures Sound(allowed, files, FRESH)
  {
  }

  /** A ledger whose rows keep their keys and their wires still accounts for everything sent. */
  lemma SentKept(l: Ledger, l': Ledger, sent: seq<Key>)
    requires SentOnce(l, sent) && |l.entries| <= |l'.entries|
    requires forall i :: 0 <= i < |l.entries| ==>
               l'.entries[i].key == l.entries[i].key && (l.entries[i].wire ==> l'.entries[i].wire)
    ensures SentOnce(l', sent)
  {
    forall i | 0 <= i < |sent| ensures HasWiredKey(l', sent[i]) {
      assert HasWiredKey(l, sent[i]);
      var r :| 0 <= r < |l.entries| && l.entries[r].wire && l.entries[r].key == sent[i];
      assert l'.entries[r].wire && l'.entries[r].key == sent[i];
    }
  }

  // ----- What operations keep of the rows

  /** The rows stay, except that the last may be replaced by one with the same key that is still wired if it was. */
  predicate LastTouched(l: Ledger, l': Ledger) {
    && |l'.entries| == |l.entries|
    && (forall i :: 0 <= i < |l.entries| - 1 ==> l'.entries[i] == l.entries[i])
    && (l.entries != [] ==>
          Last(l').key == Last(l).key && Last(l').result == Last(l).result && (Last(l).wire ==> Last(l').wire))
  }

  /** Apart from results, the rows are the same. */
  predicate OnlyResults(l: Ledger, l': Ledger) {
    && |l'.entries| == |l.entries|
    && forall i :: 0 <= i < |l.entries| ==> l'.entries[i] == l.entries[i].(result := l'.entries[i].result)
  }

  lemma ReserveRows(allowed: Approved, op: Op, files: Files, l: Ledger)
    requires op.Reserve?
    ensures var e := ReserveEffect(allowed, op, files, l);
            if e.outcome.Done?
            then l.active.None? && e.ledger.entries == l.entries + [Last(e.ledger)] && !Last(e.ledger).wire
                 && Charge(Last(e.ledger)) == Reservation(op.bytes, op.maxOutput)
                 && Last(e.ledger).result.None? && Last(e.ledger).key.ns == op.ns
                 && Last(e.ledger).key.sample == op.sample
            else e.ledger.entries == l.entries
  {
  }

  lemma SetTouches(allowed: Approved, files: Files, l: Ledger, row: Row, l': Ledger)
    requires Sound(allowed, files, l) && HasActive(l) && l'.entries == SetActiveRow(l, row).entries
    requires row.key == ActiveRow(l).key && row.result == ActiveRow(l).result && (ActiveRow(l).wire ==> row.wire)
    ensures LastTouched(l, l')
  {
    ActiveIsLast(allowed, files, l);
  }

  lemma TouchRows(allowed: Approved, op: Op, files: Files, l: Ledger)
    requires Sound(allowed, files, l) && !op.Reserve? && !op.SaveResult?
    ensures LastTouched(l, Perform(allowed, op, files, l).ledger)
  {
    var l' := Perform(allowed, op, files, l).ledger;
    if l' != l && HasActive(l) {
      assert l'.entries == SetActiveRow(l, l'.entries[l.active.value - 1]).entries;
      SetTouches(allowed, files, l, l'.entries[l.active.value - 1], l');
    }
  }

  lemma ResultRows(allowed: Approved, op: Op, files: Files, l: Ledger)
    requires op.SaveResult?
    ensures OnlyResults(l, SaveResultEffect(allowed, op, files, l).ledger)
  {
  }

  /** No operation ever unwires or renames a row, or drops one. */
  predicate RowsKept(l: Ledger, l': Ledger) {
    && |l.entries| <= |l'.entries| <= |l.entries| + 1
    && forall i :: 0 <= i < |l.entries| ==>
         l'.entries[i].key == l.entries[i].key && (l.entries[i].wire ==> l'.entries[i].wire)
  }

  lemma TouchedKeepsRows(l: Ledger, l': Ledger)
    requires LastTouched(l, l') || OnlyResults(l, l')
    ensures RowsKept(l, l')
  {
  }

  lemma ReserveKeepsRows(allowed: Approved, op: Op, files: Files, l: Ledger)
    requires op.Reserve?
    ensures RowsKept(l, ReserveEffect(allowed, op, files, l).ledger)
  {
    ReserveRows(allowed, op, files, l);
  }

  lemma PerformKeepsRows(allowed: Approved, op: Op, files: Files, l: Ledger)
    requires Sound(allowed, files, l)
    ensures RowsKept(l, Perform(allowed, op, files, l).ledger)
  {
    if op.Reserve? {
      ReserveKeepsRows(allowed, op, files, l);
    } else if op.SaveResult? {
      ResultRows(allowed, op, files, l);
      TouchedKeepsRows(l, SaveResultEffect(allowed, op, files, l).ledger);
    } else {
      TouchRows(allowed, op, files, l);
      TouchedKeepsRows(l, Perform(allowed, op, files, l).ledger);
    }
  }

  /**
   A wire that succeeds marks the last row, which was not wired; nothing else wires, and only a response changes a
   charge.
   */
  lemma PerformKeepsLast(allowed: Approved, op: Op, files: Files, l: Ledger)
    requires Sound(allowed, files, l) && l.entries != [] && !op.Reserve? && !op.SaveResult?
    ensures var e := Perform(allowed, op, files, l);
            var before, after := Last(l), Last(e.ledger);
            && |e.ledger.entries| == |l.entries|
            && (!op.Respond? ==> Charge(after) == Charge(before))
            && (Charge(after) != Charge(before) ==> before.wire)
            && (op.Wire? && e.outcome.Done? ==> !before.wire && after.wire && Charge(after) == after.reserved)
            && (!(op.Wire? && e.outcome.Done?) ==> after.wire == before.wire)
  {
  }

  lemma WireNeedsRow(allowed: Approved, op: Op, files: Files, l: Ledger)
    requires Sound(allowed, files, l) && op.Wire? && Perform(allowed, op, files, l).outcome.Done?
    ensures l.entries != []
  {
  }

  // ----- Bills

  lemma TouchedBilled(l: Ledger, l': Ledger, bill: seq<real>)
    requires LastTouched(l, l') && Billed(l, bill)
    requires l.entries != [] ==>
               && (Charge(Last(l')) != Charge(Last(l)) ==> |bill| == |l'.entries| ==>
                    bill[|bill| - 1] <= Charge(Last(l')))
    ensures Billed(l', bill)
  {
    forall i | 0 <= i < |bill| ensures bill[i] <= Charge(l'.entries[i]) && (!l'.entries[i].wire ==> bill[i] == 0.0) {
      if i < |l.entries| - 1 { assert l'.entries[i] == l.entries[i]; }
    }
  }

  /** What an operation leaves in memory covers the bill as it stands, before anything more is sent. */
  lemma PerformKeepsBilled(allowed: Approved, op: Op, files: Files, l: Ledger, bill: seq<real>)
    requires Sound(allowed, files, l) && Billed(l, bill)
    requires var l' := Perform(allowed, op, files, l).ledger;
             op.Respond? && l'.entries != [] && |bill| == |l'.entries| ==> bill[|bill| - 1] <= Charge(Last(l'))
    ensures Billed(Perform(allowed, op, files, l).ledger, bill)
  {
    if op.Reserve? {
      ReserveRows(allowed, op, files, l);
    } else if op.SaveResult? {
      ResultRows(allowed, op, files, l);
    } else {
      TouchRows(allowed, op, files, l);
      if l.entries != [] {
        PerformKeepsLast(allowed, op, files, l);
      }
      TouchedBilled(l, Perform(allowed, op, files, l).ledger, bill);
    }
  }

  lemma ChargesNonNegative(allowed: Approved, files: Files, l: Ledger)
    requires Sound(allowed, files, l)
    ensures forall i :: 0 <= i < |l.entries| ==> Charge(l.entries[i]) >= 0.0
  {
    forall i | 0 <= i < |l.entries| ensures Charge(l.entries[i]) >= 0.0 {
      assert RowSound(files, l.entries[i]) && RowVerified(allowed, files, l.entries[i], i + 1);
    }
  }

  lemma ExtendedBilled(allowed: Approved, files: Files, l: Ledger, bill: seq<real>)
    requires Sound(allowed, files, l) && Billed(l, bill)
    ensures Billed(l, Extended(bill, |l.entries|))
  {
    ChargesNonNegative(allowed, files, l);
  }

  /** After a save the bill has one entry for each row, and a request that leaves is billed within its reservation. */
  lemma SavedBilled(allowed: Approved, op: Op, files: Files, l: Ledger, bill: seq<real>, a: Attempted,
                    trueCost: Option<real>)
    requires Sound(allowed, files, l) && a == Attempted(Perform(allowed, op, files, l), true)
    requires Sound(allowed, a.effect.files, a.effect.ledger) && Billed(a.effect.ledger, bill)
             && ProviderHonest(bill, op, a, trueCost)
    ensures var bill' := BillAfter(bill, op, a, trueCost);
            Billed(a.effect.ledger, bill') && |bill'| == |a.effect.ledger.entries|
  {
    ExtendedBilled(allowed, a.effect.files, a.effect.ledger, bill);
    if LeavesHost(op, a, trueCost) {
      WireNeedsRow(allowed, op, files, l);
      PerformKeepsLast(allowed, op, files, l);
    }
  }

  // ----- Requests sent

  lemma SentOneMore(allowed: Approved, op: Op, files: Files, l: Ledger, sent: seq<Key>)
    requires Sound(allowed, files, l) && SentOnce(l, sent) && op.Wire? && Perform(allowed, op, files, l).outcome.Done?
    ensures var l' := Perform(allowed, op, files, l).ledger; l'.entries != [] && SentOnce(l', sent + [Last(l').key])
  {
    var l' := Perform(allowed, op, files, l).ledger;
    WireNeedsRow(allowed, op, files, l);
    PerformKeepsRows(allowed, op, files, l);
    PerformKeepsLast(allowed, op, files, l);
    SentKept(l, l', sent);
    var last := |l.entries| - 1;
    assert l'.entries[last].wire && l'.entries[last].key == Last(l').key;
    assert HasWiredKey(l', Last(l').key);
    forall i | 0 <= i < |sent| ensures sent[i] != Last(l').key {
      assert HasWiredKey(l, sent[i]);
      var r :| 0 <= r < |l.entries| && l.entries[r].wire && l.entries[r].key == sent[i];
    }
  }

  lemma SentAfterOnce(allowed: Approved, op: Op, files: Files, l: Ledger, sent: seq<Key>, a: Attempted,
                      trueCost: Option<real>)
    requires Sound(allowed, files, l) && SentOnce(l, sent) && a.effect.ledger == Perform(allowed, op, files, l).ledger
    requires a.saved ==> a.effect == Perform(allowed, op, files, l)
    ensures SentOnce(a.effect.ledger, SentAfter(sent, op, a, trueCost))
  {
    PerformKeepsRows(allowed, op, files, l);
    SentKept(l, a.effect.ledger, sent);
    if LeavesHost(op, a, trueCost) {
      SentOneMore(allowed, op, files, l, sent);
    }
  }

  // ----- Every step keeps the invariant

  /** What is left of an attempt: nothing in memory, the whole operation unsaved, or the whole operation saved. */
  lemma AttemptCases(allowed: Approved, op: Op, fault: Fault, files: Files, l: Ledger)
    ensures var a, e := Attempt(allowed, op, fault, files, l), Perform(allowed, op, files, l);
            && (a.effect.ledger == l || a.effect.ledger == e.ledger)
            && (a.effect.files == e.files || (a.effect.ledger == l && !a.saved))
            && (a.saved ==> a.effect == e) && (a.effect.outcome.Done? ==> a.effect == e)
  {
  }

  lemma PerformAccounts(allowed: Approved, op: Op, files: Files, l: Ledger, bill: seq<real>, sent: seq<Key>)
    requires Sound(allowed, files, l) && Billed(l, bill) && SentOnce(l, sent)
    requires var l' := Perform(allowed, op, files, l).ledger;
             op.Respond? && l'.entries != [] && |bill| == |l'.entries| ==> bill[|bill| - 1] <= Charge(Last(l'))
    ensures var l' := Perform(allowed, op, files, l).ledger; Billed(l', bill) && SentOnce(l', sent)
  {
    PerformKeepsBilled(allowed, op, files, l, bill);
    PerformKeepsRows(allowed, op, files, l);
    SentKept(l, Perform(allowed, op, files, l).ledger, sent);
  }

  lemma UnsavedAccounts(allowed: Approved, w: World, op: Op, fault: Fault, a: Attempted, trueCost: Option<real>)
    requires w.memory.Some? && Accounts(allowed, w, w.memory.value)
    requires a == Attempt(allowed, op, fault, w.files, w.memory.value) && ProviderHonest(w.bill, op, a, trueCost)
    ensures Sound(allowed, a.effect.files, a.effect.ledger) && Billed(a.effect.ledger, w.bill)
            && SentOnce(a.effect.ledger, w.sent)
  {
    AttemptSound(allowed, op, fault, w.files, w.memory.value);
    AttemptCases(allowed, op, fault, w.files, w.memory.value);
    if a.effect.ledger != w.memory.value {
      PerformAccounts(allowed, op, w.files, w.memory.value, w.bill, w.sent);
    }
  }

  /** After a save the bill and the requests sent are those of the saved ledger. */
  lemma SavedAccounts(allowed: Approved, w: World, op: Op, fault: Fault, trueCost: Option<real>, w': World)
    requires Inv(allowed, w) && Next(allowed, w, Do(op, fault, trueCost), w')
    requires Attempt(allowed, op, fault, w.files, w.memory.value).saved
    ensures Accounts(allowed, w', w'.memory.value) && |w'.bill| == |w'.memory.value.entries|
  {
    var l, a := w.memory.value, Attempt(allowed, op, fault, w.files, w.memory.value);
    UnsavedAccounts(allowed, w, op, fault, a, trueCost);
    AttemptCases(allowed, op, fault, w.files, l);
    SavedBilled(allowed, op, w.files, l, w.bill, a, trueCost);
    SentAfterOnce(allowed, op, w.files, l, w.sent, a, trueCost);
  }

  lemma BlockedPerform(allowed: Approved, op: Op, files: Files, l: Ledger)
    requires Sound(allowed, files, l) && l.blocked.Some?
    ensures var e := Perform(allowed, op, files, l);
            && e.ledger.blocked.Some? && e.ledger.requests == l.requests && e.ledger.wires == l.wires
            && |e.ledger.entries| == |l.entries|
            && (op.Wire? ==> !e.outcome.Done?)
  {
  }

  lemma UnsavedBlockedAlike(allowed: Approved, op: Op, fault: Fault, files: Files, disk: Ledger, l: Ledger)
    requires Sound(allowed, files, l) && BlockedAlike(disk, l)
    ensures BlockedAlike(disk, Attempt(allowed, op, fault, files, l).effect.ledger)
  {
    AttemptCases(allowed, op, fault, files, l);
    if l.blocked.Some? {
      BlockedPerform(allowed, op, files, l);
    }
  }

  lemma DoKeepsInv(allowed: Approved, w: World, op: Op, fault: Fault, trueCost: Option<real>, w': World)
    requires Inv(allowed, w) && Next(allowed, w, Do(op, fault, trueCost), w')
    ensures Inv(allowed, w')
  {
    var l, a := w.memory.value, Attempt(allowed, op, fault, w.files, w.memory.value);
    if a.saved {
      SavedAccounts(allowed, w, op, fault, trueCost, w');
    } else {
      UnsavedAccounts(allowed, w, op, fault, a, trueCost);
      AttemptSound(allowed, op, fault, w.files, l);
      UnsavedBlockedAlike(allowed, op, fault, w.files, w.disk.value, l);
    }
  }

  lemma OpenKeepsInv(allowed: Approved, w: World, w': World)
    requires Inv(allowed, w) && Next(allowed, w, Open, w')
    ensures Inv(allowed, w')
  {
    if w' != w {
      if w.disk.None? {
        FreshSound(allowed, w.files);
      } else {
        ReopenedSound(allowed, w.files, w.disk.value);
        SentKept(w.disk.value, Reopened(w.disk.value), w.sent);
      }
    }
  }

  lemma StepKeepsInv(allowed: Approved, w: World, event: Event, w': World)
    requires Inv(allowed, w) && Next(allowed, w, event, w')
    ensures Inv(allowed, w')
  {
    match event
    case Open => OpenKeepsInv(allowed, w, w');
    case OpenFails(_) =>
    case Close =>
    case Do(op, fault, trueCost) => DoKeepsInv(allowed, w, op, fault, trueCost, w');
  }

  lemma {:induction false} RunKeepsInv(allowed: Approved, worlds: seq<World>, events: seq<Event>, i: nat)
    requires Run(allowed, worlds, events) && i < |worlds|
    ensures Inv(allowed, worlds[i])
  {
    if i > 0 {
      RunKeepsInv(allowed, worlds, events, i - 1);
      StepKeepsInv(allowed, worlds[i - 1], events[i - 1], worlds[i]);
    }
  }

  // ----- Main results

  /** Whatever was saved, the next process can open; an unfinished request leaves it blocked. */
  lemma EverySavedStateReopens(allowed: Approved, worlds: seq<World>, events: seq<Event>, i: nat)
    requires Run(allowed, worlds, events) && i < |worlds| && worlds[i].disk.Some?
    ensures Verified(allowed, worlds[i].files, worlds[i].disk.value)
    ensures worlds[i].disk.value.active.Some? ==> Reopened(worlds[i].disk.value).blocked.Some?
  {
    RunKeepsInv(allowed, worlds, events, i);
  }

  /**
   True spending never exceeds the saved charge, nor the charge in memory, and neither exceeds the cap, whatever failed
   on the way.
   */
  lemma SpendingStaysWithinCharge(allowed: Approved, worlds: seq<World>, events: seq<Event>, i: nat)
    requires Run(allowed, worlds, events) && i < |worlds| && worlds[i].disk.Some?
    ensures Total(Same, worlds[i].bill) <= worlds[i].disk.value.charged <= MAX_USD
    ensures worlds[i].memory.Some? ==> Total(Same, worlds[i].bill) <= worlds[i].memory.value.charged <= MAX_USD
  {
    RunKeepsInv(allowed, worlds, events, i);
    BilledWithinCharge(allowed, worlds[i].files, worlds[i].disk.value, worlds[i].bill);
    if worlds[i].memory.Some? {
      BilledWithinCharge(allowed, worlds[i].files, worlds[i].memory.value, worlds[i].bill);
    }
  }

  lemma {:induction false} BilledWithinCharge(allowed: Approved, files: Files, l: Ledger, bill: seq<real>)
    requires Sound(allowed, files, l) && Billed(l, bill)
    ensures Total(Same, bill) <= l.charged
  {
    var front, rest := l.entries[..|bill|], l.entries[|bill|..];
    TotalAtMost(Same, bill, Charge, front);
    assert l.entries == front + rest;
    TotalConcat(Charge, front, rest);
    ChargesNonNegative(allowed, files, l);
    TotalNonNegative(Charge, rest);
  }

  /**
   No two requests ever leave the host for one namespace, sample, stage and task, across all failures and reopenings.
   */
  lemma EachKeySentAtMostOnce(allowed: Approved, worlds: seq<World>, events: seq<Event>, n: nat, i: nat, j: nat)
    requires Run(allowed, worlds, events) && n < |worlds| && i < j < |worlds[n].sent|
    ensures worlds[n].sent[i] != worlds[n].sent[j]
  {
    RunKeepsInv(allowed, worlds, events, n);
  }

  /** The ledger was saved as blocked. */
  predicate Blocked(w: World) {
    w.disk.Some? && w.disk.value.blocked.Some?
  }

  /** Saved as blocked, with the requests, wires and sends of `w`. */
  predicate BlockedSince(w: World, later: World) {
    && Blocked(w) && Blocked(later) && later.sent == w.sent
    && later.disk.value.requests == w.disk.value.requests && later.disk.value.wires == w.disk.value.wires
  }

  lemma BlockedStep(allowed: Approved, w: World, event: Event, w': World)
    requires Inv(allowed, w) && Next(allowed, w, event, w') && Blocked(w)
    ensures BlockedSince(w, w')
  {
    if event.Do? {
      BlockedPerform(allowed, event.op, w.files, w.memory.value);
      AttemptCases(allowed, event.op, event.fault, w.files, w.memory.value);
    }
  }

  lemma BlockedInRun(allowed: Approved, worlds: seq<World>, events: seq<Event>, j: nat)
    requires Run(allowed, worlds, events) && 0 < j < |worlds| && Blocked(worlds[j - 1])
    ensures BlockedSince(worlds[j - 1], worlds[j])
  {
    RunKeepsInv(allowed, worlds, events, j - 1);
    BlockedStep(allowed, worlds[j - 1], events[j - 1], worlds[j]);
  }

  /** A ledger saved as blocked is blocked for good: no process reserves, wires or sends anything any more. */
  lemma {:induction false} BlockedForever(allowed: Approved, worlds: seq<World>, events: seq<Event>, i: nat, j: nat)
    requires Run(allowed, worlds, events) && i <= j < |worlds| && Blocked(worlds[i])
    ensures BlockedSince(worlds[i], worlds[j])
  {
    if i < j {
      BlockedForever(allowed, worlds, events, i, j - 1);
      BlockedInRun(allowed, worlds, events, j);
    }
  }

  // ----- Worlds that some run reaches

  ghost predicate Reachable(allowed: Approved, w: World) {
    exists worlds, events :: Run(allowed, worlds, events) && worlds[|worlds| - 1] == w
  }

  lemma InitiallyReachable(allowed: Approved)
    ensures Reachable(allowed, INITIAL)
  {
    assert Run(allowed, [INITIAL], []);
  }

  lemma ReachedNext(allowed: Approved, w: World, event: Event, w': World)
    requires Reachable(allowed, w) && Next(allowed, w, event, w')
    ensures Reachable(allowed, w')
  {
    var worlds, events :| Run(allowed, worlds, events) && worlds[|worlds| - 1] == w;
    assert Run(allowed, worlds + [w'], events + [event]);
  }

  lemma ReachedInv(allowed: Approved, w: World)
    requires Reachable(allowed, w)
    ensures Inv(allowed, w)
  {
    var worlds, events :| Run(allowed, worlds, events) && worlds[|worlds| - 1] == w;
    RunKeepsInv(allowed, worlds, events, |worlds| - 1);
  }

  // ----- A ledger file torn at its creation

  /** A step tears the ledger file exactly when its creation raises half way, and no step mends it. */
  lemma TornIff(allowed: Approved, w: World, event: Event, w': World)
    requires Next(allowed, w, event, w')
    ensures w'.torn <==> w.torn || (event == OpenFails(true) && w.disk.None?)
  {
  }

  /** Behind a torn file nothing is ever opened, saved or sent. */
  lemma {:induction false} TornForever(allowed: Approved, worlds: seq<World>, events: seq<Event>, i: nat, j: nat)
    requires Run(allowed, worlds, events) && i <= j < |worlds| && worlds[i].torn
    ensures worlds[j].torn && worlds[j].disk.None? && worlds[j].memory.None? && worlds[j].sent == []
  {
    if i < j {
      TornForever(allowed, worlds, events, i, j - 1);
      TornIff(allowed, worlds[j - 1], events[j - 1], worlds[j]);
    } else {
      RunKeepsInv(allowed, worlds, events, i);
      TornBeforeSaved(allowed, worlds, events, i);
    }
  }

  lemma {:induction false} TornBeforeSaved(allowed: Approved, worlds: seq<World>, events: seq<Event>, i: nat)
    requires Run(allowed, worlds, events) && i < |worlds| && worlds[i].torn
    ensures worlds[i].disk.None?
  {
    if i > 0 {
      TornIff(allowed, worlds[i - 1], events[i - 1], worlds[i]);
      RunKeepsInv(allowed, worlds, events, i - 1);
      if worlds[i - 1].torn {
        TornBeforeSaved(allowed, worlds, events, i - 1);
      }
    }
  }
}
