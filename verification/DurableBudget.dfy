/** The older budget as a process holds it: a ledger in memory, saved to one file after every change. */
module DurableBudgets {
  import opened Basics
  import opened DurableLedger
  import S = SharedLedger

  /** What a budget file was created for. */
  datatype Frozen = Frozen(protocol: string, limits: Limits, maxUsd: real)

  class BudgetFile {
    var saved: Option<Ledger>
    var frozen: Option<Frozen>

    constructor ()
      ensures saved == None && frozen == None
    {
      saved, frozen := None, None;
    }
  }

  lemma SamplesOneMore(entries: seq<Row>, row: Row)
    ensures SamplesDistinct(entries + [row]) <==>
            SamplesDistinct(entries) && !HasSample(entries, row.variant, row.sample)
  {
    var all := entries + [row];
    assert all[|entries|] == row && forall i :: 0 <= i < |entries| ==> all[i] == entries[i];
    if HasSample(entries, row.variant, row.sample) {
      var i :| 0 <= i < |entries| && entries[i].variant == row.variant && entries[i].sample == row.sample;
      assert all[i].variant == row.variant && all[i].sample == row.sample;
    }
  }

  lemma SamplesPrefix(entries: seq<Row>, n: nat)
    requires n <= |entries|
    ensures SamplesDistinct(entries) ==> SamplesDistinct(entries[..n])
  {
  }

  /** The rows of a resumed ledger, one after the other. */
  method CheckRows(entries: seq<Row>) returns (ok: bool)
    ensures ok <==> (forall i :: 0 <= i < |entries| ==> Settled(entries[i], i + 1)) && SamplesDistinct(entries)
  {
    for i := 0 to |entries|
      invariant (forall k :: 0 <= k < i ==> Settled(entries[k], k + 1)) && SamplesDistinct(entries[..i])
    {
      if !Settled(entries[i], i + 1) {
        return false;
      }
      SamplesOneMore(entries[..i], entries[i]);
      assert entries[..i] + [entries[i]] == entries[..i + 1];
      if HasSample(entries[..i], entries[i].variant, entries[i].sample) {
        SamplesPrefix(entries, i + 1);
        return false;
      }
    }
    assert entries[..|entries|] == entries;
    return true;
  }

  method PaidTotal(entries: seq<Row>) returns (total: real)
    ensures total == Total(Paid, entries)
  {
    total := 0.0;
    for i := 0 to |entries|
      invariant total == Total(Paid, entries[..i])
    {
      assert entries[..i + 1][..i] == entries[..i];
      total := total + Paid(entries[i]);
    }
    assert entries[..|entries|] == entries;
  }

  /** The resume check. */
  method VerifyCompletePrefix(limits: Limits, l: Ledger) returns (ok: bool)
    ensures ok <==> CompletePrefix(limits, l)
  {
    if l.requests != |l.entries| || l.wires != |l.entries| || l.requests > limits.maxRequests || l.charged > MAX_USD {
      return false;
    }
    var rows := CheckRows(l.entries);
    var total := PaidTotal(l.entries);
    return rows && total == l.known && total == l.charged;
  }

  class DurableBudget {
    const limits: Limits
    const file: BudgetFile
    var state: Ledger

    constructor (limits: Limits, file: BudgetFile, state: Ledger)
      ensures this.limits == limits && this.file == file && this.state == state
    {
      this.limits, this.file, this.state := limits, file, state;
    }

    /** Memory and disk agree, as they do between operations while every save succeeds. */
    ghost predicate Saved()
      reads this, file
    {
      file.saved == Some(state)
    }

    /** Both ledgers are sound, the saved one and the one in memory, which may be ahead of it. */
    ghost predicate Valid()
      reads this, file
    {
      ValidLimits(limits) && file.saved.Some? && Sound(limits, file.saved.value) && Sound(limits, state)
    }

    /** `op` had exactly its specified effect on memory and file, whether or not its save failed. */
    twostate predicate Did(op: Op, saveFails: bool, outcome: Outcome)
      reads this, file
    {
      var a := Attempt(limits, op, saveFails, old(state));
      Effect(state, outcome) == a.effect && file.saved == if a.saved then Some(a.effect.ledger) else old(file.saved)
    }

    method Save(saveFails: bool) returns (outcome: Outcome)
      modifies file`saved
      ensures file.saved == if saveFails then old(file.saved) else Some(state)
      ensures outcome == if saveFails then Raised(WriteFailed) else Done
    {
      if saveFails {
        return Raised(WriteFailed);
      }
      file.saved := Some(state);
      return Done;
    }

    method Reserve(approvedModel: bool, variant: Variant, sample: string, bytes: nat, maxOutput: nat, saveFails: bool)
        returns (outcome: Outcome)
      modifies this`state, file`saved
      ensures Did(Op.Reserve(approvedModel, variant, sample, bytes, maxOutput), saveFails, outcome)
      ensures old(Valid()) ==> Valid()
    {
      var reserved := Reservation(limits.pricing, bytes, maxOutput);
      if state.failure.Some? || state.active.Some? || !approvedModel {
        outcome := Raised(RunStopped);
      } else if variant == Unlisted || HasSample(state.entries, variant, sample) {
        outcome := Raised(InvalidSample);
      } else if state.requests + 1 > limits.maxRequests || state.charged + reserved > MAX_USD {
        outcome := Raised(CeilingReached);
      } else {
        AddReservation(variant, sample, reserved);
        outcome := Save(saveFails);
      }
      if old(Valid()) {
        PerformSound(limits, Op.Reserve(approvedModel, variant, sample, bytes, maxOutput), old(state));
      }
    }

    method AddReservation(variant: Variant, sample: string, reserved: real)
      modifies this`state
      ensures state == AfterReserve(old(state), variant, sample, reserved)
    {
      var sequence := state.requests + 1;
      state := state.(entries := state.entries + [Row(sequence, variant, sample, reserved, Reserved, false, None)]);
      state := state.(requests := sequence);
      state := state.(charged := state.charged + reserved);
      state := state.(active := Some(sequence));
    }

    method Wire(genuine: bool, saveFails: bool) returns (outcome: Outcome)
      modifies this`state, file`saved
      ensures Did(Op.Wire(genuine), saveFails, outcome)
      ensures old(Valid()) ==> Valid()
    {
      if !HasActive(state) {
        outcome := Raised(NoReservation);
      } else if !genuine || ActiveRow(state).wire || state.wires >= state.requests {
        outcome := Raised(UnexpectedWire);
      } else {
        state := SetActiveRow(state, ActiveRow(state).(wire := true));
        state := state.(wires := state.wires + 1);
        outcome := Save(saveFails);
      }
      if old(Valid()) {
        PerformSound(limits, Op.Wire(genuine), old(state));
      }
    }

    method Settle(usage: S.Usage, saveFails: bool) returns (outcome: Outcome)
      modifies this`state, file`saved
      ensures Did(Op.Settle(usage), saveFails, outcome)
      ensures old(Valid()) ==> Valid()
    {
      if !HasActive(state) {
        outcome := Raised(NoReservation);
      } else if !ActiveRow(state).status.Reserved? {
        outcome := Raised(SettledTwice);
      } else if !S.ValidUsage(usage) || !ActiveRow(state).wire {
        outcome := Raised(InvalidUsage);
      } else if Cost(limits.pricing, usage) > ActiveRow(state).reserved {
        outcome := Raised(UsageExceedsReservation);
      } else {
        var row, cost := ActiveRow(state), Cost(limits.pricing, usage);
        state := SetActiveRow(state, row.(paid := Some(cost), status := UsageKnown));
        state := state.(charged := state.charged + (cost - row.reserved));
        state := state.(known := state.known + cost);
        outcome := Save(saveFails);
      }
      if old(Valid()) {
        PerformSound(limits, Op.Settle(usage), old(state));
      }
    }

    method Finish(saveFails: bool) returns (outcome: Outcome)
      modifies this`state, file`saved
      ensures Did(Op.Finish, saveFails, outcome)
      ensures old(Valid()) ==> Valid()
    {
      if !HasActive(state) {
        outcome := Raised(NoReservation);
      } else if !ActiveRow(state).status.UsageKnown? {
        outcome := Raised(Unmetered);
      } else {
        state := SetActiveRow(state, ActiveRow(state).(status := Complete));
        state := state.(active := None);
        outcome := Save(saveFails);
      }
      if old(Valid()) {
        PerformSound(limits, Op.Finish, old(state));
      }
    }

    method Fail(error: string, saveFails: bool) returns (outcome: Outcome)
      modifies this`state, file`saved
      ensures Did(Op.Fail(error), saveFails, outcome)
      ensures old(Valid()) ==> Valid()
    {
      state := state.(failure := Some(error));
      if HasActive(state) {
        state := SetActiveRow(state, ActiveRow(state).(status := Stopped));
      }
      outcome := Save(saveFails);
      if old(Valid()) {
        PerformSound(limits, Op.Fail(error), old(state));
      }
    }
  }

  /**
   A run is opened anew, or resumed from a complete prefix under the protocol, limits and prices it was created with;
   anything else is refused and left as it is.
   */
  method Open(limits: Limits, protocol: string, file: BudgetFile) returns (budget: Option<DurableBudget>)
    modifies file
    ensures budget.Some? <==>
              && ValidLimits(limits)
              && (old(file.saved).Some? ==>
                    old(file.frozen) == Some(Frozen(protocol, limits, MAX_USD))
                        && Resumable(limits, old(file.saved).value))
    ensures budget.None? ==> file.saved == old(file.saved) && file.frozen == old(file.frozen)
    ensures budget.Some? ==>
              && fresh(budget.value) && budget.value.limits == limits && budget.value.file == file
                   && budget.value.Saved()
              && file.frozen == Some(Frozen(protocol, limits, MAX_USD))
              && budget.value.state == (if old(file.saved).Some? then old(file.saved).value else FRESH)
  {
    if !ValidLimits(limits) {
      return None;
    }
    if file.saved.None? {
      file.saved := Some(FRESH);
      file.frozen := Some(Frozen(protocol, limits, MAX_USD));
    } else if file.frozen != Some(Frozen(protocol, limits, MAX_USD)) {
      return None;
    } else if file.saved.value.failure.Some? || file.saved.value.active.Some? {
      return None;
    }
    var ok := VerifyCompletePrefix(limits, file.saved.value);
    if !ok {
      return None;
    }
    var budget' := new DurableBudget(limits, file, file.saved.value);
    return Some(budget');
  }
}
