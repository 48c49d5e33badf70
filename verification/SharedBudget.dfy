/**
 The shared budget as the process holds it: a ledger in memory that is saved after every change,
 and the adapter that scopes and drives one provider request at a time.
 */
module SharedBudgets {
  import opened Basics
  import opened SharedLedger
  import A = SharedAdapter

  /** What a ledger file was frozen for; a process with another protocol or other limits may not take it over. */
  datatype Protocol = Protocol(digest: string, maxUsd: real, maxRequests: nat)

  datatype Written = Created | AlreadyThere | Torn

  /** The run directory: the saved ledger and the receipts beside it. It outlives every process. */
  class Directory {
    var budget: Option<Ledger>
    var protocol: Option<Protocol>
    var files: Files

    constructor ()
      ensures budget == None && protocol == None && files == map[]
    {
      budget, protocol, files := None, None, map[];
    }

    /** Exclusive create: refused when the file is already there; when it raises half way something may be left. */
    method WriteNew(path: Path, file: File, fault: Fault) returns (written: Written)
      modifies this`files
      ensures written == if path in old(files) then AlreadyThere else if fault.ReceiptFails? then Torn else Created
      ensures files == if written.Created? then old(files)[path := file]
                       else if written.Torn? && fault.left.Some? then old(files)[path := fault.left.value]
                       else old(files)
    {
      if path in files {
        return AlreadyThere;
      }
      if fault.ReceiptFails? {
        if fault.left.Some? {
          files := files[path := fault.left.value];
        }
        return Torn;
      }
      files := files[path := file];
      return Created;
    }

    /** Atomic replacement of the saved ledger. */
    method ReplaceBudget(ledger: Ledger)
      modifies this`budget
      ensures budget == Some(ledger)
    {
      budget := Some(ledger);
    }
  }

  function KeySet(entries: seq<Row>): set<Key> {
    set i | 0 <= i < |entries| :: entries[i].key
  }

  lemma KeySetOneMore(entries: seq<Row>, row: Row)
    ensures KeySet(entries + [row]) == KeySet(entries) + {row.key}
    ensures KeysDistinct(entries + [row]) <==> KeysDistinct(entries) && row.key !in KeySet(entries)
  {
    var all := entries + [row];
    assert all[|entries|] == row && forall i :: 0 <= i < |entries| ==> all[i] == entries[i];
    forall key | key in KeySet(entries) ensures key in KeySet(all) {
      var i :| 0 <= i < |entries| && entries[i].key == key;
      assert all[i].key == key;
    }
  }

  /** There are as many different keys as rows exactly when no two rows share one. */
  lemma {:induction false} DistinctIffAsMany(entries: seq<Row>)
    ensures |KeySet(entries)| <= |entries| && (|KeySet(entries)| == |entries| <==> KeysDistinct(entries))
  {
    if entries != [] {
      var front, last := entries[..|entries| - 1], entries[|entries| - 1];
      assert entries == front + [last];
      DistinctIffAsMany(front);
      KeySetOneMore(front, last);
      if last.key in KeySet(front) {
        assert KeySet(front) + {last.key} == KeySet(front);
      }
    }
  }

  method AllDistinct(entries: seq<Row>) returns (distinct: bool)
    ensures distinct <==> KeysDistinct(entries)
  {
    var keys: set<Key> := {};
    for i := 0 to |entries|
      invariant keys == KeySet(entries[..i])
    {
      KeySetOneMore(entries[..i], entries[i]);
      assert entries[..i] + [entries[i]] == entries[..i + 1];
      keys := keys + {entries[i].key};
    }
    assert entries[..|entries|] == entries;
    DistinctIffAsMany(entries);
    distinct := |keys| == |entries|;
  }

  /** Every row is looked at once, and both totals are recomputed on the way. */
  method CheckRows(allowed: Approved, files: Files, entries: seq<Row>) returns (ok: bool, charged: real, known: real)
    ensures ok <==> forall k :: 0 <= k < |entries| ==> RowVerified(allowed, files, entries[k], k + 1)
    ensures ok ==> charged == Total(Charge, entries) && known == Total(Paid, entries)
  {
    ok, charged, known := true, 0.0, 0.0;
    for i := 0 to |entries|
      invariant charged == Total(Charge, entries[..i]) && known == Total(Paid, entries[..i])
      invariant forall k :: 0 <= k < i ==> RowVerified(allowed, files, entries[k], k + 1)
    {
      if !RowVerified(allowed, files, entries[i], i + 1) {
        return false, charged, known;
      }
      assert entries[..i + 1][..i] == entries[..i];
      charged := charged + Charge(entries[i]);
      known := known + Paid(entries[i]);
    }
    assert entries[..|entries|] == entries;
  }

  /** The check a loaded ledger has to pass. */
  method Verify(allowed: Approved, files: Files, l: Ledger) returns (ok: bool)
    ensures ok <==> Verified(allowed, files, l)
  {
    var distinct := AllDistinct(l.entries);
    if l.requests != |l.entries| || |l.entries| > MAX_REQUESTS || l.wires != Count(Wired, l.entries) || !distinct {
      return false;
    }
    var charged, known;
    ok, charged, known := CheckRows(allowed, files, l.entries);
    ok := ok && charged == l.charged && known == l.known && charged <= MAX_USD;
  }

  class SharedBudget {
    const allowed: Approved
    const directory: Directory
    var state: Ledger

    constructor (allowed: Approved, directory: Directory, state: Ledger)
      ensures this.allowed == allowed && this.directory == directory && this.state == state
    {
      this.allowed, this.directory, this.state := allowed, directory, state;
    }

    /** Memory and disk agree, as they do between operations while every write succeeds. */
    ghost predicate Saved()
      reads this, directory
    {
      directory.budget == Some(state)
    }

    /** Both ledgers are sound beside the receipts, the saved one and the one in memory, which may be ahead of it. */
    ghost predicate Valid()
      reads this, directory
    {
      && directory.budget.Some?
      && Sound(allowed, directory.files, directory.budget.value) && Sound(allowed, directory.files, state)
    }

    ghost function Now(): A.State
      reads this, directory
    {
      A.State(directory.budget, directory.files, state)
    }

    /** `op` had exactly its specified effect on memory, disk and receipts, with the fault it met. */
    twostate predicate Did(op: Op, fault: Fault, outcome: Outcome)
      reads this, directory
    {
      var a := Attempt(allowed, op, fault, old(directory.files), old(state));
      && Effect(directory.files, state, outcome) == a.effect
      && directory.budget == if a.saved then Some(a.effect.ledger) else old(directory.budget)
    }

    /** Saving what is in memory; a save that raises leaves the saved ledger as it was. */
    method Save(fault: Fault, outcome: Outcome) returns (outcome': Outcome)
      modifies directory`budget
      ensures directory.budget == if fault.SaveFails? then old(directory.budget) else Some(state)
      ensures outcome' == if fault.SaveFails? then Raised(WriteFailed) else outcome
    {
      if fault.SaveFails? {
        return Raised(WriteFailed);
      }
      directory.ReplaceBudget(state);
      return outcome;
    }

    method HasKey(key: Key) returns (found: bool)
      ensures found <==> exists i :: 0 <= i < |state.entries| && state.entries[i].key == key
    {
      found := false;
      for i := 0 to |state.entries|
        invariant found <==> exists k :: 0 <= k < i && state.entries[k].key == key
      {
        if state.entries[i].key == key {
          found := true;
        }
      }
    }

    /** The guards of a reservation, in the source's order. */
    method Refusal(ns: string, sample: string, stage: Stage, taskId: string, maxOutput: int)
        returns (refused: Option<Error>)
      ensures forall body, bytes ::
                var op := Op.Reserve(ns, sample, stage, taskId, body, bytes, maxOutput);
                if refused.None? then Unrefused(allowed, op, state)
                else
                  ReserveEffect(allowed, op, directory.files, state)
                  == Effect(directory.files, state, Raised(refused.value))
    {
      if !InScope(allowed, ns, sample) {
        return Some(OutOfScope);
      }
      if state.blocked.Some? || state.active.Some? {
        return Some(Unavailable);
      }
      var duplicate := HasKey(LogicalKey(ns, sample, stage, taskId));
      if duplicate {
        return Some(DuplicateRequest);
      }
      if maxOutput != OutputCap(stage) {
        return Some(OutputCapChanged);
      }
      return None;
    }

    method Reserve(ns: string, sample: string, stage: Stage, taskId: string, body: string, bytes: nat, maxOutput: int,
                   fault: Fault)
        returns (outcome: Outcome)
      modifies this`state, directory`files, directory`budget
      ensures Did(Op.Reserve(ns, sample, stage, taskId, body, bytes, maxOutput), fault, outcome)
      ensures old(Valid()) ==> Valid()
    {
      ghost var op := Op.Reserve(ns, sample, stage, taskId, body, bytes, maxOutput);
      var refused := Refusal(ns, sample, stage, taskId, maxOutput);
      var reserved := Reservation(bytes, maxOutput);
      if refused.Some? {
        RefusedAttempt(allowed, op, fault, directory.files, state, refused.value);
        outcome := Raised(refused.value);
      } else if state.requests >= MAX_REQUESTS || state.charged + reserved > MAX_USD {
        CeilingAttempt(allowed, op, fault, directory.files, state);
        state := state.(blocked := Some(RequestOrCostCeiling));
        outcome := Save(fault, Raised(Unavailable));
      } else {
        AddAttempt(allowed, op, fault, directory.files, state);
        outcome := AddReservation(LogicalKey(ns, sample, stage, taskId), reserved, body, fault);
      }
      if old(Valid()) {
        AttemptSound(allowed, op, fault, old(directory.files), old(state));
      }
    }

    /** The receipt first, then the row, then the save. */
    method AddReservation(key: Key, reserved: real, body: string, fault: Fault) returns (outcome: Outcome)
      modifies this`state, directory`files, directory`budget
      ensures var path, request := RequestPath(old(state.requests) + 1), RequestFile(key, body);
              if path in old(directory.files) then
                outcome == Raised(FileExists) && state == old(state) && directory.files == old(directory.files)
                && directory.budget == old(directory.budget)
              else if fault.ReceiptFails? then
                outcome == Raised(WriteFailed) && state == old(state) && directory.budget == old(directory.budget)
                && directory.files == (if fault.left.Some? then old(directory.files)[path := fault.left.value]
                                       else old(directory.files))
              else
                && state == AfterReserve(old(state), key, reserved, request)
                && directory.files == old(directory.files)[path := request]
                && outcome == (if fault.SaveFails? then Raised(WriteFailed) else Done)
                && directory.budget == if fault.SaveFails? then old(directory.budget) else Some(state)
    {
      var sequence := state.requests + 1;
      var request := RequestFile(key, body);
      var written := directory.WriteNew(RequestPath(sequence), request, fault);
      if !written.Created? {
        return Raised(if written.Torn? then WriteFailed else FileExists);
      }
      state := state.(entries := state.entries + [NewRow(sequence, key, reserved, request)]);
      state := state.(requests := sequence);
      state := state.(active := Some(sequence));
      state := state.(charged := state.charged + reserved);
      outcome := Save(fault, Done);
    }

    method Wire(genuine: bool, fault: Fault) returns (outcome: Outcome)
      modifies this`state, directory`files, directory`budget
      ensures Did(Op.Wire(genuine), fault, outcome)
      ensures old(Valid()) ==> Valid()
    {
      if !HasActive(state) {
        outcome := Raised(NoActiveRequest);
      } else if state.blocked.Some? || ActiveRow(state).wire || state.wires >= state.requests || !genuine {
        outcome := Raised(UnexpectedWire);
      } else {
        state := SetActiveRow(state, ActiveRow(state).(wire := true));
        state := state.(wires := state.wires + 1);
        outcome := Save(fault, Done);
      }
      if old(Valid()) {
        AttemptSound(allowed, Op.Wire(genuine), fault, old(directory.files), old(state));
      }
    }

    /** The usage record settles the active row, or is refused; either way the row is saved. */
    method Meter(usage: Usage, fault: Fault) returns (outcome: Outcome)
      requires HasActive(state)
      modifies this`state, directory`budget
      ensures var m := Metered(usage, old(state));
              state == m.ledger && outcome == if fault.SaveFails? then Raised(WriteFailed) else m.outcome
      ensures directory.budget == if fault.SaveFails? then old(directory.budget) else Some(state)
    {
      var row := ActiveRow(state);
      if !ValidUsage(usage) || !row.wire || !row.status.Reserved? {
        outcome := Save(fault, Raised(InvalidUsage));
      } else if Cost(usage) > row.reserved {
        outcome := Save(fault, Raised(CostExceedsReservation));
      } else {
        state := SetActiveRow(state, row.(usage := Some(usage), paid := Some(Cost(usage)), status := UsageKnown));
        state := state.(known := state.known + Cost(usage));
        state := state.(charged := state.charged + (Cost(usage) - row.reserved));
        outcome := Save(fault, Done);
      }
    }

    method Respond(text: string, usage: Usage, fault: Fault) returns (outcome: Outcome)
      modifies this`state, directory`files, directory`budget
      ensures Did(Op.Respond(text, usage), fault, outcome)
      ensures old(Valid()) ==> Valid()
    {
      if !HasActive(state) {
        outcome := Raised(NoActiveRequest);
      } else {
        var row := ActiveRow(state);
        var written := directory.WriteNew(ResponsePath(row.sequence), ResponseFile(text), fault);
        if !written.Created? {
          outcome := Raised(if written.Torn? then WriteFailed else FileExists);
        } else {
          row := row.(response := Some(ResponseFile(text)));
          state := SetActiveRow(state, row);
          if usage.NullUsage? {
            outcome := Raised(InvalidUsage);
          } else {
            outcome := Meter(usage, fault);
          }
        }
      }
      if old(Valid()) {
        AttemptSound(allowed, Op.Respond(text, usage), fault, old(directory.files), old(state));
      }
    }

    method Finish(text: string, fault: Fault) returns (outcome: Outcome)
      modifies this`state, directory`files, directory`budget
      ensures Did(Op.Finish(text), fault, outcome)
      ensures old(Valid()) ==> Valid()
    {
      if !HasActive(state) {
        outcome := Raised(NoActiveRequest);
      } else if !ActiveRow(state).status.UsageKnown? {
        outcome := Raised(NotMetered);
      } else {
        var row := ActiveRow(state);
        var written := directory.WriteNew(ModelResponsePath(row.sequence), ModelResponseFile(text), fault);
        if !written.Created? {
          outcome := Raised(if written.Torn? then WriteFailed else FileExists);
        } else {
          state := SetActiveRow(state, row.(modelResponse := Some(ModelResponseFile(text)), status := Complete));
          state := state.(active := None);
          outcome := Save(fault, Done);
        }
      }
      if old(Valid()) {
        AttemptSound(allowed, Op.Finish(text), fault, old(directory.files), old(state));
      }
    }

    method FailActive(fault: Fault) returns (outcome: Outcome)
      modifies this`state, directory`files, directory`budget
      ensures Did(Op.FailActive, fault, outcome)
      ensures old(Valid()) ==> Valid()
    {
      outcome := Done;
      if HasActive(state) {
        state := SetActiveRow(state, ActiveRow(state).(status := Unresolved));
        state := state.(blocked := Some(UnresolvedProviderOutcome));
        outcome := Save(fault, Done);
      }
      if old(Valid()) {
        AttemptSound(allowed, Op.FailActive, fault, old(directory.files), old(state));
      }
    }

    /** The sequence numbers of a sample's rows, and whether a core request is among them. */
    method Related(ns: string, sample: string) returns (sequences: seq<nat>, core: bool)
      ensures sequences == SequencesOf(state.entries, ns, sample)
      ensures core <==> HasCoreRow(state.entries, ns, sample)
    {
      sequences, core := [], false;
      for i := 0 to |state.entries|
        invariant sequences == SequencesOf(state.entries[..i], ns, sample)
        invariant core <==> exists k :: 0 <= k < i && ForSample(state.entries[k], ns, sample) &&
                                        state.entries[k].key.stage.Stage1?
      {
        var row := state.entries[i];
        assert state.entries[..i + 1][..i] == state.entries[..i];
        if ForSample(row, ns, sample) {
          sequences := sequences + [row.sequence];
          core := core || row.key.stage.Stage1?;
        }
      }
      assert state.entries[..|state.entries|] == state.entries;
    }

    method SaveResult(ns: string, sample: string, result: string, fault: Fault) returns (outcome: Outcome)
      modifies this`state, directory`files, directory`budget
      ensures Did(Op.SaveResult(ns, sample, result), fault, outcome)
      ensures old(Valid()) ==> Valid()
    {
      var sequences, core := Related(ns, sample);
      if !InScope(allowed, ns, sample) {
        outcome := Raised(OutOfScope);
      } else if !core {
        outcome := Raised(NoCoreReceipt);
      } else {
        outcome := StoreResult(ns, sample, ResultFile(ns, sample, result, sequences), fault);
      }
      if old(Valid()) {
        AttemptSound(allowed, Op.SaveResult(ns, sample, result), fault, old(directory.files), old(state));
      }
    }

    /** The result file first, then the sample's rows, then the save. */
    method StoreResult(ns: string, sample: string, file: File, fault: Fault) returns (outcome: Outcome)
      modifies this`state, directory`files, directory`budget
      ensures var path := ResultPath(ns, sample);
              if path in old(directory.files) then
                outcome == Raised(FileExists) && state == old(state) && directory.files == old(directory.files)
                && directory.budget == old(directory.budget)
              else if fault.ReceiptFails? then
                outcome == Raised(WriteFailed) && state == old(state) && directory.budget == old(directory.budget)
                && directory.files == (if fault.left.Some? then old(directory.files)[path := fault.left.value]
                                       else old(directory.files))
              else
                && state == old(state).(entries := WithResult(old(state).entries, ns, sample, file))
                && directory.files == old(directory.files)[path := file]
                && outcome == (if fault.SaveFails? then Raised(WriteFailed) else Done)
                && directory.budget == if fault.SaveFails? then old(directory.budget) else Some(state)
    {
      var written := directory.WriteNew(ResultPath(ns, sample), file, fault);
      if !written.Created? {
        return Raised(if written.Torn? then WriteFailed else FileExists);
      }
      AttachResult(ns, sample, file);
      outcome := Save(fault, Done);
    }

    method AttachResult(ns: string, sample: string, file: File)
      modifies this`state
      ensures state == old(state).(entries := WithResult(old(state).entries, ns, sample, file))
    {
      ghost var before := state.entries;
      var entries := state.entries;
      for i := 0 to |entries|
        invariant |entries| == |before|
        invariant forall k :: 0 <= k < i ==>
                    entries[k] == if ForSample(before[k], ns, sample) then before[k].(result := Some(file))
                                  else before[k]
        invariant forall k :: i <= k < |entries| ==> entries[k] == before[k]
      {
        if ForSample(entries[i], ns, sample) {
          entries := entries[i := entries[i].(result := Some(file))];
        }
      }
      assert entries == WithResult(before, ns, sample, file);
      state := state.(entries := entries);
    }

    /** Reading back a saved result changes nothing; it is refused while any of the sample's rows has none. */
    method Prior(ns: string, sample: string) returns (r: Result<Option<File>, Error>)
      ensures r == PriorResult(allowed, directory.files, state, ns, sample)
    {
      if !InScope(allowed, ns, sample) {
        return Err(OutOfScope);
      }
      var found: Option<nat> := None;
      var missing, inconsistent := false, false;
      for i := 0 to |state.entries|
        invariant found.Some? <==> exists k :: 0 <= k < i && ForSample(state.entries[k], ns, sample)
        invariant found.Some? ==> found.value < i && ForSample(state.entries[found.value], ns, sample)
        invariant missing <==> exists k :: 0 <= k < i && ForSample(state.entries[k], ns, sample) &&
                                           state.entries[k].result.None?
        invariant inconsistent ==>
            exists k, m :: 0 <= k < m < i && ForSample(state.entries[k], ns, sample)
                           && ForSample(state.entries[m], ns, sample)
                           && state.entries[k].result != state.entries[m].result
        invariant !inconsistent ==>
            forall k :: 0 <= k < i && ForSample(state.entries[k], ns, sample) ==>
                          state.entries[k].result == state.entries[found.value].result
      {
        if ForSample(state.entries[i], ns, sample) {
          if found.None? {
            found := Some(i);
          }
          missing := missing || state.entries[i].result.None?;
          inconsistent := inconsistent || state.entries[i].result != state.entries[found.value].result;
        }
      }
      if found.None? {
        return Ok(None);
      }
      if missing {
        return Err(NoCompleteResult);
      }
      if inconsistent {
        return Err(InconsistentResult);
      }
      var row := state.entries[found.value];
      if !FileIs(directory.files, ResultPath(ns, sample), row.result) {
        return Err(ResultChanged);
      }
      return Ok(row.result);
    }
  }

  /**
   Opening refuses a ledger frozen for another protocol or other limits, and one that fails its check; it takes over any
   other, or creates one, and blocks one with an unfinished request.
   */
  method Open(allowed: Approved, directory: Directory, digest: string) returns (budget: Option<SharedBudget>)
    modifies directory`budget, directory`protocol
    ensures budget.None? <==>
            old(directory.budget).Some?
            && (old(directory.protocol) != Some(Protocol(digest, MAX_USD, MAX_REQUESTS))
                || !Verified(allowed, directory.files, old(directory.budget).value))
    ensures budget.None? ==> directory.budget == old(directory.budget) && directory.protocol == old(directory.protocol)
    ensures budget.Some? ==>
              && fresh(budget.value) && budget.value.allowed == allowed && budget.value.directory == directory
              && budget.value.Saved() && directory.protocol == Some(Protocol(digest, MAX_USD, MAX_REQUESTS))
              && budget.value.state ==
                   (if old(directory.budget).Some? then Reopened(old(directory.budget).value) else FRESH)
    ensures budget.Some? && (old(directory.budget).Some? ==>
            Sound(allowed, directory.files, old(directory.budget).value)) ==>
              budget.value.Valid()
  {
    var state := FRESH;
    if directory.budget.Some? {
      if directory.protocol != Some(Protocol(digest, MAX_USD, MAX_REQUESTS)) {
        return None;
      }
      state := directory.budget.value;
    } else {
      directory.ReplaceBudget(state);
      directory.protocol := Some(Protocol(digest, MAX_USD, MAX_REQUESTS));
    }
    var ok := Verify(allowed, directory.files, state);
    if !ok {
      return None;
    }
    var opened' := new SharedBudget(allowed, directory, state);
    if state.active.Some? && state.blocked.None? {
      opened'.state := state.(blocked := Some(UnresolvedPriorRequest));
      directory.ReplaceBudget(opened'.state);
    }
    if old(directory.budget).Some? && Sound(allowed, directory.files, old(directory.budget).value) {
      ReopenedSound(allowed, directory.files, old(directory.budget).value);
    }
    return Some(opened');
  }

  /** One thread's view of the provider adapter over the budget; `scope` is what its extraction has open. */
  class BudgetedAdapter {
    const budget: SharedBudget
    const reference: string
    var scope: Option<A.Scope>

    constructor (budget: SharedBudget, reference: string)
      ensures this.budget == budget && this.reference == reference && scope == None
    {
      this.budget, this.reference, scope := budget, reference, None;
    }

    method EnterScope(entered: A.Scope) returns (ok: bool)
      modifies this
      ensures ok <==> InScope(budget.allowed, entered.ns, entered.sample) && old(scope).None?
      ensures scope == if ok then Some(entered) else old(scope)
    {
      ok := InScope(budget.allowed, entered.ns, entered.sample) && scope.None?;
      if ok {
        scope := Some(entered);
      }
    }

    method LeaveScope()
      modifies this
      ensures scope == None
    {
      scope := None;
    }

    /** A request that is still active is marked as unresolved, and the exception goes on. */
    method MarkFailed(error: Error, fault: Fault) returns (outcome: Outcome)
      modifies budget`state, budget.directory`files, budget.directory`budget
      ensures A.Step(budget.Now(), outcome) == A.Fail(budget.allowed, fault, error, old(budget.Now()))
    {
      outcome := budget.FailActive(fault);
      if outcome.Done? {
        outcome := Raised(error);
      }
    }

    /** The wire hook before every HTTP request the SDK attempts, until one is refused. */
    method RunWires(wires: seq<A.Sending>) returns (outcome: Outcome)
      modifies budget`state, budget.directory`files, budget.directory`budget
      ensures A.Step(budget.Now(), outcome) == A.Wires(budget.allowed, wires, old(budget.Now()))
    {
      outcome := Done;
      var i := 0;
      while i < |wires| && outcome.Done?
        invariant i <= |wires|
        invariant A.Wires(budget.allowed, wires, old(budget.Now())) ==
                  if outcome.Done? then A.Wires(budget.allowed, wires[i..], budget.Now())
                  else A.Step(budget.Now(), outcome)
      {
        outcome := budget.Wire(wires[i].genuine, wires[i].fault);
        i := i + 1;
      }
    }

    /** The reply is settled; anything else leaves the request unresolved. */
    method AnswerCall(call: A.Call, wired: Outcome) returns (outcome: Outcome)
      modifies budget`state, budget.directory`files, budget.directory`budget
      ensures A.Step(budget.Now(), outcome) == A.Answer(budget.allowed, call, A.Step(old(budget.Now()), wired))
    {
      if wired.Raised? {
        outcome := MarkFailed(wired.error, call.failing);
      } else if call.reply.None? {
        outcome := MarkFailed(ProviderRaised, call.failing);
      } else {
        outcome := budget.Respond(call.reply.value.text, call.reply.value.usage, call.answering);
        if outcome.Raised? {
          outcome := MarkFailed(outcome.error, call.failing);
        }
      }
    }

    /** Reserve under the request's own metadata, not the provider's word; then send, and settle what comes back. */
    method Transport(of: A.Metadata, call: A.Call) returns (outcome: Outcome)
      modifies budget`state, budget.directory`files, budget.directory`budget
      ensures A.Step(budget.Now(), outcome) == A.Transport(budget.allowed, of, call, old(budget.Now()))
    {
      outcome := budget.Reserve(of.ns, of.sample, of.stage, of.task, call.body, call.bytes, call.maxOutput,
          call.reserving);
      if outcome.Done? {
        outcome := RunWires(call.wires);
        outcome := AnswerCall(call, outcome);
      }
    }

    /** A metered reply is finished; anything else that is still active is marked as failed. */
    method SettleResponse(e: A.Ending) returns (outcome: Outcome)
      modifies budget`state, budget.directory`files, budget.directory`budget
      ensures A.Step(budget.Now(), outcome) == A.Settle(budget.allowed, e, old(budget.Now()))
    {
      if e.response.None? {
        outcome := MarkFailed(ProviderRaised, e.failing);
        return;
      }
      if !HasActive(budget.state) {
        return Done;
      }
      if ActiveRow(budget.state).status.UsageKnown? {
        outcome := budget.Finish(e.response.value, e.settling);
      } else {
        outcome := budget.FailActive(e.settling);
      }
      if outcome.Raised? {
        outcome := MarkFailed(outcome.error, e.failing);
      }
    }

    /** The calls of the provider, which may swallow what they raise. */
    method RunCalls(of: A.Metadata, calls: seq<A.Call>)
      modifies budget`state, budget.directory`files, budget.directory`budget
      ensures budget.Now() == A.Transports(budget.allowed, of, calls, old(budget.Now()))
    {
      var i := 0;
      while i < |calls|
        invariant i <= |calls|
        invariant A.Transports(budget.allowed, of, calls, old(budget.Now()))
                  == A.Transports(budget.allowed, of, calls[i..], budget.Now())
      {
        var swallowed := Transport(of, calls[i]);
        i := i + 1;
      }
    }

    /** One provider request. One that is not admitted reserves, sends and changes nothing. */
    method Complete(r: A.Request, calls: seq<A.Call>, e: A.Ending) returns (outcome: Outcome)
      modifies budget`state, budget.directory`files, budget.directory`budget
      ensures var admitted := A.Admit(scope, reference, r);
              A.Step(budget.Now(), outcome) ==
              if admitted.Ok? then A.Complete(budget.allowed, admitted.value, calls, e, old(budget.Now()))
              else A.Step(old(budget.Now()), Raised(admitted.error))
      ensures old(budget.Valid()) ==> budget.Valid()
      ensures old(budget.Valid()) && A.Admit(scope, reference, r).Ok? ==> A.IdleOrBlocked(budget.state)
      ensures old(budget.Valid()) && old(budget.Saved()) && outcome.Done? ==>
                budget.Saved() || A.LostCeiling(budget.Now())
    {
      var admitted := A.Admit(scope, reference, r);
      if admitted.Err? {
        return Raised(admitted.error);
      }
      RunCalls(admitted.value, calls);
      outcome := SettleResponse(e);
      if old(budget.Valid()) {
        A.CompleteLeavesIdleOrBlocked(budget.allowed, admitted.value, calls, e, old(budget.Now()));
        if old(budget.Saved()) {
          A.ReturnedIsSaved(budget.allowed, admitted.value, calls, e, old(budget.Now()));
        }
      }
    }
  }
}
