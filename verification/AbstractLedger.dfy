/**
 What the two budgets have in common: amounts already settled, at most one pending reservation, and a stop flag.
 Each concrete operation is one of five abstract steps or leaves the abstract ledger as it was.
 */
module AbstractLedger {
  import opened Basics

  datatype Pending = Pending(reserved: real, wired: bool, paid: Option<real>)

  datatype Ledger = Ledger(settled: seq<real>, pending: Option<Pending>, stopped: bool)

  /** A ledger is strict when it refuses to wire after a stop. */
  datatype Policy = Policy(cap: real, maxRequests: nat, strict: bool)

  function PendingCharge(l: Ledger): real {
    if l.pending.None? then 0.0
    else if l.pending.value.paid.Some? then l.pending.value.paid.value
    else l.pending.value.reserved
  }

  function Charge(l: Ledger): real {
    Total(Same, l.settled) + PendingCharge(l)
  }

  function Requests(l: Ledger): nat {
    |l.settled| + if l.pending.Some? then 1 else 0
  }

  function Wires(l: Ledger): nat {
    |l.settled| + if l.pending.Some? && l.pending.value.wired then 1 else 0
  }

  predicate Reserves(p: Policy, l: Ledger, l': Ledger) {
    && l.pending.None? && !l.stopped
    && l'.pending.Some? && !l'.pending.value.wired && l'.pending.value.paid.None? && l'.pending.value.reserved >= 0.0
    && Requests(l) < p.maxRequests && Charge(l) + l'.pending.value.reserved <= p.cap
    && l' == l.(pending := l'.pending)
  }

  predicate WiresNow(p: Policy, l: Ledger, l': Ledger) {
    && l.pending.Some? && !l.pending.value.wired && (p.strict ==> !l.stopped)
    && l' == l.(pending := Some(l.pending.value.(wired := true)))
  }

  predicate Settles(l: Ledger, l': Ledger) {
    && l.pending.Some? && l.pending.value.wired && l.pending.value.paid.None?
    && l'.pending.Some? && l'.pending.value.paid.Some?
    && 0.0 <= l'.pending.value.paid.value <= l.pending.value.reserved
    && l' == l.(pending := Some(l.pending.value.(paid := l'.pending.value.paid)))
  }

  predicate Finishes(l: Ledger, l': Ledger) {
    && l.pending.Some? && l.pending.value.paid.Some?
    && l' == l.(settled := l.settled + [l.pending.value.paid.value], pending := None)
  }

  predicate Stops(l: Ledger, l': Ledger) {
    l' == l.(stopped := true)
  }

  predicate Next(p: Policy, l: Ledger, l': Ledger) {
    l' == l || Reserves(p, l, l') || WiresNow(p, l, l') || Settles(l, l') || Finishes(l, l') || Stops(l, l')
  }

  predicate Inv(p: Policy, l: Ledger) {
    && Charge(l) <= p.cap && Requests(l) <= p.maxRequests
    && (l.pending.Some? && l.pending.value.paid.Some? ==> l.pending.value.wired)
  }

  /** Every abstract step keeps the charge under the cap and the wires at most one behind the requests. */
  lemma NextKeepsInv(p: Policy, l: Ledger, l': Ledger)
    requires Inv(p, l) && Next(p, l, l')
    ensures Inv(p, l') && Requests(l') - 1 <= Wires(l') <= Requests(l')
  {
    if Finishes(l, l') {
      TotalAppend(Same, l.settled, l.pending.value.paid.value);
    }
  }

  /**
   What a step can add: one request, when all before it were wired and nothing stopped the ledger, and the charge does
   not fall; or one wire, for a request that lacked it, at no further charge; and neither is ever taken back.
   */
  lemma NextAdds(p: Policy, l: Ledger, l': Ledger)
    requires Inv(p, l) && Next(p, l, l')
    ensures Requests(l) <= Requests(l') <= Requests(l) + 1 && Wires(l) <= Wires(l') <= Wires(l) + 1
    ensures Requests(l') > Requests(l) ==>
              Wires(l') == Wires(l) == Requests(l) && !l.stopped && Charge(l') >= Charge(l)
    ensures Wires(l') > Wires(l) ==>
              Requests(l') == Requests(l) == Wires(l') && Charge(l') == Charge(l) && (p.strict ==> !l.stopped)
  {
  }

  /** After a stop nothing is reserved; a strict ledger wires nothing either. */
  lemma StoppedStep(p: Policy, l: Ledger, l': Ledger)
    requires Inv(p, l) && Next(p, l, l') && l.stopped
    ensures l'.stopped && Requests(l') == Requests(l)
    ensures p.strict || l.pending.None? || l.pending.value.wired ==> Wires(l') == Wires(l)
  {
  }
}

/** The shared budget is a strict abstract ledger. */
module SharedRefinement {
  import opened Basics
  import opened SharedLedger
  import A = AbstractLedger

  const POLICY := A.Policy(MAX_USD, MAX_REQUESTS, true)

  function Charges(entries: seq<Row>): (r: seq<real>)
    ensures |r| == |entries| && forall i :: 0 <= i < |r| ==> r[i] == Charge(entries[i])
  {
    seq(|entries|, i requires 0 <= i < |entries| => Charge(entries[i]))
  }

  function Abstraction(l: Ledger): A.Ledger {
    if l.active.Some? && l.entries != [] then
      A.Ledger(Charges(l.entries[..|l.entries| - 1]),
               Some(A.Pending(Last(l).reserved, Last(l).wire, Last(l).paid)), l.blocked.Some?)
    else A.Ledger(Charges(l.entries), None, l.blocked.Some?)
  }

  /** Charge, requests and wires are those of the concrete ledger. */
  lemma AbstractionCounts(allowed: Approved, files: Files, l: Ledger)
    requires Sound(allowed, files, l)
    ensures A.Charge(Abstraction(l)) == l.charged && A.Requests(Abstraction(l)) == l.requests
    ensures A.Wires(Abstraction(l)) == l.wires && l.requests - 1 <= l.wires <= l.requests
    ensures A.Inv(POLICY, Abstraction(l))
  {
    if l.active.Some? {
      var front := l.entries[..|l.entries| - 1];
      TotalSame(Same, Charges(front), Charge, front);
      CountAll(Wired, front);
    } else {
      TotalSame(Same, Charges(l.entries), Charge, l.entries);
      CountAll(Wired, l.entries);
    }
  }

  /** Reopening is a stop, or invisible. */
  lemma ReopenedRefines(l: Ledger)
    ensures A.Next(POLICY, Abstraction(l), Abstraction(Reopened(l)))
  {
  }

  /** An operation that meets a failing write is the whole operation in memory, or invisible there. */
  lemma AttemptRefines(allowed: Approved, op: Op, fault: Fault, files: Files, l: Ledger)
    requires Sound(allowed, files, l)
    ensures A.Next(POLICY, Abstraction(l), Abstraction(Attempt(allowed, op, fault, files, l).effect.ledger))
  {
    PerformRefines(allowed, op, files, l);
  }

  /** Every operation, whatever its outcome, is an abstract step or invisible. */
  lemma PerformRefines(allowed: Approved, op: Op, files: Files, l: Ledger)
    requires Sound(allowed, files, l)
    ensures A.Next(POLICY, Abstraction(l), Abstraction(Perform(allowed, op, files, l).ledger))
  {
    match op
    case Reserve(_, _, _, _, _, _, _) =>
      AbstractionCounts(allowed, files, l);
      ReserveRefines(allowed, op, files, l);
    case Wire(_) => WireRefines(allowed, op, files, l);
    case Respond(_, _) => RespondRefines(allowed, op, files, l);
    case Finish(_) => FinishRefines(allowed, op, files, l);
    case FailActive => FailRefines(allowed, files, l);
    case SaveResult(_, _, _) => SaveResultRefines(allowed, op, files, l);
  }

  lemma WireRefines(allowed: Approved, op: Op, files: Files, l: Ledger)
    requires Sound(allowed, files, l) && op.Wire?
    ensures A.Next(POLICY, Abstraction(l), Abstraction(WireEffect(op, files, l).ledger))
  {
    LastRowRefines(l, WireEffect(op, files, l).ledger);
  }

  lemma RespondRefines(allowed: Approved, op: Op, files: Files, l: Ledger)
    requires Sound(allowed, files, l) && op.Respond?
    ensures A.Next(POLICY, Abstraction(l), Abstraction(RespondEffect(op, files, l).ledger))
  {
    if HasActive(l) && ResponsePath(ActiveRow(l).sequence) !in files {
      ActiveIsLast(allowed, files, l);
      RespondCases(op, files, l);
      if ValidUsage(op.usage) {
        CostNotNegative(op.usage);
      }
      LastRowRefines(l, RespondEffect(op, files, l).ledger);
    }
  }

  lemma FailRefines(allowed: Approved, files: Files, l: Ledger)
    requires Sound(allowed, files, l)
    ensures A.Next(POLICY, Abstraction(l), Abstraction(FailEffect(files, l).ledger))
  {
    LastRowRefines(l, FailEffect(files, l).ledger);
  }

  lemma ReserveRefines(allowed: Approved, op: Op, files: Files, l: Ledger)
    requires Sound(allowed, files, l) && op.Reserve?
    requires A.Charge(Abstraction(l)) == l.charged && A.Requests(Abstraction(l)) == l.requests
    ensures A.Next(POLICY, Abstraction(l), Abstraction(ReserveEffect(allowed, op, files, l).ledger))
  {
    var e := ReserveEffect(allowed, op, files, l);
    if e.outcome.Done? {
      assert e.ledger.entries[..|e.ledger.entries| - 1] == l.entries;
    }
  }

  /** A change of the last row alone shows only in the pending reservation. */
  lemma LastRowRefines(l: Ledger, l': Ledger)
    requires l' == l || (HasActive(l) && l.active.value == |l.entries| == |l'.entries| && l'.active == l.active
                         && l'.entries == l.entries[|l.entries| - 1 := Last(l')])
    requires l' != l ==>
               var a, b := Last(l), Last(l');
               && b.reserved == a.reserved
               && (l.blocked.Some? ==> l'.blocked.Some?)
               && ((a.wire == b.wire && a.paid == b.paid)
                   || (!a.wire && b.wire && a.paid == b.paid && l'.blocked == l.blocked == None)
                   || (a.wire && b.wire && a.paid.None? && b.paid.Some? && 0.0 <= b.paid.value <= a.reserved
                       && l'.blocked == l.blocked))
    ensures A.Next(POLICY, Abstraction(l), Abstraction(l'))
  {
    if l' != l {
      assert l'.entries[..|l.entries| - 1] == l.entries[..|l.entries| - 1];
    }
  }

  lemma FinishRefines(allowed: Approved, op: Op, files: Files, l: Ledger)
    requires Sound(allowed, files, l) && op.Finish?
    ensures A.Next(POLICY, Abstraction(l), Abstraction(FinishEffect(op, files, l).ledger))
  {
    var e := FinishEffect(op, files, l);
    if e.outcome.Done? {
      assert Charges(e.ledger.entries) == Charges(l.entries[..|l.entries| - 1]) + [Last(l).paid.value];
    }
  }

  lemma ResultsInvisible(l: Ledger, ns: string, sample: string, file: File)
    ensures Abstraction(l.(entries := WithResult(l.entries, ns, sample, file))) == Abstraction(l)
  {
    var entries' := WithResult(l.entries, ns, sample, file);
    assert Charges(entries') == Charges(l.entries);
    if l.entries != [] {
      var n := |l.entries| - 1;
      assert Charges(entries'[..n]) == Charges(l.entries[..n]);
    }
  }

  lemma SaveResultRefines(allowed: Approved, op: Op, files: Files, l: Ledger)
    requires op.SaveResult?
    ensures Abstraction(SaveResultEffect(allowed, op, files, l).ledger) == Abstraction(l)
  {
    ResultsInvisible(l, op.ns, op.sample,
        ResultFile(op.ns, op.sample, op.result, SequencesOf(l.entries, op.ns, op.sample)));
  }
}

/** The older budget is an abstract ledger that is not strict. */
module DurableRefinement {
  import opened Basics
  import opened DurableLedger
  import A = AbstractLedger

  function PolicyOf(limits: Limits): A.Policy {
    A.Policy(MAX_USD, limits.maxRequests, false)
  }

  function Charges(entries: seq<Row>): (r: seq<real>)
    ensures |r| == |entries| && forall i :: 0 <= i < |r| ==> r[i] == Charge(entries[i])
  {
    seq(|entries|, i requires 0 <= i < |entries| => Charge(entries[i]))
  }

  function Abstraction(l: Ledger): A.Ledger {
    if l.active.Some? && l.entries != [] then
      A.Ledger(Charges(l.entries[..|l.entries| - 1]),
               Some(A.Pending(Last(l).reserved, Last(l).wire, Last(l).paid)), l.failure.Some?)
    else A.Ledger(Charges(l.entries), None, l.failure.Some?)
  }

  lemma AllButLastWired(limits: Limits, l: Ledger)
    requires Sound(limits, l) && l.entries != []
    ensures Count(Wired, l.entries) == |l.entries| - 1 + if Last(l).wire then 1 else 0
  {
    CountAll(Wired, l.entries[..|l.entries| - 1]);
  }

  lemma AbstractCharge(limits: Limits, l: Ledger)
    requires Sound(limits, l)
    ensures A.Charge(Abstraction(l)) == l.charged
  {
    if l.active.Some? {
      var front := l.entries[..|l.entries| - 1];
      TotalSame(Same, Charges(front), Charge, front);
    } else {
      TotalSame(Same, Charges(l.entries), Charge, l.entries);
    }
  }

  /** Charge, requests and wires are those of the concrete ledger, which is at most one wire behind its requests. */
  lemma AbstractionCounts(limits: Limits, l: Ledger)
    requires Sound(limits, l)
    ensures A.Charge(Abstraction(l)) == l.charged && A.Requests(Abstraction(l)) == l.requests
    ensures A.Wires(Abstraction(l)) == l.wires && l.requests - 1 <= l.wires <= l.requests
    ensures A.Inv(PolicyOf(limits), Abstraction(l))
  {
    AbstractCharge(limits, l);
    if l.entries != [] {
      AllButLastWired(limits, l);
    }
  }

  lemma ReserveRefines(limits: Limits, op: Op, l: Ledger)
    requires Sound(limits, l) && ValidLimits(limits) && op.Reserve?
    ensures A.Next(PolicyOf(limits), Abstraction(l), Abstraction(ReserveEffect(limits, op, l).ledger))
  {
    AbstractionCounts(limits, l);
    var l' := ReserveEffect(limits, op, l).ledger;
    ReservationNonNegative(limits.pricing, op.bytes, op.maxOutput);
    if l' != l { assert l'.entries[..|l'.entries| - 1] == l.entries; }
  }

  lemma WireRefines(limits: Limits, op: Op, l: Ledger)
    requires Sound(limits, l) && op.Wire?
    ensures A.Next(PolicyOf(limits), Abstraction(l), Abstraction(WireEffect(op, l).ledger))
  {
    AbstractionCounts(limits, l);
    var l' := WireEffect(op, l).ledger;
    if l' != l { assert l'.entries[..|l.entries| - 1] == l.entries[..|l.entries| - 1]; }
  }

  lemma SettleRefines(limits: Limits, op: Op, l: Ledger)
    requires Sound(limits, l) && ValidLimits(limits) && op.Settle?
    ensures A.Next(PolicyOf(limits), Abstraction(l), Abstraction(SettleEffect(limits, op, l).ledger))
  {
    AbstractionCounts(limits, l);
    var l' := SettleEffect(limits, op, l).ledger;
    if l' != l {
      CostNonNegative(limits.pricing, op.usage);
      assert l'.entries[..|l.entries| - 1] == l.entries[..|l.entries| - 1];
    }
  }

  lemma FinishRefines(limits: Limits, l: Ledger)
    requires Sound(limits, l)
    ensures A.Next(PolicyOf(limits), Abstraction(l), Abstraction(FinishEffect(l).ledger))
  {
    AbstractionCounts(limits, l);
    var l' := FinishEffect(l).ledger;
    if l' != l { assert Charges(l'.entries) == Charges(l.entries[..|l.entries| - 1]) + [Last(l).paid.value]; }
  }

  lemma FailRefines(limits: Limits, op: Op, l: Ledger)
    requires Sound(limits, l) && op.Fail?
    ensures A.Next(PolicyOf(limits), Abstraction(l), Abstraction(FailEffect(op, l).ledger))
  {
    AbstractionCounts(limits, l);
    var l' := FailEffect(op, l).ledger;
    if HasActive(l) { assert l'.entries[..|l.entries| - 1] == l.entries[..|l.entries| - 1]; }
  }

  /** Every operation, whatever its outcome, is an abstract step or invisible. */
  lemma PerformRefines(limits: Limits, op: Op, l: Ledger)
    requires Sound(limits, l) && ValidLimits(limits)
    ensures A.Next(PolicyOf(limits), Abstraction(l), Abstraction(Perform(limits, op, l).ledger))
  {
    match op
    case Reserve(_, _, _, _, _) => ReserveRefines(limits, op, l);
    case Wire(_) => WireRefines(limits, op, l);
    case Settle(_) => SettleRefines(limits, op, l);
    case Finish => FinishRefines(limits, l);
    case Fail(_) => FailRefines(limits, op, l);
  }
}
