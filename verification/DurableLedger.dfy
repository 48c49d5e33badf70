/**
 The older, single-stage budget: one sequential run reserves before each wire, settles once and finishes,
 and may be resumed only from a complete prefix. Prices are exact rates in micro-dollars per token.
 */
module DurableLedger {
  import opened Basics
  import S = SharedLedger

  const MAX_USD := 1000000.0

  datatype Pricing = Pricing(input: real, cached: real, output: real)

  predicate ValidPricing(p: Pricing) {
    p.input > 0.0 && p.output > 0.0 && 0.0 <= p.cached <= p.input
  }

  /** What a run was started with: its request ceiling and its prices. */
  datatype Limits = Limits(maxRequests: nat, pricing: Pricing)

  predicate ValidLimits(limits: Limits) {
    limits.maxRequests >= 1 && ValidPricing(limits.pricing)
  }

  function Cost(p: Pricing, u: S.Usage): real
    requires S.ValidUsage(u)
  {
    var cached, thinking := S.OrZero(u.cached).n, S.OrZero(u.thought).n;
    (u.prompt.n - cached) as real * p.input + cached as real * p.cached + (u.visible.n + thinking) as real * p.output
  }

  function Reservation(p: Pricing, bytes: nat, maxOutput: nat): real {
    (bytes + S.FRAMING_BYTES) as real * p.input + maxOutput as real * p.output
  }

  datatype Status = Reserved | UsageKnown | Complete | Stopped

  /** The two variants compared; `Unlisted` stands for any other name. */
  datatype Variant = OldPrompt | NewPrompt | Unlisted

  datatype Row = Row(
    sequence: nat, variant: Variant, sample: string, reserved: real,
    status: Status, wire: bool, paid: Option<real>)

  datatype Ledger = Ledger(
    requests: nat, wires: nat, charged: real, known: real,
    active: Option<nat>, failure: Option<string>, entries: seq<Row>)

  const FRESH := Ledger(0, 0, 0.0, 0.0, None, None, [])

  function Charge(row: Row): real {
    if row.paid.Some? then row.paid.value else row.reserved
  }

  function Paid(row: Row): real {
    if row.paid.Some? then row.paid.value else 0.0
  }

  predicate Wired(row: Row) {
    row.wire
  }

  function Last(l: Ledger): Row
    requires l.entries != []
  {
    l.entries[|l.entries| - 1]
  }

  /** A complete, wired row paid within its reservation. */
  predicate Settled(row: Row, sequence: nat) {
    && row.sequence == sequence && row.status.Complete? && row.wire && row.variant != Unlisted
    && row.paid.Some? && 0.0 <= row.paid.value <= row.reserved
  }

  /** The check on a resumed run: nothing but complete, wired, paid rows with distinct identities. */
  ghost predicate CompletePrefix(limits: Limits, l: Ledger) {
    && l.requests == l.wires == |l.entries| <= limits.maxRequests
    && (forall i :: 0 <= i < |l.entries| ==> Settled(l.entries[i], i + 1))
    && SamplesDistinct(l.entries)
    && l.charged <= MAX_USD
    && Total(Paid, l.entries) == l.known == l.charged
  }

  ghost predicate SamplesDistinct(entries: seq<Row>) {
    forall i, j :: 0 <= i < j < |entries| ==>
                     (entries[i].variant, entries[i].sample) != (entries[j].variant, entries[j].sample)
  }

  ghost predicate Resumable(limits: Limits, l: Ledger) {
    l.failure.None? && l.active.None? && CompletePrefix(limits, l)
  }

  datatype Op =
    | Reserve(approvedModel: bool, variant: Variant, sample: string, bytes: nat, maxOutput: nat)
    | Wire(genuine: bool)
    | Settle(usage: S.Usage)
    | Finish
    | Fail(error: string)

  datatype Error =
    | RunStopped | InvalidSample | CeilingReached | NoReservation | UnexpectedWire
    | SettledTwice | InvalidUsage | UsageExceedsReservation | Unmetered | WriteFailed

  datatype Outcome = Done | Raised(error: Error)

  datatype Effect = Effect(ledger: Ledger, outcome: Outcome)

  predicate HasActive(l: Ledger) {
    l.active.Some? && 1 <= l.active.value <= |l.entries|
  }

  function ActiveRow(l: Ledger): Row
    requires HasActive(l)
  {
    l.entries[l.active.value - 1]
  }

  function SetActiveRow(l: Ledger, row: Row): Ledger
    requires HasActive(l)
  {
    l.(entries := l.entries[l.active.value - 1 := row])
  }

  predicate HasSample(entries: seq<Row>, variant: Variant, sample: string) {
    exists i :: 0 <= i < |entries| && entries[i].variant == variant && entries[i].sample == sample
  }

  function AfterReserve(l: Ledger, variant: Variant, sample: string, reserved: real): Ledger {
    l.(entries := l.entries + [Row(l.requests + 1, variant, sample, reserved, Reserved, false, None)],
       requests := l.requests + 1, charged := l.charged + reserved, active := Some(l.requests + 1))
  }

  function ReserveEffect(limits: Limits, op: Op, l: Ledger): Effect
    requires op.Reserve?
  {
    if l.failure.Some? || l.active.Some? || !op.approvedModel then Effect(l, Raised(RunStopped))
    else if op.variant == Unlisted || HasSample(l.entries, op.variant, op.sample) then Effect(l, Raised(InvalidSample))
    else
      var reserved := Reservation(limits.pricing, op.bytes, op.maxOutput);
      if l.requests + 1 > limits.maxRequests || l.charged + reserved > MAX_USD then Effect(l, Raised(CeilingReached))
      else Effect(AfterReserve(l, op.variant, op.sample, reserved), Done)
  }

  /** Unlike its successor, this hook does not ask whether the run has failed. */
  function WireEffect(op: Op, l: Ledger): Effect
    requires op.Wire?
  {
    if !HasActive(l) then Effect(l, Raised(NoReservation))
    else if !op.genuine || ActiveRow(l).wire || l.wires >= l.requests then Effect(l, Raised(UnexpectedWire))
    else Effect(SetActiveRow(l, ActiveRow(l).(wire := true)).(wires := l.wires + 1), Done)
  }

  function SettleEffect(limits: Limits, op: Op, l: Ledger): Effect
    requires op.Settle?
  {
    if !HasActive(l) then Effect(l, Raised(NoReservation))
    else
      var row := ActiveRow(l);
      if !row.status.Reserved? then Effect(l, Raised(SettledTwice))
      else if !S.ValidUsage(op.usage) || !row.wire then Effect(l, Raised(InvalidUsage))
      else
        var cost := Cost(limits.pricing, op.usage);
        if cost > row.reserved then Effect(l, Raised(UsageExceedsReservation))
        else
          Effect(SetActiveRow(l, row.(paid := Some(cost), status := UsageKnown))
                 .(charged := l.charged + (cost - row.reserved), known := l.known + cost), Done)
  }

  function FinishEffect(l: Ledger): Effect {
    if !HasActive(l) then Effect(l, Raised(NoReservation))
    else if !ActiveRow(l).status.UsageKnown? then Effect(l, Raised(Unmetered))
    else Effect(SetActiveRow(l, ActiveRow(l).(status := Complete)).(active := None), Done)
  }

  function FailEffect(op: Op, l: Ledger): Effect
    requires op.Fail?
  {
    var failed := l.(failure := Some(op.error));
    Effect(if HasActive(l) then SetActiveRow(failed, ActiveRow(l).(status := Stopped)) else failed, Done)
  }

  function Perform(limits: Limits, op: Op, l: Ledger): Effect {
    match op
    case Reserve(_, _, _, _, _) => ReserveEffect(limits, op, l)
    case Wire(_) => WireEffect(op, l)
    case Settle(_) => SettleEffect(limits, op, l)
    case Finish => FinishEffect(l)
    case Fail(_) => FailEffect(op, l)
  }

  /** An operation's effect on the ledger in memory, and whether that ledger was saved. */
  datatype Attempted = Attempted(effect: Effect, saved: bool)

  /** Every operation that is not refused ends with its save; a save that raises leaves the saved ledger as it was. */
  function Attempt(limits: Limits, op: Op, saveFails: bool, l: Ledger): Attempted {
    var e := Perform(limits, op, l);
    if e.outcome.Done? && saveFails then Attempted(Effect(e.ledger, Raised(WriteFailed)), false)
    else Attempted(e, e.outcome.Done?)
  }

  /** A refused operation changes nothing; any other happens in memory, and is saved unless that raises. */
  lemma AttemptIs(limits: Limits, op: Op, saveFails: bool, l: Ledger)
    ensures var a, e := Attempt(limits, op, saveFails, l), Perform(limits, op, l);
            && a.effect.ledger == e.ledger && (a.saved <==> e.outcome == Done && !saveFails)
            && (e.outcome.Raised? ==> a.effect == e && e.ledger == l)
            && (e.outcome == Done && saveFails ==> a.effect.outcome == Raised(WriteFailed))
  {
  }

  // ----- Invariant

  predicate RowSound(row: Row, sequence: nat) {
    && row.sequence == sequence && row.variant != Unlisted && row.reserved >= 0.0
    && (row.paid.Some? ==> row.wire && 0.0 <= row.paid.value <= row.reserved)
    && (row.status.Reserved? ==> row.paid.None?)
    && (row.status.UsageKnown? || row.status.Complete? ==> row.paid.Some?)
  }

  predicate OnlyLastActive(l: Ledger) {
    && (forall i :: 0 <= i < |l.entries| - 1 ==> l.entries[i].status.Complete?)
    && (l.entries != [] ==> (l.active.Some? <==> !Last(l).status.Complete?))
    && (l.active.Some? ==> l.entries != [] && l.active.value == |l.entries|)
    && (l.entries != [] && Last(l).status.Stopped? ==> l.failure.Some?)
  }

  ghost predicate Sound(limits: Limits, l: Ledger) {
    && l.requests == |l.entries| <= limits.maxRequests
    && l.wires == Count(Wired, l.entries)
    && l.charged == Total(Charge, l.entries) <= MAX_USD
    && l.known == Total(Paid, l.entries)
    && SamplesDistinct(l.entries)
    && (forall i :: 0 <= i < |l.entries| ==> RowSound(l.entries[i], i + 1))
    && OnlyLastActive(l)
  }

  lemma CostWithinReservation(p: Pricing, u: S.Usage, bytes: nat, maxOutput: nat)
    requires ValidPricing(p) && S.ValidUsage(u)
    requires u.prompt.n <= bytes + S.FRAMING_BYTES && u.visible.n + S.OrZero(u.thought).n <= maxOutput
    ensures 0.0 <= Cost(p, u) <= Reservation(p, bytes, maxOutput)
  {
    CostNonNegative(p, u);
    PricedAtMost(p, (u.prompt.n - S.OrZero(u.cached).n) as real, S.OrZero(u.cached).n as real,
                 (u.visible.n + S.OrZero(u.thought).n) as real, (bytes + S.FRAMING_BYTES) as real, maxOutput as real);
  }

  /** Fresh and cached input together cost at most the whole input at the full price. */
  lemma PricedAtMost(p: Pricing, uncached: real, cached: real, output: real, inputBound: real, outputBound: real)
    requires ValidPricing(p) && uncached >= 0.0 && cached >= 0.0 && uncached + cached <= inputBound
             && output <= outputBound
    ensures uncached * p.input + cached * p.cached + output * p.output <= inputBound * p.input + outputBound * p.output
  {
    ScaleAtMost(cached, p.cached, p.input);
    ScaleAtMost(p.input, uncached + cached, inputBound);
    ScaleAtMost(p.output, output, outputBound);
  }

  lemma ScaleAtMost(k: real, x: real, y: real)
    requires k >= 0.0 && x <= y
    ensures k * x <= k * y
  {
    assert k * (y - x) >= 0.0;
    assert k * (y - x) == k * y - k * x;
  }

  lemma CostNonNegative(p: Pricing, u: S.Usage)
    requires ValidPricing(p) && S.ValidUsage(u)
    ensures Cost(p, u) >= 0.0
  {
    ScaleAtMost((u.prompt.n - S.OrZero(u.cached).n) as real, 0.0, p.input);
    ScaleAtMost(S.OrZero(u.cached).n as real, 0.0, p.cached);
    ScaleAtMost((u.visible.n + S.OrZero(u.thought).n) as real, 0.0, p.output);
  }

  lemma ReplaceLastSound(limits: Limits, l: Ledger, row: Row, l': Ledger)
    requires Sound(limits, l) && l.entries != []
    requires l'.entries == l.entries[|l.entries| - 1 := row] && l'.requests == l.requests
    requires RowSound(row, |l.entries|) && row.variant == Last(l).variant && row.sample == Last(l).sample
    requires l'.wires == l.wires - (if Last(l).wire then 1 else 0) + (if row.wire then 1 else 0)
    requires l'.charged == l.charged - Charge(Last(l)) + Charge(row) <= MAX_USD
    requires l'.known == l.known - Paid(Last(l)) + Paid(row)
    requires OnlyLastActive(l')
    ensures Sound(limits, l')
  {
    TotalReplaceLast(Charge, l.entries, row);
    TotalReplaceLast(Paid, l.entries, row);
    CountReplaceLast(Wired, l.entries, row);
  }

  lemma AppendLastActive(l: Ledger, variant: Variant, sample: string, reserved: real)
    requires OnlyLastActive(l) && l.active.None? && l.requests == |l.entries|
    ensures OnlyLastActive(AfterReserve(l, variant, sample, reserved))
  {
  }

  lemma AppendSound(limits: Limits, l: Ledger, variant: Variant, sample: string, reserved: real)
    requires Sound(limits, l) && l.active.None? && l.requests < limits.maxRequests
    requires variant != Unlisted && !HasSample(l.entries, variant, sample)
    requires 0.0 <= reserved && l.charged + reserved <= MAX_USD
    ensures Sound(limits, AfterReserve(l, variant, sample, reserved))
  {
    AppendLastActive(l, variant, sample, reserved);
    var row := Row(l.requests + 1, variant, sample, reserved, Reserved, false, None);
    TotalAppend(Charge, l.entries, row);
    TotalAppend(Paid, l.entries, row);
    CountAppend(Wired, l.entries, row);
  }

  lemma ReserveSound(limits: Limits, op: Op, l: Ledger)
    requires Sound(limits, l) && ValidLimits(limits) && op.Reserve?
    ensures Sound(limits, ReserveEffect(limits, op, l).ledger)
  {
    if ReserveEffect(limits, op, l).outcome.Done? {
      ReservationNonNegative(limits.pricing, op.bytes, op.maxOutput);
      AppendSound(limits, l, op.variant, op.sample, Reservation(limits.pricing, op.bytes, op.maxOutput));
    }
  }

  lemma ReservationNonNegative(p: Pricing, bytes: nat, maxOutput: nat)
    requires ValidPricing(p)
    ensures Reservation(p, bytes, maxOutput) >= 0.0
  {
    ScaleAtMost((bytes + S.FRAMING_BYTES) as real, 0.0, p.input);
    ScaleAtMost(maxOutput as real, 0.0, p.output);
  }

  /** No operation, successful or not, breaks the ledger's own accounting. */
  lemma PerformSound(limits: Limits, op: Op, l: Ledger)
    requires Sound(limits, l) && ValidLimits(limits)
    ensures Sound(limits, Perform(limits, op, l).ledger)
  {
    var l' := Perform(limits, op, l).ledger;
    match op
    case Reserve(_, _, _, _, _) => ReserveSound(limits, op, l);
    case Wire(_) => if l' != l { ReplaceLastSound(limits, l, Last(l'), l'); }
    case Settle(usage) =>
      if l' != l {
        CostNonNegative(limits.pricing, usage);
        ReplaceLastSound(limits, l, Last(l'), l');
      }
    case Finish => if l' != l { ReplaceLastSound(limits, l, Last(l'), l'); }
    case Fail(_) => if HasActive(l) { ReplaceLastSound(limits, l, Last(l'), l'); }
  }

  /**
   The wire hook succeeds exactly for a genuine request while the active row is not wired, whether the run failed or
   not; its test of the two counters never refuses alone.
   */
  lemma WireDoneIff(limits: Limits, op: Op, l: Ledger)
    requires op.Wire? && Sound(limits, l)
    ensures var e := WireEffect(op, l);
            && (e.outcome.Done? <==> op.genuine && l.active.Some? && !Last(l).wire)
            && (e.outcome.Raised? ==> e.ledger == l)
            && (e.outcome.Done? ==>
                  e.ledger == l.(wires := l.wires + 1,
                                 entries := l.entries[..|l.entries| - 1] + [Last(l).(wire := true)]))
  {
    if HasActive(l) {
      CountBounded(Wired, l.entries[..|l.entries| - 1]);
    }
  }

  /** A saved run can be resumed exactly when it neither failed nor was interrupted inside a request. */
  lemma ResumableIff(limits: Limits, l: Ledger)
    requires Sound(limits, l)
    ensures Resumable(limits, l) <==> l.failure.None? && l.active.None?
  {
    if l.active.None? {
      CountAll(Wired, l.entries);
      TotalSame(Charge, l.entries, Paid, l.entries);
    }
  }

  // ----- What can be resumed is what whole requests leave behind

  /** One request from its reservation to its end, as its row tells it. */
  datatype Request = Request(variant: Variant, sample: string, reserved: real, paid: real)

  function RowOf(q: Request, sequence: nat): Row {
    Row(sequence, q.variant, q.sample, q.reserved, Complete, true, Some(q.paid))
  }

  function PaidFor(q: Request): real {
    q.paid
  }

  /** The ledger of a run that made these requests, one after the other, and nothing else. */
  function Replay(history: seq<Request>): Ledger {
    Ledger(|history|, |history|, Total(PaidFor, history), Total(PaidFor, history), None, None,
           seq(|history|, i requires 0 <= i < |history| => RowOf(history[i], i + 1)))
  }

  /** One of the two variants, a sample it did not have before, and a price within the reservation. */
  predicate MayCome(before: seq<Request>, q: Request) {
    && q.variant in {OldPrompt, NewPrompt} && 0.0 <= q.paid <= q.reserved
    && forall i :: 0 <= i < |before| ==> before[i].variant == q.variant ==> before[i].sample != q.sample
  }

  ghost predicate MayHappen(limits: Limits, history: seq<Request>) {
    && |history| <= limits.maxRequests && Total(PaidFor, history) <= 1000000.0
    && forall i :: 0 <= i < |history| ==> MayCome(history[..i], history[i])
  }

  function HistoryOf(entries: seq<Row>): seq<Request>
    requires forall i :: 0 <= i < |entries| ==> entries[i].paid.Some?
  {
    seq(|entries|, i requires 0 <= i < |entries| =>
      Request(entries[i].variant, entries[i].sample, entries[i].reserved, entries[i].paid.value))
  }

  lemma {:induction false} ReplayedRows(history: seq<Request>)
    ensures |Replay(history).entries| == |history|
    ensures forall i :: 0 <= i < |history| ==> Replay(history).entries[i] == RowOf(history[i], i + 1)
    ensures Total(Paid, Replay(history).entries) == Total(PaidFor, history)
  {
    TotalSame(Paid, Replay(history).entries, PaidFor, history);
  }

  lemma ReplayResumable(limits: Limits, history: seq<Request>)
    requires MayHappen(limits, history)
    ensures Resumable(limits, Replay(history))
  {
    ReplayedRows(history);
    forall i, j | 0 <= i < j < |history|
      ensures (history[i].variant, history[i].sample) != (history[j].variant, history[j].sample)
    {
      assert history[..j][i] == history[i];
    }
  }

  lemma ResumableReplays(limits: Limits, l: Ledger)
    requires Resumable(limits, l)
    ensures MayHappen(limits, HistoryOf(l.entries)) && Replay(HistoryOf(l.entries)) == l
  {
    var history := HistoryOf(l.entries);
    ReplayedRows(history);
    forall i | 0 <= i < |l.entries| ensures Replay(history).entries[i] == l.entries[i] {
      assert Settled(l.entries[i], i + 1);
    }
    assert Replay(history).entries == l.entries;
  }

  /** A saved run is resumed exactly when it is what some sequence of whole requests leaves. */
  lemma ResumableIsReplay(limits: Limits, l: Ledger)
    ensures Resumable(limits, l) <==> exists history :: MayHappen(limits, history) && l == Replay(history)
  {
    if Resumable(limits, l) {
      ResumableReplays(limits, l);
    }
    forall history | MayHappen(limits, history) && l == Replay(history) ensures Resumable(limits, l) {
      ReplayResumable(limits, history);
    }
  }

  /**
   A budget may be opened exactly for one request or more and with prices by which prompt and answer cost something and
   no request can cost less than nothing or more than its reservation.
   */
  lemma ValidLimitsIff(limits: Limits)
    ensures ValidLimits(limits) <==>
            && limits.maxRequests != 0
            && limits.pricing.input > 0.0 && limits.pricing.output > 0.0 && ReservationsSuffice(limits.pricing)
  {
    var p := limits.pricing;
    if ReservationsSuffice(p) {
      var cached := S.Usage(S.Tokens(1024), S.Tokens(0), S.Absent, S.Tokens(1024));
      assert Within(cached, 0, 0);
      assert Cost(p, cached) == 1024.0 * p.cached && Reservation(p, 0, 0) == 1024.0 * p.input;
    }
    if ValidPricing(p) {
      forall u, bytes, maxOutput | Within(u, bytes, maxOutput)
        ensures 0.0 <= Cost(p, u) <= Reservation(p, bytes, maxOutput)
      {
        CostWithinReservation(p, u, bytes, maxOutput);
      }
    }
  }

  predicate Within(u: S.Usage, bytes: nat, maxOutput: nat) {
    S.ValidUsage(u) && u.prompt.n <= bytes + S.FRAMING_BYTES && u.visible.n + S.OrZero(u.thought).n <= maxOutput
  }

  ghost predicate ReservationsSuffice(p: Pricing) {
    forall u: S.Usage, bytes: nat, maxOutput: nat :: Within(u, bytes, maxOutput) ==>
      0.0 <= Cost(p, u) <= Reservation(p, bytes, maxOutput)
  }
}
