/**
 The durable ledger that the two-stage validation shares between its namespaces
 and stages: its saved state, the effect of every operation on that state and on
 the receipt files beside it, and the check a reopened ledger has to pass.

 Money is exact and counted in micro-dollars. Content hashes are taken to be
 injective, so a row keeps the receipt itself where the source keeps its hash, and
 a logical key is the tuple that the source digests.
 */
module SharedLedger {
  import opened Basics

  const MAX_USD := 600000.0
  const MAX_REQUESTS: nat := 256
  const STAGE1_MAX_OUTPUT := 4096
  const STAGE2_MAX_OUTPUT := 1536
  const INPUT_RATE := 0.75
  const CACHED_RATE := 0.075
  const OUTPUT_RATE := 3.75
  const FRAMING_BYTES := 1024

  datatype Stage = Stage1 | Stage2

  /** One field of the provider's usage record, which the provider may omit or garble. */
  datatype TokenField = Absent | Malformed | Tokens(n: int)

  /** The usage record of a response; an explicit null is not the same as a record without fields. */
  datatype Usage =
    | NullUsage
    | Usage(prompt: TokenField, visible: TokenField, thought: TokenField, cached: TokenField)

  function OrZero(field: TokenField): TokenField {
    if field.Absent? then Tokens(0) else field
  }

  predicate ValidUsage(u: Usage) {
    && u.Usage?
    && u.prompt.Tokens? && u.prompt.n >= 0
    && u.visible.Tokens? && u.visible.n >= 0
    && OrZero(u.thought).Tokens? && OrZero(u.thought).n >= 0
    && OrZero(u.cached).Tokens? && OrZero(u.cached).n >= 0
    && OrZero(u.cached).n <= u.prompt.n
  }

  function Cost(u: Usage): real
    requires ValidUsage(u)
  {
    var cached, thought := OrZero(u.cached).n, OrZero(u.thought).n;
    (u.prompt.n - cached) as real * INPUT_RATE + cached as real * CACHED_RATE
    + (u.visible.n + thought) as real * OUTPUT_RATE
  }

  function Reservation(bytes: nat, maxOutput: int): real {
    (bytes + FRAMING_BYTES) as real * INPUT_RATE + maxOutput as real * OUTPUT_RATE
  }

  datatype Key = Key(ns: string, sample: string, stage: Stage, task: string)

  datatype Path =
    | RequestPath(sequence: nat)
    | ResponsePath(sequence: nat)
    | ModelResponsePath(sequence: nat)
    | ResultPath(ns: string, sample: string)

  datatype File =
    | RequestFile(key: Key, body: string)
    | ResponseFile(text: string)
    | ModelResponseFile(text: string)
    | ResultFile(ns: string, sample: string, result: string, sequences: seq<nat>)
    | TornFile

  type Files = map<Path, File>

  datatype Status = Reserved | UsageKnown | Complete | Unresolved

  datatype Row = Row(
    sequence: nat, key: Key, reserved: real, status: Status, wire: bool,
    usage: Option<Usage>, paid: Option<real>,
    request: File, response: Option<File>, modelResponse: Option<File>, result: Option<File>)

  datatype Reason = UnresolvedPriorRequest | RequestOrCostCeiling | UnresolvedProviderOutcome

  datatype Ledger = Ledger(
    requests: nat, wires: nat, charged: real, known: real,
    active: Option<nat>, blocked: Option<Reason>, entries: seq<Row>)

  const FRESH := Ledger(0, 0, 0.0, 0.0, None, None, [])

  /** The samples each namespace may spend money on. */
  type Approved = map<string, set<string>>

  predicate InScope(allowed: Approved, ns: string, sample: string) {
    ns in allowed && sample in allowed[ns]
  }

  /** What one row contributes to the charge: its metered cost once known, its reservation until then. */
  function Charge(row: Row): real {
    if row.paid.Some? then row.paid.value else row.reserved
  }

  function Paid(row: Row): real {
    if row.paid.Some? then row.paid.value else 0.0
  }

  predicate Wired(row: Row) {
    row.wire
  }

  function Last(l: Ledger): Row
    requires l.entries != []
  {
    l.entries[|l.entries| - 1]
  }

  // ----- The check made when a ledger is reopened

  predicate FileIs(files: Files, path: Path, content: Option<File>) {
    content.Some? && path in files && files[path] == content.value
  }

  predicate RowVerified(allowed: Approved, files: Files, row: Row, sequence: nat) {
    && row.sequence == sequence
    && InScope(allowed, row.key.ns, row.key.sample)
    && (row.paid.Some? ==>
          && row.wire && 0.0 <= row.paid.value <= row.reserved
          && row.usage.Some? && ValidUsage(row.usage.value) && row.paid.value == Cost(row.usage.value))
    && (row.status.Complete? ==>
          && FileIs(files, RequestPath(sequence), Some(row.request))
          && FileIs(files, ResponsePath(sequence), row.response)
          && FileIs(files, ModelResponsePath(sequence), row.modelResponse))
  }

  ghost predicate KeysDistinct(entries: seq<Row>) {
    forall i, j :: 0 <= i < j < |entries| ==> entries[i].key != entries[j].key
  }

  ghost predicate Verified(allowed: Approved, files: Files, l: Ledger) {
    && l.requests == |l.entries| <= MAX_REQUESTS
    && l.wires == Count(Wired, l.entries)
    && KeysDistinct(l.entries)
    && (forall i :: 0 <= i < |l.entries| ==> RowVerified(allowed, files, l.entries[i], i + 1))
    && l.charged == Total(Charge, l.entries) <= MAX_USD
    && l.known == Total(Paid, l.entries)
  }

  // ----- Operations

  datatype Error =
    | OutOfScope | Unavailable | DuplicateRequest | OutputCapChanged | FileExists | NoActiveRequest
    | UnexpectedWire | InvalidUsage | CostExceedsReservation | NotMetered | NoCoreReceipt
    | NoCompleteResult | InconsistentResult | ResultChanged | WriteFailed
    | NoScope | UnapprovedAgent | ToolContractChanged | PromptChanged | NoClaimIndex | ProviderRaised

  datatype Outcome = Done | Raised(error: Error)

  datatype Op =
    | Reserve(ns: string, sample: string, stage: Stage, taskId: string, body: string, bytes: nat, maxOutput: int)
    | Wire(genuine: bool)
    | Respond(text: string, usage: Usage)
    | Finish(text: string)
    | FailActive
    | SaveResult(ns: string, sample: string, result: string)

  datatype Effect = Effect(files: Files, ledger: Ledger, outcome: Outcome)

  /** An exclusive create followed by a ledger change, or no change at all when the file is there already. */
  function WriteThen(files: Files, path: Path, file: File, before: Ledger, after: Ledger): Effect {
    if path in files then Effect(files, before, Raised(FileExists)) else Effect(files[path := file], after, Done)
  }

  function LogicalKey(ns: string, sample: string, stage: Stage, taskId: string): Key {
    Key(ns, sample, stage, if stage.Stage1? then "core" else taskId)
  }

  function OutputCap(stage: Stage): int {
    if stage.Stage1? then STAGE1_MAX_OUTPUT else STAGE2_MAX_OUTPUT
  }

  function NewRow(sequence: nat, key: Key, reserved: real, request: File): Row {
    Row(sequence, key, reserved, Reserved, false, None, None, request, None, None, None)
  }

  function AfterReserve(l: Ledger, key: Key, reserved: real, request: File): Ledger {
    l.(entries := l.entries + [NewRow(l.requests + 1, key, reserved, request)],
       requests := l.requests + 1, active := Some(l.requests + 1), charged := l.charged + reserved)
  }

  ghost function ReserveEffect(allowed: Approved, op: Op, files: Files, l: Ledger): Effect
    requires op.Reserve?
  {
    var key := LogicalKey(op.ns, op.sample, op.stage, op.taskId);
    if !InScope(allowed, op.ns, op.sample) then Effect(files, l, Raised(OutOfScope))
    else if l.blocked.Some? || l.active.Some? then Effect(files, l, Raised(Unavailable))
    else if exists i :: 0 <= i < |l.entries| && l.entries[i].key == key then Effect(files, l, Raised(DuplicateRequest))
    else if op.maxOutput != OutputCap(op.stage) then Effect(files, l, Raised(OutputCapChanged))
    else
      var reserved := Reservation(op.bytes, op.maxOutput);
      if l.requests >= MAX_REQUESTS || l.charged + reserved > MAX_USD then
        Effect(files, l.(blocked := Some(RequestOrCostCeiling)), Raised(Unavailable))
      else
        var request := RequestFile(key, op.body);
        WriteThen(files, RequestPath(l.requests + 1), request, l, AfterReserve(l, key, reserved, request))
  }

  /** The active row, which the source finds by its sequence number. */
  predicate HasActive(l: Ledger) {
    l.active.Some? && 1 <= l.active.value <= |l.entries|
  }

  function ActiveRow(l: Ledger): Row
    requires HasActive(l)
  {
    l.entries[l.active.value - 1]
  }

  function SetActiveRow(l: Ledger, row: Row): Ledger
    requires HasActive(l)
  {
    l.(entries := l.entries[l.active.value - 1 := row])
  }

  function WireEffect(op: Op, files: Files, l: Ledger): Effect
    requires op.Wire?
  {
    if !HasActive(l) then Effect(files, l, Raised(NoActiveRequest))
    else if l.blocked.Some? || ActiveRow(l).wire || l.wires >= l.requests || !op.genuine then
      Effect(files, l, Raised(UnexpectedWire))
    else
      Effect(files, SetActiveRow(l, ActiveRow(l).(wire := true)).(wires := l.wires + 1), Done)
  }

  datatype Metering = Metering(ledger: Ledger, outcome: Outcome)

  /** Settling the active row by its usage record, once the response is on disk. */
  function Metered(usage: Usage, l: Ledger): Metering
    requires HasActive(l)
  {
    var row := ActiveRow(l);
    if !ValidUsage(usage) || !row.wire || !row.status.Reserved? then Metering(l, Raised(InvalidUsage))
    else if Cost(usage) > row.reserved then Metering(l, Raised(CostExceedsReservation))
    else
      var settled := row.(usage := Some(usage), paid := Some(Cost(usage)), status := UsageKnown);
      Metering(SetActiveRow(l, settled).(known := l.known + Cost(usage),
          charged := l.charged + (Cost(usage) - row.reserved)), Done)
  }

  function RespondEffect(op: Op, files: Files, l: Ledger): Effect
    requires op.Respond?
  {
    if !HasActive(l) then Effect(files, l, Raised(NoActiveRequest))
    else
      var path, file := ResponsePath(ActiveRow(l).sequence), ResponseFile(op.text);
      if path in files then Effect(files, l, Raised(FileExists))
      else
        var metered := Metered(op.usage, SetActiveRow(l, ActiveRow(l).(response := Some(file))));
        Effect(files[path := file], metered.ledger, metered.outcome)
  }

  function FinishEffect(op: Op, files: Files, l: Ledger): Effect
    requires op.Finish?
  {
    if !HasActive(l) then Effect(files, l, Raised(NoActiveRequest))
    else if !ActiveRow(l).status.UsageKnown? then Effect(files, l, Raised(NotMetered))
    else
      var file := ModelResponseFile(op.text);
      var row := ActiveRow(l).(modelResponse := Some(file), status := Complete);
      WriteThen(files, ModelResponsePath(ActiveRow(l).sequence), file, l, SetActiveRow(l, row).(active := None))
  }

  function FailEffect(files: Files, l: Ledger): Effect {
    if !HasActive(l) then Effect(files, l, Done)
    else
      var stopped := SetActiveRow(l, ActiveRow(l).(status := Unresolved));
      Effect(files, stopped.(blocked := Some(UnresolvedProviderOutcome)), Done)
  }

  predicate ForSample(row: Row, ns: string, sample: string) {
    row.key.ns == ns && row.key.sample == sample
  }

  predicate HasRow(entries: seq<Row>, ns: string, sample: string) {
    exists i :: 0 <= i < |entries| && ForSample(entries[i], ns, sample)
  }

  predicate HasCoreRow(entries: seq<Row>, ns: string, sample: string) {
    exists i :: 0 <= i < |entries| && ForSample(entries[i], ns, sample) && entries[i].key.stage.Stage1?
  }

  function SequencesOf(entries: seq<Row>, ns: string, sample: string): seq<nat> {
    if entries == [] then []
    else
      var row := entries[|entries| - 1];
      SequencesOf(entries[..|entries| - 1], ns, sample) + (if ForSample(row, ns, sample) then [row.sequence] else [])
  }

  function WithResult(entries: seq<Row>, ns: string, sample: string, file: File): (r: seq<Row>)
    ensures |r| == |entries|
    ensures forall i :: 0 <= i < |r| ==>
              r[i] == if ForSample(entries[i], ns, sample) then entries[i].(result := Some(file)) else entries[i]
  {
    seq(|entries|, i requires 0 <= i < |entries| =>
      if ForSample(entries[i], ns, sample) then entries[i].(result := Some(file)) else entries[i])
  }

  function SaveResultEffect(allowed: Approved, op: Op, files: Files, l: Ledger): Effect
    requires op.SaveResult?
  {
    if !InScope(allowed, op.ns, op.sample) then Effect(files, l, Raised(OutOfScope))
    else if !HasCoreRow(l.entries, op.ns, op.sample) then Effect(files, l, Raised(NoCoreReceipt))
    else
      var file := ResultFile(op.ns, op.sample, op.result, SequencesOf(l.entries, op.ns, op.sample));
      WriteThen(files, ResultPath(op.ns, op.sample), file, l,
                l.(entries := WithResult(l.entries, op.ns, op.sample, file)))
  }

  /** One operation run to its end. Every change of the ledger is saved before the operation returns or raises. */
  ghost function Perform(allowed: Approved, op: Op, files: Files, l: Ledger): Effect {
    match op
    case Reserve(_, _, _, _, _, _, _) => ReserveEffect(allowed, op, files, l)
    case Wire(_) => WireEffect(op, files, l)
    case Respond(_, _) => RespondEffect(op, files, l)
    case Finish(_) => FinishEffect(op, files, l)
    case FailActive => FailEffect(files, l)
    case SaveResult(_, _, _) => SaveResultEffect(allowed, op, files, l)
  }

  /**
   Whether an operation comes to its save. A response with a null usage record raises after its row was updated and
   before the save; otherwise every operation that changes the ledger saves it.
   */
  ghost predicate Saves(allowed: Approved, op: Op, files: Files, l: Ledger) {
    match op
    case Respond(_, usage) => HasActive(l) && ResponsePath(ActiveRow(l).sequence) !in files && usage.Usage?
    case FailActive => HasActive(l)
    case _ => var e := Perform(allowed, op, files, l); e.outcome.Done? || e.ledger != l
  }

  /** The receipt an operation creates when it comes that far. */
  function ReceiptOf(op: Op, l: Ledger): Path {
    match op
    case Reserve(_, _, _, _, _, _, _) => RequestPath(l.requests + 1)
    case Respond(_, _) => ResponsePath(if HasActive(l) then ActiveRow(l).sequence else 0)
    case Finish(_) => ModelResponsePath(if HasActive(l) then ActiveRow(l).sequence else 0)
    case SaveResult(ns, sample, _) => ResultPath(ns, sample)
    case _ => RequestPath(0)
  }

  ghost predicate WritesReceipt(allowed: Approved, op: Op, files: Files, l: Ledger) {
    Perform(allowed, op, files, l).files != files
  }

  /**
   What the disk does to one operation: nothing, or its receipt raises and leaves whatever it leaves at the path, or its
   save raises, which never replaces the saved ledger.
   */
  datatype Fault = NoFault | ReceiptFails(left: Option<File>) | SaveFails

  /** An operation's effect on receipts and on the ledger in memory, and whether that ledger was saved. */
  datatype Attempted = Attempted(effect: Effect, saved: bool)

  ghost function Attempt(allowed: Approved, op: Op, fault: Fault, files: Files, l: Ledger): Attempted {
    var e := Perform(allowed, op, files, l);
    if fault.ReceiptFails? && WritesReceipt(allowed, op, files, l) then
      var files' := if fault.left.Some? then files[ReceiptOf(op, l) := fault.left.value] else files;
      Attempted(Effect(files', l, Raised(WriteFailed)), false)
    else if fault.SaveFails? && Saves(allowed, op, files, l) then
      Attempted(Effect(e.files, e.ledger, Raised(WriteFailed)), false)
    else Attempted(e, Saves(allowed, op, files, l))
  }

  /** What a reopening process makes of a saved ledger that passes its check. */
  function Reopened(l: Ledger): Ledger {
    if l.active.Some? && l.blocked.None? then l.(blocked := Some(UnresolvedPriorRequest)) else l
  }

  /** The saved result of a sample: none without a row, an error while a row has no result. */
  ghost function PriorResult(allowed: Approved, files: Files, l: Ledger, ns: string, sample: string)
    : Result<Option<File>, Error>
  {
    if !InScope(allowed, ns, sample) then Err(OutOfScope)
    else if !HasRow(l.entries, ns, sample) then Ok(None)
    else if exists i :: 0 <= i < |l.entries| && ForSample(l.entries[i], ns, sample) && l.entries[i].result.None? then
      Err(NoCompleteResult)
    else if exists i, j :: 0 <= i < j < |l.entries| && ForSample(l.entries[i], ns, sample)
                           && ForSample(l.entries[j], ns, sample) && l.entries[i].result != l.entries[j].result then
      Err(InconsistentResult)
    else
      var i :| 0 <= i < |l.entries| && ForSample(l.entries[i], ns, sample);
      if FileIs(files, ResultPath(ns, sample), l.entries[i].result) then Ok(l.entries[i].result) else Err(ResultChanged)
  }

  // ----- The invariant of every saved state

  /** A row's receipts are on disk, and its status agrees with what is known about it. */
  predicate RowSound(files: Files, row: Row) {
    && row.reserved >= 0.0
    && (row.key.stage.Stage1? ==> row.key.task == "core")
    && FileIs(files, RequestPath(row.sequence), Some(row.request))
    && (row.response.Some? ==> FileIs(files, ResponsePath(row.sequence), row.response))
    && (row.result.Some? ==> FileIs(files, ResultPath(row.key.ns, row.key.sample), row.result))
    && (row.status.Reserved? ==> row.paid.None?)
    && (row.status.UsageKnown? || row.status.Complete? ==> row.paid.Some? && row.response.Some?)
  }

  /** Only the newest request can be unfinished, and it is exactly the active one. */
  predicate OnlyLastActive(l: Ledger) {
    && (forall i :: 0 <= i < |l.entries| - 1 ==> l.entries[i].status.Complete?)
    && (l.entries != [] ==> (l.active.Some? <==> !Last(l).status.Complete?))
    && (l.active.Some? ==> l.entries != [] && l.active.value == |l.entries|)
    && (l.entries != [] && Last(l).status.Unresolved? ==> l.blocked.Some?)
  }

  predicate ResultsHaveCore(entries: seq<Row>) {
    forall i :: 0 <= i < |entries| && entries[i].result.Some? ==>
                  HasCoreRow(entries, entries[i].key.ns, entries[i].key.sample)
  }

  ghost predicate Sound(allowed: Approved, files: Files, l: Ledger) {
    && Verified(allowed, files, l)
    && OnlyLastActive(l)
    && (forall i :: 0 <= i < |l.entries| ==> RowSound(files, l.entries[i]))
    && ResultsHaveCore(l.entries)
  }

  predicate Grows(files: Files, files': Files) {
    forall p :: p in files ==> p in files' && files'[p] == files[p]
  }

  /** A request whose tokens respect its byte and output bounds is never refused at settlement. */
  lemma MeteredWithinReservation(u: Usage, bytes: nat, maxOutput: int)
    requires ValidUsage(u) && u.prompt.n <= bytes + FRAMING_BYTES && u.visible.n + OrZero(u.thought).n <= maxOutput
    ensures 0.0 <= Cost(u) <= Reservation(bytes, maxOutput)
  {
  }

  /** Receipts are only ever added, so a sound ledger stays sound beside more of them. */
  lemma SoundUnderGrowth(allowed: Approved, files: Files, files': Files, l: Ledger)
    requires Sound(allowed, files, l) && Grows(files, files')
    ensures Sound(allowed, files', l)
  {
  }

  lemma PerformGrows(allowed: Approved, op: Op, files: Files, l: Ledger)
    ensures Grows(files, Perform(allowed, op, files, l).files)
  {
  }

  /** Keys are never rewritten, so a sample that had a core row keeps one. */
  lemma CoreRowsKept(entries: seq<Row>, entries': seq<Row>)
    requires ResultsHaveCore(entries) && |entries| <= |entries'|
    requires forall i :: 0 <= i < |entries| ==> entries'[i].key == entries[i].key
    requires forall i :: 0 <= i < |entries'| && entries'[i].result.Some? ==>
               i < |entries| && HasCoreRow(entries, entries[i].key.ns, entries[i].key.sample)
    ensures ResultsHaveCore(entries')
  {
    forall i | 0 <= i < |entries'| && entries'[i].result.Some?
      ensures HasCoreRow(entries', entries'[i].key.ns, entries'[i].key.sample)
    {
      var j :| 0 <= j < |entries| && ForSample(entries[j], entries[i].key.ns, entries[i].key.sample)
               && entries[j].key.stage.Stage1?;
      assert ForSample(entries'[j], entries[i].key.ns, entries[i].key.sample);
    }
  }

  lemma ReplaceLastTotals(entries: seq<Row>, row: Row)
    requires entries != []
    ensures var entries', last := entries[|entries| - 1 := row], entries[|entries| - 1];
            && Total(Charge, entries') == Total(Charge, entries) - Charge(last) + Charge(row)
            && Total(Paid, entries') == Total(Paid, entries) - Paid(last) + Paid(row)
            && Count(Wired, entries')
               == Count(Wired, entries) - (if last.wire then 1 else 0) + (if row.wire then 1 else 0)
  {
    TotalReplaceLast(Charge, entries, row);
    TotalReplaceLast(Paid, entries, row);
    CountReplaceLast(Wired, entries, row);
  }

  /** The last row was replaced by a sound one with the same key and result, and the counters followed. */
  ghost predicate LastReplaced(allowed: Approved, files: Files, l: Ledger, row: Row, l': Ledger) {
    && l.entries != []
    && l'.entries == l.entries[|l.entries| - 1 := row] && l'.requests == l.requests
    && row.key == Last(l).key && row.result == Last(l).result
    && RowVerified(allowed, files, row, |l.entries|) && RowSound(files, row)
    && l'.wires == l.wires - (if Last(l).wire then 1 else 0) + (if row.wire then 1 else 0)
    && l'.charged == l.charged - Charge(Last(l)) + Charge(row) <= MAX_USD
    && l'.known == l.known - Paid(Last(l)) + Paid(row)
  }

  lemma ReplaceLastVerified(allowed: Approved, files: Files, l: Ledger, row: Row, l': Ledger)
    requires Verified(allowed, files, l) && LastReplaced(allowed, files, l, row, l')
    ensures Verified(allowed, files, l')
  {
    ReplaceLastTotals(l.entries, row);
    assert forall i :: 0 <= i < |l.entries| ==> l'.entries[i].key == l.entries[i].key;
  }

  /** Replacing the last row keeps every clause that speaks of the other rows. */
  lemma ReplaceLastSound(allowed: Approved, files: Files, l: Ledger, row: Row, l': Ledger)
    requires Sound(allowed, files, l) && LastReplaced(allowed, files, l, row, l') && OnlyLastActive(l')
    ensures Sound(allowed, files, l')
  {
    ReplaceLastVerified(allowed, files, l, row, l');
    CoreRowsKept(l.entries, l'.entries);
  }

  lemma {:induction false} AppendTotals(entries: seq<Row>, row: Row)
    ensures Total(Charge, entries + [row]) == Total(Charge, entries) + Charge(row)
    ensures Total(Paid, entries + [row]) == Total(Paid, entries) + Paid(row)
    ensures Count(Wired, entries + [row]) == Count(Wired, entries) + (if row.wire then 1 else 0)
  {
    TotalAppend(Charge, entries, row);
    TotalAppend(Paid, entries, row);
    CountAppend(Wired, entries, row);
  }

  /** A fresh key may be reserved on an idle ledger, within the cap, with its receipt on disk. */
  ghost predicate Appendable(allowed: Approved, files: Files, l: Ledger, key: Key, reserved: real, request: File) {
    && l.active.None?
    && (forall i :: 0 <= i < |l.entries| ==> l.entries[i].key != key)
    && InScope(allowed, key.ns, key.sample) && (key.stage.Stage1? ==> key.task == "core")
    && l.requests < MAX_REQUESTS && 0.0 <= reserved && l.charged + reserved <= MAX_USD
    && FileIs(files, RequestPath(l.requests + 1), Some(request))
  }

  lemma AppendVerified(allowed: Approved, files: Files, l: Ledger, key: Key, reserved: real, request: File)
    requires Verified(allowed, files, l) && Appendable(allowed, files, l, key, reserved, request)
    ensures Verified(allowed, files, AfterReserve(l, key, reserved, request))
  {
    AppendTotals(l.entries, NewRow(l.requests + 1, key, reserved, request));
  }

  lemma AppendRowsSound(files: Files, entries: seq<Row>, row: Row)
    requires forall i :: 0 <= i < |entries| ==> RowSound(files, entries[i])
    requires RowSound(files, row)
    ensures forall i :: 0 <= i <= |entries| ==> RowSound(files, (entries + [row])[i])
  {
  }

  lemma AppendLastActive(l: Ledger, key: Key, reserved: real, request: File)
    requires OnlyLastActive(l) && l.active.None? && l.requests == |l.entries|
    ensures OnlyLastActive(AfterReserve(l, key, reserved, request))
  {
  }

  lemma AppendHasCore(entries: seq<Row>, row: Row)
    requires ResultsHaveCore(entries) && row.result.None?
    ensures ResultsHaveCore(entries + [row])
  {
    assert forall i :: 0 <= i < |entries| ==> (entries + [row])[i] == entries[i];
    CoreRowsKept(entries, entries + [row]);
  }

  lemma AppendSound(allowed: Approved, files: Files, l: Ledger, key: Key, reserved: real, request: File)
    requires Sound(allowed, files, l) && Appendable(allowed, files, l, key, reserved, request)
    ensures Sound(allowed, files, AfterReserve(l, key, reserved, request))
  {
    AppendVerified(allowed, files, l, key, reserved, request);
    AppendLastActive(l, key, reserved, request);
    AppendRowsSound(files, l.entries, NewRow(l.requests + 1, key, reserved, request));
    AppendHasCore(l.entries, NewRow(l.requests + 1, key, reserved, request));
  }

  /** A reservation that succeeds met every guard. */
  lemma ReserveGuards(allowed: Approved, op: Op, files: Files, l: Ledger)
    requires op.Reserve? && l.requests == |l.entries|
    ensures var e, key := ReserveEffect(allowed, op, files, l), LogicalKey(op.ns, op.sample, op.stage, op.taskId);
            var reserved, request := Reservation(op.bytes, op.maxOutput), RequestFile(key, op.body);
            e.outcome.Done? ==>
              && Appendable(allowed, e.files, l, key, reserved, request)
              && e.ledger == AfterReserve(l, key, reserved, request)
  {
  }

  /** One that does not succeed leaves the ledger as it was, or blocked at its ceiling. */
  lemma ReserveRefused(allowed: Approved, op: Op, files: Files, l: Ledger)
    requires op.Reserve? && ReserveEffect(allowed, op, files, l).outcome.Raised?
    ensures var e := ReserveEffect(allowed, op, files, l);
            e.files == files && (e.ledger == l || e.ledger == l.(blocked := Some(RequestOrCostCeiling)))
  {
  }

  lemma BlockedSound(allowed: Approved, files: Files, l: Ledger, reason: Reason)
    requires Sound(allowed, files, l)
    ensures Sound(allowed, files, l.(blocked := Some(reason)))
  {
  }

  lemma ReservedSound(allowed: Approved, op: Op, files: Files, l: Ledger)
    requires op.Reserve? && Sound(allowed, files, l) && ReserveEffect(allowed, op, files, l).outcome.Done?
    ensures var e := ReserveEffect(allowed, op, files, l); Sound(allowed, e.files, e.ledger)
  {
    var e, key := ReserveEffect(allowed, op, files, l), LogicalKey(op.ns, op.sample, op.stage, op.taskId);
    ReserveGuards(allowed, op, files, l);
    SoundUnderGrowth(allowed, files, e.files, l);
    AppendSound(allowed, e.files, l, key, Reservation(op.bytes, op.maxOutput), RequestFile(key, op.body));
  }

  lemma ReserveSound(allowed: Approved, op: Op, files: Files, l: Ledger)
    requires op.Reserve? && Sound(allowed, files, l)
    ensures var e := ReserveEffect(allowed, op, files, l); Sound(allowed, e.files, e.ledger)
  {
    if ReserveEffect(allowed, op, files, l).outcome.Done? {
      ReservedSound(allowed, op, files, l);
    } else {
      ReserveRefused(allowed, op, files, l);
      BlockedSound(allowed, files, l, RequestOrCostCeiling);
    }
  }

  lemma WireSound(allowed: Approved, op: Op, files: Files, l: Ledger)
    requires op.Wire? && Sound(allowed, files, l)
    ensures var e := WireEffect(op, files, l); Sound(allowed, e.files, e.ledger)
  {
    var e := WireEffect(op, files, l);
    if e.outcome.Done? {
      ReplaceLastSound(allowed, files, l, ActiveRow(l).(wire := true), e.ledger);
    }
  }

  lemma ActiveIsLast(allowed: Approved, files: Files, l: Ledger)
    requires Sound(allowed, files, l) && HasActive(l)
    ensures l.entries != [] && l.active.value == |l.entries| && ActiveRow(l) == Last(l)
            && Last(l).sequence == |l.entries|
    ensures !Last(l).status.Complete? && RowVerified(allowed, files, Last(l), |l.entries|) && RowSound(files, Last(l))
  {
  }

  /** The receipt noted in the active row, before anything is settled. */
  function Noted(op: Op, l: Ledger): Row
    requires op.Respond? && HasActive(l)
  {
    ActiveRow(l).(response := Some(ResponseFile(op.text)))
  }

  function Settled(op: Op, l: Ledger): Row
    requires op.Respond? && HasActive(l) && ValidUsage(op.usage)
  {
    Noted(op, l).(usage := Some(op.usage), paid := Some(Cost(op.usage)), status := UsageKnown)
  }

  /** The usage record is valid, for a request that was wired and not settled yet, and costs at most its reservation. */
  predicate Settles(op: Op, l: Ledger)
    requires op.Respond? && HasActive(l)
  {
    && ValidUsage(op.usage) && ActiveRow(l).wire && ActiveRow(l).status.Reserved?
    && Cost(op.usage) <= ActiveRow(l).reserved
  }

  function AfterSettling(op: Op, l: Ledger): Ledger
    requires op.Respond? && HasActive(l) && ValidUsage(op.usage)
  {
    SetActiveRow(l, Settled(op, l)).(known := l.known + Cost(op.usage),
                                     charged := l.charged + (Cost(op.usage) - ActiveRow(l).reserved))
  }

  /** Whatever the response, the active row ends up as it was, with the receipt noted, or settled. */
  lemma RespondCases(op: Op, files: Files, l: Ledger)
    requires op.Respond? && HasActive(l) && ResponsePath(ActiveRow(l).sequence) !in files
    ensures var e := RespondEffect(op, files, l);
            && e.files == files[ResponsePath(ActiveRow(l).sequence) := ResponseFile(op.text)]
            && e.ledger == if Settles(op, l) then AfterSettling(op, l) else SetActiveRow(l, Noted(op, l))
  {
    if ValidUsage(op.usage) {
      assert SetActiveRow(SetActiveRow(l, Noted(op, l)), Settled(op, l)).entries
          == SetActiveRow(l, Settled(op, l)).entries;
    }
  }

  lemma NotedReplacesLast(allowed: Approved, op: Op, files: Files, l: Ledger)
    requires op.Respond? && Sound(allowed, files, l) && HasActive(l)
    requires FileIs(files, ResponsePath(ActiveRow(l).sequence), Some(ResponseFile(op.text)))
    ensures var l' := SetActiveRow(l, Noted(op, l));
            l.entries != [] && LastReplaced(allowed, files, l, Noted(op, l), l') && OnlyLastActive(l')
  {
    ActiveIsLast(allowed, files, l);
  }

  lemma CostNotNegative(u: Usage)
    requires ValidUsage(u)
    ensures Cost(u) >= 0.0
  {
  }

  lemma SettledReplacesLast(allowed: Approved, op: Op, files: Files, l: Ledger, l': Ledger)
    requires op.Respond? && Sound(allowed, files, l) && HasActive(l) && Settles(op, l)
    requires FileIs(files, ResponsePath(ActiveRow(l).sequence), Some(ResponseFile(op.text)))
    requires l' == AfterSettling(op, l)
    ensures l.entries != [] && LastReplaced(allowed, files, l, Settled(op, l), l') && OnlyLastActive(l')
  {
    ActiveIsLast(allowed, files, l);
    CostNotNegative(op.usage);
  }

  lemma RespondSound(allowed: Approved, op: Op, files: Files, l: Ledger)
    requires op.Respond? && Sound(allowed, files, l)
    ensures var e := RespondEffect(op, files, l); Sound(allowed, e.files, e.ledger)
  {
    if HasActive(l) && ResponsePath(ActiveRow(l).sequence) !in files {
      var e := RespondEffect(op, files, l);
      RespondCases(op, files, l);
      SoundUnderGrowth(allowed, files, e.files, l);
      if Settles(op, l) {
        SettledReplacesLast(allowed, op, e.files, l, e.ledger);
        ReplaceLastSound(allowed, e.files, l, Settled(op, l), e.ledger);
      } else {
        NotedReplacesLast(allowed, op, e.files, l);
        ReplaceLastSound(allowed, e.files, l, Noted(op, l), e.ledger);
      }
    }
  }

  lemma FinishSound(allowed: Approved, op: Op, files: Files, l: Ledger)
    requires op.Finish? && Sound(allowed, files, l)
    ensures var e := FinishEffect(op, files, l); Sound(allowed, e.files, e.ledger)
  {
    var e := FinishEffect(op, files, l);
    if e.outcome.Done? {
      SoundUnderGrowth(allowed, files, e.files, l);
      ReplaceLastSound(allowed, e.files, l, Last(e.ledger), e.ledger);
    }
  }

  lemma FailSound(allowed: Approved, files: Files, l: Ledger)
    requires Sound(allowed, files, l)
    ensures var e := FailEffect(files, l); Sound(allowed, e.files, e.ledger)
  {
    if HasActive(l) {
      ReplaceLastSound(allowed, files, l, ActiveRow(l).(status := Unresolved), FailEffect(files, l).ledger);
    }
  }

  /** Attaching a result to rows changes no amount and no key. */
  lemma {:induction false} ResultTotals(entries: seq<Row>, ns: string, sample: string, file: File)
    ensures var entries' := WithResult(entries, ns, sample, file);
            && Total(Charge, entries') == Total(Charge, entries)
            && Total(Paid, entries') == Total(Paid, entries)
            && Count(Wired, entries') == Count(Wired, entries)
  {
    var entries' := WithResult(entries, ns, sample, file);
    TotalSame(Charge, entries, Charge, entries');
    TotalSame(Paid, entries, Paid, entries');
    CountSame(Wired, entries, Wired, entries');
  }

  lemma WithResultVerified(allowed: Approved, files: Files, l: Ledger, ns: string, sample: string, file: File)
    requires Verified(allowed, files, l)
    ensures Verified(allowed, files, l.(entries := WithResult(l.entries, ns, sample, file)))
  {
    ResultTotals(l.entries, ns, sample, file);
    var entries' := WithResult(l.entries, ns, sample, file);
    assert forall i :: 0 <= i < |l.entries| ==> entries'[i].key == l.entries[i].key;
  }

  lemma WithResultRows(files: Files, entries: seq<Row>, ns: string, sample: string, file: File)
    requires forall i :: 0 <= i < |entries| ==> RowSound(files, entries[i])
    requires FileIs(files, ResultPath(ns, sample), Some(file))
    ensures var entries' := WithResult(entries, ns, sample, file);
            forall i :: 0 <= i < |entries'| ==> RowSound(files, entries'[i])
  {
  }

  lemma WithResultCore(entries: seq<Row>, ns: string, sample: string, file: File)
    requires ResultsHaveCore(entries) && HasCoreRow(entries, ns, sample)
    ensures ResultsHaveCore(WithResult(entries, ns, sample, file))
  {
    CoreRowsKept(entries, WithResult(entries, ns, sample, file));
  }

  lemma WithResultSound(allowed: Approved, files: Files, l: Ledger, ns: string, sample: string, file: File)
    requires Sound(allowed, files, l) && HasCoreRow(l.entries, ns, sample)
    requires FileIs(files, ResultPath(ns, sample), Some(file))
    ensures Sound(allowed, files, l.(entries := WithResult(l.entries, ns, sample, file)))
  {
    WithResultVerified(allowed, files, l, ns, sample, file);
    WithResultRows(files, l.entries, ns, sample, file);
    WithResultCore(l.entries, ns, sample, file);
  }

  lemma SaveResultSound(allowed: Approved, op: Op, files: Files, l: Ledger)
    requires op.SaveResult? && Sound(allowed, files, l)
    ensures var e := SaveResultEffect(allowed, op, files, l); Sound(allowed, e.files, e.ledger)
  {
    var e := SaveResultEffect(allowed, op, files, l);
    if e.outcome.Done? {
      SoundUnderGrowth(allowed, files, e.files, l);
      var file := ResultFile(op.ns, op.sample, op.result, SequencesOf(l.entries, op.ns, op.sample));
      WithResultSound(allowed, e.files, l, op.ns, op.sample, file);
    }
  }

  /** Every operation, successful or not, leaves a ledger that its own reopening check accepts. */
  lemma PerformSound(allowed: Approved, op: Op, files: Files, l: Ledger)
    requires Sound(allowed, files, l)
    ensures var e := Perform(allowed, op, files, l); Sound(allowed, e.files, e.ledger)
  {
    match op
    case Reserve(_, _, _, _, _, _, _) => ReserveSound(allowed, op, files, l);
    case Wire(_) => WireSound(allowed, op, files, l);
    case Respond(_, _) => RespondSound(allowed, op, files, l);
    case Finish(_) => FinishSound(allowed, op, files, l);
    case FailActive => FailSound(allowed, files, l);
    case SaveResult(_, _, _) => SaveResultSound(allowed, op, files, l);
  }

  /** Reopening keeps the invariant, and an unfinished request leaves the ledger blocked. */
  lemma ReopenedSound(allowed: Approved, files: Files, l: Ledger)
    requires Sound(allowed, files, l)
    ensures Sound(allowed, files, Reopened(l)) && (l.active.Some? ==> Reopened(l).blocked.Some?)
    ensures Reopened(l) == l.(blocked := Reopened(l).blocked)
    ensures l.blocked.Some? || l.active.None? ==> Reopened(l) == l
  {
  }

  // ----- Writes that fail

  /** Only a receipt that was not there is ever created, whatever a failing write leaves of it. */
  lemma ReceiptIsNew(allowed: Approved, op: Op, files: Files, l: Ledger)
    requires Sound(allowed, files, l) && WritesReceipt(allowed, op, files, l)
    ensures ReceiptOf(op, l) !in files
    ensures var after := Perform(allowed, op, files, l).files;
            ReceiptOf(op, l) in after && after == files[ReceiptOf(op, l) := after[ReceiptOf(op, l)]]
  {
  }

  lemma AttemptGrows(allowed: Approved, op: Op, fault: Fault, files: Files, l: Ledger)
    requires Sound(allowed, files, l)
    ensures Grows(files, Attempt(allowed, op, fault, files, l).effect.files)
  {
    PerformGrows(allowed, op, files, l);
    if WritesReceipt(allowed, op, files, l) {
      ReceiptIsNew(allowed, op, files, l);
    }
  }

  /** Whatever write fails, the ledger in memory stays sound beside the receipts, and so does any other that was. */
  lemma AttemptSound(allowed: Approved, op: Op, fault: Fault, files: Files, l: Ledger)
    requires Sound(allowed, files, l)
    ensures var a := Attempt(allowed, op, fault, files, l); Sound(allowed, a.effect.files, a.effect.ledger)
    ensures forall d :: Sound(allowed, files, d) ==>
            Sound(allowed, Attempt(allowed, op, fault, files, l).effect.files, d)
  {
    var a := Attempt(allowed, op, fault, files, l);
    PerformSound(allowed, op, files, l);
    AttemptGrows(allowed, op, fault, files, l);
    forall d | Sound(allowed, files, d) ensures Sound(allowed, a.effect.files, d) {
      SoundUnderGrowth(allowed, files, a.effect.files, d);
    }
  }

  /** A reservation that no guard refuses: it may still meet the ceiling, or a receipt that is already there. */
  predicate Unrefused(allowed: Approved, op: Op, l: Ledger)
    requires op.Reserve?
  {
    && InScope(allowed, op.ns, op.sample) && l.blocked.None? && l.active.None?
    && (forall i :: 0 <= i < |l.entries| ==> l.entries[i].key != LogicalKey(op.ns, op.sample, op.stage, op.taskId))
    && op.maxOutput == OutputCap(op.stage)
  }

  predicate HasRoom(op: Op, l: Ledger)
    requires op.Reserve?
  {
    l.requests < MAX_REQUESTS && l.charged + Reservation(op.bytes, op.maxOutput) <= MAX_USD
  }

  /** A reservation succeeds exactly when its guards pass, there is room, and its receipt is not there yet. */
  lemma ReserveDoneIff(allowed: Approved, op: Op, files: Files, l: Ledger)
    requires op.Reserve?
    ensures ReserveEffect(allowed, op, files, l).outcome.Done? <==>
              Unrefused(allowed, op, l) && HasRoom(op, l) && RequestPath(l.requests + 1) !in files
  {
  }

  /**
   The wire hook succeeds exactly for a genuine request on a ledger that is not blocked and has an active row not yet
   wired; its test of the two counters never refuses alone. It marks that row and counts it, and does nothing else.
   */
  lemma WireDoneIff(allowed: Approved, op: Op, files: Files, l: Ledger)
    requires op.Wire? && Sound(allowed, files, l)
    ensures var e := WireEffect(op, files, l);
            && (e.outcome.Done? <==> op.genuine && l.blocked.None? && l.active.Some? && !Last(l).wire)
            && e.files == files && (e.outcome.Raised? ==> e.ledger == l)
            && (e.outcome.Done? ==>
                  e.ledger == l.(wires := l.wires + 1,
                                 entries := l.entries[..|l.entries| - 1] + [Last(l).(wire := true)]))
  {
    if HasActive(l) {
      ActiveIsLast(allowed, files, l);
      CountBounded(Wired, l.entries[..|l.entries| - 1]);
    }
  }

  /**
   What an operation does to receipts and ledger is saved whenever it does anything, with these exceptions: the ledger
   was changed by a response whose usage record is null, a receipt or the save raised, or there was nothing to fail.
   */
  lemma SavedIff(allowed: Approved, op: Op, fault: Fault, files: Files, l: Ledger)
    ensures var a, e := Attempt(allowed, op, fault, files, l), Perform(allowed, op, files, l);
            && (a.saved ==> a.effect == e)
            && (a.saved <==>
                  && (e.outcome == Done || e.ledger != l || e.files != files)
                  && !(op.Respond? && op.usage == NullUsage)
                  && fault != SaveFails && !(fault.ReceiptFails? && e.files != files)
                  && !(op.FailActive? && !HasActive(l)))
  {
  }

  /**
   A result is read back exactly when it is the one result of every row of the sample and is on disk unchanged; there is
   none exactly when the sample has no row; and without a result on some row it is an error of its own.
   */
  lemma PriorResultIff(allowed: Approved, files: Files, l: Ledger, ns: string, sample: string, file: File)
    requires InScope(allowed, ns, sample)
    ensures var r := PriorResult(allowed, files, l, ns, sample);
            && (r == Ok(Some(file)) <==>
                  && HasRow(l.entries, ns, sample) && ResultPath(ns, sample) in files
                  && files[ResultPath(ns, sample)] == file
                  && forall i :: 0 <= i < |l.entries| && ForSample(l.entries[i], ns, sample) ==>
                                   l.entries[i].result == Some(file))
            && (r == Ok(None) <==> !HasRow(l.entries, ns, sample))
            && (r == Err(NoCompleteResult) <==>
                  exists i :: 0 <= i < |l.entries| && ForSample(l.entries[i], ns, sample)
                              && l.entries[i].result.None?)
  {
  }

  lemma RefusedAttempt(allowed: Approved, op: Op, fault: Fault, files: Files, l: Ledger, error: Error)
    requires op.Reserve? && ReserveEffect(allowed, op, files, l) == Effect(files, l, Raised(error))
    ensures Attempt(allowed, op, fault, files, l) == Attempted(Effect(files, l, Raised(error)), false)
  {
  }

  lemma CeilingAttempt(allowed: Approved, op: Op, fault: Fault, files: Files, l: Ledger)
    requires op.Reserve? && Unrefused(allowed, op, l) && !HasRoom(op, l)
    ensures var l' := l.(blocked := Some(RequestOrCostCeiling));
            Attempt(allowed, op, fault, files, l)
            == Attempted(Effect(files, l', Raised(if fault.SaveFails? then WriteFailed else Unavailable)),
                !fault.SaveFails?)
  {
  }

  lemma AddAttempt(allowed: Approved, op: Op, fault: Fault, files: Files, l: Ledger)
    requires op.Reserve? && Unrefused(allowed, op, l) && HasRoom(op, l)
    ensures var path, key := RequestPath(l.requests + 1), LogicalKey(op.ns, op.sample, op.stage, op.taskId);
            var request := RequestFile(key, op.body);
            var l' := AfterReserve(l, key, Reservation(op.bytes, op.maxOutput), request);
            Attempt(allowed, op, fault, files, l) ==
            if path in files then Attempted(Effect(files, l, Raised(FileExists)), false)
            else if fault.ReceiptFails? then
              var files' := if fault.left.Some? then files[path := fault.left.value] else files;
              Attempted(Effect(files', l, Raised(WriteFailed)), false)
            else
              Attempted(Effect(files[path := request], l', if fault.SaveFails? then Raised(WriteFailed) else Done),
                  !fault.SaveFails?)
  {
    var path := RequestPath(l.requests + 1);
    if path !in files {
      assert path in Perform(allowed, op, files, l).files;
    }
  }
}
