/**
 The adapter that drives the shared ledger around one provider request. The provider may call the transport any number
 of times, swallow what it raises, and then return a response or raise itself; any write on the way may fail.
 */
module SharedAdapter {
  import opened Basics
  import opened SharedLedger
  import R = SharedRuns
  import O = SharedOrphans

  // ----- Which requests are let through

  datatype Agent = Extractor | TaskFields | OtherAgent

  datatype ToolId = SemanticCandidates | TaskFieldAnnotations | OtherTool

  datatype Tool = Tool(id: ToolId, schema: string)

  datatype Request = Request(approvedModel: bool, agent: Agent, tools: seq<Tool>, input: string, task: string)

  /** What an extraction has open: its sample, and the only prompt its first stage may send. */
  datatype Scope = Scope(ns: string, sample: string, prompt: string)

  /** What the transport takes along when it reserves. */
  datatype Metadata = Metadata(ns: string, sample: string, stage: Stage, task: string)

  predicate IsDigit(c: char) {
    '0' <= c <= '9'
  }

  function TrailingDigits(s: string): (n: nat)
    ensures n <= |s| && (forall i :: |s| - n <= i < |s| ==> IsDigit(s[i]))
    ensures n < |s| ==> !IsDigit(s[|s| - n - 1])
  {
    if s == [] || !IsDigit(s[|s| - 1]) then 0 else TrailingDigits(s[..|s| - 1]) + 1
  }

  function WithoutLineEnd(s: string): string {
    if s != [] && s[|s| - 1] == '\n' then s[..|s| - 1] else s
  }

  /** The task's name ends in `_c` and a number; a line end may follow. */
  predicate HasClaimIndex(task: string) {
    var name := WithoutLineEnd(task);
    var rest := |name| - TrailingDigits(name);
    rest < |name| && 2 <= rest && name[rest - 2] == '_' && name[rest - 1] == 'c'
  }

  function ToolOf(stage: Stage): ToolId {
    if stage.Stage1? then SemanticCandidates else TaskFieldAnnotations
  }

  /** The request must be the one that its scope and stage allow. */
  function Admit(scope: Option<Scope>, reference: string, r: Request): Result<Metadata, Error> {
    if scope.None? then Err(NoScope)
    else if !r.approvedModel || r.agent.OtherAgent? then Err(UnapprovedAgent)
    else
      var stage := if r.agent.Extractor? then Stage1 else Stage2;
      if |r.tools| != 1 || r.tools[0].id != ToolOf(stage) then Err(ToolContractChanged)
      else if stage.Stage1? && (r.tools[0].schema != reference || r.input != scope.value.prompt) then Err(PromptChanged)
      else if stage.Stage2? && !HasClaimIndex(r.task) then Err(NoClaimIndex)
      else Ok(Metadata(scope.value.ns, scope.value.sample, stage, r.task))
  }

  /** The extractor's request under a scope: its one tool, the reference schema and the scope's own prompt. */
  predicate FirstStage(s: Scope, reference: string, r: Request, of: Metadata) {
    && of == Metadata(s.ns, s.sample, Stage1, r.task)
    && r == Request(true, Extractor, [Tool(SemanticCandidates, reference)], s.prompt, r.task)
  }

  /** The request for task fields: its one tool, for a task that ends in a claim index. */
  predicate SecondStage(s: Scope, schema: string, r: Request, of: Metadata) {
    && of == Metadata(s.ns, s.sample, Stage2, r.task) && HasClaimIndex(r.task)
    && r == Request(true, TaskFields, [Tool(TaskFieldAnnotations, schema)], r.input, r.task)
  }

  /** Those two are let through and no other, and none without a scope. */
  lemma AdmittedIff(scope: Option<Scope>, reference: string, r: Request, of: Metadata)
    ensures Admit(scope, reference, r) == Ok(of) <==>
              && scope.Some?
              && (FirstStage(scope.value, reference, r, of) || exists schema :: SecondStage(scope.value, schema, r, of))
  {
    if Admit(scope, reference, r) == Ok(of) {
      assert r.tools == [Tool(r.tools[0].id, r.tools[0].schema)];
      assert FirstStage(scope.value, reference, r, of) || SecondStage(scope.value, r.tools[0].schema, r, of);
    }
  }

  /** Somewhere in the name `_c` is followed by digits up to its end or to a last line end. */
  ghost predicate EndsInClaim(task: string, before: string, digits: string, end: string) {
    && digits != [] && (forall i :: 0 <= i < |digits| ==> IsDigit(digits[i]))
    && (end == [] || end == ['\n']) && task == before + ['_', 'c'] + digits + end
  }

  lemma {:induction false} DigitsTrail(before: string, digits: string)
    requires forall i :: 0 <= i < |digits| ==> IsDigit(digits[i])
    requires before == [] || !IsDigit(before[|before| - 1])
    ensures TrailingDigits(before + digits) == |digits|
  {
    if digits == [] {
      assert before + digits == before;
    } else {
      assert (before + digits)[..|before + digits| - 1] == before + digits[..|digits| - 1];
      DigitsTrail(before, digits[..|digits| - 1]);
    }
  }

  lemma ClaimFound(task: string, before: string, digits: string, end: string)
    requires EndsInClaim(task, before, digits, end)
    ensures HasClaimIndex(task)
  {
    var name := before + ['_', 'c'] + digits;
    assert task == name + end && (end == [] ==> task == name);
    assert WithoutLineEnd(task) == name;
    DigitsTrail(before + ['_', 'c'], digits);
  }

  /** The trailing digits are the only ones that need to be looked at. */
  lemma HasClaimIndexIff(task: string)
    ensures HasClaimIndex(task) <==> exists before, digits, end :: EndsInClaim(task, before, digits, end)
  {
    if HasClaimIndex(task) {
      var name := WithoutLineEnd(task);
      var rest := |name| - TrailingDigits(name);
      assert EndsInClaim(task, name[..rest - 2], name[rest..], task[|name|..]);
    }
    if before, digits, end :| EndsInClaim(task, before, digits, end) {
      ClaimFound(task, before, digits, end);
    }
  }

  // ----- One request

  /** The saved ledger, the receipts, and the ledger in memory. */
  datatype State = State(disk: Option<Ledger>, files: Files, ledger: Ledger)

  datatype Step = Step(state: State, outcome: Outcome)

  datatype Sending = Sending(genuine: bool, fault: Fault)

  datatype Reply = Reply(text: string, usage: Usage)

  /**
   One call of the transport: what it reserves, the HTTP requests the SDK attempts, the reply, if any, and what the disk
   does to each of them and to the failure that may follow.
   */
  datatype Call = Call(body: string, bytes: nat, maxOutput: int, reserving: Fault, wires: seq<Sending>,
                       reply: Option<Reply>, answering: Fault, failing: Fault)

  /** How the provider ends, and what the disk does to settling that and to the failure that may follow. */
  datatype Ending = Ending(response: Option<string>, settling: Fault, failing: Fault)

  ghost function Try(allowed: Approved, op: Op, fault: Fault, s: State): Step {
    var a := Attempt(allowed, op, fault, s.files, s.ledger);
    Step(State(if a.saved then Some(a.effect.ledger) else s.disk, a.effect.files, a.effect.ledger), a.effect.outcome)
  }

  /** An exception marks the active request as unresolved and goes on. */
  ghost function Fail(allowed: Approved, fault: Fault, error: Error, s: State): Step {
    var t := Try(allowed, FailActive, fault, s);
    if t.outcome.Raised? then t else Step(t.state, Raised(error))
  }

  /** The wire hook runs before every HTTP request; the first refusal aborts the SDK call. */
  ghost function Wires(allowed: Approved, wires: seq<Sending>, s: State): Step {
    if wires == [] then Step(s, Done)
    else
      var t := Try(allowed, Wire(wires[0].genuine), wires[0].fault, s);
      if t.outcome.Raised? then t else Wires(allowed, wires[1..], t.state)
  }

  ghost function Answer(allowed: Approved, call: Call, wired: Step): Step {
    if wired.outcome.Raised? then Fail(allowed, call.failing, wired.outcome.error, wired.state)
    else if call.reply.None? then Fail(allowed, call.failing, ProviderRaised, wired.state)
    else
      var t := Try(allowed, Respond(call.reply.value.text, call.reply.value.usage), call.answering, wired.state);
      if t.outcome.Raised? then Fail(allowed, call.failing, t.outcome.error, t.state) else t
  }

  function ReserveOf(of: Metadata, call: Call): Op {
    Reserve(of.ns, of.sample, of.stage, of.task, call.body, call.bytes, call.maxOutput)
  }

  ghost function Transport(allowed: Approved, of: Metadata, call: Call, s: State): Step {
    var reserved := Try(allowed, ReserveOf(of, call), call.reserving, s);
    if reserved.outcome.Raised? then reserved
    else Answer(allowed, call, Wires(allowed, call.wires, reserved.state))
  }

  ghost function Transports(allowed: Approved, of: Metadata, calls: seq<Call>, s: State): State {
    if calls == [] then s else Transports(allowed, of, calls[1..], Transport(allowed, of, calls[0], s).state)
  }

  /** Finish a metered reply, fail anything else that is still active; what raises here is itself a failure. */
  ghost function Settle(allowed: Approved, e: Ending, s: State): Step {
    if e.response.None? then Fail(allowed, e.failing, ProviderRaised, s)
    else if !HasActive(s.ledger) then Step(s, Done)
    else
      var op := if ActiveRow(s.ledger).status.UsageKnown? then Finish(e.response.value) else FailActive;
      var t := Try(allowed, op, e.settling, s);
      if t.outcome.Raised? then Fail(allowed, e.failing, t.outcome.error, t.state) else t
  }

  /** One provider request. */
  ghost function Complete(allowed: Approved, of: Metadata, calls: seq<Call>, e: Ending, s: State): Step {
    Settle(allowed, e, Transports(allowed, of, calls, s))
  }

  // ----- Both ledgers stay sound

  ghost predicate BothSound(allowed: Approved, s: State) {
    Sound(allowed, s.files, s.ledger) && s.disk.Some? && Sound(allowed, s.files, s.disk.value)
  }

  lemma TrySound(allowed: Approved, op: Op, fault: Fault, s: State)
    requires BothSound(allowed, s)
    ensures BothSound(allowed, Try(allowed, op, fault, s).state)
  {
    AttemptSound(allowed, op, fault, s.files, s.ledger);
  }

  lemma FailKeepsSound(allowed: Approved, fault: Fault, error: Error, s: State)
    requires BothSound(allowed, s)
    ensures BothSound(allowed, Fail(allowed, fault, error, s).state)
  {
    TrySound(allowed, FailActive, fault, s);
  }

  lemma {:induction false} WiresSound(allowed: Approved, wires: seq<Sending>, s: State)
    requires BothSound(allowed, s)
    ensures BothSound(allowed, Wires(allowed, wires, s).state)
  {
    if wires != [] {
      TrySound(allowed, Wire(wires[0].genuine), wires[0].fault, s);
      WiresSound(allowed, wires[1..], Try(allowed, Wire(wires[0].genuine), wires[0].fault, s).state);
    }
  }

  lemma AnswerSound(allowed: Approved, call: Call, wired: Step)
    requires BothSound(allowed, wired.state)
    ensures BothSound(allowed, Answer(allowed, call, wired).state)
  {
    if wired.outcome.Raised? {
      FailKeepsSound(allowed, call.failing, wired.outcome.error, wired.state);
    } else if call.reply.None? {
      FailKeepsSound(allowed, call.failing, ProviderRaised, wired.state);
    } else {
      var op := Respond(call.reply.value.text, call.reply.value.usage);
      var t := Try(allowed, op, call.answering, wired.state);
      TrySound(allowed, op, call.answering, wired.state);
      if t.outcome.Raised? {
        FailKeepsSound(allowed, call.failing, t.outcome.error, t.state);
      }
    }
  }

  lemma TransportSound(allowed: Approved, of: Metadata, call: Call, s: State)
    requires BothSound(allowed, s)
    ensures BothSound(allowed, Transport(allowed, of, call, s).state)
  {
    var reserved := Try(allowed, ReserveOf(of, call), call.reserving, s);
    TrySound(allowed, ReserveOf(of, call), call.reserving, s);
    WiresSound(allowed, call.wires, reserved.state);
    AnswerSound(allowed, call, Wires(allowed, call.wires, reserved.state));
  }

  lemma SettleSound(allowed: Approved, e: Ending, s: State)
    requires BothSound(allowed, s)
    ensures BothSound(allowed, Settle(allowed, e, s).state)
  {
    if e.response.None? {
      FailKeepsSound(allowed, e.failing, ProviderRaised, s);
    } else if HasActive(s.ledger) {
      var op := if ActiveRow(s.ledger).status.UsageKnown? then Finish(e.response.value) else FailActive;
      var t := Try(allowed, op, e.settling, s);
      TrySound(allowed, op, e.settling, s);
      if t.outcome.Raised? {
        FailKeepsSound(allowed, e.failing, t.outcome.error, t.state);
      }
    }
  }

  // ----- What one request adds

  function KeyOf(of: Metadata): Key {
    LogicalKey(of.ns, of.sample, of.stage, of.task)
  }

  /** The rows keep their keys, and those added have the request's key. */
  predicate OnlyAdds(l: Ledger, l': Ledger, key: Key) {
    && |l.entries| <= |l'.entries|
    && (forall i :: 0 <= i < |l.entries| ==> l'.entries[i].key == l.entries[i].key)
    && (forall i :: |l.entries| <= i < |l'.entries| ==> l'.entries[i].key == key)
  }

  /** At most one row is added, and only to an idle ledger, which is active then; what is active stays so. */
  predicate Follows(l: Ledger, l': Ledger, key: Key) {
    && OnlyAdds(l, l', key) && |l'.entries| <= |l.entries| + 1
    && (l.active.Some? ==> l'.active == l.active && |l'.entries| == |l.entries|)
    && (l'.active.None? ==> l.active.None? && |l'.entries| == |l.entries|)
  }

  lemma FollowsInTurn(l: Ledger, l': Ledger, l'': Ledger, key: Key)
    requires Follows(l, l', key) && Follows(l', l'', key)
    ensures Follows(l, l'', key)
  {
    forall i | |l.entries| <= i < |l''.entries| ensures l''.entries[i].key == key {
      if i < |l'.entries| { assert l''.entries[i].key == l'.entries[i].key; }
    }
  }

  lemma FollowsItself(l: Ledger, key: Key)
    ensures Follows(l, l, key)
  {
  }

  lemma ReserveFollows(allowed: Approved, op: Op, files: Files, l: Ledger)
    requires op.Reserve?
    ensures Follows(l, ReserveEffect(allowed, op, files, l).ledger, LogicalKey(op.ns, op.sample, op.stage, op.taskId))
  {
  }

  lemma OthersKeepActive(allowed: Approved, op: Op, files: Files, l: Ledger)
    requires op.Wire? || op.Respond? || op.FailActive?
    ensures Perform(allowed, op, files, l).ledger.active == l.active
  {
  }

  lemma PerformFollows(allowed: Approved, op: Op, files: Files, l: Ledger, key: Key)
    requires Sound(allowed, files, l) && !op.Finish? && !op.SaveResult?
    requires op.Reserve? ==> key == LogicalKey(op.ns, op.sample, op.stage, op.taskId)
    ensures Follows(l, Perform(allowed, op, files, l).ledger, key)
  {
    if op.Reserve? {
      ReserveFollows(allowed, op, files, l);
    } else {
      OthersKeepActive(allowed, op, files, l);
      R.TouchRows(allowed, op, files, l);
    }
  }

  lemma TryFollows(allowed: Approved, op: Op, fault: Fault, s: State, key: Key)
    requires BothSound(allowed, s) && !op.Finish? && !op.SaveResult?
    requires op.Reserve? ==> key == LogicalKey(op.ns, op.sample, op.stage, op.taskId)
    ensures Follows(s.ledger, Try(allowed, op, fault, s).state.ledger, key)
    ensures BothSound(allowed, Try(allowed, op, fault, s).state)
  {
    TrySound(allowed, op, fault, s);
    PerformFollows(allowed, op, s.files, s.ledger, key);
    FollowsItself(s.ledger, key);
    R.AttemptCases(allowed, op, fault, s.files, s.ledger);
  }

  lemma FailFollows(allowed: Approved, fault: Fault, error: Error, s: State, key: Key)
    requires BothSound(allowed, s)
    ensures Follows(s.ledger, Fail(allowed, fault, error, s).state.ledger, key)
  {
    TryFollows(allowed, FailActive, fault, s, key);
  }

  lemma {:induction false} WiresFollow(allowed: Approved, wires: seq<Sending>, s: State, key: Key)
    requires BothSound(allowed, s)
    ensures Follows(s.ledger, Wires(allowed, wires, s).state.ledger, key)
  {
    if wires != [] {
      var t := Try(allowed, Wire(wires[0].genuine), wires[0].fault, s);
      TryFollows(allowed, Wire(wires[0].genuine), wires[0].fault, s, key);
      if t.outcome.Done? {
        WiresFollow(allowed, wires[1..], t.state, key);
        FollowsInTurn(s.ledger, t.state.ledger, Wires(allowed, wires[1..], t.state).state.ledger, key);
      }
    }
  }

  lemma AnswerFollows(allowed: Approved, call: Call, wired: Step, key: Key)
    requires BothSound(allowed, wired.state)
    ensures Follows(wired.state.ledger, Answer(allowed, call, wired).state.ledger, key)
  {
    var s := wired.state;
    if wired.outcome.Raised? {
      FailFollows(allowed, call.failing, wired.outcome.error, s, key);
    } else if call.reply.None? {
      FailFollows(allowed, call.failing, ProviderRaised, s, key);
    } else {
      var op := Respond(call.reply.value.text, call.reply.value.usage);
      var t := Try(allowed, op, call.answering, s);
      TryFollows(allowed, op, call.answering, s, key);
      if t.outcome.Raised? {
        FailFollows(allowed, call.failing, t.outcome.error, t.state, key);
        FollowsInTurn(s.ledger, t.state.ledger,
            Fail(allowed, call.failing, t.outcome.error, t.state).state.ledger, key);
      }
    }
  }

  lemma TransportFollows(allowed: Approved, of: Metadata, call: Call, s: State)
    requires BothSound(allowed, s)
    ensures Follows(s.ledger, Transport(allowed, of, call, s).state.ledger, KeyOf(of))
  {
    var reserved := Try(allowed, ReserveOf(of, call), call.reserving, s);
    TryFollows(allowed, ReserveOf(of, call), call.reserving, s, KeyOf(of));
    if reserved.outcome.Done? {
      SentFollows(allowed, of, call, reserved.state);
      FollowsInTurn(s.ledger, reserved.state.ledger,
          Answer(allowed, call, Wires(allowed, call.wires, reserved.state)).state.ledger, KeyOf(of));
    }
  }

  /** What happens behind a reservation. */
  lemma {:induction false} SentFollows(allowed: Approved, of: Metadata, call: Call, s: State)
    requires BothSound(allowed, s)
    ensures Follows(s.ledger, Answer(allowed, call, Wires(allowed, call.wires, s)).state.ledger, KeyOf(of))
  {
    var wired := Wires(allowed, call.wires, s);
    WiresSound(allowed, call.wires, s);
    WiresFollow(allowed, call.wires, s, KeyOf(of));
    AnswerFollows(allowed, call, wired, KeyOf(of));
    FollowsInTurn(s.ledger, wired.state.ledger, Answer(allowed, call, wired).state.ledger, KeyOf(of));
  }

  lemma {:induction false} TransportsFollow(allowed: Approved, of: Metadata, calls: seq<Call>, s: State)
    requires BothSound(allowed, s)
    ensures var m := Transports(allowed, of, calls, s);
            BothSound(allowed, m) && Follows(s.ledger, m.ledger, KeyOf(of))
  {
    if calls == [] {
      FollowsItself(s.ledger, KeyOf(of));
    } else {
      var m := Transport(allowed, of, calls[0], s).state;
      TransportSound(allowed, of, calls[0], s);
      TransportFollows(allowed, of, calls[0], s);
      TransportsFollow(allowed, of, calls[1..], m);
      FollowsInTurn(s.ledger, m.ledger, Transports(allowed, of, calls[1..], m).ledger, KeyOf(of));
    }
  }

  // ----- How one request ends

  predicate IdleOrBlocked(l: Ledger) {
    l.active.None? || l.blocked.Some?
  }

  /** The same requests under the same keys. */
  predicate SameKeys(l: Ledger, l': Ledger) {
    |l'.entries| == |l.entries| && forall i :: 0 <= i < |l.entries| ==> l'.entries[i].key == l.entries[i].key
  }

  /** A failure that cannot be saved still blocks the ledger in memory. */
  lemma FailBlocks(allowed: Approved, fault: Fault, error: Error, s: State)
    requires BothSound(allowed, s)
    ensures var t := Fail(allowed, fault, error, s);
            IdleOrBlocked(t.state.ledger) && SameKeys(s.ledger, t.state.ledger) && t.outcome.Raised?
    ensures Try(allowed, FailActive, fault, s).state.ledger == Fail(allowed, fault, error, s).state.ledger
  {
    R.TouchRows(allowed, FailActive, s.files, s.ledger);
  }

  lemma FinishKeepsKeys(allowed: Approved, op: Op, fault: Fault, s: State)
    requires BothSound(allowed, s) && op.Finish?
    ensures SameKeys(s.ledger, Try(allowed, op, fault, s).state.ledger)
    ensures Try(allowed, op, fault, s).outcome.Done? ==> Try(allowed, op, fault, s).state.ledger.active.None?
  {
    R.TouchRows(allowed, op, s.files, s.ledger);
    R.AttemptCases(allowed, op, fault, s.files, s.ledger);
  }

  lemma SettleIdles(allowed: Approved, e: Ending, s: State)
    requires BothSound(allowed, s)
    ensures var t := Settle(allowed, e, s); IdleOrBlocked(t.state.ledger) && SameKeys(s.ledger, t.state.ledger)
  {
    if e.response.None? {
      FailBlocks(allowed, e.failing, ProviderRaised, s);
    } else if HasActive(s.ledger) {
      if ActiveRow(s.ledger).status.UsageKnown? {
        FinishIdles(allowed, e, s);
      } else {
        MarkIdles(allowed, e, s);
      }
    }
  }

  lemma FinishIdles(allowed: Approved, e: Ending, s: State)
    requires BothSound(allowed, s) && e.response.Some?
             && HasActive(s.ledger) && ActiveRow(s.ledger).status.UsageKnown?
    ensures var t := Settle(allowed, e, s); IdleOrBlocked(t.state.ledger) && SameKeys(s.ledger, t.state.ledger)
  {
    var op := Finish(e.response.value);
    var t := Try(allowed, op, e.settling, s);
    TrySound(allowed, op, e.settling, s);
    FinishKeepsKeys(allowed, op, e.settling, s);
    if t.outcome.Raised? {
      FailBlocks(allowed, e.failing, t.outcome.error, t.state);
    }
  }

  lemma MarkIdles(allowed: Approved, e: Ending, s: State)
    requires BothSound(allowed, s) && e.response.Some?
             && HasActive(s.ledger) && !ActiveRow(s.ledger).status.UsageKnown?
    ensures var t := Settle(allowed, e, s); IdleOrBlocked(t.state.ledger) && SameKeys(s.ledger, t.state.ledger)
  {
    var t := Try(allowed, FailActive, e.settling, s);
    TrySound(allowed, FailActive, e.settling, s);
    FailBlocks(allowed, e.settling, ProviderRaised, s);
    if t.outcome.Raised? {
      FailBlocks(allowed, e.failing, t.outcome.error, t.state);
    }
  }

  /** When no request is active, every reservation made so far is complete, wired and paid for as recorded. */
  lemma IdleIsCompletePrefix(allowed: Approved, files: Files, l: Ledger)
    requires Sound(allowed, files, l) && l.active.None?
    ensures forall i :: 0 <= i < |l.entries| ==>
              l.entries[i].status.Complete? && l.entries[i].wire && l.entries[i].paid.Some?
    ensures l.wires == l.requests && l.charged == l.known
  {
    CountAll(Wired, l.entries);
    TotalSame(Charge, l.entries, Paid, l.entries);
  }

  lemma ActiveHasOneUnwired(allowed: Approved, files: Files, l: Ledger)
    requires Sound(allowed, files, l) && l.active.Some?
    ensures l.requests - 1 <= l.wires <= l.requests
  {
    CountAll(Wired, l.entries[..|l.entries| - 1]);
  }

  /**
   Whatever the provider does and whichever writes fail, one request through the adapter leaves both ledgers sound and
   the one in memory idle or blocked, with at most one reservation and one wire more: nothing unfinished is left for the
   next request, in this process or, once the saved ledger is reopened, in a later one.
   */
  lemma CompleteLeavesIdleOrBlocked(allowed: Approved, of: Metadata, calls: seq<Call>, e: Ending, s: State)
    requires BothSound(allowed, s)
    ensures var t := Complete(allowed, of, calls, e, s);
            && BothSound(allowed, t.state) && IdleOrBlocked(t.state.ledger)
            && t.state.ledger.requests <= s.ledger.requests + 1 && t.state.ledger.wires <= s.ledger.wires + 1
            && IdleOrBlocked(Reopened(t.state.disk.value))
  {
    var m := Transports(allowed, of, calls, s);
    TransportsFollow(allowed, of, calls, s);
    SettleSound(allowed, e, m);
    SettleIdles(allowed, e, m);
    CompleteWires(allowed, s, Settle(allowed, e, m).state);
  }

  lemma CompleteWires(allowed: Approved, s: State, t: State)
    requires BothSound(allowed, s) && BothSound(allowed, t)
    requires t.ledger.requests <= s.ledger.requests + (if s.ledger.active.None? then 1 else 0)
    ensures t.ledger.wires <= s.ledger.wires + 1
  {
    if s.ledger.active.None? {
      IdleIsCompletePrefix(allowed, s.files, s.ledger);
    } else {
      ActiveHasOneUnwired(allowed, s.files, s.ledger);
    }
    if t.ledger.active.None? {
      IdleIsCompletePrefix(allowed, t.files, t.ledger);
    } else {
      ActiveHasOneUnwired(allowed, t.files, t.ledger);
    }
  }

  /**
   An admitted request renames no row and adds at most one, under the key of its scope's sample, its stage and its task,
   whatever the provider makes the transport do and whichever writes fail.
   */
  lemma CompleteAddsForScope(allowed: Approved, scope: Scope, reference: string, r: Request, calls: seq<Call>,
                             e: Ending, s: State)
    requires BothSound(allowed, s) && Admit(Some(scope), reference, r).Ok?
    ensures var of := Admit(Some(scope), reference, r).value;
            var l' := Complete(allowed, of, calls, e, s).state.ledger;
            && OnlyAdds(s.ledger, l', KeyOf(of)) && |l'.entries| <= |s.ledger.entries| + 1
            && (forall i :: |s.ledger.entries| <= i < |l'.entries| ==>
                  ForSample(l'.entries[i], scope.ns, scope.sample))
  {
    var of := Admit(Some(scope), reference, r).value;
    var m := Transports(allowed, of, calls, s);
    TransportsFollow(allowed, of, calls, s);
    SettleIdles(allowed, e, m);
    var l' := Settle(allowed, e, m).state.ledger;
    forall i | |s.ledger.entries| <= i < |l'.entries| ensures l'.entries[i].key == KeyOf(of) {
      assert l'.entries[i].key == m.ledger.entries[i].key;
    }
  }

  // ----- What a returned response says about the saved ledger

  /** A ceiling was met and could not be saved: the ledger in memory is blocked, the saved one is not. */
  predicate LostCeiling(s: State) {
    && s.ledger.active.None? && s.disk.Some? && s.disk.value.blocked.None?
    && s.ledger == s.disk.value.(blocked := Some(RequestOrCostCeiling))
  }

  predicate SavedOrActive(s: State) {
    s.disk == Some(s.ledger) || HasActive(s.ledger) || LostCeiling(s)
  }

  lemma IdleReserve(allowed: Approved, of: Metadata, call: Call, s: State)
    requires s.ledger.active.None? && s.ledger.requests == |s.ledger.entries| && SavedOrActive(s)
    ensures var r := Try(allowed, ReserveOf(of, call), call.reserving, s);
            (r.outcome.Done? ==> HasActive(r.state.ledger)) && SavedOrActive(r.state)
  {
    var op := ReserveOf(of, call);
    if !Unrefused(allowed, op, s.ledger) {
      var e := ReserveEffect(allowed, op, s.files, s.ledger);
      assert e == Effect(s.files, s.ledger, Raised(e.outcome.error));
      RefusedAttempt(allowed, op, call.reserving, s.files, s.ledger, e.outcome.error);
    } else if !HasRoom(op, s.ledger) {
      CeilingAttempt(allowed, op, call.reserving, s.files, s.ledger);
    } else {
      AddAttempt(allowed, op, call.reserving, s.files, s.ledger);
    }
  }

  lemma FollowsActive(l: Ledger, l': Ledger, key: Key)
    requires HasActive(l) && Follows(l, l', key)
    ensures HasActive(l')
  {
  }

  lemma TransportSaves(allowed: Approved, of: Metadata, call: Call, s: State)
    requires BothSound(allowed, s) && SavedOrActive(s)
    ensures SavedOrActive(Transport(allowed, of, call, s).state)
  {
    if HasActive(s.ledger) {
      TransportFollows(allowed, of, call, s);
      FollowsActive(s.ledger, Transport(allowed, of, call, s).state.ledger, KeyOf(of));
    } else {
      var reserved := Try(allowed, ReserveOf(of, call), call.reserving, s);
      IdleReserve(allowed, of, call, s);
      if reserved.outcome.Done? {
        TrySound(allowed, ReserveOf(of, call), call.reserving, s);
        SentFollows(allowed, of, call, reserved.state);
        FollowsActive(reserved.state.ledger, Transport(allowed, of, call, s).state.ledger, KeyOf(of));
      }
    }
  }

  lemma {:induction false} TransportsSave(allowed: Approved, of: Metadata, calls: seq<Call>, s: State)
    requires BothSound(allowed, s) && SavedOrActive(s)
    ensures SavedOrActive(Transports(allowed, of, calls, s))
  {
    if calls != [] {
      TransportSound(allowed, of, calls[0], s);
      TransportSaves(allowed, of, calls[0], s);
      TransportsSave(allowed, of, calls[1..], Transport(allowed, of, calls[0], s).state);
    }
  }

  lemma DoneIsSaved(allowed: Approved, op: Op, fault: Fault, s: State)
    requires (op.Finish? || op.FailActive?) && HasActive(s.ledger)
    ensures var t := Try(allowed, op, fault, s); t.outcome.Done? ==> t.state.disk == Some(t.state.ledger)
  {
  }

  /**
   A response that comes back means that what is in memory is saved, whatever failed and was swallowed on the way, with
   one exception: a ceiling that was met without any request, and whose save was lost.
   */
  lemma ReturnedIsSaved(allowed: Approved, of: Metadata, calls: seq<Call>, e: Ending, s: State)
    requires BothSound(allowed, s) && s.disk == Some(s.ledger)
    ensures var t := Complete(allowed, of, calls, e, s);
            t.outcome.Done? ==> t.state.disk == Some(t.state.ledger) || LostCeiling(t.state)
  {
    var m := Transports(allowed, of, calls, s);
    TransportsSave(allowed, of, calls, s);
    if e.response.None? {
      assert Settle(allowed, e, m).outcome.Raised?;
    } else if HasActive(m.ledger) {
      var op := if ActiveRow(m.ledger).status.UsageKnown? then Finish(e.response.value) else FailActive;
      DoneIsSaved(allowed, op, e.settling, m);
    }
  }

  /** A body of a million bytes meets the cost ceiling at once. */
  lemma {:induction false} LostCeilingHappens(ns: string, sample: string, text: string)
    ensures var of, s := Metadata(ns, sample, Stage1, "core"), State(Some(FRESH), map[], FRESH);
            var call := Call("", 1000000, STAGE1_MAX_OUTPUT, SaveFails, [], None, NoFault, NoFault);
            var t := Complete(map[ns := {sample}], of, [call], Ending(Some(text), NoFault, NoFault), s);
            t.outcome.Done? && LostCeiling(t.state)
  {
    var allowed: Approved := map[ns := {sample}];
    var of, s := Metadata(ns, sample, Stage1, "core"), State(Some(FRESH), map[], FRESH);
    var call := Call("", 1000000, STAGE1_MAX_OUTPUT, SaveFails, [], None, NoFault, NoFault);
    CeilingAttempt(allowed, ReserveOf(of, call), SaveFails, map[], FRESH);
    var r := Transport(allowed, of, call, s).state;
    assert LostCeiling(r);
    assert [call][1..] == [] && Transports(allowed, of, [], r) == r;
    assert Transports(allowed, of, [call], s) == Transports(allowed, of, [call][1..], r);
  }

  // ----- A request of an earlier process

  lemma BlockedTransport(allowed: Approved, of: Metadata, call: Call, s: State)
    requires s.ledger.blocked.Some?
    ensures Transport(allowed, of, call, s).state == s
  {
    var op := ReserveOf(of, call);
    var e := ReserveEffect(allowed, op, s.files, s.ledger);
    RefusedAttempt(allowed, op, call.reserving, s.files, s.ledger, e.outcome.error);
  }

  lemma {:induction false} BlockedTransports(allowed: Approved, of: Metadata, calls: seq<Call>, s: State)
    requires s.ledger.blocked.Some?
    ensures Transports(allowed, of, calls, s) == s
  {
    if calls != [] {
      BlockedTransport(allowed, of, calls[0], s);
      BlockedTransports(allowed, of, calls[1..], s);
    }
  }

  /**
   The adapter itself does not check that a metered request is its own. On a reopened, blocked ledger it completes the
   earlier process's request with the new response, exactly when the provider returns one, the old request was already
   metered, no response was stored for it, and storing one does not fail. Only the extractor's own guard on `blocked`
   keeps that from happening.
   */
  lemma StaleRequestCompletedIff(allowed: Approved, of: Metadata, calls: seq<Call>, e: Ending, s: State)
    requires BothSound(allowed, s) && s.ledger.active.Some? && s.ledger.blocked.Some?
    ensures var l', n := Complete(allowed, of, calls, e, s).state.ledger, s.ledger.active.value;
            && |l'.entries| == n
            && (LastCompletes(l', n)
                <==> e.response.Some? && ActiveRow(s.ledger).status.UsageKnown? && ModelResponsePath(n) !in s.files
                     && !e.settling.ReceiptFails?)
  {
    BlockedTransports(allowed, of, calls, s);
    SettleActive(allowed, e, s);
  }

  /** The newest row, which is the active one, is complete. */
  predicate LastCompletes(l: Ledger, n: nat) {
    |l.entries| == n > 0 && Last(l).status.Complete?
  }

  lemma FailCompletesNothing(allowed: Approved, fault: Fault, error: Error, s: State)
    requires BothSound(allowed, s) && s.ledger.entries != []
    ensures var n := |s.ledger.entries|;
            && |Fail(allowed, fault, error, s).state.ledger.entries| == n
            && |Try(allowed, FailActive, fault, s).state.ledger.entries| == n
            && (LastCompletes(Fail(allowed, fault, error, s).state.ledger, n) <==> LastCompletes(s.ledger, n))
            && (LastCompletes(Try(allowed, FailActive, fault, s).state.ledger, n) <==> LastCompletes(s.ledger, n))
  {
  }

  lemma FinishCompletesIff(allowed: Approved, text: string, fault: Fault, s: State)
    requires BothSound(allowed, s) && HasActive(s.ledger) && ActiveRow(s.ledger).status.UsageKnown?
    ensures var n := |s.ledger.entries|;
            && |Try(allowed, Finish(text), fault, s).state.ledger.entries| == n
            && (LastCompletes(Try(allowed, Finish(text), fault, s).state.ledger, n)
                <==> ModelResponsePath(n) !in s.files && !fault.ReceiptFails?)
  {
    ActiveIsLast(allowed, s.files, s.ledger);
  }

  lemma SettleActive(allowed: Approved, e: Ending, s: State)
    requires BothSound(allowed, s) && HasActive(s.ledger)
    ensures var l', n := Settle(allowed, e, s).state.ledger, |s.ledger.entries|;
            && |l'.entries| == n == s.ledger.active.value
            && (LastCompletes(l', n)
                <==> e.response.Some? && ActiveRow(s.ledger).status.UsageKnown? && ModelResponsePath(n) !in s.files
                     && !e.settling.ReceiptFails?)
  {
    ActiveIsLast(allowed, s.files, s.ledger);
    if e.response.None? {
      FailCompletesNothing(allowed, e.failing, ProviderRaised, s);
    } else {
      var known := ActiveRow(s.ledger).status.UsageKnown?;
      var op := if known then Finish(e.response.value) else FailActive;
      var t := Try(allowed, op, e.settling, s);
      TrySound(allowed, op, e.settling, s);
      if known {
        FinishCompletesIff(allowed, e.response.value, e.settling, s);
      } else {
        FailCompletesNothing(allowed, e.settling, ProviderRaised, s);
      }
      if t.outcome.Raised? {
        FailCompletesNothing(allowed, e.failing, t.outcome.error, t.state);
      }
    }
  }

  // ----- A run in which an earlier process's request is completed

  const USED := Usage(Tokens(0), Tokens(0), Absent, Absent)
  const ANSWERED := Respond("raw", USED)
  const RESERVED_W := O.AHEAD.(disk := O.AHEAD.memory, bill := [0.0])
  const WIRED_L := WireEffect(Wire(true), O.AHEAD.files, O.ACTIVE).ledger
  const WIRED_W := RESERVED_W.(disk := Some(WIRED_L), memory := Some(WIRED_L))
  const METERED := RespondEffect(ANSWERED, O.AHEAD.files, WIRED_L)
  const METERED_W := WIRED_W.(disk := Some(METERED.ledger), memory := Some(METERED.ledger), files := METERED.files)
  const REOPENED_W := METERED_W.(disk := Some(Reopened(METERED.ledger)), memory := Some(Reopened(METERED.ledger)))

  lemma ReserveStep()
    ensures R.Next(O.SAMPLES, O.STARTED, R.Do(O.FIRST, NoFault, None), RESERVED_W)
  {
    O.FirstReservation();
    assert Attempt(O.SAMPLES, O.FIRST, NoFault, map[], FRESH) == Attempted(Effect(O.AHEAD.files, O.ACTIVE, Done), true);
    assert R.Extended([], 1) == [0.0];
  }

  lemma WireStep()
    ensures R.Next(O.SAMPLES, RESERVED_W, R.Do(Wire(true), NoFault, None), WIRED_W)
  {
    assert Attempt(O.SAMPLES, Wire(true), NoFault, O.AHEAD.files, O.ACTIVE)
        == Attempted(Effect(O.AHEAD.files, WIRED_L, Done), true);
    assert R.Extended([0.0], 1) == [0.0];
  }

  lemma FirstMetered()
    ensures METERED.outcome.Done? && METERED.ledger.active == Some(1) && METERED.ledger.blocked.None?
    ensures |METERED.ledger.entries| == 1 && Last(METERED.ledger).status.UsageKnown?
            && ModelResponsePath(1) !in METERED.files
    ensures Charge(Last(METERED.ledger)) == 0.0
  {
    assert Cost(USED) == 0.0;
  }

  lemma MeterStep()
    ensures R.Next(O.SAMPLES, WIRED_W, R.Do(ANSWERED, NoFault, None), METERED_W)
  {
    FirstMetered();
    assert Attempt(O.SAMPLES, ANSWERED, NoFault, O.AHEAD.files, WIRED_L) == Attempted(METERED, true);
    assert R.Extended([0.0], 1) == [0.0];
  }

  lemma MeteredReached()
    ensures R.Reachable(O.SAMPLES, METERED_W)
  {
    O.StartedReached();
    ReserveStep();
    R.ReachedNext(O.SAMPLES, O.STARTED, R.Do(O.FIRST, NoFault, None), RESERVED_W);
    WireStep();
    R.ReachedNext(O.SAMPLES, RESERVED_W, R.Do(Wire(true), NoFault, None), WIRED_W);
    MeterStep();
    R.ReachedNext(O.SAMPLES, WIRED_W, R.Do(ANSWERED, NoFault, None), METERED_W);
  }

  /** A process holds a blocked ledger with an earlier process's metered request. */
  ghost predicate Stale(w: R.World) {
    && w.memory.Some? && HasActive(w.memory.value) && w.memory.value.blocked.Some?
    && ActiveRow(w.memory.value).status.UsageKnown? && ModelResponsePath(w.memory.value.active.value) !in w.files
  }

  /** After dying before it finished, and reopening. */
  lemma StaleReached()
    ensures R.Reachable(O.SAMPLES, REOPENED_W) && Stale(REOPENED_W)
  {
    MeteredReached();
    FirstMetered();
    var died := METERED_W.(memory := None);
    R.ReachedNext(O.SAMPLES, METERED_W, R.Close, died);
    R.ReachedInv(O.SAMPLES, died);
    R.ReachedNext(O.SAMPLES, died, R.Open, REOPENED_W);
  }

  /** Such a state is reached, and in every such state any response through the adapter completes that request. */
  lemma StaleRequestHappens(of: Metadata, text: string)
    ensures exists w :: R.Reachable(O.SAMPLES, w) && Stale(w)
    ensures forall w :: R.Reachable(O.SAMPLES, w) && Stale(w) ==> CompletesStale(w, of, text)
  {
    StaleReached();
    forall w | R.Reachable(O.SAMPLES, w) && Stale(w) ensures CompletesStale(w, of, text) {
      StaleCompleted(w, of, text);
    }
  }

  lemma StaleCompleted(w: R.World, of: Metadata, text: string)
    requires R.Reachable(O.SAMPLES, w) && Stale(w)
    ensures CompletesStale(w, of, text)
  {
    R.ReachedInv(O.SAMPLES, w);
    StaleRequestCompletedIff(O.SAMPLES, of, [], Ending(Some(text), NoFault, NoFault),
        State(w.disk, w.files, w.memory.value));
  }

  ghost predicate CompletesStale(w: R.World, of: Metadata, text: string)
    requires Stale(w)
  {
    var s := State(w.disk, w.files, w.memory.value);
    var l' := Complete(O.SAMPLES, of, [], Ending(Some(text), NoFault, NoFault), s).state.ledger;
    LastCompletes(l', |w.memory.value.entries|)
  }
}
