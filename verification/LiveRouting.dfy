/** A routing evaluation that reserves before every request and stops for good at the first outcome it cannot price. */
module LiveRouting {
  import opened Basics
  import P = Prices

  datatype Failure =
    | JournalWriteFailed | InvalidPayload | BudgetExhausted | ProviderException | InvalidResponse | InconsistentUsage
    | UsageExceeded | UsageUnavailable | ProviderError(code: nat)

  datatype Outcome = Reserved | Unknown | Exceeded | Failed | Completed

  /** Costs are exact, in millionths of a dollar: tokens times the rate of a million. */
  datatype Call = Call(inputBound: nat, outputBound: nat, reserved: real, accounted: real, outcome: Outcome)

  datatype Rates = Rates(input: real, output: real)

  datatype Limits = Limits(requests: nat, cost: real, rates: Rates)

  datatype Request = Request(wellFormed: bool, inputBound: nat, outputBound: nat)

  /** Token counts are there all together or not at all. */
  datatype Usage = Usage(input: nat, output: nat, total: nat)

  datatype Reply = Raised | NotAResponse | Response(usage: Option<Usage>, error: Option<nat>)

  /** What the journal file holds: it is rewritten in place, so a write that fails half way leaves neither state. */
  datatype Journal = NoFile | TornFile | Holds(summary: Summary)

  datatype Summary = Summary(charged: real, calls: seq<Call>, failure: Option<Failure>)

  /**
   One rewriting of the journal: it lands, or it raises before opening the file, in the middle, or after the last byte.
   */
  datatype Write = Lands | NotOpened | Torn | LandsThenRaises

  /** The evaluation's books; `sent` counts the requests that crossed to the provider. */
  datatype Books = Books(charged: real, calls: seq<Call>, failure: Option<Failure>, journal: Journal, sent: nat)

  function Reservation(r: Rates, q: Request): real {
    q.inputBound as real * r.input + q.outputBound as real * r.output
  }

  /** Tokens beyond the input are billed as output, thinking included. */
  function Billable(u: Usage): int {
    u.total - u.input
  }

  function Actual(r: Rates, u: Usage): real {
    u.input as real * r.input + Billable(u) as real * r.output
  }

  // ----- What one request does to the books

  /** The first reason to stop is kept. */
  function Stopped(b: Books, why: Failure): Books {
    if b.failure.Some? then b else b.(failure := Some(why))
  }

  /** Writing the journal; a write that raises is itself a reason to stop. */
  function Saved(b: Books, w: Write): Books {
    var now := Holds(Summary(b.charged, b.calls, b.failure));
    match w
    case Lands => b.(journal := now)
    case NotOpened => Stopped(b, JournalWriteFailed)
    case Torn => Stopped(b.(journal := TornFile), JournalWriteFailed)
    case LandsThenRaises => Stopped(b.(journal := now), JournalWriteFailed)
  }

  function Accounted(c: Call): real {
    c.accounted
  }

  /** What a reply makes of the reserved call, what it adds to the charge, and why it stops the run, if it does. */
  datatype Verdict = Verdict(call: Call, added: real, stop: Option<Failure>)

  function Judge(l: Limits, charged: real, call: Call, reply: Reply): Verdict {
    match reply
    case Raised => Verdict(call.(outcome := Unknown), 0.0, Some(ProviderException))
    case NotAResponse => Verdict(call.(outcome := Unknown), 0.0, Some(InvalidResponse))
    case Response(None, error) =>
      if error.Some? then Verdict(call.(outcome := Failed), 0.0, Some(ProviderError(error.value)))
      else Verdict(call.(outcome := Unknown), 0.0, Some(UsageUnavailable))
    case Response(Some(u), error) =>
      if Billable(u) < u.output then Verdict(call.(outcome := Unknown), 0.0, Some(InconsistentUsage))
      else
        var actual := Actual(l.rates, u);
        var added := actual - call.reserved;
        if u.input > call.inputBound || Billable(u) > call.outputBound || charged + added > l.cost
        then Verdict(call.(accounted := actual, outcome := Exceeded), added, Some(UsageExceeded))
        else if error.Some? then Verdict(call.(accounted := actual, outcome := Failed), added,
            Some(ProviderError(error.value)))
        else Verdict(call.(accounted := actual, outcome := Completed), added, None)
  }

  /** Settling the last call by what the provider answered. */
  function Settle(b: Books, v: Verdict): Books
    requires b.calls != []
  {
    var settled := b.(calls := b.calls[|b.calls| - 1 := v.call], charged := b.charged + v.added);
    if v.stop.Some? then Stopped(settled, v.stop.value) else settled
  }

  predicate Admitted(l: Limits, b: Books, q: Request) {
    |b.calls| < l.requests && b.charged + Reservation(l.rates, q) <= l.cost
  }

  function Reserve(l: Limits, b: Books, q: Request): Books {
    var cost := Reservation(l.rates, q);
    b.(calls := b.calls + [Call(q.inputBound, q.outputBound, cost, cost, Reserved)], charged := b.charged + cost)
  }

  /**
   The reservation is written; only then is the provider asked, the last call settled, and the journal written again.
   */
  function Asked(l: Limits, b: Books, reply: Reply, first: Write, last: Write): Books
    requires b.calls != []
  {
    var saved := Saved(b, first);
    if !first.Lands? then saved
    else Saved(Settle(saved.(sent := saved.sent + 1), Judge(l, b.charged, b.calls[|b.calls| - 1], reply)), last)
  }

  /** One request; `first` and `last` are the writings of the journal before and after the provider is asked. */
  function AfterRequest(l: Limits, b: Books, q: Request, reply: Reply, first: Write, last: Write): Books {
    if b.failure.Some? then Saved(b, last)
    else if !q.wellFormed then Saved(Stopped(b, InvalidPayload), last)
    else if !Admitted(l, b, q) then Saved(Stopped(b, BudgetExhausted), last)
    else Asked(l, Reserve(l, b, q), reply, first, last)
  }

  // ----- What every run keeps

  predicate LimitsOk(l: Limits) {
    l.rates.input >= 0.0 && l.rates.output >= 0.0 && l.cost > 0.0 && l.requests > 0
  }

  /** The charge is the sum of what the calls account for, and within the cap while nothing has failed. */
  predicate BooksOk(l: Limits, b: Books) {
    && b.charged == Total(Accounted, b.calls)
    && (b.failure.None? ==> b.charged <= l.cost)
    && |b.calls| <= l.requests && b.sent <= |b.calls|
  }

  const OPENED := Books(0.0, [], None, Holds(Summary(0.0, [], None)), 0)

  lemma SavedKeeps(l: Limits, b: Books, w: Write)
    requires BooksOk(l, b)
    ensures var s := Saved(b, w);
            BooksOk(l, s) && s.calls == b.calls && s.charged == b.charged && s.sent == b.sent
                && (b.failure.Some? ==> s.failure == b.failure)
  {
  }

  lemma ReserveKeeps(l: Limits, b: Books, q: Request)
    requires BooksOk(l, b) && Admitted(l, b, q)
    ensures var r := Reserve(l, b, q); BooksOk(l, r) && b.sent < |r.calls| && r.calls != []
    ensures var c := Reserve(l, b, q).calls[|b.calls|]; c.reserved == c.accounted
  {
    var cost := Reservation(l.rates, q);
    TotalAppend(Accounted, b.calls, Call(q.inputBound, q.outputBound, cost, cost, Reserved));
  }

  /** A verdict adds what the call accounts for more, and stops the run unless the charge stays within the cap. */
  lemma VerdictAccounts(l: Limits, charged: real, call: Call, reply: Reply)
    requires call.reserved == call.accounted
    ensures var v := Judge(l, charged, call, reply);
            v.added == v.call.accounted - call.accounted && (v.stop.None? ==> charged + v.added <= l.cost)
  {
  }

  lemma SettleKeeps(l: Limits, b: Books, v: Verdict)
    requires BooksOk(l, b) && b.calls != []
    requires v.added == v.call.accounted - b.calls[|b.calls| - 1].accounted
             && (v.stop.None? ==> b.charged + v.added <= l.cost)
    ensures BooksOk(l, Settle(b, v))
  {
    TotalReplaceLast(Accounted, b.calls, v.call);
  }

  lemma SettledKeeps(l: Limits, b: Books, v: Verdict, last: Write)
    requires BooksOk(l, b) && b.calls != []
    requires v.added == v.call.accounted - b.calls[|b.calls| - 1].accounted
             && (v.stop.None? ==> b.charged + v.added <= l.cost)
    ensures BooksOk(l, Saved(Settle(b, v), last))
  {
    SettleKeeps(l, b, v);
    SavedKeeps(l, Settle(b, v), last);
  }

  lemma SentKeeps(l: Limits, b: Books)
    requires BooksOk(l, b) && b.sent < |b.calls|
    ensures BooksOk(l, b.(sent := b.sent + 1))
  {
  }

  lemma AnsweredKeeps(l: Limits, b: Books, v: Verdict, first: Write, last: Write)
    requires BooksOk(l, b) && b.sent < |b.calls| && first.Lands?
    requires v.added == v.call.accounted - b.calls[|b.calls| - 1].accounted
             && (v.stop.None? ==> b.charged + v.added <= l.cost)
    ensures var s := Saved(b, first); BooksOk(l, Saved(Settle(s.(sent := s.sent + 1), v), last))
  {
    var s := Saved(b, first);
    SavedKeeps(l, b, first);
    SentKeeps(l, s);
    SettledKeeps(l, s.(sent := s.sent + 1), v, last);
  }

  lemma AskedKeeps(l: Limits, b: Books, reply: Reply, first: Write, last: Write)
    requires BooksOk(l, b) && b.sent < |b.calls|
    requires b.calls[|b.calls| - 1].reserved == b.calls[|b.calls| - 1].accounted
    ensures BooksOk(l, Asked(l, b, reply, first, last))
  {
    if first.Lands? {
      var call := b.calls[|b.calls| - 1];
      VerdictAccounts(l, b.charged, call, reply);
      AnsweredKeeps(l, b, Judge(l, b.charged, call, reply), first, last);
    } else {
      SavedKeeps(l, b, first);
    }
  }

  lemma RequestKeeps(l: Limits, b: Books, q: Request, reply: Reply, first: Write, last: Write)
    requires BooksOk(l, b)
    ensures BooksOk(l, AfterRequest(l, b, q, reply, first, last))
  {
    if b.failure.Some? {
      SavedKeeps(l, b, last);
    } else if !q.wellFormed {
      SavedKeeps(l, Stopped(b, InvalidPayload), last);
    } else if !Admitted(l, b, q) {
      SavedKeeps(l, Stopped(b, BudgetExhausted), last);
    } else {
      ReserveKeeps(l, b, q);
      AskedKeeps(l, Reserve(l, b, q), reply, first, last);
    }
  }

  datatype Turn = Turn(request: Request, reply: Reply, first: Write, last: Write)

  function Run(l: Limits, turns: seq<Turn>): Books {
    if turns == [] then OPENED
    else
      var t := turns[|turns| - 1];
      AfterRequest(l, Run(l, turns[..|turns| - 1]), t.request, t.reply, t.first, t.last)
  }

  /** Over any run: charges add up, stay under the cap until the first failure, and requests stay within the limit. */
  lemma {:induction false} RunIsAccounted(l: Limits, turns: seq<Turn>)
    requires LimitsOk(l)
    ensures var b := Run(l, turns);
            && b.charged == Total(Accounted, b.calls) && (b.failure.None? ==> b.charged <= l.cost)
            && b.sent <= |b.calls| <= l.requests
    ensures BooksOk(l, Run(l, turns))
  {
    if turns != [] {
      RunIsAccounted(l, turns[..|turns| - 1]);
      var t := turns[|turns| - 1];
      RequestKeeps(l, Run(l, turns[..|turns| - 1]), t.request, t.reply, t.first, t.last);
    }
  }

  /** The books apart from the journal file. */
  predicate SameBooks(a: Books, b: Books) {
    a.charged == b.charged && a.calls == b.calls && a.failure == b.failure && a.sent == b.sent
  }

  /** After the first failure nothing changes but the journal: no request, no charge, and the reason stays. */
  lemma {:induction false} StoppedForGood(l: Limits, turns: seq<Turn>, n: nat)
    requires n <= |turns| && Run(l, turns[..n]).failure.Some?
    ensures SameBooks(Run(l, turns), Run(l, turns[..n]))
    decreases |turns|
  {
    if n == |turns| {
      assert turns[..n] == turns;
    } else {
      assert turns[..|turns| - 1][..n] == turns[..n];
      StoppedForGood(l, turns[..|turns| - 1], n);
    }
  }

  /** A request crosses to the provider only on open books, within the limits, after its reservation was written. */
  lemma SentOnlyWhenReserved(l: Limits, b: Books, q: Request, reply: Reply, first: Write, last: Write)
    ensures var t := AfterRequest(l, b, q, reply, first, last);
            && (t.sent != b.sent <==> b.failure.None? && q.wellFormed && Admitted(l, b, q) && first.Lands?)
            && (t.sent != b.sent ==> t.sent == b.sent + 1 && |t.calls| == |b.calls| + 1)
            && (t.charged != b.charged ==> |t.calls| == |b.calls| + 1)
            && b.calls <= t.calls
  {
  }

  /** Tokens within their bounds cost at most the reservation. */
  lemma WithinReservation(r: Rates, u: Usage, q: Request)
    requires r.input >= 0.0 && r.output >= 0.0 && u.input <= q.inputBound && 0 <= Billable(u) <= q.outputBound
    ensures Actual(r, u) <= Reservation(r, q)
  {
    assert (q.inputBound - u.input) as real * r.input >= 0.0;
    assert (q.outputBound - Billable(u)) as real * r.output >= 0.0;
  }

  /** The test of the charge against the cap never fires on its own: one of the token bounds was exceeded too. */
  lemma CapTestNeverAlone(l: Limits, b: Books, q: Request, u: Usage)
    requires LimitsOk(l) && Admitted(l, b, q) && Billable(u) >= u.output
    requires b.charged + Reservation(l.rates, q) + (Actual(l.rates, u) - Reservation(l.rates, q)) > l.cost
    ensures u.input > q.inputBound || Billable(u) > q.outputBound
  {
    if u.input <= q.inputBound && Billable(u) <= q.outputBound {
      WithinReservation(l.rates, u, q);
    }
  }

  /**
   What a call is charged: its metered cost when the usage is known and consistent, and its whole reservation otherwise.
   */
  lemma ChargedForCall(l: Limits, b: Books, q: Request, reply: Reply, last: Write)
    requires b.failure.None? && q.wellFormed && Admitted(l, b, q)
    ensures var t := AfterRequest(l, b, q, reply, Lands, last);
            t.charged - b.charged ==
            if reply.Response? && reply.usage.Some? && Billable(reply.usage.value) >= reply.usage.value.output
            then Actual(l.rates, reply.usage.value) else Reservation(l.rates, q)
  {
  }

  // ----- Which replies stop a run

  /** Token counts that are there, agree with each other and stay within both bounds, and no error. */
  predicate GoodReply(q: Request, reply: Reply) {
    && reply.Response? && reply.error.None? && reply.usage.Some?
    && var u := reply.usage.value;
      u.total - u.input >= u.output && u.input <= q.inputBound && u.total - u.input <= q.outputBound
  }

  /** The request was well formed and found room, both rewritings of the journal landed, and the reply was good. */
  predicate GoodTurn(l: Limits, b: Books, t: Turn) {
    && t.request.wellFormed && |b.calls| < l.requests
    && b.charged + t.request.inputBound as real * l.rates.input + t.request.outputBound as real * l.rates.output
       <= l.cost
    && t.first.Lands? && t.last.Lands? && GoodReply(t.request, t.reply)
  }

  lemma Regrouped(a: real, b: real, c: real)
    ensures a + (b + c) == a + b + c
  {
  }

  /** Room is what is left under both limits. */
  lemma RoomIs(l: Limits, b: Books, q: Request)
    ensures Admitted(l, b, q) <==>
            && |b.calls| < l.requests
            && b.charged + q.inputBound as real * l.rates.input + q.outputBound as real * l.rates.output <= l.cost
  {
    Regrouped(b.charged, q.inputBound as real * l.rates.input, q.outputBound as real * l.rates.output);
  }

  /** A good reply stays within the cap; any other one stops the run. */
  lemma ReplyStopsIff(l: Limits, b: Books, q: Request, reply: Reply)
    requires LimitsOk(l) && Admitted(l, b, q)
    ensures var r := Reserve(l, b, q);
            Judge(l, r.charged, r.calls[|b.calls|], reply).stop.None? <==> GoodReply(q, reply)
  {
    if GoodReply(q, reply) {
      WithinReservation(l.rates, reply.usage.value, q);
    }
  }

  lemma SentGoesOnIff(l: Limits, b: Books, t: Turn)
    requires LimitsOk(l) && b.failure.None? && t.request.wellFormed && Admitted(l, b, t.request) && t.first.Lands?
    ensures AfterRequest(l, b, t.request, t.reply, t.first, t.last).failure.None?
            <==> t.last.Lands? && GoodReply(t.request, t.reply)
  {
    ReplyStopsIff(l, b, t.request, t.reply);
  }

  lemma TurnGoesOnIff(l: Limits, b: Books, t: Turn)
    requires LimitsOk(l) && b.failure.None?
    ensures AfterRequest(l, b, t.request, t.reply, t.first, t.last).failure.None? <==> GoodTurn(l, b, t)
  {
    RoomIs(l, b, t.request);
    if t.request.wellFormed && Admitted(l, b, t.request) && t.first.Lands? {
      SentGoesOnIff(l, b, t);
    }
  }

  predicate GoodAt(l: Limits, turns: seq<Turn>, i: nat)
    requires i < |turns|
  {
    GoodTurn(l, Run(l, turns[..i]), turns[i])
  }

  lemma GoodInPrefix(l: Limits, turns: seq<Turn>, n: nat, i: nat)
    requires i < n <= |turns|
    ensures GoodAt(l, turns[..n], i) == GoodAt(l, turns, i)
  {
    assert turns[..n][..i] == turns[..i];
  }

  lemma {:induction false} LastGoesOnIff(l: Limits, turns: seq<Turn>)
    requires LimitsOk(l) && turns != []
    ensures var n := |turns| - 1;
            Run(l, turns).failure.None? <==> Run(l, turns[..n]).failure.None? && GoodAt(l, turns, n)
  {
    var n := |turns| - 1;
    if Run(l, turns[..n]).failure.None? {
      TurnGoesOnIff(l, Run(l, turns[..n]), turns[n]);
    }
  }

  /** A run goes on exactly while every turn was good. */
  lemma {:induction false} GoesOnIff(l: Limits, turns: seq<Turn>)
    requires LimitsOk(l)
    ensures Run(l, turns).failure.None? <==> forall i :: 0 <= i < |turns| ==> GoodAt(l, turns, i)
  {
    if turns != [] {
      var n := |turns| - 1;
      GoesOnIff(l, turns[..n]);
      LastGoesOnIff(l, turns);
      forall i | 0 <= i < n ensures GoodAt(l, turns[..n], i) == GoodAt(l, turns, i) {
        GoodInPrefix(l, turns, n, i);
      }
    }
  }

  /** The turn's request crosses to the provider. */
  predicate Sends(l: Limits, b: Books, t: Turn) {
    b.failure.None? && t.request.wellFormed && Admitted(l, b, t.request) && t.first.Lands?
  }

  /** The reply's counts are there and agree, and one of them is beyond its bound. */
  predicate BeyondBounds(q: Request, reply: Reply) {
    && reply.Response? && reply.usage.Some?
    && var u := reply.usage.value;
      u.total - u.input >= u.output && (u.input > q.inputBound || u.total - u.input > q.outputBound)
  }

  /** The reply cannot be priced: none came, or it has no counts, or they do not agree. */
  predicate Unpriced(reply: Reply) {
    || !reply.Response?
    || (reply.usage.None? && reply.error.None?)
    || (reply.usage.Some? && reply.usage.value.total - reply.usage.value.input < reply.usage.value.output)
  }

  /**
   What is written of a call that was sent: completed exactly for a good reply, exceeded exactly for counts beyond a
   bound, unknown exactly when it cannot be priced, and failed otherwise.
   */
  lemma OutcomeIs(l: Limits, b: Books, t: Turn)
    requires LimitsOk(l) && Sends(l, b, t)
    ensures |AfterRequest(l, b, t.request, t.reply, t.first, t.last).calls| == |b.calls| + 1
    ensures var c := AfterRequest(l, b, t.request, t.reply, t.first, t.last).calls[|b.calls|];
            && (c.outcome.Completed? <==> GoodReply(t.request, t.reply))
            && (c.outcome.Exceeded? <==> BeyondBounds(t.request, t.reply))
            && (c.outcome.Unknown? <==> Unpriced(t.reply))
            && !c.outcome.Reserved?
            && c.inputBound == t.request.inputBound && c.outputBound == t.request.outputBound
  {
    if t.reply.Response? && t.reply.usage.Some? {
      var u := t.reply.usage.value;
      if u.input <= t.request.inputBound && 0 <= Billable(u) <= t.request.outputBound {
        WithinReservation(l.rates, u, t.request);
      }
    }
  }

  /** What the tokens of a reply cost, one by one: input at the input rate, the rest of the total at the output rate. */
  lemma ActualIsPrice(r: Rates, u: Usage)
    requires u.total >= u.input
    ensures Actual(r, u) == P.Price(P.List(r.input, r.input, r.output), P.Tokens(u.input, 0, u.total - u.input, 0))
  {
    var list, t := P.List(r.input, r.input, r.output), P.Tokens(u.input, 0, u.total - u.input, 0);
    P.ByKind(list, t, r.input, r.input, r.output);
    assert 0 as real * r.input == 0.0;
  }

  /** What a call accounts for and adds to the charge: that price once the counts agree, its reservation till then. */
  lemma AccountedIs(l: Limits, b: Books, t: Turn)
    requires LimitsOk(l) && Sends(l, b, t)
    ensures |AfterRequest(l, b, t.request, t.reply, t.first, t.last).calls| == |b.calls| + 1
    ensures var after := AfterRequest(l, b, t.request, t.reply, t.first, t.last);
            var c, list := after.calls[|b.calls|], P.List(l.rates.input, l.rates.input, l.rates.output);
            && c.reserved == P.Price(list, P.Tokens(t.request.inputBound, 0, t.request.outputBound, 0))
            && (Unpriced(t.reply) || t.reply.usage.None? ==> c.accounted == c.reserved)
            && (!Unpriced(t.reply) && t.reply.usage.Some? ==>
                  var u := t.reply.usage.value;
                  u.total >= u.input && c.accounted == P.Price(list, P.Tokens(u.input, 0, u.total - u.input, 0)))
            && after.charged == b.charged + c.accounted
  {
    ReservationIsPrice(l.rates, t.request);
    if t.reply.Response? && t.reply.usage.Some? && Billable(t.reply.usage.value) >= t.reply.usage.value.output {
      ActualIsPrice(l.rates, t.reply.usage.value);
    }
  }

  lemma ReservationIsPrice(r: Rates, q: Request)
    ensures Reservation(r, q)
            == P.Price(P.List(r.input, r.input, r.output), P.Tokens(q.inputBound, 0, q.outputBound, 0))
  {
    var list, t := P.List(r.input, r.input, r.output), P.Tokens(q.inputBound, 0, q.outputBound, 0);
    P.ByKind(list, t, r.input, r.input, r.output);
    assert 0 as real * r.input == 0.0;
  }

  /** The first reason is kept: why a run stops at this turn. */
  lemma StopsBecause(l: Limits, b: Books, t: Turn)
    requires LimitsOk(l) && b.failure.None?
    ensures var f, q, reply := AfterRequest(l, b, t.request, t.reply, t.first, t.last).failure, t.request, t.reply;
            && (!q.wellFormed ==> f == Some(InvalidPayload))
            && (q.wellFormed && !Admitted(l, b, q) ==> f == Some(BudgetExhausted))
            && (q.wellFormed && Admitted(l, b, q) && !t.first.Lands? ==> f == Some(JournalWriteFailed))
            && (Sends(l, b, t) && reply.Raised? ==> f == Some(ProviderException))
            && (Sends(l, b, t) && reply.NotAResponse? ==> f == Some(InvalidResponse))
            && (Sends(l, b, t) && BeyondBounds(q, reply) ==> f == Some(UsageExceeded))
            && (Sends(l, b, t) && reply.Response? && !Unpriced(reply) && !BeyondBounds(q, reply) && reply.error.Some?
                ==> f == Some(ProviderError(reply.error.value)))
            && (Sends(l, b, t) && reply.Response? && Unpriced(reply) ==>
                  f == Some(if reply.usage.None? then UsageUnavailable else InconsistentUsage))
            && (Sends(l, b, t) && GoodReply(q, reply) && !t.last.Lands? ==> f == Some(JournalWriteFailed))
  {
    if Sends(l, b, t) && t.reply.Response? && t.reply.usage.Some? {
      var u := t.reply.usage.value;
      if u.input <= t.request.inputBound && 0 <= Billable(u) <= t.request.outputBound {
        WithinReservation(l.rates, u, t.request);
      }
    }
  }

  /** Once a turn was not good, nothing more is sent or charged. */
  lemma {:induction false} NothingAfterBadTurn(l: Limits, turns: seq<Turn>, i: nat)
    requires LimitsOk(l) && i < |turns| && !GoodAt(l, turns, i)
    ensures SameBooks(Run(l, turns), Run(l, turns[..i + 1]))
  {
    GoodInPrefix(l, turns, i + 1, i);
    GoesOnIff(l, turns[..i + 1]);
    StoppedForGood(l, turns, i + 1);
  }

  lemma {:induction false} CallsOnlyGrow(l: Limits, turns: seq<Turn>, i: nat)
    requires i <= |turns|
    ensures Run(l, turns[..i]).calls <= Run(l, turns).calls
    decreases |turns|
  {
    if i == |turns| {
      assert turns[..i] == turns;
    } else {
      var before, t := turns[..|turns| - 1], turns[|turns| - 1];
      assert before[..i] == turns[..i];
      CallsOnlyGrow(l, before, i);
      SentOnlyWhenReserved(l, Run(l, before), t.request, t.reply, t.first, t.last);
    }
  }

  /**
   Over any run: the call of a turn that sends is on the books for good, as completed exactly when the reply was good;
   and after any other reply, an error among them, nothing more is sent.
   */
  lemma {:induction false} CompletedIff(l: Limits, turns: seq<Turn>, i: nat)
    requires LimitsOk(l) && i < |turns| && Sends(l, Run(l, turns[..i]), turns[i])
    ensures |Run(l, turns[..i]).calls| < |Run(l, turns).calls|
    ensures Run(l, turns).calls[|Run(l, turns[..i]).calls|].outcome.Completed?
            <==> GoodReply(turns[i].request, turns[i].reply)
    ensures !GoodReply(turns[i].request, turns[i].reply) ==>
              Run(l, turns).sent == Run(l, turns[..i]).sent + 1
              && |Run(l, turns).calls| == |Run(l, turns[..i]).calls| + 1
  {
    var head, b, t := turns[..i + 1], Run(l, turns[..i]), turns[i];
    assert head[..|head| - 1] == turns[..i] && head[|head| - 1] == t;
    OutcomeIs(l, b, t);
    SentOnlyWhenReserved(l, b, t.request, t.reply, t.first, t.last);
    CallsOnlyGrow(l, turns, i + 1);
    if !GoodReply(t.request, t.reply) {
      NothingAfterBadTurn(l, turns, i);
    }
  }

  // ----- What the journal knows

  /** The journal has an entry for every call made. */
  predicate Journaled(b: Books) {
    b.journal.Holds? && |b.journal.summary.calls| == |b.calls|
  }

  /** A request that was sent stands in the journal exactly unless the rewriting after it was torn. */
  lemma SentIsJournaledIff(l: Limits, b: Books, q: Request, reply: Reply, first: Write, last: Write)
    requires AfterRequest(l, b, q, reply, first, last).sent != b.sent
    ensures Journaled(AfterRequest(l, b, q, reply, first, last)) <==> !last.Torn?
  {
  }

  predicate NeverTorn(turns: seq<Turn>) {
    forall i :: 0 <= i < |turns| ==> !turns[i].first.Torn? && !turns[i].last.Torn?
  }

  /** The journal has an entry for every request sent, and a call it does not know was never sent. */
  predicate KnowsSent(b: Books) {
    && b.journal.Holds? && b.sent <= |b.journal.summary.calls| <= |b.calls|
    && (b.failure.None? ==> b.sent == |b.calls|)
  }

  lemma AskedKeepsKnown(l: Limits, b: Books, reply: Reply, first: Write, last: Write)
    requires b.calls != [] && b.failure.None? && b.sent == |b.calls| - 1 && !first.Torn? && !last.Torn?
    requires b.journal.Holds? && b.sent <= |b.journal.summary.calls| <= |b.calls|
    ensures KnowsSent(Asked(l, b, reply, first, last))
  {
  }

  lemma RequestKeepsKnown(l: Limits, b: Books, q: Request, reply: Reply, first: Write, last: Write)
    requires KnowsSent(b) && !first.Torn? && !last.Torn?
    ensures KnowsSent(AfterRequest(l, b, q, reply, first, last))
  {
    if b.failure.None? && q.wellFormed && Admitted(l, b, q) {
      AskedKeepsKnown(l, Reserve(l, b, q), reply, first, last);
    }
  }

  /** While no rewriting is torn, the journal knows every request that was sent, whatever else fails. */
  lemma {:induction false} JournalKnowsSent(l: Limits, turns: seq<Turn>)
    requires NeverTorn(turns)
    ensures KnowsSent(Run(l, turns))
  {
    if turns != [] {
      JournalKnowsSent(l, turns[..|turns| - 1]);
      var t := turns[|turns| - 1];
      RequestKeepsKnown(l, Run(l, turns[..|turns| - 1]), t.request, t.reply, t.first, t.last);
    }
  }

  /**
   One request whose second rewriting is torn, as on a disk that fills meanwhile: it was sent, and the journal is lost.
   */
  lemma {:induction false} JournalLost(l: Limits, q: Request)
    requires q.wellFormed && Admitted(l, OPENED, q)
    ensures var b := Run(l, [Turn(q, Raised, Lands, Torn)]); b.sent == 1 && b.journal == TornFile
  {
    assert [Turn(q, Raised, Lands, Torn)][..0] == [];
  }

  // ----- Which rewriting decides what the journal knows

  /** The rewritings that one request comes to, in order. */
  function RewritingsOf(l: Limits, b: Books, t: Turn): seq<Write> {
    if b.failure.Some? || !t.request.wellFormed || !Admitted(l, b, t.request) then [t.last]
    else if t.first.Lands? then [t.first, t.last]
    else [t.first]
  }

  function Rewritings(l: Limits, turns: seq<Turn>): seq<Write> {
    if turns == [] then []
    else
      var before := turns[..|turns| - 1];
      Rewritings(l, before) + RewritingsOf(l, Run(l, before), turns[|turns| - 1])
  }

  /** The last rewriting that opened the file was torn. */
  predicate EndsTorn(writes: seq<Write>) {
    && writes != []
    && var last := writes[|writes| - 1];
      if last.NotOpened? then EndsTorn(writes[..|writes| - 1]) else last.Torn?
  }

  /** Entries of the first calls, made for the same bounds and the same reservation; they may not be settled yet. */
  predicate EntriesOf(entries: seq<Call>, calls: seq<Call>) {
    && |entries| <= |calls|
    && forall k :: 0 <= k < |entries| ==>
         && entries[k].inputBound == calls[k].inputBound && entries[k].outputBound == calls[k].outputBound
         && entries[k].reserved == calls[k].reserved
  }

  /** The journal can be read and has its own entry for every request sent. */
  predicate HasSent(b: Books) {
    b.journal.Holds? && EntriesOf(b.journal.summary.calls, b.calls) && b.sent <= |b.journal.summary.calls|
  }

  /** What the rewritings so far make of the journal. */
  ghost predicate JournalAfter(b: Books, writes: seq<Write>) {
    && (EndsTorn(writes) <==> b.journal.TornFile?)
    && (!EndsTorn(writes) ==> HasSent(b))
    && (b.failure.None? ==> b.journal.Holds? && b.sent == |b.calls|)
  }

  /** Books as they stand just before a rewriting: the journal, if it can be read, has what was sent before. */
  ghost predicate BeforeWriting(b: Books, writes: seq<Write>) {
    && (EndsTorn(writes) <==> b.journal.TornFile?)
    && (!EndsTorn(writes) ==> HasSent(b)) && b.sent <= |b.calls|
  }

  lemma SavedJournal(b: Books, writes: seq<Write>, w: Write)
    requires BeforeWriting(b, writes) && (w.Lands? && b.failure.None? ==> b.sent == |b.calls|)
    ensures JournalAfter(Saved(b, w), writes + [w])
  {
    assert (writes + [w])[..|writes|] == writes;
  }

  /** The reservation is in the journal before the provider is asked, so settling takes nothing away from it. */
  lemma AskedJournal(l: Limits, b: Books, q: Request, reply: Reply, first: Write, last: Write, writes: seq<Write>)
    requires JournalAfter(b, writes) && b.failure.None?
    ensures JournalAfter(Asked(l, Reserve(l, b, q), reply, first, last),
                writes + if first.Lands? then [first, last] else [first])
  {
    var r := Reserve(l, b, q);
    if first.Lands? {
      var s := Saved(r, first);
      var settled := Settle(s.(sent := s.sent + 1), Judge(l, r.charged, r.calls[|r.calls| - 1], reply));
      assert (writes + [first])[..|writes|] == writes;
      SavedJournal(settled, writes + [first], last);
      assert writes + [first] + [last] == writes + [first, last];
    } else {
      SavedJournal(r, writes, first);
    }
  }

  lemma RequestJournal(l: Limits, b: Books, t: Turn, writes: seq<Write>)
    requires JournalAfter(b, writes) && b.sent <= |b.calls|
    ensures JournalAfter(AfterRequest(l, b, t.request, t.reply, t.first, t.last), writes + RewritingsOf(l, b, t))
  {
    if b.failure.Some? {
      SavedJournal(b, writes, t.last);
    } else if !t.request.wellFormed {
      SavedJournal(Stopped(b, InvalidPayload), writes, t.last);
    } else if !Admitted(l, b, t.request) {
      SavedJournal(Stopped(b, BudgetExhausted), writes, t.last);
    } else {
      AskedJournal(l, b, t.request, t.reply, t.first, t.last, writes);
    }
  }

  lemma {:induction false} RunJournal(l: Limits, turns: seq<Turn>)
    requires LimitsOk(l)
    ensures JournalAfter(Run(l, turns), Rewritings(l, turns))
  {
    if turns != [] {
      var before := turns[..|turns| - 1];
      RunJournal(l, before);
      RunIsAccounted(l, before);
      RequestJournal(l, Run(l, before), turns[|turns| - 1], Rewritings(l, before));
    }
  }

  /**
   Over any run the journal has every request sent exactly unless the last rewriting that opened the file was torn; only
   a run that stopped can end so.
   */
  lemma {:induction false} JournalHasSentIff(l: Limits, turns: seq<Turn>)
    requires LimitsOk(l)
    ensures HasSent(Run(l, turns)) <==> !EndsTorn(Rewritings(l, turns))
    ensures EndsTorn(Rewritings(l, turns)) ==> Run(l, turns).failure.Some? && Run(l, turns).journal == TornFile
  {
    RunJournal(l, turns);
  }

  /** A torn journal is not lost for good: the next request is refused, and writing that down restores every entry. */
  lemma {:induction false} JournalRestored(l: Limits, q: Request)
    requires q.wellFormed && Admitted(l, OPENED, q)
    ensures var torn, next := Turn(q, Raised, Lands, Torn), Turn(q, Raised, Lands, Lands);
            && !HasSent(Run(l, [torn])) && HasSent(Run(l, [torn, next])) && Run(l, [torn, next]).sent == 1
  {
    var torn, next := Turn(q, Raised, Lands, Torn), Turn(q, Raised, Lands, Lands);
    JournalLost(l, q);
    assert [torn, next][..1] == [torn];
  }

  // ----- The provider object

  /**
   The fields of the source's object, its journal on disk, and what it did outside. A constructor that raises makes
   none.
   */
  class LiveRoutingProvider {
    const limits: Limits
    var charged: real
    var calls: seq<Call>
    var failure: Option<Failure>
    var journal: Journal
    ghost var sent: nat

    ghost function Now(): Books
      reads this
    {
      Books(charged, calls, failure, journal, sent)
    }

    ghost predicate Valid()
      reads this
    {
      LimitsOk(limits) && BooksOk(limits, Now())
    }

    constructor (limits: Limits)
      requires LimitsOk(limits)
      ensures Valid() && this.limits == limits && Now() == OPENED
    {
      this.limits := limits;
      charged, calls, failure, sent := 0.0, [], None, 0;
      journal := Holds(Summary(0.0, [], None));
    }

    method Save(w: Write)
      modifies this`journal, this`failure
      ensures Now() == Saved(old(Now()), w)
    {
      if w.Torn? {
        journal := TornFile;
      } else if !w.NotOpened? {
        journal := Holds(Summary(charged, calls, failure));
      }
      if !w.Lands? && failure.None? {
        failure := Some(JournalWriteFailed);
      }
    }

    method Stop(why: Failure, w: Write)
      modifies this`journal, this`failure
      ensures Now() == Saved(Stopped(old(Now()), why), w)
    {
      if failure.None? {
        failure := Some(why);
      }
      Save(w);
    }

    /** Pricing a reply that reports its usage. */
    method JudgeUsage(call: Call, u: Usage, error: Option<nat>) returns (v: Verdict)
      ensures v == Judge(limits, charged, call, Response(Some(u), error))
    {
      var billable := u.total - u.input;
      if billable < u.output {
        return Verdict(call.(outcome := Unknown), 0.0, Some(InconsistentUsage));
      }
      var actual := Actual(limits.rates, u);
      var paid, added := call.(accounted := actual), actual - call.reserved;
      if u.input > call.inputBound || billable > call.outputBound || charged + added > limits.cost {
        return Verdict(paid.(outcome := Exceeded), added, Some(UsageExceeded));
      }
      if error.Some? {
        return Verdict(paid.(outcome := Failed), added, Some(ProviderError(error.value)));
      }
      return Verdict(paid.(outcome := Completed), added, None);
    }

    method JudgeReply(call: Call, reply: Reply) returns (v: Verdict)
      ensures v == Judge(limits, charged, call, reply)
    {
      match reply
      case Raised => v := Verdict(call.(outcome := Unknown), 0.0, Some(ProviderException));
      case NotAResponse => v := Verdict(call.(outcome := Unknown), 0.0, Some(InvalidResponse));
      case Response(usage, error) =>
        if usage.Some? {
          v := JudgeUsage(call, usage.value, error);
        } else if error.Some? {
          v := Verdict(call.(outcome := Failed), 0.0, Some(ProviderError(error.value)));
        } else {
          v := Verdict(call.(outcome := Unknown), 0.0, Some(UsageUnavailable));
        }
    }

    /** The last call's row is updated in place. */
    method SettleLast(v: Verdict)
      requires calls != []
      modifies this`calls, this`charged, this`failure
      ensures Now() == Settle(old(Now()), v)
    {
      calls := calls[|calls| - 1 := v.call];
      charged := charged + v.added;
      if v.stop.Some? && failure.None? {
        failure := v.stop;
      }
    }

    /** The reservation is charged before anything else happens. */
    method Hold(q: Request, reservation: real)
      requires reservation == Reservation(limits.rates, q)
      modifies this`calls, this`charged
      ensures Now() == Reserve(limits, old(Now()), q) && calls != []
    {
      calls := calls + [Call(q.inputBound, q.outputBound, reservation, reservation, Reserved)];
      charged := charged + reservation;
    }

    /** With the last call reserved: write the journal, ask the provider, settle, write it again. */
    method Ask(reply: Reply, first: Write, last: Write)
      requires calls != []
      modifies this
      ensures Now() == Asked(limits, old(Now()), reply, first, last)
    {
      var row := calls[|calls| - 1];
      Save(first);
      if first.Lands? {
        sent := sent + 1;
        var v := JudgeReply(row, reply);
        SettleLast(v);
        Save(last);
      }
    }

    /**
     One request, exactly as the books say; what was sent then stands in the journal unless its last rewriting was torn.
     */
    method Complete(q: Request, reply: Reply, first: Write, last: Write)
      requires Valid()
      modifies this
      ensures Valid() && Now() == AfterRequest(limits, old(Now()), q, reply, first, last)
      ensures sent != old(sent) ==> (Journaled(Now()) <==> !last.Torn?)
    {
      RequestKeeps(limits, Now(), q, reply, first, last);
      var reservation := Reservation(limits.rates, q);
      if failure.Some? {
        Stop(failure.value, last);
      } else if !q.wellFormed {
        Stop(InvalidPayload, last);
      } else if |calls| >= limits.requests || charged + reservation > limits.cost {
        Stop(BudgetExhausted, last);
      } else {
        Hold(q, reservation);
        Ask(reply, first, last);
      }
      if sent != old(sent) {
        SentIsJournaledIff(limits, old(Now()), q, reply, first, last);
      }
    }
  }
}
