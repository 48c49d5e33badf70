/**
 What a token costs. The price list is applied one token at a time, and the settlement and the reservation of both
 ledgers are measured against it.
 */
module Prices {
  /** Prices of one token, in millionths of a dollar. */
  datatype List = List(input: real, cached: real, output: real)

  /** Tokens of one request: prompt tokens that were not and that were cached, answered and thought. */
  datatype Tokens = Tokens(uncached: nat, cached: nat, visible: nat, thought: nat)

  /** So many tokens at one price, one after the other. */
  function Times(n: nat, x: real): real {
    if n == 0 then 0.0 else Times(n - 1, x) + x
  }

  lemma {:induction false} TimesIsProduct(n: nat, x: real)
    ensures Times(n, x) == n as real * x
  {
    if n > 0 {
      TimesIsProduct(n - 1, x);
      assert n as real == (n - 1) as real + 1.0;
      assert n as real * x == (n - 1) as real * x + x;
    }
  }

  function Price(p: List, t: Tokens): real {
    Times(t.uncached, p.input) + Times(t.cached, p.cached) + Times(t.visible, p.output) + Times(t.thought, p.output)
  }

  lemma OneMore(n: nat, x: real)
    ensures Times(n + 1, x) == Times(n, x) + x
  {
  }

  /** The second request has one token more, at this price. */
  predicate OneTokenApart(p: List, t: Tokens, t': Tokens, price: real) {
    || (t' == t.(uncached := t.uncached + 1) && price == p.input)
    || (t' == t.(cached := t.cached + 1) && price == p.cached)
    || (t' == t.(visible := t.visible + 1) && price == p.output)
    || (t' == t.(thought := t.thought + 1) && price == p.output)
  }

  lemma OneTokenMore(p: List, t: Tokens, t': Tokens, price: real)
    requires OneTokenApart(p, t, t', price)
    ensures Price(p, t') == Price(p, t) + price
  {
    OneMore(t.uncached, p.input);
    OneMore(t.cached, p.cached);
    OneMore(t.visible, p.output);
    OneMore(t.thought, p.output);
  }

  lemma NoTokens(p: List)
    ensures Price(p, Tokens(0, 0, 0, 0)) == 0.0
  {
  }

  lemma Distributes(a: nat, b: nat, x: real)
    ensures (a + b) as real * x == a as real * x + b as real * x
  {
    assert (a + b) as real == a as real + b as real;
  }

  /** By kind of token. */
  lemma ByKind(p: List, t: Tokens, input: real, cached: real, output: real)
    requires p == List(input, cached, output)
    ensures Price(p, t) == t.uncached as real * input + t.cached as real * cached
                           + (t.visible + t.thought) as real * output
  {
    TimesIsProduct(t.uncached, input);
    TimesIsProduct(t.cached, cached);
    TimesIsProduct(t.visible, output);
    TimesIsProduct(t.thought, output);
    Distributes(t.visible, t.thought, output);
  }
}

/** The two-stage budget: 75 cents a million input tokens, a tenth of that when cached, and 3.75 dollars for output. */
module SharedPrices {
  import opened Basics
  import opened SharedLedger
  import P = Prices

  const PRICES := P.List(0.75, 0.075, 3.75)

  lemma InMicroDollars(t: P.Tokens)
    ensures P.Price(PRICES, t) == t.uncached as real * 0.75 + t.cached as real * 0.075
                                  + (t.visible + t.thought) as real * 3.75
  {
    P.ByKind(PRICES, t, PRICES.input, PRICES.cached, PRICES.output);
  }

  /** The usage record reports exactly these tokens; counts that are left out are none. */
  predicate Reports(u: Usage, t: P.Tokens) {
    && u.Usage? && u.prompt == Tokens(t.uncached + t.cached) && u.visible == Tokens(t.visible)
    && (u.thought == Tokens(t.thought) || (u.thought.Absent? && t.thought == 0))
    && (u.cached == Tokens(t.cached) || (u.cached.Absent? && t.cached == 0))
  }

  lemma ValidIffReports(u: Usage)
    ensures ValidUsage(u) <==> exists t :: Reports(u, t)
  {
    if ValidUsage(u) {
      var cached := if u.cached.Absent? then 0 else u.cached.n;
      var thought := if u.thought.Absent? then 0 else u.thought.n;
      assert Reports(u, P.Tokens(u.prompt.n - cached, cached, u.visible.n, thought));
    }
  }

  lemma CostIsPrice(u: Usage, t: P.Tokens)
    requires Reports(u, t)
    ensures ValidUsage(u) && Cost(u) == P.Price(PRICES, t)
  {
    ValidIffReports(u);
    InMicroDollars(t);
  }

  /** A request that waits for its response: wired, not settled, and no response on disk. */
  predicate Answerable(files: Files, l: Ledger) {
    && HasActive(l) && ActiveRow(l).wire && ActiveRow(l).status.Reserved?
    && ResponsePath(ActiveRow(l).sequence) !in files
  }

  /**
   A response settles its request exactly when its usage reports tokens whose price is within the reservation; then that
   price is what is known more and takes the place of the reservation in the charge. Otherwise neither amount changes.
   */
  lemma SettlesAtPrice(files: Files, l: Ledger, text: string, usage: Usage)
    requires Answerable(files, l)
    ensures var e, reserved := RespondEffect(Respond(text, usage), files, l), ActiveRow(l).reserved;
            && (e.outcome.Done? <==> exists t :: Reports(usage, t) && P.Price(PRICES, t) <= reserved)
            && (forall t :: Reports(usage, t) && e.outcome.Done? ==>
                  && e.ledger.known == l.known + P.Price(PRICES, t)
                  && e.ledger.charged == l.charged - reserved + P.Price(PRICES, t))
            && (!e.outcome.Done? ==> e.ledger.known == l.known && e.ledger.charged == l.charged)
  {
    ValidIffReports(usage);
    forall t | Reports(usage, t) ensures Cost(usage) == P.Price(PRICES, t) {
      CostIsPrice(usage, t);
    }
  }

  /** Amounts after two responses that differ by one token. */
  predicate OneTokenApart(t: P.Tokens, t': P.Tokens, price: real) {
    || (t' == t.(uncached := t.uncached + 1) && price == 0.75)
    || (t' == t.(cached := t.cached + 1) && price == 0.075)
    || (t' == t.(visible := t.visible + 1) && price == 3.75)
    || (t' == t.(thought := t.thought + 1) && price == 3.75)
  }

  /**
   Without tokens a settled request costs nothing; one more prompt token adds 0.75 millionths of a dollar, or 0.075 when
   it was cached, and one more token of the answer or of thinking adds 3.75.
   */
  lemma TokenPrices(files: Files, l: Ledger, text: string, u: Usage, u': Usage, t: P.Tokens, t': P.Tokens, price: real)
    requires Answerable(files, l) && Reports(u, t) && Reports(u', t') && OneTokenApart(t, t', price)
    requires RespondEffect(Respond(text, u), files, l).outcome.Done?
    requires RespondEffect(Respond(text, u'), files, l).outcome.Done?
    ensures var a := RespondEffect(Respond(text, u), files, l).ledger;
            var b := RespondEffect(Respond(text, u'), files, l).ledger;
            && b.known == a.known + price && b.charged == a.charged + price
            && (t == P.Tokens(0, 0, 0, 0) ==> a.known == l.known)
  {
    SettlesAtPrice(files, l, text, u);
    SettlesAtPrice(files, l, text, u');
    P.OneTokenMore(PRICES, t, t', price);
    P.NoTokens(PRICES);
  }

  /**
   A reservation that nothing refuses succeeds exactly while fewer than 256 requests were made and the charge stays
   within 60 cents, and it charges the price of all the tokens the request may use: one for each byte and 1024 more, and
   as many answered as its stage allows.
   */
  lemma ReservesWorstCase(allowed: Approved, op: Op, files: Files, l: Ledger)
    requires op.Reserve? && Unrefused(allowed, op, l) && RequestPath(l.requests + 1) !in files
    ensures var e := ReserveEffect(allowed, op, files, l);
            var worst := P.Price(PRICES, P.Tokens(op.bytes + 1024, 0, if op.stage.Stage1? then 4096 else 1536, 0));
            && (e.outcome.Done? <==> l.requests < 256 && l.charged + worst <= 600000.0)
            && (e.outcome.Done? ==> e.ledger.charged == l.charged + worst && e.ledger.requests == l.requests + 1)
            && (!e.outcome.Done? ==> e.ledger.charged == l.charged && e.ledger.blocked.Some?)
  {
    var t := P.Tokens(op.bytes + 1024, 0, if op.stage.Stage1? then 4096 else 1536, 0);
    InMicroDollars(t);
  }

  /** No usage within those bounds is ever refused for its price. */
  lemma WorstCaseSuffices(t: P.Tokens, bytes: nat, maxOutput: nat)
    requires t.uncached + t.cached <= bytes + 1024 && t.visible + t.thought <= maxOutput
    ensures P.Price(PRICES, t) <= P.Price(PRICES, P.Tokens(bytes + 1024, 0, maxOutput, 0))
  {
    InMicroDollars(t);
    InMicroDollars(P.Tokens(bytes + 1024, 0, maxOutput, 0));
  }

  // ----- What a saved ledger is held against when it is opened again

  predicate OnDisk(files: Files, path: Path, file: Option<File>) {
    file.Some? && path in files.Keys && file == Some(files[path])
  }

  /** A row that may follow these rows: its number, an approved sample, a key of its own, its price and its receipts. */
  ghost predicate MayFollow(allowed: Approved, files: Files, before: seq<Row>, row: Row) {
    var n := |before| + 1;
    && row.sequence == n && row.key.ns in allowed.Keys && row.key.sample in allowed[row.key.ns]
    && (forall i :: 0 <= i < |before| ==> before[i].key != row.key)
    && (row.paid.Some? ==>
          && row.wire && row.paid.value <= row.reserved && row.usage.Some?
          && exists t :: Reports(row.usage.value, t) && row.paid == Some(P.Price(PRICES, t)))
    && (row.status == Complete ==>
          && RequestPath(n) in files.Keys && files[RequestPath(n)] == row.request
          && OnDisk(files, ResponsePath(n), row.response) && OnDisk(files, ModelResponsePath(n), row.modelResponse))
  }

  lemma RowVerifiedIff(allowed: Approved, files: Files, l: Ledger, i: nat)
    requires i < |l.entries|
    ensures RowVerified(allowed, files, l.entries[i], i + 1)
            && (forall j :: 0 <= j < i ==> l.entries[j].key != l.entries[i].key)
            <==> MayFollow(allowed, files, l.entries[..i], l.entries[i])
  {
    var row := l.entries[i];
    assert |l.entries[..i]| + 1 == i + 1;
    if row.usage.Some? {
      ValidIffReports(row.usage.value);
      forall t | Reports(row.usage.value, t)
        ensures Cost(row.usage.value) == P.Price(PRICES, t) && P.Price(PRICES, t) >= 0.0
      {
        CostIsPrice(row.usage.value, t);
        InMicroDollars(t);
      }
    }
  }

  /**
   A ledger passes the check exactly when each of its rows may follow those before it, there are at most 256, and every
   amount is what the rows add up to: those not settled count at their reservation in the charge, up to 60 cents, and
   not at all in what is known.
   */
  lemma VerifiedIff(allowed: Approved, files: Files, l: Ledger)
    ensures Verified(allowed, files, l) <==>
            && |l.entries| <= 256 && l.requests == |l.entries|
            && (forall i :: 0 <= i < |l.entries| ==> MayFollow(allowed, files, l.entries[..i], l.entries[i]))
            && l.wires == Count((r: Row) => r.wire, l.entries)
            && l.charged == Total((r: Row) => if r.paid == None then r.reserved else r.paid.value, l.entries)
            && l.known == Total((r: Row) => if r.paid == None then 0.0 else r.paid.value, l.entries)
            && l.charged <= 600000.0
  {
    CountSame(Wired, l.entries, (r: Row) => r.wire, l.entries);
    TotalSame(Charge, l.entries, (r: Row) => if r.paid == None then r.reserved else r.paid.value, l.entries);
    TotalSame(Paid, l.entries, (r: Row) => if r.paid == None then 0.0 else r.paid.value, l.entries);
    forall i | 0 <= i < |l.entries|
      ensures RowVerified(allowed, files, l.entries[i], i + 1)
              && (forall j :: 0 <= j < i ==> l.entries[j].key != l.entries[i].key)
              <==> MayFollow(allowed, files, l.entries[..i], l.entries[i])
    {
      RowVerifiedIff(allowed, files, l, i);
    }
  }
}

/** The older budget, with the prices it was started with. */
module DurablePrices {
  import opened Basics
  import opened DurableLedger
  import S = SharedLedger
  import SP = SharedPrices
  import P = Prices

  function ListOf(p: Pricing): P.List {
    P.List(p.input, p.cached, p.output)
  }

  lemma CostByKind(p: Pricing, u: S.Usage, t: P.Tokens, sum: real)
    requires SP.Reports(u, t)
    requires sum == t.uncached as real * p.input + t.cached as real * p.cached
                    + (t.visible + t.thought) as real * p.output
    ensures S.ValidUsage(u) && Cost(p, u) == sum
  {
    SP.ValidIffReports(u);
  }

  lemma ListByKind(p: Pricing, t: P.Tokens, sum: real)
    requires sum == t.uncached as real * p.input + t.cached as real * p.cached
                    + (t.visible + t.thought) as real * p.output
    ensures P.Price(ListOf(p), t) == sum
  {
    P.ByKind(ListOf(p), t, p.input, p.cached, p.output);
  }

  lemma CostIsPrice(p: Pricing, u: S.Usage, t: P.Tokens)
    requires SP.Reports(u, t)
    ensures S.ValidUsage(u) && Cost(p, u) == P.Price(ListOf(p), t)
  {
    var sum := t.uncached as real * p.input + t.cached as real * p.cached + (t.visible + t.thought) as real * p.output;
    CostByKind(p, u, t, sum);
    ListByKind(p, t, sum);
  }

  /**
   Usage settles a wired reservation exactly when it reports tokens whose price is within it; then that price is known
   and takes the place of the reservation in the charge. Otherwise nothing changes.
   */
  lemma SettlesAtPrice(limits: Limits, l: Ledger, usage: S.Usage)
    requires HasActive(l) && ActiveRow(l).wire && ActiveRow(l).status.Reserved?
    ensures var e, reserved := SettleEffect(limits, Settle(usage), l), ActiveRow(l).reserved;
            && (e.outcome.Done? <==>
                  exists t :: SP.Reports(usage, t) && P.Price(ListOf(limits.pricing), t) <= reserved)
            && (forall t :: SP.Reports(usage, t) && e.outcome.Done? ==>
                  && e.ledger.known == l.known + P.Price(ListOf(limits.pricing), t)
                  && e.ledger.charged == l.charged - reserved + P.Price(ListOf(limits.pricing), t))
            && (!e.outcome.Done? ==> e.ledger == l)
  {
    SP.ValidIffReports(usage);
    forall t | SP.Reports(usage, t) ensures Cost(limits.pricing, usage) == P.Price(ListOf(limits.pricing), t) {
      CostIsPrice(limits.pricing, usage, t);
    }
  }

  predicate OneTokenApart(p: Pricing, t: P.Tokens, t': P.Tokens, price: real) {
    || (t' == t.(uncached := t.uncached + 1) && price == p.input)
    || (t' == t.(cached := t.cached + 1) && price == p.cached)
    || (t' == t.(visible := t.visible + 1) && price == p.output)
    || (t' == t.(thought := t.thought + 1) && price == p.output)
  }

  /** One more token adds the price of its kind, and no tokens cost nothing. */
  lemma TokenPrices(limits: Limits, l: Ledger, u: S.Usage, u': S.Usage, t: P.Tokens, t': P.Tokens, price: real)
    requires HasActive(l) && ActiveRow(l).wire && ActiveRow(l).status.Reserved?
    requires SP.Reports(u, t) && SP.Reports(u', t')
    requires OneTokenApart(limits.pricing, t, t', price)
    requires SettleEffect(limits, Settle(u), l).outcome.Done? && SettleEffect(limits, Settle(u'), l).outcome.Done?
    ensures var a, b := SettleEffect(limits, Settle(u), l).ledger, SettleEffect(limits, Settle(u'), l).ledger;
            && b.known == a.known + price && b.charged == a.charged + price
            && (t == P.Tokens(0, 0, 0, 0) ==> a.known == l.known)
  {
    SettlesAtPrice(limits, l, u);
    SettlesAtPrice(limits, l, u');
    P.OneTokenMore(ListOf(limits.pricing), t, t', price);
    P.NoTokens(ListOf(limits.pricing));
  }

  /** A reservation charges the price of all the tokens it may use, within one dollar and the request limit. */
  lemma ReservesWorstCase(limits: Limits, op: Op, l: Ledger)
    requires op.Reserve? && l.failure.None? && l.active.None? && op.approvedModel
    requires op.variant != Unlisted && !HasSample(l.entries, op.variant, op.sample)
    ensures var e := ReserveEffect(limits, op, l);
            var worst := P.Price(ListOf(limits.pricing), P.Tokens(op.bytes + 1024, 0, op.maxOutput, 0));
            && (e.outcome.Done? <==> l.requests < limits.maxRequests && l.charged + worst <= 1000000.0)
            && (e.outcome.Done? ==> e.ledger.charged == l.charged + worst && e.ledger.requests == l.requests + 1)
            && (!e.outcome.Done? ==> e.ledger == l)
  {
    var p := limits.pricing;
    P.ByKind(ListOf(p), P.Tokens(op.bytes + 1024, 0, op.maxOutput, 0), p.input, p.cached, p.output);
  }
}
