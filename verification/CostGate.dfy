/** The gates that admit base attempts and retries under a hard cap, and the loop they were made for. */
module CostGate {
  import opened Basics

  // Costs are exact, in millionths of a dollar.
  const INPUT_RATE := 0.75
  const OUTPUT_RATE := 3.75
  const OUTPUT_TOKEN_CAP := 512

  /** Counting the tokens and generating each send the input once. */
  function RequestBound(inputBound: nat): (bound: real)
    ensures bound > 0.0
  {
    2.0 * inputBound as real * INPUT_RATE + OUTPUT_TOKEN_CAP as real * OUTPUT_RATE
  }

  /** What an attempt costs: input is paid when it is counted and when it is sent, at 0.75; output at 3.75. */
  function CostOf(counted: nat, generated: nat, output: nat): real {
    0.75 * counted as real + 0.75 * generated as real + 3.75 * output as real
  }

  /**
   Whatever tokens within the bounds are used, 512 of them for output, one attempt costs at most its bound; and nothing
   less than the bound would do.
   */
  lemma RequestBounded(inputBound: nat, counted: nat, generated: nat, output: nat, less: real)
    ensures counted <= inputBound && generated <= inputBound && output <= 512 ==>
              CostOf(counted, generated, output) <= RequestBound(inputBound)
    ensures less < RequestBound(inputBound) ==>
              exists c, g, o :: 0 <= c <= inputBound && 0 <= g <= inputBound && 0 <= o <= 512 && CostOf(c, g, o) > less
  {
    assert CostOf(inputBound, inputBound, 512) == RequestBound(inputBound);
  }

  // ----- The gates

  function BaseGate(spent: real, currentAndRemaining: real, cap: real): Result<bool, string> {
    if spent < 0.0 || currentAndRemaining < 0.0 || cap <= 0.0 then Err("cost gate values")
    else Ok(spent + currentAndRemaining < cap)
  }

  function RetryGate(spent: real, retry: real, remaining: real, cap: real): Result<bool, string> {
    if spent < 0.0 || retry < 0.0 || remaining < 0.0 || cap <= 0.0 then Err("cost gate values")
    else Ok(spent + retry + remaining < cap)
  }

  /**
   A retry is admitted exactly when the base attempts that are left would all be admitted even after it had cost as much
   as it may; and exactly negative amounts and an empty cap are errors.
   */
  lemma RetryAdmittedIff(spent: real, retry: real, remaining: real, cap: real)
    ensures RetryGate(spent, retry, remaining, cap).Err? <==>
              spent < 0.0 || retry < 0.0 || remaining < 0.0 || cap <= 0.0
    ensures BaseGate(spent, remaining, cap).Err? <==> spent < 0.0 || remaining < 0.0 || cap <= 0.0
    ensures RetryGate(spent, retry, remaining, cap).Ok? ==>
              (RetryGate(spent, retry, remaining, cap) == Ok(true)
               <==> BaseGate(spent + retry, remaining, cap) == Ok(true))
    ensures BaseGate(spent, remaining, cap).Ok? ==>
              (BaseGate(spent, remaining, cap) == Ok(true) <==> cap - spent > remaining)
  {
  }

  // ----- The loop

  /** One attempt: its bound beforehand and what it really cost, whatever the provider did. */
  datatype Attempt = Attempt(bound: real, actual: real)

  /** A base attempt and the retries that would follow it if they are admitted. */
  datatype Case = Case(base: Attempt, retries: seq<Attempt>)

  predicate Honest(a: Attempt) {
    0.0 <= a.actual <= a.bound
  }

  predicate AllHonest(cases: seq<Case>) {
    forall i :: 0 <= i < |cases| ==>
      Honest(cases[i].base) && forall k :: 0 <= k < |cases[i].retries| ==> Honest(cases[i].retries[k])
  }

  function BaseBound(c: Case): real {
    c.base.bound
  }

  /** What the base attempts from `i` on may still cost. */
  function Remaining(cases: seq<Case>, i: nat): real
    requires i <= |cases|
    decreases |cases| - i
  {
    if i == |cases| then 0.0 else cases[i].base.bound + Remaining(cases, i + 1)
  }

  lemma {:induction false} RemainingNonNegative(cases: seq<Case>, i: nat)
    requires AllHonest(cases) && i <= |cases|
    ensures Remaining(cases, i) >= 0.0
    decreases |cases| - i
  {
    if i < |cases| {
      RemainingNonNegative(cases, i + 1);
    }
  }

  lemma {:induction false} RemainingIsTotal(cases: seq<Case>, i: nat)
    requires i <= |cases|
    ensures Remaining(cases, i) == Total(BaseBound, cases) - Total(BaseBound, cases[..i])
    decreases |cases| - i
  {
    if i == |cases| {
      assert cases[..i] == cases;
    } else {
      RemainingIsTotal(cases, i + 1);
      assert cases[..i + 1][..i] == cases[..i];
    }
  }

  /** What is spent after the first `n` retries of a case, each paid for if the gate admits it. */
  function AfterRetries(retries: seq<Attempt>, n: nat, spent: real, remaining: real, cap: real): real
    requires n <= |retries|
  {
    if n == 0 then spent
    else
      var before := AfterRetries(retries, n - 1, spent, remaining, cap);
      if RetryGate(before, retries[n - 1].bound, remaining, cap) == Ok(true) then before + retries[n - 1].actual
      else before
  }

  /** What is spent after the first `n` cases, base attempts and retries. */
  function AfterCases(cases: seq<Case>, n: nat, cap: real): real
    requires n <= |cases|
  {
    if n == 0 then 0.0
    else
      var paid := AfterCases(cases, n - 1, cap) + cases[n - 1].base.actual;
      AfterRetries(cases[n - 1].retries, |cases[n - 1].retries|, paid, Remaining(cases, n), cap)
  }

  /** A retry is paid for exactly when what was spent, its bound and the later base attempts stay below the cap. */
  lemma RetryPaidIff(retries: seq<Attempt>, n: nat, spent: real, remaining: real, cap: real)
    requires n < |retries| && Honest(retries[n]) && remaining >= 0.0 && cap > 0.0
    requires AfterRetries(retries, n, spent, remaining, cap) >= 0.0
    ensures AfterRetries(retries, 0, spent, remaining, cap) == spent
    ensures var before, after := AfterRetries(retries, n, spent, remaining, cap),
                                 AfterRetries(retries, n + 1, spent, remaining, cap);
            after == if before + retries[n].bound + remaining < cap then before + retries[n].actual else before
  {
  }

  /** Each base attempt is paid for, and then its retries, which leave room for the base attempts still to come. */
  lemma CasePaid(cases: seq<Case>, n: nat, cap: real)
    requires n < |cases|
    ensures AfterCases(cases, 0, cap) == 0.0
    ensures cases[n].retries == [] ==> AfterCases(cases, n + 1, cap) == AfterCases(cases, n, cap) + cases[n].base.actual
    ensures var c, later := cases[n], Total(BaseBound, cases) - Total(BaseBound, cases[..n + 1]);
            AfterCases(cases, n + 1, cap)
            == AfterRetries(c.retries, |c.retries|, AfterCases(cases, n, cap) + c.base.actual, later, cap)
  {
    RemainingIsTotal(cases, n + 1);
  }

  /** Retries of one case, each only as far as the gate leaves room for every later base attempt. */
  method Retry(retries: seq<Attempt>, spent0: real, remaining: real, cap: real) returns (spent: real)
    requires forall k :: 0 <= k < |retries| ==> Honest(retries[k])
    requires spent0 >= 0.0 && remaining >= 0.0 && spent0 + remaining < cap
    ensures spent == AfterRetries(retries, |retries|, spent0, remaining, cap)
    ensures spent0 <= spent && spent + remaining < cap
  {
    spent := spent0;
    for k := 0 to |retries|
      invariant spent == AfterRetries(retries, k, spent0, remaining, cap)
      invariant spent0 <= spent && spent + remaining < cap
    {
      var gate := RetryGate(spent, retries[k].bound, remaining, cap);
      if gate == Ok(true) {
        spent := spent + retries[k].actual;
      }
    }
  }

  /**
   Base attempts in order, each followed by the retries the gate admits; the run stops at the first base attempt that is
   refused.
   No starvation: if the base bounds fit under the cap, every base attempt is admitted whatever the provider did and
   whichever retries came first; if they do not fit, not even the first is. What is spent stays below the cap.
   */
  method Drive(cases: seq<Case>, cap: real) returns (spent: real, admitted: nat)
    requires AllHonest(cases) && cap > 0.0
    ensures if Total(BaseBound, cases) < cap then admitted == |cases| else admitted == 0
    ensures admitted <= |cases| && spent == AfterCases(cases, admitted, cap)
    ensures 0.0 <= spent < cap
  {
    spent, admitted := 0.0, 0;
    RemainingIsTotal(cases, 0);
    assert cases[..0] == [];
    while admitted < |cases|
      invariant admitted <= |cases| && spent == AfterCases(cases, admitted, cap) && 0.0 <= spent < cap
      invariant admitted > 0 ==> spent + Remaining(cases, admitted) < cap && Total(BaseBound, cases) < cap
    {
      RemainingNonNegative(cases, admitted);
      RemainingNonNegative(cases, admitted + 1);
      var gate := BaseGate(spent, Remaining(cases, admitted), cap);
      if gate != Ok(true) {
        break;
      }
      var c := cases[admitted];
      admitted := admitted + 1;
      spent := Retry(c.retries, spent + c.base.actual, Remaining(cases, admitted), cap);
    }
  }

  /** Without the reserve for later base attempts a retry could take their room: the gate's third term is needed. */
  lemma RetryWithoutReserveStarves(cap: real, base: real)
    requires 0.0 < 2.0 * base < cap
    ensures exists retry :: retry > 0.0 && base + retry < cap
              && RetryGate(base, retry, base, cap) == Ok(false) && BaseGate(base + retry, base, cap) == Ok(false)
  {
    var retry := cap - base - base / 2.0;
    assert RetryGate(base, retry, base, cap) == Ok(false);
  }
}
