/** The poll loop's retry policy, on its own: which terminal outcome a run of
    poll answers leads to, given the retry budget left. Scheduling, tokens and
    the store are out of the picture here; the driver is shown to follow this
    policy exactly. */
module PollPolicy {
  import opened Wrappers
  import opened ApiTypes
  import opened Backend

  /** Retries granted to ordinary poll failures. */
  const MaxRetries: nat := 2
  /** The pause before each retry, in milliseconds. */
  const RetryDelayMs: nat := 1000
  /** The status code of a not-yet-ready answer. */
  const TooEarly: int := 425

  /** A not-ready answer that says when to ask again; it costs no budget.
      A 425 without a usable `waitUntil` is not one of these. */
  predicate IsRateLimited(o: PollOutcome) {
    o.PollFailed? && o.code == TooEarly && o.waitUntil.Some?
  }

  /** Every other failure draws on the retry budget. */
  predicate IsTransient(o: PollOutcome) {
    o.PollFailed? && !IsRateLimited(o)
  }

  datatype Verdict =
    | Found(prices: PricesMap)
    | NoneFound
    | GaveUp(message: string)
    | StillPolling(retriesLeft: nat)
    /** The poll request rejected outright; the thunk stops without a verdict. */
    | Aborted

  /** The verdict after the answers `outcomes`, in order, with `retriesLeft`
      retries in hand. Answers after a terminal one are never asked for. */
  function Policy(retriesLeft: nat, outcomes: seq<PollOutcome>): (v: Verdict)
    ensures v.StillPolling? ==>
      && NoAnswer(outcomes)
      && TransientCount(outcomes) <= retriesLeft
      && v.retriesLeft == retriesLeft - TransientCount(outcomes)
    ensures v.GaveUp? ==> TransientCount(outcomes) > retriesLeft
    ensures v.Found? ==> |v.prices| > 0
    decreases |outcomes|
  {
    if |outcomes| == 0 then StillPolling(retriesLeft)
    else
      match outcomes[0]
      case PollThrew => Aborted
      case PollOk(p) => if |p| > 0 then Found(p) else NoneFound
      case PollFailed(_, m, _) =>
        if IsRateLimited(outcomes[0]) then Policy(retriesLeft, outcomes[1..])
        else if retriesLeft > 0 then Policy(retriesLeft - 1, outcomes[1..])
        else GaveUp(m)
  }

  /** The policy one answer at a time: the first answer either settles the
      verdict or leaves the rest to be judged with the budget it left. */
  lemma PolicyStep(retriesLeft: nat, o: PollOutcome, rest: seq<PollOutcome>)
    ensures var first := Policy(retriesLeft, [o]);
            Policy(retriesLeft, [o] + rest)
              == if first.StillPolling? then Policy(first.retriesLeft, rest) else first
  {
    assert ([o] + rest)[0] == o && ([o] + rest)[1..] == rest;
    assert [o][1..] == [];
  }

  /** The number of budget-consuming failures among `outcomes`. */
  function TransientCount(outcomes: seq<PollOutcome>): (n: nat)
    ensures n <= |outcomes|
    decreases |outcomes|
  {
    if |outcomes| == 0 then 0
    else (if IsTransient(outcomes[0]) then 1 else 0) + TransientCount(outcomes[1..])
  }

  predicate NoAnswer(outcomes: seq<PollOutcome>) {
    forall i :: 0 <= i < |outcomes| ==> outcomes[i].PollFailed?
  }

  /** A run of failures that the budget covers costs exactly its transient
      failures: rate-limited answers, however many, cost nothing. */
  lemma {:induction false} FailuresSpendBudget(retriesLeft: nat, pre: seq<PollOutcome>, rest: seq<PollOutcome>)
    requires NoAnswer(pre)
    requires TransientCount(pre) <= retriesLeft
    ensures Policy(retriesLeft, pre + rest) == Policy(retriesLeft - TransientCount(pre), rest)
    decreases |pre|
  {
    if |pre| == 0 {
      assert pre + rest == rest;
    } else {
      assert (pre + rest)[0] == pre[0];
      assert (pre + rest)[1..] == pre[1..] + rest;
      assert pre[0].PollFailed?;
      if IsRateLimited(pre[0]) {
        FailuresSpendBudget(retriesLeft, pre[1..], rest);
      } else {
        FailuresSpendBudget(retriesLeft - 1, pre[1..], rest);
      }
    }
  }

  /** Any number of rate-limited answers leave the budget untouched. */
  lemma RateLimitsAreFree(retriesLeft: nat, limited: seq<PollOutcome>, rest: seq<PollOutcome>)
    requires forall i :: 0 <= i < |limited| ==> IsRateLimited(limited[i])
    ensures Policy(retriesLeft, limited + rest) == Policy(retriesLeft, rest)
  {
    RateLimitedCountNothing(limited);
    FailuresSpendBudget(retriesLeft, limited, rest);
  }

  lemma {:induction false} RateLimitedCountNothing(limited: seq<PollOutcome>)
    requires forall i :: 0 <= i < |limited| ==> IsRateLimited(limited[i])
    ensures NoAnswer(limited) && TransientCount(limited) == 0
    decreases |limited|
  {
    if |limited| > 0 {
      RateLimitedCountNothing(limited[1..]);
    }
  }

  /** The transient failure that finds the budget spent ends the loop with
      its own message, whatever else came before it or would come after. */
  lemma GivesUpOnFailureBeyondBudget(retriesLeft: nat, pre: seq<PollOutcome>, f: PollOutcome, rest: seq<PollOutcome>)
    requires NoAnswer(pre) && TransientCount(pre) == retriesLeft
    requires IsTransient(f)
    ensures Policy(retriesLeft, pre + [f] + rest) == GaveUp(f.message)
  {
    assert pre + [f] + rest == pre + ([f] + rest);
    FailuresSpendBudget(retriesLeft, pre, [f] + rest);
  }

  /** An answer within budget ends the loop: Found when it holds offers,
      NoneFound when it is empty. */
  lemma AnswerWithinBudgetEnds(retriesLeft: nat, pre: seq<PollOutcome>, p: PricesMap, rest: seq<PollOutcome>)
    requires NoAnswer(pre) && TransientCount(pre) <= retriesLeft
    ensures Policy(retriesLeft, pre + [PollOk(p)] + rest) == (if |p| > 0 then Found(p) else NoneFound)
  {
    assert pre + [PollOk(p)] + rest == pre + ([PollOk(p)] + rest);
    FailuresSpendBudget(retriesLeft, pre, [PollOk(p)] + rest);
  }

  /** With the initial budget, exactly two ordinary failures are retried and
      the third gives up with its own message. */
  lemma ThirdFailureGivesUp(f1: PollOutcome, f2: PollOutcome, f3: PollOutcome, rest: seq<PollOutcome>)
    requires IsTransient(f1) && IsTransient(f2) && IsTransient(f3)
    ensures Policy(MaxRetries, [f1, f2] + rest) == Policy(0, rest)
    ensures Policy(MaxRetries, [f1, f2, f3] + rest) == GaveUp(f3.message)
  {
    assert TransientCount([f1, f2]) == 2 by {
      assert [f1, f2][1..] == [f2];
      assert [f2][1..] == [];
    }
    FailuresSpendBudget(MaxRetries, [f1, f2], rest);
    assert [f1, f2, f3] + rest == [f1, f2] + [f3] + rest;
    GivesUpOnFailureBeyondBudget(MaxRetries, [f1, f2], f3, rest);
  }
  /** Rate-limited answers in front of three ordinary failures change
      nothing: the third failure still gives up with its message. */
  lemma RateLimitedThenThirdFailure(limited: seq<PollOutcome>, f1: PollOutcome, f2: PollOutcome, f3: PollOutcome)
    requires forall i :: 0 <= i < |limited| ==> IsRateLimited(limited[i])
    requires IsTransient(f1) && IsTransient(f2) && IsTransient(f3)
    ensures Policy(MaxRetries, limited + [f1, f2, f3]) == GaveUp(f3.message)
  {
    RateLimitsAreFree(MaxRetries, limited, [f1, f2, f3]);
    ThirdFailureGivesUp(f1, f2, f3, []);
    assert [f1, f2, f3] + [] == [f1, f2, f3];
  }

}
