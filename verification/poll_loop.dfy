/** The driver's poll loop (src/store/slices/tourSearchSlice.ts:171-206)
    follows the retry policy: fed the backend's poll answers one round at a
    time, with nothing else touching the store, it dispatches exactly the
    action the policy's verdict names. */
module PollLoop {
  import opened Wrappers
  import opened ApiTypes
  import opened Backend
  import opened SearchState
  import opened PollPolicy
  import opened SearchDriver

  /** The clock readings of one round: when the poll answer arrives, and
      when the back-off that may follow it ends. */
  datatype Clock = Clock(answered: int, woke: int)

  /** One round of the loop seen from outside: the timer fires, the poll is
      answered with `o`, and a pending back-off (if any) elapses. */
  function Round(o: PollOutcome, at: Clock): seq<Input> {
    [Timer, PollSettled(o, at.answered), BackoffElapsed(at.woke)]
  }

  /** The rounds answered by `outcomes`, each at its own clock readings. */
  function Rounds(outcomes: seq<PollOutcome>, clocks: seq<Clock>): (inputs: seq<Input>)
    requires |clocks| == |outcomes|
    ensures |inputs| == 3 * |outcomes|
    ensures forall k :: 0 <= k < |inputs| ==> !inputs[k].HotelsSettled?
    decreases |outcomes|
  {
    if |outcomes| == 0 then [] else Round(outcomes[0], clocks[0]) + Rounds(outcomes[1..], clocks[1..])
  }

  /** What a verdict puts in the store. */
  function VerdictActions(countryId: string, v: Verdict): seq<Action> {
    match v
    case Found(p) => [SearchSuccess(countryId, p)]
    case NoneFound => [SearchEmpty(countryId)]
    case GaveUp(m) => [SearchError(m)]
    case StillPolling(_) => []
    case Aborted => []
  }

  lemma {:induction false} RunAppend(p: Phase, s: State, xs: seq<Input>, ys: seq<Input>)
    ensures var a := Run(p, s, xs);
            var b := Run(a.phase, a.state, ys);
            Run(p, s, xs + ys) == Step(b.phase, b.state, a.effects + b.effects)
    decreases |xs|
  {
    if |xs| == 0 {
      assert xs + ys == ys;
    } else {
      assert (xs + ys)[0] == xs[0];
      assert (xs + ys)[1..] == xs[1..] + ys;
      var first := Resume(p, s, xs[0]);
      RunAppend(first.phase, first.state, xs[1..], ys);
      var a := Run(first.phase, first.state, xs[1..]);
      var b := Run(a.phase, a.state, ys);
      assert first.effects + (a.effects + b.effects) == (first.effects + a.effects) + b.effects;
    }
  }

  /** Once the thunk has returned, or is only waiting for hotels, inputs that
      are not the hotel answer change nothing. */
  lemma {:induction false} RunAfterLoop(p: Phase, s: State, inputs: seq<Input>)
    requires p.Finished? || p.LoadingHotels?
    requires forall k :: 0 <= k < |inputs| ==> !inputs[k].HotelsSettled?
    ensures Run(p, s, inputs) == Step(p, s, [])
    decreases |inputs|
  {
    if |inputs| > 0 {
      ResumeAfterLoop(p, s, inputs[0]);
      RunAfterLoop(p, s, inputs[1..]);
    }
  }

  /** The first resumption of a round: the timer fires and the token is
      still current, so the poll goes out. */
  lemma TimerPolls(c: string, t: string, w: int, n: nat, s: State)
    requires s.activeToken == Some(t)
    ensures Resume(Waiting(c, t, w, n), s, Timer) == Step(Fetching(c, t, w, n), s, [PollCall(t)])
  {
  }

  /** After the loop only the hotel answer resumes the thunk. */
  lemma ResumeAfterLoop(p: Phase, s: State, i: Input)
    requires p.Finished? || p.LoadingHotels?
    requires !i.HotelsSettled?
    ensures Resume(p, s, i) == Step(p, s, [])
  {
  }

  /** A round ending in a terminal answer: the verdict's action, then nothing. */
  lemma TerminalRound(c: string, t: string, w: int, n: nat, s: State, o: PollOutcome, at: Clock)
    requires s.activeToken == Some(t)
    requires o.PollOk? || o.PollThrew? || (IsTransient(o) && n == 0)
    ensures var r := Run(Waiting(c, t, w, n), s, Round(o, at));
      && Dispatched(r.effects) == VerdictActions(c, Policy(n, [o]))
      && (r.phase.Finished? || r.phase.LoadingHotels?)
  {
    var now, later := at.answered, at.woke;
    RunThreeThen(Waiting(c, t, w, n), s, Timer, PollSettled(o, now), BackoffElapsed(later), []);
    assert Round(o, at) + [] == Round(o, at);
    TimerPolls(c, t, w, n, s);
    var r2 := Resume(Fetching(c, t, w, n), s, PollSettled(o, now));
    TerminalAnswer(c, t, w, n, s, o, now);
    ResumeAfterLoop(r2.phase, r2.state, BackoffElapsed(later));
    assert r2.effects + ([] + []) == r2.effects;
    DispatchedAppend([PollCall(t)], r2.effects);
    assert Dispatched([PollCall(t)]) == [];
  }

  /** The terminal answers of a poll, as the policy names them. */
  lemma TerminalAnswer(c: string, t: string, w: int, n: nat, s: State, o: PollOutcome, now: int)
    requires s.activeToken == Some(t)
    requires o.PollOk? || o.PollThrew? || (IsTransient(o) && n == 0)
    ensures var r := Resume(Fetching(c, t, w, n), s, PollSettled(o, now));
      && Dispatched(r.effects) == VerdictActions(c, Policy(n, [o]))
      && (r.phase.Finished? || r.phase.LoadingHotels?)
  {
    PollAnswerHandled(s, c, t, w, n, o, now);
    assert [o][1..] == [];
    if o.PollOk? {
      assert Policy(n, [o]) == if |o.prices| > 0 then Found(o.prices) else NoneFound;
    } else if o.PollThrew? {
      assert Policy(n, [o]) == Aborted;
    } else {
      assert Policy(n, [o]) == GaveUp(o.message);
    }
  }

  /** A round ending in a failure that keeps the loop going: no dispatch,
      store untouched, back at the top of the loop with the policy's budget. */
  lemma ContinuingRound(c: string, t: string, w: int, n: nat, s: State, o: PollOutcome, at: Clock)
    requires s.activeToken == Some(t)
    requires IsRateLimited(o) || (IsTransient(o) && n > 0)
    ensures var r := Run(Waiting(c, t, w, n), s, Round(o, at));
      && Dispatched(r.effects) == []
      && Policy(n, [o]).StillPolling?
      && r.state == s && r.phase.Waiting? && r.phase.countryId == c && r.phase.token == t
      && r.phase.retriesLeft == Policy(n, [o]).retriesLeft
  {
    assert [o][1..] == [];
    if IsRateLimited(o) {
      RateLimitedRound(c, t, w, n, s, o, at);
      assert Policy(n, [o]) == Policy(n, []);
    } else {
      BackedOffRound(c, t, w, n, s, o, at);
      assert Policy(n, [o]) == Policy(n - 1, []);
    }
  }

  /** A 425 with `waitUntil`: the loop sleeps until then with its budget, and
      the back-off input finds nothing waiting for it. */
  lemma RateLimitedRound(c: string, t: string, w: int, n: nat, s: State, o: PollOutcome, at: Clock)
    requires s.activeToken == Some(t) && IsRateLimited(o)
    ensures Run(Waiting(c, t, w, n), s, Round(o, at))
      == Step(Waiting(c, t, o.waitUntil.value, n), s, [PollCall(t), Sleep(Delay(o.waitUntil.value, at.answered))])
    ensures Dispatched([PollCall(t), Sleep(Delay(o.waitUntil.value, at.answered))]) == []
  {
    var now, later := at.answered, at.woke;
    RunThreeThen(Waiting(c, t, w, n), s, Timer, PollSettled(o, now), BackoffElapsed(later), []);
    assert Round(o, at) + [] == Round(o, at);
    TimerPolls(c, t, w, n, s);
    PollAnswerHandled(s, c, t, w, n, o, now);
    var r2 := Resume(Fetching(c, t, w, n), s, PollSettled(o, now));
    assert Resume(r2.phase, r2.state, BackoffElapsed(later)) == Step(r2.phase, r2.state, []);
    assert [PollCall(t)] + (r2.effects + ([] + [])) == [PollCall(t), Sleep(Delay(o.waitUntil.value, now))];
  }

  /** Any other failure with budget left: one retry spent, a back-off of
      `RetryDelayMs`, then a sleep until the loop's `waitUntil` from the time
      the back-off ends. */
  lemma BackedOffRound(c: string, t: string, w: int, n: nat, s: State, o: PollOutcome, at: Clock)
    requires s.activeToken == Some(t) && IsTransient(o) && n > 0
    ensures Run(Waiting(c, t, w, n), s, Round(o, at))
      == Step(Waiting(c, t, w, n - 1), s, [PollCall(t), Sleep(RetryDelayMs), Sleep(Delay(w, at.woke))])
    ensures Dispatched([PollCall(t), Sleep(RetryDelayMs), Sleep(Delay(w, at.woke))]) == []
  {
    var now, later := at.answered, at.woke;
    RunThreeThen(Waiting(c, t, w, n), s, Timer, PollSettled(o, now), BackoffElapsed(later), []);
    assert Round(o, at) + [] == Round(o, at);
    TimerPolls(c, t, w, n, s);
    PollAnswerHandled(s, c, t, w, n, o, now);
    assert Resume(BackingOff(c, t, w, n - 1), s, BackoffElapsed(later)) == Step(Waiting(c, t, w, n - 1), s, [Sleep(Delay(w, later))]);
    assert [PollCall(t)] + ([Sleep(RetryDelayMs)] + ([Sleep(Delay(w, later))] + []))
        == [PollCall(t), Sleep(RetryDelayMs), Sleep(Delay(w, later))];
  }

  /** One round from the top of the loop, token current. */
  lemma OneRound(c: string, t: string, w: int, n: nat, s: State, o: PollOutcome, at: Clock)
    requires s.activeToken == Some(t)
    ensures var r := Run(Waiting(c, t, w, n), s, Round(o, at));
      && Dispatched(r.effects) == VerdictActions(c, Policy(n, [o]))
      && (Policy(n, [o]).StillPolling? ==>
            r.state == s && r.phase.Waiting? && r.phase.countryId == c && r.phase.token == t
            && r.phase.retriesLeft == Policy(n, [o]).retriesLeft)
      && (!Policy(n, [o]).StillPolling? ==> r.phase.Finished? || r.phase.LoadingHotels?)
  {
    if o.PollOk? || o.PollThrew? || (IsTransient(o) && n == 0) {
      TerminalRound(c, t, w, n, s, o, at);
      assert [o][1..] == [];
      assert !Policy(n, [o]).StillPolling?;
    } else {
      ContinuingRound(c, t, w, n, s, o, at);
    }
  }

  /** The refinement: from the top of the loop with the token current, the
      loop fed `outcomes`, each round at its own clock readings, dispatches
      exactly the policy's verdict, keeps the budget the policy reports while
      no verdict is reached, and leaves the store untouched until then. */
  lemma {:induction false} LoopFollowsPolicy(c: string, t: string, w: int, n: nat, s: State,
                                            outcomes: seq<PollOutcome>, clocks: seq<Clock>)
    requires s.activeToken == Some(t)
    requires |clocks| == |outcomes|
    ensures var r := Run(Waiting(c, t, w, n), s, Rounds(outcomes, clocks));
      && Dispatched(r.effects) == VerdictActions(c, Policy(n, outcomes))
      && (Policy(n, outcomes).StillPolling? ==>
            r.state == s && r.phase.Waiting? && r.phase.token == t
            && r.phase.retriesLeft == Policy(n, outcomes).retriesLeft)
    decreases |outcomes|
  {
    if |outcomes| == 0 {
      assert Rounds(outcomes, clocks) == [];
    } else {
      var o := outcomes[0];
      var rest := outcomes[1..];
      RoundsStep(Waiting(c, t, w, n), s, outcomes, clocks);
      OneRound(c, t, w, n, s, o, clocks[0]);
      var a := Run(Waiting(c, t, w, n), s, Round(o, clocks[0]));
      assert outcomes == [o] + rest;
      PolicyStep(n, o, rest);
      if Policy(n, [o]).StillPolling? {
        LoopFollowsPolicy(c, t, a.phase.waitUntil, Policy(n, [o]).retriesLeft, s, rest, clocks[1..]);
      } else {
        RunAfterLoop(a.phase, a.state, Rounds(rest, clocks[1..]));
      }
    }
  }

  /** The first round of the loop, then the others. */
  lemma RoundsStep(p: Phase, s: State, outcomes: seq<PollOutcome>, clocks: seq<Clock>)
    requires |outcomes| > 0 && |clocks| == |outcomes|
    ensures var a := Run(p, s, Round(outcomes[0], clocks[0]));
            var b := Run(a.phase, a.state, Rounds(outcomes[1..], clocks[1..]));
            && Run(p, s, Rounds(outcomes, clocks)) == Step(b.phase, b.state, a.effects + b.effects)
            && Dispatched(a.effects + b.effects) == Dispatched(a.effects) + Dispatched(b.effects)
  {
    var a := Run(p, s, Round(outcomes[0], clocks[0]));
    var b := Run(a.phase, a.state, Rounds(outcomes[1..], clocks[1..]));
    assert Rounds(outcomes, clocks) == Round(outcomes[0], clocks[0]) + Rounds(outcomes[1..], clocks[1..]);
    RunAppend(p, s, Round(outcomes[0], clocks[0]), Rounds(outcomes[1..], clocks[1..]));
    DispatchedAppend(a.effects, b.effects);
  }

  /** Any number of 425 answers carrying a `waitUntil`, interleaved anywhere
      before the transient failures, leave the loop with its full budget: the
      third transient failure is still the one that ends it, with its
      message. */
  lemma RateLimitedRoundsSpendNothing(c: string, t: string, w: int, s: State, limited: seq<PollOutcome>,
                                      f1: PollOutcome, f2: PollOutcome, f3: PollOutcome, clocks: seq<Clock>)
    requires s.activeToken == Some(t)
    requires forall k :: 0 <= k < |limited| ==> IsRateLimited(limited[k])
    requires IsTransient(f1) && IsTransient(f2) && IsTransient(f3)
    requires |clocks| == |limited| + 3
    ensures Dispatched(Run(Waiting(c, t, w, MaxRetries), s, Rounds(limited + [f1, f2, f3], clocks)).effects)
              == [SearchError(f3.message)]
  {
    RateLimitedThenThirdFailure(limited, f1, f2, f3);
    LoopFollowsPolicy(c, t, w, MaxRetries, s, limited + [f1, f2, f3], clocks);
    assert VerdictActions(c, GaveUp(f3.message)) == [SearchError(f3.message)];
  }
}
