/** The budget and early-exit evaluator (app/brain/budget/evaluator.py). */
module Budget {
  import opened Wrappers

  datatype Limits = Limits(maxReasoningCalls: int, maxTurns: int, maxCallSeconds: int, maxResponseSentences: int)

  datatype BudgetState = BudgetState(
    turnsRemaining: Option<int>,
    secondsRemaining: Option<int>,
    reasoningCallsRemaining: Option<int>,
    maxResponseSentences: Option<int>)

  datatype ExitSignals = ExitSignals(dnc: bool, notInterested: bool, callbackScheduled: bool, contactConfirmed: bool)

  datatype ExitKind = DncExit | NotInterestedExit | CallbackExit | ContactObtainedExit

  datatype WindDownReason = MissingPolicyOrState | ReasoningExhausted | TurnsExhausted | DurationExhausted

  datatype Decision =
    | EarlyExit(kind: ExitKind)
    | WindDown(reason: WindDownReason)
    | ConstrainResponse(ceiling: int)
    | Proceed(ceiling: int)

  predicate Exhausted(remaining: Option<int>) { remaining.None? || remaining.value <= 0 }

  function Evaluate(state: Option<BudgetState>, signals: ExitSignals, policy: Option<Limits>): Decision {
    if signals.dnc then EarlyExit(DncExit)
    else if signals.notInterested then EarlyExit(NotInterestedExit)
    else if signals.callbackScheduled then EarlyExit(CallbackExit)
    else if signals.contactConfirmed then EarlyExit(ContactObtainedExit)
    else if policy.None? || state.None? then WindDown(MissingPolicyOrState)
    else if Exhausted(state.value.reasoningCallsRemaining) then WindDown(ReasoningExhausted)
    else if Exhausted(state.value.turnsRemaining) then WindDown(TurnsExhausted)
    else if Exhausted(state.value.secondsRemaining) then WindDown(DurationExhausted)
    else
      var ceiling := policy.value.maxResponseSentences;
      if state.value.maxResponseSentences.Some? && state.value.maxResponseSentences.value < ceiling
      then ConstrainResponse(state.value.maxResponseSentences.value)
      else Proceed(ceiling)
  }

  predicate Continues(d: Decision) { d.ConstrainResponse? || d.Proceed? }

  const NO_SIGNALS := ExitSignals(false, false, false, false)

  function Remaining(limit: int, used: nat): int { if limit - used > 0 then limit - used else 0 }

  /** The state a processor derives from its policy and its two counters. */
  function StateOf(limits: Limits, turns: nat, calls: nat): BudgetState {
    BudgetState(Some(Remaining(limits.maxTurns, turns)), Some(limits.maxCallSeconds),
                Some(Remaining(limits.maxReasoningCalls, calls)), Some(limits.maxResponseSentences))
  }

  /** The decision in every case: the first signal names the exit, then what is missing or used up names the
      reason, and otherwise the tighter of the two ceilings is the ceiling. */
  lemma DecisionExactly(state: Option<BudgetState>, signals: ExitSignals, policy: Option<Limits>)
    ensures var d := Evaluate(state, signals, policy);
      && (d.EarlyExit? <==> signals != NO_SIGNALS)
      && (d == EarlyExit(DncExit) <==> signals.dnc)
      && (d == EarlyExit(NotInterestedExit) <==> !signals.dnc && signals.notInterested)
      && (d == EarlyExit(CallbackExit) <==> !signals.dnc && !signals.notInterested && signals.callbackScheduled)
      && (signals == NO_SIGNALS ==>
            && (d == WindDown(MissingPolicyOrState) <==> policy.None? || state.None?)
            && (policy.Some? && state.Some? ==>
                  var (calls, turns, seconds) :=
                    (Left(state.value.reasoningCallsRemaining), Left(state.value.turnsRemaining), Left(state.value.secondsRemaining));
                  && (d == WindDown(ReasoningExhausted) <==> !calls)
                  && (d == WindDown(TurnsExhausted) <==> calls && !turns)
                  && (d == WindDown(DurationExhausted) <==> calls && turns && !seconds)
                  && (Continues(d) <==> calls && turns && seconds)
                  && (Continues(d) ==> CeilingIs(d, state.value.maxResponseSentences, policy.value.maxResponseSentences))))
  {
  }

  predicate Left(remaining: Option<int>) { remaining.Some? && remaining.value > 0 }

  predicate CeilingIs(d: Decision, own: Option<int>, general: int)
    requires Continues(d)
  {
    && d.ceiling <= general && (own.Some? ==> d.ceiling <= own.value)
    && (d.ceiling == general || Some(d.ceiling) == own)
    && (d.ConstrainResponse? <==> own.Some? && own.value < general)
  }

  /** What is left of each limit is what has not been used of it, and never less than nothing; the clock does
      not run. */
  lemma StateTells(limits: Limits, turns: nat, calls: nat)
    ensures var state := StateOf(limits, turns, calls);
      && state.turnsRemaining == Some(if turns < limits.maxTurns then limits.maxTurns - turns else 0)
      && state.reasoningCallsRemaining == Some(if calls < limits.maxReasoningCalls then limits.maxReasoningCalls - calls else 0)
      && state.secondsRemaining == Some(limits.maxCallSeconds)
      && state.maxResponseSentences == Some(limits.maxResponseSentences)
  {
  }
}
