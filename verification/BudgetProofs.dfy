/** The reasoning budget over whole runs of turns, failures and restarts, and the runtime's place in
    the turn protocol. */
module BudgetProofs {
  import opened Wrappers
  import opened Runs
  import opened SessionStore
  import opened Recovery
  import opened TurnProtocol
  import TurnProtocolProofs
  import opened Budget
  import opened PersistentRuntime

  datatype Event = Called(call: Call) | Restart(restoresCalls: bool, coverage: seq<string>)

  /** The runtime, with three counts of what has happened to it: provider calls of this process lifetime
      that came back, with an answer or a reasoning error; those that ended in another exception; and calls
      counted since the last commit or restart by turns that failed unrolled. */
  datatype Ledger = Ledger(rt: Runtime, consulted: nat, escaped: nat, leaked: nat)

  function Opening(policyVersion: Option<string>): Ledger {
    Ledger(Runtime(Begin(policyVersion).store, Some(Memory(0, 0, []))), 0, 0, 0)
  }

  /** The call gets as far as the processor. */
  predicate ReachesProcessor(rt: Runtime, call: Call) {
    && call.request !in rt.store.rows && rt.store.session.status == Active
    && rt.store.session.turnCount < call.sequence && rt.processor.Some? && call.text != ""
  }

  predicate Consults(limits: Limits, rt: Runtime, call: Call) {
    ReachesProcessor(rt, call) && Charged(limits, rt.processor.value, call.behaviour)
  }

  predicate Escapes(limits: Limits, rt: Runtime, call: Call) {
    && ReachesProcessor(rt, call) && Asked(limits, rt.processor.value, call.behaviour)
    && call.behaviour.raises == DuringBrain
  }

  function Account(setup: Setup, limits: Limits, l: Ledger, e: Event): (Ledger, seq<()>) {
    match e
    case Restart(restores, coverage) => (Ledger(Restarted(setup, l.rt, restores, coverage), 0, 0, 0), [])
    case Called(call) =>
      var (rt, outcome) := Turn(setup, limits, l.rt, call);
      var charge := if Consults(limits, l.rt, call) then 1 else 0;
      var unrolled := outcome.Failed? && (outcome.reason == ProcessorFailed || outcome.reason == ExportFailed);
      (Ledger(rt, l.consulted + charge, l.escaped + (if Escapes(limits, l.rt, call) then 1 else 0),
              if outcome.Committed? then 0 else if unrolled then l.leaked + charge else l.leaked), [])
  }

  function Accounts(setup: Setup, limits: Limits): (Ledger, Event) -> (Ledger, seq<()>) {
    (l: Ledger, e: Event) => Account(setup, limits, l, e)
  }

  function After(setup: Setup, limits: Limits, l: Ledger, events: seq<Event>): Ledger {
    Final(Accounts(setup, limits), l, events)
  }

  /** The counter a restart would read back. */
  function Persisted(store: Store): nat {
    match store.snapshot
    case Some(Readable(s)) => RestoredCalls(s)
    case _ => 0
  }

  function AtLeastZero(n: int): nat { if n < 0 then 0 else n }

  /** In memory, in the store, and in provider calls: nothing exceeds its limit. */
  ghost predicate WithinBudget(limits: Limits, l: Ledger) {
    && Persisted(l.rt.store) <= AtLeastZero(limits.maxReasoningCalls)
    && l.consulted <= AtLeastZero(limits.maxTurns)
    && (l.rt.processor.Some? ==>
          && l.rt.processor.value.reasoningCalls <= AtLeastZero(limits.maxReasoningCalls)
          && l.consulted <= l.rt.processor.value.turns)
  }

  ghost predicate SnapshotOfTurns(store: Store) {
    store.snapshot.Some? ==> store.snapshot.value.Readable? && store.session.turnCount > 0
  }

  /** What a call leaves behind: a commit persists the counter as it is, anything else persists nothing. */
  lemma TurnCounts(setup: Setup, limits: Limits, rt: Runtime, call: Call)
    requires SnapshotOfTurns(rt.store) && rt.processor.Some?
    ensures var (rt', outcome) := Turn(setup, limits, rt, call);
      var calls, charge := rt.processor.value.reasoningCalls, if Consults(limits, rt, call) then 1 else 0;
      && SnapshotOfTurns(rt'.store) && rt'.processor.Some?
      && Persisted(rt'.store) ==
           (if outcome.Committed? && setup.capable then rt'.processor.value.reasoningCalls else Persisted(rt.store))
      && rt'.processor.value.reasoningCalls ==
           (if outcome.Failed? && (outcome.reason == StoreFailed || outcome.reason == DuplicateRow) then calls
            else calls + charge)
      && rt'.processor.value.turns >= rt.processor.value.turns + charge
      && (outcome.Replayed? || (outcome.Failed? && outcome.reason == Stale) ==> charge == 0)
  {
    if ReachesProcessor(rt, call) && call.rest.Some? {
      BudgetRoundTrip(ExportOf(Processed(limits, rt.processor.value, call.behaviour), call.rest.value),
                      rt.store.session.revision + 1);
    }
  }

  lemma ChargedHasBudget(limits: Limits, m: Memory, b: Behaviour)
    requires Charged(limits, m, b)
    ensures m.reasoningCalls < limits.maxReasoningCalls && m.turns < limits.maxTurns
  {
  }

  lemma AccountKeeps(setup: Setup, limits: Limits, l: Ledger, e: Event)
    requires SnapshotOfTurns(l.rt.store) && WithinBudget(limits, l)
    ensures var l' := Account(setup, limits, l, e).0; SnapshotOfTurns(l'.rt.store) && WithinBudget(limits, l')
  {
    if e.Called? && l.rt.processor.Some? {
      TurnCounts(setup, limits, l.rt, e.call);
      if Consults(limits, l.rt, e.call) {
        ChargedHasBudget(limits, l.rt.processor.value, e.call.behaviour);
      }
    }
  }

  lemma {:induction false} RunKeeps(setup: Setup, limits: Limits, l: Ledger, events: seq<Event>)
    requires SnapshotOfTurns(l.rt.store) && WithinBudget(limits, l)
    ensures var l' := After(setup, limits, l, events); SnapshotOfTurns(l'.rt.store) && WithinBudget(limits, l')
    decreases events
  {
    if events != [] {
      AccountKeeps(setup, limits, l, events[0]);
      RunKeeps(setup, limits, Account(setup, limits, l, events[0]).0, events[1..]);
    }
  }

  predicate NoEscape(events: seq<Event>) {
    forall i :: 0 <= i < |events| && events[i].Called? ==> events[i].call.behaviour.raises != DuringBrain
  }

  lemma {:induction false} NothingEscapes(setup: Setup, limits: Limits, l: Ledger, events: seq<Event>)
    requires NoEscape(events) && l.escaped == 0
    ensures After(setup, limits, l, events).escaped == 0
    decreases events
  {
    if events != [] {
      NothingEscapes(setup, limits, Account(setup, limits, l, events[0]).0, events[1..]);
    }
  }

  /** Over any run of turns, failures of every kind and restarts of either kind, the reasoning counter in
      memory and the one in the store stay within the policy's limit; the provider calls of one process
      lifetime that came back stay within the turn limit, and these are all the provider calls if none ended
      in an exception other than a reasoning error. */
  lemma BudgetNeverExceeded(setup: Setup, limits: Limits, policyVersion: Option<string>, events: seq<Event>)
    ensures WithinBudget(limits, After(setup, limits, Opening(policyVersion), events))
    ensures NoEscape(events) ==>
      var l := After(setup, limits, Opening(policyVersion), events); l.consulted + l.escaped <= AtLeastZero(limits.maxTurns)
  {
    RunKeeps(setup, limits, Opening(policyVersion), events);
    if NoEscape(events) {
      NothingEscapes(setup, limits, Opening(policyVersion), events);
    }
  }

  /** The condition is needed: calls that end in another exception move neither counter, so a budget that
      allows one of them allows any number. */
  lemma {:induction false} EscapedCallsUnbounded(setup: Setup, limits: Limits, l: Ledger, call: Call, n: nat)
    requires Escapes(limits, l.rt, call)
    ensures After(setup, limits, l, seq(n, i => Called(call))) == l.(escaped := l.escaped + n)
    decreases n
  {
    var events := seq(n, i => Called(call));
    if n > 0 {
      assert events[1..] == seq(n - 1, i => Called(call));
      assert Account(setup, limits, l, Called(call)).0 == l.(escaped := l.escaped + 1);
      EscapedCallsUnbounded(setup, limits, l.(escaped := l.escaped + 1), call, n - 1);
    }
  }

  // ----- Memory and store -----

  predicate RestoresCalls(events: seq<Event>) {
    forall i :: 0 <= i < |events| && events[i].Restart? ==> events[i].restoresCalls
  }

  ghost predicate Agrees(l: Ledger) {
    l.rt.processor.Some? ==> l.rt.processor.value.reasoningCalls == Persisted(l.rt.store) + l.leaked
  }

  lemma RestartedMemory(setup: Setup, rt: Runtime, restores: bool, coverage: seq<string>)
    requires SnapshotOfTurns(rt.store)
    ensures Restarted(setup, rt, restores, coverage) == rt.(processor :=
              if CanRebuild(setup, rt.store) then Some(Memory(if restores then Persisted(rt.store) else 0, 0, coverage))
              else None)
  {
    var status := Recover(setup.manifest, Some(rt.store.session), rt.store.queue, setup.policies,
                          Configured(rt.store.snapshot));
    if CanRebuild(setup, rt.store) && rt.store.snapshot.Some? {
      assert rt.store.session.turnCount > 0;
      assert status.RecoveredActive?;
    }
  }

  lemma AccountAgrees(setup: Setup, limits: Limits, l: Ledger, e: Event)
    requires setup.capable && SnapshotOfTurns(l.rt.store) && Agrees(l) && (e.Restart? ==> e.restoresCalls)
    ensures var l' := Account(setup, limits, l, e).0; SnapshotOfTurns(l'.rt.store) && Agrees(l')
  {
    if e.Restart? {
      RestartedMemory(setup, l.rt, e.restoresCalls, e.coverage);
    } else if l.rt.processor.Some? {
      TurnCounts(setup, limits, l.rt, e.call);
    }
  }

  lemma {:induction false} RunAgrees(setup: Setup, limits: Limits, l: Ledger, events: seq<Event>)
    requires setup.capable && SnapshotOfTurns(l.rt.store) && Agrees(l) && RestoresCalls(events)
    ensures Agrees(After(setup, limits, l, events))
    decreases events
  {
    if events != [] {
      AccountAgrees(setup, limits, l, events[0]);
      RunAgrees(setup, limits, Account(setup, limits, l, events[0]).0, events[1..]);
    }
  }

  ghost predicate AgreeIffNoLeak(l: Ledger) {
    l.rt.processor.Some? ==> (l.rt.processor.value.reasoningCalls == Persisted(l.rt.store) <==> l.leaked == 0)
  }

  lemma LeakIsTheDifference(l: Ledger)
    requires Agrees(l)
    ensures AgreeIffNoLeak(l)
  {
  }

  lemma OpeningAgrees(policyVersion: Option<string>)
    ensures SnapshotOfTurns(Opening(policyVersion).rt.store) && Agrees(Opening(policyVersion))
  {
  }

  /** With processors that export their counter and factories that read it back, the counter in memory is
      the persisted one plus the calls that turns counted and then failed outside the commit: the two
      agree exactly when there are none since the last commit or restart. */
  lemma CountersAgreeExactly(setup: Setup, limits: Limits, policyVersion: Option<string>, events: seq<Event>)
    requires setup.capable && RestoresCalls(events)
    ensures Agrees(After(setup, limits, Opening(policyVersion), events))
    ensures AgreeIffNoLeak(After(setup, limits, Opening(policyVersion), events))
  {
    OpeningAgrees(policyVersion);
    RunAgrees(setup, limits, Opening(policyVersion), events);
    LeakIsTheDifference(After(setup, limits, Opening(policyVersion), events));
  }

  /** Once the provider has answered, nothing about the call can keep it from its commit. */
  predicate GetsThrough(setup: Setup, call: Call) {
    && call.behaviour.raises == Never && call.behaviour.output.text != ""
    && (setup.capable ==> call.rest.Some?)
  }

  predicate Leaks(setup: Setup, limits: Limits, l: Ledger, e: Event) {
    e.Called? && Consults(limits, l.rt, e.call) && !GetsThrough(setup, e.call)
  }

  /** A restart or a commit: after it, what is in memory is in the store. */
  predicate Settles(setup: Setup, limits: Limits, l: Ledger, e: Event) {
    e.Restart? || Turn(setup, limits, l.rt, e.call).1.Committed?
  }

  lemma LeakedOnce(setup: Setup, limits: Limits, l: Ledger, e: Event)
    ensures Account(setup, limits, l, e).0.leaked ==
      if Settles(setup, limits, l, e) then 0 else l.leaked + if Leaks(setup, limits, l, e) then 1 else 0
    ensures Leaks(setup, limits, l, e) ==> !Settles(setup, limits, l, e)
  {
  }

  /** Event `k` leaks, and nothing after it settles. */
  ghost predicate LeftLeaking(setup: Setup, limits: Limits, l: Ledger, events: seq<Event>, k: nat) {
    && k < |events| && Leaks(setup, limits, After(setup, limits, l, events[..k]), events[k])
    && forall j :: k < j < |events| ==> !Settles(setup, limits, After(setup, limits, l, events[..j]), events[j])
  }

  lemma LeftLeakingBefore(setup: Setup, limits: Limits, l: Ledger, events: seq<Event>, k: nat)
    requires events != [] && k < |events| - 1
    ensures var n := |events| - 1;
      LeftLeaking(setup, limits, l, events, k) <==>
        LeftLeaking(setup, limits, l, events[..n], k) && !Settles(setup, limits, After(setup, limits, l, events[..n]), events[n])
  {
    var n := |events| - 1;
    assert forall j | 0 <= j <= n :: events[..n][..j] == events[..j];
  }

  /** A run leaves a leaked call behind exactly when some call of it was counted, failed before its commit,
      and was followed by no commit and no restart. */
  lemma {:induction false} LeakedExactly(setup: Setup, limits: Limits, l: Ledger, events: seq<Event>)
    requires l.leaked == 0
    ensures After(setup, limits, l, events).leaked > 0 <==> exists k: nat :: LeftLeaking(setup, limits, l, events, k)
    decreases |events|
  {
    if events != [] {
      var n := |events| - 1;
      var before := After(setup, limits, l, events[..n]);
      LeakedExactly(setup, limits, l, events[..n]);
      OneMore(Accounts(setup, limits), l, events, n);
      assert events[..n + 1] == events;
      LeakedOnce(setup, limits, before, events[n]);
      forall k: nat | k < n
        ensures LeftLeaking(setup, limits, l, events, k) <==>
          LeftLeaking(setup, limits, l, events[..n], k) && !Settles(setup, limits, before, events[n])
      {
        LeftLeakingBefore(setup, limits, l, events, k);
      }
      assert LeftLeaking(setup, limits, l, events, n) <==> Leaks(setup, limits, before, events[n]);
      if before.leaked > 0 {
        var k: nat :| LeftLeaking(setup, limits, l, events[..n], k);
        assert LeftLeaking(setup, limits, l, events, k) <==> !Settles(setup, limits, before, events[n]);
      }
    }
  }

  /** So the two counters agree whenever every call that is counted gets through to its commit, which may
      itself fail. */
  lemma CountersAgree(setup: Setup, limits: Limits, policyVersion: Option<string>, events: seq<Event>)
    requires setup.capable && RestoresCalls(events)
    requires forall i :: 0 <= i < |events| && events[i].Called? ==> GetsThrough(setup, events[i].call)
    ensures var l := After(setup, limits, Opening(policyVersion), events);
      l.leaked == 0 && (l.rt.processor.Some? ==> l.rt.processor.value.reasoningCalls == Persisted(l.rt.store))
  {
    LeakedExactly(setup, limits, Opening(policyVersion), events);
    CountersAgreeExactly(setup, limits, policyVersion, events);
  }

  /** A factory that starts the counter from zero gives back, at a restart, all that was persisted. */
  lemma RestartWithoutCounter(setup: Setup, limits: Limits, l: Ledger, coverage: seq<string>)
    requires SnapshotOfTurns(l.rt.store) && CanRebuild(setup, l.rt.store)
    ensures var restored := Restarted(setup, l.rt, true, coverage).processor;
      var started := Restarted(setup, l.rt, false, coverage).processor;
      && restored.Some? && restored.value.reasoningCalls == Persisted(l.rt.store)
      && started.Some? && started.value.reasoningCalls == 0
  {
    RestartedMemory(setup, l.rt, true, coverage);
    RestartedMemory(setup, l.rt, false, coverage);
  }

  // ----- Failed commits are refunded -----

  /** A turn that asks the provider, produces an answer, and then meets a failing store. */
  predicate Refunded(limits: Limits, rt: Runtime, call: Call) {
    && ReachesProcessor(rt, call) && call.storeFails && call.rest.Some?
    && call.behaviour.raises == Never && call.behaviour.output.text != ""
    && !call.behaviour.priority && call.behaviour.providerConsulted
  }

  lemma RefundedOnce(setup: Setup, limits: Limits, l: Ledger, call: Call)
    requires Refunded(limits, l.rt, call) && limits.maxCallSeconds > 0
    requires l.rt.processor.value.reasoningCalls < limits.maxReasoningCalls
    requires l.rt.processor.value.turns < limits.maxTurns
    ensures var m := l.rt.processor.value;
      Account(setup, limits, l, Called(call)).0
      == l.(rt := l.rt.(processor := Some(m.(turns := m.turns + 1))), consulted := l.consulted + 1)
  {
  }

  /** The counter does not bound the provider calls that came back: commits that keep failing refund each of
      them, and only the turn limit stops this. The bound on such calls in one lifetime is reached. */
  lemma {:induction false} RefundsReachTurnLimit(setup: Setup, limits: Limits, l: Ledger, call: Call, n: nat)
    requires Refunded(limits, l.rt, call) && limits.maxCallSeconds > 0
    requires l.rt.processor.value.reasoningCalls < limits.maxReasoningCalls
    requires l.rt.processor.value.turns + n <= limits.maxTurns
    ensures var l' := After(setup, limits, l, seq(n, i => Called(call)));
      && l'.consulted == l.consulted + n
      && l'.rt.processor.Some? && l'.rt.processor.value.reasoningCalls == l.rt.processor.value.reasoningCalls
    decreases n
  {
    var events := seq(n, i => Called(call));
    if n > 0 {
      RefundedOnce(setup, limits, l, call);
      assert events[1..] == seq(n - 1, i => Called(call));
      RefundsReachTurnLimit(setup, limits, Account(setup, limits, l, Called(call)).0, call, n - 1);
    }
  }

  // ----- Coverage -----

  /** What one call adds to the coverage for good: what was explained, unless an exception came first or
      the commit failed. */
  function Contribution(setup: Setup, limits: Limits, rt: Runtime, call: Call): seq<string> {
    var outcome := Turn(setup, limits, rt, call).1;
    if ReachesProcessor(rt, call) && call.behaviour.raises in {Never, AfterCoverage}
       && !(outcome.Failed? && outcome.reason in {StoreFailed, DuplicateRow})
    then call.behaviour.explained else []
  }

  /** The runtime as a machine over calls, that logs what each adds to the coverage. */
  function Covering(setup: Setup, limits: Limits): (Runtime, Call) -> (Runtime, seq<string>) {
    (rt: Runtime, call: Call) => (Turn(setup, limits, rt, call).0, Contribution(setup, limits, rt, call))
  }

  /** Coverage of a turn stays in memory unless its commit fails, and is persisted with the commit. */
  lemma CoverageExactly(setup: Setup, limits: Limits, rt: Runtime, call: Call)
    requires rt.processor.Some?
    ensures var (rt', outcome) := Turn(setup, limits, rt, call);
      && rt'.processor.Some?
      && rt'.processor.value.coverage == rt.processor.value.coverage + Contribution(setup, limits, rt, call)
      && (outcome.Committed? && setup.capable ==>
            && rt'.store.snapshot.Some? && rt'.store.snapshot.value.Readable? && call.rest.Some?
            && rt'.store.snapshot.value.snapshot.payloads == Payloads(ExportOf(rt'.processor.value, call.rest.value))
            && rt'.store.snapshot.value.snapshot.conversationState == call.rest.value.conversationState
            && rt'.store.snapshot.value.snapshot.sourceRevision == outcome.row.revision == rt'.store.session.revision)
      && (!outcome.Committed? ==> rt'.store == rt.store)
  {
  }

  /** Call `k` wrote the store as it is now, with the memory as call `k` left it. */
  ghost predicate WrittenBy(setup: Setup, limits: Limits, rt: Runtime, calls: seq<Call>, k: nat, store: Store)
    requires k < |calls|
  {
    var after := Final(Covering(setup, limits), rt, calls[..k + 1]);
    && after.store == store && after.processor.Some? && calls[k].rest.Some?
    && store.snapshot.Some? && store.snapshot.value.Readable?
    && store.snapshot.value.snapshot.payloads == Payloads(ExportOf(after.processor.value, calls[k].rest.value))
    && store.snapshot.value.snapshot.conversationState == calls[k].rest.value.conversationState
    && store.snapshot.value.snapshot.sourceRevision == store.session.revision
    && after.processor.value.coverage
       == (if rt.processor.Some? then rt.processor.value.coverage else []) + Log(Covering(setup, limits), rt, calls[..k + 1])
  }

  lemma WrittenBefore(setup: Setup, limits: Limits, rt: Runtime, calls: seq<Call>, k: nat, store: Store)
    requires k < |calls| - 1 && WrittenBy(setup, limits, rt, calls[..|calls| - 1], k, store)
    ensures WrittenBy(setup, limits, rt, calls, k, store)
  {
    assert calls[..|calls| - 1][..k + 1] == calls[..k + 1];
  }

  ghost predicate WrittenInRun(setup: Setup, limits: Limits, rt: Runtime, calls: seq<Call>, store: Store) {
    exists k: nat :: k < |calls| && WrittenBy(setup, limits, rt, calls, k, store)
  }

  ghost predicate CoverageAdds(setup: Setup, limits: Limits, rt: Runtime, calls: seq<Call>) {
    var after := Final(Covering(setup, limits), rt, calls);
    && rt.processor.Some? && after.processor.Some?
    && after.processor.value.coverage == rt.processor.value.coverage + Log(Covering(setup, limits), rt, calls)
  }

  lemma AddsAssociate(start: seq<string>, before: seq<string>, added: seq<string>, middle: seq<string>, now: seq<string>)
    requires middle == start + before && now == middle + added
    ensures now == start + (before + added)
  {
  }

  lemma OneMoreAdds(setup: Setup, limits: Limits, rt: Runtime, calls: seq<Call>)
    requires calls != [] && CoverageAdds(setup, limits, rt, calls[..|calls| - 1])
    ensures CoverageAdds(setup, limits, rt, calls)
  {
    var step, n := Covering(setup, limits), |calls| - 1;
    var before := Final(step, rt, calls[..n]);
    assert calls[..n + 1] == calls;
    OneMore(step, rt, calls, n);
    CoverageExactly(setup, limits, before, calls[n]);
    var (after, added) := step(before, calls[n]);
    AddsAssociate(rt.processor.value.coverage, Log(step, rt, calls[..n]), added, before.processor.value.coverage,
                  after.processor.value.coverage);
  }

  lemma OneMoreWrites(setup: Setup, limits: Limits, rt: Runtime, calls: seq<Call>)
    requires setup.capable && calls != []
    requires CoverageAdds(setup, limits, rt, calls[..|calls| - 1]) && CoverageAdds(setup, limits, rt, calls)
    ensures var before := Final(Covering(setup, limits), rt, calls[..|calls| - 1]);
      var after := Final(Covering(setup, limits), rt, calls);
      after.store == before.store || WrittenBy(setup, limits, rt, calls, |calls| - 1, after.store)
  {
    var step, n := Covering(setup, limits), |calls| - 1;
    assert calls[..n + 1] == calls;
    OneMore(step, rt, calls, n);
    CoverageExactly(setup, limits, Final(step, rt, calls[..n]), calls[n]);
  }

  /** Over any run of calls on one processor, its coverage is what it began with and what each call has
      added, in order; and the store is as it was, or carries the coverage of the last call that was
      committed. So what a failed commit explained shows up in no later snapshot. */
  lemma {:induction false} CoverageOverRuns(setup: Setup, limits: Limits, rt: Runtime, calls: seq<Call>)
    requires rt.processor.Some? && setup.capable
    ensures CoverageAdds(setup, limits, rt, calls)
    ensures var after := Final(Covering(setup, limits), rt, calls);
      after.store == rt.store || WrittenInRun(setup, limits, rt, calls, after.store)
    decreases |calls|
  {
    if calls == [] {
      assert rt.processor.value.coverage + [] == rt.processor.value.coverage;
    } else {
      var n := |calls| - 1;
      var before, after := Final(Covering(setup, limits), rt, calls[..n]), Final(Covering(setup, limits), rt, calls);
      CoverageOverRuns(setup, limits, rt, calls[..n]);
      OneMoreAdds(setup, limits, rt, calls);
      OneMoreWrites(setup, limits, rt, calls);
      if after.store == before.store && before.store != rt.store {
        var k: nat :| k < n && WrittenBy(setup, limits, rt, calls[..n], k, before.store);
        WrittenBefore(setup, limits, rt, calls, k, before.store);
      }
    }
  }
}
