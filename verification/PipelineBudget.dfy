/** The decision pipeline on the budget its own turns leave: the counters of the processor
    (production_turn_processor.py) around the turns of the orchestrator. */
module PipelineBudget {
  import opened Wrappers
  import opened Runs
  import opened StateMachine
  import opened Contact
  import opened Catalog
  import opened Engine
  import opened Budget
  import opened Orchestrator
  import opened PersistentRuntime

  /** What one turn brings from outside: everything but the budget and the exit signals. */
  datatype Heard = Heard(priority: Priority, reply: ProviderReply, understanding: Option<Understanding>, selector: SelectorReply)

  /** A processor between two turns: its engine, its context and its two counters. */
  datatype Live = Live(machine: Machine, context: Context, turns: nat, calls: nat)

  function InputsOf(limits: Limits, l: Live, h: Heard): Inputs {
    Inputs(h.priority, Some(StateOf(limits, l.turns, l.calls)), NO_SIGNALS, h.reply, h.understanding, h.selector)
  }

  /** The provider is named in the trace of the turn. */
  predicate Named(s: Setting, limits: Limits, l: Live, h: Heard) {
    Decide(s, l.machine, l.context, InputsOf(limits, l, h)).1.providerNamed
  }

  function Turned(s: Setting, limits: Limits, l: Live, h: Heard): Live {
    var (m, ctx) := PipelineTurn(s, l.machine, l.context, InputsOf(limits, l, h));
    Live(m, ctx, l.turns + 1, l.calls + if Named(s, limits, l, h) then 1 else 0)
  }

  /** The pipeline as a machine that logs the turns whose provider is named. */
  function Pipeline(s: Setting, limits: Limits): (Live, Heard) -> (Live, seq<Heard>) {
    (l: Live, h: Heard) => (Turned(s, limits, l, h), if Named(s, limits, l, h) then [h] else [])
  }

  /** The setting and the input that a behaviour of the processor stands for. */
  ghost predicate StandsFor(s: Setting, limits: Limits, h: Heard, b: Behaviour) {
    && s.limits == Some(limits)
    && (b.priority <==> !h.priority.NoPriority?)
    && (b.providerConsulted <==> s.provider && s.snapshot && s.scope.Some? && s.authority.Some?)
    && b.raises !in {BeforeBrain, DuringBrain}
  }

  /** The turn that names its provider is the turn the processor charges, and both count alike. */
  lemma NamedIsCharged(s: Setting, limits: Limits, l: Live, h: Heard, m: Memory, b: Behaviour)
    requires StandsFor(s, limits, h, b) && m.turns == l.turns && m.reasoningCalls == l.calls
    ensures Named(s, limits, l, h) <==> Charged(limits, m, b)
    ensures Processed(limits, m, b).turns == Turned(s, limits, l, h).turns
    ensures Processed(limits, m, b).reasoningCalls == Turned(s, limits, l, h).calls
  {
    ChargedExactly(s, l.machine, l.context, InputsOf(limits, l, h));
  }

  lemma NamedHasBudget(s: Setting, limits: Limits, l: Live, h: Heard)
    requires s.limits == Some(limits) && Named(s, limits, l, h)
    ensures l.calls < limits.maxReasoningCalls && l.turns < limits.maxTurns
  {
    ChargedExactly(s, l.machine, l.context, InputsOf(limits, l, h));
  }

  /** Over any run of pipeline turns the counter counts the turns that named the provider, and passes
      neither its limit nor the turn limit. */
  lemma {:induction false} NamedTurnsBounded(s: Setting, limits: Limits, l: Live, turns: seq<Heard>)
    requires s.limits == Some(limits)
    ensures var l', named := Final(Pipeline(s, limits), l, turns), |Log(Pipeline(s, limits), l, turns)|;
      && l'.turns == l.turns + |turns| && l'.calls == l.calls + named
      && (named > 0 ==> l'.calls <= limits.maxReasoningCalls && l.turns + named <= limits.maxTurns)
    decreases turns
  {
    if turns != [] {
      NamedTurnsBounded(s, limits, Turned(s, limits, l, turns[0]), turns[1..]);
      if Named(s, limits, l, turns[0]) {
        NamedHasBudget(s, limits, l, turns[0]);
      }
    }
  }

  predicate SpentUp(limits: Limits, l: Live) { l.calls >= limits.maxReasoningCalls || l.turns >= limits.maxTurns }

  /** Once a budget is used up, turns without a trusted priority change neither machine nor context for the
      rest of the call, whatever is said and whatever a provider would have answered. */
  lemma {:induction false} SpentUpStandsStill(s: Setting, limits: Limits, l: Live, turns: seq<Heard>)
    requires s.limits == Some(limits) && SpentUp(limits, l)
    requires forall i :: 0 <= i < |turns| ==> turns[i].priority.NoPriority?
    ensures Final(Pipeline(s, limits), l, turns) == l.(turns := l.turns + |turns|)
    ensures Log(Pipeline(s, limits), l, turns) == []
    decreases turns
  {
    if turns != [] {
      OnlyThroughTheGates(s, l.machine, l.context, InputsOf(limits, l, turns[0]));
      ChargedExactly(s, l.machine, l.context, InputsOf(limits, l, turns[0]));
      SpentUpStandsStill(s, limits, Turned(s, limits, l, turns[0]), turns[1..]);
    }
  }
}
