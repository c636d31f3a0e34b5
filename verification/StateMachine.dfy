/** The conversation state machine with its detour stack (app/conversation/state_machine). */
module StateMachine {
  import opened Wrappers

  datatype ConversationState =
    | NewCall | Greeting | IdentifyPerson | CheckHistory | Introduce | FollowUp | ReasonForCall | Listen
    | HandleQuestion | ExploreAlternative | CollectEmail | ConfirmContactState | ScheduleCallbackState
    | IdentifyDecisionMaker | EndCallState

  datatype AgentAction =
    | Greet | AskIdentity | IntroduceReason | AnswerQuestion | OfferService | AskEmail | ConfirmContact
    | ClarifyContact | ScheduleCallback | MarkDnc | EndCall

  /** A detour returns to the state it was entered from. */
  datatype Target = To(state: ConversationState) | Previous

  datatype Rule = Rule(target: Target, outcome: Option<string>, preserveInterest: bool)

  datatype Definition = Definition(transitions: map<AgentAction, Rule>, isDetour: bool)

  datatype Config = Config(states: map<ConversationState, Definition>, terminal: set<ConversationState>)

  datatype Machine = Machine(current: ConversationState, stack: seq<ConversationState>)

  datatype ApprovedTransition = ApprovedTransition(
    action: AgentAction,
    fromState: ConversationState,
    toState: ConversationState,
    outcome: Option<string>,
    preservedInterest: bool,
    wasDetourReturn: bool)

  predicate Terminal(config: Config, m: Machine) { m.current in config.terminal }

  function RuleFor(config: Config, state: ConversationState, action: AgentAction): Option<Rule> {
    if state in config.states && action in config.states[state].transitions
    then Some(config.states[state].transitions[action]) else None
  }

  predicate EntersDetour(config: Config, state: ConversationState) {
    state in config.states && config.states[state].isDetour
  }

  /** None where the machine raises: it is then left as it was. */
  function Apply(config: Config, m: Machine, action: AgentAction): Option<(Machine, ApprovedTransition)> {
    if Terminal(config, m) then None
    else
      match RuleFor(config, m.current, action)
      case None => None
      case Some(rule) =>
        match rule.target
        case Previous =>
          if m.stack == [] then None
          else
            var target := m.stack[|m.stack| - 1];
            Some((Machine(target, m.stack[..|m.stack| - 1]),
                  ApprovedTransition(action, m.current, target, rule.outcome, rule.preserveInterest, true)))
        case To(target) =>
          Some((Machine(target, if EntersDetour(config, target) then m.stack + [m.current] else m.stack),
                ApprovedTransition(action, m.current, target, rule.outcome, rule.preserveInterest, false)))
  }

  class ConversationStateMachine {
    const config: Config
    var currentState: ConversationState
    var stateStack: seq<ConversationState>

    ghost function Now(): Machine
      reads this
    {
      Machine(currentState, stateStack)
    }

    constructor (config: Config, initial: ConversationState)
      ensures this.config == config && Now() == Machine(initial, [])
    {
      this.config := config;
      currentState, stateStack := initial, [];
    }

    predicate IsTerminal()
      reads this
      ensures IsTerminal() == Terminal(config, Now())
    {
      currentState in config.terminal
    }

    method ApplyTransition(action: AgentAction) returns (r: Option<ApprovedTransition>)
      modifies this
      ensures match Apply(config, old(Now()), action)
              case None => r.None? && Now() == old(Now())
              case Some((m, t)) => r == Some(t) && Now() == m
    {
      if IsTerminal() { return None; }
      var rule := RuleFor(config, currentState, action);
      if rule.None? { return None; }
      var from := currentState;
      match rule.value.target {
        case Previous =>
          if stateStack == [] { return None; }
          currentState := stateStack[|stateStack| - 1];
          stateStack := stateStack[..|stateStack| - 1];
        case To(target) =>
          if EntersDetour(config, target) {
            stateStack := stateStack + [from];
          }
          currentState := target;
      }
      return Some(ApprovedTransition(action, from, currentState, rule.value.outcome, rule.value.preserveInterest,
                                     rule.value.target.Previous?));
    }
  }

  /** Every state to return to is one the conversation can go on from. */
  predicate LiveStack(config: Config, m: Machine) {
    forall i :: 0 <= i < |m.stack| ==> m.stack[i] !in config.terminal
  }

  /** One application moves along one rule of the table, or back to the state a detour was entered from;
      the way back never leads to a terminal state. */
  lemma ApplyFollowsTable(config: Config, m: Machine, action: AgentAction)
    requires LiveStack(config, m)
    ensures match Apply(config, m, action)
            case None => true
            case Some((m', t)) =>
              && !Terminal(config, m) && LiveStack(config, m')
              && t.fromState == m.current && t.toState == m'.current && t.action == action
              && var rule := RuleFor(config, m.current, action);
              && rule.Some? && t.outcome == rule.value.outcome
              && (rule.value.target.To? ==>
                    && m'.current == rule.value.target.state
                    && m'.stack == m.stack + if EntersDetour(config, m'.current) then [m.current] else [])
              && (rule.value.target.Previous? ==> m.stack == m'.stack + [m'.current] && !Terminal(config, m'))
  {
  }

  /** An action applies exactly where the table of a state that is not terminal has a rule for it, and a rule
      that returns has somewhere to return to. */
  lemma AppliesExactly(config: Config, m: Machine, action: AgentAction)
    ensures Apply(config, m, action).Some? <==>
      && m.current !in config.terminal && m.current in config.states
      && action in config.states[m.current].transitions
      && (config.states[m.current].transitions[action].target.Previous? ==> m.stack != [])
    ensures Apply(config, m, action).Some? ==>
      var ((m', t), rule) := (Apply(config, m, action).value, config.states[m.current].transitions[action]);
      && t == ApprovedTransition(action, m.current, m'.current, rule.outcome, rule.preserveInterest, rule.target.Previous?)
      && (match rule.target
          case Previous => m.stack == m'.stack + [m'.current]
          case To(target) =>
            && m'.current == target
            && m'.stack == (if target in config.states && config.states[target].isDetour then m.stack + [m.current] else m.stack))
  {
  }
}
