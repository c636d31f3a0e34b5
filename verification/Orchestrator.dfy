/** The decision pipeline (app/brain/orchestrator/orchestrator.py): priority, budget, an untrusted proposal,
    scope, authority, and execution by the engine. */
module Orchestrator {
  import opened Wrappers
  import opened StateMachine
  import opened Contact
  import opened Catalog
  import opened Engine
  import opened Budget
  import opened Policies
  import opened Runs
  import EngineProofs

  // ----- The untrusted proposal -----

  /** A field of a provider's answer: a value of the expected type, or of another. */
  datatype Untrusted<+T> = Typed(value: T) | Mistyped

  datatype Number = Finite(value: real) | NotFinite | Boolean | NotANumber

  datatype RawRequest = NotARequest | RawRequest(kind: Untrusted<CommercialKind>, percent: Option<Number>)

  /** Whatever object the provider returns. */
  datatype RawProposal =
    | NotAProposal
    | RawProposal(
        intent: Untrusted<string>,
        tone: Untrusted<string>,
        topic: Untrusted<Topic>,
        action: Option<Untrusted<AgentAction>>,
        needsService: Untrusted<bool>,
        involvesContact: Untrusted<bool>,
        commercial: Option<RawRequest>,
        contact: Option<Untrusted<Understanding>>,
        updates: Untrusted<seq<Untrusted<string>>>,
        goal: Option<Untrusted<string>>,
        reasoning: Option<Untrusted<string>>,
        confidence: Number)

  datatype ProviderReply = ReasoningFails | Answers(raw: RawProposal)

  predicate WellFormedPercent(n: Number) { n.Finite? && n.value >= 0.0 }

  predicate WellFormedRequest(r: RawRequest) {
    r.RawRequest? && r.kind.Typed? && (r.percent.Some? ==> WellFormedPercent(r.percent.value))
  }

  predicate WellFormed(p: RawProposal) {
    && p.RawProposal? && p.intent.Typed? && p.tone.Typed? && p.topic.Typed?
    && (p.action.Some? ==> p.action.value.Typed?)
    && p.needsService.Typed? && p.involvesContact.Typed?
    && (p.commercial.Some? ==> WellFormedRequest(p.commercial.value))
    && (p.contact.Some? ==> p.contact.value.Typed?)
    && p.updates.Typed? && (forall i :: 0 <= i < |p.updates.value| ==> p.updates.value[i].Typed?)
    && (p.goal.Some? ==> p.goal.value.Typed?)
    && (p.reasoning.Some? ==> p.reasoning.value.Typed?)
    && p.confidence.Finite? && 0.0 <= p.confidence.value <= 1.0
  }

  function ActionOf(p: RawProposal): Option<AgentAction>
    requires WellFormed(p)
  {
    if p.action.None? then None else Some(p.action.value.value)
  }

  function RequestOf(p: RawProposal): Option<CommercialRequest>
    requires WellFormed(p)
  {
    if p.commercial.None? then None
    else
      var r := p.commercial.value;
      Some(CommercialRequest(r.kind.value, if r.percent.None? then None else Some(r.percent.value.value)))
  }

  // ----- One turn -----

  /** The trusted side of a turn; a missing part fails closed. */
  datatype Setting = Setting(
    parts: Parts,
    provider: bool,
    snapshot: bool,
    scope: Option<ScopePolicy>,
    authority: Option<AuthorityPolicy>,
    limits: Option<Limits>)

  datatype Stage = PipelineStopped | AuthorityApproved | Escalate | Redirect | FallBack

  /** What a turn comes to before its execution. An approval names its action, its bounds, and the policies
      it was given under. */
  datatype TurnResult = TurnResult(
    stage: Stage,
    terminal: bool,
    context: Context,
    execution: Option<Result>,
    providerNamed: bool,
    action: Option<AgentAction>,
    bounds: Option<Bounds>,
    scopePolicy: Option<string>,
    authorityPolicy: Option<string>)

  function Unrouted(stage: Stage, ctx: Context, named: bool): TurnResult {
    TurnResult(stage, false, ctx, None, named, None, None, None, None)
  }

  datatype Inputs = Inputs(
    priority: Priority,
    budget: Option<BudgetState>,
    signals: ExitSignals,
    reply: ProviderReply,
    understanding: Option<Understanding>,
    selector: SelectorReply)

  /** Scope and authority of a well-formed proposal. */
  function ClassifyProposal(s: Setting, ctx: Context, p: RawProposal): TurnResult
    requires WellFormed(p) && s.scope.Some? && s.authority.Some?
  {
    match ActionOf(p)
    case None => Unrouted(FallBack, ctx, true)
    case Some(action) =>
      var scope, authority := s.scope.value, s.authority.value;
      var category := CheckScope(scope, Some(action), p.topic.value);
      if category != InScope then
        Unrouted(if category == OutOfScope then Redirect else FallBack, ctx, true).(scopePolicy := Some(scope.id))
      else
        var known := Unrouted(FallBack, ctx, true).(scopePolicy := Some(scope.id), authorityPolicy := Some(authority.id));
        match Classify(authority, Some(action), RequestOf(p))
        case HumanApprovalRequired => known.(stage := Escalate)
        case Denied => known.(stage := Redirect)
        case AutoExecute => known.(stage := AuthorityApproved, action := Some(action))
        case PolicyBounded =>
          known.(stage := AuthorityApproved, action := Some(action), bounds := Some(EffectiveBounds(authority, RequestOf(p))))
  }

  function SliceTwo(s: Setting, ctx: Context, reply: ProviderReply): TurnResult {
    if !s.provider || !s.snapshot || s.scope.None? || s.authority.None? then Unrouted(FallBack, ctx, false)
    else
      match reply
      case ReasoningFails => Unrouted(FallBack, ctx, true)
      case Answers(p) => if WellFormed(p) then ClassifyProposal(s, ctx, p) else Unrouted(FallBack, ctx, true)
  }

  function Prioritized(r: Result): TurnResult {
    Unrouted(PipelineStopped, r.context, false).(terminal := r.isTerminal, execution := Some(r))
  }

  function Decide(s: Setting, m: Machine, ctx: Context, i: Inputs): (Machine, TurnResult) {
    match PriorityAction(i.priority)
    case Some(action) =>
      var t := ExecuteApproved(s.parts, m, ctx, action);
      (t.machine, Prioritized(t.result))
    case None =>
      if Continues(BudgetDecision(s, i)) then (m, SliceTwo(s, ctx, i.reply))
      else (m, Unrouted(PipelineStopped, ctx, false))
  }

  function BudgetDecision(s: Setting, i: Inputs): Decision { Budget.Evaluate(i.budget, i.signals, s.limits) }

  datatype SliceThreeOutcome = ExecutedOk | FellBack | Redirected

  datatype SliceThreeResult =
    SliceThreeResult(outcome: SliceThreeOutcome, terminal: bool, execution: Option<Result>, bounds: Option<Bounds>)

  predicate Succeeded(r: Result) {
    && r.executionRequired && r.approvedAction.Some? && !r.fallbackUsed
    && r.validation.Some? && r.validation.value.allowed
  }

  function SliceThree(s: Setting, m: Machine, two: TurnResult, u: Option<Understanding>, selector: SelectorReply)
    : (Machine, SliceThreeResult)
  {
    var refused := SliceThreeResult(FellBack, two.terminal, None, two.bounds);
    if two.stage.Redirect? then (m, refused.(outcome := Redirected))
    else if !two.stage.AuthorityApproved? || two.action.None? then (m, refused)
    else if two.scopePolicy.None? || two.authorityPolicy.None? then (m, refused)
    else if two.bounds.Some? && NeedsEnforcement(two.bounds.value) then (m, refused)
    else
      var t := ExecuteAuthorized(s.parts, m, two.context, two.action.value, u, selector);
      (t.machine,
       SliceThreeResult(if Succeeded(t.result) then ExecutedOk else FellBack, t.result.isTerminal, Some(t.result), two.bounds))
  }

  /** A processor's turn through the pipeline: slice three runs on an authority approval only. */
  function PipelineTurn(s: Setting, m: Machine, ctx: Context, i: Inputs): (Machine, Context) {
    var (m', two) := Decide(s, m, ctx, i);
    if !two.stage.AuthorityApproved? then (m', two.context)
    else
      var (m'', three) := SliceThree(s, m', two, i.understanding, i.selector);
      (m'', if three.execution.Some? then three.execution.value.context else two.context)
  }

  // ----- The object -----

  class BrainOrchestrator {
    const setting: Setting
    const engine: ConversationEngine

    ghost predicate Valid() { engine.Valid() && engine.parts == setting.parts }

    constructor (setting: Setting, engine: ConversationEngine)
      requires engine.Valid() && engine.parts == setting.parts
      ensures Valid() && this.setting == setting && this.engine == engine
    {
      this.setting, this.engine := setting, engine;
    }

    method ProcessTurn(ctx: Context, i: Inputs) returns (r: TurnResult)
      requires Valid()
      modifies engine.machine
      ensures (engine.machine.Now(), r) == Decide(setting, old(engine.machine.Now()), ctx, i)
    {
      var action := PriorityAction(i.priority);
      if action.Some? {
        var execution := engine.ExecuteApprovedAction(ctx, action.value);
        return Prioritized(execution);
      }
      var decision := Budget.Evaluate(i.budget, i.signals, setting.limits);
      if decision.EarlyExit? || decision.WindDown? {
        return Unrouted(PipelineStopped, ctx, false);
      }
      return SliceTwo(setting, ctx, i.reply);
    }

    method ExecuteSliceThree(two: TurnResult, u: Option<Understanding>, selector: SelectorReply) returns (r: SliceThreeResult)
      requires Valid()
      modifies engine.machine
      ensures (engine.machine.Now(), r) == SliceThree(setting, old(engine.machine.Now()), two, u, selector)
    {
      if two.stage.Redirect? {
        return SliceThreeResult(Redirected, two.terminal, None, two.bounds);
      }
      if !two.stage.AuthorityApproved? || two.action.None? {
        return SliceThreeResult(FellBack, two.terminal, None, two.bounds);
      }
      if two.scopePolicy.None? || two.authorityPolicy.None? {
        return SliceThreeResult(FellBack, two.terminal, None, two.bounds);
      }
      if two.bounds.Some? && NeedsEnforcement(two.bounds.value) {
        return SliceThreeResult(FellBack, two.terminal, None, two.bounds);
      }
      var execution := engine.ExecuteAuthorityApprovedAction(two.context, two.action.value, u, selector);
      return SliceThreeResult(if Succeeded(execution) then ExecutedOk else FellBack, execution.isTerminal, Some(execution),
                              two.bounds);
    }
  }

  // ----- The gates -----

  /** The tier of the proposal lets it run without a bound that something downstream would have to enforce. */
  predicate Unbounded(policy: AuthorityPolicy, request: Option<CommercialRequest>, tier: Tier) {
    || tier == AutoExecute
    || (tier == PolicyBounded
        && (request.None? || (request.value.kind != PricingDisclosure
                              && (request.value.kind == Discount ==> policy.discount.None?))))
  }

  /** Every gate but the last: priority, budget, form, scope. */
  predicate InScopeProposal(s: Setting, i: Inputs) {
    && i.priority.NoPriority? && Continues(BudgetDecision(s, i))
    && s.provider && s.snapshot && s.scope.Some? && s.authority.Some?
    && i.reply.Answers? && WellFormed(i.reply.raw)
    && var p := i.reply.raw;
    && ActionOf(p).Some?
    && p.topic.value != UnknownTopic && p.topic.value in s.scope.value.allowedTopics
    && p.topic.value !in s.scope.value.restrictedTopics
    && ActionOf(p).value in s.scope.value.allowedActions
  }

  function TierOf(s: Setting, p: RawProposal): Tier
    requires s.authority.Some? && WellFormed(p)
  {
    Classify(s.authority.value, ActionOf(p), RequestOf(p))
  }

  /** Everything a proposal has to pass to reach the engine. */
  predicate Passes(s: Setting, i: Inputs) {
    InScopeProposal(s, i) && Unbounded(s.authority.value, RequestOf(i.reply.raw), TierOf(s, i.reply.raw))
  }

  lemma UnboundedExactly(policy: AuthorityPolicy, request: Option<CommercialRequest>, tier: Tier)
    ensures Unbounded(policy, request, tier) <==>
      tier == AutoExecute || (tier == PolicyBounded && !NeedsEnforcement(EffectiveBounds(policy, request)))
  {
  }

  /** Which proposals are approved; an approval of the pipeline never lacks its action or its policies, so the
      refusals of such approvals are for results that came from elsewhere. */
  lemma ApprovedExactly(s: Setting, m: Machine, ctx: Context, i: Inputs)
    requires i.priority.NoPriority?
    ensures var two := Decide(s, m, ctx, i).1;
      && ((two.stage.AuthorityApproved? && !(two.bounds.Some? && NeedsEnforcement(two.bounds.value))) <==> Passes(s, i))
      && (two.stage.AuthorityApproved? ==>
            && two.action == ActionOf(i.reply.raw) && two.action.Some?
            && two.scopePolicy == Some(s.scope.value.id) && two.authorityPolicy == Some(s.authority.value.id))
  {
    if s.authority.Some? && i.reply.Answers? && WellFormed(i.reply.raw) {
      var request := RequestOf(i.reply.raw);
      UnboundedExactly(s.authority.value, request, Classify(s.authority.value, ActionOf(i.reply.raw), request));
    }
  }

  /** The gate theorem. Without a trusted priority, a turn is a call of the engine with the proposed action,
      on the context as it was, exactly when the proposal passes every gate; in every other case, for every
      provider output, malformed ones included, neither the machine nor the context changes. */
  lemma OnlyThroughTheGates(s: Setting, m: Machine, ctx: Context, i: Inputs)
    requires i.priority.NoPriority?
    ensures Passes(s, i) ==>
      var t := ExecuteAuthorized(s.parts, m, ctx, ActionOf(i.reply.raw).value, i.understanding, i.selector);
      PipelineTurn(s, m, ctx, i) == (t.machine, t.result.context)
    ensures !Passes(s, i) ==> PipelineTurn(s, m, ctx, i) == (m, ctx)
  {
    ApprovedExactly(s, m, ctx, i);
  }

  /** A discount or disclosure that is only POLICY_BOUNDED never executes, as long as the discount has a
      rule. Without a rule there is no bound to enforce, and a POLICY_BOUNDED default lets the discount
      through: the missing rule does not fail closed. */
  lemma BoundedCommerceExactly(s: Setting, i: Inputs)
    requires InScopeProposal(s, i) && TierOf(s, i.reply.raw) == PolicyBounded
    requires RequestOf(i.reply.raw).Some? && RequestOf(i.reply.raw).value.kind in {Discount, PricingDisclosure}
    ensures Passes(s, i) <==>
      && RequestOf(i.reply.raw).value.kind == Discount && s.authority.value.discount.None?
  {
  }

  /** A policy that bounds everything and has no discount rule, and a machine with one transition. */
  const LENIENT := Setting(
    Parts(Config(map[NewCall := Definition(map[AnswerQuestion := Rule(To(Listen), None, false)], false)], {}),
          (state, action, context) => Validation(true, "allowed"), None, None, None, None),
    true, true, Some(ScopePolicy("scope", {CommercialTopic}, {AnswerQuestion}, {})),
    Some(AuthorityPolicy("authority", PolicyBounded, map[], None, None, map[])), Some(Limits(5, 5, 60, 3)))

  /** A proposal to answer, with a discount of any size. */
  function DiscountProposal(percent: real): RawProposal {
    RawProposal(Typed("answer"), Typed("warm"), Typed(CommercialTopic), Some(Typed(AnswerQuestion)), Typed(false), Typed(false),
                Some(RawRequest(Typed(Discount), Some(Finite(percent)))), None, Typed([]), None, None, Finite(1.0))
  }

  /** It happens: with no discount rule, a discount of any percentage executes. */
  lemma DiscountWithoutRuleExecutes(ctx: Context, percent: real, selector: SelectorReply)
    requires percent >= 0.0
    ensures var reply := Answers(DiscountProposal(percent));
      var i := Inputs(NoPriority, Some(StateOf(LENIENT.limits.value, 0, 0)), NO_SIGNALS, reply, None, selector);
      && TierOf(LENIENT, reply.raw) == PolicyBounded && Passes(LENIENT, i)
      && PipelineTurn(LENIENT, Machine(NewCall, []), ctx, i).0 == Machine(Listen, [])
  {
    var reply := Answers(DiscountProposal(percent));
    var i := Inputs(NoPriority, Some(StateOf(LENIENT.limits.value, 0, 0)), NO_SIGNALS, reply, None, selector);
    BoundedCommerceExactly(LENIENT, i);
    OnlyThroughTheGates(LENIENT, Machine(NewCall, []), ctx, i);
  }

  /** A turn is charged to the reasoning budget only when priority and budget let the provider be asked. */
  lemma ChargedExactly(s: Setting, m: Machine, ctx: Context, i: Inputs)
    ensures Decide(s, m, ctx, i).1.providerNamed <==>
      && i.priority.NoPriority? && Continues(BudgetDecision(s, i))
      && s.provider && s.snapshot && s.scope.Some? && s.authority.Some?
  {
  }

  /** The engine calls a turn makes: at most one. */
  function EngineCalls(s: Setting, i: Inputs): seq<EngineProofs.Input> {
    if PriorityAction(i.priority).Some? then [EngineProofs.Approved(PriorityAction(i.priority).value)]
    else if Passes(s, i) then [EngineProofs.Authorized(ActionOf(i.reply.raw).value, i.understanding, i.selector)]
    else []
  }

  lemma OneCall(p: Parts, start: EngineProofs.Session, i: EngineProofs.Input)
    requires !i.Renewed?
    ensures var t := EngineProofs.Call(p, start, i);
      EngineProofs.After(p, start, [i]) == EngineProofs.Session(t.machine, t.result.context)
  {
    OneInput(EngineProofs.Step(p), start, i);
  }

  /** A turn of the pipeline is a run of the engine of at most one call, so everything proved of the
      engine's runs holds of the pipeline's. */
  lemma TurnIsAnEngineRun(s: Setting, m: Machine, ctx: Context, i: Inputs)
    ensures var after := EngineProofs.After(s.parts, EngineProofs.Session(m, ctx), EngineCalls(s, i));
      PipelineTurn(s, m, ctx, i) == (after.machine, after.context)
  {
    if i.priority.NoPriority? {
      OnlyThroughTheGates(s, m, ctx, i);
    }
    if EngineCalls(s, i) != [] {
      OneCall(s.parts, EngineProofs.Session(m, ctx), EngineCalls(s, i)[0]);
    }
  }
}
