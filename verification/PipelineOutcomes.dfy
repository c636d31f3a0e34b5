/** What the decision pipeline does with each turn: forces a priority, asks the provider, routes its answer,
    and lets through or holds back what is proposed. */
module PipelineOutcomes {
  import opened Wrappers
  import opened StateMachine
  import opened Contact
  import opened Catalog
  import opened Engine
  import opened EngineOutcomes
  import opened Budget
  import opened Policies
  import opened Orchestrator

  /** Under a trusted priority the pipeline stops with the forced action, tried by the engine as it is. */
  lemma PriorityDecides(s: Setting, m: Machine, ctx: Context, i: Inputs)
    requires !i.priority.NoPriority? && m.current !in s.parts.config.terminal
    ensures var ((m', two), forced) := (Decide(s, m, ctx, i), if i.priority.DncPriority? then MarkDnc else EndCall);
      && two.stage == PipelineStopped && !two.providerNamed && two.execution.Some?
      && two.context == two.execution.value.context && two.terminal == two.execution.value.isTerminal
      && Tries(s.parts, m, forced, ctx, Seen(ctx), OrchestratedPath, Turn(m', two.execution.value))
      && PipelineTurn(s, m, ctx, i) == (m', two.context)
    ensures var two := Decide(s, m, ctx, i).1;
      && (i.priority.DncPriority? && Goes(s.parts, m, MarkDnc, Seen(ctx)) ==>
            two.execution.value.approvedAction == Some(MarkDnc) && two.context.dncPending)
      && (i.priority.NotInterestedPriority? && Goes(s.parts, m, EndCall, Seen(ctx)) ==>
            two.execution.value.approvedAction == Some(EndCall) && two.context.dncPending == ctx.dncPending)
  {
    ApprovedActionTried(s.parts, m, ctx, PriorityAction(i.priority).value);
  }

  /** Nothing ends the call, some of each budget is left, and everything the provider needs is there. */
  predicate ProviderIsAsked(s: Setting, i: Inputs) {
    && i.priority.NoPriority? && i.signals == NO_SIGNALS
    && i.budget.Some? && s.limits.Some?
    && i.budget.value.reasoningCallsRemaining.Some? && i.budget.value.reasoningCallsRemaining.value > 0
    && i.budget.value.turnsRemaining.Some? && i.budget.value.turnsRemaining.value > 0
    && i.budget.value.secondsRemaining.Some? && i.budget.value.secondsRemaining.value > 0
    && s.provider && s.snapshot && s.scope.Some? && s.authority.Some?
  }

  /** The answer can be used: it is of the expected form and proposes an action. */
  predicate Usable(reply: ProviderReply) {
    reply.Answers? && WellFormed(reply.raw) && reply.raw.action.Some?
  }

  predicate Allowed(scope: ScopePolicy, action: AgentAction, topic: Topic) {
    topic !in scope.restrictedTopics && topic in scope.allowedTopics && action in scope.allowedActions
  }

  /** Where a turn without a priority goes. */
  lemma TurnsRouted(s: Setting, m: Machine, ctx: Context, i: Inputs)
    requires i.priority.NoPriority?
    ensures var (m', two) := Decide(s, m, ctx, i);
      && m' == m && two.context == ctx && two.execution.None? && !two.terminal
      && (two.providerNamed <==> ProviderIsAsked(s, i))
      && (two.stage == PipelineStopped <==> !Continues(BudgetDecision(s, i)))
    ensures ProviderIsAsked(s, i) && !Usable(i.reply) ==> Decide(s, m, ctx, i).1.stage == FallBack
    ensures ProviderIsAsked(s, i) && Usable(i.reply) ==>
      var p, scope, two := i.reply.raw, s.scope.value, Decide(s, m, ctx, i).1;
      var (action, topic) := (p.action.value.value, p.topic.value);
      && two.scopePolicy == Some(scope.id)
      && (topic == UnknownTopic ==> two.stage == FallBack)
      && (topic != UnknownTopic && !Allowed(scope, action, topic) ==> two.stage == Redirect)
      && (topic != UnknownTopic && Allowed(scope, action, topic) ==>
            && two.authorityPolicy == Some(s.authority.value.id)
            && (two.stage == Escalate <==> TierOf(s, p) == HumanApprovalRequired)
            && (two.stage == Redirect <==> TierOf(s, p) == Denied)
            && (two.stage == AuthorityApproved <==> TierOf(s, p) == AutoExecute || TierOf(s, p) == PolicyBounded)
            && (two.stage == AuthorityApproved ==>
                  two.action == Some(action) && (two.bounds.Some? <==> TierOf(s, p) == PolicyBounded)))
  {
    DecisionExactly(i.budget, i.signals, s.limits);
  }

  /** The bounds of an approval are the policy's own, and no others. */
  lemma BoundsAreThePolicys(s: Setting, m: Machine, ctx: Context, i: Inputs)
    requires i.priority.NoPriority? && Decide(s, m, ctx, i).1.bounds.Some?
    ensures var (bounds, policy, request) := (Decide(s, m, ctx, i).1.bounds.value, s.authority.value, RequestOf(i.reply.raw));
      && (bounds.maxDiscount.Some? <==> request.Some? && request.value.kind == Discount && policy.discount.Some?)
      && (bounds.maxDiscount.Some? ==> bounds.maxDiscount.value == policy.discount.value.maxPercent)
      && (bounds.disclosureAllowed.Some? <==> request.Some? && request.value.kind == PricingDisclosure)
      && (bounds.disclosureAllowed.Some? ==>
            bounds.disclosureAllowed.value == (policy.disclosure.Some? && policy.disclosure.value.allowed))
  {
  }

  predicate Missing<T>(x: Untrusted<T>) { x == Mistyped }

  predicate MissingInside<T>(x: Option<Untrusted<T>>) { x.Some? && x.value == Mistyped }

  /** Something about the answer is not of the form that was asked for. */
  predicate Malformed(p: RawProposal) {
    || p == NotAProposal
    || Missing(p.intent) || Missing(p.tone) || Missing(p.topic) || MissingInside(p.action)
    || Missing(p.needsService) || Missing(p.involvesContact)
    || MissingInside(p.contact) || MissingInside(p.goal) || MissingInside(p.reasoning)
    || Missing(p.updates) || (exists i | 0 <= i < |p.updates.value| :: Missing(p.updates.value[i]))
    || (p.commercial.Some? && p.commercial.value == NotARequest)
    || (p.commercial.Some? && Missing(p.commercial.value.kind))
    || (p.commercial.Some? && p.commercial.value.percent.Some?
        && (!p.commercial.value.percent.value.Finite? || p.commercial.value.percent.value.value < 0.0))
    || !p.confidence.Finite? || p.confidence.value < 0.0 || p.confidence.value > 1.0
  }

  /** Of an answer every field is checked, and nothing comes of one that fails. */
  lemma MalformedStopped(s: Setting, m: Machine, ctx: Context, i: Inputs)
    requires i.priority.NoPriority? && i.reply.Answers?
    ensures WellFormed(i.reply.raw) <==> !Malformed(i.reply.raw)
    ensures Malformed(i.reply.raw) ==> PipelineTurn(s, m, ctx, i) == (m, ctx)
  {
    OnlyThroughTheGates(s, m, ctx, i);
  }

  // ----- Discounts at the gates -----

  /** The answer asks for a discount of this many percent. */
  predicate AsksDiscount(reply: ProviderReply, percent: real) {
    Usable(reply) && reply.raw.commercial == Some(RawRequest(Typed(Discount), Some(Finite(percent))))
  }

  /** Over the maximum, a discount that a human has to approve, or that is denied, never reaches the engine. */
  lemma DiscountOverMaximumStopped(s: Setting, m: Machine, ctx: Context, i: Inputs, percent: real)
    requires i.priority.NoPriority? && AsksDiscount(i.reply, percent)
    requires s.authority.Some? && s.authority.value.discount.Some?
    requires percent > s.authority.value.discount.value.maxPercent
    requires s.authority.value.discount.value.over in {HumanApprovalRequired, Denied}
    ensures PipelineTurn(s, m, ctx, i) == (m, ctx) && !Decide(s, m, ctx, i).1.stage.AuthorityApproved?
  {
    OnlyThroughTheGates(s, m, ctx, i);
  }

  /** Within the maximum, a discount that needs no approval, with an action that needs none, is the engine's
      call. */
  lemma DiscountWithinExecutes(s: Setting, m: Machine, ctx: Context, i: Inputs, percent: real)
    requires ProviderIsAsked(s, i) && AsksDiscount(i.reply, percent) && s.authority.value.discount.Some?
    requires percent <= s.authority.value.discount.value.maxPercent && s.authority.value.discount.value.within == AutoExecute
    requires var (action, topic) := (i.reply.raw.action.value.value, i.reply.raw.topic.value);
      && topic != UnknownTopic && Allowed(s.scope.value, action, topic)
      && action in s.authority.value.actionTiers && s.authority.value.actionTiers[action] == AutoExecute
    ensures var t := ExecuteAuthorized(s.parts, m, ctx, i.reply.raw.action.value.value, i.understanding, i.selector);
      PipelineTurn(s, m, ctx, i) == (t.machine, t.result.context)
  {
    DecisionExactly(i.budget, i.signals, s.limits);
    OnlyThroughTheGates(s, m, ctx, i);
  }

  /** What a well-formed answer asks for is what it says. */
  lemma AnswerRead(p: RawProposal)
    requires WellFormed(p)
    ensures (ActionOf(p).None? <==> p.action.None?) && (p.action.Some? ==> p.action.value == Typed(ActionOf(p).value))
    ensures RequestOf(p).None? <==> p.commercial.None?
    ensures p.commercial.Some? ==>
      var (raw, request) := (p.commercial.value, RequestOf(p).value);
      && raw.kind == Typed(request.kind) && (raw.percent.None? <==> request.discountPercent.None?)
      && (raw.percent.Some? ==> raw.percent.value == Finite(request.discountPercent.value))
  {
  }

  // ----- After an approval -----

  /** Only an approval with its action, both policies and no bound to enforce is executed. */
  predicate Executable(two: TurnResult) {
    && two.stage == AuthorityApproved && two.action.Some? && two.scopePolicy.Some? && two.authorityPolicy.Some?
    && (two.bounds.Some? ==> two.bounds.value.maxDiscount.None? && two.bounds.value.disclosureAllowed.None?)
  }

  /** Execution by the engine, on the context of the approval; in every other case nothing happens, and a
      redirect stays one. It counts as executed when the engine executed the action it was given. */
  lemma ApprovalsExecuted(s: Setting, m: Machine, two: TurnResult, u: Option<Understanding>, selector: SelectorReply)
    ensures var (m', three) := SliceThree(s, m, two, u, selector);
      && three.bounds == two.bounds
      && (!Executable(two) ==>
            && m' == m && three.execution.None? && three.terminal == two.terminal
            && three.outcome == if two.stage == Redirect then Redirected else FellBack)
      && (Executable(two) ==>
            var t := ExecuteAuthorized(s.parts, m, two.context, two.action.value, u, selector);
            && m' == t.machine && three.execution == Some(t.result) && three.terminal == t.result.isTerminal
            && (three.outcome == ExecutedOk <==>
                  && t.result.executionRequired && t.result.approvedAction.Some? && !t.result.fallbackUsed
                  && t.result.validation.Some? && t.result.validation.value.allowed)
            && (three.outcome == ExecutedOk || three.outcome == FellBack))
  {
  }
}
