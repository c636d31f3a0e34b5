/** The scope and authority policies of the decision pipeline (app/brain/scope, app/brain/authority). */
module Policies {
  import opened Wrappers
  import opened StateMachine

  datatype Topic =
    | BusinessQuestion | ServiceDiscussion | Objection | CallbackTopic | ContactCollection | CommercialTopic
    | QualificationTopic | OffTopic | UnknownTopic

  datatype CommercialKind =
    | PricingDisclosure | Discount | CustomPricing | Quotation | ScopeChange | Guarantee | ContractualCommitment

  datatype CommercialRequest = CommercialRequest(kind: CommercialKind, discountPercent: Option<real>)

  // ----- Scope -----

  datatype ScopePolicy = ScopePolicy(
    id: string,
    allowedTopics: set<Topic>,
    allowedActions: set<AgentAction>,
    restrictedTopics: set<Topic>)

  datatype ScopeCategory = InScope | OutOfScope | UnknownScope

  function CheckScope(policy: ScopePolicy, action: Option<AgentAction>, topic: Topic): ScopeCategory {
    if topic == UnknownTopic then UnknownScope
    else if topic in policy.restrictedTopics then OutOfScope
    else if action.Some? && action.value !in policy.allowedActions then OutOfScope
    else if topic !in policy.allowedTopics then OutOfScope
    else InScope
  }

  // ----- Authority -----

  datatype Tier = AutoExecute | PolicyBounded | HumanApprovalRequired | Denied

  function Restrictiveness(t: Tier): nat {
    match t
    case AutoExecute => 0
    case PolicyBounded => 1
    case HumanApprovalRequired => 2
    case Denied => 3
  }

  function MoreRestrictive(a: Tier, b: Tier): Tier {
    if Restrictiveness(a) >= Restrictiveness(b) then a else b
  }

  datatype DiscountRule = DiscountRule(maxPercent: real, within: Tier, over: Tier)

  datatype DisclosureRule = DisclosureRule(allowed: bool, tier: Tier)

  /** As loaded: the default tier is never AUTO_EXECUTE. */
  datatype AuthorityPolicy = AuthorityPolicy(
    id: string,
    defaultTier: Tier,
    actionTiers: map<AgentAction, Tier>,
    discount: Option<DiscountRule>,
    disclosure: Option<DisclosureRule>,
    commercialTiers: map<CommercialKind, Tier>)

  function ActionTier(policy: AuthorityPolicy, action: Option<AgentAction>): Tier {
    if action.Some? && action.value in policy.actionTiers then policy.actionTiers[action.value] else policy.defaultTier
  }

  function CommercialTier(policy: AuthorityPolicy, r: CommercialRequest): Tier {
    match r.kind
    case Discount =>
      if policy.discount.None? || r.discountPercent.None? then policy.defaultTier
      else if r.discountPercent.value <= policy.discount.value.maxPercent then policy.discount.value.within
      else policy.discount.value.over
    case PricingDisclosure =>
      if policy.disclosure.None? || !policy.disclosure.value.allowed then policy.defaultTier
      else policy.disclosure.value.tier
    case kind =>
      if kind in policy.commercialTiers then policy.commercialTiers[kind] else policy.defaultTier
  }

  function Classify(policy: AuthorityPolicy, action: Option<AgentAction>, request: Option<CommercialRequest>): Tier {
    if request.None? then ActionTier(policy, action)
    else MoreRestrictive(ActionTier(policy, action), CommercialTier(policy, request.value))
  }

  /** `t` is as strict as `u`. */
  predicate AsStrict(t: Tier, u: Tier) {
    match u
    case AutoExecute => true
    case PolicyBounded => t != AutoExecute
    case HumanApprovalRequired => t == HumanApprovalRequired || t == Denied
    case Denied => t == Denied
  }

  /** The stricter of the two. */
  predicate StricterOf(t: Tier, a: Tier, b: Tier) { (t == a || t == b) && AsStrict(t, a) && AsStrict(t, b) }

  /** The combined tier is the least one at or above both: a commercial request never loosens the action's
      tier, an action never loosens the request's, and neither tightens what the other already demands. */
  lemma ClassifyIsLeastUpperBound(policy: AuthorityPolicy, action: Option<AgentAction>, request: CommercialRequest)
    ensures var tier := Classify(policy, action, Some(request));
      && AsStrict(tier, Classify(policy, action, None)) && AsStrict(tier, CommercialTier(policy, request))
      && forall t: Tier :: AsStrict(t, Classify(policy, action, None)) && AsStrict(t, CommercialTier(policy, request))
                           ==> AsStrict(t, tier)
  {
  }

  /** What the policy says of an action on its own. */
  predicate ActionDemands(policy: AuthorityPolicy, action: Option<AgentAction>, t: Tier) {
    && (action.Some? && action.value in policy.actionTiers ==> t == policy.actionTiers[action.value])
    && (action.None? || action.value !in policy.actionTiers ==> t == policy.defaultTier)
  }

  /** What the policy says of a commercial request: over the maximum, a discount is of the tier beyond it; at
      or under it, of the tier within; what has no rule, no number or no permission is of the default tier. */
  predicate RequestDemands(policy: AuthorityPolicy, r: CommercialRequest, t: Tier) {
    if r.kind == Discount then
      && (policy.discount.None? || r.discountPercent.None? ==> t == policy.defaultTier)
      && (policy.discount.Some? && r.discountPercent.Some? ==>
            && (r.discountPercent.value > policy.discount.value.maxPercent ==> t == policy.discount.value.over)
            && (r.discountPercent.value <= policy.discount.value.maxPercent ==> t == policy.discount.value.within))
    else if r.kind == PricingDisclosure then
      if policy.disclosure.Some? && policy.disclosure.value.allowed then t == policy.disclosure.value.tier
      else t == policy.defaultTier
    else if r.kind in policy.commercialTiers then t == policy.commercialTiers[r.kind]
    else t == policy.defaultTier
  }

  /** The tier of a proposal is the stricter of what the policy says of its action and of its request. */
  lemma TierExactly(policy: AuthorityPolicy, action: Option<AgentAction>, request: Option<CommercialRequest>, a: Tier, c: Tier)
    requires ActionDemands(policy, action, a) && (request.Some? ==> RequestDemands(policy, request.value, c))
    ensures request.None? ==> Classify(policy, action, request) == a
    ensures request.Some? ==> StricterOf(Classify(policy, action, request), a, c)
  {
  }

  // ----- Bounds -----

  datatype Bounds = Bounds(maxDiscount: Option<real>, disclosureAllowed: Option<bool>)

  /** A bound that nothing downstream can enforce. */
  predicate NeedsEnforcement(b: Bounds) { b.maxDiscount.Some? || b.disclosureAllowed.Some? }

  function EffectiveBounds(policy: AuthorityPolicy, request: Option<CommercialRequest>): Bounds {
    if request.Some? && request.value.kind == Discount then
      Bounds(if policy.discount.Some? then Some(policy.discount.value.maxPercent) else None, None)
    else if request.Some? && request.value.kind == PricingDisclosure then
      Bounds(None, Some(policy.disclosure.Some? && policy.disclosure.value.allowed))
    else Bounds(None, None)
  }
}
