/** The conversation engine (app/conversation/engine.py): it validates one action, drives the state machine
    by at most one transition, and reports. The functions are the specification; class
    `ConversationEngine` is the object, proved to do exactly that to its machine. */
module Engine {
  import opened Wrappers
  import opened StateMachine
  import opened Contact
  import opened Catalog

  datatype Context = Context(
    callId: string,
    campaignId: Option<string>,
    currentContactId: Option<string>,
    candidate: Option<string>,
    candidateChannel: Option<Channel>,
    candidateProvenance: Option<Provenance>,
    contactConfirmed: bool,
    callback: Option<string>,
    previousConversation: bool,
    dncPending: bool,
    interestPreserved: bool,
    callNumber: Option<string>,
    businessPhone: Option<string>,
    businessEmail: Option<string>,
    knownSignals: set<string>,
    eligibleIds: seq<string>,
    offeredIds: seq<string>,
    offersMade: int,
    clarification: Option<ClarificationState>)

  datatype ValidatorContext = ValidatorContext(
    candidate: Option<string>,
    contactConfirmed: bool,
    callback: Option<string>,
    previousConversation: bool,
    dncPending: bool,
    hasAlternative: bool)

  function ToValidator(c: Context): ValidatorContext {
    ValidatorContext(c.candidate, c.contactConfirmed, c.callback, c.previousConversation, c.dncPending, c.eligibleIds != [])
  }

  datatype Validation = Validation(allowed: bool, category: string)

  datatype FallbackDecision = FallbackDecision(action: AgentAction, responseKey: string)

  datatype Fallback = Fallback(
    select: (ConversationState, Validation, ValidatorContext) -> FallbackDecision,
    selectForState: ConversationState -> FallbackDecision)

  /** The components an engine is built from; the action validator and the fallback are whatever they are. */
  datatype Parts = Parts(
    config: Config,
    validate: (ConversationState, AgentAction, ValidatorContext) -> Validation,
    fallback: Option<Fallback>,
    clarification: Option<Channel -> Attempts>,
    resolver: Option<Canon>,
    offering: Option<Offering>)

  datatype Path = TerminalPath | PriorityPath | NormalPath | FallbackPathLabel | OrchestratedPath | SliceThreePath
                | SpecializedPath | OfferLabel | ContactLabel

  datatype PendingContactMethod = PendingContactMethod(contactId: string, channel: Channel, value: string, provenance: Provenance)

  datatype Result = Result(
    currentState: ConversationState,
    nextState: ConversationState,
    isTerminal: bool,
    continues: bool,
    executionRequired: bool,
    context: Context,
    path: Path,
    approvedAction: Option<AgentAction>,
    outcome: Option<string>,
    responseKey: Option<string>,
    validation: Option<Validation>,
    originalValidation: Option<Validation>,
    fallbackUsed: bool,
    fallbackFailed: bool,
    clarification: Option<ClarificationDecision>,
    toPersist: Option<PendingContactMethod>,
    selection: Option<Selection>)

  /** What the result's constructor checks. */
  predicate Constructible(config: Config, r: Result) {
    && r.isTerminal != r.continues
    && (config.terminal != {} ==> (r.nextState in config.terminal) == r.isTerminal)
  }

  function TerminalResult(m: Machine, ctx: Context): Result {
    Result(m.current, m.current, true, false, false, ctx, TerminalPath, None, None, None, None, None, false, false, None, None, None)
  }

  function Rejected(m: Machine, ctx: Context, v: Validation, path: Path): Result {
    Result(m.current, m.current, false, true, false, ctx, path, None, None, None, Some(v), None, false, false, None, None, None)
  }

  function Executed(config: Config, t: ApprovedTransition, m: Machine, ctx: Context, v: Validation, path: Path): Result {
    Result(t.fromState, t.toState, Terminal(config, m), !Terminal(config, m), true, ctx, path, Some(t.action), t.outcome, None,
           Some(v), None, false, false, None, None, None)
  }

  function FallbackFailed(config: Config, m: Machine, ctx: Context, original: Option<Validation>, v: Validation,
                          d: FallbackDecision, clarification: Option<ClarificationDecision>): Result
  {
    Result(m.current, m.current, Terminal(config, m), !Terminal(config, m), false, ctx, FallbackPathLabel, None, None,
           Some(d.responseKey), Some(v), original, true, true, clarification, None, None)
  }

  /** The context updates that come from the transition itself. */
  function AfterTransition(ctx: Context, t: ApprovedTransition): Context {
    ctx.(interestPreserved := ctx.interestPreserved || t.preservedInterest,
         dncPending := ctx.dncPending || t.action == MarkDnc)
  }

  datatype Turn = Turn(machine: Machine, result: Result)

  function FallbackPath(p: Parts, m: Machine, ctx: Context, original: Option<Validation>, vctx: ValidatorContext,
                        d: FallbackDecision, clarification: Option<ClarificationDecision>): Turn
  {
    var v := p.validate(m.current, d.action, vctx);
    var failed := Turn(m, FallbackFailed(p.config, m, ctx, original, v, d, clarification));
    if !v.allowed then failed
    else
      match Apply(p.config, m, d.action)
      case None => failed
      case Some((m', t)) =>
        Turn(m', Executed(p.config, t, m', AfterTransition(ctx, t), v, FallbackPathLabel)
                 .(responseKey := Some(d.responseKey), originalValidation := original, fallbackUsed := true,
                   clarification := clarification))
  }

  function ValidateAndApply(p: Parts, m: Machine, ctx: Context, action: AgentAction, vctx: ValidatorContext, path: Path): Turn {
    var v := p.validate(m.current, action, vctx);
    if !v.allowed then
      match p.fallback
      case None => Turn(m, Rejected(m, ctx, v, path))
      case Some(f) => FallbackPath(p, m, ctx, Some(v), vctx, f.select(m.current, v, vctx), None)
    else
      match Apply(p.config, m, action)
      case None => Turn(m, Rejected(m, ctx, v, path))
      case Some((m', t)) => Turn(m', Executed(p.config, t, m', AfterTransition(ctx, t), v, path))
  }

  /** Recovery where there is no rejection to recover from: the fallback is chosen by the state alone. */
  function Recover(p: Parts, m: Machine, ctx: Context, action: AgentAction, vctx: ValidatorContext, path: Path,
                   clarification: Option<ClarificationDecision>): Turn
  {
    match p.fallback
    case None => Turn(m, Rejected(m, ctx, p.validate(m.current, action, vctx), path))
    case Some(f) => FallbackPath(p, m, ctx, None, vctx, f.selectForState(m.current), clarification)
  }

  /** The context after a successful offer. */
  function CommittedOffer(ctx: Context, offer: OfferResult): Context
    requires offer.selection.Approved?
  {
    ctx.(eligibleIds := offer.eligible,
         offeredIds := ctx.offeredIds + [offer.selection.id],
         offersMade := ctx.offersMade + 1)
  }

  function OfferPath(p: Parts, o: Offering, m: Machine, ctx: Context, vctx: ValidatorContext, reply: SelectorReply): Turn {
    var offer := Offer(o, ctx.knownSignals, ctx.offeredIds, ctx.offersMade, reply);
    if !offer.selection.Approved? then Recover(p, m, ctx, OfferService, vctx, OfferLabel, None)
    else
      var v := p.validate(m.current, OfferService, vctx.(hasAlternative := true));
      if !v.allowed then Turn(m, Rejected(m, ctx, v, OfferLabel))
      else
        match Apply(p.config, m, OfferService)
        case None => Turn(m, Rejected(m, ctx, v, OfferLabel))
        case Some((m', t)) =>
          Turn(m', Executed(p.config, t, m', CommittedOffer(ctx, offer), v, OfferLabel)
                   .(selection := Some(offer.selection)))
  }

  predicate ContactState(s: ConversationState) { s.CollectEmail? || s.ConfirmContactState? }

  predicate HandlesContact(p: Parts, s: ConversationState, u: Option<Understanding>) {
    p.resolver.Some? && p.clarification.Some? && u.Some? && ContactState(s)
  }

  predicate ReadyToConfirm(ctx: Context) {
    && ctx.candidate.Some? && !Blank(ctx.candidate.value)
    && ctx.candidateChannel.Some? && ctx.candidateProvenance.Some?
    && ctx.currentContactId.Some? && ctx.currentContactId.value != ""
  }

  function HandleConfirmation(p: Parts, m: Machine, ctx: Context, vctx: ValidatorContext): Turn {
    if !ReadyToConfirm(ctx) then Turn(m, Rejected(m, ctx, p.validate(m.current, ConfirmContact, vctx), ContactLabel))
    else
      var v := p.validate(m.current, ConfirmContact, vctx.(contactConfirmed := true));
      if !v.allowed then Turn(m, Rejected(m, ctx, v, ContactLabel))
      else
        match Apply(p.config, m, ConfirmContact)
        case None => Turn(m, Rejected(m, ctx, v, ContactLabel))
        case Some((m', t)) =>
          var pending := PendingContactMethod(ctx.currentContactId.value, ctx.candidateChannel.value, ctx.candidate.value,
                                              ctx.candidateProvenance.value);
          Turn(m', Executed(p.config, t, m', ctx.(contactConfirmed := true), v, ContactLabel).(toPersist := Some(pending)))
  }

  function RunClarification(p: Parts, limits: Channel -> Attempts, m: Machine, ctx: Context, channel: Channel, clear: bool,
                            vctx: ValidatorContext): Turn
  {
    var d := Evaluate(SessionFor(limits, ctx.clarification, channel), clear);
    var ctx' := ctx.(clarification := Some(d.newState));
    if d.action.None? then Recover(p, m, ctx', ClarifyContact, vctx, ContactLabel, Some(d))
    else
      var v := p.validate(m.current, d.action.value, vctx);
      if !v.allowed then
        match p.fallback
        case None => Turn(m, Rejected(m, ctx', v, ContactLabel))
        case Some(f) => FallbackPath(p, m, ctx', Some(v), vctx, f.select(m.current, v, vctx), Some(d))
      else
        match Apply(p.config, m, d.action.value)
        case None => Turn(m, Rejected(m, ctx', v, ContactLabel))
        case Some((m', t)) =>
          Turn(m', Executed(p.config, t, m', ctx', v, ContactLabel)
                   .(responseKey := d.responseKey, clarification := Some(d)))
  }

  function TrustedValues(ctx: Context): Trusted { Trusted(ctx.callNumber, ctx.businessPhone, ctx.businessEmail, None) }

  /** A resolved candidate replaces value, channel and provenance together. */
  function WithCandidate(ctx: Context, r: Resolution): Context {
    if r.Resolved? && r.value != "" then
      ctx.(candidate := Some(r.value), candidateChannel := Some(r.channel), candidateProvenance := Some(r.provenance))
    else ctx
  }

  function ContactPath(p: Parts, canon: Canon, limits: Channel -> Attempts, m: Machine, ctx: Context, u: Understanding,
                       vctx: ValidatorContext): Turn
  {
    if m.current.ConfirmContactState? && u.intent.ConfirmIt? then HandleConfirmation(p, m, ctx, vctx)
    else
      var r := Resolve(canon, u, TrustedValues(ctx));
      if r.UnsupportedReference? then Recover(p, m, ctx, ClarifyContact, vctx, ContactLabel, None)
      else
        RunClarification(p, limits, m, WithCandidate(ctx, r), u.channel, r.Resolved?,
                         if r.Resolved? && r.value != "" then vctx.(candidate := Some(r.value)) else vctx)
  }

  datatype Priority = NoPriority | DncPriority | NotInterestedPriority

  function PriorityAction(priority: Priority): Option<AgentAction> {
    match priority
    case NoPriority => None
    case DncPriority => Some(MarkDnc)
    case NotInterestedPriority => Some(EndCall)
  }

  // ----- Entry points -----

  function ExecuteApproved(p: Parts, m: Machine, ctx: Context, action: AgentAction): Turn {
    if Terminal(p.config, m) then Turn(m, TerminalResult(m, ctx))
    else ValidateAndApply(p, m, ctx, action, ToValidator(ctx), OrchestratedPath)
  }

  const UNAVAILABLE := Validation(false, "missing_prerequisite")

  predicate ContactAction(a: AgentAction) { a.AskEmail? || a.ConfirmContact? || a.ClarifyContact? }

  function ExecuteAuthorized(p: Parts, m: Machine, ctx: Context, action: AgentAction, u: Option<Understanding>,
                             reply: SelectorReply): Turn
  {
    if Terminal(p.config, m) then Turn(m, TerminalResult(m, ctx))
    else if action == OfferService then
      if p.offering.None? then Turn(m, Rejected(m, ctx, UNAVAILABLE, SpecializedPath))
      else OfferPath(p, p.offering.value, m, ctx, ToValidator(ctx), reply)
    else if ContactAction(action) && ContactState(m.current) then
      if !HandlesContact(p, m.current, u) then Turn(m, Rejected(m, ctx, UNAVAILABLE, SpecializedPath))
      else ContactPath(p, p.resolver.value, p.clarification.value, m, ctx, u.value, ToValidator(ctx))
    else ValidateAndApply(p, m, ctx, action, ToValidator(ctx), SliceThreePath)
  }

  function ProcessTurn(p: Parts, m: Machine, ctx: Context, proposed: AgentAction, u: Option<Understanding>,
                       priority: Priority, reply: SelectorReply): Turn
  {
    if Terminal(p.config, m) then Turn(m, TerminalResult(m, ctx))
    else
      var vctx := ToValidator(ctx);
      match PriorityAction(priority)
      case Some(action) => ValidateAndApply(p, m, ctx, action, vctx, PriorityPath)
      case None =>
        if HandlesContact(p, m.current, u) then
          ContactPath(p, p.resolver.value, p.clarification.value, m, ctx, u.value, vctx)
        else if proposed == OfferService && p.offering.Some? then OfferPath(p, p.offering.value, m, ctx, vctx, reply)
        else ValidateAndApply(p, m, ctx, proposed, vctx, NormalPath)
  }

  // ----- The object -----

  class ConversationEngine {
    const parts: Parts
    const machine: ConversationStateMachine

    ghost predicate Valid() { machine.config == parts.config }

    constructor (parts: Parts, machine: ConversationStateMachine)
      requires machine.config == parts.config
      ensures Valid() && this.parts == parts && this.machine == machine
    {
      this.parts, this.machine := parts, machine;
    }

    method TryFallback(ctx: Context, original: Option<Validation>, vctx: ValidatorContext, d: FallbackDecision,
                       clarification: Option<ClarificationDecision>) returns (r: Result)
      requires Valid()
      modifies machine
      ensures Turn(machine.Now(), r) == FallbackPath(parts, old(machine.Now()), ctx, original, vctx, d, clarification)
    {
      var state := machine.currentState;
      var v := parts.validate(state, d.action, vctx);
      var m := Machine(machine.currentState, machine.stateStack);
      if v.allowed {
        var t := machine.ApplyTransition(d.action);
        if t.Some? {
          r := Executed(parts.config, t.value, Machine(machine.currentState, machine.stateStack),
                        AfterTransition(ctx, t.value), v, FallbackPathLabel);
          return r.(responseKey := Some(d.responseKey), originalValidation := original, fallbackUsed := true,
                    clarification := clarification);
        }
      }
      return FallbackFailed(parts.config, m, ctx, original, v, d, clarification);
    }

    method ValidateThenApply(ctx: Context, action: AgentAction, vctx: ValidatorContext, path: Path) returns (r: Result)
      requires Valid()
      modifies machine
      ensures Turn(machine.Now(), r) == ValidateAndApply(parts, old(machine.Now()), ctx, action, vctx, path)
    {
      var m := Machine(machine.currentState, machine.stateStack);
      var v := parts.validate(machine.currentState, action, vctx);
      if !v.allowed {
        if parts.fallback.None? {
          return Rejected(m, ctx, v, path);
        }
        var d := parts.fallback.value.select(machine.currentState, v, vctx);
        r := TryFallback(ctx, Some(v), vctx, d, None);
        return;
      }
      var t := machine.ApplyTransition(action);
      if t.None? {
        return Rejected(m, ctx, v, path);
      }
      return Executed(parts.config, t.value, Machine(machine.currentState, machine.stateStack),
                      AfterTransition(ctx, t.value), v, path);
    }

    method RecoverByState(ctx: Context, action: AgentAction, vctx: ValidatorContext, path: Path,
                          clarification: Option<ClarificationDecision>) returns (r: Result)
      requires Valid()
      modifies machine
      ensures Turn(machine.Now(), r) == Recover(parts, old(machine.Now()), ctx, action, vctx, path, clarification)
    {
      if parts.fallback.None? {
        var v := parts.validate(machine.currentState, action, vctx);
        return Rejected(Machine(machine.currentState, machine.stateStack), ctx, v, path);
      }
      r := TryFallback(ctx, None, vctx, parts.fallback.value.selectForState(machine.currentState), clarification);
    }

    method MakeOffer(ctx: Context, vctx: ValidatorContext, reply: SelectorReply) returns (r: Result)
      requires Valid() && parts.offering.Some?
      modifies machine
      ensures Turn(machine.Now(), r) == OfferPath(parts, parts.offering.value, old(machine.Now()), ctx, vctx, reply)
    {
      var m := Machine(machine.currentState, machine.stateStack);
      var offer := Offer(parts.offering.value, ctx.knownSignals, ctx.offeredIds, ctx.offersMade, reply);
      if !offer.selection.Approved? {
        r := RecoverByState(ctx, OfferService, vctx, OfferLabel, None);
        return;
      }
      var v := parts.validate(machine.currentState, OfferService, vctx.(hasAlternative := true));
      if !v.allowed {
        return Rejected(m, ctx, v, OfferLabel);
      }
      var t := machine.ApplyTransition(OfferService);
      if t.None? {
        return Rejected(m, ctx, v, OfferLabel);
      }
      r := Executed(parts.config, t.value, Machine(machine.currentState, machine.stateStack),
                    CommittedOffer(ctx, offer), v, OfferLabel);
      return r.(selection := Some(offer.selection));
    }

    method ConfirmCandidate(ctx: Context, vctx: ValidatorContext) returns (r: Result)
      requires Valid()
      modifies machine
      ensures Turn(machine.Now(), r) == HandleConfirmation(parts, old(machine.Now()), ctx, vctx)
    {
      var m := Machine(machine.currentState, machine.stateStack);
      if !ReadyToConfirm(ctx) {
        return Rejected(m, ctx, parts.validate(machine.currentState, ConfirmContact, vctx), ContactLabel);
      }
      var v := parts.validate(machine.currentState, ConfirmContact, vctx.(contactConfirmed := true));
      if !v.allowed {
        return Rejected(m, ctx, v, ContactLabel);
      }
      var t := machine.ApplyTransition(ConfirmContact);
      if t.None? {
        return Rejected(m, ctx, v, ContactLabel);
      }
      var pending := PendingContactMethod(ctx.currentContactId.value, ctx.candidateChannel.value, ctx.candidate.value,
                                          ctx.candidateProvenance.value);
      r := Executed(parts.config, t.value, Machine(machine.currentState, machine.stateStack),
                    ctx.(contactConfirmed := true), v, ContactLabel);
      return r.(toPersist := Some(pending));
    }

    method Clarify(ctx: Context, channel: Channel, clear: bool, vctx: ValidatorContext) returns (r: Result)
      requires Valid() && parts.clarification.Some?
      modifies machine
      ensures Turn(machine.Now(), r)
           == RunClarification(parts, parts.clarification.value, old(machine.Now()), ctx, channel, clear, vctx)
    {
      var m := Machine(machine.currentState, machine.stateStack);
      var d := Evaluate(SessionFor(parts.clarification.value, ctx.clarification, channel), clear);
      var ctx' := ctx.(clarification := Some(d.newState));
      if d.outcome.Exhausted? {
        r := RecoverByState(ctx', ClarifyContact, vctx, ContactLabel, Some(d));
        return;
      }
      var v := parts.validate(machine.currentState, d.action.value, vctx);
      if !v.allowed {
        if parts.fallback.None? {
          return Rejected(m, ctx', v, ContactLabel);
        }
        r := TryFallback(ctx', Some(v), vctx, parts.fallback.value.select(machine.currentState, v, vctx), Some(d));
        return;
      }
      var t := machine.ApplyTransition(d.action.value);
      if t.None? {
        return Rejected(m, ctx', v, ContactLabel);
      }
      r := Executed(parts.config, t.value, Machine(machine.currentState, machine.stateStack), ctx', v, ContactLabel);
      return r.(responseKey := d.responseKey, clarification := Some(d));
    }

    method HandleContact(ctx: Context, u: Understanding, vctx: ValidatorContext) returns (r: Result)
      requires Valid() && parts.clarification.Some? && parts.resolver.Some?
      modifies machine
      ensures Turn(machine.Now(), r)
           == ContactPath(parts, parts.resolver.value, parts.clarification.value, old(machine.Now()), ctx, u, vctx)
    {
      if machine.currentState.ConfirmContactState? && u.intent.ConfirmIt? {
        r := ConfirmCandidate(ctx, vctx);
        return;
      }
      var resolution := Resolve(parts.resolver.value, u, TrustedValues(ctx));
      if resolution.UnsupportedReference? {
        r := RecoverByState(ctx, ClarifyContact, vctx, ContactLabel, None);
        return;
      }
      var ctx', vctx' := ctx, vctx;
      if resolution.Resolved? && resolution.value != "" {
        ctx' := ctx.(candidate := Some(resolution.value), candidateChannel := Some(resolution.channel),
                     candidateProvenance := Some(resolution.provenance));
        vctx' := vctx.(candidate := Some(resolution.value));
      }
      r := Clarify(ctx', u.channel, resolution.Resolved?, vctx');
    }

    method ExecuteApprovedAction(ctx: Context, action: AgentAction) returns (r: Result)
      requires Valid()
      modifies machine
      ensures Turn(machine.Now(), r) == ExecuteApproved(parts, old(machine.Now()), ctx, action)
    {
      if machine.IsTerminal() {
        return TerminalResult(Machine(machine.currentState, machine.stateStack), ctx);
      }
      r := ValidateThenApply(ctx, action, ToValidator(ctx), OrchestratedPath);
    }

    method ExecuteAuthorityApprovedAction(ctx: Context, action: AgentAction, u: Option<Understanding>, reply: SelectorReply)
      returns (r: Result)
      requires Valid()
      modifies machine
      ensures Turn(machine.Now(), r) == ExecuteAuthorized(parts, old(machine.Now()), ctx, action, u, reply)
    {
      var m := Machine(machine.currentState, machine.stateStack);
      if machine.IsTerminal() {
        return TerminalResult(m, ctx);
      }
      if action == OfferService {
        if parts.offering.None? {
          return Rejected(m, ctx, UNAVAILABLE, SpecializedPath);
        }
        r := MakeOffer(ctx, ToValidator(ctx), reply);
        return;
      }
      if ContactAction(action) && ContactState(machine.currentState) {
        if !HandlesContact(parts, machine.currentState, u) {
          return Rejected(m, ctx, UNAVAILABLE, SpecializedPath);
        }
        r := HandleContact(ctx, u.value, ToValidator(ctx));
        return;
      }
      r := ValidateThenApply(ctx, action, ToValidator(ctx), SliceThreePath);
    }

    method ProcessProposal(ctx: Context, proposed: AgentAction, u: Option<Understanding>, priority: Priority, reply: SelectorReply)
      returns (r: Result)
      requires Valid()
      modifies machine
      ensures Turn(machine.Now(), r) == ProcessTurn(parts, old(machine.Now()), ctx, proposed, u, priority, reply)
    {
      if machine.IsTerminal() {
        return TerminalResult(Machine(machine.currentState, machine.stateStack), ctx);
      }
      var vctx := ToValidator(ctx);
      var action := PriorityAction(priority);
      if action.Some? {
        r := ValidateThenApply(ctx, action.value, vctx, PriorityPath);
        return;
      }
      if HandlesContact(parts, machine.currentState, u) {
        r := HandleContact(ctx, u.value, vctx);
        return;
      }
      if proposed == OfferService && parts.offering.Some? {
        r := MakeOffer(ctx, vctx, reply);
        return;
      }
      r := ValidateThenApply(ctx, proposed, vctx, NormalPath);
    }
  }
}
