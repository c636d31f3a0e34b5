/** What each entry point of the engine does, and when: the other half of the promises about what it never
    does. */
module EngineOutcomes {
  import opened Wrappers
  import opened StateMachine
  import opened Contact
  import opened Catalog
  import opened Engine
  import opened EngineProofs

  /** What the validator is shown of a context. */
  function Seen(ctx: Context): ValidatorContext {
    ValidatorContext(ctx.candidate, ctx.contactConfirmed, ctx.callback, ctx.previousConversation, ctx.dncPending,
                     |ctx.eligibleIds| > 0)
  }

  lemma ValidatorSees(ctx: Context)
    ensures ToValidator(ctx) == Seen(ctx)
  {
  }

  /** The validator lets the action pass and the machine can take it. */
  predicate Goes(p: Parts, m: Machine, action: AgentAction, vctx: ValidatorContext) {
    p.validate(m.current, action, vctx).allowed && Apply(p.config, m, action).Some?
  }

  /** The action is executed, and the context left like this. */
  ghost predicate Executes(p: Parts, m: Machine, action: AgentAction, ctx': Context, t: Turn)
    requires Apply(p.config, m, action).Some?
  {
    && t.machine == Apply(p.config, m, action).value.0
    && t.result.approvedAction == Some(action) && t.result.executionRequired && !t.result.fallbackFailed
    && t.result.outcome == Apply(p.config, m, action).value.1.outcome
    && t.result.context == ctx'
  }

  /** Interest preserved by the transition, and the mark of do-not-call. */
  function Marked(p: Parts, m: Machine, action: AgentAction, ctx: Context): Context
    requires Apply(p.config, m, action).Some?
  {
    ctx.(interestPreserved := ctx.interestPreserved || Apply(p.config, m, action).value.1.preservedInterest,
         dncPending := ctx.dncPending || action == MarkDnc)
  }

  ghost predicate Rejects(m: Machine, v: Validation, ctx: Context, path: Path, t: Turn) {
    && t.machine == m && t.result.context == ctx && t.result.approvedAction.None? && !t.result.executionRequired
    && !t.result.fallbackUsed && !t.result.isTerminal && t.result.validation == Some(v) && t.result.path == path
  }

  ghost predicate Unmoved(m: Machine, ctx: Context, t: Turn) {
    && t.machine == m && t.result.context == ctx && t.result.approvedAction.None? && !t.result.executionRequired
    && !t.result.fallbackUsed && t.result.isTerminal && !t.result.continues && t.result.path == TerminalPath
  }

  /** The fallback's own action is executed, or it has failed and nothing has changed. */
  ghost predicate FallsBack(p: Parts, m: Machine, d: FallbackDecision, original: Option<Validation>, vctx: ValidatorContext,
                            ctx: Context, t: Turn)
  {
    && t.result.fallbackUsed && t.result.path == FallbackPathLabel
    && t.result.responseKey == Some(d.responseKey) && t.result.originalValidation == original
    && t.result.validation == Some(p.validate(m.current, d.action, vctx))
    && (if Goes(p, m, d.action, vctx) then Executes(p, m, d.action, Marked(p, m, d.action, ctx), t)
        else
          && t.machine == m && t.result.context == ctx && t.result.fallbackFailed
          && t.result.approvedAction.None? && !t.result.executionRequired)
  }

  lemma FallbackFalls(p: Parts, m: Machine, ctx: Context, original: Option<Validation>, vctx: ValidatorContext,
                      d: FallbackDecision, clarification: Option<ClarificationDecision>)
    ensures FallsBack(p, m, d, original, vctx, ctx, FallbackPath(p, m, ctx, original, vctx, d, clarification))
    ensures FallbackPath(p, m, ctx, original, vctx, d, clarification).result.clarification == clarification
  {
  }

  /** One action, as far as it gets: executed, replaced by the fallback, or rejected. */
  ghost predicate Tries(p: Parts, m: Machine, action: AgentAction, ctx: Context, vctx: ValidatorContext, path: Path, t: Turn) {
    var v := p.validate(m.current, action, vctx);
    if Goes(p, m, action, vctx) then
      && Executes(p, m, action, Marked(p, m, action, ctx), t)
      && !t.result.fallbackUsed && t.result.validation == Some(v) && t.result.path == path
    else if !v.allowed && p.fallback.Some? then
      FallsBack(p, m, p.fallback.value.select(m.current, v, vctx), Some(v), vctx, ctx, t)
    else Rejects(m, v, ctx, path, t)
  }

  lemma ApplyGoes(p: Parts, m: Machine, ctx: Context, action: AgentAction, vctx: ValidatorContext, path: Path)
    requires Goes(p, m, action, vctx)
    ensures Tries(p, m, action, ctx, vctx, path, ValidateAndApply(p, m, ctx, action, vctx, path))
  {
    ExecutedExecutes(p, m, action, Marked(p, m, action, ctx), p.validate(m.current, action, vctx), path);
  }

  lemma ApplyStops(p: Parts, m: Machine, ctx: Context, action: AgentAction, vctx: ValidatorContext, path: Path)
    requires !Goes(p, m, action, vctx)
    ensures Tries(p, m, action, ctx, vctx, path, ValidateAndApply(p, m, ctx, action, vctx, path))
  {
    var v := p.validate(m.current, action, vctx);
    if !v.allowed && p.fallback.Some? {
      var d := p.fallback.value.select(m.current, v, vctx);
      var t := FallbackPath(p, m, ctx, Some(v), vctx, d, None);
      FallbackFalls(p, m, ctx, Some(v), vctx, d, None);
      assert ValidateAndApply(p, m, ctx, action, vctx, path) == t;
    } else {
      RejectedRejects(m, ctx, v, path);
    }
  }

  lemma ApplyTries(p: Parts, m: Machine, ctx: Context, action: AgentAction, vctx: ValidatorContext, path: Path)
    ensures Tries(p, m, action, ctx, vctx, path, ValidateAndApply(p, m, ctx, action, vctx, path))
  {
    if Goes(p, m, action, vctx) {
      ApplyGoes(p, m, ctx, action, vctx, path);
    } else {
      ApplyStops(p, m, ctx, action, vctx, path);
    }
  }

  lemma ExecutedExecutes(p: Parts, m: Machine, action: AgentAction, ctx: Context, v: Validation, path: Path)
    requires Apply(p.config, m, action).Some?
    ensures var (m', t) := Apply(p.config, m, action).value;
      var r := Executed(p.config, t, m', ctx, v, path);
      && Executes(p, m, action, ctx, Turn(m', r))
      && !r.fallbackUsed && r.validation == Some(v) && r.path == path && r.selection.None? && r.toPersist.None?
  {
  }

  lemma RejectedRejects(m: Machine, ctx: Context, v: Validation, path: Path)
    ensures Rejects(m, v, ctx, path, Turn(m, Rejected(m, ctx, v, path)))
    ensures Rejected(m, ctx, v, path).selection.None? && Rejected(m, ctx, v, path).toPersist.None?
  {
  }

  /** Where there was nothing to validate: the fallback for the state, or a rejection. */
  ghost predicate Recovers(p: Parts, m: Machine, action: AgentAction, ctx: Context, vctx: ValidatorContext, path: Path, t: Turn) {
    if p.fallback.Some? then FallsBack(p, m, p.fallback.value.selectForState(m.current), None, vctx, ctx, t)
    else Rejects(m, p.validate(m.current, action, vctx), ctx, path, t)
  }

  lemma RecoverRecovers(p: Parts, m: Machine, ctx: Context, action: AgentAction, vctx: ValidatorContext, path: Path,
                        clarification: Option<ClarificationDecision>)
    ensures Recovers(p, m, action, ctx, vctx, path, Recover(p, m, ctx, action, vctx, path, clarification))
  {
    if p.fallback.Some? {
      FallbackFalls(p, m, ctx, None, vctx, p.fallback.value.selectForState(m.current), clarification);
    }
  }

  // ----- Actions decided elsewhere, and priorities -----

  /** An orchestrated action is tried as it is. */
  lemma ApprovedActionTried(p: Parts, m: Machine, ctx: Context, action: AgentAction)
    ensures var t := ExecuteApproved(p, m, ctx, action);
      if m.current in p.config.terminal then Unmoved(m, ctx, t)
      else Tries(p, m, action, ctx, Seen(ctx), OrchestratedPath, t)
  {
    ApplyTries(p, m, ctx, action, ToValidator(ctx), OrchestratedPath);
  }

  /** A trusted do-not-call forces MARK_DNC, a trusted disinterest END_CALL, whatever was proposed. */
  lemma PriorityForces(p: Parts, m: Machine, ctx: Context, proposed: AgentAction, u: Option<Understanding>, priority: Priority,
                       reply: SelectorReply)
    requires m.current !in p.config.terminal && !priority.NoPriority?
    ensures var t, forced := ProcessTurn(p, m, ctx, proposed, u, priority, reply), if priority.DncPriority? then MarkDnc else EndCall;
      Tries(p, m, forced, ctx, Seen(ctx), PriorityPath, t)
    ensures var t := ProcessTurn(p, m, ctx, proposed, u, priority, reply);
      && (priority.DncPriority? && Goes(p, m, MarkDnc, Seen(ctx)) ==>
            t.result.approvedAction == Some(MarkDnc) && t.result.context.dncPending)
      && (priority.NotInterestedPriority? && Goes(p, m, EndCall, Seen(ctx)) ==>
            t.result.approvedAction == Some(EndCall) && t.result.context.dncPending == ctx.dncPending)
  {
    var action := PriorityAction(priority).value;
    ApplyTries(p, m, ctx, action, ToValidator(ctx), PriorityPath);
  }

  lemma TerminalUnmoved(p: Parts, m: Machine, ctx: Context, proposed: AgentAction, u: Option<Understanding>, priority: Priority,
                        reply: SelectorReply)
    requires m.current in p.config.terminal
    ensures Unmoved(m, ctx, ProcessTurn(p, m, ctx, proposed, u, priority, reply))
    ensures Unmoved(m, ctx, ExecuteAuthorized(p, m, ctx, proposed, u, reply))
  {
  }

  /** The engine handles the turn as one about a contact. */
  predicate AboutContact(p: Parts, m: Machine, u: Option<Understanding>) {
    && p.resolver.Some? && p.clarification.Some? && u.Some?
    && (m.current == CollectEmail || m.current == ConfirmContactState)
  }

  /** A proposal that is neither a contact turn nor an offer is tried as it is. */
  lemma ProposalTried(p: Parts, m: Machine, ctx: Context, proposed: AgentAction, u: Option<Understanding>, reply: SelectorReply)
    requires m.current !in p.config.terminal && !AboutContact(p, m, u) && (proposed == OfferService ==> p.offering.None?)
    ensures Tries(p, m, proposed, ctx, Seen(ctx), NormalPath, ProcessTurn(p, m, ctx, proposed, u, NoPriority, reply))
  {
    ApplyTries(p, m, ctx, proposed, ToValidator(ctx), NormalPath);
  }

  predicate ForContact(action: AgentAction, m: Machine) {
    && (action == AskEmail || action == ConfirmContact || action == ClarifyContact)
    && (m.current == CollectEmail || m.current == ConfirmContactState)
  }

  /** An authorized action that is neither is tried as it is; one that needs a component the engine was built
      without is rejected. */
  lemma AuthorizedTried(p: Parts, m: Machine, ctx: Context, action: AgentAction, u: Option<Understanding>, reply: SelectorReply)
    requires m.current !in p.config.terminal
    ensures var t := ExecuteAuthorized(p, m, ctx, action, u, reply);
      && (action != OfferService && !ForContact(action, m) ==> Tries(p, m, action, ctx, Seen(ctx), SliceThreePath, t))
      && ((action == OfferService && p.offering.None?) || (ForContact(action, m) && !AboutContact(p, m, u)) ==>
            Rejects(m, Validation(false, "missing_prerequisite"), ctx, SpecializedPath, t))
  {
    ApplyTries(p, m, ctx, action, ToValidator(ctx), SliceThreePath);
  }

  // ----- Offers -----

  /** The offer is made, or nothing is offered. */
  ghost predicate OffersOrNot(p: Parts, o: Offering, m: Machine, ctx: Context, reply: SelectorReply, t: Turn) {
    var offer := Offer(o, ctx.knownSignals, ctx.offeredIds, ctx.offersMade, reply);
    var shown := Seen(ctx).(hasAlternative := true);
    if !offer.selection.Approved? then
      Recovers(p, m, OfferService, ctx, Seen(ctx), OfferLabel, t) && t.result.selection.None?
    else if Goes(p, m, OfferService, shown) then
      && Executes(p, m, OfferService,
                  ctx.(eligibleIds := offer.eligible, offeredIds := ctx.offeredIds + [offer.selection.id],
                       offersMade := ctx.offersMade + 1), t)
      && t.result.selection == Some(offer.selection) && t.result.path == OfferLabel && !t.result.fallbackUsed
    else Rejects(m, p.validate(m.current, OfferService, shown), ctx, OfferLabel, t) && t.result.selection.None?
  }

  lemma OfferPathOffersOrNot(p: Parts, o: Offering, m: Machine, ctx: Context, reply: SelectorReply)
    ensures OffersOrNot(p, o, m, ctx, reply, OfferPath(p, o, m, ctx, ToValidator(ctx), reply))
  {
    var offer, vctx := Offer(o, ctx.knownSignals, ctx.offeredIds, ctx.offersMade, reply), ToValidator(ctx);
    ValidatorSees(ctx);
    if !offer.selection.Approved? {
      RecoverRecovers(p, m, ctx, OfferService, vctx, OfferLabel, None);
      RecoverQuiet(p, m, ctx, OfferService, vctx, OfferLabel, None);
    } else {
      var v := p.validate(m.current, OfferService, vctx.(hasAlternative := true));
      RejectedRejects(m, ctx, v, OfferLabel);
      if Goes(p, m, OfferService, vctx.(hasAlternative := true)) {
        ExecutedExecutes(p, m, OfferService, CommittedOffer(ctx, offer), v, OfferLabel);
      }
    }
  }

  /** A service is offered exactly when one is approved and the offer can be made, and then the history
      says so. */
  lemma OfferMade(p: Parts, m: Machine, ctx: Context, u: Option<Understanding>, reply: SelectorReply)
    requires m.current !in p.config.terminal && p.offering.Some?
    ensures OffersOrNot(p, p.offering.value, m, ctx, reply, ExecuteAuthorized(p, m, ctx, OfferService, u, reply))
    ensures !AboutContact(p, m, u) ==>
      OffersOrNot(p, p.offering.value, m, ctx, reply, ProcessTurn(p, m, ctx, OfferService, u, NoPriority, reply))
  {
    OfferPathOffersOrNot(p, p.offering.value, m, ctx, reply);
  }

  // ----- Contact turns -----

  /** The candidate is complete and there is a contact to keep it for. */
  predicate Complete(ctx: Context) {
    && ctx.candidate.Some? && !Blank(ctx.candidate.value) && ctx.candidateChannel.Some? && ctx.candidateProvenance.Some?
    && ctx.currentContactId.Some? && ctx.currentContactId.value != ""
  }

  /** A confirmed candidate is handed over to be kept, or nothing is. */
  ghost predicate ConfirmsOrNot(p: Parts, m: Machine, ctx: Context, t: Turn) {
    var shown := Seen(ctx).(contactConfirmed := true);
    if !Complete(ctx) then
      Rejects(m, p.validate(m.current, ConfirmContact, Seen(ctx)), ctx, ContactLabel, t) && t.result.toPersist.None?
    else if Goes(p, m, ConfirmContact, shown) then
      && Executes(p, m, ConfirmContact, ctx.(contactConfirmed := true), t) && t.result.path == ContactLabel
      && t.result.toPersist == Some(PendingContactMethod(ctx.currentContactId.value, ctx.candidateChannel.value,
                                                         ctx.candidate.value, ctx.candidateProvenance.value))
    else Rejects(m, p.validate(m.current, ConfirmContact, shown), ctx, ContactLabel, t) && t.result.toPersist.None?
  }

  /** What was said is clear, is asked for again, or is given up. */
  ghost predicate AsksOrNot(p: Parts, m: Machine, ctx: Context, vctx: ValidatorContext, d: ClarificationDecision, t: Turn) {
    if d.outcome == Exhausted then
      && Recovers(p, m, ClarifyContact, ctx, vctx, ContactLabel, t)
      && (p.fallback.Some? ==> t.result.clarification == Some(d))
    else
      var action := if d.outcome == Clear then ConfirmContact else ClarifyContact;
      var v := p.validate(m.current, action, vctx);
      if Goes(p, m, action, vctx) then
        && Executes(p, m, action, ctx, t) && t.result.path == ContactLabel
        && t.result.clarification == Some(d) && t.result.responseKey == d.responseKey
      else if !v.allowed && p.fallback.Some? then
        && FallsBack(p, m, p.fallback.value.select(m.current, v, vctx), Some(v), vctx, ctx, t)
        && t.result.clarification == Some(d)
      else Rejects(m, v, ctx, ContactLabel, t)
  }

  lemma ClarificationAsks(p: Parts, limits: Channel -> Attempts, m: Machine, ctx: Context, channel: Channel, clear: bool,
                          vctx: ValidatorContext)
    ensures var d := Evaluate(SessionFor(limits, ctx.clarification, channel), clear);
      AsksOrNot(p, m, ctx.(clarification := Some(d.newState)), vctx, d,
                RunClarification(p, limits, m, ctx, channel, clear, vctx))
  {
    var d := Evaluate(SessionFor(limits, ctx.clarification, channel), clear);
    var ctx' := ctx.(clarification := Some(d.newState));
    DecisionActs(SessionFor(limits, ctx.clarification, channel), clear);
    if d.action.None? {
      RecoverRecovers(p, m, ctx', ClarifyContact, vctx, ContactLabel, Some(d));
      if p.fallback.Some? {
        FallbackFalls(p, m, ctx', None, vctx, p.fallback.value.selectForState(m.current), Some(d));
      }
    } else {
      var v := p.validate(m.current, d.action.value, vctx);
      if !v.allowed && p.fallback.Some? {
        FallbackFalls(p, m, ctx', Some(v), vctx, p.fallback.value.select(m.current, v, vctx), Some(d));
      } else if Goes(p, m, d.action.value, vctx) {
        ExecutedExecutes(p, m, d.action.value, ctx', v, ContactLabel);
      } else {
        RejectedRejects(m, ctx', v, ContactLabel);
      }
    }
  }

  /** The action a decision stands for. */
  lemma DecisionActs(s: ClarificationState, clear: bool)
    ensures var d := Evaluate(s, clear);
      d.action == if d.outcome == Exhausted then None else Some(if d.outcome == Clear then ConfirmContact else ClarifyContact)
  {
  }

  /** A contact turn: a confirmation, something that cannot be referred to, or an answer that becomes the
      candidate when it can be resolved and is asked about in any case. */
  ghost predicate HandlesIt(p: Parts, m: Machine, ctx: Context, u: Understanding, t: Turn)
    requires p.resolver.Some? && p.clarification.Some?
  {
    if m.current == ConfirmContactState && u.intent == ConfirmIt then ConfirmsOrNot(p, m, ctx, t)
    else
      var r := Resolve(p.resolver.value, u, Trusted(ctx.callNumber, ctx.businessPhone, ctx.businessEmail, None));
      if r == UnsupportedReference then Recovers(p, m, ClarifyContact, ctx, Seen(ctx), ContactLabel, t)
      else
        var found := r.Resolved? && r.value != "";
        var ctx' := if found then ctx.(candidate := Some(r.value), candidateChannel := Some(r.channel),
                                       candidateProvenance := Some(r.provenance)) else ctx;
        var d := Evaluate(SessionFor(p.clarification.value, ctx.clarification, u.channel), r.Resolved?);
        AsksOrNot(p, m, ctx'.(clarification := Some(d.newState)),
                  if found then Seen(ctx).(candidate := Some(r.value)) else Seen(ctx), d, t)
  }

  lemma ContactPathHandles(p: Parts, m: Machine, ctx: Context, u: Understanding)
    requires p.resolver.Some? && p.clarification.Some?
    ensures HandlesIt(p, m, ctx, u, ContactPath(p, p.resolver.value, p.clarification.value, m, ctx, u, ToValidator(ctx)))
  {
    var vctx := ToValidator(ctx);
    ValidatorSees(ctx);
    if m.current == ConfirmContactState && u.intent == ConfirmIt {
      ConfirmationConfirms(p, m, ctx);
    } else {
      var r := Resolve(p.resolver.value, u, TrustedValues(ctx));
      if r == UnsupportedReference {
        RecoverRecovers(p, m, ctx, ClarifyContact, vctx, ContactLabel, None);
      } else {
        ClarificationAsks(p, p.clarification.value, m, WithCandidate(ctx, r), u.channel, r.Resolved?,
                          if r.Resolved? && r.value != "" then vctx.(candidate := Some(r.value)) else vctx);
      }
    }
  }

  lemma ConfirmationConfirms(p: Parts, m: Machine, ctx: Context)
    ensures ConfirmsOrNot(p, m, ctx, HandleConfirmation(p, m, ctx, ToValidator(ctx)))
  {
    ValidatorSees(ctx);
  }

  lemma ContactTurnHandled(p: Parts, m: Machine, ctx: Context, action: AgentAction, u: Option<Understanding>, reply: SelectorReply)
    requires m.current !in p.config.terminal && AboutContact(p, m, u)
    ensures HandlesIt(p, m, ctx, u.value, ProcessTurn(p, m, ctx, action, u, NoPriority, reply))
    ensures ForContact(action, m) ==> HandlesIt(p, m, ctx, u.value, ExecuteAuthorized(p, m, ctx, action, u, reply))
  {
    ContactPathHandles(p, m, ctx, u.value);
  }
}
