/** What the conversation engine promises, whatever its validator, fallback, selector and callers do. */
module EngineProofs {
  import opened Wrappers
  import opened Runs
  import opened StateMachine
  import opened Contact
  import opened Catalog
  import opened Engine

  /** What may happen to an engine: a call of one of its entry points, or the application renewing the
      trusted part of the context between calls. */
  datatype Input =
    | Proposed(action: AgentAction, understanding: Option<Understanding>, priority: Priority, reply: SelectorReply)
    | Approved(action: AgentAction)
    | Authorized(action: AgentAction, understanding: Option<Understanding>, reply: SelectorReply)
    | Renewed(contactId: Option<string>, signals: set<string>, values: Trusted, callback: Option<string>)

  datatype Session = Session(machine: Machine, context: Context)

  function Call(p: Parts, s: Session, i: Input): Turn
    requires !i.Renewed?
  {
    match i
    case Proposed(action, u, priority, reply) => ProcessTurn(p, s.machine, s.context, action, u, priority, reply)
    case Approved(action) => ExecuteApproved(p, s.machine, s.context, action)
    case Authorized(action, u, reply) => ExecuteAuthorized(p, s.machine, s.context, action, u, reply)
  }

  function Renew(ctx: Context, i: Input): Context
    requires i.Renewed?
  {
    ctx.(currentContactId := i.contactId, knownSignals := i.signals, callNumber := i.values.callNumber,
         businessPhone := i.values.businessPhone, businessEmail := i.values.businessEmail, callback := i.callback)
  }

  /** An offer made: the service and the signals it was applicable under. */
  datatype Made = Made(id: string, signals: set<string>)

  function Offers(s: Session, r: Result): seq<Made> {
    if r.selection.Some? && r.selection.value.Approved? then [Made(r.selection.value.id, s.context.knownSignals)] else []
  }

  function Stepped(p: Parts, s: Session, i: Input): (Session, seq<Made>) {
    if i.Renewed? then (s.(context := Renew(s.context, i)), [])
    else
      var t := Call(p, s, i);
      (Session(t.machine, t.result.context), Offers(s, t.result))
  }

  function Step(p: Parts): (Session, Input) -> (Session, seq<Made>) {
    (s: Session, i: Input) => Stepped(p, s, i)
  }

  // ----- Every result is sound -----

  /** The context an executed action was validated in: the one at hand, with what the offer and the
      confirmation path set in it. */
  function Adjusted(vctx: ValidatorContext, r: Result): ValidatorContext {
    vctx.(hasAlternative := vctx.hasAlternative || r.selection.Some?,
          contactConfirmed := vctx.contactConfirmed || r.toPersist.Some?)
  }

  /** The result can be constructed, tells the truth about the machine, and the machine has moved by one
      transition of a validated action or not at all. */
  ghost predicate Sound(p: Parts, m: Machine, vctx: ValidatorContext, t: Turn) {
    var r := t.result;
    && Constructible(p.config, r)
    && r.currentState == m.current && r.nextState == t.machine.current
    && r.isTerminal == Terminal(p.config, t.machine)
    && r.executionRequired == r.approvedAction.Some?
    && (r.fallbackFailed ==> r.fallbackUsed && r.approvedAction.None?)
    && (r.approvedAction.None? ==> t.machine == m && r.outcome.None? && r.toPersist.None? && r.selection.None?)
    && (r.approvedAction.Some? ==>
          && Apply(p.config, m, r.approvedAction.value).Some?
          && Apply(p.config, m, r.approvedAction.value).value.0 == t.machine
          && r.outcome == Apply(p.config, m, r.approvedAction.value).value.1.outcome
          && r.validation.Some? && r.validation.value.allowed
          && r.validation.value == p.validate(m.current, r.approvedAction.value, Adjusted(vctx, r)))
  }

  lemma FallbackFailedSound(p: Parts, m: Machine, ctx: Context, original: Option<Validation>, v: Validation, vctx: ValidatorContext,
                            d: FallbackDecision, clarification: Option<ClarificationDecision>)
    ensures Sound(p, m, vctx, Turn(m, FallbackFailed(p.config, m, ctx, original, v, d, clarification)))
  {
  }

  lemma FallbackExecutedSound(p: Parts, m: Machine, ctx: Context, original: Option<Validation>, vctx: ValidatorContext,
                              d: FallbackDecision, clarification: Option<ClarificationDecision>)
    requires p.validate(m.current, d.action, vctx).allowed && Apply(p.config, m, d.action).Some?
    ensures var (m', t) := Apply(p.config, m, d.action).value;
      Sound(p, m, vctx, Turn(m', Executed(p.config, t, m', ctx, p.validate(m.current, d.action, vctx), FallbackPathLabel)
                                 .(responseKey := Some(d.responseKey), originalValidation := original, fallbackUsed := true,
                                   clarification := clarification)))
  {
    assert vctx == vctx.(hasAlternative := vctx.hasAlternative, contactConfirmed := vctx.contactConfirmed);
  }

  lemma FallbackSound(p: Parts, m: Machine, ctx: Context, original: Option<Validation>, vctx: ValidatorContext,
                      d: FallbackDecision, clarification: Option<ClarificationDecision>)
    ensures Sound(p, m, vctx, FallbackPath(p, m, ctx, original, vctx, d, clarification))
  {
    var v := p.validate(m.current, d.action, vctx);
    FallbackFailedSound(p, m, ctx, original, v, vctx, d, clarification);
    if v.allowed && Apply(p.config, m, d.action).Some? {
      var ctx' := AfterTransition(ctx, Apply(p.config, m, d.action).value.1);
      FallbackExecutedSound(p, m, ctx', original, vctx, d, clarification);
    }
  }

  lemma ExecutedSound(p: Parts, m: Machine, ctx: Context, action: AgentAction, vctx: ValidatorContext, path: Path)
    requires p.validate(m.current, action, vctx).allowed && Apply(p.config, m, action).Some?
    ensures var (m', t) := Apply(p.config, m, action).value;
      Sound(p, m, vctx, Turn(m', Executed(p.config, t, m', ctx, p.validate(m.current, action, vctx), path)))
  {
    assert vctx == vctx.(hasAlternative := vctx.hasAlternative, contactConfirmed := vctx.contactConfirmed);
  }

  lemma RejectedSound(p: Parts, m: Machine, vctx: ValidatorContext, ctx: Context, v: Validation, path: Path)
    requires !Terminal(p.config, m)
    ensures Sound(p, m, vctx, Turn(m, Rejected(m, ctx, v, path)))
  {
  }

  lemma ApplySound(p: Parts, m: Machine, ctx: Context, action: AgentAction, vctx: ValidatorContext, path: Path)
    requires !Terminal(p.config, m)
    ensures Sound(p, m, vctx, ValidateAndApply(p, m, ctx, action, vctx, path))
  {
    var v := p.validate(m.current, action, vctx);
    if !v.allowed {
      if p.fallback.Some? {
        FallbackSound(p, m, ctx, Some(v), vctx, p.fallback.value.select(m.current, v, vctx), None);
      } else {
        RejectedSound(p, m, vctx, ctx, v, path);
      }
    } else if Apply(p.config, m, action).Some? {
      ExecutedSound(p, m, AfterTransition(ctx, Apply(p.config, m, action).value.1), action, vctx, path);
    } else {
      RejectedSound(p, m, vctx, ctx, v, path);
    }
  }

  lemma RecoverSound(p: Parts, m: Machine, ctx: Context, action: AgentAction, vctx: ValidatorContext, path: Path,
                     clarification: Option<ClarificationDecision>)
    requires !Terminal(p.config, m)
    ensures Sound(p, m, vctx, Recover(p, m, ctx, action, vctx, path, clarification))
  {
    if p.fallback.Some? {
      FallbackSound(p, m, ctx, None, vctx, p.fallback.value.selectForState(m.current), clarification);
    }
  }

  lemma OfferMadeSound(p: Parts, m: Machine, ctx: Context, vctx: ValidatorContext, selection: Selection)
    requires p.validate(m.current, OfferService, vctx.(hasAlternative := true)).allowed && Apply(p.config, m, OfferService).Some?
    ensures var (m', t) := Apply(p.config, m, OfferService).value;
      var v := p.validate(m.current, OfferService, vctx.(hasAlternative := true));
      Sound(p, m, vctx, Turn(m', Executed(p.config, t, m', ctx, v, OfferLabel).(selection := Some(selection))))
  {
    assert vctx.(hasAlternative := true) == vctx.(hasAlternative := true, contactConfirmed := vctx.contactConfirmed);
  }

  lemma OfferSound(p: Parts, o: Offering, m: Machine, ctx: Context, vctx: ValidatorContext, reply: SelectorReply)
    requires !Terminal(p.config, m)
    ensures Sound(p, m, vctx, OfferPath(p, o, m, ctx, vctx, reply))
  {
    var offer := Offer(o, ctx.knownSignals, ctx.offeredIds, ctx.offersMade, reply);
    if !offer.selection.Approved? {
      RecoverSound(p, m, ctx, OfferService, vctx, OfferLabel, None);
    } else {
      var v := p.validate(m.current, OfferService, vctx.(hasAlternative := true));
      RejectedSound(p, m, vctx, ctx, v, OfferLabel);
      if v.allowed && Apply(p.config, m, OfferService).Some? {
        OfferMadeSound(p, m, CommittedOffer(ctx, offer), vctx, offer.selection);
      }
    }
  }

  lemma ConfirmationSound(p: Parts, m: Machine, ctx: Context, vctx: ValidatorContext)
    requires !Terminal(p.config, m)
    ensures Sound(p, m, vctx, HandleConfirmation(p, m, ctx, vctx))
  {
  }

  lemma ClarificationSound(p: Parts, limits: Channel -> Attempts, m: Machine, ctx: Context, channel: Channel, clear: bool,
                           vctx: ValidatorContext)
    requires !Terminal(p.config, m)
    ensures Sound(p, m, vctx, RunClarification(p, limits, m, ctx, channel, clear, vctx))
  {
    var d := Evaluate(SessionFor(limits, ctx.clarification, channel), clear);
    var ctx' := ctx.(clarification := Some(d.newState));
    if d.action.None? {
      RecoverSound(p, m, ctx', ClarifyContact, vctx, ContactLabel, Some(d));
    } else {
      var v := p.validate(m.current, d.action.value, vctx);
      if !v.allowed && p.fallback.Some? {
        FallbackSound(p, m, ctx', Some(v), vctx, p.fallback.value.select(m.current, v, vctx), Some(d));
      }
    }
  }

  /** In contact turns the validator sees the candidate as the turn leaves it. */
  lemma ContactSound(p: Parts, canon: Canon, limits: Channel -> Attempts, m: Machine, ctx: Context, u: Understanding,
                     vctx: ValidatorContext)
    requires !Terminal(p.config, m) && vctx.candidate == ctx.candidate
    ensures var t := ContactPath(p, canon, limits, m, ctx, u, vctx);
      Sound(p, m, vctx.(candidate := t.result.context.candidate), t)
  {
    var t := ContactPath(p, canon, limits, m, ctx, u, vctx);
    if m.current.ConfirmContactState? && u.intent.ConfirmIt? {
      ConfirmationSound(p, m, ctx, vctx);
      assert vctx.(candidate := t.result.context.candidate) == vctx;
    } else {
      var r := Resolve(canon, u, TrustedValues(ctx));
      if r.UnsupportedReference? {
        RecoverSound(p, m, ctx, ClarifyContact, vctx, ContactLabel, None);
        RecoverQuiet(p, m, ctx, ClarifyContact, vctx, ContactLabel, None);
        assert vctx.(candidate := t.result.context.candidate) == vctx;
      } else {
        var vctx' := if r.Resolved? && r.value != "" then vctx.(candidate := Some(r.value)) else vctx;
        ClarificationSound(p, limits, m, WithCandidate(ctx, r), u.channel, r.Resolved?, vctx');
        ClarificationQuiet(p, limits, m, WithCandidate(ctx, r), u.channel, r.Resolved?, vctx');
        assert vctx.(candidate := t.result.context.candidate) == vctx';
      }
    }
  }

  /** A sound turn that leaves the candidate alone, with the validator context of its own context. */
  ghost predicate SoundHere(p: Parts, m: Machine, ctx: Context, t: Turn) {
    Sound(p, m, ToValidator(ctx).(candidate := t.result.context.candidate), t)
  }

  lemma SameContextSound(p: Parts, m: Machine, ctx: Context, t: Turn)
    requires Sound(p, m, ToValidator(ctx), t) && SameCandidate(t.result.context, ctx)
    ensures SoundHere(p, m, ctx, t)
  {
    assert ToValidator(ctx).(candidate := t.result.context.candidate) == ToValidator(ctx);
  }

  lemma PlainSoundHere(p: Parts, m: Machine, ctx: Context, action: AgentAction, path: Path)
    requires !Terminal(p.config, m)
    ensures SoundHere(p, m, ctx, ValidateAndApply(p, m, ctx, action, ToValidator(ctx), path))
  {
    ApplySound(p, m, ctx, action, ToValidator(ctx), path);
    ApplyQuiet(p, m, ctx, action, ToValidator(ctx), path);
    SameContextSound(p, m, ctx, ValidateAndApply(p, m, ctx, action, ToValidator(ctx), path));
  }

  lemma OfferSoundHere(p: Parts, m: Machine, ctx: Context, reply: SelectorReply)
    requires !Terminal(p.config, m) && p.offering.Some?
    ensures SoundHere(p, m, ctx, OfferPath(p, p.offering.value, m, ctx, ToValidator(ctx), reply))
  {
    OfferSound(p, p.offering.value, m, ctx, ToValidator(ctx), reply);
    OfferPathOffers(p, m, ctx, ToValidator(ctx), reply);
    SameContextSound(p, m, ctx, OfferPath(p, p.offering.value, m, ctx, ToValidator(ctx), reply));
  }

  lemma UnavailableSoundHere(p: Parts, m: Machine, ctx: Context)
    requires !Terminal(p.config, m)
    ensures SoundHere(p, m, ctx, Turn(m, Rejected(m, ctx, UNAVAILABLE, SpecializedPath)))
  {
    RejectedSound(p, m, ToValidator(ctx), ctx, UNAVAILABLE, SpecializedPath);
    SameContextSound(p, m, ctx, Turn(m, Rejected(m, ctx, UNAVAILABLE, SpecializedPath)));
  }

  lemma AuthorizedSound(p: Parts, m: Machine, ctx: Context, action: AgentAction, u: Option<Understanding>, reply: SelectorReply)
    requires !Terminal(p.config, m)
    ensures SoundHere(p, m, ctx, ExecuteAuthorized(p, m, ctx, action, u, reply))
  {
    if action == OfferService {
      if p.offering.None? { UnavailableSoundHere(p, m, ctx); } else { OfferSoundHere(p, m, ctx, reply); }
    } else if ContactAction(action) && ContactState(m.current) {
      if !HandlesContact(p, m.current, u) {
        UnavailableSoundHere(p, m, ctx);
      } else {
        ContactSound(p, p.resolver.value, p.clarification.value, m, ctx, u.value, ToValidator(ctx));
      }
    } else {
      PlainSoundHere(p, m, ctx, action, SliceThreePath);
    }
  }

  lemma ProposedSound(p: Parts, m: Machine, ctx: Context, action: AgentAction, u: Option<Understanding>, priority: Priority,
                      reply: SelectorReply)
    requires !Terminal(p.config, m)
    ensures SoundHere(p, m, ctx, ProcessTurn(p, m, ctx, action, u, priority, reply))
  {
    if PriorityAction(priority).Some? {
      PlainSoundHere(p, m, ctx, PriorityAction(priority).value, PriorityPath);
    } else if HandlesContact(p, m.current, u) {
      ContactSound(p, p.resolver.value, p.clarification.value, m, ctx, u.value, ToValidator(ctx));
    } else if action == OfferService && p.offering.Some? {
      OfferSoundHere(p, m, ctx, reply);
    } else {
      PlainSoundHere(p, m, ctx, action, NormalPath);
    }
  }

  lemma TerminalSound(p: Parts, m: Machine, ctx: Context)
    requires Terminal(p.config, m)
    ensures SoundHere(p, m, ctx, Turn(m, TerminalResult(m, ctx)))
  {
  }

  /** Every entry point, on every path, returns a sound result: an executed action was accepted by the
      validator in the context the engine builds from the current one, with the candidate as the turn leaves
      it and the flag that the offer or the confirmation sets. */
  lemma EveryResultSound(p: Parts, s: Session, i: Input)
    requires !i.Renewed?
    ensures SoundHere(p, s.machine, s.context, Call(p, s, i))
  {
    if Terminal(p.config, s.machine) {
      TerminalSound(p, s.machine, s.context);
    } else {
      match i
      case Approved(action) => PlainSoundHere(p, s.machine, s.context, action, OrchestratedPath);
      case Authorized(action, u, reply) => AuthorizedSound(p, s.machine, s.context, action, u, reply);
      case Proposed(action, u, priority, reply) => ProposedSound(p, s.machine, s.context, action, u, priority, reply);
    }
  }

  // ----- Whole runs -----

  function After(p: Parts, s: Session, inputs: seq<Input>): Session { Final(Step(p), s, inputs) }

  predicate Calls(inputs: seq<Input>) { forall i :: 0 <= i < |inputs| ==> !inputs[i].Renewed? }

  /** A terminal state is absorbing: no sequence of calls moves the machine or changes the context. */
  lemma {:induction false} TerminalAbsorbs(p: Parts, s: Session, inputs: seq<Input>)
    requires Terminal(p.config, s.machine)
    ensures After(p, s, inputs).machine == s.machine
    ensures Calls(inputs) ==> After(p, s, inputs) == s
    decreases inputs
  {
    if inputs != [] {
      TerminalAbsorbs(p, Step(p)(s, inputs[0]).0, inputs[1..]);
      if Calls(inputs) {
        assert !inputs[0].Renewed? && Calls(inputs[1..]);
      }
    }
  }

  ghost predicate AppliesTo(config: Config, m: Machine, action: AgentAction, m': Machine) {
    Apply(config, m, action).Some? && Apply(config, m, action).value.0 == m'
  }

  ghost predicate OneTransition(config: Config, m: Machine, m': Machine) {
    exists action :: AppliesTo(config, m, action, m')
  }

  /** The states a run goes through are joined by single transitions of the table. */
  ghost predicate TablePath(config: Config, states: seq<Machine>) {
    forall k :: 0 <= k < |states| - 1 ==> states[k + 1] == states[k] || OneTransition(config, states[k], states[k + 1])
  }

  function Visited(p: Parts, s: Session, inputs: seq<Input>): seq<Machine>
    decreases inputs
  {
    [s.machine] + if inputs == [] then [] else Visited(p, Step(p)(s, inputs[0]).0, inputs[1..])
  }

  lemma {:induction false} RunFollowsTable(p: Parts, s: Session, inputs: seq<Input>)
    requires LiveStack(p.config, s.machine)
    ensures TablePath(p.config, Visited(p, s, inputs))
    ensures LiveStack(p.config, After(p, s, inputs).machine)
    decreases inputs
  {
    if inputs != [] {
      var s' := Step(p)(s, inputs[0]).0;
      if !inputs[0].Renewed? {
        EveryResultSound(p, s, inputs[0]);
        var a := Call(p, s, inputs[0]).result.approvedAction;
        if a.Some? {
          ApplyFollowsTable(p.config, s.machine, a.value);
          assert AppliesTo(p.config, s.machine, a.value, s'.machine);
        }
      }
      RunFollowsTable(p, s', inputs[1..]);
      var rest := Visited(p, s', inputs[1..]);
      assert Visited(p, s, inputs) == [s.machine] + rest && rest[0] == s'.machine;
      forall k | 0 <= k < |rest| ensures Visited(p, s, inputs)[k + 1] == rest[k] {}
    }
  }

  // ----- Offers over whole runs -----

  ghost predicate OffersRecorded(ctx: Context, made: seq<Made>) {
    && ctx.offersMade == |made| == |ctx.offeredIds|
    && forall k :: 0 <= k < |made| ==> ctx.offeredIds[k] == made[k].id
  }

  ghost predicate OffersLegal(o: Option<Offering>, made: seq<Made>) {
    && (made != [] ==> o.Some? && |made| <= o.value.maxOffers)
    && (forall k :: 0 <= k < |made| ==> o.Some? && Offerable(o.value.catalog, made[k].signals, made[k].id))
    && (forall j, k :: 0 <= j < k < |made| ==> made[j].id != made[k].id)
  }

  /** What a path leaves of the offer history: all of it, and one more offer when it reports one. */
  ghost predicate OfferOnly(ctx: Context, r: Result) {
    && (r.selection.None? ==> r.context.offeredIds == ctx.offeredIds && r.context.offersMade == ctx.offersMade)
    && (r.selection.Some? ==>
          && r.selection.value.Approved? && r.approvedAction == Some(OfferService)
          && r.context.offeredIds == ctx.offeredIds + [r.selection.value.id]
          && r.context.offersMade == ctx.offersMade + 1)
  }

  ghost predicate SameCandidate(a: Context, b: Context) {
    a.candidate == b.candidate && a.candidateChannel == b.candidateChannel && a.candidateProvenance == b.candidateProvenance
  }

  /** No offer, nothing to persist, and neither the offers nor the candidate touched. */
  ghost predicate Quiet(ctx: Context, r: Result) {
    && r.selection.None? && r.toPersist.None?
    && r.context.offeredIds == ctx.offeredIds && r.context.offersMade == ctx.offersMade
    && SameCandidate(r.context, ctx)
  }

  lemma FallbackQuiet(p: Parts, m: Machine, ctx: Context, original: Option<Validation>, vctx: ValidatorContext,
                      d: FallbackDecision, clarification: Option<ClarificationDecision>)
    ensures Quiet(ctx, FallbackPath(p, m, ctx, original, vctx, d, clarification).result)
  {
  }

  lemma ApplyQuiet(p: Parts, m: Machine, ctx: Context, action: AgentAction, vctx: ValidatorContext, path: Path)
    ensures Quiet(ctx, ValidateAndApply(p, m, ctx, action, vctx, path).result)
  {
    var v := p.validate(m.current, action, vctx);
    if !v.allowed && p.fallback.Some? {
      FallbackQuiet(p, m, ctx, Some(v), vctx, p.fallback.value.select(m.current, v, vctx), None);
    }
  }

  lemma RecoverQuiet(p: Parts, m: Machine, ctx: Context, action: AgentAction, vctx: ValidatorContext, path: Path,
                     clarification: Option<ClarificationDecision>)
    ensures Quiet(ctx, Recover(p, m, ctx, action, vctx, path, clarification).result)
  {
    if p.fallback.Some? {
      FallbackQuiet(p, m, ctx, None, vctx, p.fallback.value.selectForState(m.current), clarification);
    }
  }

  lemma ClarificationQuiet(p: Parts, limits: Channel -> Attempts, m: Machine, ctx: Context, channel: Channel, clear: bool,
                           vctx: ValidatorContext)
    ensures Quiet(ctx, RunClarification(p, limits, m, ctx, channel, clear, vctx).result)
  {
    var d := Evaluate(SessionFor(limits, ctx.clarification, channel), clear);
    var ctx' := ctx.(clarification := Some(d.newState));
    if d.action.None? {
      RecoverQuiet(p, m, ctx', ClarifyContact, vctx, ContactLabel, Some(d));
    } else {
      var v := p.validate(m.current, d.action.value, vctx);
      if !v.allowed && p.fallback.Some? {
        FallbackQuiet(p, m, ctx', Some(v), vctx, p.fallback.value.select(m.current, v, vctx), Some(d));
      }
    }
  }

  /** The two parts of a context that a call may change under conditions of their own. */
  ghost predicate OfferedBy(p: Parts, ctx: Context, r: Result) {
    r.selection.Some? ==>
      && p.offering.Some? && ctx.offersMade < p.offering.value.maxOffers
      && r.selection.value.Approved? && r.selection.value.id !in ctx.offeredIds
      && Offerable(p.offering.value.catalog, ctx.knownSignals, r.selection.value.id)
  }

  lemma OfferPathOffers(p: Parts, m: Machine, ctx: Context, vctx: ValidatorContext, reply: SelectorReply)
    requires p.offering.Some?
    ensures var r := OfferPath(p, p.offering.value, m, ctx, vctx, reply).result;
      OfferOnly(ctx, r) && OfferedBy(p, ctx, r) && SameCandidate(r.context, ctx) && r.toPersist.None?
  {
    RecoverQuiet(p, m, ctx, OfferService, vctx, OfferLabel, None);
    ApprovedIsOfferable(p.offering.value, ctx.knownSignals, ctx.offeredIds, ctx.offersMade, reply);
  }

  ghost predicate ContactMoved(p: Parts, ctx: Context, u: Understanding, r: Result) {
    || SameCandidate(r.context, ctx)
    || (p.resolver.Some? && Comes(p.resolver.value, r.context, u, TrustedValues(ctx)))
  }

  ghost predicate PersistsCandidate(m: Machine, ctx: Context, u: Understanding, r: Result) {
    r.toPersist.Some? ==>
      && u.intent.ConfirmIt? && m.current.ConfirmContactState? && r.approvedAction == Some(ConfirmContact)
      && r.context.contactConfirmed && SameCandidate(r.context, ctx)
      && Some(r.toPersist.value.contactId) == ctx.currentContactId
      && Some(r.toPersist.value.value) == ctx.candidate
      && Some(r.toPersist.value.channel) == ctx.candidateChannel
      && Some(r.toPersist.value.provenance) == ctx.candidateProvenance
  }

  lemma ContactPathContacts(p: Parts, m: Machine, ctx: Context, u: Understanding, vctx: ValidatorContext)
    requires p.resolver.Some? && p.clarification.Some?
    ensures var r := ContactPath(p, p.resolver.value, p.clarification.value, m, ctx, u, vctx).result;
      && r.selection.None? && r.context.offeredIds == ctx.offeredIds && r.context.offersMade == ctx.offersMade
      && ContactMoved(p, ctx, u, r) && PersistsCandidate(m, ctx, u, r)
  {
    if !(m.current.ConfirmContactState? && u.intent.ConfirmIt?) {
      var r := Resolve(p.resolver.value, u, TrustedValues(ctx));
      RecoverQuiet(p, m, ctx, ClarifyContact, vctx, ContactLabel, None);
      ClarificationQuiet(p, p.clarification.value, m, WithCandidate(ctx, r), u.channel, r.Resolved?,
                         if r.Resolved? && r.value != "" then vctx.(candidate := Some(r.value)) else vctx);
    }
  }

  /** What a call does to the offers and to the candidate, given the understanding it was handed. */
  ghost predicate Effects(p: Parts, m: Machine, ctx: Context, u: Option<Understanding>, r: Result) {
    && OfferOnly(ctx, r) && OfferedBy(p, ctx, r)
    && (u.None? ==> SameCandidate(r.context, ctx) && r.toPersist.None?)
    && (u.Some? ==> ContactMoved(p, ctx, u.value, r) && PersistsCandidate(m, ctx, u.value, r))
  }

  lemma QuietEffects(p: Parts, m: Machine, ctx: Context, u: Option<Understanding>, r: Result)
    requires Quiet(ctx, r)
    ensures Effects(p, m, ctx, u, r)
  {
  }

  lemma ApplyEffects(p: Parts, m: Machine, ctx: Context, action: AgentAction, path: Path, u: Option<Understanding>)
    ensures Effects(p, m, ctx, u, ValidateAndApply(p, m, ctx, action, ToValidator(ctx), path).result)
  {
    ApplyQuiet(p, m, ctx, action, ToValidator(ctx), path);
    QuietEffects(p, m, ctx, u, ValidateAndApply(p, m, ctx, action, ToValidator(ctx), path).result);
  }

  lemma AuthorizedEffects(p: Parts, m: Machine, ctx: Context, action: AgentAction, u: Option<Understanding>, reply: SelectorReply)
    ensures Effects(p, m, ctx, u, ExecuteAuthorized(p, m, ctx, action, u, reply).result)
  {
    if Terminal(p.config, m) {
    } else if action == OfferService {
      if p.offering.Some? { OfferPathOffers(p, m, ctx, ToValidator(ctx), reply); }
    } else if ContactAction(action) && ContactState(m.current) {
      if HandlesContact(p, m.current, u) { ContactPathContacts(p, m, ctx, u.value, ToValidator(ctx)); }
    } else {
      ApplyEffects(p, m, ctx, action, SliceThreePath, u);
    }
  }

  lemma ProposedEffects(p: Parts, m: Machine, ctx: Context, action: AgentAction, u: Option<Understanding>, priority: Priority,
                        reply: SelectorReply)
    ensures Effects(p, m, ctx, u, ProcessTurn(p, m, ctx, action, u, priority, reply).result)
  {
    if Terminal(p.config, m) {
    } else if PriorityAction(priority).Some? {
      ApplyEffects(p, m, ctx, PriorityAction(priority).value, PriorityPath, u);
    } else if HandlesContact(p, m.current, u) {
      ContactPathContacts(p, m, ctx, u.value, ToValidator(ctx));
    } else if action == OfferService && p.offering.Some? {
      OfferPathOffers(p, m, ctx, ToValidator(ctx), reply);
    } else {
      ApplyEffects(p, m, ctx, action, NormalPath, u);
    }
  }

  function Heard(i: Input): Option<Understanding>
    requires !i.Renewed?
  {
    if i.Approved? then None else i.understanding
  }

  lemma CallEffects(p: Parts, s: Session, i: Input)
    requires !i.Renewed?
    ensures Effects(p, s.machine, s.context, Heard(i), Call(p, s, i).result)
  {
    match i
    case Approved(action) => ApplyEffects(p, s.machine, s.context, action, OrchestratedPath, None);
    case Authorized(action, u, reply) => AuthorizedEffects(p, s.machine, s.context, action, u, reply);
    case Proposed(action, u, priority, reply) => ProposedEffects(p, s.machine, s.context, action, u, priority, reply);
  }

  lemma StepOffers(p: Parts, s: Session, i: Input, made: seq<Made>)
    requires OffersRecorded(s.context, made) && OffersLegal(p.offering, made)
    ensures var (s', more) := Step(p)(s, i); OffersRecorded(s'.context, made + more) && OffersLegal(p.offering, made + more)
  {
    var (s', more) := Step(p)(s, i);
    if i.Renewed? {
      assert made + more == made;
    } else {
      CallEffects(p, s, i);
      var r := Call(p, s, i).result;
      if r.selection.Some? {
        assert forall k :: 0 <= k < |made| ==> made[k].id == s.context.offeredIds[k];
        assert more == [Made(r.selection.value.id, s.context.knownSignals)];
      } else {
        assert made + more == made;
      }
    }
  }

  lemma OffersUnfold(p: Parts, s: Session, inputs: seq<Input>, made: seq<Made>)
    requires inputs != []
    ensures var (s', more) := Stepped(p, s, inputs[0]);
      && After(p, s, inputs) == After(p, s', inputs[1..])
      && made + Log(Step(p), s, inputs) == (made + more) + Log(Step(p), s', inputs[1..])
  {
  }

  lemma {:induction false} RunOffers(p: Parts, s: Session, inputs: seq<Input>, made: seq<Made>)
    requires OffersRecorded(s.context, made) && OffersLegal(p.offering, made)
    ensures OffersRecorded(After(p, s, inputs).context, made + Log(Step(p), s, inputs))
    ensures OffersLegal(p.offering, made + Log(Step(p), s, inputs))
    decreases inputs
  {
    if inputs == [] {
      assert made + Log(Step(p), s, inputs) == made;
    } else {
      var (s', more) := Stepped(p, s, inputs[0]);
      StepOffers(p, s, inputs[0], made);
      OffersUnfold(p, s, inputs, made);
      RunOffers(p, s', inputs[1..], made + more);
    }
  }

  /** Over any run from an empty offer history, with an adversary for a selector: the offered ids are the
      offers made, in order, none twice, each in the campaign's scope and applicable when it was made, and
      never more of them than the limit allows. */
  lemma OffersNeverRepeat(p: Parts, s: Session, inputs: seq<Input>)
    requires s.context.offeredIds == [] && s.context.offersMade == 0
    ensures var made := Log(Step(p), s, inputs);
      OffersRecorded(After(p, s, inputs).context, made) && OffersLegal(p.offering, made)
  {
    RunOffers(p, s, inputs, []);
    assert [] + Log(Step(p), s, inputs) == Log(Step(p), s, inputs);
  }

  // ----- Contacts over whole runs -----

  ghost predicate Comes(canon: Canon, ctx: Context, u: Understanding, t: Trusted) {
    var r := Resolve(canon, u, t);
    && r.Resolved? && ctx.candidate == Some(r.value) && r.value != ""
    && ctx.candidateChannel == Some(r.channel) && ctx.candidateProvenance == Some(r.provenance)
  }

  predicate NoCandidate(ctx: Context) {
    ctx.candidate.None? && ctx.candidateChannel.None? && ctx.candidateProvenance.None?
  }

  /** Call `k` of the run resolved the candidate of `ctx`: from what was understood in that call and the
      trusted values the context held when it was made. */
  ghost predicate ResolvedAt(p: Parts, s: Session, inputs: seq<Input>, k: nat, ctx: Context) {
    && k < |inputs| && !inputs[k].Renewed? && Heard(inputs[k]).Some? && p.resolver.Some?
    && Comes(p.resolver.value, ctx, Heard(inputs[k]).value, TrustedValues(After(p, s, inputs[..k]).context))
  }

  lemma ResolvedInFront(p: Parts, s: Session, inputs: seq<Input>, k: nat, ctx: Context, ctx': Context)
    requires inputs != [] && ResolvedAt(p, s, inputs[..|inputs| - 1], k, ctx) && SameCandidate(ctx', ctx)
    ensures ResolvedAt(p, s, inputs, k, ctx')
  {
    assert inputs[..|inputs| - 1][..k] == inputs[..k];
  }

  /** One step leaves the candidate as it is or resolves it. */
  lemma StepContacts(p: Parts, s: Session, i: Input)
    ensures var s' := Stepped(p, s, i).0;
      || SameCandidate(s'.context, s.context)
      || (!i.Renewed? && Heard(i).Some? && p.resolver.Some?
          && Comes(p.resolver.value, s'.context, Heard(i).value, TrustedValues(s.context)))
  {
    if !i.Renewed? {
      CallEffects(p, s, i);
    }
  }

  /** Over any run from a context with no candidate there is still none, or the value, the channel and the
      provenance of the candidate come from one resolution, made by a call of this very run. */
  lemma {:induction false} ContactIntegrity(p: Parts, s: Session, inputs: seq<Input>)
    requires NoCandidate(s.context)
    ensures var now := After(p, s, inputs).context;
      NoCandidate(now) || exists k :: ResolvedAt(p, s, inputs, k, now)
  {
    if inputs != [] {
      var n := |inputs| - 1;
      var before, now := After(p, s, inputs[..n]), After(p, s, inputs);
      OneMore(Step(p), s, inputs, n);
      assert inputs[..n + 1] == inputs;
      StepContacts(p, before, inputs[n]);
      ContactIntegrity(p, s, inputs[..n]);
      if SameCandidate(now.context, before.context) {
        if !NoCandidate(now.context) {
          var k :| ResolvedAt(p, s, inputs[..n], k, before.context);
          ResolvedInFront(p, s, inputs, k, before.context, now.context);
        }
      } else {
        assert ResolvedAt(p, s, inputs, n, now.context);
      }
    }
  }

  /** A successful CONFIRM_CONTACT transition, and the candidate as it is stored under the trusted id. */
  ghost predicate PersistsConfirmed(p: Parts, s: Session, t: Turn)
    requires t.result.toPersist.Some?
  {
    var pending := t.result.toPersist.value;
    && AppliesTo(p.config, s.machine, ConfirmContact, t.machine) && t.result.approvedAction == Some(ConfirmContact)
    && Some(pending.contactId) == s.context.currentContactId
    && Some(pending.value) == s.context.candidate
    && Some(pending.channel) == s.context.candidateChannel
    && Some(pending.provenance) == s.context.candidateProvenance
  }

  lemma PersistedHere(p: Parts, s: Session, i: Input)
    requires !i.Renewed?
    ensures Call(p, s, i).result.toPersist.Some? ==> PersistsConfirmed(p, s, Call(p, s, i)) && s.context.candidate.Some?
  {
    CallEffects(p, s, i);
    EveryResultSound(p, s, i);
  }

  /** What is asked to be persisted is the candidate as stored, resolved by a call of this run, under the
      trusted contact id, and on a successful CONFIRM_CONTACT transition. */
  lemma PersistOnlyConfirmed(p: Parts, s: Session, inputs: seq<Input>, i: Input)
    requires NoCandidate(s.context) && !i.Renewed?
    ensures var now := After(p, s, inputs);
      Call(p, now, i).result.toPersist.Some? ==>
        && PersistsConfirmed(p, now, Call(p, now, i))
        && exists k :: ResolvedAt(p, s, inputs, k, now.context)
  {
    ContactIntegrity(p, s, inputs);
    PersistedHere(p, After(p, s, inputs), i);
  }

  // ----- Do-not-call -----

  /** The context is marked for do-not-call by a validated MARK_DNC transition and by nothing else. */
  ghost predicate DncTracked(ctx: Context, r: Result) {
    r.context.dncPending <==> ctx.dncPending || r.approvedAction == Some(MarkDnc)
  }

  lemma FallbackDnc(p: Parts, m: Machine, ctx: Context, original: Option<Validation>, vctx: ValidatorContext,
                    d: FallbackDecision, clarification: Option<ClarificationDecision>)
    ensures DncTracked(ctx, FallbackPath(p, m, ctx, original, vctx, d, clarification).result)
  {
  }

  lemma ApplyDnc(p: Parts, m: Machine, ctx: Context, action: AgentAction, vctx: ValidatorContext, path: Path)
    ensures DncTracked(ctx, ValidateAndApply(p, m, ctx, action, vctx, path).result)
  {
    var v := p.validate(m.current, action, vctx);
    if !v.allowed && p.fallback.Some? {
      FallbackDnc(p, m, ctx, Some(v), vctx, p.fallback.value.select(m.current, v, vctx), None);
    }
  }

  lemma RecoverDnc(p: Parts, m: Machine, ctx: Context, action: AgentAction, vctx: ValidatorContext, path: Path,
                   clarification: Option<ClarificationDecision>)
    ensures DncTracked(ctx, Recover(p, m, ctx, action, vctx, path, clarification).result)
  {
    if p.fallback.Some? {
      FallbackDnc(p, m, ctx, None, vctx, p.fallback.value.selectForState(m.current), clarification);
    }
  }

  lemma OfferDnc(p: Parts, o: Offering, m: Machine, ctx: Context, vctx: ValidatorContext, reply: SelectorReply)
    ensures DncTracked(ctx, OfferPath(p, o, m, ctx, vctx, reply).result)
  {
    RecoverDnc(p, m, ctx, OfferService, vctx, OfferLabel, None);
  }

  lemma ClarificationDnc(p: Parts, limits: Channel -> Attempts, m: Machine, ctx: Context, channel: Channel, clear: bool,
                         vctx: ValidatorContext)
    ensures DncTracked(ctx, RunClarification(p, limits, m, ctx, channel, clear, vctx).result)
  {
    var d := Evaluate(SessionFor(limits, ctx.clarification, channel), clear);
    var ctx' := ctx.(clarification := Some(d.newState));
    if d.action.None? {
      RecoverDnc(p, m, ctx', ClarifyContact, vctx, ContactLabel, Some(d));
    } else {
      var v := p.validate(m.current, d.action.value, vctx);
      if !v.allowed && p.fallback.Some? {
        FallbackDnc(p, m, ctx', Some(v), vctx, p.fallback.value.select(m.current, v, vctx), Some(d));
      }
    }
  }

  lemma ContactDnc(p: Parts, canon: Canon, limits: Channel -> Attempts, m: Machine, ctx: Context, u: Understanding,
                   vctx: ValidatorContext)
    ensures DncTracked(ctx, ContactPath(p, canon, limits, m, ctx, u, vctx).result)
  {
    if !(m.current.ConfirmContactState? && u.intent.ConfirmIt?) {
      var r := Resolve(canon, u, TrustedValues(ctx));
      RecoverDnc(p, m, ctx, ClarifyContact, vctx, ContactLabel, None);
      ClarificationDnc(p, limits, m, WithCandidate(ctx, r), u.channel, r.Resolved?,
                       if r.Resolved? && r.value != "" then vctx.(candidate := Some(r.value)) else vctx);
    }
  }

  lemma AuthorizedDnc(p: Parts, m: Machine, ctx: Context, action: AgentAction, u: Option<Understanding>, reply: SelectorReply)
    ensures DncTracked(ctx, ExecuteAuthorized(p, m, ctx, action, u, reply).result)
  {
    if Terminal(p.config, m) {
    } else if action == OfferService {
      if p.offering.Some? { OfferDnc(p, p.offering.value, m, ctx, ToValidator(ctx), reply); }
    } else if ContactAction(action) && ContactState(m.current) {
      if HandlesContact(p, m.current, u) {
        ContactDnc(p, p.resolver.value, p.clarification.value, m, ctx, u.value, ToValidator(ctx));
      }
    } else {
      ApplyDnc(p, m, ctx, action, ToValidator(ctx), SliceThreePath);
    }
  }

  lemma ProposedDnc(p: Parts, m: Machine, ctx: Context, action: AgentAction, u: Option<Understanding>, priority: Priority,
                    reply: SelectorReply)
    ensures DncTracked(ctx, ProcessTurn(p, m, ctx, action, u, priority, reply).result)
  {
    if Terminal(p.config, m) {
    } else if PriorityAction(priority).Some? {
      ApplyDnc(p, m, ctx, PriorityAction(priority).value, ToValidator(ctx), PriorityPath);
    } else if HandlesContact(p, m.current, u) {
      ContactDnc(p, p.resolver.value, p.clarification.value, m, ctx, u.value, ToValidator(ctx));
    } else if action == OfferService && p.offering.Some? {
      OfferDnc(p, p.offering.value, m, ctx, ToValidator(ctx), reply);
    } else {
      ApplyDnc(p, m, ctx, action, ToValidator(ctx), NormalPath);
    }
  }

  /** The calls of a run that executed MARK_DNC. */
  predicate MarksDnc(p: Parts, s: Session, inputs: seq<Input>)
    decreases inputs
  {
    inputs != [] &&
    (|| (!inputs[0].Renewed? && Call(p, s, inputs[0]).result.approvedAction == Some(MarkDnc))
     || MarksDnc(p, Stepped(p, s, inputs[0]).0, inputs[1..]))
  }

  /** Over any run the do-not-call mark is set exactly when a MARK_DNC transition was executed, and is never
      taken back. */
  lemma {:induction false} DncExactly(p: Parts, s: Session, inputs: seq<Input>)
    ensures After(p, s, inputs).context.dncPending <==> s.context.dncPending || MarksDnc(p, s, inputs)
    decreases inputs
  {
    if inputs != [] {
      match inputs[0] {
        case Renewed(_, _, _, _) =>
        case Approved(action) => ApplyDnc(p, s.machine, s.context, action, ToValidator(s.context), OrchestratedPath);
        case Authorized(action, u, reply) => AuthorizedDnc(p, s.machine, s.context, action, u, reply);
        case Proposed(action, u, priority, reply) => ProposedDnc(p, s.machine, s.context, action, u, priority, reply);
      }
      DncExactly(p, Stepped(p, s, inputs[0]).0, inputs[1..]);
    }
  }

  /** The application's value behind a reference. */
  function SourceOf(ctx: Context, reference: Reference): Option<string> {
    match reference
    case CurrentCallNumber => ctx.callNumber
    case BusinessPhone => ctx.businessPhone
    case BusinessEmail => ctx.businessEmail
    case PreviouslyProvided => None
    case Unrecognized => None
  }

  /** The candidate is the canonical form of the context's own value for the reference, and nothing was
      given beside it. */
  ghost predicate FromSource(p: Parts, ctx: Context, u: Understanding, r: Result)
    requires u.reference.Some?
  {
    var source := SourceOf(ctx, u.reference.value);
    && p.resolver.Some? && Given(source) && !Given(u.value)
    && r.context.candidateChannel.Some?
    && r.context.candidate == (if r.context.candidateChannel.value.Email? then p.resolver.value.email(Trim(source.value))
                               else p.resolver.value.phone(Trim(source.value)))
  }

  /** A call with a reference leaves the candidate alone or moves it to the context's own value; a previously
      provided or unrecognized contact never moves it. */
  lemma CandidateSource(p: Parts, s: Session, i: Input)
    requires !i.Renewed? && Heard(i).Some? && Heard(i).value.reference.Some?
    ensures var r := Call(p, s, i).result;
      SameCandidate(r.context, s.context) || FromSource(p, s.context, Heard(i).value, r)
  {
    CallEffects(p, s, i);
    if !SameCandidate(Call(p, s, i).result.context, s.context) {
      ReferenceIsTrusted(p.resolver.value, Heard(i).value, TrustedValues(s.context));
    }
  }
}
