/** Clarification over whole runs of the engine: the sessions of a contact dialogue as the context remembers
    them, whatever happens between two contact turns. */
module ContactRuns {
  import opened Wrappers
  import opened Runs
  import opened StateMachine
  import opened Contact
  import opened Catalog
  import opened Engine
  import opened EngineProofs

  /** What was understood in a call that the engine takes for a contact turn. */
  function ContactTurn(p: Parts, s: Session, i: Input): Option<Understanding> {
    if Terminal(p.config, s.machine) then None
    else
      match i
      case Proposed(_, u, priority, _) =>
        if PriorityAction(priority).None? && HandlesContact(p, s.machine.current, u) then u else None
      case Authorized(action, u, _) =>
        if ContactAction(action) && HandlesContact(p, s.machine.current, u) then u else None
      case _ => None
  }

  /** The channel a call asks about and whether it got a value; nothing for a call that is no contact turn,
      confirms what was said before, or refers to something the engine cannot resolve. */
  function Clarified(p: Parts, s: Session, i: Input): seq<(Channel, bool)>
    ensures Clarified(p, s, i) != [] ==> p.clarification.Some? && p.resolver.Some?
  {
    match ContactTurn(p, s, i)
    case None => []
    case Some(u) =>
      var r := Resolve(p.resolver.value, u, TrustedValues(s.context));
      if (s.machine.current.ConfirmContactState? && u.intent.ConfirmIt?) || r.UnsupportedReference? then []
      else [(u.channel, r.Resolved?)]
  }

  /** The decision a remembered clarification state was left by. */
  function Remembered(c: ClarificationState): ClarificationOutcome {
    match c.stage
    case NoStage => Clear
    case ExhaustedStage => Exhausted
    case _ => Retry
  }

  function Decided(p: Parts, s: Session, i: Input): seq<ClarificationOutcome> {
    var now := Stepped(p, s, i).0.context.clarification;
    if Clarified(p, s, i) == [] || now.None? then [] else [Remembered(now.value)]
  }

  /** The engine as a machine that logs its contact turns, and one that logs what it decided in them. */
  function Turns(p: Parts): (Session, Input) -> (Session, seq<(Channel, bool)>) {
    (s: Session, i: Input) => (Stepped(p, s, i).0, Clarified(p, s, i))
  }

  function Decisions(p: Parts): (Session, Input) -> (Session, seq<ClarificationOutcome>) {
    (s: Session, i: Input) => (Stepped(p, s, i).0, Decided(p, s, i))
  }

  // ----- What a call leaves of the clarification -----

  ghost predicate Unasked(ctx: Context, r: Result) { r.context.clarification == ctx.clarification }

  lemma FallbackUnasked(p: Parts, m: Machine, ctx: Context, original: Option<Validation>, vctx: ValidatorContext,
                        d: FallbackDecision, clarification: Option<ClarificationDecision>)
    ensures Unasked(ctx, FallbackPath(p, m, ctx, original, vctx, d, clarification).result)
  {
  }

  lemma ApplyUnasked(p: Parts, m: Machine, ctx: Context, action: AgentAction, vctx: ValidatorContext, path: Path)
    ensures Unasked(ctx, ValidateAndApply(p, m, ctx, action, vctx, path).result)
  {
    var v := p.validate(m.current, action, vctx);
    if !v.allowed && p.fallback.Some? {
      FallbackUnasked(p, m, ctx, Some(v), vctx, p.fallback.value.select(m.current, v, vctx), None);
    }
  }

  lemma RecoverUnasked(p: Parts, m: Machine, ctx: Context, action: AgentAction, vctx: ValidatorContext, path: Path,
                       clarification: Option<ClarificationDecision>)
    ensures Unasked(ctx, Recover(p, m, ctx, action, vctx, path, clarification).result)
  {
    if p.fallback.Some? {
      FallbackUnasked(p, m, ctx, None, vctx, p.fallback.value.selectForState(m.current), clarification);
    }
  }

  lemma OfferUnasked(p: Parts, m: Machine, ctx: Context, vctx: ValidatorContext, reply: SelectorReply)
    requires p.offering.Some?
    ensures Unasked(ctx, OfferPath(p, p.offering.value, m, ctx, vctx, reply).result)
  {
    RecoverUnasked(p, m, ctx, OfferService, vctx, OfferLabel, None);
  }

  /** The context remembers the decision whether or not anything comes of it. */
  lemma ClarificationRemembers(p: Parts, limits: Channel -> Attempts, m: Machine, ctx: Context, channel: Channel, clear: bool,
                               vctx: ValidatorContext)
    ensures RunClarification(p, limits, m, ctx, channel, clear, vctx).result.context.clarification
         == Some(Evaluate(SessionFor(limits, ctx.clarification, channel), clear).newState)
  {
    var d := Evaluate(SessionFor(limits, ctx.clarification, channel), clear);
    var ctx' := ctx.(clarification := Some(d.newState));
    if d.action.None? {
      RecoverUnasked(p, m, ctx', ClarifyContact, vctx, ContactLabel, Some(d));
    } else {
      var v := p.validate(m.current, d.action.value, vctx);
      if !v.allowed && p.fallback.Some? {
        FallbackUnasked(p, m, ctx', Some(v), vctx, p.fallback.value.select(m.current, v, vctx), Some(d));
      }
    }
  }

  /** What the clarification is after a turn with this in it. */
  function Next(limits: Channel -> Attempts, c: Option<ClarificationState>, turns: seq<(Channel, bool)>): Option<ClarificationState> {
    if turns == [] then c else Some(Evaluate(SessionFor(limits, c, turns[0].0), turns[0].1).newState)
  }

  lemma ContactRemembers(p: Parts, m: Machine, ctx: Context, u: Understanding, vctx: ValidatorContext)
    requires p.resolver.Some? && p.clarification.Some?
    ensures var r := Resolve(p.resolver.value, u, TrustedValues(ctx));
      ContactPath(p, p.resolver.value, p.clarification.value, m, ctx, u, vctx).result.context.clarification
      == Next(p.clarification.value, ctx.clarification,
              if (m.current.ConfirmContactState? && u.intent.ConfirmIt?) || r.UnsupportedReference? then []
              else [(u.channel, r.Resolved?)])
  {
    if !(m.current.ConfirmContactState? && u.intent.ConfirmIt?) {
      var r := Resolve(p.resolver.value, u, TrustedValues(ctx));
      RecoverUnasked(p, m, ctx, ClarifyContact, vctx, ContactLabel, None);
      ClarificationRemembers(p, p.clarification.value, m, WithCandidate(ctx, r), u.channel, r.Resolved?,
                             if r.Resolved? && r.value != "" then vctx.(candidate := Some(r.value)) else vctx);
    }
  }

  /** A call that is a contact turn takes the contact path. */
  lemma ContactTurnRemembers(p: Parts, limits: Channel -> Attempts, s: Session, i: Input)
    requires p.clarification == Some(limits) && ContactTurn(p, s, i).Some? && !i.Renewed?
    requires Call(p, s, i) == ContactPath(p, p.resolver.value, limits, s.machine, s.context, ContactTurn(p, s, i).value,
                                          ToValidator(s.context))
    ensures Call(p, s, i).result.context.clarification == Next(limits, s.context.clarification, Clarified(p, s, i))
  {
    ContactRemembers(p, s.machine, s.context, ContactTurn(p, s, i).value, ToValidator(s.context));
  }

  lemma AuthorizedUnasked(p: Parts, s: Session, i: Input)
    requires i.Authorized? && ContactTurn(p, s, i).None?
    ensures Unasked(s.context, Call(p, s, i).result)
  {
    var vctx := ToValidator(s.context);
    if i.action == OfferService && p.offering.Some? { OfferUnasked(p, s.machine, s.context, vctx, i.reply); }
    ApplyUnasked(p, s.machine, s.context, i.action, vctx, SliceThreePath);
  }

  lemma ProposedUnasked(p: Parts, s: Session, i: Input)
    requires i.Proposed? && ContactTurn(p, s, i).None?
    ensures Unasked(s.context, Call(p, s, i).result)
  {
    var vctx := ToValidator(s.context);
    if PriorityAction(i.priority).Some? {
      ApplyUnasked(p, s.machine, s.context, PriorityAction(i.priority).value, vctx, PriorityPath);
    }
    if i.action == OfferService && p.offering.Some? { OfferUnasked(p, s.machine, s.context, vctx, i.reply); }
    ApplyUnasked(p, s.machine, s.context, i.action, vctx, NormalPath);
  }

  lemma StepRemembers(p: Parts, limits: Channel -> Attempts, s: Session, i: Input)
    requires p.clarification == Some(limits)
    ensures Stepped(p, s, i).0.context.clarification == Next(limits, s.context.clarification, Clarified(p, s, i))
  {
    if ContactTurn(p, s, i).Some? {
      ContactTurnRemembers(p, limits, s, i);
    } else {
      match i
      case Renewed(_, _, _, _) =>
      case Approved(action) => ApplyUnasked(p, s.machine, s.context, action, ToValidator(s.context), OrchestratedPath);
      case Authorized(_, _, _) => AuthorizedUnasked(p, s, i);
      case Proposed(_, _, _, _) => ProposedUnasked(p, s, i);
    }
  }

  lemma OneTurn(limits: Channel -> Attempts, c: Option<ClarificationState>, turn: (Channel, bool), rest: seq<(Channel, bool)>)
    ensures var next := Next(limits, c, [turn]);
      Outcomes(limits, c, [turn] + rest) == [Remembered(next.value)] + Outcomes(limits, next, rest)
  {
    assert ([turn] + rest)[1..] == rest;
  }

  /** Over any engine run, with offers, priorities, confirmations and anything else between them, the decisions
      of its contact turns are those of these turns put one after the other. */
  lemma {:induction false} DecisionsAreOutcomes(p: Parts, limits: Channel -> Attempts, s: Session, inputs: seq<Input>)
    requires p.clarification == Some(limits)
    ensures Log(Decisions(p), s, inputs) == Outcomes(limits, s.context.clarification, Log(Turns(p), s, inputs))
    decreases inputs
  {
    if inputs != [] {
      var s', turns := Stepped(p, s, inputs[0]).0, Clarified(p, s, inputs[0]);
      var rest := Log(Turns(p), s', inputs[1..]);
      StepRemembers(p, limits, s, inputs[0]);
      DecisionsAreOutcomes(p, limits, s', inputs[1..]);
      if turns == [] {
        assert turns + rest == rest;
      } else {
        assert turns == [turns[0]];
        OneTurn(limits, s.context.clarification, turns[0], rest);
      }
    }
  }

  /** How often the prospect is asked again over any engine run that begins without a clarification. */
  lemma RetriesOverEngineRuns(p: Parts, limits: Channel -> Attempts, s: Session, inputs: seq<Input>)
    requires p.clarification == Some(limits) && s.context.clarification.None?
    ensures Retries(Log(Decisions(p), s, inputs)) == RetriesOfStretches(limits, Log(Turns(p), s, inputs))
  {
    DecisionsAreOutcomes(p, limits, s, inputs);
    RetriesOverRuns(limits, Log(Turns(p), s, inputs));
  }
}
