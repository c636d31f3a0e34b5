/** The call-scoped event coordinator (app/runtime/turn_coordinator.py).

    `Handle` and the functions below it are the specification; class `TurnCoordinator` is the
    object that reassigns its state, handler by handler, and is proved to do exactly that. */
module TurnCoordination {
  import opened Wrappers
  import opened RuntimeContracts

  /** The coordinator's state together with the turns its processor has been called with. */
  datatype Coordinator = Coordinator(state: SessionState, calls: seq<UserTurn>)

  function Initial(callId: string): Coordinator {
    Coordinator(SessionState(callId, None, -1, None, false, None, {}, {}), [])
  }

  function Plain(outcome: Outcome, state: SessionState): CoordinationResult {
    CoordinationResult(outcome, state, [], None, None)
  }

  predicate Live(a: ActiveDelivery) { a.status.Pending? || a.status.Delivering? }

  /** What an interrupted response leaves unfinished; an empty summary counts as none. */
  function Unfinished(a: ActiveDelivery): Option<string> {
    var summary := if a.unfinishedSummary.None? then a.plan.pendingSummary else a.unfinishedSummary;
    if summary.Some? && summary.value == "" then None else summary
  }

  /** The context built when `a` is interrupted by `e`; None where its construction raises. */
  function Interruption(e: RuntimeEvent, a: ActiveDelivery): Option<InterruptionContext> {
    var summary := Unfinished(a);
    if summary.Some? && Blank(summary.value) then None
    else
      Some(InterruptionContext(
        true,
        if e.backgroundSpeech then UncertainAddressee else e.category,
        if summary.None? then None else Some(PendingIntent(a.plan.communicativeGoal, summary.value)),
        VoiceActivity(e.bargeIn, e.overlappingSpeech, true)))
  }

  /** The context handed to the processor when no interruption is pending. */
  function FreshContext(e: RuntimeEvent): InterruptionContext {
    InterruptionContext(false, if e.backgroundSpeech then UncertainAddressee else e.category, None,
                        VoiceActivity(false, e.overlappingSpeech, false))
  }

  function Record(s: SessionState, e: RuntimeEvent, advance: bool): SessionState {
    s.(lastSequence := if advance then e.sequence else s.lastSequence,
       processedEventIds := s.processedEventIds + {e.eventId})
  }

  function SpeechStarted(c: Coordinator, e: RuntimeEvent): (Coordinator, CoordinationResult) {
    var s := c.state;
    if s.active.None? || !Live(s.active.value) then (c, Plain(Handled, s))
    else
      var a := s.active.value;
      match Interruption(e, a)
      case None => (c, Plain(Raised(BlankSummary), s))
      case Some(context) =>
        var interrupted := a.(status := Interrupted,
                              progress := if a.status == Delivering then Partial else NotStarted);
        var s' := s.(active := Some(interrupted), pendingInterruption := Some(context));
        (c.(state := s'), CoordinationResult(Handled, s', [CancelCurrent(a.turnId)], None, None))
  }

  /** The first part of a final utterance: a live delivery is cancelled. None where this raises. */
  function CancelLive(s: SessionState, e: RuntimeEvent): Option<(SessionState, seq<Instruction>)> {
    if s.active.None? || !Live(s.active.value) then Some((s, []))
    else
      var a := s.active.value.(status := Cancelled);
      match Interruption(e, a)
      case None => None
      case Some(context) =>
        Some((s.(active := Some(a), pendingInterruption := Some(context)), [CancelCurrent(a.turnId)]))
  }

  function TurnFor(s: SessionState, e: RuntimeEvent): UserTurn
    requires e.eventType == UserUtteranceFinal
  {
    UserTurn(
      e.turnId.value, e.sequence, e.utterance.value,
      if s.pendingInterruption.Some? then s.pendingInterruption.value else FreshContext(e),
      if e.backgroundSpeech then AddresseeUncertain else e.addressee,
      e.category)
  }

  function NewDelivery(turn: UserTurn, output: TurnOutput): ActiveDelivery {
    ActiveDelivery(turn.turnId, output.plan, output.text, output.unfinishedSummary, Pending, NotStarted)
  }

  function FinalUtterance(c: Coordinator, e: RuntimeEvent, p: Processor): (Coordinator, CoordinationResult)
    requires e.eventType == UserUtteranceFinal
  {
    if e.turnId.value in c.state.processedTurnIds then (c, Plain(DuplicateIgnored, c.state))
    else
      match CancelLive(c.state, e)
      case None => (c, Plain(Raised(BlankSummary), c.state))
      case Some((s, instructions)) =>
        var turn := TurnFor(s, e);
        var called := Coordinator(s.(processedTurnIds := s.processedTurnIds + {turn.turnId}), c.calls + [turn]);
        Conclude(called, turn, instructions, p(called.calls))
  }

  /** What becomes of the processor's reply. An empty text makes the SPEAK instruction raise after
      the state has been replaced, and the cancellation instruction is lost with it. */
  function Conclude(c: Coordinator, turn: UserTurn, instructions: seq<Instruction>, reply: ProcessorReply)
    : (Coordinator, CoordinationResult)
  {
    match reply
    case Raises =>
      (c, CoordinationResult(Failed(TurnProcessingFailed), c.state, instructions, Some(turn), None))
    case Returns(output) =>
      if output.turnId != turn.turnId then
        (c, CoordinationResult(Failed(InvalidEvent), c.state, instructions, Some(turn), None))
      else
        var s := c.state.(currentTurnId := Some(turn.turnId), active := Some(NewDelivery(turn, output)),
                          pendingInterruption := None);
        if output.text == "" then (c.(state := s), Plain(Raised(EmptySpeech), s))
        else
          (c.(state := s),
           CoordinationResult(TurnProcessed, s, instructions + [Speak(turn.turnId, output.text)],
                              Some(turn), Some(output)))
  }

  function DeliveryUpdate(c: Coordinator, e: RuntimeEvent, status: DeliveryStatus): (Coordinator, CoordinationResult)
    requires status in {Delivering, Completed, Interrupted}
  {
    var s := c.state;
    if s.active.None? || e.turnId != s.currentTurnId || !Live(s.active.value) then (c, Plain(StaleIgnored, s))
    else
      var a := s.active.value;
      var a' := a.(status := status, progress := if status == Completed then Complete else Partial);
      if status != Interrupted then
        var s' := s.(active := Some(a'));
        (c.(state := s'), Plain(Handled, s'))
      else
        match Interruption(e, a)
        case None => (c, Plain(Raised(BlankSummary), s))
        case Some(context) =>
          var s' := s.(active := Some(a'), pendingInterruption := Some(context));
          (c.(state := s'), Plain(Handled, s'))
  }

  function Disconnect(c: Coordinator): (Coordinator, CoordinationResult) {
    var s := c.state.(disconnected := true, pendingInterruption := None);
    if s.active.None? || s.active.value.status in {Completed, Cancelled} then
      (c.(state := s), Plain(Handled, s))
    else
      var a := s.active.value;
      var s' := s.(active := Some(a.(status := Cancelled)));
      (c.(state := s'), CoordinationResult(Handled, s', [CancelCurrent(a.turnId)], None, None))
  }

  /** The handler of a recorded event: it never looks at event ids or sequence numbers again. */
  function Dispatch(c: Coordinator, e: RuntimeEvent, p: Processor): (Coordinator, CoordinationResult) {
    match e.eventType
    case CallDisconnected => Disconnect(c)
    case RuntimeErrorEvent => (c, Plain(Failed(RuntimeFailure), c.state))
    case UserSpeechStarted => SpeechStarted(c, e)
    case UserUtteranceFinal => FinalUtterance(c, e, p)
    case AgentDeliveryStarted => DeliveryUpdate(c, e, Delivering)
    case AgentDeliveryCompleted => DeliveryUpdate(c, e, Completed)
    case AgentDeliveryInterrupted => DeliveryUpdate(c, e, Interrupted)
    case CallStarted => (c, Plain(Handled, c.state))
  }

  function Handle(c: Coordinator, e: RuntimeEvent, p: Processor): (Coordinator, CoordinationResult) {
    var s := c.state;
    if e.callId != s.callId then (c, Plain(Failed(WrongSession), s))
    else if e.eventId in s.processedEventIds then (c, Plain(DuplicateIgnored, s))
    else if s.disconnected then (c, Plain(DisconnectedIgnored, s))
    else if e.sequence <= s.lastSequence then
      var s' := Record(s, e, false);
      (c.(state := s'), Plain(StaleIgnored, s'))
    else Dispatch(c.(state := Record(s, e, true)), e, p)
  }

  class TurnCoordinator {
    const processor: Processor
    var state: SessionState
    var calls: seq<UserTurn>

    ghost function Now(): Coordinator
      reads this
    {
      Coordinator(state, calls)
    }

    constructor (callId: string, processor: Processor)
      ensures Now() == Initial(callId) && this.processor == processor
    {
      this.processor := processor;
      state := SessionState(callId, None, -1, None, false, None, {}, {});
      calls := [];
    }

    method HandleEvent(e: RuntimeEvent) returns (r: CoordinationResult)
      modifies this
      ensures Now() == Handle(old(Now()), e, processor).0
      ensures r == Handle(old(Now()), e, processor).1
    {
      if e.callId != state.callId {
        return Plain(Failed(WrongSession), state);
      }
      if e.eventId in state.processedEventIds {
        return Plain(DuplicateIgnored, state);
      }
      if state.disconnected {
        return Plain(DisconnectedIgnored, state);
      }
      if e.sequence <= state.lastSequence {
        RecordEvent(e, false);
        return Plain(StaleIgnored, state);
      }
      RecordEvent(e, true);
      match e.eventType {
        case CallDisconnected => r := OnDisconnect();
        case RuntimeErrorEvent => r := Plain(Failed(RuntimeFailure), state);
        case UserSpeechStarted => r := OnSpeechStarted(e);
        case UserUtteranceFinal => r := OnFinalUtterance(e);
        case AgentDeliveryStarted => r := OnDeliveryUpdate(e, Delivering);
        case AgentDeliveryCompleted => r := OnDeliveryUpdate(e, Completed);
        case AgentDeliveryInterrupted => r := OnDeliveryUpdate(e, Interrupted);
        case CallStarted => r := Plain(Handled, state);
      }
    }

    method RecordEvent(e: RuntimeEvent, advance: bool)
      modifies this
      ensures Now() == old(Now()).(state := Record(old(state), e, advance))
    {
      if advance {
        state := state.(lastSequence := e.sequence);
      }
      state := state.(processedEventIds := state.processedEventIds + {e.eventId});
    }

    method OnSpeechStarted(e: RuntimeEvent) returns (r: CoordinationResult)
      modifies this
      ensures Now() == SpeechStarted(old(Now()), e).0
      ensures r == SpeechStarted(old(Now()), e).1
    {
      if state.active.None? || state.active.value.status in {Completed, Cancelled, Interrupted} {
        return Plain(Handled, state);
      }
      var active := state.active.value;
      assert Live(active);
      var context := Interruption(e, active);
      if context.None? {
        return Plain(Raised(BlankSummary), state);
      }
      var interrupted := active.(status := Interrupted,
                                 progress := if active.status == Delivering then Partial else NotStarted);
      state := state.(active := Some(interrupted), pendingInterruption := context);
      return CoordinationResult(Handled, state, [CancelCurrent(active.turnId)], None, None);
    }

    method OnFinalUtterance(e: RuntimeEvent) returns (r: CoordinationResult)
      requires e.eventType == UserUtteranceFinal
      modifies this
      ensures Now() == FinalUtterance(old(Now()), e, processor).0
      ensures r == FinalUtterance(old(Now()), e, processor).1
    {
      if e.turnId.value in state.processedTurnIds {
        return Plain(DuplicateIgnored, state);
      }
      var instructions := [];
      if state.active.Some? && state.active.value.status in {Pending, Delivering} {
        var active := state.active.value.(status := Cancelled);
        var context := Interruption(e, active);
        if context.None? {
          return Plain(Raised(BlankSummary), state);
        }
        instructions := [CancelCurrent(active.turnId)];
        state := state.(active := Some(active), pendingInterruption := context);
      }
      var turn := TurnFor(state, e);
      state := state.(processedTurnIds := state.processedTurnIds + {turn.turnId});
      calls := calls + [turn];
      var reply := processor(calls);
      if reply.Raises? {
        return CoordinationResult(Failed(TurnProcessingFailed), state, instructions, Some(turn), None);
      }
      var output := reply.output;
      if output.turnId != turn.turnId {
        return CoordinationResult(Failed(InvalidEvent), state, instructions, Some(turn), None);
      }
      var delivery := ActiveDelivery(turn.turnId, output.plan, output.text, output.unfinishedSummary,
                                     Pending, NotStarted);
      state := state.(currentTurnId := Some(turn.turnId), active := Some(delivery), pendingInterruption := None);
      if output.text == "" {
        return Plain(Raised(EmptySpeech), state);
      }
      instructions := instructions + [Speak(turn.turnId, output.text)];
      return CoordinationResult(TurnProcessed, state, instructions, Some(turn), Some(output));
    }

    method OnDeliveryUpdate(e: RuntimeEvent, status: DeliveryStatus) returns (r: CoordinationResult)
      requires status in {Delivering, Completed, Interrupted}
      modifies this
      ensures Now() == DeliveryUpdate(old(Now()), e, status).0
      ensures r == DeliveryUpdate(old(Now()), e, status).1
    {
      if state.active.None? || e.turnId != state.currentTurnId {
        return Plain(StaleIgnored, state);
      }
      var active := state.active.value;
      if active.status in {Cancelled, Interrupted, Completed} {
        return Plain(StaleIgnored, state);
      }
      assert Live(active);
      var progress := if status == Completed then Complete else Partial;
      var updated := active.(status := status, progress := progress);
      if status == Interrupted {
        var context := Interruption(e, active);
        if context.None? {
          return Plain(Raised(BlankSummary), state);
        }
        state := state.(pendingInterruption := context);
      }
      state := state.(active := Some(updated));
      return Plain(Handled, state);
    }

    method OnDisconnect() returns (r: CoordinationResult)
      modifies this
      ensures Now() == Disconnect(old(Now())).0
      ensures r == Disconnect(old(Now())).1
    {
      var instructions := [];
      var active := state.active;
      if active.Some? && active.value.status !in {Completed, Cancelled} {
        instructions := [CancelCurrent(active.value.turnId)];
        active := Some(active.value.(status := Cancelled));
      }
      state := state.(disconnected := true, active := active, pendingInterruption := None);
      return CoordinationResult(Handled, state, instructions, None, None);
    }
  }
}
