/** What each event does to a call: the state after it, told in the fields of state and event. */
module CoordinatorEvents {
  import opened Wrappers
  import opened RuntimeContracts
  import opened TurnCoordination
  import opened CoordinatorProofs

  /** The event is remembered, and nothing else has happened. */
  function Noted(s: SessionState, e: RuntimeEvent): SessionState {
    s.(lastSequence := e.sequence, processedEventIds := s.processedEventIds + {e.eventId})
  }

  predicate Running(s: SessionState) {
    s.active.Some? && (s.active.value.status == Pending || s.active.value.status == Delivering)
  }

  /** What the delivery says is left unsaid, or else its plan. */
  function LeftUnsaid(a: ActiveDelivery): Option<string> {
    if a.unfinishedSummary.Some? then a.unfinishedSummary else a.plan.pendingSummary
  }

  /** A summary of nothing but spaces: no interruption can be described with it. */
  predicate Indescribable(a: ActiveDelivery) {
    LeftUnsaid(a).Some? && LeftUnsaid(a).value != "" && Blank(LeftUnsaid(a).value)
  }

  /** `context` says that `e` interrupted `a`. */
  ghost predicate Tells(context: InterruptionContext, e: RuntimeEvent, a: ActiveDelivery) {
    && context.wasInterrupted
    && context.category == (if e.backgroundSpeech then UncertainAddressee else e.category)
    && context.voice == VoiceActivity(e.bargeIn, e.overlappingSpeech, true)
    && context.previousIntent ==
         (if LeftUnsaid(a).None? || LeftUnsaid(a).value == "" then None
          else Some(PendingIntent(a.plan.communicativeGoal, LeftUnsaid(a).value)))
  }

  /** Nothing is said, nothing is asked of the processor, and the state is this. */
  ghost predicate Quietly(c: Coordinator, c': Coordinator, r: CoordinationResult, outcome: Outcome, s: SessionState) {
    && c' == c.(state := s) && r.state == s && r.outcome == outcome
    && r.instructions == [] && r.processedTurn.None? && r.output.None?
  }

  /** A barge-in on a live delivery cancels it, cuts it short, and is remembered for the next turn; without
      one it does nothing. */
  lemma BargeIn(c: Coordinator, e: RuntimeEvent, p: Processor)
    requires Fresh(c.state, e) && e.eventType == UserSpeechStarted
    ensures var (c', r) := Handle(c, e, p);
      if !Running(c.state) then Quietly(c, c', r, Handled, Noted(c.state, e))
      else if Indescribable(c.state.active.value) then Quietly(c, c', r, Raised(BlankSummary), Noted(c.state, e))
      else
        var a := c.state.active.value;
        && r.outcome == Handled && r.instructions == [CancelCurrent(a.turnId)] && c'.calls == c.calls && r.state == c'.state
        && c'.state.pendingInterruption.Some? && Tells(c'.state.pendingInterruption.value, e, a)
        && c'.state == Noted(c.state, e).(
             active := Some(a.(status := Interrupted, progress := if a.status == Delivering then Partial else NotStarted)),
             pendingInterruption := c'.state.pendingInterruption)
  {
  }

  predicate Reports(e: RuntimeEvent) {
    e.eventType in {AgentDeliveryStarted, AgentDeliveryCompleted, AgentDeliveryInterrupted}
  }

  /** A report on the live delivery of the current turn is taken over; a report on anything else is stale. */
  lemma ReportsMove(c: Coordinator, e: RuntimeEvent, p: Processor)
    requires Fresh(c.state, e) && Reports(e)
    ensures var (c', r) := Handle(c, e, p);
      if !Running(c.state) || e.turnId != c.state.currentTurnId then Quietly(c, c', r, StaleIgnored, Noted(c.state, e))
      else
        var a := c.state.active.value;
        if e.eventType == AgentDeliveryStarted then
          Quietly(c, c', r, Handled, Noted(c.state, e).(active := Some(a.(status := Delivering, progress := Partial))))
        else if e.eventType == AgentDeliveryCompleted then
          Quietly(c, c', r, Handled, Noted(c.state, e).(active := Some(a.(status := Completed, progress := Complete))))
        else if Indescribable(a) then Quietly(c, c', r, Raised(BlankSummary), Noted(c.state, e))
        else
          && c'.state.pendingInterruption.Some? && Tells(c'.state.pendingInterruption.value, e, a)
          && Quietly(c, c', r, Handled, Noted(c.state, e).(
               active := Some(a.(status := Interrupted, progress := Partial)),
               pendingInterruption := c'.state.pendingInterruption))
  {
  }

  /** Hanging up ends the call for good, forgets a pending interruption, and cancels what is neither completed
      nor cancelled. */
  lemma HangUpEnds(c: Coordinator, e: RuntimeEvent, p: Processor)
    requires Fresh(c.state, e) && e.eventType == CallDisconnected
    ensures var (c', r) := Handle(c, e, p);
      var ended := Noted(c.state, e).(disconnected := true, pendingInterruption := None);
      if c.state.active.None? || c.state.active.value.status == Completed || c.state.active.value.status == Cancelled then
        Quietly(c, c', r, Handled, ended)
      else
        var a := c.state.active.value;
        && r.outcome == Handled && r.instructions == [CancelCurrent(a.turnId)] && c'.calls == c.calls && r.state == c'.state
        && c'.state == ended.(active := Some(a.(status := Cancelled)))
  {
  }

  lemma OthersPass(c: Coordinator, e: RuntimeEvent, p: Processor)
    requires Fresh(c.state, e) && e.eventType in {CallStarted, RuntimeErrorEvent}
    ensures var (c', r) := Handle(c, e, p);
      Quietly(c, c', r, if e.eventType == CallStarted then Handled else Failed(RuntimeFailure), Noted(c.state, e))
  {
  }

  /** What is not fresh is answered with the first reason that applies, and moves nothing; only an event that
      is merely late is remembered. */
  lemma StaleEventsPass(c: Coordinator, e: RuntimeEvent, p: Processor)
    requires !Fresh(c.state, e)
    ensures var ((c', r), s) := (Handle(c, e, p), c.state);
      if e.callId != s.callId then Quietly(c, c', r, Failed(WrongSession), s)
      else if e.eventId in s.processedEventIds then Quietly(c, c', r, DuplicateIgnored, s)
      else if s.disconnected then Quietly(c, c', r, DisconnectedIgnored, s)
      else Quietly(c, c', r, StaleIgnored, s.(processedEventIds := s.processedEventIds + {e.eventId}))
  {
  }

  // ----- A final utterance -----

  /** The turn as the processor is asked about it. */
  ghost predicate AsksAbout(turn: UserTurn, s: SessionState, e: RuntimeEvent) {
    && Some(turn.turnId) == e.turnId && turn.sequence == e.sequence && Some(turn.utterance) == e.utterance
    && turn.category == e.category
    && turn.addressee == (if e.backgroundSpeech then AddresseeUncertain else e.addressee)
    && (if Running(s) then Tells(turn.interruption, e, s.active.value)
        else if s.pendingInterruption.Some? then Some(turn.interruption) == s.pendingInterruption
        else
          turn.interruption == InterruptionContext(false, if e.backgroundSpeech then UncertainAddressee else e.category, None,
                                                   VoiceActivity(false, e.overlappingSpeech, false)))
  }

  /** A turn that is known, or that cuts a delivery short that cannot be described, never reaches the
      processor. */
  lemma TurnsHeldBack(c: Coordinator, e: RuntimeEvent, p: Processor)
    requires Fresh(c.state, e) && e.eventType == UserUtteranceFinal
    ensures var (c', r) := Handle(c, e, p);
      && (e.turnId.value in c.state.processedTurnIds ==> Quietly(c, c', r, DuplicateIgnored, Noted(c.state, e)))
      && (e.turnId.value !in c.state.processedTurnIds && Running(c.state) && Indescribable(c.state.active.value) ==>
            Quietly(c, c', r, Raised(BlankSummary), Noted(c.state, e)))
  {
  }

  predicate Asked(s: SessionState, e: RuntimeEvent) {
    && Fresh(s, e) && e.eventType == UserUtteranceFinal && e.turnId.value !in s.processedTurnIds
    && !(Running(s) && Indescribable(s.active.value))
  }

  /** Every other turn does, once, with a live delivery cancelled before; and an answer to that turn with
      something to say is spoken and becomes the delivery. */
  lemma TurnsAnswered(c: Coordinator, e: RuntimeEvent, p: Processor)
    requires Asked(c.state, e)
    ensures var (c', r) := Handle(c, e, p);
      var s, id := c.state, e.turnId.value;
      var cancelled := if Running(s) then [CancelCurrent(s.active.value.turnId)] else [];
      && |c'.calls| == |c.calls| + 1 && c'.calls[..|c.calls|] == c.calls && AsksAbout(c'.calls[|c.calls|], s, e)
      && c'.state.processedTurnIds == s.processedTurnIds + {id} && r.state == c'.state
      && match p(c'.calls)
         case Raises =>
           && LeftWaiting(s, e, c'.state) && r.outcome == Failed(TurnProcessingFailed) && r.instructions == cancelled
           && r.processedTurn == Some(c'.calls[|c.calls|]) && r.output.None?
         case Returns(output) =>
           if output.turnId != id then
             && LeftWaiting(s, e, c'.state) && r.outcome == Failed(InvalidEvent) && r.instructions == cancelled
             && r.processedTurn == Some(c'.calls[|c.calls|]) && r.output.None?
           else
             && c'.state.active == Some(ActiveDelivery(id, output.plan, output.text, output.unfinishedSummary, Pending, NotStarted))
             && c'.state.currentTurnId == Some(id) && c'.state.pendingInterruption.None?
             && (output.text != "" ==>
                   && r.outcome == TurnProcessed && r.instructions == cancelled + [Speak(id, output.text)]
                   && r.processedTurn == Some(c'.calls[|c.calls|]) && r.output == Some(output))
             && (output.text == "" ==> r.outcome == Raised(EmptySpeech) && r.instructions == [])
  {
    var called := c.calls + [Handle(c, e, p).0.calls[|c.calls|]];
    assert Handle(c, e, p).0.calls == called;
  }

  /** Without an answer a live delivery stays cancelled and its interruption stays pending. */
  ghost predicate LeftWaiting(s: SessionState, e: RuntimeEvent, s': SessionState) {
    && s'.currentTurnId == s.currentTurnId && s'.disconnected == s.disconnected
    && (if Running(s) then
          && s'.active == Some(s.active.value.(status := Cancelled))
          && s'.pendingInterruption.Some? && Tells(s'.pendingInterruption.value, e, s.active.value)
        else s'.active == s.active && s'.pendingInterruption == s.pendingInterruption)
  }
}
