/** Events, deliveries and session state of the turn coordinator (app/runtime/contracts.py). */
module RuntimeContracts {
  import opened Wrappers

  datatype EventType =
    | CallStarted
    | UserSpeechStarted
    | UserUtteranceFinal
    | AgentDeliveryStarted
    | AgentDeliveryCompleted
    | AgentDeliveryInterrupted
    | CallDisconnected
    | RuntimeErrorEvent

  datatype AddresseeStatus = AddressedToAgent | NotAddressedToAgent | AddresseeUncertain

  datatype InterruptionCategory =
    | Answer | Question | Objection | Correction | TopicShift | Clarification
    | UncertainAddressee | Other

  datatype DeliveryStatus = Pending | Delivering | Completed | Interrupted | Cancelled

  datatype DeliveryProgress = NotStarted | Partial | Complete

  datatype EventFields = EventFields(
    eventId: string,
    callId: string,
    sequence: nat,
    eventType: EventType,
    turnId: Option<string>,
    utterance: Option<string>,
    bargeIn: bool,
    overlappingSpeech: bool,
    backgroundSpeech: bool,
    addressee: AddresseeStatus,
    category: InterruptionCategory)
  {
    /** The checks an event passes when it is constructed. */
    predicate WellFormed() {
      && eventId != "" && callId != ""
      && (eventType == UserUtteranceFinal ==>
            && turnId.Some? && turnId.value != ""
            && utterance.Some? && 0 < |utterance.value| <= 2000)
      && (eventType in {AgentDeliveryStarted, AgentDeliveryCompleted, AgentDeliveryInterrupted} ==>
            turnId.Some? && turnId.value != "")
    }
  }

  type RuntimeEvent = e: EventFields | e.WellFormed()
    witness EventFields("e", "c", 0, CallStarted, None, None, false, false, false, AddressedToAgent, Other)

  datatype PendingIntent = PendingIntent(goal: string, summary: string)

  datatype VoiceActivity = VoiceActivity(bargeIn: bool, overlapping: bool, duringAgentOutput: bool)

  datatype InterruptionContext = InterruptionContext(
    wasInterrupted: bool,
    category: InterruptionCategory,
    previousIntent: Option<PendingIntent>,
    voice: VoiceActivity)

  /** The two fields of a response plan the coordinator reads. */
  datatype ResponsePlan = ResponsePlan(communicativeGoal: string, pendingSummary: Option<string>)

  datatype UserTurn = UserTurn(
    turnId: string,
    sequence: nat,
    utterance: string,
    interruption: InterruptionContext,
    addressee: AddresseeStatus,
    category: InterruptionCategory)

  datatype TurnOutput = TurnOutput(
    turnId: string,
    plan: ResponsePlan,
    text: string,
    unfinishedSummary: Option<string>)

  datatype ActiveDelivery = ActiveDelivery(
    turnId: string,
    plan: ResponsePlan,
    text: string,
    unfinishedSummary: Option<string>,
    status: DeliveryStatus,
    progress: DeliveryProgress)

  datatype Instruction = Speak(turnId: string, text: string) | CancelCurrent(turnId: string)

  datatype FailureKind = WrongSession | TurnProcessingFailed | InvalidEvent | RuntimeFailure

  /** Why a constructor raised out of `handle`: the exception is not caught there. */
  datatype EscapedError = EmptySpeech | BlankSummary

  datatype Outcome =
    | Handled
    | TurnProcessed
    | DuplicateIgnored
    | StaleIgnored
    | DisconnectedIgnored
    | Failed(failure: FailureKind)
    | Raised(error: EscapedError)

  datatype SessionState = SessionState(
    callId: string,
    currentTurnId: Option<string>,
    lastSequence: int,
    active: Option<ActiveDelivery>,
    disconnected: bool,
    pendingInterruption: Option<InterruptionContext>,
    processedEventIds: set<string>,
    processedTurnIds: set<string>)

  datatype CoordinationResult = CoordinationResult(
    outcome: Outcome,
    state: SessionState,
    instructions: seq<Instruction>,
    processedTurn: Option<UserTurn>,
    output: Option<TurnOutput>)

  /** What one call of the injected processor can do: raise, or return some output. */
  datatype ProcessorReply = Raises | Returns(output: TurnOutput)

  /** A turn processor, as the reply it gives to the last of the turns it has been called with.
      Any state it keeps is a function of those calls. */
  type Processor = seq<UserTurn> -> ProcessorReply
}
