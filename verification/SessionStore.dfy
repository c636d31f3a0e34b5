/** The rows of the persistent store that a chat session is made of (app/persistence/sqlite). */
module SessionStore {
  import opened Wrappers

  datatype SessionStatus = Active | Completed | Terminated | Error

  datatype Role = Prospect | Agent

  datatype Entry = Entry(sequence: nat, role: Role, text: string)

  /** A row of `chat_sessions`. The policy version is the one the pre-call plan was made with. */
  datatype Session = Session(
    status: SessionStatus,
    revision: nat,
    turnCount: nat,
    transcript: seq<Entry>,
    policyVersion: Option<string>)

  /** A row of `turn_idempotency`, keyed by the turn request id. */
  datatype CommittedTurn = CommittedTurn(
    sequence: nat,
    revision: nat,
    agentResponse: string,
    terminal: bool,
    pipelineOutcome: Option<string>)

  datatype Body = ReasoningCalls(calls: nat) | OtherBody(text: string)

  /** The JSON text of one payload, as far as recovery looks into it. */
  datatype Envelope = Malformed | NotAnObject | Versioned(version: Option<int>, body: Body)

  datatype Snapshot = Snapshot(
    version: int,
    sourceRevision: nat,
    conversationState: string,
    payloads: seq<(string, Envelope)>)

  datatype StoredSnapshot = Unreadable | Readable(snapshot: Snapshot)

  datatype QueueStatus =
    | PendingLead | Ready | InProgress | CompletedLead | FailedLead | Dnc
    | NeedsReview | Skipped | RetryScheduled | Exhausted

  datatype QueueEntry = QueueEntry(status: QueueStatus, isDnc: bool)

  datatype Store = Store(
    session: Session,
    rows: map<string, CommittedTurn>,
    snapshot: Option<StoredSnapshot>,
    queue: Option<QueueEntry>)

  function MarkedDnc(queue: Option<QueueEntry>): Option<QueueEntry> {
    if queue.None? then None else Some(QueueEntry(Dnc, true))
  }
}
