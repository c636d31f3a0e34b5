/** The persisted turn protocol as an interleaving of the steps its parts take, for one session: request
    handlers (routes/sessions.py, websocket/chat.py, PersistentSalesRuntime.process_turn), calls of
    finish_session, crash and restart. One action is one step that no other step can cut in two;
    an action that is not enabled changes nothing. */
module TurnProtocol {
  import opened Wrappers
  import opened SessionStore
  import opened Recovery

  /** What the processor returns for a turn. */
  datatype Output = Output(text: string, terminal: bool, pipelineOutcome: Option<string>)

  /** How far a request handler has got. The turn count is read first, before the idempotency row. */
  datatype Stage =
    | Received
    | Counted(count: nat)
    | Missed(count: nat)
    | Loaded(sequence: nat, copy: Session)
    | Ran(sequence: nat, copy: Session, output: Output)
    | Exported(sequence: nat, copy: Session, output: Output, state: Option<Exportable>)
    | Answering(row: CommittedTurn, replayed: bool)

  datatype Handler = Handler(request: string, text: string, stage: Stage)

  datatype FinishStage = FinishReceived | FinishRead(copy: Session) | FinishChecked(copy: Session)

  datatype Finisher = Finisher(failed: bool, stage: FinishStage)

  datatype Refusal = Stale | ProcessorFailed | ExportFailed | StoreFailed | DuplicateRow

  datatype Reply =
    | AgentTurn(request: string, row: CommittedTurn, replayed: bool, status: SessionStatus)
    | Refused(request: string, reason: Refusal)
    | Finished(status: SessionStatus)

  /** A committed turn, for the record: no step of the system reads it. */
  datatype Commit = Commit(request: string, text: string, row: CommittedTurn, state: Option<Exportable>)

  datatype World = World(
    store: Store,
    history: seq<Commit>,
    handlers: map<nat, Handler>,
    finishers: map<nat, Finisher>,
    registered: bool)

  /** What stays fixed: whether processors can export snapshots, which policies are kept, the manifest. */
  datatype Setup = Setup(capable: bool, policies: set<string>, manifest: Manifest)

  datatype Action =
    | Arrive(h: nat, request: string, text: string)
    | Count(h: nat)
    | Lookup(h: nat)
    | Load(h: nat)
    | Run(h: nat, output: Option<Output>)              // None: the processor raises
    | ExportState(h: nat, state: Option<Exportable>)   // None: the export raises
    | CommitTurn(h: nat, storeFails: bool)
    | Answer(h: nat)
    | FinishArrives(f: nat, failed: bool)
    | FinishReads(f: nat)
    | FinishChecks(f: nat)
    | FinishWrites(f: nat)
    | MarkDnc
    | Crash
    | Restore

  /** A session as bootstrap leaves it, its processor registered and its lead in progress. */
  function Begin(policyVersion: Option<string>): World {
    World(Store(Session(Active, 0, 0, [], policyVersion), map[], None, Some(QueueEntry(InProgress, false))),
          [], map[], map[], true)
  }

  function Moved(w: World, h: nat, stage: Stage): World
    requires h in w.handlers
  {
    w.(handlers := w.handlers[h := w.handlers[h].(stage := stage)])
  }

  function Gone(w: World, h: nat): World { w.(handlers := w.handlers - {h}) }

  function Refuse(w: World, h: nat, reason: Refusal): (World, seq<Reply>)
    requires h in w.handlers
  {
    (Gone(w, h), [Refused(w.handlers[h].request, reason)])
  }

  /** The session row a turn wants to write, from the copy of the row it read. */
  function NextSession(copy: Session, sequence: nat, text: string, output: Output): Session {
    copy.(status := if output.terminal then Completed else Active,
          revision := copy.revision + 1,
          turnCount := sequence,
          transcript := copy.transcript + [Entry(sequence, Prospect, text), Entry(sequence, Agent, output.text)])
  }

  function RowFor(copy: Session, sequence: nat, output: Output): CommittedTurn {
    CommittedTurn(sequence, copy.revision + 1, output.text, output.terminal, output.pipelineOutcome)
  }

  /** The snapshot exported for the row at this revision; None for a processor that cannot export. */
  function SnapshotFor(state: Option<Exportable>, revision: nat): Option<Snapshot> {
    if state.None? then None else Some(Export(state.value, revision))
  }

  /** The write transaction: all of it or none of it. */
  function Transact(s: Store, request: string, text: string, sequence: nat, copy: Session, output: Output,
                    snapshot: Option<Snapshot>): Option<Store>
  {
    if copy.revision != s.session.revision || request in s.rows then None
    else
      Some(s.(session := NextSession(copy, sequence, text, output),
              rows := s.rows[request := RowFor(copy, sequence, output)],
              snapshot := if snapshot.None? then s.snapshot
                          else Some(Readable(snapshot.value.(sourceRevision := copy.revision + 1)))))
  }

  function CommitStep(w: World, h: nat, storeFails: bool): (World, seq<Reply>)
    requires h in w.handlers && w.handlers[h].stage.Exported?
  {
    var Handler(request, text, Exported(sequence, copy, output, state)) := w.handlers[h];
    if storeFails then Refuse(w, h, StoreFailed)
    else if copy.revision != w.store.session.revision then Refuse(w, h, Stale)
    else
      match Transact(w.store, request, text, sequence, copy, output, SnapshotFor(state, copy.revision + 1))
      case None => Refuse(w, h, DuplicateRow)
      case Some(s) =>
        var row := RowFor(copy, sequence, output);
        (Moved(w, h, Answering(row, false)).(store := s, history := w.history + [Commit(request, text, row, state)]), [])
  }

  predicate OfHandler(a: Action) {
    a.Count? || a.Lookup? || a.Load? || a.Run? || a.ExportState? || a.CommitTurn? || a.Answer?
  }

  predicate OfFinish(a: Action) { a.FinishReads? || a.FinishChecks? || a.FinishWrites? }

  function HandlerStep(setup: Setup, w: World, a: Action): (World, seq<Reply>)
    requires OfHandler(a) && a.h in w.handlers
  {
    var h, hd, s := a.h, w.handlers[a.h], w.store.session;
    match (a, hd.stage)
    case (Count(_), Received) => (Moved(w, h, Counted(s.turnCount)), [])
    case (Lookup(_), Counted(n)) =>
      (Moved(w, h, if hd.request in w.store.rows then Answering(w.store.rows[hd.request], true) else Missed(n)), [])
    case (Load(_), Missed(n)) =>
      if s.status != Active || n + 1 <= s.turnCount || !w.registered then Refuse(w, h, Stale)
      else (Moved(w, h, Loaded(n + 1, s)), [])
    case (Run(_, output), Loaded(sequence, copy)) =>
      if hd.text == "" || output.None? || output.value.text == "" then Refuse(w, h, ProcessorFailed)
      else (Moved(w, h, Ran(sequence, copy, output.value)), [])
    case (ExportState(_, state), Ran(sequence, copy, output)) =>
      if !setup.capable then (Moved(w, h, Exported(sequence, copy, output, None)), [])
      else if state.None? then Refuse(w, h, ExportFailed)
      else (Moved(w, h, Exported(sequence, copy, output, state)), [])
    case (CommitTurn(_, storeFails), Exported(_, _, _, _)) => CommitStep(w, h, storeFails)
    case (Answer(_), Answering(row, replayed)) =>
      (Gone(w, h), [AgentTurn(hd.request, row, replayed, s.status)])
    case _ => (w, [])
  }

  function FinalStatus(failed: bool): SessionStatus { if failed then Error else Completed }

  function FinishStep(w: World, a: Action): (World, seq<Reply>)
    requires OfFinish(a) && a.f in w.finishers
  {
    var f, fin, s := a.f, w.finishers[a.f], w.store.session;
    var gone := w.(finishers := w.finishers - {f});
    match (a, fin.stage)
    case (FinishReads(_), FinishReceived) =>
      if s.status != Active then (gone, [Finished(s.status)])
      else (w.(finishers := w.finishers[f := fin.(stage := FinishRead(s))]), [])
    case (FinishChecks(_), FinishRead(copy)) =>
      if copy.revision != s.revision then (gone, [Finished(s.status)])
      else (w.(finishers := w.finishers[f := fin.(stage := FinishChecked(copy))]), [])
    case (FinishWrites(_), FinishChecked(copy)) =>
      var written := copy.(status := FinalStatus(fin.failed), revision := copy.revision + 1);
      (if copy.revision == s.revision then gone.(store := w.store.(session := written)) else gone,
       [Finished(FinalStatus(fin.failed))])
    case _ => (w, [])
  }

  function Step(setup: Setup, w: World, a: Action): (World, seq<Reply>) {
    if OfHandler(a) then if a.h in w.handlers then HandlerStep(setup, w, a) else (w, [])
    else if OfFinish(a) then if a.f in w.finishers then FinishStep(w, a) else (w, [])
    else
      match a
      case Arrive(h, request, text) =>
        (if h in w.handlers then w else w.(handlers := w.handlers[h := Handler(request, text, Received)]), [])
      case FinishArrives(f, failed) =>
        (if f in w.finishers then w else w.(finishers := w.finishers[f := Finisher(failed, FinishReceived)]), [])
      case MarkDnc => (w.(store := w.store.(queue := MarkedDnc(w.store.queue))), [])
      case Crash => (w.(handlers := map[], finishers := map[], registered := false), [])
      case Restore => (w.(registered := w.registered || CanRebuild(setup, w.store)), [])
  }

  predicate CanRebuild(setup: Setup, s: Store) {
    Rebuilds(setup.manifest, Some(s.session), s.queue, setup.policies, Configured(s.snapshot))
  }

  /** The protocol as a machine that logs the replies it sends. */
  function Protocol(setup: Setup): (World, Action) -> (World, seq<Reply>) {
    (w: World, a: Action) => Step(setup, w, a)
  }
}
