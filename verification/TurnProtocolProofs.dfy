/** Safety of the persisted turn protocol over every interleaving. */
module TurnProtocolProofs {
  import opened Wrappers
  import opened Runs
  import opened SessionStore
  import opened Recovery
  import opened TurnProtocol

  // ----- The invariant -----

  function RowsOf(history: seq<Commit>): map<string, CommittedTurn> {
    if history == [] then map[]
    else
      var last := history[|history| - 1];
      RowsOf(history[..|history| - 1])[last.request := last.row]
  }

  /** The transcript a history amounts to: a prospect entry and an agent entry for each turn, in order. */
  function TranscriptOf(history: seq<Commit>): seq<Entry> {
    if history == [] then []
    else
      var last := history[|history| - 1];
      TranscriptOf(history[..|history| - 1])
      + [Entry(|history|, Prospect, last.text), Entry(|history|, Agent, last.row.agentResponse)]
  }

  /** No request twice; turn i has sequence number and revision i, counted from one. */
  ghost predicate OncePerRequest(history: seq<Commit>) {
    && (forall i, j :: 0 <= i < j < |history| ==> history[i].request != history[j].request)
    && (forall i :: 0 <= i < |history| ==> history[i].row.sequence == history[i].row.revision == i + 1)
  }

  /** Only the last turn of a session that has ended is marked terminal. */
  ghost predicate TerminalEnds(session: Session, history: seq<Commit>) {
    forall i :: 0 <= i < |history| && history[i].row.terminal ==> session.status != Active && i == |history| - 1
  }

  ghost predicate StoreOk(setup: Setup, s: Store, history: seq<Commit>) {
    && OncePerRequest(history) && TerminalEnds(s.session, history)
    && s.rows == RowsOf(history)
    && s.session.transcript == TranscriptOf(history)
    && s.session.turnCount == |history|
    && |history| <= s.session.revision <= |history| + 1
    && (s.session.status == Active ==> s.session.revision == |history|)
    && s.queue.Some? && (s.queue.value.status == InProgress || s.queue.value.isDnc)
  }

  /** A row read earlier is out of date, or it is the row as it stands. */
  ghost predicate CopyOk(s: Store, copy: Session) {
    && copy.status == Active
    && copy.revision <= s.session.revision
    && (copy.revision == s.session.revision ==> copy == s.session)
  }

  ghost predicate TurnCopyOk(s: Store, request: string, sequence: nat, copy: Session) {
    && CopyOk(s, copy) && sequence == copy.turnCount + 1
    && (copy.revision == s.session.revision ==> request !in s.rows)
  }

  ghost predicate HandlerOk(setup: Setup, s: Store, hd: Handler) {
    match hd.stage
    case Received => true
    case Counted(n) => n <= s.session.turnCount
    case Missed(n) => n <= s.session.turnCount && (hd.request in s.rows ==> n < s.session.turnCount)
    case Loaded(sequence, copy) => TurnCopyOk(s, hd.request, sequence, copy)
    case Ran(sequence, copy, _) => TurnCopyOk(s, hd.request, sequence, copy)
    case Exported(sequence, copy, _, state) =>
      && TurnCopyOk(s, hd.request, sequence, copy)
      && state.Some? == setup.capable
    case Answering(row, _) => hd.request in s.rows && s.rows[hd.request] == row
  }

  ghost predicate FinisherOk(s: Store, fin: Finisher) {
    match fin.stage
    case FinishReceived => true
    case FinishRead(copy) => CopyOk(s, copy)
    case FinishChecked(copy) => CopyOk(s, copy)
  }

  ghost predicate HandlersOk(setup: Setup, s: Store, handlers: map<nat, Handler>) {
    forall h :: h in handlers ==> HandlerOk(setup, s, handlers[h])
  }

  ghost predicate FinishersOk(s: Store, finishers: map<nat, Finisher>) {
    forall f :: f in finishers ==> FinisherOk(s, finishers[f])
  }

  ghost predicate WorldOk(setup: Setup, w: World) {
    && StoreOk(setup, w.store, w.history)
    && HandlersOk(setup, w.store, w.handlers)
    && FinishersOk(w.store, w.finishers)
  }

  // ----- What one write does to everyone else -----

  /** `s'` is `s`, or was written over it: a higher revision, no row lost, a longer count if one was added. */
  ghost predicate Evolves(s: Store, s': Store) {
    || (s'.session == s.session && s'.rows == s.rows)
    || (&& s.session.revision < s'.session.revision
        && s.session.turnCount <= s'.session.turnCount
        && (forall r :: r in s.rows ==> r in s'.rows && s'.rows[r] == s.rows[r])
        && (forall r :: r in s'.rows && r !in s.rows ==> s.session.turnCount < s'.session.turnCount))
  }

  lemma HandlerSurvives(setup: Setup, s: Store, s': Store, hd: Handler)
    requires HandlerOk(setup, s, hd) && Evolves(s, s')
    ensures HandlerOk(setup, s', hd)
  {
  }

  lemma OthersSurvive(setup: Setup, s: Store, s': Store, handlers: map<nat, Handler>, finishers: map<nat, Finisher>)
    requires HandlersOk(setup, s, handlers) && FinishersOk(s, finishers) && Evolves(s, s')
    ensures HandlersOk(setup, s', handlers) && FinishersOk(s', finishers)
  {
    forall h | h in handlers ensures HandlerOk(setup, s', handlers[h]) {
      HandlerSurvives(setup, s, s', handlers[h]);
    }
  }

  lemma {:induction false} RowsDomain(history: seq<Commit>, r: string)
    ensures r in RowsOf(history) <==> exists i :: 0 <= i < |history| && history[i].request == r
  {
    if history != [] {
      var before := history[..|history| - 1];
      RowsDomain(before, r);
      if i :| 0 <= i < |history| && history[i].request == r {
        if i < |before| { assert before[i].request == r; }
      }
    }
  }

  lemma {:induction false} RowsValues(history: seq<Commit>, i: nat)
    requires OncePerRequest(history) && i < |history|
    ensures history[i].request in RowsOf(history) && RowsOf(history)[history[i].request] == history[i].row
    decreases |history|
  {
    var before := history[..|history| - 1];
    if i < |before| {
      assert before[i] == history[i];
      RowsValues(before, i);
    }
  }

  lemma RowsHold(history: seq<Commit>)
    ensures forall r :: r in RowsOf(history) <==> exists i :: 0 <= i < |history| && history[i].request == r
    ensures OncePerRequest(history) ==> forall i :: 0 <= i < |history| ==> RowsOf(history)[history[i].request] == history[i].row
  {
    forall r ensures r in RowsOf(history) <==> exists i :: 0 <= i < |history| && history[i].request == r {
      RowsDomain(history, r);
    }
    if OncePerRequest(history) {
      forall i | 0 <= i < |history| ensures RowsOf(history)[history[i].request] == history[i].row {
        RowsValues(history, i);
      }
    }
  }

  /** A history is unfolded at its end. */
  lemma HistoryUnfolds(history: seq<Commit>, c: Commit)
    ensures RowsOf(history + [c]) == RowsOf(history)[c.request := c.row]
    ensures TranscriptOf(history + [c]) ==
            TranscriptOf(history) + [Entry(|history| + 1, Prospect, c.text), Entry(|history| + 1, Agent, c.row.agentResponse)]
  {
    var longer := history + [c];
    assert longer[..|longer| - 1] == history;
  }

  lemma HistoryGrows(history: seq<Commit>, c: Commit)
    requires OncePerRequest(history) && c.request !in RowsOf(history)
    requires c.row.sequence == c.row.revision == |history| + 1
    ensures OncePerRequest(history + [c])
    ensures RowsOf(history + [c]) == RowsOf(history)[c.request := c.row]
    ensures TranscriptOf(history + [c]) ==
            TranscriptOf(history) + [Entry(|history| + 1, Prospect, c.text), Entry(|history| + 1, Agent, c.row.agentResponse)]
  {
    RequestIsNew(history, c.request);
    HistoryUnfolds(history, c);
  }

  lemma RequestIsNew(history: seq<Commit>, request: string)
    requires request !in RowsOf(history)
    ensures forall i :: 0 <= i < |history| ==> history[i].request != request
  {
    RowsHold(history);
  }

  // ----- Every step keeps the invariant -----

  /** The store after a commit. */
  function Written(s: Store, request: string, text: string, sequence: nat, copy: Session, output: Output,
                   state: Option<Exportable>): Store
  {
    Store(NextSession(copy, sequence, text, output), s.rows[request := RowFor(copy, sequence, output)],
          if state.None? then s.snapshot else Some(Readable(Export(state.value, copy.revision + 1))), s.queue)
  }

  lemma TransactWrites(s: Store, request: string, text: string, sequence: nat, copy: Session, output: Output,
                       state: Option<Exportable>)
    requires copy.revision == s.session.revision && request !in s.rows
    ensures Transact(s, request, text, sequence, copy, output, SnapshotFor(state, copy.revision + 1))
         == Some(Written(s, request, text, sequence, copy, output, state))
  {
  }

  lemma WrittenOk(setup: Setup, s: Store, history: seq<Commit>, request: string, text: string, sequence: nat, output: Output,
                  state: Option<Exportable>)
    requires StoreOk(setup, s, history) && s.session.status == Active && sequence == s.session.turnCount + 1
    requires request !in s.rows
    ensures var s' := Written(s, request, text, sequence, s.session, output, state);
      && Evolves(s, s')
      && StoreOk(setup, s', history + [Commit(request, text, RowFor(s.session, sequence, output), state)])
  {
    HistoryGrows(history, Commit(request, text, RowFor(s.session, sequence, output), state));
  }

  lemma CommitReady(setup: Setup, w: World, h: nat)
    requires WorldOk(setup, w) && h in w.handlers && w.handlers[h].stage.Exported?
    requires w.handlers[h].stage.copy.revision == w.store.session.revision
    ensures var stage := w.handlers[h].stage;
      && stage.copy == w.store.session && stage.copy.status == Active && stage.sequence == stage.copy.turnCount + 1
      && w.handlers[h].request !in w.store.rows
  {
    assert HandlerOk(setup, w.store, w.handlers[h]);
  }

  /** A commit whose revision check passes never meets a row of the same request. */
  lemma CommitKeepsStore(setup: Setup, w: World, h: nat)
    requires WorldOk(setup, w) && h in w.handlers && w.handlers[h].stage.Exported?
    requires w.handlers[h].stage.copy.revision == w.store.session.revision
    ensures var Handler(request, text, Exported(sequence, copy, output, state)) := w.handlers[h];
      var s := Transact(w.store, request, text, sequence, copy, output, SnapshotFor(state, copy.revision + 1));
      && s == Some(Written(w.store, request, text, sequence, copy, output, state)) && Evolves(w.store, s.value)
      && StoreOk(setup, s.value, w.history + [Commit(request, text, RowFor(copy, sequence, output), state)])
  {
    var Handler(request, text, Exported(sequence, copy, output, state)) := w.handlers[h];
    CommitReady(setup, w, h);
    TransactWrites(w.store, request, text, sequence, copy, output, state);
    WrittenOk(setup, w.store, w.history, request, text, sequence, output, state);
  }

  lemma WorldAssembles(setup: Setup, w: World, s: Store, history: seq<Commit>, h: nat, hd: Handler)
    requires StoreOk(setup, s, history) && HandlersOk(setup, s, w.handlers) && FinishersOk(s, w.finishers)
    requires HandlerOk(setup, s, hd)
    ensures WorldOk(setup, w.(store := s, history := history, handlers := w.handlers[h := hd]))
  {
  }

  /** The step of a commit that goes through. */
  lemma CommitGoes(w: World, h: nat)
    requires h in w.handlers && w.handlers[h].stage.Exported?
    requires w.handlers[h].stage.copy.revision == w.store.session.revision && w.handlers[h].request !in w.store.rows
    ensures var Handler(request, text, Exported(sequence, copy, output, state)) := w.handlers[h];
      var row := RowFor(copy, sequence, output);
      CommitStep(w, h, false) ==
        (w.(store := Written(w.store, request, text, sequence, copy, output, state),
            history := w.history + [Commit(request, text, row, state)],
            handlers := w.handlers[h := Handler(request, text, Answering(row, false))]), [])
  {
    var Handler(request, text, Exported(sequence, copy, output, state)) := w.handlers[h];
    TransactWrites(w.store, request, text, sequence, copy, output, state);
  }

  lemma CommitKeeps(setup: Setup, w: World, h: nat, storeFails: bool)
    requires WorldOk(setup, w) && h in w.handlers && w.handlers[h].stage.Exported?
    ensures WorldOk(setup, CommitStep(w, h, storeFails).0)
    ensures Evolves(w.store, CommitStep(w, h, storeFails).0.store)
    ensures forall r :: r in CommitStep(w, h, storeFails).1 ==> r.Refused? && r.reason != DuplicateRow
  {
    if !storeFails && w.handlers[h].stage.copy.revision == w.store.session.revision {
      var Handler(request, text, Exported(sequence, copy, output, state)) := w.handlers[h];
      var row := RowFor(copy, sequence, output);
      var s := Written(w.store, request, text, sequence, copy, output, state);
      CommitReady(setup, w, h);
      CommitKeepsStore(setup, w, h);
      CommitGoes(w, h);
      OthersSurvive(setup, w.store, s, w.handlers, w.finishers);
      WorldAssembles(setup, w, s, w.history + [Commit(request, text, row, state)], h,
                     Handler(request, text, Answering(row, false)));
    } else {
      GoneKeeps(setup, w, h);
    }
  }

  lemma MovedKeeps(setup: Setup, w: World, h: nat, stage: Stage)
    requires WorldOk(setup, w) && h in w.handlers
    requires HandlerOk(setup, w.store, w.handlers[h].(stage := stage))
    ensures WorldOk(setup, Moved(w, h, stage))
  {
  }

  lemma GoneKeeps(setup: Setup, w: World, h: nat)
    requires WorldOk(setup, w)
    ensures WorldOk(setup, Gone(w, h))
  {
  }

  /** Reading: the count, the idempotency row, the session row. */
  lemma ReadsKeep(setup: Setup, w: World, a: Action)
    requires WorldOk(setup, w) && (a.Count? || a.Lookup? || a.Load?) && a.h in w.handlers
    ensures WorldOk(setup, HandlerStep(setup, w, a).0)
  {
    var hd, s := w.handlers[a.h], w.store.session;
    assert HandlerOk(setup, w.store, hd);
    GoneKeeps(setup, w, a.h);
    match (a, hd.stage)
    case (Count(_), Received) => MovedKeeps(setup, w, a.h, Counted(s.turnCount));
    case (Lookup(_), Counted(n)) =>
      if hd.request in w.store.rows {
        MovedKeeps(setup, w, a.h, Answering(w.store.rows[hd.request], true));
      } else {
        MovedKeeps(setup, w, a.h, Missed(n));
      }
    case (Load(_), Missed(n)) =>
      if s.status == Active && s.turnCount < n + 1 {
        MovedKeeps(setup, w, a.h, Loaded(n + 1, s));
      }
    case _ =>
  }

  lemma WorkKeeps(setup: Setup, w: World, a: Action)
    requires WorldOk(setup, w) && (a.Run? || a.ExportState? || a.Answer?) && a.h in w.handlers
    ensures WorldOk(setup, HandlerStep(setup, w, a).0)
  {
    assert HandlerOk(setup, w.store, w.handlers[a.h]);
    GoneKeeps(setup, w, a.h);
    match (a, w.handlers[a.h].stage)
    case (Run(_, Some(output)), Loaded(sequence, copy)) => MovedKeeps(setup, w, a.h, Ran(sequence, copy, output));
    case (ExportState(_, state), Ran(sequence, copy, output)) =>
      if !setup.capable {
        MovedKeeps(setup, w, a.h, Exported(sequence, copy, output, None));
      } else if state.Some? {
        MovedKeeps(setup, w, a.h, Exported(sequence, copy, output, state));
      }
    case _ =>
  }

  lemma HandlerStepKeeps(setup: Setup, w: World, a: Action)
    requires WorldOk(setup, w) && OfHandler(a) && a.h in w.handlers
    ensures WorldOk(setup, HandlerStep(setup, w, a).0)
    ensures Evolves(w.store, HandlerStep(setup, w, a).0.store)
  {
    if a.Count? || a.Lookup? || a.Load? {
      ReadsKeep(setup, w, a);
    } else if a.CommitTurn? {
      if w.handlers[a.h].stage.Exported? { CommitKeeps(setup, w, a.h, a.storeFails); }
    } else {
      WorkKeeps(setup, w, a);
    }
  }

  lemma FinishWriteKeeps(setup: Setup, s: Store, history: seq<Commit>, copy: Session, failed: bool)
    requires StoreOk(setup, s, history) && CopyOk(s, copy) && copy.revision == s.session.revision
    ensures var s' := s.(session := copy.(status := FinalStatus(failed), revision := copy.revision + 1));
      StoreOk(setup, s', history) && Evolves(s, s')
  {
  }

  /** A finish call keeps to the row it read, and only its write writes. */
  lemma FinishReadsKeep(setup: Setup, w: World, a: Action)
    requires WorldOk(setup, w)
    requires (a.FinishReads? || a.FinishChecks?) && a.f in w.finishers
    ensures WorldOk(setup, FinishStep(w, a).0) && FinishStep(w, a).0.store == w.store
  {
    assert FinisherOk(w.store, w.finishers[a.f]);
  }

  lemma FinishStepKeeps(setup: Setup, w: World, a: Action)
    requires WorldOk(setup, w)
    requires OfFinish(a) && a.f in w.finishers
    ensures WorldOk(setup, FinishStep(w, a).0)
    ensures Evolves(w.store, FinishStep(w, a).0.store)
  {
    var fin := w.finishers[a.f];
    if !a.FinishWrites? {
      FinishReadsKeep(setup, w, a);
    } else if fin.stage.FinishChecked? && fin.stage.copy.revision == w.store.session.revision {
      assert FinisherOk(w.store, fin);
      FinishWriteKeeps(setup, w.store, w.history, fin.stage.copy, fin.failed);
      OthersSurvive(setup, w.store, FinishStep(w, a).0.store, w.handlers, w.finishers);
    }
  }

  lemma OtherKeeps(setup: Setup, w: World, a: Action)
    requires WorldOk(setup, w) && !OfHandler(a) && !OfFinish(a)
    ensures WorldOk(setup, Step(setup, w, a).0)
    ensures Evolves(w.store, Step(setup, w, a).0.store)
  {
    if a.MarkDnc? {
      OthersSurvive(setup, w.store, Step(setup, w, a).0.store, w.handlers, w.finishers);
    }
  }

  lemma StepKeeps(setup: Setup, w: World, a: Action)
    requires WorldOk(setup, w)
    ensures WorldOk(setup, Step(setup, w, a).0)
    ensures Evolves(w.store, Step(setup, w, a).0.store)
  {
    if OfHandler(a) {
      if a.h in w.handlers { HandlerStepKeeps(setup, w, a); }
    } else if OfFinish(a) {
      if a.f in w.finishers { FinishStepKeeps(setup, w, a); }
    } else {
      OtherKeeps(setup, w, a);
    }
  }

  function After(setup: Setup, w: World, actions: seq<Action>): World {
    Final(Protocol(setup), w, actions)
  }

  lemma {:induction false} RunKeeps(setup: Setup, w: World, actions: seq<Action>)
    requires WorldOk(setup, w)
    ensures WorldOk(setup, After(setup, w, actions))
    decreases actions
  {
    if actions != [] {
      StepKeeps(setup, w, actions[0]);
      RunKeeps(setup, Step(setup, w, actions[0]).0, actions[1..]);
    }
  }

  lemma BeginOk(setup: Setup, policyVersion: Option<string>)
    ensures WorldOk(setup, Begin(policyVersion))
    ensures var w := Begin(policyVersion);
      && w.store == Store(Session(Active, 0, 0, [], policyVersion), map[], None, Some(QueueEntry(InProgress, false)))
      && w.history == [] && w.registered && w.handlers == map[] && w.finishers == map[]
  {
  }

  // ----- Exactly once -----

  /** What a reply promises about the store: it is the stored row of its request, and a terminal turn
      is never reported with an active session. No request is refused for a row already there. */
  ghost predicate ReplyOk(s: Store, r: Reply) {
    && (r.AgentTurn? ==> r.request in s.rows && s.rows[r.request] == r.row
                         && (r.row.terminal ==> r.status != Active))
    && (r.Refused? ==> r.reason != DuplicateRow)
  }

  ghost predicate RepliesOk(s: Store, replies: seq<Reply>) {
    forall r :: r in replies ==> ReplyOk(s, r)
  }

  lemma StepReplies(setup: Setup, w: World, a: Action)
    requires WorldOk(setup, w)
    ensures RepliesOk(Step(setup, w, a).0.store, Step(setup, w, a).1)
  {
    if OfHandler(a) && a.h in w.handlers {
      assert HandlerOk(setup, w.store, w.handlers[a.h]);
      RowsHold(w.history);
      if a.CommitTurn? && w.handlers[a.h].stage.Exported? { CommitKeeps(setup, w, a.h, a.storeFails); }
    }
  }

  lemma {:induction false} RunReplies(setup: Setup, w: World, actions: seq<Action>)
    requires WorldOk(setup, w)
    ensures RepliesOk(After(setup, w, actions).store, Log(Protocol(setup), w, actions))
    ensures forall r :: r in w.store.rows ==> r in After(setup, w, actions).store.rows
                                              && After(setup, w, actions).store.rows[r] == w.store.rows[r]
    decreases actions
  {
    if actions != [] {
      var w' := Step(setup, w, actions[0]).0;
      StepKeeps(setup, w, actions[0]);
      StepReplies(setup, w, actions[0]);
      RunReplies(setup, w', actions[1..]);
    }
  }

  /** Whatever the interleaving, the retries, the failures and the crashes: each request is committed
      at most once, as one turn in an unbroken sequence, with one prospect and one agent entry; every
      successful reply to a request, first or replayed, carries the row that was committed for it; and
      no request is ever refused because its row was already there. */
  lemma ExactlyOnce(setup: Setup, policyVersion: Option<string>, actions: seq<Action>)
    ensures var w := After(setup, Begin(policyVersion), actions);
      && OncePerRequest(w.history)
      && w.store.session.transcript == TranscriptOf(w.history)
      && w.store.session.turnCount == |w.history|
      && (forall r :: r in w.store.rows <==> exists i :: 0 <= i < |w.history| && w.history[i].request == r)
      && (forall i :: 0 <= i < |w.history| ==> w.store.rows[w.history[i].request] == w.history[i].row)
      && RepliesOk(w.store, Log(Protocol(setup), Begin(policyVersion), actions))
  {
    BeginOk(setup, policyVersion);
    RunKeeps(setup, Begin(policyVersion), actions);
    RowsHold(After(setup, Begin(policyVersion), actions).history);
    RunReplies(setup, Begin(policyVersion), actions);
  }

  // ----- The stored snapshot -----

  /** The snapshot is the one exported for the last committed turn. */
  ghost predicate SnapshotCurrent(setup: Setup, w: World) {
    if !setup.capable || w.history == [] then w.store.snapshot.None?
    else
      var state := w.history[|w.history| - 1].state;
      state.Some? && w.store.snapshot == Some(Readable(Taken(state.value, |w.history|)))
  }

  lemma CommitSnapshot(setup: Setup, w: World, h: nat, storeFails: bool)
    requires WorldOk(setup, w) && SnapshotCurrent(setup, w) && h in w.handlers && w.handlers[h].stage.Exported?
    ensures SnapshotCurrent(setup, CommitStep(w, h, storeFails).0)
  {
    if !storeFails && w.handlers[h].stage.copy.revision == w.store.session.revision {
      CommitReady(setup, w, h);
      CommitGoes(w, h);
      assert HandlerOk(setup, w.store, w.handlers[h]);
    }
  }

  lemma OnlyCommitsSnapshot(setup: Setup, w: World, a: Action)
    requires !a.CommitTurn?
    ensures var w' := Step(setup, w, a).0; w'.store.snapshot == w.store.snapshot && w'.history == w.history
  {
  }

  lemma {:induction false} RunSnapshots(setup: Setup, w: World, actions: seq<Action>)
    requires WorldOk(setup, w) && SnapshotCurrent(setup, w)
    ensures SnapshotCurrent(setup, After(setup, w, actions))
    decreases actions
  {
    if actions != [] {
      var a := actions[0];
      if a.CommitTurn? {
        if a.h in w.handlers && w.handlers[a.h].stage.Exported? { CommitSnapshot(setup, w, a.h, a.storeFails); }
      } else {
        OnlyCommitsSnapshot(setup, w, a);
      }
      StepKeeps(setup, w, a);
      RunSnapshots(setup, Step(setup, w, a).0, actions[1..]);
    }
  }

  /** In every reachable state the stored snapshot is, in state, payloads and revision, the one exported for
      the last committed turn; and there is none before the first, or from a processor that cannot export. */
  lemma SnapshotIsLastExport(setup: Setup, policyVersion: Option<string>, actions: seq<Action>)
    ensures SnapshotCurrent(setup, After(setup, Begin(policyVersion), actions))
  {
    BeginOk(setup, policyVersion);
    RunSnapshots(setup, Begin(policyVersion), actions);
  }

  // ----- Session safety -----

  /** Nothing goes back, what is committed stays, and a session that has ended stays ended and as long. */
  ghost predicate Advances(w: World, w': World) {
    var s, s' := w.store.session, w'.store.session;
    && s.revision <= s'.revision && s.turnCount <= s'.turnCount
    && w.history <= w'.history && s.transcript <= s'.transcript
    && s'.policyVersion == s.policyVersion
    && (s.status != Active ==> s'.status != Active && w'.history == w.history && s' == s)
  }

  lemma HandlerAdvances(setup: Setup, w: World, a: Action)
    requires WorldOk(setup, w) && OfHandler(a) && a.h in w.handlers
    ensures Advances(w, HandlerStep(setup, w, a).0)
  {
    if a.CommitTurn? {
      if w.handlers[a.h].stage.Exported? { CommitAdvances(setup, w, a.h, a.storeFails); }
    } else {
      OnlyCommitsWrite(setup, w, a);
    }
  }

  lemma OnlyCommitsWrite(setup: Setup, w: World, a: Action)
    requires OfHandler(a) && !a.CommitTurn? && a.h in w.handlers
    ensures var w' := HandlerStep(setup, w, a).0; w'.store == w.store && w'.history == w.history
  {
  }

  lemma CommitAdvances(setup: Setup, w: World, h: nat, storeFails: bool)
    requires WorldOk(setup, w) && h in w.handlers && w.handlers[h].stage.Exported?
    ensures Advances(w, CommitStep(w, h, storeFails).0)
  {
    if !storeFails && w.handlers[h].stage.copy.revision == w.store.session.revision {
      CommitReady(setup, w, h);
      CommitGoes(w, h);
    }
  }

  lemma FinishAdvances(setup: Setup, w: World, a: Action)
    requires WorldOk(setup, w) && OfFinish(a) && a.f in w.finishers
    ensures Advances(w, FinishStep(w, a).0)
  {
    assert FinisherOk(w.store, w.finishers[a.f]);
  }

  lemma StepAdvances(setup: Setup, w: World, a: Action)
    requires WorldOk(setup, w)
    ensures Advances(w, Step(setup, w, a).0)
  {
    if OfHandler(a) {
      if a.h in w.handlers { HandlerAdvances(setup, w, a); }
    } else if OfFinish(a) {
      if a.f in w.finishers { FinishAdvances(setup, w, a); }
    }
  }

  lemma {:induction false} RunAdvances(setup: Setup, w: World, actions: seq<Action>)
    requires WorldOk(setup, w)
    ensures Advances(w, After(setup, w, actions))
    decreases actions
  {
    if actions != [] {
      StepKeeps(setup, w, actions[0]);
      StepAdvances(setup, w, actions[0]);
      RunAdvances(setup, Step(setup, w, actions[0]).0, actions[1..]);
    }
  }

  /** Between any two points of a run, revision and turn count never decrease and the transcript only
      grows at its end; once the status has left ACTIVE the session row never changes again. */
  lemma SessionSafety(setup: Setup, policyVersion: Option<string>, before: seq<Action>, after: seq<Action>)
    ensures Advances(After(setup, Begin(policyVersion), before), After(setup, Begin(policyVersion), before + after))
  {
    BeginOk(setup, policyVersion);
    RunKeeps(setup, Begin(policyVersion), before);
    FinalAppend(Protocol(setup), Begin(policyVersion), before, after);
    RunAdvances(setup, After(setup, Begin(policyVersion), before), after);
  }

  // ----- Cross-table agreement and recovery -----

  predicate Kept(setup: Setup, policyVersion: Option<string>) {
    setup.manifest == DefaultManifest() && (policyVersion.Some? ==> policyVersion.value in setup.policies)
  }

  function Diagnosis(setup: Setup, s: Store): RecoveryStatus {
    Recover(setup.manifest, Some(s.session), s.queue, setup.policies, Configured(s.snapshot))
  }

  /** In every reachable state with turns committed and the session active, the stored snapshot, the
      session row and the last idempotency row carry the same revision, and recovery resumes the
      session: exactly when its processors can export snapshots. */
  lemma RecoverableExactly(setup: Setup, policyVersion: Option<string>, actions: seq<Action>)
    requires Kept(setup, policyVersion)
    requires var s := After(setup, Begin(policyVersion), actions).store.session; s.status == Active && s.turnCount > 0
    ensures var w := After(setup, Begin(policyVersion), actions);
      && |w.history| == w.store.session.turnCount
      && var last := w.history[|w.history| - 1].request;
      && last in w.store.rows && w.store.rows[last].revision == w.store.session.revision
      && (setup.capable ==>
            && w.store.snapshot.Some? && w.store.snapshot.value.Readable?
            && w.store.snapshot.value.snapshot.sourceRevision == w.store.session.revision
            && Diagnosis(setup, w.store).RecoveredActive?)
      && (!setup.capable ==> Diagnosis(setup, w.store).RuntimeSnapshotMissing?)
  {
    var w := After(setup, Begin(policyVersion), actions);
    BeginOk(setup, policyVersion);
    RunKeeps(setup, Begin(policyVersion), actions);
    RunAdvances(setup, Begin(policyVersion), actions);
    RowsHold(w.history);
    SnapshotIsLastExport(setup, policyVersion, actions);
    if setup.capable {
      ExportsAreRecoverable(w.history[|w.history| - 1].state.value);
      RecoveredActiveExactly(setup.manifest, Some(w.store.session), w.store.queue, setup.policies, Configured(w.store.snapshot));
    }
  }

  /** A crash at any point loses no ACTIVE session that has a policy: a restart registers a processor
      again, unless turns were committed by processors that cannot export. */
  lemma RestartRegisters(setup: Setup, policyVersion: Option<string>, actions: seq<Action>)
    requires Kept(setup, policyVersion)
    requires After(setup, Begin(policyVersion), actions).store.session.status == Active
    ensures var w := After(setup, Begin(policyVersion), actions);
      After(setup, Begin(policyVersion), actions + [Crash, Restore]).registered
      <==> policyVersion.Some? && (setup.capable || w.store.session.turnCount == 0)
  {
    var w := After(setup, Begin(policyVersion), actions);
    var crashed := Step(setup, w, Crash).0;
    FinalAppend(Protocol(setup), Begin(policyVersion), actions, [Crash, Restore]);
    assert [Crash, Restore][1..] == [Restore] && [Restore][1..] == [];
    assert Final(Protocol(setup), w, [Crash, Restore]) == Step(setup, crashed, Restore).0;
    BeginOk(setup, policyVersion);
    RunKeeps(setup, Begin(policyVersion), actions);
    RunAdvances(setup, Begin(policyVersion), actions);
    if w.store.session.turnCount > 0 {
      RecoverableExactly(setup, policyVersion, actions);
    } else {
      SnapshotIsLastExport(setup, policyVersion, actions);
      RecoveredFreshExactly(setup.manifest, Some(w.store.session), w.store.queue, setup.policies, Configured(w.store.snapshot));
    }
  }

  // ----- Progress -----

  lemma Unfolds(setup: Setup, w: World, a: Action, rest: seq<Action>)
    ensures After(setup, w, [a] + rest) == After(setup, Step(setup, w, a).0, rest)
    ensures Log(Protocol(setup), w, [a] + rest) == Step(setup, w, a).1 + Log(Protocol(setup), Step(setup, w, a).0, rest)
  {
    assert ([a] + rest)[1..] == rest;
  }

  function Reading(h: nat, request: string, text: string): seq<Action> {
    [Arrive(h, request, text)] + ([Count(h)] + [Lookup(h)])
  }

  function Preparing(h: nat, output: Output, state: Exportable): seq<Action> {
    [Load(h)] + ([Run(h, Some(output))] + [ExportState(h, Some(state))])
  }

  function Committing(h: nat): seq<Action> { [CommitTurn(h, false)] + [Answer(h)] }

  function Working(h: nat, output: Output, state: Exportable): seq<Action> {
    Preparing(h, output, state) + Committing(h)
  }

  /** One whole turn, left to itself. */
  function WholeTurn(h: nat, request: string, text: string, output: Output, state: Exportable): seq<Action> {
    Reading(h, request, text) + Working(h, output, state)
  }

  lemma ReadingAlone(setup: Setup, w: World, h: nat, request: string, text: string)
    requires h !in w.handlers
    ensures var stage := if request in w.store.rows then Answering(w.store.rows[request], true)
                         else Missed(w.store.session.turnCount);
      After(setup, w, Reading(h, request, text)) == w.(handlers := w.handlers[h := Handler(request, text, stage)])
    ensures Log(Protocol(setup), w, Reading(h, request, text)) == []
  {
    var w1 := Step(setup, w, Arrive(h, request, text)).0;
    var w2 := Step(setup, w1, Count(h)).0;
    Unfolds(setup, w, Arrive(h, request, text), [Count(h)] + [Lookup(h)]);
    Unfolds(setup, w1, Count(h), [Lookup(h)]);
    Unfolds(setup, w2, Lookup(h), []);
    assert [Lookup(h)] + [] == [Lookup(h)];
    assert w2 == w.(handlers := w.handlers[h := Handler(request, text, Counted(w.store.session.turnCount))]);
  }

  lemma MovedTwice(w: World, h: nat, first: Stage, second: Stage)
    requires h in w.handlers
    ensures Moved(Moved(w, h, first), h, second) == Moved(w, h, second)
  {
    assert w.handlers[h := w.handlers[h].(stage := first)][h := w.handlers[h].(stage := second)]
        == w.handlers[h := w.handlers[h].(stage := second)];
  }

  lemma LoadAlone(setup: Setup, w: World, h: nat)
    requires h in w.handlers && w.handlers[h].stage == Missed(w.store.session.turnCount)
    requires w.store.session.status == Active && w.registered
    ensures Step(setup, w, Load(h)) == (Moved(w, h, Loaded(w.store.session.turnCount + 1, w.store.session)), [])
  {
  }

  lemma RunAlone(setup: Setup, w: World, h: nat, sequence: nat, copy: Session, output: Output)
    requires h in w.handlers && w.handlers[h].text != "" && output.text != ""
    ensures Step(setup, Moved(w, h, Loaded(sequence, copy)), Run(h, Some(output)))
         == (Moved(w, h, Ran(sequence, copy, output)), [])
  {
    MovedTwice(w, h, Loaded(sequence, copy), Ran(sequence, copy, output));
  }

  lemma ExportAlone(setup: Setup, w: World, h: nat, sequence: nat, copy: Session, output: Output, state: Exportable)
    requires h in w.handlers
    ensures var exported := if setup.capable then Some(state) else None;
      Step(setup, Moved(w, h, Ran(sequence, copy, output)), ExportState(h, Some(state)))
      == (Moved(w, h, Exported(sequence, copy, output, exported)), [])
  {
    var exported := if setup.capable then Some(state) else None;
    MovedTwice(w, h, Ran(sequence, copy, output), Exported(sequence, copy, output, exported));
  }

  lemma PreparingAlone(setup: Setup, w: World, h: nat, output: Output, state: Exportable)
    requires h in w.handlers && w.handlers[h].stage == Missed(w.store.session.turnCount)
    requires w.store.session.status == Active && w.registered && w.handlers[h].text != "" && output.text != ""
    ensures var s := w.store.session;
      var exported := if setup.capable then Some(state) else None;
      After(setup, w, Preparing(h, output, state)) == Moved(w, h, Exported(s.turnCount + 1, s, output, exported))
    ensures Log(Protocol(setup), w, Preparing(h, output, state)) == []
  {
    var s, n, rest := w.store.session, w.store.session.turnCount + 1, [ExportState(h, Some(state))];
    LoadAlone(setup, w, h);
    SilentStep(setup, w, Load(h), Moved(w, h, Loaded(n, s)), [Run(h, Some(output))] + rest);
    RunAlone(setup, w, h, n, s, output);
    SilentStep(setup, Moved(w, h, Loaded(n, s)), Run(h, Some(output)), Moved(w, h, Ran(n, s, output)), rest);
    ExportAlone(setup, w, h, n, s, output, state);
    OneInput(Protocol(setup), Moved(w, h, Ran(n, s, output)), rest[0]);
  }

  lemma SilentStep(setup: Setup, w: World, a: Action, w': World, rest: seq<Action>)
    requires Step(setup, w, a) == (w', [])
    ensures After(setup, w, [a] + rest) == After(setup, w', rest)
    ensures Log(Protocol(setup), w, [a] + rest) == Log(Protocol(setup), w', rest)
  {
    Unfolds(setup, w, a, rest);
  }

  /** The snapshot of a processor in this state. */
  function Taken(state: Exportable, revision: nat): Snapshot {
    Snapshot(SNAPSHOT_VERSION, revision, state.conversationState, Payloads(state))
  }

  lemma CommittingAlone(setup: Setup, w: World, h: nat)
    requires h in w.handlers && w.handlers[h].stage.Exported? && w.handlers[h].stage.copy == w.store.session
    requires w.handlers[h].request !in w.store.rows
    ensures var Handler(request, text, Exported(sequence, s, output, state)) := w.handlers[h];
      var row := RowFor(s, sequence, output);
      var w' := After(setup, w, Committing(h));
      && w'.history == w.history + [Commit(request, text, row, state)]
      && w'.store == Written(w.store, request, text, sequence, s, output, state)
      && Log(Protocol(setup), w, Committing(h)) == [AgentTurn(request, row, false, w'.store.session.status)]
  {
    CommitGoes(w, h);
    SilentStep(setup, w, CommitTurn(h, false), CommitStep(w, h, false).0, [Answer(h)]);
    OneInput(Protocol(setup), CommitStep(w, h, false).0, Answer(h));
  }

  lemma WorkingAlone(setup: Setup, w: World, h: nat, output: Output, state: Exportable)
    requires h in w.handlers && w.handlers[h].stage == Missed(w.store.session.turnCount)
    requires w.store.session.status == Active && w.registered && w.handlers[h].request !in w.store.rows
    requires w.handlers[h].text != "" && output.text != ""
    ensures var s, request, text := w.store.session, w.handlers[h].request, w.handlers[h].text;
      var row, exported := RowFor(s, s.turnCount + 1, output), if setup.capable then Some(state) else None;
      var w' := After(setup, w, Working(h, output, state));
      && w'.history == w.history + [Commit(request, text, row, exported)]
      && w'.store == Written(w.store, request, text, s.turnCount + 1, s, output, exported)
      && Log(Protocol(setup), w, Working(h, output, state)) == [AgentTurn(request, row, false, w'.store.session.status)]
  {
    PreparingAlone(setup, w, h, output, state);
    CommittingAlone(setup, After(setup, w, Preparing(h, output, state)), h);
    OneAfterAnother(setup, w, Preparing(h, output, state), Committing(h));
  }

  lemma {:induction false} HandlerGone(setup: Setup, w: World, h: nat, actions: seq<Action>)
    requires h !in w.handlers && forall i :: 0 <= i < |actions| ==> OfHandler(actions[i]) && actions[i].h == h
    ensures After(setup, w, actions) == w && Log(Protocol(setup), w, actions) == []
    decreases actions
  {
    if actions != [] {
      HandlerGone(setup, w, h, actions[1..]);
    }
  }

  /** The step that refuses a handler ends it. */
  lemma RefusedAlone(setup: Setup, w: World, a: Action, rest: seq<Action>, reason: Refusal)
    requires OfHandler(a) && a.h in w.handlers && Step(setup, w, a) == Refuse(w, a.h, reason)
    requires forall i :: 0 <= i < |rest| ==> OfHandler(rest[i]) && rest[i].h == a.h
    ensures After(setup, w, [a] + rest) == Gone(w, a.h)
    ensures Log(Protocol(setup), w, [a] + rest) == [Refused(w.handlers[a.h].request, reason)]
  {
    Unfolds(setup, w, a, rest);
    HandlerGone(setup, Gone(w, a.h), a.h, rest);
    assert [Refused(w.handlers[a.h].request, reason)] + [] == [Refused(w.handlers[a.h].request, reason)];
  }

  lemma WorkingRefused(setup: Setup, w: World, h: nat, output: Output, state: Exportable)
    requires h in w.handlers && w.handlers[h].stage == Missed(w.store.session.turnCount)
    requires w.store.session.status != Active || !w.registered || w.handlers[h].text == "" || output.text == ""
    ensures After(setup, w, Working(h, output, state)).store == w.store
    ensures After(setup, w, Working(h, output, state)).history == w.history
    ensures Log(Protocol(setup), w, Working(h, output, state))
         == [Refused(w.handlers[h].request,
                     if w.store.session.status != Active || !w.registered then Stale else ProcessorFailed)]
  {
    var s, n := w.store.session, w.store.session.turnCount + 1;
    var rest := [ExportState(h, Some(state))] + Committing(h);
    assert Working(h, output, state) == [Load(h)] + ([Run(h, Some(output))] + rest);
    if s.status != Active || !w.registered {
      RefusedAlone(setup, w, Load(h), [Run(h, Some(output))] + rest, Stale);
    } else {
      LoadAlone(setup, w, h);
      Unfolds(setup, w, Load(h), [Run(h, Some(output))] + rest);
      RefusedAlone(setup, Moved(w, h, Loaded(n, s)), Run(h, Some(output)), rest, ProcessorFailed);
    }
  }

  lemma ReplayAlone(setup: Setup, w: World, h: nat, request: string, text: string)
    requires h !in w.handlers && request in w.store.rows
    ensures var w' := After(setup, w, Reading(h, request, text) + [Answer(h)]);
      w'.store == w.store && w'.history == w.history
    ensures Log(Protocol(setup), w, Reading(h, request, text) + [Answer(h)])
         == [AgentTurn(request, w.store.rows[request], true, w.store.session.status)]
  {
    ReadingAlone(setup, w, h, request, text);
    var w1 := After(setup, w, Reading(h, request, text));
    FinalAppend(Protocol(setup), w, Reading(h, request, text), [Answer(h)]);
    LogAppend(Protocol(setup), w, Reading(h, request, text), [Answer(h)]);
    Unfolds(setup, w1, Answer(h), []);
    assert [Answer(h)] + [] == [Answer(h)];
  }

  /** An unstored turn can be worked on. */
  predicate Workable(w: World, text: string, output: Output) {
    w.store.session.status == Active && w.registered && text != "" && output.text != ""
  }

  /** A retry left undisturbed is answered with the committed row when there is one, whatever has become of
      the session and its processor; else, exactly when the turn can be worked on, with a commit of its own,
      one turn further. */
  lemma RetrySucceeds(setup: Setup, w: World, h: nat, request: string, text: string, output: Output, state: Exportable)
    requires h !in w.handlers
    ensures var stored, s := request in w.store.rows, w.store.session;
      var actions := if stored then Reading(h, request, text) + [Answer(h)] else WholeTurn(h, request, text, output, state);
      var w', replies := After(setup, w, actions), Log(Protocol(setup), w, actions);
      if stored then
        w'.store == w.store && w'.history == w.history && replies == [AgentTurn(request, w.store.rows[request], true, s.status)]
      else if Workable(w, text, output) then
        var row := CommittedTurn(s.turnCount + 1, s.revision + 1, output.text, output.terminal, output.pipelineOutcome);
        && w'.store.rows == w.store.rows[request := row]
        && w'.history == w.history + [Commit(request, text, row, if setup.capable then Some(state) else None)]
        && w'.store.snapshot == (if setup.capable then Some(Readable(Taken(state, s.revision + 1))) else w.store.snapshot)
        && w'.store.session == s.(status := if output.terminal then Completed else Active, revision := s.revision + 1,
                                  turnCount := s.turnCount + 1,
                                  transcript := s.transcript + [Entry(s.turnCount + 1, Prospect, text),
                                                                Entry(s.turnCount + 1, Agent, output.text)])
        && replies == [AgentTurn(request, row, false, w'.store.session.status)]
      else
        && w'.store == w.store && w'.history == w.history
        && replies == [Refused(request, if s.status != Active || !w.registered then Stale else ProcessorFailed)]
  {
    if request in w.store.rows {
      ReplayAlone(setup, w, h, request, text);
    } else {
      ReadingAlone(setup, w, h, request, text);
      var w1 := After(setup, w, Reading(h, request, text));
      FinalAppend(Protocol(setup), w, Reading(h, request, text), Working(h, output, state));
      LogAppend(Protocol(setup), w, Reading(h, request, text), Working(h, output, state));
      if Workable(w, text, output) {
        WorkingAlone(setup, w1, h, output, state);
      } else {
        WorkingRefused(setup, w1, h, output, state);
      }
    }
  }

  // ----- Finishing a session -----

  /** `actions` neither crash the process nor take a step of finish call `f`. */
  predicate LeavesAlone(actions: seq<Action>, f: nat) {
    forall i :: 0 <= i < |actions| ==>
      && !actions[i].Crash?
      && !(OfFinish(actions[i]) && actions[i].f == f)
  }

  lemma {:induction false} FinisherWaits(setup: Setup, w: World, actions: seq<Action>, f: nat)
    requires f in w.finishers && LeavesAlone(actions, f)
    ensures var w' := After(setup, w, actions); f in w'.finishers && w'.finishers[f] == w.finishers[f]
    decreases actions
  {
    if actions != [] {
      FinisherWaits(setup, Step(setup, w, actions[0]).0, actions[1..], f);
    }
  }

  /** The write of finish_session is not in a transaction with its check. The call always reports the
      session as ended; the session is in fact left ACTIVE exactly when another turn was committed
      between the check and the write, and none of those turns was terminal. */
  lemma FinishLostExactly(setup: Setup, w: World, f: nat, between: seq<Action>)
    requires WorldOk(setup, w) && f in w.finishers
    requires w.finishers[f].stage == FinishChecked(w.store.session) && w.store.session.status == Active
    requires LeavesAlone(between, f)
    ensures var w1 := After(setup, w, between);
      var (w2, replies) := Step(setup, w1, FinishWrites(f));
      && replies == [Finished(FinalStatus(w.finishers[f].failed))]
      && (w2.store.session.status == Active <==> w1.store.session.status == Active && |w.history| < |w1.history|)
  {
    RunKeeps(setup, w, between);
    RunAdvances(setup, w, between);
    FinisherWaits(setup, w, between, f);
  }

  /** A finish call up to its check. */
  function Checking(f: nat, failed: bool): seq<Action> { [FinishArrives(f, failed)] + ([FinishReads(f)] + [FinishChecks(f)]) }

  lemma CheckingAlone(setup: Setup, w: World, f: nat, failed: bool)
    requires f !in w.finishers && w.store.session.status == Active
    ensures After(setup, w, Checking(f, failed))
         == w.(finishers := w.finishers[f := Finisher(failed, FinishChecked(w.store.session))])
    ensures Log(Protocol(setup), w, Checking(f, failed)) == []
  {
    var w1 := Step(setup, w, FinishArrives(f, failed)).0;
    var w2 := Step(setup, w1, FinishReads(f)).0;
    Unfolds(setup, w, FinishArrives(f, failed), [FinishReads(f)] + [FinishChecks(f)]);
    Unfolds(setup, w1, FinishReads(f), [FinishChecks(f)]);
    Unfolds(setup, w2, FinishChecks(f), []);
    assert [FinishChecks(f)] + [] == [FinishChecks(f)];
    assert Step(setup, w2, FinishChecks(f)).0.finishers
        == w.finishers[f := Finisher(failed, FinishChecked(w.store.session))];
  }

  lemma TurnThenWrite(setup: Setup, w: World, f: nat, h: nat, request: string, text: string, output: Output, state: Exportable)
    requires WorldOk(setup, w) && h !in w.handlers && request !in w.store.rows && Workable(w, text, output) && !output.terminal
    requires f in w.finishers && w.finishers[f] == Finisher(false, FinishChecked(w.store.session))
    ensures var w1 := After(setup, w, WholeTurn(h, request, text, output, state));
      var row := CommittedTurn(w.store.session.turnCount + 1, w.store.session.revision + 1, output.text, false, output.pipelineOutcome);
      && Log(Protocol(setup), w, WholeTurn(h, request, text, output, state)) == [AgentTurn(request, row, false, Active)]
      && Step(setup, w1, FinishWrites(f)).0.store.session.status == Active
      && Step(setup, w1, FinishWrites(f)).1 == [Finished(Completed)]
  {
    RetrySucceeds(setup, w, h, request, text, output, state);
    FinishLostExactly(setup, w, f, WholeTurn(h, request, text, output, state));
  }

  lemma Then(setup: Setup, w: World, actions: seq<Action>, a: Action)
    ensures After(setup, w, actions + [a]) == Step(setup, After(setup, w, actions), a).0
    ensures Log(Protocol(setup), w, actions + [a]) == Log(Protocol(setup), w, actions) + Step(setup, After(setup, w, actions), a).1
  {
    FinalAppend(Protocol(setup), w, actions, [a]);
    LogAppend(Protocol(setup), w, actions, [a]);
    OneInput(Protocol(setup), After(setup, w, actions), a);
  }

  /** A finish call left to itself ends an active session, as failed or as completed, and says so; one that
      comes after the end changes nothing and reports how the session ended. */
  lemma FinishAlone(setup: Setup, w: World, f: nat, failed: bool)
    requires f !in w.finishers
    ensures var actions := Checking(f, failed) + [FinishWrites(f)];
      var s := w.store.session;
      var ended := if s.status != Active then s
                   else s.(status := if failed then Error else Completed, revision := s.revision + 1);
      && After(setup, w, actions).store == w.store.(session := ended)
      && Log(Protocol(setup), w, actions) == [Finished(ended.status)]
  {
    Then(setup, w, Checking(f, failed), FinishWrites(f));
    if w.store.session.status == Active {
      CheckingAlone(setup, w, f, failed);
    } else {
      CheckingEnded(setup, w, f, failed);
    }
  }

  lemma CheckingEnded(setup: Setup, w: World, f: nat, failed: bool)
    requires f !in w.finishers && w.store.session.status != Active
    ensures After(setup, w, Checking(f, failed)).store == w.store && f !in After(setup, w, Checking(f, failed)).finishers
    ensures Log(Protocol(setup), w, Checking(f, failed)) == [Finished(w.store.session.status)]
  {
    var w1 := Step(setup, w, FinishArrives(f, failed)).0;
    var w2 := Step(setup, w1, FinishReads(f)).0;
    Unfolds(setup, w, FinishArrives(f, failed), [FinishReads(f)] + [FinishChecks(f)]);
    Unfolds(setup, w1, FinishReads(f), [FinishChecks(f)]);
    OneInput(Protocol(setup), w2, FinishChecks(f));
  }

  lemma OneAfterAnother(setup: Setup, w: World, a: seq<Action>, b: seq<Action>)
    ensures After(setup, w, a + b) == After(setup, After(setup, w, a), b)
    ensures Log(Protocol(setup), w, a + b) == Log(Protocol(setup), w, a) + Log(Protocol(setup), After(setup, w, a), b)
  {
    FinalAppend(Protocol(setup), w, a, b);
    LogAppend(Protocol(setup), w, a, b);
  }

  lemma CheckedThenTurn(setup: Setup, w: World, request: string, text: string, output: Output, state: Exportable)
    requires WorldOk(setup, w)
    requires 0 !in w.finishers && 0 !in w.handlers && request !in w.store.rows && Workable(w, text, output) && !output.terminal
    ensures var actions := Checking(0, false) + WholeTurn(0, request, text, output, state);
      var row := CommittedTurn(w.store.session.turnCount + 1, w.store.session.revision + 1, output.text, false, output.pipelineOutcome);
      var (w', replies) := Step(setup, After(setup, w, actions), FinishWrites(0));
      && Log(Protocol(setup), w, actions) == [AgentTurn(request, row, false, Active)]
      && w'.store.session.status == Active && replies == [Finished(Completed)]
  {
    var turn := WholeTurn(0, request, text, output, state);
    CheckingAlone(setup, w, 0, false);
    RunKeeps(setup, w, Checking(0, false));
    TurnThenWrite(setup, After(setup, w, Checking(0, false)), 0, 0, request, text, output, state);
    OneAfterAnother(setup, w, Checking(0, false), turn);
  }

  lemma LastReply(setup: Setup, w: World, actions: seq<Action>, a: Action, before: Reply, last: Reply)
    requires Log(Protocol(setup), w, actions) == [before]
    requires var (w', replies) := Step(setup, After(setup, w, actions), a);
      replies == [last] && w'.store.session.status == Active
    ensures Log(Protocol(setup), w, actions + [a]) == [before, last]
    ensures After(setup, w, actions + [a]).store.session.status == Active
  {
    Then(setup, w, actions, a);
  }

  /** It happens: a session just begun, a finish call that has checked, one whole turn, and the write. The
      caller is told the session is completed, and it is active. */
  lemma FinishCanBeLost(setup: Setup, policyVersion: Option<string>, request: string, text: string, output: Output,
                        state: Exportable)
    requires text != "" && output.text != "" && !output.terminal
    ensures var actions := Checking(0, false) + WholeTurn(0, request, text, output, state) + [FinishWrites(0)];
      var row := CommittedTurn(1, 1, output.text, false, output.pipelineOutcome);
      && Log(Protocol(setup), Begin(policyVersion), actions) == [AgentTurn(request, row, false, Active), Finished(Completed)]
      && After(setup, Begin(policyVersion), actions).store.session.status == Active
  {
    var begin, turn := Begin(policyVersion), WholeTurn(0, request, text, output, state);
    var row := CommittedTurn(1, 1, output.text, false, output.pipelineOutcome);
    BeginOk(setup, policyVersion);
    CheckedThenTurn(setup, begin, request, text, output, state);
    LastReply(setup, begin, Checking(0, false) + turn, FinishWrites(0), AgentTurn(request, row, false, Active), Finished(Completed));
  }

  // ----- Single steps -----

  /** Marking a lead as do-not-call takes its queue entry out of the queue, and touches nothing else. */
  lemma DncMarked(setup: Setup, w: World)
    ensures var (w', replies) := Step(setup, w, MarkDnc);
      && replies == [] && w' == w.(store := w.store.(queue := w'.store.queue))
      && w'.store.queue == (if w.store.queue.None? then None else Some(QueueEntry(Dnc, true)))
  {
  }

  /** Why a handler is refused on its way, and that a refusal writes nothing. */
  lemma RefusalsTell(setup: Setup, w: World, a: Action)
    requires OfHandler(a) && a.h in w.handlers
    ensures var ((w', replies), hd, s) := (Step(setup, w, a), w.handlers[a.h], w.store.session);
      && (forall r :: r in replies && r.Refused? ==> w'.store == w.store && w'.history == w.history && a.h !in w'.handlers)
      && (a.Load? && hd.stage.Missed? && (s.status != Active || hd.stage.count + 1 <= s.turnCount || !w.registered) ==>
            replies == [Refused(hd.request, Stale)])
      && (a.Run? && hd.stage.Loaded? && (hd.text == "" || a.output.None? || a.output.value.text == "") ==>
            replies == [Refused(hd.request, ProcessorFailed)])
      && (a.ExportState? && hd.stage.Ran? && setup.capable && a.state.None? ==> replies == [Refused(hd.request, ExportFailed)])
      && (a.CommitTurn? && hd.stage.Exported? ==>
            && (a.storeFails ==> replies == [Refused(hd.request, StoreFailed)])
            && (!a.storeFails && hd.stage.copy.revision != s.revision ==> replies == [Refused(hd.request, Stale)])
            && (!a.storeFails && hd.stage.copy.revision == s.revision && hd.request in w.store.rows ==>
                  replies == [Refused(hd.request, DuplicateRow)]))
  {
  }

  /** A crash loses what is in memory and nothing that is stored; a restart registers a processor where one can
      be built, and touches nothing else. */
  lemma CrashKeepsStore(setup: Setup, w: World)
    ensures Step(setup, w, Crash) == (World(w.store, w.history, map[], map[], false), [])
    ensures Step(setup, w, Restore) == (w.(registered := w.registered || CanRebuild(setup, w.store)), [])
  {
  }
}
