/** The persistent runtime as the object it is, one call at a time, with the processor it drives
    (persistent_runtime.py, production_turn_processor.py). What calls do to each other when they overlap
    is the business of the turn protocol; here the subject is the processor's memory: which failures give
    it back, and what a restart brings back. */
module PersistentRuntime {
  import opened Wrappers
  import opened SessionStore
  import opened Recovery
  import opened TurnProtocol
  import opened Budget

  // ----- The processor -----

  /** The processor state that takes part in rollback or in the reasoning budget. */
  datatype Memory = Memory(reasoningCalls: nat, turns: nat, coverage: seq<string>)

  datatype RaisePoint = Never | BeforeBrain | DuringBrain | AfterBrain | AfterCoverage

  /** What the environment makes of one processor turn: a trusted priority, whether the provider is there,
      what gets explained, and where an exception strikes. A reasoning error of the provider is no exception
      here; any other one it ends in strikes `DuringBrain`. */
  datatype Behaviour = Behaviour(
    priority: bool,
    providerConsulted: bool,
    explained: seq<string>,
    raises: RaisePoint,
    output: Output)

  /** The provider is asked in this turn. */
  predicate Asked(limits: Limits, m: Memory, b: Behaviour) {
    && b.raises != BeforeBrain && !b.priority && b.providerConsulted
    && Continues(Evaluate(Some(StateOf(limits, m.turns, m.reasoningCalls)), NO_SIGNALS, Some(limits)))
  }

  /** The provider is asked and the call counted: the pipeline came back with the provider's name. */
  predicate Charged(limits: Limits, m: Memory, b: Behaviour) { Asked(limits, m, b) && b.raises != DuringBrain }

  function Processed(limits: Limits, m: Memory, b: Behaviour): Memory {
    if b.raises in {BeforeBrain, DuringBrain} then m
    else
      Memory(m.reasoningCalls + (if Charged(limits, m, b) then 1 else 0), m.turns + 1,
             if b.raises == AfterBrain then m.coverage else m.coverage + b.explained)
  }

  function Produced(b: Behaviour): Option<Output> {
    if b.raises == Never then Some(b.output) else None
  }

  class ProductionTurnProcessor {
    const limits: Limits
    var reasoningCalls: nat
    var turnCount: nat
    var discussionCoverage: seq<string>

    ghost function Now(): Memory
      reads this
    {
      Memory(reasoningCalls, turnCount, discussionCoverage)
    }

    constructor (limits: Limits, initialReasoningCalls: nat, coverage: seq<string>)
      ensures this.limits == limits && Now() == Memory(initialReasoningCalls, 0, coverage)
    {
      this.limits := limits;
      reasoningCalls, turnCount, discussionCoverage := initialReasoningCalls, 0, coverage;
    }

    method ProcessTurn(b: Behaviour) returns (r: Option<Output>)
      modifies this
      ensures Now() == Processed(limits, old(Now()), b)
      ensures r == Produced(b)
    {
      if b.raises == BeforeBrain { return None; }
      var budget := StateOf(limits, turnCount, reasoningCalls);
      var consulted := false;
      if !b.priority {
        var decision := Evaluate(Some(budget), NO_SIGNALS, Some(limits));
        consulted := Continues(decision) && b.providerConsulted;
      }
      if b.raises == DuringBrain { return None; }
      turnCount := turnCount + 1;
      if consulted {
        reasoningCalls := reasoningCalls + 1;
      }
      if b.raises == AfterBrain { return None; }
      discussionCoverage := discussionCoverage + b.explained;
      return if b.raises == AfterCoverage then None else Some(b.output);
    }
  }

  // ----- The runtime -----

  datatype Runtime = Runtime(store: Store, processor: Option<Memory>)

  datatype TurnOutcome = Replayed(row: CommittedTurn) | Committed(row: CommittedTurn) | Failed(reason: Refusal)

  /** One call: the request, and how the processor, the export and the store behave during it. */
  datatype Call = Call(request: string, text: string, sequence: nat, behaviour: Behaviour,
                       rest: Option<Exportable>, storeFails: bool)

  function Serialized(coverage: seq<string>): string {
    if coverage == [] then "" else coverage[0] + ";" + Serialized(coverage[1..])
  }

  /** What is exported: the counter and the coverage as they stand, the rest as the environment has it. */
  function ExportOf(m: Memory, rest: Exportable): Exportable {
    rest.(reasoningCalls := m.reasoningCalls,
          coverage := if m.coverage == [] then None else Some(Serialized(m.coverage)))
  }

  /** The state exported for the snapshot; the outer None where the export raises. */
  function ExportedState(capable: bool, m: Memory, rest: Option<Exportable>): Option<Option<Exportable>> {
    if !capable then Some(None)
    else if rest.None? then None
    else Some(Some(ExportOf(m, rest.value)))
  }

  /** What survives of the turn after a failed commit: coverage and reasoning calls are put back, the
      turn counter is not. */
  function RolledBack(before: Memory, after: Memory): Memory {
    after.(coverage := before.coverage, reasoningCalls := before.reasoningCalls)
  }

  function Commits(setup: Setup, store: Store, call: Call, before: Memory, after: Memory, output: Output): (Runtime, TurnOutcome) {
    var s := store.session;
    match ExportedState(setup.capable, after, call.rest)
    case None => (Runtime(store, Some(after)), Failed(ExportFailed))
    case Some(state) =>
      var written := Transact(store, call.request, call.text, call.sequence, s, output, SnapshotFor(state, s.revision + 1));
      if call.storeFails || written.None? then
        (Runtime(store, Some(RolledBack(before, after))), Failed(if call.storeFails then StoreFailed else DuplicateRow))
      else
        (Runtime(written.value, Some(after)), Committed(RowFor(s, call.sequence, output)))
  }

  function Turn(setup: Setup, limits: Limits, rt: Runtime, call: Call): (Runtime, TurnOutcome) {
    var s := rt.store.session;
    if call.request in rt.store.rows then (rt, Replayed(rt.store.rows[call.request]))
    else if s.status != Active || call.sequence <= s.turnCount || rt.processor.None? then (rt, Failed(Stale))
    else if call.text == "" then (rt, Failed(ProcessorFailed))
    else
      var before := rt.processor.value;
      var after := Processed(limits, before, call.behaviour);
      var output := Produced(call.behaviour);
      if output.None? || output.value.text == "" then (rt.(processor := Some(after)), Failed(ProcessorFailed))
      else Commits(setup, rt.store, call, before, after, output.value)
  }

  /** The processor a restart builds, if it builds one, from the coverage its factory reads back; a
      factory that does not read the counter back starts it from zero. */
  function Restarted(setup: Setup, rt: Runtime, restoresCalls: bool, coverage: seq<string>): Runtime {
    if !CanRebuild(setup, rt.store) then rt.(processor := None)
    else
      match rt.store.snapshot
      case Some(Readable(snapshot)) =>
        if Recover(setup.manifest, Some(rt.store.session), rt.store.queue, setup.policies,
                   Configured(rt.store.snapshot)).RecoveredActive? && restoresCalls
        then rt.(processor := Some(Memory(RestoredCalls(snapshot), 0, coverage)))
        else rt.(processor := Some(Memory(0, 0, coverage)))
      case _ => rt.(processor := Some(Memory(0, 0, coverage)))
  }

  function Replaced(session: Session, row: Option<Session>): Session { if row.None? then session else row.value }

  /** The row that a finish call and two other writers leave, and the status the call reports. */
  function Ended(session: Session, failed: bool, beforeCheck: Option<Session>, beforeWrite: Option<Session>)
    : (Session, SessionStatus)
  {
    var checked := Replaced(session, beforeCheck);
    var latest := Replaced(checked, beforeWrite);
    if session.status != Active then (latest, session.status)
    else if checked.revision != session.revision then (latest, checked.status)
    else
      (if latest.revision == session.revision
       then session.(status := FinalStatus(failed), revision := session.revision + 1) else latest,
       FinalStatus(failed))
  }

  class PersistentSalesRuntime {
    const setup: Setup
    const limits: Limits
    var session: Session
    var rows: map<string, CommittedTurn>
    var snapshot: Option<StoredSnapshot>
    var queue: Option<QueueEntry>
    var processor: ProductionTurnProcessor?

    ghost function Owned(): set<object>
      reads this
    {
      if processor == null then {} else {processor}
    }

    ghost predicate Valid()
      reads this, Owned()
    {
      processor != null ==> processor.limits == limits
    }

    ghost function Now(): Runtime
      reads this, Owned()
    {
      Runtime(Store(session, rows, snapshot, queue), if processor == null then None else Some(processor.Now()))
    }

    /** The runtime over an existing store, as a process starts: no processor is registered. */
    constructor (setup: Setup, limits: Limits, store: Store)
      ensures Valid() && this.setup == setup && this.limits == limits
      ensures Now() == Runtime(store, None)
    {
      this.setup, this.limits := setup, limits;
      session, rows, snapshot, queue := store.session, store.rows, store.snapshot, store.queue;
      processor := null;
    }

    method ProcessTurn(call: Call) returns (r: TurnOutcome)
      requires Valid()
      modifies this, Owned()
      ensures Valid() && processor == old(processor)
      ensures Now() == Turn(setup, limits, old(Now()), call).0
      ensures r == Turn(setup, limits, old(Now()), call).1
    {
      if call.request in rows { return Replayed(rows[call.request]); }
      var copy := session;
      if copy.status != Active { return Failed(Stale); }
      if call.sequence <= copy.turnCount { return Failed(Stale); }
      if processor == null { return Failed(Stale); }
      if call.text == "" { return Failed(ProcessorFailed); }
      var coverage, calls := processor.discussionCoverage, processor.reasoningCalls;
      var produced := processor.ProcessTurn(call.behaviour);
      if produced.None? || produced.value.text == "" { return Failed(ProcessorFailed); }
      var output := produced.value;
      var exported: Option<Snapshot> := None;
      if setup.capable {
        if call.rest.None? { return Failed(ExportFailed); }
        exported := Some(Export(ExportOf(Memory(processor.reasoningCalls, processor.turnCount, processor.discussionCoverage),
                                         call.rest.value), copy.revision + 1));
      }
      var written := Transact(Store(session, rows, snapshot, queue), call.request, call.text, call.sequence,
                              copy, output, exported);
      if call.storeFails || written.None? {
        processor.discussionCoverage := coverage;
        processor.reasoningCalls := calls;
        return Failed(if call.storeFails then StoreFailed else DuplicateRow);
      }
      session, rows, snapshot := written.value.session, written.value.rows, written.value.snapshot;
      return Committed(RowFor(copy, call.sequence, output));
    }

    method RestoreProcessorIfPossible(restoresCalls: bool, coverage: seq<string>)
      requires Valid() && processor == null
      modifies this`processor
      ensures Valid() && (processor != null ==> fresh(processor))
      ensures Now() == Restarted(setup, old(Now()), restoresCalls, coverage)
    {
      var store := Store(session, rows, snapshot, queue);
      if !CanRebuild(setup, store) { return; }
      var status := Recover(setup.manifest, Some(session), queue, setup.policies, Configured(snapshot));
      var calls := 0;
      if status.RecoveredActive? && restoresCalls {
        match snapshot {
          case Some(Readable(s)) => calls := RestoredCalls(s);
          case _ =>
        }
      }
      processor := new ProductionTurnProcessor(limits, calls, coverage);
    }

    /** Other writers may replace the row twice: while the outcome is put together, and between the check of
        the revision and the write. */
    method FinishSession(failed: bool, beforeCheck: Option<Session>, beforeWrite: Option<Session>) returns (status: SessionStatus)
      modifies this`session
      ensures (session, status) == Ended(old(session), failed, beforeCheck, beforeWrite)
    {
      var copy := session;
      session := Replaced(session, beforeCheck);
      var ends := copy.status == Active && copy.revision == session.revision;
      if ends {
        status := FinalStatus(failed);
      } else if copy.status == Active {
        status := session.status;
      } else {
        status := copy.status;
      }
      session := Replaced(session, beforeWrite);
      if ends && copy.revision == session.revision {
        session := copy.(status := FinalStatus(failed), revision := copy.revision + 1);
      }
    }
  }
}
