/** One call of the runtime, uninterrupted, is the run of one handler of the turn protocol. */
module RuntimeRefinement {
  import opened Wrappers
  import opened Runs
  import opened SessionStore
  import opened Recovery
  import opened TurnProtocol
  import opened TurnProtocolProofs
  import opened Budget
  import opened PersistentRuntime

  /** The steps handler `h` takes for a call, after it has read the turn count. */
  function CommitAction(h: nat, call: Call): seq<Action> { [CommitTurn(h, call.storeFails)] }

  function ExportActions(h: nat, call: Call, after: Memory): seq<Action> {
    [ExportState(h, if call.rest.None? then None else Some(ExportOf(after, call.rest.value)))] + CommitAction(h, call)
  }

  function RunActions(h: nat, call: Call, after: Memory): seq<Action> {
    [Run(h, Produced(call.behaviour))] + ExportActions(h, call, after)
  }

  function LoadActions(h: nat, call: Call, after: Memory): seq<Action> { [Load(h)] + RunActions(h, call, after) }

  function CallActions(h: nat, call: Call, after: Memory): seq<Action> { [Lookup(h)] + LoadActions(h, call, after) }

  /** The protocol's end state and replies tell the same story as the outcome of the call. */
  ghost predicate Mirrors(w: World, replies: seq<Reply>, h: nat, request: string, store: Store, outcome: TurnOutcome) {
    && w.store == store
    && match outcome
       case Replayed(row) => replies == [] && h in w.handlers && w.handlers[h].stage == Answering(row, true)
       case Committed(row) => replies == [] && h in w.handlers && w.handlers[h].stage == Answering(row, false)
       case Failed(reason) => replies == [Refused(request, reason)] && h !in w.handlers
  }

  predicate Idle(a: Action, h: nat) {
    (a.Load? || a.Run? || a.ExportState? || a.CommitTurn?) && a.h == h
  }

  lemma {:induction false} NothingLeft(setup: Setup, w: World, h: nat, actions: seq<Action>)
    requires h in w.handlers ==> w.handlers[h].stage.Answering?
    requires forall i :: 0 <= i < |actions| ==> Idle(actions[i], h)
    ensures After(setup, w, actions) == w && Log(Protocol(setup), w, actions) == []
    decreases actions
  {
    if actions != [] {
      NothingLeft(setup, w, h, actions[1..]);
    }
  }

  /** The handler has been answered or refused; the steps left to it change nothing more. */
  lemma Ends(setup: Setup, w: World, a: Action, rest: seq<Action>, h: nat, store: Store, outcome: TurnOutcome)
    requires h in w.handlers
    requires var (w', replies) := Step(setup, w, a); Mirrors(w', replies, h, w.handlers[h].request, store, outcome)
    requires forall i :: 0 <= i < |rest| ==> Idle(rest[i], h)
    ensures Mirrors(After(setup, w, [a] + rest), Log(Protocol(setup), w, [a] + rest), h, w.handlers[h].request, store, outcome)
  {
    var (w', replies) := Step(setup, w, a);
    Unfolds(setup, w, a, rest);
    NothingLeft(setup, w', h, rest);
  }

  lemma StepsOn(setup: Setup, w: World, a: Action, rest: seq<Action>, h: nat, w': World, store: Store, outcome: TurnOutcome)
    requires h in w.handlers && Step(setup, w, a) == (w', [])
    requires Mirrors(After(setup, w', rest), Log(Protocol(setup), w', rest), h, w.handlers[h].request, store, outcome)
    ensures Mirrors(After(setup, w, [a] + rest), Log(Protocol(setup), w, [a] + rest), h, w.handlers[h].request, store, outcome)
  {
    Unfolds(setup, w, a, rest);
  }

  lemma CommitMirrors(setup: Setup, w: World, h: nat, call: Call, before: Memory, after: Memory, output: Output, state: Option<Exportable>)
    requires h in w.handlers
    requires w.handlers[h] == Handler(call.request, call.text, Exported(call.sequence, w.store.session, output, state))
    requires ExportedState(setup.capable, after, call.rest) == Some(state)
    ensures var (rt, outcome) := Commits(setup, w.store, call, before, after, output);
      Mirrors(After(setup, w, CommitAction(h, call)), Log(Protocol(setup), w, CommitAction(h, call)), h, call.request, rt.store, outcome)
  {
    var (rt, outcome) := Commits(setup, w.store, call, before, after, output);
    Ends(setup, w, CommitTurn(h, call.storeFails), [], h, rt.store, outcome);
    assert [CommitTurn(h, call.storeFails)] + [] == CommitAction(h, call);
  }

  lemma ExportMirrors(setup: Setup, w: World, h: nat, call: Call, before: Memory, after: Memory, output: Output)
    requires h in w.handlers
    requires w.handlers[h] == Handler(call.request, call.text, Ran(call.sequence, w.store.session, output))
    ensures var (rt, outcome) := Commits(setup, w.store, call, before, after, output);
      var actions := ExportActions(h, call, after);
      Mirrors(After(setup, w, actions), Log(Protocol(setup), w, actions), h, call.request, rt.store, outcome)
  {
    var (rt, outcome) := Commits(setup, w.store, call, before, after, output);
    var s := w.store.session;
    var a := ExportState(h, if call.rest.None? then None else Some(ExportOf(after, call.rest.value)));
    match ExportedState(setup.capable, after, call.rest)
    case None => Ends(setup, w, a, CommitAction(h, call), h, rt.store, outcome);
    case Some(state) =>
      var w' := Moved(w, h, Exported(call.sequence, s, output, state));
      CommitMirrors(setup, w', h, call, before, after, output, state);
      StepsOn(setup, w, a, CommitAction(h, call), h, w', rt.store, outcome);
  }

  lemma RunMirrors(setup: Setup, limits: Limits, w: World, h: nat, call: Call, before: Memory)
    requires h in w.handlers
    requires w.handlers[h] == Handler(call.request, call.text, Loaded(call.sequence, w.store.session))
    requires call.request !in w.store.rows && w.store.session.status == Active && w.store.session.turnCount < call.sequence
    ensures var (rt, outcome) := Turn(setup, limits, Runtime(w.store, Some(before)), call);
      var actions := RunActions(h, call, Processed(limits, before, call.behaviour));
      Mirrors(After(setup, w, actions), Log(Protocol(setup), w, actions), h, call.request, rt.store, outcome)
  {
    var (rt, outcome) := Turn(setup, limits, Runtime(w.store, Some(before)), call);
    var after, output := Processed(limits, before, call.behaviour), Produced(call.behaviour);
    if call.text == "" || output.None? || output.value.text == "" {
      Ends(setup, w, Run(h, output), ExportActions(h, call, after), h, rt.store, outcome);
    } else {
      var w' := Moved(w, h, Ran(call.sequence, w.store.session, output.value));
      ExportMirrors(setup, w', h, call, before, after, output.value);
      StepsOn(setup, w, Run(h, output), ExportActions(h, call, after), h, w', rt.store, outcome);
    }
  }

  lemma LoadMirrors(setup: Setup, limits: Limits, w: World, h: nat, call: Call, rt: Runtime, after: Memory)
    requires h in w.handlers && call.sequence > 0
    requires w.handlers[h] == Handler(call.request, call.text, Missed(call.sequence - 1))
    requires rt.store == w.store && w.registered == rt.processor.Some? && call.request !in w.store.rows
    requires rt.processor.Some? ==> after == Processed(limits, rt.processor.value, call.behaviour)
    ensures var (rt', outcome) := Turn(setup, limits, rt, call);
      var actions := LoadActions(h, call, after);
      Mirrors(After(setup, w, actions), Log(Protocol(setup), w, actions), h, call.request, rt'.store, outcome)
  {
    var (rt', outcome) := Turn(setup, limits, rt, call);
    var s := w.store.session;
    if s.status != Active || call.sequence <= s.turnCount || !w.registered {
      Ends(setup, w, Load(h), RunActions(h, call, after), h, rt'.store, outcome);
    } else {
      var w' := Moved(w, h, Loaded(call.sequence, s));
      RunMirrors(setup, limits, w', h, call, rt.processor.value);
      StepsOn(setup, w, Load(h), RunActions(h, call, after), h, w', rt'.store, outcome);
    }
  }

  /** A call of `ProcessTurn` writes the store that the protocol writes when one handler takes its steps
      undisturbed, and ends in the same answer or the same refusal. So everything proved of the protocol's
      store and replies holds of the runtime's. */
  lemma TurnRefinesProtocol(setup: Setup, limits: Limits, w: World, h: nat, call: Call, rt: Runtime, after: Memory)
    requires h in w.handlers && call.sequence > 0
    requires w.handlers[h] == Handler(call.request, call.text, Counted(call.sequence - 1))
    requires rt.store == w.store && w.registered == rt.processor.Some?
    requires rt.processor.Some? ==> after == Processed(limits, rt.processor.value, call.behaviour)
    ensures var (rt', outcome) := Turn(setup, limits, rt, call);
      var actions := CallActions(h, call, after);
      Mirrors(After(setup, w, actions), Log(Protocol(setup), w, actions), h, call.request, rt'.store, outcome)
  {
    var (rt', outcome) := Turn(setup, limits, rt, call);
    if call.request in w.store.rows {
      Ends(setup, w, Lookup(h), LoadActions(h, call, after), h, rt'.store, outcome);
    } else {
      var w' := Moved(w, h, Missed(call.sequence - 1));
      LoadMirrors(setup, limits, w', h, call, rt, after);
      StepsOn(setup, w, Lookup(h), LoadActions(h, call, after), h, w', rt'.store, outcome);
    }
  }

  /** Another writer replaces the session row. */
  function Interfere(w: World, row: Option<Session>): World {
    w.(store := w.store.(session := Replaced(w.store.session, row)))
  }

  lemma FinishFinds(setup: Setup, w: World, f: nat)
    requires f in w.finishers && w.finishers[f].stage.FinishReceived?
    ensures var (w', replies) := Step(setup, w, FinishReads(f));
      w'.store == w.store &&
      if w.store.session.status != Active then f !in w'.finishers && replies == [Finished(w.store.session.status)]
      else
        && f in w'.finishers && replies == []
        && w'.finishers[f] == w.finishers[f].(stage := FinishRead(w.store.session))
  {
  }

  lemma FinishCompares(setup: Setup, w: World, f: nat, copy: Session)
    requires f in w.finishers && w.finishers[f].stage == FinishRead(copy)
    ensures var (w', replies) := Step(setup, w, FinishChecks(f));
      w'.store == w.store &&
      if copy.revision != w.store.session.revision then f !in w'.finishers && replies == [Finished(w.store.session.status)]
      else
        && f in w'.finishers && replies == []
        && w'.finishers[f] == w.finishers[f].(stage := FinishChecked(copy))
  {
  }

  /** A finish call is the three steps of the protocol's finish, with the other writers between them. */
  lemma FinishRefinesProtocol(setup: Setup, w: World, f: nat, beforeCheck: Option<Session>, beforeWrite: Option<Session>)
    requires f in w.finishers && w.finishers[f].stage.FinishReceived?
    ensures var (read, first) := Step(setup, w, FinishReads(f));
      var (checked, second) := Step(setup, Interfere(read, beforeCheck), FinishChecks(f));
      var (written, third) := Step(setup, Interfere(checked, beforeWrite), FinishWrites(f));
      var (session, status) := Ended(w.store.session, w.finishers[f].failed, beforeCheck, beforeWrite);
      && first + second + third == [Finished(status)]
      && written.store == w.store.(session := session)
  {
    var read := Interfere(Step(setup, w, FinishReads(f)).0, beforeCheck);
    FinishFinds(setup, w, f);
    if w.store.session.status == Active {
      FinishCompares(setup, read, f, w.store.session);
    }
  }
}
