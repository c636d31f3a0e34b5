/** One browser controller, a network that drops, duplicates and reorders, and the persisted turn
    protocol at the other end. */
module EndToEnd {
  import opened Wrappers
  import opened Runs
  import opened SessionStore
  import opened Recovery
  import opened TurnProtocol
  import opened TurnProtocolProofs
  import opened ChatClient

  /** What was submitted is what was ever sent: a retry sends the pending message again. Messages and
      replies stay in the network for good; one that is never delivered is lost, one delivered twice
      is duplicated. */
  datatype System = System(
    client: Client,
    server: World,
    submitted: seq<(string, string)>,
    replies: set<Reply>,
    shown: seq<(string, string)>)

  datatype Event =
    | UserSubmits(id: string, text: string)
    | UserRetries
    | RequestArrives(h: nat, id: string, text: string)
    | ServerSteps(a: Action)
    | ReplyArrives(r: Reply)
    | AttemptFails(id: string)
    | ErrorArrives(code: ErrorCode)
    | FinishAnswered

  function Start(policyVersion: Option<string>): System {
    System(NewClient(), Begin(policyVersion), [], {}, [])
  }

  /** Generated ids are taken to be fresh. */
  predicate FreshId(s: System, id: string) {
    forall i :: 0 <= i < |s.submitted| ==> s.submitted[i].0 != id
  }

  function Served(setup: Setup, s: System, a: Action): System {
    var (w, replies) := Step(setup, s.server, a);
    s.(server := w, replies := s.replies + set r | r in replies)
  }

  function Next(setup: Setup, s: System, e: Event): (System, seq<()>) {
    match e
    case UserSubmits(id, text) =>
      (if !FreshId(s, id) || !CanSend(s.client) then s
       else s.(client := Submitted(s.client, id, text), submitted := s.submitted + [(id, text)]), [])
    case UserRetries => (s.(client := Retried(s.client)), [])
    case RequestArrives(h, id, text) =>
      (if (id, text) !in s.submitted then s else Served(setup, s, Arrive(h, id, text)), [])
    case ServerSteps(a) => (if a.Arrive? then s else Served(setup, s, a), [])
    case ReplyArrives(r) =>
      (if r !in s.replies || !r.AgentTurn? then s
       else s.(client := AgentTurnReceived(s.client, r.request, r.row.terminal),
               shown := if Renders(s.client, r.request) then s.shown + [(r.request, r.row.agentResponse)] else s.shown), [])
    case AttemptFails(id) => (s.(client := AttemptFailed(s.client, id)), [])
    case ErrorArrives(code) => (s.(client := ErrorReceived(s.client, code)), [])
    case FinishAnswered => (s.(client := s.client.(sessionTerminal := true)), [])
  }

  function Whole(setup: Setup): (System, Event) -> (System, seq<()>) {
    (s: System, e: Event) => Next(setup, s, e)
  }

  function Reached(setup: Setup, policyVersion: Option<string>, events: seq<Event>): System {
    Final(Whole(setup), Start(policyVersion), events)
  }

  // ----- The invariant -----

  /** What was committed is what was submitted, in order, up to the last submission. */
  ghost predicate CommittedInOrder(history: seq<Commit>, submitted: seq<(string, string)>) {
    && |history| <= |submitted| <= |history| + 1
    && forall i :: 0 <= i < |history| ==> (history[i].request, history[i].text) == submitted[i]
  }

  /** What was shown is the committed answer to each submission, in order, up to the last one. */
  ghost predicate ShownInOrder(shown: seq<(string, string)>, history: seq<Commit>) {
    && |shown| <= |history|
    && forall i :: 0 <= i < |shown| ==> shown[i] == (history[i].request, history[i].row.agentResponse)
  }

  ghost predicate DistinctIds(submitted: seq<(string, string)>) {
    forall i, j :: 0 <= i < j < |submitted| ==> submitted[i].0 != submitted[j].0
  }

  ghost predicate ClientOk(c: Client, submitted: seq<(string, string)>, shown: seq<(string, string)>) {
    && (forall id :: id in c.rendered <==> exists i :: 0 <= i < |shown| && shown[i].0 == id)
    && (c.pending.None? ==> |shown| == |submitted|)
    && (c.pending.Some? ==>
          && |submitted| == |shown| + 1
          && submitted[|shown|] == (c.pending.value.turnRequestId, c.pending.value.text))
  }

  ghost predicate RequestsKnown(handlers: map<nat, Handler>, submitted: seq<(string, string)>) {
    forall h :: h in handlers ==> (handlers[h].request, handlers[h].text) in submitted
  }

  ghost predicate RepliesKept(s: Store, replies: set<Reply>) {
    forall r :: r in replies ==> ReplyOk(s, r)
  }

  /** A terminal answer is the last one, and once it is shown nothing more can be submitted. */
  ghost predicate TerminalStops(s: System) {
    forall i :: 0 <= i < |s.shown| && i < |s.server.history| && s.server.history[i].row.terminal ==>
      s.client.sessionTerminal && |s.submitted| == |s.shown| == i + 1
  }

  ghost predicate SystemOk(setup: Setup, s: System) {
    && WorldOk(setup, s.server)
    && DistinctIds(s.submitted)
    && CommittedInOrder(s.server.history, s.submitted)
    && ShownInOrder(s.shown, s.server.history)
    && ClientOk(s.client, s.submitted, s.shown)
    && RequestsKnown(s.server.handlers, s.submitted)
    && RepliesKept(s.server.store, s.replies)
    && TerminalStops(s)
  }

  // ----- What a server step can do -----

  /** A step commits at most one turn: the request and text of a handler, with no row so far. */
  lemma StepCommits(setup: Setup, w: World, a: Action)
    requires WorldOk(setup, w)
    ensures var w' := Step(setup, w, a).0;
      || w'.history == w.history
      || exists h, row, state :: h in w.handlers && w.handlers[h].request !in w.store.rows
                          && w'.history == w.history + [Commit(w.handlers[h].request, w.handlers[h].text, row, state)]
  {
    var w' := Step(setup, w, a).0;
    if OfHandler(a) && a.h in w.handlers {
      assert HandlerOk(setup, w.store, w.handlers[a.h]);
      if w'.history != w.history {
        var row, state := w'.history[|w.history|].row, w'.history[|w.history|].state;
        assert w'.history == w.history + [Commit(w.handlers[a.h].request, w.handlers[a.h].text, row, state)];
      }
    }
  }

  lemma StepRequests(setup: Setup, w: World, a: Action, submitted: seq<(string, string)>)
    requires RequestsKnown(w.handlers, submitted)
    requires a.Arrive? ==> (a.request, a.text) in submitted
    ensures RequestsKnown(Step(setup, w, a).0.handlers, submitted)
  {
  }

  lemma OneMoreCommit(history: seq<Commit>, submitted: seq<(string, string)>, c: Commit)
    requires CommittedInOrder(history, submitted) && (c.request, c.text) in submitted
    requires c.request !in RowsOf(history)
    ensures CommittedInOrder(history + [c], submitted)
  {
    RowsHold(history);
    assert forall i :: 0 <= i < |history| ==> history[i].request != c.request;
    var i :| 0 <= i < |submitted| && submitted[i] == (c.request, c.text);
    assert i == |history|;
  }

  lemma ServerCommitsInOrder(setup: Setup, w: World, a: Action, submitted: seq<(string, string)>)
    requires WorldOk(setup, w)
    requires CommittedInOrder(w.history, submitted) && RequestsKnown(w.handlers, submitted)
    ensures CommittedInOrder(Step(setup, w, a).0.history, submitted)
    ensures w.history <= Step(setup, w, a).0.history
  {
    StepCommits(setup, w, a);
    var history := Step(setup, w, a).0.history;
    if history != w.history {
      var h, row, state :| h in w.handlers && w.handlers[h].request !in w.store.rows
        && history == w.history + [Commit(w.handlers[h].request, w.handlers[h].text, row, state)];
      OneMoreCommit(w.history, submitted, Commit(w.handlers[h].request, w.handlers[h].text, row, state));
    }
  }

  lemma ServedOk(setup: Setup, s: System, a: Action)
    requires SystemOk(setup, s) && (a.Arrive? ==> (a.request, a.text) in s.submitted)
    ensures SystemOk(setup, Served(setup, s, a))
  {
    var w' := Step(setup, s.server, a).0;
    StepKeeps(setup, s.server, a);
    StepReplies(setup, s.server, a);
    StepRequests(setup, s.server, a, s.submitted);
    ServerCommitsInOrder(setup, s.server, a, s.submitted);
    forall r | r in s.replies ensures ReplyOk(w'.store, r) {
      assert ReplyOk(s.server.store, r);
    }
  }

  /** An answer not shown yet is the answer to the oldest submission not shown yet. */
  lemma AnswerIsNext(s: System, r: Reply)
    requires OncePerRequest(s.server.history) && s.server.store.rows == RowsOf(s.server.history)
    requires CommittedInOrder(s.server.history, s.submitted) && ShownInOrder(s.shown, s.server.history)
    requires ClientOk(s.client, s.submitted, s.shown)
    requires r.AgentTurn? && ReplyOk(s.server.store, r) && Renders(s.client, r.request)
    ensures |s.shown| < |s.server.history|
    ensures s.server.history[|s.shown|].request == r.request && s.server.history[|s.shown|].row == r.row
  {
    RowsHold(s.server.history);
    var i :| 0 <= i < |s.server.history| && s.server.history[i].request == r.request;
    assert forall k :: 0 <= k < |s.shown| ==> s.shown[k].0 != r.request;
    assert i == |s.shown|;
  }

  lemma ShownOnce(c: Client, submitted: seq<(string, string)>, shown: seq<(string, string)>, id: string, text: string, terminal: bool)
    requires ClientOk(c, submitted, shown) && Renders(c, id)
    requires |shown| < |submitted| && submitted[|shown|].0 == id
    ensures ClientOk(AgentTurnReceived(c, id, terminal), submitted, shown + [(id, text)])
  {
    var c', shown' := AgentTurnReceived(c, id, terminal), shown + [(id, text)];
    assert forall k :: 0 <= k < |shown| ==> shown'[k] == shown[k];
    forall x ensures x in c'.rendered <==> exists k :: 0 <= k < |shown'| && shown'[k].0 == x {
      if x in c.rendered {
        var k :| 0 <= k < |shown| && shown[k].0 == x;
        assert shown'[k].0 == x;
      }
      assert shown'[|shown|].0 == id;
    }
  }

  /** An answer is shown either for the oldest submission not shown yet, or not at all. */
  lemma ReplyOkNext(setup: Setup, s: System, r: Reply)
    requires SystemOk(setup, s)
    ensures SystemOk(setup, Next(setup, s, ReplyArrives(r)).0)
  {
    if r in s.replies && r.AgentTurn? && Renders(s.client, r.request) {
      assert ReplyOk(s.server.store, r);
      AnswerIsNext(s, r);
      ShownOnce(s.client, s.submitted, s.shown, r.request, r.row.agentResponse, r.row.terminal);
    }
  }

  lemma NextOk(setup: Setup, s: System, e: Event)
    requires SystemOk(setup, s)
    ensures SystemOk(setup, Next(setup, s, e).0)
  {
    match e
    case UserSubmits(id, text) =>
    case UserRetries =>
    case RequestArrives(h, id, text) => if (id, text) in s.submitted { ServedOk(setup, s, Arrive(h, id, text)); }
    case ServerSteps(a) => if !a.Arrive? { ServedOk(setup, s, a); }
    case ReplyArrives(r) => ReplyOkNext(setup, s, r);
    case AttemptFails(id) =>
    case ErrorArrives(code) =>
    case FinishAnswered =>
  }

  lemma {:induction false} RunOk(setup: Setup, s: System, events: seq<Event>)
    requires SystemOk(setup, s)
    ensures SystemOk(setup, Final(Whole(setup), s, events))
    decreases events
  {
    if events != [] {
      NextOk(setup, s, events[0]);
      RunOk(setup, Next(setup, s, events[0]).0, events[1..]);
    }
  }

  /** End to end, over every schedule of the browser, the network and the server: the committed prospect
      messages are the submitted texts in submission order, each once, with at most the last one still
      uncommitted; what the browser shows is, for each of them in turn and once, the committed answer; and
      after a terminal answer nothing more is submitted. */
  lemma EndToEndOrder(setup: Setup, policyVersion: Option<string>, events: seq<Event>)
    ensures var s := Reached(setup, policyVersion, events);
      && DistinctIds(s.submitted)
      && CommittedInOrder(s.server.history, s.submitted)
      && s.server.store.session.transcript == TranscriptOf(s.server.history)
      && ShownInOrder(s.shown, s.server.history)
      && |s.submitted| <= |s.shown| + 1
      && (s.client.pending.None? <==> |s.shown| == |s.submitted|)
      && TerminalStops(s)
  {
    BeginOk(setup, policyVersion);
    RunOk(setup, Start(policyVersion), events);
  }

  // ----- Answers do arrive -----

  /** The server left to its own steps. */
  function Serving(actions: seq<Action>): seq<Event> {
    seq(|actions|, i requires 0 <= i < |actions| => ServerSteps(actions[i]))
  }

  lemma {:induction false} ServerRuns(setup: Setup, s: System, actions: seq<Action>)
    requires forall i :: 0 <= i < |actions| ==> !actions[i].Arrive?
    ensures var s' := Final(Whole(setup), s, Serving(actions));
      && s' == s.(server := After(setup, s.server, actions), replies := s'.replies)
      && s'.replies == s.replies + set r | r in Log(Protocol(setup), s.server, actions)
    decreases actions
  {
    if actions != [] {
      var next := Served(setup, s, actions[0]);
      assert Serving(actions)[1..] == Serving(actions[1..]);
      ServerRuns(setup, next, actions[1..]);
    }
  }

  /** What is left of a turn once the request has arrived. */
  function RestOfTurn(h: nat, stored: bool, output: Output, state: Exportable): seq<Action> {
    [Count(h)] + ([Lookup(h)] + if stored then [Answer(h)] else Working(h, output, state))
  }

  lemma NothingArrives(h: nat, stored: bool, output: Output, state: Exportable)
    ensures forall a :: a in RestOfTurn(h, stored, output, state) ==> !a.Arrive?
  {
  }

  function RowOf(w: World, id: string, output: Output): CommittedTurn {
    if id in w.store.rows then w.store.rows[id]
    else CommittedTurn(w.store.session.turnCount + 1, w.store.session.revision + 1, output.text, output.terminal, output.pipelineOutcome)
  }

  /** The whole of a request at the server is its arrival and the rest. */
  lemma ArrivalThenRest(setup: Setup, w: World, h: nat, id: string, text: string, rest: seq<Action>)
    requires h !in w.handlers
    ensures var arrived := Step(setup, w, Arrive(h, id, text)).0;
      && After(setup, w, [Arrive(h, id, text)] + rest) == After(setup, arrived, rest)
      && Log(Protocol(setup), w, [Arrive(h, id, text)] + rest) == Log(Protocol(setup), arrived, rest)
  {
    Unfolds(setup, w, Arrive(h, id, text), rest);
  }

  lemma ServerAnswers(setup: Setup, w: World, h: nat, id: string, text: string, output: Output, state: Exportable)
    requires h !in w.handlers && (id in w.store.rows || Workable(w, text, output))
    ensures var (arrived, rest) := (Step(setup, w, Arrive(h, id, text)).0, RestOfTurn(h, id in w.store.rows, output, state));
      var (w', log) := (After(setup, arrived, rest), Log(Protocol(setup), arrived, rest));
      && id in w'.store.rows && w'.store.rows[id] == RowOf(w, id, output)
      && |log| == 1 && log[0].AgentTurn? && log[0].request == id && log[0].row == RowOf(w, id, output)
  {
    var rest := RestOfTurn(h, id in w.store.rows, output, state);
    RetrySucceeds(setup, w, h, id, text, output, state);
    ArrivalThenRest(setup, w, h, id, text, rest);
    if id in w.store.rows {
      assert Reading(h, id, text) + [Answer(h)] == [Arrive(h, id, text)] + rest;
    } else {
      assert WholeTurn(h, id, text, output, state) == [Arrive(h, id, text)] + rest;
    }
  }

  /** A request that arrives at a server left to itself is answered, from the store or by a turn of its own. */
  lemma RequestAnswered(setup: Setup, s: System, h: nat, id: string, text: string, output: Output, state: Exportable)
    requires (id, text) in s.submitted && h !in s.server.handlers
    requires id in s.server.store.rows || Workable(s.server, text, output)
    ensures var (stored, row) := (id in s.server.store.rows, RowOf(s.server, id, output));
      var s' := Final(Whole(setup), s, [RequestArrives(h, id, text)] + Serving(RestOfTurn(h, stored, output, state)));
      && s'.client == s.client && s'.submitted == s.submitted && s'.shown == s.shown && s.replies <= s'.replies
      && id in s'.server.store.rows && s'.server.store.rows[id] == row
      && exists r :: r in s'.replies && r.AgentTurn? && r.request == id && r.row == row
  {
    var rest := RestOfTurn(h, id in s.server.store.rows, output, state);
    var arrived := Served(setup, s, Arrive(h, id, text));
    ServerAnswers(setup, s.server, h, id, text, output, state);
    NothingArrives(h, id in s.server.store.rows, output, state);
    ServerRuns(setup, arrived, rest);
    assert ([RequestArrives(h, id, text)] + Serving(rest))[1..] == Serving(rest);
    assert Log(Protocol(setup), arrived.server, rest)[0] in Log(Protocol(setup), arrived.server, rest);
  }

  lemma FreshIsUnstored(setup: Setup, s: System, id: string)
    requires SystemOk(setup, s) && FreshId(s, id)
    ensures id !in s.server.store.rows
  {
    RowsHold(s.server.history);
  }

  /** A message that is submitted, served and answered without loss is shown with the processor's answer, and
      the next can be submitted unless the answer ended the session. */
  lemma MessageAnswered(setup: Setup, s: System, h: nat, id: string, text: string, output: Output, state: Exportable)
    returns (r: Reply)
    requires SystemOk(setup, s) && FreshId(s, id) && CanSend(s.client) && h !in s.server.handlers
    requires Workable(s.server, text, output)
    ensures
      var events := [UserSubmits(id, text)]
                    + (([RequestArrives(h, id, text)] + Serving(RestOfTurn(h, false, output, state))) + [ReplyArrives(r)]);
      var s' := Final(Whole(setup), s, events);
      && s'.submitted == s.submitted + [(id, text)] && s'.shown == s.shown + [(id, output.text)]
      && (CanSend(s'.client) <==> !output.terminal)
  {
    var sent := Next(setup, s, UserSubmits(id, text)).0;
    var serve := [RequestArrives(h, id, text)] + Serving(RestOfTurn(h, false, output, state));
    FreshIsUnstored(setup, s, id);
    assert sent.submitted[|s.submitted|] == (id, text);
    RequestAnswered(setup, sent, h, id, text, output, state);
    var served := Final(Whole(setup), sent, serve);
    r :| r in served.replies && r.AgentTurn? && r.request == id && r.row == served.server.store.rows[id];
    FinalAppend(Whole(setup), sent, serve, [ReplyArrives(r)]);
    OneInput(Whole(setup), served, ReplyArrives(r));
    assert ([UserSubmits(id, text)] + (serve + [ReplyArrives(r)]))[1..] == serve + [ReplyArrives(r)];
    NotShownYet(s, id);
  }

  lemma NotShownYet(s: System, id: string)
    requires ClientOk(s.client, s.submitted, s.shown) && FreshId(s, id)
    requires CommittedInOrder(s.server.history, s.submitted) && ShownInOrder(s.shown, s.server.history)
    ensures id !in s.client.rendered
  {
  }

  /** A message that was committed and whose answers were lost is shown after a retry, with the answer that was
      committed, whatever has become of the session and its processor. */
  lemma RetryShowsAnswer(setup: Setup, s: System, h: nat, output: Output, state: Exportable) returns (r: Reply)
    requires SystemOk(setup, s) && s.client.pending.Some? && s.client.pending.value.turnRequestId in s.server.store.rows
    requires h !in s.server.handlers
    ensures var (id, text) := (s.client.pending.value.turnRequestId, s.client.pending.value.text);
      var events := [UserRetries]
                    + (([RequestArrives(h, id, text)] + Serving(RestOfTurn(h, true, output, state))) + [ReplyArrives(r)]);
      var s' := Final(Whole(setup), s, events);
      s'.shown == s.shown + [(id, s.server.store.rows[id].agentResponse)] && s'.client.pending.None?
  {
    var (id, text) := (s.client.pending.value.turnRequestId, s.client.pending.value.text);
    var tried := Next(setup, s, UserRetries).0;
    var serve := [RequestArrives(h, id, text)] + Serving(RestOfTurn(h, true, output, state));
    RequestAnswered(setup, tried, h, id, text, output, state);
    var served := Final(Whole(setup), tried, serve);
    r :| r in served.replies && r.AgentTurn? && r.request == id && r.row == served.server.store.rows[id];
    FinalAppend(Whole(setup), tried, serve, [ReplyArrives(r)]);
    OneInput(Whole(setup), served, ReplyArrives(r));
    assert ([UserRetries] + (serve + [ReplyArrives(r)]))[1..] == serve + [ReplyArrives(r)];
    PendingNotShown(s);
  }

  lemma PendingNotShown(s: System)
    requires ClientOk(s.client, s.submitted, s.shown) && DistinctIds(s.submitted) && s.client.pending.Some?
    requires CommittedInOrder(s.server.history, s.submitted) && ShownInOrder(s.shown, s.server.history)
    ensures s.client.pending.value.turnRequestId !in s.client.rendered
  {
  }
}
