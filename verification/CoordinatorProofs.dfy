/** What the coordinator promises over whole event sequences, for every processor. */
module CoordinatorProofs {
  import opened Wrappers
  import opened Runs
  import opened RuntimeContracts
  import opened TurnCoordination

  /** What the delivery side sees: spoken and cancelled turns, and the ends of a delivery it reported itself. */
  datatype Observation = Spoke(turnId: string) | CancelledTurn(turnId: string) | Ended(turnId: string)

  function Emitted(instructions: seq<Instruction>): seq<Observation> {
    seq(|instructions|, i requires 0 <= i < |instructions| =>
      match instructions[i] case Speak(id, _) => Spoke(id) case CancelCurrent(id) => CancelledTurn(id))
  }

  function Observed(e: RuntimeEvent, r: CoordinationResult): seq<Observation> {
    if e.eventType in {AgentDeliveryCompleted, AgentDeliveryInterrupted} && r.outcome == Handled
    then [Ended(e.turnId.value)]
    else Emitted(r.instructions)
  }

  /** The coordinator as a machine that logs what is observed of it. */
  function Observer(p: Processor): (Coordinator, RuntimeEvent) -> (Coordinator, seq<Observation>) {
    (c: Coordinator, e: RuntimeEvent) => var (c', r) := Handle(c, e, p); (c', Observed(e, r))
  }

  function After(c: Coordinator, events: seq<RuntimeEvent>, p: Processor): Coordinator {
    Final(Observer(p), c, events)
  }

  function Trace(c: Coordinator, events: seq<RuntimeEvent>, p: Processor): seq<Observation> {
    Log(Observer(p), c, events)
  }

  // ----- Each turn id reaches the processor once -----

  function TurnIds(calls: seq<UserTurn>): seq<string> {
    seq(|calls|, i requires 0 <= i < |calls| => calls[i].turnId)
  }

  /** The processor has been called exactly once for each processed turn id. */
  ghost predicate CalledOnce(c: Coordinator) {
    var ids := TurnIds(c.calls);
    && (forall i, j :: 0 <= i < j < |ids| ==> ids[i] != ids[j])
    && (forall id :: id in ids <==> id in c.state.processedTurnIds)
  }

  lemma CalledOnceStep(c: Coordinator, e: RuntimeEvent, p: Processor)
    requires CalledOnce(c)
    ensures CalledOnce(Handle(c, e, p).0)
  {
    var c' := Handle(c, e, p).0;
    if c'.calls != c.calls {
      var turn := c'.calls[|c.calls|];
      assert c'.calls == c.calls + [turn];
      assert TurnIds(c'.calls) == TurnIds(c.calls) + [turn.turnId];
    }
  }

  /** Over every event sequence, whatever the processor does, it sees each turn id at most once. */
  lemma {:induction false} ProcessorCalledOncePerTurn(c: Coordinator, events: seq<RuntimeEvent>, p: Processor)
    requires CalledOnce(c)
    ensures CalledOnce(After(c, events, p))
    decreases events
  {
    if events != [] {
      CalledOnceStep(c, events[0], p);
      ProcessorCalledOncePerTurn(Handle(c, events[0], p).0, events[1..], p);
    }
  }

  // ----- Delivery discipline -----

  function LastSpoken(t: seq<Observation>): Option<string> {
    if t == [] then None
    else if t[|t| - 1].Spoke? then Some(t[|t| - 1].turnId)
    else LastSpoken(t[..|t| - 1])
  }

  /** The latest spoken turn has since been cancelled or reported as ended. */
  predicate Settled(t: seq<Observation>) {
    && t != [] && !t[|t| - 1].Spoke?
    && (LastSpoken(t) == Some(t[|t| - 1].turnId) || Settled(t[..|t| - 1]))
  }

  /** A cancellation names the latest spoken turn; a turn is spoken once, and only when the one
      before it is settled. */
  ghost predicate Disciplined(t: seq<Observation>) {
    && (forall k :: 0 <= k < |t| && t[k].CancelledTurn? ==> LastSpoken(t[..k]) == Some(t[k].turnId))
    && (forall k :: 0 <= k < |t| && t[k].Spoke? ==> LastSpoken(t[..k]).None? || Settled(t[..k]))
    && (forall i, j :: 0 <= i < j < |t| && t[i].Spoke? && t[j].Spoke? ==> t[i].turnId != t[j].turnId)
  }

  ghost predicate Fits(t: seq<Observation>, o: Observation) {
    if o.Spoke? then
      && (LastSpoken(t).None? || Settled(t))
      && (forall k :: 0 <= k < |t| && t[k].Spoke? ==> t[k].turnId != o.turnId)
    else LastSpoken(t) == Some(o.turnId)
  }

  lemma Extend(t: seq<Observation>, o: Observation)
    requires Disciplined(t) && Fits(t, o)
    ensures Disciplined(t + [o])
    ensures LastSpoken(t + [o]) == if o.Spoke? then Some(o.turnId) else LastSpoken(t)
    ensures Settled(t + [o]) == !o.Spoke?
  {
    var u := t + [o];
    assert u[..|t|] == t;
    forall k | 0 <= k < |u| ensures u[..k] == t[..k] || k == |t| {
      if k < |t| { assert u[..k] == t[..k]; }
    }
  }

  /** How a trace and the state it leads to fit together. */
  ghost predicate Tracked(c: Coordinator, t: seq<Observation>) {
    && (forall k :: 0 <= k < |t| && t[k].Spoke? ==> t[k].turnId in c.state.processedTurnIds)
    && (c.state.active.None? ==> LastSpoken(t).None? && c.state.currentTurnId.None?)
    && (c.state.active.Some? ==>
          && LastSpoken(t) == Some(c.state.active.value.turnId) == c.state.currentTurnId
          && (Settled(t) <==> !Live(c.state.active.value)))
  }

  predicate HasLive(s: SessionState) { s.active.Some? && Live(s.active.value) }

  ghost predicate Kept(c: Coordinator, c': Coordinator) {
    && c'.state.currentTurnId == c.state.currentTurnId
    && (c.state.active.None? <==> c'.state.active.None?)
    && (c.state.active.Some? ==> c'.state.active.value.turnId == c.state.active.value.turnId)
  }

  ghost predicate Replaced(c: Coordinator, c': Coordinator, id: string) {
    && id !in c.state.processedTurnIds && id in c'.state.processedTurnIds
    && c'.state.currentTurnId == Some(id)
    && HasLive(c'.state) && c'.state.active.value.turnId == id
  }

  /** The four ways one event can move the delivery, and what is observed of each. */
  ghost predicate Moves(c: Coordinator, c': Coordinator, obs: seq<Observation>) {
    && c.state.processedTurnIds <= c'.state.processedTurnIds
    && (|| (obs == [] && Kept(c, c') && HasLive(c'.state) == HasLive(c.state))
        || (|obs| == 1 && !obs[0].Spoke? && c.state.active.Some? && Kept(c, c') && !HasLive(c'.state)
            && obs[0].turnId == c.state.active.value.turnId)
        || (|obs| == 1 && obs[0].Spoke? && !HasLive(c.state) && Replaced(c, c', obs[0].turnId))
        || (|obs| == 2 && HasLive(c.state) && obs[0] == CancelledTurn(c.state.active.value.turnId)
            && obs[1].Spoke? && Replaced(c, c', obs[1].turnId)))
  }

  ghost predicate Consistent(c: Coordinator) {
    c.state.active.Some? ==> c.state.currentTurnId == Some(c.state.active.value.turnId)
  }

  lemma FinalUtteranceMoves(c: Coordinator, e: RuntimeEvent, p: Processor)
    requires Consistent(c) && e.eventType == UserUtteranceFinal
    requires FinalUtterance(c, e, p).1.outcome != Raised(EmptySpeech)
    ensures Moves(c, FinalUtterance(c, e, p).0, Emitted(FinalUtterance(c, e, p).1.instructions))
  {
  }

  lemma DeliveryUpdateMoves(c: Coordinator, e: RuntimeEvent, status: DeliveryStatus)
    requires Consistent(c) && status in {Delivering, Completed, Interrupted}
    requires e.eventType in {AgentDeliveryCompleted, AgentDeliveryInterrupted} <==> status != Delivering
    ensures Moves(c, DeliveryUpdate(c, e, status).0, Observed(e, DeliveryUpdate(c, e, status).1))
  {
  }

  lemma DispatchMoves(c: Coordinator, e: RuntimeEvent, p: Processor)
    requires Consistent(c)
    requires Dispatch(c, e, p).1.outcome != Raised(EmptySpeech)
    ensures Moves(c, Dispatch(c, e, p).0, Observed(e, Dispatch(c, e, p).1))
  {
    match e.eventType
    case UserUtteranceFinal => FinalUtteranceMoves(c, e, p);
    case AgentDeliveryStarted => DeliveryUpdateMoves(c, e, Delivering);
    case AgentDeliveryCompleted => DeliveryUpdateMoves(c, e, Completed);
    case AgentDeliveryInterrupted => DeliveryUpdateMoves(c, e, Interrupted);
    case CallDisconnected =>
    case UserSpeechStarted =>
    case CallStarted =>
    case RuntimeErrorEvent =>
  }

  lemma MovesDisciplined(c: Coordinator, c': Coordinator, t: seq<Observation>, obs: seq<Observation>)
    requires Tracked(c, t) && Disciplined(t) && Moves(c, c', obs)
    ensures Tracked(c', t + obs) && Disciplined(t + obs)
  {
    if obs == [] {
      assert t + obs == t;
    } else if |obs| == 1 {
      assert obs == [obs[0]];
      Extend(t, obs[0]);
    } else {
      Extend(t, obs[0]);
      assert t + obs == (t + [obs[0]]) + [obs[1]];
      Extend(t + [obs[0]], obs[1]);
    }
  }

  /** The event does not make the processor return an empty text for the turn it was given. */
  function Speaks(p: Processor): (Coordinator, RuntimeEvent) -> bool {
    (c: Coordinator, e: RuntimeEvent) => Handle(c, e, p).1.outcome != Raised(EmptySpeech)
  }

  lemma HandleDisciplined(c: Coordinator, t: seq<Observation>, e: RuntimeEvent, p: Processor)
    requires Tracked(c, t) && Disciplined(t)
    requires Speaks(p)(c, e)
    ensures var (c', obs) := Observer(p)(c, e); Tracked(c', t + obs) && Disciplined(t + obs)
  {
    var (c', r) := Handle(c, e, p);
    if Fresh(c.state, e) {
      var recorded := c.(state := Record(c.state, e, true));
      DispatchMoves(recorded, e, p);
      MovesDisciplined(recorded, c', t, Observed(e, r));
    } else {
      assert t + Observed(e, r) == t;
    }
  }

  lemma TraceUnfolds(c: Coordinator, t: seq<Observation>, events: seq<RuntimeEvent>, p: Processor)
    requires events != []
    ensures var (c', obs) := Observer(p)(c, events[0]);
      && After(c, events, p) == After(c', events[1..], p)
      && t + Trace(c, events, p) == (t + obs) + Trace(c', events[1..], p)
  {
  }

  lemma {:induction false} TraceDiscipline(c: Coordinator, t: seq<Observation>, events: seq<RuntimeEvent>, p: Processor)
    requires Tracked(c, t) && Disciplined(t)
    requires Always(Observer(p), Speaks(p), c, events)
    ensures Tracked(After(c, events, p), t + Trace(c, events, p))
    ensures Disciplined(t + Trace(c, events, p))
    decreases events
  {
    if events == [] {
      assert t + Trace(c, events, p) == t;
    } else {
      var (c', obs) := Observer(p)(c, events[0]);
      HandleDisciplined(c, t, events[0], p);
      TraceUnfolds(c, t, events, p);
      TraceDiscipline(c', t + obs, events[1..], p);
    }
  }

  lemma SpeakingDiscipline(callId: string, events: seq<RuntimeEvent>, p: Processor)
    requires Always(Observer(p), Speaks(p), Initial(callId), events)
    ensures Disciplined(Trace(Initial(callId), events, p))
    ensures Tracked(After(Initial(callId), events, p), Trace(Initial(callId), events, p))
  {
    var t := Trace(Initial(callId), events, p);
    TraceDiscipline(Initial(callId), [], events, p);
    assert [] + t == t;
  }

  /** The processor answers the last of these turns under its own id and with nothing to say. */
  predicate AnswersEmpty(p: Processor, calls: seq<UserTurn>) {
    && calls != [] && p(calls).Returns?
    && p(calls).output.turnId == calls[|calls| - 1].turnId && p(calls).output.text == ""
  }

  /** None of the calls from `first` on is answered like that. */
  predicate HasWords(p: Processor, calls: seq<UserTurn>, first: nat) {
    forall k | first < k <= |calls| :: !AnswersEmpty(p, calls[..k])
  }

  lemma SpeaksOnce(c: Coordinator, e: RuntimeEvent, p: Processor)
    ensures var calls := Handle(c, e, p).0.calls;
      && (calls == c.calls || (|calls| == |c.calls| + 1 && c.calls <= calls))
      && (Speaks(p)(c, e) <==> HasWords(p, calls, |c.calls|))
  {
    var calls := Handle(c, e, p).0.calls;
    assert calls[..|calls|] == calls;
  }

  lemma {:induction false} CallsGrow(c: Coordinator, events: seq<RuntimeEvent>, p: Processor)
    ensures c.calls <= After(c, events, p).calls
    decreases events
  {
    if events != [] {
      SpeaksOnce(c, events[0], p);
      CallsGrow(Handle(c, events[0], p).0, events[1..], p);
    }
  }

  /** No event of a run raises over an empty text exactly when no call of the run was answered with one. */
  lemma {:induction false} SpeaksExactly(c: Coordinator, events: seq<RuntimeEvent>, p: Processor)
    ensures Always(Observer(p), Speaks(p), c, events) <==> HasWords(p, After(c, events, p).calls, |c.calls|)
    decreases events
  {
    if events != [] {
      var c', calls := Handle(c, events[0], p).0, After(c, events, p).calls;
      SpeaksOnce(c, events[0], p);
      SpeaksExactly(c', events[1..], p);
      CallsGrow(c', events[1..], p);
      forall k | 0 <= k <= |c'.calls| ensures calls[..k] == c'.calls[..k] {
      }
    }
  }

  /** From a fresh call, over every event sequence and for every processor, failing ones included: if no
      call was answered with an empty text for its own turn, the trace is disciplined. */
  lemma DeliveryDiscipline(callId: string, events: seq<RuntimeEvent>, p: Processor)
    requires HasWords(p, After(Initial(callId), events, p).calls, 0)
    ensures Disciplined(Trace(Initial(callId), events, p))
    ensures Tracked(After(Initial(callId), events, p), Trace(Initial(callId), events, p))
  {
    SpeaksExactly(Initial(callId), events, p);
    SpeakingDiscipline(callId, events, p);
  }

  /** So a processor that always has something to say is disciplined, whatever happens to the call. */
  lemma WordyProcessorDisciplined(callId: string, events: seq<RuntimeEvent>, p: Processor)
    requires forall calls :: !AnswersEmpty(p, calls)
    ensures Disciplined(Trace(Initial(callId), events, p))
  {
    DeliveryDiscipline(callId, events, p);
  }

  /** After a disconnect nothing is emitted and no state changes, whatever arrives. */
  lemma {:induction false} SilentAfterDisconnect(c: Coordinator, events: seq<RuntimeEvent>, p: Processor)
    requires c.state.disconnected
    ensures After(c, events, p) == c && Trace(c, events, p) == []
    decreases events
  {
    if events != [] {
      SilentAfterDisconnect(c, events[1..], p);
    }
  }

  // ----- The exact condition for discipline -----

  /** `h` hangs up the call and can arrive after any part of `events`. */
  predicate HangsUp(h: RuntimeEvent, callId: string, events: seq<RuntimeEvent>) {
    && h.eventType == CallDisconnected && h.callId == callId
    && forall i :: 0 <= i < |events| ==> events[i].eventId != h.eventId && events[i].sequence < h.sequence
  }

  lemma {:induction false} HangUpStaysFresh(c: Coordinator, events: seq<RuntimeEvent>, p: Processor, h: RuntimeEvent)
    requires HangsUp(h, c.state.callId, events)
    requires h.eventId !in c.state.processedEventIds && c.state.lastSequence < h.sequence
    ensures var s := After(c, events, p).state; s.disconnected || Fresh(s, h)
    decreases events
  {
    if events != [] {
      HangUpStaysFresh(Handle(c, events[0], p).0, events[1..], p, h);
    }
  }

  lemma {:induction false} SpokenBefore(t: seq<Observation>)
    ensures LastSpoken(t).Some? ==> exists k :: 0 <= k < |t| && t[k] == Spoke(LastSpoken(t).value)
  {
    if t != [] {
      if t[|t| - 1].Spoke? {
        assert t[|t| - 1] == Spoke(LastSpoken(t).value);
      } else {
        SpokenBefore(t[..|t| - 1]);
      }
    }
  }

  /** A turn with an empty text becomes the active delivery unspoken; hanging up then cancels it. */
  lemma EmptySpeechThenHangUp(c: Coordinator, e: RuntimeEvent, h: RuntimeEvent, p: Processor)
    requires !Speaks(p)(c, e) && h.eventType == CallDisconnected
    ensures e.turnId.Some? && e.turnId.value !in c.state.processedTurnIds
    ensures var c' := Handle(c, e, p).0;
      !c'.state.disconnected && (Fresh(c'.state, h) ==> Observer(p)(c', h).1 == [CancelledTurn(e.turnId.value)])
    ensures Observer(p)(c, e).1 == []
  {
  }

  lemma CancelUnspoken(t: seq<Observation>, id: string)
    requires forall k :: 0 <= k < |t| && t[k].Spoke? ==> t[k].turnId != id
    ensures !Disciplined(t + [CancelledTurn(id)])
  {
    SpokenBefore(t);
    var u := t + [CancelledTurn(id)];
    assert u[|t|] == CancelledTurn(id) && u[..|t|] == t;
  }

  lemma HangUpBreaks(callId: string, events: seq<RuntimeEvent>, p: Processor, h: RuntimeEvent, k: nat)
    requires HangsUp(h, callId, events) && k < |events|
    requires Always(Observer(p), Speaks(p), Initial(callId), events[..k])
    requires !Speaks(p)(After(Initial(callId), events[..k], p), events[k])
    ensures !Disciplined(Trace(Initial(callId), events[..k + 1] + [h], p))
  {
    var c := Initial(callId);
    var before, t := After(c, events[..k], p), Trace(c, events[..k], p);
    SpeakingDiscipline(callId, events[..k], p);
    EmptySpeechThenHangUp(before, events[k], h, p);
    OneMore(Observer(p), c, events, k);
    HangUpStaysFresh(c, events[..k + 1], p, h);
    LogAppend(Observer(p), c, events[..k + 1], [h]);
    assert [h][1..] == [];
    CancelUnspoken(t, events[k].turnId.value);
    assert t + [] == t;
    assert Trace(c, events[..k + 1] + [h], p) == t + [CancelledTurn(events[k].turnId.value)];
  }

  lemma HangUpSpeaks(c: Coordinator, p: Processor, h: RuntimeEvent)
    requires h.eventType == CallDisconnected
    ensures Always(Observer(p), Speaks(p), c, [h])
  {
    assert [h][1..] == [];
  }

  lemma PrefixThenHangUpSpeaks(c: Coordinator, events: seq<RuntimeEvent>, p: Processor, h: RuntimeEvent, k: nat)
    requires h.eventType == CallDisconnected && k <= |events|
    requires Always(Observer(p), Speaks(p), c, events)
    ensures Always(Observer(p), Speaks(p), c, events[..k] + [h])
  {
    assert events[..k] + events[k..] == events;
    AlwaysAppend(Observer(p), Speaks(p), c, events[..k], events[k..]);
    HangUpSpeaks(After(c, events[..k], p), p, h);
    AlwaysAppend(Observer(p), Speaks(p), c, events[..k], [h]);
  }

  lemma HangUpKeeps(callId: string, events: seq<RuntimeEvent>, p: Processor, h: RuntimeEvent, k: nat)
    requires HangsUp(h, callId, events) && k <= |events|
    requires Always(Observer(p), Speaks(p), Initial(callId), events)
    ensures Disciplined(Trace(Initial(callId), events[..k] + [h], p))
  {
    PrefixThenHangUpSpeaks(Initial(callId), events, p, h, k);
    SpeakingDiscipline(callId, events[..k] + [h], p);
  }

  /** The exact condition: hanging up at any point of a run leaves a disciplined trace, if and only
      if no call of the run was answered with an empty text for its own turn. */
  lemma DisciplineExactly(callId: string, events: seq<RuntimeEvent>, p: Processor, h: RuntimeEvent)
    requires HangsUp(h, callId, events)
    ensures HasWords(p, After(Initial(callId), events, p).calls, 0) <==>
            forall k :: 0 <= k <= |events| ==> Disciplined(Trace(Initial(callId), events[..k] + [h], p))
  {
    SpeaksExactly(Initial(callId), events, p);
    if Always(Observer(p), Speaks(p), Initial(callId), events) {
      forall k | 0 <= k <= |events| ensures Disciplined(Trace(Initial(callId), events[..k] + [h], p)) {
        HangUpKeeps(callId, events, p, h, k);
      }
    } else {
      var k := FirstFailure(Observer(p), Speaks(p), Initial(callId), events);
      HangUpBreaks(callId, events, p, h, k);
    }
  }

  /** Greets the first turn and is at a loss for words at every later one. */
  function SpeechlessReply(calls: seq<UserTurn>): ProcessorReply {
    if calls == [] then Raises
    else Returns(TurnOutput(calls[|calls| - 1].turnId, ResponsePlan("greet", None), if |calls| == 1 then "Hello" else "", None))
  }

  function FinalOf(turnId: string, sequence: nat): RuntimeEvent
    requires turnId != ""
  {
    EventFields(turnId, "call", sequence, UserUtteranceFinal, Some(turnId), Some("Hi"),
                true, false, false, AddressedToAgent, Other)
  }

  const HANG_UP: RuntimeEvent :=
    EventFields("t3", "call", 3, CallDisconnected, None, None, false, false, false, AddressedToAgent, Other)

  /** After the greeting `t1` is the active delivery. */
  lemma Greeted()
    ensures var (c, r) := Handle(Initial("call"), FinalOf("t1", 1), SpeechlessReply);
      && r.instructions == [Speak("t1", "Hello")]
      && Fresh(c.state, FinalOf("t2", 2)) && |c.calls| == 1
      && c.state.processedEventIds == {"t1"} && c.state.processedTurnIds == {"t1"}
      && HasLive(c.state) && Interruption(FinalOf("t2", 2), c.state.active.value).Some?
  {
    assert "t1"[1] != "t2"[1];
  }

  /** A second turn over a live delivery is answered with nothing, and nothing is sent. */
  lemma LostForWords(c: Coordinator)
    requires Fresh(c.state, FinalOf("t2", 2)) && |c.calls| == 1
    requires HasLive(c.state) && Interruption(FinalOf("t2", 2), c.state.active.value).Some?
    requires c.state.processedEventIds == {"t1"} && c.state.processedTurnIds == {"t1"}
    ensures var (c', r) := Handle(c, FinalOf("t2", 2), SpeechlessReply);
      && r.instructions == []
      && c'.state.active.Some? && c'.state.active.value.turnId == "t2" && Live(c'.state.active.value)
      && Fresh(c'.state, HANG_UP)
  {
    assert "t1"[1] != "t2"[1] && "t1"[1] != "t3"[1] && "t2"[1] != "t3"[1];
  }

  /** It happens: the prospect speaks over the answer to `t1`, whose cancellation is never sent, and hanging
      up cancels `t2`, which was never spoken. */
  lemma CancellationCanBeLost()
    ensures Trace(Initial("call"), [FinalOf("t1", 1), FinalOf("t2", 2), HANG_UP], SpeechlessReply)
         == [Spoke("t1"), CancelledTurn("t2")]
    ensures !Disciplined([Spoke("t1"), CancelledTurn("t2")])
  {
    var p, e1, e2, c0 := SpeechlessReply, FinalOf("t1", 1), FinalOf("t2", 2), Initial("call");
    var c1 := Handle(c0, e1, p).0;
    Greeted();
    LostForWords(c1);
    ThreeEvents(c0, e1, e2, HANG_UP, p);
    HangUpCancels(Handle(c1, e2, p).0, HANG_UP, p);
    assert Observed(e1, Handle(c0, e1, p).1) == [Spoke("t1")];
    CancelUnspoken([Spoke("t1")], "t2");
    assert [Spoke("t1")] + [CancelledTurn("t2")] == [Spoke("t1"), CancelledTurn("t2")];
  }

  lemma HangUpCancels(c: Coordinator, h: RuntimeEvent, p: Processor)
    requires Fresh(c.state, h) && h.eventType == CallDisconnected && HasLive(c.state)
    ensures Observed(h, Handle(c, h, p).1) == [CancelledTurn(c.state.active.value.turnId)]
  {
  }

  lemma ThreeEvents(c: Coordinator, e1: RuntimeEvent, e2: RuntimeEvent, e3: RuntimeEvent, p: Processor)
    ensures var (c1, r1) := Handle(c, e1, p);
      var (c2, r2) := Handle(c1, e2, p);
      Trace(c, [e1, e2, e3], p) == Observed(e1, r1) + (Observed(e2, r2) + Observed(e3, Handle(c2, e3, p).1))
  {
    var step := Observer(p);
    var c1 := step(c, e1).0;
    var c2 := step(c1, e2).0;
    assert [e1, e2, e3][1..] == [e2, e3] && [e2, e3][1..] == [e3];
    OneInput(step, c2, e3);
    assert Log(step, c1, [e2, e3]) == step(c1, e2).1 + Log(step, c2, [e3]);
  }

  // ----- The fresh subsequence -----

  predicate Fresh(s: SessionState, e: RuntimeEvent) {
    && e.callId == s.callId && e.eventId !in s.processedEventIds
    && !s.disconnected && s.lastSequence < e.sequence
  }

  /** The events that matter: those of this call, not seen before, above every sequence number
      accepted so far, up to the first disconnect. No delivery state takes part in the choice. */
  function Accepted(callId: string, seen: set<string>, last: int, open: bool, events: seq<RuntimeEvent>)
    : seq<RuntimeEvent>
    decreases events
  {
    if events == [] then []
    else
      var e, rest := events[0], events[1..];
      if e.callId != callId || e.eventId in seen || !open then Accepted(callId, seen, last, open, rest)
      else if e.sequence <= last then Accepted(callId, seen + {e.eventId}, last, open, rest)
      else [e] + Accepted(callId, seen + {e.eventId}, e.sequence, e.eventType != CallDisconnected, rest)
  }

  function AcceptedBy(s: SessionState, events: seq<RuntimeEvent>): seq<RuntimeEvent> {
    Accepted(s.callId, s.processedEventIds, s.lastSequence, !s.disconnected, events)
  }

  /** Of one call, none seen before, numbers strictly increasing, nothing after a disconnect. */
  ghost predicate InOrder(a: seq<RuntimeEvent>, callId: string, seen: set<string>, last: int) {
    && (forall i :: 0 <= i < |a| ==> a[i].callId == callId && last < a[i].sequence && a[i].eventId !in seen)
    && (forall i, j :: 0 <= i < j < |a| ==> a[i].sequence < a[j].sequence && a[i].eventId != a[j].eventId)
    && (forall i :: 0 <= i < |a| - 1 ==> a[i].eventType != CallDisconnected)
  }

  lemma {:induction false} AcceptedInOrder(callId: string, seen: set<string>, last: int, open: bool, events: seq<RuntimeEvent>)
    ensures InOrder(Accepted(callId, seen, last, open, events), callId, seen, last)
    ensures !open ==> Accepted(callId, seen, last, open, events) == []
    decreases events
  {
    if events != [] {
      var e, rest := events[0], events[1..];
      if e.callId != callId || e.eventId in seen || !open {
        AcceptedInOrder(callId, seen, last, open, rest);
      } else if e.sequence <= last {
        AcceptedInOrder(callId, seen + {e.eventId}, last, open, rest);
      } else {
        var tail := Accepted(callId, seen + {e.eventId}, e.sequence, e.eventType != CallDisconnected, rest);
        AcceptedInOrder(callId, seen + {e.eventId}, e.sequence, e.eventType != CallDisconnected, rest);
        InOrderCons(e, tail, callId, seen, last);
      }
    }
  }

  lemma InOrderCons(e: RuntimeEvent, tail: seq<RuntimeEvent>, callId: string, seen: set<string>, last: int)
    requires e.callId == callId && e.eventId !in seen && last < e.sequence
    requires InOrder(tail, callId, seen + {e.eventId}, e.sequence)
    requires e.eventType == CallDisconnected ==> tail == []
    ensures InOrder([e] + tail, callId, seen, last)
  {
    var a := [e] + tail;
    assert forall i :: 1 <= i < |a| ==> a[i] == tail[i - 1];
  }

  /** The ideal coordinator: it applies every event it is given, with no identity or order checks. */
  function IdealStep(c: Coordinator, e: RuntimeEvent, p: Processor): (Coordinator, CoordinationResult) {
    Dispatch(c.(state := Record(c.state, e, true)), e, p)
  }

  function Ideal(p: Processor): (Coordinator, RuntimeEvent) -> (Coordinator, seq<Instruction>) {
    (c: Coordinator, e: RuntimeEvent) => var (c', r) := IdealStep(c, e, p); (c', r.instructions)
  }

  function Actual(p: Processor): (Coordinator, RuntimeEvent) -> (Coordinator, seq<Instruction>) {
    (c: Coordinator, e: RuntimeEvent) => var (c', r) := Handle(c, e, p); (c', r.instructions)
  }

  /** Equal apart from the processed event ids. */
  ghost predicate Alike(c: Coordinator, d: Coordinator) {
    && c.calls == d.calls
    && d.state == c.state.(processedEventIds := d.state.processedEventIds)
  }

  lemma FinalUtteranceIgnoresIds(c: Coordinator, d: Coordinator, e: RuntimeEvent, p: Processor)
    requires Alike(c, d) && e.eventType == UserUtteranceFinal
    ensures Alike(FinalUtterance(c, e, p).0, FinalUtterance(d, e, p).0)
    ensures FinalUtterance(c, e, p).1.instructions == FinalUtterance(d, e, p).1.instructions
  {
    if e.turnId.value !in c.state.processedTurnIds && CancelLive(c.state, e).Some? {
      var s, t := CancelLive(c.state, e).value.0, CancelLive(d.state, e).value.0;
      assert t == s.(processedEventIds := t.processedEventIds);
      assert TurnFor(s, e) == TurnFor(t, e);
    }
  }

  lemma DispatchIgnoresIds(c: Coordinator, d: Coordinator, e: RuntimeEvent, p: Processor)
    requires Alike(c, d)
    ensures Alike(Dispatch(c, e, p).0, Dispatch(d, e, p).0)
    ensures Dispatch(c, e, p).1.instructions == Dispatch(d, e, p).1.instructions
  {
    if e.eventType == UserUtteranceFinal {
      FinalUtteranceIgnoresIds(c, d, e, p);
    }
  }

  lemma DispatchKeepsOrder(c: Coordinator, e: RuntimeEvent, p: Processor)
    requires !c.state.disconnected
    ensures var s := Dispatch(c, e, p).0.state;
      && s.callId == c.state.callId && s.lastSequence == c.state.lastSequence
      && s.processedEventIds == c.state.processedEventIds
      && s.disconnected == (e.eventType == CallDisconnected)
  {
  }

  lemma {:induction false} RefinesIdeal(c: Coordinator, d: Coordinator, events: seq<RuntimeEvent>, p: Processor)
    requires Alike(c, d)
    ensures var accepted := AcceptedBy(c.state, events);
      && Alike(Final(Actual(p), c, events), Final(Ideal(p), d, accepted))
      && Log(Actual(p), c, events) == Log(Ideal(p), d, accepted)
    decreases events
  {
    if events != [] {
      var e, rest := events[0], events[1..];
      var c' := Handle(c, e, p).0;
      if Fresh(c.state, e) {
        var recorded := c.(state := Record(c.state, e, true));
        DispatchIgnoresIds(recorded, d.(state := Record(d.state, e, true)), e, p);
        DispatchKeepsOrder(recorded, e, p);
        RefinesIdeal(c', IdealStep(d, e, p).0, rest, p);
        assert AcceptedBy(c.state, events) == [e] + AcceptedBy(c'.state, rest);
        assert ([e] + AcceptedBy(c'.state, rest))[1..] == AcceptedBy(c'.state, rest);
      } else {
        RefinesIdeal(c', d, rest, p);
      }
    }
  }

  lemma {:induction false} AcceptedTwice(callId: string, seen: set<string>, last: int, open: bool, events: seq<RuntimeEvent>, fewer: set<string>)
    requires fewer <= seen
    ensures var a := Accepted(callId, seen, last, open, events); Accepted(callId, fewer, last, open, a) == a
    decreases events
  {
    if events != [] {
      var e, rest := events[0], events[1..];
      if e.callId != callId || e.eventId in seen || !open {
        AcceptedTwice(callId, seen, last, open, rest, fewer);
      } else if e.sequence <= last {
        AcceptedTwice(callId, seen + {e.eventId}, last, open, rest, fewer);
      } else {
        var tail := Accepted(callId, seen + {e.eventId}, e.sequence, e.eventType != CallDisconnected, rest);
        AcceptedTwice(callId, seen + {e.eventId}, e.sequence, e.eventType != CallDisconnected, rest, fewer + {e.eventId});
        assert ([e] + tail)[1..] == tail;
      }
    }
  }

  /** Duplicates, stale and foreign events and anything after a disconnect leave no mark: the run
      over all events calls the processor with the same turns, emits the same instructions and ends
      in the same state, apart from the ids it remembers, as the run over the accepted events alone,
      and as the ideal coordinator that makes no checks. */
  lemma CoordinatorRefinement(callId: string, events: seq<RuntimeEvent>, p: Processor)
    ensures var c := Initial(callId);
      var accepted := AcceptedBy(c.state, events);
      && InOrder(accepted, callId, {}, -1)
      && Alike(Final(Actual(p), c, events), Final(Actual(p), c, accepted))
      && Alike(Final(Actual(p), c, events), Final(Ideal(p), c, accepted))
      && Log(Actual(p), c, events) == Log(Actual(p), c, accepted) == Log(Ideal(p), c, accepted)
  {
    var c := Initial(callId);
    AcceptedInOrder(callId, {}, -1, true, events);
    RefinesIdeal(c, c, events, p);
    AcceptedTwice(callId, {}, -1, true, events, {});
    RefinesIdeal(c, c, AcceptedBy(c.state, events), p);
  }

  // ----- Interruption accounting -----

  function IntentOf(a: ActiveDelivery): Option<PendingIntent> {
    var summary := Unfinished(a);
    if summary.None? then None else Some(PendingIntent(a.plan.communicativeGoal, summary.value))
  }

  predicate CutShort(a: ActiveDelivery) { a.status.Interrupted? || a.status.Cancelled? }

  /** A pending interruption exists exactly while the active delivery is cut short, and describes it. */
  ghost predicate Accounted(s: SessionState) {
    && (s.active.Some? ==> Some(s.active.value.turnId) == s.currentTurnId
                           && s.active.value.turnId in s.processedTurnIds)
    && (s.disconnected ==> s.pendingInterruption.None?)
    && (!s.disconnected ==> (s.pendingInterruption.Some? <==> s.active.Some? && CutShort(s.active.value)))
    && (s.pendingInterruption.Some? ==>
          var context := s.pendingInterruption.value;
          && context.wasInterrupted && context.voice.duringAgentOutput
          && context.previousIntent == IntentOf(s.active.value))
  }

  lemma FinalUtteranceAccounted(c: Coordinator, e: RuntimeEvent, p: Processor)
    requires Accounted(c.state) && !c.state.disconnected && e.eventType == UserUtteranceFinal
    ensures Accounted(FinalUtterance(c, e, p).0.state)
  {
  }

  lemma DeliveryUpdateAccounted(c: Coordinator, e: RuntimeEvent, status: DeliveryStatus)
    requires Accounted(c.state) && !c.state.disconnected && status in {Delivering, Completed, Interrupted}
    ensures Accounted(DeliveryUpdate(c, e, status).0.state)
  {
  }

  lemma AccountedStep(c: Coordinator, e: RuntimeEvent, p: Processor)
    requires Accounted(c.state)
    ensures Accounted(Handle(c, e, p).0.state)
  {
    if Fresh(c.state, e) {
      var recorded := c.(state := Record(c.state, e, true));
      match e.eventType
      case UserUtteranceFinal => FinalUtteranceAccounted(recorded, e, p);
      case AgentDeliveryStarted => DeliveryUpdateAccounted(recorded, e, Delivering);
      case AgentDeliveryCompleted => DeliveryUpdateAccounted(recorded, e, Completed);
      case AgentDeliveryInterrupted => DeliveryUpdateAccounted(recorded, e, Interrupted);
      case UserSpeechStarted =>
      case CallDisconnected =>
      case CallStarted =>
      case RuntimeErrorEvent =>
    }
  }

  /** Interruption accounting holds in every reachable state, for every processor. */
  lemma {:induction false} InterruptionAccounting(c: Coordinator, events: seq<RuntimeEvent>, p: Processor)
    requires Accounted(c.state)
    ensures Accounted(After(c, events, p).state)
    decreases events
  {
    if events != [] {
      AccountedStep(c, events[0], p);
      InterruptionAccounting(Handle(c, events[0], p).0, events[1..], p);
    }
  }

  /** A turn is told it interrupted something exactly when the delivery before it was not
      completed; what was pending is handed on as it was; success clears it and failure keeps it. */
  lemma InterruptionHandedOn(c: Coordinator, e: RuntimeEvent, p: Processor)
    requires Accounted(c.state) && Handle(c, e, p).1.processedTurn.Some?
    ensures var (c', r) := Handle(c, e, p);
      var given := r.processedTurn.value.interruption;
      && (given.wasInterrupted <==> c.state.active.Some? && c.state.active.value.status != Completed)
      && (c.state.pendingInterruption.Some? ==> given == c.state.pendingInterruption.value)
      && (r.outcome == TurnProcessed ==> c'.state.pendingInterruption.None?)
      && (r.outcome.Failed? && given.wasInterrupted ==> c'.state.pendingInterruption == Some(given))
  {
  }

  /** A pending interruption survives any number of failed turns and other events, unchanged,
      until a turn output is accepted or the call is disconnected. */
  lemma {:induction false} InterruptionSurvives(c: Coordinator, events: seq<RuntimeEvent>, p: Processor)
    requires Accounted(c.state) && c.state.pendingInterruption.Some?
    ensures var s := After(c, events, p).state;
      s.disconnected || s.currentTurnId != c.state.currentTurnId || s.pendingInterruption == c.state.pendingInterruption
    decreases events
  {
    if events != [] {
      var c' := Handle(c, events[0], p).0;
      AccountedStep(c, events[0], p);
      if c'.state.disconnected {
        SilentAfterDisconnect(c', events[1..], p);
      } else if c'.state.pendingInterruption == c.state.pendingInterruption {
        InterruptionSurvives(c', events[1..], p);
      } else {
        CurrentTurnMovesOn(c', events[1..], p, c.state.currentTurnId.value);
      }
    }
  }

  /** A turn id that has left the active delivery never becomes current again. */
  lemma {:induction false} CurrentTurnMovesOn(c: Coordinator, events: seq<RuntimeEvent>, p: Processor, id: string)
    requires id in c.state.processedTurnIds && c.state.currentTurnId != Some(id)
    ensures After(c, events, p).state.currentTurnId != Some(id)
    decreases events
  {
    if events != [] {
      CurrentTurnMovesOn(Handle(c, events[0], p).0, events[1..], p, id);
    }
  }

  // ----- What is delivered and what is asked -----

  /** How far a delivery has got agrees with its status. */
  predicate ProgressOk(a: ActiveDelivery) {
    && (a.status.Pending? ==> a.progress.NotStarted?)
    && (a.status.Delivering? ==> a.progress.Partial?)
    && (a.status.Completed? <==> a.progress.Complete?)
  }

  /** The delivery is what the processor returned when it was called with its turn. */
  ghost predicate FromProcessor(a: ActiveDelivery, calls: seq<UserTurn>, p: Processor) {
    exists k :: 0 <= k < |calls| && ReturnedFor(a, calls, k, p)
  }

  predicate ReturnedFor(a: ActiveDelivery, calls: seq<UserTurn>, k: nat, p: Processor)
    requires k < |calls|
  {
    && calls[k].turnId == a.turnId
    && p(calls[..k + 1]) == Returns(TurnOutput(a.turnId, a.plan, a.text, a.unfinishedSummary))
  }

  ghost predicate Delivered(c: Coordinator, p: Processor) {
    c.state.active.Some? ==> ProgressOk(c.state.active.value) && FromProcessor(c.state.active.value, c.calls, p)
  }

  lemma OneMoreCall(a: ActiveDelivery, b: ActiveDelivery, calls: seq<UserTurn>, turn: UserTurn, p: Processor)
    requires FromProcessor(a, calls, p)
    requires b.turnId == a.turnId && b.plan == a.plan && b.text == a.text && b.unfinishedSummary == a.unfinishedSummary
    ensures FromProcessor(b, calls + [turn], p)
  {
    var k :| 0 <= k < |calls| && ReturnedFor(a, calls, k, p);
    assert (calls + [turn])[..k + 1] == calls[..k + 1];
    assert ReturnedFor(b, calls + [turn], k, p);
  }

  lemma ConcludeDelivers(c: Coordinator, turn: UserTurn, instructions: seq<Instruction>, p: Processor)
    requires Delivered(c, p) && c.calls != [] && c.calls[|c.calls| - 1] == turn
    requires forall i :: i in instructions ==> !i.Speak?
    ensures var (c', r) := Conclude(c, turn, instructions, p(c.calls));
      && Delivered(c', p) && c'.calls == c.calls
      && forall i :: i in r.instructions && i.Speak? ==>
           p(c.calls).Returns? && p(c.calls).output.turnId == i.turnId && p(c.calls).output.text == i.text
  {
    var c' := Conclude(c, turn, instructions, p(c.calls)).0;
    var n := |c.calls| - 1;
    assert c.calls[..n + 1] == c.calls;
    if p(c.calls).Returns? && p(c.calls).output.turnId == turn.turnId {
      assert ReturnedFor(c'.state.active.value, c.calls, n, p);
    }
  }

  lemma FinalUtteranceDelivers(c: Coordinator, e: RuntimeEvent, p: Processor)
    requires Delivered(c, p) && e.eventType == UserUtteranceFinal
    ensures Delivered(FinalUtterance(c, e, p).0, p)
    ensures forall i :: i in FinalUtterance(c, e, p).1.instructions && i.Speak? ==>
              var c' := FinalUtterance(c, e, p).0;
              p(c'.calls).Returns? && p(c'.calls).output.turnId == i.turnId && p(c'.calls).output.text == i.text
  {
    if e.turnId.value !in c.state.processedTurnIds && CancelLive(c.state, e).Some? {
      var (s, instructions) := CancelLive(c.state, e).value;
      var turn := TurnFor(s, e);
      var called := Coordinator(s.(processedTurnIds := s.processedTurnIds + {turn.turnId}), c.calls + [turn]);
      if c.state.active.Some? {
        OneMoreCall(c.state.active.value, s.active.value, c.calls, turn, p);
      }
      ConcludeDelivers(called, turn, instructions, p);
    }
  }

  lemma OtherEventsDeliver(c: Coordinator, e: RuntimeEvent, p: Processor)
    requires Delivered(c, p) && e.eventType != UserUtteranceFinal
    ensures Delivered(Dispatch(c, e, p).0, p)
    ensures forall i :: i in Dispatch(c, e, p).1.instructions ==> !i.Speak?
  {
    if c.state.active.Some? {
      var k :| 0 <= k < |c.calls| && ReturnedFor(c.state.active.value, c.calls, k, p);
      assert ReturnedFor(Dispatch(c, e, p).0.state.active.value, c.calls, k, p);
    }
  }

  lemma HandleDelivers(c: Coordinator, e: RuntimeEvent, p: Processor)
    requires Delivered(c, p)
    ensures Delivered(Handle(c, e, p).0, p)
    ensures forall i :: i in Handle(c, e, p).1.instructions && i.Speak? ==>
              var c' := Handle(c, e, p).0;
              p(c'.calls).Returns? && p(c'.calls).output.turnId == i.turnId && p(c'.calls).output.text == i.text
  {
    if Fresh(c.state, e) {
      var recorded := c.(state := Record(c.state, e, true));
      if e.eventType == UserUtteranceFinal {
        FinalUtteranceDelivers(recorded, e, p);
      } else {
        OtherEventsDeliver(recorded, e, p);
      }
    }
  }

  /** In every reachable state the active delivery is, plan, text and unfinished summary, what the processor
      returned for its turn, and its progress agrees with its status. */
  lemma {:induction false} DeliveriesComeFromProcessor(c: Coordinator, events: seq<RuntimeEvent>, p: Processor)
    requires Delivered(c, p)
    ensures Delivered(After(c, events, p), p)
    decreases events
  {
    if events != [] {
      HandleDelivers(c, events[0], p);
      DeliveriesComeFromProcessor(Handle(c, events[0], p).0, events[1..], p);
    }
  }

  /** The turn the processor is asked about is the one the event describes; speech that may be background
      noise is not taken to be addressed to the agent. */
  predicate AsksAbout(e: RuntimeEvent, turn: UserTurn) {
    && e.eventType == UserUtteranceFinal
    && e.turnId == Some(turn.turnId) && e.utterance == Some(turn.utterance) && e.sequence == turn.sequence
    && turn.category == e.category
    && turn.addressee == if e.backgroundSpeech then AddresseeUncertain else e.addressee
  }

  ghost predicate AskedInOrder(c: Coordinator, events: seq<RuntimeEvent>) {
    && (forall k :: 0 <= k < |c.calls| ==> c.calls[k].sequence <= c.state.lastSequence)
    && (forall j, k :: 0 <= j < k < |c.calls| ==> c.calls[j].sequence < c.calls[k].sequence)
    && (forall k :: 0 <= k < |c.calls| ==> Received(events, c.calls[k]))
  }

  ghost predicate Received(events: seq<RuntimeEvent>, turn: UserTurn) {
    exists i :: 0 <= i < |events| && AsksAbout(events[i], turn)
  }

  lemma ReceivedMore(events: seq<RuntimeEvent>, e: RuntimeEvent, turn: UserTurn)
    requires Received(events, turn) || AsksAbout(e, turn)
    ensures Received(events + [e], turn)
  {
    if Received(events, turn) {
      var i :| 0 <= i < |events| && AsksAbout(events[i], turn);
      assert (events + [e])[i] == events[i];
    } else {
      assert (events + [e])[|events|] == e;
    }
  }

  /** One event makes at most one call: about itself, and with a higher number than any call before. */
  lemma HandleCalls(c: Coordinator, e: RuntimeEvent, p: Processor)
    ensures var c' := Handle(c, e, p).0;
      && c.state.lastSequence <= c'.state.lastSequence
      && (c'.calls == c.calls
          || (|c'.calls| == |c.calls| + 1 && c'.calls == c.calls + [c'.calls[|c.calls|]]
              && AsksAbout(e, c'.calls[|c.calls|]) && c.state.lastSequence < e.sequence == c'.state.lastSequence))
  {
  }

  lemma HandleAsks(c: Coordinator, seen: seq<RuntimeEvent>, e: RuntimeEvent, p: Processor)
    requires AskedInOrder(c, seen)
    ensures AskedInOrder(Handle(c, e, p).0, seen + [e])
  {
    var c' := Handle(c, e, p).0;
    HandleCalls(c, e, p);
    forall k | 0 <= k < |c'.calls| ensures Received(seen + [e], c'.calls[k]) {
      ReceivedMore(seen, e, c'.calls[k]);
    }
  }

  /** Over any run the processor is asked about final utterances of the call only, as they were received and
      in the order of their sequence numbers. */
  lemma {:induction false} ProcessorAskedInOrder(c: Coordinator, seen: seq<RuntimeEvent>, events: seq<RuntimeEvent>, p: Processor)
    requires AskedInOrder(c, seen)
    ensures AskedInOrder(After(c, events, p), seen + events)
    decreases events
  {
    if events == [] {
      assert seen + events == seen;
    } else {
      HandleAsks(c, seen, events[0], p);
      ProcessorAskedInOrder(Handle(c, events[0], p).0, seen + [events[0]], events[1..], p);
      assert (seen + [events[0]]) + events[1..] == seen + events;
    }
  }

  // ----- What an interruption says -----

  predicate Describes(e: RuntimeEvent, context: InterruptionContext) {
    && context.category == (if e.backgroundSpeech then UncertainAddressee else e.category)
    && context.voice.overlapping == e.overlappingSpeech
    && (context.wasInterrupted ==> context.voice.bargeIn == e.bargeIn)
  }

  lemma CancelDescribes(s: SessionState, e: RuntimeEvent)
    requires CancelLive(s, e).Some?
    ensures var s' := CancelLive(s, e).value.0;
      s'.pendingInterruption == s.pendingInterruption
      || (s'.pendingInterruption.Some? && Describes(e, s'.pendingInterruption.value))
  {
  }

  lemma ConcludeInterruption(c: Coordinator, turn: UserTurn, instructions: seq<Instruction>, reply: ProcessorReply)
    ensures var (c', r) := Conclude(c, turn, instructions, reply);
      && (c'.state.pendingInterruption.None? || c'.state.pendingInterruption == c.state.pendingInterruption)
      && (r.processedTurn.None? || r.processedTurn == Some(turn))
  {
  }

  lemma UtteranceDescribes(c: Coordinator, e: RuntimeEvent, p: Processor)
    requires e.eventType == UserUtteranceFinal
    ensures var (c', r) := FinalUtterance(c, e, p);
      && (c'.state.pendingInterruption.Some? && c'.state.pendingInterruption != c.state.pendingInterruption ==>
            Describes(e, c'.state.pendingInterruption.value))
      && (r.processedTurn.Some? ==>
            || Some(r.processedTurn.value.interruption) == c.state.pendingInterruption
            || Describes(e, r.processedTurn.value.interruption))
  {
    if e.turnId.value !in c.state.processedTurnIds && CancelLive(c.state, e).Some? {
      var (s, instructions) := CancelLive(c.state, e).value;
      var turn := TurnFor(s, e);
      var called := Coordinator(s.(processedTurnIds := s.processedTurnIds + {turn.turnId}), c.calls + [turn]);
      CancelDescribes(c.state, e);
      ConcludeInterruption(called, turn, instructions, p(called.calls));
    }
  }

  /** A context that arises with an event describes that event: its category, its overlap and its barge-in;
      speech that may be background noise has no category of its own. */
  lemma ContextsDescribeEvents(c: Coordinator, e: RuntimeEvent, p: Processor)
    ensures var (c', r) := Handle(c, e, p);
      && (c'.state.pendingInterruption.Some? && c'.state.pendingInterruption != c.state.pendingInterruption ==>
            Describes(e, c'.state.pendingInterruption.value))
      && (r.processedTurn.Some? ==>
            || Some(r.processedTurn.value.interruption) == c.state.pendingInterruption
            || Describes(e, r.processedTurn.value.interruption))
  {
    if Fresh(c.state, e) && e.eventType == UserUtteranceFinal {
      UtteranceDescribes(c.(state := Record(c.state, e, true)), e, p);
    }
  }
}
