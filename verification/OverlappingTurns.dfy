/** The reasoning budget when turns overlap on one processor: the handlers of the turn protocol around a shared
    counter. A handler captures the counter, asks the provider if the counter allows it, counts the turn, and
    writes the captured value back when its commit is refused; other handlers take steps in between. */
module OverlappingTurns {
  import opened Wrappers
  import opened Runs
  import opened SessionStore
  import opened Recovery
  import opened TurnProtocol
  import opened Budget
  import TurnProtocolProofs
  import BudgetProofs

  /** How far a turn has got inside the processor, with the counter it found on its way in. */
  datatype Phase = Started(before: nat) | Thinking(before: nat, asked: bool) | Thought(before: nat)

  /** The world of the protocol and the processor all its handlers share. For the record: the counter this
      processor began with, and the provider calls that came back to it. */
  datatype Shared = Shared(world: World, calls: nat, turns: nat, phases: map<nat, Phase>, base: nat, consulted: nat)

  datatype Move =
    | Take(h: nat)
    | Ask(h: nat, priority: bool, provider: bool)
    | Tally(h: nat)
    | Act(a: Action)

  function Opened(policyVersion: Option<string>): Shared { Shared(Begin(policyVersion), 0, 0, map[], 0, 0) }

  predicate InWork(w: World, h: nat) {
    h in w.handlers && (w.handlers[h].stage.Loaded? || w.handlers[h].stage.Ran? || w.handlers[h].stage.Exported?)
  }

  predicate HasBudget(limits: Limits, s: Shared) {
    Continues(Evaluate(Some(StateOf(limits, s.turns, s.calls)), NO_SIGNALS, Some(limits)))
  }

  function Taking(s: Shared, h: nat): Shared {
    if s.world.registered && h in s.world.handlers && s.world.handlers[h].stage.Loaded? && h !in s.phases
    then s.(phases := s.phases[h := Started(s.calls)]) else s
  }

  function Asking(limits: Limits, s: Shared, h: nat, priority: bool, provider: bool): Shared {
    if h in s.phases && s.phases[h].Started?
    then s.(phases := s.phases[h := Thinking(s.phases[h].before, !priority && provider && HasBudget(limits, s))]) else s
  }

  function Tallying(s: Shared, h: nat): Shared {
    if h in s.phases && s.phases[h].Thinking? then
      var one := if s.phases[h].asked then 1 else 0;
      s.(phases := s.phases[h := Thought(s.phases[h].before)], turns := s.turns + 1, calls := s.calls + one,
         consulted := s.consulted + one)
    else s
  }

  /** A processor returns after it has counted the turn; it may raise before. */
  predicate Enabled(s: Shared, a: Action) {
    a.Run? && a.output.Some? ==> a.h in s.phases && s.phases[a.h].Thought?
  }

  /** What is exported is the counter as it stands. */
  function Filled(s: Shared, a: Action): Action {
    if a.ExportState? && a.state.Some? then ExportState(a.h, Some(a.state.value.(reasoningCalls := s.calls))) else a
  }

  predicate Commits(s: Shared, a: Action) {
    a.CommitTurn? && a.h in s.world.handlers && s.world.handlers[a.h].stage.Exported?
  }

  predicate Succeeds(s: Shared, a: Action)
    requires Commits(s, a)
  {
    && !a.storeFails && s.world.handlers[a.h].stage.copy.revision == s.world.store.session.revision
    && s.world.handlers[a.h].request !in s.world.store.rows
  }

  predicate RollsBack(s: Shared, a: Action) { Commits(s, a) && !Succeeds(s, a) && a.h in s.phases }

  function Acting(setup: Setup, s: Shared, a: Action): (Shared, seq<Reply>) {
    if !Enabled(s, a) then (s, [])
    else
      var (w, replies) := Step(setup, s.world, Filled(s, a));
      var s' := s.(world := w, phases := map h | h in s.phases && InWork(w, h) :: s.phases[h]);
      var persisted := BudgetProofs.Persisted(w.store);
      (if RollsBack(s, a) then s'.(calls := s.phases[a.h].before)
       else if !s.world.registered && w.registered then
         s'.(calls := persisted, turns := 0, phases := map[], base := persisted, consulted := 0)
       else s',
       replies)
  }

  function Next(setup: Setup, limits: Limits, s: Shared, m: Move): (Shared, seq<Reply>) {
    match m
    case Take(h) => (Taking(s, h), [])
    case Ask(h, priority, provider) => (Asking(limits, s, h, priority, provider), [])
    case Tally(h) => (Tallying(s, h), [])
    case Act(a) => Acting(setup, s, a)
  }

  function Machine(setup: Setup, limits: Limits): (Shared, Move) -> (Shared, seq<Reply>) {
    (s: Shared, m: Move) => Next(setup, limits, s, m)
  }

  function After(setup: Setup, limits: Limits, s: Shared, moves: seq<Move>): Shared {
    Final(Machine(setup, limits), s, moves)
  }

  // ----- The protocol underneath -----

  /** The steps of the protocol in a run. */
  function Steps(setup: Setup, limits: Limits, s: Shared, moves: seq<Move>): seq<Action>
    decreases moves
  {
    if moves == [] then []
    else
      (if moves[0].Act? && Enabled(s, moves[0].a) then [Filled(s, moves[0].a)] else [])
      + Steps(setup, limits, Next(setup, limits, s, moves[0]).0, moves[1..])
  }

  /** Overlapping turns on one processor are a run of the turn protocol, so what holds of every run of the
      protocol holds of them. */
  lemma {:induction false} RunsTheProtocol(setup: Setup, limits: Limits, s: Shared, moves: seq<Move>)
    ensures After(setup, limits, s, moves).world == TurnProtocolProofs.After(setup, s.world, Steps(setup, limits, s, moves))
    ensures Log(Machine(setup, limits), s, moves) == Log(Protocol(setup), s.world, Steps(setup, limits, s, moves))
    decreases moves
  {
    if moves != [] {
      var m, s' := moves[0], Next(setup, limits, s, moves[0]).0;
      var rest := Steps(setup, limits, s', moves[1..]);
      RunsTheProtocol(setup, limits, s', moves[1..]);
      if m.Act? && Enabled(s, m.a) {
        TurnProtocolProofs.Unfolds(setup, s.world, Filled(s, m.a), rest);
      } else {
        assert [] + rest == rest;
      }
    }
  }

  // ----- Provider calls -----

  predicate IsAsking(p: Phase) { p.Thinking? && p.asked }

  /** The turns whose provider call is under way. */
  function Pending(s: Shared): set<nat> { set h | h in s.phases && IsAsking(s.phases[h]) }

  /** No more than `most` provider calls are under way at once. */
  predicate Admits(most: nat, s: Shared, m: Move) {
    m.Ask? && m.h in s.phases && s.phases[m.h].Started? ==> |Pending(s)| < most
  }

  function AtMost(most: nat): (Shared, Move) -> bool { (s: Shared, m: Move) => Admits(most, s, m) }

  ghost predicate CallsBounded(limits: Limits, most: nat, s: Shared) {
    && s.consulted + |Pending(s)| + 1 <= BudgetProofs.AtLeastZero(limits.maxTurns) + most
    && s.consulted <= s.turns
  }

  lemma PendingAsks(limits: Limits, s: Shared, h: nat, priority: bool, provider: bool)
    ensures var s' := Asking(limits, s, h, priority, provider);
      || Pending(s') == Pending(s)
      || (HasBudget(limits, s) && Pending(s') == Pending(s) + {h} && |Pending(s')| <= |Pending(s)| + 1)
  {
    var s' := Asking(limits, s, h, priority, provider);
    if h in s.phases && s.phases[h].Started? && IsAsking(s'.phases[h]) {
      assert Pending(s') == Pending(s) + {h};
    } else {
      assert Pending(s') == Pending(s);
    }
  }

  lemma PendingTallies(s: Shared, h: nat)
    ensures var s' := Tallying(s, h);
      s'.consulted + |Pending(s')| == s.consulted + |Pending(s)| && (s'.consulted <= s.consulted + 1)
  {
    var s' := Tallying(s, h);
    if h in s.phases && s.phases[h].Thinking? {
      assert Pending(s') == Pending(s) - {h};
      if !s.phases[h].asked { assert Pending(s') == Pending(s); }
    }
  }

  lemma Fewer(a: set<nat>, b: set<nat>)
    requires a <= b
    ensures |a| <= |b|
  {
    assert b == a + (b - a);
  }

  lemma ActBounded(setup: Setup, limits: Limits, most: nat, s: Shared, a: Action)
    requires CallsBounded(limits, most, s) && most > 0
    ensures CallsBounded(limits, most, Acting(setup, s, a).0)
  {
    var s' := Acting(setup, s, a).0;
    Fewer(Pending(s'), Pending(s));
    assert (s'.consulted == s.consulted && s'.turns == s.turns) || (s'.consulted == 0 && Pending(s') == {});
  }

  lemma AskBounded(limits: Limits, most: nat, s: Shared, h: nat, priority: bool, provider: bool)
    requires CallsBounded(limits, most, s) && Admits(most, s, Ask(h, priority, provider))
    ensures CallsBounded(limits, most, Asking(limits, s, h, priority, provider))
  {
    PendingAsks(limits, s, h, priority, provider);
    if HasBudget(limits, s) { assert s.turns < limits.maxTurns; }
  }

  lemma MoveBounded(setup: Setup, limits: Limits, most: nat, s: Shared, m: Move)
    requires CallsBounded(limits, most, s) && Admits(most, s, m) && most > 0
    ensures CallsBounded(limits, most, Next(setup, limits, s, m).0)
  {
    match m
    case Take(h) => assert Pending(Taking(s, h)) == Pending(s);
    case Ask(h, priority, provider) => AskBounded(limits, most, s, h, priority, provider);
    case Tally(h) => PendingTallies(s, h);
    case Act(a) => ActBounded(setup, limits, most, s, a);
  }

  /** Over every interleaving, with no more than `most` provider calls under way at once, the calls that come
      back to one processor pass the turn limit by less than `most`. */
  lemma {:induction false} OverlapBounded(setup: Setup, limits: Limits, most: nat, s: Shared, moves: seq<Move>)
    requires CallsBounded(limits, most, s) && most > 0 && Always(Machine(setup, limits), AtMost(most), s, moves)
    ensures CallsBounded(limits, most, After(setup, limits, s, moves))
    decreases moves
  {
    if moves != [] {
      MoveBounded(setup, limits, most, s, moves[0]);
      OverlapBounded(setup, limits, most, Next(setup, limits, s, moves[0]).0, moves[1..]);
    }
  }

  /** From a session just begun. */
  lemma ProviderCallsBounded(setup: Setup, limits: Limits, policyVersion: Option<string>, most: nat, moves: seq<Move>)
    requires most > 0 && Always(Machine(setup, limits), AtMost(most), Opened(policyVersion), moves)
    ensures var s := After(setup, limits, Opened(policyVersion), moves);
      && s.consulted <= BudgetProofs.AtLeastZero(limits.maxTurns) + most - 1
      && s.calls <= s.base + s.consulted && Persisted(s.world) <= s.base + s.consulted
  {
    assert Pending(Opened(policyVersion)) == {};
    OverlapBounded(setup, limits, most, Opened(policyVersion), moves);
    CounterBounded(setup, limits, Opened(policyVersion), moves);
  }

  // ----- What a step of the protocol does to the counters -----

  function Persisted(w: World): nat { BudgetProofs.Persisted(w.store) }

  /** The counter a turn is about to write. */
  function Carried(w: World, h: nat): Option<nat> {
    if h in w.handlers && w.handlers[h].stage.Exported? && w.handlers[h].stage.state.Some?
    then Some(w.handlers[h].stage.state.value.reasoningCalls) else None
  }

  /** A turn carries what it carried, or the counter as it is exported now. */
  lemma CarriedMoves(setup: Setup, s: Shared, a: Action, h: nat)
    requires Enabled(s, a)
    ensures var w := Step(setup, s.world, Filled(s, a)).0;
      Carried(w, h).Some? ==> Carried(w, h) == Carried(s.world, h) || (Carried(w, h) == Some(s.calls) && a.ExportState? && a.h == h)
  {
  }

  /** Only a successful commit writes the counter: as it was carried. */
  lemma PersistedMoves(setup: Setup, s: Shared, a: Action)
    ensures Persisted(Step(setup, s.world, Filled(s, a)).0) ==
      if Commits(s, a) && Succeeds(s, a) && Carried(s.world, a.h).Some? then Carried(s.world, a.h).value
      else Persisted(s.world)
  {
    if Commits(s, a) && Carried(s.world, a.h).Some? {
      BudgetRoundTrip(s.world.handlers[a.h].stage.state.value, s.world.handlers[a.h].stage.copy.revision + 1);
    }
  }

  /** A turn in work was in work before, or has just read the session row of a registered processor. */
  lemma InWorkMoves(setup: Setup, s: Shared, a: Action, h: nat)
    ensures var w := Step(setup, s.world, Filled(s, a)).0;
      InWork(w, h) ==> (s.world.registered ==> w.registered) && (InWork(s.world, h) || s.world.registered)
    ensures Step(setup, s.world, Filled(s, a)).0.registered && !s.world.registered ==> a.Restore?
  {
  }

  // ----- The counter in memory -----

  /** Nothing that is or will be in the counter exceeds what the processor began with and was told. */
  ghost predicate CounterOk(s: Shared) {
    var top := s.base + s.consulted;
    && s.calls <= top && Persisted(s.world) <= top
    && (forall h :: h in s.phases ==> s.phases[h].before <= top)
    && (forall h :: Carried(s.world, h).Some? ==> Carried(s.world, h).value <= top)
    && (!s.world.registered ==> forall h :: !InWork(s.world, h))
  }

  lemma CarriedInWork(w: World, h: nat)
    ensures Carried(w, h).Some? ==> InWork(w, h)
  {
  }

  lemma ActCounts(setup: Setup, s: Shared, a: Action)
    requires CounterOk(s)
    ensures CounterOk(Acting(setup, s, a).0)
  {
    if Enabled(s, a) {
      var w := Step(setup, s.world, Filled(s, a)).0;
      PersistedMoves(setup, s, a);
      forall h
        ensures Carried(w, h).Some? ==> Carried(w, h) == Carried(s.world, h) || Carried(w, h) == Some(s.calls)
        ensures InWork(w, h) ==> s.world.registered && w.registered
        ensures Carried(w, h).Some? ==> InWork(w, h)
      {
        CarriedMoves(setup, s, a, h);
        InWorkMoves(setup, s, a, h);
        CarriedInWork(w, h);
      }
    }
  }

  /** Over every interleaving the counter in memory and the one in the store stay within what the processor
      began with and the provider calls that came back to it. */
  lemma {:induction false} CounterBounded(setup: Setup, limits: Limits, s: Shared, moves: seq<Move>)
    requires CounterOk(s)
    ensures CounterOk(After(setup, limits, s, moves))
    decreases moves
  {
    if moves != [] {
      if moves[0].Act? { ActCounts(setup, s, moves[0].a); }
      CounterBounded(setup, limits, Next(setup, limits, s, moves[0]).0, moves[1..]);
    }
  }

  // ----- When the counter falls behind the store -----

  /** The counter in memory is below the persisted one: budget that was spent and committed is back. */
  predicate Behind(s: Shared) { s.world.registered && s.calls < Persisted(s.world) }

  /** A refused commit writes back less than is persisted, or a commit persists more than is left. */
  predicate Clobbers(s: Shared, m: Move) {
    && m.Act? && s.world.registered
    && ((RollsBack(s, m.a) && s.phases[m.a.h].before < Persisted(s.world))
        || (Commits(s, m.a) && Succeeds(s, m.a) && Carried(s.world, m.a.h).Some? && s.calls < Carried(s.world, m.a.h).value))
  }

  lemma FallsBehindExactly(setup: Setup, limits: Limits, s: Shared, m: Move)
    requires !Behind(s)
    ensures Behind(Next(setup, limits, s, m).0) <==> Clobbers(s, m)
  {
    if m.Act? && Enabled(s, m.a) {
      PersistedMoves(setup, s, m.a);
    }
  }

  function Harmless(): (Shared, Move) -> bool { (s: Shared, m: Move) => !Clobbers(s, m) }

  ghost predicate NowhereBehind(setup: Setup, limits: Limits, s: Shared, moves: seq<Move>) {
    forall k :: 0 <= k <= |moves| ==> !Behind(After(setup, limits, s, moves[..k]))
  }

  lemma BehindUnfolds(setup: Setup, limits: Limits, s: Shared, moves: seq<Move>)
    requires moves != []
    ensures NowhereBehind(setup, limits, s, moves) <==>
      !Behind(s) && NowhereBehind(setup, limits, Next(setup, limits, s, moves[0]).0, moves[1..])
  {
    var s' := Next(setup, limits, s, moves[0]).0;
    assert After(setup, limits, s, moves[..0]) == s;
    forall k | 1 <= k <= |moves| ensures After(setup, limits, s, moves[..k]) == After(setup, limits, s', moves[1..][..k - 1]) {
      assert moves[..k][1..] == moves[1..][..k - 1];
    }
    if NowhereBehind(setup, limits, s, moves) {
      forall k | 0 <= k <= |moves[1..]| ensures !Behind(After(setup, limits, s', moves[1..][..k])) {
        assert After(setup, limits, s, moves[..k + 1]) == After(setup, limits, s', moves[1..][..k + 1 - 1]);
      }
    }
  }

  /** The exact condition: the counter in memory is nowhere in a run below the persisted one if and only if no
      refused commit wrote back less than was persisted and no commit persisted more than was left. */
  lemma {:induction false} NeverBehindExactly(setup: Setup, limits: Limits, s: Shared, moves: seq<Move>)
    requires !Behind(s)
    ensures Always(Machine(setup, limits), Harmless(), s, moves) <==>
            NowhereBehind(setup, limits, s, moves)
    decreases moves
  {
    if moves == [] {
      assert moves[..0] == [];
    } else {
      var s' := Next(setup, limits, s, moves[0]).0;
      FallsBehindExactly(setup, limits, s, moves[0]);
      BehindUnfolds(setup, limits, s, moves);
      if Behind(s') {
        assert After(setup, limits, s', moves[1..][..0]) == s';
      } else {
        NeverBehindExactly(setup, limits, s', moves[1..]);
      }
    }
  }

  // ----- Turns one at a time -----

  /** A turn begins in the processor only when none is in it. */
  function Alone(): (Shared, Move) -> bool { (s: Shared, m: Move) => m.Take? ==> s.phases == map[] }

  ghost predicate OneAtATime(s: Shared) {
    && (forall g, h :: g in s.phases && h in s.phases ==> g == h)
    && (forall h :: h in s.world.handlers && (s.world.handlers[h].stage.Ran? || s.world.handlers[h].stage.Exported?) ==>
          h in s.phases && s.phases[h].Thought?)
    && (forall h :: h in s.phases ==> InWork(s.world, h) && (!s.phases[h].Thought? ==> s.world.handlers[h].stage.Loaded?))
    && (!s.world.registered ==> forall h :: !InWork(s.world, h))
  }

  ghost predicate InStep(limits: Limits, s: Shared) {
    var top := BudgetProofs.AtLeastZero(limits.maxReasoningCalls);
    && Persisted(s.world) <= s.calls <= top
    && (forall h :: h in s.phases ==>
          Persisted(s.world) <= s.phases[h].before <= top && (IsAsking(s.phases[h]) ==> s.calls < limits.maxReasoningCalls))
    && (forall h :: Carried(s.world, h).Some? ==> Carried(s.world, h) == Some(s.calls))
  }

  lemma StagesMove(setup: Setup, s: Shared, a: Action, h: nat)
    requires Enabled(s, a) && OneAtATime(s)
    ensures var w := Step(setup, s.world, Filled(s, a)).0;
      h in w.handlers && InWork(w, h) ==>
        && (w.handlers[h].stage.Loaded? || (h in s.phases && s.phases[h].Thought?))
        && (h in s.phases && !s.phases[h].Thought? ==> w.handlers[h].stage.Loaded?)
  {
  }

  lemma ActKeepsOne(setup: Setup, s: Shared, a: Action)
    requires OneAtATime(s)
    ensures OneAtATime(Acting(setup, s, a).0)
  {
    if Enabled(s, a) {
      var w := Step(setup, s.world, Filled(s, a)).0;
      forall h
        ensures InWork(w, h) ==>
          && s.world.registered && w.registered
          && (w.handlers[h].stage.Loaded? || (h in s.phases && s.phases[h].Thought?))
          && (h in s.phases && !s.phases[h].Thought? ==> w.handlers[h].stage.Loaded?)
      {
        InWorkMoves(setup, s, a, h);
        StagesMove(setup, s, a, h);
      }
    }
  }

  /** A commit leaves no turn in the processor, if it was the only one. */
  lemma CommitEmpties(setup: Setup, s: Shared, a: Action)
    requires OneAtATime(s) && Commits(s, a)
    ensures Acting(setup, s, a).0.phases == map[]
    ensures forall h :: !Carried(Acting(setup, s, a).0.world, h).Some?
  {
    var s' := Acting(setup, s, a).0;
    forall h ensures !Carried(s'.world, h).Some? {
      CarriedMoves(setup, s, a, h);
    }
  }

  lemma ActKeepsStep(setup: Setup, limits: Limits, s: Shared, a: Action)
    requires OneAtATime(s) && InStep(limits, s)
    ensures InStep(limits, Acting(setup, s, a).0)
  {
    if Enabled(s, a) {
      PersistedMoves(setup, s, a);
      if Commits(s, a) {
        CommitEmpties(setup, s, a);
      } else {
        var w := Step(setup, s.world, Filled(s, a)).0;
        forall h ensures Carried(w, h).Some? ==> Carried(w, h) == Some(s.calls) && (!s.world.registered ==> !w.registered) {
          CarriedMoves(setup, s, a, h);
          InWorkMoves(setup, s, a, h);
          CarriedInWork(w, h);
        }
      }
    }
  }

  lemma AskKeepsStep(limits: Limits, s: Shared, h: nat, priority: bool, provider: bool)
    requires OneAtATime(s) && InStep(limits, s)
    ensures var s' := Asking(limits, s, h, priority, provider); OneAtATime(s') && InStep(limits, s')
  {
    if HasBudget(limits, s) { assert s.calls < limits.maxReasoningCalls; }
  }

  lemma TallyKeepsStep(limits: Limits, s: Shared, h: nat)
    requires OneAtATime(s) && InStep(limits, s)
    ensures var s' := Tallying(s, h); OneAtATime(s') && InStep(limits, s')
  {
    var s' := Tallying(s, h);
    forall g ensures Carried(s'.world, g).Some? ==> s' == s {
      if Carried(s.world, g).Some? { assert s.phases[g].Thought?; }
    }
  }

  lemma TakeKeepsStep(limits: Limits, s: Shared, h: nat)
    requires OneAtATime(s) && InStep(limits, s) && s.phases == map[]
    ensures var s' := Taking(s, h); OneAtATime(s') && InStep(limits, s')
  {
  }

  lemma AloneAdmitsOne(s: Shared, m: Move)
    requires OneAtATime(s)
    ensures Admits(1, s, m)
  {
    if m.Ask? && m.h in s.phases && s.phases[m.h].Started? {
      assert Pending(s) == {};
    }
  }

  /** Where turns do not overlap, the counter in memory never falls behind the store, and neither passes its
      limit. */
  lemma {:induction false} AloneKeepsStep(setup: Setup, limits: Limits, s: Shared, moves: seq<Move>)
    requires OneAtATime(s) && InStep(limits, s) && Always(Machine(setup, limits), Alone(), s, moves)
    ensures OneAtATime(After(setup, limits, s, moves)) && InStep(limits, After(setup, limits, s, moves))
    ensures Always(Machine(setup, limits), AtMost(1), s, moves)
    decreases moves
  {
    if moves != [] {
      AloneAdmitsOne(s, moves[0]);
      match moves[0] {
        case Take(h) => TakeKeepsStep(limits, s, h);
        case Ask(h, priority, provider) => AskKeepsStep(limits, s, h, priority, provider);
        case Tally(h) => TallyKeepsStep(limits, s, h);
        case Act(a) =>
          ActKeepsOne(setup, s, a);
          ActKeepsStep(setup, limits, s, a);
      }
      AloneKeepsStep(setup, limits, Next(setup, limits, s, moves[0]).0, moves[1..]);
    }
  }

  /** From a session just begun. */
  lemma SerialTurns(setup: Setup, limits: Limits, policyVersion: Option<string>, moves: seq<Move>)
    requires Always(Machine(setup, limits), Alone(), Opened(policyVersion), moves)
    ensures var s := After(setup, limits, Opened(policyVersion), moves);
      && !Behind(s) && s.calls <= BudgetProofs.AtLeastZero(limits.maxReasoningCalls)
      && s.consulted <= BudgetProofs.AtLeastZero(limits.maxTurns)
  {
    AloneKeepsStep(setup, limits, Opened(policyVersion), moves);
    ProviderCallsBounded(setup, limits, policyVersion, 1, moves);
  }

  // ----- Two runs -----

  lemma Unfolds(setup: Setup, limits: Limits, s: Shared, m: Move, rest: seq<Move>)
    ensures After(setup, limits, s, [m] + rest) == After(setup, limits, Next(setup, limits, s, m).0, rest)
  {
    assert ([m] + rest)[1..] == rest;
  }

  lemma Joins(setup: Setup, limits: Limits, s: Shared, a: seq<Move>, b: seq<Move>)
    ensures After(setup, limits, s, a + b) == After(setup, limits, After(setup, limits, s, a), b)
  {
    FinalAppend(Machine(setup, limits), s, a, b);
  }

  ghost predicate AllInWork(s: Shared, w: World) { forall g :: g in s.phases ==> InWork(w, g) }

  /** A step that neither refuses a commit nor brings a processor back touches the protocol alone. */
  lemma ActsAlone(setup: Setup, s: Shared, a: Action, w: World)
    requires Enabled(s, a) && !RollsBack(s, a) && (w.registered ==> s.world.registered)
    requires Step(setup, s.world, Filled(s, a)).0 == w && AllInWork(s, w)
    ensures Acting(setup, s, a).0 == s.(world := w)
  {
    assert (map h | h in s.phases && InWork(w, h) :: s.phases[h]) == s.phases;
  }

  /** A request up to the processor's door. */
  function Entering(h: nat, request: string, text: string): seq<Move> {
    [Act(Arrive(h, request, text))] + ([Act(Count(h))] + ([Act(Lookup(h))] + ([Act(Load(h))] + [Take(h)])))
  }

  function At(w: World, h: nat, request: string, text: string, stage: Stage): World {
    w.(handlers := w.handlers[h := Handler(request, text, stage)])
  }

  lemma AtMoves(w: World, h: nat, request: string, text: string, first: Stage, second: Stage)
    ensures TurnProtocol.Moved(At(w, h, request, text, first), h, second) == At(w, h, request, text, second)
  {
    assert At(w, h, request, text, first).handlers[h := Handler(request, text, second)]
        == At(w, h, request, text, second).handlers;
  }

  /** One step of handler `h` from one stage to the next, while the others stay where they are. */
  lemma StepsOn(setup: Setup, limits: Limits, s: Shared, w: World, h: nat, request: string, text: string, first: Stage, a: Action,
                second: Stage, rest: seq<Move>)
    requires s.world == At(w, h, request, text, first) && w.registered && AllInWork(s, w) && h !in w.handlers
    requires (a.Count? || a.Lookup? || a.Load?) && a.h == h
    requires Step(setup, s.world, a) == (TurnProtocol.Moved(s.world, h, second), [])
    ensures After(setup, limits, s, [Act(a)] + rest) == After(setup, limits, s.(world := At(w, h, request, text, second)), rest)
  {
    AtMoves(w, h, request, text, first, second);
    ActsAlone(setup, s, a, At(w, h, request, text, second));
    Unfolds(setup, limits, s, Act(a), rest);
  }

  lemma ReadSteps(setup: Setup, w: World, h: nat, request: string, text: string)
    requires w.registered && w.store.session.status == Active && request !in w.store.rows
    ensures var n, session := w.store.session.turnCount, w.store.session;
      var w1, w2 := At(w, h, request, text, Received), At(w, h, request, text, Counted(n));
      var w3 := At(w, h, request, text, Missed(n));
      && Step(setup, w1, Count(h)) == (TurnProtocol.Moved(w1, h, Counted(n)), [])
      && Step(setup, w2, Lookup(h)) == (TurnProtocol.Moved(w2, h, Missed(n)), [])
      && Step(setup, w3, Load(h)) == (TurnProtocol.Moved(w3, h, Loaded(n + 1, session)), [])
  {
  }

  /** From the request received to the processor's door. */
  lemma ReadsAlone(setup: Setup, limits: Limits, s: Shared, w: World, h: nat, request: string, text: string)
    requires s.world == At(w, h, request, text, Received) && w.registered && AllInWork(s, w) && h !in w.handlers && h !in s.phases
    requires w.store.session.status == Active && request !in w.store.rows
    ensures After(setup, limits, s, [Act(Count(h))] + ([Act(Lookup(h))] + ([Act(Load(h))] + [Take(h)]))) ==
      s.(world := At(w, h, request, text, Loaded(w.store.session.turnCount + 1, w.store.session)),
         phases := s.phases[h := Started(s.calls)])
  {
    var n, session, take := w.store.session.turnCount, w.store.session, [Take(h)];
    var load := [Act(Load(h))] + take;
    ReadSteps(setup, w, h, request, text);
    StepsOn(setup, limits, s, w, h, request, text, Received, Count(h), Counted(n), [Act(Lookup(h))] + load);
    var s2 := s.(world := At(w, h, request, text, Counted(n)));
    StepsOn(setup, limits, s2, w, h, request, text, Counted(n), Lookup(h), Missed(n), load);
    var s3 := s.(world := At(w, h, request, text, Missed(n)));
    StepsOn(setup, limits, s3, w, h, request, text, Missed(n), Load(h), Loaded(n + 1, session), take);
    OneInput(Machine(setup, limits), s.(world := At(w, h, request, text, Loaded(n + 1, session))), Take(h));
  }

  lemma EntersAlone(setup: Setup, limits: Limits, s: Shared, h: nat, request: string, text: string)
    requires s.world.registered && s.world.store.session.status == Active && request !in s.world.store.rows
    requires h !in s.world.handlers && h !in s.phases && AllInWork(s, s.world)
    ensures After(setup, limits, s, Entering(h, request, text)) ==
      s.(world := At(s.world, h, request, text, Loaded(s.world.store.session.turnCount + 1, s.world.store.session)),
         phases := s.phases[h := Started(s.calls)])
  {
    var arrived := At(s.world, h, request, text, Received);
    ActsAlone(setup, s, Arrive(h, request, text), arrived);
    Unfolds(setup, limits, s, Act(Arrive(h, request, text)),
            [Act(Count(h))] + ([Act(Lookup(h))] + ([Act(Load(h))] + [Take(h)])));
    ReadsAlone(setup, limits, s.(world := arrived), s.world, h, request, text);
  }

  /** A turn through the processor, up to its commit. */
  function Processing(h: nat, provider: bool, output: Output, state: Exportable): seq<Move> {
    [Ask(h, false, provider)] + ([Tally(h)] + ([Act(Run(h, Some(output)))] + [Act(ExportState(h, Some(state)))]))
  }

  function Counter(limits: Limits, s: Shared, provider: bool): nat {
    s.calls + if provider && HasBudget(limits, s) then 1 else 0
  }

  function Counting(limits: Limits, s: Shared, h: nat, provider: bool): Shared
    requires h in s.phases
  {
    var calls := Counter(limits, s, provider);
    s.(phases := s.phases[h := Thought(s.phases[h].before)], turns := s.turns + 1, calls := calls,
       consulted := s.consulted + (calls - s.calls))
  }

  lemma CountsAlone(setup: Setup, limits: Limits, s: Shared, h: nat, provider: bool, rest: seq<Move>)
    requires h in s.phases && s.phases[h].Started?
    ensures After(setup, limits, s, [Ask(h, false, provider)] + ([Tally(h)] + rest))
         == After(setup, limits, Counting(limits, s, h, provider), rest)
  {
    var s1 := Asking(limits, s, h, false, provider);
    Unfolds(setup, limits, s, Ask(h, false, provider), [Tally(h)] + rest);
    Unfolds(setup, limits, s1, Tally(h), rest);
    assert Tallying(s1, h).phases == Counting(limits, s, h, provider).phases;
  }

  function StateWith(setup: Setup, state: Exportable, calls: nat): Option<Exportable> {
    if setup.capable then Some(state.(reasoningCalls := calls)) else None
  }

  lemma RunsAlone(setup: Setup, limits: Limits, s: Shared, h: nat, output: Output, state: Exportable)
    requires h in s.phases && s.phases[h].Thought? && s.world.registered && AllInWork(s, s.world)
    requires s.world.handlers[h].stage.Loaded? && s.world.handlers[h].text != "" && output.text != ""
    ensures var Handler(request, text, Loaded(n, copy)) := s.world.handlers[h];
      After(setup, limits, s, [Act(Run(h, Some(output)))] + [Act(ExportState(h, Some(state)))])
      == s.(world := At(s.world, h, request, text, Exported(n, copy, output, StateWith(setup, state, s.calls))))
  {
    var Handler(request, text, Loaded(n, copy)) := s.world.handlers[h];
    var w1 := At(s.world, h, request, text, Ran(n, copy, output));
    var w2 := At(s.world, h, request, text, Exported(n, copy, output, StateWith(setup, state, s.calls)));
    ActsAlone(setup, s, Run(h, Some(output)), w1);
    Unfolds(setup, limits, s, Act(Run(h, Some(output))), [Act(ExportState(h, Some(state)))]);
    assert w1.handlers[h := w2.handlers[h]] == w2.handlers;
    ActsAlone(setup, s.(world := w1), ExportState(h, Some(state)), w2);
    OneInput(Machine(setup, limits), s.(world := w1), Act(ExportState(h, Some(state))));
  }

  lemma ProcessesAlone(setup: Setup, limits: Limits, s: Shared, h: nat, provider: bool, output: Output, state: Exportable)
    requires h in s.phases && s.phases[h].Started? && s.world.registered && AllInWork(s, s.world)
    requires s.world.handlers[h].stage.Loaded? && s.world.handlers[h].text != "" && output.text != ""
    ensures var Handler(request, text, Loaded(n, copy)) := s.world.handlers[h];
      var counted := Counting(limits, s, h, provider);
      After(setup, limits, s, Processing(h, provider, output, state))
      == counted.(world := At(s.world, h, request, text,
                              Exported(n, copy, output, StateWith(setup, state, counted.calls))))
  {
    CountsAlone(setup, limits, s, h, provider, [Act(Run(h, Some(output)))] + [Act(ExportState(h, Some(state)))]);
    RunsAlone(setup, limits, Counting(limits, s, h, provider), h, output, state);
  }

  /** A commit of a turn that has exported, refused if the row has moved on. */
  lemma CommitsAlone(setup: Setup, s: Shared, h: nat)
    requires Commits(s, CommitTurn(h, false)) && h in s.phases && AllInWork(s, s.world) && s.world.registered
    ensures var s' := Acting(setup, s, CommitTurn(h, false)).0;
      var stage := s.world.handlers[h].stage;
      && s'.phases == s.phases - {h} && s'.world.registered
      && (forall g :: g != h && g in s.world.handlers ==> g in s'.world.handlers && s'.world.handlers[g] == s.world.handlers[g])
      && (if Succeeds(s, CommitTurn(h, false)) then
            && s'.calls == s.calls && s'.world.store.session.revision == stage.copy.revision + 1
            && (stage.state.Some? ==> Persisted(s'.world) == stage.state.value.reasoningCalls)
          else s'.calls == s.phases[h].before && Persisted(s'.world) == Persisted(s.world))
  {
    var s' := Acting(setup, s, CommitTurn(h, false)).0;
    PersistedMoves(setup, s, CommitTurn(h, false));
    assert s'.phases == s.phases - {h};
  }

  /** Turn 1 enters before turn 0 is committed and is refused after it. */
  function Straggling(first: string, second: string, text: string, output: Output, state: Exportable): seq<Move> {
    ((((Entering(0, first, text) + Entering(1, second, text)) + Processing(0, true, output, state)) + [Act(CommitTurn(0, false))])
     + Processing(1, false, output, state)) + [Act(CommitTurn(1, false))]
  }

  lemma Then(setup: Setup, limits: Limits, s: Shared, moves: seq<Move>, m: Move)
    ensures After(setup, limits, s, moves + [m]) == Next(setup, limits, After(setup, limits, s, moves), m).0
  {
    Joins(setup, limits, s, moves, [m]);
    OneInput(Machine(setup, limits), After(setup, limits, s, moves), m);
  }

  ghost predicate BothIn(s: Shared, policyVersion: Option<string>, first: string, second: string, text: string) {
    && s.world.store == Begin(policyVersion).store && s.world.registered && s.calls == 0 && s.turns == 0
    && s.phases == map[0 := Started(0), 1 := Started(0)]
    && 0 in s.world.handlers && 1 in s.world.handlers
    && s.world.handlers[0] == Handler(first, text, Loaded(1, s.world.store.session))
    && s.world.handlers[1] == Handler(second, text, Loaded(1, s.world.store.session))
  }

  lemma BothEnter(setup: Setup, limits: Limits, policyVersion: Option<string>, first: string, second: string, text: string)
    ensures BothIn(After(setup, limits, Opened(policyVersion), Entering(0, first, text) + Entering(1, second, text)),
                   policyVersion, first, second, text)
  {
    var s0 := Opened(policyVersion);
    EntersAlone(setup, limits, s0, 0, first, text);
    EntersAlone(setup, limits, After(setup, limits, s0, Entering(0, first, text)), 1, second, text);
    Joins(setup, limits, s0, Entering(0, first, text), Entering(1, second, text));
  }

  lemma FirstCommits(setup: Setup, limits: Limits, s: Shared, policyVersion: Option<string>, first: string, second: string,
                     text: string, output: Output, state: Exportable)
    requires BothIn(s, policyVersion, first, second, text) && setup.capable && HasBudget(limits, s)
    requires text != "" && output.text != ""
    ensures var s' := Next(setup, limits, After(setup, limits, s, Processing(0, true, output, state)), Act(CommitTurn(0, false))).0;
      && s'.calls == 1 && Persisted(s'.world) == 1 && s'.world.registered && s'.phases == map[1 := Started(0)]
      && s'.world.store.session.revision == 1
      && 1 in s'.world.handlers && s'.world.handlers[1] == s.world.handlers[1]
  {
    ProcessesAlone(setup, limits, s, 0, true, output, state);
    var done := After(setup, limits, s, Processing(0, true, output, state));
    assert AllInWork(done, done.world);
    CommitsAlone(setup, done, 0);
  }

  lemma SecondRefused(setup: Setup, limits: Limits, s: Shared, output: Output, state: Exportable)
    requires s.calls == 1 && Persisted(s.world) == 1 && s.world.registered && s.phases == map[1 := Started(0)]
    requires 1 in s.world.handlers && s.world.handlers[1].stage.Loaded? && s.world.handlers[1].text != "" && output.text != ""
    requires s.world.handlers[1].stage.copy.revision != s.world.store.session.revision
    ensures var s' := Next(setup, limits, After(setup, limits, s, Processing(1, false, output, state)), Act(CommitTurn(1, false))).0;
      s'.calls == 0 && Persisted(s'.world) == 1 && s'.world.registered
  {
    ProcessesAlone(setup, limits, s, 1, false, output, state);
    CommitsAlone(setup, After(setup, limits, s, Processing(1, false, output, state)), 1);
  }

  /** It happens: a turn that began before another was committed is refused after it, and the provider call
      that was committed is back in the budget. */
  lemma OverlapCanFallBehind(setup: Setup, limits: Limits, policyVersion: Option<string>, first: string, second: string,
                             text: string, output: Output, state: Exportable)
    requires setup.capable && HasBudget(limits, Opened(policyVersion)) && text != "" && output.text != ""
    ensures var s := After(setup, limits, Opened(policyVersion), Straggling(first, second, text, output, state));
      s.calls == 0 && Persisted(s.world) == 1 && Behind(s)
  {
    var s0 := Opened(policyVersion);
    var entered := Entering(0, first, text) + Entering(1, second, text);
    BothEnter(setup, limits, policyVersion, first, second, text);
    var s1 := After(setup, limits, s0, entered);
    FirstCommits(setup, limits, s1, policyVersion, first, second, text, output, state);
    Joins(setup, limits, s0, entered, Processing(0, true, output, state));
    var processed := entered + Processing(0, true, output, state);
    Then(setup, limits, s0, processed, Act(CommitTurn(0, false)));
    var committed := processed + [Act(CommitTurn(0, false))];
    SecondRefused(setup, limits, After(setup, limits, s0, committed), output, state);
    Joins(setup, limits, s0, committed, Processing(1, false, output, state));
    Then(setup, limits, s0, committed + Processing(1, false, output, state), Act(CommitTurn(1, false)));
  }

  /** Requests that all get past the budget before any of them is counted. */
  function Rushing(n: nat, request: string, text: string): seq<Move> {
    if n == 0 then []
    else Rushing(n - 1, request, text) + (Entering(n - 1, request, text) + [Ask(n - 1, false, true)])
  }

  function Tallies(n: nat): seq<Move> { if n == 0 then [] else [Tally(n - 1)] + Tallies(n - 1) }

  ghost predicate Rushed(policyVersion: Option<string>, s: Shared, n: nat) {
    && s.world.store == Begin(policyVersion).store && s.world.registered && s.calls == s.turns == s.consulted == 0
    && (forall h: nat :: h in s.phases <==> h < n) && (forall h :: h in s.phases ==> IsAsking(s.phases[h]))
    && (forall h :: h in s.world.handlers ==> h < n) && AllInWork(s, s.world)
  }

  lemma RushOneMore(setup: Setup, limits: Limits, policyVersion: Option<string>, s: Shared, h: nat, request: string, text: string)
    requires HasBudget(limits, Opened(policyVersion)) && Rushed(policyVersion, s, h)
    ensures Rushed(policyVersion, After(setup, limits, s, Entering(h, request, text) + [Ask(h, false, true)]), h + 1)
  {
    EntersAlone(setup, limits, s, h, request, text);
    Then(setup, limits, s, Entering(h, request, text), Ask(h, false, true));
  }

  lemma {:induction false} Rush(setup: Setup, limits: Limits, policyVersion: Option<string>, n: nat, request: string, text: string)
    requires HasBudget(limits, Opened(policyVersion))
    ensures Rushed(policyVersion, After(setup, limits, Opened(policyVersion), Rushing(n, request, text)), n)
  {
    if n > 0 {
      var s0, before := Opened(policyVersion), Rushing(n - 1, request, text);
      Rush(setup, limits, policyVersion, n - 1, request, text);
      Joins(setup, limits, s0, before, Entering(n - 1, request, text) + [Ask(n - 1, false, true)]);
      RushOneMore(setup, limits, policyVersion, After(setup, limits, s0, before), n - 1, request, text);
    }
  }

  lemma {:induction false} TalliesCount(setup: Setup, limits: Limits, s: Shared, n: nat)
    requires forall h: nat :: h < n ==> h in s.phases && IsAsking(s.phases[h])
    ensures var s' := After(setup, limits, s, Tallies(n)); s'.consulted == s.consulted + n && s'.calls == s.calls + n
    decreases n
  {
    if n > 0 {
      Unfolds(setup, limits, s, Tally(n - 1), Tallies(n - 1));
      TalliesCount(setup, limits, Tallying(s, n - 1), n - 1);
    }
  }

  /** It happens: whatever the limits, as long as they allow one call, any number of overlapping turns make
      one each. The bound on provider calls cannot do without the number of turns at once. */
  lemma OverlapCanExceed(setup: Setup, limits: Limits, policyVersion: Option<string>, n: nat, request: string, text: string)
    requires HasBudget(limits, Opened(policyVersion))
    ensures var s := After(setup, limits, Opened(policyVersion), Rushing(n, request, text) + Tallies(n));
      s.consulted == n && s.calls == n
  {
    Rush(setup, limits, policyVersion, n, request, text);
    var s := After(setup, limits, Opened(policyVersion), Rushing(n, request, text));
    TalliesCount(setup, limits, s, n);
    Joins(setup, limits, Opened(policyVersion), Rushing(n, request, text), Tallies(n));
  }
}
