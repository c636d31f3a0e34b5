/** Reconciliation of business observations into the current understanding
    (app/conversation/business_conversation). */
module BusinessConversation {
  import opened Wrappers

  datatype FactKind =
    | Industry | BusinessType | Branches | Employees | CurrentWorkflow | ManualStep | Software | Integration
    | Reporting | Communication | Website | Crm

  datatype ProblemKind =
    | Operational | Technical | Marketing | Sales | Financial | CustomerExperience | TimeProblem | Quality | Errors | FollowUps

  datatype UnknownArea =
    | OrderVolume | CurrentSoftware | ReportingProcess | DecisionMaker | Inventory | Billing | CrmArea | Integrations

  /** A fact with its value, or a problem with its detail. */
  datatype Observation<K> = Observation(kind: K, text: string, sourceTurn: string, primary: bool)

  type Facts = seq<Observation<FactKind>>

  type Problems = seq<Observation<ProblemKind>>

  datatype Evidence = Evidence(
    facts: Facts,
    problems: Problems,
    goals: set<string>,
    constraints: set<string>,
    unknownAreas: set<UnknownArea>,
    currentFocus: Option<string>,
    factCorrections: set<FactKind>,
    problemCorrections: set<ProblemKind>,
    pendingTopic: Option<string>)

  datatype RootCause = ManualDependency | ProcessGap | NoCentralSystem | ReportingGap

  datatype Hypothesis = Hypothesis(cause: RootCause, confidence: real, support: seq<string>)

  datatype Snapshot = Snapshot(
    facts: Facts,
    problems: Problems,
    goals: set<string>,
    constraints: set<string>,
    unknownAreas: set<UnknownArea>,
    hypotheses: seq<Hypothesis>,
    currentFocus: Option<string>,
    pendingTopic: Option<string>,
    archivedFacts: Facts,
    archivedProblems: Problems)

  const EMPTY := Snapshot([], [], {}, {}, {}, [], None, None, [], [])

  const NO_EVIDENCE := Evidence([], [], {}, {}, {}, None, {}, {}, None)

  // ----- Reconciliation -----

  function Kinds<K>(items: seq<Observation<K>>): set<K> { set x | x in items :: x.kind }

  function Those<K>(items: seq<Observation<K>>, kinds: set<K>, inside: bool): seq<Observation<K>> {
    if items == [] then []
    else
      (if (items[0].kind in kinds) == inside then [items[0]] else []) + Those(items[1..], kinds, inside)
  }

  /** Assignment to an insertion-ordered dictionary from kinds to observations. */
  function Put<K(==)>(latest: seq<Observation<K>>, x: Observation<K>): seq<Observation<K>> {
    if latest == [] then [x]
    else if latest[0].kind == x.kind then [x] + latest[1..]
    else [latest[0]] + Put(latest[1..], x)
  }

  function Latest<K(==)>(incoming: seq<Observation<K>>): seq<Observation<K>> {
    if incoming == [] then []
    else Put(Latest(incoming[..|incoming| - 1]), incoming[|incoming| - 1])
  }

  const KEPT: nat := 24

  function Reconciled<K(==)>(current: seq<Observation<K>>, incoming: seq<Observation<K>>, corrections: set<K>): seq<Observation<K>> {
    Last(Those(current, Kinds(incoming) + corrections, false) + Latest(incoming), KEPT)
  }

  function Archived<K>(current: seq<Observation<K>>, archived: seq<Observation<K>>, incoming: seq<Observation<K>>,
                       corrections: set<K>): seq<Observation<K>>
  {
    Last(archived + Those(current, Kinds(incoming) + corrections, true), KEPT)
  }

  function AnsweredBy(kind: FactKind): set<UnknownArea> {
    match kind
    case Crm => {CrmArea}
    case Software => {CurrentSoftware}
    case Reporting => {ReportingProcess}
    case Integration => {Integrations}
    case _ => {}
  }

  function KnownUnknowns(facts: Facts): set<UnknownArea> { set x, a | x in facts && a in AnsweredBy(x.kind) :: a }

  // ----- Hypotheses -----

  function Support(facts: Facts, problems: Problems): seq<string> {
    seq(|problems|, i requires 0 <= i < |problems| => problems[i].text)
    + seq(|facts|, i requires 0 <= i < |facts| => facts[i].text)
  }

  predicate SuggestsManual(facts: set<FactKind>) { ManualStep in facts || CurrentWorkflow in facts }

  predicate SuggestsGap(problems: set<ProblemKind>) { Errors in problems || FollowUps in problems }

  predicate SuggestsNoCentral(facts: set<FactKind>) { Branches in facts && CurrentWorkflow in facts }

  predicate SuggestsReporting(facts: set<FactKind>, problems: set<ProblemKind>) {
    Reporting !in facts && Operational in problems
  }

  function When<T>(b: bool, x: T): seq<T> { if b then [x] else [] }

  function Candidates(facts: set<FactKind>, problems: set<ProblemKind>): seq<(RootCause, real)> {
    When(SuggestsManual(facts), (ManualDependency, 0.75)) + When(SuggestsGap(problems), (ProcessGap, 0.65))
    + When(SuggestsNoCentral(facts), (NoCentralSystem, 0.55)) + When(SuggestsReporting(facts, problems), (ReportingGap, 0.4))
  }

  function FirstSix(s: seq<string>): seq<string> { Prefix(s, 6) }

  predicate Bounded(text: string, limit: nat) { !Blank(text) && |text| <= limit }

  /** The check of a hypothesis when it is built. */
  predicate Constructible(support: seq<string>) {
    && 1 <= |support| <= 6
    && forall i :: 0 <= i < |support| ==> Bounded(support[i], 160)
  }

  /** None where building a hypothesis raises. */
  function Hypotheses(facts: Facts, problems: Problems): Option<seq<Hypothesis>> {
    var support := FirstSix(Support(facts, problems));
    var candidates := Candidates(Kinds(facts), Kinds(problems));
    if support == [] || candidates == [] then Some([])
    else if !Constructible(support) then None
    else Some(seq(|candidates|, i requires 0 <= i < |candidates| => Hypothesis(candidates[i].0, candidates[i].1, support)))
  }

  method CollectCandidates(factKinds: set<FactKind>, problemKinds: set<ProblemKind>) returns (candidates: seq<(RootCause, real)>)
    ensures candidates == Candidates(factKinds, problemKinds)
  {
    candidates := [];
    if ManualStep in factKinds || CurrentWorkflow in factKinds {
      candidates := candidates + [(ManualDependency, 0.75)];
    }
    if Errors in problemKinds || FollowUps in problemKinds {
      candidates := candidates + [(ProcessGap, 0.65)];
    }
    if Branches in factKinds && CurrentWorkflow in factKinds {
      candidates := candidates + [(NoCentralSystem, 0.55)];
    }
    if Reporting !in factKinds && Operational in problemKinds {
      candidates := candidates + [(ReportingGap, 0.4)];
    }
  }

  method BuildHypotheses(facts: Facts, problems: Problems) returns (hypotheses: Option<seq<Hypothesis>>)
    ensures hypotheses == Hypotheses(facts, problems)
  {
    var support := Support(facts, problems);
    var candidates := CollectCandidates(Kinds(facts), Kinds(problems));
    var built: seq<Hypothesis> := [];
    var i := 0;
    while i < |candidates| && support != []
      invariant 0 <= i <= |candidates| && |built| == i
      invariant i > 0 ==> Constructible(FirstSix(support))
      invariant forall j :: 0 <= j < i ==> built[j] == Hypothesis(candidates[j].0, candidates[j].1, FirstSix(support))
    {
      if !Constructible(FirstSix(support)) { return None; }
      built := built + [Hypothesis(candidates[i].0, candidates[i].1, FirstSix(support))];
      i := i + 1;
    }
    if support != [] {
      assert built == seq(|candidates|, j requires 0 <= j < |candidates| =>
        Hypothesis(candidates[j].0, candidates[j].1, FirstSix(support)));
    }
    hypotheses := Some(built);
  }

  // ----- Update -----

  /** The bounds a snapshot checks when it is built. */
  predicate Fits(facts: Facts, problems: Problems, hypotheses: seq<Hypothesis>) {
    |facts| <= 24 && |problems| <= 16 && |hypotheses| <= 6
  }

  function Update(prior: Snapshot, e: Evidence): Option<Snapshot> {
    var facts := Reconciled(prior.facts, e.facts, e.factCorrections);
    var problems := Reconciled(prior.problems, e.problems, e.problemCorrections);
    match Hypotheses(facts, problems)
    case None => None
    case Some(hypotheses) =>
      if !Fits(facts, problems, hypotheses) then None
      else
        Some(Snapshot(facts, problems, prior.goals + e.goals, prior.constraints + e.constraints,
                      (prior.unknownAreas + e.unknownAreas) - KnownUnknowns(facts), hypotheses,
                      if e.currentFocus.Some? then e.currentFocus else prior.currentFocus,
                      if e.pendingTopic.Some? then e.pendingTopic else prior.pendingTopic,
                      Archived(prior.facts, prior.archivedFacts, e.facts, e.factCorrections),
                      Archived(prior.problems, prior.archivedProblems, e.problems, e.problemCorrections)))
  }

  // ----- Last writer wins -----

  /** The last observation of a kind in a batch. */
  function LastOf<K(==)>(items: seq<Observation<K>>, k: K): Option<Observation<K>> {
    if items == [] then None
    else if items[|items| - 1].kind == k then Some(items[|items| - 1])
    else LastOf(items[..|items| - 1], k)
  }

  /** A batch of a stream: the observations and the corrections that arrive together. */
  datatype Batch<K> = Batch(incoming: seq<Observation<K>>, corrections: set<K>)

  /** The reference: one cell per kind, written by the last observation of its kind in a batch, and emptied
      by a batch that only corrects it. */
  function Cell<K(==)>(stream: seq<Batch<K>>, k: K): Option<Observation<K>> {
    if stream == [] then None
    else
      var b := stream[|stream| - 1];
      if LastOf(b.incoming, k).Some? then LastOf(b.incoming, k)
      else if k in b.corrections then None
      else Cell(stream[..|stream| - 1], k)
  }

  function CurrentAfter<K(==)>(stream: seq<Batch<K>>): seq<Observation<K>> {
    if stream == [] then []
    else
      var b := stream[|stream| - 1];
      Reconciled(CurrentAfter(stream[..|stream| - 1]), b.incoming, b.corrections)
  }

  ghost predicate OnePerKind<K(!new)>(items: seq<Observation<K>>) {
    forall i, j :: 0 <= i < j < |items| ==> items[i].kind != items[j].kind
  }

  /** The item of a kind, among items of distinct kinds. */
  function OfKind<K(==)>(items: seq<Observation<K>>, k: K): Option<Observation<K>> {
    if items == [] then None else if items[0].kind == k then Some(items[0]) else OfKind(items[1..], k)
  }

  lemma {:induction false} PutKeeps<K(!new)>(latest: seq<Observation<K>>, x: Observation<K>, k: K)
    requires OnePerKind(latest)
    ensures OnePerKind(Put(latest, x))
    ensures forall y :: y in Put(latest, x) ==> y == x || y in latest
    ensures OfKind(Put(latest, x), k) == if k == x.kind then Some(x) else OfKind(latest, k)
  {
    if latest != [] {
      var rest := latest[1..];
      assert forall i :: 0 <= i < |rest| ==> rest[i] == latest[i + 1];
      PutKeeps(rest, x, k);
      if latest[0].kind != x.kind {
        forall y | y in Put(rest, x) ensures y.kind != latest[0].kind {
          if y != x {
            var i :| 0 <= i < |rest| && rest[i] == y;
          }
        }
      }
    }
  }

  lemma {:induction false} LatestKeeps<K(!new)>(incoming: seq<Observation<K>>, k: K)
    ensures OnePerKind(Latest(incoming))
    ensures forall x :: x in Latest(incoming) ==> x in incoming
    ensures OfKind(Latest(incoming), k) == LastOf(incoming, k)
    ensures LastOf(incoming, k).Some? <==> k in Kinds(incoming)
  {
    if incoming != [] {
      var front, last := incoming[..|incoming| - 1], incoming[|incoming| - 1];
      LatestKeeps(front, k);
      PutKeeps(Latest(front), last, k);
      assert incoming == front + [last];
      assert Kinds(incoming) == Kinds(front) + {last.kind};
    }
  }

  lemma {:induction false} ThoseMembers<K(!new)>(items: seq<Observation<K>>, kinds: set<K>, inside: bool, x: Observation<K>)
    ensures x in Those(items, kinds, inside) <==> x in items && (x.kind in kinds) == inside
  {
    if items != [] {
      assert items == [items[0]] + items[1..];
      ThoseMembers(items[1..], kinds, inside, x);
    }
  }

  lemma RestOfKind<K(!new)>(items: seq<Observation<K>>)
    requires items != [] && OnePerKind(items)
    ensures OnePerKind(items[1..]) && forall x :: x in items[1..] ==> x.kind != items[0].kind
  {
    assert forall i :: 0 <= i < |items[1..]| ==> items[1..][i] == items[i + 1];
  }

  lemma ConsKind<K(!new)>(x: Observation<K>, rest: seq<Observation<K>>, k: K)
    requires OnePerKind(rest) && forall y :: y in rest ==> y.kind != x.kind
    ensures OnePerKind([x] + rest)
    ensures OfKind([x] + rest, k) == if x.kind == k then Some(x) else OfKind(rest, k)
  {
    assert ([x] + rest)[1..] == rest;
  }

  lemma {:induction false} ThoseKeep<K(!new)>(items: seq<Observation<K>>, kinds: set<K>, inside: bool, k: K)
    requires OnePerKind(items)
    ensures OnePerKind(Those(items, kinds, inside))
    ensures OfKind(Those(items, kinds, inside), k) == if (k in kinds) == inside then OfKind(items, k) else None
  {
    if items != [] {
      var rest := items[1..];
      RestOfKind(items);
      ThoseKeep(rest, kinds, inside, k);
      if (items[0].kind in kinds) == inside {
        forall x | x in Those(rest, kinds, inside) ensures x.kind != items[0].kind {
          ThoseMembers(rest, kinds, inside, x);
        }
        ConsKind(items[0], Those(rest, kinds, inside), k);
      } else {
        assert Those(items, kinds, inside) == Those(rest, kinds, inside);
      }
    }
  }

  lemma {:induction false} OfKindAppend<K(!new)>(a: seq<Observation<K>>, b: seq<Observation<K>>, k: K)
    ensures OfKind(a + b, k) == if OfKind(a, k).Some? then OfKind(a, k) else OfKind(b, k)
  {
    if a == [] {
      assert a + b == b;
    } else {
      assert (a + b)[1..] == a[1..] + b;
      OfKindAppend(a[1..], b, k);
    }
  }

  /** Distinct kinds out of a finite set of them. */
  lemma {:induction false} Pigeonhole<K(!new)>(items: seq<Observation<K>>, kinds: set<K>)
    requires OnePerKind(items) && forall x :: x in items ==> x.kind in kinds
    ensures |items| <= |kinds|
    decreases items
  {
    if items != [] {
      var rest := items[1..];
      assert items == [items[0]] + rest;
      assert forall i :: 0 <= i < |rest| ==> rest[i] == items[i + 1];
      forall x | x in rest ensures x.kind in kinds - {items[0].kind} {
        var i :| 0 <= i < |rest| && rest[i] == x;
      }
      Pigeonhole(rest, kinds - {items[0].kind});
    }
  }

  /** One batch, with room for every kind: the bound on observations takes nothing away. */
  lemma ReconciledExactly<K(!new)>(current: seq<Observation<K>>, b: Batch<K>, kinds: set<K>, k: K)
    requires OnePerKind(current) && |kinds| <= KEPT && forall x: Observation<K> :: x.kind in kinds
    ensures var r := Reconciled(current, b.incoming, b.corrections);
      && OnePerKind(r) && |r| <= |kinds|
      && OfKind(r, k) == (if LastOf(b.incoming, k).Some? then LastOf(b.incoming, k)
                          else if k in b.corrections then None else OfKind(current, k))
  {
    var affected := Kinds(b.incoming) + b.corrections;
    var retained, latest := Those(current, affected, false), Latest(b.incoming);
    ThoseKeep(current, affected, false, k);
    LatestKeeps(b.incoming, k);
    OfKindAppend(retained, latest, k);
    forall i, j | 0 <= i < |retained| && 0 <= j < |latest| ensures retained[i].kind != latest[j].kind {
      ThoseMembers(current, affected, false, retained[i]);
      assert retained[i] in retained && latest[j] in latest;
      assert latest[j].kind in Kinds(b.incoming);
    }
    assert OnePerKind(retained + latest);
    Pigeonhole(retained + latest, kinds);
  }

  /** Over any stream of evidence from nothing: each kind has at most one current observation, the one its
      last writer left, and the bound on observations is never reached. */
  lemma {:induction false} LastWriterWins<K(!new)>(stream: seq<Batch<K>>, kinds: set<K>, k: K)
    requires |kinds| <= KEPT && forall x: Observation<K> :: x.kind in kinds
    ensures OnePerKind(CurrentAfter(stream)) && |CurrentAfter(stream)| <= |kinds|
    ensures OfKind(CurrentAfter(stream), k) == Cell(stream, k)
  {
    if stream != [] {
      LastWriterWins(stream[..|stream| - 1], kinds, k);
      ReconciledExactly(CurrentAfter(stream[..|stream| - 1]), stream[|stream| - 1], kinds, k);
    }
  }

  function FactKinds(): set<FactKind> {
    {Industry, BusinessType, Branches, Employees, CurrentWorkflow, ManualStep, Software, Integration, Reporting,
     Communication, Website, Crm}
  }

  function ProblemKinds(): set<ProblemKind> {
    {Operational, Technical, Marketing, Sales, Financial, CustomerExperience, TimeProblem, Quality, Errors, FollowUps}
  }

  lemma EveryFactKind(k: FactKind)
    ensures k in FactKinds()
  {
    match k
    case Industry => case BusinessType => case Branches => case Employees => case CurrentWorkflow => case ManualStep =>
    case Software => case Integration => case Reporting => case Communication => case Website => case Crm =>
  }

  lemma EveryProblemKind(k: ProblemKind)
    ensures k in ProblemKinds()
  {
    match k
    case Operational => case Technical => case Marketing => case Sales => case Financial => case CustomerExperience =>
    case TimeProblem => case Quality => case Errors => case FollowUps =>
  }

  lemma EveryKind()
    ensures |FactKinds()| <= 12 && |ProblemKinds()| <= 10
    ensures forall x: Observation<FactKind> :: x.kind in FactKinds()
    ensures forall x: Observation<ProblemKind> :: x.kind in ProblemKinds()
  {
    forall x: Observation<FactKind> ensures x.kind in FactKinds() { EveryFactKind(x.kind); }
    forall x: Observation<ProblemKind> ensures x.kind in ProblemKinds() { EveryProblemKind(x.kind); }
  }

  function FactStream(evidence: seq<Evidence>): seq<Batch<FactKind>> {
    seq(|evidence|, i requires 0 <= i < |evidence| => Batch(evidence[i].facts, evidence[i].factCorrections))
  }

  function ProblemStream(evidence: seq<Evidence>): seq<Batch<ProblemKind>> {
    seq(|evidence|, i requires 0 <= i < |evidence| => Batch(evidence[i].problems, evidence[i].problemCorrections))
  }

  /** The snapshot after a stream of evidence; None once an update has raised. */
  function After(evidence: seq<Evidence>): Option<Snapshot> {
    if evidence == [] then Some(EMPTY)
    else
      match After(evidence[..|evidence| - 1])
      case None => None
      case Some(s) => Update(s, evidence[|evidence| - 1])
  }

  lemma StreamsUnfold(evidence: seq<Evidence>)
    requires evidence != []
    ensures var n := |evidence| - 1;
      && CurrentAfter(FactStream(evidence)) ==
           Reconciled(CurrentAfter(FactStream(evidence[..n])), evidence[n].facts, evidence[n].factCorrections)
      && CurrentAfter(ProblemStream(evidence)) ==
           Reconciled(CurrentAfter(ProblemStream(evidence[..n])), evidence[n].problems, evidence[n].problemCorrections)
      && ArchivedAfter(FactStream(evidence)) ==
           Archived(CurrentAfter(FactStream(evidence[..n])), ArchivedAfter(FactStream(evidence[..n])), evidence[n].facts,
                    evidence[n].factCorrections)
      && ArchivedAfter(ProblemStream(evidence)) ==
           Archived(CurrentAfter(ProblemStream(evidence[..n])), ArchivedAfter(ProblemStream(evidence[..n])), evidence[n].problems,
                    evidence[n].problemCorrections)
  {
    var n := |evidence| - 1;
    assert FactStream(evidence)[..n] == FactStream(evidence[..n]);
    assert ProblemStream(evidence)[..n] == ProblemStream(evidence[..n]);
  }

  lemma UpdateReconciles(s: Snapshot, e: Evidence)
    requires Update(s, e).Some?
    ensures var s' := Update(s, e).value;
      && s'.facts == Reconciled(s.facts, e.facts, e.factCorrections)
      && s'.problems == Reconciled(s.problems, e.problems, e.problemCorrections)
      && s'.archivedFacts == Archived(s.facts, s.archivedFacts, e.facts, e.factCorrections)
      && s'.archivedProblems == Archived(s.problems, s.archivedProblems, e.problems, e.problemCorrections)
      && s'.unknownAreas !! KnownUnknowns(s'.facts)
  {
  }

  lemma {:induction false} AfterFollowsStreams(evidence: seq<Evidence>)
    requires After(evidence).Some?
    ensures After(evidence).value.facts == CurrentAfter(FactStream(evidence))
    ensures After(evidence).value.problems == CurrentAfter(ProblemStream(evidence))
    ensures After(evidence).value.archivedFacts == ArchivedAfter(FactStream(evidence))
    ensures After(evidence).value.archivedProblems == ArchivedAfter(ProblemStream(evidence))
    ensures After(evidence).value.unknownAreas !! KnownUnknowns(After(evidence).value.facts)
  {
    if evidence != [] {
      var front, last := evidence[..|evidence| - 1], evidence[|evidence| - 1];
      AfterFollowsStreams(front);
      StreamsUnfold(evidence);
      UpdateReconciles(After(front).value, last);
    }
  }

  /** The understanding after any stream of evidence that raises nothing: facts and problems are the
      last-writer-wins maps of their streams, far below their bounds, and no area is called unknown that a
      current fact answers. */
  lemma UnderstandingIsLastWriterWins(evidence: seq<Evidence>, f: FactKind, p: ProblemKind)
    requires After(evidence).Some?
    ensures var s := After(evidence).value;
      && OnePerKind(s.facts) && |s.facts| <= 12 && OfKind(s.facts, f) == Cell(FactStream(evidence), f)
      && OnePerKind(s.problems) && |s.problems| <= 10 && OfKind(s.problems, p) == Cell(ProblemStream(evidence), p)
      && s.unknownAreas !! KnownUnknowns(s.facts)
  {
    AfterFollowsStreams(evidence);
    EveryKind();
    LastWriterWins(FactStream(evidence), FactKinds(), f);
    LastWriterWins(ProblemStream(evidence), ProblemKinds(), p);
  }

  // ----- When an update raises -----

  ghost predicate WellFormedFacts(facts: Facts) { forall x :: x in facts ==> Bounded(x.text, 160) }

  ghost predicate WellFormedProblems(problems: Problems) { forall x :: x in problems ==> Bounded(x.text, 200) }

  /** A hypothesis is suggested, and one of the first six problems is longer than its support may be. */
  predicate TooLong(facts: Facts, problems: Problems) {
    && Candidates(Kinds(facts), Kinds(problems)) != []
    && exists i | 0 <= i < |problems| :: i < 6 && |problems[i].text| > 160
  }

  lemma ReconciledMembers<K(!new)>(current: seq<Observation<K>>, incoming: seq<Observation<K>>, corrections: set<K>, x: Observation<K>)
    requires x in Reconciled(current, incoming, corrections)
    ensures x in current || x in incoming
  {
    ThoseMembers(current, Kinds(incoming) + corrections, false, x);
    LatestKeeps(incoming, x.kind);
  }

  lemma {:induction false} PutCounts<K(!new)>(latest: seq<Observation<K>>, x: Observation<K>)
    ensures |Put(latest, x)| == |latest| + if x.kind in Kinds(latest) then 0 else 1
  {
    if latest != [] {
      assert latest == [latest[0]] + latest[1..];
      PutCounts(latest[1..], x);
    }
  }

  /** One observation of each kind that came in. */
  lemma {:induction false} LatestCounts<K(!new)>(incoming: seq<Observation<K>>)
    ensures Kinds(Latest(incoming)) == Kinds(incoming) && |Latest(incoming)| == |Kinds(incoming)|
  {
    if incoming != [] {
      var front, last := incoming[..|incoming| - 1], incoming[|incoming| - 1];
      LatestCounts(front);
      CountsStep(Latest(front), front, last);
      assert incoming == front + [last];
    }
  }

  lemma CountsStep<K(!new)>(latest: seq<Observation<K>>, front: seq<Observation<K>>, last: Observation<K>)
    requires Kinds(latest) == Kinds(front) && |latest| == |Kinds(front)|
    ensures Kinds(Put(latest, last)) == Kinds(front + [last]) && |Put(latest, last)| == |Kinds(front + [last])|
  {
    PutCounts(latest, last);
    PutKinds(latest, last);
    KindsAppend(front, last);
    CountOneMore(Kinds(front), last.kind);
    assert last.kind in Kinds(front) || last.kind !in Kinds(latest);
  }

  lemma KindsAppend<K(!new)>(front: seq<Observation<K>>, last: Observation<K>)
    ensures Kinds(front + [last]) == Kinds(front) + {last.kind}
  {
    forall k | k in Kinds(front) ensures k in Kinds(front + [last]) {
      var x :| x in front && x.kind == k;
      assert x in front + [last];
    }
    assert last in front + [last];
  }

  lemma CountOneMore<T>(s: set<T>, x: T)
    ensures |s + {x}| == |s| + if x in s then 0 else 1
  {
    if x in s { assert s + {x} == s; }
  }

  lemma {:induction false} PutKinds<K(!new)>(latest: seq<Observation<K>>, x: Observation<K>)
    ensures Kinds(Put(latest, x)) == Kinds(latest) + {x.kind}
  {
    if latest != [] {
      var rest := latest[1..];
      assert latest == [latest[0]] + rest;
      assert Kinds(latest) == {latest[0].kind} + Kinds(rest);
      if latest[0].kind == x.kind {
        assert Kinds([x] + rest) == {x.kind} + Kinds(rest);
      } else {
        PutKinds(rest, x);
        assert Kinds([latest[0]] + Put(rest, x)) == {latest[0].kind} + Kinds(Put(rest, x));
      }
    }
  }

  /** The problems that stay and the kinds that come in are together more than a snapshot holds. */
  predicate TooMany(current: Problems, incoming: Problems, corrections: set<ProblemKind>) {
    |Those(current, Kinds(incoming) + corrections, false)| + |Kinds(incoming)| > 16
  }

  /** An update raises exactly when it would leave more than 16 problems, which reconciliation allows, or
      when a problem detail of 161 to 200 characters, which an observation allows, is among the first six
      while some hypothesis is suggested. */
  lemma UpdateRaisesExactly(prior: Snapshot, e: Evidence)
    requires WellFormedFacts(prior.facts) && WellFormedFacts(e.facts)
    requires WellFormedProblems(prior.problems) && WellFormedProblems(e.problems)
    ensures Update(prior, e).None? <==>
      || TooMany(prior.problems, e.problems, e.problemCorrections)
      || TooLong(Reconciled(prior.facts, e.facts, e.factCorrections), Reconciled(prior.problems, e.problems, e.problemCorrections))
  {
    var facts := Reconciled(prior.facts, e.facts, e.factCorrections);
    var problems := Reconciled(prior.problems, e.problems, e.problemCorrections);
    forall x | x in facts ensures Bounded(x.text, 160) {
      ReconciledMembers(prior.facts, e.facts, e.factCorrections, x);
    }
    forall x | x in problems ensures Bounded(x.text, 200) {
      ReconciledMembers(prior.problems, e.problems, e.problemCorrections, x);
    }
    RaisesExactly(facts, problems);
    LatestCounts(e.problems);
  }

  lemma {:induction false} AfterWellFormed(evidence: seq<Evidence>)
    requires forall i :: 0 <= i < |evidence| ==> WellFormedFacts(evidence[i].facts) && WellFormedProblems(evidence[i].problems)
    requires After(evidence).Some?
    ensures WellFormedFacts(After(evidence).value.facts) && WellFormedProblems(After(evidence).value.problems)
  {
    if evidence != [] {
      var front, last := evidence[..|evidence| - 1], evidence[|evidence| - 1];
      AfterWellFormed(front);
      var s, s' := After(front).value, After(evidence).value;
      forall x | x in s'.facts ensures Bounded(x.text, 160) {
        ReconciledMembers(s.facts, last.facts, last.factCorrections, x);
      }
      forall x | x in s'.problems ensures Bounded(x.text, 200) {
        ReconciledMembers(s.problems, last.problems, last.problemCorrections, x);
      }
    }
  }

  /** A call that begins with nothing never has too many problems: only the long details are left. */
  lemma StreamRaisesExactly(evidence: seq<Evidence>, e: Evidence)
    requires forall i :: 0 <= i < |evidence| ==> WellFormedFacts(evidence[i].facts) && WellFormedProblems(evidence[i].problems)
    requires WellFormedFacts(e.facts) && WellFormedProblems(e.problems) && After(evidence).Some?
    ensures var s := After(evidence).value;
      After(evidence + [e]).None? <==>
        TooLong(Reconciled(s.facts, e.facts, e.factCorrections), Reconciled(s.problems, e.problems, e.problemCorrections))
  {
    var s := After(evidence).value;
    OneMoreUpdate(evidence, e);
    AfterWellFormed(evidence);
    UpdateRaisesExactly(s, e);
    StreamNeverTooMany(evidence, e);
  }

  lemma OneMoreUpdate(evidence: seq<Evidence>, e: Evidence)
    requires After(evidence).Some?
    ensures After(evidence + [e]) == Update(After(evidence).value, e)
  {
    assert (evidence + [e])[..|evidence|] == evidence;
  }

  lemma StreamNeverTooMany(evidence: seq<Evidence>, e: Evidence)
    requires After(evidence).Some?
    ensures !TooMany(After(evidence).value.problems, e.problems, e.problemCorrections)
  {
    var problems := After(evidence).value.problems;
    UnderstandingIsLastWriterWins(evidence, Industry, Operational);
    EveryKind();
    ReconciledExactly(problems, Batch(e.problems, e.problemCorrections), ProblemKinds(), Operational);
    LatestCounts(e.problems);
  }

  const CROWD: Problems := seq(16, i => Observation(Technical, "slow", "t1", false))

  /** It happens to a snapshot that was not built up from nothing: 16 problems of one kind fit, and any
      problem of another kind makes the update raise. */
  lemma UpdateCanOverflow(prior: Snapshot, x: Observation<ProblemKind>)
    requires prior.problems == CROWD && x.kind != Technical
    ensures Fits([], CROWD, [])
    ensures Update(prior, NO_EVIDENCE.(problems := [x])).None?
  {
    CrowdGrows(x);
  }

  lemma CrowdGrows(x: Observation<ProblemKind>)
    requires x.kind != Technical
    ensures |Reconciled(CROWD, [x], {})| == 17
  {
    KeepsAll(CROWD, {x.kind});
    assert Kinds([x]) + {} == {x.kind};
    LatestCounts([x]);
  }

  lemma {:induction false} KeepsAll<K(!new)>(items: seq<Observation<K>>, kinds: set<K>)
    requires forall x :: x in items ==> x.kind !in kinds
    ensures Those(items, kinds, false) == items
  {
    if items != [] {
      assert items == [items[0]] + items[1..];
      KeepsAll(items[1..], kinds);
    }
  }

  lemma SupportAt(facts: Facts, problems: Problems, i: nat)
    requires i < |FirstSix(Support(facts, problems))| && WellFormedFacts(facts) && WellFormedProblems(problems)
    ensures var text := FirstSix(Support(facts, problems))[i];
      !Blank(text) && (|text| > 160 <==> i < |problems| && |problems[i].text| > 160)
  {
    if i < |problems| {
      assert problems[i] in problems;
    } else {
      assert facts[i - |problems|] in facts;
    }
  }

  lemma RaisesExactly(facts: Facts, problems: Problems)
    requires WellFormedFacts(facts) && WellFormedProblems(problems)
    ensures Hypotheses(facts, problems).None? <==> TooLong(facts, problems)
  {
    var support := FirstSix(Support(facts, problems));
    forall i | 0 <= i < |support|
      ensures !Blank(support[i]) && (|support[i]| > 160 <==> i < |problems| && |problems[i].text| > 160)
    {
      SupportAt(facts, problems, i);
    }
    if TooLong(facts, problems) {
      var i :| 0 <= i < |problems| && i < 6 && |problems[i].text| > 160;
      assert |support| > i && |support[i]| > 160;
    }
  }

  const LONG_DETAIL: string := seq(161, i => 'x')

  const COMPLAINT := NO_EVIDENCE.(problems := [Observation(Technical, LONG_DETAIL, "t1", true)])

  const ROUTINE := NO_EVIDENCE.(facts := [Observation(ManualStep, "typing", "t2", true)])

  lemma SingleObservation<K(!new)>(x: Observation<K>)
    ensures Reconciled([], [x], {}) == [x] && Reconciled([x], [], {}) == [x]
  {
    assert [x][..0] == [] && [x][1..] == [];
    assert Latest([x]) == [x];
    assert Kinds<K>([]) == {};
    assert Those([x], {}, false) == [x] + Those([x][1..], {}, false) == [x];
    assert Kinds<K>([]) + {} == {} && [x] + Latest<K>([]) == [x];
  }

  lemma ComplaintAccepted()
    ensures WellFormedProblems(COMPLAINT.problems)
    ensures After([COMPLAINT]).Some? && After([COMPLAINT]).value.facts == [] && After([COMPLAINT]).value.problems == COMPLAINT.problems
  {
    var x := COMPLAINT.problems[0];
    assert !Blank(LONG_DETAIL) by { assert !IsSpace(LONG_DETAIL[0]); }
    SingleObservation(x);
    assert Kinds<FactKind>([]) == {} && Kinds([x]) == {Technical};
    assert Candidates({}, {Technical}) == [];
    assert [COMPLAINT][..0] == [];
  }

  lemma RoutineRaises(s: Snapshot)
    requires s.facts == [] && s.problems == COMPLAINT.problems && WellFormedProblems(COMPLAINT.problems)
    ensures WellFormedFacts(ROUTINE.facts) && Update(s, ROUTINE).None?
  {
    var x := ROUTINE.facts[0];
    assert !Blank("typing") by { assert !IsSpace("typing"[0]); }
    SingleObservation(x);
    SingleObservation(COMPLAINT.problems[0]);
    ManualWorkSuggests([x], s.problems);
    assert TooLong([x], s.problems) by { assert |s.problems[0].text| > 160; }
    UpdateRaisesExactly(s, ROUTINE);
  }

  lemma ManualWorkSuggests(facts: Facts, problems: Problems)
    requires exists x :: x in facts && x.kind == ManualStep
    ensures Candidates(Kinds(facts), Kinds(problems)) != []
  {
    var x :| x in facts && x.kind == ManualStep;
    assert ManualStep in Kinds(facts);
    assert Candidates(Kinds(facts), Kinds(problems))[0] == (ManualDependency, 0.75);
  }

  /** It happens: a complaint of 161 characters is accepted, and the next observation of any work done by
      hand makes the update raise. */
  lemma UpdateCanRaiseLater()
    ensures WellFormedProblems(COMPLAINT.problems) && WellFormedFacts(ROUTINE.facts)
    ensures After([COMPLAINT]).Some? && After([COMPLAINT, ROUTINE]).None?
  {
    ComplaintAccepted();
    RoutineRaises(After([COMPLAINT]).value);
    assert [COMPLAINT, ROUTINE][..1] == [COMPLAINT];
  }

  // ----- What an update leaves -----

  /** A fact of this kind answers the question of this area. */
  predicate Answers(kind: FactKind, area: UnknownArea) {
    || (kind == Crm && area == CrmArea) || (kind == Software && area == CurrentSoftware)
    || (kind == Reporting && area == ReportingProcess) || (kind == Integration && area == Integrations)
  }

  /** Goals and constraints pile up, an area stays unknown until a current fact answers it, and the topics are
      the latest that were named. */
  lemma UpdateTells(prior: Snapshot, e: Evidence)
    requires Update(prior, e).Some?
    ensures var s := Update(prior, e).value;
      && s.goals == prior.goals + e.goals && s.constraints == prior.constraints + e.constraints
      && (forall area :: area in s.unknownAreas <==>
            && (area in prior.unknownAreas || area in e.unknownAreas)
            && !exists x :: x in s.facts && Answers(x.kind, area))
      && s.currentFocus == (if e.currentFocus.Some? then e.currentFocus else prior.currentFocus)
      && s.pendingTopic == (if e.pendingTopic.Some? then e.pendingTopic else prior.pendingTopic)
      && Some(s.hypotheses) == Hypotheses(s.facts, s.problems)
  {
    UnknownsExactly(prior.unknownAreas + e.unknownAreas, Update(prior, e).value.facts);
  }

  lemma UnknownsExactly(asked: set<UnknownArea>, facts: Facts)
    ensures forall area :: area in asked - KnownUnknowns(facts) <==> area in asked && !exists x :: x in facts && Answers(x.kind, area)
  {
    forall area ensures area in KnownUnknowns(facts) <==> exists x :: x in facts && Answers(x.kind, area) {
      if x :| x in facts && Answers(x.kind, area) {
        assert area in AnsweredBy(x.kind);
      }
    }
  }

  predicate HasFact(facts: Facts, kind: FactKind) { exists i | 0 <= i < |facts| :: facts[i].kind == kind }

  predicate HasProblem(problems: Problems, kind: ProblemKind) { exists i | 0 <= i < |problems| :: problems[i].kind == kind }

  /** What speaks for a root cause. */
  predicate SpeaksFor(cause: RootCause, facts: Facts, problems: Problems) {
    match cause
    case ManualDependency => HasFact(facts, ManualStep) || HasFact(facts, CurrentWorkflow)
    case ProcessGap => HasProblem(problems, Errors) || HasProblem(problems, FollowUps)
    case NoCentralSystem => HasFact(facts, Branches) && HasFact(facts, CurrentWorkflow)
    case ReportingGap => !HasFact(facts, Reporting) && HasProblem(problems, Operational)
  }

  function ConfidenceIn(cause: RootCause): real {
    match cause
    case ManualDependency => 0.75
    case ProcessGap => 0.65
    case NoCentralSystem => 0.55
    case ReportingGap => 0.4
  }

  lemma KindsHold(facts: Facts, problems: Problems)
    ensures forall kind :: kind in Kinds(facts) <==> HasFact(facts, kind)
    ensures forall kind :: kind in Kinds(problems) <==> HasProblem(problems, kind)
  {
    forall kind | HasFact(facts, kind) ensures kind in Kinds(facts) {
      var i :| 0 <= i < |facts| && facts[i].kind == kind;
      assert facts[i] in facts;
    }
    forall kind | HasProblem(problems, kind) ensures kind in Kinds(problems) {
      var i :| 0 <= i < |problems| && problems[i].kind == kind;
      assert problems[i] in problems;
    }
  }

  /** Candidates from the most to the least likely, with their own confidence, none less likely than `least`. */
  ghost predicate Descending(all: seq<(RootCause, real)>, least: real) {
    && (forall i :: 0 <= i < |all| ==> all[i].1 == ConfidenceIn(all[i].0) >= least)
    && (forall i, j :: 0 <= i < j < |all| ==> all[i].1 > all[j].1)
  }

  lemma OneMoreCause(all: seq<(RootCause, real)>, least: real, holds: bool, cause: RootCause)
    requires Descending(all, least) && ConfidenceIn(cause) < least
    ensures var more := all + When(holds, (cause, ConfidenceIn(cause)));
      && Descending(more, ConfidenceIn(cause))
      && ((cause, ConfidenceIn(cause)) in more <==> holds)
      && forall x: (RootCause, real) :: x.0 != cause ==> (x in more <==> x in all)
  {
    forall i | 0 <= i < |all| ensures all[i].0 != cause {
      assert ConfidenceIn(all[i].0) != ConfidenceIn(cause);
    }
  }

  predicate Suggested(cause: RootCause, facts: set<FactKind>, problems: set<ProblemKind>) {
    match cause
    case ManualDependency => ManualStep in facts || CurrentWorkflow in facts
    case ProcessGap => Errors in problems || FollowUps in problems
    case NoCentralSystem => Branches in facts && CurrentWorkflow in facts
    case ReportingGap => Reporting !in facts && Operational in problems
  }

  lemma CandidatesOf(facts: set<FactKind>, problems: set<ProblemKind>)
    ensures Descending(Candidates(facts, problems), 0.4)
    ensures forall cause :: (cause, ConfidenceIn(cause)) in Candidates(facts, problems) <==> Suggested(cause, facts, problems)
  {
    var one := When(SuggestsManual(facts), (ManualDependency, 0.75));
    var two := one + When(SuggestsGap(problems), (ProcessGap, 0.65));
    var three := two + When(SuggestsNoCentral(facts), (NoCentralSystem, 0.55));
    OneMoreCause([], 1.0, SuggestsManual(facts), ManualDependency);
    assert [] + one == one;
    OneMoreCause(one, 0.75, SuggestsGap(problems), ProcessGap);
    OneMoreCause(two, 0.65, SuggestsNoCentral(facts), NoCentralSystem);
    OneMoreCause(three, 0.55, SuggestsReporting(facts, problems), ReportingGap);
    assert Candidates(facts, problems) == three + When(SuggestsReporting(facts, problems), (ReportingGap, 0.4));
    forall cause ensures (cause, ConfidenceIn(cause)) in Candidates(facts, problems) <==> Suggested(cause, facts, problems) {
      match cause
      case ManualDependency =>
      case ProcessGap =>
      case NoCentralSystem =>
      case ReportingGap =>
    }
  }

  lemma CandidatesHold(facts: Facts, problems: Problems, cause: RootCause)
    ensures var candidates := Candidates(Kinds(facts), Kinds(problems));
      && ((cause, ConfidenceIn(cause)) in candidates <==> SpeaksFor(cause, facts, problems))
      && Descending(candidates, 0.4)
  {
    KindsHold(facts, problems);
    CandidatesOf(Kinds(facts), Kinds(problems));
  }

  /** The hypotheses are the root causes that something speaks for, the most likely first, each once and each
      supported by the first six observations, problems before facts. */
  lemma HypothesesExactly(facts: Facts, problems: Problems, cause: RootCause)
    requires Hypotheses(facts, problems).Some?
    ensures var (hs, support) := (Hypotheses(facts, problems).value, FirstSix(Observed(problems) + Observed(facts)));
      && (Hypothesis(cause, ConfidenceIn(cause), support) in hs <==> support != [] && SpeaksFor(cause, facts, problems))
      && (forall h :: h in hs ==> h.confidence == ConfidenceIn(h.cause) && h.support == support)
      && (forall i, j :: 0 <= i < j < |hs| ==> hs[i].confidence > hs[j].confidence)
  {
    CandidatesHold(facts, problems, cause);
    assert Support(facts, problems) == Observed(problems) + Observed(facts);
    HypothesesOf(FirstSix(Support(facts, problems)), Candidates(Kinds(facts), Kinds(problems)), cause);
  }

  /** One hypothesis for each candidate, in their order. */
  lemma HypothesesOf(support: seq<string>, candidates: seq<(RootCause, real)>, cause: RootCause)
    requires Descending(candidates, 0.4)
    ensures var hs := seq(|candidates|, i requires 0 <= i < |candidates| => Hypothesis(candidates[i].0, candidates[i].1, support));
      && (Hypothesis(cause, ConfidenceIn(cause), support) in hs <==> (cause, ConfidenceIn(cause)) in candidates)
      && (forall h :: h in hs ==> h.confidence == ConfidenceIn(h.cause) && h.support == support)
      && (forall i, j :: 0 <= i < j < |hs| ==> hs[i].confidence > hs[j].confidence)
  {
    var hs := seq(|candidates|, i requires 0 <= i < |candidates| => Hypothesis(candidates[i].0, candidates[i].1, support));
    if (cause, ConfidenceIn(cause)) in candidates {
      var i :| 0 <= i < |candidates| && candidates[i] == (cause, ConfidenceIn(cause));
      assert hs[i] == Hypothesis(cause, ConfidenceIn(cause), support);
    }
  }

  function Observed<K>(items: seq<Observation<K>>): seq<string> {
    seq(|items|, i requires 0 <= i < |items| => items[i].text)
  }

  // ----- The archive -----

  /** Everything a stream has removed from the current observations, in the order of its removal. */
  function Removed<K(==)>(stream: seq<Batch<K>>): seq<Observation<K>> {
    if stream == [] then []
    else
      var front, b := stream[..|stream| - 1], stream[|stream| - 1];
      Removed(front) + Those(CurrentAfter(front), Kinds(b.incoming) + b.corrections, true)
  }

  function ArchivedAfter<K(==)>(stream: seq<Batch<K>>): seq<Observation<K>> {
    if stream == [] then []
    else
      var front, b := stream[..|stream| - 1], stream[|stream| - 1];
      Archived(CurrentAfter(front), ArchivedAfter(front), b.incoming, b.corrections)
  }

  lemma LastOfLast<T>(a: seq<T>, b: seq<T>, n: nat)
    ensures Last(Last(a, n) + b, n) == Last(a + b, n)
  {
  }

  /** The archive is the latest part of everything removed: bounding it at every step loses no more than
      bounding it once. */
  lemma {:induction false} ArchiveIsLatestRemoved<K>(stream: seq<Batch<K>>)
    ensures ArchivedAfter(stream) == Last(Removed(stream), KEPT)
  {
    if stream != [] {
      var front, b := stream[..|stream| - 1], stream[|stream| - 1];
      ArchiveIsLatestRemoved(front);
      LastOfLast(Removed(front), Those(CurrentAfter(front), Kinds(b.incoming) + b.corrections, true), KEPT);
    }
  }
}
