/** Snapshot export, the compatibility manifest and the diagnosis made on recovery
    (production_turn_processor.py, manifest.py, snapshot.py and recovery.py). */
module Recovery {
  import opened Wrappers
  import opened SessionStore

  const BUSINESS_CONVERSATION := "bci"
  const LANGUAGE_PROFILE := "language_profile"
  const QUALIFICATION := "qualification"
  const PROSPECT_INTELLIGENCE := "prospect_intelligence"
  const PARTICIPANT_STATE := "participant_state"
  const PARTICIPANT_PROSPECT_ARCHIVE := "participant_prospect_archive"
  const BUDGET_STATE := "budget_state"
  const DISCUSSION_COVERAGE := "discussion_coverage"
  const SNAPSHOT_VERSION := 1

  datatype Manifest = Manifest(
    supported: seq<(string, int)>,
    required: set<string>,
    optional: set<string>)
  {
    predicate Supports(key: string, version: Option<int>) {
      version.Some? && (key, version.value) in supported
    }

    predicate Knows(key: string) { key in required || key in optional }
  }

  function DefaultManifest(): Manifest {
    Manifest(
      [(BUSINESS_CONVERSATION, 1), (QUALIFICATION, 1), (LANGUAGE_PROFILE, 1), (PROSPECT_INTELLIGENCE, 1),
       (PARTICIPANT_STATE, 1), (DISCUSSION_COVERAGE, 1), (PARTICIPANT_PROSPECT_ARCHIVE, 1), (BUDGET_STATE, 1)],
      {BUSINESS_CONVERSATION},
      {LANGUAGE_PROFILE, QUALIFICATION, PROSPECT_INTELLIGENCE, PARTICIPANT_STATE, DISCUSSION_COVERAGE,
       PARTICIPANT_PROSPECT_ARCHIVE, BUDGET_STATE, "steering", "unfinished_intent", "repetition_state",
       "evidence_saturation"})
  }

  // ----- Export -----

  /** What of a live processor the export reads: the serialized text of each part, where there is one. */
  datatype Exportable = Exportable(
    conversationState: string,
    businessConversation: string,
    languageProfile: Option<string>,
    qualification: Option<string>,
    prospectIntelligence: string,
    participants: Option<string>,
    prospectArchive: Option<string>,
    reasoningCalls: nat,
    coverage: Option<string>)

  function Present(key: string, text: string): seq<(string, Envelope)> {
    [(key, Versioned(Some(1), OtherBody(text)))]
  }

  function WhenPresent(key: string, text: Option<string>): seq<(string, Envelope)> {
    if text.None? then [] else Present(key, text.value)
  }

  function BudgetPayload(calls: nat): seq<(string, Envelope)> {
    if calls == 0 then [] else [(BUDGET_STATE, Versioned(Some(1), ReasoningCalls(calls)))]
  }

  function Payloads(p: Exportable): seq<(string, Envelope)> {
    Present(BUSINESS_CONVERSATION, p.businessConversation)
    + WhenPresent(LANGUAGE_PROFILE, p.languageProfile)
    + WhenPresent(QUALIFICATION, p.qualification)
    + Present(PROSPECT_INTELLIGENCE, p.prospectIntelligence)
    + WhenPresent(PARTICIPANT_STATE, p.participants)
    + WhenPresent(PARTICIPANT_PROSPECT_ARCHIVE, p.prospectArchive)
    + BudgetPayload(p.reasoningCalls)
    + WhenPresent(DISCUSSION_COVERAGE, p.coverage)
  }

  function Export(p: Exportable, revision: nat): Snapshot {
    Snapshot(SNAPSHOT_VERSION, revision, p.conversationState, Payloads(p))
  }

  /** The duplicate-key check of the snapshot constructor. */
  ghost predicate DistinctKeys(payloads: seq<(string, Envelope)>) {
    forall i, j :: 0 <= i < j < |payloads| ==> payloads[i].0 != payloads[j].0
  }

  /** The first payload stored under `key`. */
  function PayloadOf(payloads: seq<(string, Envelope)>, key: string): Option<Envelope> {
    if payloads == [] then None
    else if payloads[0].0 == key then Some(payloads[0].1)
    else PayloadOf(payloads[1..], key)
  }

  /** The counter a restored processor starts from: a missing payload means no calls yet. */
  function RestoredCalls(s: Snapshot): nat {
    match PayloadOf(s.payloads, BUDGET_STATE)
    case Some(Versioned(_, ReasoningCalls(n))) => n
    case _ => 0
  }

  // ----- Diagnosis -----

  datatype RecoveryStatus =
    | RecoveredFresh
    | RecoveredActive
    | RecoveredTerminal
    | SessionNotFound
    | PolicyVersionMissing
    | OrphanedQueueState
    | RuntimeSnapshotMissing
    | RuntimeSnapshotInvalid
    | RequiredPayloadMissing
    | UnsupportedPayloadVersion(key: string)
    | EnvelopeEscapes    // an envelope that is JSON but no object: the lookup raises out of `recover`

  datatype SnapshotTable = NotConfigured | Configured(row: Option<StoredSnapshot>)

  predicate Orphaned(session: Session, queue: Option<QueueEntry>) {
    queue.Some? && session.status == Active && queue.value.status != InProgress && !queue.value.isDnc
  }

  function Keys(payloads: seq<(string, Envelope)>): set<string> {
    set i | 0 <= i < |payloads| :: payloads[i].0
  }

  function ScanPayloads(m: Manifest, payloads: seq<(string, Envelope)>): (r: RecoveryStatus)
    ensures r in {RecoveredActive, RuntimeSnapshotInvalid, EnvelopeEscapes} || r.UnsupportedPayloadVersion?
  {
    if payloads == [] then RecoveredActive
    else if !m.Knows(payloads[0].0) then ScanPayloads(m, payloads[1..])
    else
      match payloads[0].1
      case Malformed => RuntimeSnapshotInvalid
      case NotAnObject => EnvelopeEscapes
      case Versioned(version, _) =>
        if !m.Supports(payloads[0].0, version) then UnsupportedPayloadVersion(payloads[0].0)
        else ScanPayloads(m, payloads[1..])
  }

  function DiagnoseSnapshot(m: Manifest, table: SnapshotTable): RecoveryStatus {
    match table
    case NotConfigured => RuntimeSnapshotMissing
    case Configured(None) => RuntimeSnapshotMissing
    case Configured(Some(Unreadable)) => RuntimeSnapshotInvalid
    case Configured(Some(Readable(s))) =>
      if m.required - Keys(s.payloads) != {} then RequiredPayloadMissing else ScanPayloads(m, s.payloads)
  }

  /** `policies` are the versions registered for the session's campaign. */
  function Recover(m: Manifest, session: Option<Session>, queue: Option<QueueEntry>, policies: set<string>,
                   table: SnapshotTable): RecoveryStatus
  {
    if session.None? then SessionNotFound
    else
      var s := session.value;
      if s.status != Active then RecoveredTerminal
      else if s.policyVersion.Some? && s.policyVersion.value !in policies then PolicyVersionMissing
      else if Orphaned(s, queue) then OrphanedQueueState
      else if s.turnCount == 0 then RecoveredFresh
      else DiagnoseSnapshot(m, table)
  }

  /** Whether a processor is registered again: nothing is built where there is no policy to build it with. */
  predicate Rebuilds(m: Manifest, session: Option<Session>, queue: Option<QueueEntry>, policies: set<string>,
                     table: SnapshotTable)
  {
    var status := Recover(m, session, queue, policies, table);
    && session.Some? && session.value.policyVersion.Some?
    && (status.RecoveredFresh? || status.RecoveredActive?)
  }

  // ----- What the manifest accepts -----

  ghost predicate Acceptable(m: Manifest, payloads: seq<(string, Envelope)>) {
    forall i :: 0 <= i < |payloads| && m.Knows(payloads[i].0) ==>
      payloads[i].1.Versioned? && m.Supports(payloads[i].0, payloads[i].1.version)
  }

  lemma {:induction false} ScanExactly(m: Manifest, payloads: seq<(string, Envelope)>)
    ensures ScanPayloads(m, payloads).RecoveredActive? <==> Acceptable(m, payloads)
  {
    if payloads != [] {
      ScanExactly(m, payloads[1..]);
      assert forall i :: 1 <= i < |payloads| ==> payloads[i] == payloads[1..][i - 1];
    }
  }

  /** A session is resumed mid-conversation exactly when it is active, past its first turn, its policy
      is retained, its lead is in progress or marked do-not-call, and the stored snapshot holds every
      required payload and no known payload in an unsupported version. */
  lemma RecoveredActiveExactly(m: Manifest, session: Option<Session>, queue: Option<QueueEntry>,
                               policies: set<string>, table: SnapshotTable)
    ensures Recover(m, session, queue, policies, table).RecoveredActive? <==>
      && session.Some? && session.value.status == Active && session.value.turnCount > 0
      && (session.value.policyVersion.None? || session.value.policyVersion.value in policies)
      && (queue.None? || queue.value.status == InProgress || queue.value.isDnc)
      && table.Configured? && table.row.Some? && table.row.value.Readable?
      && m.required <= Keys(table.row.value.snapshot.payloads)
      && Acceptable(m, table.row.value.snapshot.payloads)
  {
    if table.Configured? && table.row.Some? && table.row.value.Readable? {
      var payloads := table.row.value.snapshot.payloads;
      ScanExactly(m, payloads);
      assert forall key :: key in m.required - Keys(payloads) <==> key in m.required && key !in Keys(payloads);
    }
  }

  /** A session is started afresh exactly when it is active before its first turn, with its policy retained
      and its lead in progress or do-not-call; what the snapshot table holds plays no part. */
  lemma RecoveredFreshExactly(m: Manifest, session: Option<Session>, queue: Option<QueueEntry>,
                              policies: set<string>, table: SnapshotTable)
    ensures Recover(m, session, queue, policies, table).RecoveredFresh? <==>
      && session.Some? && session.value.status == Active && session.value.turnCount == 0
      && (session.value.policyVersion.None? || session.value.policyVersion.value in policies)
      && (queue.None? || queue.value.status == InProgress || queue.value.isDnc)
  {
  }

  lemma {:induction false} FindSkips(a: seq<(string, Envelope)>, b: seq<(string, Envelope)>, key: string)
    requires key !in Keys(a)
    ensures PayloadOf(a + b, key) == PayloadOf(b, key)
  {
    if a == [] {
      assert a + b == b;
    } else {
      assert a[0].0 in Keys(a);
      assert (a + b)[1..] == a[1..] + b;
      forall i | 0 <= i < |a[1..]| ensures a[1..][i].0 != key {
        assert a[i + 1].0 in Keys(a);
      }
      FindSkips(a[1..], b, key);
    }
  }

  /** Distinct keys out of `used`, each in version 1. */
  ghost predicate FirstVersions(payloads: seq<(string, Envelope)>, used: set<string>) {
    && DistinctKeys(payloads)
    && forall i :: 0 <= i < |payloads| ==>
         payloads[i].0 in used && payloads[i].1.Versioned? && payloads[i].1.version == Some(1)
  }

  lemma Appended(a: seq<(string, Envelope)>, b: seq<(string, Envelope)>, key: string, used: set<string>)
    requires FirstVersions(a, used) && key !in used
    requires b == [] || (|b| == 1 && b[0].0 == key && b[0].1.Versioned? && b[0].1.version == Some(1))
    ensures FirstVersions(a + b, used + {key})
  {
  }

  function BeforeBudget(p: Exportable): seq<(string, Envelope)> {
    Present(BUSINESS_CONVERSATION, p.businessConversation)
    + WhenPresent(LANGUAGE_PROFILE, p.languageProfile)
    + WhenPresent(QUALIFICATION, p.qualification)
    + Present(PROSPECT_INTELLIGENCE, p.prospectIntelligence)
    + WhenPresent(PARTICIPANT_STATE, p.participants)
    + WhenPresent(PARTICIPANT_PROSPECT_ARCHIVE, p.prospectArchive)
  }

  lemma BeforeBudgetInOrder(p: Exportable)
    ensures FirstVersions(BeforeBudget(p),
                          {BUSINESS_CONVERSATION, LANGUAGE_PROFILE, QUALIFICATION, PROSPECT_INTELLIGENCE,
                           PARTICIPANT_STATE, PARTICIPANT_PROSPECT_ARCHIVE})
  {
    var a := Present(BUSINESS_CONVERSATION, p.businessConversation);
    var used := {BUSINESS_CONVERSATION};
    Appended(a, WhenPresent(LANGUAGE_PROFILE, p.languageProfile), LANGUAGE_PROFILE, used);
    a, used := a + WhenPresent(LANGUAGE_PROFILE, p.languageProfile), used + {LANGUAGE_PROFILE};
    Appended(a, WhenPresent(QUALIFICATION, p.qualification), QUALIFICATION, used);
    a, used := a + WhenPresent(QUALIFICATION, p.qualification), used + {QUALIFICATION};
    Appended(a, Present(PROSPECT_INTELLIGENCE, p.prospectIntelligence), PROSPECT_INTELLIGENCE, used);
    a, used := a + Present(PROSPECT_INTELLIGENCE, p.prospectIntelligence), used + {PROSPECT_INTELLIGENCE};
    Appended(a, WhenPresent(PARTICIPANT_STATE, p.participants), PARTICIPANT_STATE, used);
    a, used := a + WhenPresent(PARTICIPANT_STATE, p.participants), used + {PARTICIPANT_STATE};
    Appended(a, WhenPresent(PARTICIPANT_PROSPECT_ARCHIVE, p.prospectArchive), PARTICIPANT_PROSPECT_ARCHIVE, used);
  }

  function KnownKeys(): set<string> {
    {BUSINESS_CONVERSATION, LANGUAGE_PROFILE, QUALIFICATION, PROSPECT_INTELLIGENCE, PARTICIPANT_STATE,
     PARTICIPANT_PROSPECT_ARCHIVE, BUDGET_STATE, DISCUSSION_COVERAGE}
  }

  lemma PayloadsInOrder(p: Exportable)
    ensures FirstVersions(Payloads(p), KnownKeys())
  {
    BeforeBudgetInOrder(p);
    var a, used := BeforeBudget(p), KnownKeys() - {BUDGET_STATE, DISCUSSION_COVERAGE};
    assert used == {BUSINESS_CONVERSATION, LANGUAGE_PROFILE, QUALIFICATION, PROSPECT_INTELLIGENCE,
                    PARTICIPANT_STATE, PARTICIPANT_PROSPECT_ARCHIVE};
    Appended(a, BudgetPayload(p.reasoningCalls), BUDGET_STATE, used);
    a, used := a + BudgetPayload(p.reasoningCalls), used + {BUDGET_STATE};
    Appended(a, WhenPresent(DISCUSSION_COVERAGE, p.coverage), DISCUSSION_COVERAGE, used);
    assert used + {DISCUSSION_COVERAGE} == KnownKeys();
  }

  lemma FirstVersionsSupported(key: string)
    requires key in KnownKeys()
    ensures DefaultManifest().Supports(key, Some(1))
  {
    var supported := DefaultManifest().supported;
    assert supported[0].0 == BUSINESS_CONVERSATION && supported[1].0 == QUALIFICATION;
    assert supported[2].0 == LANGUAGE_PROFILE && supported[3].0 == PROSPECT_INTELLIGENCE;
    assert supported[4].0 == PARTICIPANT_STATE && supported[5].0 == DISCUSSION_COVERAGE;
    assert supported[6].0 == PARTICIPANT_PROSPECT_ARCHIVE && supported[7].0 == BUDGET_STATE;
  }

  /** Everything a processor can export passes the snapshot constructor and the default manifest. */
  lemma ExportsAreRecoverable(p: Exportable)
    ensures DistinctKeys(Payloads(p))
    ensures DefaultManifest().required <= Keys(Payloads(p))
    ensures Acceptable(DefaultManifest(), Payloads(p))
  {
    PayloadsInOrder(p);
    assert Payloads(p)[0].0 == BUSINESS_CONVERSATION;
    forall i | 0 <= i < |Payloads(p)| ensures DefaultManifest().Supports(Payloads(p)[i].0, Payloads(p)[i].1.version) {
      FirstVersionsSupported(Payloads(p)[i].0);
    }
  }

  /** A restart cannot grant reasoning capacity: the counter read back is the counter exported. */
  lemma BudgetRoundTrip(p: Exportable, revision: nat)
    ensures RestoredCalls(Export(p, revision)) == p.reasoningCalls
  {
    BeforeBudgetInOrder(p);
    var a, c := BeforeBudget(p), WhenPresent(DISCUSSION_COVERAGE, p.coverage);
    assert Payloads(p) == a + (BudgetPayload(p.reasoningCalls) + c);
    FindSkips(a, BudgetPayload(p.reasoningCalls) + c, BUDGET_STATE);
    if p.reasoningCalls == 0 {
      assert BudgetPayload(p.reasoningCalls) + c == c;
      FindSkips(c, [], BUDGET_STATE);
      assert c + [] == c;
    }
  }

  // ----- What an export carries -----

  lemma {:induction false} PayloadOfJoined(a: seq<(string, Envelope)>, b: seq<(string, Envelope)>, key: string)
    ensures PayloadOf(a + b, key) == if PayloadOf(a, key).Some? then PayloadOf(a, key) else PayloadOf(b, key)
  {
    if a == [] {
      assert a + b == b;
    } else {
      assert (a + b)[1..] == a[1..] + b;
      PayloadOfJoined(a[1..], b, key);
    }
  }

  function Or(a: Option<Envelope>, b: Option<Envelope>): Option<Envelope> { if a.Some? then a else b }

  lemma PayloadsByKey(p: Exportable, key: string)
    ensures PayloadOf(Payloads(p), key) ==
      Or(PayloadOf(BeforeBudget(p), key),
         Or(PayloadOf(BudgetPayload(p.reasoningCalls), key), PayloadOf(WhenPresent(DISCUSSION_COVERAGE, p.coverage), key)))
  {
    PayloadOfJoined(BeforeBudget(p), BudgetPayload(p.reasoningCalls), key);
    PayloadOfJoined(BeforeBudget(p) + BudgetPayload(p.reasoningCalls), WhenPresent(DISCUSSION_COVERAGE, p.coverage), key);
  }

  lemma BeforeBudgetByKey(p: Exportable, key: string)
    ensures PayloadOf(BeforeBudget(p), key) ==
      Or(PayloadOf(Present(BUSINESS_CONVERSATION, p.businessConversation), key),
         Or(PayloadOf(WhenPresent(LANGUAGE_PROFILE, p.languageProfile), key),
            Or(PayloadOf(WhenPresent(QUALIFICATION, p.qualification), key),
               Or(PayloadOf(Present(PROSPECT_INTELLIGENCE, p.prospectIntelligence), key),
                  Or(PayloadOf(WhenPresent(PARTICIPANT_STATE, p.participants), key),
                     PayloadOf(WhenPresent(PARTICIPANT_PROSPECT_ARCHIVE, p.prospectArchive), key))))))
  {
    var a := Present(BUSINESS_CONVERSATION, p.businessConversation);
    var b := a + WhenPresent(LANGUAGE_PROFILE, p.languageProfile);
    var c := b + WhenPresent(QUALIFICATION, p.qualification);
    var d := c + Present(PROSPECT_INTELLIGENCE, p.prospectIntelligence);
    var e := d + WhenPresent(PARTICIPANT_STATE, p.participants);
    PayloadOfJoined(a, WhenPresent(LANGUAGE_PROFILE, p.languageProfile), key);
    PayloadOfJoined(b, WhenPresent(QUALIFICATION, p.qualification), key);
    PayloadOfJoined(c, Present(PROSPECT_INTELLIGENCE, p.prospectIntelligence), key);
    PayloadOfJoined(d, WhenPresent(PARTICIPANT_STATE, p.participants), key);
    PayloadOfJoined(e, WhenPresent(PARTICIPANT_PROSPECT_ARCHIVE, p.prospectArchive), key);
  }

  lemma OnlyOwnKey(own: string, text: Option<string>, key: string)
    ensures PayloadOf(WhenPresent(own, text), key) ==
      if key == own && text.Some? then Some(Versioned(Some(1), OtherBody(text.value))) else None
    ensures text.Some? ==> PayloadOf(Present(own, text.value), key) == PayloadOf(WhenPresent(own, text), key)
  {
  }

  /** The part of a processor stored under a key. */
  function PartOf(p: Exportable, key: string): Option<string> {
    if key == BUSINESS_CONVERSATION then Some(p.businessConversation)
    else if key == LANGUAGE_PROFILE then p.languageProfile
    else if key == QUALIFICATION then p.qualification
    else if key == PROSPECT_INTELLIGENCE then Some(p.prospectIntelligence)
    else if key == PARTICIPANT_STATE then p.participants
    else if key == PARTICIPANT_PROSPECT_ARCHIVE then p.prospectArchive
    else if key == DISCUSSION_COVERAGE then p.coverage
    else None
  }

  lemma SinglePayload(own: string, envelope: Envelope, key: string)
    ensures PayloadOf([(own, envelope)], key) == if key == own then Some(envelope) else None
  {
    assert [(own, envelope)][1..] == [];
  }

  lemma OnlyOwnKeys(p: Exportable, key: string)
    ensures PayloadOf(Present(BUSINESS_CONVERSATION, p.businessConversation), key).Some? ==> key == BUSINESS_CONVERSATION
    ensures PayloadOf(Present(PROSPECT_INTELLIGENCE, p.prospectIntelligence), key).Some? ==> key == PROSPECT_INTELLIGENCE
    ensures PayloadOf(BudgetPayload(p.reasoningCalls), key).Some? ==> key == BUDGET_STATE
  {
    SinglePayload(BUSINESS_CONVERSATION, Versioned(Some(1), OtherBody(p.businessConversation)), key);
    SinglePayload(PROSPECT_INTELLIGENCE, Versioned(Some(1), OtherBody(p.prospectIntelligence)), key);
    SinglePayload(BUDGET_STATE, Versioned(Some(1), ReasoningCalls(p.reasoningCalls)), key);
  }

  /** Every part of a processor is found again under its own key, and nothing is found for a part it lacks. */
  lemma ExportRoundTrip(p: Exportable, key: string)
    requires key != BUDGET_STATE
    ensures PayloadOf(Payloads(p), key) ==
      if PartOf(p, key).None? then None else Some(Versioned(Some(1), OtherBody(PartOf(p, key).value)))
  {
    PayloadsByKey(p, key);
    BeforeBudgetByKey(p, key);
    OnlyOwnKeys(p, key);
    OnlyOwnKey(BUSINESS_CONVERSATION, Some(p.businessConversation), key);
    OnlyOwnKey(LANGUAGE_PROFILE, p.languageProfile, key);
    OnlyOwnKey(QUALIFICATION, p.qualification, key);
    OnlyOwnKey(PROSPECT_INTELLIGENCE, Some(p.prospectIntelligence), key);
    OnlyOwnKey(PARTICIPANT_STATE, p.participants, key);
    OnlyOwnKey(PARTICIPANT_PROSPECT_ARCHIVE, p.prospectArchive, key);
    OnlyOwnKey(DISCUSSION_COVERAGE, p.coverage, key);
  }

  /** The first payload, in the order stored, that the manifest knows and cannot accept. */
  ghost predicate FirstRefused(m: Manifest, payloads: seq<(string, Envelope)>, i: nat) {
    && i < |payloads| && m.Knows(payloads[i].0)
    && !(payloads[i].1.Versioned? && m.Supports(payloads[i].0, payloads[i].1.version))
    && Acceptable(m, payloads[..i])
  }

  lemma {:induction false} ScanRefuses(m: Manifest, payloads: seq<(string, Envelope)>, i: nat)
    requires FirstRefused(m, payloads, i)
    ensures ScanPayloads(m, payloads) ==
      match payloads[i].1
      case Malformed => RuntimeSnapshotInvalid
      case NotAnObject => EnvelopeEscapes
      case Versioned(_, _) => UnsupportedPayloadVersion(payloads[i].0)
  {
    if i > 0 {
      assert payloads[..i][0] == payloads[0];
      var rest := payloads[1..][..i - 1];
      forall j | 0 <= j < |rest| ensures rest[j] == payloads[..i][j + 1] {
      }
      ScanRefuses(m, payloads[1..], i - 1);
    }
  }

  /** Every refusal of recovery, by the first thing that is wrong. */
  lemma RefusedExactly(m: Manifest, session: Option<Session>, queue: Option<QueueEntry>, policies: set<string>,
                       table: SnapshotTable)
    ensures var status := Recover(m, session, queue, policies, table);
      && (status == SessionNotFound <==> session.None?)
      && (session.Some? ==>
            var s := session.value;
            var kept := s.policyVersion.None? || s.policyVersion.value in policies;
            var served := queue.None? || queue.value.status == InProgress || queue.value.isDnc;
            && (status == RecoveredTerminal <==> s.status != Active)
            && (status == PolicyVersionMissing <==> s.status == Active && !kept)
            && (status == OrphanedQueueState <==> s.status == Active && kept && !served)
            && (s.status == Active && kept && served && s.turnCount > 0 ==> SnapshotRefused(m, table, status)))
  {
    if table.Configured? && table.row.Some? && table.row.value.Readable? {
      var payloads := table.row.value.snapshot.payloads;
      assert forall key :: key in m.required - Keys(payloads) <==> key in m.required && key !in Keys(payloads);
      forall i: nat | FirstRefused(m, payloads, i)
        ensures ScanPayloads(m, payloads) ==
          match payloads[i].1
          case Malformed => RuntimeSnapshotInvalid
          case NotAnObject => EnvelopeEscapes
          case Versioned(_, _) => UnsupportedPayloadVersion(payloads[i].0)
      {
        ScanRefuses(m, payloads, i);
      }
    }
  }

  /** What is wrong with the stored snapshot of a session past its first turn. */
  ghost predicate SnapshotRefused(m: Manifest, table: SnapshotTable, status: RecoveryStatus) {
    if table.NotConfigured? || table.row.None? then status == RuntimeSnapshotMissing
    else if table.row.value.Unreadable? then status == RuntimeSnapshotInvalid
    else
      var payloads := table.row.value.snapshot.payloads;
      if !(m.required <= Keys(payloads)) then status == RequiredPayloadMissing
      else
        forall i: nat :: FirstRefused(m, payloads, i) ==>
          status == match payloads[i].1
                    case Malformed => RuntimeSnapshotInvalid
                    case NotAnObject => EnvelopeEscapes
                    case Versioned(_, _) => UnsupportedPayloadVersion(payloads[i].0)
  }

  /** What an export says of itself. */
  lemma ExportTells(p: Exportable, revision: nat)
    ensures var s := Export(p, revision);
      s.version == 1 && s.sourceRevision == revision && s.conversationState == p.conversationState
  {
  }

  /** What the manifest requires, knows and supports. */
  lemma ManifestTells(key: string, version: Option<int>)
    ensures var (m, written) := (DefaultManifest(),
        {"bci", "qualification", "language_profile", "prospect_intelligence", "participant_state", "discussion_coverage",
         "participant_prospect_archive", "budget_state"});
      && (key in m.required <==> key == "bci")
      && (m.Supports(key, version) <==> key in written && version == Some(1))
      && (m.Knows(key) <==>
            key in written || key in {"steering", "unfinished_intent", "repetition_state", "evidence_saturation"})
  {
    var supported := DefaultManifest().supported;
    if key in KnownKeys() { FirstVersionsSupported(key); }
    if DefaultManifest().Supports(key, version) {
      var i :| 0 <= i < |supported| && supported[i] == (key, version.value);
    }
  }
}
