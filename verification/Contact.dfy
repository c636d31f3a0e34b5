/** Contact resolution and bounded clarification (app/conversation/contact/resolver.py,
    app/conversation/guardrails/clarification.py). */
module Contact {
  import opened Wrappers
  import opened StateMachine

  datatype Channel = Email | Phone | WhatsApp | Sms | UnknownChannel

  datatype Intent = ProvideContact | ConfirmIt | CorrectContact | DeclineContact | UnclearIntent

  datatype Reference = CurrentCallNumber | BusinessPhone | BusinessEmail | PreviouslyProvided | Unrecognized

  datatype Provenance = ClientProvided | ReferencedCallNumber | LeadImport

  /** The untrusted interpretation of what the prospect said. */
  datatype Understanding = Understanding(intent: Intent, channel: Channel, value: Option<string>, reference: Option<Reference>)

  datatype Method = Method(channel: Channel, value: string)

  /** Values from trusted application data. */
  datatype Trusted = Trusted(callNumber: Option<string>, businessPhone: Option<string>, businessEmail: Option<string>,
                             previous: Option<Method>)

  datatype Resolution =
    | Resolved(channel: Channel, value: string, provenance: Provenance)
    | NeedsClarification
    | Invalid
    | UnsupportedReference
    | UnavailableReference

  /** Canonical forms, where the raw text has one. */
  datatype Canon = Canon(email: string -> Option<string>, phone: string -> Option<string>)

  function TrimLeft(s: string): string {
    if s != "" && IsSpace(s[0]) then TrimLeft(s[1..]) else s
  }

  function TrimRight(s: string): string {
    if s != "" && IsSpace(s[|s| - 1]) then TrimRight(s[..|s| - 1]) else s
  }

  function Trim(s: string): string { TrimRight(TrimLeft(s)) }

  predicate Given(value: Option<string>) { value.Some? && !Blank(value.value) }

  function Check(canon: Canon, channel: Channel, raw: string, provenance: Provenance): Resolution {
    if channel.UnknownChannel? then NeedsClarification
    else
      match if channel.Email? then canon.email(raw) else canon.phone(raw)
      case None => Invalid
      case Some(value) => Resolved(channel, value, provenance)
  }

  function OrElse(channel: Channel, default: Channel): Channel {
    if channel.UnknownChannel? then default else channel
  }

  function FromTrusted(canon: Canon, channel: Channel, trusted: Option<string>, provenance: Provenance): Resolution {
    if !Given(trusted) then UnavailableReference else Check(canon, channel, Trim(trusted.value), provenance)
  }

  function ResolveReference(canon: Canon, reference: Reference, channel: Channel, t: Trusted): Resolution {
    match reference
    case CurrentCallNumber => FromTrusted(canon, channel, t.callNumber, ReferencedCallNumber)
    case BusinessPhone => FromTrusted(canon, OrElse(channel, Phone), t.businessPhone, LeadImport)
    case BusinessEmail => FromTrusted(canon, OrElse(channel, Email), t.businessEmail, LeadImport)
    case PreviouslyProvided =>
      if t.previous.None? then UnavailableReference
      else FromTrusted(canon, OrElse(channel, t.previous.value.channel), Some(t.previous.value.value), ClientProvided)
    case Unrecognized => UnsupportedReference
  }

  function Resolve(canon: Canon, u: Understanding, t: Trusted): Resolution {
    if Given(u.value) && u.reference.Some? then Invalid
    else if !Given(u.value) && u.reference.None? then NeedsClarification
    else if u.reference.Some? then ResolveReference(canon, u.reference.value, u.channel, t)
    else Check(canon, u.channel, Trim(u.value.value), ClientProvided)
  }

  /** A candidate by reference is the canonical form of a trusted value, under a provenance that names its
      source; nothing the prospect is said to have spoken takes part in it. */
  lemma ReferenceIsTrusted(canon: Canon, u: Understanding, t: Trusted)
    requires u.reference.Some? && Resolve(canon, u, t).Resolved?
    ensures forall v: Option<string> ::
              Resolve(canon, u.(value := v), t) == (if Given(v) then Invalid else Resolve(canon, u, t))
    ensures var r := Resolve(canon, u, t);
      var source := match u.reference.value
        case CurrentCallNumber => t.callNumber
        case BusinessPhone => t.businessPhone
        case BusinessEmail => t.businessEmail
        case PreviouslyProvided => if t.previous.None? then None else Some(t.previous.value.value)
        case Unrecognized => None;
      && Given(source)
      && Some(r.value) == (if r.channel.Email? then canon.email(Trim(source.value)) else canon.phone(Trim(source.value)))
      && (r.provenance == ReferencedCallNumber <==> u.reference.value == CurrentCallNumber)
      && (r.provenance == ClientProvided <==> u.reference.value == PreviouslyProvided)
      && (u.channel != UnknownChannel ==> r.channel == u.channel)
  {
  }

  /** What was said outright resolves, trimmed and in canonical form, through the channel that was named; and
      when it does not, the answer says what is missing. */
  lemma ExplicitExactly(canon: Canon, u: Understanding, t: Trusted)
    requires u.reference.None?
    ensures var r := Resolve(canon, u, t);
      if u.value.None? || Blank(u.value.value) || u.channel == UnknownChannel then r == NeedsClarification
      else
        var canonical := if u.channel == Email then canon.email(Trim(u.value.value)) else canon.phone(Trim(u.value.value));
        r == if canonical.None? then Invalid else Resolved(u.channel, canonical.value, ClientProvided)
  {
  }

  /** What a reference stands for, how it is called, and the channel it comes with. */
  predicate StandsFor(t: Trusted, reference: Reference, value: Option<string>, provenance: Provenance, channel: Channel) {
    match reference
    case CurrentCallNumber => value == t.callNumber && provenance == ReferencedCallNumber && channel == UnknownChannel
    case BusinessPhone => value == t.businessPhone && provenance == LeadImport && channel == Phone
    case BusinessEmail => value == t.businessEmail && provenance == LeadImport && channel == Email
    case PreviouslyProvided =>
      && provenance == ClientProvided
      && (t.previous.None? ==> value == None) && (t.previous.Some? ==> value == Some(t.previous.value.value) && channel == t.previous.value.channel)
    case Unrecognized => false
  }

  /** A reference resolves to the trusted value it stands for, through the channel that was named or else the
      value's own. */
  lemma ReferenceExactly(canon: Canon, u: Understanding, t: Trusted, value: Option<string>, provenance: Provenance, own: Channel)
    requires u.reference.Some? && StandsFor(t, u.reference.value, value, provenance, own)
    ensures var (r, channel) := (Resolve(canon, u, t), if u.channel == UnknownChannel then own else u.channel);
      if u.value.Some? && !Blank(u.value.value) then r == Invalid
      else if value.None? || Blank(value.value) then r == UnavailableReference
      else if channel == UnknownChannel then r == NeedsClarification
      else
        var canonical := if channel == Email then canon.email(Trim(value.value)) else canon.phone(Trim(value.value));
        r == if canonical.None? then Invalid else Resolved(channel, canonical.value, provenance)
  {
  }

  lemma UnrecognizedIsUnsupported(canon: Canon, u: Understanding, t: Trusted)
    requires u.reference == Some(Unrecognized)
    ensures Resolve(canon, u, t) == if u.value.Some? && !Blank(u.value.value) then Invalid else UnsupportedReference
  {
  }

  /** Nothing is left of the space around a value, and nothing else is lost. */
  lemma {:induction false} TrimExactly(s: string)
    ensures exists i, j :: 0 <= i <= j <= |s| && Trim(s) == s[i..j] && Blank(s[..i]) && Blank(s[j..])
    ensures Trim(s) != "" ==> !IsSpace(Trim(s)[0]) && !IsSpace(Trim(s)[|Trim(s)| - 1])
  {
    var i := TrimmedLeft(s);
    var j := TrimmedRight(s[i..]);
    assert s[i..][..j] == s[i..i + j] && s[i..][j..] == s[i + j..];
    if j > 0 { assert s[i..i + j][0] == s[i..][0]; }
  }

  lemma {:induction false} TrimmedLeft(s: string) returns (i: nat)
    ensures i <= |s| && TrimLeft(s) == s[i..] && Blank(s[..i])
    ensures i < |s| ==> !IsSpace(s[i])
  {
    if s != "" && IsSpace(s[0]) {
      var k := TrimmedLeft(s[1..]);
      i := k + 1;
      forall n | 0 <= n < i ensures IsSpace(s[..i][n]) {
        if n > 0 { assert s[1..][..k][n - 1] == s[n]; }
      }
    } else {
      i := 0;
    }
  }

  lemma {:induction false} TrimmedRight(s: string) returns (j: nat)
    ensures j <= |s| && TrimRight(s) == s[..j] && Blank(s[j..])
    ensures j > 0 ==> !IsSpace(s[j - 1])
  {
    if s != "" && IsSpace(s[|s| - 1]) {
      j := TrimmedRight(s[..|s| - 1]);
      forall n | 0 <= n < |s[j..]| ensures IsSpace(s[j..][n]) {
        if n < |s| - 1 - j { assert s[..|s| - 1][j..][n] == s[j + n]; }
      }
    } else {
      j := |s|;
    }
  }

  // ----- Clarification -----

  datatype Stage = NoStage | Repeat | Spell | ExhaustedStage

  type Attempts = n: nat | n >= 1 witness 1

  datatype ClarificationState = ClarificationState(channel: Channel, attempts: nat, stage: Stage, maxAttempts: Attempts)

  datatype ClarificationOutcome = Clear | Retry | Exhausted

  datatype ClarificationDecision = ClarificationDecision(
    outcome: ClarificationOutcome,
    action: Option<AgentAction>,
    responseKey: Option<string>,
    newState: ClarificationState)

  function NewSession(limits: Channel -> Attempts, channel: Channel): ClarificationState {
    ClarificationState(channel, 0, NoStage, limits(channel))
  }

  function RetryKey(channel: Channel, stage: Stage): string {
    match channel
    case Email => if stage.Repeat? then "repeat_email" else "spell_email"
    case UnknownChannel => "ask_contact_channel"
    case _ => if stage.Repeat? then "repeat_phone" else "digits_phone"
  }

  function Evaluate(s: ClarificationState, clear: bool): ClarificationDecision {
    if clear then ClarificationDecision(Clear, Some(ConfirmContact), None, s.(stage := NoStage))
    else if s.stage.ExhaustedStage? || s.attempts >= s.maxAttempts then
      ClarificationDecision(Exhausted, None, None, s.(stage := ExhaustedStage))
    else
      var next := s.attempts + 1;
      if next >= s.maxAttempts then
        ClarificationDecision(Exhausted, None, None, s.(attempts := next, stage := ExhaustedStage))
      else
        var stage := if next == 1 then Repeat else Spell;
        ClarificationDecision(Retry, Some(ClarifyContact), Some(RetryKey(s.channel, stage)),
                              s.(attempts := next, stage := stage))
  }

  /** The state the engine evaluates in: the session's own, unless the channel has changed. */
  function SessionFor(limits: Channel -> Attempts, s: Option<ClarificationState>, channel: Channel): ClarificationState {
    if s.None? || s.value.channel != channel then NewSession(limits, channel) else s.value
  }

  /** The outcomes of a run of contact turns in one session. */
  function Outcomes(limits: Channel -> Attempts, s: Option<ClarificationState>, turns: seq<(Channel, bool)>)
    : seq<ClarificationOutcome>
    decreases turns
  {
    if turns == [] then []
    else
      var d := Evaluate(SessionFor(limits, s, turns[0].0), turns[0].1);
      [d.outcome] + Outcomes(limits, Some(d.newState), turns[1..])
  }

  function Retries(outcomes: seq<ClarificationOutcome>): nat {
    if outcomes == [] then 0 else (if outcomes[0].Retry? then 1 else 0) + Retries(outcomes[1..])
  }

  /** A session goes on while the channel stays, and starts from nothing when it changes. */
  lemma SessionStarts(limits: Channel -> Attempts, s: Option<ClarificationState>, channel: Channel)
    ensures SessionFor(limits, s, channel) ==
      if s.Some? && s.value.channel == channel then s.value else ClarificationState(channel, 0, NoStage, limits(channel))
  {
  }

  /** One evaluation: a clear answer is confirmed; an unclear one is asked for again, first by repeating, then
      by spelling out; the last attempt, and every one after it, is given up. */
  lemma EvaluationExactly(s: ClarificationState, clear: bool)
    ensures var d := Evaluate(s, clear);
      if clear then d == ClarificationDecision(Clear, Some(ConfirmContact), None, s.(stage := NoStage))
      else if s.stage == ExhaustedStage || s.attempts + 1 >= s.maxAttempts then
        && d.outcome == Exhausted && d.action.None? && d.responseKey.None? && d.newState.stage == ExhaustedStage
        && d.newState.channel == s.channel && d.newState.maxAttempts == s.maxAttempts
        && d.newState.attempts == (if s.stage == ExhaustedStage || s.attempts >= s.maxAttempts then s.attempts else s.attempts + 1)
      else
        && d.outcome == Retry && d.action == Some(ClarifyContact)
        && d.newState == s.(attempts := s.attempts + 1, stage := if s.attempts == 0 then Repeat else Spell)
        && d.responseKey == Some(match s.channel
             case Email => if s.attempts == 0 then "repeat_email" else "spell_email"
             case UnknownChannel => "ask_contact_channel"
             case _ => if s.attempts == 0 then "repeat_phone" else "digits_phone")
  {
  }

  // ----- Retries over any run of contact turns -----

  function Unclear(turns: seq<(Channel, bool)>): nat {
    if turns == [] then 0 else (if turns[0].1 then 0 else 1) + Unclear(turns[1..])
  }

  /** How many turns from the front stay on the channel. */
  function StayOn(channel: Channel, turns: seq<(Channel, bool)>): (n: nat)
    ensures n <= |turns|
    ensures turns != [] && turns[0].0 == channel ==> n > 0
  {
    if turns == [] || turns[0].0 != channel then 0 else 1 + StayOn(channel, turns[1..])
  }

  function Min(a: nat, b: nat): nat { if a < b then a else b }

  /** The turns cut into stretches on one channel, as long as possible; of each stretch the unclear turns,
      but no more than one less than the channel's maximum. */
  function RetriesOfStretches(limits: Channel -> Attempts, turns: seq<(Channel, bool)>): nat
    decreases |turns|
  {
    if turns == [] then 0
    else
      var n := StayOn(turns[0].0, turns);
      Min(Unclear(turns[..n]), limits(turns[0].0) - 1) + RetriesOfStretches(limits, turns[n..])
  }

  predicate Proper(limits: Channel -> Attempts, s: ClarificationState) {
    s.maxAttempts == limits(s.channel) && (s.stage.ExhaustedStage? ==> s.attempts >= s.maxAttempts)
  }

  /** The retries a session still has. */
  function Room(s: ClarificationState): nat { if s.attempts < s.maxAttempts then s.maxAttempts - s.attempts - 1 else 0 }

  /** One turn uses up room exactly when it asks again. */
  lemma StepUsesRoom(limits: Channel -> Attempts, s: ClarificationState, clear: bool)
    requires Proper(limits, s)
    ensures var d := Evaluate(s, clear);
      && Proper(limits, d.newState) && d.newState.channel == s.channel
      && (d.outcome.Retry? <==> !clear && Room(s) > 0)
      && Room(d.newState) == if d.outcome.Retry? then Room(s) - 1 else Room(s)
  {
  }

  /** What a stretch and the rest are, once the first turn is taken off. */
  lemma StretchUnfolds(channel: Channel, turns: seq<(Channel, bool)>)
    requires turns != [] && turns[0].0 == channel
    ensures var n := StayOn(channel, turns);
      && StayOn(channel, turns[1..]) == n - 1
      && turns[n..] == turns[1..][n - 1..]
      && Unclear(turns[..n]) == (if turns[0].1 then 0 else 1) + Unclear(turns[1..][..n - 1])
  {
    var n := StayOn(channel, turns);
    assert turns[..n][1..] == turns[1..][..n - 1];
  }

  /** What is left of a session's stretch, and the stretches after it. */
  function RetriesFrom(limits: Channel -> Attempts, s: ClarificationState, turns: seq<(Channel, bool)>): nat {
    var n := StayOn(s.channel, turns);
    Min(Unclear(turns[..n]), Room(s)) + RetriesOfStretches(limits, turns[n..])
  }

  lemma RetriesUnfold(limits: Channel -> Attempts, s: ClarificationState, turns: seq<(Channel, bool)>)
    requires Proper(limits, s) && turns != [] && turns[0].0 == s.channel
    ensures var d := Evaluate(s, turns[0].1);
      RetriesFrom(limits, s, turns) == (if d.outcome.Retry? then 1 else 0) + RetriesFrom(limits, d.newState, turns[1..])
  {
    StepUsesRoom(limits, s, turns[0].1);
    StretchUnfolds(s.channel, turns);
  }

  /** A turn on another channel ends the stretch. */
  lemma RetriesRestart(limits: Channel -> Attempts, s: ClarificationState, turns: seq<(Channel, bool)>)
    requires turns == [] || turns[0].0 != s.channel
    ensures RetriesFrom(limits, s, turns) == if turns == [] then 0 else RetriesFrom(limits, NewSession(limits, turns[0].0), turns)
  {
    assert turns[..0] == [] && turns[0..] == turns;
  }

  lemma {:induction false} SessionRetries(limits: Channel -> Attempts, s: ClarificationState, turns: seq<(Channel, bool)>)
    requires Proper(limits, s)
    ensures Retries(Outcomes(limits, Some(s), turns)) == RetriesFrom(limits, s, turns)
    decreases |turns|, if turns != [] && turns[0].0 != s.channel then 1 else 0
  {
    if turns == [] || turns[0].0 != s.channel {
      RetriesRestart(limits, s, turns);
      if turns != [] { SessionRetries(limits, NewSession(limits, turns[0].0), turns); }
    } else {
      StepUsesRoom(limits, s, turns[0].1);
      RetriesUnfold(limits, s, turns);
      SessionRetries(limits, Evaluate(s, turns[0].1).newState, turns[1..]);
    }
  }

  /** How often a prospect is asked again, over every run of contact turns. */
  lemma RetriesOverRuns(limits: Channel -> Attempts, turns: seq<(Channel, bool)>)
    ensures Retries(Outcomes(limits, None, turns)) == RetriesOfStretches(limits, turns)
  {
    if turns != [] {
      SessionRetries(limits, NewSession(limits, turns[0].0), turns);
    }
  }

  function Changes(turns: seq<(Channel, bool)>): nat {
    if |turns| < 2 then 0 else (if turns[0].0 != turns[1].0 then 1 else 0) + Changes(turns[1..])
  }

  lemma {:induction false} ChangesAfterStretch(turns: seq<(Channel, bool)>)
    requires turns != []
    ensures var n := StayOn(turns[0].0, turns);
      Changes(turns) == if n < |turns| then 1 + Changes(turns[n..]) else 0
    decreases |turns|
  {
    var n, rest := StayOn(turns[0].0, turns), turns[1..];
    if |turns| >= 2 {
      if turns[0].0 == turns[1].0 {
        ChangesAfterStretch(rest);
        assert turns[n..] == rest[n - 1..];
      }
    }
  }

  lemma {:induction false} StretchesBounded(limits: Channel -> Attempts, most: Attempts, turns: seq<(Channel, bool)>)
    requires forall channel :: limits(channel) <= most
    ensures RetriesOfStretches(limits, turns) <= (Changes(turns) + 1) * (most - 1)
    decreases |turns|
  {
    if turns != [] {
      var n := StayOn(turns[0].0, turns);
      var rest := turns[n..];
      ChangesAfterStretch(turns);
      assert RetriesOfStretches(limits, turns) <= (most - 1) + RetriesOfStretches(limits, rest);
      if rest != [] {
        StretchesBounded(limits, most, rest);
        AddOne(Changes(rest) + 1, most - 1);
      }
    }
  }

  lemma AddOne(a: nat, b: nat)
    ensures (a + 1) * b == a * b + b
  {
  }

  /** Retries are bounded by the number of channel changes. */
  lemma ChangesBoundRetries(limits: Channel -> Attempts, most: Attempts, turns: seq<(Channel, bool)>)
    requires forall channel :: limits(channel) <= most
    ensures Retries(Outcomes(limits, None, turns)) <= (Changes(turns) + 1) * (most - 1)
  {
    RetriesOverRuns(limits, turns);
    StretchesBounded(limits, most, turns);
  }

  lemma {:induction false} AllStay(channel: Channel, turns: seq<(Channel, bool)>)
    requires forall i :: 0 <= i < |turns| ==> turns[i].0 == channel
    ensures StayOn(channel, turns) == |turns|
  {
    if turns != [] { AllStay(channel, turns[1..]); }
  }

  /** On one channel the prospect is asked to repeat fewer times than the configured maximum, whatever
      happens in between: a clear turn does not reset the count. */
  lemma {:induction false} RetriesBounded(limits: Channel -> Attempts, s: ClarificationState, turns: seq<(Channel, bool)>)
    requires s.maxAttempts == limits(s.channel)
    requires forall i :: 0 <= i < |turns| ==> turns[i].0 == s.channel
    ensures s.attempts + Retries(Outcomes(limits, Some(s), turns)) < s.maxAttempts || Retries(Outcomes(limits, Some(s), turns)) == 0
    decreases turns
  {
    if turns != [] {
      var d := Evaluate(SessionFor(limits, Some(s), turns[0].0), turns[0].1);
      RetriesBounded(limits, d.newState, turns[1..]);
    }
  }

  /** Exactly how often: once for each unclear turn while there is room. */
  lemma RetriesExactly(limits: Channel -> Attempts, s: ClarificationState, turns: seq<(Channel, bool)>)
    requires Proper(limits, s)
    requires forall i :: 0 <= i < |turns| ==> turns[i].0 == s.channel
    ensures Retries(Outcomes(limits, Some(s), turns)) == Min(Unclear(turns), Room(s))
  {
    SessionRetries(limits, s, turns);
    AllStay(s.channel, turns);
    assert turns[..|turns|] == turns;
  }

  /** Turns that alternate between two channels start a new session each time: nothing bounds the retries. */
  lemma {:induction false} AlternatingChannelsNeverExhaust(limits: Channel -> Attempts, turns: seq<(Channel, bool)>)
    requires forall i :: 0 <= i < |turns| ==> !turns[i].1 && limits(turns[i].0) > 1
    requires forall i :: 0 < i < |turns| ==> turns[i].0 != turns[i - 1].0
    ensures Retries(Outcomes(limits, None, turns)) == |turns|
    decreases |turns|
  {
    RetriesOverRuns(limits, turns);
    if turns != [] {
      assert |turns| > 1 ==> turns[1].0 != turns[0].0;
      assert StayOn(turns[0].0, turns) == 1 && turns[..1] == [turns[0]] && Unclear([turns[0]]) == 1;
      RetriesOverRuns(limits, turns[1..]);
      AlternatingChannelsNeverExhaust(limits, turns[1..]);
    }
  }
}
