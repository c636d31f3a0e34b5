/** The lifecycle of documents over any sequence of registry calls, and loading in any order. */
module RegistryProofs {
  import opened Wrappers
  import opened Runs
  import opened KnowledgeRegistry

  // ----- Lifecycle -----

  datatype Operation =
    | AddBaseOp(base: KnowledgeBase)
    | AddVersionOp(document: Document)
    | TransitionOp(key: DocumentKey, version: int, status: Status)
    | SelectOp(selection: ActiveSelection)

  function Apply(r: Registry, op: Operation): Change {
    match op
    case AddBaseOp(b) => AddBase(r, b)
    case AddVersionOp(d) => AddVersion(r, d)
    case TransitionOp(key, v, status) => Transition(r, key, v, status)
    case SelectOp(s) => Select(r, s)
  }

  function Next(r: Registry, op: Operation): (Registry, seq<RegistryError>) {
    match Apply(r, op)
    case Done(r') => (r', [])
    case Refused(e) => (r, [e])
  }

  function Registering(): (Registry, Operation) -> (Registry, seq<RegistryError>) {
    (r: Registry, op: Operation) => Next(r, op)
  }

  /** Version i sits at index i - 1 of its own document, and at most one version is published. */
  ghost predicate Ordered(key: DocumentKey, versions: seq<Document>) {
    && versions != []
    && (forall i :: 0 <= i < |versions| ==> KeyOf(versions[i]) == key && versions[i].version == i + 1)
    && (forall i, j :: 0 <= i < j < |versions| ==> !(versions[i].status == Published && versions[j].status == Published))
  }

  ghost predicate VersionAt(documents: map<DocumentKey, seq<Document>>, key: DocumentKey, i: int, versionId: string) {
    key in documents && 0 <= i < |documents[key]| && documents[key][i].versionId == versionId
  }

  /** Within one knowledge base no two versions share a version id. */
  ghost predicate UniqueVersionIds(documents: map<DocumentKey, seq<Document>>) {
    forall k, i, l, j, id | VersionAt(documents, k, i, id) && VersionAt(documents, l, j, id) ::
      k.businessId == l.businessId && k.baseId == l.baseId ==> k == l && i == j
  }

  ghost predicate Valid(r: Registry) {
    && (forall key :: key in r.documents ==> Ordered(key, r.documents[key]) && (key.businessId, key.baseId) in r.bases)
    && UniqueVersionIds(r.documents)
    && forall k :: k in r.selections ==>
         (r.selections[k].businessId, r.selections[k].campaignId) == k && (k.0, r.selections[k].baseId) in r.bases
  }

  lemma AddVersionKeeps(r: Registry, d: Document)
    requires Valid(r) && AddVersion(r, d).Done?
    ensures Valid(AddVersion(r, d).registry)
  {
    var r' := AddVersion(r, d).registry;
    var key, old' := KeyOf(d), Versions(r, KeyOf(d));
    assert Ordered(key, old' + [d]);
    forall k, i, l, j, id | VersionAt(r'.documents, k, i, id) && VersionAt(r'.documents, l, j, id)
                            && k.businessId == l.businessId && k.baseId == l.baseId
      ensures k == l && i == j
    {
      var newK, newL := k == key && i == |old'|, l == key && j == |old'|;
      if !newK { assert VersionAt(r.documents, k, i, id); }
      if !newL { assert VersionAt(r.documents, l, j, id); }
    }
  }

  lemma TransitionKeeps(r: Registry, key: DocumentKey, v: int, status: Status)
    requires Valid(r) && Transition(r, key, v, status).Done?
    ensures Valid(Transition(r, key, v, status).registry)
  {
    var r' := Transition(r, key, v, status).registry;
    assert Ordered(key, Versions(r, key));
    assert Ordered(key, Moved(Versions(r, key), v, status));
    forall k, i, l, j, id | VersionAt(r'.documents, k, i, id) && VersionAt(r'.documents, l, j, id)
                            && k.businessId == l.businessId && k.baseId == l.baseId
      ensures k == l && i == j
    {
      assert VersionAt(r.documents, k, i, id) && VersionAt(r.documents, l, j, id);
    }
  }

  lemma NextKeeps(r: Registry, op: Operation)
    requires Valid(r)
    ensures Valid(Next(r, op).0)
  {
    if Apply(r, op).Done? {
      match op
      case AddVersionOp(d) => AddVersionKeeps(r, d);
      case TransitionOp(key, v, status) => TransitionKeeps(r, key, v, status);
      case AddBaseOp(b) =>
      case SelectOp(s) =>
    }
  }

  function Rank(s: Status): nat {
    match s
    case Draft => 0
    case Published => 1
    case Archived => 2
  }

  /** Nothing about a version ever changes but its status, which only moves forward. */
  ghost predicate Ages(d: Document, d': Document) {
    d' == d.(status := d'.status) && Rank(d.status) <= Rank(d'.status)
  }

  ghost predicate Grows(r: Registry, r': Registry) {
    && (forall b :: b in r.bases ==> b in r'.bases && r'.bases[b] == r.bases[b])
    && (forall key :: key in r.documents ==>
          && key in r'.documents && |r.documents[key]| <= |r'.documents[key]|
          && forall i :: 0 <= i < |r.documents[key]| ==> Ages(r.documents[key][i], r'.documents[key][i]))
  }

  lemma NextGrows(r: Registry, op: Operation)
    ensures Grows(r, Next(r, op).0)
  {
  }

  lemma GrowsTransitive(a: Registry, b: Registry, c: Registry)
    requires Grows(a, b) && Grows(b, c)
    ensures Grows(a, c)
  {
    forall key | key in a.documents
      ensures key in c.documents && |a.documents[key]| <= |c.documents[key]|
      ensures forall i :: 0 <= i < |a.documents[key]| ==> Ages(a.documents[key][i], c.documents[key][i])
    {
      forall i | 0 <= i < |a.documents[key]| ensures Ages(a.documents[key][i], c.documents[key][i]) {
        assert Ages(a.documents[key][i], b.documents[key][i]) && Ages(b.documents[key][i], c.documents[key][i]);
      }
    }
  }

  /** Over any sequence of calls, refused ones included: versions stay numbered by position, at most one
      version of a document is published, version ids stay unique in their base, a campaign selects only
      bases of its own business, nothing is lost, and a status only moves from draft to published to
      archived. */
  lemma {:induction false} LifecycleOverRuns(r: Registry, ops: seq<Operation>)
    requires Valid(r)
    ensures Valid(Final(Registering(), r, ops))
    ensures Grows(r, Final(Registering(), r, ops))
    decreases ops
  {
    if ops != [] {
      var r' := Next(r, ops[0]).0;
      NextKeeps(r, ops[0]);
      NextGrows(r, ops[0]);
      LifecycleOverRuns(r', ops[1..]);
      GrowsTransitive(r, r', Final(Registering(), r', ops[1..]));
    }
  }

  /** Publishing a draft leaves it as the one published version of its document and touches no other;
      what was published before it is archived. */
  lemma PublishingExactly(r: Registry, key: DocumentKey, v: int)
    requires Valid(r)
    ensures Transition(r, key, v, Published).Done? <==>
              key in r.documents && 1 <= v <= |r.documents[key]| && r.documents[key][v - 1].status == Draft
    ensures Transition(r, key, v, Published).Done? ==>
      var r' := Transition(r, key, v, Published).registry;
      && (forall i :: 0 <= i < |r'.documents[key]| ==> (r'.documents[key][i].status == Published <==> i == v - 1))
      && (forall i :: 0 <= i < |r.documents[key]| && i != v - 1 ==>
            r'.documents[key][i].status == if r.documents[key][i].status == Published then Archived else r.documents[key][i].status)
      && (forall other :: other in r.documents && other != key ==> r'.documents[other] == r.documents[other])
  {
  }

  // ----- Loading in any order -----

  function OfKey(q: seq<Document>, key: DocumentKey): seq<Document> {
    if q == [] then []
    else
      var d := q[|q| - 1];
      OfKey(q[..|q| - 1], key) + if KeyOf(d) == key then [d] else []
  }

  predicate Clash(d: Document, e: Document) { BaseOf(d) == BaseOf(e) && d.versionId == e.versionId }

  ghost predicate NoClash(q: seq<Document>) {
    forall i, j :: 0 <= i < j < |q| ==> !Clash(q[i], q[j])
  }

  ghost predicate Numbered(q: seq<Document>) {
    forall key, k :: 0 <= k < |OfKey(q, key)| ==> OfKey(q, key)[k].version == k + 1
  }

  /** What a sequence of documents must be like for all of them to be added, in this order. */
  ghost predicate Acceptable(bases: map<BaseKey, KnowledgeBase>, q: seq<Document>) {
    && (forall i :: 0 <= i < |q| ==> q[i].status == Draft && BaseOf(q[i]) in bases)
    && NoClash(q) && Numbered(q)
  }

  /** The registry holds exactly the documents of `q`, by key and in order. */
  ghost predicate Holds(documents: map<DocumentKey, seq<Document>>, q: seq<Document>) {
    && (forall key :: key in documents <==> OfKey(q, key) != [])
    && (forall key :: key in documents ==> documents[key] == OfKey(q, key))
  }

  lemma {:induction false} OfKeyMembers(q: seq<Document>, key: DocumentKey)
    ensures forall d :: d in OfKey(q, key) <==> d in q && KeyOf(d) == key
  {
    if q != [] {
      OfKeyMembers(q[..|q| - 1], key);
      assert q == q[..|q| - 1] + [q[|q| - 1]];
    }
  }

  lemma OfKeyAppend(q: seq<Document>, d: Document, key: DocumentKey)
    ensures OfKey(q + [d], key) == OfKey(q, key) + (if KeyOf(d) == key then [d] else [])
  {
    assert (q + [d])[..|q|] == q;
  }

  lemma IdUsedExactly(documents: map<DocumentKey, seq<Document>>, q: seq<Document>, d: Document)
    requires Holds(documents, q)
    ensures VersionIdUsed(documents, BaseOf(d), d.versionId) <==> exists i :: 0 <= i < |q| && Clash(q[i], d)
  {
    if i :| 0 <= i < |q| && Clash(q[i], d) {
      var key := KeyOf(q[i]);
      OfKeyMembers(q, key);
      assert q[i] in documents[key];
      var j :| 0 <= j < |documents[key]| && documents[key][j] == q[i];
      assert documents[key][j].versionId == d.versionId;
    }
    if VersionIdUsed(documents, BaseOf(d), d.versionId) {
      var key :| key in documents && (key.businessId, key.baseId) == BaseOf(d)
        && exists i | 0 <= i < |documents[key]| :: documents[key][i].versionId == d.versionId;
      var j :| 0 <= j < |documents[key]| && documents[key][j].versionId == d.versionId;
      OfKeyMembers(q, key);
      assert documents[key][j] in q;
      var i :| 0 <= i < |q| && q[i] == documents[key][j];
      assert Clash(q[i], d);
    }
  }

  lemma NumberedAppend(q: seq<Document>, d: Document)
    ensures Numbered(q + [d]) <==> Numbered(q) && d.version == |OfKey(q, KeyOf(d))| + 1
  {
    forall key ensures OfKey(q + [d], key) == OfKey(q, key) + (if KeyOf(d) == key then [d] else []) {
      OfKeyAppend(q, d, key);
    }
    var n := |OfKey(q, KeyOf(d))|;
    if Numbered(q + [d]) {
      assert OfKey(q + [d], KeyOf(d))[n].version == n + 1;
      forall key, k | 0 <= k < |OfKey(q, key)| ensures OfKey(q, key)[k].version == k + 1 {
        assert OfKey(q + [d], key)[k] == OfKey(q, key)[k];
      }
    }
  }

  lemma NoClashAppend(q: seq<Document>, d: Document)
    ensures NoClash(q + [d]) <==> NoClash(q) && !(exists i :: 0 <= i < |q| && Clash(q[i], d))
  {
    var u := q + [d];
    assert forall i :: 0 <= i < |q| ==> u[i] == q[i];
    if NoClash(u) {
      forall i | 0 <= i < |q| ensures !Clash(q[i], d) { assert !Clash(u[i], u[|q|]); }
      forall i, j | 0 <= i < j < |q| ensures !Clash(q[i], q[j]) { assert !Clash(u[i], u[j]); }
    }
  }

  lemma AcceptableAppend(bases: map<BaseKey, KnowledgeBase>, q: seq<Document>, d: Document)
    ensures Acceptable(bases, q + [d]) <==>
      && Acceptable(bases, q)
      && d.status == Draft && BaseOf(d) in bases
      && d.version == |OfKey(q, KeyOf(d))| + 1 && !(exists i :: 0 <= i < |q| && Clash(q[i], d))
  {
    NumberedAppend(q, d);
    NoClashAppend(q, d);
    assert forall i :: 0 <= i < |q| ==> (q + [d])[i] == q[i];
    assert (q + [d])[|q|] == d;
  }

  lemma AddOne(r: Registry, q: seq<Document>, d: Document)
    requires Acceptable(r.bases, q) && Holds(r.documents, q)
    ensures AddVersion(r, d).Done? <==> Acceptable(r.bases, q + [d])
    ensures AddVersion(r, d).Done? ==>
      var r' := AddVersion(r, d).registry; Holds(r'.documents, q + [d]) && r' == r.(documents := r'.documents)
  {
    IdUsedExactly(r.documents, q, d);
    AcceptableAppend(r.bases, q, d);
    if AddVersion(r, d).Done? {
      var r' := AddVersion(r, d).registry;
      forall key
        ensures key in r'.documents <==> OfKey(q + [d], key) != []
        ensures key in r'.documents ==> r'.documents[key] == OfKey(q + [d], key)
      {
        OfKeyAppend(q, d, key);
      }
    }
  }

  lemma {:induction false} AcceptablePrefix(bases: map<BaseKey, KnowledgeBase>, q: seq<Document>, more: seq<Document>)
    requires Acceptable(bases, q + more)
    ensures Acceptable(bases, q)
    decreases more
  {
    if more == [] {
      assert q + more == q;
    } else {
      var last := more[|more| - 1];
      assert q + more == (q + more[..|more| - 1]) + [last];
      AcceptableAppend(bases, q + more[..|more| - 1], last);
      AcceptablePrefix(bases, q, more[..|more| - 1]);
    }
  }

  lemma {:induction false} AddAllExactly(r: Registry, q: seq<Document>, docs: seq<Document>)
    requires Acceptable(r.bases, q) && Holds(r.documents, q)
    ensures AddVersions(r, docs).Done? <==> Acceptable(r.bases, q + docs)
    ensures AddVersions(r, docs).Done? ==>
      var r' := AddVersions(r, docs).registry; Holds(r'.documents, q + docs) && r' == r.(documents := r'.documents)
    decreases docs
  {
    if docs == [] {
      assert q + docs == q;
    } else {
      AddOne(r, q, docs[0]);
      assert q + docs == (q + [docs[0]]) + docs[1..];
      if AddVersion(r, docs[0]).Done? {
        AddAllExactly(AddVersion(r, docs[0]).registry, q + [docs[0]], docs[1..]);
      } else if Acceptable(r.bases, q + docs) {
        AcceptablePrefix(r.bases, q + [docs[0]], docs[1..]);
      }
    }
  }

  // ----- Sorting by version -----

  ghost predicate NonDecreasing(q: seq<Document>) {
    forall i, j :: 0 <= i < j < |q| ==> q[i].version <= q[j].version
  }

  lemma AppendSorted(q: seq<Document>, d: Document)
    requires NonDecreasing(q) && forall x :: x in q ==> x.version <= d.version
    ensures NonDecreasing(q + [d])
  {
  }

  lemma {:induction false} InsertSorted(q: seq<Document>, d: Document)
    requires NonDecreasing(q)
    ensures NonDecreasing(Insert(q, d))
  {
    if q == [] || q[|q| - 1].version <= d.version {
      AppendSorted(q, d);
    } else {
      var front, last := q[..|q| - 1], q[|q| - 1];
      InsertSorted(front, d);
      forall x | x in Insert(front, d) ensures x.version <= last.version {
        assert x in multiset(Insert(front, d));
        if x != d { assert x in front; }
      }
      AppendSorted(Insert(front, d), last);
    }
  }

  lemma {:induction false} SortedByVersion(docs: seq<Document>)
    ensures NonDecreasing(ByVersion(docs))
  {
    if docs != [] {
      SortedByVersion(docs[..|docs| - 1]);
      InsertSorted(ByVersion(docs[..|docs| - 1]), docs[|docs| - 1]);
    }
  }

  lemma {:induction false} OfKeySorted(q: seq<Document>, key: DocumentKey)
    requires NonDecreasing(q)
    ensures NonDecreasing(OfKey(q, key))
  {
    if q != [] {
      OfKeySorted(q[..|q| - 1], key);
      OfKeyMembers(q[..|q| - 1], key);
      var front := OfKey(q[..|q| - 1], key);
      forall i | 0 <= i < |front| ensures front[i].version <= q[|q| - 1].version {
        assert front[i] in q[..|q| - 1];
      }
    }
  }

  lemma {:induction false} OfKeyMultiset(q: seq<Document>, key: DocumentKey, d: Document)
    ensures multiset(OfKey(q, key))[d] == if KeyOf(d) == key then multiset(q)[d] else 0
  {
    if q != [] {
      OfKeyMultiset(q[..|q| - 1], key, d);
      assert q == q[..|q| - 1] + [q[|q| - 1]];
    }
  }

  lemma LastsAgree(a: seq<Document>, b: seq<Document>)
    requires a != [] && |a| == |b| && multiset(a) == multiset(b) && NonDecreasing(b)
    requires forall k :: 0 <= k < |a| ==> a[k].version == k + 1
    ensures a[|a| - 1] == b[|a| - 1]
  {
    var n := |a| - 1;
    assert a[n] in multiset(b);
    var i :| 0 <= i < |b| && b[i] == a[n];
    assert b[n] in multiset(a);
    var j :| 0 <= j < |a| && a[j] == b[n];
    assert b[i].version <= b[n].version;
  }

  lemma FrontOf(q: seq<Document>)
    requires q != []
    ensures multiset(q[..|q| - 1]) == multiset(q) - multiset{q[|q| - 1]}
  {
    assert q == q[..|q| - 1] + [q[|q| - 1]];
  }

  lemma SameLength(a: seq<Document>, b: seq<Document>)
    requires multiset(a) == multiset(b)
    ensures |a| == |b|
  {
    assert |multiset(a)| == |a| && |multiset(b)| == |b|;
  }

  lemma FrontsAgree(a: seq<Document>, b: seq<Document>)
    requires a != [] && b != [] && multiset(a) == multiset(b) && a[|a| - 1] == b[|b| - 1]
    ensures multiset(a[..|a| - 1]) == multiset(b[..|b| - 1])
  {
    FrontOf(a);
    FrontOf(b);
  }

  lemma {:induction false} NumberedIsUnique(a: seq<Document>, b: seq<Document>)
    requires multiset(a) == multiset(b) && NonDecreasing(b)
    requires forall k :: 0 <= k < |a| ==> a[k].version == k + 1
    ensures a == b
  {
    SameLength(a, b);
    if a != [] {
      LastsAgree(a, b);
      FrontsAgree(a, b);
      NumberedIsUnique(a[..|a| - 1], b[..|b| - 1]);
      assert a == a[..|a| - 1] + [a[|a| - 1]] && b == b[..|b| - 1] + [b[|b| - 1]];
    }
  }

  lemma TwiceInSequence(q: seq<Document>, i: int, j: int)
    requires 0 <= i < j < |q| && q[i] == q[j]
    ensures multiset(q)[q[i]] >= 2
  {
    assert q == q[..j] + [q[j]] + q[j + 1..];
    assert q[i] in q[..j];
  }

  lemma {:induction false} TwiceInMultiset(q: seq<Document>, d: Document)
    requires multiset(q)[d] >= 2
    ensures exists i, j :: 0 <= i < j < |q| && q[i] == q[j] == d
  {
    var front, last := q[..|q| - 1], q[|q| - 1];
    assert q == front + [last];
    if last == d {
      assert d in front;
      var i :| 0 <= i < |front| && front[i] == d;
      assert q[i] == q[|q| - 1] == d;
    } else {
      TwiceInMultiset(front, d);
      var i, j :| 0 <= i < j < |front| && front[i] == front[j] == d;
      assert q[i] == q[j] == d;
    }
  }

  lemma ClashSurvives(a: seq<Document>, b: seq<Document>, i: int, j: int)
    requires multiset(a) == multiset(b) && 0 <= i < j < |b| && Clash(b[i], b[j])
    ensures !NoClash(a)
  {
    if b[i] == b[j] {
      TwiceInSequence(b, i, j);
      TwiceInMultiset(a, b[i]);
    } else {
      assert b[i] in multiset(a) && b[j] in multiset(a);
      var k :| 0 <= k < |a| && a[k] == b[i];
      var l :| 0 <= l < |a| && a[l] == b[j];
      if k < l { assert Clash(a[k], a[l]); } else { assert Clash(a[l], a[k]); }
    }
  }

  lemma SameDocuments(bases: map<BaseKey, KnowledgeBase>, a: seq<Document>, b: seq<Document>)
    requires multiset(a) == multiset(b) && NonDecreasing(b) && Acceptable(bases, a)
    ensures Acceptable(bases, b)
    ensures forall key :: OfKey(a, key) == OfKey(b, key)
  {
    forall key ensures OfKey(a, key) == OfKey(b, key) {
      forall d ensures multiset(OfKey(a, key))[d] == multiset(OfKey(b, key))[d] {
        OfKeyMultiset(a, key, d);
        OfKeyMultiset(b, key, d);
      }
      OfKeySorted(b, key);
      NumberedIsUnique(OfKey(a, key), OfKey(b, key));
    }
    forall i, j | 0 <= i < j < |b| ensures !Clash(b[i], b[j]) {
      if Clash(b[i], b[j]) { ClashSurvives(a, b, i, j); }
    }
    forall i | 0 <= i < |b| ensures b[i].status == Draft && BaseOf(b[i]) in bases {
      assert b[i] in multiset(a);
    }
  }

  lemma SameAdditions(r: Registry, p: seq<Document>, q: seq<Document>)
    requires r.documents == map[] && multiset(p) == multiset(q) && NonDecreasing(p) && NonDecreasing(q)
    ensures AddVersions(r, p).Done? == AddVersions(r, q).Done?
    ensures AddVersions(r, p).Done? ==> AddVersions(r, p) == AddVersions(r, q)
  {
    assert [] + p == p && [] + q == q;
    AddAllExactly(r, [], p);
    AddAllExactly(r, [], q);
    if Acceptable(r.bases, p) {
      SameDocuments(r.bases, p, q);
      assert AddVersions(r, p).registry.documents == AddVersions(r, q).registry.documents;
    } else if Acceptable(r.bases, q) {
      SameDocuments(r.bases, q, p);
    }
  }

  /** Documents may be supplied to the constructor in any order: it succeeds for all orders of the same
      documents or for none, and the resulting registry is the same. */
  lemma LoadOrderIndependent(bases: seq<KnowledgeBase>, a: seq<Document>, b: seq<Document>, active: seq<ActiveSelection>)
    requires multiset(a) == multiset(b)
    ensures Loaded(bases, a, active).Done? == Loaded(bases, b, active).Done?
    ensures Loaded(bases, a, active).Done? ==> Loaded(bases, a, active) == Loaded(bases, b, active)
  {
    if AddBases(EMPTY, bases).Done? {
      OnlyBases(EMPTY, bases);
      SortedByVersion(a);
      SortedByVersion(b);
      SameAdditions(AddBases(EMPTY, bases).registry, ByVersion(a), ByVersion(b));
    }
  }

  lemma {:induction false} OnlyBases(r: Registry, bases: seq<KnowledgeBase>)
    requires AddBases(r, bases).Done?
    ensures AddBases(r, bases).registry == r.(bases := AddBases(r, bases).registry.bases)
    decreases bases
  {
    if bases != [] {
      OnlyBases(AddBase(r, bases[0]).registry, bases[1..]);
    }
  }

  // ----- One call at a time -----

  /** A transition goes through exactly from draft to published and from published to archived, of a version
      that exists; publishing archives what was published before. */
  lemma TransitionExactly(r: Registry, key: DocumentKey, v: int, status: Status)
    ensures var (versions, change) := (if key in r.documents then r.documents[key] else [], Transition(r, key, v, status));
      if !(1 <= v <= |versions|) then change == Refused(UnknownVersion)
      else if !((versions[v - 1].status == Draft && status == Published) || (versions[v - 1].status == Published && status == Archived))
      then change == Refused(InvalidTransition)
      else
        && change.Done?
        && change.registry == r.(documents := change.registry.documents)
        && change.registry.documents.Keys == r.documents.Keys
        && (forall k :: k in r.documents && k != key ==> change.registry.documents[k] == r.documents[k])
        && |change.registry.documents[key]| == |versions|
        && forall i :: 0 <= i < |versions| ==>
             change.registry.documents[key][i] ==
               (if i == v - 1 then versions[i].(status := status)
                else if status == Published && versions[i].status == Published then versions[i].(status := Archived)
                else versions[i])
  {
  }

  /** A base is selected for a campaign when it exists, and for this campaign only. */
  lemma SelectionExactly(r: Registry, s: ActiveSelection)
    ensures Select(r, s) ==
      if (s.businessId, s.baseId) in r.bases then Done(r.(selections := r.selections[(s.businessId, s.campaignId) := s]))
      else Refused(UnknownBase)
  {
  }

  /** A new version is taken exactly when its base exists, its id is new in the base, its number is the next
      one and it is a draft; the first of these that fails is the error. */
  lemma AdditionExactly(r: Registry, d: Document)
    ensures var key := DocumentKey(d.businessId, d.baseId, d.documentId);
      var (versions, change) := (if key in r.documents then r.documents[key] else [], AddVersion(r, d));
      var used := exists k, i :: k in r.documents && k.businessId == d.businessId && k.baseId == d.baseId
                                 && 0 <= i < |r.documents[k]| && r.documents[k][i].versionId == d.versionId;
      if (d.businessId, d.baseId) !in r.bases then change == Refused(UnknownBase)
      else if used then change == Refused(DuplicateVersionId)
      else if d.version != |versions| + 1 then change == Refused(WrongVersion)
      else if d.status != Draft then change == Refused(NotDraft)
      else change == Done(r.(documents := r.documents[key := versions + [d]]))
  {
  }

  /** A base is taken when its key is new. */
  lemma BaseExactly(r: Registry, b: KnowledgeBase)
    ensures AddBase(r, b) ==
      if (b.businessId, b.baseId) in r.bases then Refused(DuplicateBase)
      else Done(r.(bases := r.bases[(b.businessId, b.baseId) := b]))
  {
  }
}
