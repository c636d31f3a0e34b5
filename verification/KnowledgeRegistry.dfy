/** The in-memory registry of versioned knowledge documents (app/knowledge/registry.py). */
module KnowledgeRegistry {
  import opened Wrappers

  datatype Status = Draft | Published | Archived

  datatype KnowledgeBase = KnowledgeBase(businessId: string, baseId: string, name: string)

  /** One version of a document; `metadata` is everything the registry never looks at. */
  datatype Document = Document(
    businessId: string,
    baseId: string,
    documentId: string,
    versionId: string,
    version: int,
    status: Status,
    metadata: string)

  datatype ActiveSelection = ActiveSelection(businessId: string, campaignId: string, baseId: string)

  type BaseKey = (string, string)

  datatype DocumentKey = DocumentKey(businessId: string, baseId: string, documentId: string)

  function KeyOf(d: Document): DocumentKey { DocumentKey(d.businessId, d.baseId, d.documentId) }

  function BaseOf(d: Document): BaseKey { (d.businessId, d.baseId) }

  datatype Registry = Registry(
    bases: map<BaseKey, KnowledgeBase>,
    documents: map<DocumentKey, seq<Document>>,
    selections: map<(string, string), ActiveSelection>)

  const EMPTY := Registry(map[], map[], map[])

  datatype RegistryError =
    | DuplicateBase | UnknownBase | DuplicateVersionId | WrongVersion | NotDraft | UnknownVersion | InvalidTransition

  datatype Change = Done(registry: Registry) | Refused(error: RegistryError)

  function Versions(r: Registry, key: DocumentKey): seq<Document> {
    if key in r.documents then r.documents[key] else []
  }

  predicate VersionIdUsed(documents: map<DocumentKey, seq<Document>>, base: BaseKey, versionId: string) {
    exists key | key in documents :: (key.businessId, key.baseId) == base
      && exists i | 0 <= i < |documents[key]| :: documents[key][i].versionId == versionId
  }

  function AddBase(r: Registry, b: KnowledgeBase): Change {
    if (b.businessId, b.baseId) in r.bases then Refused(DuplicateBase)
    else Done(r.(bases := r.bases[(b.businessId, b.baseId) := b]))
  }

  function AddVersion(r: Registry, d: Document): Change {
    if BaseOf(d) !in r.bases then Refused(UnknownBase)
    else if VersionIdUsed(r.documents, BaseOf(d), d.versionId) then Refused(DuplicateVersionId)
    else if d.version != |Versions(r, KeyOf(d))| + 1 then Refused(WrongVersion)
    else if d.status != Draft then Refused(NotDraft)
    else Done(r.(documents := r.documents[KeyOf(d) := Versions(r, KeyOf(d)) + [d]]))
  }

  predicate Legal(from: Status, to: Status) {
    (from == Draft && to == Published) || (from == Published && to == Archived)
  }

  function Retired(d: Document): Document { if d.status == Published then d.(status := Archived) else d }

  /** The versions of one document after version `v` has moved to `status`: publishing retires the others. */
  function Moved(versions: seq<Document>, v: int, status: Status): seq<Document>
    requires 1 <= v <= |versions|
  {
    seq(|versions|, i requires 0 <= i < |versions| =>
      if i == v - 1 then versions[i].(status := status)
      else if status == Published then Retired(versions[i])
      else versions[i])
  }

  function Transition(r: Registry, key: DocumentKey, v: int, status: Status): Change {
    if !(1 <= v <= |Versions(r, key)|) then Refused(UnknownVersion)
    else if !Legal(Versions(r, key)[v - 1].status, status) then Refused(InvalidTransition)
    else Done(r.(documents := r.documents[key := Moved(Versions(r, key), v, status)]))
  }

  function Select(r: Registry, s: ActiveSelection): Change {
    if (s.businessId, s.baseId) !in r.bases then Refused(UnknownBase)
    else Done(r.(selections := r.selections[(s.businessId, s.campaignId) := s]))
  }

  // ----- Loading -----

  /** Behind every document with a version not above its own, as a stable sort leaves it. */
  function Insert(q: seq<Document>, d: Document): (r: seq<Document>)
    ensures multiset(r) == multiset(q) + multiset{d}
  {
    if q == [] || q[|q| - 1].version <= d.version then q + [d]
    else
      var last := q[|q| - 1];
      assert q == q[..|q| - 1] + [last];
      Insert(q[..|q| - 1], d) + [last]
  }

  function ByVersion(docs: seq<Document>): (r: seq<Document>)
    ensures multiset(r) == multiset(docs)
  {
    if docs == [] then []
    else
      assert docs == docs[..|docs| - 1] + [docs[|docs| - 1]];
      Insert(ByVersion(docs[..|docs| - 1]), docs[|docs| - 1])
  }

  function AddBases(r: Registry, bases: seq<KnowledgeBase>): Change
    decreases |bases|
  {
    if bases == [] then Done(r)
    else
      match AddBase(r, bases[0])
      case Refused(e) => Refused(e)
      case Done(r') => AddBases(r', bases[1..])
  }

  function AddVersions(r: Registry, docs: seq<Document>): Change
    decreases |docs|
  {
    if docs == [] then Done(r)
    else
      match AddVersion(r, docs[0])
      case Refused(e) => Refused(e)
      case Done(r') => AddVersions(r', docs[1..])
  }

  function SelectAll(r: Registry, selections: seq<ActiveSelection>): Change
    decreases |selections|
  {
    if selections == [] then Done(r)
    else
      match Select(r, selections[0])
      case Refused(e) => Refused(e)
      case Done(r') => SelectAll(r', selections[1..])
  }

  /** What the constructor makes of its arguments, or why it raises. */
  function Loaded(bases: seq<KnowledgeBase>, docs: seq<Document>, selections: seq<ActiveSelection>): Change {
    match AddBases(EMPTY, bases)
    case Refused(e) => Refused(e)
    case Done(r) =>
      match AddVersions(r, ByVersion(docs))
      case Refused(e) => Refused(e)
      case Done(r') => SelectAll(r', selections)
  }

  // ----- The object -----

  class DocumentRegistry {
    var bases: map<BaseKey, KnowledgeBase>
    var documents: map<DocumentKey, seq<Document>>
    var selections: map<(string, string), ActiveSelection>

    ghost function Now(): Registry
      reads this
    {
      Registry(bases, documents, selections)
    }

    constructor ()
      ensures Now() == EMPTY
    {
      bases, documents, selections := map[], map[], map[];
    }

    /** The constructor's loops; a registry that refused a value is not used. */
    method Load(knowledgeBases: seq<KnowledgeBase>, docs: seq<Document>, active: seq<ActiveSelection>)
      returns (error: Option<RegistryError>)
      requires Now() == EMPTY
      modifies this
      ensures match Loaded(knowledgeBases, docs, active)
              case Done(r) => error.None? && Now() == r
              case Refused(e) => error == Some(e)
    {
      var i := 0;
      while i < |knowledgeBases|
        invariant 0 <= i <= |knowledgeBases|
        invariant AddBases(EMPTY, knowledgeBases) == AddBases(Now(), knowledgeBases[i..])
      {
        error := AddKnowledgeBase(knowledgeBases[i]);
        if error.Some? { return; }
        assert knowledgeBases[i..][1..] == knowledgeBases[i + 1..];
        i := i + 1;
      }
      ghost var based := Now();
      var sorted := ByVersion(docs);
      i := 0;
      while i < |sorted|
        invariant 0 <= i <= |sorted|
        invariant AddVersions(based, sorted) == AddVersions(Now(), sorted[i..])
      {
        error := AddDocumentVersion(sorted[i]);
        if error.Some? { return; }
        assert sorted[i..][1..] == sorted[i + 1..];
        i := i + 1;
      }
      ghost var filled := Now();
      i := 0;
      while i < |active|
        invariant 0 <= i <= |active|
        invariant SelectAll(filled, active) == SelectAll(Now(), active[i..])
      {
        error := SelectActive(active[i]);
        if error.Some? { return; }
        assert active[i..][1..] == active[i + 1..];
        i := i + 1;
      }
      error := None;
    }

    method AddKnowledgeBase(value: KnowledgeBase) returns (error: Option<RegistryError>)
      modifies this
      ensures match AddBase(old(Now()), value)
              case Done(r) => error.None? && Now() == r
              case Refused(e) => error == Some(e) && Now() == old(Now())
    {
      var key := (value.businessId, value.baseId);
      if key in bases { return Some(DuplicateBase); }
      bases := bases[key := value];
      error := None;
    }

    method AddDocumentVersion(value: Document) returns (error: Option<RegistryError>)
      modifies this
      ensures match AddVersion(old(Now()), value)
              case Done(r) => error.None? && Now() == r
              case Refused(e) => error == Some(e) && Now() == old(Now())
    {
      if BaseOf(value) !in bases { return Some(UnknownBase); }
      var key := KeyOf(value);
      var versions := if key in documents then documents[key] else [];
      if VersionIdUsed(documents, BaseOf(value), value.versionId) { return Some(DuplicateVersionId); }
      if value.version != |versions| + 1 { return Some(WrongVersion); }
      if value.status != Draft { return Some(NotDraft); }
      documents := documents[key := versions + [value]];
      error := None;
    }

    method TransitionDocument(key: DocumentKey, version: int, status: Status) returns (error: Option<RegistryError>)
      modifies this
      ensures match Transition(old(Now()), key, version, status)
              case Done(r) => error.None? && Now() == r
              case Refused(e) => error == Some(e) && Now() == old(Now())
    {
      if key !in documents { return Some(UnknownVersion); }
      var versions := documents[key];
      if !(1 <= version <= |versions|) { return Some(UnknownVersion); }
      var current := versions[version - 1];
      if !Legal(current.status, status) { return Some(InvalidTransition); }
      var values := versions;
      if status == Published {
        var i := 0;
        while i < |values|
          invariant 0 <= i <= |values| == |versions|
          invariant forall j :: 0 <= j < |values| ==> values[j] == if j < i then Retired(versions[j]) else versions[j]
        {
          if values[i].status == Published {
            values := values[i := values[i].(status := Archived)];
          }
          i := i + 1;
        }
      }
      values := values[version - 1 := current.(status := status)];
      assert values == Moved(versions, version, status);
      documents := documents[key := values];
      error := None;
    }

    method SelectActive(selection: ActiveSelection) returns (error: Option<RegistryError>)
      modifies this
      ensures match Select(old(Now()), selection)
              case Done(r) => error.None? && Now() == r
              case Refused(e) => error == Some(e) && Now() == old(Now())
    {
      if (selection.businessId, selection.baseId) !in bases { return Some(UnknownBase); }
      selections := selections[(selection.businessId, selection.campaignId) := selection];
      error := None;
    }
  }
}
