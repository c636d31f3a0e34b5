/** The rewrite of a JSON schema for a provider's strict mode (app/llm/groq_provider.py), and what it does to
    the values a schema accepts. Validity follows JSON Schema 2020-12: `type` as in section 6.1.1 of JSON
    Schema Validation, `anyOf` and `additionalProperties` as in sections 10.2.1.2 and 10.3.2.3 of JSON
    Schema Core. */
module GroqSchema {
  import opened Wrappers

  /** A JSON value; an object keeps its keys in the order they were set. */
  datatype Json =
    | Null
    | Boolean(b: bool)
    | Number(r: real)
    | Text(s: string)
    | Array(elements: seq<Json>)
    | Object(fields: seq<Field>)

  datatype Field = Field(key: string, value: Json)

  // ----- Dictionaries -----

  function Lookup(fields: seq<Field>, key: string): Option<Json> {
    if fields == [] then None
    else if fields[0].key == key then Some(fields[0].value)
    else Lookup(fields[1..], key)
  }

  function Without(fields: seq<Field>, key: string): seq<Field> {
    if fields == [] then []
    else (if fields[0].key == key then [] else [fields[0]]) + Without(fields[1..], key)
  }

  function With(fields: seq<Field>, key: string, value: Json): seq<Field> {
    if fields == [] then [Field(key, value)]
    else if fields[0].key == key then [Field(key, value)] + fields[1..]
    else [fields[0]] + With(fields[1..], key, value)
  }

  // ----- The size that the rewrite decreases -----

  function Size(j: Json): nat {
    match j
    case Array(elements) => 1 + SizeOfAll(elements)
    case Object(fields) => 1 + SizeOfFields(fields)
    case _ => 1
  }

  function SizeOfAll(elements: seq<Json>): nat {
    if elements == [] then 0 else 1 + Size(elements[0]) + SizeOfAll(elements[1..])
  }

  function SizeOfFields(fields: seq<Field>): nat {
    if fields == [] then 0 else 1 + Size(fields[0].value) + SizeOfFields(fields[1..])
  }

  lemma {:induction false} ElementSmaller(elements: seq<Json>, i: nat)
    requires i < |elements|
    ensures Size(elements[i]) < SizeOfAll(elements)
  {
    if i > 0 { ElementSmaller(elements[1..], i - 1); }
  }

  lemma {:induction false} FieldSmaller(fields: seq<Field>, i: nat)
    requires i < |fields|
    ensures Size(fields[i].value) < SizeOfFields(fields)
  {
    if i > 0 { FieldSmaller(fields[1..], i - 1); }
  }

  lemma {:induction false} LookupSmaller(fields: seq<Field>, key: string)
    requires Lookup(fields, key).Some?
    ensures Size(Lookup(fields, key).value) < SizeOfFields(fields)
  {
    if fields[0].key != key { LookupSmaller(fields[1..], key); }
  }

  lemma {:induction false} WithoutSmaller(fields: seq<Field>, key: string)
    ensures SizeOfFields(Without(fields, key)) + (if Lookup(fields, key).Some? then 1 + Size(Lookup(fields, key).value) else 0)
         <= SizeOfFields(fields)
  {
    if fields != [] {
      WithoutSmaller(fields[1..], key);
      if fields[0].key == key {
        assert Without(fields, key) == Without(fields[1..], key);
      } else {
        assert Without(fields, key)[1..] == Without(fields[1..], key);
      }
    }
  }

  lemma {:induction false} WithSize(fields: seq<Field>, key: string, value: Json)
    ensures SizeOfFields(With(fields, key, value)) <= SizeOfFields(fields) + 1 + Size(value)
  {
    if fields != [] {
      if fields[0].key == key {
        assert With(fields, key, value)[1..] == fields[1..];
      } else {
        WithSize(fields[1..], key, value);
        assert With(fields, key, value)[1..] == With(fields[1..], key, value);
      }
    }
  }

  // ----- The rewrite -----

  const NUMBER := Object([Field("type", Text("number"))])

  function TypeOf(branch: Json): Option<Json>
    requires branch.Object?
  {
    Lookup(branch.fields, "type")
  }

  predicate Numeric(branch: Json)
    requires branch.Object?
  {
    TypeOf(branch) == Some(Text("integer")) || TypeOf(branch) == Some(Text("number"))
  }

  predicate AllObjects(branches: seq<Json>) { forall i :: 0 <= i < |branches| ==> branches[i].Object? }

  predicate HasType(branches: seq<Json>, name: string)
    requires AllObjects(branches)
  {
    exists i | 0 <= i < |branches| :: TypeOf(branches[i]) == Some(Text(name))
  }

  /** A union with an integer branch and a number branch. */
  predicate Ambiguous(fields: seq<Field>) {
    var anyOf := Lookup(fields, "anyOf");
    && anyOf.Some? && anyOf.value.Array? && AllObjects(anyOf.value.elements)
    && HasType(anyOf.value.elements, "integer") && HasType(anyOf.value.elements, "number")
  }

  function Kept(branches: seq<Json>): seq<Json>
    requires AllObjects(branches)
  {
    if branches == [] then []
    else (if Numeric(branches[0]) then [] else [branches[0]]) + Kept(branches[1..])
  }

  lemma {:induction false} KeptSmaller(branches: seq<Json>)
    requires AllObjects(branches)
    ensures SizeOfAll(Kept(branches)) <= SizeOfAll(branches)
    ensures (exists i :: 0 <= i < |branches| && Numeric(branches[i])) ==> SizeOfAll(Kept(branches)) + 4 <= SizeOfAll(branches)
  {
    if branches != [] {
      KeptSmaller(branches[1..]);
      if Numeric(branches[0]) {
        assert Kept(branches) == Kept(branches[1..]);
        NumericSize(branches[0]);
      } else {
        assert Kept(branches)[1..] == Kept(branches[1..]);
        if i :| 0 <= i < |branches| && Numeric(branches[i]) {
          assert branches[1..][i - 1] == branches[i];
        }
      }
    }
  }

  lemma NumericSize(branch: Json)
    requires branch.Object? && Numeric(branch)
    ensures Size(branch) >= 3
  {
    var fields := branch.fields;
    assert fields != [] && SizeOfFields(fields) == 1 + Size(fields[0].value) + SizeOfFields(fields[1..]);
  }

  function Collapsed(fields: seq<Field>): seq<Json>
    requires Ambiguous(fields)
  {
    [NUMBER] + Kept(Lookup(fields, "anyOf").value.elements)
  }

  lemma AmbiguousSizes(fields: seq<Field>)
    requires Ambiguous(fields)
    ensures SizeOfFields(With(Without(fields, "anyOf"), "type", Text("number"))) < SizeOfFields(fields)
    ensures SizeOfFields(With(Without(fields, "anyOf"), "anyOf", Array(Collapsed(fields)))) <= SizeOfFields(fields)
  {
    var branches := Lookup(fields, "anyOf").value.elements;
    var i :| 0 <= i < |branches| && TypeOf(branches[i]) == Some(Text("integer"));
    assert Numeric(branches[i]);
    KeptSmaller(branches);
    WithoutSmaller(fields, "anyOf");
    WithSize(Without(fields, "anyOf"), "type", Text("number"));
    WithSize(Without(fields, "anyOf"), "anyOf", Array(Collapsed(fields)));
    assert Collapsed(fields)[1..] == Kept(branches);
    assert SizeOfFields(NUMBER.fields) == 2 + SizeOfFields(NUMBER.fields[1..]) && NUMBER.fields[1..] == [];
    assert Size(NUMBER) == 3 && SizeOfAll(Collapsed(fields)) == 4 + SizeOfAll(Kept(branches));
  }

  function Seal(fields: seq<Field>): seq<Field> {
    if Lookup(fields, "type") == Some(Text("object")) && Lookup(fields, "additionalProperties").None?
    then fields + [Field("additionalProperties", Boolean(false))] else fields
  }

  /** It terminates, although a collapsed union sends it back to a dictionary rebuilt on the way. */
  function Rewrite(schema: Json): Json
    decreases Size(schema), 1
  {
    match schema
    case Array(elements) => Array(RewriteAll(elements))
    case Object(fields) =>
      if Ambiguous(fields) then
        AmbiguousSizes(fields);
        if |Collapsed(fields)| == 1 then Rewrite(Object(With(Without(fields, "anyOf"), "type", Text("number"))))
        else Object(RewriteFields(With(Without(fields, "anyOf"), "anyOf", Array(Collapsed(fields)))))
      else Object(Seal(RewriteFields(fields)))
    case _ => schema
  }

  function RewriteAll(elements: seq<Json>): (r: seq<Json>)
    ensures |r| == |elements|
    decreases 1 + SizeOfAll(elements), 0
  {
    if elements == [] then [] else [Rewrite(elements[0])] + RewriteAll(elements[1..])
  }

  function RewriteFields(fields: seq<Field>): (r: seq<Field>)
    ensures |r| == |fields|
    decreases 1 + SizeOfFields(fields), 0
  {
    if fields == [] then [] else [Field(fields[0].key, Rewrite(fields[0].value))] + RewriteFields(fields[1..])
  }

  // ----- Validity -----

  predicate NamesType(name: string, v: Json) {
    match v
    case Null => name == "null"
    case Boolean(_) => name == "boolean"
    case Number(r) => name == "number" || (name == "integer" && r.Floor as real == r)
    case Text(_) => name == "string"
    case Array(_) => name == "array"
    case Object(_) => name == "object"
  }

  predicate TypeAllows(t: Option<Json>, v: Json) {
    match t
    case Some(Text(name)) => NamesType(name, v)
    case Some(Array(names)) => exists i | 0 <= i < |names| :: names[i].Text? && NamesType(names[i].s, v)
    case _ => true
  }

  /** How the silence of an object schema about additional members is read. `Literal` is the standard's own
      reading and lets them in; `Declared` refuses them; `Closed` refuses them except next to an ambiguous
      union, where the rewrite says nothing either. */
  datatype Reading = Literal | Closed | Declared

  predicate RefusesExtras(fields: seq<Field>, reading: Reading) {
    || Lookup(fields, "additionalProperties") == Some(Boolean(false))
    || (&& (reading.Declared? || (reading.Closed? && !Ambiguous(fields)))
        && Lookup(fields, "type") == Some(Text("object")) && Lookup(fields, "additionalProperties").None?)
  }

  function Properties(fields: seq<Field>): seq<Field> {
    match Lookup(fields, "properties")
    case Some(Object(ps)) => ps
    case _ => []
  }

  predicate NoExtras(fields: seq<Field>, v: Json) {
    v.Object? ==> forall i :: 0 <= i < |v.fields| ==> Lookup(Properties(fields), v.fields[i].key).Some?
  }

  /** `v` is valid under `schema`. */
  predicate Accepts(schema: Json, v: Json, reading: Reading)
    decreases Size(schema), 1
  {
    match schema
    case Boolean(b) => b
    case Object(fields) =>
      && TypeAllows(Lookup(fields, "type"), v)
      && (RefusesExtras(fields, reading) ==> NoExtras(fields, v))
      && AcceptsUnion(fields, v, reading)
      && AcceptsMembers(fields, v, reading)
      && AcceptsItems(fields, v, reading)
    case _ => true
  }

  predicate AcceptsUnion(fields: seq<Field>, v: Json, reading: Reading)
    decreases 1 + SizeOfFields(fields), 0
  {
    match Lookup(fields, "anyOf")
    case Some(Array(branches)) =>
      LookupSmaller(fields, "anyOf");
      exists i | 0 <= i < |branches| :: (ElementSmaller(branches, i); Accepts(branches[i], v, reading))
    case _ => true
  }

  predicate AcceptsMembers(fields: seq<Field>, v: Json, reading: Reading)
    decreases 1 + SizeOfFields(fields), 0
  {
    v.Object? ==>
      match Lookup(fields, "properties")
      case Some(Object(ps)) =>
        LookupSmaller(fields, "properties");
        forall i | 0 <= i < |v.fields| && Lookup(ps, v.fields[i].key).Some? ::
          (LookupSmaller(ps, v.fields[i].key); Accepts(Lookup(ps, v.fields[i].key).value, v.fields[i].value, reading))
      case _ => true
  }

  predicate AcceptsItems(fields: seq<Field>, v: Json, reading: Reading)
    decreases 1 + SizeOfFields(fields), 0
  {
    v.Array? ==>
      match Lookup(fields, "items")
      case Some(items) =>
        LookupSmaller(fields, "items");
        forall i | 0 <= i < |v.elements| :: Accepts(items, v.elements[i], reading)
      case _ => true
  }

  // ----- Well-formed schemas -----

  /** A schema whose keywords of this fragment have the shape the standard gives them. */
  predicate WellFormed(schema: Json)
    decreases Size(schema), 1
  {
    match schema
    case Boolean(_) => true
    case Object(fields) => WellFormedKeywords(fields)
    case _ => false
  }

  predicate WellFormedKeywords(fields: seq<Field>)
    decreases 1 + SizeOfFields(fields), 0
  {
    && (match Lookup(fields, "anyOf")
        case None => true
        case Some(Array(branches)) =>
          LookupSmaller(fields, "anyOf");
          forall i | 0 <= i < |branches| :: (ElementSmaller(branches, i); WellFormed(branches[i]))
        case _ => false)
    && (match Lookup(fields, "properties")
        case None => true
        case Some(Object(ps)) =>
          LookupSmaller(fields, "properties");
          forall i | 0 <= i < |ps| :: (FieldSmaller(ps, i); WellFormed(ps[i].value))
        case _ => false)
    && (match Lookup(fields, "items")
        case None => true
        case Some(items) => LookupSmaller(fields, "items"); WellFormed(items))
  }

  const ZERO := Number(0.0)
  const HALF := Number(0.5)

  /** A number passes the collapsed node: its type is overwritten, or was there before and allows it. */
  predicate LetThrough(fields: seq<Field>, number: Json)
    requires Ambiguous(fields)
  {
    |Collapsed(fields)| == 1 || TypeAllows(Lookup(fields, "type"), number)
  }

  /** Collapsing the union of a node lets no number in that the node refused. An integer and one number that
      is none are enough to look at. */
  predicate NumbersSettled(fields: seq<Field>)
    requires Ambiguous(fields)
  {
    forall number | number in [ZERO, HALF] :: LetThrough(fields, number) ==> Accepts(Object(fields), number, Closed)
  }

  /** Every ambiguous union of the schema is settled. The branches that a collapse removes do not matter, nor
      does anything below a node that becomes a plain number. */
  predicate Settled(schema: Json)
    requires WellFormed(schema)
    decreases Size(schema), 2
  {
    schema.Object? ==>
      && (Ambiguous(schema.fields) ==> NumbersSettled(schema.fields))
      && SettledBelow(schema.fields)
  }

  predicate SettledBelow(fields: seq<Field>)
    requires WellFormedKeywords(fields)
    decreases 1 + SizeOfFields(fields), 1
  {
    (Ambiguous(fields) ==> |Collapsed(fields)| > 1) ==> SettledKeywords(fields)
  }

  predicate SettledKeywords(fields: seq<Field>)
    requires WellFormedKeywords(fields)
    decreases 1 + SizeOfFields(fields), 0
  {
    && (match Lookup(fields, "anyOf")
        case Some(Array(branches)) =>
          LookupSmaller(fields, "anyOf");
          forall i | 0 <= i < |branches| && !(Ambiguous(fields) && Numeric(branches[i])) ::
            (ElementSmaller(branches, i); Settled(branches[i]))
        case _ => true)
    && (match Lookup(fields, "properties")
        case Some(Object(ps)) =>
          LookupSmaller(fields, "properties");
          forall i | 0 <= i < |ps| :: (FieldSmaller(ps, i); Settled(ps[i].value))
        case _ => true)
    && (match Lookup(fields, "items")
        case Some(items) => LookupSmaller(fields, "items"); Settled(items)
        case _ => true)
  }

  // ----- Lookups through the rewrite -----

  lemma {:induction false} LookupRewritten(fields: seq<Field>, key: string)
    ensures Lookup(RewriteFields(fields), key) ==
            if Lookup(fields, key).None? then None else Some(Rewrite(Lookup(fields, key).value))
  {
    if fields != [] {
      LookupRewritten(fields[1..], key);
      assert RewriteFields(fields)[1..] == RewriteFields(fields[1..]);
    }
  }

  lemma {:induction false} LookupAppended(fields: seq<Field>, f: Field, key: string)
    ensures Lookup(fields + [f], key) ==
            if Lookup(fields, key).Some? then Lookup(fields, key) else if f.key == key then Some(f.value) else None
  {
    if fields == [] {
      assert fields + [f] == [f];
    } else {
      assert (fields + [f])[1..] == fields[1..] + [f];
      LookupAppended(fields[1..], f, key);
    }
  }

  lemma {:induction false} LookupWithout(fields: seq<Field>, gone: string, key: string)
    ensures Lookup(Without(fields, gone), key) == if key == gone then None else Lookup(fields, key)
  {
    if fields != [] {
      LookupWithout(fields[1..], gone, key);
      if fields[0].key == gone {
        assert Without(fields, gone) == Without(fields[1..], gone);
      } else {
        assert Without(fields, gone)[1..] == Without(fields[1..], gone);
      }
    }
  }

  lemma {:induction false} LookupWith(fields: seq<Field>, changed: string, value: Json, key: string)
    ensures Lookup(With(fields, changed, value), key) == if key == changed then Some(value) else Lookup(fields, key)
  {
    if fields != [] {
      if fields[0].key == changed {
        assert With(fields, changed, value)[1..] == fields[1..];
      } else {
        LookupWith(fields[1..], changed, value, key);
        assert With(fields, changed, value)[1..] == With(fields[1..], changed, value);
      }
    }
  }

  lemma {:induction false} RewrittenAt(elements: seq<Json>, i: nat)
    requires i < |elements|
    ensures RewriteAll(elements)[i] == Rewrite(elements[i])
  {
    if i > 0 { RewrittenAt(elements[1..], i - 1); }
  }

  lemma {:induction false} LookupMember(fields: seq<Field>, key: string)
    ensures Lookup(fields, key).Some? ==> exists i :: 0 <= i < |fields| && fields[i].value == Lookup(fields, key).value
  {
    if fields != [] {
      if fields[0].key == key {
        assert fields[0].value == Lookup(fields, key).value;
      } else {
        LookupMember(fields[1..], key);
        if Lookup(fields, key).Some? {
          var i :| 0 <= i < |fields[1..]| && fields[1..][i].value == Lookup(fields, key).value;
          assert fields[i + 1].value == Lookup(fields, key).value;
        }
      }
    }
  }

  lemma {:induction false} RewriteKeepsShape(schema: Json)
    ensures Rewrite(schema).Object? == schema.Object? && Rewrite(schema).Array? == schema.Array?
    ensures !schema.Object? && !schema.Array? ==> Rewrite(schema) == schema
    decreases Size(schema)
  {
    if schema.Object? && Ambiguous(schema.fields) && |Collapsed(schema.fields)| == 1 {
      AmbiguousSizes(schema.fields);
      RewriteKeepsShape(Object(With(Without(schema.fields, "anyOf"), "type", Text("number"))));
    }
  }

  lemma TypeRewritten(t: Json, v: Json)
    ensures TypeAllows(Some(Rewrite(t)), v) == TypeAllows(Some(t), v)
  {
    RewriteKeepsShape(t);
    if t.Array? {
      forall i | 0 <= i < |t.elements|
        ensures RewriteAll(t.elements)[i].Text? == t.elements[i].Text?
        ensures t.elements[i].Text? ==> RewriteAll(t.elements)[i] == t.elements[i]
      {
        RewrittenAt(t.elements, i);
        RewriteKeepsShape(t.elements[i]);
      }
    }
  }

  lemma SchemasAreNoKeywords(ps: seq<Field>, key: string)
    requires forall i :: 0 <= i < |ps| ==> WellFormed(ps[i].value)
    ensures Lookup(ps, key).Some? ==> !Lookup(ps, key).value.Array? && !Lookup(ps, key).value.Text?
    ensures Lookup(RewriteFields(ps), key).Some? ==> !Lookup(RewriteFields(ps), key).value.Text?
  {
    LookupMember(ps, key);
    LookupRewritten(ps, key);
    if Lookup(ps, key).Some? {
      RewriteKeepsShape(Lookup(ps, key).value);
    }
  }

  /** The members of `properties` are schemas, so the rewrite of the whole is the rewrite of each. */
  lemma PropertiesRewritten(ps: seq<Field>)
    requires forall i :: 0 <= i < |ps| ==> WellFormed(ps[i].value)
    ensures Rewrite(Object(ps)) == Object(RewriteFields(ps))
  {
    SchemasAreNoKeywords(ps, "anyOf");
    SchemasAreNoKeywords(ps, "type");
  }

  // ----- What the rewrite keeps -----

  /** Two dictionaries that say the same of `v`, but for what they say of extra members and of unions: the
      second is the rewrite of the first. */
  ghost predicate SameKeywords(fields: seq<Field>, out: seq<Field>) {
    forall key | key in {"type", "properties", "items"} ::
      Lookup(out, key) == Rewritten(Lookup(fields, key))
  }

  lemma LookupProperties(ps: seq<Field>, key: string)
    requires forall i :: 0 <= i < |ps| ==> WellFormed(ps[i].value)
    requires Lookup(ps, key).Some?
    ensures WellFormed(Lookup(ps, key).value)
    ensures (forall i :: 0 <= i < |ps| ==> Settled(ps[i].value)) ==> Settled(Lookup(ps, key).value)
  {
    LookupMember(ps, key);
  }

  lemma {:induction false} MembersKept(fields: seq<Field>, out: seq<Field>, v: Json)
    requires WellFormedKeywords(fields) && SameKeywords(fields, out)
    ensures AcceptsMembers(fields, v, Closed) ==> AcceptsMembers(out, v, Literal)
    ensures SettledKeywords(fields) && AcceptsMembers(out, v, Literal) ==> AcceptsMembers(fields, v, Closed)
    decreases 1 + SizeOfFields(fields), 0
  {
    if v.Object? && Lookup(fields, "properties").Some? {
      LookupSmaller(fields, "properties");
      var ps := Lookup(fields, "properties").value.fields;
      forall i | 0 <= i < |ps| ensures WellFormed(ps[i].value) { FieldSmaller(ps, i); }
      if SettledKeywords(fields) {
        forall i | 0 <= i < |ps| ensures Settled(ps[i].value) { FieldSmaller(ps, i); }
      }
      PropertiesRewritten(ps);
      assert Lookup(out, "properties") == Some(Object(RewriteFields(ps)));
      forall i | 0 <= i < |v.fields|
        ensures Lookup(RewriteFields(ps), v.fields[i].key).Some? == Lookup(ps, v.fields[i].key).Some?
        ensures Lookup(ps, v.fields[i].key).Some? ==>
          var s := Lookup(ps, v.fields[i].key).value;
          && Lookup(RewriteFields(ps), v.fields[i].key).value == Rewrite(s)
          && (Accepts(s, v.fields[i].value, Closed) ==> Accepts(Rewrite(s), v.fields[i].value, Literal))
          && (SettledKeywords(fields) && Accepts(Rewrite(s), v.fields[i].value, Literal) ==> Accepts(s, v.fields[i].value, Closed))
      {
        LookupRewritten(ps, v.fields[i].key);
        if Lookup(ps, v.fields[i].key).Some? {
          LookupProperties(ps, v.fields[i].key);
          LookupSmaller(ps, v.fields[i].key);
          RewritePreserves(Lookup(ps, v.fields[i].key).value, v.fields[i].value);
        }
      }
    }
  }

  lemma {:induction false} ItemsKept(fields: seq<Field>, out: seq<Field>, v: Json)
    requires WellFormedKeywords(fields) && SameKeywords(fields, out)
    ensures AcceptsItems(fields, v, Closed) ==> AcceptsItems(out, v, Literal)
    ensures SettledKeywords(fields) && AcceptsItems(out, v, Literal) ==> AcceptsItems(fields, v, Closed)
    decreases 1 + SizeOfFields(fields), 0
  {
    if v.Array? && Lookup(fields, "items").Some? {
      LookupSmaller(fields, "items");
      var items := Lookup(fields, "items").value;
      assert Lookup(out, "items") == Some(Rewrite(items));
      forall i | 0 <= i < |v.elements|
        ensures Accepts(items, v.elements[i], Closed) ==> Accepts(Rewrite(items), v.elements[i], Literal)
        ensures SettledKeywords(fields) && Accepts(Rewrite(items), v.elements[i], Literal) ==> Accepts(items, v.elements[i], Closed)
      {
        RewritePreserves(items, v.elements[i]);
      }
    }
  }

  /** A union whose branches are all rewritten in place. */
  lemma {:induction false} UnionKept(fields: seq<Field>, out: seq<Field>, v: Json)
    requires WellFormedKeywords(fields)
    requires Lookup(out, "anyOf") == Rewritten(Lookup(fields, "anyOf"))
    ensures AcceptsUnion(fields, v, Closed) ==> AcceptsUnion(out, v, Literal)
    ensures !Ambiguous(fields) && SettledKeywords(fields) && AcceptsUnion(out, v, Literal) ==> AcceptsUnion(fields, v, Closed)
    decreases 1 + SizeOfFields(fields), 0
  {
    if Lookup(fields, "anyOf").Some? {
      LookupSmaller(fields, "anyOf");
      var branches := Lookup(fields, "anyOf").value.elements;
      assert Lookup(out, "anyOf") == Some(Array(RewriteAll(branches)));
      forall i | 0 <= i < |branches|
        ensures RewriteAll(branches)[i] == Rewrite(branches[i])
        ensures Accepts(branches[i], v, Closed) ==> Accepts(RewriteAll(branches)[i], v, Literal)
        ensures !Ambiguous(fields) && SettledKeywords(fields) && Accepts(RewriteAll(branches)[i], v, Literal)
                ==> Accepts(branches[i], v, Closed)
      {
        RewrittenAt(branches, i);
        ElementSmaller(branches, i);
        RewritePreserves(branches[i], v);
      }
    }
  }

  lemma ExtrasKept(fields: seq<Field>, out: seq<Field>, v: Json)
    requires WellFormedKeywords(fields) && SameKeywords(fields, out)
    ensures NoExtras(out, v) == NoExtras(fields, v)
  {
    if Lookup(fields, "properties").Some? {
      var ps := Lookup(fields, "properties").value.fields;
      LookupSmaller(fields, "properties");
      forall i | 0 <= i < |ps| ensures WellFormed(ps[i].value) { FieldSmaller(ps, i); }
      PropertiesRewritten(ps);
      if v.Object? {
        forall i | 0 <= i < |v.fields|
          ensures Lookup(Properties(out), v.fields[i].key).Some? == Lookup(Properties(fields), v.fields[i].key).Some?
        {
          LookupRewritten(ps, v.fields[i].key);
        }
      }
    }
  }

  lemma TypeKept(fields: seq<Field>, out: seq<Field>, v: Json)
    requires SameKeywords(fields, out)
    ensures TypeAllows(Lookup(out, "type"), v) == TypeAllows(Lookup(fields, "type"), v)
  {
    if Lookup(fields, "type").Some? {
      TypeRewritten(Lookup(fields, "type").value, v);
    }
  }

  function Rewritten(value: Option<Json>): Option<Json> {
    if value.None? then None else Some(Rewrite(value.value))
  }

  lemma SealLookup(fields: seq<Field>, key: string)
    ensures key != "additionalProperties" ==> Lookup(Seal(RewriteFields(fields)), key) == Rewritten(Lookup(fields, key))
    ensures Lookup(fields, key).Some? ==> Lookup(Seal(RewriteFields(fields)), key) == Rewritten(Lookup(fields, key))
    ensures Lookup(RewriteFields(fields), key) == Rewritten(Lookup(fields, key))
  {
    LookupRewritten(fields, key);
    LookupAppended(RewriteFields(fields), Field("additionalProperties", Boolean(false)), key);
  }

  lemma RewriteFixes(value: Json)
    ensures Rewrite(value) == Boolean(false) <==> value == Boolean(false)
    ensures Rewrite(value) == Text("object") <==> value == Text("object")
  {
    RewriteKeepsShape(value);
  }

  lemma SealRefuses(fields: seq<Field>)
    requires !Ambiguous(fields)
    ensures RefusesExtras(Seal(RewriteFields(fields)), Literal) == RefusesExtras(fields, Closed)
  {
    SealLookup(fields, "type");
    SealLookup(fields, "additionalProperties");
    LookupAppended(RewriteFields(fields), Field("additionalProperties", Boolean(false)), "additionalProperties");
    if Lookup(fields, "type").Some? { RewriteFixes(Lookup(fields, "type").value); }
    if Lookup(fields, "additionalProperties").Some? { RewriteFixes(Lookup(fields, "additionalProperties").value); }
  }

  /** Without an ambiguous union the rewrite only closes what the reading `Closed` closes. */
  lemma PlainShape(fields: seq<Field>)
    requires !Ambiguous(fields)
    ensures var out := Seal(RewriteFields(fields));
      && Rewrite(Object(fields)) == Object(out) && SameKeywords(fields, out)
      && Lookup(out, "anyOf") == Rewritten(Lookup(fields, "anyOf"))
      && RefusesExtras(out, Literal) == RefusesExtras(fields, Closed)
  {
    SealLookup(fields, "type");
    SealLookup(fields, "properties");
    SealLookup(fields, "items");
    SealLookup(fields, "anyOf");
    SealRefuses(fields);
  }

  lemma {:induction false} PlainPreserves(fields: seq<Field>, v: Json)
    requires WellFormedKeywords(fields) && !Ambiguous(fields)
    ensures Accepts(Object(fields), v, Closed) ==> Accepts(Rewrite(Object(fields)), v, Literal)
    ensures SettledKeywords(fields) && Accepts(Rewrite(Object(fields)), v, Literal) ==> Accepts(Object(fields), v, Closed)
    decreases 1 + SizeOfFields(fields), 1
  {
    var out := Seal(RewriteFields(fields));
    PlainShape(fields);
    TypeKept(fields, out, v);
    ExtrasKept(fields, out, v);
    UnionKept(fields, out, v);
    MembersKept(fields, out, v);
    ItemsKept(fields, out, v);
  }

  // ----- Collapsed unions -----

  lemma NumberAccepts(v: Json)
    requires v.Number?
    ensures Rewrite(NUMBER) == NUMBER && Accepts(NUMBER, v, Literal)
  {
    assert NUMBER.fields[1..] == [];
  }

  lemma NumberRefuses(v: Json)
    requires !v.Number?
    ensures !Accepts(Rewrite(NUMBER), v, Literal)
  {
    NumberAccepts(Number(0.0));
  }

  lemma NumericAccepts(branch: Json, v: Json)
    requires branch.Object? && Numeric(branch) && Accepts(branch, v, Closed)
    ensures v.Number?
  {
  }

  predicate Integral(r: real) { r.Floor as real == r }

  /** Of a number this fragment sees only whether it is an integer, and what is said of all numbers holds of
      the integers. */
  lemma {:induction false} NumberMono(schema: Json, q: real, r: real, reading: Reading)
    requires Integral(q) ==> Integral(r)
    ensures Accepts(schema, Number(q), reading) ==> Accepts(schema, Number(r), reading)
    decreases Size(schema)
  {
    if schema.Object? {
      var fields := schema.fields;
      if Lookup(fields, "anyOf").Some? && Lookup(fields, "anyOf").value.Array? {
        LookupSmaller(fields, "anyOf");
        var branches := Lookup(fields, "anyOf").value.elements;
        if i :| 0 <= i < |branches| && Accepts(branches[i], Number(q), reading) {
          ElementSmaller(branches, i);
          NumberMono(branches[i], q, r, reading);
          assert AcceptsUnion(fields, Number(r), reading);
        } else {
          assert !AcceptsUnion(fields, Number(q), reading);
        }
      }
    }
  }

  /** The number that stands for all of its kind. */
  function Standard(r: real): Json { if Integral(r) then ZERO else HALF }

  lemma StandardStands(fields: seq<Field>, r: real)
    ensures Accepts(Object(fields), Standard(r), Closed) == Accepts(Object(fields), Number(r), Closed)
    ensures Ambiguous(fields) ==> LetThrough(fields, Standard(r)) == LetThrough(fields, Number(r))
  {
    assert (0.0).Floor == 0 && (0.5).Floor == 0;
    NumberMono(Object(fields), r, Standard(r).r, Closed);
    NumberMono(Object(fields), Standard(r).r, r, Closed);
  }

  lemma {:induction false} KeptContains(branches: seq<Json>, i: nat)
    requires AllObjects(branches) && i < |branches| && !Numeric(branches[i])
    ensures branches[i] in Kept(branches)
  {
    if i > 0 { KeptContains(branches[1..], i - 1); }
  }

  lemma {:induction false} CollapsedKept(fields: seq<Field>, v: Json)
    requires WellFormedKeywords(fields) && Ambiguous(fields) && AcceptsUnion(fields, v, Closed)
    ensures v.Number? || |Collapsed(fields)| > 1
    ensures exists i :: 0 <= i < |Collapsed(fields)| && Accepts(RewriteAll(Collapsed(fields))[i], v, Literal)
    decreases 1 + SizeOfFields(fields), 0
  {
    LookupSmaller(fields, "anyOf");
    var branches, collapsed := Lookup(fields, "anyOf").value.elements, Collapsed(fields);
    var i :| 0 <= i < |branches| && Accepts(branches[i], v, Closed);
    if Numeric(branches[i]) {
      NumericAccepts(branches[i], v);
      NumberAccepts(v);
      RewrittenAt(collapsed, 0);
      assert Accepts(RewriteAll(collapsed)[0], v, Literal);
    } else {
      KeptContains(branches, i);
      var j :| 0 <= j < |Kept(branches)| && Kept(branches)[j] == branches[i];
      ElementSmaller(branches, i);
      RewritePreserves(branches[i], v);
      RewrittenAt(collapsed, j + 1);
      assert collapsed[j + 1] == branches[i];
      assert Accepts(RewriteAll(collapsed)[j + 1], v, Literal);
    }
  }

  lemma UnionLookup(fields: seq<Field>, key: string)
    requires Ambiguous(fields)
    ensures var next := With(Without(fields, "anyOf"), "anyOf", Array(Collapsed(fields)));
      Lookup(RewriteFields(next), key) ==
        Rewritten(if key == "anyOf" then Some(Array(Collapsed(fields))) else Lookup(fields, key))
  {
    LookupWith(Without(fields, "anyOf"), "anyOf", Array(Collapsed(fields)), key);
    LookupWithout(fields, "anyOf", key);
    LookupRewritten(With(Without(fields, "anyOf"), "anyOf", Array(Collapsed(fields))), key);
  }

  lemma UnionShape(fields: seq<Field>)
    requires Ambiguous(fields) && |Collapsed(fields)| > 1
    ensures var out := RewriteFields(With(Without(fields, "anyOf"), "anyOf", Array(Collapsed(fields))));
      && Rewrite(Object(fields)) == Object(out) && SameKeywords(fields, out)
      && Lookup(out, "anyOf") == Some(Array(RewriteAll(Collapsed(fields))))
      && RefusesExtras(out, Literal) == RefusesExtras(fields, Closed)
  {
    UnionLookup(fields, "type");
    UnionLookup(fields, "properties");
    UnionLookup(fields, "items");
    UnionLookup(fields, "anyOf");
    UnionLookup(fields, "additionalProperties");
    if Lookup(fields, "additionalProperties").Some? { RewriteFixes(Lookup(fields, "additionalProperties").value); }
  }

  lemma MergedLookup(fields: seq<Field>, key: string)
    requires Ambiguous(fields)
    ensures Lookup(With(Without(fields, "anyOf"), "type", Text("number")), key) ==
      if key == "type" then Some(Text("number")) else if key == "anyOf" then None else Lookup(fields, key)
  {
    LookupWith(Without(fields, "anyOf"), "type", Text("number"), key);
    LookupWithout(fields, "anyOf", key);
  }

  lemma MergedShape(fields: seq<Field>)
    requires Ambiguous(fields) && |Collapsed(fields)| == 1
    ensures var merged := With(Without(fields, "anyOf"), "type", Text("number"));
      var out := Seal(RewriteFields(merged));
      && !Ambiguous(merged) && Rewrite(Object(fields)) == Object(out)
      && Lookup(out, "type") == Some(Text("number")) && Lookup(out, "anyOf").None?
  {
    var merged := With(Without(fields, "anyOf"), "type", Text("number"));
    MergedLookup(fields, "type");
    MergedLookup(fields, "anyOf");
    assert !Ambiguous(merged);
    SealLookup(merged, "type");
    SealLookup(merged, "anyOf");
  }

  /** A union of numbers alone becomes a schema of exactly the numbers. */
  lemma MergedAccepts(fields: seq<Field>, v: Json)
    requires Ambiguous(fields) && |Collapsed(fields)| == 1
    ensures Accepts(Rewrite(Object(fields)), v, Literal) <==> v.Number?
  {
    MergedShape(fields);
  }

  /** What remains of a union next to `number` is as it was. */
  lemma {:induction false} KeptBranch(fields: seq<Field>, v: Json, j: nat)
    requires WellFormedKeywords(fields) && Ambiguous(fields) && SettledKeywords(fields)
    requires 1 <= j < |Collapsed(fields)| && Accepts(RewriteAll(Collapsed(fields))[j], v, Literal)
    ensures AcceptsUnion(fields, v, Closed)
    decreases 1 + SizeOfFields(fields), 0
  {
    LookupSmaller(fields, "anyOf");
    var branches := Lookup(fields, "anyOf").value.elements;
    KeptComesFrom(branches, j - 1);
    var i :| 0 <= i < |branches| && branches[i] == Kept(branches)[j - 1] && !Numeric(branches[i]);
    RewrittenAt(Collapsed(fields), j);
    assert Collapsed(fields)[j] == branches[i];
    ElementSmaller(branches, i);
    RewritePreserves(branches[i], v);
    assert Accepts(branches[i], v, Closed);
  }

  lemma {:induction false} KeptComesFrom(branches: seq<Json>, j: nat)
    requires AllObjects(branches) && j < |Kept(branches)|
    ensures exists i :: 0 <= i < |branches| && branches[i] == Kept(branches)[j] && !Numeric(branches[i])
  {
    var first: nat := if Numeric(branches[0]) then 0 else 1;
    if j < first {
      assert branches[0] == Kept(branches)[j];
    } else {
      assert Kept(branches)[first..] == Kept(branches[1..]);
      KeptComesFrom(branches[1..], j - first);
      var i :| 0 <= i < |branches[1..]| && branches[1..][i] == Kept(branches[1..])[j - first] && !Numeric(branches[1..][i]);
      assert branches[i + 1] == Kept(branches)[j];
    }
  }

  /** The union that remains: a number, or what one of the remaining branches accepts. */
  lemma CollapsedUnion(fields: seq<Field>, v: Json)
    requires Ambiguous(fields) && |Collapsed(fields)| > 1
    ensures var out := RewriteFields(With(Without(fields, "anyOf"), "anyOf", Array(Collapsed(fields))));
      AcceptsUnion(out, v, Literal) <==>
        (v.Number? || exists j :: 1 <= j < |Collapsed(fields)| && Accepts(RewriteAll(Collapsed(fields))[j], v, Literal))
  {
    UnionShape(fields);
    RewrittenAt(Collapsed(fields), 0);
    if v.Number? {
      NumberAccepts(v);
      assert Accepts(RewriteAll(Collapsed(fields))[0], v, Literal);
    } else {
      NumberRefuses(v);
    }
  }

  /** The numbers a collapsed node accepts. */
  lemma CollapsedNumbers(fields: seq<Field>, r: real)
    requires Ambiguous(fields)
    ensures Accepts(Rewrite(Object(fields)), Number(r), Literal) <==> LetThrough(fields, Number(r))
  {
    if |Collapsed(fields)| == 1 {
      MergedAccepts(fields, Number(r));
    } else {
      var out := RewriteFields(With(Without(fields, "anyOf"), "anyOf", Array(Collapsed(fields))));
      UnionShape(fields);
      TypeKept(fields, out, Number(r));
      CollapsedUnion(fields, Number(r));
    }
  }

  lemma {:induction false} AmbiguousPreserves(fields: seq<Field>, v: Json)
    requires WellFormedKeywords(fields) && Ambiguous(fields)
    ensures Accepts(Object(fields), v, Closed) ==> Accepts(Rewrite(Object(fields)), v, Literal)
    ensures NumbersSettled(fields) && SettledBelow(fields) && Accepts(Rewrite(Object(fields)), v, Literal)
            ==> Accepts(Object(fields), v, Closed)
    decreases 1 + SizeOfFields(fields), 2
  {
    if Accepts(Object(fields), v, Closed) {
      CollapsedKept(fields, v);
    }
    if v.Number? {
      CollapsedNumbers(fields, v.r);
      StandardStands(fields, v.r);
    }
    if |Collapsed(fields)| == 1 {
      MergedAccepts(fields, v);
    } else {
      RemainderPreserves(fields, v);
    }
  }

  lemma {:induction false} RemainderPreserves(fields: seq<Field>, v: Json)
    requires WellFormedKeywords(fields) && Ambiguous(fields) && |Collapsed(fields)| > 1
    ensures Accepts(Object(fields), v, Closed) ==> Accepts(Rewrite(Object(fields)), v, Literal)
    ensures !v.Number? && SettledKeywords(fields) && Accepts(Rewrite(Object(fields)), v, Literal)
            ==> Accepts(Object(fields), v, Closed)
    decreases 1 + SizeOfFields(fields), 1
  {
    var out := RewriteFields(With(Without(fields, "anyOf"), "anyOf", Array(Collapsed(fields))));
    UnionShape(fields);
    TypeKept(fields, out, v);
    ExtrasKept(fields, out, v);
    MembersKept(fields, out, v);
    ItemsKept(fields, out, v);
    CollapsedUnion(fields, v);
    if AcceptsUnion(fields, v, Closed) { CollapsedKept(fields, v); }
    if !v.Number? && SettledKeywords(fields) && AcceptsUnion(out, v, Literal) {
      var j :| 1 <= j < |Collapsed(fields)| && Accepts(RewriteAll(Collapsed(fields))[j], v, Literal);
      KeptBranch(fields, v, j);
    }
  }

  /** Every value valid under a schema as `Closed` reads it stays valid under the rewritten schema; and where
      every ambiguous union is settled, the rewritten schema accepts nothing else. */
  lemma {:induction false} RewritePreserves(schema: Json, v: Json)
    requires WellFormed(schema)
    ensures Accepts(schema, v, Closed) ==> Accepts(Rewrite(schema), v, Literal)
    ensures Settled(schema) && Accepts(Rewrite(schema), v, Literal) ==> Accepts(schema, v, Closed)
    decreases Size(schema), 3
  {
    if schema.Object? {
      if Ambiguous(schema.fields) {
        AmbiguousPreserves(schema.fields, v);
      } else {
        PlainPreserves(schema.fields, v);
        assert Settled(schema) ==> SettledBelow(schema.fields);
      }
    }
  }

  /** Exactly when collapsing the union of a node lets no new number in: when the node accepted 0 and 0.5
      already, as far as they get through. For most nodes 0.5 alone tells. */
  lemma NumbersSettledExactly(fields: seq<Field>)
    requires Ambiguous(fields)
    ensures NumbersSettled(fields) <==>
      (forall r :: Accepts(Rewrite(Object(fields)), Number(r), Literal) ==> Accepts(Object(fields), Number(r), Closed))
    ensures LetThrough(fields, HALF) ==> (NumbersSettled(fields) <==> Accepts(Object(fields), HALF, Closed))
  {
    forall r: real
      ensures Accepts(Rewrite(Object(fields)), Number(r), Literal) <==> LetThrough(fields, Standard(r))
      ensures Accepts(Object(fields), Number(r), Closed) == Accepts(Object(fields), Standard(r), Closed)
    {
      CollapsedNumbers(fields, r);
      StandardStands(fields, r);
    }
    assert Standard(0.0) == ZERO && Standard(0.5) == HALF by { assert (0.5).Floor == 0; }
    if NumbersSettled(fields) {
      assert forall r :: Standard(r) in [ZERO, HALF];
    } else {
      var number :| number in [ZERO, HALF] && LetThrough(fields, number) && !Accepts(Object(fields), number, Closed);
      assert number == Number(number.r) == Standard(number.r);
    }
    NumberMono(Object(fields), 0.5, 0.0, Closed);
  }

  /** The whole node: with everything below it settled, the rewrite is exact if and only if the numbers are. */
  lemma CollapseExactly(fields: seq<Field>)
    requires WellFormedKeywords(fields) && Ambiguous(fields) && SettledBelow(fields)
    ensures NumbersSettled(fields) <==>
      (forall v :: Accepts(Rewrite(Object(fields)), v, Literal) <==> Accepts(Object(fields), v, Closed))
  {
    NumbersSettledExactly(fields);
    forall v
      ensures Accepts(Object(fields), v, Closed) ==> Accepts(Rewrite(Object(fields)), v, Literal)
      ensures NumbersSettled(fields) && Accepts(Rewrite(Object(fields)), v, Literal) ==> Accepts(Object(fields), v, Closed)
    {
      AmbiguousPreserves(fields, v);
    }
  }

  // ----- The readings -----

  /** What uses declared properties only is valid under `Closed` too, so the first half of the theorem holds
      of it as well. */
  lemma {:induction false} DeclaredIsClosed(schema: Json, v: Json)
    ensures Accepts(schema, v, Declared) ==> Accepts(schema, v, Closed)
    decreases Size(schema), 1
  {
    if schema.Object? {
      DeclaredUnion(schema.fields, v);
      DeclaredMembers(schema.fields, v);
      DeclaredItems(schema.fields, v);
    }
  }

  lemma {:induction false} DeclaredUnion(fields: seq<Field>, v: Json)
    ensures AcceptsUnion(fields, v, Declared) ==> AcceptsUnion(fields, v, Closed)
    decreases 1 + SizeOfFields(fields), 0
  {
    if Lookup(fields, "anyOf").Some? && Lookup(fields, "anyOf").value.Array? && AcceptsUnion(fields, v, Declared) {
      LookupSmaller(fields, "anyOf");
      var branches := Lookup(fields, "anyOf").value.elements;
      var i :| 0 <= i < |branches| && Accepts(branches[i], v, Declared);
      ElementSmaller(branches, i);
      DeclaredIsClosed(branches[i], v);
    }
  }

  lemma {:induction false} DeclaredMembers(fields: seq<Field>, v: Json)
    ensures AcceptsMembers(fields, v, Declared) ==> AcceptsMembers(fields, v, Closed)
    decreases 1 + SizeOfFields(fields), 0
  {
    if v.Object? && Lookup(fields, "properties").Some? && Lookup(fields, "properties").value.Object? {
      LookupSmaller(fields, "properties");
      var ps := Lookup(fields, "properties").value.fields;
      forall i | 0 <= i < |v.fields| && Lookup(ps, v.fields[i].key).Some?
        ensures var s := Lookup(ps, v.fields[i].key).value;
          Accepts(s, v.fields[i].value, Declared) ==> Accepts(s, v.fields[i].value, Closed)
      {
        LookupSmaller(ps, v.fields[i].key);
        DeclaredIsClosed(Lookup(ps, v.fields[i].key).value, v.fields[i].value);
      }
    }
  }

  lemma {:induction false} DeclaredItems(fields: seq<Field>, v: Json)
    ensures AcceptsItems(fields, v, Declared) ==> AcceptsItems(fields, v, Closed)
    decreases 1 + SizeOfFields(fields), 0
  {
    if v.Array? && Lookup(fields, "items").Some? {
      LookupSmaller(fields, "items");
      var items := Lookup(fields, "items").value;
      forall i | 0 <= i < |v.elements|
        ensures Accepts(items, v.elements[i], Declared) ==> Accepts(items, v.elements[i], Closed)
      {
        DeclaredIsClosed(items, v.elements[i]);
      }
    }
  }

  predicate Silent(fields: seq<Field>) {
    Lookup(fields, "type") == Some(Text("object")) && Lookup(fields, "additionalProperties").None?
  }

  /** The objects left silent about additional members are those next to a union of which something remains. */
  lemma SilentExactly(fields: seq<Field>)
    ensures Rewrite(Object(fields)).Object?
    ensures Silent(Rewrite(Object(fields)).fields) <==> Ambiguous(fields) && |Collapsed(fields)| > 1 && Silent(fields)
  {
    if !Ambiguous(fields) {
      SealedNotSilent(fields);
    } else if |Collapsed(fields)| == 1 {
      MergedShape(fields);
    } else {
      UnionShape(fields);
      UnionLookup(fields, "additionalProperties");
      if Lookup(fields, "type").Some? { RewriteFixes(Lookup(fields, "type").value); }
    }
  }

  lemma SealedNotSilent(fields: seq<Field>)
    requires !Ambiguous(fields)
    ensures Rewrite(Object(fields)).Object?
    ensures !Silent(Rewrite(Object(fields)).fields)
  {
    LookupAppended(RewriteFields(fields), Field("additionalProperties", Boolean(false)), "additionalProperties");
    LookupAppended(RewriteFields(fields), Field("additionalProperties", Boolean(false)), "type");
  }

  // ----- What the rewrite is for -----

  /** No dictionary anywhere has an integer branch next to a number branch. */
  predicate Clean(j: Json)
    decreases Size(j), 1
  {
    match j
    case Array(elements) => CleanAll(elements)
    case Object(fields) => !Ambiguous(fields) && CleanFields(fields)
    case _ => true
  }

  predicate CleanAll(elements: seq<Json>)
    decreases 1 + SizeOfAll(elements), 0
  {
    elements == [] || (Clean(elements[0]) && CleanAll(elements[1..]))
  }

  predicate CleanFields(fields: seq<Field>)
    decreases 1 + SizeOfFields(fields), 0
  {
    fields == [] || (Clean(fields[0].value) && CleanFields(fields[1..]))
  }

  /** The type a branch will have. */
  function NewType(branch: Json): Option<Json>
    requires branch.Object?
  {
    if Ambiguous(branch.fields) && |Collapsed(branch.fields)| == 1 then Some(Text("number")) else TypeOf(branch)
  }

  predicate WillBe(branches: seq<Json>, name: string)
    requires AllObjects(branches)
  {
    exists i | 0 <= i < |branches| :: NewType(branches[i]) == Some(Text(name))
  }

  /** A union that becomes ambiguous: a branch of it is itself a union of numbers alone. */
  predicate Brewing(fields: seq<Field>) {
    var anyOf := Lookup(fields, "anyOf");
    && anyOf.Some? && anyOf.value.Array? && AllObjects(anyOf.value.elements)
    && WillBe(anyOf.value.elements, "integer") && WillBe(anyOf.value.elements, "number")
  }

  /** No union that is not collapsed becomes ambiguous. */
  predicate Resolvable(j: Json)
    decreases Size(j), 1
  {
    match j
    case Array(elements) => ResolvableAll(elements)
    case Object(fields) =>
      if Ambiguous(fields) then
        AmbiguousSizes(fields);
        if |Collapsed(fields)| == 1 then Resolvable(Object(With(Without(fields, "anyOf"), "type", Text("number"))))
        else ResolvableFields(With(Without(fields, "anyOf"), "anyOf", Array(Collapsed(fields))))
      else !Brewing(fields) && ResolvableFields(fields)
    case _ => true
  }

  predicate ResolvableAll(elements: seq<Json>)
    decreases 1 + SizeOfAll(elements), 0
  {
    elements == [] || (Resolvable(elements[0]) && ResolvableAll(elements[1..]))
  }

  predicate ResolvableFields(fields: seq<Field>)
    decreases 1 + SizeOfFields(fields), 0
  {
    fields == [] || (Resolvable(fields[0].value) && ResolvableFields(fields[1..]))
  }

  lemma NewTypeIs(branch: Json, name: string)
    requires branch.Object?
    ensures Rewrite(branch).Object?
    ensures TypeOf(Rewrite(branch)) == Some(Text(name)) <==> NewType(branch) == Some(Text(name))
  {
    RewriteKeepsShape(branch);
    var fields := branch.fields;
    if !Ambiguous(fields) {
      SealLookup(fields, "type");
    } else if |Collapsed(fields)| == 1 {
      MergedShape(fields);
    } else {
      UnionLookup(fields, "type");
    }
    if TypeOf(branch).Some? { RewriteKeepsShape(TypeOf(branch).value); }
  }

  lemma NewTypesAre(branches: seq<Json>)
    requires AllObjects(branches)
    ensures AllObjects(RewriteAll(branches))
    ensures forall name :: HasType(RewriteAll(branches), name) == WillBe(branches, name)
  {
    forall i | 0 <= i < |branches|
      ensures RewriteAll(branches)[i] == Rewrite(branches[i]) && Rewrite(branches[i]).Object?
    {
      RewrittenAt(branches, i);
      RewriteKeepsShape(branches[i]);
    }
    forall name ensures HasType(RewriteAll(branches), name) == WillBe(branches, name) {
      forall i | 0 <= i < |branches|
        ensures (TypeOf(RewriteAll(branches)[i]) == Some(Text(name))) == (NewType(branches[i]) == Some(Text(name)))
      {
        NewTypeIs(branches[i], name);
      }
    }
  }

  lemma BranchesStayObjects(branches: seq<Json>)
    ensures AllObjects(RewriteAll(branches)) == AllObjects(branches)
  {
    forall i | 0 <= i < |branches| ensures RewriteAll(branches)[i].Object? == branches[i].Object? {
      RewrittenAt(branches, i);
      RewriteKeepsShape(branches[i]);
    }
  }

  lemma BrewingExactly(fields: seq<Field>, out: seq<Field>)
    requires Lookup(out, "anyOf") == Rewritten(Lookup(fields, "anyOf"))
    ensures Ambiguous(out) <==> Brewing(fields)
  {
    if Lookup(fields, "anyOf").Some? {
      RewriteKeepsShape(Lookup(fields, "anyOf").value);
      if Lookup(fields, "anyOf").value.Array? {
        var branches := Lookup(fields, "anyOf").value.elements;
        BranchesStayObjects(branches);
        if AllObjects(branches) { NewTypesAre(branches); }
      }
    }
  }

  /** What remains of a collapsed union is free of integers. */
  lemma RemainderNotBrewing(fields: seq<Field>)
    requires Ambiguous(fields)
    ensures !Brewing(With(Without(fields, "anyOf"), "anyOf", Array(Collapsed(fields))))
  {
    LookupWith(Without(fields, "anyOf"), "anyOf", Array(Collapsed(fields)), "anyOf");
    var branches := Lookup(fields, "anyOf").value.elements;
    forall j | 0 <= j < |Collapsed(fields)| && Collapsed(fields)[j].Object?
      ensures NewType(Collapsed(fields)[j]) != Some(Text("integer"))
    {
      if j > 0 {
        KeptComesFrom(branches, j - 1);
      } else {
        NumberAccepts(ZERO);
      }
    }
  }

  lemma {:induction false} CleanAppended(fields: seq<Field>, f: Field)
    ensures CleanFields(fields + [f]) <==> CleanFields(fields) && Clean(f.value)
    decreases |fields|
  {
    if fields == [] {
      assert fields + [f] == [f];
    } else {
      assert (fields + [f])[1..] == fields[1..] + [f];
      CleanAppended(fields[1..], f);
    }
  }

  /** The rewritten schema is free of the overlap the provider refuses exactly when no union was brewing. */
  lemma {:induction false} RewriteCleans(schema: Json)
    ensures Clean(Rewrite(schema)) <==> Resolvable(schema)
    decreases Size(schema), 1
  {
    match schema {
      case Array(elements) => RewriteCleansAll(elements);
      case Object(fields) =>
        if !Ambiguous(fields) {
          SealLookup(fields, "anyOf");
          BrewingExactly(fields, Seal(RewriteFields(fields)));
          CleanAppended(RewriteFields(fields), Field("additionalProperties", Boolean(false)));
          RewriteCleansFields(fields);
        } else {
          AmbiguousSizes(fields);
          if |Collapsed(fields)| == 1 {
            RewriteCleans(Object(With(Without(fields, "anyOf"), "type", Text("number"))));
          } else {
            var next := With(Without(fields, "anyOf"), "anyOf", Array(Collapsed(fields)));
            LookupRewritten(next, "anyOf");
            BrewingExactly(next, RewriteFields(next));
            RemainderNotBrewing(fields);
            RewriteCleansFields(next);
          }
        }
      case _ =>
    }
  }

  lemma {:induction false} RewriteCleansAll(elements: seq<Json>)
    ensures CleanAll(RewriteAll(elements)) <==> ResolvableAll(elements)
    decreases 1 + SizeOfAll(elements), 0
  {
    if elements != [] {
      RewriteCleans(elements[0]);
      RewriteCleansAll(elements[1..]);
      assert RewriteAll(elements)[1..] == RewriteAll(elements[1..]);
    }
  }

  lemma {:induction false} RewriteCleansFields(fields: seq<Field>)
    ensures CleanFields(RewriteFields(fields)) <==> ResolvableFields(fields)
    decreases 1 + SizeOfFields(fields), 0
  {
    if fields != [] {
      RewriteCleans(fields[0].value);
      RewriteCleansFields(fields[1..]);
      assert RewriteFields(fields)[1..] == RewriteFields(fields[1..]);
    }
  }

  // ----- Instances -----

  const INTEGER := Object([Field("type", Text("integer"))])

  /** A union next to which nothing is said of the type, and whose number branch says no more than `number`,
      is settled, whatever its other branches are. */
  lemma UntypedIsSettled(fields: seq<Field>, i: nat)
    requires Ambiguous(fields) && Lookup(fields, "type").None?
    requires i < |Lookup(fields, "anyOf").value.elements| && Lookup(fields, "anyOf").value.elements[i] == NUMBER
    ensures NumbersSettled(fields)
  {
    forall number | number in [ZERO, HALF] ensures Accepts(Object(fields), number, Closed) {
      assert NUMBER.fields[1..] == [];
      assert Accepts(NUMBER, number, Closed);
      LookupSmaller(fields, "anyOf");
      ElementSmaller(Lookup(fields, "anyOf").value.elements, i);
    }
  }

  lemma OverlapIsAmbiguous(fields: seq<Field>)
    requires Lookup(fields, "anyOf") == Some(Array([INTEGER, NUMBER]))
    ensures Ambiguous(fields) && Collapsed(fields) == [NUMBER]
  {
    var branches := [INTEGER, NUMBER];
    assert TypeOf(branches[0]) == Some(Text("integer")) && TypeOf(branches[1]) == Some(Text("number"));
    assert branches[1..] == [NUMBER] && [NUMBER][1..] == [];
    assert Kept([NUMBER]) == Kept([]) == [];
    assert Kept(branches) == Kept([NUMBER]);
  }

  /** A string that must also be an integer or a number. */
  const CONTRADICTION := Object([Field("type", Text("string")), Field("anyOf", Array([INTEGER, NUMBER]))])

  /** Collapsing the union of a schema that accepts nothing makes it accept numbers. */
  lemma CollapseCanAcceptMore(r: real)
    ensures !Accepts(CONTRADICTION, Number(r), Closed) && !Accepts(CONTRADICTION, Number(r), Literal)
    ensures Accepts(Rewrite(CONTRADICTION), Number(r), Literal)
    ensures Ambiguous(CONTRADICTION.fields) && !NumbersSettled(CONTRADICTION.fields)
  {
    var fields := CONTRADICTION.fields;
    assert fields[1..] == [Field("anyOf", Array([INTEGER, NUMBER]))];
    OverlapIsAmbiguous(fields);
    MergedAccepts(fields, Number(r));
    NumbersSettledExactly(fields);
  }

  lemma SingleLookup(f: Field, key: string)
    ensures Lookup([f], key) == if f.key == key then Some(f.value) else None
  {
  }

  lemma UnionWellFormed(branches: seq<Json>)
    requires forall i :: 0 <= i < |branches| ==> WellFormed(branches[i]) || branches[i] in [INTEGER, NUMBER]
    ensures WellFormed(Object([Field("anyOf", Array(branches))]))
    ensures Lookup([Field("anyOf", Array(branches))], "type").None?
  {
    SingleLookup(Field("type", Text("integer")), "anyOf");
    assert "items"[0] != "anyOf"[0] && "properties"[0] != "anyOf"[0];
    assert WellFormed(INTEGER) && WellFormed(NUMBER);
    var fields := [Field("anyOf", Array(branches))];
    SingleLookup(fields[0], "anyOf");
    SingleLookup(fields[0], "properties");
    SingleLookup(fields[0], "items");
    SingleLookup(fields[0], "type");
  }

  /** An integer, or an integer or a number. */
  const NESTED := Object([Field("anyOf", Array([INTEGER, Object([Field("anyOf", Array([INTEGER, NUMBER]))])]))])

  /** Collapsing the inner union leaves the outer one as ambiguous as the inner one was. */
  lemma OverlapCanRemain()
    ensures WellFormed(NESTED) && !Ambiguous(NESTED.fields) && Ambiguous(Rewrite(NESTED).fields)
  {
    var inner := Object([Field("anyOf", Array([INTEGER, NUMBER]))]);
    var branches := [INTEGER, inner];
    OverlapIsAmbiguous(inner.fields);
    assert NewType(branches[0]) == Some(Text("integer")) && NewType(branches[1]) == Some(Text("number"));
    UnionWellFormed([INTEGER, NUMBER]);
    UnionWellFormed(branches);
    forall i | 0 <= i < |branches| ensures TypeOf(branches[i]) != Some(Text("number")) {
      assert TypeOf(inner) == None;
    }
    SealLookup(NESTED.fields, "anyOf");
    BrewingExactly(NESTED.fields, Seal(RewriteFields(NESTED.fields)));
  }

  const NULLS := Object([Field("type", Text("null"))])

  /** An object schema with an ambiguous union of which a branch remains. */
  const OPEN := Object([Field("type", Text("object")), Field("anyOf", Array([INTEGER, NUMBER, NULLS]))])

  /** The rewrite, which closes every other object, leaves this one open. */
  lemma ObjectCanStaySilent()
    ensures Rewrite(OPEN).Object? && Silent(Rewrite(OPEN).fields)
  {
    var fields, branches := OPEN.fields, [INTEGER, NUMBER, NULLS];
    assert fields[1..] == [Field("anyOf", Array(branches))] && fields[1..][1..] == [];
    assert Lookup(fields, "anyOf") == Lookup(fields[1..], "anyOf") == Some(Array(branches));
    assert Lookup(fields, "additionalProperties") == Lookup(fields[1..], "additionalProperties") == None;
    assert TypeOf(branches[0]) == Some(Text("integer")) && TypeOf(branches[1]) == Some(Text("number"));
    assert !Numeric(branches[2]);
    KeptContains(branches, 2);
    assert |Collapsed(fields)| > 1;
    SilentExactly(fields);
  }

  // ----- Bare schemas -----

  /** The names a value goes by in `type`: its own, and `integer` for a number without a fraction. */
  function NamesOf(v: Json): set<string> {
    match v
    case Null => {"null"}
    case Boolean(_) => {"boolean"}
    case Number(r) => if r.Floor as real == r then {"number", "integer"} else {"number"}
    case Text(_) => {"string"}
    case Array(_) => {"array"}
    case Object(_) => {"object"}
  }

  /** A schema that says nothing accepts everything, and one that names a type, or several, every value that
      goes by one of them. */
  lemma BareSchemas(v: Json, name: string, names: seq<string>)
    ensures Accepts(Object([]), v, Declared) && Accepts(Boolean(true), v, Declared) && !Accepts(Boolean(false), v, Literal)
    ensures Accepts(Object([Field("type", Text(name))]), v, Literal) <==> name in NamesOf(v)
    ensures var types := seq(|names|, i requires 0 <= i < |names| => Text(names[i]));
      Accepts(Object([Field("type", Array(types))]), v, Literal) <==> exists n :: n in names && n in NamesOf(v)
  {
    var types := seq(|names|, i requires 0 <= i < |names| => Text(names[i]));
    BareType(Text(name), v);
    BareType(Array(types), v);
    if n :| n in names && n in NamesOf(v) {
      var i :| 0 <= i < |names| && names[i] == n;
      assert types[i] == Text(n);
    }
  }

  lemma BareType(t: Json, v: Json)
    ensures Accepts(Object([Field("type", t)]), v, Literal) <==> TypeAllows(Some(t), v)
  {
    var fields := [Field("type", t)];
    forall key ensures Lookup(fields, key) == if key == "type" then Some(t) else None {
      SingleLookup(fields[0], key);
    }
    assert "items"[0] != "type"[0] && "anyOf"[0] != "type"[0];
  }

  /** A property is checked under its own schema, an item under the schema of items, and a member beyond the
      properties is let in or refused as the schema says. */
  lemma BareMembers(s: Json, key: string, other: string, v: Json)
    requires key != other
    ensures var properties := [Field("properties", Object([Field(key, s)]))];
      && (Accepts(Object(properties), Object([Field(key, v)]), Literal) <==> Accepts(s, v, Literal))
      && Accepts(Object(properties), Object([Field(other, v)]), Literal)
      && !Accepts(Object(properties + [Field("additionalProperties", Boolean(false))]), Object([Field(other, v)]), Literal)
    ensures Accepts(Object([Field("items", s)]), Array([v]), Literal) <==> Accepts(s, v, Literal)
  {
    var properties := [Field("properties", Object([Field(key, s)]))];
    var closed := properties + [Field("additionalProperties", Boolean(false))];
    SingleLookup(Field(key, s), key);
    SingleLookup(Field(key, s), other);
    assert "items"[0] != "anyOf"[0];
    forall k ensures Lookup(properties, k) == if k == "properties" then Some(Object([Field(key, s)])) else None {
      SingleLookup(properties[0], k);
    }
    LookupAppended(properties, Field("additionalProperties", Boolean(false)), "additionalProperties");
    LookupAppended(properties, Field("additionalProperties", Boolean(false)), "properties");
    forall k ensures Lookup([Field("items", s)], k) == if k == "items" then Some(s) else None {
      SingleLookup(Field("items", s), k);
    }
    var one, two, items := Object([Field(key, v)]), Object([Field(other, v)]), Array([v]);
    assert one.fields[0].key == key && two.fields[0].key == other && items.elements[0] == v;
  }
}
