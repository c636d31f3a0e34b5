/** Selection of approved evidence for one turn (app/conversation/context/builder.py). */
module EvidenceSelection {
  import opened Wrappers
  import opened Ordering

  datatype Scope = Global | Campaign(id: string) | Service(id: string)

  datatype Item = Item(id: string, factKey: string, statement: string, scope: Scope, provenance: string)

  predicate Applies(scope: Scope, campaign: Option<string>, services: set<string>) {
    match scope
    case Global => true
    case Campaign(id) => campaign == Some(id)
    case Service(id) => id in services
  }

  function Applicable(items: seq<Item>, campaign: Option<string>, services: set<string>): seq<Item> {
    if items == [] then []
    else
      var last := items[|items| - 1];
      Applicable(items[..|items| - 1], campaign, services) + if Applies(last.scope, campaign, services) then [last] else []
  }

  /** One id for two different items, or two statements for one fact in one scope. */
  predicate Conflict(a: Item, b: Item) {
    || (a.id == b.id && a != b)
    || (a.scope == b.scope && a.factKey == b.factKey && a.statement != b.statement)
  }

  ghost predicate Conflicting(items: set<Item>) { exists a, b :: a in items && b in items && Conflict(a, b) }

  function Ids(items: set<Item>): set<string> { set x | x in items :: x.id }

  ghost function WithId(items: set<Item>, id: string): Item
    requires id in Ids(items)
  {
    var x :| x in items && x.id == id;
    x
  }

  ghost function InOrder(items: set<Item>, ids: seq<string>): seq<Item>
    requires forall id :: id in ids ==> id in Ids(items)
  {
    seq(|ids|, i requires 0 <= i < |ids| => WithId(items, ids[i]))
  }

  /** What selection makes of a set of applicable items; None where it raises. */
  ghost function Outcome(items: set<Item>, limit: nat): Option<seq<Item>> {
    if Conflicting(items) then None else Some(Prefix(InOrder(items, Sorted(Ids(items))), limit))
  }

  ghost function ApplicableSet(items: multiset<Item>, campaign: Option<string>, services: set<string>): set<Item> {
    set x | x in items && Applies(x.scope, campaign, services)
  }

  function Members(items: seq<Item>): set<Item> { set x | x in items }

  lemma {:induction false} ApplicableIsSet(items: seq<Item>, campaign: Option<string>, services: set<string>)
    ensures Members(Applicable(items, campaign, services)) == ApplicableSet(multiset(items), campaign, services)
  {
    if items != [] {
      var front, last := items[..|items| - 1], items[|items| - 1];
      ApplicableIsSet(front, campaign, services);
      assert items == front + [last];
      var a, b := Applicable(items, campaign, services), Applicable(front, campaign, services);
      forall x ensures x in a <==> x in ApplicableSet(multiset(items), campaign, services) {
        assert x in a <==> x in b || (x == last && Applies(last.scope, campaign, services));
        assert x in b <==> x in ApplicableSet(multiset(front), campaign, services);
      }
    }
  }

  /** The two dictionaries of the loop agree with the items seen so far, which are free of conflict. */
  ghost predicate Indexed(seen: seq<Item>, byId: map<string, Item>, byFact: map<(Scope, string), Item>) {
    && (forall x :: x in seen ==> x.id in byId && byId[x.id] == x)
    && (forall id :: id in byId ==> byId[id] in seen && byId[id].id == id)
    && (forall x :: x in seen ==> (x.scope, x.factKey) in byFact && byFact[(x.scope, x.factKey)].statement == x.statement)
    && (forall k :: k in byFact ==> byFact[k] in seen && (byFact[k].scope, byFact[k].factKey) == k)
  }

  lemma IndexedIsFree(seen: seq<Item>, byId: map<string, Item>, byFact: map<(Scope, string), Item>)
    requires Indexed(seen, byId, byFact)
    ensures !Conflicting(Members(seen))
    ensures Ids(Members(seen)) == byId.Keys
    ensures forall id :: id in byId ==> WithId(Members(seen), id) == byId[id]
  {
    var items := Members(seen);
    forall id | id in byId ensures id in Ids(items) { assert byId[id] in items; }
  }

  lemma IndexedExtends(seen: seq<Item>, byId: map<string, Item>, byFact: map<(Scope, string), Item>, x: Item)
    requires Indexed(seen, byId, byFact)
    requires x.id in byId ==> byId[x.id] == x
    requires (x.scope, x.factKey) in byFact ==> byFact[(x.scope, x.factKey)].statement == x.statement
    ensures Indexed(seen + [x], byId[x.id := x], byFact[(x.scope, x.factKey) := x])
  {
  }

  lemma Clashing(items: seq<Item>, i: nat, x: Item)
    requires i < |items| && x in items[..i] && Conflict(items[i], x)
    ensures Conflicting(Members(items))
  {
    assert items[i] in Members(items) && x in Members(items);
  }

  lemma ClashById(items: seq<Item>, i: nat, byId: map<string, Item>, byFact: map<(Scope, string), Item>)
    requires i < |items| && Indexed(items[..i], byId, byFact)
    requires items[i].id in byId && byId[items[i].id] != items[i]
    ensures Conflicting(Members(items))
  {
    Clashing(items, i, byId[items[i].id]);
  }

  lemma ClashByFact(items: seq<Item>, i: nat, byId: map<string, Item>, byFact: map<(Scope, string), Item>)
    requires i < |items| && Indexed(items[..i], byId, byFact)
    requires (items[i].scope, items[i].factKey) in byFact
    requires byFact[(items[i].scope, items[i].factKey)].statement != items[i].statement
    ensures Conflicting(Members(items))
  {
    Clashing(items, i, byFact[(items[i].scope, items[i].factKey)]);
  }

  lemma IndexedNext(items: seq<Item>, i: nat, byId: map<string, Item>, byFact: map<(Scope, string), Item>)
    requires i < |items| && Indexed(items[..i], byId, byFact)
    requires items[i].id in byId ==> byId[items[i].id] == items[i]
    requires (items[i].scope, items[i].factKey) in byFact ==>
               byFact[(items[i].scope, items[i].factKey)].statement == items[i].statement
    ensures Indexed(items[..i + 1], byId[items[i].id := items[i]], byFact[(items[i].scope, items[i].factKey) := items[i]])
  {
    assert items[..i + 1] == items[..i] + [items[i]];
    IndexedExtends(items[..i], byId, byFact, items[i]);
  }

  /** The loop over the applicable items: the items by id, or a conflict between two of them. */
  method IndexById(applicable: seq<Item>) returns (clash: bool, byId: map<string, Item>, ghost byFact: map<(Scope, string), Item>)
    ensures clash ==> Conflicting(Members(applicable))
    ensures !clash ==> Indexed(applicable, byId, byFact)
  {
    byId, byFact := map[], map[];
    var facts: map<(Scope, string), Item> := map[];
    var i := 0;
    while i < |applicable|
      invariant 0 <= i <= |applicable|
      invariant Indexed(applicable[..i], byId, facts)
    {
      var item := applicable[i];
      var key := (item.scope, item.factKey);
      if item.id in byId && byId[item.id] != item {
        ClashById(applicable, i, byId, facts);
        clash := true;
        return;
      }
      if key in facts && facts[key].statement != item.statement {
        ClashByFact(applicable, i, byId, facts);
        clash := true;
        return;
      }
      IndexedNext(applicable, i, byId, facts);
      byId, facts := byId[item.id := item], facts[key := item];
      i := i + 1;
    }
    assert applicable[..i] == applicable;
    clash, byFact := false, facts;
  }

  lemma InOrderByIndex(items: set<Item>, byId: map<string, Item>, ids: seq<string>)
    requires Ids(items) == byId.Keys && forall id :: id in byId ==> WithId(items, id) == byId[id]
    requires forall id :: id in ids ==> id in byId
    ensures seq(|ids|, k requires 0 <= k < |ids| => byId[ids[k]]) == InOrder(items, ids)
  {
  }

  lemma IndexedInOrder(applicable: seq<Item>, byId: map<string, Item>, byFact: map<(Scope, string), Item>, limit: nat)
    requires Indexed(applicable, byId, byFact)
    ensures var ids := Sorted(byId.Keys);
      Outcome(Members(applicable), limit) == Some(Prefix(seq(|ids|, k requires 0 <= k < |ids| => byId[ids[k]]), limit))
  {
    IndexedIsFree(applicable, byId, byFact);
    InOrderByIndex(Members(applicable), byId, Sorted(byId.Keys));
  }

  /** Raises exactly when two applicable items conflict; otherwise returns the first `limit` applicable items
      in the order of their ids, each once. */
  method SelectEvidence(items: seq<Item>, campaign: Option<string>, services: set<string>, limit: nat)
    returns (selected: Option<seq<Item>>)
    ensures selected == Outcome(ApplicableSet(multiset(items), campaign, services), limit)
  {
    var applicable := Applicable(items, campaign, services);
    ApplicableIsSet(items, campaign, services);
    var clash, byId, byFact := IndexById(applicable);
    if clash { return None; }
    IndexedInOrder(applicable, byId, byFact, limit);
    var ids := Sorted(byId.Keys);
    selected := Some(Prefix(seq(|ids|, k requires 0 <= k < |ids| => byId[ids[k]]), limit));
  }

  /** All applicable items in order: each of them once, by ascending id. */
  lemma FullOrder(items: set<Item>)
    requires !Conflicting(items)
    ensures var ids, all := Sorted(Ids(items)), InOrder(items, Sorted(Ids(items)));
      && |all| == |ids|
      && (forall i :: 0 <= i < |all| ==> all[i] in items && all[i].id == ids[i])
      && (forall x :: x in items ==> x in all)
  {
    var ids, all := Sorted(Ids(items)), InOrder(items, Sorted(Ids(items)));
    forall x | x in items ensures x in all {
      assert x.id in ids;
      var k :| 0 <= k < |ids| && ids[k] == x.id;
      assert all[k] in items && !Conflict(all[k], x);
      assert all[k] == x;
    }
  }

  /** What is not among the first comes after them. */
  lemma LaterInOrder(ids: seq<string>, all: seq<Item>, limit: nat, x: Item)
    requires Ascending(ids) && |all| == |ids| && forall i :: 0 <= i < |all| ==> all[i].id == ids[i]
    requires x in all && x !in Prefix(all, limit)
    ensures |Prefix(all, limit)| == limit
    ensures forall i :: 0 <= i < |Prefix(all, limit)| ==> Below(Prefix(all, limit)[i].id, x.id)
  {
    var k :| 0 <= k < |all| && all[k] == x;
    assert forall i :: 0 <= i < |Prefix(all, limit)| ==> Prefix(all, limit)[i] == all[i];
    assert k >= |Prefix(all, limit)|;
  }

  /** An item that is left out comes after every item selected. */
  lemma LeftOutIsLater(items: set<Item>, limit: nat, x: Item)
    requires !Conflicting(items) && x in items
    requires var r := Prefix(InOrder(items, Sorted(Ids(items))), limit); x !in r
    ensures var r := Prefix(InOrder(items, Sorted(Ids(items))), limit);
      |r| == limit && forall i :: 0 <= i < |r| ==> Below(r[i].id, x.id)
  {
    FullOrder(items);
    LaterInOrder(Sorted(Ids(items)), InOrder(items, Sorted(Ids(items))), limit, x);
  }

  lemma SelectedInOrder(items: set<Item>, limit: nat)
    requires !Conflicting(items)
    ensures var r := Prefix(InOrder(items, Sorted(Ids(items))), limit);
      && |r| <= limit && (forall i :: 0 <= i < |r| ==> r[i] in items)
      && (forall i, j :: 0 <= i < j < |r| ==> Below(r[i].id, r[j].id) && r[i].id != r[j].id)
  {
    FullOrder(items);
    var ids, all := Sorted(Ids(items)), InOrder(items, Sorted(Ids(items)));
    var r := Prefix(all, limit);
    assert forall i :: 0 <= i < |r| ==> r[i] == all[i] && r[i].id == ids[i];
  }

  /** What an outcome is: an error exactly on a conflict; otherwise applicable items in strictly ascending
      order of id, at most `limit`, all of them when they fit, and none that comes before another left out. */
  lemma OutcomeExactly(items: set<Item>, limit: nat)
    ensures Outcome(items, limit).None? <==> Conflicting(items)
    ensures Outcome(items, limit).Some? ==>
      var r := Outcome(items, limit).value;
      && (forall i :: 0 <= i < |r| ==> r[i] in items)
      && (forall i, j :: 0 <= i < j < |r| ==> Below(r[i].id, r[j].id) && r[i].id != r[j].id)
      && |r| <= limit
      && (forall x :: x in items && x !in r ==> |r| == limit && forall i :: 0 <= i < |r| ==> Below(r[i].id, x.id))
  {
    if !Conflicting(items) {
      SelectedInOrder(items, limit);
      forall x | x in items && x !in Outcome(items, limit).value
        ensures |Outcome(items, limit).value| == limit
        ensures forall i :: 0 <= i < |Outcome(items, limit).value| ==> Below(Outcome(items, limit).value[i].id, x.id)
      {
        LeftOutIsLater(items, limit, x);
      }
    }
  }

  /** The order in which evidence is supplied never matters: every permutation has the same outcome. */
  lemma OrderIndependent(a: seq<Item>, b: seq<Item>, campaign: Option<string>, services: set<string>, limit: nat)
    requires multiset(a) == multiset(b)
    ensures Outcome(Members(Applicable(a, campaign, services)), limit)
         == Outcome(Members(Applicable(b, campaign, services)), limit)
  {
    ApplicableIsSet(a, campaign, services);
    ApplicableIsSet(b, campaign, services);
  }

  predicate Clash(a: Item, b: Item) {
    || (a.id == b.id && a != b)
    || (a.scope == b.scope && a.factKey == b.factKey && a.statement != b.statement)
  }

  lemma ApplicableIsMeant(items: seq<Item>, campaign: Option<string>, services: set<string>)
    ensures forall x :: x in ApplicableSet(multiset(items), campaign, services) <==> x in items && Meant(x, campaign, services)
  {
    forall x ensures x in ApplicableSet(multiset(items), campaign, services) <==> x in items && Meant(x, campaign, services) {
      assert x in multiset(items) <==> x in items;
    }
  }

  /** Selection raises exactly over one id for two different items, or two statements for one fact in one
      scope, among the items given that are meant for everyone, for this campaign or for one of these
      services. */
  lemma RaisesOverClash(items: seq<Item>, campaign: Option<string>, services: set<string>, limit: nat)
    ensures Outcome(ApplicableSet(multiset(items), campaign, services), limit).None? <==>
      exists a, b :: a in items && b in items && Meant(a, campaign, services) && Meant(b, campaign, services) && Clash(a, b)
  {
    var all := ApplicableSet(multiset(items), campaign, services);
    ApplicableIsMeant(items, campaign, services);
    if Conflicting(all) {
      var a, b :| a in all && b in all && Conflict(a, b);
      assert Clash(a, b);
    }
    if a, b :| a in items && b in items && Meant(a, campaign, services) && Meant(b, campaign, services) && Clash(a, b) {
      assert a in all && b in all && Conflict(a, b);
    }
  }

  /** What is selected was given and is meant, and as long as there is room, everything that is meant is
      selected. */
  lemma SelectionIsScoped(items: seq<Item>, campaign: Option<string>, services: set<string>, limit: nat, x: Item)
    requires Outcome(ApplicableSet(multiset(items), campaign, services), limit).Some?
    ensures var selected := Outcome(ApplicableSet(multiset(items), campaign, services), limit).value;
      && (x in selected ==> x in items && Meant(x, campaign, services))
      && (x in items && Meant(x, campaign, services) && |items| <= limit ==> x in selected)
  {
    var all := ApplicableSet(multiset(items), campaign, services);
    ApplicableIsMeant(items, campaign, services);
    FullOrder(all);
    SelectedInOrder(all, limit);
    FewIds(items, all);
  }

  /** No more ids than items. */
  lemma {:induction false} FewIds(items: seq<Item>, some: set<Item>)
    requires forall x :: x in some ==> x in items
    ensures |Ids(some)| <= |items|
    decreases items
  {
    if items == [] {
      assert Ids(some) == {};
    } else {
      var front, last := items[..|items| - 1], items[|items| - 1];
      assert items == front + [last];
      FewIds(front, some - {last});
      assert Ids(some) <= Ids(some - {last}) + {last.id};
      Within(Ids(some), Ids(some - {last}), last.id);
    }
  }

  lemma Within(a: set<string>, b: set<string>, x: string)
    requires a <= b + {x}
    ensures |a| <= |b| + 1
  {
    assert |b + {x}| <= |b| + 1;
    assert b + {x} == a + ((b + {x}) - a);
  }

  predicate Meant(x: Item, campaign: Option<string>, services: set<string>) {
    || x.scope.Global?
    || (x.scope.Campaign? && campaign == Some(x.scope.id))
    || (x.scope.Service? && x.scope.id in services)
  }
}
