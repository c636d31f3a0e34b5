/** Service offering: the campaign's catalog view, fresh eligibility, selection by an untrusted selector
    and its authorization (app/catalog, app/services/service_offering_service.py). */
module Catalog {
  import opened Wrappers
  import opened Ordering

  datatype Service = Service(id: string, applicableWhen: set<string>)

  /** The services of one campaign, keyed by the ids the campaign lists. */
  type ScopedCatalog = map<string, Service>

  predicate Applicable(s: Service, signals: set<string>) { s.applicableWhen * signals != {} }

  function ApplicableIds(catalog: ScopedCatalog, signals: set<string>): set<string> {
    set key | key in catalog && Applicable(catalog[key], signals) :: catalog[key].id
  }

  function Members(q: seq<string>): set<string> { set x | x in q }

  function EligibleAlternatives(catalog: ScopedCatalog, signals: set<string>, offered: seq<string>,
                                made: int, maxOffers: int): seq<string>
  {
    if made >= maxOffers then [] else Sorted(ApplicableIds(catalog, signals) - Members(offered))
  }

  /** The selector is untrusted: it may fail or propose any id with any confidence. */
  datatype SelectorReply = SelectorFails | Proposes(id: string, confidence: real)

  datatype Selection =
    | Approved(id: string)
    | NotEligible | AlreadyOffered | LowConfidence | Unauthorized | NoEligible | SelectorFailed

  function Authorize(catalog: ScopedCatalog, minConfidence: real, eligible: seq<string>, offered: seq<string>,
                     id: string, confidence: real): Selection
  {
    if eligible == [] then NoEligible
    else if id !in eligible then NotEligible
    else if id in offered then AlreadyOffered
    else if confidence < minConfidence then LowConfidence
    else if id !in catalog then Unauthorized
    else Approved(id)
  }

  function Select(catalog: ScopedCatalog, minConfidence: real, eligible: seq<string>, offered: seq<string>,
                  reply: SelectorReply): Selection
  {
    if eligible == [] then NoEligible
    else if |eligible| == 1 then Authorize(catalog, minConfidence, eligible, offered, eligible[0], 1.0)
    else
      match reply
      case SelectorFails => SelectorFailed
      case Proposes(id, confidence) => Authorize(catalog, minConfidence, eligible, offered, id, confidence)
  }

  datatype Offering = Offering(catalog: ScopedCatalog, minConfidence: real, maxOffers: int)

  datatype OfferResult = OfferResult(selection: Selection, eligible: seq<string>)

  function Offer(o: Offering, signals: set<string>, offered: seq<string>, made: int, reply: SelectorReply): OfferResult {
    var eligible := EligibleAlternatives(o.catalog, signals, offered, made, o.maxOffers);
    OfferResult(Select(o.catalog, o.minConfidence, eligible, offered, reply), eligible)
  }

  /** In the campaign's scope, and applicable under the signals at hand. */
  ghost predicate Offerable(catalog: ScopedCatalog, signals: set<string>, id: string) {
    id in catalog && exists key, signal :: Calls(catalog, signals, id, key, signal)
  }

  /** The service under this key has the id, and applies for this signal. */
  predicate Calls(catalog: ScopedCatalog, signals: set<string>, id: string, key: string, signal: string) {
    key in catalog && catalog[key].id == id && signal in catalog[key].applicableWhen && signal in signals
  }

  /** Whatever the selector proposes, what gets approved is in scope, applicable now, not offered before
      and within the offer limit; with one candidate left the selector has no say. */
  lemma ApprovedIsOfferable(o: Offering, signals: set<string>, offered: seq<string>, made: int, reply: SelectorReply)
    ensures var r := Offer(o, signals, offered, made, reply);
      r.selection.Approved? ==>
        && Offerable(o.catalog, signals, r.selection.id)
        && r.selection.id !in offered && r.selection.id in r.eligible && made < o.maxOffers
        && (|r.eligible| > 1 ==> reply.Proposes? && reply.id == r.selection.id && reply.confidence >= o.minConfidence)
  {
    var r := Offer(o, signals, offered, made, reply);
    if r.selection.Approved? {
      assert r.selection.id in ApplicableIds(o.catalog, signals) - Members(offered);
      var key :| key in o.catalog && Applicable(o.catalog[key], signals) && o.catalog[key].id == r.selection.id;
      var signal :| signal in o.catalog[key].applicableWhen * signals;
      assert Calls(o.catalog, signals, r.selection.id, key, signal);
    }
  }

  /** Eligible is everything applicable that was not offered yet, in ascending order, until the limit. */
  lemma EligibleExactly(catalog: ScopedCatalog, signals: set<string>, offered: seq<string>, made: int, maxOffers: int, id: string)
    ensures var eligible := EligibleAlternatives(catalog, signals, offered, made, maxOffers);
      && (id in eligible <==>
            && made < maxOffers && id !in offered
            && exists key, signal :: Calls(catalog, signals, id, key, signal))
      && Ascending(eligible)
  {
    assert id in Members(offered) <==> id in offered;
    if id in ApplicableIds(catalog, signals) {
      var key :| key in catalog && Applicable(catalog[key], signals) && catalog[key].id == id;
      var signal :| signal in catalog[key].applicableWhen * signals;
      assert Calls(catalog, signals, id, key, signal);
    }
    if key, signal :| Calls(catalog, signals, id, key, signal) {
      assert signal in catalog[key].applicableWhen * signals;
    }
  }

  /** Which service is approved: the only eligible one, or the one an answering selector proposes with enough
      confidence, as long as the campaign lists it. */
  lemma SelectedExactly(o: Offering, signals: set<string>, offered: seq<string>, made: int, reply: SelectorReply, id: string)
    ensures var eligible := EligibleAlternatives(o.catalog, signals, offered, made, o.maxOffers);
      Offer(o, signals, offered, made, reply).selection == Approved(id) <==>
        && id in eligible && id in o.catalog
        && (if |eligible| == 1 then o.minConfidence <= 1.0
            else reply.Proposes? && reply.id == id && reply.confidence >= o.minConfidence)
  {
    var eligible := EligibleAlternatives(o.catalog, signals, offered, made, o.maxOffers);
    forall x | x in eligible ensures x !in offered {
      EligibleExactly(o.catalog, signals, offered, made, o.maxOffers, x);
    }
  }

  /** Why nothing is approved, by the first thing that is wrong. */
  lemma RefusalsTell(o: Offering, signals: set<string>, offered: seq<string>, made: int, reply: SelectorReply)
    ensures var (eligible, selection) := (EligibleAlternatives(o.catalog, signals, offered, made, o.maxOffers),
                                          Offer(o, signals, offered, made, reply).selection);
      && Offer(o, signals, offered, made, reply).eligible == eligible
      && (selection == NoEligible <==> eligible == [])
      && (selection == SelectorFailed <==> |eligible| > 1 && reply == SelectorFails)
      && (|eligible| > 1 && reply.Proposes? ==>
            && (selection == NotEligible <==> reply.id !in eligible)
            && (selection == LowConfidence <==> reply.id in eligible && reply.confidence < o.minConfidence))
      && (selection == Unauthorized ==> eligible != [] && exists id :: id in eligible && id !in o.catalog)
  {
    var eligible := EligibleAlternatives(o.catalog, signals, offered, made, o.maxOffers);
    forall x | x in eligible ensures x !in offered {
      EligibleExactly(o.catalog, signals, offered, made, o.maxOffers, x);
    }
    assert |eligible| == 1 ==> eligible[0] in eligible;
  }
}
