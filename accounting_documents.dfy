/**
 * The stream stages of the accounting-document extraction service
 * (`AbstractAccountingDocumentsExtractServiceImpl`): resolving shop ids to
 * Mirakl shops in batches, building the shop -> (destination token, program)
 * map, and keeping and enriching only the documents whose shop is mapped.
 */
module AccountingDocuments {
  import opened Wrappers
  import opened Seqs

  /** Largest number of shop ids sent in one shop lookup. */
  const ShopLookupBatchSize: nat := 100

  const ShopLookupFailureSubject: string := "Issue detected getting shops in Mirakl"

  /** Fields of a record that no stage of the pipeline reads or writes. */
  datatype OtherFields = OtherFields(values: map<string, string>)

  /** `AccountingDocumentModel` (invoice or credit note); `None` is Java's null. */
  datatype AccountingDocument = AccountingDocument(
    invoiceNumber: string,
    shopId: Option<string>,
    destinationToken: Option<string>,
    hyperwalletProgram: Option<string>,
    otherFields: OtherFields)

  datatype MiraklShop = MiraklShop(id: string, otherFields: OtherFields)

  /** The `Pair<String, String>` of the token map: both halves are non-null. */
  datatype TokenPair = TokenPair(destinationToken: string, hyperwalletProgram: string)

  /** `MiraklGetShopsRequest` as built by `createShopRequest`. */
  datatype ShopsRequest = ShopsRequest(shopIds: set<string>, paginate: bool)

  /** The e-mail sent when one batch lookup fails; the body's formatting is not modelled. */
  datatype ShopLookupAlert = ShopLookupAlert(subject: string, shopIds: set<string>)

  /**
   * What resolving shop ids produces: the shops returned, every lookup request
   * sent (in order) and every alert e-mail sent (in order).
   */
  datatype ShopResolution = ShopResolution(shops: seq<MiraklShop>, requests: seq<ShopsRequest>, alerts: seq<ShopLookupAlert>)

  /**
   * The shop lookup of the Mirakl client; `None` is a `MiraklApiException`.
   * Other exceptions of `getShops` are not modelled.
   */
  type ShopLookup = ShopsRequest -> Option<seq<MiraklShop>>

  /** `miraklShopToAccountingModelConverter`, not part of this model. */
  type ShopConverter = MiraklShop -> AccountingDocument

  function SetOf(ids: seq<string>): set<string>
  {
    set id | id in ids
  }

  /** `createShopRequest`: the given ids, pagination switched off. */
  function CreateShopRequest(shopIds: set<string>): (r: ShopsRequest)
    ensures r.shopIds == shopIds && !r.paginate
  {
    ShopsRequest(shopIds, false)
  }

  /** Lookup result for one batch, with a failure replaced by no shops. */
  function BatchShops(batch: seq<string>, lookup: ShopLookup): seq<MiraklShop>
  {
    lookup(CreateShopRequest(SetOf(batch))).GetOr([])
  }

  predicate BatchFails(batch: seq<string>, lookup: ShopLookup)
  {
    lookup(CreateShopRequest(SetOf(batch))).None?
  }

  /**
   * `getAllShopsWithoutPartitioning`: no ids, no call; otherwise exactly one
   * lookup, whose failure is logged, alerted once and turned into no shops.
   */
  function GetAllShopsWithoutPartitioning(shopIds: seq<string>, lookup: ShopLookup): (r: ShopResolution)
    ensures shopIds == [] ==> r == ShopResolution([], [], [])
    ensures shopIds != [] ==> r.requests == [ShopsRequest(SetOf(shopIds), false)]
    ensures shopIds != [] && BatchFails(shopIds, lookup) ==>
              r.shops == [] && r.alerts == [ShopLookupAlert(ShopLookupFailureSubject, SetOf(shopIds))]
    ensures shopIds != [] && !BatchFails(shopIds, lookup) ==>
              r.alerts == [] && Some(r.shops) == lookup(r.requests[0])
  {
    if shopIds == [] then ShopResolution([], [], [])
    else
      var request := CreateShopRequest(SetOf(shopIds));
      match lookup(request)
      case Some(shops) => ShopResolution(shops, [request], [])
      case None => ShopResolution([], [request], [ShopLookupAlert(ShopLookupFailureSubject, shopIds := SetOf(shopIds))])
  }

  function Concat(a: ShopResolution, b: ShopResolution): ShopResolution
  {
    ShopResolution(a.shops + b.shops, a.requests + b.requests, a.alerts + b.alerts)
  }

  /** `partitioned.stream().map(getAllShopsWithoutPartitioning).flatMap(List::stream)`. */
  function ResolveBatches(batches: seq<seq<string>>, lookup: ShopLookup): ShopResolution
  {
    if batches == [] then ShopResolution([], [], [])
    else Concat(GetAllShopsWithoutPartitioning(batches[0], lookup), ResolveBatches(batches[1..], lookup))
  }

  /** `getAllShops`: no ids gives no shops and no call; otherwise batches of at most 100. */
  function GetAllShops(shopIds: seq<string>, lookup: ShopLookup): (r: ShopResolution)
    ensures shopIds == [] ==> r.shops == [] && r.requests == [] && r.alerts == []
  {
    if shopIds == [] then ShopResolution([], [], [])
    else ResolveBatches(Partition(shopIds, ShopLookupBatchSize), lookup)
  }

  function FailedBatches(batches: seq<seq<string>>, lookup: ShopLookup): seq<seq<string>>
  {
    Filter(batches, b => BatchFails(b, lookup))
  }

  /** Resolving non-empty batches sends exactly one request per batch, in batch order. */
  lemma {:induction false} ResolveBatchesRequests(batches: seq<seq<string>>, lookup: ShopLookup)
    requires forall i :: 0 <= i < |batches| ==> batches[i] != []
    ensures var reqs := ResolveBatches(batches, lookup).requests;
            |reqs| == |batches| && forall i :: 0 <= i < |batches| ==> reqs[i] == CreateShopRequest(SetOf(batches[i]))
  {
    if batches != [] {
      ResolveBatchesRequests(batches[1..], lookup);
    }
  }

  function BatchShopsAll(batches: seq<seq<string>>, lookup: ShopLookup): (r: seq<seq<MiraklShop>>)
    ensures |r| == |batches| && forall i :: 0 <= i < |batches| ==> r[i] == BatchShops(batches[i], lookup)
  {
    seq(|batches|, i requires 0 <= i < |batches| => BatchShops(batches[i], lookup))
  }

  /**
   * The shops are the successful batches' answers concatenated in batch
   * order; a failed batch contributes nothing and stops nothing.
   */
  lemma {:induction false} ResolveBatchesShops(batches: seq<seq<string>>, lookup: ShopLookup)
    requires forall i :: 0 <= i < |batches| ==> batches[i] != []
    ensures ResolveBatches(batches, lookup).shops == Flatten(BatchShopsAll(batches, lookup))
  {
    if batches != [] {
      ResolveBatchesShops(batches[1..], lookup);
      assert BatchShopsAll(batches, lookup)[1..] == BatchShopsAll(batches[1..], lookup);
    }
  }

  function AlertsFor(failed: seq<seq<string>>): (r: seq<ShopLookupAlert>)
    ensures |r| == |failed| && forall i :: 0 <= i < |failed| ==> r[i] == ShopLookupAlert(ShopLookupFailureSubject, SetOf(failed[i]))
  {
    seq(|failed|, i requires 0 <= i < |failed| => ShopLookupAlert(ShopLookupFailureSubject, SetOf(failed[i])))
  }

  /** One alert per failed batch, in batch order, naming that batch's ids. */
  lemma {:induction false} ResolveBatchesAlerts(batches: seq<seq<string>>, lookup: ShopLookup)
    requires forall i :: 0 <= i < |batches| ==> batches[i] != []
    ensures ResolveBatches(batches, lookup).alerts == AlertsFor(FailedBatches(batches, lookup))
  {
    if batches != [] {
      ResolveBatchesAlerts(batches[1..], lookup);
      assert FailedBatches(batches, lookup)
               == (if BatchFails(batches[0], lookup) then [batches[0]] else []) + FailedBatches(batches[1..], lookup);
    }
  }

  /**
   * Failure isolation of `getAllShops`: every shop returned by a successful
   * batch is in the result whatever the other batches did, and every shop in
   * the result was returned by some successful batch.
   */
  lemma GetAllShopsIsolatesFailures(shopIds: seq<string>, lookup: ShopLookup)
    requires shopIds != []
    ensures var batches := Partition(shopIds, ShopLookupBatchSize);
            var r := GetAllShops(shopIds, lookup);
            && |r.requests| == |batches|
            && (forall j, shop ::
                  (0 <= j < |batches| && !BatchFails(batches[j], lookup) && shop in BatchShops(batches[j], lookup))
                  ==> shop in r.shops)
            && (forall shop :: shop in r.shops ==>
                  exists j :: 0 <= j < |batches| && !BatchFails(batches[j], lookup) && shop in BatchShops(batches[j], lookup))
            && |r.alerts| == |FailedBatches(batches, lookup)|
  {
    var batches := Partition(shopIds, ShopLookupBatchSize);
    ResolveBatchesRequests(batches, lookup);
    ResolveBatchesShops(batches, lookup);
    ResolveBatchesAlerts(batches, lookup);
    var shopsOf := BatchShopsAll(batches, lookup);
    var r := GetAllShops(shopIds, lookup);
    forall j, shop | 0 <= j < |batches| && !BatchFails(batches[j], lookup) && shop in BatchShops(batches[j], lookup)
      ensures shop in r.shops
    {
      assert shop in shopsOf[j];
      FlattenMember(shopsOf, j, shop);
    }
    forall shop | shop in r.shops
      ensures exists j :: 0 <= j < |batches| && !BatchFails(batches[j], lookup) && shop in BatchShops(batches[j], lookup)
    {
      FlattenMemberInverse(shopsOf, shop);
      var j :| 0 <= j < |shopsOf| && shop in shopsOf[j];
      assert shop in BatchShops(batches[j], lookup);
    }
  }

  /** The distinct non-null shop ids of the documents, in order of first appearance. */
  function DistinctShopIds(docs: seq<AccountingDocument>): (ids: seq<string>)
    ensures NoDuplicates(ids)
    ensures forall id :: id in ids <==> exists d :: d in docs && d.shopId == Some(id)
  {
    DistinctShopIdsFrom(docs, [])
  }

  function DistinctShopIdsFrom(docs: seq<AccountingDocument>, seen: seq<string>): (ids: seq<string>)
    requires NoDuplicates(seen)
    ensures NoDuplicates(ids)
    ensures forall id :: id in ids <==> id in seen || exists d :: d in docs && d.shopId == Some(id)
    decreases |docs|
  {
    if docs == [] then seen
    else
      var next := match docs[0].shopId
        case Some(id) => if id in seen then seen else seen + [id]
        case None => seen;
      var r := DistinctShopIdsFrom(docs[1..], next);
      assert forall d :: d in docs <==> d == docs[0] || d in docs[1..];
      r
  }

  /**
   * `getMiraklShops`: the documents' distinct non-null shop ids resolved in
   * batches (the Java set's iteration order is unspecified; this model takes
   * first appearance, and the batch lemmas hold for any duplicate-free order).
   */
  function GetMiraklShops(docs: seq<AccountingDocument>, lookup: ShopLookup): (r: ShopResolution)
  {
    GetAllShops(DistinctShopIds(docs), lookup)
  }

  /** No shop id is asked for in two different lookup requests. */
  ghost predicate PairwiseDisjoint(reqs: seq<ShopsRequest>)
  {
    forall i, j, id :: 0 <= i < j < |reqs| && id in reqs[i].shopIds ==> id !in reqs[j].shopIds
  }

  ghost predicate Requested(reqs: seq<ShopsRequest>, id: string)
  {
    exists i :: 0 <= i < |reqs| && id in reqs[i].shopIds
  }

  /**
   * On duplicate-free ids, `getAllShops` asks for each id in exactly one
   * lookup request, asks for nothing else, and no request holds more than
   * 100 ids.
   */
  lemma GetAllShopsAsksEachIdOnce(ids: seq<string>, lookup: ShopLookup)
    requires NoDuplicates(ids)
    ensures var reqs := GetAllShops(ids, lookup).requests;
            && PairwiseDisjoint(reqs)
            && (forall id :: Requested(reqs, id) <==> id in ids)
            && (forall i :: 0 <= i < |reqs| ==> 0 < |reqs[i].shopIds| <= ShopLookupBatchSize)
            && |ids| <= |reqs| * ShopLookupBatchSize < |ids| + ShopLookupBatchSize
  {
    var reqs := GetAllShops(ids, lookup).requests;
    if ids != [] {
      var batches := Partition(ids, ShopLookupBatchSize);
      ResolveBatchesRequests(batches, lookup);
      PartitionDisjoint(ids, ShopLookupBatchSize);
      PartitionFlattens(ids, ShopLookupBatchSize);
      PartitionCount(ids, ShopLookupBatchSize);
      forall id | Requested(reqs, id) ensures id in ids {
        var i :| 0 <= i < |reqs| && id in reqs[i].shopIds;
        FlattenMember(batches, i, id);
      }
      forall id | id in ids ensures Requested(reqs, id) {
        FlattenMemberInverse(batches, id);
        var i :| 0 <= i < |batches| && id in batches[i];
        assert id in reqs[i].shopIds;
      }
      forall i | 0 <= i < |reqs| ensures 0 < |reqs[i].shopIds| <= ShopLookupBatchSize {
        SetOfSize(batches[i]);
      }
    }
  }

  /**
   * `getMiraklShops` asks for every non-null shop id of the documents in
   * exactly one lookup request and for nothing else.
   */
  lemma GetMiraklShopsAsksOnce(docs: seq<AccountingDocument>, lookup: ShopLookup)
    ensures var reqs := GetMiraklShops(docs, lookup).requests;
            && PairwiseDisjoint(reqs)
            && (forall id :: Requested(reqs, id) <==> exists d :: d in docs && d.shopId == Some(id))
            && (forall i :: 0 <= i < |reqs| ==> 0 < |reqs[i].shopIds| <= ShopLookupBatchSize)
  {
    GetAllShopsAsksEachIdOnce(DistinctShopIds(docs), lookup);
  }

  lemma {:induction false} SetOfSize(ids: seq<string>)
    ensures |SetOf(ids)| <= |ids|
    ensures ids != [] ==> |SetOf(ids)| > 0
  {
    if ids != [] {
      SetOfSize(ids[1..]);
      assert SetOf(ids) == {ids[0]} + SetOf(ids[1..]);
      assert ids[0] in SetOf(ids);
    }
  }

  /** A converted shop that has both a destination token and a program. */
  predicate IsMappable(d: AccountingDocument)
  {
    d.destinationToken.Some? && d.hyperwalletProgram.Some?
  }

  function TokenPairOf(d: AccountingDocument): TokenPair
    requires IsMappable(d)
  {
    TokenPair(d.destinationToken.value, d.hyperwalletProgram.value)
  }

  /**
   * `Collectors.toMap(getShopId, pair, (i1, i2) -> i1)` over the mappable
   * converted shops, folding left into `acc`: an id already present keeps
   * its value.
   */
  function CollectKeepFirst(acc: map<Option<string>, TokenPair>, models: seq<AccountingDocument>): map<Option<string>, TokenPair>
    decreases |models|
  {
    if models == [] then acc
    else
      var d := models[0];
      var next := if IsMappable(d) && d.shopId !in acc then acc[d.shopId := TokenPairOf(d)] else acc;
      CollectKeepFirst(next, models[1..])
  }

  /** `models[i]` is the first mappable model with its shop id. */
  ghost predicate FirstMappableAt(models: seq<AccountingDocument>, i: int)
  {
    && 0 <= i < |models| && IsMappable(models[i])
    && forall j :: 0 <= j < i ==> !(IsMappable(models[j]) && models[j].shopId == models[i].shopId)
  }

  /** `mapShopsWithDestinationToken`: a null shop list gives the empty map. */
  function MapShopsWithDestinationToken(shops: Option<seq<MiraklShop>>, convert: ShopConverter): (m: map<Option<string>, TokenPair>)
    ensures shops.None? ==> m == map[]
  {
    match shops
    case None => map[]
    case Some(s) => CollectKeepFirst(map[], Map(s, convert))
  }

  lemma {:induction false} CollectKeepFirstSpec(acc: map<Option<string>, TokenPair>, models: seq<AccountingDocument>)
    ensures var m := CollectKeepFirst(acc, models);
            && (forall k :: k in m <==> k in acc || exists i :: 0 <= i < |models| && IsMappable(models[i]) && models[i].shopId == k)
            && (forall k :: k in acc ==> m[k] == acc[k])
            && (forall i :: FirstMappableAt(models, i) && models[i].shopId !in acc ==> m[models[i].shopId] == TokenPairOf(models[i]))
    decreases |models|
  {
    if models != [] {
      var d := models[0];
      var next := if IsMappable(d) && d.shopId !in acc then acc[d.shopId := TokenPairOf(d)] else acc;
      var tail := models[1..];
      CollectKeepFirstSpec(next, tail);
      var m := CollectKeepFirst(acc, models);
      assert m == CollectKeepFirst(next, tail);
      forall k | k in m ensures k in acc || exists i :: 0 <= i < |models| && IsMappable(models[i]) && models[i].shopId == k {
        if k !in acc && k !in next {
          var i :| 0 <= i < |tail| && IsMappable(tail[i]) && tail[i].shopId == k;
          assert models[i + 1] == tail[i];
        }
      }
      forall k | k in acc || exists i :: 0 <= i < |models| && IsMappable(models[i]) && models[i].shopId == k
        ensures k in m
      {
        if k !in acc {
          var i :| 0 <= i < |models| && IsMappable(models[i]) && models[i].shopId == k;
          if i > 0 {
            assert tail[i - 1] == models[i];
          }
        }
      }
      forall i | FirstMappableAt(models, i) && models[i].shopId !in acc
        ensures m[models[i].shopId] == TokenPairOf(models[i])
      {
        if i > 0 {
          assert !(IsMappable(d) && d.shopId == models[i].shopId);
          assert FirstMappableAt(tail, i - 1) by {
            forall j | 0 <= j < i - 1 ensures !(IsMappable(tail[j]) && tail[j].shopId == tail[i - 1].shopId) {
              assert tail[j] == models[j + 1];
            }
          }
        }
      }
    }
  }

  /**
   * The token map holds a shop id exactly when some converted shop with that
   * id has a token and a program, and then holds the first such shop's pair.
   */
  lemma TokenMapKeepsFirst(shops: seq<MiraklShop>, convert: ShopConverter)
    ensures var m := MapShopsWithDestinationToken(Some(shops), convert);
            && (forall k :: k in m <==> exists i :: 0 <= i < |shops| && IsMappable(convert(shops[i])) && convert(shops[i]).shopId == k)
            && (forall i :: FirstMappableAt(Map(shops, convert), i)
                  ==> m[convert(shops[i]).shopId] == TokenPairOf(convert(shops[i])))
  {
    var models := Map(shops, convert);
    CollectKeepFirstSpec(map[], models);
  }

  /** The documents of `filterOnlyMappableDocuments`: kept ones, and the skipped ones' numbers for the log. */
  datatype MappableSplit = MappableSplit(mappable: seq<AccountingDocument>, skippedInvoiceNumbers: seq<string>)

  function InvoiceNumbers(docs: seq<AccountingDocument>): seq<string>
  {
    seq(|docs|, i requires 0 <= i < |docs| => docs[i].invoiceNumber)
  }

  /** The filter condition of `filterOnlyMappableDocuments` and its negation. */
  function ShopIn(shopIds: set<Option<string>>): AccountingDocument -> bool
  {
    (d: AccountingDocument) => d.shopId in shopIds
  }

  function ShopNotIn(shopIds: set<Option<string>>): AccountingDocument -> bool
  {
    (d: AccountingDocument) => d.shopId !in shopIds
  }

  /** `filterOnlyMappableDocuments`: keeps the documents whose shop id is a key; logs the others. */
  function FilterOnlyMappableDocuments(docs: seq<AccountingDocument>, shopIds: set<Option<string>>): (r: MappableSplit)
    ensures forall d :: d in r.mappable <==> d in docs && d.shopId in shopIds
  {
    MappableSplit(
      Filter(docs, ShopIn(shopIds)),
      InvoiceNumbers(Filter(docs, ShopNotIn(shopIds))))
  }

  /**
   * The kept documents are an order-preserving subsequence of the input; the
   * logged numbers are those of the complementary subsequence, also in order;
   * together they account for every input document.
   */
  lemma FilterOnlyMappableDocumentsSplits(docs: seq<AccountingDocument>, shopIds: set<Option<string>>)
    ensures var r := FilterOnlyMappableDocuments(docs, shopIds);
            var skipped := Filter(docs, ShopNotIn(shopIds));
            && SubsequenceOf(r.mappable, docs)
            && SubsequenceOf(skipped, docs)
            && (forall d :: d in skipped <==> d in docs && d.shopId !in shopIds)
            && r.skippedInvoiceNumbers == InvoiceNumbers(skipped)
            && |r.mappable| + |skipped| == |docs|
  {
    var p := ShopIn(shopIds);
    FilterIsSubsequence(docs, p);
    FilterIsSubsequence(docs, ShopNotIn(shopIds));
    FilterComplementLength(docs, p);
    FilterSameCondition(docs, x => !p(x), ShopNotIn(shopIds));
  }

  /** The document rebuilt with the token and program of its shop; nothing else changes. */
  function WithTokens(d: AccountingDocument, t: TokenPair): AccountingDocument
  {
    d.(destinationToken := Some(t.destinationToken), hyperwalletProgram := Some(t.hyperwalletProgram))
  }

  /** `associateBillingDocumentsWithTokens`. */
  function AssociateBillingDocumentsWithTokens(docs: seq<AccountingDocument>, tokens: map<Option<string>, TokenPair>)
    : (r: seq<AccountingDocument>)
    ensures forall d :: d in r ==> d.destinationToken.Some? && d.hyperwalletProgram.Some? && d.shopId in tokens
  {
    var kept := FilterOnlyMappableDocuments(docs, tokens.Keys).mappable;
    seq(|kept|, i requires 0 <= i < |kept| => WithTokens(kept[i], tokens[kept[i].shopId]))
  }

  /**
   * One output document per input document whose shop id is mapped, in input
   * order; each carries its shop's token and program and every other field of
   * its input document.
   */
  lemma AssociateBillingDocumentsWithTokensSpec(docs: seq<AccountingDocument>, tokens: map<Option<string>, TokenPair>)
    ensures var kept := Filter(docs, ShopIn(tokens.Keys));
            var r := AssociateBillingDocumentsWithTokens(docs, tokens);
            && SubsequenceOf(kept, docs)
            && |r| == |kept|
            && forall i :: 0 <= i < |r| ==>
                 && kept[i].shopId in tokens
                 && r[i].invoiceNumber == kept[i].invoiceNumber
                 && r[i].shopId == kept[i].shopId
                 && r[i].otherFields == kept[i].otherFields
                 && r[i].destinationToken == Some(tokens[kept[i].shopId].destinationToken)
                 && r[i].hyperwalletProgram == Some(tokens[kept[i].shopId].hyperwalletProgram)
  {
    FilterIsSubsequence(docs, ShopIn(tokens.Keys));
  }

  /** Reconciling again with the same map changes nothing. */
  lemma AssociateIsIdempotent(docs: seq<AccountingDocument>, tokens: map<Option<string>, TokenPair>)
    ensures AssociateBillingDocumentsWithTokens(AssociateBillingDocumentsWithTokens(docs, tokens), tokens)
              == AssociateBillingDocumentsWithTokens(docs, tokens)
  {
    var r := AssociateBillingDocumentsWithTokens(docs, tokens);
    var p := ShopIn(tokens.Keys);
    assert Filter(r, p) == r by {
      FilterAll(r, p);
    }
  }

  /**
   * The reconciliation example: with documents for shops "1" and "2" and only
   * shop "1" mapped, the output is the first document enriched; the second is
   * dropped and its number logged.
   */
  lemma ReconciliationDropsUnmappedShop(a: AccountingDocument, b: AccountingDocument, x: string, y: string)
    requires a.shopId == Some("1") && b.shopId == Some("2")
    ensures AssociateBillingDocumentsWithTokens([a, b], map[Some("1") := TokenPair(x, y)])
              == [a.(destinationToken := Some(x), hyperwalletProgram := Some(y))]
    ensures FilterOnlyMappableDocuments([a, b], {Some("1")}).skippedInvoiceNumbers == [b.invoiceNumber]
  {
    var tokens := map[Some("1") := TokenPair(x, y)];
    assert Some("2") !in tokens.Keys;
    assert [a, b][1..] == [b];
    assert Filter([a, b], ShopIn(tokens.Keys)) == [a];
    assert Filter([a, b], ShopNotIn({Some("1")})) == [b];
  }
}
