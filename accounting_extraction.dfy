/**
 * The paginated listing loop of `AbstractAccountingDocumentsExtractServiceImpl`
 * (`getInvoicesForDateAndType`) and the two public extraction entry points
 * built on it.
 */
module AccountingExtraction {
  import opened Wrappers
  import opened Seqs
  import opened AccountingDocuments

  /** A point in time (`java.util.Date`), as milliseconds. */
  type Timestamp = int

  datatype PaymentStatus = Pending | Paid

  datatype AccountingDocumentState = Complete

  /** `MiraklGetInvoicesRequest` with the fields the service sets. */
  datatype ListingRequest = ListingRequest(
    startDate: Timestamp,
    paymentStatus: PaymentStatus,
    states: set<AccountingDocumentState>,
    documentType: string,
    max: nat,
    offset: nat)

  /** `HMCMiraklInvoice`: only its id is read by the service. */
  datatype MiraklInvoice = MiraklInvoice(id: string, otherFields: OtherFields)

  /** `HMCMiraklInvoices`: one page of documents and the server's total count. */
  datatype InvoicePage = InvoicePage(invoices: seq<MiraklInvoice>, totalCount: nat)

  datatype ApiError = MiraklApiException(message: string)

  /** The listing call of the Mirakl client; a failure propagates to the caller. */
  type Listing = ListingRequest -> Result<InvoicePage, ApiError>

  /**
   * One concrete extraction service: the collaborators injected into it and
   * the two members each subclass supplies (`getInvoiceType` and
   * `getMiraklInvoiceToAccountingModelConverter`).
   */
  datatype ExtractionService = ExtractionService(
    invoiceType: string,
    invoiceConverter: MiraklInvoice -> AccountingDocument,
    shopConverter: ShopConverter,
    listing: Listing,
    shopLookup: ShopLookup)

  /**
   * `createAccountingDocumentRequest`: pending payment, complete state, the
   * subclass's document type, `pageSize` (MIRAKL_MAX_RESULTS_PER_PAGE) per
   * page, documents from `delta` on; the offset is left at its default 0.
   */
  function CreateAccountingDocumentRequest(delta: Timestamp, invoiceType: string, pageSize: nat): (r: ListingRequest)
    ensures r.paymentStatus == Pending && r.states == {Complete}
    ensures r.max == pageSize && r.startDate == delta && r.documentType == invoiceType && r.offset == 0
  {
    ListingRequest(delta, Pending, {Complete}, invoiceType, pageSize, 0)
  }

  /** The k-th request of the loop: the base request at offset k * pageSize. */
  function RequestAt(base: ListingRequest, pageSize: nat, k: nat): ListingRequest
  {
    base.(offset := k * pageSize)
  }

  /** The first `k` requests of the loop, in the order they are sent. */
  function RequestsUpTo(base: ListingRequest, pageSize: nat, k: nat): (r: seq<ListingRequest>)
    ensures |r| == k
    ensures forall i :: 0 <= i < k ==> r[i] == RequestAt(base, pageSize, i)
  {
    if k == 0 then [] else RequestsUpTo(base, pageSize, k - 1) + [RequestAt(base, pageSize, k - 1)]
  }

  /** The documents of the first `k` pages, in order (a failed page adds none). */
  function Accumulated(listing: Listing, base: ListingRequest, pageSize: nat, k: nat): seq<MiraklInvoice>
  {
    if k == 0 then []
    else
      var page := listing(RequestAt(base, pageSize, k - 1));
      Accumulated(listing, base, pageSize, k - 1) + (if page.Success? then page.value.invoices else [])
  }

  /**
   * The loop leaves after the k-th request: it failed, or the documents
   * gathered so far reach the total count that page reported.
   */
  predicate EndsAt(listing: Listing, base: ListingRequest, pageSize: nat, k: nat)
  {
    var page := listing(RequestAt(base, pageSize, k));
    page.Failure? || page.value.totalCount <= |Accumulated(listing, base, pageSize, k + 1)|
  }

  /** The loop leaves at all: some request ends it (the server eventually agrees). */
  ghost predicate FetchEnds(listing: Listing, base: ListingRequest, pageSize: nat)
  {
    exists k :: EndsAt(listing, base, pageSize, k)
  }

  /** Index of the request that ends the loop: the first one that can. */
  ghost function LastRequest(listing: Listing, base: ListingRequest, pageSize: nat): (n: nat)
    requires FetchEnds(listing, base, pageSize)
    ensures EndsAt(listing, base, pageSize, n)
    ensures forall j :: 0 <= j < n ==> !EndsAt(listing, base, pageSize, j)
  {
    var bound :| EndsAt(listing, base, pageSize, bound);
    FirstEndFrom(listing, base, pageSize, 0, bound)
  }

  ghost function FirstEndFrom(listing: Listing, base: ListingRequest, pageSize: nat, k: nat, bound: nat): (n: nat)
    requires k <= bound && EndsAt(listing, base, pageSize, bound)
    requires forall j :: 0 <= j < k ==> !EndsAt(listing, base, pageSize, j)
    ensures k <= n <= bound && EndsAt(listing, base, pageSize, n)
    ensures forall j :: 0 <= j < n ==> !EndsAt(listing, base, pageSize, j)
    decreases bound - k
  {
    if EndsAt(listing, base, pageSize, k) then k else FirstEndFrom(listing, base, pageSize, k + 1, bound)
  }

  /** What the whole listing yields: the failure of the last request, or all pages' documents. */
  ghost function ListingOutcome(listing: Listing, base: ListingRequest, pageSize: nat): Result<seq<MiraklInvoice>, ApiError>
    requires FetchEnds(listing, base, pageSize)
  {
    var n := LastRequest(listing, base, pageSize);
    match listing(RequestAt(base, pageSize, n))
    case Failure(e) => Failure(e)
    case Success(_) => Success(Accumulated(listing, base, pageSize, n + 1))
  }

  /** The request that first ends the loop fixes what the loop returns. */
  lemma LoopEndsAt(listing: Listing, base: ListingRequest, pageSize: nat, k: nat)
    requires EndsAt(listing, base, pageSize, k)
    requires forall j :: 0 <= j < k ==> !EndsAt(listing, base, pageSize, j)
    ensures FetchEnds(listing, base, pageSize)
    ensures LastRequest(listing, base, pageSize) == k
  {
    assert EndsAt(listing, base, pageSize, k);
    var n := LastRequest(listing, base, pageSize);
    assert EndsAt(listing, base, pageSize, n);
  }

  /**
   * `getInvoicesForDateAndType`. Also returns the requests sent, in order:
   * the offsets are 0, pageSize, 2 * pageSize, ... whatever each page held,
   * every request carries the fixed filters, the loop stops at the first
   * request after which the total count is reached (or which fails), and
   * before that every request left fewer documents than the total count.
   * Termination is assumed (`FetchEnds`): the offset grows by the page size,
   * not by the documents received, so a server that keeps sending short
   * pages with a larger total count keeps the loop going for ever.
   */
  method GetInvoicesForDateAndType(service: ExtractionService, delta: Timestamp, pageSize: nat)
    returns (result: Result<seq<MiraklInvoice>, ApiError>, requests: seq<ListingRequest>)
    requires FetchEnds(service.listing, CreateAccountingDocumentRequest(delta, service.invoiceType, pageSize), pageSize)
    ensures var base := CreateAccountingDocumentRequest(delta, service.invoiceType, pageSize);
            && requests == RequestsUpTo(base, pageSize, LastRequest(service.listing, base, pageSize) + 1)
            && (forall i :: 0 <= i < |requests| - 1 ==> !EndsAt(service.listing, base, pageSize, i))
            && result == ListingOutcome(service.listing, base, pageSize)
  {
    var listing := service.listing;
    var invoices: seq<MiraklInvoice> := [];
    var offset: nat := 0;
    var request := CreateAccountingDocumentRequest(delta, service.invoiceType, pageSize);
    ghost var n := LastRequest(listing, request, pageSize);
    requests := [];
    while true
      invariant |requests| <= n
      invariant offset == |requests| * pageSize
      invariant invoices == Accumulated(listing, request, pageSize, |requests|)
      invariant requests == RequestsUpTo(request, pageSize, |requests|)
      decreases n - |requests|
    {
      ghost var k := |requests|;
      var sent := request.(offset := offset);
      assert sent == RequestAt(request, pageSize, k);
      requests := requests + [sent];
      var received := listing(sent);
      if received.Failure? {
        LoopEndsAt(listing, request, pageSize, k);
        result := Failure(received.error);
        return;
      }
      invoices := invoices + received.value.invoices;
      assert invoices == Accumulated(listing, request, pageSize, k + 1);
      if received.value.totalCount <= |invoices| {
        LoopEndsAt(listing, request, pageSize, k);
        result := Success(invoices);
        return;
      }
      assert !EndsAt(listing, request, pageSize, k);
      NextOffset(k, pageSize);
      offset := offset + pageSize;
    }
  }

  /**
   * `extractAccountingDocuments(delta)`: every fetched document converted,
   * then only those whose shop resolved to a token and a program, enriched
   * with them; also returns the alert e-mails of failed shop lookups. A
   * listing failure propagates and nothing else happens.
   */
  method ExtractAccountingDocuments(service: ExtractionService, delta: Timestamp, pageSize: nat)
    returns (result: Result<seq<AccountingDocument>, ApiError>, alerts: seq<ShopLookupAlert>)
    requires FetchEnds(service.listing, CreateAccountingDocumentRequest(delta, service.invoiceType, pageSize), pageSize)
    ensures var fetched := ListingOutcome(service.listing, CreateAccountingDocumentRequest(delta, service.invoiceType, pageSize), pageSize);
            match fetched
            case Failure(e) => result == Failure(e) && alerts == []
            case Success(invoices) =>
              var docs := Map(invoices, service.invoiceConverter);
              var resolution := GetMiraklShops(docs, service.shopLookup);
              && alerts == resolution.alerts
              && result == Success(AssociateBillingDocumentsWithTokens(docs,
                   MapShopsWithDestinationToken(Some(resolution.shops), service.shopConverter)))
    ensures result.Success? ==> forall d :: d in result.value ==> d.destinationToken.Some? && d.hyperwalletProgram.Some?
  {
    var fetched, _ := GetInvoicesForDateAndType(service, delta, pageSize);
    if fetched.Failure? {
      return Failure(fetched.error), [];
    }
    var invoices := fetched.value;
    var docs := Map(invoices, service.invoiceConverter);
    var resolution := GetMiraklShops(docs, service.shopLookup);
    var tokens := MapShopsWithDestinationToken(Some(resolution.shops), service.shopConverter);
    result := Success(AssociateBillingDocumentsWithTokens(docs, tokens));
    alerts := resolution.alerts;
  }

  function HasIdIn(ids: seq<string>): MiraklInvoice -> bool
  {
    (invoice: MiraklInvoice) => invoice.id in ids
  }

  /**
   * `extractAccountingDocuments(ids)`: the fetched documents whose id is
   * listed, converted, in fetch order, without any token association. The
   * start of the window (`now` minus the configured look-back) is given.
   */
  method ExtractAccountingDocumentsByIds(service: ExtractionService, ids: seq<string>, windowStart: Timestamp, pageSize: nat)
    returns (result: Result<seq<AccountingDocument>, ApiError>)
    requires FetchEnds(service.listing, CreateAccountingDocumentRequest(windowStart, service.invoiceType, pageSize), pageSize)
    ensures var fetched := ListingOutcome(service.listing, CreateAccountingDocumentRequest(windowStart, service.invoiceType, pageSize), pageSize);
            match fetched
            case Failure(e) => result == Failure(e)
            case Success(invoices) =>
              var selected := Filter(invoices, HasIdIn(ids));
              && SubsequenceOf(selected, invoices)
              && (forall v :: v in invoices ==> (v in selected <==> v.id in ids))
              && result == Success(Map(selected, service.invoiceConverter))
  {
    var fetched, _ := GetInvoicesForDateAndType(service, windowStart, pageSize);
    if fetched.Failure? {
      return Failure(fetched.error);
    }
    var selected := Filter(fetched.value, HasIdIn(ids));
    FilterIsSubsequence(fetched.value, HasIdIn(ids));
    result := Success(Map(selected, service.invoiceConverter));
  }

  /**
   * A server that keeps reporting one document but sends empty pages never
   * lets the loop end: the termination assumption is not vacuous.
   */
  lemma EmptyPagesNeverEnd(base: ListingRequest, pageSize: nat)
    ensures !FetchEnds(_ => Success(InvoicePage([], 1)), base, pageSize)
  {
    var listing: Listing := _ => Success(InvoicePage([], 1));
    forall k: nat ensures !EndsAt(listing, base, pageSize, k) {
      EmptyPagesAccumulateNothing(base, pageSize, k + 1);
    }
  }

  lemma {:induction false} EmptyPagesAccumulateNothing(base: ListingRequest, pageSize: nat, k: nat)
    ensures Accumulated(_ => Success(InvoicePage([], 1)), base, pageSize, k) == []
  {
    if k > 0 {
      EmptyPagesAccumulateNothing(base, pageSize, k - 1);
    }
  }

  function Min(a: nat, b: nat): nat
  {
    if a <= b then a else b
  }

  /**
   * A well-behaved server: a fixed list of documents served `pageSize` at a
   * time from the requested offset, with its length as the total count.
   */
  function SnapshotListing(records: seq<MiraklInvoice>, pageSize: nat): Listing
  {
    (r: ListingRequest) =>
      Success(InvoicePage(records[Min(r.offset, |records|)..Min(r.offset + pageSize, |records|)], |records|))
  }

  lemma {:induction false} SnapshotAccumulated(records: seq<MiraklInvoice>, base: ListingRequest, pageSize: nat, k: nat)
    ensures Accumulated(SnapshotListing(records, pageSize), base, pageSize, k) == records[..Min(k * pageSize, |records|)]
  {
    if k > 0 {
      SnapshotAccumulated(records, base, pageSize, k - 1);
      var offset := (k - 1) * pageSize;
      NextOffset(k - 1, pageSize);
      var lo := Min(offset, |records|);
      var hi := Min(offset + pageSize, |records|);
      assert SnapshotListing(records, pageSize)(RequestAt(base, pageSize, k - 1)).value.invoices == records[lo..hi];
      assert records[..lo] + records[lo..hi] == records[..hi];
    }
  }

  /** Against the snapshot server the loop leaves after request `k` exactly when k + 1 pages hold every document. */
  lemma SnapshotEndsAt(records: seq<MiraklInvoice>, base: ListingRequest, pageSize: nat, k: nat)
    ensures EndsAt(SnapshotListing(records, pageSize), base, pageSize, k) <==> |records| <= (k + 1) * pageSize
  {
    SnapshotAccumulated(records, base, pageSize, k + 1);
  }

  /**
   * Against a well-behaved server with a positive page size the loop sends
   * ceil(N / pageSize) requests (one when there is nothing) and returns the
   * N documents in order.
   */
  lemma SnapshotFetchReturnsAll(records: seq<MiraklInvoice>, base: ListingRequest, pageSize: nat)
    requires pageSize > 0
    ensures var listing := SnapshotListing(records, pageSize);
            && FetchEnds(listing, base, pageSize)
            && (records == [] ==> LastRequest(listing, base, pageSize) == 0)
            && (records != [] ==> LastRequest(listing, base, pageSize) * pageSize < |records| <= (LastRequest(listing, base, pageSize) + 1) * pageSize)
            && ListingOutcome(listing, base, pageSize) == Success(records)
  {
    var listing := SnapshotListing(records, pageSize);
    var n := if records == [] then 0 else (|records| - 1) / pageSize;
    assert records != [] ==> n * pageSize < |records| <= (n + 1) * pageSize by {
      if records != [] {
        DivBounds(|records| - 1, pageSize);
      }
    }
    SnapshotEndsAt(records, base, pageSize, n);
    forall j | 0 <= j < n ensures !EndsAt(listing, base, pageSize, j) {
      SnapshotEndsAt(records, base, pageSize, j);
      MulMonotone(j + 1, n, pageSize);
    }
    LoopEndsAt(listing, base, pageSize, n);
    SnapshotAccumulated(records, base, pageSize, n + 1);
    assert Min((n + 1) * pageSize, |records|) == |records|;
    assert records[..|records|] == records;
    assert listing(RequestAt(base, pageSize, n)).Success?;
  }

  lemma NextOffset(k: nat, pageSize: nat)
    ensures (k + 1) * pageSize == k * pageSize + pageSize
  {
  }

  lemma DivBounds(a: nat, b: nat)
    requires b > 0
    ensures (a / b) * b <= a < (a / b + 1) * b
  {
  }

  lemma MulMonotone(a: nat, b: nat, c: nat)
    requires a <= b
    ensures a * c <= b * c
  {
  }
}
