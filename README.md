# Mirakl–Hyperwallet connector: verified model of the extraction core

This project models, in Dafny, the parts of the Mirakl–Hyperwallet
connector that do the real work between the two platforms:

- **Accounting-document extraction** (`AbstractAccountingDocumentsExtractServiceImpl`),
  in `accounting_documents.dfy` and `accounting_extraction.dfy`.
  - The paginated `while (true)` listing loop is an imperative method. It
    requests offsets 0, P, 2P, … and appends each page.
  - Shop ids are resolved in batches of at most 100. A batch whose lookup
    throws `MiraklApiException` is isolated and turned into one alert e-mail.
  - The shop → (destination token, program) map keeps the first entry for a
    shop id.
  - Documents are filtered to the mapped shops and enriched with their
    token and program.
  - Both `extractAccountingDocuments` overloads are modelled.
- **Bank-account create/update strategies** (`bank_account_strategies.dfy`).
  - Create and update each have an `isApplicable` predicate. For every seller
    with bank-account details exactly one of them applies.
  - Each strategy's Hyperwallet call goes through the program's client.
  - The create strategy's `execute` writes the new token back to Mirakl
    exactly when an account was created. The update strategy inherits
    `execute` and writes nothing.
- **QA mock KYC document upload** (`kyc_mock_upload.dfy`).
  - Upload-path templating uses Java `String.replace` semantics: every
    occurrence is replaced, and `{userToken}` is replaced before `{bstToken}`.
  - Failing-file detection checks whether any file name contains `fail`.
  - `invokeHyperwalletAPI` either throws before posting, or posts exactly
    once and fails exactly when that post fails.
- **Currency-priority configuration** (`currency_priority.dfy`).
  - The string `GLOBAL1,GLOBAL2;COUNTRY:CUR1,CUR2;…` is parsed into a global
    list and per-country lists.
  - The four unit tests of `HyperwalletBankAccountCurrencyResolutionConfigurationTest`
    are proved as lemmas.
  - A round trip is proved: rendering well-formed segments and parsing the
    result gives back what the segments say.

Shared helpers are in `wrappers.dfy` (`Option`, `Result`, `Outcome`),
`seqs.dfy` (filter, flatten, partition, subsequence) and `strings.dfy`.
`strings.dfy` has Java's `trim`, `contains` and `replace`, and a split on one character that keeps empty parts (trailing ones included), with its join.

External systems are parameters of the model:

- the Mirakl listing and shop-lookup calls;
- the two converters;
- the Hyperwallet SDK;
- the retrying base `execute`.

Java `null` is `Option.None`. A thrown exception is a `Result.Failure` or
`Outcome.Fail` value. Effects are modelled as state:

- the mock upload's `posts` and the Mirakl service's `writeBacks` are class
  fields that the methods append to;
- the shop lookups sent and the alert e-mails are returned alongside the
  shops;
- the listing requests sent are an out-parameter of the loop.

## Model

Paths are relative to the repository root.

| member | source | states |
|---|---|---|
| `AccountingDocuments.CreateShopRequest` | invoices/src/main/java/com/paypal/invoices/invoicesextract/service/mirakl/impl/AbstractAccountingDocumentsExtractServiceImpl.java:164-170 | The shop request carries exactly the given ids and has pagination switched off. |
| `AccountingDocuments.GetAllShopsWithoutPartitioning` | invoices/src/main/java/com/paypal/invoices/invoicesextract/service/mirakl/impl/AbstractAccountingDocumentsExtractServiceImpl.java:119-139 | No ids: no call, no shops, no alert. Otherwise exactly one lookup for the set of the ids. If it fails, the result is no shops plus one alert with the fixed subject and those ids. If it succeeds, the result is the shops returned and no alert. |
| `AccountingDocuments.GetAllShops` | invoices/src/main/java/com/paypal/invoices/invoicesextract/service/mirakl/impl/AbstractAccountingDocumentsExtractServiceImpl.java:105-108 | An empty id collection yields no shops, sends no lookup and raises no alert. |
| `AccountingDocuments.ResolveBatchesRequests` | invoices/src/main/java/com/paypal/invoices/invoicesextract/service/mirakl/impl/AbstractAccountingDocumentsExtractServiceImpl.java:110-116 | Resolving non-empty batches sends exactly one lookup per batch, in batch order, each for that batch's ids. |
| `AccountingDocuments.ResolveBatchesShops` | invoices/src/main/java/com/paypal/invoices/invoicesextract/service/mirakl/impl/AbstractAccountingDocumentsExtractServiceImpl.java:112-115 | The shops returned are each batch's answer concatenated in batch order; a failed batch contributes none. |
| `AccountingDocuments.ResolveBatchesAlerts` | invoices/src/main/java/com/paypal/invoices/invoicesextract/service/mirakl/impl/AbstractAccountingDocumentsExtractServiceImpl.java:129-137 | Exactly one alert per failed batch, in batch order, each naming that batch's ids. |
| `AccountingDocuments.GetAllShopsIsolatesFailures` | invoices/src/main/java/com/paypal/invoices/invoicesextract/service/mirakl/impl/AbstractAccountingDocumentsExtractServiceImpl.java:105-139 | Failure isolation, for lookups that answer or throw `MiraklApiException`: every shop of every successful batch is in the result whatever the other batches did. Every shop in the result comes from a successful batch. There is one request per batch and one alert per failed batch. |
| `AccountingDocuments.DistinctShopIds` | invoices/src/main/java/com/paypal/invoices/invoicesextract/service/mirakl/impl/AbstractAccountingDocumentsExtractServiceImpl.java:91-94 | The ids have no duplicates, and an id is listed exactly when some document has it as its non-null shop id. |
| `AccountingDocuments.GetAllShopsAsksEachIdOnce` | invoices/src/main/java/com/paypal/invoices/invoicesextract/service/mirakl/impl/AbstractAccountingDocumentsExtractServiceImpl.java:105-117 | Partition coverage and disjointness. Each id is asked for in exactly one lookup, and nothing else is asked for. Every lookup holds between 1 and 100 ids. The number of lookups is ceil(n / 100), stated as `n <= lookups * 100 < n + 100`. |
| `AccountingDocuments.GetMiraklShopsAsksOnce` | invoices/src/main/java/com/paypal/invoices/invoicesextract/service/mirakl/impl/AbstractAccountingDocumentsExtractServiceImpl.java:88-103 | Every non-null shop id of the documents is asked for in exactly one lookup of at most 100 ids; nothing else is asked for. |
| `AccountingDocuments.MapShopsWithDestinationToken` | invoices/src/main/java/com/paypal/invoices/invoicesextract/service/mirakl/impl/AbstractAccountingDocumentsExtractServiceImpl.java:141-143 | A null shop list gives the empty map. |
| `AccountingDocuments.CollectKeepFirstSpec` | invoices/src/main/java/com/paypal/invoices/invoicesextract/service/mirakl/impl/AbstractAccountingDocumentsExtractServiceImpl.java:146-147 | The `toMap` fold with merge `(i1, i2) -> i1` has these properties. Its keys are the earlier keys plus the shop ids of the mappable models. Earlier entries never change. A new shop id gets the pair of its first mappable model. |
| `AccountingDocuments.TokenMapKeepsFirst` | invoices/src/main/java/com/paypal/invoices/invoicesextract/service/mirakl/impl/AbstractAccountingDocumentsExtractServiceImpl.java:141-149 | The token map holds a shop id if and only if some converted shop with that id has both a token and a program. It then holds the first such shop's (token, program). |
| `AccountingDocuments.FilterOnlyMappableDocuments` | invoices/src/main/java/com/paypal/invoices/invoicesextract/service/mirakl/impl/AbstractAccountingDocumentsExtractServiceImpl.java:72-86 | A document is kept if and only if it is an input document whose shop id is a key. |
| `AccountingDocuments.FilterOnlyMappableDocumentsSplits` | invoices/src/main/java/com/paypal/invoices/invoicesextract/service/mirakl/impl/AbstractAccountingDocumentsExtractServiceImpl.java:75-84 | The kept documents and the skipped ones are both order-preserving subsequences of the input. The skipped ones are exactly those whose shop id is not a key. The logged numbers are the skipped documents' numbers, in order. Kept and skipped together account for every input document. |
| `AccountingDocuments.AssociateBillingDocumentsWithTokens` | invoices/src/main/java/com/paypal/invoices/invoicesextract/service/mirakl/impl/AbstractAccountingDocumentsExtractServiceImpl.java:192-204 | Every output document has a token and a program, and its shop id is a key of the map. |
| `AccountingDocuments.AssociateBillingDocumentsWithTokensSpec` | invoices/src/main/java/com/paypal/invoices/invoicesextract/service/mirakl/impl/AbstractAccountingDocumentsExtractServiceImpl.java:195-202 | There is one output per mapped input, in input order. Each output carries its shop's token and program from the map. Its number, shop id and every other field are those of its input. |
| `AccountingDocuments.AssociateIsIdempotent` | invoices/src/main/java/com/paypal/invoices/invoicesextract/service/mirakl/impl/AbstractAccountingDocumentsExtractServiceImpl.java:192-204 | Reconciling an already reconciled list with the same map changes nothing. |
| `AccountingDocuments.ReconciliationDropsUnmappedShop` | invoices/src/main/java/com/paypal/invoices/invoicesextract/service/mirakl/impl/AbstractAccountingDocumentsExtractServiceImpl.java:72-86 | Take documents for shops "1" and "2" where only "1" is mapped. The output is the first document with its token and program. The second document's number is logged as skipped. |
| `AccountingExtraction.CreateAccountingDocumentRequest` | invoices/src/main/java/com/paypal/invoices/invoicesextract/service/mirakl/impl/AbstractAccountingDocumentsExtractServiceImpl.java:151-162 | The listing request asks for pending payment status and the complete state only. It has the subclass's document type, the page size as its maximum, the given start date and offset 0. |
| `AccountingExtraction.RequestsUpTo` | invoices/src/main/java/com/paypal/invoices/invoicesextract/service/mirakl/impl/AbstractAccountingDocumentsExtractServiceImpl.java:176-186 | The first k requests of the loop are the fixed request at offsets 0, P, 2P, …, (k-1)P, in that order. |
| `AccountingExtraction.LastRequest` | invoices/src/main/java/com/paypal/invoices/invoicesextract/service/mirakl/impl/AbstractAccountingDocumentsExtractServiceImpl.java:183-185 | The index of the request that ends the loop: that request ends it, and no earlier one could. |
| `AccountingExtraction.LoopEndsAt` | invoices/src/main/java/com/paypal/invoices/invoicesextract/service/mirakl/impl/AbstractAccountingDocumentsExtractServiceImpl.java:183-185 | The first request after which the loop can leave is the one at which it leaves. |
| `AccountingExtraction.GetInvoicesForDateAndType` | invoices/src/main/java/com/paypal/invoices/invoicesextract/service/mirakl/impl/AbstractAccountingDocumentsExtractServiceImpl.java:172-190 | The loop sends the requests at offsets 0, P, 2P, … in order, whatever each page held. It stops at the first request that fails or after which the total count is reached. Every earlier request left fewer documents than its total count. The result is the failure, or all pages' documents concatenated in order. |
| `AccountingExtraction.ExtractAccountingDocuments` | invoices/src/main/java/com/paypal/invoices/invoicesextract/service/mirakl/impl/AbstractAccountingDocumentsExtractServiceImpl.java:59-70 | A listing failure propagates and nothing else happens. Otherwise the fetched documents are converted in order. The shops of their shop ids are resolved and the token map is built. The result is the reconciled documents, each with a token and a program, together with the lookup alerts. |
| `AccountingExtraction.ExtractAccountingDocumentsByIds` | invoices/src/main/java/com/paypal/invoices/invoicesextract/service/mirakl/impl/AbstractAccountingDocumentsExtractServiceImpl.java:216-227 | A listing failure propagates. Otherwise the result is exactly the fetched documents whose id is listed, in fetch order, converted, with no token association. |
| `AccountingExtraction.EmptyPagesNeverEnd` | invoices/src/main/java/com/paypal/invoices/invoicesextract/service/mirakl/impl/AbstractAccountingDocumentsExtractServiceImpl.java:183-186 | A server that reports one document but always sends empty pages never lets the loop end, because the offset grows by the page size and not by the documents received. |
| `AccountingExtraction.SnapshotAccumulated` | invoices/src/main/java/com/paypal/invoices/invoicesextract/service/mirakl/impl/AbstractAccountingDocumentsExtractServiceImpl.java:177-187 | Take a server that serves a fixed list. After k pages the loop holds exactly the first min(kP, N) documents. |
| `AccountingExtraction.SnapshotEndsAt` | invoices/src/main/java/com/paypal/invoices/invoicesextract/service/mirakl/impl/AbstractAccountingDocumentsExtractServiceImpl.java:183-185 | Against that server the loop leaves after request k exactly when (k+1)·P ≥ N. |
| `AccountingExtraction.SnapshotFetchReturnsAll` | invoices/src/main/java/com/paypal/invoices/invoicesextract/service/mirakl/impl/AbstractAccountingDocumentsExtractServiceImpl.java:172-190 | Take that server and a positive page size. The loop ends after ceil(N / P) requests, or one request when N = 0, and returns all N documents in order. |
| `BankAccountStrategies.CreateCallHyperwalletApi` | sellers/src/main/java/com/paypal/sellers/bankaccountextract/service/strategies/HyperWalletCreateBankAccountServiceStrategyBankAccount.java:45-51 | The call goes through the client of the given program. It is a create call carrying the account unchanged, and its answer or exception is returned as is. |
| `BankAccountStrategies.UpdateCallHyperwalletApi` | sellers/src/main/java/com/paypal/sellers/bankaccountextract/service/strategies/HyperWalletUpdateBankAccountServiceStrategyBankAccount.java:37-43 | The same as the create call, except that it is an update call. |
| `BankAccountStrategies.UpdateIsNotCreate` | sellers/src/main/java/com/paypal/sellers/bankaccountextract/service/strategies/HyperWalletUpdateBankAccountServiceStrategyBankAccount.java:32-35 | The update condition (token non-null) is the negation of the create condition (token null). |
| `BankAccountStrategies.ExactlyOneStrategyApplies` | sellers/src/main/java/com/paypal/sellers/bankaccountextract/service/strategies/HyperWalletCreateBankAccountServiceStrategyBankAccount.java:58-61 | For every seller with bank-account details, some strategy applies and no two do. Create applies if and only if the token is null. |
| `BankAccountStrategies.ApplicableStrategyCall` | sellers/src/main/java/com/paypal/sellers/bankaccountextract/service/strategies/HyperWalletCreateBankAccountServiceStrategyBankAccount.java:45-61 | Take whichever strategy applies. Its call goes through the program's client and carries the account unchanged. It creates if and only if the seller has no token yet. |
| `BankAccountStrategies.CallsDifferOnlyInOperation` | sellers/src/main/java/com/paypal/sellers/bankaccountextract/service/strategies/HyperWalletUpdateBankAccountServiceStrategyBankAccount.java:37-43 | The create and update calls for the same program and account differ only in the operation. |
| `BankAccountStrategies.MiraklBankAccountExtractService.UpdateBankAccountToken` | sellers/src/main/java/com/paypal/sellers/bankaccountextract/service/strategies/HyperWalletCreateBankAccountServiceStrategyBankAccount.java:40-41 | One call records exactly one write-back of the given seller and account, after the earlier ones. |
| `BankAccountStrategies.CreateBankAccountStrategy.Execute` | sellers/src/main/java/com/paypal/sellers/bankaccountextract/service/strategies/HyperWalletCreateBankAccountServiceStrategyBankAccount.java:37-43 | The inherited result is returned unchanged. When it holds an account, exactly one write-back of that seller and account is made. When it is empty, none is made. |
| `BankAccountStrategies.UpdateBankAccountStrategy.Execute` | sellers/src/main/java/com/paypal/sellers/bankaccountextract/service/strategies/HyperWalletUpdateBankAccountServiceStrategyBankAccount.java:17-45 | The inherited result is returned, and no state changes: the method may modify nothing, so no token is written back. |
| `KycMockUpload.GetPostUrl` | kyc/src/main/java/com/paypal/kyc/service/documents/files/hyperwallet/impl/HyperwalletDocumentUploadServiceMockImpl.java:61-72 | A seller document's path is `/hyperwallet/v4/` + user token + `/documents`. |
| `KycMockUpload.SellerUrl` | kyc/src/main/java/com/paypal/kyc/service/documents/files/hyperwallet/impl/HyperwalletDocumentUploadServiceMockImpl.java:68-71 | Replacing `{userToken}` in the seller template gives `/hyperwallet/v4/` + user token + `/documents`, for every user token. |
| `KycMockUpload.BusinessStakeholderUrl` | kyc/src/main/java/com/paypal/kyc/service/documents/files/hyperwallet/impl/HyperwalletDocumentUploadServiceMockImpl.java:62-66 | A stakeholder's path is `/hyperwallet/v4/` + user token + `/` + stakeholder token + `/documents`, when the user token holds no `{`. |
| `KycMockUpload.SubstitutionOrderShows` | kyc/src/main/java/com/paypal/kyc/service/documents/files/hyperwallet/impl/HyperwalletDocumentUploadServiceMockImpl.java:64-66 | The replacement order is observable. A user token that is literally `{bstToken}` ends up replaced by the stakeholder token too, so the token appears twice. |
| `KycMockUpload.CheckFailingFiles` | kyc/src/main/java/com/paypal/kyc/service/documents/files/hyperwallet/impl/HyperwalletDocumentUploadServiceMockImpl.java:74-83 | True if and only if the list is non-null and some document has a non-null upload-files map with a value containing `fail`. A null list and null maps count as no failure. |
| `KycMockUpload.AnyFailing` | kyc/src/main/java/com/paypal/kyc/service/documents/files/hyperwallet/impl/HyperwalletDocumentUploadServiceMockImpl.java:77-81 | True if and only if some document of the list has a non-null upload-files map with a value containing `fail`. |
| `KycMockUpload.DocumentUploadServiceMock.InvokeHyperwalletApi` | kyc/src/main/java/com/paypal/kyc/service/documents/files/hyperwallet/impl/HyperwalletDocumentUploadServiceMockImpl.java:47-59 | When a failing file is detected it throws the fixed `HyperwalletException` and posts nothing. Otherwise it posts exactly once, to the mock server URL followed by the document's path, carrying the documents, and its outcome is the post's answer. So it fails if and only if a failing file is detected or the post fails. |
| `CurrencyPriority.CollectGlobal` | sellers/src/test/java/com/paypal/sellers/bankaccountextract/converter/impl/miraklshop/currency/HyperwalletBankAccountCurrencyResolutionConfigurationTest.java:55-68 | The global list is the global segments' currencies concatenated in the order written. |
| `CurrencyPriority.CollectCountries` | sellers/src/test/java/com/paypal/sellers/bankaccountextract/converter/impl/miraklshop/currency/HyperwalletBankAccountCurrencyResolutionConfigurationTest.java:40-53 | A country has a list if and only if some segment names it. |
| `CurrencyPriority.CollectLastWins` | sellers/src/test/java/com/paypal/sellers/bankaccountextract/converter/impl/miraklshop/currency/HyperwalletBankAccountCurrencyResolutionConfigurationTest.java:40-53 | A country's list is the one of the last segment naming it. |
| `CurrencyPriority.CollectUntouched` | sellers/src/test/java/com/paypal/sellers/bankaccountextract/converter/impl/miraklshop/currency/HyperwalletBankAccountCurrencyResolutionConfigurationTest.java:40-53 | A country that no later segment names keeps its list. |
| `CurrencyPriority.ParseRenderCurrencies` | sellers/src/test/java/com/paypal/sellers/bankaccountextract/converter/impl/miraklshop/currency/HyperwalletBankAccountCurrencyResolutionConfigurationTest.java:14-26 | Round trip: a comma-separated list of well-formed currencies parses back to the same list, in the same order. |
| `CurrencyPriority.ParseCountrySegment` | sellers/src/test/java/com/paypal/sellers/bankaccountextract/converter/impl/miraklshop/currency/HyperwalletBankAccountCurrencyResolutionConfigurationTest.java:40-53 | A country code, then `:`, then a list reads as that country's segment with the parsed list. |
| `CurrencyPriority.ParseRenderSegment` | sellers/src/test/java/com/paypal/sellers/bankaccountextract/converter/impl/miraklshop/currency/HyperwalletBankAccountCurrencyResolutionConfigurationTest.java:40-53 | Round trip: a well-formed global or country segment, written out, parses back to itself. |
| `CurrencyPriority.ParseRender` | sellers/src/test/java/com/paypal/sellers/bankaccountextract/converter/impl/miraklshop/currency/HyperwalletBankAccountCurrencyResolutionConfigurationTest.java:14-68 | Round trip: the `;`-joined text of well-formed segments parses to what collecting those segments gives. |
| `CurrencyPriority.ParseGlobalOnly` | sellers/src/test/java/com/paypal/sellers/bankaccountextract/converter/impl/miraklshop/currency/HyperwalletBankAccountCurrencyResolutionConfigurationTest.java:14-38 | A configuration without `;` and `:` is one global list and no per-country entry. |
| `CurrencyPriority.ParseTwoCurrencies` | sellers/src/test/java/com/paypal/sellers/bankaccountextract/converter/impl/miraklshop/currency/HyperwalletBankAccountCurrencyResolutionConfigurationTest.java:14-26 | Two non-blank entries around a comma read as the two trimmed entries, in order. |
| `CurrencyPriority.TwoGlobalCurrencies` | sellers/src/test/java/com/paypal/sellers/bankaccountextract/converter/impl/miraklshop/currency/HyperwalletBankAccountCurrencyResolutionConfigurationTest.java:14-26 | For any two tokens, the text "token, blank, token" with a comma after the first gives the two tokens as the global list and no country list. |
| `CurrencyPriority.GlobalPriorityOnly` | sellers/src/test/java/com/paypal/sellers/bankaccountextract/converter/impl/miraklshop/currency/HyperwalletBankAccountCurrencyResolutionConfigurationTest.java:14-26 | `"USD, EUR"` gives the global list [USD, EUR] and an empty per-country map. |
| `CurrencyPriority.OneGlobalCurrency` | sellers/src/test/java/com/paypal/sellers/bankaccountextract/converter/impl/miraklshop/currency/HyperwalletBankAccountCurrencyResolutionConfigurationTest.java:28-38 | Any single token is the whole global list. |
| `CurrencyPriority.SingleGlobalCurrency` | sellers/src/test/java/com/paypal/sellers/bankaccountextract/converter/impl/miraklshop/currency/HyperwalletBankAccountCurrencyResolutionConfigurationTest.java:28-38 | `"USD"` gives the global list [USD]. |
| `CurrencyPriority.TwoCountryPriorities` | sellers/src/test/java/com/paypal/sellers/bankaccountextract/converter/impl/miraklshop/currency/HyperwalletBankAccountCurrencyResolutionConfigurationTest.java:40-53 | For any codes and tokens, `C1:X;C2:Y,Z` gives C1 → [X] and C2 → [Y, Z], and an empty global list. |
| `CurrencyPriority.PerCountryPriorities` | sellers/src/test/java/com/paypal/sellers/bankaccountextract/converter/impl/miraklshop/currency/HyperwalletBankAccountCurrencyResolutionConfigurationTest.java:40-53 | `"US:USD;CA:CAD,USD"` gives US → [USD] and CA → [CAD, USD], and an empty global list. |
| `CurrencyPriority.GlobalThenTwoCountries` | sellers/src/test/java/com/paypal/sellers/bankaccountextract/converter/impl/miraklshop/currency/HyperwalletBankAccountCurrencyResolutionConfigurationTest.java:55-68 | For any codes and tokens, `G1,G2;C1:X;C2:Y,Z` gives the global list [G1, G2], C1 → [X] and C2 → [Y, Z]. |
| `CurrencyPriority.GlobalAndPerCountryPriorities` | sellers/src/test/java/com/paypal/sellers/bankaccountextract/converter/impl/miraklshop/currency/HyperwalletBankAccountCurrencyResolutionConfigurationTest.java:55-68 | `"GB,CAD;US:USD;CA:CAD,USD"` gives the global list [GB, CAD], US → [USD] and CA → [CAD, USD]. |

## Left out

- I/O and logging.
  - The log lines are not modelled.
  - The alert e-mail's body is not modelled, including `MiraklLoggingErrorsUtil.stringify` and the sorted id list. An alert carries the fixed subject and the set of ids.
  - The Gson JSON body of the mock post is not modelled. A post carries the documents themselves.
- External calls are parameters, not code:
  - the Mirakl SDK calls `getInvoices` and `getShops`;
  - the Hyperwallet SDK, including `getHyperwalletInstanceByHyperwalletProgram`;
  - `RestTemplate.postForObject`, as the mock's `postAnswer`: a post either returns or throws a `RestClientException`;
  - the two converters.
  - A `MiraklApiException` from `getShops` is a `None` answer. A listing exception is a `Failure` that propagates.
- AccountingDocuments.GetAllShopsIsolatesFailures: only a `MiraklApiException` from `getShops` is caught and isolated. Any other runtime exception from `getShops` escapes `getAllShopsWithoutPartitioning` and `getAllShops` and ends `extractAccountingDocuments`. The `ShopLookup` oracle cannot raise such an exception, so the model does not cover that path.
- AccountingExtraction.GetInvoicesForDateAndType: termination is a precondition (`FetchEnds`). The Java loop does not terminate against a server that never reaches its reported total count, as `EmptyPagesNeverEnd` shows.
- Arithmetic width: Java `int` overflow of the offset is not modelled, because integers are unbounded here.
- The page size `MIRAKL_MAX_RESULTS_PER_PAGE` is defined in a file that is not part of this model. It is the parameter `pageSize`.
- The clock.
  - `getTimeRangeForFindByIdInvoices` reads `LocalDateTime.now()`, so the window start is the parameter `windowStart`.
  - That method subtracts minutes from a setting named as a number of days. This is not modelled.
- `EnumUtils.getEnum` is not modelled. The document type is the subclass's type name, passed through unchanged.
- `getAccountingDocuments` is not a separate member. Its fetch-and-convert sequence is inside `ExtractAccountingDocuments`.
- The order of shop ids is not modelled faithfully. The Java `HashSet` iteration order is unspecified, and the model takes first-appearance order instead. The batch properties are proved for every duplicate-free order.
- The inherited `execute` of `AbstractHyperwalletBankAccountRetryApiStrategy` is a given function `SellerModel -> Option<HyperwalletBankAccount>`. Its class is not part of this model, and neither are its retry policy, its conversion or its notification mail.
- `MiraklBankAccountExtractServiceImpl.updateBankAccountToken` is not part of this model beyond recording the request.
- A seller without bank-account details is excluded by a precondition of the `isApplicable` predicates. The Java code would throw a `NullPointerException` there.
- Null tokens in `KYCDocumentInfoModel` are not modelled; `getPostURL` would throw on them. Tokens are plain strings.
- KycMockUpload.BusinessStakeholderUrl: the closed form is proved only for user tokens without `{`. Other user tokens can create a new placeholder, as `SubstitutionOrderShows` illustrates. `GetPostUrl` itself is defined for every token.
- The class `HyperwalletBankAccountCurrencyResolutionConfiguration` is not part of this model. Its behaviour is fixed here by the four unit tests and the documented format. The model makes these choices where the tests are silent:
  - blank entries are dropped;
  - entries are trimmed as Java `trim` does;
  - country codes are upper-cased (ASCII letters only);
  - a later segment for the same country replaces an earlier one;
  - global segments are concatenated.
- Spring and Quartz wiring, `@Value` configuration, and concurrency between jobs are not modelled.
