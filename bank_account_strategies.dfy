/**
 * The two bank-account strategies of the seller extraction: one creates a
 * Hyperwallet bank account for a seller that has none yet and writes the new
 * token back to Mirakl, the other updates the account a seller already has.
 * The inherited `execute` (conversion, retry, notification) and the
 * Hyperwallet SDK are collaborators given to the model.
 */
module BankAccountStrategies {
  import opened Wrappers

  /** The seller's bank-account details; only the Hyperwallet token is read. */
  datatype BankAccountDetails = BankAccountDetails(token: Option<string>, otherFields: map<string, string>)

  /** `SellerModel`: the Mirakl shop id, its Hyperwallet program and its (possibly null) bank-account details. */
  datatype SellerModel = SellerModel(
    clientUserId: string,
    hyperwalletProgram: string,
    bankAccountDetails: Option<BankAccountDetails>)

  /** `HyperwalletBankAccount` as the SDK sends and returns it. */
  datatype HyperwalletBankAccount = HyperwalletBankAccount(token: Option<string>, otherFields: map<string, string>)

  /** One `Hyperwallet` client instance, as handed out per program. */
  datatype HyperwalletClient = HyperwalletClient(id: nat)

  datatype BankAccountOperation = CreateBankAccount | UpdateBankAccount

  datatype HyperwalletError = HyperwalletException(message: string)

  /** One SDK call: the client it goes through, the operation and the account sent. */
  datatype SdkCall = SdkCall(client: HyperwalletClient, operation: BankAccountOperation, account: HyperwalletBankAccount)

  /**
   * The Hyperwallet side: `getHyperwalletInstanceByHyperwalletProgram` and
   * the server's answer to a call (the account it stores, or an exception).
   */
  datatype HyperwalletSdk = HyperwalletSdk(
    instanceFor: string -> HyperwalletClient,
    answer: SdkCall -> Result<HyperwalletBankAccount, HyperwalletError>)

  /** What a strategy's `callHyperwalletAPI` does: the call it makes and what it gets back. */
  datatype ApiExchange = ApiExchange(call: SdkCall, response: Result<HyperwalletBankAccount, HyperwalletError>)

  /** The create strategy's `isApplicable`: the seller has no bank-account token yet. */
  predicate CreateIsApplicable(seller: SellerModel)
    requires seller.bankAccountDetails.Some?
  {
    seller.bankAccountDetails.value.token.None?
  }

  /** The update strategy's `isApplicable`: the seller already has a bank-account token. */
  predicate UpdateIsApplicable(seller: SellerModel)
    requires seller.bankAccountDetails.Some?
  {
    seller.bankAccountDetails.value.token.Some?
  }

  /**
   * The create strategy's `callHyperwalletAPI`: a create call through the
   * client of the given program, carrying the account unchanged; an SDK
   * exception propagates.
   */
  function CreateCallHyperwalletApi(sdk: HyperwalletSdk, program: string, account: HyperwalletBankAccount): (r: ApiExchange)
    ensures r.call.client == sdk.instanceFor(program)
    ensures r.call.operation == CreateBankAccount && r.call.account == account
    ensures r.response == sdk.answer(r.call)
  {
    var call := SdkCall(sdk.instanceFor(program), CreateBankAccount, account);
    ApiExchange(call, sdk.answer(call))
  }

  /** The update strategy's `callHyperwalletAPI`: the same, with an update call. */
  function UpdateCallHyperwalletApi(sdk: HyperwalletSdk, program: string, account: HyperwalletBankAccount): (r: ApiExchange)
    ensures r.call.client == sdk.instanceFor(program)
    ensures r.call.operation == UpdateBankAccount && r.call.account == account
    ensures r.response == sdk.answer(r.call)
  {
    var call := SdkCall(sdk.instanceFor(program), UpdateBankAccount, account);
    ApiExchange(call, sdk.answer(call))
  }

  /** The two strategies, as the strategy executor sees them. */
  datatype Strategy = CreateStrategy | UpdateStrategy {

    predicate IsApplicable(seller: SellerModel)
      requires seller.bankAccountDetails.Some?
    {
      match this
      case CreateStrategy => CreateIsApplicable(seller)
      case UpdateStrategy => UpdateIsApplicable(seller)
    }

    function CallHyperwalletApi(sdk: HyperwalletSdk, program: string, account: HyperwalletBankAccount): ApiExchange
    {
      match this
      case CreateStrategy => CreateCallHyperwalletApi(sdk, program, account)
      case UpdateStrategy => UpdateCallHyperwalletApi(sdk, program, account)
    }
  }

  /** The update condition is the negation of the create condition. */
  lemma UpdateIsNotCreate(seller: SellerModel)
    requires seller.bankAccountDetails.Some?
    ensures UpdateIsApplicable(seller) <==> !CreateIsApplicable(seller)
  {
  }

  /**
   * Exclusive and exhaustive dispatch: for every seller with bank-account
   * details exactly one strategy applies, create when the token is null and
   * update otherwise.
   */
  lemma ExactlyOneStrategyApplies(seller: SellerModel)
    requires seller.bankAccountDetails.Some?
    ensures exists s: Strategy :: s.IsApplicable(seller)
    ensures forall s: Strategy, t: Strategy :: s.IsApplicable(seller) && t.IsApplicable(seller) ==> s == t
    ensures CreateStrategy.IsApplicable(seller) <==> seller.bankAccountDetails.value.token.None?
  {
    if seller.bankAccountDetails.value.token.None? {
      assert CreateStrategy.IsApplicable(seller);
    } else {
      assert UpdateStrategy.IsApplicable(seller);
    }
  }

  /**
   * Whichever strategy applies to a seller, its API call goes through the
   * client of the given program, carries the account unchanged, and creates
   * exactly when the seller has no token yet.
   */
  lemma ApplicableStrategyCall(seller: SellerModel, s: Strategy, sdk: HyperwalletSdk, program: string, account: HyperwalletBankAccount)
    requires seller.bankAccountDetails.Some? && s.IsApplicable(seller)
    ensures var r := s.CallHyperwalletApi(sdk, program, account);
            && r.call.client == sdk.instanceFor(program)
            && r.call.account == account
            && (r.call.operation == CreateBankAccount <==> seller.bankAccountDetails.value.token.None?)
            && r.response == sdk.answer(r.call)
  {
  }

  /** The two API calls differ in the operation only. */
  lemma CallsDifferOnlyInOperation(sdk: HyperwalletSdk, program: string, account: HyperwalletBankAccount)
    ensures CreateCallHyperwalletApi(sdk, program, account).call
            == UpdateCallHyperwalletApi(sdk, program, account).call.(operation := CreateBankAccount)
  {
  }

  /** One `updateBankAccountToken(seller, account)` request to Mirakl. */
  datatype TokenWriteBack = TokenWriteBack(seller: SellerModel, account: HyperwalletBankAccount)

  /**
   * `MiraklBankAccountExtractService` as the create strategy uses it: the
   * write-back requests it has received, in order.
   */
  class MiraklBankAccountExtractService {
    var writeBacks: seq<TokenWriteBack>

    constructor ()
      ensures writeBacks == []
    {
      writeBacks := [];
    }

    /** `updateBankAccountToken`: records one write-back of the account's token for the seller's shop. */
    method UpdateBankAccountToken(seller: SellerModel, account: HyperwalletBankAccount)
      modifies this
      ensures writeBacks == old(writeBacks) + [TokenWriteBack(seller, account)]
    {
      writeBacks := writeBacks + [TokenWriteBack(seller, account)];
    }
  }

  /**
   * `HyperWalletCreateBankAccountServiceStrategyBankAccount`. `inheritedExecute`
   * is the retrying `execute` of its superclass: it yields the created account,
   * or nothing when the creation did not succeed.
   */
  class CreateBankAccountStrategy {
    const inheritedExecute: SellerModel -> Option<HyperwalletBankAccount>
    const miraklService: MiraklBankAccountExtractService

    constructor (inheritedExecute: SellerModel -> Option<HyperwalletBankAccount>, miraklService: MiraklBankAccountExtractService)
      ensures this.inheritedExecute == inheritedExecute && this.miraklService == miraklService
    {
      this.inheritedExecute := inheritedExecute;
      this.miraklService := miraklService;
    }

    /**
     * `execute`: returns the inherited result unchanged; when it holds an
     * account, that account is written back to Mirakl for the same seller,
     * exactly once, and otherwise nothing is written.
     */
    method Execute(seller: SellerModel) returns (created: Option<HyperwalletBankAccount>)
      modifies miraklService
      ensures created == inheritedExecute(seller)
      ensures created.Some? ==> miraklService.writeBacks == old(miraklService.writeBacks) + [TokenWriteBack(seller, created.value)]
      ensures created.None? ==> miraklService.writeBacks == old(miraklService.writeBacks)
    {
      created := inheritedExecute(seller);
      if created.Some? {
        miraklService.UpdateBankAccountToken(seller, created.value);
      }
    }
  }

  /**
   * `HyperWalletUpdateBankAccountServiceStrategyBankAccount`. It does not
   * override `execute`: the inherited one runs as it is, and no Mirakl
   * service is held, so no token is written back.
   */
  class UpdateBankAccountStrategy {
    const inheritedExecute: SellerModel -> Option<HyperwalletBankAccount>

    constructor (inheritedExecute: SellerModel -> Option<HyperwalletBankAccount>)
      ensures this.inheritedExecute == inheritedExecute
    {
      this.inheritedExecute := inheritedExecute;
    }

    /** The inherited `execute`: its result is returned and no state of the model changes. */
    method Execute(seller: SellerModel) returns (updated: Option<HyperwalletBankAccount>)
      ensures updated == inheritedExecute(seller)
    {
      updated := inheritedExecute(seller);
    }
  }
}
