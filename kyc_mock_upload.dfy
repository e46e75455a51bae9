/**
 * The QA stand-in for the KYC document upload: instead of calling
 * Hyperwallet it posts the documents to a mock server, at the path the real
 * API would use, and it simulates an upload failure for any file whose name
 * contains "fail".
 */
module KycMockUpload {
  import opened Wrappers
  import opened Strings

  /** A file name holding this text makes the simulated upload fail. */
  const FailingFiles: string := "fail"

  const UserTokenPlaceholder: string := "{userToken}"
  const BstTokenPlaceholder: string := "{bstToken}"

  const ApiPrefix: string := "/hyperwallet/v4/"
  const DocumentsSuffix: string := "/documents"

  /** Upload path of a business stakeholder's documents: `/hyperwallet/v4/{userToken}/{bstToken}/documents`. */
  const PushDocumentsBusinessStakeholder: string := ApiPrefix + UserTokenPlaceholder + "/" + BstTokenPlaceholder + DocumentsSuffix

  /** Upload path of a seller's own documents: `/hyperwallet/v4/{userToken}/documents`. */
  const PushDocumentsSeller: string := ApiPrefix + UserTokenPlaceholder + DocumentsSuffix

  /** `KYCDocumentInfoModel`: the seller's documents, or those of one of its business stakeholders. */
  datatype KycDocumentInfo =
    | SellerDocumentInfo(userToken: string)
    | BusinessStakeholderDocumentInfo(userToken: string, token: string)

  /** `HyperwalletVerificationDocument`: its upload files (name to file), possibly null. */
  datatype VerificationDocument = VerificationDocument(uploadFiles: Option<map<string, string>>, otherFields: map<string, string>)

  /**
   * `getPostURL`: the template of the document's kind with every
   * `{userToken}` replaced by the user token and then, for a business
   * stakeholder, every `{bstToken}` of that result replaced by the
   * stakeholder token.
   */
  function GetPostUrl(info: KycDocumentInfo): (url: string)
    ensures info.SellerDocumentInfo? ==> url == ApiPrefix + info.userToken + DocumentsSuffix
  {
    match info
    case BusinessStakeholderDocumentInfo(userToken, token) =>
      ReplaceAll(ReplaceAll(PushDocumentsBusinessStakeholder, UserTokenPlaceholder, userToken), BstTokenPlaceholder, token)
    case SellerDocumentInfo(userToken) =>
      SellerUrl(userToken);
      ReplaceAll(PushDocumentsSeller, UserTokenPlaceholder, userToken)
  }

  /**
   * The fixed parts of the templates hold no `{`, both placeholders start
   * with one, and `{bstToken}` cannot start a `{userToken}`.
   */
  lemma TemplateParts()
    ensures '{' !in ApiPrefix && '{' !in DocumentsSuffix && '{' !in "/"
    ensures |UserTokenPlaceholder| >= 2 && UserTokenPlaceholder[0] == '{' && UserTokenPlaceholder[1] == 'u'
    ensures |BstTokenPlaceholder| >= 2 && BstTokenPlaceholder[0] == '{' && BstTokenPlaceholder[1] == 'b'
    ensures '{' !in BstTokenPlaceholder[1..]
  {
  }

  lemma SellerUrl(userToken: string)
    ensures ReplaceAll(PushDocumentsSeller, UserTokenPlaceholder, userToken) == ApiPrefix + userToken + DocumentsSuffix
  {
    TemplateParts();
    ReplaceAllOnce(ApiPrefix, UserTokenPlaceholder, DocumentsSuffix, userToken);
  }

  /** `{bstToken}/documents` holds no `{userToken}`. */
  lemma NoUserTokenInTail(userToken: string)
    ensures ReplaceAll(BstTokenPlaceholder + DocumentsSuffix, UserTokenPlaceholder, userToken)
            == BstTokenPlaceholder + DocumentsSuffix
  {
    TemplateParts();
    var rest := BstTokenPlaceholder + DocumentsSuffix;
    assert rest[1..] == BstTokenPlaceholder[1..] + DocumentsSuffix;
    ReplaceAllMismatch(rest, UserTokenPlaceholder, userToken);
  }

  /**
   * When the user token holds no `{`, a business stakeholder's path is the
   * user token and then the stakeholder token between the fixed parts.
   */
  lemma BusinessStakeholderUrl(userToken: string, token: string)
    requires '{' !in userToken
    ensures GetPostUrl(BusinessStakeholderDocumentInfo(userToken, token))
            == ApiPrefix + userToken + "/" + token + DocumentsSuffix
  {
    TemplateParts();
    NoUserTokenInTail(userToken);
    FillFirst(ApiPrefix, UserTokenPlaceholder, "/", BstTokenPlaceholder, DocumentsSuffix, userToken);
    ReplaceAllOnce(ApiPrefix + userToken + "/", BstTokenPlaceholder, DocumentsSuffix, token);
  }

  /**
   * The order of the two replacements shows: a user token that is itself
   * `{bstToken}` is replaced by the stakeholder token as well.
   */
  lemma SubstitutionOrderShows(token: string)
    ensures GetPostUrl(BusinessStakeholderDocumentInfo(BstTokenPlaceholder, token))
            == ApiPrefix + token + "/" + token + DocumentsSuffix
  {
    TemplateParts();
    NoUserTokenInTail(BstTokenPlaceholder);
    FillFirst(ApiPrefix, UserTokenPlaceholder, "/", BstTokenPlaceholder, DocumentsSuffix, BstTokenPlaceholder);
    ReplaceAllTwice(ApiPrefix, BstTokenPlaceholder, "/", DocumentsSuffix, token);
  }

  /** The first replacement of a two-placeholder template whose second part cannot hold the first placeholder. */
  lemma FillFirst(pre: string, ph1: string, mid: string, ph2: string, suf: string, value: string)
    requires ph1 != [] && ph1[0] !in pre && ph1[0] !in mid
    requires ReplaceAll(ph2 + suf, ph1, value) == ph2 + suf
    ensures ReplaceAll(pre + ph1 + mid + ph2 + suf, ph1, value) == pre + value + mid + ph2 + suf
  {
    assert pre + ph1 + mid + ph2 + suf == pre + (ph1 + (mid + (ph2 + suf)));
    ReplaceAllSkipsPrefix(pre, ph1 + (mid + (ph2 + suf)), ph1, value);
    ReplaceAllAtFront(mid + (ph2 + suf), ph1, value);
    ReplaceAllSkipsPrefix(mid, ph2 + suf, ph1, value);
    assert pre + (value + (mid + (ph2 + suf))) == pre + value + mid + ph2 + suf;
  }

  /** Some upload file of the map is named with the failing marker. */
  predicate HasFailingFile(uploadFiles: map<string, string>)
  {
    exists name :: name in uploadFiles.Values && ContainsSubstring(name, FailingFiles)
  }

  /**
   * `checkFailingFiles`: some document has non-null upload files one of
   * which contains "fail"; a null list, and documents without upload files,
   * count as no failure.
   */
  function CheckFailingFiles(documents: Option<seq<VerificationDocument>>): (r: bool)
    ensures r <==> (documents.Some? && exists i :: 0 <= i < |documents.value| && documents.value[i].uploadFiles.Some?
                                                   && HasFailingFile(documents.value[i].uploadFiles.value))
  {
    match documents
    case None => false
    case Some(docs) => AnyFailing(docs)
  }

  function AnyFailing(docs: seq<VerificationDocument>): (r: bool)
    ensures r <==> exists i :: 0 <= i < |docs| && docs[i].uploadFiles.Some? && HasFailingFile(docs[i].uploadFiles.value)
  {
    if docs == [] then false
    else
      var rest := AnyFailing(docs[1..]);
      assert forall i :: 1 <= i < |docs| ==> docs[i] == docs[1..][i - 1];
      (docs[0].uploadFiles.Some? && HasFailingFile(docs[0].uploadFiles.value)) || rest
  }

  /** One `postForObject` to the mock server: the full URL and the documents it carries as JSON. */
  datatype PostRequest = PostRequest(url: string, documents: Option<seq<VerificationDocument>>)

  /** A `HyperwalletException` thrown by the mock itself, or a `RestClientException` from the post. */
  datatype UploadError = HyperwalletException(message: string) | RestClientError(message: string)

  /**
   * `HyperwalletDocumentUploadServiceMockImpl`: the mock server's base URL,
   * the mock server's answer to a post (`postForObject` either returns or
   * throws) and the posts made to it.
   */
  class DocumentUploadServiceMock {
    const mockServerUrl: string
    const postAnswer: PostRequest -> Outcome<UploadError>
    var posts: seq<PostRequest>

    constructor (mockServerUrl: string, postAnswer: PostRequest -> Outcome<UploadError>)
      ensures this.mockServerUrl == mockServerUrl && this.postAnswer == postAnswer && posts == []
    {
      this.mockServerUrl := mockServerUrl;
      this.postAnswer := postAnswer;
      posts := [];
    }

    /**
     * `invokeHyperwalletAPI`: throws, posting nothing, when a file is marked
     * as failing; otherwise posts the documents exactly once, to the mock
     * server URL followed by the document's upload path, and fails exactly
     * when that post fails, with the post's own error.
     */
    method InvokeHyperwalletApi(info: KycDocumentInfo, documents: Option<seq<VerificationDocument>>) returns (outcome: Outcome<UploadError>)
      modifies this
      ensures var request := PostRequest(mockServerUrl + GetPostUrl(info), documents);
              outcome.Fail? <==> CheckFailingFiles(documents) || postAnswer(request).Fail?
      ensures CheckFailingFiles(documents) ==> outcome == Fail(HyperwalletException("Something bad happened")) && posts == old(posts)
      ensures !CheckFailingFiles(documents) ==>
                var request := PostRequest(mockServerUrl + GetPostUrl(info), documents);
                outcome == postAnswer(request) && posts == old(posts) + [request]
    {
      var postUrl := GetPostUrl(info);
      if CheckFailingFiles(documents) {
        return Fail(HyperwalletException("Something bad happened"));
      }
      var request := PostRequest(mockServerUrl + postUrl, documents);
      posts := posts + [request];
      outcome := postAnswer(request);
    }
  }
}
