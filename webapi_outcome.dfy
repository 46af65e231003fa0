/**
 * How the operations of src/webapi.ts settle their promise once the transport
 * reports back, and how src/request.ts turns an HTTP status into that report.
 * JSON parsing is not modelled: it is passed in as a function.
 */
module WebApiOutcome {
  import opened Wrappers
  import opened Models

  /** What the transport reports: whether the request failed, and the response text. */
  datatype RequestResult = RequestResult(error: bool, response: string)

  /** The reason a promise is rejected with (handleError). */
  datatype Failure =
    | ServiceFault(error: Json)   // the `error` member of the parsed response
    | UnexpectedError             // the response was not JSON

  datatype Outcome =
    | Rejected(failure: Failure)
    | Resolved(value: Json)
    | ResolvedEmpty

  /** How an operation resolves when the request succeeded. */
  datatype Resolution =
    | ParsedBody       // retrieve, retrieveMultiple, retrieveMultipleNextPage, the WithReturnData variants
    | NoValue          // create, update, updateProperty, deleteRecord, deleteProperty, associate, disassociate
    | ParsedBodyIfAny  // the bound and unbound actions and functions
    | RawBodyIfAny     // batchOperation

  /**
   * handleError: `errorMember(response)` is the `error` member of the parsed
   * response, or None when parsing throws.
   */
  function HandleError(response: string, errorMember: string -> Option<Json>): (f: Failure)
    ensures f.UnexpectedError? <==> errorMember(response).None?
    ensures f.ServiceFault? ==> Some(f.error) == errorMember(response)
  {
    match errorMember(response)
    case Some(e) => ServiceFault(e)
    case None => UnexpectedError
  }

  /** The callback each operation passes to the transport; `parse` is JSON.parse. */
  function Settle(how: Resolution, result: RequestResult, parse: string -> Json,
                  errorMember: string -> Option<Json>): (o: Outcome)
    ensures o.Rejected? <==> result.error
    ensures o.Rejected? ==> o.failure == HandleError(result.response, errorMember)
    ensures !result.error && how == ParsedBody ==> o == Resolved(parse(result.response))
    ensures !result.error && how == NoValue ==> o == ResolvedEmpty
    ensures !result.error && how == ParsedBodyIfAny ==>
      o == (if result.response == "" then ResolvedEmpty else Resolved(parse(result.response)))
    ensures !result.error && how == RawBodyIfAny ==>
      o == (if result.response == "" then ResolvedEmpty else Resolved(result.response))
  {
    if result.error then Rejected(HandleError(result.response, errorMember))
    else
      match how
      case ParsedBody => Resolved(parse(result.response))
      case NoValue => ResolvedEmpty
      case ParsedBodyIfAny => if result.response != "" then Resolved(parse(result.response)) else ResolvedEmpty
      case RawBodyIfAny => if result.response != "" then Resolved(result.response) else ResolvedEmpty
  }

  predicate IsSuccessStatus(status: int) {
    200 <= status < 300
  }

  /** The report of src/request.ts: a failure exactly when the status is outside 200-299. */
  function ReportOf(status: int, response: string): (r: RequestResult)
    ensures r.error <==> !IsSuccessStatus(status)
    ensures r.response == response
  {
    if (status >= 200) && (status < 300) then RequestResult(false, response) else RequestResult(true, response)
  }

  /**
   * End to end: an operation is rejected exactly when the status is outside
   * 200-299, and a 2xx reply with an empty body never yields a value, except
   * where the body is JSON-parsed unconditionally.
   */
  lemma StatusDecidesRejection(how: Resolution, status: int, response: string, parse: string -> Json,
                               errorMember: string -> Option<Json>)
    ensures Settle(how, ReportOf(status, response), parse, errorMember).Rejected? <==> !IsSuccessStatus(status)
    ensures IsSuccessStatus(status) && response == "" && how != ParsedBody ==>
      Settle(how, ReportOf(status, response), parse, errorMember) == ResolvedEmpty
    ensures Settle(how, ReportOf(status, response), parse, errorMember).Resolved? ==>
      IsSuccessStatus(status) && how != NoValue
  {
  }

  /** A rejection never depends on how the operation resolves. */
  lemma RejectionIgnoresResolution(a: Resolution, b: Resolution, result: RequestResult, parse: string -> Json,
                                   errorMember: string -> Option<Json>)
    requires result.error
    ensures Settle(a, result, parse, errorMember) == Settle(b, result, parse, errorMember)
  {
  }
}
