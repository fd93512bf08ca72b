/** What LHDN answers, as far as the workers look at it: the error buckets of
    crates/adapters/src/lhdn/error.rs and the replies of models.rs. */
module Lhdn {
  import opened Wrappers
  import opened Json

  datatype LhdnError =
    | Auth(message: string)
    | BadRequest(code: string, message: string)
    | NotFound
    | Conflict(code: string, message: string)
    | RateLimited(retryAfter: Option<nat>)
    | Server(httpStatus: int, body: string)
    | Transport(message: string)
    | Schema(message: string)
    | Storage
    | Config(message: string)
  {
    predicate IsTransient() {
      RateLimited? || Server? || Transport? || Storage?
    }
  }

  datatype AcceptedDocument = AcceptedDocument(uuid: string, codeNumber: string)

  datatype RejectedDocument = RejectedDocument(codeNumber: string, code: string, message: string, details: seq<Json>)

  datatype DocumentStatus = StillSubmitted | NowValid | NowInvalid | NowCancelled

  /** Times are the parsed RFC 3339 fields; none when absent or unreadable. */
  datatype DocumentDetails = DocumentDetails(
    uuid: string,
    longId: Option<string>,
    status: DocumentStatus,
    validatedAt: Option<int>,
    cancelledAt: Option<int>,
    reason: Option<string>)

  datatype Reply =
    | Submission(submissionUid: string, accepted: seq<AcceptedDocument>, rejected: seq<RejectedDocument>)
    | Details(details: DocumentDetails)
    | CancelOk
    | Refused(error: LhdnError)

  /** `find(|r| r.invoice_code_number == code)`: the first of them. */
  function FirstRejected(rejected: seq<RejectedDocument>, code: string): (r: Option<RejectedDocument>)
    ensures r.Some? ==> exists i :: 0 <= i < |rejected| && rejected[i] == r.value && r.value.codeNumber == code
                                    && forall j :: 0 <= j < i ==> rejected[j].codeNumber != code
    ensures r.None? <==> forall x :: x in rejected ==> x.codeNumber != code
  {
    if rejected == [] then None
    else if rejected[0].codeNumber == code then Some(rejected[0])
    else
      var rest := FirstRejected(rejected[1..], code);
      assert forall k :: 0 <= k < |rejected[1..]| ==> rejected[1..][k] == rejected[k + 1];
      rest
  }

  function FirstAccepted(accepted: seq<AcceptedDocument>, code: string): (r: Option<AcceptedDocument>)
    ensures r.Some? ==> exists i :: 0 <= i < |accepted| && accepted[i] == r.value && r.value.codeNumber == code
                                    && forall j :: 0 <= j < i ==> accepted[j].codeNumber != code
    ensures r.None? <==> forall x :: x in accepted ==> x.codeNumber != code
  {
    if accepted == [] then None
    else if accepted[0].codeNumber == code then Some(accepted[0])
    else
      var rest := FirstAccepted(accepted[1..], code);
      assert forall k :: 0 <= k < |accepted[1..]| ==> accepted[1..][k] == accepted[k + 1];
      rest
  }

  function AcceptedUuid(accepted: seq<AcceptedDocument>, code: string): string {
    match FirstAccepted(accepted, code)
    case Some(a) => a.uuid
    case None => ""
  }
}
