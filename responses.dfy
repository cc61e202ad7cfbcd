/** Error bodies of the API. */
module Responses {
  /** ResponseError: the JSON error body of a failed call. */
  datatype ResponseError = ResponseError(error: string, status: int, message: string)
  {
    /** A body describes an error when its status is 400 or more. */
    predicate IsError() { status >= 400 }
  }

  /** ObseleteResponse (the source's spelling): the body standing in for a retired endpoint. */
  datatype ObseleteResponse = ObseleteResponse(error: string, status: int, message: string)

  function NewObsoleteResponse(): (r: ObseleteResponse)
    ensures r.error == "Gone" && r.status == 410 && r.message == "This API is not available."
  {
    ObseleteResponse("Gone", 410, "This API is not available.")
  }

  /** IsError holds exactly from status 400 on, whatever the texts say. */
  lemma IsErrorOnlyStatus(a: ResponseError, b: ResponseError)
    requires a.status == b.status
    ensures a.IsError() == b.IsError()
    ensures a.IsError() <==> a.status >= 400
  {
  }

  /** The obsolete response, read as an error body, is classified as an error. */
  lemma ObsoleteIsError()
    ensures var o := NewObsoleteResponse(); ResponseError(o.error, o.status, o.message).IsError()
  {
  }
}
