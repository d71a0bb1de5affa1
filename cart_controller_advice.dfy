/** `CartControllerAdvice`: the error responses of the cart endpoints. */
module CartControllerAdvice {
  import opened Wrappers
  import opened Errors
  import opened ErrorResponses

  /** `handleRuntimeException`: "not found" messages are 404, the rest 500. */
  function HandleRuntimeException<D>(message: Option<string>): ErrorResponse<D> {
    if SaysNotFound(message) then ErrorResponse(NOT_FOUND, ApiResponse(message.value, None))
    else ErrorResponse(INTERNAL_SERVER_ERROR, ApiResponse("Error: " + Show(message), None))
  }

  /** `handleGenericException`. */
  function HandleGenericException<D>(message: Option<string>): ErrorResponse<D> {
    ErrorResponse(INTERNAL_SERVER_ERROR, ApiResponse("Internal Server Error: " + Show(message), None))
  }

  /** The response for a thrown exception: Spring picks the most specific handler,
      the runtime one for every `RuntimeException` (including illegal-argument). */
  function Handle<D>(e: Thrown): (r: ErrorResponse<D>)
    ensures r.body.data == None
    ensures r.status == NOT_FOUND <==> IsRuntime(e.kind) && SaysNotFound(e.message)
    ensures r.status == NOT_FOUND ==> r.body.message == e.message.value
    ensures r.status != NOT_FOUND ==> r.status == INTERNAL_SERVER_ERROR
    ensures r.status != NOT_FOUND && IsRuntime(e.kind) ==> r.body.message == "Error: " + Show(e.message)
    ensures !IsRuntime(e.kind) ==> r.body.message == "Internal Server Error: " + Show(e.message)
  {
    if IsRuntime(e.kind) then HandleRuntimeException(e.message) else HandleGenericException(e.message)
  }

  /** Every failure the cart service raises is answered 404 with its own message. */
  lemma CartServiceErrorsAreNotFound<D>(e: ServiceError)
    requires e == UserNotFound || e == ProductNotFound || e == CartNotFound || e == CartItemNotFound
    ensures Handle<D>(Raised(e)) == ErrorResponse(NOT_FOUND, ApiResponse(Message(e), None))
  {
    NotFoundMessageSaysSo(e);
  }
}
