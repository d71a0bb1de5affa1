/** `OrderControllerAdvice`: the error responses of the order endpoints, with an
    extra 400 rule for checkout's validation messages. */
module OrderControllerAdvice {
  import opened Wrappers
  import opened Errors
  import opened ErrorResponses

  /** Whether the message is non-null and reads as a validation failure. */
  predicate SaysInvalid(message: Option<string>) {
    message.Some? && (Contains(message.value, "empty") || Contains(message.value, "Cannot checkout"))
  }

  /** `handleRuntimeException`: "not found" is tested first (404), then "empty" or
      "Cannot checkout" (400); everything else is 500. */
  function HandleRuntimeException<D>(message: Option<string>): ErrorResponse<D> {
    if SaysNotFound(message) then ErrorResponse(NOT_FOUND, ApiResponse(message.value, None))
    else if SaysInvalid(message) then ErrorResponse(BAD_REQUEST, ApiResponse(message.value, None))
    else ErrorResponse(INTERNAL_SERVER_ERROR, ApiResponse("Error: " + Show(message), None))
  }

  /** `handleGenericException`. */
  function HandleGenericException<D>(message: Option<string>): ErrorResponse<D> {
    ErrorResponse(INTERNAL_SERVER_ERROR, ApiResponse("Internal Server Error: " + Show(message), None))
  }

  /** The response for a thrown exception. */
  function Handle<D>(e: Thrown): (r: ErrorResponse<D>)
    ensures r.body.data == None
    ensures r.status == NOT_FOUND <==> IsRuntime(e.kind) && SaysNotFound(e.message)
    ensures r.status == BAD_REQUEST <==> IsRuntime(e.kind) && !SaysNotFound(e.message) && SaysInvalid(e.message)
    ensures r.status == NOT_FOUND || r.status == BAD_REQUEST ==> r.body.message == e.message.value
    ensures r.status != NOT_FOUND && r.status != BAD_REQUEST ==> r.status == INTERNAL_SERVER_ERROR
    ensures r.status == INTERNAL_SERVER_ERROR && IsRuntime(e.kind) ==> r.body.message == "Error: " + Show(e.message)
    ensures !IsRuntime(e.kind) ==> r.body.message == "Internal Server Error: " + Show(e.message)
  {
    if IsRuntime(e.kind) then HandleRuntimeException(e.message) else HandleGenericException(e.message)
  }

  /** A message saying both "not found" and "empty" is a 404: the not-found rule wins. */
  lemma NotFoundBeforeEmpty<D>(m: string)
    requires Contains(m, "not found") && Contains(m, "empty")
    ensures Handle<D>(Thrown(Runtime, Some(m))).status == NOT_FOUND
  {
  }

  /** A runtime message that does not say "not found" but reads as a validation
      failure is a 400 carrying the message itself. */
  lemma InvalidIsBadRequest<D>(m: string)
    requires !Contains(m, "not found")
    requires Contains(m, "empty") || Contains(m, "Cannot checkout")
    ensures Handle<D>(Thrown(Runtime, Some(m))) == ErrorResponse(BAD_REQUEST, ApiResponse(m, None))
  {
  }

  /** "Cart is empty" reads as a validation failure. */
  lemma CartIsEmptySaysInvalid()
    ensures SaysInvalid(Some(Message(CartIsEmpty)))
  {
    assert Message(CartIsEmpty) == "Cart is " + "empty";
    ContainsSuffix("Cart is ", "empty");
  }

  /** "Cannot checkout with an empty cart" reads as a validation failure. */
  lemma EmptyCartCheckoutSaysInvalid()
    ensures SaysInvalid(Some(Message(EmptyCartCheckout)))
  {
    assert Message(EmptyCartCheckout) == "Cannot checkout" + " with an empty cart";
    ContainsPrefix("Cannot checkout", " with an empty cart");
  }

  /** Checkout without a cart ("Cart is empty") or with an empty one is a 400. */
  lemma CheckoutValidationIsBadRequest<D>(e: ServiceError)
    requires e == CartIsEmpty || e == EmptyCartCheckout
    ensures Handle<D>(Raised(e)) == ErrorResponse(BAD_REQUEST, ApiResponse(Message(e), None))
  {
    CheckoutMessageNotNotFound(e);
    if e == CartIsEmpty {
      CartIsEmptySaysInvalid();
    } else {
      EmptyCartCheckoutSaysInvalid();
    }
    InvalidIsBadRequest<D>(Message(e));
  }

  /** A missing user or order is a 404. */
  lemma OrderServiceNotFoundIsNotFound<D>(e: ServiceError)
    requires e == UserNotFound || e == OrderNotFound
    ensures Handle<D>(Raised(e)) == ErrorResponse(NOT_FOUND, ApiResponse(Message(e), None))
  {
    NotFoundMessageSaysSo(e);
  }
}
