/** `AdminControllerAdvice`: the error responses of the admin endpoints (role
    assignment and product administration), chosen by exception class first. */
module AdminControllerAdvice {
  import opened Wrappers
  import opened Errors
  import opened ErrorResponses
  import OrderControllerAdvice

  /** `handleFirebaseAuthException`. */
  function HandleFirebaseAuthException<D>(message: Option<string>): ErrorResponse<D> {
    ErrorResponse(UNAUTHORIZED, ApiResponse("Firebase Authentication Error: " + Show(message), None))
  }

  /** `handleIllegalArgumentException`. */
  function HandleIllegalArgumentException<D>(message: Option<string>): ErrorResponse<D> {
    ErrorResponse(BAD_REQUEST, ApiResponse("Invalid Argument: " + Show(message), None))
  }

  /** `handleRuntimeException`: "not found" messages are 404, the rest 500. */
  function HandleRuntimeException<D>(message: Option<string>): ErrorResponse<D> {
    if SaysNotFound(message) then ErrorResponse(NOT_FOUND, ApiResponse(message.value, None))
    else ErrorResponse(INTERNAL_SERVER_ERROR, ApiResponse("Error: " + Show(message), None))
  }

  /** `handleGenericException`. */
  function HandleGenericException<D>(message: Option<string>): ErrorResponse<D> {
    ErrorResponse(INTERNAL_SERVER_ERROR, ApiResponse("Internal Server Error: " + Show(message), None))
  }

  /** The response for a thrown exception: the handler for the most specific class,
      so an illegal argument never reaches the generic runtime rule. */
  function Handle<D>(e: Thrown): (r: ErrorResponse<D>)
    ensures r.body.data == None
    ensures e.kind == FirebaseAuth <==> r.status == UNAUTHORIZED
    ensures e.kind == FirebaseAuth ==> r.body.message == "Firebase Authentication Error: " + Show(e.message)
    ensures e.kind == IllegalArgument <==> r.status == BAD_REQUEST
    ensures e.kind == IllegalArgument ==> r.body.message == "Invalid Argument: " + Show(e.message)
    ensures r.status == NOT_FOUND <==> e.kind == Runtime && SaysNotFound(e.message)
    ensures r.status == NOT_FOUND ==> r.body.message == e.message.value
    ensures e.kind == Runtime && !SaysNotFound(e.message) ==>
      r == ErrorResponse(INTERNAL_SERVER_ERROR, ApiResponse("Error: " + Show(e.message), None))
    ensures e.kind == Checked ==>
      r == ErrorResponse(INTERNAL_SERVER_ERROR, ApiResponse("Internal Server Error: " + Show(e.message), None))
  {
    match e.kind
    case FirebaseAuth => HandleFirebaseAuthException(e.message)
    case IllegalArgument => HandleIllegalArgumentException(e.message)
    case Runtime => HandleRuntimeException(e.message)
    case Checked => HandleGenericException(e.message)
  }

  /** "Product not found" from the admin product endpoints, which this advice
      covers, is answered 404. */
  lemma ProductNotFoundIsNotFound<D>()
    ensures Handle<D>(Raised(ProductNotFound)) == ErrorResponse(NOT_FOUND, ApiResponse(Message(ProductNotFound), None))
  {
    NotFoundMessageSaysSo(ProductNotFound);
  }

  /** There is no 400 rule for "empty" here: the message the order advice answers
      with 400 is a 500 from this advice. */
  lemma NoEmptyRule<D>()
    ensures Handle<D>(Raised(CartIsEmpty)).status == INTERNAL_SERVER_ERROR
    ensures OrderControllerAdvice.Handle<D>(Raised(CartIsEmpty)).status == BAD_REQUEST
  {
    CheckoutMessageNotNotFound(CartIsEmpty);
    OrderControllerAdvice.CheckoutValidationIsBadRequest<D>(CartIsEmpty);
  }
}
