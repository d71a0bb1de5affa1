/** The failures the services raise. The Java services throw `RuntimeException`s
    whose only distinguishing feature is their message text; the model names each
    one and keeps its exact text in `Message`. */
module Errors {

  datatype ServiceError =
    | UserNotFound
    | ProductNotFound
    | CartNotFound
    | CartItemNotFound
    | CartIsEmpty
    | EmptyCartCheckout
    | OrderNotFound
      /** `Role.valueOf` of a name that is not a constant (an `IllegalArgumentException`). */
    | NoEnumConstant(name: string)
      /** The database refusing to delete a product that rows still reference. */
    | IntegrityViolation

  /** The message text the exception carries. Every missing-row failure says so
      at the end of its message. */
  function Message(e: ServiceError): (m: string)
    ensures 0 < |m|
    ensures e.UserNotFound? || e.ProductNotFound? || e.CartNotFound? || e.CartItemNotFound? || e.OrderNotFound?
      ==> 9 <= |m| && m[|m| - 9..] == "not found"
  {
    match e
    case UserNotFound => "User " + "not found"
    case ProductNotFound => "Product " + "not found"
    case CartNotFound => "Cart " + "not found"
    case CartItemNotFound => "Cart item " + "not found"
    case CartIsEmpty => "Cart is empty"
    case EmptyCartCheckout => "Cannot checkout with an empty cart"
    case OrderNotFound => "Order " + "not found"
    case NoEnumConstant(name) => "No enum constant com.ecommerce.ecommerce.model.Role." + name
    case IntegrityViolation => "could not execute statement"
  }

  /** Distinct failures carry distinct messages, so the text alone tells a handler
      which failure it is looking at. */
  lemma MessageInjective(e1: ServiceError, e2: ServiceError)
    requires Message(e1) == Message(e2)
    ensures e1 == e2
  {
    if e1.NoEnumConstant? && e2.NoEnumConstant? {
      var prefix := "No enum constant com.ecommerce.ecommerce.model.Role.";
      assert e1.name == Message(e1)[|prefix|..] == Message(e2)[|prefix|..] == e2.name;
    }
  }
}
