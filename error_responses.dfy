/** What the controller advices work with: the thrown exception (its kind and
    possibly-null message), Java's `String.contains`, and the `ApiResponse` error
    body they return with an HTTP status. */
module ErrorResponses {
  import opened Wrappers
  import opened Errors

  /** The exception classes the advices distinguish. `IllegalArgumentException` is
      a `RuntimeException`; `FirebaseAuthException` is a checked exception. */
  datatype ExceptionKind = Runtime | IllegalArgument | FirebaseAuth | Checked

  predicate IsRuntime(kind: ExceptionKind) {
    kind == Runtime || kind == IllegalArgument
  }

  /** A thrown exception; `getMessage()` may be null. */
  datatype Thrown = Thrown(kind: ExceptionKind, message: Option<string>)

  /** The body `new ApiResponse(message, data)`. */
  datatype ApiResponse<D> = ApiResponse(message: string, data: Option<D>)

  datatype ErrorResponse<D> = ErrorResponse(status: nat, body: ApiResponse<D>)

  const BAD_REQUEST: nat := 400
  const UNAUTHORIZED: nat := 401
  const NOT_FOUND: nat := 404
  const INTERNAL_SERVER_ERROR: nat := 500

  /** Java string concatenation of a possibly-null string: null prints as "null". */
  function Show(message: Option<string>): (s: string)
    ensures message == Some(s) || (message == None && s == "null")
  {
    if message.Some? then message.value else "null"
  }

  /** `s.contains(sub)`. */
  predicate Contains(s: string, sub: string)
    decreases |s|
  {
    |sub| <= |s| && (s[..|sub|] == sub || Contains(s[1..], sub))
  }

  /** An occurrence at any index makes `contains` true. */
  lemma {:induction false} ContainsAt(s: string, sub: string, i: nat)
    requires i + |sub| <= |s| && s[i..i + |sub|] == sub
    ensures Contains(s, sub)
    decreases i
  {
    if i > 0 {
      assert s[1..][i - 1..i - 1 + |sub|] == s[i..i + |sub|];
      ContainsAt(s[1..], sub, i - 1);
    }
  }

  /** Conversely, `contains` holds only where `sub` occurs at some index. */
  lemma {:induction false} ContainsWitness(s: string, sub: string) returns (i: nat)
    requires Contains(s, sub)
    ensures i + |sub| <= |s| && s[i..i + |sub|] == sub
    decreases |s|
  {
    if s[..|sub|] == sub {
      i := 0;
    } else {
      var j := ContainsWitness(s[1..], sub);
      assert s[1..][j..j + |sub|] == s[j + 1..j + 1 + |sub|];
      i := j + 1;
    }
  }

  /** Every character of a contained string occurs in the containing one, so a
      string lacking one of `sub`'s characters does not contain `sub`. */
  lemma {:induction false} ContainsChar(s: string, sub: string, c: char)
    requires Contains(s, sub) && c in sub
    ensures c in s
    decreases |s|
  {
    if s[..|sub|] == sub {
      assert c in s[..|sub|];
    } else {
      ContainsChar(s[1..], sub, c);
    }
  }

  /** A string contains its own suffix. */
  lemma ContainsSuffix(pre: string, sub: string)
    ensures Contains(pre + sub, sub)
  {
    assert (pre + sub)[|pre|..|pre| + |sub|] == sub;
    ContainsAt(pre + sub, sub, |pre|);
  }

  /** A string contains its own prefix. */
  lemma ContainsPrefix(sub: string, post: string)
    ensures Contains(sub + post, sub)
  {
    assert (sub + post)[0..|sub|] == sub;
    ContainsAt(sub + post, sub, 0);
  }

  /** The exception a service failure surfaces as: a `RuntimeException` with the
      failure's message, except `Role.valueOf`'s `IllegalArgumentException`. */
  function Raised(e: ServiceError): (t: Thrown)
    ensures t.message == Some(Message(e))
    ensures IsRuntime(t.kind)
  {
    Thrown(if e.NoEnumConstant? then IllegalArgument else Runtime, Some(Message(e)))
  }

  /** Whether the message is non-null and contains "not found". */
  predicate SaysNotFound(message: Option<string>): (b: bool)
    ensures b ==> message.Some? && |"not found"| <= |message.value|
  {
    message.Some? && Contains(message.value, "not found")
  }

  /** The failures whose message reports a missing row. */
  predicate IsNotFound(e: ServiceError) {
    e.UserNotFound? || e.ProductNotFound? || e.CartNotFound? || e.CartItemNotFound? || e.OrderNotFound?
  }

  /** Each "... not found" failure's message does contain "not found". */
  lemma NotFoundMessageSaysSo(e: ServiceError)
    requires IsNotFound(e)
    ensures SaysNotFound(Some(Message(e)))
  {
    match e
    case UserNotFound =>
      assert Message(e) == "User " + "not found";
      ContainsSuffix("User ", "not found");
    case ProductNotFound =>
      assert Message(e) == "Product " + "not found";
      ContainsSuffix("Product ", "not found");
    case CartNotFound =>
      assert Message(e) == "Cart " + "not found";
      ContainsSuffix("Cart ", "not found");
    case CartItemNotFound =>
      assert Message(e) == "Cart item " + "not found";
      ContainsSuffix("Cart item ", "not found");
    case OrderNotFound =>
      assert Message(e) == "Order " + "not found";
      ContainsSuffix("Order ", "not found");
  }

  /** The checkout validation messages do not say "not found" (neither has an 'f'). */
  lemma CheckoutMessageNotNotFound(e: ServiceError)
    requires e == CartIsEmpty || e == EmptyCartCheckout
    ensures !SaysNotFound(Some(Message(e)))
  {
    var m := Message(e);
    assert 'f' !in m by {
      if e == CartIsEmpty {
        assert m == "Cart is empty";
      } else {
        assert m == "Cannot checkout with an empty cart";
      }
    }
    if Contains(m, "not found") {
      assert "not found"[4] == 'f';
      ContainsChar(m, "not found", 'f');
    }
  }
}
