/**
 * The basket page (src/page/OrderBasket.jsx): the order total, the payload
 * sent when the order is submitted, and the submission state machine
 * (one request in flight at a time, the cart cleared only on success, an
 * error text that is never empty).
 */
module OrderBasket {
  import opened Js
  import opened Cart

  /** `parseFloat(item['Цена']) || 0`: NaN and 0 both become 0. */
  function PriceOr0(p: Option<int>): int
  {
    match p
    case None => 0
    case Some(v) => v
  }

  /** One line's contribution, `price * item.quantity`. */
  function LineTotal(l: Line): int
  {
    PriceOr0(l.price) * l.quantity
  }

  /** `calculateTotal`: the reduce adds the lines' contributions; integer
      addition being associative and commutative, summing from the head
      gives the same number. */
  function Total(s: seq<Line>): int
  {
    if s == [] then 0 else LineTotal(s[0]) + Total(s[1..])
  }

  lemma {:induction false} TotalAppend(a: seq<Line>, b: seq<Line>)
    ensures Total(a + b) == Total(a) + Total(b)
    decreases |a|
  {
    if a != [] {
      assert (a + b)[0] == a[0] && (a + b)[1..] == a[1..] + b;
      TotalAppend(a[1..], b);
    } else {
      assert a + b == b;
    }
  }

  /** The "+" button calls `increaseQuantity(item.id)`. On a line of a
      well-formed cart whose `id` is set, it raises the total by that line's
      unit price; on a line whose `id` is falsy (a line keyed by its code or
      article alone) it matches no line and leaves the cart unchanged. */
  lemma TotalAfterIncrease(s: seq<Line>, i: int)
    requires WellFormed(s) && 0 <= i < |s|
    ensures Truthy(s[i].id) ==> Total(IncrementLine(s, s[i].id)) == Total(s) + PriceOr0(s[i].price)
    ensures !Truthy(s[i].id) ==> IncrementLine(s, s[i].id) == s
  {
    if Truthy(s[i].id) {
      assert Key(s[i]) == s[i].id;
      TotalAfterIncreaseByKey(s, i);
    } else {
      forall j | 0 <= j < |s| ensures Key(s[j]) != s[i].id {
        assert HasKey(s[j]);
      }
    }
  }

  /** Incrementing a line by its key raises the total by its unit price. */
  lemma TotalAfterIncreaseByKey(s: seq<Line>, i: int)
    requires WellFormed(s) && 0 <= i < |s|
    ensures Total(IncrementLine(s, Key(s[i]))) == Total(s) + PriceOr0(s[i].price)
  {
    var k := Key(s[i]);
    var a, x, b := s[..i], s[i], s[i + 1..];
    assert s == a + [x] + b;
    assert !HasLineWithKey(a, k) by {
      forall j | 0 <= j < |a| ensures Key(a[j]) != k {
        assert a[j] == s[j];
      }
    }
    assert !HasLineWithKey(b, k) by {
      forall j | 0 <= j < |b| ensures Key(b[j]) != k {
        assert b[j] == s[i + 1 + j];
      }
    }
    TotalBumpAt(a, x, b);
  }

  lemma TotalBumpAt(a: seq<Line>, x: Line, b: seq<Line>)
    requires !HasLineWithKey(a, Key(x)) && !HasLineWithKey(b, Key(x)) && x.quantity >= 1
    ensures Total(Bump(a + [x] + b, Key(x), 1)) == Total(a + [x] + b) + PriceOr0(x.price)
  {
    var x' := x.(quantity := x.quantity + 1);
    BumpOnlyAt(a, x, b);
    TotalReplaceOne(a, x, x', b);
    var p := PriceOr0(x.price);
    assert p * (x.quantity + 1) == p * x.quantity + p;
  }

  /** Bumping the key of the one line that has it touches only that line. */
  lemma BumpOnlyAt(a: seq<Line>, x: Line, b: seq<Line>)
    requires !HasLineWithKey(a, Key(x)) && !HasLineWithKey(b, Key(x)) && x.quantity >= 1
    ensures Bump(a + [x] + b, Key(x), 1) == a + [x.(quantity := x.quantity + 1)] + b
  {
    var s := a + [x] + b;
    var t := a + [x.(quantity := x.quantity + 1)] + b;
    var r := Bump(s, Key(x), 1);
    forall i | 0 <= i < |s| ensures r[i] == t[i] {
      if i < |a| {
        assert s[i] == a[i] && t[i] == a[i];
      } else if i > |a| {
        assert s[i] == b[i - |a| - 1] && t[i] == b[i - |a| - 1];
      }
    }
  }

  /** Replacing one line changes the total by the difference of the two
      lines' contributions. */
  lemma TotalReplaceOne(a: seq<Line>, x: Line, y: Line, b: seq<Line>)
    ensures Total(a + [y] + b) == Total(a + [x] + b) - LineTotal(x) + LineTotal(y)
  {
    TotalAppend(a + [x], b);
    TotalAppend(a, [x]);
    TotalAppend(a + [y], b);
    TotalAppend(a, [y]);
  }

  /** Adding a new keyed product to a cart that does not hold it adds its
      price times the quantity added. */
  lemma TotalAfterAddNew(s: seq<Line>, p: Line)
    requires HasKey(p) && !HasLineWithKey(s, Key(p))
    ensures Total(AddLine(s, p)) == Total(s) + PriceOr0(p.price) * QtyOr1(p.quantity)
  {
    TotalAppend(s, [NewLine(p)]);
  }

  /** An empty cart is worth nothing. */
  lemma TotalEmpty()
    ensures Total([]) == 0
  {
  }

  // ---------------------------------------------------------------------
  // The order payload

  /** `item['Код'] || item['Артикул'] || item.id`: the same three fields as
      the cart key, tried in another order. */
  function ProductCode(l: Line): Value
  {
    Or(Or(l.code, l.article), l.id)
  }

  /** The filter: a name and some product code. */
  predicate Submittable(l: Line)
  {
    Truthy(l.name) && Truthy(ProductCode(l))
  }

  datatype PayloadItem = PayloadItem(name: Value, price: int, productCode: Value, quantity: int)

  function ToPayloadItem(l: Line): PayloadItem
  {
    PayloadItem(l.name, PriceOr0(l.price), ProductCode(l), QtyOr1(l.quantity))
  }

  /** `payload.items`: filter, then map. */
  function Payload(s: seq<Line>): seq<PayloadItem>
  {
    if s == [] then []
    else if Submittable(s[0]) then [ToPayloadItem(s[0])] + Payload(s[1..])
    else Payload(s[1..])
  }

  lemma {:induction false} PayloadAppend(a: seq<Line>, b: seq<Line>)
    ensures Payload(a + b) == Payload(a) + Payload(b)
    decreases |a|
  {
    if a != [] {
      assert (a + b)[0] == a[0] && (a + b)[1..] == a[1..] + b;
      PayloadAppend(a[1..], b);
    } else {
      assert a + b == b;
    }
  }

  /** Every item sent comes from a submittable line, and every submittable
      line is sent; each item carries a name, a product code and a non-zero
      quantity, and there are never more items than lines. */
  lemma {:induction false} PayloadExactlySubmittable(s: seq<Line>)
    ensures |Payload(s)| <= |s|
    ensures forall y :: y in Payload(s) <==> exists x :: x in s && Submittable(x) && y == ToPayloadItem(x)
    ensures forall y :: y in Payload(s) ==> Truthy(y.name) && Truthy(y.productCode) && y.quantity != 0
    decreases |s|
  {
    if s != [] {
      PayloadExactlySubmittable(s[1..]);
      forall y | (exists x :: x in s && Submittable(x) && y == ToPayloadItem(x))
        ensures y in Payload(s)
      {
        var x :| x in s && Submittable(x) && y == ToPayloadItem(x);
        if x != s[0] {
          assert x in s[1..];
        }
      }
    }
  }

  /** Every line converted, in cart order. */
  function Converted(s: seq<Line>): (r: seq<PayloadItem>)
    ensures |r| == |s|
    ensures forall i :: 0 <= i < |s| ==> r[i] == ToPayloadItem(s[i])
  {
    if s == [] then [] else [ToPayloadItem(s[0])] + Converted(s[1..])
  }

  /** The items are sent in cart order: the payload is a subsequence of the
      converted cart. */
  lemma {:induction false} PayloadKeepsOrder(s: seq<Line>)
    ensures Subsequence(Payload(s), Converted(s))
    decreases |s|
  {
    if s != [] {
      PayloadKeepsOrder(s[1..]);
      var rest, conv := Payload(s[1..]), Converted(s[1..]);
      assert Converted(s) == [ToPayloadItem(s[0])] + conv;
      if Submittable(s[0]) {
        var p := [ToPayloadItem(s[0])] + rest;
        assert p[1..] == rest && ([ToPayloadItem(s[0])] + conv)[1..] == conv;
      } else {
        SubsequenceWeaken(rest, conv, ToPayloadItem(s[0]));
      }
    }
  }

  /** The cart key and the product code are truthy together: on a cart
      whose lines all carry a key, only nameless lines are dropped. */
  lemma CodeIffKey(l: Line)
    ensures Truthy(ProductCode(l)) <==> HasKey(l)
  {
  }

  lemma {:induction false} PayloadOfKeyedCart(s: seq<Line>)
    requires AllKeyed(s)
    ensures forall y :: y in Payload(s) <==> exists x :: x in s && Truthy(x.name) && y == ToPayloadItem(x)
    ensures (forall i :: 0 <= i < |s| ==> Truthy(s[i].name)) ==> |Payload(s)| == |s|
    decreases |s|
  {
    PayloadExactlySubmittable(s);
    assert forall x :: x in s ==> HasKey(x);
    if s != [] {
      PayloadOfKeyedCart(s[1..]);
    }
  }

  // ---------------------------------------------------------------------
  // Submission

  /** How the POST ended: accepted, or failed with the server's `message`
      field (if any) and the exception's own message. */
  datatype PostOutcome = Accepted | Rejected(serverMessage: Value, exceptionMessage: Value)

  /** The text shown on failure: the server's message, else the exception's,
      else a fixed fallback; it is never falsy. */
  function ErrorText(serverMessage: Value, exceptionMessage: Value): (r: Value)
    ensures Truthy(r)
    ensures Truthy(serverMessage) ==> r == serverMessage
    ensures !Truthy(serverMessage) && Truthy(exceptionMessage) ==> r == exceptionMessage
    ensures !Truthy(serverMessage) && !Truthy(exceptionMessage) ==> r == Str("Ошибка при отправке заказа")
  {
    Or(Or(serverMessage, exceptionMessage), Str("Ошибка при отправке заказа"))
  }

  /** The page's own state. `handleSubmitOrder` awaits the POST, so it is
      split at the await: `BeginSubmit` runs up to the request, `FinishSubmit`
      from its outcome to the `finally`. */
  class Checkout {
    var isSubmitting: bool
    var errorMessage: Value
    var showErrorModal: bool
    var showSuccessModal: bool

    constructor ()
      ensures !isSubmitting && errorMessage == Str("") && !showErrorModal && !showSuccessModal
    {
      isSubmitting := false;
      errorMessage := Str("");
      showErrorModal := false;
      showSuccessModal := false;
    }

    /** Refuses an empty cart, a missing session and a second submission
        while one is in flight; otherwise builds the payload to POST. */
    method BeginSubmit(cart: CartProvider, token: Option<string>) returns (request: Option<seq<PayloadItem>>)
      modifies this
      ensures request == if |cart.items| == 0 || !Present(token) || old(isSubmitting) then None
                         else Some(Payload(cart.items))
      ensures isSubmitting == (old(isSubmitting) || request.Some?)
      ensures errorMessage == old(errorMessage) && showErrorModal == old(showErrorModal)
      ensures showSuccessModal == old(showSuccessModal)
    {
      if |cart.items| == 0 || !Present(token) || isSubmitting {
        return None;
      }
      request := Some(Payload(cart.items));
      isSubmitting := true;
    }

    /** Success opens the success modal and empties the cart; failure keeps
        the cart and shows the error text; either way the page is ready
        for another submission. */
    method FinishSubmit(cart: CartProvider, outcome: PostOutcome)
      requires cart.Valid()
      modifies this, cart
      ensures cart.Valid() && !isSubmitting
      ensures cart.store == old(cart.store) && cart.loaded == old(cart.loaded)
      ensures outcome.Accepted? ==>
        cart.items == [] && showSuccessModal && errorMessage == old(errorMessage)
        && showErrorModal == old(showErrorModal)
      ensures outcome.Rejected? ==>
        cart.items == old(cart.items) && showErrorModal && showSuccessModal == old(showSuccessModal)
        && errorMessage == ErrorText(outcome.serverMessage, outcome.exceptionMessage)
    {
      if outcome.Accepted? {
        showSuccessModal := true;
        cart.ClearCart();
      } else {
        errorMessage := ErrorText(outcome.serverMessage, outcome.exceptionMessage);
        showErrorModal := true;
      }
      isSubmitting := false;
    }
  }

  /** Two clicks before the first request settles send one order. */
  method DoubleClickSendsOnce(cart: CartProvider, token: string)
    returns (first: Option<seq<PayloadItem>>, second: Option<seq<PayloadItem>>)
    requires token != "" && |cart.items| > 0
    ensures first == Some(Payload(cart.items)) && second == None
  {
    var page := new Checkout();
    first := page.BeginSubmit(cart, Some(token));
    second := page.BeginSubmit(cart, Some(token));
  }
}
