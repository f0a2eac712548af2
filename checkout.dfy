/** The checkout page: the shipping and payment form's schema, the redirect
    away from an empty cart, the order summary, and the submit transition
    that clears the cart and moves on to the order confirmation. */
module Checkout {
  import opened Wrappers
  import opened Catalog

  /** The form's values; no payment method is chosen until the user picks one. */
  datatype CheckoutForm = CheckoutForm(
    name: string,
    email: string,
    phone: string,
    address: string,
    city: string,
    zip: string,
    paymentMethod: Option<string>)

  /** The fields the schema can reject. */
  datatype CheckoutField = Name | Email | Phone | Address | City | Zip | Payment

  /** The payment-method enum. */
  datatype PaymentMethod = Card | Mpesa | Paypal

  /** The enum value each radio button submits. */
  function PaymentMethodValue(m: PaymentMethod): (v: string)
  {
    match m
    case Card => "card"
    case Mpesa => "mpesa"
    case Paypal => "paypal"
  }

  /** `z.enum(["card", "mpesa", "paypal"])`: a missing or unknown value fails. */
  function ParsePaymentMethod(v: Option<string>): (r: Option<PaymentMethod>)
    ensures r.Some? <==> v == Some("card") || v == Some("mpesa") || v == Some("paypal")
    ensures r.Some? ==> v == Some(PaymentMethodValue(r.value))
  {
    match v
    case None => None
    case Some(s) =>
      if s == "card" then Some(Card)
      else if s == "mpesa" then Some(Mpesa)
      else if s == "paypal" then Some(Paypal)
      else None
  }

  /** Every radio button's value is accepted as the method it stands for. */
  lemma PaymentMethodRoundTrip(m: PaymentMethod)
    ensures ParsePaymentMethod(Some(PaymentMethodValue(m))) == Some(m)
  {
  }

  /** The constraint `formSchema` puts on one field. The e-mail check is the
      validation library's own, passed in as `isEmail`. */
  predicate FieldAccepted(f: CheckoutForm, field: CheckoutField, isEmail: string -> bool)
  {
    match field
    case Name => |f.name| >= 2
    case Email => isEmail(f.email)
    case Phone => |f.phone| >= 10
    case Address => |f.address| >= 5
    case City => |f.city| >= 2
    case Zip => |f.zip| >= 4
    case Payment => ParsePaymentMethod(f.paymentMethod).Some?
  }

  function Issue(f: CheckoutForm, field: CheckoutField, isEmail: string -> bool): (r: seq<CheckoutField>)
  {
    if FieldAccepted(f, field, isEmail) then [] else [field]
  }

  /** The fields `formSchema` rejects, in schema order. */
  function CheckoutIssues(f: CheckoutForm, isEmail: string -> bool): (r: seq<CheckoutField>)
    ensures forall field :: field in r <==> !FieldAccepted(f, field, isEmail)
  {
    Issue(f, Name, isEmail) + Issue(f, Email, isEmail) + Issue(f, Phone, isEmail)
    + Issue(f, Address, isEmail) + Issue(f, City, isEmail) + Issue(f, Zip, isEmail)
    + Issue(f, Payment, isEmail)
  }

  /** The schema accepts a form exactly when name, phone, address, city and
      zip have at least 2, 10, 5, 2 and 4 characters, the e-mail passes the
      library check, and the payment method is exactly one of the three. */
  lemma CheckoutAccepted(f: CheckoutForm, isEmail: string -> bool)
    ensures CheckoutIssues(f, isEmail) == [] <==>
              && |f.name| >= 2 && isEmail(f.email) && |f.phone| >= 10
              && |f.address| >= 5 && |f.city| >= 2 && |f.zip| >= 4
              && (f.paymentMethod == Some("card") || f.paymentMethod == Some("mpesa")
                  || f.paymentMethod == Some("paypal"))
  {
    var r := CheckoutIssues(f, isEmail);
    if r != [] {
      assert r[0] in r;
      assert !FieldAccepted(f, r[0], isEmail);
    } else {
      assert FieldAccepted(f, Name, isEmail) && FieldAccepted(f, Email, isEmail);
      assert FieldAccepted(f, Phone, isEmail) && FieldAccepted(f, Address, isEmail);
      assert FieldAccepted(f, City, isEmail) && FieldAccepted(f, Zip, isEmail);
      assert FieldAccepted(f, Payment, isEmail);
    }
  }

  /** The form's `defaultValues`: every text field empty, no payment method. */
  const DefaultCheckoutForm: CheckoutForm := CheckoutForm("", "", "", "", "", "", None)

  /** The default form fails on every length rule and on the payment method. */
  lemma DefaultCheckoutFormRejected(isEmail: string -> bool)
    ensures CheckoutIssues(DefaultCheckoutForm, isEmail)
              == [Name] + (if isEmail("") then [] else [Email]) + [Phone, Address, City, Zip, Payment]
  {
  }

  // ---------------------------------------------------------------------
  // Navigation, the empty-cart redirect and the order summary
  // ---------------------------------------------------------------------

  /** The routes the page pushes. */
  datatype Route =
    | ShopRoute                     // `/shop`
    | OrderConfirmation(total: int) // `/order-confirmation?total=...`

  /** The effect on `cartItems`: an empty cart sends the user back to the shop. */
  function EmptyCartRedirect(items: seq<CartItem>): (r: Option<Route>)
    ensures r.Some? <==> items == []
    ensures r.Some? ==> r.value == ShopRoute
  {
    if |items| == 0 then Some(ShopRoute) else None
  }

  /** One line of the order summary. */
  datatype SummaryLine = SummaryLine(name: string, quantity: int, amount: int)

  /** The summary line of one cart line: its amount is price times quantity. */
  function LineOf(item: CartItem): (line: SummaryLine)
    ensures line.name == item.product.name && line.quantity == item.quantity
    ensures line.amount == item.product.price * item.quantity
    ensures item.quantity >= 0 ==> line.amount >= 0
  {
    SummaryLine(item.product.name, item.quantity, item.product.price * item.quantity)
  }

  /** The order summary, one line per cart line, in cart order. */
  function SummaryLines(items: seq<CartItem>): (r: seq<SummaryLine>)
    ensures |r| == |items|
    ensures forall i :: 0 <= i < |items| ==> r[i] == LineOf(items[i])
  {
    seq(|items|, i requires 0 <= i < |items| => LineOf(items[i]))
  }

  /** What the page renders. */
  datatype CheckoutView =
    | NothingRendered                                    // `null`, for an empty cart
    | CheckoutScreen(lines: seq<SummaryLine>, total: int) // the form beside the summary

  /** The early return for an empty cart, otherwise the form and summary with
      the cart's own `cartTotal` as the displayed total. */
  function Render(items: seq<CartItem>, cartTotal: int): (v: CheckoutView)
    ensures v == NothingRendered <==> items == []
    ensures v == NothingRendered <==> EmptyCartRedirect(items).Some?
    ensures v.CheckoutScreen? ==> v.lines == SummaryLines(items) && v.total == cartTotal
  {
    if |items| == 0 then NothingRendered else CheckoutScreen(SummaryLines(items), cartTotal)
  }

  /** The sum of the displayed line amounts. */
  function LinesTotal(lines: seq<SummaryLine>): (sum: int)
    decreases |lines|
  {
    if lines == [] then 0 else lines[0].amount + LinesTotal(lines[1..])
  }

  /** The cart's value: the sum of price times quantity over its lines. */
  function CartValue(items: seq<CartItem>): (value: int)
    decreases |items|
  {
    if items == [] then 0 else items[0].product.price * items[0].quantity + CartValue(items[1..])
  }

  /** The displayed line amounts add up to the cart's value, so the summary is
      consistent whenever the cart's `cartTotal` is that value. */
  lemma {:induction false} SummaryAddsUp(items: seq<CartItem>)
    ensures LinesTotal(SummaryLines(items)) == CartValue(items)
    decreases |items|
  {
    if items != [] {
      SummaryAddsUp(items[1..]);
      assert SummaryLines(items)[1..] == SummaryLines(items[1..]);
    }
  }

  // ---------------------------------------------------------------------
  // The submit transition
  // ---------------------------------------------------------------------

  /** The page's view of the cart store it uses (`cartItems`, `cartTotal`,
      `clearCart`), and the routes pushed so far. */
  class CheckoutSession {
    var cartItems: seq<CartItem>
    var cartTotal: int
    var pushed: seq<Route>

    /** The state on the first render, before the cart effect first runs:
        nothing pushed yet, even for an empty cart. The effect's first run is
        a separate `CartChanged` call, which then pushes `/shop` for an empty
        cart. */
    constructor (items: seq<CartItem>, total: int)
      ensures cartItems == items && cartTotal == total && pushed == []
    {
      cartItems, cartTotal, pushed := items, total, [];
    }

    /** The store's `clearCart`: no lines, nothing owed. */
    method ClearCart()
      modifies this
      ensures cartItems == [] && cartTotal == 0 && pushed == old(pushed)
    {
      cartItems, cartTotal := [], 0;
    }

    /** The effect that runs whenever `cartItems` changes. */
    method CartChanged()
      modifies this
      ensures cartItems == old(cartItems) && cartTotal == old(cartTotal)
      ensures pushed == old(pushed) + (if cartItems == [] then [ShopRoute] else [])
    {
      var r := EmptyCartRedirect(cartItems);
      if r.Some? {
        pushed := pushed + [r.value];
      }
    }

    /** `form.handleSubmit(onSubmit)`: a valid form clears the cart and then
        navigates to the confirmation carrying the total from before the clear;
        an invalid one changes nothing. */
    method HandleSubmit(f: CheckoutForm, isEmail: string -> bool) returns (issues: seq<CheckoutField>)
      modifies this
      ensures issues == CheckoutIssues(f, isEmail)
      ensures issues == [] ==>
                && cartItems == [] && cartTotal == 0
                && pushed == old(pushed) + [OrderConfirmation(old(cartTotal))]
      ensures issues != [] ==>
                cartItems == old(cartItems) && cartTotal == old(cartTotal) && pushed == old(pushed)
    {
      issues := CheckoutIssues(f, isEmail);
      if issues == [] {
        var total := cartTotal;
        ClearCart();
        pushed := pushed + [OrderConfirmation(total)];
      }
    }

    /** A valid submit followed by the re-render it causes: the emptied cart
        fires the empty-cart effect, which pushes `/shop` after the
        confirmation route. */
    method SubmitThenRerender(f: CheckoutForm, isEmail: string -> bool) returns (issues: seq<CheckoutField>)
      modifies this
      ensures issues == CheckoutIssues(f, isEmail)
      ensures issues == [] ==>
                && cartItems == [] && cartTotal == 0
                && pushed == old(pushed) + [OrderConfirmation(old(cartTotal)), ShopRoute]
      ensures issues != [] ==>
                cartItems == old(cartItems) && cartTotal == old(cartTotal) && pushed == old(pushed)
    {
      issues := HandleSubmit(f, isEmail);
      if issues == [] {
        CartChanged();
      }
    }
  }
}
