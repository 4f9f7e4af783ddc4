/**
 * The payment page: the amounts it shows, the formatting of the card number
 * and expiry date as they are typed, and the checks and requests of a payment.
 * Form validity (the Angular validators) is an input; each backend request is
 * a parameter telling how it ended.
 */
module Payment {
  import opened Wrappers
  import opened Text
  import opened Lists
  import opened Cart

  lemma SubtotalNonNegative(items: seq<CartItem>)
    ensures (forall i :: 0 <= i < |items| ==> items[i].subtotal >= 0) ==> Sum(items, Subtotal) >= 0
  {
    if forall i :: 0 <= i < |items| ==> items[i].subtotal >= 0 {
      SumNonNegative(items, Subtotal);
    }
  }

  /** `subtotal`: the sum of the line subtotals. */
  function PaymentSubtotal(items: seq<CartItem>): (r: int)
    ensures items == [] ==> r == 0
    ensures (forall i :: 0 <= i < |items| ==> items[i].subtotal >= 0) ==> r >= 0
  {
    SubtotalNonNegative(items);
    Sum(items, Subtotal)
  }

  /** Shipping is free. */
  const Shipping: int := 0

  /** `total`: the subtotal plus shipping. */
  function PaymentTotal(items: seq<CartItem>): (r: int)
    ensures r == PaymentSubtotal(items)
  {
    PaymentSubtotal(items) + Shipping
  }

  /** The page receives the selected cart lines, so it charges the total the cart page showed. */
  lemma CheckoutChargesCartTotal(cart: seq<CartItem>)
    ensures PaymentTotal(Filter(cart, IsSelected)) == Total(cart)
  {
    TotalIsSelectedSubtotals(cart);
  }

  predicate NotWhitespace(c: char)
  {
    !IsJsWhitespace(c)
  }

  /**
   * `value.replace(/\s/g, '')`: every whitespace character is dropped and every
   * other character is kept, as often as it occurs.
   */
  function StripWhitespace(s: string): (r: string)
    ensures |r| <= |s|
    ensures forall i :: 0 <= i < |r| ==> NotWhitespace(r[i])
    ensures forall c :: NotWhitespace(c) ==> multiset(r)[c] == multiset(s)[c]
  {
    FilterMultiset(s, NotWhitespace);
    Filter(s, NotWhitespace)
  }

  /**
   * Stripping works piece by piece and keeps the order: the text stripped as a
   * whole is the concatenation of its stripped parts, and a single character
   * is dropped exactly when it is whitespace. These two facts determine
   * `StripWhitespace` on every input.
   */
  lemma StripWhitespaceInOrder(a: string, b: string, c: char)
    ensures StripWhitespace(a + b) == StripWhitespace(a) + StripWhitespace(b)
    ensures StripWhitespace([c]) == if IsJsWhitespace(c) then [] else [c]
  {
    FilterAppend(a, b, NotWhitespace);
    assert [c][1..] == [];
  }

  /** `value.match(/.{1,4}/g)?.join(' ')`: runs of four characters separated by spaces. */
  function Groups(v: string): (r: string)
    ensures |r| == |v| + (if v == [] then 0 else (|v| - 1) / 4)
  {
    if |v| <= 4 then v else v[..4] + " " + Groups(v[4..])
  }

  /**
   * `formatCardNumber`: the number kept in the form (no whitespace, at most 16
   * characters) and the text shown in the input (the same in groups of four).
   */
  function FormatCardNumber(input: string): (r: (string, string))
    ensures |r.0| <= 16
    ensures forall i :: 0 <= i < |r.0| ==> NotWhitespace(r.0[i])
    ensures |StripWhitespace(input)| <= 16 ==> r.0 == StripWhitespace(input)
    ensures |StripWhitespace(input)| > 16 ==> r.0 == StripWhitespace(input)[..16]
    ensures r.1 == Groups(r.0)
  {
    var value := StripWhitespace(input);
    var kept := if |value| > 16 then value[..16] else value;
    (kept, Groups(kept))
  }

  /** Removing the spaces from the shown text gives back the stored number. */
  lemma {:induction false} GroupsStrip(v: string)
    requires forall i :: 0 <= i < |v| ==> NotWhitespace(v[i])
    ensures Filter(Groups(v), NotWhitespace) == v
  {
    if |v| <= 4 {
      FilterAll(v, NotWhitespace);
    } else {
      var head := v[..4];
      var tail := v[4..];
      var rest := Groups(tail);
      assert Groups(v) == head + [' '] + rest;
      GroupsStrip(tail);
      assert !NotWhitespace(' ');
      FilterDropsSeparator(head, ' ', rest, NotWhitespace);
      assert head + tail == v;
    }
  }

  /** The shown text, typed again, is stored and shown the same way. */
  lemma FormatCardNumberIdempotent(input: string)
    ensures var (kept, shown) := FormatCardNumber(input); FormatCardNumber(shown) == (kept, shown)
    ensures StripWhitespace(FormatCardNumber(input).1) == FormatCardNumber(input).0
  {
    var (kept, shown) := FormatCardNumber(input);
    GroupsStrip(kept);
  }

  /** `value.replace(/\D/g, '')`: only the digits remain. */
  function Digits(s: string): (r: string)
    ensures |r| <= |s|
    ensures forall i :: 0 <= i < |r| ==> IsDigit(r[i])
  {
    Filter(s, IsDigit)
  }

  /**
   * Digits are kept in order and as often as they occur: the digits of a text
   * are the digits of its parts in turn, and a single character is kept exactly
   * when it is a digit. These facts determine `Digits` on every input.
   */
  lemma DigitsInOrder(a: string, b: string, c: char)
    ensures Digits(a + b) == Digits(a) + Digits(b)
    ensures Digits([c]) == if IsDigit(c) then [c] else []
    ensures forall d :: IsDigit(d) ==> multiset(Digits(a))[d] == multiset(a)[d]
  {
    FilterMultiset(a, IsDigit);
    FilterAppend(a, b, IsDigit);
    assert [c][1..] == [];
  }

  /**
   * `formatExpiryDate`: the digits only; from two digits on, the first two, a
   * '/', and the next up to two.
   */
  function FormatExpiryDate(input: string): (r: string)
    ensures |r| <= 5
    ensures |Digits(input)| < 2 ==> r == Digits(input)
  {
    var value := Digits(input);
    if |value| >= 2 then value[..2] + "/" + value[2..if |value| < 4 then |value| else 4]
    else value
  }

  /**
   * From two digits on, the result is two digits, a '/', and at most two more
   * digits: everything after the fourth digit is dropped.
   */
  lemma FormatExpiryDateShape(input: string)
    requires |Digits(input)| >= 2
    ensures var r := FormatExpiryDate(input); var d := Digits(input);
      && 3 <= |r| && r[..2] == d[..2] && r[2] == '/'
      && (|d| <= 4 ==> r[3..] == d[2..])
      && (|d| > 4 ==> r[3..] == d[2..4])
  {
    var d := Digits(input);
    var tail := d[2..if |d| < 4 then |d| else 4];
    assert FormatExpiryDate(input) == d[..2] + ['/'] + tail;
  }

  /** A date already formatted is left as it is. */
  lemma FormatExpiryDateIdempotent(input: string)
    ensures FormatExpiryDate(FormatExpiryDate(input)) == FormatExpiryDate(input)
  {
    var d := Digits(input);
    if |d| < 2 {
      FilterAll(d, IsDigit);
    } else {
      var head := d[..2];
      var tail := d[2..if |d| < 4 then |d| else 4];
      assert FormatExpiryDate(input) == head + ['/'] + tail;
      FormattedDateIsFixed(head, tail);
    }
  }

  /** The digits of two digit runs around a '/' are the two runs joined. */
  lemma DigitsAroundSlash(head: string, tail: string)
    requires forall i :: 0 <= i < |head| ==> IsDigit(head[i])
    requires forall i :: 0 <= i < |tail| ==> IsDigit(tail[i])
    ensures Digits(head + ['/'] + tail) == head + tail
  {
    FilterDropsSeparator(head, '/', tail, IsDigit);
    FilterAll(tail, IsDigit);
  }

  /** Two digits, a '/', and at most two digits are formatted to themselves. */
  lemma FormattedDateIsFixed(head: string, tail: string)
    requires |head| == 2 && |tail| <= 2
    requires forall i :: 0 <= i < |head| ==> IsDigit(head[i])
    requires forall i :: 0 <= i < |tail| ==> IsDigit(tail[i])
    ensures FormatExpiryDate(head + ['/'] + tail) == head + ['/'] + tail
  {
    var value := head + tail;
    DigitsAroundSlash(head, tail);
    assert value[..2] == head && value[2..|value|] == tail;
  }

  datatype PaymentMethod = CardPayment | PayPal

  /** Why `processPayment` stopped before creating the order. */
  datatype Rejection = ShippingIncomplete | CardIncomplete | NoProducts

  /**
   * The checks of `processPayment`, in order: the shipping form, the card form
   * when paying by card, then at least one product.
   */
  function CheckPayment(shippingValid: bool, payMethod: PaymentMethod, cardValid: bool, items: seq<CartItem>)
    : (r: Option<Rejection>)
    ensures r == None <==> shippingValid && (payMethod == CardPayment ==> cardValid) && |items| > 0
    ensures !shippingValid ==> r == Some(ShippingIncomplete)
    ensures shippingValid && payMethod == CardPayment && !cardValid ==> r == Some(CardIncomplete)
    ensures payMethod == PayPal ==> r != Some(CardIncomplete)
  {
    if !shippingValid then Some(ShippingIncomplete)
    else if payMethod == CardPayment && !cardValid then Some(CardIncomplete)
    else if |items| == 0 then Some(NoProducts)
    else None
  }

  /** The order line sent for one cart line. */
  datatype OrderLine = OrderLine(idPedido: int, idProducto: int, cantidad: int, precioUnitario: int)

  function LineAmount(line: OrderLine): int
  {
    line.precioUnitario * line.cantidad
  }

  /** One order line per cart line, in order, with the quantity and unit price copied. */
  function OrderLines(idPedido: int, items: seq<CartItem>): (r: seq<OrderLine>)
    ensures |r| == |items|
    ensures forall i :: 0 <= i < |r| ==>
      r[i].idPedido == idPedido && r[i].idProducto == items[i].idProducto
      && r[i].cantidad == items[i].cantidad && r[i].precioUnitario == items[i].precioProducto
  {
    seq(|items|, i requires 0 <= i < |items| =>
      OrderLine(idPedido, items[i].idProducto, items[i].cantidad, items[i].precioProducto))
  }

  /** When every subtotal is price times quantity, the order lines add up to the amount charged. */
  lemma {:induction false} OrderLinesAddUp(idPedido: int, items: seq<CartItem>)
    requires AllPriced(items)
    ensures Sum(OrderLines(idPedido, items), LineAmount) == PaymentTotal(items)
  {
    if items != [] {
      OrderLinesAddUp(idPedido, items[1..]);
      assert OrderLines(idPedido, items)[1..] == OrderLines(idPedido, items[1..]);
    }
  }

  /** The order `processPayment` creates. */
  datatype NewOrder = NewOrder(idUsuario: int, montoTotal: int, estado: string, direccionEnvio: string,
                               ciudadEnvio: string, paisEnvio: string, codigoPostalEnvio: string)

  datatype ShippingData = ShippingData(address: string, city: string, country: string, zipCode: string)

  /** How one payment attempt ended. */
  datatype PaymentOutcome =
    | Ignored                                   // already processing, or not confirmed
    | Rejected(reason: Rejection)
    | Failed(order: NewOrder)                   // a request failed after validation
    | Paid(order: NewOrder, lines: seq<OrderLine>)

  /** The payment page's own state. */
  class PaymentPage {
    var items: seq<CartItem>
    var processing: bool
    var payMethod: PaymentMethod
    const store: CheckoutStore
    var navigatedToCatalog: bool

    /**
     * `loadCartItems`: the lines left in the shared store by the cart page, or,
     * when the store is empty, the lines the backend returns (`fromBackend`).
     */
    constructor (store: CheckoutStore, fromBackend: seq<CartItem>)
      ensures this.store == store && !processing && payMethod == CardPayment
      ensures |store.selectedItemsForCheckout| > 0 ==> items == store.selectedItemsForCheckout
      ensures store.selectedItemsForCheckout == [] ==> items == fromBackend
      ensures !navigatedToCatalog
    {
      this.store := store;
      this.items := if |store.selectedItemsForCheckout| > 0 then store.selectedItemsForCheckout else fromBackend;
      processing := false;
      payMethod := CardPayment;
      navigatedToCatalog := false;
    }

    /** `selectPaymentMethod` */
    method SelectPaymentMethod(m: PaymentMethod)
      modifies this
      ensures payMethod == m && items == old(items) && processing == old(processing)
      ensures navigatedToCatalog == old(navigatedToCatalog)
    {
      payMethod := m;
    }

    /**
     * `confirmPayment` then `processPayment`: nothing while a payment is in
     * progress or when not confirmed; then the checks; then the order (with
     * status "PENDIENTE" and the page total) and one line per product. When the
     * order was created (`createdId`) and every line was saved, the shared
     * store is cleared and the page moves to the catalog. `processing` is
     * reset at the end either way.
     */
    method ConfirmPayment(confirmed: bool, userId: int, shipping: ShippingData, shippingValid: bool,
                          cardValid: bool, createdId: Option<int>, linesSaved: bool)
      returns (outcome: PaymentOutcome)
      modifies this, store
      ensures items == old(items) && payMethod == old(payMethod) && processing == old(processing)
      ensures old(processing) || !confirmed ==>
        outcome == Ignored && store.selectedItemsForCheckout == old(store.selectedItemsForCheckout)
        && navigatedToCatalog == old(navigatedToCatalog)
      ensures !old(processing) && confirmed && CheckPayment(shippingValid, payMethod, cardValid, items).Some? ==>
        outcome == Rejected(CheckPayment(shippingValid, payMethod, cardValid, items).value)
      ensures outcome.Paid? ==>
        && CheckPayment(shippingValid, payMethod, cardValid, items) == None
        && createdId.Some? && linesSaved
        && outcome.order == NewOrder(userId, PaymentTotal(items), "PENDIENTE", shipping.address, shipping.city,
                                     shipping.country, shipping.zipCode)
        && outcome.lines == OrderLines(createdId.value, items)
        && store.selectedItemsForCheckout == [] && navigatedToCatalog
      ensures !outcome.Paid? ==>
        store.selectedItemsForCheckout == old(store.selectedItemsForCheckout)
        && navigatedToCatalog == old(navigatedToCatalog)
      ensures (!old(processing) && confirmed && CheckPayment(shippingValid, payMethod, cardValid, items) == None
               && createdId.Some? && linesSaved) ==> outcome.Paid?
      ensures (!old(processing) && confirmed && CheckPayment(shippingValid, payMethod, cardValid, items) == None
               && (createdId.None? || !linesSaved)) ==>
        outcome == Failed(NewOrder(userId, PaymentTotal(items), "PENDIENTE", shipping.address, shipping.city,
                                   shipping.country, shipping.zipCode))
    {
      if processing || !confirmed {
        return Ignored;
      }
      var rejection := CheckPayment(shippingValid, payMethod, cardValid, items);
      if rejection.Some? {
        return Rejected(rejection.value);
      }
      processing := true;
      var order := NewOrder(userId, PaymentTotal(items), "PENDIENTE", shipping.address, shipping.city,
                            shipping.country, shipping.zipCode);
      if createdId.None? || !linesSaved {
        outcome := Failed(order);
      } else {
        var lines := OrderLines(createdId.value, items);
        store.ClearSelectedItems();
        navigatedToCatalog := true;
        outcome := Paid(order, lines);
      }
      processing := false;
    }
  }
}
