/**
 * The customer's order list: the logged-in user's orders, the detail view with
 * its subtotal, and the status colours.
 */
module OrdersCustomer {
  import opened Wrappers
  import opened Lists
  import opened Text
  import opened Cart
  import opened Payment
  import opened ProductDetails
  import opened OrderViews

  function DetailAmount(d: DetailItem): int
  {
    d.item.precioUnitario * d.item.cantidad
  }

  lemma SumNonNegativeIf(details: seq<DetailItem>)
    ensures (forall i :: 0 <= i < |details| ==> details[i].item.precioUnitario >= 0 && details[i].item.cantidad >= 0)
      ==> Sum(details, DetailAmount) >= 0
  {
    if forall i :: 0 <= i < |details| ==> details[i].item.precioUnitario >= 0 && details[i].item.cantidad >= 0 {
      SumNonNegative(details, DetailAmount);
    }
  }

  /** `subtotalDetalles`: unit price times quantity, over the lines shown. */
  function SubtotalDetalles(details: seq<DetailItem>): (r: int)
    ensures details == [] ==> r == 0
    ensures (forall i :: 0 <= i < |details| ==> details[i].item.precioUnitario >= 0 && details[i].item.cantidad >= 0)
      ==> r >= 0
  {
    SumNonNegativeIf(details);
    Sum(details, DetailAmount)
  }

  /**
   * When the lines shown carry the quantities and unit prices the checkout
   * sent, the detail subtotal is the amount the checkout charged.
   */
  lemma {:induction false} SubtotalMatchesCheckout(details: seq<DetailItem>, idPedido: int, items: seq<CartItem>)
    requires AllPriced(items)
    requires |details| == |items|
    requires forall i :: 0 <= i < |details| ==>
      details[i].item.cantidad == items[i].cantidad && details[i].item.precioUnitario == items[i].precioProducto
    ensures SubtotalDetalles(details) == PaymentTotal(items)
  {
    OrderLinesAddUp(idPedido, items);
    SameAmounts(details, OrderLines(idPedido, items));
  }

  lemma {:induction false} SameAmounts(details: seq<DetailItem>, lines: seq<OrderLine>)
    requires |details| == |lines|
    requires forall i :: 0 <= i < |details| ==>
      details[i].item.cantidad == lines[i].cantidad && details[i].item.precioUnitario == lines[i].precioUnitario
    ensures Sum(details, DetailAmount) == Sum(lines, LineAmount)
  {
    if details != [] {
      SameAmounts(details[1..], lines[1..]);
    }
  }

  /**
   * `getEstadoClass`: the first of pendiente, procesando, enviado, entregado,
   * cancelado that occurs in the lower-cased status picks the colour.
   */
  function EstadoClass(estado: string): (r: string)
    ensures r == "bg-gray-100 text-gray-800" <==>
      forall w :: w in ["pendiente", "procesando", "enviado", "entregado", "cancelado"] ==> !Contains(Lower(estado), w)
  {
    var e := Lower(estado);
    if Contains(e, "pendiente") then "bg-yellow-100 text-yellow-800"
    else if Contains(e, "procesando") then "bg-blue-100 text-blue-800"
    else if Contains(e, "enviado") then "bg-purple-100 text-purple-800"
    else if Contains(e, "entregado") then "bg-green-100 text-green-800"
    else if Contains(e, "cancelado") then "bg-red-100 text-red-800"
    else "bg-gray-100 text-gray-800"
  }

  /** A status mentioning "pendiente" is yellow whatever else it mentions. */
  lemma PendienteWins(estado: string)
    requires Contains(Lower(estado), "pendiente")
    ensures EstadoClass(estado) == "bg-yellow-100 text-yellow-800"
  {
  }

  /** The customer's order page. */
  class CustomerOrdersPage {
    var pedidos: seq<Order>
    var isLoggedIn: bool
    var selectedPedido: Option<Order>
    var detallesPedido: seq<DetailItem>
    var showDetalles: bool

    constructor ()
      ensures pedidos == [] && !isLoggedIn && selectedPedido.None? && detallesPedido == [] && !showDetalles
    {
      pedidos := [];
      isLoggedIn := false;
      selectedPedido := None;
      detallesPedido := [];
      showDetalles := false;
    }

    /**
     * `ngOnInit` with `loadPedidos`: without a user nothing is requested; with
     * one, that user's orders are requested and shown as they arrive
     * (`loaded`, absent on an error).
     */
    method Init(userId: Option<int>, loaded: Option<seq<Order>>) returns (requestedFor: Option<int>)
      modifies this
      ensures isLoggedIn == userId.Some? && requestedFor == userId
      ensures pedidos == if userId.Some? && loaded.Some? then loaded.value else old(pedidos)
      ensures selectedPedido == old(selectedPedido) && detallesPedido == old(detallesPedido)
      ensures showDetalles == old(showDetalles)
    {
      isLoggedIn := userId.Some?;
      if userId.None? {
        return None;
      }
      requestedFor := userId;
      if loaded.Some? {
        pedidos := loaded.value;
      }
    }

    /** `verDetalle`, as on the administrator's page. */
    method VerDetalle(pedido: Order, items: Option<seq<OrderItem>>, imagesOf: map<int, seq<GalleryImage>>)
      modifies this
      ensures selectedPedido == Some(pedido) && showDetalles
      ensures detallesPedido == if items.Some? then WithImages(items.value, imagesOf) else old(detallesPedido)
      ensures pedidos == old(pedidos) && isLoggedIn == old(isLoggedIn)
    {
      selectedPedido := Some(pedido);
      showDetalles := true;
      if items.Some? {
        detallesPedido := WithImages(items.value, imagesOf);
      }
    }

    /** `cerrarDetalles`: the modal closes, with no order and no lines. */
    method CerrarDetalles()
      modifies this
      ensures !showDetalles && selectedPedido.None? && detallesPedido == []
      ensures pedidos == old(pedidos) && isLoggedIn == old(isLoggedIn)
    {
      showDetalles := false;
      selectedPedido := None;
      detallesPedido := [];
    }

    /** `subtotalDetalles()` of the open detail view. */
    function Subtotal(): (r: int)
      reads this
      ensures detallesPedido == [] ==> r == 0
      ensures r == SubtotalDetalles(detallesPedido)
    {
      SubtotalDetalles(detallesPedido)
    }
  }
}
