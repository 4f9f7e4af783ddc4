/**
 * The administrator's order list: orders newest first, the detail view, and
 * the change of an order's status.
 */
module OrdersAdmin {
  import opened Wrappers
  import opened Lists
  import opened Sorting
  import opened Text
  import opened ProductDetails
  import opened OrderViews

  /** The five statuses the administrator can choose, in the order they are offered. */
  const EstadosDisponibles: seq<string> := ["PENDIENTE", "PROCESANDO", "ENVIADO", "ENTREGADO", "CANCELADO"]

  /** `(a, b) => fecha(b) - fecha(a)`: `a` goes first when it is more recent. */
  predicate Newer(a: Order, b: Order)
  {
    a.fechaPedido > b.fechaPedido
  }

  /** Comparing dates is a strict weak order: orders of the same date are the ties. */
  lemma NewerIsStrictWeak()
    ensures StrictOrder(Newer) && StrictWeakOrder(Newer)
    ensures forall a, b :: Tied(Newer, a, b) <==> a.fechaPedido == b.fechaPedido
  {
  }

  /** The orders placed on the date of `c`, as a filter condition. */
  function SameDate(c: Order): Order -> bool
  {
    (o: Order) => o.fechaPedido == c.fechaPedido
  }

  /** `loadPedidos`: the orders by date, newest first; ties keep the backend's order. */
  function NewestFirst(orders: seq<Order>): (r: seq<Order>)
    ensures multiset(r) == multiset(orders)
  {
    Sort(orders, Newer)
  }

  lemma NewestFirstOrdered(orders: seq<Order>)
    ensures forall i, j :: 0 <= i < j < |NewestFirst(orders)| ==>
      NewestFirst(orders)[i].fechaPedido >= NewestFirst(orders)[j].fechaPedido
  {
    NewerIsStrictWeak();
    SortSorted(orders, Newer);
  }

  /** Orders of the same date stay in the order the backend sent them. */
  lemma NewestFirstStable(orders: seq<Order>, c: Order)
    ensures Filter(NewestFirst(orders), SameDate(c)) == Filter(orders, SameDate(c))
  {
    NewerIsStrictWeak();
    SortStable(orders, Newer, c);
    FilterCongruent(orders, TiedWith(Newer, c), SameDate(c));
    FilterCongruent(NewestFirst(orders), TiedWith(Newer, c), SameDate(c));
  }

  /** The local list after a status change: every order with the id takes the new status. */
  function SetEstado(orders: seq<Order>, id: int, estado: string): (r: seq<Order>)
    ensures |r| == |orders|
    ensures forall i :: 0 <= i < |r| ==>
      (orders[i].id == id ==> r[i] == orders[i].(estado := estado))
      && (orders[i].id != id ==> r[i] == orders[i])
  {
    seq(|orders|, i requires 0 <= i < |orders| =>
      if orders[i].id == id then orders[i].(estado := estado) else orders[i])
  }

  /** Changing the same order's status twice leaves only the second status. */
  lemma SetEstadoLastWins(orders: seq<Order>, id: int, first: string, second: string)
    ensures SetEstado(SetEstado(orders, id, first), id, second) == SetEstado(orders, id, second)
  {
  }

  /** `getEstadoClass`: by the upper-cased status; any other status gets gray. */
  function EstadoClass(estado: string): (r: string)
    ensures r == "bg-gray-100 text-gray-800" <==> Upper(estado) !in EstadosDisponibles
  {
    match Upper(estado)
    case "PENDIENTE" => "bg-yellow-100 text-yellow-800"
    case "PROCESANDO" => "bg-blue-100 text-blue-800"
    case "ENVIADO" => "bg-purple-100 text-purple-800"
    case "ENTREGADO" => "bg-green-100 text-green-800"
    case "CANCELADO" => "bg-red-100 text-red-800"
    case _ => "bg-gray-100 text-gray-800"
  }

  /** The class does not depend on letter case, and only the five statuses get a colour. */
  lemma EstadoClassIgnoresCase(estado: string)
    ensures EstadoClass(Lower(estado)) == EstadoClass(estado)
    ensures EstadoClass(Upper(estado)) == EstadoClass(estado)
    ensures Upper(estado) !in EstadosDisponibles <==> EstadoClass(estado) == "bg-gray-100 text-gray-800"
  {
    UpperOfLower(estado);
    UpperIdempotent(estado);
  }

  /** The administrator's order page. */
  class AdminOrdersPage {
    var pedidos: seq<Order>
    var selectedPedido: Option<Order>
    var detallesPedido: seq<DetailItem>
    var showDetalles: bool
    var editingEstado: Option<int>

    constructor ()
      ensures pedidos == [] && selectedPedido.None? && detallesPedido == [] && !showDetalles && editingEstado.None?
    {
      pedidos := [];
      selectedPedido := None;
      detallesPedido := [];
      showDetalles := false;
      editingEstado := None;
    }

    /** `loadPedidos`: a loaded list is shown newest first; a failed load keeps the list. */
    method LoadPedidos(loaded: Option<seq<Order>>)
      modifies this
      ensures pedidos == if loaded.Some? then NewestFirst(loaded.value) else old(pedidos)
      ensures selectedPedido == old(selectedPedido) && detallesPedido == old(detallesPedido)
      ensures showDetalles == old(showDetalles) && editingEstado == old(editingEstado)
    {
      if loaded.Some? {
        pedidos := NewestFirst(loaded.value);
      }
    }

    /**
     * `verDetalle`: the order is selected and the modal opens; the lines
     * (`items`, absent when their request fails) are shown with their images.
     */
    method VerDetalle(pedido: Order, items: Option<seq<OrderItem>>, imagesOf: map<int, seq<GalleryImage>>)
      modifies this
      ensures selectedPedido == Some(pedido) && showDetalles
      ensures detallesPedido == if items.Some? then WithImages(items.value, imagesOf) else old(detallesPedido)
      ensures pedidos == old(pedidos) && editingEstado == old(editingEstado)
    {
      selectedPedido := Some(pedido);
      showDetalles := true;
      if items.Some? {
        detallesPedido := WithImages(items.value, imagesOf);
      }
    }

    /**
     * `cambiarEstado`: nothing without confirmation; the updated order is sent;
     * when the update succeeds (`updated`) the local list and, if it shows the
     * same order, the open detail take the new status, and editing ends.
     */
    method CambiarEstado(pedido: Order, nuevoEstado: string, confirmed: bool, updated: bool)
      returns (request: Option<Order>)
      requires nuevoEstado in EstadosDisponibles
      modifies this
      ensures detallesPedido == old(detallesPedido) && showDetalles == old(showDetalles)
      ensures !confirmed ==> request.None?
      ensures confirmed ==> request == Some(pedido.(estado := nuevoEstado))
      ensures !(confirmed && updated) ==>
        pedidos == old(pedidos) && selectedPedido == old(selectedPedido) && editingEstado == old(editingEstado)
      ensures confirmed && updated ==>
        && pedidos == SetEstado(old(pedidos), pedido.id, nuevoEstado)
        && selectedPedido == (if old(selectedPedido).Some? && old(selectedPedido).value.id == pedido.id
                              then Some(pedido.(estado := nuevoEstado)) else old(selectedPedido))
        && editingEstado.None?
    {
      if !confirmed {
        return None;
      }
      request := Some(pedido.(estado := nuevoEstado));
      if !updated {
        return;
      }
      pedidos := SetEstado(pedidos, pedido.id, nuevoEstado);
      if selectedPedido.Some? && selectedPedido.value.id == pedido.id {
        selectedPedido := Some(pedido.(estado := nuevoEstado));
      }
      editingEstado := None;
    }

    /** `cerrarDetalles`: the modal closes, with no order and no lines. */
    method CerrarDetalles()
      modifies this
      ensures !showDetalles && selectedPedido.None? && detallesPedido == []
      ensures pedidos == old(pedidos) && editingEstado == old(editingEstado)
    {
      showDetalles := false;
      selectedPedido := None;
      detallesPedido := [];
    }

    method ActivarEdicionEstado(pedidoId: int)
      modifies this
      ensures editingEstado == Some(pedidoId)
      ensures pedidos == old(pedidos) && selectedPedido == old(selectedPedido)
      ensures detallesPedido == old(detallesPedido) && showDetalles == old(showDetalles)
    {
      editingEstado := Some(pedidoId);
    }

    method CancelarEdicionEstado()
      modifies this
      ensures editingEstado.None?
      ensures pedidos == old(pedidos) && selectedPedido == old(selectedPedido)
      ensures detallesPedido == old(detallesPedido) && showDetalles == old(showDetalles)
    {
      editingEstado := None;
    }
  }
}
