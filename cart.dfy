/**
 * The shopping cart page: which lines are selected for checkout, the total of
 * the selected lines, quantity changes within the stock, removal of a line,
 * and the hand-off of the selected lines to the checkout page through a shared
 * store. Prices are in cents. Each call to the backend is a boolean parameter
 * telling whether it succeeded; browser dialogs are boolean parameters too.
 */
module Cart {
  import opened Wrappers
  import opened Lists

  /**
   * A cart line as the page holds it. `selected` is optional: a line the page
   * has not marked yet counts as not selected.
   */
  datatype CartItem = CartItem(
    id: int,
    idProducto: int,
    nombreProducto: string,
    precioProducto: int,
    stockProducto: int,
    cantidad: int,
    subtotal: int,
    selected: Option<bool>)

  /** `item.selected` is truthy. */
  predicate IsSelected(item: CartItem)
  {
    item.selected == Some(true)
  }

  /** The amount a line adds to the total: its subtotal when selected, else nothing. */
  function SelectedAmount(item: CartItem): int
  {
    if IsSelected(item) then item.subtotal else 0
  }

  function Subtotal(item: CartItem): int
  {
    item.subtotal
  }

  lemma {:induction false} SumZero(items: seq<CartItem>)
    requires forall i :: 0 <= i < |items| ==> !IsSelected(items[i])
    ensures Sum(items, SelectedAmount) == 0
  {
    if items != [] {
      SumZero(items[1..]);
    }
  }

  lemma SelectedSumBounds(items: seq<CartItem>)
    ensures (forall i :: 0 <= i < |items| ==> !IsSelected(items[i])) ==> Sum(items, SelectedAmount) == 0
    ensures (forall i :: 0 <= i < |items| ==> items[i].subtotal >= 0) ==> Sum(items, SelectedAmount) >= 0
  {
    if forall i :: 0 <= i < |items| ==> items[i].subtotal >= 0 {
      SumNonNegative(items, SelectedAmount);
    }
    if forall i :: 0 <= i < |items| ==> !IsSelected(items[i]) {
      SumZero(items);
    }
  }

  /** `total`: the running sum over the lines, adding only selected subtotals. */
  function Total(items: seq<CartItem>): (r: int)
    ensures (forall i :: 0 <= i < |items| ==> !IsSelected(items[i])) ==> r == 0
    ensures (forall i :: 0 <= i < |items| ==> items[i].subtotal >= 0) ==> r >= 0
  {
    SelectedSumBounds(items);
    Sum(items, SelectedAmount)
  }

  /** The total is the sum of the subtotals of exactly the selected lines. */
  lemma TotalIsSelectedSubtotals(items: seq<CartItem>)
    ensures Total(items) == Sum(Filter(items, IsSelected), Subtotal)
  {
    SumFilter(items, IsSelected, Subtotal, SelectedAmount);
  }

  /** `selectedItemsCount` */
  function SelectedCount(items: seq<CartItem>): (n: nat)
    ensures n == Count(items, IsSelected)
  {
    CountIsFilterLength(items, IsSelected);
    |Filter(items, IsSelected)|
  }

  /** `allSelected`: false for an empty cart, otherwise every line is selected. */
  predicate AllSelected(items: seq<CartItem>)
  {
    |items| > 0 && forall i :: 0 <= i < |items| ==> IsSelected(items[i])
  }

  /** Every line is selected exactly when the selected count is the number of lines. */
  lemma AllSelectedIffCountFull(items: seq<CartItem>)
    ensures AllSelected(items) <==> |items| > 0 && SelectedCount(items) == |items|
  {
    CountFull(items, IsSelected);
  }

  /** `toggleItemSelection`: the lines with the given id change selection; nothing else changes. */
  function ToggleItem(items: seq<CartItem>, id: int): (r: seq<CartItem>)
    ensures |r| == |items|
    ensures forall i :: 0 <= i < |r| ==> r[i].(selected := items[i].selected) == items[i]
    ensures forall i :: 0 <= i < |r| ==>
      IsSelected(r[i]) == (if items[i].id == id then !IsSelected(items[i]) else IsSelected(items[i]))
    ensures forall i :: 0 <= i < |r| && items[i].id != id ==> r[i] == items[i]
  {
    seq(|items|, i requires 0 <= i < |items| =>
      if items[i].id == id then items[i].(selected := Some(!IsSelected(items[i]))) else items[i])
  }

  /** Toggling the same line twice gives back its selection. */
  lemma ToggleItemTwice(items: seq<CartItem>, id: int)
    ensures forall i :: 0 <= i < |items| ==>
      IsSelected(ToggleItem(ToggleItem(items, id), id)[i]) == IsSelected(items[i])
  {
  }

  /** `toggleAllSelection`: every line gets the negation of the previous `allSelected`. */
  function ToggleAll(items: seq<CartItem>): (r: seq<CartItem>)
    ensures |r| == |items|
    ensures forall i :: 0 <= i < |r| ==>
      r[i].(selected := items[i].selected) == items[i] && r[i].selected == Some(!AllSelected(items))
  {
    var newValue := !AllSelected(items);
    seq(|items|, i requires 0 <= i < |items| => items[i].(selected := Some(newValue)))
  }

  /**
   * On a non-empty cart, "select all" selects everything unless everything was
   * already selected, in which case it clears every selection.
   */
  lemma ToggleAllFlips(items: seq<CartItem>)
    requires |items| > 0
    ensures AllSelected(ToggleAll(items)) <==> !AllSelected(items)
    ensures AllSelected(items) ==> SelectedCount(ToggleAll(items)) == 0
  {
    var r := ToggleAll(items);
    if AllSelected(items) {
      assert !IsSelected(r[0]);
      CountZero(r, IsSelected);
    }
  }

  /** Toggling all twice leaves every line with the original `allSelected` as its selection. */
  lemma ToggleAllTwice(items: seq<CartItem>)
    requires |items| > 0
    ensures forall i :: 0 <= i < |items| ==>
      ToggleAll(ToggleAll(items))[i].selected == Some(AllSelected(items))
  {
    ToggleAllFlips(items);
  }

  /** A line's subtotal is its price times its quantity. */
  predicate Priced(item: CartItem)
  {
    item.subtotal == item.precioProducto * item.cantidad
  }

  predicate AllPriced(items: seq<CartItem>)
  {
    forall i :: 0 <= i < |items| ==> Priced(items[i])
  }

  /**
   * `updateQuantity`: a quantity below 1, or a failed backend update, changes
   * nothing; otherwise the lines with the item's id get the new quantity and a
   * recomputed subtotal.
   */
  function UpdateQuantity(items: seq<CartItem>, id: int, newQuantity: int, ok: bool): (r: seq<CartItem>)
    ensures newQuantity < 1 || !ok ==> r == items
    ensures |r| == |items|
    ensures forall i :: 0 <= i < |r| && items[i].id != id ==> r[i] == items[i]
    ensures newQuantity >= 1 && ok ==> forall i :: 0 <= i < |r| && items[i].id == id ==>
      && r[i].cantidad == newQuantity
      && Priced(r[i])
      && r[i].(cantidad := items[i].cantidad, subtotal := items[i].subtotal) == items[i]
  {
    if newQuantity < 1 || !ok then items
    else
      seq(|items|, i requires 0 <= i < |items| =>
        if items[i].id == id
        then items[i].(cantidad := newQuantity, subtotal := items[i].precioProducto * newQuantity)
        else items[i])
  }

  /** Every line keeps its subtotal equal to price times quantity across an update. */
  lemma UpdateQuantityKeepsPrices(items: seq<CartItem>, id: int, newQuantity: int, ok: bool)
    requires AllPriced(items)
    ensures AllPriced(UpdateQuantity(items, id, newQuantity, ok))
  {
  }

  /** `item.stockProducto || 999`: a stock of 0 is treated as unlimited up to 999. */
  function MaxStock(item: CartItem): int
  {
    if item.stockProducto == 0 then 999 else item.stockProducto
  }

  /** `increaseQuantity`: one more, only while below the (defaulted) stock. */
  function IncreaseQuantity(items: seq<CartItem>, item: CartItem, ok: bool): (r: seq<CartItem>)
    ensures |r| == |items|
    ensures item.cantidad >= MaxStock(item) || !ok ==> r == items
    ensures forall i :: 0 <= i < |items| && items[i].id != item.id ==> r[i] == items[i]
  {
    if item.cantidad < MaxStock(item) then UpdateQuantity(items, item.id, item.cantidad + 1, ok) else items
  }

  /** `decreaseQuantity`: one fewer, only while above 1. */
  function DecreaseQuantity(items: seq<CartItem>, item: CartItem, ok: bool): (r: seq<CartItem>)
    ensures |r| == |items|
    ensures item.cantidad <= 1 || !ok ==> r == items
    ensures forall i :: 0 <= i < |items| && items[i].id != item.id ==> r[i] == items[i]
  {
    if item.cantidad > 1 then UpdateQuantity(items, item.id, item.cantidad - 1, ok) else items
  }

  /**
   * Increasing never takes a line past its (defaulted) stock, and decreasing
   * never takes it below 1, when the line passed in is the one in the list.
   */
  lemma QuantityStaysInBounds(items: seq<CartItem>, k: int, ok: bool)
    requires 0 <= k < |items|
    requires 1 <= items[k].cantidad <= MaxStock(items[k])
    ensures var r := IncreaseQuantity(items, items[k], ok); 1 <= r[k].cantidad <= MaxStock(items[k])
    ensures var r := DecreaseQuantity(items, items[k], ok); 1 <= r[k].cantidad <= MaxStock(items[k])
    ensures items[k].cantidad == MaxStock(items[k]) ==> IncreaseQuantity(items, items[k], ok) == items
    ensures items[k].cantidad == 1 ==> DecreaseQuantity(items, items[k], ok) == items
  {
  }

  /** `removeItem`: after confirmation and a successful backend call, the lines with that id go. */
  function RemoveItem(items: seq<CartItem>, id: int, confirmed: bool, ok: bool): (r: seq<CartItem>)
    ensures !confirmed || !ok ==> r == items
    ensures forall i :: 0 <= i < |r| ==> r[i] in items
    ensures confirmed && ok ==> forall i :: 0 <= i < |r| ==> r[i].id != id
    ensures |r| <= |items|
  {
    if confirmed && ok then Filter(items, (i: CartItem) => i.id != id) else items
  }

  /** Removal keeps every line with another id. */
  lemma RemoveItemKeepsOthers(items: seq<CartItem>, id: int, k: int)
    requires 0 <= k < |items| && items[k].id != id
    ensures items[k] in RemoveItem(items, id, true, true)
  {
    FilterKeeps(items, (i: CartItem) => i.id != id, k);
  }

  /** `CarritoStateService`: the lines handed from the cart to the checkout page. */
  class CheckoutStore {
    var selectedItemsForCheckout: seq<CartItem>

    constructor ()
      ensures selectedItemsForCheckout == []
    {
      selectedItemsForCheckout := [];
    }

    /** `setSelectedItems` replaces what was stored. */
    method SetSelectedItems(items: seq<CartItem>)
      modifies this
      ensures selectedItemsForCheckout == items
    {
      selectedItemsForCheckout := items;
    }

    /** `getSelectedItems` returns the last list stored. */
    method GetSelectedItems() returns (items: seq<CartItem>)
      ensures items == selectedItemsForCheckout
    {
      items := selectedItemsForCheckout;
    }

    /** `clearSelectedItems` */
    method ClearSelectedItems()
      modifies this
      ensures selectedItemsForCheckout == []
    {
      selectedItemsForCheckout := [];
    }

    /** `hasSelectedItems`: the store is non-empty. */
    method HasSelectedItems() returns (b: bool)
      ensures b <==> |selectedItemsForCheckout| > 0
    {
      b := |selectedItemsForCheckout| > 0;
    }
  }

  /** A store holds what the last set put there, whatever was there before. */
  method StoreRoundTrip(store: CheckoutStore, first: seq<CartItem>, second: seq<CartItem>)
    returns (got: seq<CartItem>, has: bool)
    modifies store
    ensures got == second && (has <==> second != [])
  {
    store.SetSelectedItems(first);
    store.SetSelectedItems(second);
    got := store.GetSelectedItems();
    has := store.HasSelectedItems();
  }

  /**
   * The cart page: the user's cart (if they have one), its lines, the shared
   * checkout store and whether it went to payment.
   */
  class CartPage {
    var carrito: Option<int>
    var items: seq<CartItem>
    const store: CheckoutStore
    var navigatedToPago: bool

    /**
     * `loadCarrito`: a user without a cart sees no lines; otherwise every line
     * of the cart is shown, selected.
     */
    constructor (store: CheckoutStore, carrito: Option<int>, loaded: seq<CartItem>)
      ensures this.store == store && this.carrito == carrito && !navigatedToPago
      ensures carrito.None? ==> items == []
      ensures carrito.Some? ==> |items| == |loaded|
      ensures carrito.Some? ==> forall i :: 0 <= i < |items| ==> items[i] == loaded[i].(selected := Some(true))
      ensures carrito.Some? ==> (AllSelected(items) <==> |loaded| > 0)
    {
      this.store := store;
      this.carrito := carrito;
      if carrito.None? {
        items := [];
      } else {
        items := seq(|loaded|, i requires 0 <= i < |loaded| => loaded[i].(selected := Some(true)));
      }
      navigatedToPago := false;
    }

    /**
     * `clearCarrito`: after confirmation, for a page holding a cart, and when
     * the backend call succeeds, every line goes and the page forgets the cart.
     */
    method ClearCarrito(confirmed: bool, ok: bool)
      modifies this
      ensures navigatedToPago == old(navigatedToPago)
      ensures confirmed && old(carrito).Some? && ok ==> items == [] && carrito == None
      ensures !(confirmed && old(carrito).Some? && ok) ==> items == old(items) && carrito == old(carrito)
    {
      if !confirmed || carrito.None? || !ok {
        return;
      }
      items := [];
      carrito := None;
    }

    method ToggleItemSelection(id: int)
      modifies this
      ensures items == ToggleItem(old(items), id) && navigatedToPago == old(navigatedToPago)
    {
      items := ToggleItem(items, id);
    }

    method ToggleAllSelection()
      modifies this
      ensures items == ToggleAll(old(items)) && navigatedToPago == old(navigatedToPago)
    {
      items := ToggleAll(items);
    }

    method Increase(item: CartItem, ok: bool)
      modifies this
      ensures items == IncreaseQuantity(old(items), item, ok) && navigatedToPago == old(navigatedToPago)
    {
      items := IncreaseQuantity(items, item, ok);
    }

    method Decrease(item: CartItem, ok: bool)
      modifies this
      ensures items == DecreaseQuantity(old(items), item, ok) && navigatedToPago == old(navigatedToPago)
    {
      items := DecreaseQuantity(items, item, ok);
    }

    method Remove(item: CartItem, confirmed: bool, ok: bool)
      modifies this
      ensures items == RemoveItem(old(items), item.id, confirmed, ok) && navigatedToPago == old(navigatedToPago)
    {
      items := RemoveItem(items, item.id, confirmed, ok);
    }

    /**
     * `proceedToCheckout`: with nothing selected, nothing is stored and the page
     * stays; otherwise exactly the selected lines are stored and the page moves on.
     */
    method ProceedToCheckout()
      modifies this, store
      ensures items == old(items)
      ensures SelectedCount(items) == 0 ==>
        store.selectedItemsForCheckout == old(store.selectedItemsForCheckout) && navigatedToPago == old(navigatedToPago)
      ensures SelectedCount(items) > 0 ==>
        store.selectedItemsForCheckout == Filter(items, IsSelected) && navigatedToPago
    {
      var selected := Filter(items, IsSelected);
      if |selected| == 0 {
        return;
      }
      store.SetSelectedItems(selected);
      navigatedToPago := true;
    }
  }
}
