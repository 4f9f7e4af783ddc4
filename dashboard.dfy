/**
 * The administration dashboard: six summary cards computed from the product,
 * category and brand lists.
 */
module Dashboard {
  import opened Wrappers
  import opened Lists
  import opened Catalog

  datatype StatCard = StatCard(icon: string, caption: string, value: int, color: string,
                               change: Option<string>, bgColor: Option<string>)

  function Stock(p: Product): int
  {
    p.stock
  }

  function StockValue(p: Product): int
  {
    p.precio * p.stock
  }

  function SoldOut(): Product -> bool
  {
    (p: Product) => p.stock == 0
  }

  /** The card captions (`label`), in the order the dashboard shows them. */
  const Labels: seq<string> :=
    ["Total Productos", "Categorías", "Marcas", "Productos Agotados", "Stock Total", "Valor Inventario"]

  /** The six cards of `loadDashboardData`. */
  function Cards(products: seq<Product>, categories: nat, brands: nat): (r: seq<StatCard>)
    ensures |r| == 6
    ensures forall i :: 0 <= i < 6 ==> r[i].caption == Labels[i]
    ensures r[0].value == |products| && r[1].value == categories && r[2].value == brands
    ensures 0 <= r[3].value <= |products|
  {
    var outOfStock := Count(products, SoldOut());
    [ StatCard("📦", Labels[0], |products|, "text-blue-600", Some("+12%"), Some("bg-blue-500")),
      StatCard("🏷️", Labels[1], categories, "text-green-600", None, Some("bg-green-500")),
      StatCard("🏢", Labels[2], brands, "text-purple-600", None, Some("bg-purple-500")),
      StatCard("⚠️", Labels[3], outOfStock, "text-red-600", Some("-5%"), Some("bg-red-500")),
      StatCard("📊", Labels[4], Sum(products, Stock), "text-indigo-600", None, Some("bg-indigo-500")),
      StatCard("💰", Labels[5], Sum(products, StockValue), "text-yellow-600", None, Some("bg-yellow-500")) ]
  }

  /**
   * The sold-out card counts the products with stock 0; the stock card adds all
   * stock; the value card adds price times stock over all products.
   */
  lemma CardsCountAndSum(products: seq<Product>, categories: nat, brands: nat)
    ensures Cards(products, categories, brands)[3].value == |Filter(products, SoldOut())|
    ensures Cards(products, categories, brands)[4].value == Sum(products, Stock)
    ensures Cards(products, categories, brands)[5].value == Sum(products, StockValue)
  {
    CountIsFilterLength(products, SoldOut());
  }

  /**
   * With no negative stock, every product is sold out exactly when the total
   * stock is 0: the sold-out card equals the product card exactly when the
   * stock card is 0.
   */
  lemma {:induction false} AllSoldOutIffNoStock(products: seq<Product>)
    requires forall i :: 0 <= i < |products| ==> products[i].stock >= 0
    ensures Count(products, SoldOut()) == |products| <==> Sum(products, Stock) == 0
  {
    if products != [] {
      AllSoldOutIffNoStock(products[1..]);
      SumNonNegative(products[1..], Stock);
    }
  }

  /** With no negative price or stock, the inventory value is not negative. */
  lemma InventoryValueNonNegative(products: seq<Product>)
    requires forall i :: 0 <= i < |products| ==> products[i].precio >= 0 && products[i].stock >= 0
    ensures Sum(products, StockValue) >= 0
  {
    SumNonNegative(products, StockValue);
  }

  /** The dashboard's cards; they stay empty until the three lists have loaded. */
  class DashboardPage {
    var loading: bool
    var stats: seq<StatCard>

    constructor ()
      ensures loading && stats == []
    {
      loading := true;
      stats := [];
    }

    /**
     * `loadDashboardData`: the three lists arrive together (`data`, absent on an
     * error); either way loading ends.
     */
    method LoadDashboardData(data: Option<(seq<Product>, seq<Named>, seq<Named>)>)
      modifies this
      ensures !loading
      ensures data.None? ==> stats == old(stats)
      ensures data.Some? ==> stats == Cards(data.value.0, |data.value.1|, |data.value.2|)
    {
      if data.Some? {
        stats := Cards(data.value.0, |data.value.1|, |data.value.2|);
      }
      loading := false;
    }
  }
}
