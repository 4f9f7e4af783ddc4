/**
 * The storefront catalog: the products narrowed by category, brand and a
 * search term, then ordered by the chosen sort option; the filter controls; and
 * the names of the selected category and brand.
 */
module Catalog {
  import opened Wrappers
  import opened Lists
  import opened Sorting
  import opened Text

  datatype Product = Product(id: int, nombre: string, descripcion: string, precio: int, stock: int,
                             idCategoria: int, nombreCategoria: string, idMarca: int, nombreMarca: string)

  /** A category or a brand: an id and a name. */
  datatype Named = Named(id: int, nombre: string)

  datatype SortOption = NombreAsc | NombreDesc | PrecioAsc | PrecioDesc | StockAsc | StockDesc

  /** A selected id narrows the list only when it is present and not 0 (JavaScript truthiness). */
  predicate Active(selected: Option<int>)
  {
    selected.Some? && selected.value != 0
  }

  /** The lower-cased term occurs in one of the four searchable fields, lower-cased. */
  predicate MatchesSearch(p: Product, search: string)
  {
    || Contains(Lower(p.nombre), search)
    || Contains(Lower(p.descripcion), search)
    || Contains(Lower(p.nombreCategoria), search)
    || Contains(Lower(p.nombreMarca), search)
  }

  function InCategory(id: int): Product -> bool
  {
    (p: Product) => p.idCategoria == id
  }

  function OfBrand(id: int): Product -> bool
  {
    (p: Product) => p.idMarca == id
  }

  function Searched(search: string): Product -> bool
  {
    (p: Product) => MatchesSearch(p, search)
  }

  /** All the active filters at once. */
  predicate Matches(p: Product, category: Option<int>, brand: Option<int>, searchTerm: string)
  {
    && (Active(category) ==> p.idCategoria == category.value)
    && (Active(brand) ==> p.idMarca == brand.value)
    && (Lower(searchTerm) != [] ==> MatchesSearch(p, Lower(searchTerm)))
  }

  /** The three filters of `filteredProducts`, applied in turn. */
  function Narrowed(all: seq<Product>, category: Option<int>, brand: Option<int>, searchTerm: string): seq<Product>
  {
    var byCategory := if Active(category) then Filter(all, InCategory(category.value)) else all;
    var byBrand := if Active(brand) then Filter(byCategory, OfBrand(brand.value)) else byCategory;
    var search := Lower(searchTerm);
    if search != [] then Filter(byBrand, Searched(search)) else byBrand
  }

  /** The comparator of each sort option, as "goes strictly before". */
  function Before(sort: SortOption): (lt: (Product, Product) -> bool)
    ensures forall a, b :: lt(a, b) ==> !lt(b, a)
  {
    forall a: string, b: string ensures LexLess(a, b) ==> !LexLess(b, a) {
      LexLessAsymmetric(a, b);
    }
    match sort
    case NombreAsc => (a: Product, b: Product) => LexLess(a.nombre, b.nombre)
    case NombreDesc => (a: Product, b: Product) => LexLess(b.nombre, a.nombre)
    case PrecioAsc => (a: Product, b: Product) => a.precio < b.precio
    case PrecioDesc => (a: Product, b: Product) => b.precio < a.precio
    case StockAsc => (a: Product, b: Product) => a.stock < b.stock
    case StockDesc => (a: Product, b: Product) => b.stock < a.stock
  }

  lemma BeforeIsStrict(sort: SortOption)
    ensures StrictOrder(Before(sort))
  {
    if sort == NombreAsc || sort == NombreDesc {
      forall a: string, b: string ensures LexLess(a, b) ==> !LexLess(b, a) {
        LexLessAsymmetric(a, b);
      }
      forall a: string, b: string, c: string ensures LexLess(a, b) && LexLess(b, c) ==> LexLess(a, c) {
        LexLessTransitive(a, b, c);
      }
    }
  }

  /** `filteredProducts`: the narrowed list in the chosen order. */
  function FilteredProducts(all: seq<Product>, category: Option<int>, brand: Option<int>, searchTerm: string,
                            sort: SortOption): (r: seq<Product>)
    ensures multiset(r) <= multiset(all)
  {
    Sort(Narrowed(all, category, brand, searchTerm), Before(sort))
  }

  /** The category filter keeps exactly the products of that category, when one is chosen. */
  lemma CategoryStage(all: seq<Product>, category: Option<int>)
    ensures var r := if Active(category) then Filter(all, InCategory(category.value)) else all;
      forall x :: x in r <==> x in all && (Active(category) ==> x.idCategoria == category.value)
  {
    if Active(category) {
      FilterMembership(all, InCategory(category.value));
    }
  }

  /** The brand filter keeps exactly the products of that brand, when one is chosen. */
  lemma BrandStage(s: seq<Product>, brand: Option<int>)
    ensures var r := if Active(brand) then Filter(s, OfBrand(brand.value)) else s;
      forall x :: x in r <==> x in s && (Active(brand) ==> x.idMarca == brand.value)
  {
    if Active(brand) {
      FilterMembership(s, OfBrand(brand.value));
    }
  }

  /** The search filter keeps exactly the products matching a non-empty term. */
  lemma SearchStage(s: seq<Product>, search: string)
    ensures var r := if search != [] then Filter(s, Searched(search)) else s;
      forall x :: x in r <==> x in s && (search != [] ==> MatchesSearch(x, search))
  {
    if search != [] {
      FilterMembership(s, Searched(search));
    }
  }

  /** Exactly the products of `all` that pass every active filter survive the three filters. */
  lemma NarrowedSpec(all: seq<Product>, category: Option<int>, brand: Option<int>, searchTerm: string)
    ensures multiset(Narrowed(all, category, brand, searchTerm)) <= multiset(all)
    ensures forall x :: x in Narrowed(all, category, brand, searchTerm) <==> x in all && Matches(x, category, brand, searchTerm)
  {
    var byCategory := if Active(category) then Filter(all, InCategory(category.value)) else all;
    var byBrand := if Active(brand) then Filter(byCategory, OfBrand(brand.value)) else byCategory;
    var search := Lower(searchTerm);
    CategoryStage(all, category);
    BrandStage(byCategory, brand);
    SearchStage(byBrand, search);
  }

  /**
   * The catalog shows the products of `all` that pass every active filter, each
   * as often as `all` holds it at most, and nothing else.
   */
  lemma FilteredProductsSpec(all: seq<Product>, category: Option<int>, brand: Option<int>, searchTerm: string,
                             sort: SortOption)
    ensures var r := FilteredProducts(all, category, brand, searchTerm, sort);
      && multiset(r) <= multiset(all)
      && forall x :: x in r <==> x in all && Matches(x, category, brand, searchTerm)
  {
    var n := Narrowed(all, category, brand, searchTerm);
    var r := FilteredProducts(all, category, brand, searchTerm, sort);
    NarrowedSpec(all, category, brand, searchTerm);
    assert forall x :: x in r <==> x in multiset(n);
  }

  /** `a` may stand before `b` under the sort option: their keys are in its order. */
  predicate InOrder(a: Product, b: Product, sort: SortOption)
  {
    match sort
    case NombreAsc => !LexLess(b.nombre, a.nombre)
    case NombreDesc => !LexLess(a.nombre, b.nombre)
    case PrecioAsc => a.precio <= b.precio
    case PrecioDesc => a.precio >= b.precio
    case StockAsc => a.stock <= b.stock
    case StockDesc => a.stock >= b.stock
  }

  /** Each sort option orders the shown products by its key, ascending or descending. */
  lemma FilteredProductsOrdered(all: seq<Product>, category: Option<int>, brand: Option<int>, searchTerm: string,
                                sort: SortOption)
    ensures var r := FilteredProducts(all, category, brand, searchTerm, sort);
      forall i, j :: 0 <= i < j < |r| ==> InOrder(r[i], r[j], sort)
  {
    BeforeIsStrict(sort);
    SortSorted(Narrowed(all, category, brand, searchTerm), Before(sort));
  }

  /** `find(x => x.id === id)`: the first entry with that id. */
  function Find(entries: seq<Named>, id: int): (r: Option<Named>)
    ensures r.None? <==> forall i :: 0 <= i < |entries| ==> entries[i].id != id
    ensures r.Some? ==> r.value in entries && r.value.id == id
  {
    if entries == [] then None
    else if entries[0].id == id then Some(entries[0])
    else
      assert forall i :: 1 <= i < |entries| ==> entries[i] == entries[1..][i - 1];
      Find(entries[1..], id)
  }

  /** The entry found is the first one with the id. */
  lemma {:induction false} FindIsFirst(entries: seq<Named>, id: int, i: int)
    requires 0 <= i < |entries| && entries[i].id == id
    requires forall j :: 0 <= j < i ==> entries[j].id != id
    ensures Find(entries, id) == Some(entries[i])
  {
    if i > 0 {
      FindIsFirst(entries[1..], id, i - 1);
    }
  }

  /** Entry `i` is the first one with the selected id. */
  predicate IsFirstWithId(entries: seq<Named>, selected: Option<int>, i: int)
  {
    && Active(selected) && 0 <= i < |entries| && entries[i].id == selected.value
    && forall j :: 0 <= j < i ==> entries[j].id != selected.value
  }

  /**
   * `getSelectedCategoryName` and `getSelectedBrandName`: the name of the first
   * entry with the selected id; empty when nothing is selected or nothing matches.
   */
  function SelectedName(selected: Option<int>, entries: seq<Named>): (r: string)
    ensures !Active(selected) ==> r == []
    ensures Active(selected) && (forall i :: 0 <= i < |entries| ==> entries[i].id != selected.value) ==> r == []
    ensures r != [] ==> Active(selected) && exists e :: e in entries && e.id == selected.value && e.nombre == r
    ensures forall i :: IsFirstWithId(entries, selected, i) ==> r == entries[i].nombre
  {
    if !Active(selected) then []
    else
      var found := Find(entries, selected.value);
      assert forall i :: IsFirstWithId(entries, selected, i) ==> found == Some(entries[i]) by {
        forall i | IsFirstWithId(entries, selected, i) ensures found == Some(entries[i]) {
          FindIsFirst(entries, selected.value, i);
        }
      }
      if found.Some? then found.value.nombre else []
  }

  /** The catalog page: the loaded lists and the filter controls. */
  class CatalogPage {
    var allProducts: seq<Product>
    var categories: seq<Named>
    var brands: seq<Named>
    var selectedCategoryId: Option<int>
    var selectedBrandId: Option<int>
    var searchTerm: string
    var sortOption: SortOption

    /** The filter controls with nothing chosen. */
    predicate Cleared()
      reads this
    {
      selectedCategoryId.None? && selectedBrandId.None? && searchTerm == [] && sortOption == NombreAsc
    }

    constructor ()
      ensures Cleared() && allProducts == [] && categories == [] && brands == []
    {
      allProducts := [];
      categories := [];
      brands := [];
      selectedCategoryId := None;
      selectedBrandId := None;
      searchTerm := [];
      sortOption := NombreAsc;
    }

    /** The list the page shows. */
    function Shown(): seq<Product>
      reads this
    {
      FilteredProducts(allProducts, selectedCategoryId, selectedBrandId, searchTerm, sortOption)
    }

    /** `loadAll`: each of the three lists is replaced when its request succeeds. */
    method LoadAll(products: Option<seq<Product>>, cats: Option<seq<Named>>, brandList: Option<seq<Named>>)
      modifies this
      ensures allProducts == if products.Some? then products.value else old(allProducts)
      ensures categories == if cats.Some? then cats.value else old(categories)
      ensures brands == if brandList.Some? then brandList.value else old(brands)
      ensures selectedCategoryId == old(selectedCategoryId) && selectedBrandId == old(selectedBrandId)
      ensures searchTerm == old(searchTerm) && sortOption == old(sortOption)
    {
      if products.Some? {
        allProducts := products.value;
      }
      if cats.Some? {
        categories := cats.value;
      }
      if brandList.Some? {
        brands := brandList.value;
      }
    }

    method FilterByCategory(categoryId: Option<int>)
      modifies this
      ensures selectedCategoryId == categoryId
      ensures allProducts == old(allProducts) && categories == old(categories) && brands == old(brands)
      ensures selectedBrandId == old(selectedBrandId) && searchTerm == old(searchTerm) && sortOption == old(sortOption)
    {
      selectedCategoryId := categoryId;
    }

    method FilterByBrand(brandId: Option<int>)
      modifies this
      ensures selectedBrandId == brandId
      ensures allProducts == old(allProducts) && categories == old(categories) && brands == old(brands)
      ensures selectedCategoryId == old(selectedCategoryId) && searchTerm == old(searchTerm) && sortOption == old(sortOption)
    {
      selectedBrandId := brandId;
    }

    method OnSearchChange(value: string)
      modifies this
      ensures searchTerm == value
      ensures allProducts == old(allProducts) && categories == old(categories) && brands == old(brands)
      ensures selectedCategoryId == old(selectedCategoryId) && selectedBrandId == old(selectedBrandId)
      ensures sortOption == old(sortOption)
    {
      searchTerm := value;
    }

    method OnSortChange(value: SortOption)
      modifies this
      ensures sortOption == value
      ensures allProducts == old(allProducts) && categories == old(categories) && brands == old(brands)
      ensures selectedCategoryId == old(selectedCategoryId) && selectedBrandId == old(selectedBrandId)
      ensures searchTerm == old(searchTerm)
    {
      sortOption := value;
    }

    /** `clearFilters`: no category, no brand, no search, name order; the lists stay. */
    method ClearFilters()
      modifies this
      ensures Cleared()
      ensures allProducts == old(allProducts) && categories == old(categories) && brands == old(brands)
      ensures Shown() == Sort(allProducts, Before(NombreAsc))
    {
      selectedCategoryId := None;
      selectedBrandId := None;
      searchTerm := [];
      sortOption := NombreAsc;
    }

    function GetSelectedCategoryName(): (r: string)
      reads this
      ensures !Active(selectedCategoryId) ==> r == []
      ensures forall i :: IsFirstWithId(categories, selectedCategoryId, i) ==> r == categories[i].nombre
    {
      SelectedName(selectedCategoryId, categories)
    }

    function GetSelectedBrandName(): (r: string)
      reads this
      ensures !Active(selectedBrandId) ==> r == []
      ensures forall i :: IsFirstWithId(brands, selectedBrandId, i) ==> r == brands[i].nombre
    {
      SelectedName(selectedBrandId, brands)
    }
  }
}
