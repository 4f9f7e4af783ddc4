/**
 * The product details page: the ordered image gallery, the quantity selector
 * bounded by the stock, and the checks before a product is added to the cart.
 */
module ProductDetails {
  import opened Wrappers
  import opened Lists
  import opened Sorting
  import opened ImageUrls

  /** An image as the page receives it; `esPrincipal` may be absent. */
  datatype GalleryImage = GalleryImage(id: int, urlImagen: string, esPrincipal: Option<bool>, orden: int)

  predicate Principal(img: GalleryImage)
  {
    img.esPrincipal == Some(true)
  }

  /**
   * The gallery comparator as a "goes strictly before" relation: a principal
   * image before a non-principal one, otherwise the lower `orden` first.
   */
  predicate GoesFirst(a: GalleryImage, b: GalleryImage)
  {
    (Principal(a) && !Principal(b)) || (Principal(a) == Principal(b) && a.orden < b.orden)
  }

  /**
   * The comparator is a strict weak order; the ties are the images with the
   * same principal flag and the same `orden`.
   */
  lemma GoesFirstIsStrictWeak()
    ensures StrictOrder(GoesFirst) && StrictWeakOrder(GoesFirst)
    ensures forall a, b :: Tied(GoesFirst, a, b) <==> Principal(a) == Principal(b) && a.orden == b.orden
  {
  }

  /** The images that tie with `c`, as a filter condition. */
  function SameRank(c: GalleryImage): GalleryImage -> bool
  {
    (img: GalleryImage) => Principal(img) == Principal(c) && img.orden == c.orden
  }

  /** The product fields the page uses. */
  datatype ProductView = ProductView(id: int, nombre: string, stock: int, imagenPortada: string)

  function GalleryUrl(img: GalleryImage): string
  {
    GalleryImageUrl(img.urlImagen)
  }

  /**
   * `allImages`: with no images, the product's cover through the catalog
   * normaliser, or the placeholder when there is no cover; otherwise the images
   * sorted (principal first, then by `orden`) through the gallery normaliser.
   */
  function AllImages(images: seq<GalleryImage>, product: Option<ProductView>): (r: seq<string>)
    ensures images == [] && (product.None? || product.value.imagenPortada == "") ==> r == [Placeholder]
    ensures images == [] && product.Some? && product.value.imagenPortada != "" ==>
      r == [CatalogImageUrl(product.value.imagenPortada)]
    ensures images != [] ==> |r| == |images|
  {
    if images == [] then
      if product.Some? && product.value.imagenPortada != "" then [CatalogImageUrl(product.value.imagenPortada)]
      else [Placeholder]
    else
      var sorted := Sort(images, GoesFirst);
      seq(|sorted|, i requires 0 <= i < |sorted| => GalleryUrl(sorted[i]))
  }

  /**
   * With images, the gallery shows every image once, principal images first and
   * each group by ascending `orden`.
   */
  lemma GalleryOrder(images: seq<GalleryImage>, product: Option<ProductView>)
    requires images != []
    ensures var sorted := Sort(images, GoesFirst);
      && multiset(sorted) == multiset(images)
      && AllImages(images, product) == seq(|sorted|, i requires 0 <= i < |sorted| => GalleryUrl(sorted[i]))
      && (forall i, j :: 0 <= i < j < |sorted| && Principal(sorted[j]) ==> Principal(sorted[i]))
      && (forall i, j :: 0 <= i < j < |sorted| && Principal(sorted[i]) == Principal(sorted[j]) ==>
            sorted[i].orden <= sorted[j].orden)
  {
    GoesFirstIsStrictWeak();
    SortSorted(images, GoesFirst);
  }

  /** Images of equal rank keep the order in which the backend listed them. */
  lemma GalleryStable(images: seq<GalleryImage>, c: GalleryImage)
    ensures Filter(Sort(images, GoesFirst), SameRank(c)) == Filter(images, SameRank(c))
  {
    GoesFirstIsStrictWeak();
    SortStable(images, GoesFirst, c);
    FilterCongruent(images, TiedWith(GoesFirst, c), SameRank(c));
    FilterCongruent(Sort(images, GoesFirst), TiedWith(GoesFirst, c), SameRank(c));
  }

  /** What happened to an "add to cart" click. */
  datatype AddOutcome =
    | NoProduct
    | SoldOut
    | MustLogIn
    | NotEnoughStock
    | NoUserId
    | Added(idCarrito: int, idProducto: int, cantidad: int)
    | AddFailed

  /** The page's product, its images and the quantity selector. */
  class ProductPage {
    var product: Option<ProductView>
    var productImages: seq<GalleryImage>
    var quantity: int
    var addingToCart: bool

    /** The selected quantity never drops below 1. */
    ghost predicate Valid()
      reads this
    {
      1 <= quantity
    }

    constructor ()
      ensures Valid() && product == None && productImages == [] && quantity == 1 && !addingToCart
    {
      product := None;
      productImages := [];
      quantity := 1;
      addingToCart := false;
    }

    /** `loadProduct`: the product and its images arrive together; the quantity is kept. */
    method LoadProduct(prod: ProductView, images: seq<GalleryImage>)
      requires Valid()
      modifies this
      ensures Valid() && product == Some(prod) && productImages == images
      ensures quantity == old(quantity) && addingToCart == old(addingToCart)
    {
      product := Some(prod);
      productImages := images;
    }

    /** The gallery the page shows for its current state. */
    function Gallery(): (r: seq<string>)
      reads this
      ensures |r| >= 1
    {
      AllImages(productImages, product)
    }

    /** `increaseQuantity`: one more while below the stock. */
    method IncreaseQuantity()
      requires Valid()
      modifies this
      ensures Valid() && product == old(product) && productImages == old(productImages)
      ensures addingToCart == old(addingToCart)
      ensures quantity == if product.Some? && old(quantity) < product.value.stock then old(quantity) + 1 else old(quantity)
      ensures quantity > old(quantity) ==> quantity <= product.value.stock
    {
      if product.Some? && quantity < product.value.stock {
        quantity := quantity + 1;
      }
    }

    /** `decreaseQuantity`: one fewer while above 1. */
    method DecreaseQuantity()
      requires Valid()
      modifies this
      ensures Valid() && product == old(product) && productImages == old(productImages)
      ensures addingToCart == old(addingToCart)
      ensures quantity == if old(quantity) > 1 then old(quantity) - 1 else old(quantity)
    {
      if quantity > 1 {
        quantity := quantity - 1;
      }
    }

    /**
     * `addToCart`: no product, no stock, not logged in, or more than the stock
     * stop it before any cart request. Then the user's cart is looked up
     * (`existingCart`), created when missing (`createdCart`), and the line is
     * added (`added`). The quantity goes back to 1 after a successful add.
     */
    method AddToCart(loggedIn: bool, userId: Option<int>, existingCart: Option<int>, createdCart: int, added: bool)
      returns (outcome: AddOutcome)
      requires Valid()
      modifies this
      ensures Valid() && product == old(product) && productImages == old(productImages)
      ensures outcome in {NoProduct, SoldOut, MustLogIn, NotEnoughStock} ==> addingToCart == old(addingToCart)
      ensures outcome !in {NoProduct, SoldOut, MustLogIn, NotEnoughStock} ==> !addingToCart
      ensures product.None? ==> outcome == NoProduct
      ensures product.Some? && product.value.stock == 0 ==> outcome == SoldOut
      ensures product.Some? && product.value.stock != 0 && !(loggedIn && userId.Some?) ==> outcome == MustLogIn
      ensures outcome.Added? ==>
        && product.Some? && product.value.stock != 0 && loggedIn && userId.Some? && userId.value != 0
        && old(quantity) <= product.value.stock && added
        && outcome == Added(if existingCart.Some? then existingCart.value else createdCart,
                            product.value.id, old(quantity))
        && quantity == 1
      ensures !outcome.Added? ==> quantity == old(quantity)
      ensures product.Some? && old(quantity) > product.value.stock ==> !outcome.Added? && outcome != AddFailed
      ensures product.Some? && product.value.stock != 0 && loggedIn && userId.Some? ==>
        && (old(quantity) > product.value.stock ==> outcome == NotEnoughStock)
        && (old(quantity) <= product.value.stock && userId.value == 0 ==> outcome == NoUserId)
        && (old(quantity) <= product.value.stock && userId.value != 0 && added ==>
              outcome == Added(if existingCart.Some? then existingCart.value else createdCart,
                               product.value.id, old(quantity)))
        && (old(quantity) <= product.value.stock && userId.value != 0 && !added ==> outcome == AddFailed)
    {
      if product.None? {
        return NoProduct;
      }
      var prod := product.value;
      if prod.stock == 0 {
        return SoldOut;
      }
      if !loggedIn || userId.None? {
        return MustLogIn;
      }
      if quantity > prod.stock {
        return NotEnoughStock;
      }
      addingToCart := true;
      if userId.value == 0 {
        addingToCart := false;
        return NoUserId;
      }
      var cart := if existingCart.Some? then existingCart.value else createdCart;
      if added {
        outcome := Added(cart, prod.id, quantity);
        quantity := 1;
      } else {
        outcome := AddFailed;
      }
      addingToCart := false;
    }
  }
}
