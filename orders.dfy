/**
 * What the customer's and the administrator's order pages share: the order and
 * order-line records they display, and the image chosen for each line of the
 * detail view.
 */
module OrderViews {
  import opened Wrappers
  import opened ProductDetails
  import opened ImageUrls

  /** An order; `fechaPedido` is the order time in milliseconds, as `Date` parses it. */
  datatype Order = Order(id: int, idUsuario: int, fechaPedido: int, montoTotal: int, estado: string,
                         direccionEnvio: string, ciudadEnvio: string, paisEnvio: string, codigoPostalEnvio: string)

  /** A line of an order as the backend lists it. */
  datatype OrderItem = OrderItem(id: int, idPedido: int, idProducto: int, nombreProducto: string,
                                 cantidad: int, precioUnitario: int)

  /** A line of the detail view with the image shown for its product. */
  datatype DetailItem = DetailItem(item: OrderItem, imagenUrl: string)

  /** `imagenes.find(img => img.esPrincipal)`: the first principal image. */
  function FirstPrincipal(images: seq<GalleryImage>): (r: Option<GalleryImage>)
    ensures r.None? <==> forall i :: 0 <= i < |images| ==> !Principal(images[i])
    ensures r.Some? ==> r.value in images && Principal(r.value)
  {
    if images == [] then None
    else if Principal(images[0]) then Some(images[0])
    else
      assert forall i :: 1 <= i < |images| ==> images[i] == images[1..][i - 1];
      FirstPrincipal(images[1..])
  }

  /**
   * The image of a detail line: the first principal image, else the first
   * image, and the order placeholder when the lookup failed (`None`), the
   * product has no image, or the chosen image has an empty path.
   */
  function DetailImage(images: Option<seq<GalleryImage>>): (r: string)
    ensures images.None? || images == Some([]) ==> r == OrderPlaceholder
    ensures r == OrderPlaceholder || exists img :: img in images.value && img.urlImagen == r
  {
    if images.None? || images.value == [] then OrderPlaceholder
    else
      var found := FirstPrincipal(images.value);
      var chosen := if found.Some? then found.value else images.value[0];
      if chosen.urlImagen == "" then OrderPlaceholder else chosen.urlImagen
  }

  /** A principal image with a path is preferred over every other image. */
  lemma DetailImagePrefersPrincipal(images: seq<GalleryImage>, i: int)
    requires 0 <= i < |images| && Principal(images[i]) && images[i].urlImagen != ""
    requires forall j :: 0 <= j < i ==> !Principal(images[j])
    ensures DetailImage(Some(images)) == images[i].urlImagen
  {
    FirstPrincipalIsFirst(images, i);
  }

  lemma {:induction false} FirstPrincipalIsFirst(images: seq<GalleryImage>, i: int)
    requires 0 <= i < |images| && Principal(images[i])
    requires forall j :: 0 <= j < i ==> !Principal(images[j])
    ensures FirstPrincipal(images) == Some(images[i])
  {
    if i > 0 {
      FirstPrincipalIsFirst(images[1..], i - 1);
    }
  }

  /**
   * The detail lines of `verDetalle`: every line with its image, looked up by
   * product (`imagesOf` lacks the products whose lookup failed).
   */
  function WithImages(items: seq<OrderItem>, imagesOf: map<int, seq<GalleryImage>>): (r: seq<DetailItem>)
    ensures |r| == |items|
    ensures forall i :: 0 <= i < |r| ==>
      (r[i].item == items[i]
       && r[i].imagenUrl == DetailImage(if items[i].idProducto in imagesOf then Some(imagesOf[items[i].idProducto]) else None))
  {
    seq(|items|, i requires 0 <= i < |items| =>
      DetailItem(items[i], DetailImage(if items[i].idProducto in imagesOf then Some(imagesOf[items[i].idProducto]) else None)))
  }
}
