/**
 * The backend cart-line service: the listing of a cart's lines joined with
 * their products and cover images, creation with the quantity raised to at
 * least 1, the null-skipping update, and deletion. Prices are integer cents.
 */
module ItemsCarritoService {
  import opened Wrappers
  import opened Lists
  import opened Sorting
  import opened Repository
  import ProductoService
  import opened ProductoImgService

  /** A stored cart line. */
  datatype ItemCarrito = ItemCarrito(id: nat, idCarrito: nat, idProducto: nat, cantidad: int)

  /** An update request body: a null field is not applied. */
  datatype ItemCarritoPatch = ItemCarritoPatch(idCarrito: Option<nat>, idProducto: Option<nat>, cantidad: Option<int>)

  /** A cart line as the cart page receives it: the line, its product and its cover image. */
  datatype ItemCarritoConImagen = ItemCarritoConImagen(
    id: nat, idCarrito: nat, cantidad: int,
    idProducto: nat, nombreProducto: string, descripcionProducto: Option<string>, precioProducto: int,
    stockProducto: int, skuProducto: Option<string>,
    subtotal: int, imagenPortada: Option<string>)

  /** The quantity `createItemCarrito` stores: a null or non-positive one becomes 1. */
  function CantidadInicial(cantidad: Option<int>): (r: int)
    ensures r >= 1
    ensures cantidad.Some? && cantidad.value >= 1 ==> r == cantidad.value
    ensures cantidad.None? || cantidad.value < 1 ==> r == 1
  {
    if cantidad.None? || cantidad.value < 1 then 1 else cantidad.value
  }

  /** The cover of a product: the url of the first image of its listing by position, or null. */
  function Portada(imagenes: seq<ProductoImg>): (r: Option<string>)
    ensures r.None? <==> imagenes == []
    ensures r.Some? ==> r.value == imagenes[0].urlImagen
  {
    if imagenes == [] then None else Some(imagenes[0].urlImagen)
  }

  /**
   * The cover is null exactly for a product without images; otherwise it is
   * the url of one of the product's images with the lowest position.
   */
  lemma PortadaIsLowestOrden(rows: map<nat, ProductoImg>, nextId: nat, p: nat)
    requires forall k :: k in rows ==> k < nextId
    ensures Portada(ImagesOf(rows, nextId, p)).None? <==> forall k :: k in rows ==> rows[k].idProducto != p
    ensures Portada(ImagesOf(rows, nextId, p)).Some? ==>
      exists k :: k in rows && rows[k].idProducto == p
                  && Portada(ImagesOf(rows, nextId, p)).value == rows[k].urlImagen
                  && forall j :: j in rows && rows[j].idProducto == p ==> rows[k].orden <= rows[j].orden
  {
    var imgs := ImagesOf(rows, nextId, p);
    ImagesOfSpec(rows, nextId, p);
    if imgs != [] {
      var first := imgs[0];
      var k :| k in rows && rows[k] == first;
      forall j | j in rows && rows[j].idProducto == p ensures first.orden <= rows[j].orden {
        var i :| 0 <= i < |imgs| && imgs[i] == rows[j];
        if i > 0 {
          assert !ByOrden(imgs[i], imgs[0]);
        }
      }
    }
  }

  /** One line of the listing: the line's fields, its product's fields, the subtotal and the cover. */
  function ToDto(item: ItemCarrito, idCarrito: nat, producto: ProductoService.Producto, imagenes: seq<ProductoImg>)
    : (d: ItemCarritoConImagen)
    ensures d.id == item.id && d.idCarrito == idCarrito && d.cantidad == item.cantidad
    ensures d.idProducto == producto.id && d.precioProducto == producto.precio
    ensures d.subtotal == producto.precio * item.cantidad
    ensures d.imagenPortada.None? <==> imagenes == []
  {
    ItemCarritoConImagen(item.id, idCarrito, item.cantidad,
                         producto.id, producto.nombre, producto.descripcion, producto.precio,
                         producto.stock, producto.sku,
                         producto.precio * item.cantidad, Portada(imagenes))
  }

  /**
   * The mapping of `getItemsByCarritoConImagen`: one entry per line, in the
   * lines' order. A line whose product is not in the table (which the foreign
   * key rules out) fails the way the null product reference would.
   */
  function ConImagen(items: seq<ItemCarrito>, idCarrito: nat, productos: map<nat, ProductoService.Producto>,
                     imgRows: map<nat, ProductoImg>, imgNext: nat): (r: Result<seq<ItemCarritoConImagen>>)
    ensures r.Ok? <==> forall i :: 0 <= i < |items| ==> items[i].idProducto in productos
    ensures r.Err? ==> r.error == NullDereference("producto")
    ensures r.Ok? ==> |r.value| == |items|
    ensures r.Ok? ==> forall i :: 0 <= i < |items| ==>
      r.value[i] == ToDto(items[i], idCarrito, productos[items[i].idProducto],
                          ImagesOf(imgRows, imgNext, items[i].idProducto))
  {
    if items == [] then Ok([])
    else if items[0].idProducto !in productos then Err(NullDereference("producto"))
    else
      var rest := ConImagen(items[1..], idCarrito, productos, imgRows, imgNext);
      assert forall j :: 0 <= j < |items| - 1 ==> items[1..][j] == items[j + 1];
      if rest.Err? then rest
      else
        var head := ToDto(items[0], idCarrito, productos[items[0].idProducto],
                          ImagesOf(imgRows, imgNext, items[0].idProducto));
        var r := [head] + rest.value;
        assert forall j :: 1 <= j < |r| ==> r[j] == rest.value[j - 1];
        Ok(r)
  }

  /** Every entry's subtotal is its product's price times the line's quantity. */
  lemma SubtotalIsPriceTimesQuantity(items: seq<ItemCarrito>, idCarrito: nat, productos: map<nat, ProductoService.Producto>,
                                     imgRows: map<nat, ProductoImg>, imgNext: nat, i: int)
    requires ConImagen(items, idCarrito, productos, imgRows, imgNext).Ok?
    requires 0 <= i < |items|
    ensures var dto := ConImagen(items, idCarrito, productos, imgRows, imgNext).value[i];
      && dto.id == items[i].id && dto.idCarrito == idCarrito && dto.cantidad == items[i].cantidad
      && dto.idProducto == productos[items[i].idProducto].id
      && dto.subtotal == productos[items[i].idProducto].precio * items[i].cantidad
  {
  }

  /**
   * `actualizarCampos`: each non-null field among cart, product and quantity
   * overwrites the stored one; the id is not touched.
   */
  function ActualizarCampos(destino: ItemCarrito, origen: ItemCarritoPatch): (r: ItemCarrito)
    ensures r.id == destino.id
    ensures origen.idCarrito.Some? ==> r.idCarrito == origen.idCarrito.value
    ensures origen.idCarrito.None? ==> r.idCarrito == destino.idCarrito
    ensures origen.idProducto.Some? ==> r.idProducto == origen.idProducto.value
    ensures origen.idProducto.None? ==> r.idProducto == destino.idProducto
    ensures origen.cantidad.Some? ==> r.cantidad == origen.cantidad.value
    ensures origen.cantidad.None? ==> r.cantidad == destino.cantidad
  {
    destino.(idCarrito := Patched(origen.idCarrito, destino.idCarrito),
             idProducto := Patched(origen.idProducto, destino.idProducto),
             cantidad := Patched(origen.cantidad, destino.cantidad))
  }

  predicate InCart(c: nat, item: ItemCarrito)
  {
    item.idCarrito == c
  }

  /** `findByIdCarrito`: the cart's lines, in id order. */
  function LinesOf(rows: map<nat, ItemCarrito>, nextId: nat, c: nat): (r: seq<ItemCarrito>)
    ensures forall i :: 0 <= i < |r| ==> r[i].idCarrito == c && r[i] in rows.Values
  {
    Filter(Below(rows, nextId), item => InCart(c, item))
  }

  /** The cart's lines are exactly the stored lines of that cart. */
  lemma LinesOfSpec(rows: map<nat, ItemCarrito>, nextId: nat, c: nat)
    requires forall k :: k in rows ==> k < nextId
    ensures forall x :: x in LinesOf(rows, nextId, c) <==> x in rows.Values && x.idCarrito == c
  {
    var below := Below(rows, nextId);
    FilterMembership(below, item => InCart(c, item));
    forall x | x in rows.Values && x.idCarrito == c ensures x in below {
      var k :| k in rows && rows[k] == x;
      BelowContains(rows, nextId, k);
    }
  }

  /**
   * The cart-line table with the next id it hands out, and what the listing
   * reads besides: the existing carts, the product table and the image table.
   */
  class ItemsCarritoStore {
    var carritos: set<nat>
    var productos: map<nat, ProductoService.Producto>
    var imagenes: map<nat, ProductoImg>
    var nextImageId: nat
    var rows: map<nat, ItemCarrito>
    var nextId: nat

    ghost predicate Valid()
      reads this
    {
      && (forall k :: k in rows ==> k < nextId && rows[k].id == k)
      && (forall k :: k in imagenes ==> k < nextImageId)
    }

    constructor (carritos: set<nat>, productos: map<nat, ProductoService.Producto>, imagenes: map<nat, ProductoImg>, nextImageId: nat)
      requires forall k :: k in imagenes ==> k < nextImageId
      ensures Valid() && rows == map[] && nextId == 1
      ensures this.carritos == carritos && this.productos == productos
      ensures this.imagenes == imagenes && this.nextImageId == nextImageId
    {
      this.carritos := carritos;
      this.productos := productos;
      this.imagenes := imagenes;
      this.nextImageId := nextImageId;
      rows := map[];
      nextId := 1;
    }

    /** `getItemsByCarritoConImagen`: an unknown cart fails; otherwise its lines, mapped. */
    method GetItemsByCarritoConImagen(c: nat) returns (r: Result<seq<ItemCarritoConImagen>>)
      requires Valid()
      ensures c !in carritos ==> r == Err(NotFound("Carrito", c))
      ensures c in carritos ==> r == ConImagen(LinesOf(rows, nextId, c), c, productos, imagenes, nextImageId)
      ensures r.Ok? ==> forall i :: 0 <= i < |r.value| ==>
        exists k :: k in rows && rows[k].idCarrito == c && rows[k].id == r.value[i].id
    {
      if c !in carritos {
        return Err(NotFound("Carrito", c));
      }
      var lines := LinesOf(rows, nextId, c);
      LinesOfSpec(rows, nextId, c);
      r := ConImagen(lines, c, productos, imagenes, nextImageId);
      if r.Ok? {
        forall i | 0 <= i < |r.value|
          ensures exists k :: k in rows && rows[k].idCarrito == c && rows[k].id == r.value[i].id
        {
          assert lines[i] in rows.Values;
          var k :| k in rows && rows[k] == lines[i];
        }
      }
    }

    /** `createItemCarrito`: the line is stored under the next id with its quantity raised to at least 1. */
    method CreateItemCarrito(idCarrito: nat, idProducto: nat, cantidad: Option<int>) returns (r: ItemCarrito)
      requires Valid()
      modifies this
      ensures Valid() && carritos == old(carritos) && productos == old(productos)
      ensures imagenes == old(imagenes) && nextImageId == old(nextImageId)
      ensures r == ItemCarrito(old(nextId), idCarrito, idProducto, CantidadInicial(cantidad))
      ensures rows == old(rows)[old(nextId) := r] && nextId == old(nextId) + 1
    {
      var q := if cantidad.None? || cantidad.value < 1 then 1 else cantidad.value;
      r := ItemCarrito(nextId, idCarrito, idProducto, q);
      rows := rows[nextId := r];
      nextId := nextId + 1;
    }

    /** `updateItemCarrito`: an unknown id fails; otherwise the non-null fields are applied. */
    method UpdateItemCarrito(id: nat, cambios: ItemCarritoPatch) returns (r: Result<ItemCarrito>)
      requires Valid()
      modifies this
      ensures Valid() && nextId == old(nextId) && carritos == old(carritos) && productos == old(productos)
      ensures imagenes == old(imagenes) && nextImageId == old(nextImageId)
      ensures id !in old(rows) ==> r == Err(NotFound("ItemCarrito", id)) && rows == old(rows)
      ensures id in old(rows) ==>
        && r == Ok(ActualizarCampos(old(rows)[id], cambios))
        && rows == old(rows)[id := r.value]
    {
      if id !in rows {
        return Err(NotFound("ItemCarrito", id));
      }
      var item := ActualizarCampos(rows[id], cambios);
      rows := rows[id := item];
      r := Ok(item);
    }

    /** `deleteItemCarrito`: an unknown id fails; otherwise its row is removed. */
    method DeleteItemCarrito(id: nat) returns (r: Result<()>)
      requires Valid()
      modifies this
      ensures Valid() && nextId == old(nextId) && carritos == old(carritos) && productos == old(productos)
      ensures imagenes == old(imagenes) && nextImageId == old(nextImageId)
      ensures id !in old(rows) ==> r == Err(NotFound("ItemCarrito", id)) && rows == old(rows)
      ensures id in old(rows) ==> r == Ok(()) && rows == old(rows) - {id}
    {
      if id !in rows {
        return Err(NotFound("ItemCarrito", id));
      }
      rows := rows - {id};
      r := Ok(());
    }
  }
}
