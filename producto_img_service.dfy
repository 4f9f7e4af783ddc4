/**
 * The backend service for product images: listing a product's images by
 * position, adding an uploaded image at the end, changing an image's position
 * and deleting an image together with its file.
 */
module ProductoImgService {
  import opened Wrappers
  import opened Lists
  import opened Sorting
  import opened Repository
  import opened FileStorage

  /** The range of a Java `int`. */
  const MinInt: int := -0x8000_0000
  const MaxInt: int := 0x7FFF_FFFF

  type JavaInt = x: int | MinInt <= x <= MaxInt

  /** Java's `int` arithmetic: the result is taken modulo 2^32 into the `int` range. */
  function WrapInt(x: int): (r: JavaInt)
    ensures MinInt <= x <= MaxInt ==> r == x
    ensures (x - r) % 0x1_0000_0000 == 0
  {
    (x - MinInt) % 0x1_0000_0000 + MinInt
  }

  /** A stored image row: its id, its product, the stored path and its position. */
  datatype ProductoImg = ProductoImg(id: nat, idProducto: nat, urlImagen: string, orden: JavaInt)

  /** `ORDER BY orden ASC`: `a` goes strictly before `b`. */
  predicate ByOrden(a: ProductoImg, b: ProductoImg)
  {
    a.orden < b.orden
  }

  /** Comparing positions is a strict weak order: images at the same position are the ties. */
  lemma ByOrdenIsStrictWeak()
    ensures StrictOrder(ByOrden) && StrictWeakOrder(ByOrden)
    ensures forall a, b :: Tied(ByOrden, a, b) <==> a.orden == b.orden
  {
  }

  /** The images at the position of `c`, as a filter condition. */
  function SameOrden(c: ProductoImg): ProductoImg -> bool
  {
    (img: ProductoImg) => img.orden == c.orden
  }

  predicate OfProduct(p: nat, img: ProductoImg)
  {
    img.idProducto == p
  }

  /** `findByIdProductoOrderByOrdenAsc`: the product's images by ascending position. */
  function ImagesOf(rows: map<nat, ProductoImg>, nextId: nat, p: nat): (r: seq<ProductoImg>)
    ensures |r| <= nextId
  {
    Sort(Filter(Below(rows, nextId), img => OfProduct(p, img)), ByOrden)
  }

  /** Every image listed is one of the product's stored images. */
  lemma ImagesOfSound(rows: map<nat, ProductoImg>, nextId: nat, p: nat)
    ensures forall i :: 0 <= i < |ImagesOf(rows, nextId, p)| ==>
      ImagesOf(rows, nextId, p)[i].idProducto == p && ImagesOf(rows, nextId, p)[i] in rows.Values
  {
    var below := Below(rows, nextId);
    var mine := Filter(below, img => OfProduct(p, img));
    var r := ImagesOf(rows, nextId, p);
    forall i | 0 <= i < |r| ensures r[i].idProducto == p && r[i] in rows.Values {
      assert r[i] in multiset(mine);
      var j :| 0 <= j < |mine| && mine[j] == r[i];
      assert OfProduct(p, mine[j]) && mine[j] in below;
    }
  }

  /** Every stored image of the product is listed. */
  lemma ImagesOfComplete(rows: map<nat, ProductoImg>, nextId: nat, p: nat)
    requires forall k :: k in rows ==> k < nextId
    ensures forall k :: k in rows && rows[k].idProducto == p ==> rows[k] in ImagesOf(rows, nextId, p)
  {
    var below := Below(rows, nextId);
    var mine := Filter(below, img => OfProduct(p, img));
    forall k | k in rows && rows[k].idProducto == p ensures rows[k] in ImagesOf(rows, nextId, p) {
      BelowContains(rows, nextId, k);
      var i :| 0 <= i < |below| && below[i] == rows[k];
      FilterKeeps(below, img => OfProduct(p, img), i);
      assert rows[k] in multiset(mine);
    }
  }

  /** The listing holds exactly the product's stored images, by ascending position. */
  lemma ImagesOfSpec(rows: map<nat, ProductoImg>, nextId: nat, p: nat)
    requires forall k :: k in rows ==> k < nextId
    ensures SortedBy(ImagesOf(rows, nextId, p), ByOrden)
    ensures forall i :: 0 <= i < |ImagesOf(rows, nextId, p)| ==>
      ImagesOf(rows, nextId, p)[i].idProducto == p && ImagesOf(rows, nextId, p)[i] in rows.Values
    ensures forall k :: k in rows && rows[k].idProducto == p ==> rows[k] in ImagesOf(rows, nextId, p)
  {
    ByOrdenIsStrictWeak();
    SortSorted(Filter(Below(rows, nextId), img => OfProduct(p, img)), ByOrden);
    ImagesOfSound(rows, nextId, p);
    ImagesOfComplete(rows, nextId, p);
  }

  /**
   * `nuevoOrden`: 1 for a product without images, otherwise the last position
   * plus one in `int` arithmetic, which wraps past `Integer.MAX_VALUE`.
   */
  function NextOrden(existing: seq<ProductoImg>): (r: JavaInt)
    ensures existing == [] ==> r == 1
    ensures existing != [] && existing[|existing| - 1].orden < MaxInt ==> r == existing[|existing| - 1].orden + 1
    ensures existing != [] && existing[|existing| - 1].orden == MaxInt ==> r == MinInt
  {
    if existing == [] then 1 else WrapInt(existing[|existing| - 1].orden + 1)
  }

  /**
   * On a listing sorted by position whose last position is below
   * `Integer.MAX_VALUE`, the next position is above every existing one.
   */
  lemma NextOrdenAboveAll(existing: seq<ProductoImg>)
    requires SortedBy(existing, ByOrden)
    requires existing != [] ==> existing[|existing| - 1].orden < MaxInt
    ensures forall i :: 0 <= i < |existing| ==> existing[i].orden < NextOrden(existing)
  {
    forall i | 0 <= i < |existing| ensures existing[i].orden < NextOrden(existing) {
      if i < |existing| - 1 {
        assert !ByOrden(existing[|existing| - 1], existing[i]);
      }
    }
  }

  /**
   * The position `createProductoImg` gives is above that of every stored image
   * of the product, as long as none of them is at `Integer.MAX_VALUE`.
   */
  lemma NextOrdenAboveStored(rows: map<nat, ProductoImg>, nextId: nat, p: nat)
    requires forall k :: k in rows ==> k < nextId
    requires forall k :: k in rows && rows[k].idProducto == p ==> rows[k].orden < MaxInt
    ensures forall k :: k in rows && rows[k].idProducto == p ==> rows[k].orden < NextOrden(ImagesOf(rows, nextId, p))
  {
    var existing := ImagesOf(rows, nextId, p);
    ImagesOfSpec(rows, nextId, p);
    if existing != [] {
      assert existing[|existing| - 1] in existing;
    }
    NextOrdenAboveAll(existing);
    forall k | k in rows && rows[k].idProducto == p ensures rows[k].orden < NextOrden(existing) {
      var i :| 0 <= i < |existing| && existing[i] == rows[k];
    }
  }

  lemma NextOrdenAboveStoredBelowMax(rows: map<nat, ProductoImg>, nextId: nat, p: nat)
    requires forall k :: k in rows ==> k < nextId
    ensures (forall k :: k in rows && rows[k].idProducto == p ==> rows[k].orden < MaxInt) ==>
      forall k :: k in rows && rows[k].idProducto == p ==> rows[k].orden < NextOrden(ImagesOf(rows, nextId, p))
  {
    if forall k :: k in rows && rows[k].idProducto == p ==> rows[k].orden < MaxInt {
      NextOrdenAboveStored(rows, nextId, p);
    }
  }

  /**
   * Past `Integer.MAX_VALUE` the position wraps: a product whose last image is
   * at the largest position gets the smallest one, below every other image.
   */
  lemma NextOrdenWrapsAtMax(existing: seq<ProductoImg>)
    requires existing != [] && existing[|existing| - 1].orden == MaxInt
    ensures NextOrden(existing) == MinInt
    ensures forall i :: 0 <= i < |existing| ==> NextOrden(existing) <= existing[i].orden
    ensures NextOrden(existing) < existing[|existing| - 1].orden
  {
    assert WrapInt(MaxInt + 1) == MinInt;
  }

  /**
   * The product image table, the set of existing product ids, and the next id
   * the image table hands out.
   */
  class ImageStore {
    var products: set<nat>
    var rows: map<nat, ProductoImg>
    var nextId: nat

    ghost predicate Valid()
      reads this
    {
      forall k :: k in rows ==> k < nextId && rows[k].id == k
    }

    constructor (products: set<nat>)
      ensures Valid() && this.products == products && rows == map[] && nextId == 1
    {
      this.products := products;
      rows := map[];
      nextId := 1;
    }

    /** `getImagenesByProducto`: fails for an unknown product. */
    method GetImagenesByProducto(p: nat) returns (r: Result<seq<ProductoImg>>)
      requires Valid()
      ensures p !in products ==> r == Err(NotFound("Producto", p))
      ensures p in products ==> r.Ok? && r.value == ImagesOf(rows, nextId, p)
      ensures r.Ok? ==> SortedBy(r.value, ByOrden)
      ensures r.Ok? ==> forall k :: k in rows && rows[k].idProducto == p ==> rows[k] in r.value
    {
      if p !in products {
        return Err(NotFound("Producto", p));
      }
      ImagesOfSpec(rows, nextId, p);
      r := Ok(ImagesOf(rows, nextId, p));
    }

    /**
     * `createProductoImg`: the product must exist, then the file is stored,
     * then the new row goes after the product's last image.
     */
    method CreateProductoImg(p: nat, file: Upload, uuid: string, allowedExtensions: string)
      returns (r: Result<ProductoImg>)
      requires Valid()
      modifies this
      ensures Valid() && products == old(products)
      ensures p !in products ==> r == Err(NotFound("Producto", p))
      ensures p in products && StoreFile(file, p, uuid, allowedExtensions).Err? ==>
        r == Err(StoreFile(file, p, uuid, allowedExtensions).error)
      ensures r.Err? ==> rows == old(rows) && nextId == old(nextId)
      ensures r.Ok? ==>
        && p in products
        && r.value == ProductoImg(old(nextId), p, StoreFile(file, p, uuid, allowedExtensions).value,
                                  NextOrden(ImagesOf(old(rows), old(nextId), p)))
        && rows == old(rows)[old(nextId) := r.value]
        && nextId == old(nextId) + 1
      ensures r.Ok? && (forall k :: k in old(rows) && old(rows)[k].idProducto == p ==> old(rows)[k].orden < MaxInt) ==>
        forall k :: k in old(rows) && old(rows)[k].idProducto == p ==> old(rows)[k].orden < r.value.orden
    {
      if p !in products {
        return Err(NotFound("Producto", p));
      }
      var stored := StoreFile(file, p, uuid, allowedExtensions);
      if stored.Err? {
        return Err(stored.error);
      }
      NextOrdenAboveStoredBelowMax(rows, nextId, p);
      var img := ProductoImg(nextId, p, stored.value, NextOrden(ImagesOf(rows, nextId, p)));
      rows := rows[nextId := img];
      nextId := nextId + 1;
      r := Ok(img);
    }

    /** `updateProductoImg`: only a supplied position is copied; the row is otherwise kept. */
    method UpdateProductoImg(id: nat, orden: Option<JavaInt>) returns (r: Result<ProductoImg>)
      requires Valid()
      modifies this
      ensures Valid() && products == old(products) && nextId == old(nextId)
      ensures id !in old(rows) ==> r == Err(NotFound("Imagen", id)) && rows == old(rows)
      ensures id in old(rows) ==>
        && r.Ok?
        && r.value.id == id && r.value.idProducto == old(rows)[id].idProducto
        && r.value.urlImagen == old(rows)[id].urlImagen
        && r.value.orden == (if orden.Some? then orden.value else old(rows)[id].orden)
        && rows == old(rows)[id := r.value]
    {
      if id !in rows {
        return Err(NotFound("Imagen", id));
      }
      var img := rows[id];
      if orden.Some? {
        img := img.(orden := orden.value);
      }
      rows := rows[id := img];
      r := Ok(img);
    }

    /**
     * `deleteProductoImg`: the row is removed and its file is deleted; the
     * result is the name of the file the deletion targets.
     */
    method DeleteProductoImg(id: nat) returns (r: Result<string>)
      requires Valid()
      modifies this
      ensures Valid() && products == old(products) && nextId == old(nextId)
      ensures id !in old(rows) ==> r == Err(NotFound("Imagen", id)) && rows == old(rows)
      ensures id in old(rows) ==>
        r == Ok(DeleteTarget(old(rows)[id].urlImagen)) && rows == old(rows) - {id}
    {
      if id !in rows {
        return Err(NotFound("Imagen", id));
      }
      var target := DeleteTarget(rows[id].urlImagen);
      rows := rows - {id};
      r := Ok(target);
    }
  }
}
