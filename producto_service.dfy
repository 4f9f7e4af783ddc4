/**
 * The backend product service: creating a product with a unique SKU, the
 * null-skipping update, and deletion. Prices are integer cents and instants
 * integers; each clock reading is a parameter.
 */
module ProductoService {
  import opened Wrappers

  /** A stored product; the description, the SKU, the category and the brand may be null. */
  datatype Producto = Producto(id: nat, nombre: string, descripcion: Option<string>, precio: int, stock: int,
                               sku: Option<string>, idCategoria: Option<nat>, idMarca: Option<nat>,
                               creadoEn: int, actualizadoEn: int)

  /** An update request body: every field may be null, and a null field is not applied. */
  datatype ProductoPatch = ProductoPatch(nombre: Option<string>, descripcion: Option<string>, precio: Option<int>,
                                         stock: Option<int>, sku: Option<string>, idCategoria: Option<nat>,
                                         idMarca: Option<nat>)

  /**
   * `actualizarCampos`: each non-null field of the request overwrites the
   * stored one; the id and both instants are not touched.
   */
  function ActualizarCampos(destino: Producto, origen: ProductoPatch): (r: Producto)
    ensures r.id == destino.id && r.creadoEn == destino.creadoEn && r.actualizadoEn == destino.actualizadoEn
    ensures origen.nombre.Some? ==> r.nombre == origen.nombre.value
    ensures origen.nombre.None? ==> r.nombre == destino.nombre
    ensures origen.descripcion.Some? ==> r.descripcion == origen.descripcion
    ensures origen.descripcion.None? ==> r.descripcion == destino.descripcion
    ensures origen.precio.Some? ==> r.precio == origen.precio.value
    ensures origen.precio.None? ==> r.precio == destino.precio
    ensures origen.stock.Some? ==> r.stock == origen.stock.value
    ensures origen.stock.None? ==> r.stock == destino.stock
    ensures origen.sku.Some? ==> r.sku == origen.sku
    ensures origen.sku.None? ==> r.sku == destino.sku
    ensures origen.idCategoria.Some? ==> r.idCategoria == origen.idCategoria
    ensures origen.idCategoria.None? ==> r.idCategoria == destino.idCategoria
    ensures origen.idMarca.Some? ==> r.idMarca == origen.idMarca
    ensures origen.idMarca.None? ==> r.idMarca == destino.idMarca
  {
    destino.(nombre := Patched(origen.nombre, destino.nombre),
             descripcion := PatchedOpt(origen.descripcion, destino.descripcion),
             precio := Patched(origen.precio, destino.precio),
             stock := Patched(origen.stock, destino.stock),
             sku := PatchedOpt(origen.sku, destino.sku),
             idCategoria := PatchedOpt(origen.idCategoria, destino.idCategoria),
             idMarca := PatchedOpt(origen.idMarca, destino.idMarca))
  }

  /** Two requests applied in turn: the later one's non-null fields win. */
  function Then(first: ProductoPatch, second: ProductoPatch): ProductoPatch
  {
    ProductoPatch(PatchedOpt(second.nombre, first.nombre), PatchedOpt(second.descripcion, first.descripcion),
                  PatchedOpt(second.precio, first.precio), PatchedOpt(second.stock, first.stock),
                  PatchedOpt(second.sku, first.sku), PatchedOpt(second.idCategoria, first.idCategoria),
                  PatchedOpt(second.idMarca, first.idMarca))
  }

  /** Applying the same request twice is applying it once. */
  lemma ActualizarCamposIdempotent(destino: Producto, origen: ProductoPatch)
    ensures ActualizarCampos(ActualizarCampos(destino, origen), origen) == ActualizarCampos(destino, origen)
  {
  }

  /** Two updates in turn are one update with the later request's fields winning. */
  lemma ActualizarCamposThen(destino: Producto, first: ProductoPatch, second: ProductoPatch)
    ensures ActualizarCampos(ActualizarCampos(destino, first), second) == ActualizarCampos(destino, Then(first, second))
  {
  }

  /** `existsBySku`. */
  predicate SkuTaken(rows: map<nat, Producto>, sku: string)
  {
    exists k :: k in rows && rows[k].sku == Some(sku)
  }

  /** The table's unique constraint on the SKU: no two rows share a non-null SKU. */
  predicate SkusUnique(rows: map<nat, Producto>)
  {
    forall a, b :: a in rows && b in rows && rows[a].sku.Some? && rows[a].sku == rows[b].sku ==> a == b
  }

  /** `validarSkuUnico`: a SKU already stored is refused. */
  function ValidarSkuUnico(rows: map<nat, Producto>, sku: string): (r: Option<ServiceError>)
    ensures r.None? <==> forall k :: k in rows ==> rows[k].sku != Some(sku)
    ensures r.Some? ==> r.value == Duplicate("sku", sku)
  {
    if SkuTaken(rows, sku) then Some(Duplicate("sku", sku)) else None
  }

  /** A SKU nobody holds keeps the SKUs unique wherever it is written. */
  lemma FreshSkuKeepsUnique(rows: map<nat, Producto>, k: nat, p: Producto)
    requires SkusUnique(rows)
    requires p.sku.Some? && (k !in rows || rows[k].sku != p.sku) ==> !SkuTaken(rows, p.sku.value)
    ensures SkusUnique(rows[k := p])
  {
    assert forall b :: b in rows && rows[b].sku.Some? ==> SkuTaken(rows, rows[b].sku.value);
  }

  /** The product table and the next id it hands out. */
  class ProductoStore {
    var rows: map<nat, Producto>
    var nextId: nat

    ghost predicate Valid()
      reads this
    {
      && (forall k :: k in rows ==> k < nextId && rows[k].id == k)
      && SkusUnique(rows)
    }

    constructor ()
      ensures Valid() && rows == map[] && nextId == 1
    {
      rows := map[];
      nextId := 1;
    }

    /**
     * `createProducto`: a non-null SKU must not be stored yet (a null one skips
     * the check); the row gets the next id and the clock readings `created`, `updated`.
     */
    method CreateProducto(producto: Producto, created: int, updated: int) returns (r: Result<Producto>)
      requires Valid()
      modifies this
      ensures Valid()
      ensures producto.sku.Some? && SkuTaken(old(rows), producto.sku.value) ==>
        r == Err(Duplicate("sku", producto.sku.value)) && rows == old(rows) && nextId == old(nextId)
      ensures !(producto.sku.Some? && SkuTaken(old(rows), producto.sku.value)) ==>
        && r == Ok(producto.(id := old(nextId), creadoEn := created, actualizadoEn := updated))
        && rows == old(rows)[old(nextId) := r.value]
        && nextId == old(nextId) + 1
    {
      if producto.sku.Some? {
        var check := ValidarSkuUnico(rows, producto.sku.value);
        if check.Some? {
          return Err(check.value);
        }
      }
      var stored := producto.(id := nextId, creadoEn := created, actualizadoEn := updated);
      FreshSkuKeepsUnique(rows, nextId, stored);
      rows := rows[nextId := stored];
      nextId := nextId + 1;
      r := Ok(stored);
    }

    /**
     * `updateProducto`: an unknown id fails. A non-null SKU is compared with the
     * stored one by calling `equals` on the stored SKU, so a null stored SKU
     * fails; a SKU different from the stored one must not be stored yet. Then
     * the non-null fields are applied and the update instant is `now`.
     */
    method UpdateProducto(id: nat, cambios: ProductoPatch, now: int) returns (r: Result<Producto>)
      requires Valid()
      modifies this
      ensures Valid() && nextId == old(nextId)
      ensures id !in old(rows) ==> r == Err(NotFound("Producto", id))
      ensures id in old(rows) && cambios.sku.Some? && old(rows)[id].sku.None? ==>
        r == Err(NullDereference("sku"))
      ensures id in old(rows) && cambios.sku.Some? && old(rows)[id].sku.Some? && old(rows)[id].sku != cambios.sku
              && SkuTaken(old(rows), cambios.sku.value) ==>
        r == Err(Duplicate("sku", cambios.sku.value))
      ensures (id in old(rows)
               && !(cambios.sku.Some?
                    && (old(rows)[id].sku.None? || (old(rows)[id].sku != cambios.sku && SkuTaken(old(rows), cambios.sku.value)))))
        ==> r.Ok?
      ensures r.Err? ==> rows == old(rows)
      ensures r.Ok? ==>
        && id in old(rows)
        && r.value == ActualizarCampos(old(rows)[id], cambios).(actualizadoEn := now)
        && rows == old(rows)[id := r.value]
    {
      if id !in rows {
        return Err(NotFound("Producto", id));
      }
      var producto := rows[id];
      if cambios.sku.Some? {
        if producto.sku.None? {
          return Err(NullDereference("sku"));
        }
        if producto.sku != cambios.sku {
          var check := ValidarSkuUnico(rows, cambios.sku.value);
          if check.Some? {
            return Err(check.value);
          }
        }
      }
      producto := ActualizarCampos(producto, cambios).(actualizadoEn := now);
      FreshSkuKeepsUnique(rows, id, producto);
      rows := rows[id := producto];
      r := Ok(producto);
    }

    /** `deleteProducto`: an unknown id fails; otherwise its row is removed. */
    method DeleteProducto(id: nat) returns (r: Result<()>)
      requires Valid()
      modifies this
      ensures Valid() && nextId == old(nextId)
      ensures id !in old(rows) ==> r == Err(NotFound("Producto", id)) && rows == old(rows)
      ensures id in old(rows) ==> r == Ok(()) && rows == old(rows) - {id}
    {
      if id !in rows {
        return Err(NotFound("Producto", id));
      }
      rows := rows - {id};
      r := Ok(());
    }
  }
}
