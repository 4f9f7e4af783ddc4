/**
 * The backend order-line service: creation as sent, the null-skipping update,
 * and deletion. Unit prices are integer cents.
 */
module ItemsPedidoService {
  import opened Wrappers

  /** A stored order line. */
  datatype ItemPedido = ItemPedido(id: nat, idPedido: nat, idProducto: nat, cantidad: int, precioUnitario: int)

  /** An update request body: a null field is not applied. */
  datatype ItemPedidoPatch = ItemPedidoPatch(idPedido: Option<nat>, idProducto: Option<nat>, cantidad: Option<int>,
                                             precioUnitario: Option<int>)

  /**
   * `actualizarCampos`: each non-null field among order, product, quantity and
   * unit price overwrites the stored one; the id is not touched.
   */
  function ActualizarCampos(destino: ItemPedido, origen: ItemPedidoPatch): (r: ItemPedido)
    ensures r.id == destino.id
    ensures origen.idPedido.Some? ==> r.idPedido == origen.idPedido.value
    ensures origen.idPedido.None? ==> r.idPedido == destino.idPedido
    ensures origen.idProducto.Some? ==> r.idProducto == origen.idProducto.value
    ensures origen.idProducto.None? ==> r.idProducto == destino.idProducto
    ensures origen.cantidad.Some? ==> r.cantidad == origen.cantidad.value
    ensures origen.cantidad.None? ==> r.cantidad == destino.cantidad
    ensures origen.precioUnitario.Some? ==> r.precioUnitario == origen.precioUnitario.value
    ensures origen.precioUnitario.None? ==> r.precioUnitario == destino.precioUnitario
  {
    destino.(idPedido := Patched(origen.idPedido, destino.idPedido),
             idProducto := Patched(origen.idProducto, destino.idProducto),
             cantidad := Patched(origen.cantidad, destino.cantidad),
             precioUnitario := Patched(origen.precioUnitario, destino.precioUnitario))
  }

  /** A request that supplies every field replaces everything but the id. */
  lemma FullRequestReplaces(destino: ItemPedido, origen: ItemPedido)
    ensures ActualizarCampos(destino, ItemPedidoPatch(Some(origen.idPedido), Some(origen.idProducto),
                                                      Some(origen.cantidad), Some(origen.precioUnitario)))
            == origen.(id := destino.id)
  {
  }

  /** The order-line table and the next id it hands out. */
  class ItemsPedidoStore {
    var rows: map<nat, ItemPedido>
    var nextId: nat

    ghost predicate Valid()
      reads this
    {
      forall k :: k in rows ==> k < nextId && rows[k].id == k
    }

    constructor ()
      ensures Valid() && rows == map[] && nextId == 1
    {
      rows := map[];
      nextId := 1;
    }

    /** `createItemPedido`: the line is stored as sent, under the next id. */
    method CreateItemPedido(item: ItemPedido) returns (r: ItemPedido)
      requires Valid()
      modifies this
      ensures Valid()
      ensures r == item.(id := old(nextId))
      ensures rows == old(rows)[old(nextId) := r] && nextId == old(nextId) + 1
    {
      r := item.(id := nextId);
      rows := rows[nextId := r];
      nextId := nextId + 1;
    }

    /** `updateItemPedido`: an unknown id fails; otherwise the non-null fields are applied. */
    method UpdateItemPedido(id: nat, cambios: ItemPedidoPatch) returns (r: Result<ItemPedido>)
      requires Valid()
      modifies this
      ensures Valid() && nextId == old(nextId)
      ensures id !in old(rows) ==> r == Err(NotFound("ItemPedido", id)) && rows == old(rows)
      ensures id in old(rows) ==>
        && r == Ok(ActualizarCampos(old(rows)[id], cambios))
        && rows == old(rows)[id := r.value]
    {
      if id !in rows {
        return Err(NotFound("ItemPedido", id));
      }
      var item := ActualizarCampos(rows[id], cambios);
      rows := rows[id := item];
      r := Ok(item);
    }

    /** `deleteItemPedido`: an unknown id fails; otherwise its row is removed. */
    method DeleteItemPedido(id: nat) returns (r: Result<()>)
      requires Valid()
      modifies this
      ensures Valid() && nextId == old(nextId)
      ensures id !in old(rows) ==> r == Err(NotFound("ItemPedido", id)) && rows == old(rows)
      ensures id in old(rows) ==> r == Ok(()) && rows == old(rows) - {id}
    {
      if id !in rows {
        return Err(NotFound("ItemPedido", id));
      }
      rows := rows - {id};
      r := Ok(());
    }
  }
}
