/**
 * The backend order service: creation with the order date and the default
 * status, the null-skipping update, and deletion. Amounts are integer cents,
 * instants integers, and the clock is the `now` parameter.
 */
module PedidoService {
  import opened Wrappers

  /** A stored order; the status is null only in a request, never once stored. */
  datatype Pedido = Pedido(id: nat, idUsuario: nat, fechaPedido: int, montoTotal: int, estado: Option<string>,
                           direccionEnvio: Option<string>, ciudadEnvio: Option<string>, paisEnvio: Option<string>,
                           codigoPostalEnvio: Option<string>)

  /** An update request body: a null field is not applied; user and date are not among its fields. */
  datatype PedidoPatch = PedidoPatch(montoTotal: Option<int>, estado: Option<string>, direccionEnvio: Option<string>,
                                     ciudadEnvio: Option<string>, paisEnvio: Option<string>,
                                     codigoPostalEnvio: Option<string>)

  const DefaultEstado := "pendiente"

  /**
   * What `createPedido` stores: the order date is `now`, and a null status
   * becomes "pendiente" while a supplied one is kept.
   */
  function NuevoPedido(pedido: Pedido, id: nat, now: int): (r: Pedido)
    ensures r.id == id && r.fechaPedido == now
    ensures pedido.estado.None? ==> r.estado == Some(DefaultEstado)
    ensures pedido.estado.Some? ==> r.estado == pedido.estado
    ensures r.idUsuario == pedido.idUsuario && r.montoTotal == pedido.montoTotal
    ensures r.direccionEnvio == pedido.direccionEnvio && r.ciudadEnvio == pedido.ciudadEnvio
    ensures r.paisEnvio == pedido.paisEnvio && r.codigoPostalEnvio == pedido.codigoPostalEnvio
  {
    var dated := pedido.(id := id, fechaPedido := now);
    if dated.estado.None? then dated.(estado := Some(DefaultEstado)) else dated
  }

  /**
   * `actualizarCampos`: each of the six non-null fields of the request
   * overwrites the stored one; id, user and order date never change.
   */
  function ActualizarCampos(destino: Pedido, origen: PedidoPatch): (r: Pedido)
    ensures r.id == destino.id && r.idUsuario == destino.idUsuario && r.fechaPedido == destino.fechaPedido
    ensures origen.montoTotal.Some? ==> r.montoTotal == origen.montoTotal.value
    ensures origen.montoTotal.None? ==> r.montoTotal == destino.montoTotal
    ensures origen.estado.Some? ==> r.estado == origen.estado
    ensures origen.estado.None? ==> r.estado == destino.estado
    ensures origen.direccionEnvio.Some? ==> r.direccionEnvio == origen.direccionEnvio
    ensures origen.direccionEnvio.None? ==> r.direccionEnvio == destino.direccionEnvio
    ensures origen.ciudadEnvio.Some? ==> r.ciudadEnvio == origen.ciudadEnvio
    ensures origen.ciudadEnvio.None? ==> r.ciudadEnvio == destino.ciudadEnvio
    ensures origen.paisEnvio.Some? ==> r.paisEnvio == origen.paisEnvio
    ensures origen.paisEnvio.None? ==> r.paisEnvio == destino.paisEnvio
    ensures origen.codigoPostalEnvio.Some? ==> r.codigoPostalEnvio == origen.codigoPostalEnvio
    ensures origen.codigoPostalEnvio.None? ==> r.codigoPostalEnvio == destino.codigoPostalEnvio
  {
    destino.(montoTotal := Patched(origen.montoTotal, destino.montoTotal),
             estado := PatchedOpt(origen.estado, destino.estado),
             direccionEnvio := PatchedOpt(origen.direccionEnvio, destino.direccionEnvio),
             ciudadEnvio := PatchedOpt(origen.ciudadEnvio, destino.ciudadEnvio),
             paisEnvio := PatchedOpt(origen.paisEnvio, destino.paisEnvio),
             codigoPostalEnvio := PatchedOpt(origen.codigoPostalEnvio, destino.codigoPostalEnvio))
  }

  /** A status, once set, is never cleared by an update. */
  lemma UpdateKeepsEstado(destino: Pedido, origen: PedidoPatch)
    requires destino.estado.Some?
    ensures ActualizarCampos(destino, origen).estado.Some?
  {
  }

  predicate AllHaveEstado(rows: map<nat, Pedido>)
  {
    forall k :: k in rows ==> rows[k].estado.Some?
  }

  /** The order table and the next id it hands out. */
  class PedidoStore {
    var rows: map<nat, Pedido>
    var nextId: nat

    /** Besides the ids, every stored order has a status. */
    ghost predicate Valid()
      reads this
    {
      && (forall k :: k in rows ==> k < nextId && rows[k].id == k)
      && AllHaveEstado(rows)
    }

    constructor ()
      ensures Valid() && rows == map[] && nextId == 1
    {
      rows := map[];
      nextId := 1;
    }

    /** `createPedido`: the order is stored under the next id as `NuevoPedido` describes. */
    method CreatePedido(pedido: Pedido, now: int) returns (r: Pedido)
      requires Valid()
      modifies this
      ensures Valid()
      ensures r == NuevoPedido(pedido, old(nextId), now)
      ensures rows == old(rows)[old(nextId) := r] && nextId == old(nextId) + 1
    {
      r := pedido.(id := nextId, fechaPedido := now);
      if r.estado.None? {
        r := r.(estado := Some(DefaultEstado));
      }
      rows := rows[nextId := r];
      nextId := nextId + 1;
    }

    /** `updatePedido`: an unknown id fails; otherwise the non-null fields are applied. */
    method UpdatePedido(id: nat, cambios: PedidoPatch) returns (r: Result<Pedido>)
      requires Valid()
      modifies this
      ensures Valid() && nextId == old(nextId)
      ensures id !in old(rows) ==> r == Err(NotFound("Pedido", id)) && rows == old(rows)
      ensures id in old(rows) ==>
        && r == Ok(ActualizarCampos(old(rows)[id], cambios))
        && rows == old(rows)[id := r.value]
    {
      if id !in rows {
        return Err(NotFound("Pedido", id));
      }
      var pedido := ActualizarCampos(rows[id], cambios);
      rows := rows[id := pedido];
      r := Ok(pedido);
    }

    /** `deletePedido`: an unknown id fails; otherwise its row is removed. */
    method DeletePedido(id: nat) returns (r: Result<()>)
      requires Valid()
      modifies this
      ensures Valid() && nextId == old(nextId)
      ensures id !in old(rows) ==> r == Err(NotFound("Pedido", id)) && rows == old(rows)
      ensures id in old(rows) ==> r == Ok(()) && rows == old(rows) - {id}
    {
      if id !in rows {
        return Err(NotFound("Pedido", id));
      }
      rows := rows - {id};
      r := Ok(());
    }
  }
}
