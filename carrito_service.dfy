/**
 * The backend cart service: creation stamped with the clock, the update of
 * the owning user, and deletion. Instants are integers and the clock is the
 * `now` parameter.
 */
module CarritoService {
  import opened Wrappers

  /** A stored cart; its user may be null. */
  datatype Carrito = Carrito(id: nat, idUsuario: Option<nat>, creadoEn: int)

  /** The cart table and the next id it hands out. */
  class CarritoStore {
    var rows: map<nat, Carrito>
    var nextId: nat

    ghost predicate Valid()
      reads this
    {
      forall k :: k in rows ==> k < nextId && rows[k].id == k
    }

    constructor ()
      ensures Valid() && rows == map[] && nextId == 1
    {
      rows := map[];
      nextId := 1;
    }

    /** `createCarrito`: the cart is stored under the next id with `now` as its creation instant. */
    method CreateCarrito(carrito: Carrito, now: int) returns (r: Carrito)
      requires Valid()
      modifies this
      ensures Valid()
      ensures r == Carrito(old(nextId), carrito.idUsuario, now)
      ensures rows == old(rows)[old(nextId) := r] && nextId == old(nextId) + 1
    {
      r := carrito.(id := nextId, creadoEn := now);
      rows := rows[nextId := r];
      nextId := nextId + 1;
    }

    /**
     * `updateCarrito`: an unknown id fails; a non-null user replaces the stored
     * one; id and creation instant never change.
     */
    method UpdateCarrito(id: nat, idUsuario: Option<nat>) returns (r: Result<Carrito>)
      requires Valid()
      modifies this
      ensures Valid() && nextId == old(nextId)
      ensures id !in old(rows) ==> r == Err(NotFound("Carrito", id)) && rows == old(rows)
      ensures id in old(rows) ==>
        && r.Ok?
        && r.value.id == id && r.value.creadoEn == old(rows)[id].creadoEn
        && r.value.idUsuario == (if idUsuario.Some? then idUsuario else old(rows)[id].idUsuario)
        && rows == old(rows)[id := r.value]
    {
      if id !in rows {
        return Err(NotFound("Carrito", id));
      }
      var carrito := rows[id];
      if idUsuario.Some? {
        carrito := carrito.(idUsuario := idUsuario);
      }
      rows := rows[id := carrito];
      r := Ok(carrito);
    }

    /** `deleteCarrito`: an unknown id fails; otherwise its row is removed. */
    method DeleteCarrito(id: nat) returns (r: Result<()>)
      requires Valid()
      modifies this
      ensures Valid() && nextId == old(nextId)
      ensures id !in old(rows) ==> r == Err(NotFound("Carrito", id)) && rows == old(rows)
      ensures id in old(rows) ==> r == Ok(()) && rows == old(rows) - {id}
    {
      if id !in rows {
        return Err(NotFound("Carrito", id));
      }
      rows := rows - {id};
      r := Ok(());
    }
  }
}
