/**
 * The backend review service: the rating check, creation, the null-skipping
 * update and deletion. Every stored rating stays within 0..5. Instants are
 * integers and the clock is the `now` parameter.
 */
module ResenaService {
  import opened Wrappers

  /** A stored review of a product by a user; the comment may be null. */
  datatype Resena = Resena(id: nat, idProducto: nat, idUsuario: nat, calificacion: int,
                           comentario: Option<string>, creadoEn: int)

  /** An update request body: a null field is not applied. */
  datatype ResenaPatch = ResenaPatch(idProducto: Option<nat>, idUsuario: Option<nat>, calificacion: Option<int>,
                                     comentario: Option<string>)

  const RatingMessage := "La calificación debe estar entre 0 y 5"

  /** `validarCalificacion`: a non-null rating outside 0..5 is refused; null passes. */
  function ValidarCalificacion(calificacion: Option<int>): (r: Option<ServiceError>)
    ensures r.None? <==> calificacion.None? || 0 <= calificacion.value <= 5
    ensures r.Some? ==> r.value == InvalidArgument(RatingMessage)
  {
    if calificacion.Some? && (calificacion.value < 0 || calificacion.value > 5) then
      Some(InvalidArgument(RatingMessage))
    else None
  }

  /**
   * `actualizarCampos`: each non-null field among product, user, rating and
   * comment overwrites the stored one; the id and the instant are not touched.
   */
  function ActualizarCampos(destino: Resena, origen: ResenaPatch): (r: Resena)
    ensures r.id == destino.id && r.creadoEn == destino.creadoEn
    ensures origen.idProducto.Some? ==> r.idProducto == origen.idProducto.value
    ensures origen.idProducto.None? ==> r.idProducto == destino.idProducto
    ensures origen.idUsuario.Some? ==> r.idUsuario == origen.idUsuario.value
    ensures origen.idUsuario.None? ==> r.idUsuario == destino.idUsuario
    ensures origen.calificacion.Some? ==> r.calificacion == origen.calificacion.value
    ensures origen.calificacion.None? ==> r.calificacion == destino.calificacion
    ensures origen.comentario.Some? ==> r.comentario == origen.comentario
    ensures origen.comentario.None? ==> r.comentario == destino.comentario
  {
    destino.(idProducto := Patched(origen.idProducto, destino.idProducto),
             idUsuario := Patched(origen.idUsuario, destino.idUsuario),
             calificacion := Patched(origen.calificacion, destino.calificacion),
             comentario := PatchedOpt(origen.comentario, destino.comentario))
  }

  /** A request that passes the rating check leaves a rating in 0..5 in range. */
  lemma ValidatedUpdateKeepsRange(destino: Resena, origen: ResenaPatch)
    requires 0 <= destino.calificacion <= 5
    requires ValidarCalificacion(origen.calificacion).None?
    ensures 0 <= ActualizarCampos(destino, origen).calificacion <= 5
  {
  }

  predicate InRange(rows: map<nat, Resena>)
  {
    forall k :: k in rows ==> 0 <= rows[k].calificacion <= 5
  }

  /** The review table and the next id it hands out. */
  class ResenaStore {
    var rows: map<nat, Resena>
    var nextId: nat

    /** Besides the ids, every stored rating is within 0..5. */
    ghost predicate Valid()
      reads this
    {
      && (forall k :: k in rows ==> k < nextId && rows[k].id == k)
      && InRange(rows)
    }

    constructor ()
      ensures Valid() && rows == map[] && nextId == 1
    {
      rows := map[];
      nextId := 1;
    }

    /** `createResena`: the rating is checked before anything is stored. */
    method CreateResena(resena: Resena, now: int) returns (r: Result<Resena>)
      requires Valid()
      modifies this
      ensures Valid()
      ensures !(0 <= resena.calificacion <= 5) ==>
        r == Err(InvalidArgument(RatingMessage)) && rows == old(rows) && nextId == old(nextId)
      ensures 0 <= resena.calificacion <= 5 ==>
        && r == Ok(resena.(id := old(nextId), creadoEn := now))
        && rows == old(rows)[old(nextId) := r.value]
        && nextId == old(nextId) + 1
    {
      var check := ValidarCalificacion(Some(resena.calificacion));
      if check.Some? {
        return Err(check.value);
      }
      var stored := resena.(id := nextId, creadoEn := now);
      rows := rows[nextId := stored];
      nextId := nextId + 1;
      r := Ok(stored);
    }

    /**
     * `updateResena`: an unknown id fails; a non-null rating is checked; then
     * the non-null fields are applied.
     */
    method UpdateResena(id: nat, cambios: ResenaPatch) returns (r: Result<Resena>)
      requires Valid()
      modifies this
      ensures Valid() && nextId == old(nextId)
      ensures id !in old(rows) ==> r == Err(NotFound("Resena", id))
      ensures id in old(rows) && cambios.calificacion.Some? && !(0 <= cambios.calificacion.value <= 5) ==>
        r == Err(InvalidArgument(RatingMessage))
      ensures r.Err? ==> rows == old(rows)
      ensures id in old(rows) && (cambios.calificacion.None? || 0 <= cambios.calificacion.value <= 5) ==>
        && r == Ok(ActualizarCampos(old(rows)[id], cambios))
        && rows == old(rows)[id := r.value]
    {
      if id !in rows {
        return Err(NotFound("Resena", id));
      }
      var check := ValidarCalificacion(cambios.calificacion);
      if check.Some? {
        return Err(check.value);
      }
      var resena := ActualizarCampos(rows[id], cambios);
      ValidatedUpdateKeepsRange(rows[id], cambios);
      rows := rows[id := resena];
      r := Ok(resena);
    }

    /** `deleteResena`: an unknown id fails; otherwise its row is removed. */
    method DeleteResena(id: nat) returns (r: Result<()>)
      requires Valid()
      modifies this
      ensures Valid() && nextId == old(nextId)
      ensures id !in old(rows) ==> r == Err(NotFound("Resena", id)) && rows == old(rows)
      ensures id in old(rows) ==> r == Ok(()) && rows == old(rows) - {id}
    {
      if id !in rows {
        return Err(NotFound("Resena", id));
      }
      rows := rows - {id};
      r := Ok(());
    }
  }
}
