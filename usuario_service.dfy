/**
 * The backend user service: creating a user with an e-mail address nobody
 * else holds, the null-skipping update, deletion and the e-mail lookup.
 * Instants are integers and each clock reading is a parameter.
 */
module UsuarioService {
  import opened Wrappers
  import opened Repository

  /** A stored user; the columns the table allows to be null are options. */
  datatype Usuario = Usuario(id: nat, nombre: string, apellido: Option<string>, correoElectronico: string,
                             hashContrasena: string, numeroTelefono: Option<string>, direccion: Option<string>,
                             ciudad: Option<string>, pais: Option<string>, codigoPostal: Option<string>,
                             creadoEn: int, actualizadoEn: int)

  /** An update request body: a null field is not applied. */
  datatype UsuarioPatch = UsuarioPatch(nombre: Option<string>, apellido: Option<string>,
                                       correoElectronico: Option<string>, hashContrasena: Option<string>,
                                       numeroTelefono: Option<string>, direccion: Option<string>,
                                       ciudad: Option<string>, pais: Option<string>, codigoPostal: Option<string>)

  /**
   * `actualizarCampos`: each of the nine non-null fields of the request
   * overwrites the stored one; the id and both instants are not touched.
   */
  function ActualizarCampos(destino: Usuario, origen: UsuarioPatch): (r: Usuario)
    ensures r.id == destino.id && r.creadoEn == destino.creadoEn && r.actualizadoEn == destino.actualizadoEn
    ensures origen.nombre.Some? ==> r.nombre == origen.nombre.value
    ensures origen.nombre.None? ==> r.nombre == destino.nombre
    ensures origen.apellido.Some? ==> r.apellido == origen.apellido
    ensures origen.apellido.None? ==> r.apellido == destino.apellido
    ensures origen.correoElectronico.Some? ==> r.correoElectronico == origen.correoElectronico.value
    ensures origen.correoElectronico.None? ==> r.correoElectronico == destino.correoElectronico
    ensures origen.hashContrasena.Some? ==> r.hashContrasena == origen.hashContrasena.value
    ensures origen.hashContrasena.None? ==> r.hashContrasena == destino.hashContrasena
    ensures origen.numeroTelefono.Some? ==> r.numeroTelefono == origen.numeroTelefono
    ensures origen.numeroTelefono.None? ==> r.numeroTelefono == destino.numeroTelefono
    ensures origen.direccion.Some? ==> r.direccion == origen.direccion
    ensures origen.direccion.None? ==> r.direccion == destino.direccion
    ensures origen.ciudad.Some? ==> r.ciudad == origen.ciudad
    ensures origen.ciudad.None? ==> r.ciudad == destino.ciudad
    ensures origen.pais.Some? ==> r.pais == origen.pais
    ensures origen.pais.None? ==> r.pais == destino.pais
    ensures origen.codigoPostal.Some? ==> r.codigoPostal == origen.codigoPostal
    ensures origen.codigoPostal.None? ==> r.codigoPostal == destino.codigoPostal
  {
    destino.(nombre := Patched(origen.nombre, destino.nombre),
             apellido := PatchedOpt(origen.apellido, destino.apellido),
             correoElectronico := Patched(origen.correoElectronico, destino.correoElectronico),
             hashContrasena := Patched(origen.hashContrasena, destino.hashContrasena),
             numeroTelefono := PatchedOpt(origen.numeroTelefono, destino.numeroTelefono),
             direccion := PatchedOpt(origen.direccion, destino.direccion),
             ciudad := PatchedOpt(origen.ciudad, destino.ciudad),
             pais := PatchedOpt(origen.pais, destino.pais),
             codigoPostal := PatchedOpt(origen.codigoPostal, destino.codigoPostal))
  }

  /** Applying the same request twice is applying it once. */
  lemma ActualizarCamposIdempotent(destino: Usuario, origen: UsuarioPatch)
    ensures ActualizarCampos(ActualizarCampos(destino, origen), origen) == ActualizarCampos(destino, origen)
  {
  }

  /** `existsByCorreoElectronico`. */
  predicate EmailTaken(rows: map<nat, Usuario>, correo: string)
  {
    exists k :: k in rows && rows[k].correoElectronico == correo
  }

  /** No two users share an e-mail address. */
  predicate EmailsUnique(rows: map<nat, Usuario>)
  {
    forall a, b :: a in rows && b in rows && rows[a].correoElectronico == rows[b].correoElectronico ==> a == b
  }

  /** `validarCorreoUnico`: an address already stored is refused. */
  function ValidarCorreoUnico(rows: map<nat, Usuario>, correo: string): (r: Option<ServiceError>)
    ensures r.None? <==> forall k :: k in rows ==> rows[k].correoElectronico != correo
    ensures r.Some? ==> r.value == Duplicate("correoElectronico", correo)
  {
    if EmailTaken(rows, correo) then Some(Duplicate("correoElectronico", correo)) else None
  }

  /** Writing a row whose address is its old one, or one nobody holds, keeps the addresses unique. */
  lemma FreshEmailKeepsUnique(rows: map<nat, Usuario>, k: nat, u: Usuario)
    requires EmailsUnique(rows)
    requires k !in rows || rows[k].correoElectronico != u.correoElectronico ==> !EmailTaken(rows, u.correoElectronico)
    ensures EmailsUnique(rows[k := u])
  {
    assert forall b :: b in rows ==> EmailTaken(rows, rows[b].correoElectronico);
  }

  /** The user table and the next id it hands out. */
  class UsuarioStore {
    var rows: map<nat, Usuario>
    var nextId: nat

    ghost predicate Valid()
      reads this
    {
      && (forall k :: k in rows ==> k < nextId && rows[k].id == k)
      && EmailsUnique(rows)
    }

    constructor ()
      ensures Valid() && rows == map[] && nextId == 1
    {
      rows := map[];
      nextId := 1;
    }

    /**
     * `existsByEmail`: some stored user has the address, which is to say that
     * the address appears in the listing of all users.
     */
    function ExistsByEmail(correo: string): (b: bool)
      requires Valid()
      reads this
      ensures b <==> exists k :: k in rows && rows[k].correoElectronico == correo
      ensures b <==> exists i :: 0 <= i < |Below(rows, nextId)| && Below(rows, nextId)[i].correoElectronico == correo
    {
      var listed := Below(rows, nextId);
      if EmailTaken(rows, correo) then
        var k :| k in rows && rows[k].correoElectronico == correo;
        BelowContains(rows, nextId, k);
        true
      else
        assert forall i :: 0 <= i < |listed| ==> listed[i] in rows.Values;
        false
    }

    /**
     * `createUsuario`: the address must not be stored yet; the row gets the
     * next id and the two clock readings `created` and `updated`.
     */
    method CreateUsuario(usuario: Usuario, created: int, updated: int) returns (r: Result<Usuario>)
      requires Valid()
      modifies this
      ensures Valid()
      ensures EmailTaken(old(rows), usuario.correoElectronico) ==>
        r == Err(Duplicate("correoElectronico", usuario.correoElectronico))
        && rows == old(rows) && nextId == old(nextId)
      ensures !EmailTaken(old(rows), usuario.correoElectronico) ==>
        && r == Ok(usuario.(id := old(nextId), creadoEn := created, actualizadoEn := updated))
        && rows == old(rows)[old(nextId) := r.value]
        && nextId == old(nextId) + 1
    {
      var check := ValidarCorreoUnico(rows, usuario.correoElectronico);
      if check.Some? {
        return Err(check.value);
      }
      var stored := usuario.(id := nextId, creadoEn := created, actualizadoEn := updated);
      FreshEmailKeepsUnique(rows, nextId, stored);
      rows := rows[nextId := stored];
      nextId := nextId + 1;
      r := Ok(stored);
    }

    /**
     * `updateUsuario`: an unknown id fails; a non-null address different from
     * the stored one must not be stored yet. Then the non-null fields are
     * applied and the update instant is `now`.
     */
    method UpdateUsuario(id: nat, cambios: UsuarioPatch, now: int) returns (r: Result<Usuario>)
      requires Valid()
      modifies this
      ensures Valid() && nextId == old(nextId)
      ensures id !in old(rows) ==> r == Err(NotFound("Usuario", id))
      ensures id in old(rows) && cambios.correoElectronico.Some?
              && old(rows)[id].correoElectronico != cambios.correoElectronico.value
              && EmailTaken(old(rows), cambios.correoElectronico.value) ==>
        r == Err(Duplicate("correoElectronico", cambios.correoElectronico.value))
      ensures (id in old(rows)
               && !(cambios.correoElectronico.Some?
                    && old(rows)[id].correoElectronico != cambios.correoElectronico.value
                    && EmailTaken(old(rows), cambios.correoElectronico.value)))
        ==> r.Ok?
      ensures r.Err? ==> rows == old(rows)
      ensures r.Ok? ==>
        && id in old(rows)
        && r.value == ActualizarCampos(old(rows)[id], cambios).(actualizadoEn := now)
        && rows == old(rows)[id := r.value]
    {
      if id !in rows {
        return Err(NotFound("Usuario", id));
      }
      var usuario := rows[id];
      if cambios.correoElectronico.Some? && usuario.correoElectronico != cambios.correoElectronico.value {
        var check := ValidarCorreoUnico(rows, cambios.correoElectronico.value);
        if check.Some? {
          return Err(check.value);
        }
      }
      usuario := ActualizarCampos(usuario, cambios).(actualizadoEn := now);
      FreshEmailKeepsUnique(rows, id, usuario);
      rows := rows[id := usuario];
      r := Ok(usuario);
    }

    /** `deleteUsuario`: an unknown id fails; otherwise its row is removed. */
    method DeleteUsuario(id: nat) returns (r: Result<()>)
      requires Valid()
      modifies this
      ensures Valid() && nextId == old(nextId)
      ensures id !in old(rows) ==> r == Err(NotFound("Usuario", id)) && rows == old(rows)
      ensures id in old(rows) ==> r == Ok(()) && rows == old(rows) - {id}
    {
      if id !in rows {
        return Err(NotFound("Usuario", id));
      }
      rows := rows - {id};
      r := Ok(());
    }
  }
}
