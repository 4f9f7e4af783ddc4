/**
 * The backend brand service: creation under a name nobody else holds, the
 * null-skipping update, and deletion.
 */
module MarcaService {
  import opened Wrappers

  /** A stored brand. */
  datatype Marca = Marca(id: nat, nombre: string)

  /** An update request body: a null field is not applied. */
  datatype MarcaPatch = MarcaPatch(nombre: Option<string>)

  /** `actualizarCampos`: a non-null name overwrites the stored one. */
  function ActualizarCampos(destino: Marca, origen: MarcaPatch): (r: Marca)
    ensures r.id == destino.id
    ensures origen.nombre.Some? ==> r.nombre == origen.nombre.value
    ensures origen.nombre.None? ==> r.nombre == destino.nombre
  {
    destino.(nombre := Patched(origen.nombre, destino.nombre))
  }

  /** `existsByNombre`. */
  predicate NameTaken(rows: map<nat, Marca>, nombre: string)
  {
    exists k :: k in rows && rows[k].nombre == nombre
  }

  /** No two brands share a name. */
  predicate NamesUnique(rows: map<nat, Marca>)
  {
    forall a, b :: a in rows && b in rows && rows[a].nombre == rows[b].nombre ==> a == b
  }

  /** `validarNombreUnico`: a name already stored is refused. */
  function ValidarNombreUnico(rows: map<nat, Marca>, nombre: string): (r: Option<ServiceError>)
    ensures r.None? <==> forall k :: k in rows ==> rows[k].nombre != nombre
    ensures r.Some? ==> r.value == Duplicate("nombre", nombre)
  {
    if NameTaken(rows, nombre) then Some(Duplicate("nombre", nombre)) else None
  }

  /** Writing a row whose name is its old one, or one nobody holds, keeps the names unique. */
  lemma FreshNameKeepsUnique(rows: map<nat, Marca>, k: nat, c: Marca)
    requires NamesUnique(rows)
    requires k !in rows || rows[k].nombre != c.nombre ==> !NameTaken(rows, c.nombre)
    ensures NamesUnique(rows[k := c])
  {
    assert forall b :: b in rows ==> NameTaken(rows, rows[b].nombre);
  }

  /** The brand table and the next id it hands out. */
  class MarcaStore {
    var rows: map<nat, Marca>
    var nextId: nat

    ghost predicate Valid()
      reads this
    {
      && (forall k :: k in rows ==> k < nextId && rows[k].id == k)
      && NamesUnique(rows)
    }

    constructor ()
      ensures Valid() && rows == map[] && nextId == 1
    {
      rows := map[];
      nextId := 1;
    }

    /** `createMarca`: the name must not be stored yet. */
    method CreateMarca(marca: Marca) returns (r: Result<Marca>)
      requires Valid()
      modifies this
      ensures Valid()
      ensures NameTaken(old(rows), marca.nombre) ==>
        r == Err(Duplicate("nombre", marca.nombre)) && rows == old(rows) && nextId == old(nextId)
      ensures !NameTaken(old(rows), marca.nombre) ==>
        && r == Ok(marca.(id := old(nextId)))
        && rows == old(rows)[old(nextId) := r.value]
        && nextId == old(nextId) + 1
    {
      var check := ValidarNombreUnico(rows, marca.nombre);
      if check.Some? {
        return Err(check.value);
      }
      var stored := marca.(id := nextId);
      FreshNameKeepsUnique(rows, nextId, stored);
      rows := rows[nextId := stored];
      nextId := nextId + 1;
      r := Ok(stored);
    }

    /**
     * `updateMarca`: an unknown id fails; a non-null name different from
     * the stored one must not be stored yet; then the non-null fields are applied.
     */
    method UpdateMarca(id: nat, cambios: MarcaPatch) returns (r: Result<Marca>)
      requires Valid()
      modifies this
      ensures Valid() && nextId == old(nextId)
      ensures id !in old(rows) ==> r == Err(NotFound("Marca", id))
      ensures id in old(rows) && cambios.nombre.Some? && old(rows)[id].nombre != cambios.nombre.value
              && NameTaken(old(rows), cambios.nombre.value) ==>
        r == Err(Duplicate("nombre", cambios.nombre.value))
      ensures (id in old(rows)
               && !(cambios.nombre.Some? && old(rows)[id].nombre != cambios.nombre.value
                    && NameTaken(old(rows), cambios.nombre.value)))
        ==> r.Ok?
      ensures r.Err? ==> rows == old(rows)
      ensures r.Ok? ==>
        && id in old(rows)
        && r.value == ActualizarCampos(old(rows)[id], cambios)
        && rows == old(rows)[id := r.value]
    {
      if id !in rows {
        return Err(NotFound("Marca", id));
      }
      if cambios.nombre.Some? && rows[id].nombre != cambios.nombre.value {
        var check := ValidarNombreUnico(rows, cambios.nombre.value);
        if check.Some? {
          return Err(check.value);
        }
      }
      var marca := ActualizarCampos(rows[id], cambios);
      FreshNameKeepsUnique(rows, id, marca);
      rows := rows[id := marca];
      r := Ok(marca);
    }

    /** `deleteMarca`: an unknown id fails; otherwise its row is removed. */
    method DeleteMarca(id: nat) returns (r: Result<()>)
      requires Valid()
      modifies this
      ensures Valid() && nextId == old(nextId)
      ensures id !in old(rows) ==> r == Err(NotFound("Marca", id)) && rows == old(rows)
      ensures id in old(rows) ==> r == Ok(()) && rows == old(rows) - {id}
    {
      if id !in rows {
        return Err(NotFound("Marca", id));
      }
      rows := rows - {id};
      r := Ok(());
    }
  }
}
