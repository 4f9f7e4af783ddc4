/**
 * The backend category service: creation under a name nobody else holds, the
 * null-skipping update, and deletion.
 */
module CategoriaService {
  import opened Wrappers

  /** A stored category; the description may be null. */
  datatype Categoria = Categoria(id: nat, nombre: string, descripcion: Option<string>)

  /** An update request body: a null field is not applied. */
  datatype CategoriaPatch = CategoriaPatch(nombre: Option<string>, descripcion: Option<string>)

  /** `actualizarCampos`: a non-null name or description overwrites the stored one. */
  function ActualizarCampos(destino: Categoria, origen: CategoriaPatch): (r: Categoria)
    ensures r.id == destino.id
    ensures origen.nombre.Some? ==> r.nombre == origen.nombre.value
    ensures origen.nombre.None? ==> r.nombre == destino.nombre
    ensures origen.descripcion.Some? ==> r.descripcion == origen.descripcion
    ensures origen.descripcion.None? ==> r.descripcion == destino.descripcion
  {
    destino.(nombre := Patched(origen.nombre, destino.nombre),
             descripcion := PatchedOpt(origen.descripcion, destino.descripcion))
  }

  /** `existsByNombre`. */
  predicate NameTaken(rows: map<nat, Categoria>, nombre: string)
  {
    exists k :: k in rows && rows[k].nombre == nombre
  }

  /** No two categories share a name. */
  predicate NamesUnique(rows: map<nat, Categoria>)
  {
    forall a, b :: a in rows && b in rows && rows[a].nombre == rows[b].nombre ==> a == b
  }

  /** `validarNombreUnico`: a name already stored is refused. */
  function ValidarNombreUnico(rows: map<nat, Categoria>, nombre: string): (r: Option<ServiceError>)
    ensures r.None? <==> forall k :: k in rows ==> rows[k].nombre != nombre
    ensures r.Some? ==> r.value == Duplicate("nombre", nombre)
  {
    if NameTaken(rows, nombre) then Some(Duplicate("nombre", nombre)) else None
  }

  /** Writing a row whose name is its old one, or one nobody holds, keeps the names unique. */
  lemma FreshNameKeepsUnique(rows: map<nat, Categoria>, k: nat, c: Categoria)
    requires NamesUnique(rows)
    requires k !in rows || rows[k].nombre != c.nombre ==> !NameTaken(rows, c.nombre)
    ensures NamesUnique(rows[k := c])
  {
    assert forall b :: b in rows ==> NameTaken(rows, rows[b].nombre);
  }

  /** The category table and the next id it hands out. */
  class CategoriaStore {
    var rows: map<nat, Categoria>
    var nextId: nat

    ghost predicate Valid()
      reads this
    {
      && (forall k :: k in rows ==> k < nextId && rows[k].id == k)
      && NamesUnique(rows)
    }

    constructor ()
      ensures Valid() && rows == map[] && nextId == 1
    {
      rows := map[];
      nextId := 1;
    }

    /** `createCategoria`: the name must not be stored yet. */
    method CreateCategoria(categoria: Categoria) returns (r: Result<Categoria>)
      requires Valid()
      modifies this
      ensures Valid()
      ensures NameTaken(old(rows), categoria.nombre) ==>
        r == Err(Duplicate("nombre", categoria.nombre)) && rows == old(rows) && nextId == old(nextId)
      ensures !NameTaken(old(rows), categoria.nombre) ==>
        && r == Ok(categoria.(id := old(nextId)))
        && rows == old(rows)[old(nextId) := r.value]
        && nextId == old(nextId) + 1
    {
      var check := ValidarNombreUnico(rows, categoria.nombre);
      if check.Some? {
        return Err(check.value);
      }
      var stored := categoria.(id := nextId);
      FreshNameKeepsUnique(rows, nextId, stored);
      rows := rows[nextId := stored];
      nextId := nextId + 1;
      r := Ok(stored);
    }

    /**
     * `updateCategoria`: an unknown id fails; a non-null name different from
     * the stored one must not be stored yet; then the non-null fields are applied.
     */
    method UpdateCategoria(id: nat, cambios: CategoriaPatch) returns (r: Result<Categoria>)
      requires Valid()
      modifies this
      ensures Valid() && nextId == old(nextId)
      ensures id !in old(rows) ==> r == Err(NotFound("Categoria", id))
      ensures id in old(rows) && cambios.nombre.Some? && old(rows)[id].nombre != cambios.nombre.value
              && NameTaken(old(rows), cambios.nombre.value) ==>
        r == Err(Duplicate("nombre", cambios.nombre.value))
      ensures (id in old(rows)
               && !(cambios.nombre.Some? && old(rows)[id].nombre != cambios.nombre.value
                    && NameTaken(old(rows), cambios.nombre.value)))
        ==> r.Ok?
      ensures r.Err? ==> rows == old(rows)
      ensures r.Ok? ==>
        && id in old(rows)
        && r.value == ActualizarCampos(old(rows)[id], cambios)
        && rows == old(rows)[id := r.value]
    {
      if id !in rows {
        return Err(NotFound("Categoria", id));
      }
      if cambios.nombre.Some? && rows[id].nombre != cambios.nombre.value {
        var check := ValidarNombreUnico(rows, cambios.nombre.value);
        if check.Some? {
          return Err(check.value);
        }
      }
      var categoria := ActualizarCampos(rows[id], cambios);
      FreshNameKeepsUnique(rows, id, categoria);
      rows := rows[id := categoria];
      r := Ok(categoria);
    }

    /** `deleteCategoria`: an unknown id fails; otherwise its row is removed. */
    method DeleteCategoria(id: nat) returns (r: Result<()>)
      requires Valid()
      modifies this
      ensures Valid() && nextId == old(nextId)
      ensures id !in old(rows) ==> r == Err(NotFound("Categoria", id)) && rows == old(rows)
      ensures id in old(rows) ==> r == Ok(()) && rows == old(rows) - {id}
    {
      if id !in rows {
        return Err(NotFound("Categoria", id));
      }
      rows := rows - {id};
      r := Ok(());
    }
  }
}
