/** The renglón routes (`renglones.routes.js`): the listing with each renglón's count of
    active employees, creating and editing a renglón, the delete that is refused while any
    employee still references it, and the active employees of one renglón. */
module RenglonRoutes {
  import opened Prelude
  import opened Text
  import opened Numbers
  import opened Collections
  import opened Schema

  const Obligatorios := "C\U{00F3}digo y nombre son obligatorios"
  const Actualizado := "Rengl\U{00F3}n actualizado"
  const ErrorEditar := "Error al editar rengl\U{00F3}n"
  const TieneEmpleados :=
    "No se puede eliminar el rengl\U{00F3}n porque tiene empleados asignados. " +
    "Primero reasigna o da de baja esos empleados."
  const Eliminado := "Rengl\U{00F3}n eliminado definitivamente."
  const ErrorEliminar := "Error al eliminar rengl\U{00F3}n"
  const ErrorEmpleados := "Error al obtener empleados"

  // ---------------------------------------------------------------------------------
  // The `:id` parameter
  // ---------------------------------------------------------------------------------

  /** The route binds the raw `:id` text as an `Int` parameter, which the driver converts
      with `Number(...)`: a text that is no number makes the query fail. */
  function ParamId(idText: string): Option<real> {
    ToNumberStr(idText)
  }

  /** The id the page writes into the path reaches the query unchanged. */
  lemma ParamIdOfNat(n: nat)
    ensures ParamId(NatToString(n)) == Some(n as real)
  {
    NumberOfNatToString(n);
  }

  /** `e.id_renglon = @id`: a NULL column matches nothing. */
  predicate RefiereA(e: Empleado, x: real) {
    e.idRenglon.Some? && e.idRenglon.value as real == x
  }

  predicate EnServicio(e: Empleado) {
    e.estado == Some(EstadoActivo)
  }

  // ---------------------------------------------------------------------------------
  // GET /
  // ---------------------------------------------------------------------------------

  /** `COUNT(e.id_empleado)` of the `LEFT JOIN` on employees of renglón `id` whose estado
      is ACTIVO. */
  function Asignados(es: seq<Empleado>, id: int): (n: nat)
    ensures n <= |es|
    ensures n == 0 <==> forall i :: 0 <= i < |es| ==> !(RefiereA(es[i], id as real) && EnServicio(es[i]))
  {
    if es == [] then 0
    else
      var p := es[..|es| - 1];
      assert forall i :: 0 <= i < |p| ==> p[i] == es[i];
      Asignados(p, id) + (if RefiereA(es[|es| - 1], id as real) && EnServicio(es[|es| - 1]) then 1 else 0)
  }

  /** A row of `GET /`. */
  datatype RenglonFila = RenglonFila(
    id: int,
    codigo: string,
    nombre: string,
    descripcion: Option<string>,
    activo: bool,
    empleadosAsignados: nat)

  function FilaOf(r: Renglon, es: seq<Empleado>): RenglonFila {
    RenglonFila(r.id, r.codigo, r.nombre, r.descripcion, r.activo, Asignados(es, r.id))
  }

  /** The rows of `WHERE r.activo = 1`, one per renglón (the `GROUP BY` is on its key). */
  function Filas(rs: seq<Renglon>, es: seq<Empleado>): (r: seq<RenglonFila>)
    ensures |r| <= |rs|
  {
    if rs == [] then []
    else Filas(rs[..|rs| - 1], es) + (if rs[|rs| - 1].activo then [FilaOf(rs[|rs| - 1], es)] else [])
  }

  lemma {:induction false} FilasMembers(rs: seq<Renglon>, es: seq<Empleado>, w: RenglonFila)
    ensures w in Filas(rs, es) <==> exists i :: 0 <= i < |rs| && rs[i].activo && w == FilaOf(rs[i], es)
  {
    if rs != [] {
      var p := rs[..|rs| - 1];
      FilasMembers(p, es, w);
      assert forall i :: 0 <= i < |p| ==> rs[i] == p[i];
    }
  }

  function FilaKey(w: RenglonFila): string {
    w.codigo
  }

  /** `GET /`: the active renglones ordered by code. */
  function Listado(rs: seq<Renglon>, es: seq<Empleado>): (r: seq<RenglonFila>)
    ensures |r| <= |rs|
    ensures SortedBy(r, FilaKey)
  {
    SortBy(Filas(rs, es), FilaKey)
  }

  /** A row is listed exactly when it is an active renglón with its count of active
      employees; an inactive renglón is never listed. */
  lemma ListadoMembers(rs: seq<Renglon>, es: seq<Empleado>, w: RenglonFila)
    ensures w in Listado(rs, es) <==> exists i :: 0 <= i < |rs| && rs[i].activo && w == FilaOf(rs[i], es)
    ensures w in Listado(rs, es) ==> w.activo && w.empleadosAsignados == Asignados(es, w.id)
  {
    SortByMembers(Filas(rs, es), FilaKey, w);
    FilasMembers(rs, es, w);
  }

  /** An employee counts towards its renglón while its estado is ACTIVO: changing any other
      employee, or its estado to another value, changes the count by exactly one. */
  lemma {:induction false} AsignadosAppend(es: seq<Empleado>, e: Empleado, id: int)
    ensures Asignados(es + [e], id) == Asignados(es, id) + (if RefiereA(e, id as real) && EnServicio(e) then 1 else 0)
  {
    assert (es + [e])[..|es + [e]| - 1] == es;
  }

  // ---------------------------------------------------------------------------------
  // GET /:id/empleados
  // ---------------------------------------------------------------------------------

  /** A row of `GET /:id/empleados`. */
  datatype Asignado = Asignado(
    id: int,
    codigo: Option<string>,
    nombre: string,
    dpi: Option<string>,
    puesto: string,
    departamento: string,
    salarioBase: real,
    estado: Option<string>)

  /** The row an employee adds: only in renglón `x`, ACTIVO, and with its post and
      department found (two `INNER JOIN`s). */
  function AsignadoRow(e: Empleado, ps: seq<Puesto>, ds: seq<Departamento>, x: real): (r: seq<Asignado>)
    ensures |r| <= 1
  {
    if RefiereA(e, x) && EnServicio(e) && e.idPuesto.Some? then
      match (FindPuesto(ps, e.idPuesto.value), DependenciaOf(e, ds))
      case (Some(p), Some(d)) => [Asignado(e.id, e.codigo, NombreCompleto(e), e.dpi, p, d, e.salarioBase, e.estado)]
      case _ => []
    else []
  }

  /** `w` is the row of employee `e` in renglón `x`'s list. */
  predicate AsignadoAs(e: Empleado, ps: seq<Puesto>, ds: seq<Departamento>, x: real, w: Asignado) {
    RefiereA(e, x) && EnServicio(e) && e.idPuesto.Some? && FindPuesto(ps, e.idPuesto.value).Some? && DependenciaOf(e, ds).Some?
    && w == Asignado(e.id, e.codigo, NombreCompleto(e), e.dpi, FindPuesto(ps, e.idPuesto.value).value,
      DependenciaOf(e, ds).value, e.salarioBase, e.estado)
  }

  function AsignadosFilas(es: seq<Empleado>, ps: seq<Puesto>, ds: seq<Departamento>, x: real): (r: seq<Asignado>)
    ensures |r| <= |es|
  {
    if es == [] then []
    else AsignadosFilas(es[..|es| - 1], ps, ds, x) + AsignadoRow(es[|es| - 1], ps, ds, x)
  }

  lemma {:induction false} AsignadosFilasMembers(es: seq<Empleado>, ps: seq<Puesto>, ds: seq<Departamento>, x: real, w: Asignado)
    ensures w in AsignadosFilas(es, ps, ds, x) <==> exists i :: 0 <= i < |es| && AsignadoAs(es[i], ps, ds, x, w)
  {
    var parts := seq(|es|, i requires 0 <= i < |es| => AsignadoRow(es[i], ps, ds, x));
    AsignadosFilasConcat(es, ps, ds, x);
    ConcatMembers(parts, w);
    if exists i :: 0 <= i < |parts| && w in parts[i] {
      var i :| 0 <= i < |parts| && w in parts[i];
      AsignadoRowAs(es[i], ps, ds, x, w);
    }
    if exists i :: 0 <= i < |es| && AsignadoAs(es[i], ps, ds, x, w) {
      var i :| 0 <= i < |es| && AsignadoAs(es[i], ps, ds, x, w);
      AsignadoRowAs(es[i], ps, ds, x, w);
      assert w in parts[i];
    }
  }

  /** The assigned employees' listing is their rows joined in order. */
  lemma {:induction false} AsignadosFilasConcat(es: seq<Empleado>, ps: seq<Puesto>, ds: seq<Departamento>, x: real)
    ensures AsignadosFilas(es, ps, ds, x) == Concat(seq(|es|, i requires 0 <= i < |es| => AsignadoRow(es[i], ps, ds, x)))
  {
    var parts := seq(|es|, i requires 0 <= i < |es| => AsignadoRow(es[i], ps, ds, x));
    if es != [] {
      var p := es[..|es| - 1];
      AsignadosFilasConcat(p, ps, ds, x);
      assert parts[..|parts| - 1] == seq(|p|, i requires 0 <= i < |p| => AsignadoRow(p[i], ps, ds, x));
      assert AsignadosFilas(es, ps, ds, x) == AsignadosFilas(p, ps, ds, x) + AsignadoRow(es[|es| - 1], ps, ds, x);
      assert Concat(parts) == Concat(parts[..|parts| - 1]) + parts[|parts| - 1];
    }
  }

  lemma AsignadoRowAs(e: Empleado, ps: seq<Puesto>, ds: seq<Departamento>, x: real, w: Asignado)
    ensures w in AsignadoRow(e, ps, ds, x) <==> AsignadoAs(e, ps, ds, x, w)
  {
  }

  function AsignadoKey(w: Asignado): string {
    w.codigo.GetOr("")
  }

  /** `GET /:id/empleados`: the renglón's ACTIVO employees ordered by code. */
  function EmpleadosDe(es: seq<Empleado>, ps: seq<Puesto>, ds: seq<Departamento>, idText: string): (r: Outcome<seq<Asignado>>)
    ensures ParamId(idText).None? <==> r == Fail(ServerError, ErrorEmpleados)
    ensures ParamId(idText).Some? ==> r.Ok?
    ensures r.Ok? ==> |r.value| <= |es| && SortedBy(r.value, AsignadoKey)
  {
    match ParamId(idText)
    case None => Fail(ServerError, ErrorEmpleados)
    case Some(x) => Ok(SortBy(AsignadosFilas(es, ps, ds, x), AsignadoKey))
  }

  /** Every listed employee is an ACTIVO employee of that renglón, and every such employee
      whose joins succeed is listed. */
  lemma EmpleadosDeMembers(es: seq<Empleado>, ps: seq<Puesto>, ds: seq<Departamento>, idText: string, w: Asignado)
    requires ParamId(idText).Some?
    ensures w in EmpleadosDe(es, ps, ds, idText).value <==>
      exists i :: 0 <= i < |es| && AsignadoAs(es[i], ps, ds, ParamId(idText).value, w)
    ensures w in EmpleadosDe(es, ps, ds, idText).value ==> w.estado == Some(EstadoActivo)
  {
    var x := ParamId(idText).value;
    SortByMembers(AsignadosFilas(es, ps, ds, x), AsignadoKey, w);
    AsignadosFilasMembers(es, ps, ds, x, w);
  }

  /** Every active employee's post and department exist. */
  predicate JoinsResolve(es: seq<Empleado>, ps: seq<Puesto>, ds: seq<Departamento>) {
    forall i :: 0 <= i < |es| && EnServicio(es[i]) ==>
      es[i].idPuesto.Some? && FindPuesto(ps, es[i].idPuesto.value).Some? && DependenciaOf(es[i], ds).Some?
  }

  /** The count the listing shows for a renglón is the number of employees its own list
      shows, as long as the joins of that list lose nobody. */
  lemma {:induction false} CountMatchesList(es: seq<Empleado>, ps: seq<Puesto>, ds: seq<Departamento>, id: int)
    requires JoinsResolve(es, ps, ds)
    ensures |AsignadosFilas(es, ps, ds, id as real)| == Asignados(es, id)
  {
    if es != [] {
      var p := es[..|es| - 1];
      assert forall i :: 0 <= i < |p| ==> es[i] == p[i];
      CountMatchesList(p, ps, ds, id);
    }
  }

  /** The list the page opens for a renglón has as many rows as its listing count. */
  lemma EmpleadosDeCounted(es: seq<Empleado>, ps: seq<Puesto>, ds: seq<Departamento>, id: nat)
    requires JoinsResolve(es, ps, ds)
    ensures EmpleadosDe(es, ps, ds, NatToString(id)).Ok?
    ensures |EmpleadosDe(es, ps, ds, NatToString(id)).value| == Asignados(es, id)
  {
    ParamIdOfNat(id);
    CountMatchesList(es, ps, ds, id);
  }

  // ---------------------------------------------------------------------------------
  // Bodies, create and edit
  // ---------------------------------------------------------------------------------

  /** The JSON body of `POST /` and `PUT /:id`: a missing or null member is `None`. */
  datatype RenglonBody = RenglonBody(codigo: Option<string>, nombre: Option<string>, descripcion: Option<string>)

  /** The answer of `POST /` (status 201): the identity, the body's texts as sent, and a
      count of 0. */
  datatype RenglonCreado = RenglonCreado(
    id: int,
    codigo: string,
    nombre: string,
    descripcion: Option<string>,
    empleadosAsignados: nat)

  /** `!codigo || !nombre`. */
  predicate Aceptable(b: RenglonBody) {
    Present(b.codigo) && Present(b.nombre)
  }

  /** The row `INSERT INTO Renglones` adds: active, with an empty description stored as
      NULL. */
  function NuevoRenglon(id: int, b: RenglonBody): (r: Renglon)
    requires Aceptable(b)
    ensures r.id == id && r.activo
    ensures r.codigo == b.codigo.value && r.nombre == b.nombre.value
    ensures r.descripcion.Some? <==> Present(b.descripcion)
    ensures r.descripcion.Some? ==> r.descripcion == b.descripcion
  {
    Renglon(id, b.codigo.value, b.nombre.value, NullIfEmpty(b.descripcion), true)
  }

  /** The `UPDATE ... WHERE id_renglon = @id`: the code, name and description of the
      matching rows are rewritten; nothing else, and no other row, changes. */
  function Actualizar(rs: seq<Renglon>, x: real, b: RenglonBody): (r: seq<Renglon>)
    requires b.codigo.Some? && b.nombre.Some?
    ensures |r| == |rs|
    ensures forall i :: 0 <= i < |rs| ==> r[i].id == rs[i].id && r[i].activo == rs[i].activo
    ensures forall i :: 0 <= i < |rs| && rs[i].id as real != x ==> r[i] == rs[i]
    ensures forall i :: 0 <= i < |rs| && rs[i].id as real == x ==>
      r[i].codigo == b.codigo.value && r[i].nombre == b.nombre.value && r[i].descripcion == NullIfEmpty(b.descripcion)
  {
    seq(|rs|, i requires 0 <= i < |rs| =>
      if rs[i].id as real == x then rs[i].(codigo := b.codigo.value, nombre := b.nombre.value, descripcion := NullIfEmpty(b.descripcion))
      else rs[i])
  }

  /** `COUNT(*) ... WHERE id_renglon = @id`: employees referencing the renglón in any
      estado. */
  function Referencias(es: seq<Empleado>, x: real): (n: nat)
    ensures n <= |es|
    ensures n == 0 <==> forall i :: 0 <= i < |es| ==> !RefiereA(es[i], x)
  {
    if es == [] then 0
    else
      var p := es[..|es| - 1];
      assert forall i :: 0 <= i < |p| ==> p[i] == es[i];
      Referencias(p, x) + (if RefiereA(es[|es| - 1], x) then 1 else 0)
  }

  /** Every employee that counts towards the listing also blocks the delete. */
  lemma {:induction false} AsignadosBlockDelete(es: seq<Empleado>, id: int)
    ensures Asignados(es, id) <= Referencias(es, id as real)
  {
    if es != [] {
      AsignadosBlockDelete(es[..|es| - 1], id);
    }
  }

  /** The `DELETE FROM Renglones WHERE id_renglon = @id`. */
  function Quitar(rs: seq<Renglon>, x: real): (r: seq<Renglon>)
    ensures |r| <= |rs|
    ensures Subseq(r, rs)
  {
    if rs == [] then []
    else if rs[|rs| - 1].id as real == x then Quitar(rs[..|rs| - 1], x)
    else Quitar(rs[..|rs| - 1], x) + [rs[|rs| - 1]]
  }

  lemma {:induction false} QuitarMembers(rs: seq<Renglon>, x: real, r: Renglon)
    ensures r in Quitar(rs, x) <==> r in rs && r.id as real != x
  {
    if rs != [] {
      QuitarMembers(rs[..|rs| - 1], x, r);
      assert rs == rs[..|rs| - 1] + [rs[|rs| - 1]];
    }
  }

  lemma {:induction false} QuitarUnique(rs: seq<Renglon>, x: real)
    requires UniqueRenglonIds(rs)
    ensures UniqueRenglonIds(Quitar(rs, x))
  {
    if rs != [] {
      var p := rs[..|rs| - 1];
      var last := rs[|rs| - 1];
      assert UniqueRenglonIds(p) by {
        forall i, j | 0 <= i < j < |p| ensures p[i].id != p[j].id {
          assert p[i] == rs[i] && p[j] == rs[j];
        }
      }
      QuitarUnique(p, x);
      var d := Quitar(p, x);
      forall i | 0 <= i < |d| ensures d[i].id != last.id {
        QuitarMembers(p, x, d[i]);
        var k :| 0 <= k < |p| && p[k] == d[i];
        assert rs[k] == p[k];
      }
    }
  }

  /** Every employee's renglón, when it has one, is a row of `Renglones` (the foreign key
      the guarded delete protects). */
  predicate RefsResolve(rs: seq<Renglon>, es: seq<Empleado>) {
    forall i :: 0 <= i < |es| && es[i].idRenglon.Some? ==> exists r :: r in rs && r.id == es[i].idRenglon.value
  }

  /** The delete is only carried out when no employee references the renglón, so it never
      leaves an employee pointing at a missing renglón. */
  lemma GuardKeepsRefs(rs: seq<Renglon>, es: seq<Empleado>, x: real)
    requires RefsResolve(rs, es) && Referencias(es, x) == 0
    ensures RefsResolve(Quitar(rs, x), es)
  {
    forall i | 0 <= i < |es| && es[i].idRenglon.Some?
      ensures exists r :: r in Quitar(rs, x) && r.id == es[i].idRenglon.value
    {
      var r :| r in rs && r.id == es[i].idRenglon.value;
      QuitarMembers(rs, x, r);
    }
  }

  /** Without the guard the same delete breaks the key: an employee referencing the
      renglón is left pointing at nothing. */
  lemma UnguardedDeleteBreaksRefs(rs: seq<Renglon>, es: seq<Empleado>, x: real)
    requires UniqueRenglonIds(rs) && Referencias(es, x) > 0
    ensures !RefsResolve(Quitar(rs, x), es)
  {
    var i :| 0 <= i < |es| && RefiereA(es[i], x);
    forall r | r in Quitar(rs, x) ensures r.id != es[i].idRenglon.value {
      QuitarMembers(rs, x, r);
    }
  }

  /** The edit keeps the keys distinct, below the identity counter, and every employee's
      renglón in the table. */
  lemma ActualizarKeepsKeys(rs: seq<Renglon>, es: seq<Empleado>, x: real, b: RenglonBody, next: int)
    requires b.codigo.Some? && b.nombre.Some?
    requires UniqueRenglonIds(rs) && (forall r :: r in rs ==> r.id < next) && RefsResolve(rs, es)
    ensures var u := Actualizar(rs, x, b);
      UniqueRenglonIds(u) && (forall r :: r in u ==> r.id < next) && RefsResolve(u, es)
  {
    var u := Actualizar(rs, x, b);
    forall r | r in u ensures r.id < next {
      var k :| 0 <= k < |u| && u[k] == r;
      assert rs[k] in rs;
    }
    forall i | 0 <= i < |es| && es[i].idRenglon.Some?
      ensures exists r :: r in u && r.id == es[i].idRenglon.value
    {
      var r :| r in rs && r.id == es[i].idRenglon.value;
      var k :| 0 <= k < |rs| && rs[k] == r;
      assert u[k] in u;
    }
  }

  /** A renglón just created is listed with the count of 0 its creation answered, because
      no employee can reference an id that did not exist. */
  lemma CreadoListado(rs: seq<Renglon>, es: seq<Empleado>, id: int, b: RenglonBody)
    requires Aceptable(b) && RefsResolve(rs, es)
    requires forall r :: r in rs ==> r.id < id
    ensures FilaOf(NuevoRenglon(id, b), es) in Listado(rs + [NuevoRenglon(id, b)], es)
    ensures FilaOf(NuevoRenglon(id, b), es).empleadosAsignados == 0
  {
    var n := NuevoRenglon(id, b);
    var rs' := rs + [n];
    ListadoMembers(rs', es, FilaOf(n, es));
    assert rs'[|rs|] == n;
    forall i | 0 <= i < |es| ensures !(RefiereA(es[i], id as real) && EnServicio(es[i])) {
      if es[i].idRenglon.Some? {
        var r :| r in rs && r.id == es[i].idRenglon.value;
      }
    }
  }

  // ---------------------------------------------------------------------------------
  // The Renglones table
  // ---------------------------------------------------------------------------------

  /** The `Renglones` table with the identity counter, and the `Empleados` table these
      routes only read. */
  class RenglonStore {
    var renglones: seq<Renglon>
    var empleados: seq<Empleado>
    var nextId: int

    ghost predicate Valid()
      reads this
    {
      UniqueRenglonIds(renglones) && (forall r :: r in renglones ==> r.id < nextId) && RefsResolve(renglones, empleados)
    }

    constructor (rs: seq<Renglon>, es: seq<Empleado>, next: int)
      requires UniqueRenglonIds(rs) && (forall r :: r in rs ==> r.id < next) && RefsResolve(rs, es)
      ensures Valid() && renglones == rs && empleados == es && nextId == next
    {
      renglones := rs;
      empleados := es;
      nextId := next;
    }

    /** `POST /`: without a code or a name the answer is 400 and nothing changes;
        otherwise one active row is added under the next identity. */
    method Crear(b: RenglonBody) returns (out: Outcome<RenglonCreado>)
      requires Valid()
      modifies this`renglones, this`nextId
      ensures Valid()
      ensures !Aceptable(b) ==> out == Fail(BadRequest, Obligatorios) && renglones == old(renglones) && nextId == old(nextId)
      ensures Aceptable(b) ==>
        out == Ok(RenglonCreado(old(nextId), b.codigo.value, b.nombre.value, b.descripcion, 0)) &&
        renglones == old(renglones) + [NuevoRenglon(old(nextId), b)] && nextId == old(nextId) + 1
    {
      if !Present(b.codigo) || !Present(b.nombre) {
        return Fail(BadRequest, Obligatorios);
      }
      var id := nextId;
      var r := NuevoRenglon(id, b);
      assert forall x :: x in renglones + [r] ==> x in renglones || x == r;
      renglones := renglones + [r];
      nextId := nextId + 1;
      out := Ok(RenglonCreado(id, b.codigo.value, b.nombre.value, b.descripcion, 0));
    }

    /** `PUT /:id`: no validation and no check that the id exists; a text that is no
        number, or a missing code or name (both columns are `NOT NULL`), fails with 500. */
    method Editar(idText: string, b: RenglonBody) returns (out: Outcome<string>)
      requires Valid()
      modifies this`renglones
      ensures Valid()
      ensures ParamId(idText).None? || b.codigo.None? || b.nombre.None? ==>
        out == Fail(ServerError, ErrorEditar) && renglones == old(renglones)
      ensures ParamId(idText).Some? && b.codigo.Some? && b.nombre.Some? ==>
        out == Ok(Actualizado) && renglones == Actualizar(old(renglones), ParamId(idText).value, b)
    {
      var x := ParamId(idText);
      if x.None? || b.codigo.None? || b.nombre.None? {
        return Fail(ServerError, ErrorEditar);
      }
      Rewrite(x.value, b);
      out := Ok(Actualizado);
    }

    method Rewrite(x: real, b: RenglonBody)
      requires Valid() && b.codigo.Some? && b.nombre.Some?
      modifies this`renglones
      ensures Valid() && renglones == Actualizar(old(renglones), x, b)
    {
      ActualizarKeepsKeys(renglones, empleados, x, b, nextId);
      renglones := Actualizar(renglones, x, b);
    }

    /** `DELETE /:id`: refused with 400 while any employee, in any estado, references
        the renglón; otherwise the row is removed for good. */
    method Eliminar(idText: string) returns (out: Outcome<string>)
      requires Valid()
      modifies this`renglones
      ensures Valid()
      ensures ParamId(idText).None? ==> out == Fail(ServerError, ErrorEliminar) && renglones == old(renglones)
      ensures ParamId(idText).Some? && Referencias(empleados, ParamId(idText).value) > 0 ==>
        out == Fail(BadRequest, TieneEmpleados) && renglones == old(renglones)
      ensures ParamId(idText).Some? && Referencias(empleados, ParamId(idText).value) == 0 ==>
        out == Ok(Eliminado) && renglones == Quitar(old(renglones), ParamId(idText).value)
    {
      var x := ParamId(idText);
      if x.None? {
        return Fail(ServerError, ErrorEliminar);
      }
      if Referencias(empleados, x.value) > 0 {
        return Fail(BadRequest, TieneEmpleados);
      }
      QuitarUnique(renglones, x.value);
      GuardKeepsRefs(renglones, empleados, x.value);
      forall r | r in Quitar(renglones, x.value) ensures r.id < nextId {
        QuitarMembers(renglones, x.value, r);
      }
      renglones := Quitar(renglones, x.value);
      out := Ok(Eliminado);
    }
  }
}
