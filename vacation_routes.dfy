/** The vacation requests of `vacaciones.routes.js`: the listing, creating a request for
    an employee found by DPI, changing its estado, and the days each active employee has
    left in a year. */
module VacationRoutes {
  import opened Prelude
  import opened Text
  import opened Numbers
  import opened Collections
  import opened Schema
  import opened Dates

  /** `DIAS_ANUALES`: the days of vacation an employee has each year. */
  const DiasAnuales: int := 20

  const Faltan := "Faltan datos obligatorios (dpi, fechaInicio, fechaFin, dias)."
  const SinEmpleado := "No se encontr\U{00F3} un empleado con ese DPI."
  const ErrorCrear := "Error al crear solicitud de vacaciones"
  const EstadoObligatorio := "El campo 'estado' es obligatorio."
  const IdInvalido := "id_vacacion inv\U{00E1}lido"
  const Actualizada := "Solicitud de vacaciones actualizada correctamente."
  const Pendiente := "Pendiente"

  /** A row of `Vacaciones`; its dates are `date` columns, kept as their `YYYY-MM-DD` text. */
  datatype Vacacion = Vacacion(
    id: int,
    idEmpleado: int,
    fechaInicio: string,
    fechaFin: string,
    dias: int,
    motivo: Option<string>,
    fechaSolicitud: string,
    estado: string)

  /** The body of `POST /`. */
  datatype VacationBody = VacationBody(
    dpi: Option<string>,
    fechaInicio: Option<string>,
    fechaFin: Option<string>,
    dias: JsVal,
    motivo: Option<string>)

  /** A request as the routes send it to the page. */
  datatype VacacionView = VacacionView(
    id: int,
    empleadoDpi: Option<string>,
    empleadoNombre: string,
    fechaInicio: string,
    fechaFin: string,
    dias: int,
    fechaSolicitud: string,
    estado: string,
    motivo: Option<string>,
    fotoUrl: Option<string>)

  function ViewOf(v: Vacacion, e: Empleado): VacacionView {
    VacacionView(v.id, e.dpi, NombreCompleto(e), v.fechaInicio, v.fechaFin, v.dias, v.fechaSolicitud, v.estado,
      v.motivo, FotoUrl(e.fotoRuta))
  }

  /** `GET /`: every request joined with its employee (requests of no employee drop out). */
  function Listado(es: seq<Empleado>, vs: seq<Vacacion>): (r: seq<VacacionView>)
    ensures |r| <= |vs|
  {
    if vs == [] then []
    else
      var v := vs[|vs| - 1];
      Listado(es, vs[..|vs| - 1]) + ListadoRow(es, v)
  }

  /** The row a request adds to the listing: none when its employee is missing. */
  function ListadoRow(es: seq<Empleado>, v: Vacacion): (r: seq<VacacionView>)
    ensures |r| <= 1
  {
    match FindEmpleado(es, v.idEmpleado)
    case Some(e) => [ViewOf(v, e)]
    case None => []
  }

  /** `w` is the listing row of request `v`: its employee exists and lends `w` its DPI,
      name and photo. */
  predicate ListedAs(es: seq<Empleado>, v: Vacacion, w: VacacionView) {
    FindEmpleado(es, v.idEmpleado).Some? && w == ViewOf(v, FindEmpleado(es, v.idEmpleado).value)
  }

  /** A request is listed exactly when its employee exists. */
  lemma {:induction false} ListadoMembers(es: seq<Empleado>, vs: seq<Vacacion>, w: VacacionView)
    ensures w in Listado(es, vs) <==> exists i :: 0 <= i < |vs| && ListedAs(es, vs[i], w)
  {
    if vs != [] {
      var p := vs[..|vs| - 1];
      var v := vs[|vs| - 1];
      ListadoMembers(es, p, w);
      assert w in Listado(es, vs) <==> w in Listado(es, p) || ListedAs(es, v, w);
      assert forall i :: 0 <= i < |p| ==> vs[i] == p[i];
    }
  }

  /** `SELECT TOP 1 ... WHERE e.dpi = @dpi`: the first employee with that DPI. */
  function FirstByDpi(es: seq<Empleado>, dpi: string): (r: Option<Empleado>)
    ensures r.Some? ==> r.value in es && r.value.dpi == Some(dpi)
    ensures r.None? ==> forall i :: 0 <= i < |es| ==> es[i].dpi != Some(dpi)
  {
    if es == [] then None
    else if es[0].dpi == Some(dpi) then Some(es[0])
    else FirstByDpi(es[1..], dpi)
  }

  /** `!dpi || !fechaInicio || !fechaFin || !dias`. */
  predicate HasRequired(b: VacationBody) {
    Present(b.dpi) && Present(b.fechaInicio) && Present(b.fechaFin) && Truthy(b.dias)
  }

  /** `parseInt(dias, 10) || 0`. */
  function DiasInt(dias: JsVal): (n: int)
    ensures ParseInt(dias).Some? ==> n == ParseInt(dias).value
    ensures ParseInt(dias).None? ==> n == 0
  {
    ParseInt(dias).GetOr(0)
  }

  /** The row `POST /` inserts under `id`, or the response it sends instead. A date the
      `date` column cannot hold makes the insert fail. */
  function NewVacacion(es: seq<Empleado>, b: VacationBody, hoy: string, id: int): (r: Outcome<Vacacion>)
    ensures r == Fail(BadRequest, Faltan) <==> !HasRequired(b)
    ensures r == Fail(BadRequest, SinEmpleado) <==> HasRequired(b) && FirstByDpi(es, b.dpi.value).None?
    ensures r == Fail(ServerError, ErrorCrear) <==>
      HasRequired(b) && FirstByDpi(es, b.dpi.value).Some? && !(SqlDate(b.fechaInicio.value) && SqlDate(b.fechaFin.value))
    ensures r.Ok? ==>
      HasRequired(b) && FirstByDpi(es, b.dpi.value).Some? &&
      r.value.idEmpleado == FirstByDpi(es, b.dpi.value).value.id &&
      r.value.fechaInicio == b.fechaInicio.value && r.value.fechaFin == b.fechaFin.value &&
      SqlDate(r.value.fechaInicio) && SqlDate(r.value.fechaFin) &&
      r.value.estado == Pendiente && r.value.fechaSolicitud == hoy && r.value.id == id &&
      r.value.dias == DiasInt(b.dias) && r.value.motivo == NullIfEmpty(b.motivo)
  {
    if !HasRequired(b) then Fail(BadRequest, Faltan)
    else
      match FirstByDpi(es, b.dpi.value)
      case None => Fail(BadRequest, SinEmpleado)
      case Some(e) =>
        if !(SqlDate(b.fechaInicio.value) && SqlDate(b.fechaFin.value)) then Fail(ServerError, ErrorCrear)
        else Ok(Vacacion(id, e.id, b.fechaInicio.value, b.fechaFin.value, DiasInt(b.dias), NullIfEmpty(b.motivo), hoy, Pendiente))
  }

  /** The `201` body: the new request with its employee, and `motivo || ""`. */
  function CreatedView(v: Vacacion, e: Empleado, b: VacationBody): (w: VacacionView)
    ensures w.estado == Pendiente && w.motivo == OrElse(b.motivo, Some(""))
    ensures w.id == v.id && w.empleadoDpi == e.dpi && w.dias == v.dias
  {
    ViewOf(v, e).(estado := Pendiente, motivo := OrElse(b.motivo, Some("")))
  }

  /** `UPDATE Vacaciones SET estado = @estado WHERE id_vacacion = @id`. */
  function SetEstado(vs: seq<Vacacion>, id: int, estado: string): (r: seq<Vacacion>)
    ensures |r| == |vs|
    ensures forall i :: 0 <= i < |vs| ==> r[i] == if vs[i].id == id then vs[i].(estado := estado) else vs[i]
  {
    seq(|vs|, i requires 0 <= i < |vs| => if vs[i].id == id then vs[i].(estado := estado) else vs[i])
  }

  // ---------------------------------------------------------------------------------
  // dias-disponibles
  // ---------------------------------------------------------------------------------

  /** `parseInt(req.query.anio, 10) || new Date().getFullYear()`: 0 and NaN both fall back
      to the current year. */
  function AnioParam(q: Option<string>, currentYear: int): (anio: int)
    ensures anio == currentYear || (q.Some? && ParseIntStr(q.value) == Some(anio) && anio != 0)
    ensures q.Some? && ParseIntStr(q.value).Some? && ParseIntStr(q.value).value != 0 ==> anio == ParseIntStr(q.value).value
  {
    if q.Some? && ParseIntStr(q.value).Some? && ParseIntStr(q.value).value != 0 then ParseIntStr(q.value).value
    else currentYear
  }

  /** `YEAR(d) = @anio`. */
  predicate InYear(d: string, anio: int) {
    IsIsoDate(d) && YearOf(d) == anio
  }

  /** The requests the `DiasTomados` CTE counts for an employee: those starting or ending
      in the year, whatever their estado. */
  predicate Counts(v: Vacacion, idEmpleado: int, anio: int) {
    v.idEmpleado == idEmpleado && (InYear(v.fechaInicio, anio) || InYear(v.fechaFin, anio))
  }

  /** `SUM(v.dias)` over the counted requests. */
  function Tomados(vs: seq<Vacacion>, idEmpleado: int, anio: int): int {
    if vs == [] then 0
    else Tomados(vs[..|vs| - 1], idEmpleado, anio) + (if Counts(vs[|vs| - 1], idEmpleado, anio) then vs[|vs| - 1].dias else 0)
  }

  datatype Disponible = Disponible(codigo: Option<string>, dpi: Option<string>, nombre: string, diasDisponibles: int, fotoUrl: Option<string>)

  /** `ISNULL(20 - ISNULL(dt.diasTomados, 0), 20)`: the left join yields no total, read as
      0, for an employee without counted requests. */
  function DisponibleOf(e: Empleado, vs: seq<Vacacion>, anio: int): (d: Disponible)
    ensures d.diasDisponibles == DiasAnuales - Tomados(vs, e.id, anio)
    ensures d.codigo == e.codigo && d.dpi == e.dpi
  {
    Disponible(e.codigo, e.dpi, NombreCompleto(e), DiasAnuales - Tomados(vs, e.id, anio), FotoUrl(e.fotoRuta))
  }

  function DisponibleKey(d: Disponible): string {
    d.codigo.GetOr("")
  }

  /** `WHERE e.estado = 'ACTIVO'`. */
  function Activos(es: seq<Empleado>): (r: seq<Empleado>)
    ensures forall e :: e in r <==> e in es && e.estado == Some(EstadoActivo)
  {
    if es == [] then []
    else Activos(es[..|es| - 1]) + (if es[|es| - 1].estado == Some(EstadoActivo) then [es[|es| - 1]] else [])
  }

  function DisponiblesOf(es: seq<Empleado>, vs: seq<Vacacion>, anio: int): (r: seq<Disponible>)
    ensures |r| == |es|
    ensures forall i :: 0 <= i < |es| ==> r[i] == DisponibleOf(es[i], vs, anio)
  {
    seq(|es|, i requires 0 <= i < |es| => DisponibleOf(es[i], vs, anio))
  }

  /** The rows of `GET /dias-disponibles`, ordered by employee code: one row per ACTIVO
      employee. */
  function Disponibles(es: seq<Empleado>, vs: seq<Vacacion>, anio: int): (r: seq<Disponible>)
    ensures SortedBy(r, DisponibleKey)
    ensures multiset(r) == multiset(DisponiblesOf(Activos(es), vs, anio))
    ensures |r| == |Activos(es)|
  {
    SortBy(DisponiblesOf(Activos(es), vs, anio), DisponibleKey)
  }

  /** The listing has one row per active employee, holding 20 minus the days counted for
      that employee in the year. */
  lemma DisponiblesMembers(es: seq<Empleado>, vs: seq<Vacacion>, anio: int, d: Disponible)
    ensures d in Disponibles(es, vs, anio) <==>
      exists e :: e in es && e.estado == Some(EstadoActivo) && d == DisponibleOf(e, vs, anio)
  {
    var act := Activos(es);
    var rows := DisponiblesOf(act, vs, anio);
    SortByMembers(rows, DisponibleKey, d);
    DisponiblesOfMembers(act, vs, anio, d);
    if exists e :: e in act && d == DisponibleOf(e, vs, anio) {
      var e :| e in act && d == DisponibleOf(e, vs, anio);
      assert e in es && e.estado == Some(EstadoActivo);
    }
    if exists e :: e in es && e.estado == Some(EstadoActivo) && d == DisponibleOf(e, vs, anio) {
      var e :| e in es && e.estado == Some(EstadoActivo) && d == DisponibleOf(e, vs, anio);
      assert e in act;
    }
  }

  lemma DisponiblesOfMembers(es: seq<Empleado>, vs: seq<Vacacion>, anio: int, d: Disponible)
    ensures d in DisponiblesOf(es, vs, anio) <==> exists e :: e in es && d == DisponibleOf(e, vs, anio)
  {
    var rows := DisponiblesOf(es, vs, anio);
    if d in rows {
      var i :| 0 <= i < |rows| && rows[i] == d;
      assert es[i] in es;
    }
    if exists e :: e in es && d == DisponibleOf(e, vs, anio) {
      var e :| e in es && d == DisponibleOf(e, vs, anio);
      var i :| 0 <= i < |es| && es[i] == e;
      assert rows[i] == d;
    }
  }

  lemma DisponiblesAll(es: seq<Empleado>, vs: seq<Vacacion>, anio: int)
    ensures forall d :: d in Disponibles(es, vs, anio) <==>
      exists e :: e in es && e.estado == Some(EstadoActivo) && d == DisponibleOf(e, vs, anio)
  {
    forall d {
      DisponiblesMembers(es, vs, anio, d);
    }
  }

  /** Without counted requests the employee has all 20 days. */
  lemma {:induction false} NoRequestsAllDays(vs: seq<Vacacion>, e: Empleado, anio: int)
    requires forall i :: 0 <= i < |vs| ==> !Counts(vs[i], e.id, anio)
    ensures DisponibleOf(e, vs, anio).diasDisponibles == DiasAnuales
  {
    TomadosNone(vs, e.id, anio);
  }

  lemma {:induction false} TomadosNone(vs: seq<Vacacion>, id: int, anio: int)
    requires forall i :: 0 <= i < |vs| ==> !Counts(vs[i], id, anio)
    ensures Tomados(vs, id, anio) == 0
  {
    if vs != [] {
      TomadosNone(vs[..|vs| - 1], id, anio);
    }
  }

  /** A new request takes its days from every year it starts or ends in. */
  lemma TomadosAppend(vs: seq<Vacacion>, v: Vacacion, id: int, anio: int)
    ensures Tomados(vs + [v], id, anio) == Tomados(vs, id, anio) + (if Counts(v, id, anio) then v.dias else 0)
  {
    assert (vs + [v])[..|vs|] == vs;
  }

  /** Approving or rejecting a request does not give its days back: the count ignores
      estado. */
  lemma {:induction false} TomadosIgnoresEstado(vs: seq<Vacacion>, id: int, estado: string, idEmpleado: int, anio: int)
    ensures Tomados(SetEstado(vs, id, estado), idEmpleado, anio) == Tomados(vs, idEmpleado, anio)
  {
    if vs != [] {
      var p := vs[..|vs| - 1];
      TomadosIgnoresEstado(p, id, estado, idEmpleado, anio);
      assert SetEstado(vs, id, estado)[..|vs| - 1] == SetEstado(p, id, estado);
    }
  }

  // ---------------------------------------------------------------------------------
  // The table
  // ---------------------------------------------------------------------------------

  predicate UniqueVacacionIds(vs: seq<Vacacion>) {
    forall i, j :: 0 <= i < j < |vs| ==> vs[i].id != vs[j].id
  }

  class VacationStore {
    var vacaciones: seq<Vacacion>
    /** The next value of the IDENTITY column. */
    var nextId: int

    /** Ids are unique and below the next one, and every stored date is a real date. */
    ghost predicate Valid()
      reads this
    {
      UniqueVacacionIds(vacaciones) &&
      forall i :: 0 <= i < |vacaciones| ==>
        vacaciones[i].id < nextId && ValidDate(vacaciones[i].fechaInicio) && ValidDate(vacaciones[i].fechaFin)
    }

    constructor ()
      ensures Valid() && vacaciones == [] && nextId == 1
    {
      vacaciones := [];
      nextId := 1;
    }

    /** `POST /`: a request that fails a check writes nothing; otherwise the row is
        appended under the next id and returned with its employee. */
    method Crear(es: seq<Empleado>, b: VacationBody, hoy: string) returns (out: Outcome<VacacionView>)
      requires Valid()
      modifies this
      ensures Valid()
      ensures NewVacacion(es, b, hoy, old(nextId)).Fail? ==>
        out == Fail(NewVacacion(es, b, hoy, old(nextId)).status, NewVacacion(es, b, hoy, old(nextId)).message) &&
        vacaciones == old(vacaciones) && nextId == old(nextId)
      ensures NewVacacion(es, b, hoy, old(nextId)).Ok? ==>
        var v := NewVacacion(es, b, hoy, old(nextId)).value;
        vacaciones == old(vacaciones) + [v] && nextId == old(nextId) + 1 &&
        out == Ok(CreatedView(v, FirstByDpi(es, b.dpi.value).value, b))
    {
      var r := NewVacacion(es, b, hoy, nextId);
      if r.Fail? {
        return Fail(r.status, r.message);
      }
      var e := FirstByDpi(es, b.dpi.value).value;
      vacaciones := vacaciones + [r.value];
      nextId := nextId + 1;
      out := Ok(CreatedView(r.value, e, b));
    }

    /** `PUT /:id`: estado is checked before the id; a valid request changes the estado of
        the row with that id (none, when no row has it) and nothing else. */
    method Actualizar(idText: string, estado: Option<string>) returns (out: Outcome<string>)
      requires Valid()
      modifies this`vacaciones
      ensures Valid()
      ensures !Present(estado) ==> out == Fail(BadRequest, EstadoObligatorio) && vacaciones == old(vacaciones)
      ensures Present(estado) && ParseIntStr(idText).None? ==> out == Fail(BadRequest, IdInvalido) && vacaciones == old(vacaciones)
      ensures Present(estado) && ParseIntStr(idText).Some? ==>
        out == Ok(Actualizada) && vacaciones == SetEstado(old(vacaciones), ParseIntStr(idText).value, estado.value)
    {
      if !Present(estado) {
        return Fail(BadRequest, EstadoObligatorio);
      }
      var id := ParseIntStr(idText);
      if id.None? {
        return Fail(BadRequest, IdInvalido);
      }
      vacaciones := SetEstado(vacaciones, id.value, estado.value);
      out := Ok(Actualizada);
    }

    /** `GET /dias-disponibles?anio=`. */
    function DiasDisponibles(es: seq<Empleado>, anio: Option<string>, currentYear: int): (r: seq<Disponible>)
      reads this
      ensures SortedBy(r, DisponibleKey)
      ensures forall d :: d in r <==>
        exists e :: e in es && e.estado == Some(EstadoActivo) && d == DisponibleOf(e, vacaciones, AnioParam(anio, currentYear))
    {
      DisponiblesAll(es, vacaciones, AnioParam(anio, currentYear));
      Disponibles(es, vacaciones, AnioParam(anio, currentYear))
    }
  }
}
