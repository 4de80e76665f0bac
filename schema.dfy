/** The database tables the routes read and write, as in-memory rows. Nullable columns are
    `Option`s; money and percentages are exact reals. */
module Schema {
  import opened Prelude

  /** A row of `Empleados`. */
  datatype Empleado = Empleado(
    id: int,
    codigo: Option<string>,
    nombres: Option<string>,
    apellidos: Option<string>,
    dpi: Option<string>,
    fechaNacimiento: Option<string>,
    telefono: Option<string>,
    direccion: Option<string>,
    idRenglon: Option<int>,
    idDepartamento: Option<int>,
    idPuesto: Option<int>,
    estado: Option<string>,
    fechaIngreso: Option<string>,
    salarioBase: real,
    fotoRuta: Option<string>,
    dpiRuta: Option<string>)

  /** A row of `Departamentos`. */
  datatype Departamento = Departamento(id: int, nombre: string)

  /** A row of `Puestos`. */
  datatype Puesto = Puesto(id: int, nombre: string)

  /** The estado of an employee in service. */
  const EstadoActivo := "ACTIVO"

  /** A row of `Renglones` (a budget line employees are paid from). */
  datatype Renglon = Renglon(id: int, codigo: string, nombre: string, descripcion: Option<string>, activo: bool)

  /** A row of `Bonificaciones` or `Descuentos`: the two tables have the same columns. */
  datatype Regla = Regla(
    id: int,
    nombre: string,
    tipo: string,
    valor: real,
    descripcion: Option<string>,
    aplicaATodos: bool,
    aplicaPorRenglon: bool,
    aplicaIndividual: bool,
    activo: bool)

  /** A row of an assignment table (`BonificacionesRenglones`, `BonificacionesEmpleados`
      and their discount counterparts): a rule and the renglón or employee it targets. */
  datatype Asignacion = Asignacion(regla: int, destino: int)

  /** The rule table together with its two assignment tables. */
  datatype RuleTables = RuleTables(reglas: seq<Regla>, porRenglon: seq<Asignacion>, porEmpleado: seq<Asignacion>)

  predicate UniqueReglaIds(rs: seq<Regla>) {
    forall i, j :: 0 <= i < j < |rs| ==> rs[i].id != rs[j].id
  }

  predicate UniqueEmpleadoIds(es: seq<Empleado>) {
    forall i, j :: 0 <= i < j < |es| ==> es[i].id != es[j].id
  }

  predicate UniqueRenglonIds(rs: seq<Renglon>) {
    forall i, j :: 0 <= i < j < |rs| ==> rs[i].id != rs[j].id
  }

  /** `CONCAT(nombres, ' ', apellidos)`: CONCAT reads NULL as the empty string. */
  function NombreCompleto(e: Empleado): (r: string)
    ensures |r| == |e.nombres.GetOr("")| + 1 + |e.apellidos.GetOr("")|
    ensures r[|e.nombres.GetOr("")|] == ' '
    ensures r[..|e.nombres.GetOr("")|] == e.nombres.GetOr("") && r[|e.nombres.GetOr("")| + 1..] == e.apellidos.GetOr("")
  {
    e.nombres.GetOr("") + " " + e.apellidos.GetOr("")
  }

  /** The server's address and the two prefixes under which `server.js` serves the
      employees' photos and DPI scans. */
  const Servidor := "http://localhost:4000"
  const FotosPrefix := "/uploads/fotos-empleados"
  const DpisPrefix := "/uploads/dpi-empleados"

  const FotosUrl := Servidor + FotosPrefix + "/"
  const DpisUrl := Servidor + DpisPrefix + "/"

  /** The photo URL sent with an employee: none without a stored file name. */
  function FotoUrl(ruta: Option<string>): (u: Option<string>)
    ensures u.Some? <==> Present(ruta)
    ensures u.Some? ==> u.value == FotosUrl + ruta.value
  {
    if Present(ruta) then Some(FotosUrl + ruta.value) else None
  }

  /** The DPI scan URL sent with an employee: none without a stored file name. */
  function DpiUrl(ruta: Option<string>): (u: Option<string>)
    ensures u.Some? <==> Present(ruta)
    ensures u.Some? ==> u.value == DpisUrl + ruta.value
  {
    if Present(ruta) then Some(DpisUrl + ruta.value) else None
  }

  /** The renglón row with the given id, as an `INNER JOIN` on the key finds it. */
  function FindRenglon(rs: seq<Renglon>, id: int): (r: Option<Renglon>)
    ensures r.Some? ==> r.value in rs && r.value.id == id
    ensures r.None? ==> forall x :: x in rs ==> x.id != id
  {
    if rs == [] then None
    else if rs[0].id == id then Some(rs[0])
    else FindRenglon(rs[1..], id)
  }

  /** The employee's department through `LEFT JOIN Departamentos`: its name, or NULL. */
  function DependenciaOf(e: Empleado, ds: seq<Departamento>): (r: Option<string>)
    ensures r.Some? ==> e.idDepartamento.Some? && exists d :: d in ds && d.id == e.idDepartamento.value && d.nombre == r.value
    ensures r.None? ==> e.idDepartamento.None? || forall d :: d in ds ==> d.id != e.idDepartamento.value
  {
    match e.idDepartamento
    case None => None
    case Some(k) => FindDepartamento(ds, k)
  }

  function FindDepartamento(ds: seq<Departamento>, id: int): (r: Option<string>)
    ensures r.Some? ==> exists d :: d in ds && d.id == id && d.nombre == r.value
    ensures r.None? ==> forall d :: d in ds ==> d.id != id
  {
    if ds == [] then None
    else if ds[0].id == id then Some(ds[0].nombre)
    else FindDepartamento(ds[1..], id)
  }

  function FindPuesto(ps: seq<Puesto>, id: int): (r: Option<string>)
    ensures r.Some? ==> exists p :: p in ps && p.id == id && p.nombre == r.value
    ensures r.None? ==> forall p :: p in ps ==> p.id != id
  {
    if ps == [] then None
    else if ps[0].id == id then Some(ps[0].nombre)
    else FindPuesto(ps[1..], id)
  }

  /** The employee row with the given id. */
  function FindEmpleado(es: seq<Empleado>, id: int): (r: Option<Empleado>)
    ensures r.Some? ==> r.value in es && r.value.id == id
    ensures r.None? ==> forall x :: x in es ==> x.id != id
  {
    if es == [] then None
    else if es[0].id == id then Some(es[0])
    else FindEmpleado(es[1..], id)
  }

  /** The employee's renglón through `INNER JOIN Renglones r ON r.id_renglon = e.id_renglon`:
      missing when the column is NULL or names no renglón. */
  function RenglonOf(e: Empleado, rs: seq<Renglon>): (r: Option<Renglon>)
    ensures r.Some? ==> e.idRenglon == Some(r.value.id) && r.value in rs
    ensures r.None? ==> e.idRenglon.None? || forall x :: x in rs ==> x.id != e.idRenglon.value
  {
    match e.idRenglon
    case None => None
    case Some(k) => FindRenglon(rs, k)
  }
}
