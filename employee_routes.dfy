/** The employee records of `empleados.routes.js`: the search box, the listing, reading one
    employee, and creating or overwriting one from a multipart form with an optional photo
    and DPI scan. */
module EmployeeRoutes {
  import opened Prelude
  import opened Text
  import opened Numbers
  import opened Collections
  import opened Schema

  const IdEmpleadoInvalido := "id_empleado inv\U{00E1}lido"
  const EmpleadoNoEncontrado := "Empleado no encontrado"
  const ErrorCrearEmpleado := "Error al crear empleado"
  const ErrorActualizarEmpleado := "Error al actualizar empleado"
  const EmpleadoActualizado := "Empleado actualizado correctamente"

  /** `SELECT TOP 20` of the search box. */
  const BuscarMax: nat := 20

  // ---------------------------------------------------------------------------------
  // Stored file names and folders
  // ---------------------------------------------------------------------------------

  /** multer's `destination`: the folder an uploaded file goes to, by its form field. */
  function Carpeta(fieldname: string): (d: string)
    ensures fieldname == "foto" <==> d == "fotosempleados"
    ensures fieldname == "dpi" <==> d == "dpiempleados"
    ensures fieldname != "foto" && fieldname != "dpi" <==> d == "uploads"
  {
    if fieldname == "foto" then "fotosempleados"
    else if fieldname == "dpi" then "dpiempleados"
    else "uploads"
  }

  /** multer's `filename`: the field name, a hyphen, the timestamp and the original
      extension (none when the original name has none). */
  function StoredName(fieldname: string, timestamp: nat, originalName: string): string {
    fieldname + "-" + NatToString(timestamp) + Extname(originalName)
  }

  /** The stored name is the field name, a hyphen, the timestamp's digits and the original
      extension, in that order; without an extension it ends in the timestamp. */
  lemma StoredNameParts(fieldname: string, timestamp: nat, originalName: string)
    ensures var f := StoredName(fieldname, timestamp, originalName);
      var x := Extname(originalName);
      StartsWith(f, fieldname + "-") &&
      |x| <= |f| && f[|f| - |x|..] == x &&
      f[|fieldname| + 1..|f| - |x|] == NatToString(timestamp) &&
      (x == [] ==> f == fieldname + "-" + NatToString(timestamp))
  {
    var f := StoredName(fieldname, timestamp, originalName);
    var x := Extname(originalName);
    var h := fieldname + "-";
    var t := NatToString(timestamp);
    assert f == h + t + x;
    assert f[..|h|] == h;
    assert f[|f| - |x|..] == x;
    assert f[|h|..|f| - |x|] == t;
  }

  /** The folder `server.js` serves each static prefix from (`express.static`). */
  function ServedFolder(prefix: string): (d: Option<string>)
    ensures d.Some? ==> d.value == "fotosempleados" || d.value == "dpiempleados"
  {
    if prefix == "/fotosempleados" || prefix == FotosPrefix then Some("fotosempleados")
    else if prefix == "/dpiempleados" || prefix == DpisPrefix then Some("dpiempleados")
    else None
  }

  /** The URL the routes send for a stored photo or DPI scan is served from the very folder
      multer stored the file in. */
  lemma UrlsReachStoredFiles(timestamp: nat, originalName: string)
    ensures var n := StoredName("foto", timestamp, originalName);
      FotoUrl(Some(n)) == Some(Servidor + FotosPrefix + "/" + n) && ServedFolder(FotosPrefix) == Some(Carpeta("foto"))
    ensures var n := StoredName("dpi", timestamp, originalName);
      DpiUrl(Some(n)) == Some(Servidor + DpisPrefix + "/" + n) && ServedFolder(DpisPrefix) == Some(Carpeta("dpi"))
  {
    var n := StoredName("foto", timestamp, originalName);
    var m := StoredName("dpi", timestamp, originalName);
    assert n[0] == 'f' && m[0] == 'd';
  }

  /** The stored path of an optional upload under a field. */
  function RutaOf(fieldname: string, file: Option<Upload>, timestamp: nat): (r: Option<string>)
    ensures r.Some? <==> file.Some?
    ensures r.Some? ==> r.value == StoredName(fieldname, timestamp, file.value.originalName)
  {
    match file
    case Some(u) => Some(StoredName(fieldname, timestamp, u.originalName))
    case None => None
  }

  // ---------------------------------------------------------------------------------
  // Columns from the form fields
  // ---------------------------------------------------------------------------------

  /** The text fields of the multipart body of `POST /` and `PUT /:id`. */
  datatype EmpleadoBody = EmpleadoBody(
    codigo: Option<string>,
    nombres: Option<string>,
    apellidos: Option<string>,
    dpi: Option<string>,
    fechaNacimiento: Option<string>,
    telefono: Option<string>,
    direccion: Option<string>,
    idRenglon: Option<string>,
    idDepartamento: Option<string>,
    idPuesto: Option<string>,
    estado: Option<string>,
    fechaIngreso: Option<string>,
    salarioBase: Option<string>)

  /** `x ? parseInt(x, 10) : null` for a key column: `Some(None)` is NULL, `Some(Some(k))`
      the key; `None` is the NaN of a field without digits, which the SQL driver refuses. */
  function IdColumn(x: Option<string>): (r: Option<Option<int>>)
    ensures !Present(x) ==> r == Some(None)
    ensures Present(x) ==> (r.None? <==> ParseIntStr(x.value).None?)
    ensures r.Some? && r.value.Some? ==> Present(x) && ParseIntStr(x.value) == r.value
  {
    if !Present(x) then Some(None)
    else match ParseIntStr(x.value)
      case None => None
      case Some(k) => Some(Some(k))
  }

  /** The text of a key sent by the page reads back as that key. */
  lemma IdColumnOfIntToString(k: int)
    ensures IdColumn(Some(IntToString(k))) == Some(Some(k))
  {
    ParseIntOfIntToString(k);
  }

  /** `salario_base ? parseFloat(salario_base) : 0`: `None` is NaN. */
  function SalarioColumn(x: Option<string>): (r: Option<real>)
    ensures !Present(x) ==> r == Some(0.0)
    ensures Present(x) ==> r == ParseFloatStr(x.value)
  {
    if Present(x) then ParseFloatStr(x.value) else Some(0.0)
  }

  /** A whole salary sent as its decimal text is stored as that amount. */
  lemma SalarioColumnOfNatToString(n: nat)
    ensures SalarioColumn(Some(NatToString(n))) == Some(n as real)
  {
    ParseFloatOfNatToString(n);
  }

  /** The page's default `"0"` stores the same 0 as a missing field. */
  lemma SalarioDefaultZero()
    ensures SalarioColumn(Some("0")) == SalarioColumn(None)
  {
    ParseFloatOfNatToString(0);
    assert NatToString(0) == "0";
  }

  /** `estado || "ACTIVO"`. */
  function EstadoColumn(x: Option<string>): (r: string)
    ensures Present(x) ==> r == x.value
    ensures !Present(x) ==> r == EstadoActivo
    ensures r != ""
  {
    if Present(x) then x.value else EstadoActivo
  }

  /** No numeric field of the body is NaN. */
  predicate ColumnsValid(b: EmpleadoBody) {
    IdColumn(b.idRenglon).Some? && IdColumn(b.idDepartamento).Some? && IdColumn(b.idPuesto).Some?
    && SalarioColumn(b.salarioBase).Some?
  }

  /** A nullable text column that the routes write: NULL or non-empty. */
  predicate NotBlank(x: Option<string>) {
    x.None? || x.value != ""
  }

  /** A row as `POST /` and `PUT /:id` write it: the routes never store an empty text, and
      the estado is always set. */
  predicate Normalized(e: Empleado) {
    NotBlank(e.codigo) && NotBlank(e.nombres) && NotBlank(e.apellidos) && NotBlank(e.dpi)
    && NotBlank(e.fechaNacimiento) && NotBlank(e.telefono) && NotBlank(e.direccion)
    && NotBlank(e.fechaIngreso) && Present(e.estado)
  }

  /** The row the routes write for body `b`, with the given id and file paths: empty texts
      and dates become NULL, keys and salary are parsed (salary 0 when absent), estado
      defaults to ACTIVO. None when a numeric field is NaN. */
  function RowOf(b: EmpleadoBody, id: int, foto: Option<string>, dpiRuta: Option<string>): (r: Option<Empleado>)
    ensures r.Some? <==> ColumnsValid(b)
    ensures r.Some? ==> Normalized(r.value)
    ensures r.Some? ==> r.value.id == id && r.value.fotoRuta == foto && r.value.dpiRuta == dpiRuta
  {
    if !ColumnsValid(b) then None
    else Some(Empleado(
      id,
      NullIfEmpty(b.codigo),
      NullIfEmpty(b.nombres),
      NullIfEmpty(b.apellidos),
      NullIfEmpty(b.dpi),
      NullIfEmpty(b.fechaNacimiento),
      NullIfEmpty(b.telefono),
      NullIfEmpty(b.direccion),
      IdColumn(b.idRenglon).value,
      IdColumn(b.idDepartamento).value,
      IdColumn(b.idPuesto).value,
      Some(EstadoColumn(b.estado)),
      NullIfEmpty(b.fechaIngreso),
      SalarioColumn(b.salarioBase).value,
      foto,
      dpiRuta))
  }

  /** Column by column: texts and dates go through `x || null`, the keys and the salary
      through their parsers, the estado through its default. */
  lemma RowOfColumns(b: EmpleadoBody, id: int, foto: Option<string>, dpiRuta: Option<string>)
    requires ColumnsValid(b)
    ensures var e := RowOf(b, id, foto, dpiRuta).value;
      e.codigo == NullIfEmpty(b.codigo) && e.nombres == NullIfEmpty(b.nombres)
      && e.apellidos == NullIfEmpty(b.apellidos) && e.dpi == NullIfEmpty(b.dpi)
      && e.telefono == NullIfEmpty(b.telefono) && e.direccion == NullIfEmpty(b.direccion)
      && e.fechaNacimiento == NullIfEmpty(b.fechaNacimiento) && e.fechaIngreso == NullIfEmpty(b.fechaIngreso)
      && Some(e.idRenglon) == IdColumn(b.idRenglon)
      && Some(e.idDepartamento) == IdColumn(b.idDepartamento) && Some(e.idPuesto) == IdColumn(b.idPuesto)
      && Some(e.salarioBase) == SalarioColumn(b.salarioBase) && e.estado == Some(EstadoColumn(b.estado))
  {
  }

  /** An employee created without salary, estado or dates is ACTIVO, earns 0 and has NULL
      dates. */
  lemma CreationDefaults(b: EmpleadoBody, id: int, foto: Option<string>, dpiRuta: Option<string>)
    requires ColumnsValid(b)
    requires !Present(b.salarioBase) && !Present(b.estado) && !Present(b.fechaNacimiento) && !Present(b.fechaIngreso)
    ensures var e := RowOf(b, id, foto, dpiRuta).value;
      e.salarioBase == 0.0 && e.estado == Some(EstadoActivo) && e.fechaNacimiento.None? && e.fechaIngreso.None?
  {
  }

  // ---------------------------------------------------------------------------------
  // PUT /:id
  // ---------------------------------------------------------------------------------

  /** The `UPDATE ... WHERE id_empleado = @id`: the row with that id gets every column
      from the body, but keeps its photo and DPI paths where no new file came
      (`COALESCE(@nueva_foto, foto_perfil_ruta)`); every other row is untouched. */
  function Overwrite(es: seq<Empleado>, id: int, b: EmpleadoBody, nuevaFoto: Option<string>, nuevoDpi: Option<string>): (r: seq<Empleado>)
    requires ColumnsValid(b)
    ensures |r| == |es|
    ensures forall i :: 0 <= i < |es| ==> r[i].id == es[i].id
    ensures forall i :: 0 <= i < |es| && es[i].id != id ==> r[i] == es[i]
    ensures forall i :: 0 <= i < |es| && es[i].id == id ==>
      Some(r[i]) == RowOf(b, id, Coalesce(nuevaFoto, es[i].fotoRuta), Coalesce(nuevoDpi, es[i].dpiRuta))
  {
    seq(|es|, i requires 0 <= i < |es| =>
      if es[i].id == id then RowOf(b, id, Coalesce(nuevaFoto, es[i].fotoRuta), Coalesce(nuevoDpi, es[i].dpiRuta)).value
      else es[i])
  }

  /** Without a new file a path is kept; with one it is replaced, on the updated row only. */
  lemma OverwriteKeepsFiles(es: seq<Empleado>, id: int, b: EmpleadoBody, nuevaFoto: Option<string>, nuevoDpi: Option<string>, i: int)
    requires ColumnsValid(b) && 0 <= i < |es|
    ensures var r := Overwrite(es, id, b, nuevaFoto, nuevoDpi);
      (nuevaFoto.None? ==> r[i].fotoRuta == es[i].fotoRuta) && (nuevoDpi.None? ==> r[i].dpiRuta == es[i].dpiRuta) &&
      (es[i].id == id && nuevaFoto.Some? ==> r[i].fotoRuta == nuevaFoto) &&
      (es[i].id == id && nuevoDpi.Some? ==> r[i].dpiRuta == nuevoDpi)
  {
  }

  /** An id that names no employee changes nothing. */
  lemma OverwriteUnknownId(es: seq<Empleado>, id: int, b: EmpleadoBody, nuevaFoto: Option<string>, nuevoDpi: Option<string>)
    requires ColumnsValid(b)
    requires forall i :: 0 <= i < |es| ==> es[i].id != id
    ensures Overwrite(es, id, b, nuevaFoto, nuevoDpi) == es
  {
  }

  // ---------------------------------------------------------------------------------
  // GET /:id and the listing
  // ---------------------------------------------------------------------------------

  /** `GET /:id`: the row with the URLs of its files. */
  datatype EmpleadoDetalle = EmpleadoDetalle(empleado: Empleado, fotoUrl: Option<string>, dpiUrl: Option<string>)

  function DetalleOf(e: Empleado): (d: EmpleadoDetalle)
    ensures d.empleado == e
    ensures d.fotoUrl.Some? <==> Present(e.fotoRuta)
    ensures d.dpiUrl.Some? <==> Present(e.dpiRuta)
  {
    EmpleadoDetalle(e, FotoUrl(e.fotoRuta), DpiUrl(e.dpiRuta))
  }

  /** `GET /:id`: 400 for an id without digits, 404 for an id of no employee. */
  function Obtener(es: seq<Empleado>, idText: string): (r: Outcome<EmpleadoDetalle>)
    ensures r.Fail? && r.status == BadRequest <==> ParseIntStr(idText).None?
    ensures r.Fail? && r.status == NotFound <==>
      ParseIntStr(idText).Some? && forall i :: 0 <= i < |es| ==> es[i].id != ParseIntStr(idText).value
    ensures r.Fail? ==> r.status == BadRequest || r.status == NotFound
    ensures r.Ok? ==>
      r.value.empleado in es && Some(r.value.empleado.id) == ParseIntStr(idText) && r.value == DetalleOf(r.value.empleado)
  {
    match ParseIntStr(idText)
    case None => Fail(BadRequest, IdEmpleadoInvalido)
    case Some(id) =>
      match FindEmpleado(es, id)
      case None => Fail(NotFound, EmpleadoNoEncontrado)
      case Some(e) => Ok(DetalleOf(e))
  }

  /** Reading an employee back by its id, as the page's URL writes it, answers that very
      row. */
  lemma ObtenerById(es: seq<Empleado>, e: Empleado)
    requires UniqueEmpleadoIds(es) && e in es
    ensures Obtener(es, IntToString(e.id)) == Ok(DetalleOf(e))
  {
    ParseIntOfIntToString(e.id);
    var f := FindEmpleado(es, e.id).value;
    var i :| 0 <= i < |es| && es[i] == e;
    var j :| 0 <= j < |es| && es[j] == f;
    assert i == j;
  }

  /** A row of `GET /`. */
  datatype EmpleadoFila = EmpleadoFila(
    id: int,
    codigo: Option<string>,
    nombre: string,
    dpi: Option<string>,
    puesto: string,
    departamento: string,
    renglon: string,
    estado: Option<string>,
    telefono: Option<string>,
    fechaIngreso: Option<string>,
    salarioBase: real,
    fotoRuta: Option<string>,
    dpiRuta: Option<string>,
    fotoUrl: Option<string>,
    dpiUrl: Option<string>)

  /** `CONVERT(char(10), fecha, 23)`: the `YYYY-MM-DD` text of a date column. */
  function DateText(d: Option<string>): (r: Option<string>)
    ensures r.Some? <==> d.Some?
    ensures r.Some? ==> |r.value| <= 10 && |r.value| <= |d.value| && r.value == d.value[..|r.value|]
  {
    match d
    case Some(s) => Some(Take(s, 10))
    case None => None
  }

  function FilaOf(e: Empleado, renglon: string, departamento: string, puesto: string): EmpleadoFila {
    EmpleadoFila(e.id, e.codigo, NombreCompleto(e), e.dpi, puesto, departamento, renglon, e.estado, e.telefono,
      DateText(e.fechaIngreso), e.salarioBase, e.fotoRuta, e.dpiRuta, FotoUrl(e.fotoRuta), DpiUrl(e.dpiRuta))
  }

  /** The row an employee adds to `GET /`: none unless its renglón, department and post all
      exist (three `INNER JOIN`s). */
  function FilaRow(e: Empleado, rs: seq<Renglon>, ds: seq<Departamento>, ps: seq<Puesto>): (r: seq<EmpleadoFila>)
    ensures |r| <= 1
  {
    match (RenglonOf(e, rs), DependenciaOf(e, ds), e.idPuesto)
    case (Some(rg), Some(d), Some(p)) =>
      (match FindPuesto(ps, p)
       case Some(pn) => [FilaOf(e, rg.codigo, d, pn)]
       case None => [])
    case _ => []
  }

  /** `w` is the listing row of employee `e`. */
  predicate ListedAs(e: Empleado, rs: seq<Renglon>, ds: seq<Departamento>, ps: seq<Puesto>, w: EmpleadoFila) {
    RenglonOf(e, rs).Some? && DependenciaOf(e, ds).Some? && e.idPuesto.Some? && FindPuesto(ps, e.idPuesto.value).Some?
    && w == FilaOf(e, RenglonOf(e, rs).value.codigo, DependenciaOf(e, ds).value, FindPuesto(ps, e.idPuesto.value).value)
  }

  function Filas(es: seq<Empleado>, rs: seq<Renglon>, ds: seq<Departamento>, ps: seq<Puesto>): (r: seq<EmpleadoFila>)
    ensures |r| <= |es|
  {
    if es == [] then []
    else Filas(es[..|es| - 1], rs, ds, ps) + FilaRow(es[|es| - 1], rs, ds, ps)
  }

  lemma FilaRowListed(e: Empleado, rs: seq<Renglon>, ds: seq<Departamento>, ps: seq<Puesto>, w: EmpleadoFila)
    ensures w in FilaRow(e, rs, ds, ps) <==> ListedAs(e, rs, ds, ps, w)
  {
  }

  lemma {:induction false} FilasMembers(es: seq<Empleado>, rs: seq<Renglon>, ds: seq<Departamento>, ps: seq<Puesto>, w: EmpleadoFila)
    ensures w in Filas(es, rs, ds, ps) <==> exists i :: 0 <= i < |es| && ListedAs(es[i], rs, ds, ps, w)
  {
    var parts := seq(|es|, i requires 0 <= i < |es| => FilaRow(es[i], rs, ds, ps));
    FilasConcat(es, rs, ds, ps);
    ConcatMembers(parts, w);
    if exists i :: 0 <= i < |parts| && w in parts[i] {
      var i :| 0 <= i < |parts| && w in parts[i];
      FilaRowListed(es[i], rs, ds, ps, w);
    }
    if exists i :: 0 <= i < |es| && ListedAs(es[i], rs, ds, ps, w) {
      var i :| 0 <= i < |es| && ListedAs(es[i], rs, ds, ps, w);
      FilaRowListed(es[i], rs, ds, ps, w);
      assert w in parts[i];
    }
  }

  /** The listing is the employees' rows joined in order. */
  lemma {:induction false} FilasConcat(es: seq<Empleado>, rs: seq<Renglon>, ds: seq<Departamento>, ps: seq<Puesto>)
    ensures Filas(es, rs, ds, ps) == Concat(seq(|es|, i requires 0 <= i < |es| => FilaRow(es[i], rs, ds, ps)))
  {
    var parts := seq(|es|, i requires 0 <= i < |es| => FilaRow(es[i], rs, ds, ps));
    if es != [] {
      var p := es[..|es| - 1];
      FilasConcat(p, rs, ds, ps);
      assert parts[..|parts| - 1] == seq(|p|, i requires 0 <= i < |p| => FilaRow(p[i], rs, ds, ps));
      assert Filas(es, rs, ds, ps) == Filas(p, rs, ds, ps) + FilaRow(es[|es| - 1], rs, ds, ps);
      assert Concat(parts) == Concat(parts[..|parts| - 1]) + parts[|parts| - 1];
    }
  }

  function FilaKey(w: EmpleadoFila): string {
    w.codigo.GetOr("")
  }

  /** `GET /`: the joined rows ordered by code, each with its file URLs. */
  function Listado(es: seq<Empleado>, rs: seq<Renglon>, ds: seq<Departamento>, ps: seq<Puesto>): (r: seq<EmpleadoFila>)
    ensures |r| <= |es|
    ensures SortedBy(r, FilaKey)
  {
    SortBy(Filas(es, rs, ds, ps), FilaKey)
  }

  /** An employee is listed exactly when its three joins find a row; its URLs are present
      exactly when its paths are, and are the static prefixes followed by the path. */
  lemma ListadoMembers(es: seq<Empleado>, rs: seq<Renglon>, ds: seq<Departamento>, ps: seq<Puesto>, w: EmpleadoFila)
    ensures w in Listado(es, rs, ds, ps) <==> exists i :: 0 <= i < |es| && ListedAs(es[i], rs, ds, ps, w)
    ensures w in Listado(es, rs, ds, ps) ==>
      (w.fotoUrl.Some? <==> Present(w.fotoRuta)) && (w.fotoUrl.Some? ==> w.fotoUrl.value == FotosUrl + w.fotoRuta.value) &&
      (w.dpiUrl.Some? <==> Present(w.dpiRuta)) && (w.dpiUrl.Some? ==> w.dpiUrl.value == DpisUrl + w.dpiRuta.value)
  {
    SortByMembers(Filas(es, rs, ds, ps), FilaKey, w);
    FilasMembers(es, rs, ds, ps, w);
  }

  // ---------------------------------------------------------------------------------
  // GET /buscar
  // ---------------------------------------------------------------------------------

  /** A row of `GET /buscar`. */
  datatype Coincidencia = Coincidencia(id: int, codigo: Option<string>, nombre: string, dpi: Option<string>, renglon: string)

  /** `col LIKE '%term%'`, the term read literally: a NULL column never matches. */
  predicate Like(col: Option<string>, term: string) {
    col.Some? && Contains(col.value, term)
  }

  /** `e.nombres + ' ' + e.apellidos`: `+` with a NULL operand is NULL. */
  function NombreMas(e: Empleado): (r: Option<string>)
    ensures r.Some? <==> e.nombres.Some? && e.apellidos.Some?
  {
    if e.nombres.Some? && e.apellidos.Some? then Some(e.nombres.value + " " + e.apellidos.value) else None
  }

  /** The `WHERE` of the search: DPI, code or full name contains the term. */
  predicate Busca(e: Empleado, term: string) {
    Like(e.dpi, term) || Like(e.codigo, term) || Like(NombreMas(e), term)
  }

  /** `w` is the search row of employee `e` for `term`: it matches and has a renglón. */
  predicate FoundAs(e: Empleado, rs: seq<Renglon>, term: string, w: Coincidencia) {
    Busca(e, term) && RenglonOf(e, rs).Some?
    && w == Coincidencia(e.id, e.codigo, NombreCompleto(e), e.dpi, RenglonOf(e, rs).value.codigo)
  }

  function CandidatoRow(e: Empleado, rs: seq<Renglon>, term: string): (r: seq<Coincidencia>)
    ensures |r| <= 1
  {
    match RenglonOf(e, rs)
    case Some(rg) => if Busca(e, term) then [Coincidencia(e.id, e.codigo, NombreCompleto(e), e.dpi, rg.codigo)] else []
    case None => []
  }

  /** Every matching employee with a renglón, before `ORDER BY` and `TOP`. */
  function Candidatos(es: seq<Empleado>, rs: seq<Renglon>, term: string): (r: seq<Coincidencia>)
    ensures |r| <= |es|
  {
    if es == [] then []
    else Candidatos(es[..|es| - 1], rs, term) + CandidatoRow(es[|es| - 1], rs, term)
  }

  lemma {:induction false} CandidatosMembers(es: seq<Empleado>, rs: seq<Renglon>, term: string, w: Coincidencia)
    ensures w in Candidatos(es, rs, term) <==> exists i :: 0 <= i < |es| && FoundAs(es[i], rs, term, w)
  {
    var parts := seq(|es|, i requires 0 <= i < |es| => CandidatoRow(es[i], rs, term));
    CandidatosConcat(es, rs, term);
    ConcatMembers(parts, w);
    if exists i :: 0 <= i < |parts| && w in parts[i] {
      var i :| 0 <= i < |parts| && w in parts[i];
      CandidatoRowFound(es[i], rs, term, w);
    }
    if exists i :: 0 <= i < |es| && FoundAs(es[i], rs, term, w) {
      var i :| 0 <= i < |es| && FoundAs(es[i], rs, term, w);
      CandidatoRowFound(es[i], rs, term, w);
      assert w in parts[i];
    }
  }

  lemma CandidatoRowFound(e: Empleado, rs: seq<Renglon>, term: string, w: Coincidencia)
    ensures w in CandidatoRow(e, rs, term) <==> FoundAs(e, rs, term, w)
  {
  }

  /** The candidates are the employees' rows joined in order. */
  lemma {:induction false} CandidatosConcat(es: seq<Empleado>, rs: seq<Renglon>, term: string)
    ensures Candidatos(es, rs, term) == Concat(seq(|es|, i requires 0 <= i < |es| => CandidatoRow(es[i], rs, term)))
  {
    var parts := seq(|es|, i requires 0 <= i < |es| => CandidatoRow(es[i], rs, term));
    if es != [] {
      var p := es[..|es| - 1];
      CandidatosConcat(p, rs, term);
      assert parts[..|parts| - 1] == seq(|p|, i requires 0 <= i < |p| => CandidatoRow(p[i], rs, term));
      assert Candidatos(es, rs, term) == Candidatos(p, rs, term) + CandidatoRow(es[|es| - 1], rs, term);
      assert Concat(parts) == Concat(parts[..|parts| - 1]) + parts[|parts| - 1];
    }
  }

  function CoincidenciaKey(w: Coincidencia): string {
    w.codigo.GetOr("")
  }

  function Prefix<T>(s: seq<T>, n: nat): (r: seq<T>)
    ensures |r| <= n && |r| <= |s|
    ensures |s| <= n ==> r == s
    ensures |s| > n ==> r == s[..n]
  {
    if |s| <= n then s else s[..n]
  }

  /** `GET /buscar?q=`: nothing for a blank term; otherwise the first 20 matches by code. */
  function Buscar(es: seq<Empleado>, rs: seq<Renglon>, q: Option<string>): (r: seq<Coincidencia>)
    ensures Trim(q.GetOr("")) == [] ==> r == []
    ensures |r| <= BuscarMax
    ensures SortedBy(r, CoincidenciaKey)
  {
    var termino := Trim(q.GetOr(""));
    if termino == [] then []
    else
      var s := SortBy(Candidatos(es, rs, termino), CoincidenciaKey);
      var r := Prefix(s, BuscarMax);
      assert forall i, j :: 0 <= i < j < |r| ==> r[i] == s[i] && r[j] == s[j];
      r
  }

  /** The search answers only matches; a match it leaves out comes after every row it
      answers, which happens only when there are more than 20 matches. */
  lemma BuscarMembers(es: seq<Empleado>, rs: seq<Renglon>, q: Option<string>, w: Coincidencia)
    requires Trim(q.GetOr("")) != []
    ensures var t := Trim(q.GetOr(""));
      w in Buscar(es, rs, q) ==> exists i :: 0 <= i < |es| && FoundAs(es[i], rs, t, w)
    ensures var t := Trim(q.GetOr(""));
      (exists i :: 0 <= i < |es| && FoundAs(es[i], rs, t, w)) && w !in Buscar(es, rs, q) ==>
        |Candidatos(es, rs, t)| > BuscarMax &&
        forall v :: v in Buscar(es, rs, q) ==> LexLe(CoincidenciaKey(v), CoincidenciaKey(w))
  {
    var t := Trim(q.GetOr(""));
    var c := Candidatos(es, rs, t);
    var s := SortBy(c, CoincidenciaKey);
    assert Buscar(es, rs, q) == Prefix(s, BuscarMax);
    CandidatosMembers(es, rs, t, w);
    SortByMembers(c, CoincidenciaKey, w);
    PrefixMembers(s, BuscarMax, w);
    if w in c && w !in Prefix(s, BuscarMax) {
      PrefixCutoff(s, CoincidenciaKey, BuscarMax, w);
    }
  }

  lemma PrefixMembers<T>(s: seq<T>, n: nat, w: T)
    ensures w in Prefix(s, n) ==> w in s
  {
    if |s| > n {
      assert s == s[..n] + s[n..];
    }
  }

  /** An element of a sorted list that its first `n` leave out follows all of them. */
  lemma PrefixCutoff<T>(s: seq<T>, key: T -> string, n: nat, w: T)
    requires SortedBy(s, key) && w in s && w !in Prefix(s, n)
    ensures |s| > n && forall v :: v in Prefix(s, n) ==> LexLe(key(v), key(w))
  {
    var k :| 0 <= k < |s| && s[k] == w;
    assert k >= n;
    forall v | v in Prefix(s, n)
      ensures LexLe(key(v), key(w))
    {
      var j :| 0 <= j < |s[..n]| && s[..n][j] == v;
      assert s[j] == v;
    }
  }

  // ---------------------------------------------------------------------------------
  // The Empleados table
  // ---------------------------------------------------------------------------------

  /** The answer of `POST /`: the new id, the fields sent as they came, the name as a
      template, NULL post, department and renglón, the stored estado, salary and paths,
      no vacation days, and the URLs. */
  datatype EmpleadoCreado = EmpleadoCreado(
    id: int,
    codigo: Option<string>,
    nombre: string,
    dpi: Option<string>,
    puesto: Option<string>,
    departamento: Option<string>,
    renglon: Option<string>,
    estado: string,
    telefono: Option<string>,
    fechaIngreso: Option<string>,
    salarioBase: real,
    vacacionesDisponibles: int,
    fotoRuta: Option<string>,
    dpiRuta: Option<string>,
    fotoUrl: Option<string>,
    dpiUrl: Option<string>)

  /** `${x}` in a template literal: a field that was not sent reads as "undefined". */
  function TemplateText(x: Option<string>): (t: string)
    ensures x.Some? ==> t == x.value
    ensures x.None? ==> t == "undefined"
  {
    x.GetOr("undefined")
  }

  /** The answer's `` `${nombres} ${apellidos}` ``. */
  function NombreCreado(b: EmpleadoBody): string {
    TemplateText(b.nombres) + " " + TemplateText(b.apellidos)
  }

  /** When both name parts were sent, the answer's name is the one the listings and
      `GET /:id` compute from the stored row with `CONCAT`; a part that was not sent shows
      as "undefined" in the answer while the row stores NULL. */
  lemma NombreCreadoOfRow(b: EmpleadoBody, id: int, foto: Option<string>, dpiRuta: Option<string>)
    requires ColumnsValid(b)
    ensures Present(b.nombres) && Present(b.apellidos) ==>
      NombreCreado(b) == NombreCompleto(RowOf(b, id, foto, dpiRuta).value)
    ensures b.nombres.None? ==>
      StartsWith(NombreCreado(b), "undefined ") && RowOf(b, id, foto, dpiRuta).value.nombres.None?
  {
    var n := NombreCreado(b);
    if b.nombres.None? {
      assert n[..|"undefined "|] == "undefined ";
    }
  }

  class EmployeeStore {
    var empleados: seq<Empleado>
    /** The next `IDENTITY` value. */
    var nextId: int

    ghost predicate Valid()
      reads this
    {
      UniqueEmpleadoIds(empleados)
      && (forall i :: 0 <= i < |empleados| ==> empleados[i].id < nextId)
      && forall i :: 0 <= i < |empleados| ==> Normalized(empleados[i])
    }

    constructor ()
      ensures Valid() && empleados == [] && nextId == 1
    {
      empleados := [];
      nextId := 1;
    }

    /** `POST /`: the form's columns with the stored names of the files that came; a NaN
        field gives 500 and leaves the table and the identity as they were. Each file is
        named with the clock reading taken when the storage handled it. */
    method Crear(b: EmpleadoBody, foto: Option<Upload>, dpiDoc: Option<Upload>, fotoTs: nat, dpiTs: nat) returns (out: Outcome<EmpleadoCreado>)
      requires Valid()
      modifies this`empleados, this`nextId
      ensures Valid()
      ensures out.Fail? <==> !ColumnsValid(b)
      ensures out.Fail? ==>
        out.status == ServerError && out.message == ErrorCrearEmpleado && empleados == old(empleados) && nextId == old(nextId)
      ensures out.Ok? ==>
        var e := RowOf(b, old(nextId), RutaOf("foto", foto, fotoTs), RutaOf("dpi", dpiDoc, dpiTs)).value;
        empleados == old(empleados) + [e] && nextId == old(nextId) + 1 &&
        out.value == EmpleadoCreado(e.id, b.codigo, NombreCreado(b), b.dpi, None, None, None,
          EstadoColumn(b.estado), b.telefono, b.fechaIngreso, e.salarioBase, 0, e.fotoRuta, e.dpiRuta,
          FotoUrl(e.fotoRuta), DpiUrl(e.dpiRuta))
    {
      var fotoRuta := RutaOf("foto", foto, fotoTs);
      var dpiRuta := RutaOf("dpi", dpiDoc, dpiTs);
      var row := RowOf(b, nextId, fotoRuta, dpiRuta);
      if row.None? {
        out := Fail(ServerError, ErrorCrearEmpleado);
        return;
      }
      var e := row.value;
      Append(e);
      out := Ok(EmpleadoCreado(e.id, b.codigo, NombreCreado(b), b.dpi, None, None, None,
        EstadoColumn(b.estado), b.telefono, b.fechaIngreso, e.salarioBase, 0, e.fotoRuta, e.dpiRuta,
        FotoUrl(e.fotoRuta), DpiUrl(e.dpiRuta)));
    }

    /** The `INSERT` with the `IDENTITY` value as id. */
    method Append(e: Empleado)
      requires Valid() && Normalized(e) && e.id == nextId
      modifies this`empleados, this`nextId
      ensures Valid()
      ensures empleados == old(empleados) + [e] && nextId == old(nextId) + 1
    {
      empleados := empleados + [e];
      nextId := nextId + 1;
    }

    /** `PUT /:id`: 400 for an id without digits, then 500 for a NaN field; otherwise the
        row of that id, if any, is overwritten and keeps the paths of files that did not
        come. */
    method Actualizar(idText: string, b: EmpleadoBody, foto: Option<Upload>, dpiDoc: Option<Upload>, fotoTs: nat, dpiTs: nat) returns (out: Outcome<string>)
      requires Valid()
      modifies this`empleados
      ensures Valid()
      ensures out.Fail? && out.status == BadRequest <==> ParseIntStr(idText).None?
      ensures out.Fail? && out.status == ServerError <==> ParseIntStr(idText).Some? && !ColumnsValid(b)
      ensures out.Fail? ==> empleados == old(empleados)
      ensures out.Ok? ==>
        out.value == EmpleadoActualizado && ColumnsValid(b) &&
        empleados == Overwrite(old(empleados), ParseIntStr(idText).value, b,
          RutaOf("foto", foto, fotoTs), RutaOf("dpi", dpiDoc, dpiTs))
    {
      var id := ParseIntStr(idText);
      if id.None? {
        out := Fail(BadRequest, IdEmpleadoInvalido);
        return;
      }
      if !ColumnsValid(b) {
        out := Fail(ServerError, ErrorActualizarEmpleado);
        return;
      }
      var nuevos := Overwrite(empleados, id.value, b, RutaOf("foto", foto, fotoTs), RutaOf("dpi", dpiDoc, dpiTs));
      assert forall i, j :: 0 <= i < j < |nuevos| ==> nuevos[i].id == empleados[i].id && nuevos[j].id == empleados[j].id;
      empleados := nuevos;
      out := Ok(EmpleadoActualizado);
    }
  }
}
