/** The leave requests of `permisos.routes.js` (permisos): the listing, creating a request
    for an employee found by DPI, changing its estado, and attaching the signed form, whose
    file name the upload storage builds from the DPI, a timestamp and the original
    extension. */
module LeaveRoutes {
  import opened Prelude
  import opened Text
  import opened Numbers
  import opened Schema
  import opened Dates
  import opened VacationRoutes

  const FaltanPermiso := "Faltan datos obligatorios (dpi, tipo, fechaInicio, motivo)."
  const ErrorCrearPermiso := "Error al crear permiso"
  const PermisoIdInvalido := "id_permiso inv\U{00E1}lido"
  const PermisoActualizado := "Permiso actualizado correctamente."
  const SinArchivo := "No se recibi\U{00F3} ning\U{00FA}n archivo."
  const SinDpi := "sin_dpi"
  const PermisoInfix := "_permiso_"

  /** A row of `Permisos`. */
  datatype Permiso = Permiso(
    id: int,
    idEmpleado: int,
    tipo: string,
    fechaInicio: string,
    fechaFin: string,
    motivo: string,
    fechaSolicitud: string,
    estado: string,
    archivoFirmado: Option<string>)

  /** The body of `POST /`. */
  datatype PermisoBody = PermisoBody(
    dpi: Option<string>,
    tipo: Option<string>,
    fechaInicio: Option<string>,
    fechaFin: Option<string>,
    motivo: Option<string>)

  /** A row of `GET /`, with the employee's DPI, name and department. */
  datatype PermisoView = PermisoView(
    id: int,
    dpi: Option<string>,
    empleado: string,
    dependencia: Option<string>,
    tipo: string,
    fechaInicio: string,
    fechaFin: string,
    motivo: string,
    fechaSolicitud: string,
    estado: string,
    archivoFirmadoNombre: Option<string>)

  function PermisoViewOf(p: Permiso, e: Empleado, ds: seq<Departamento>): PermisoView {
    PermisoView(p.id, e.dpi, NombreCompleto(e), DependenciaOf(e, ds), p.tipo, p.fechaInicio, p.fechaFin, p.motivo,
      p.fechaSolicitud, p.estado, p.archivoFirmado)
  }

  /** `GET /`: every request joined with its employee; the department may be missing. */
  function PermisosListado(es: seq<Empleado>, ds: seq<Departamento>, ps: seq<Permiso>): (r: seq<PermisoView>)
    ensures |r| <= |ps|
    ensures forall i :: 0 <= i < |r| ==> exists j :: 0 <= j < |ps| && r[i].id == ps[j].id && r[i].estado == ps[j].estado
  {
    if ps == [] then []
    else
      var p := ps[|ps| - 1];
      var init := PermisosListado(es, ds, ps[..|ps| - 1]);
      init + match FindEmpleado(es, p.idEmpleado) case Some(e) => [PermisoViewOf(p, e, ds)] case None => []
  }

  /** `w` is the listing row of request `p`: its employee exists (`INNER JOIN`), and the
      row carries that employee's DPI, full name and department (`LEFT JOIN`). */
  predicate PermisoListedAs(es: seq<Empleado>, ds: seq<Departamento>, p: Permiso, w: PermisoView) {
    FindEmpleado(es, p.idEmpleado).Some? && w == PermisoViewOf(p, FindEmpleado(es, p.idEmpleado).value, ds)
  }

  /** A row is listed exactly when it is the joined row of some request. */
  lemma {:induction false} PermisosListadoMembers(es: seq<Empleado>, ds: seq<Departamento>, ps: seq<Permiso>, w: PermisoView)
    ensures w in PermisosListado(es, ds, ps) <==> exists j :: 0 <= j < |ps| && PermisoListedAs(es, ds, ps[j], w)
    ensures w in PermisosListado(es, ds, ps) ==>
      exists e :: e in es && w.dpi == e.dpi && w.empleado == NombreCompleto(e) && w.dependencia == DependenciaOf(e, ds)
  {
    if ps != [] {
      var p := ps[..|ps| - 1];
      PermisosListadoMembers(es, ds, p, w);
      assert forall j :: 0 <= j < |p| ==> ps[j] == p[j];
      assert w in PermisosListado(es, ds, ps) <==> w in PermisosListado(es, ds, p) || PermisoListedAs(es, ds, ps[|ps| - 1], w);
    }
  }

  /** `!dpi || !tipo || !fechaInicio || !motivo`: the end date is optional. */
  predicate PermisoHasRequired(b: PermisoBody) {
    Present(b.dpi) && Present(b.tipo) && Present(b.fechaInicio) && Present(b.motivo)
  }

  /** `fechaFin || fechaInicio`. */
  function FechaFinReal(b: PermisoBody): (f: string)
    requires Present(b.fechaInicio)
    ensures Present(b.fechaFin) ==> f == b.fechaFin.value
    ensures !Present(b.fechaFin) ==> f == b.fechaInicio.value
  {
    OrElse(b.fechaFin, b.fechaInicio).value
  }

  /** The row `POST /` inserts under `id`, or the response it sends instead. A date the
      `date` column cannot hold makes the insert fail. */
  function NewPermiso(es: seq<Empleado>, b: PermisoBody, hoy: string, id: int): (r: Outcome<Permiso>)
    ensures r == Fail(BadRequest, FaltanPermiso) <==> !PermisoHasRequired(b)
    ensures r == Fail(BadRequest, SinEmpleado) <==> PermisoHasRequired(b) && FirstByDpi(es, b.dpi.value).None?
    ensures r == Fail(ServerError, ErrorCrearPermiso) <==>
      PermisoHasRequired(b) && FirstByDpi(es, b.dpi.value).Some? && !(SqlDate(b.fechaInicio.value) && SqlDate(FechaFinReal(b)))
    ensures r.Ok? ==>
      PermisoHasRequired(b) && FirstByDpi(es, b.dpi.value).Some? &&
      r.value == Permiso(id, FirstByDpi(es, b.dpi.value).value.id, b.tipo.value, b.fechaInicio.value, FechaFinReal(b),
        b.motivo.value, hoy, Pendiente, None)
  {
    if !PermisoHasRequired(b) then Fail(BadRequest, FaltanPermiso)
    else
      match FirstByDpi(es, b.dpi.value)
      case None => Fail(BadRequest, SinEmpleado)
      case Some(e) =>
        if !(SqlDate(b.fechaInicio.value) && SqlDate(FechaFinReal(b))) then Fail(ServerError, ErrorCrearPermiso)
        else Ok(Permiso(id, e.id, b.tipo.value, b.fechaInicio.value, FechaFinReal(b), b.motivo.value, hoy, Pendiente, None))
  }

  /** Without an end date the request covers its start day alone. */
  lemma OneDayByDefault(es: seq<Empleado>, b: PermisoBody, hoy: string, id: int)
    requires NewPermiso(es, b, hoy, id).Ok? && !Present(b.fechaFin)
    ensures NewPermiso(es, b, hoy, id).value.fechaFin == NewPermiso(es, b, hoy, id).value.fechaInicio
  {
  }

  /** `UPDATE Permisos SET estado = @estado WHERE id_permiso = @id`. */
  function SetPermisoEstado(ps: seq<Permiso>, id: int, estado: string): (r: seq<Permiso>)
    ensures |r| == |ps|
    ensures forall i :: 0 <= i < |ps| ==> r[i] == if ps[i].id == id then ps[i].(estado := estado) else ps[i]
  {
    seq(|ps|, i requires 0 <= i < |ps| => if ps[i].id == id then ps[i].(estado := estado) else ps[i])
  }

  /** `UPDATE Permisos SET archivo_firmado = @archivo WHERE id_permiso = @id`. */
  function SetArchivo(ps: seq<Permiso>, id: int, archivo: string): (r: seq<Permiso>)
    ensures |r| == |ps|
    ensures forall i :: 0 <= i < |ps| ==> r[i] == if ps[i].id == id then ps[i].(archivoFirmado := Some(archivo)) else ps[i]
  {
    seq(|ps|, i requires 0 <= i < |ps| => if ps[i].id == id then ps[i].(archivoFirmado := Some(archivo)) else ps[i])
  }

  // ---------------------------------------------------------------------------------
  // The signed form's file name
  // ---------------------------------------------------------------------------------

  /** `path.extname(file.originalname) || ".pdf"`. */
  function ExtOrPdf(name: string): (x: string)
    ensures x == (if Extname(name) == "" then ".pdf" else Extname(name))
    ensures x != [] && x[0] == '.'
  {
    if Extname(name) == "" then ".pdf" else Extname(name)
  }

  /** The storage's `filename` AS WRITTEN: `(dpi || "sin_dpi").replace(/\D/g, "")` also
      strips the placeholder, which has no digit. */
  function FirmadoFilenameAsWritten(dpi: Option<string>, timestamp: nat, originalName: string): string {
    DigitsOnly(DpiOrPlaceholder(dpi)) + PermisoInfix + NatToString(timestamp) + ExtOrPdf(originalName)
  }

  /** `dpi || "sin_dpi"`. */
  function DpiOrPlaceholder(dpi: Option<string>): (s: string)
    ensures Present(dpi) ==> s == dpi.value
    ensures !Present(dpi) ==> s == SinDpi
  {
    if Present(dpi) then dpi.value else SinDpi
  }

  /** Without a DPI field the name as written starts with the bare infix: the placeholder
      is lost. */
  lemma PlaceholderErased(timestamp: nat, originalName: string)
    ensures FirmadoFilenameAsWritten(None, timestamp, originalName) == PermisoInfix + NatToString(timestamp) + ExtOrPdf(originalName)
  {
    var d := DigitsOnly(DpiOrPlaceholder(None));
    PlaceholderHasNoDigit(DpiOrPlaceholder(None));
    assert d + PermisoInfix == PermisoInfix;
  }

  /** The placeholder has no digit, so the digit filter leaves nothing of it. */
  lemma PlaceholderHasNoDigit(s: string)
    requires s == SinDpi
    ensures DigitsOnly(s) == ""
  {
    forall k | 0 <= k < |s|
      ensures !IsDigit(s[k])
    {
    }
    DigitsOnlyNoDigits(s);
  }

  /** The DPI part of the name: the digits of the DPI, or the placeholder when it has none. */
  function DpiPart(dpi: Option<string>): (d: string)
    ensures d == SinDpi || (d != [] && AllDigits(d))
    ensures Present(dpi) && DigitsOnly(dpi.value) != [] ==> d == DigitsOnly(dpi.value)
  {
    var digits := DigitsOnly(dpi.GetOr(""));
    if digits == [] then SinDpi else digits
  }

  /** The stored name of a signed form: what the storage evidently means to build. Its
      parts can be read back: the DPI part, the infix, then the timestamp. */
  function FirmadoFilename(dpi: Option<string>, timestamp: nat, originalName: string): (f: string)
    ensures var d := DpiPart(dpi);
      |d| + |PermisoInfix| <= |f| && f[..|d|] == d && f[|d|..|d| + |PermisoInfix|] == PermisoInfix &&
      DigitPrefix(f[|d| + |PermisoInfix|..]) == NatToString(timestamp)
  {
    var t := NatToString(timestamp);
    var x := ExtOrPdf(originalName);
    FourParts(DpiPart(dpi), PermisoInfix, t, x);
    DigitPrefixOfDigits(t);
    DigitPrefixStops(t, x);
    DpiPart(dpi) + PermisoInfix + t + x
  }

  /** Every stored name says whose form it is: it starts with the DPI's digits or with the
      placeholder, never with the bare infix. */
  lemma FirmadoNamesTheDpi(dpi: Option<string>, timestamp: nat, originalName: string)
    ensures var f := FirmadoFilename(dpi, timestamp, originalName);
      f[..|DpiPart(dpi)|] == DpiPart(dpi) && DpiPart(dpi) != [] && f[0] != '_'
  {
  }

  /** Where the DPI has a digit the two names agree. */
  lemma FirmadoAgrees(dpi: string, timestamp: nat, originalName: string)
    requires DigitsOnly(dpi) != []
    ensures FirmadoFilename(Some(dpi), timestamp, originalName) == FirmadoFilenameAsWritten(Some(dpi), timestamp, originalName)
  {
  }

  /** A file without an extension is stored as a PDF. */
  lemma PdfByDefault(dpi: Option<string>, timestamp: nat, originalName: string)
    requires forall k :: 0 <= k < |originalName| ==> originalName[k] != '.'
    ensures var f := FirmadoFilenameAsWritten(dpi, timestamp, originalName); f[|f| - 4..] == ".pdf"
  {
    var b := BaseName(originalName);
    assert forall k :: 0 <= k < |b| ==> b[k] == originalName[|originalName| - |b| + k];
    assert LastIndexOf(b, '.').None?;
  }

  /** The name as written is the DPI's digits (none without a DPI), the infix, the
      timestamp and the extension. */
  lemma AsWrittenDigitsOfDpi(dpi: Option<string>, timestamp: nat, originalName: string)
    ensures FirmadoFilenameAsWritten(dpi, timestamp, originalName) ==
      DigitsOnly(dpi.GetOr("")) + PermisoInfix + NatToString(timestamp) + ExtOrPdf(originalName)
  {
    if !Present(dpi) {
      PlaceholderHasNoDigit(DpiOrPlaceholder(dpi));
    }
  }

  /** The parts of a stored name can be read back: an all-digit DPI part (empty without a
      DPI), the infix, then the timestamp. */
  lemma FirmadoParts(dpi: Option<string>, timestamp: nat, originalName: string)
    ensures var f := FirmadoFilenameAsWritten(dpi, timestamp, originalName);
      var d := DigitsOnly(dpi.GetOr(""));
      AllDigits(d) && f[..|d|] == d && f[|d|..|d| + |PermisoInfix|] == PermisoInfix &&
      DigitPrefix(f[|d| + |PermisoInfix|..]) == NatToString(timestamp)
  {
    var f := FirmadoFilenameAsWritten(dpi, timestamp, originalName);
    var d := DigitsOnly(dpi.GetOr(""));
    var t := NatToString(timestamp);
    var x := ExtOrPdf(originalName);
    AsWrittenDigitsOfDpi(dpi, timestamp, originalName);
    assert f == d + PermisoInfix + t + x;
    FourParts(d, PermisoInfix, t, x);
    assert f[|d| + |PermisoInfix|..] == t + x;
    DigitPrefixOfDigits(t);
    DigitPrefixStops(t, x);
    assert DigitPrefix(t + x) == t;
  }

  lemma FourParts<T>(a: seq<T>, b: seq<T>, c: seq<T>, d: seq<T>)
    ensures var s := a + b + c + d;
      s[..|a|] == a && s[|a|..|a| + |b|] == b && s[|a| + |b|..] == c + d
  {
    var s := a + b + c + d;
    assert s == a + (b + (c + d));
  }

  // ---------------------------------------------------------------------------------
  // The table
  // ---------------------------------------------------------------------------------

  predicate UniquePermisoIds(ps: seq<Permiso>) {
    forall i, j :: 0 <= i < j < |ps| ==> ps[i].id != ps[j].id
  }

  class LeaveStore {
    var permisos: seq<Permiso>
    /** The next value of the IDENTITY column. */
    var nextId: int

    ghost predicate Valid()
      reads this
    {
      UniquePermisoIds(permisos) && forall i :: 0 <= i < |permisos| ==> permisos[i].id < nextId
    }

    constructor ()
      ensures Valid() && permisos == [] && nextId == 1
    {
      permisos := [];
      nextId := 1;
    }

    /** `POST /`: the new id, or the refusal; a refused request writes nothing. */
    method Crear(es: seq<Empleado>, b: PermisoBody, hoy: string) returns (out: Outcome<int>)
      requires Valid()
      modifies this
      ensures Valid()
      ensures NewPermiso(es, b, hoy, old(nextId)).Fail? ==>
        out == Fail(NewPermiso(es, b, hoy, old(nextId)).status, NewPermiso(es, b, hoy, old(nextId)).message) &&
        permisos == old(permisos) && nextId == old(nextId)
      ensures NewPermiso(es, b, hoy, old(nextId)).Ok? ==>
        permisos == old(permisos) + [NewPermiso(es, b, hoy, old(nextId)).value] && nextId == old(nextId) + 1 &&
        out == Ok(old(nextId))
    {
      var r := NewPermiso(es, b, hoy, nextId);
      if r.Fail? {
        return Fail(r.status, r.message);
      }
      permisos := permisos + [r.value];
      out := Ok(nextId);
      nextId := nextId + 1;
    }

    /** `PUT /:id`: estado is checked before the id; only the estado column changes. */
    method Actualizar(idText: string, estado: Option<string>) returns (out: Outcome<string>)
      requires Valid()
      modifies this`permisos
      ensures Valid()
      ensures !Present(estado) ==> out == Fail(BadRequest, EstadoObligatorio) && permisos == old(permisos)
      ensures Present(estado) && ParseIntStr(idText).None? ==> out == Fail(BadRequest, PermisoIdInvalido) && permisos == old(permisos)
      ensures Present(estado) && ParseIntStr(idText).Some? ==>
        out == Ok(PermisoActualizado) && permisos == SetPermisoEstado(old(permisos), ParseIntStr(idText).value, estado.value)
    {
      if !Present(estado) {
        return Fail(BadRequest, EstadoObligatorio);
      }
      var id := ParseIntStr(idText);
      if id.None? {
        return Fail(BadRequest, PermisoIdInvalido);
      }
      permisos := SetPermisoEstado(permisos, id.value, estado.value);
      out := Ok(PermisoActualizado);
    }

    /** `handleUploadFirmado` (`POST /:id/firmado` and `/:id/upload`): the id is checked
        before the file; the name the storage built from the DPI field it saw is recorded
        on the row and returned. */
    method SubirFirmado(idText: string, file: Option<Upload>, dpiField: Option<string>, timestamp: nat) returns (out: Outcome<string>)
      requires Valid()
      modifies this`permisos
      ensures Valid()
      ensures ParseIntStr(idText).None? ==> out == Fail(BadRequest, PermisoIdInvalido) && permisos == old(permisos)
      ensures ParseIntStr(idText).Some? && file.None? ==> out == Fail(BadRequest, SinArchivo) && permisos == old(permisos)
      ensures ParseIntStr(idText).Some? && file.Some? ==>
        var name := FirmadoFilenameAsWritten(dpiField, timestamp, file.value.originalName);
        out == Ok(name) && permisos == SetArchivo(old(permisos), ParseIntStr(idText).value, name)
    {
      var id := ParseIntStr(idText);
      if id.None? {
        return Fail(BadRequest, PermisoIdInvalido);
      }
      if file.None? {
        return Fail(BadRequest, SinArchivo);
      }
      var name := FirmadoFilenameAsWritten(dpiField, timestamp, file.value.originalName);
      Record(id.value, name);
      out := Ok(name);
    }

    /** The `UPDATE` of the signed form's name. */
    method Record(id: int, name: string)
      requires Valid()
      modifies this`permisos
      ensures Valid() && permisos == SetArchivo(old(permisos), id, name)
    {
      permisos := SetArchivo(permisos, id, name);
    }
  }

  /** Changing the estado keeps the rest of every row, the signed form included. */
  lemma SetPermisoEstadoKeeps(ps: seq<Permiso>, id: int, estado: string, i: int)
    requires 0 <= i < |ps|
    ensures SetPermisoEstado(ps, id, estado)[i].archivoFirmado == ps[i].archivoFirmado
    ensures SetPermisoEstado(ps, id, estado)[i].(estado := ps[i].estado) == ps[i]
  {
  }
}
