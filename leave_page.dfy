/** The leave page (`Permisos.jsx`): adapting the listing, the summary counts, the filter by
    DPI and date range, sending a new request, saving a reviewed estado, and uploading the
    signed form. */
module LeavePage {
  import opened Prelude
  import opened Text
  import opened Numbers
  import opened Collections
  import opened Dates
  import opened VacationRoutes
  import opened LeaveRoutes

  const Aprobado := "Aprobado"
  const Rechazado := "Rechazado"

  /** A listing row as JSON: every key the page tries, present or not. */
  datatype RawPermiso = RawPermiso(
    idPermiso: Option<int>,
    id: Option<int>,
    dpi: Option<string>,
    nombreEmpleado: Option<string>,
    empleado: Option<string>,
    nombreCompleto: Option<string>,
    dependencia: Option<string>,
    tipo: Option<string>,
    fecha_inicio: Option<string>,
    fechaInicio: Option<string>,
    fecha_fin: Option<string>,
    fechaFin: Option<string>,
    motivo: Option<string>,
    fecha_solicitud: Option<string>,
    fechaSolicitud: Option<string>,
    estado: Option<string>,
    archivo_firmado: Option<string>,
    archivoFirmadoNombre: Option<string>)

  /** What `GET /` sends for one row. */
  function RawOf(v: PermisoView): RawPermiso {
    RawPermiso(Some(v.id), Some(v.id), v.dpi, None, Some(v.empleado), None, v.dependencia, Some(v.tipo),
      None, Some(v.fechaInicio), None, Some(v.fechaFin), Some(v.motivo), None, Some(v.fechaSolicitud),
      Some(v.estado), None, v.archivoFirmadoNombre)
  }

  /** A request as the page holds it. */
  datatype PermisoRow = PermisoRow(
    id: Option<int>,
    dpi: Option<string>,
    empleado: string,
    dependencia: Option<string>,
    tipo: Option<string>,
    fechaInicio: string,
    fechaFin: string,
    motivo: Option<string>,
    fechaSolicitud: string,
    estado: string,
    archivoFirmadoNombre: Option<string>)

  /** `toDate`: the first ten characters, or "" for a missing value. */
  function ToDate(v: Option<string>): (d: string)
    ensures |d| <= 10
    ensures !Present(v) ==> d == ""
    ensures Present(v) ==> |d| == (if |v.value| < 10 then |v.value| else 10) && d == v.value[..|d|]
  {
    if Present(v) then Take(v.value, 10) else ""
  }

  /** A date in `YYYY-MM-DD` form passes `toDate` unchanged. */
  lemma ToDateOfIsoDate(d: string)
    requires IsIsoDate(d)
    ensures ToDate(Some(d)) == d
  {
  }

  /** `a || b` on an id: 0 and a missing id fall through. */
  function IdOr(a: Option<int>, b: Option<int>): (r: Option<int>)
    ensures a.Some? && a.value != 0 ==> r == a
    ensures !(a.Some? && a.value != 0) ==> r == b
  {
    if a.Some? && a.value != 0 then a else b
  }

  /** The record `loadPermisos` builds from each row. */
  function Adapt(p: RawPermiso): (r: PermisoRow)
    ensures r.estado == if Present(p.estado) then p.estado.value else Pendiente
    ensures r.archivoFirmadoNombre == OrElse(p.archivo_firmado, NullIfEmpty(p.archivoFirmadoNombre))
    ensures r.fechaInicio == ToDate(OrElse(p.fecha_inicio, p.fechaInicio))
  {
    PermisoRow(
      IdOr(p.idPermiso, p.id),
      p.dpi,
      OrElse(p.nombreEmpleado, OrElse(p.empleado, OrElse(p.nombreCompleto, Some("")))).GetOr(""),
      p.dependencia,
      p.tipo,
      ToDate(OrElse(p.fecha_inicio, p.fechaInicio)),
      ToDate(OrElse(p.fecha_fin, p.fechaFin)),
      p.motivo,
      ToDate(OrElse(p.fecha_solicitud, p.fechaSolicitud)),
      OrElse(p.estado, Some(Pendiente)).GetOr(Pendiente),
      OrElse(p.archivo_firmado, NullIfEmpty(p.archivoFirmadoNombre)))
  }

  function AdaptAll(ps: seq<RawPermiso>): (rs: seq<PermisoRow>)
    ensures |rs| == |ps|
    ensures forall i :: 0 <= i < |ps| ==> rs[i] == Adapt(ps[i])
  {
    seq(|ps|, i requires 0 <= i < |ps| => Adapt(ps[i]))
  }

  /** A row of the server's listing keeps its id, DPI, name, dates and estado, and a signed
      form it does not have reads as none. */
  lemma AdaptListingRow(v: PermisoView)
    requires IsIsoDate(v.fechaInicio) && IsIsoDate(v.fechaFin)
    ensures var r := Adapt(RawOf(v));
      r.id == Some(v.id) && r.dpi == v.dpi && r.empleado == v.empleado && r.fechaInicio == v.fechaInicio &&
      r.fechaFin == v.fechaFin && r.estado == (if v.estado == "" then Pendiente else v.estado) &&
      r.archivoFirmadoNombre == NullIfEmpty(v.archivoFirmadoNombre)
  {
  }

  // ---------------------------------------------------------------------------------
  // Summary and filter
  // ---------------------------------------------------------------------------------

  /** `permisos.filter((p) => p.estado === e).length`. */
  function CountPermisos(ps: seq<PermisoRow>, e: string): (n: nat)
    ensures n <= |ps|
  {
    if ps == [] then 0 else CountPermisos(ps[..|ps| - 1], e) + (if ps[|ps| - 1].estado == e then 1 else 0)
  }

  /** Each request counts under at most one of the three estados. */
  lemma {:induction false} CountsBound(ps: seq<PermisoRow>)
    ensures CountPermisos(ps, Pendiente) + CountPermisos(ps, Aprobado) + CountPermisos(ps, Rechazado) <= |ps|
  {
    if ps != [] {
      CountsBound(ps[..|ps| - 1]);
    }
  }

  /** The trimmed term occurs in the DPI; dates compare as strings. */
  predicate PermisoMatches(p: PermisoRow, filterDpi: string, desde: string, hasta: string) {
    var term := Trim(filterDpi);
    (term == [] || (Present(p.dpi) && Contains(p.dpi.value, term))) &&
    (desde == [] || LexLe(desde, p.fechaInicio)) &&
    (hasta == [] || LexLe(p.fechaInicio, hasta))
  }

  /** `permisosFiltrados`. */
  function PermisosFiltrados(ps: seq<PermisoRow>, filterDpi: string, desde: string, hasta: string): (r: seq<PermisoRow>)
    ensures |r| <= |ps|
  {
    if ps == [] then []
    else
      var p := ps[|ps| - 1];
      PermisosFiltrados(ps[..|ps| - 1], filterDpi, desde, hasta) + (if PermisoMatches(p, filterDpi, desde, hasta) then [p] else [])
  }

  lemma {:induction false} PermisosFiltradosMembers(ps: seq<PermisoRow>, filterDpi: string, desde: string, hasta: string, p: PermisoRow)
    ensures p in PermisosFiltrados(ps, filterDpi, desde, hasta) <==> p in ps && PermisoMatches(p, filterDpi, desde, hasta)
  {
    if ps != [] {
      var q := ps[..|ps| - 1];
      var last := ps[|ps| - 1];
      var tail := if PermisoMatches(last, filterDpi, desde, hasta) then [last] else [];
      assert PermisosFiltrados(ps, filterDpi, desde, hasta) == PermisosFiltrados(q, filterDpi, desde, hasta) + tail;
      PermisosFiltradosMembers(q, filterDpi, desde, hasta, p);
      assert ps == q + [last];
      assert p in ps <==> p in q || p == last;
    }
  }

  lemma PermisosFiltradosAll(ps: seq<PermisoRow>, filterDpi: string, desde: string, hasta: string)
    ensures forall p :: p in PermisosFiltrados(ps, filterDpi, desde, hasta) <==> p in ps && PermisoMatches(p, filterDpi, desde, hasta)
  {
    forall p {
      PermisosFiltradosMembers(ps, filterDpi, desde, hasta, p);
    }
  }

  /** After `handleLimpiarFiltros` every request passes. */
  lemma {:induction false} ClearedFiltersKeepAll(ps: seq<PermisoRow>)
    ensures PermisosFiltrados(ps, "", "", "") == ps
  {
    if ps != [] {
      ClearedFiltersKeepAll(ps[..|ps| - 1]);
      assert ps == ps[..|ps| - 1] + [ps[|ps| - 1]];
    }
  }

  /** On dates in `YYYY-MM-DD` form the string comparison is the calendar one: a request
      passes the range exactly when it starts neither before `desde` nor after `hasta`. */
  lemma RangeIsChronological(p: PermisoRow, desde: string, hasta: string)
    requires IsIsoDate(p.fechaInicio) && IsIsoDate(desde) && IsIsoDate(hasta)
    ensures PermisoMatches(p, "", desde, hasta) <==> !Before(p.fechaInicio, desde) && !Before(hasta, p.fechaInicio)
  {
    StringOrderIsChronological(desde, p.fechaInicio);
    StringOrderIsChronological(p.fechaInicio, hasta);
  }

  // ---------------------------------------------------------------------------------
  // A new request
  // ---------------------------------------------------------------------------------

  datatype NuevoForm = NuevoForm(
    idEmpleado: Option<int>,
    dpi: string,
    empleado: string,
    dependencia: string,
    tipo: string,
    fechaInicio: string,
    fechaFin: string,
    motivo: string)

  const InitialNuevo := NuevoForm(None, "", "", "", "Personal", "", "", "")
  /** `handleCloseCreate` clears `tipo` too, unlike the initial form. */
  const ClosedNuevo := NuevoForm(None, "", "", "", "", "", "", "")

  /** `handleSubmitNuevo`: the body sent, or the refusal before any request. */
  function NuevoPayload(f: NuevoForm): (r: Checked<PermisoBody>)
    ensures r.Refused? <==> Trim(f.dpi) == [] || Trim(f.tipo) == [] || f.fechaInicio == [] || Trim(f.motivo) == []
    ensures r.Refused? ==> r.message == FaltanPermiso
    ensures r.Accepted? ==>
      r.value.dpi == Some(f.dpi) && r.value.tipo == Some(f.tipo) && r.value.fechaInicio == Some(f.fechaInicio) &&
      r.value.motivo == Some(f.motivo) && r.value.fechaFin == Some(if f.fechaFin != [] then f.fechaFin else f.fechaInicio)
  {
    if Trim(f.dpi) == [] || Trim(f.tipo) == [] || f.fechaInicio == [] || Trim(f.motivo) == [] then Refused(FaltanPermiso)
    else Accepted(PermisoBody(Some(f.dpi), Some(f.tipo), Some(f.fechaInicio),
      Some(if f.fechaFin != [] then f.fechaFin else f.fechaInicio), Some(f.motivo)))
  }

  /** What the page sends always passes the server's required-field check, and the end
      date the server stores is the one the page chose. */
  lemma PayloadPassesServer(f: NuevoForm)
    requires NuevoPayload(f).Accepted?
    ensures PermisoHasRequired(NuevoPayload(f).value)
    ensures FechaFinReal(NuevoPayload(f).value) == if f.fechaFin != [] then f.fechaFin else f.fechaInicio
  {
    TrimNonEmpty(f.dpi);
    TrimNonEmpty(f.tipo);
    TrimNonEmpty(f.motivo);
  }

  lemma TrimNonEmpty(s: string)
    requires Trim(s) != []
    ensures s != []
  {
  }

  // ---------------------------------------------------------------------------------
  // Reviewing and uploading
  // ---------------------------------------------------------------------------------

  /** `handleGuardarDetalle`'s update: the estado of the matching ids, and the selected
      signed form unless it has none (`??` keeps the row's). */
  function SaveDetalle(ps: seq<PermisoRow>, sel: PermisoRow): (r: seq<PermisoRow>)
    ensures |r| == |ps|
    ensures forall i :: 0 <= i < |ps| ==>
      r[i] == if ps[i].id == sel.id then Saved(ps[i], sel) else ps[i]
  {
    seq(|ps|, i requires 0 <= i < |ps| => if ps[i].id == sel.id then Saved(ps[i], sel) else ps[i])
  }

  function Saved(p: PermisoRow, sel: PermisoRow): PermisoRow {
    p.(estado := sel.estado, archivoFirmadoNombre := Coalesce(sel.archivoFirmadoNombre, p.archivoFirmadoNombre))
  }

  /** Saving without a selected file keeps the signed form a row already had. */
  lemma SaveKeepsFile(ps: seq<PermisoRow>, sel: PermisoRow, i: int)
    requires 0 <= i < |ps| && sel.archivoFirmadoNombre.None?
    ensures SaveDetalle(ps, sel)[i].archivoFirmadoNombre == ps[i].archivoFirmadoNombre
    ensures SaveDetalle(ps, sel)[i].(estado := ps[i].estado) == ps[i]
  {
  }

  /** The upload's JSON answer: every key the page tries. */
  datatype UploadAnswer = UploadAnswer(
    archivoFirmadoNombre: Option<string>,
    archivo_firmado: Option<string>,
    filename: Option<string>,
    fileName: Option<string>,
    archivo: Option<string>,
    file: Option<string>)

  /** What `handleUploadFirmado` answers. */
  function AnswerOf(name: string): UploadAnswer {
    UploadAnswer(None, Some(name), None, None, None, None)
  }

  /** The first present key, by `??`. */
  function NombreArchivo(a: UploadAnswer): (n: Option<string>)
    ensures a.archivoFirmadoNombre.Some? ==> n == a.archivoFirmadoNombre
    ensures n.None? <==>
      a.archivoFirmadoNombre.None? && a.archivo_firmado.None? && a.filename.None? &&
      a.fileName.None? && a.archivo.None? && a.file.None?
  {
    Coalesce(a.archivoFirmadoNombre, Coalesce(a.archivo_firmado, Coalesce(a.filename,
      Coalesce(a.fileName, Coalesce(a.archivo, a.file)))))
  }

  /** The name the server returns is the name the page records. */
  lemma NombreOfServerAnswer(name: string)
    ensures NombreArchivo(AnswerOf(name)) == Some(name)
  {
  }

  function SetFile(ps: seq<PermisoRow>, id: Option<int>, name: string): (r: seq<PermisoRow>)
    ensures |r| == |ps|
    ensures forall i :: 0 <= i < |ps| ==> r[i] == if ps[i].id == id then ps[i].(archivoFirmadoNombre := Some(name)) else ps[i]
  {
    seq(|ps|, i requires 0 <= i < |ps| => if ps[i].id == id then ps[i].(archivoFirmadoNombre := Some(name)) else ps[i])
  }

  /** `formData.append(name, v)` turns a missing value into its text. */
  function FormText(v: Option<string>): string {
    match v
    case Some(s) => s
    case None => "null"
  }

  /** The body the page uploads AS WRITTEN: the file is appended before the DPI. */
  function UploadPartsAsWritten(fileName: string, dpi: Option<string>): seq<Part> {
    [FilePart("archivo", fileName), Field("dpi", FormText(dpi))]
  }

  /** The body with the DPI first, so that it is known when the file arrives. */
  function UploadParts(fileName: string, dpi: Option<string>): seq<Part> {
    [Field("dpi", FormText(dpi)), FilePart("archivo", fileName)]
  }

  /** The `dpi` field the storage has seen when the file named `archivo` starts: only fields
      before it in the body have been parsed. */
  function DpiBeforeFile(parts: seq<Part>): (d: Option<string>)
    ensures d.Some? ==> exists k :: 0 <= k < |parts| && parts[k] == Field("dpi", d.value)
  {
    if parts == [] then None
    else match parts[0]
      case FilePart(n, _) => if n == "archivo" then None else DpiBeforeFile(parts[1..])
      case Field(n, v) => if n == "dpi" then Some(v) else DpiBeforeFile(parts[1..])
  }

  /** As written, the storage never sees the DPI, so every signed form of every employee
      is named alike but for the timestamp. */
  lemma UploadHidesDpi(fileName: string, dpi: Option<string>, timestamp: nat)
    ensures DpiBeforeFile(UploadPartsAsWritten(fileName, dpi)).None?
    ensures FirmadoFilenameAsWritten(DpiBeforeFile(UploadPartsAsWritten(fileName, dpi)), timestamp, fileName) ==
      PermisoInfix + NatToString(timestamp) + ExtOrPdf(fileName)
  {
    PlaceholderErased(timestamp, fileName);
  }

  /** With the DPI first, the stored name starts with the DPI's digits. */
  lemma UploadShowsDpi(fileName: string, dpi: string, timestamp: nat)
    requires DigitsOnly(dpi) != []
    ensures DpiBeforeFile(UploadParts(fileName, Some(dpi))) == Some(dpi)
    ensures var f := FirmadoFilename(DpiBeforeFile(UploadParts(fileName, Some(dpi))), timestamp, fileName);
      f[..|DigitsOnly(dpi)|] == DigitsOnly(dpi)
  {
    FirmadoNamesTheDpi(Some(dpi), timestamp, fileName);
  }

  // ---------------------------------------------------------------------------------
  // The page
  // ---------------------------------------------------------------------------------

  class LeavePageState {
    var permisos: seq<PermisoRow>
    var createOpen: bool
    var selected: Option<PermisoRow>
    var formNuevo: NuevoForm
    var filterDpi: string
    var filterDesde: string
    var filterHasta: string

    constructor ()
      ensures permisos == [] && !createOpen && selected.None? && formNuevo == InitialNuevo
      ensures filterDpi == "" && filterDesde == "" && filterHasta == ""
    {
      permisos := [];
      createOpen := false;
      selected := None;
      formNuevo := InitialNuevo;
      filterDpi, filterDesde, filterHasta := "", "", "";
    }

    /** `loadPermisos`. */
    method Load(data: seq<RawPermiso>)
      modifies this`permisos
      ensures permisos == AdaptAll(data)
    {
      permisos := AdaptAll(data);
    }

    /** The table: exactly the requests that pass the three filters. */
    function Table(): (r: seq<PermisoRow>)
      reads this
      ensures |r| <= |permisos|
      ensures forall p :: p in r <==> p in permisos && PermisoMatches(p, filterDpi, filterDesde, filterHasta)
    {
      PermisosFiltradosAll(permisos, filterDpi, filterDesde, filterHasta);
      PermisosFiltrados(permisos, filterDpi, filterDesde, filterHasta)
    }

    /** `handleLimpiarFiltros`: afterwards the table shows every request. */
    method LimpiarFiltros()
      modifies this`filterDpi, this`filterDesde, this`filterHasta
      ensures filterDpi == "" && filterDesde == "" && filterHasta == ""
      ensures Table() == permisos
    {
      filterDpi, filterDesde, filterHasta := "", "", "";
      ClearedFiltersKeepAll(permisos);
    }

    /** `handleSubmitNuevo`: the body sent, if any; after the server's success the list is
        reloaded and the modal closed. */
    method SubmitNuevo(response: Outcome<int>, reloaded: seq<RawPermiso>) returns (sent: Checked<PermisoBody>)
      modifies this`permisos, this`createOpen, this`formNuevo
      ensures sent == NuevoPayload(old(formNuevo))
      ensures sent.Accepted? && response.Ok? ==> permisos == AdaptAll(reloaded) && !createOpen && formNuevo == ClosedNuevo
      ensures !(sent.Accepted? && response.Ok?) ==>
        permisos == old(permisos) && createOpen == old(createOpen) && formNuevo == old(formNuevo)
    {
      sent := NuevoPayload(formNuevo);
      if sent.Accepted? && response.Ok? {
        permisos := AdaptAll(reloaded);
        createOpen := false;
        formNuevo := ClosedNuevo;
      }
    }

    /** `handleGuardarDetalle`: the `PUT` sent, if any; after the server's success the list
        takes the selected estado and the detail closes. */
    method GuardarDetalle(response: Outcome<string>) returns (sent: Option<(Option<int>, string)>)
      modifies this`permisos, this`selected
      ensures old(selected).None? ==> sent.None? && permisos == old(permisos) && selected == old(selected)
      ensures old(selected).Some? ==> sent == Some((old(selected).value.id, old(selected).value.estado))
      ensures old(selected).Some? && response.Ok? ==> permisos == SaveDetalle(old(permisos), old(selected).value) && selected.None?
      ensures old(selected).Some? && response.Fail? ==> permisos == old(permisos) && selected == old(selected)
    {
      if selected.None? {
        return None;
      }
      var sel := selected.value;
      sent := Some((sel.id, sel.estado));
      if response.Ok? {
        permisos := SaveDetalle(permisos, sel);
        selected := None;
      }
    }

    /** `handleUploadFirmado`: the body uploaded, if any; an answer without a name changes
        nothing, otherwise the detail and the list record it. */
    method UploadFirmado(file: Option<string>, response: Outcome<UploadAnswer>) returns (sent: Option<seq<Part>>)
      modifies this`permisos, this`selected
      ensures file.None? || old(selected).None? ==> sent.None? && permisos == old(permisos) && selected == old(selected)
      ensures file.Some? && old(selected).Some? ==>
        sent == Some(UploadPartsAsWritten(file.value, old(selected).value.dpi))
      ensures file.Some? && old(selected).Some? && response.Ok? && Present(NombreArchivo(response.value)) ==>
        var n := NombreArchivo(response.value).value;
        selected == Some(old(selected).value.(archivoFirmadoNombre := Some(n))) &&
        permisos == SetFile(old(permisos), old(selected).value.id, n)
      ensures file.Some? && old(selected).Some? && !(response.Ok? && Present(NombreArchivo(response.value))) ==>
        permisos == old(permisos) && selected == old(selected)
    {
      if file.None? || selected.None? {
        return None;
      }
      var sel := selected.value;
      sent := Some(UploadPartsAsWritten(file.value, sel.dpi));
      if response.Fail? {
        return;
      }
      var n := NombreArchivo(response.value);
      if !Present(n) {
        return;
      }
      selected := Some(sel.(archivoFirmadoNombre := Some(n.value)));
      permisos := SetFile(permisos, sel.id, n.value);
    }
  }
}
