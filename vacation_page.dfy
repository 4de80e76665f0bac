/** The vacations page (`Vacaciones.jsx`): the summary cards, the table filter, the day
    count of a new request, the guard on sending it, and saving a reviewed estado. */
module VacationPage {
  import opened Prelude
  import opened Text
  import opened Numbers
  import opened Schema
  import opened Dates
  import opened VacationRoutes

  const FinAntesDeInicio := "La fecha fin no puede ser menor a la fecha inicio."
  const SinSeleccion := "Primero debes seleccionar un empleado por DPI."
  const Todos := "todos"

  /** A request as the page holds it: the JSON of the listing, whose `dias` and `estado`
      the page reads without trusting their type. */
  datatype Solicitud = Solicitud(
    id: int,
    empleadoDpi: string,
    empleadoNombre: string,
    fechaInicio: string,
    fechaFin: string,
    dias: JsVal,
    estado: Option<string>,
    motivo: Option<string>)

  /** The listing row as the page receives it. */
  function FromView(w: VacacionView): (s: Solicitud)
    ensures s.id == w.id && s.estado == Some(w.estado) && s.dias == JsNum(w.dias as real)
  {
    Solicitud(w.id, w.empleadoDpi.GetOr(""), w.empleadoNombre, w.fechaInicio, w.fechaFin, JsNum(w.dias as real),
      Some(w.estado), w.motivo)
  }

  function Local(ws: seq<VacacionView>): (ss: seq<Solicitud>)
    ensures |ss| == |ws|
    ensures forall i :: 0 <= i < |ws| ==> ss[i] == FromView(ws[i])
  {
    seq(|ws|, i requires 0 <= i < |ws| => FromView(ws[i]))
  }

  // ---------------------------------------------------------------------------------
  // Summary
  // ---------------------------------------------------------------------------------

  /** `vacaciones.filter((v) => v.estado === e).length`. */
  function CountEstado(vs: seq<Solicitud>, e: string): (n: nat)
    ensures n <= |vs|
  {
    if vs == [] then 0 else CountEstado(vs[..|vs| - 1], e) + (if vs[|vs| - 1].estado == Some(e) then 1 else 0)
  }

  /** `reduce((acc, v) => acc + (Number(v.dias) || 0), 0)`. */
  function DiasTotales(vs: seq<Solicitud>): real {
    if vs == [] then 0.0 else DiasTotales(vs[..|vs| - 1]) + NumberOrZero(vs[|vs| - 1].dias)
  }

  datatype Resumen = Resumen(total: nat, pendientes: nat, aprobadas: nat, diasTotales: real)

  function ResumenOf(vs: seq<Solicitud>): (r: Resumen)
    ensures r.total == |vs| && r.pendientes == CountEstado(vs, Pendiente) && r.aprobadas == CountEstado(vs, "Aprobado")
    ensures r.diasTotales == DiasTotales(vs)
  {
    Resumen(|vs|, CountEstado(vs, Pendiente), CountEstado(vs, "Aprobado"), DiasTotales(vs))
  }

  /** A request is counted under at most one estado, so the two cards never exceed the
      total. */
  lemma {:induction false} PendientesAprobadasBound(vs: seq<Solicitud>)
    ensures CountEstado(vs, Pendiente) + CountEstado(vs, "Aprobado") <= |vs|
  {
    if vs != [] {
      PendientesAprobadasBound(vs[..|vs| - 1]);
    }
  }

  /** The sum of `dias` of the server's rows. */
  function SumDias(ws: seq<VacacionView>): int {
    if ws == [] then 0 else SumDias(ws[..|ws| - 1]) + ws[|ws| - 1].dias
  }

  /** On a listing loaded from the server every `dias` is a number, so the card sums them
      all. */
  lemma {:induction false} DiasTotalesOfListing(ws: seq<VacacionView>)
    ensures DiasTotales(Local(ws)) == SumDias(ws) as real
  {
    if ws != [] {
      var p := ws[..|ws| - 1];
      DiasTotalesOfListing(p);
      assert Local(ws)[..|ws| - 1] == Local(p);
    }
  }

  // ---------------------------------------------------------------------------------
  // Filter
  // ---------------------------------------------------------------------------------

  /** The search term occurs in the lower-cased name, or in the DPI as it is. */
  predicate MatchSearch(v: Solicitud, search: string) {
    var term := ToLower(search);
    term == [] || Contains(ToLower(v.empleadoNombre), term) || Contains(v.empleadoDpi, term)
  }

  /** `"todos"`, or the lower-cased estado equals the filter. */
  predicate MatchEstado(v: Solicitud, filterEstado: string) {
    filterEstado == Todos || (Present(v.estado) && ToLower(v.estado.value) == filterEstado)
  }

  predicate Matches(v: Solicitud, search: string, filterEstado: string) {
    MatchSearch(v, search) && MatchEstado(v, filterEstado)
  }

  /** `vacacionesFiltradas`. */
  function Filtradas(vs: seq<Solicitud>, search: string, filterEstado: string): (r: seq<Solicitud>)
    ensures |r| <= |vs|
  {
    if vs == [] then []
    else
      var v := vs[|vs| - 1];
      Filtradas(vs[..|vs| - 1], search, filterEstado) + (if Matches(v, search, filterEstado) then [v] else [])
  }

  /** The table shows exactly the requests that match both the search and the estado. */
  lemma {:induction false} FiltradasMembers(vs: seq<Solicitud>, search: string, filterEstado: string, v: Solicitud)
    ensures v in Filtradas(vs, search, filterEstado) <==> v in vs && Matches(v, search, filterEstado)
  {
    if vs != [] {
      var p := vs[..|vs| - 1];
      FiltradasMembers(p, search, filterEstado, v);
      assert vs == p + [vs[|vs| - 1]];
    }
  }

  /** With no search and "todos", the table shows every request. */
  lemma {:induction false} FiltradasEmpty(vs: seq<Solicitud>)
    ensures Filtradas(vs, "", Todos) == vs
  {
    if vs != [] {
      FiltradasEmpty(vs[..|vs| - 1]);
      assert vs == vs[..|vs| - 1] + [vs[|vs| - 1]];
    }
  }

  // ---------------------------------------------------------------------------------
  // Counting days
  // ---------------------------------------------------------------------------------

  /** `handleCalcularDias`: `None` when a date is missing (nothing happens), `Refused`
      when the end lies before the start, and otherwise the new text of `dias`. A string
      that is not a date is an invalid `Date`: no comparison holds and the count is NaN. */
  function DiasCalculados(fechaInicio: string, fechaFin: string): Option<Checked<string>> {
    if fechaInicio == [] || fechaFin == [] then None
    else if !(ValidDate(fechaInicio) && ValidDate(fechaFin)) then Some(Accepted("NaN"))
    else if DayNumber(fechaFin) < DayNumber(fechaInicio) then Some(Refused(FinAntesDeInicio))
    else Some(Accepted(NatToString(DayNumber(fechaFin) - DayNumber(fechaInicio) + 1)))
  }

  /** A missing date changes nothing; on two dates the end is refused exactly when it lies
      before the start in the calendar. */
  lemma DiasCalculadosRefused(fechaInicio: string, fechaFin: string)
    ensures DiasCalculados(fechaInicio, fechaFin).None? <==> fechaInicio == [] || fechaFin == []
    ensures ValidDate(fechaInicio) && ValidDate(fechaFin) ==>
      (DiasCalculados(fechaInicio, fechaFin) == Some(Refused(FinAntesDeInicio)) <==> Before(fechaFin, fechaInicio))
  {
    if ValidDate(fechaInicio) && ValidDate(fechaFin) {
      DayNumberOrder(fechaFin, fechaInicio);
    }
  }

  /** The count is inclusive: it reads back as the number of days from the start to the
      end, both counted. */
  lemma DiasCalculadosInclusive(fechaInicio: string, fechaFin: string)
    requires ValidDate(fechaInicio) && ValidDate(fechaFin) && !Before(fechaFin, fechaInicio)
    ensures DiasCalculados(fechaInicio, fechaFin).Some? && DiasCalculados(fechaInicio, fechaFin).value.Accepted?
    ensures ToNumberStr(DiasCalculados(fechaInicio, fechaFin).value.value) ==
      Some((DayNumber(fechaFin) - DayNumber(fechaInicio) + 1) as real)
  {
    DayNumberOrder(fechaFin, fechaInicio);
    var n: nat := DayNumber(fechaFin) - DayNumber(fechaInicio) + 1;
    assert fechaInicio != [] && fechaFin != [];
    assert DiasCalculados(fechaInicio, fechaFin) == Some(Accepted(NatToString(n)));
    NumberOfNatToString(n);
  }

  /** A request of one day counts 1. */
  lemma SameDayIsOne(d: string)
    requires ValidDate(d)
    ensures DiasCalculados(d, d) == Some(Accepted("1"))
  {
    assert NatToString(1) == "1";
  }

  // ---------------------------------------------------------------------------------
  // Sending a request
  // ---------------------------------------------------------------------------------

  /** The employee found by DPI. */
  datatype Seleccionado = Seleccionado(codigo: int, dpi: Option<string>, nombre: string)

  datatype NuevaForm = NuevaForm(fechaInicio: string, fechaFin: string, dias: string, motivo: string)

  const EmptyNueva := NuevaForm("", "", "", "")

  /** `Number(formNueva.dias) || undefined`: 0 and NaN are left out of the JSON. */
  function DiasPayload(dias: string): (v: JsVal)
    ensures v.JsUndefined? <==> ToNumberStr(dias).None? || ToNumberStr(dias) == Some(0.0)
    ensures v.JsNum? ==> Some(v.n) == ToNumberStr(dias)
  {
    match ToNumberStr(dias)
    case Some(x) => if x == 0.0 then JsUndefined else JsNum(x)
    case None => JsUndefined
  }

  /** `handleSubmitNueva`: nothing is sent without a selected employee. */
  function NuevaPayload(sel: Option<Seleccionado>, f: NuevaForm): (r: Checked<VacationBody>)
    ensures r.Refused? <==> sel.None?
    ensures r.Refused? ==> r.message == SinSeleccion
    ensures r.Accepted? ==>
      r.value.dpi == sel.value.dpi && r.value.fechaInicio == Some(f.fechaInicio) &&
      r.value.fechaFin == Some(f.fechaFin) && r.value.motivo == Some(f.motivo) && r.value.dias == DiasPayload(f.dias)
  {
    match sel
    case None => Refused(SinSeleccion)
    case Some(s) => Accepted(VacationBody(s.dpi, Some(f.fechaInicio), Some(f.fechaFin), DiasPayload(f.dias), Some(f.motivo)))
  }

  /** What the page sends passes the server's required-field check exactly when the
      employee has a DPI, both dates are filled in, and `dias` is a number other than 0. */
  lemma PayloadRequired(s: Seleccionado, f: NuevaForm)
    ensures HasRequired(NuevaPayload(Some(s), f).value) <==>
      Present(s.dpi) && f.fechaInicio != [] && f.fechaFin != [] &&
      ToNumberStr(f.dias).Some? && ToNumberStr(f.dias) != Some(0.0)
  {
  }

  /** A counted `dias` reaches the server as that whole number of days. */
  lemma CountedDaysReachServer(s: Seleccionado, f: NuevaForm, fechaInicio: string, fechaFin: string)
    requires ValidDate(fechaInicio) && ValidDate(fechaFin) && !Before(fechaFin, fechaInicio)
    requires DiasCalculados(fechaInicio, fechaFin) == Some(Accepted(f.dias))
    ensures DiasInt(NuevaPayload(Some(s), f).value.dias) == DayNumber(fechaFin) - DayNumber(fechaInicio) + 1
  {
    DiasCalculadosInclusive(fechaInicio, fechaFin);
    DayNumberOrder(fechaFin, fechaInicio);
    DayNumberBound(fechaFin);
    var n := DayNumber(fechaFin) - DayNumber(fechaInicio) + 1;
    assert 1 <= n < 3660001;
    assert ToNumberStr(f.dias) == Some(n as real);
    assert DiasPayload(f.dias) == JsNum(n as real);
    assert FixedNotation(n as real);
  }

  // ---------------------------------------------------------------------------------
  // Reviewing a request
  // ---------------------------------------------------------------------------------

  /** `prev.map((v) => v.id === id ? { ...v, estado } : v)`. */
  function SetEstadoLocal(vs: seq<Solicitud>, id: int, estado: Option<string>): (r: seq<Solicitud>)
    ensures |r| == |vs|
    ensures forall i :: 0 <= i < |vs| ==> r[i] == if vs[i].id == id then vs[i].(estado := estado) else vs[i]
  {
    seq(|vs|, i requires 0 <= i < |vs| => if vs[i].id == id then vs[i].(estado := estado) else vs[i])
  }

  /** The rows of the listing with a new estado for request `id`. */
  function SetEstadoViews(ws: seq<VacacionView>, id: int, estado: string): (r: seq<VacacionView>)
    ensures |r| == |ws|
    ensures forall i :: 0 <= i < |ws| ==> r[i] == if ws[i].id == id then ws[i].(estado := estado) else ws[i]
  {
    seq(|ws|, i requires 0 <= i < |ws| => if ws[i].id == id then ws[i].(estado := estado) else ws[i])
  }

  lemma {:induction false} ListadoSetEstado(es: seq<Empleado>, vs: seq<Vacacion>, id: int, estado: string)
    ensures Listado(es, SetEstado(vs, id, estado)) == SetEstadoViews(Listado(es, vs), id, estado)
  {
    if vs != [] {
      var p := vs[..|vs| - 1];
      var v := vs[|vs| - 1];
      ListadoSetEstado(es, p, id, estado);
      assert SetEstado(vs, id, estado)[..|vs| - 1] == SetEstado(p, id, estado);
      assert SetEstado(vs, id, estado)[|vs| - 1] == if v.id == id then v.(estado := estado) else v;
      ListadoRowSetEstado(es, v, id, estado);
      SetEstadoViewsAppend(Listado(es, p), ListadoRow(es, v), id, estado);
    }
  }

  lemma ListadoRowSetEstado(es: seq<Empleado>, v: Vacacion, id: int, estado: string)
    ensures ListadoRow(es, if v.id == id then v.(estado := estado) else v) == SetEstadoViews(ListadoRow(es, v), id, estado)
  {
  }

  lemma SetEstadoViewsAppend(a: seq<VacacionView>, b: seq<VacacionView>, id: int, estado: string)
    ensures SetEstadoViews(a + b, id, estado) == SetEstadoViews(a, id, estado) + SetEstadoViews(b, id, estado)
  {
  }

  /** After the server accepts the new estado, the page's local update shows what a
      reload of the listing would show. */
  lemma LocalUpdateMatchesServer(es: seq<Empleado>, vs: seq<Vacacion>, id: int, estado: string)
    ensures Local(Listado(es, SetEstado(vs, id, estado))) == SetEstadoLocal(Local(Listado(es, vs)), id, Some(estado))
  {
    ListadoSetEstado(es, vs, id, estado);
  }

  // ---------------------------------------------------------------------------------
  // The page
  // ---------------------------------------------------------------------------------

  class VacationPageState {
    var vacaciones: seq<Solicitud>
    var search: string
    var filterEstado: string
    var modalOpen: bool
    var dpiBusqueda: string
    var seleccionado: Option<Seleccionado>
    var formNueva: NuevaForm
    var selected: Option<Solicitud>

    constructor ()
      ensures vacaciones == [] && search == "" && filterEstado == Todos && !modalOpen
      ensures dpiBusqueda == "" && seleccionado.None? && formNueva == EmptyNueva && selected.None?
    {
      vacaciones := [];
      search := "";
      filterEstado := Todos;
      modalOpen, dpiBusqueda, seleccionado, formNueva := false, "", None, EmptyNueva;
      selected := None;
    }

    /** `loadVacaciones`: the table becomes the server's listing. */
    method Load(listing: seq<VacacionView>)
      modifies this`vacaciones
      ensures vacaciones == Local(listing)
    {
      vacaciones := Local(listing);
    }

    /** The summary cards: the pending and approved cards never add up to more than the total. */
    function Cards(): (r: Resumen)
      reads this
      ensures r.total == |vacaciones| && r.pendientes + r.aprobadas <= r.total
      ensures r.diasTotales == DiasTotales(vacaciones)
    {
      PendientesAprobadasBound(vacaciones);
      ResumenOf(vacaciones)
    }

    /** The table: exactly the requests matching the search and the estado filter. */
    function Table(): (r: seq<Solicitud>)
      reads this
      ensures forall v :: v in r <==> v in vacaciones && Matches(v, search, filterEstado)
    {
      FiltradasAll(vacaciones, search, filterEstado);
      Filtradas(vacaciones, search, filterEstado)
    }

    /** `handleCalcularDias`: only an accepted count touches the form, and only its `dias`. */
    method CalcularDias() returns (refused: Option<string>)
      modifies this`formNueva
      ensures var c := DiasCalculados(old(formNueva).fechaInicio, old(formNueva).fechaFin);
        (c.Some? && c.value.Accepted? ==> formNueva == old(formNueva).(dias := c.value.value) && refused.None?) &&
        (c.Some? && c.value.Refused? ==> formNueva == old(formNueva) && refused == Some(c.value.message)) &&
        (c.None? ==> formNueva == old(formNueva) && refused.None?)
    {
      var c := DiasCalculados(formNueva.fechaInicio, formNueva.fechaFin);
      refused := None;
      if c.Some? {
        match c.value
        case Accepted(t) =>
          formNueva := formNueva.(dias := t);
        case Refused(m) =>
          refused := Some(m);
      }
    }

    /** `handleSubmitNueva`: the body sent, if any. When the server answers with success
        the listing is reloaded and the modal reset; on an error nothing changes. */
    method SubmitNueva(response: Outcome<VacacionView>, reloaded: seq<VacacionView>) returns (sent: Checked<VacationBody>)
      modifies this`vacaciones, this`modalOpen, this`dpiBusqueda, this`seleccionado, this`formNueva
      ensures sent == NuevaPayload(old(seleccionado), old(formNueva))
      ensures sent.Accepted? && response.Ok? ==>
        vacaciones == Local(reloaded) && !modalOpen && dpiBusqueda == "" && seleccionado.None? && formNueva == EmptyNueva
      ensures !(sent.Accepted? && response.Ok?) ==>
        vacaciones == old(vacaciones) && modalOpen == old(modalOpen) && dpiBusqueda == old(dpiBusqueda) &&
        seleccionado == old(seleccionado) && formNueva == old(formNueva)
      ensures search == old(search) && filterEstado == old(filterEstado) && selected == old(selected)
    {
      sent := NuevaPayload(seleccionado, formNueva);
      if sent.Accepted? && response.Ok? {
        ResetNueva(Local(reloaded));
      }
    }

    /** After a request was created: the reloaded listing, and the modal closed with its
        search, selection and form reset. */
    method ResetNueva(listing: seq<Solicitud>)
      modifies this`vacaciones, this`modalOpen, this`dpiBusqueda, this`seleccionado, this`formNueva
      ensures vacaciones == listing && !modalOpen && dpiBusqueda == "" && seleccionado.None? && formNueva == EmptyNueva
    {
      vacaciones, modalOpen, dpiBusqueda, seleccionado, formNueva := listing, false, "", None, EmptyNueva;
    }

    /** `handleOpenDetalle`. */
    method OpenDetalle(v: Solicitud)
      modifies this`selected
      ensures selected == Some(v)
    {
      selected := Some(v);
    }

    /** `handleGuardarDetalle`: the request `PUT /:id` sends, if any; once the server
        accepts it, the estado of the matching requests changes and the detail closes. */
    method GuardarDetalle(response: Outcome<string>) returns (sent: Option<(string, Option<string>)>)
      modifies this`vacaciones, this`selected
      ensures old(selected).None? ==> sent.None? && vacaciones == old(vacaciones) && selected == old(selected)
      ensures old(selected).Some? ==> sent == Some((IntToString(old(selected).value.id), old(selected).value.estado))
      ensures old(selected).Some? && response.Ok? ==>
        vacaciones == SetEstadoLocal(old(vacaciones), old(selected).value.id, old(selected).value.estado) && selected.None?
      ensures old(selected).Some? && response.Fail? ==> vacaciones == old(vacaciones) && selected == old(selected)
    {
      if selected.None? {
        return None;
      }
      var v := selected.value;
      sent := Some((IntToString(v.id), v.estado));
      if response.Ok? {
        vacaciones := SetEstadoLocal(vacaciones, v.id, v.estado);
        selected := None;
      }
    }
  }

  lemma FiltradasAll(vs: seq<Solicitud>, search: string, filterEstado: string)
    ensures forall v :: v in Filtradas(vs, search, filterEstado) <==> v in vs && Matches(v, search, filterEstado)
  {
    forall v {
      FiltradasMembers(vs, search, filterEstado, v);
    }
  }

  /** The path `PUT` is sent to names the reviewed request. */
  lemma DetallePath(id: int)
    ensures ParseIntStr(IntToString(id)) == Some(id)
  {
    ParseIntOfIntToString(id);
  }
}
