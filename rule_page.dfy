/** The bonus and discount pages (`Bonificaciones.jsx`, and line for line the same
    `Descuentos.jsx`): the summary counts, the edit form's `destino` fallback, the client
    checks before saving, the list updates after each successful request, and the
    selection of renglones and employees for the assignment dialog. */
module RulePage {
  import opened Prelude
  import opened Text
  import opened Numbers
  import opened Schema
  import opened RuleRoutes
  import EmployeeRoutes

  /** A rule as the page holds it: the listing's JSON, later edited in place. */
  datatype ClientRule = ClientRule(
    id: int,
    nombre: string,
    tipo: string,
    valor: Option<real>,
    descripcion: Option<string>,
    todos: bool,
    renglon: bool,
    individual: bool,
    activo: JsVal,
    destino: Option<string>)

  /** The JSON of a listing row. */
  function ClientOf(v: ReglaView): ClientRule {
    var r := v.regla;
    ClientRule(r.id, r.nombre, r.tipo, Some(r.valor), r.descripcion, r.aplicaATodos, r.aplicaPorRenglon,
      r.aplicaIndividual, JsBool(r.activo), Some(v.destino))
  }

  /** An employee in the assignment dialog. */
  datatype Seleccionado = Seleccionado(idEmpleado: int, codigo: Option<string>, nombre: string, dpi: Option<string>)

  /** The create/edit form; every input holds text. */
  datatype Form = Form(id: Option<int>, nombre: string, tipo: string, valor: string, descripcion: string, destino: string, activo: JsVal)

  const InitialForm := Form(None, "", "MONTO", "", "", "todos", JsBool(true))

  function Base(k: RuleKind): string {
    match k
    case Bonificacion => "/bonificaciones"
    case Descuento => "/descuentos"
  }

  function NombreRequerido(k: RuleKind): string {
    match k
    case Bonificacion => "Ingresa un nombre para la bonificaci\U{00F3}n."
    case Descuento => "Ingresa un nombre para el descuento."
  }

  const ValorRequerido := "Ingresa un monto o porcentaje v\U{00E1}lido."

  // ---------------------------------------------------------------------------------
  // resumen
  // ---------------------------------------------------------------------------------

  function Activas(items: seq<ClientRule>): nat {
    if items == [] then 0
    else Activas(items[..|items| - 1]) + (if Truthy(items[|items| - 1].activo) then 1 else 0)
  }

  /** Reference count of the inactive rules. */
  function Inactivas(items: seq<ClientRule>): nat {
    if items == [] then 0
    else Inactivas(items[..|items| - 1]) + (if Truthy(items[|items| - 1].activo) then 0 else 1)
  }

  datatype Resumen = Resumen(total: int, activas: int, inactivas: int)

  /** `resumen`: `inactivas` is computed as `total - activas`, which is exactly the number
      of inactive rules, so it is never negative. */
  function ResumenOf(items: seq<ClientRule>): (r: Resumen)
    ensures r.total == |items| && r.activas == Activas(items)
    ensures r.inactivas == Inactivas(items) && 0 <= r.inactivas <= r.total
  {
    ActivasPlusInactivas(items);
    Resumen(|items|, Activas(items), |items| - Activas(items))
  }

  lemma {:induction false} ActivasPlusInactivas(items: seq<ClientRule>)
    ensures Activas(items) + Inactivas(items) == |items|
  {
    if items != [] {
      ActivasPlusInactivas(items[..|items| - 1]);
    }
  }

  // ---------------------------------------------------------------------------------
  // openEditModal
  // ---------------------------------------------------------------------------------

  /** `let destino = b.destino || "todos"`; an "otros" is then recovered from the flags in
      the order todos, renglon, individual (and stays "otros" when none is set). The
      `!destino` half of the test can never hold, so a missing `destino` becomes "todos"
      without looking at the flags. */
  function EditDestino(b: ClientRule): string {
    var destino := OrElse(b.destino, Some("todos")).value;
    if destino == "otros" then
      if b.todos then "todos"
      else if b.renglon then "renglon"
      else if b.individual then "individual"
      else destino
    else destino
  }

  /** For a rule as the listing sends it, the fallback agrees with the listing's `CASE`:
      the form opens with the very `destino` the server decoded. */
  lemma EditDestinoOfListing(r: Regla)
    ensures EditDestino(ClientOf(ViewOf(r))) == Decode(FlagsOf(r))
  {
  }

  /** The fallback reads the flags with the same precedence as the server. */
  lemma EditDestinoOtros(b: ClientRule)
    requires b.destino == Some("otros")
    ensures EditDestino(b) == Decode(Flags(b.todos, b.renglon, b.individual))
  {
  }

  /** The form `openEditModal` fills; `valorTexto` is `b.valor.toString()`. */
  function EditForm(b: ClientRule, valorTexto: string): (f: Form)
    ensures f.id == Some(b.id) && f.destino == EditDestino(b)
    ensures f.descripcion == OrElse(b.descripcion, Some("")).value
  {
    Form(Some(b.id), b.nombre, b.tipo, valorTexto, OrElse(b.descripcion, Some("")).value, EditDestino(b), b.activo)
  }

  // ---------------------------------------------------------------------------------
  // handleSubmit
  // ---------------------------------------------------------------------------------

  datatype Payload = Payload(nombre: string, tipo: string, valor: string, descripcion: Option<string>, destino: string, activo: JsVal)

  /** The request the page sends: `PUT <base>/<id>` when editing, `POST <base>` otherwise. */
  datatype Request = Request(edit: bool, path: string, payload: Payload)

  /** `!!form.id`: an id of 0 counts as a new rule. */
  predicate IsEdit(f: Form) {
    f.id.Some? && f.id.value != 0
  }

  /** The checks before any request, and the request built from the form. */
  function SubmitRequest(k: RuleKind, f: Form): (r: Checked<Request>)
    ensures r == Refused(NombreRequerido(k)) <==> Trim(f.nombre) == []
    ensures r == Refused(ValorRequerido) <==>
      Trim(f.nombre) != [] && (f.valor == "" || (ToNumberStr(f.valor).Some? && ToNumberStr(f.valor).value <= 0.0))
    ensures r.Accepted? ==>
      r.value.edit == IsEdit(f) &&
      r.value.path == (if IsEdit(f) then Base(k) + "/" + IntToString(f.id.value) else Base(k)) &&
      r.value.payload.nombre == Trim(f.nombre) && r.value.payload.nombre != [] &&
      r.value.payload.descripcion == NullIfEmpty(Some(f.descripcion))
  {
    if Trim(f.nombre) == [] then Refused(NombreRequerido(k))
    else if f.valor == "" || (ToNumberStr(f.valor).Some? && ToNumberStr(f.valor).value <= 0.0) then Refused(ValorRequerido)
    else
      var edit := IsEdit(f);
      var path := if edit then Base(k) + "/" + IntToString(f.id.value) else Base(k);
      Accepted(Request(edit, path, Payload(Trim(f.nombre), f.tipo, f.valor, NullIfEmpty(Some(f.descripcion)), f.destino, f.activo)))
  }

  /** The body the server receives for a payload. */
  function BodyOf(p: Payload): RuleBody {
    RuleBody(Some(p.nombre), Some(p.tipo), JsStr(p.valor), p.descripcion, Some(p.destino), p.activo)
  }

  /** An edit reaches the rule being edited: the route reads back the id in the path. */
  lemma EditTargetsRule(k: RuleKind, f: Form)
    requires SubmitRequest(k, f).Accepted? && IsEdit(f)
    ensures var path := SubmitRequest(k, f).value.path;
      |Base(k) + "/"| <= |path| && ParseIntStr(path[|Base(k) + "/"|..]) == Some(f.id.value)
  {
    var path := SubmitRequest(k, f).value.path;
    assert path[|Base(k) + "/"|..] == IntToString(f.id.value);
    ParseIntOfIntToString(f.id.value);
  }

  /** What the page accepts and the server refuses: a text that `Number` reads as NaN
      passes the page's `Number(valor) <= 0` test, and when `parseFloat` finds no number
      in it either, the server refuses it. */
  lemma NaNPassesPage(k: RuleKind, f: Form)
    requires Trim(f.nombre) != [] && f.tipo != "" && f.destino != ""
    requires ToNumberStr(f.valor).None? && ParseFloatStr(f.valor).None?
    ensures SubmitRequest(k, f).Accepted?
    ensures Validate(BodyOf(SubmitRequest(k, f).value.payload)) == Fail(BadRequest, ValorInvalido)
  {
    assert f.valor != "";
    var r := SubmitRequest(k, f);
    assert r.Accepted?;
    var b := BodyOf(r.value.payload);
    assert Present(b.nombre) && Present(b.tipo) && Present(b.destino) && Truthy(b.valor);
    assert ParseFloat(b.valor).None?;
  }

  /** Such a text exists: "x" is NaN for both. */
  lemma NaNText()
    ensures ToNumberStr("x").None? && ParseFloatStr("x").None?
  {
    var x := "x";
    TrimUnspaced(x);
    assert TrimStart(x) == x;
    assert SplitSign(x) == (false, x);
    assert DigitPrefix(x) == [] && FractionPrefix(x) == [];
  }

  /** A form the page accepts with a value that `Number` reads as a number (and with a
      `tipo` and `destino` chosen) passes the server's checks too, with the same amount. */
  lemma SubmittedIsValid(k: RuleKind, f: Form)
    requires SubmitRequest(k, f).Accepted? && ToNumberStr(f.valor).Some? && f.tipo != "" && f.destino != ""
    ensures var b := BodyOf(SubmitRequest(k, f).value.payload);
      Validate(b).Ok? && Validate(b).value.valor == ToNumberStr(f.valor).value &&
      Validate(b).value.nombre == Trim(f.nombre) && Validate(b).value.flags == Encode(f.destino)
  {
    var b := BodyOf(SubmitRequest(k, f).value.payload);
    assert Present(b.nombre) && Present(b.tipo) && Present(b.destino) && Truthy(b.valor);
    NumberAgreesWithParseFloat(f.valor);
    assert ParseFloat(b.valor) == ToNumberStr(f.valor);
  }

  /** After a successful edit the rule with that id shows the sent values. */
  function EditSaved(items: seq<ClientRule>, id: int, p: Payload): (r: seq<ClientRule>)
    ensures |r| == |items|
    ensures forall i :: 0 <= i < |items| && items[i].id != id ==> r[i] == items[i]
    ensures forall i :: 0 <= i < |items| && items[i].id == id ==>
      r[i] == items[i].(nombre := p.nombre, tipo := p.tipo, valor := ToNumberStr(p.valor),
        descripcion := p.descripcion, destino := Some(p.destino), activo := p.activo)
  {
    seq(|items|, i requires 0 <= i < |items| =>
      if items[i].id == id then
        items[i].(nombre := p.nombre, tipo := p.tipo, valor := ToNumberStr(p.valor),
          descripcion := p.descripcion, destino := Some(p.destino), activo := p.activo)
      else items[i])
  }

  // ---------------------------------------------------------------------------------
  // handleToggleActivo and handleDelete
  // ---------------------------------------------------------------------------------

  /** `bonos.find(b => b.id === id)`. */
  function FindRule(items: seq<ClientRule>, id: int): (r: Option<ClientRule>)
    ensures r.Some? ==> r.value.id == id && r.value in items
    ensures r.None? ==> forall i :: 0 <= i < |items| ==> items[i].id != id
  {
    if items == [] then None
    else if items[0].id == id then Some(items[0])
    else FindRule(items[1..], id)
  }

  /** `prev.map(b => b.id === id ? {...b, activo} : b)`. */
  function SetActivo(items: seq<ClientRule>, id: int, activo: bool): (r: seq<ClientRule>)
    ensures |r| == |items|
    ensures forall i :: 0 <= i < |items| && items[i].id != id ==> r[i] == items[i]
    ensures forall i :: 0 <= i < |items| && items[i].id == id ==> r[i] == items[i].(activo := JsBool(activo))
  {
    seq(|items|, i requires 0 <= i < |items| => if items[i].id == id then items[i].(activo := JsBool(activo)) else items[i])
  }

  /** The state after toggling, as the handler computes it: no rule with that id
      leaves the list alone. */
  function Toggled(items: seq<ClientRule>, id: int): seq<ClientRule> {
    match FindRule(items, id)
    case None => items
    case Some(b) => SetActivo(items, id, !Truthy(b.activo))
  }

  predicate UniqueIds(items: seq<ClientRule>) {
    forall i, j :: 0 <= i < j < |items| ==> items[i].id != items[j].id
  }

  lemma FoundIsAt(items: seq<ClientRule>, id: int, i: int)
    requires UniqueIds(items) && 0 <= i < |items| && items[i].id == id
    ensures FindRule(items, id) == Some(items[i])
  {
    assert FindRule(items, id).Some?;
    var b := FindRule(items, id).value;
    var j :| 0 <= j < |items| && items[j] == b;
    assert b.id == id;
  }

  /** Toggling twice gives every rule back its active state, and changes nothing else. */
  lemma ToggleTwice(items: seq<ClientRule>, id: int)
    requires UniqueIds(items)
    ensures |Toggled(Toggled(items, id), id)| == |items|
    ensures forall i :: 0 <= i < |items| ==>
      Toggled(Toggled(items, id), id)[i].id == items[i].id &&
      Truthy(Toggled(Toggled(items, id), id)[i].activo) == Truthy(items[i].activo) &&
      (items[i].id != id ==> Toggled(Toggled(items, id), id)[i] == items[i])
  {
    if FindRule(items, id).Some? {
      var b := FindRule(items, id).value;
      var j :| 0 <= j < |items| && items[j] == b;
      FoundIsAt(items, id, j);
      var act := Truthy(b.activo);
      var t1 := SetActivo(items, id, !act);
      assert Toggled(items, id) == t1;
      SetActivoKeepsIds(items, id, !act);
      FoundIsAt(t1, id, j);
      assert Truthy(t1[j].activo) == !act;
      assert Toggled(t1, id) == SetActivo(t1, id, act);
      SetActivoTwice(items, id, !act, act);
      var t2 := SetActivo(items, id, act);
      assert Toggled(Toggled(items, id), id) == t2;
      forall i | 0 <= i < |items|
        ensures t2[i].id == items[i].id && Truthy(t2[i].activo) == Truthy(items[i].activo)
        ensures items[i].id != id ==> t2[i] == items[i]
      {
        if items[i].id == id {
          assert i == j;
        }
      }
    } else {
      assert Toggled(items, id) == items;
    }
  }

  lemma SetActivoKeepsIds(items: seq<ClientRule>, id: int, activo: bool)
    requires UniqueIds(items)
    ensures UniqueIds(SetActivo(items, id, activo))
  {
    var r := SetActivo(items, id, activo);
    assert forall i :: 0 <= i < |items| ==> r[i].id == items[i].id;
  }

  /** The second of two updates of the same rule is the one that stays. */
  lemma SetActivoTwice(items: seq<ClientRule>, id: int, a: bool, b: bool)
    ensures SetActivo(SetActivo(items, id, a), id, b) == SetActivo(items, id, b)
  {
    var t1 := SetActivo(items, id, a);
    assert forall i :: 0 <= i < |items| ==> t1[i].id == items[i].id;
  }

  /** `prev.filter(b => b.id !== id)`. */
  function Without(items: seq<ClientRule>, id: int): seq<ClientRule> {
    if items == [] then []
    else Without(items[..|items| - 1], id) + (if items[|items| - 1].id == id then [] else [items[|items| - 1]])
  }

  /** Deleting drops exactly the rules with that id. */
  lemma {:induction false} WithoutMembers(items: seq<ClientRule>, id: int, x: ClientRule)
    ensures x in Without(items, id) <==> x in items && x.id != id
  {
    if items != [] {
      var p := items[..|items| - 1];
      WithoutMembers(p, id, x);
      assert items == p + [items[|items| - 1]];
    }
  }

  /** An id of no listed rule leaves the list as it was. */
  lemma {:induction false} WithoutAbsent(items: seq<ClientRule>, id: int)
    requires forall i :: 0 <= i < |items| ==> items[i].id != id
    ensures Without(items, id) == items
  {
    if items != [] {
      var p := items[..|items| - 1];
      WithoutAbsent(p, id);
      assert items == p + [items[|items| - 1]];
    }
  }

  // ---------------------------------------------------------------------------------
  // The assignment dialog
  // ---------------------------------------------------------------------------------

  /** `toggleRenglonSeleccionado`: remove the id when present, append it otherwise. */
  function ToggleSel(sel: seq<int>, id: int): seq<int> {
    if id in sel then RemoveId(sel, id) else sel + [id]
  }

  function RemoveId(sel: seq<int>, id: int): seq<int> {
    if sel == [] then []
    else RemoveId(sel[..|sel| - 1], id) + (if sel[|sel| - 1] == id then [] else [sel[|sel| - 1]])
  }

  lemma {:induction false} RemoveIdMembers(sel: seq<int>, id: int, x: int)
    ensures x in RemoveId(sel, id) <==> x in sel && x != id
  {
    if sel != [] {
      var p := sel[..|sel| - 1];
      RemoveIdMembers(p, id, x);
      assert sel == p + [sel[|sel| - 1]];
    }
  }

  lemma {:induction false} RemoveIdAbsent(sel: seq<int>, id: int)
    requires id !in sel
    ensures RemoveId(sel, id) == sel
  {
    if sel != [] {
      var p := sel[..|sel| - 1];
      assert sel == p + [sel[|sel| - 1]];
      RemoveIdAbsent(p, id);
    }
  }

  /** Toggling flips the membership of that id and of no other. */
  lemma ToggleSelMembers(sel: seq<int>, id: int, x: int)
    ensures x in ToggleSel(sel, id) <==> if x == id then id !in sel else x in sel
  {
    RemoveIdMembers(sel, id, x);
  }

  /** Toggling twice restores the membership; when the id was not selected, it restores
      the list itself. */
  lemma ToggleSelTwice(sel: seq<int>, id: int, x: int)
    ensures x in ToggleSel(ToggleSel(sel, id), id) <==> x in sel
    ensures id !in sel ==> ToggleSel(ToggleSel(sel, id), id) == sel
  {
    ToggleSelMembers(sel, id, x);
    ToggleSelMembers(ToggleSel(sel, id), id, x);
    if id !in sel {
      var s := sel + [id];
      assert s[..|s| - 1] == sel;
      RemoveIdAbsent(sel, id);
    }
  }

  predicate UniqueEmpleados(sel: seq<Seleccionado>) {
    forall i, j :: 0 <= i < j < |sel| ==> sel[i].idEmpleado != sel[j].idEmpleado
  }

  predicate HasEmpleado(sel: seq<Seleccionado>, id: int) {
    exists i :: 0 <= i < |sel| && sel[i].idEmpleado == id
  }

  /** `agregarEmpleadoSeleccionado`: append unless an entry has the same employee id. */
  function AddEmpleado(sel: seq<Seleccionado>, e: Seleccionado): (r: seq<Seleccionado>)
    ensures UniqueEmpleados(sel) ==> UniqueEmpleados(r)
    ensures HasEmpleado(r, e.idEmpleado)
  {
    if HasEmpleado(sel, e.idEmpleado) then sel
    else
      var r := sel + [e];
      assert r[|sel|].idEmpleado == e.idEmpleado;
      r
  }

  /** Adding the same employee twice is adding it once. */
  lemma AddEmpleadoIdempotent(sel: seq<Seleccionado>, e: Seleccionado)
    ensures AddEmpleado(AddEmpleado(sel, e), e) == AddEmpleado(sel, e)
  {
  }

  /** `quitarEmpleadoSeleccionado`: `prev.filter(e => e.id_empleado !== id)`. */
  function RemoveEmpleado(sel: seq<Seleccionado>, id: int): seq<Seleccionado> {
    if sel == [] then []
    else RemoveEmpleado(sel[..|sel| - 1], id) + (if sel[|sel| - 1].idEmpleado == id then [] else [sel[|sel| - 1]])
  }

  /** Removing deletes that employee and keeps the others. */
  lemma {:induction false} RemoveEmpleadoMembers(sel: seq<Seleccionado>, id: int, x: Seleccionado)
    ensures x in RemoveEmpleado(sel, id) <==> x in sel && x.idEmpleado != id
  {
    if sel != [] {
      var p := sel[..|sel| - 1];
      RemoveEmpleadoMembers(p, id, x);
      assert sel == p + [sel[|sel| - 1]];
    }
  }

  /** The ids `handleGuardarAsignaciones` sends for the selected employees. */
  function IdsEmpleados(sel: seq<Seleccionado>): (ids: seq<int>)
    ensures |ids| == |sel| && forall i :: 0 <= i < |sel| ==> ids[i] == sel[i].idEmpleado
  {
    seq(|sel|, i requires 0 <= i < |sel| => sel[i].idEmpleado)
  }

  /** The ids sent as JSON numbers, as the route receives them. */
  function AsJson(ids: seq<int>): (vs: seq<JsVal>)
    ensures |vs| == |ids| && forall i :: 0 <= i < |ids| ==> vs[i] == JsNum(ids[i] as real)
  {
    seq(|ids|, i requires 0 <= i < |ids| => JsNum(ids[i] as real))
  }

  /** Saving the dialog makes the server hold exactly the selection: the route's parsing
      gives the page's ids back unchanged and in order. */
  lemma SavedSelection(ids: seq<int>)
    requires forall i :: 0 <= i < |ids| ==> FixedNotation(ids[i] as real)
    ensures ParseIds(Some(AsJson(ids))) == ids
  {
    ParsedIntsOfNumbers(ids);
    assert AsJson(ids) == seq(|ids|, i requires 0 <= i < |ids| => JsNum(ids[i] as real));
  }

  // ---------------------------------------------------------------------------------
  // The page's state
  // ---------------------------------------------------------------------------------

  /** `handleBuscarEmpleados` sends the trimmed term, and the search route finds with it
      exactly what it finds with the text typed: nothing is lost by trimming twice, and a
      blank text, which the page does not send, would find nothing. */
  lemma SearchTermReachesRoute(es: seq<Empleado>, rs: seq<Renglon>, texto: string)
    ensures EmployeeRoutes.Buscar(es, rs, Some(Trim(texto))) == EmployeeRoutes.Buscar(es, rs, Some(texto))
    ensures Trim(texto) == [] ==> EmployeeRoutes.Buscar(es, rs, Some(texto)) == []
  {
    TrimIdempotent(texto);
  }

  class RulePageState {
    const kind: RuleKind
    var items: seq<ClientRule>
    var form: Form
    var showModal: bool
    var seleccionado: Option<ClientRule>
    var assignMode: Option<string>
    var renglonesSel: seq<int>
    var empleadosSel: seq<Seleccionado>
    var empleadosBusqueda: seq<Seleccionado>

    constructor (k: RuleKind, loaded: seq<ClientRule>)
      ensures kind == k && items == loaded && form == InitialForm && !showModal
      ensures seleccionado.None? && assignMode.None? && renglonesSel == [] && empleadosSel == []
      ensures empleadosBusqueda == []
    {
      empleadosBusqueda := [];
      kind := k;
      items := loaded;
      form := InitialForm;
      showModal := false;
      seleccionado := None;
      assignMode := None;
      renglonesSel := [];
      empleadosSel := [];
    }

    /** `openNewModal`. */
    method OpenNew()
      modifies this`form, this`showModal
      ensures form == InitialForm && showModal
    {
      form := InitialForm;
      showModal := true;
    }

    /** `openEditModal`. */
    method OpenEdit(b: ClientRule, valorTexto: string)
      modifies this`form, this`showModal
      ensures form == EditForm(b, valorTexto) && showModal
    {
      var destino := OrElse(b.destino, Some("todos")).value;
      if destino == "" || destino == "otros" {
        if b.todos {
          destino := "todos";
        } else if b.renglon {
          destino := "renglon";
        } else if b.individual {
          destino := "individual";
        }
      }
      form := Form(Some(b.id), b.nombre, b.tipo, valorTexto, OrElse(b.descripcion, Some("")).value, destino, b.activo);
      showModal := true;
    }

    /** `handleToggleActivo`: without a rule of that id nothing is sent; otherwise the
        negated state is sent and, when the server accepts it, stored for that id only. */
    method ToggleActivo(id: int, accepted: bool) returns (sent: Option<bool>)
      modifies this`items
      ensures FindRule(old(items), id).None? ==> sent.None? && items == old(items)
      ensures FindRule(old(items), id).Some? ==> sent == Some(!Truthy(FindRule(old(items), id).value.activo))
      ensures items == if accepted then Toggled(old(items), id) else old(items)
    {
      var b := FindRule(items, id);
      if b.None? {
        return None;
      }
      var nuevoActivo := !Truthy(b.value.activo);
      sent := Some(nuevoActivo);
      if accepted {
        items := SetActivo(items, id, nuevoActivo);
      }
    }

    /** `handleDelete`: only a confirmed delete the server accepts changes the list. */
    method Delete(id: int, confirmed: bool, accepted: bool)
      modifies this`items
      ensures items == if confirmed && accepted then Without(old(items), id) else old(items)
    {
      if !confirmed {
        return;
      }
      if accepted {
        items := Without(items, id);
      }
    }

    /** `handleSubmit`: a form the page refuses sends nothing and changes nothing; after a
        successful save a new rule is appended as the server returned it, an edited one
        is rewritten in place, and the form is closed and reset. */
    method Submit(response: Outcome<ClientRule>) returns (r: Checked<Request>)
      modifies this`items, this`form, this`showModal
      ensures r == SubmitRequest(kind, old(form))
      ensures r.Refused? || response.Fail? ==> items == old(items) && form == old(form) && showModal == old(showModal)
      ensures r.Accepted? && response.Ok? ==>
        !showModal && form == InitialForm &&
        items == (if r.value.edit then EditSaved(old(items), old(form).id.value, r.value.payload) else old(items) + [response.value])
    {
      r := SubmitRequest(kind, form);
      if r.Refused? || response.Fail? {
        return;
      }
      var saved := if r.value.edit then EditSaved(items, form.id.value, r.value.payload) else items + [response.value];
      Close(saved);
    }

    /** The end of a successful save: the list as saved, the form closed and reset. */
    method Close(saved: seq<ClientRule>)
      modifies this`items, this`form, this`showModal
      ensures items == saved && form == InitialForm && !showModal
    {
      items, form, showModal := saved, InitialForm, false;
    }

    /** `openAssignModal`: a rule for everyone never opens the dialog; otherwise the
        dialog opens on that rule with the assignments the server returned, and the
        results of an earlier employee search are cleared. */
    method OpenAssign(b: ClientRule, renglones: seq<int>, empleados: seq<Seleccionado>)
      modifies this`seleccionado, this`assignMode, this`renglonesSel, this`empleadosSel, this`empleadosBusqueda
      ensures b.destino == Some("todos") ==>
        seleccionado == old(seleccionado) && assignMode == old(assignMode) &&
        renglonesSel == old(renglonesSel) && empleadosSel == old(empleadosSel) &&
        empleadosBusqueda == old(empleadosBusqueda)
      ensures b.destino != Some("todos") ==>
        seleccionado == Some(b) && assignMode == b.destino &&
        renglonesSel == (if b.destino == Some("renglon") then renglones else []) &&
        empleadosSel == (if b.destino == Some("individual") then empleados else []) &&
        empleadosBusqueda == []
    {
      if b.destino == Some("todos") {
        return;
      }
      seleccionado := Some(b);
      assignMode := b.destino;
      renglonesSel := [];
      empleadosBusqueda := [];
      empleadosSel := [];
      if b.destino == Some("renglon") {
        renglonesSel := renglones;
      } else if b.destino == Some("individual") {
        empleadosSel := empleados;
      }
    }

    method ToggleRenglon(id: int)
      modifies this`renglonesSel
      ensures renglonesSel == ToggleSel(old(renglonesSel), id)
    {
      if id in renglonesSel {
        renglonesSel := RemoveId(renglonesSel, id);
      } else {
        renglonesSel := renglonesSel + [id];
      }
    }

    /** `handleBuscarEmpleados`: a blank text sends nothing and keeps the results; otherwise
        the trimmed term is sent and the answer shown (an error answer shows no result). */
    method BuscarEmpleados(texto: string, answer: Outcome<seq<Seleccionado>>) returns (sent: Option<string>)
      modifies this`empleadosBusqueda
      ensures sent.None? <==> Trim(texto) == []
      ensures sent.Some? ==> sent.value == Trim(texto) && sent.value != []
      ensures sent.None? ==> empleadosBusqueda == old(empleadosBusqueda)
      ensures sent.Some? ==> empleadosBusqueda == if answer.Ok? then answer.value else []
    {
      var term := Trim(texto);
      if term == [] {
        return None;
      }
      sent := Some(term);
      empleadosBusqueda := if answer.Ok? then answer.value else [];
    }

    method AgregarEmpleado(e: Seleccionado)
      modifies this`empleadosSel
      ensures empleadosSel == AddEmpleado(old(empleadosSel), e)
    {
      empleadosSel := AddEmpleado(empleadosSel, e);
    }

    method QuitarEmpleado(id: int)
      modifies this`empleadosSel
      ensures empleadosSel == RemoveEmpleado(old(empleadosSel), id)
    {
      empleadosSel := RemoveEmpleado(empleadosSel, id);
    }

    /** `handleGuardarAsignaciones`: the ids sent for the current mode (none without a
        selected rule or outside the two assignment modes). */
    function IdsAEnviar(): (r: Option<seq<int>>)
      reads this
      ensures seleccionado.None? ==> r.None?
      ensures seleccionado.Some? && assignMode == Some("renglon") ==> r == Some(renglonesSel)
      ensures seleccionado.Some? && assignMode == Some("individual") ==> r == Some(IdsEmpleados(empleadosSel))
    {
      if seleccionado.None? then None
      else if assignMode == Some("renglon") then Some(renglonesSel)
      else if assignMode == Some("individual") then Some(IdsEmpleados(empleadosSel))
      else None
    }
  }
}
