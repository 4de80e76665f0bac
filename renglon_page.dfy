/** The renglones page (`Renglones.jsx`): the list loaded from the server, the create and
    edit form with its trimmed payload, and the list updates after a save or a delete.
    The list is kept an image of the `Renglones` table: every update the page applies
    locally matches the row the server wrote. */
module RenglonPage {
  import opened Prelude
  import opened Text
  import opened Collections
  import opened Schema
  import opened RenglonRoutes

  const ApiUrl := "http://localhost:4000/api/renglones"
  const Requeridos := "El c\U{00F3}digo y el nombre del rengl\U{00F3}n son obligatorios."

  // ---------------------------------------------------------------------------------
  // Loaded records
  // ---------------------------------------------------------------------------------

  /** A renglón as the server's JSON carries it: `empleadosAsignados` may be missing. */
  datatype RenglonJson = RenglonJson(
    id: int,
    codigo: string,
    nombre: string,
    descripcion: Option<string>,
    empleadosAsignados: Option<int>)

  /** A record of the page's list; `activo` is only present once an edit has spread the
      payload into it. */
  datatype RenglonItem = RenglonItem(
    id: int,
    codigo: string,
    nombre: string,
    descripcion: Option<string>,
    empleadosAsignados: int,
    activo: Option<int>)

  /** The mapping of `fetchRenglones` and of the create branch: a missing count is 0. */
  function Adapt(j: RenglonJson): (r: RenglonItem)
    ensures r.id == j.id && r.codigo == j.codigo && r.nombre == j.nombre && r.descripcion == j.descripcion
    ensures j.empleadosAsignados.None? ==> r.empleadosAsignados == 0
    ensures j.empleadosAsignados.Some? ==> r.empleadosAsignados == j.empleadosAsignados.value
    ensures r.activo.None?
  {
    RenglonItem(j.id, j.codigo, j.nombre, j.descripcion, j.empleadosAsignados.GetOr(0), None)
  }

  function Adapted(data: seq<RenglonJson>): (r: seq<RenglonItem>)
    ensures |r| == |data| && forall i :: 0 <= i < |data| ==> r[i] == Adapt(data[i])
  {
    seq(|data|, i requires 0 <= i < |data| => Adapt(data[i]))
  }

  /** The JSON of a row of `GET /`. */
  function JsonOfFila(w: RenglonFila): RenglonJson {
    RenglonJson(w.id, w.codigo, w.nombre, w.descripcion, Some(w.empleadosAsignados))
  }

  /** The JSON of the answer of `POST /`. */
  function JsonOfCreado(c: RenglonCreado): RenglonJson {
    RenglonJson(c.id, c.codigo, c.nombre, c.descripcion, Some(c.empleadosAsignados))
  }

  /** A list record shows the renglón `r`: same key, code and name, and the same
      description once an empty one is read as none. */
  predicate Agrees(item: RenglonItem, r: Renglon) {
    item.id == r.id && item.codigo == r.codigo && item.nombre == r.nombre
    && NullIfEmpty(item.descripcion) == NullIfEmpty(r.descripcion)
  }

  predicate Shown(item: RenglonItem, rs: seq<Renglon>) {
    exists r :: r in rs && Agrees(item, r)
  }

  /** Every record of the list shows some row of the table. */
  predicate Mirrors(items: seq<RenglonItem>, rs: seq<Renglon>) {
    forall i :: 0 <= i < |items| ==> Shown(items[i], rs)
  }

  /** Loading the listing gives a list that shows the table, each record with the count
      the server computed. */
  lemma LoadMirrors(rs: seq<Renglon>, es: seq<Empleado>)
    ensures var items := Adapted(seq(|Listado(rs, es)|, i requires 0 <= i < |Listado(rs, es)| => JsonOfFila(Listado(rs, es)[i])));
      Mirrors(items, rs) &&
      forall i :: 0 <= i < |items| ==> items[i].empleadosAsignados == Asignados(es, items[i].id)
  {
    var l := Listado(rs, es);
    var js := seq(|Listado(rs, es)|, i requires 0 <= i < |Listado(rs, es)| => JsonOfFila(Listado(rs, es)[i]));
    var items := Adapted(js);
    forall i | 0 <= i < |items|
      ensures Shown(items[i], rs) && items[i].empleadosAsignados == Asignados(es, items[i].id)
    {
      assert items[i] == Adapt(js[i]) && js[i] == JsonOfFila(l[i]);
      assert l[i] in l;
      ListadoMembers(rs, es, l[i]);
      var k :| 0 <= k < |rs| && rs[k].activo && l[i] == FilaOf(rs[k], es);
      assert Agrees(items[i], rs[k]);
    }
  }

  // ---------------------------------------------------------------------------------
  // The form and the payload
  // ---------------------------------------------------------------------------------

  datatype RenglonForm = RenglonForm(codigo: string, nombre: string, descripcion: string)

  const EmptyForm := RenglonForm("", "", "")

  /** `handleOpenEditModal`: a missing or empty description is shown as "". */
  function EditForm(r: RenglonItem): (f: RenglonForm)
    ensures f.codigo == r.codigo && f.nombre == r.nombre
    ensures f.descripcion == "" <==> !Present(r.descripcion)
    ensures Present(r.descripcion) ==> f.descripcion == r.descripcion.value
  {
    RenglonForm(r.codigo, r.nombre, r.descripcion.GetOr(""))
  }

  /** `handleChange`: the field called `name` takes the typed value; the page has no other
      field, so any other name leaves the three unchanged. */
  function Changed(f: RenglonForm, name: string, value: string): (r: RenglonForm)
    ensures r.codigo == (if name == "codigo" then value else f.codigo)
    ensures r.nombre == (if name == "nombre" then value else f.nombre)
    ensures r.descripcion == (if name == "descripcion" then value else f.descripcion)
  {
    if name == "codigo" then f.(codigo := value)
    else if name == "nombre" then f.(nombre := value)
    else if name == "descripcion" then f.(descripcion := value)
    else f
  }

  /** The body both requests send. */
  datatype Payload = Payload(codigo: string, nombre: string, descripcion: string, activo: int)

  /** The check and the payload of `handleSubmit`. */
  function PayloadOf(f: RenglonForm): (r: Checked<Payload>)
    ensures r.Refused? <==> Trim(f.codigo) == [] || Trim(f.nombre) == []
    ensures r.Refused? ==> r.message == Requeridos
    ensures r.Accepted? ==>
      r.value.codigo == Trim(f.codigo) && r.value.nombre == Trim(f.nombre) &&
      r.value.descripcion == Trim(f.descripcion) && r.value.activo == 1
  {
    if Trim(f.codigo) == [] || Trim(f.nombre) == [] then Refused(Requeridos)
    else Accepted(Payload(Trim(f.codigo), Trim(f.nombre), Trim(f.descripcion), 1))
  }

  /** The JSON body the routes read from a payload (they ignore `activo`). */
  function BodyOf(p: Payload): RenglonBody {
    RenglonBody(Some(p.codigo), Some(p.nombre), Some(p.descripcion))
  }

  /** A payload the page accepts passes the server's own check. */
  lemma PayloadPassesRoute(f: RenglonForm)
    requires PayloadOf(f).Accepted?
    ensures Aceptable(BodyOf(PayloadOf(f).value))
  {
    var p := PayloadOf(f).value;
    assert p.codigo != [] && p.nombre != [];
  }

  /** The page is stricter than the route: a code of blanks, which the page refuses, would
      reach the server as a non-empty text that it accepts. */
  lemma PageStricterOnBlanks(f: RenglonForm)
    requires f.codigo != [] && AllSpace(f.codigo) && f.nombre != []
    ensures PayloadOf(f).Refused?
    ensures Aceptable(RenglonBody(Some(f.codigo), Some(f.nombre), Some(f.descripcion)))
  {
    TrimEmptyIffAllSpace(f.codigo);
  }

  /** Reopening a saved record and saving it unchanged sends the same payload. */
  lemma ResaveSamePayload(f: RenglonForm)
    requires PayloadOf(f).Accepted?
    ensures var p := PayloadOf(f).value;
      PayloadOf(EditForm(RenglonItem(0, p.codigo, p.nombre, Some(p.descripcion), 0, Some(1)))) == Accepted(p)
  {
    TrimIdempotent(f.codigo);
    TrimIdempotent(f.nombre);
    TrimIdempotent(f.descripcion);
  }

  /** A request: PUT and DELETE carry the record's id in the path. */
  datatype Request = Request(verb: string, path: string, payload: Option<Payload>)

  function ItemPath(id: int): string {
    ApiUrl + "/" + IntToString(id)
  }

  /** The id in the path is the one the routes read back from it. */
  lemma ItemPathId(id: int)
    requires id >= 0
    ensures ItemPath(id) == ApiUrl + "/" + NatToString(id)
    ensures ParamId(NatToString(id)) == Some(id as real)
  {
    ParamIdOfNat(id);
  }

  /** What `handleSubmit` sends: PUT to the record being edited, else POST. */
  function SubmitRequest(editing: Option<RenglonItem>, f: RenglonForm): (r: Checked<Request>)
    ensures r.Refused? <==> PayloadOf(f).Refused?
    ensures r.Accepted? ==> r.value.payload == Some(PayloadOf(f).value)
    ensures r.Accepted? && editing.Some? ==> r.value.verb == "PUT" && r.value.path == ItemPath(editing.value.id)
    ensures r.Accepted? && editing.None? ==> r.value.verb == "POST" && r.value.path == ApiUrl
  {
    match PayloadOf(f)
    case Refused(m) => Refused(m)
    case Accepted(p) =>
      if editing.Some? then Accepted(Request("PUT", ItemPath(editing.value.id), Some(p)))
      else Accepted(Request("POST", ApiUrl, Some(p)))
  }

  // ---------------------------------------------------------------------------------
  // List updates
  // ---------------------------------------------------------------------------------

  /** `{ ...r, ...payload }` on the record with the edited id. */
  function EditItem(item: RenglonItem, p: Payload): RenglonItem {
    item.(codigo := p.codigo, nombre := p.nombre, descripcion := Some(p.descripcion), activo := Some(p.activo))
  }

  /** The `map` after a saved edit: only records with that id change, and only in the
      payload's fields. */
  function Editado(items: seq<RenglonItem>, id: int, p: Payload): (r: seq<RenglonItem>)
    ensures |r| == |items|
    ensures forall i :: 0 <= i < |items| && items[i].id != id ==> r[i] == items[i]
    ensures forall i :: 0 <= i < |items| && items[i].id == id ==>
      r[i].id == id && r[i].empleadosAsignados == items[i].empleadosAsignados &&
      r[i].codigo == p.codigo && r[i].nombre == p.nombre && r[i].descripcion == Some(p.descripcion) && r[i].activo == Some(p.activo)
  {
    seq(|items|, i requires 0 <= i < |items| => if items[i].id == id then EditItem(items[i], p) else items[i])
  }

  /** The `filter` after a delete: the records with that id leave, the rest keep their
      order. */
  function Sin(items: seq<RenglonItem>, id: int): (r: seq<RenglonItem>)
    ensures |r| <= |items|
    ensures Subseq(r, items)
  {
    if items == [] then []
    else if items[|items| - 1].id == id then Sin(items[..|items| - 1], id)
    else Sin(items[..|items| - 1], id) + [items[|items| - 1]]
  }

  lemma {:induction false} SinMembers(items: seq<RenglonItem>, id: int, x: RenglonItem)
    ensures x in Sin(items, id) <==> x in items && x.id != id
  {
    if items != [] {
      SinMembers(items[..|items| - 1], id, x);
      assert items == items[..|items| - 1] + [items[|items| - 1]];
    }
  }

  /** Removing twice removes nothing more. */
  lemma {:induction false} SinIdempotent(items: seq<RenglonItem>, id: int)
    ensures Sin(Sin(items, id), id) == Sin(items, id)
  {
    if items != [] {
      SinIdempotent(items[..|items| - 1], id);
      var p := Sin(items[..|items| - 1], id);
      if items[|items| - 1].id != id {
        assert (p + [items[|items| - 1]])[..|p|] == p;
      }
    }
  }

  /** The local edit matches the server's `UPDATE`: the list keeps showing the table. */
  lemma EditMirrors(items: seq<RenglonItem>, rs: seq<Renglon>, id: int, p: Payload)
    requires Mirrors(items, rs)
    ensures Mirrors(Editado(items, id, p), Actualizar(rs, id as real, BodyOf(p)))
  {
    var e := Editado(items, id, p);
    var u := Actualizar(rs, id as real, BodyOf(p));
    forall i | 0 <= i < |e| ensures Shown(e[i], u) {
      assert Shown(items[i], rs);
      var r :| r in rs && Agrees(items[i], r);
      var k :| 0 <= k < |rs| && rs[k] == r;
      assert u[k] in u;
      assert Agrees(e[i], u[k]);
    }
  }

  /** The local removal matches the server's `DELETE`. */
  lemma SinMirrors(items: seq<RenglonItem>, rs: seq<Renglon>, id: int)
    requires Mirrors(items, rs)
    ensures Mirrors(Sin(items, id), Quitar(rs, id as real))
  {
    var s := Sin(items, id);
    forall i | 0 <= i < |s| ensures Shown(s[i], Quitar(rs, id as real)) {
      assert s[i] in s;
      SinMembers(items, id, s[i]);
      var j :| 0 <= j < |items| && items[j] == s[i];
      assert Shown(items[j], rs);
      var r :| r in rs && Agrees(items[j], r);
      QuitarMembers(rs, id as real, r);
    }
  }

  /** The record appended after a create shows the row the server inserted, with the
      count of 0 the server answered. */
  lemma CreateMirrors(items: seq<RenglonItem>, rs: seq<Renglon>, id: int, p: Payload)
    requires Mirrors(items, rs) && Aceptable(BodyOf(p))
    ensures var item := Adapt(JsonOfCreado(RenglonCreado(id, p.codigo, p.nombre, Some(p.descripcion), 0)));
      Mirrors(items + [item], rs + [NuevoRenglon(id, BodyOf(p))]) && item.empleadosAsignados == 0
  {
    var item := Adapt(JsonOfCreado(RenglonCreado(id, p.codigo, p.nombre, Some(p.descripcion), 0)));
    var n := NuevoRenglon(id, BodyOf(p));
    var l := items + [item];
    forall i | 0 <= i < |l| ensures Shown(l[i], rs + [n]) {
      if i < |items| {
        assert l[i] == items[i] && Shown(items[i], rs);
        var r :| r in rs && Agrees(items[i], r);
        assert r in rs + [n];
      } else {
        assert Agrees(l[i], n);
        assert n in rs + [n];
      }
    }
  }

  /** The list after a successful save: the edited id takes the payload, or the record the
      create answered is appended. */
  function AfterSave(items: seq<RenglonItem>, editing: Option<RenglonItem>, p: Payload, created: RenglonJson): (r: seq<RenglonItem>)
    ensures editing.Some? ==> r == Editado(items, editing.value.id, p)
    ensures editing.None? ==> |r| == |items| + 1 && r[..|items|] == items && r[|items|] == Adapt(created)
  {
    if editing.Some? then Editado(items, editing.value.id, p) else items + [Adapt(created)]
  }

  /** The path `handleVerEmpleados` fetches for a renglón's employees. */
  function EmpleadosPath(id: int): string {
    ItemPath(id) + "/empleados"
  }

  /** The employees list a renglón's path asks for: the route reads the renglón's id back
      from the path, answers, and lists exactly that renglón's ACTIVO employees. */
  lemma EmpleadosPathReachesRoute(id: int, es: seq<Empleado>, ps: seq<Puesto>, ds: seq<Departamento>)
    requires id >= 0
    ensures EmpleadosPath(id) == ApiUrl + "/" + NatToString(id) + "/empleados"
    ensures EmpleadosDe(es, ps, ds, NatToString(id)).Ok?
    ensures forall w :: w in EmpleadosDe(es, ps, ds, NatToString(id)).value <==>
      exists i :: 0 <= i < |es| && AsignadoAs(es[i], ps, ds, id as real, w)
  {
    ItemPathId(id);
    forall w {
      EmpleadosDeMembers(es, ps, ds, NatToString(id), w);
    }
  }

  // ---------------------------------------------------------------------------------
  // The page's state
  // ---------------------------------------------------------------------------------

  class RenglonPageState {
    var renglones: seq<RenglonItem>
    var form: RenglonForm
    var editing: Option<RenglonItem>
    var modalOpen: bool
    var seleccionado: Option<RenglonItem>
    var empleadosModalOpen: bool
    var empleadosRenglon: seq<Asignado>

    constructor ()
      ensures renglones == [] && form == EmptyForm && editing.None? && !modalOpen
      ensures seleccionado.None? && !empleadosModalOpen && empleadosRenglon == []
    {
      renglones := [];
      form := EmptyForm;
      editing := None;
      modalOpen := false;
      seleccionado := None;
      empleadosModalOpen := false;
      empleadosRenglon := [];
    }

    /** `handleVerEmpleados`: the dialog opens on the renglón with an empty list, fetches
        its employees and shows the answer; a failed request leaves the list empty. */
    method VerEmpleados(r: RenglonItem, answer: Outcome<seq<Asignado>>) returns (path: string)
      modifies this`seleccionado, this`empleadosModalOpen, this`empleadosRenglon
      ensures path == EmpleadosPath(r.id)
      ensures seleccionado == Some(r) && empleadosModalOpen
      ensures empleadosRenglon == if answer.Ok? then answer.value else []
    {
      seleccionado, empleadosModalOpen, empleadosRenglon := Some(r), true, [];
      path := EmpleadosPath(r.id);
      if answer.Ok? {
        empleadosRenglon := answer.value;
      }
    }

    /** `handleCloseEmpleadosModal`. */
    method CerrarEmpleados()
      modifies this`seleccionado, this`empleadosModalOpen, this`empleadosRenglon
      ensures seleccionado.None? && !empleadosModalOpen && empleadosRenglon == []
    {
      seleccionado, empleadosModalOpen, empleadosRenglon := None, false, [];
    }

    /** `fetchRenglones` after a successful request. */
    method Load(data: seq<RenglonJson>)
      modifies this`renglones
      ensures renglones == Adapted(data)
    {
      renglones := Adapted(data);
    }

    /** `handleOpenNewModal`. */
    method OpenNew()
      modifies this`editing, this`form, this`modalOpen
      ensures editing.None? && form == EmptyForm && modalOpen
    {
      editing := None;
      form := EmptyForm;
      modalOpen := true;
    }

    /** `handleOpenEditModal`. */
    method OpenEdit(r: RenglonItem)
      modifies this`editing, this`form, this`modalOpen
      ensures editing == Some(r) && form == EditForm(r) && modalOpen
    {
      editing := Some(r);
      form := EditForm(r);
      modalOpen := true;
    }

    /** `handleChange`. */
    method Change(name: string, value: string)
      modifies this`form
      ensures form == Changed(old(form), name, value)
    {
      form := Changed(form, name, value);
    }

    /** `handleSubmit`: a refused form sends nothing; a failed request changes nothing;
        after a saved edit the edited id takes the payload, after a create the answered
        record is appended, and the dialog closes. */
    method Submit(response: Outcome<RenglonJson>) returns (r: Checked<Request>)
      modifies this`renglones, this`editing, this`modalOpen
      ensures r == SubmitRequest(old(editing), old(form))
      ensures r.Refused? || response.Fail? ==>
        renglones == old(renglones) && editing == old(editing) && modalOpen == old(modalOpen)
      ensures r.Accepted? && response.Ok? ==>
        !modalOpen && editing.None? &&
        renglones == AfterSave(old(renglones), old(editing), r.value.payload.value, response.value)
    {
      r := SubmitRequest(editing, form);
      if r.Refused? || response.Fail? {
        return;
      }
      Saved(r.value.payload.value, response.value);
    }

    /** The state change of a save the server accepted. */
    method Saved(p: Payload, answer: RenglonJson)
      modifies this`renglones, this`editing, this`modalOpen
      ensures !modalOpen && editing.None? && renglones == AfterSave(old(renglones), old(editing), p, answer)
    {
      renglones := AfterSave(renglones, editing, p, answer);
      modalOpen := false;
      editing := None;
    }

    /** `handleDesactivar`: nothing is sent unless confirmed, and the list loses the record
        only when the server accepts the delete. */
    method Desactivar(item: RenglonItem, confirmed: bool, accepted: bool) returns (sent: Option<Request>)
      modifies this`renglones
      ensures sent.Some? <==> confirmed
      ensures sent.Some? ==> sent.value == Request("DELETE", ItemPath(item.id), None)
      ensures renglones == if confirmed && accepted then Sin(old(renglones), item.id) else old(renglones)
    {
      if !confirmed {
        return None;
      }
      sent := Some(Request("DELETE", ItemPath(item.id), None));
      if accepted {
        renglones := Sin(renglones, item.id);
      }
    }
  }
}
