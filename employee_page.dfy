/** The employee screen of `Empleados.jsx`: the filtered list, the create/edit form and the
    multipart request it sends. */
module EmployeePage {
  import opened Prelude
  import opened Text
  import opened Numbers
  import opened Collections
  import opened Schema
  import opened EmployeeRoutes

  const Todos := "todos"
  const ModoLista := "list"
  const ModoCrear := "create"
  const ModoEditar := "edit"

  // ---------------------------------------------------------------------------------
  // empleadosFiltrados
  // ---------------------------------------------------------------------------------

  /** The search box: the lower-cased term in the lower-cased name or code, or in the DPI
      as it is (a NULL code or DPI is read as empty). */
  predicate MatchSearch(w: EmpleadoFila, search: string) {
    var term := ToLower(search);
    term == [] || Contains(ToLower(w.nombre), term) || Contains(ToLower(w.codigo.GetOr("")), term)
    || Contains(w.dpi.GetOr(""), term)
  }

  /** The renglón filter compares the code exactly. */
  predicate MatchRenglon(w: EmpleadoFila, filterRenglon: string) {
    filterRenglon == Todos || w.renglon == filterRenglon
  }

  /** The estado filter ignores case. */
  predicate MatchEstado(w: EmpleadoFila, filterEstado: string) {
    filterEstado == Todos || ToLower(w.estado.GetOr("")) == ToLower(filterEstado)
  }

  predicate Matches(w: EmpleadoFila, search: string, filterRenglon: string, filterEstado: string) {
    MatchSearch(w, search) && MatchRenglon(w, filterRenglon) && MatchEstado(w, filterEstado)
  }

  /** `empleadosFiltrados`: the employees that pass all three filters, in list order. */
  function Filtrados(ws: seq<EmpleadoFila>, search: string, filterRenglon: string, filterEstado: string): (r: seq<EmpleadoFila>)
    ensures Subseq(r, ws)
  {
    if ws == [] then []
    else
      var p := ws[..|ws| - 1];
      var w := ws[|ws| - 1];
      var q := Filtrados(p, search, filterRenglon, filterEstado);
      if Matches(w, search, filterRenglon, filterEstado) then
        assert (q + [w])[..|q|] == q;
        q + [w]
      else
        q
  }

  /** An employee is shown exactly when it is in the list and passes the three filters. */
  lemma {:induction false} FiltradosMembers(ws: seq<EmpleadoFila>, search: string, filterRenglon: string, filterEstado: string, w: EmpleadoFila)
    ensures w in Filtrados(ws, search, filterRenglon, filterEstado) <==> w in ws && Matches(w, search, filterRenglon, filterEstado)
  {
    if ws != [] {
      var p := ws[..|ws| - 1];
      FiltradosMembers(p, search, filterRenglon, filterEstado, w);
      assert ws == p + [ws[|ws| - 1]];
    }
  }

  /** The same, for every employee at once. */
  lemma FiltradosIff(ws: seq<EmpleadoFila>, search: string, filterRenglon: string, filterEstado: string)
    ensures forall w :: w in Filtrados(ws, search, filterRenglon, filterEstado) <==> w in ws && Matches(w, search, filterRenglon, filterEstado)
  {
    forall w {
      FiltradosMembers(ws, search, filterRenglon, filterEstado, w);
    }
  }

  /** The footer's count of shown employees never exceeds the total. */
  lemma FiltradosCount(ws: seq<EmpleadoFila>, search: string, filterRenglon: string, filterEstado: string)
    ensures |Filtrados(ws, search, filterRenglon, filterEstado)| <= |ws|
  {
    SubseqLength(Filtrados(ws, search, filterRenglon, filterEstado), ws);
  }

  /** With an empty search and both filters on "todos" every employee is shown. */
  lemma {:induction false} FiltradosAll(ws: seq<EmpleadoFila>)
    ensures Filtrados(ws, "", Todos, Todos) == ws
  {
    if ws != [] {
      FiltradosAll(ws[..|ws| - 1]);
      assert ToLower("") == [];
      assert ws == ws[..|ws| - 1] + [ws[|ws| - 1]];
    }
  }

  /** The estado filter reads "activo" as "ACTIVO": two filters that differ only in case
      show the same employees. */
  lemma EstadoIgnoresCase(w: EmpleadoFila, f: string, g: string)
    requires f != Todos && g != Todos && ToLower(f) == ToLower(g)
    ensures MatchEstado(w, f) <==> MatchEstado(w, g)
  {
  }

  // ---------------------------------------------------------------------------------
  // The form
  // ---------------------------------------------------------------------------------

  /** The form state: text inputs, the chosen files (by name) and the stored paths shown
      while editing. */
  datatype EmpleadoForm = EmpleadoForm(
    idEmpleado: Option<int>,
    codigo: string,
    nombres: string,
    apellidos: string,
    dpi: string,
    fechaNacimiento: string,
    telefono: string,
    direccion: string,
    idRenglon: string,
    idDepartamento: string,
    idPuesto: string,
    estado: string,
    fechaIngreso: string,
    salarioBase: string,
    fotoFile: Option<string>,
    dpiFile: Option<string>,
    fotoRuta: Option<string>,
    dpiRuta: Option<string>)

  /** `initialForm`. */
  const InitialForm := EmpleadoForm(None, "", "", "", "", "", "", "", "", "", "", EstadoActivo, "", "",
    None, None, None, None)

  /** `handleChangeForm`'s `[name]: value`: the text field of that input name takes the
      typed value; any other name adds a key the form never reads. The id, the chosen
      files and the stored paths are kept. */
  function FieldSet(f: EmpleadoForm, name: string, value: string): (r: EmpleadoForm)
    ensures r.codigo == if name == "codigo_empleado" then value else f.codigo
    ensures r.nombres == if name == "nombres" then value else f.nombres
    ensures r.apellidos == if name == "apellidos" then value else f.apellidos
    ensures r.dpi == if name == "dpi" then value else f.dpi
    ensures r.fechaNacimiento == if name == "fecha_nacimiento" then value else f.fechaNacimiento
    ensures r.telefono == if name == "telefono" then value else f.telefono
    ensures r.direccion == if name == "direccion" then value else f.direccion
    ensures r.idRenglon == if name == "id_renglon" then value else f.idRenglon
    ensures r.idDepartamento == if name == "id_departamento" then value else f.idDepartamento
    ensures r.idPuesto == if name == "id_puesto" then value else f.idPuesto
    ensures r.estado == if name == "estado" then value else f.estado
    ensures r.fechaIngreso == if name == "fecha_ingreso" then value else f.fechaIngreso
    ensures r.salarioBase == if name == "salario_base" then value else f.salarioBase
    ensures r.idEmpleado == f.idEmpleado && r.fotoFile == f.fotoFile && r.dpiFile == f.dpiFile
    ensures r.fotoRuta == f.fotoRuta && r.dpiRuta == f.dpiRuta
  {
    if name == "codigo_empleado" then f.(codigo := value)
    else if name == "nombres" then f.(nombres := value)
    else if name == "apellidos" then f.(apellidos := value)
    else if name == "dpi" then f.(dpi := value)
    else if name == "fecha_nacimiento" then f.(fechaNacimiento := value)
    else if name == "telefono" then f.(telefono := value)
    else if name == "direccion" then f.(direccion := value)
    else if name == "id_renglon" then f.(idRenglon := value)
    else if name == "id_departamento" then f.(idDepartamento := value)
    else if name == "id_puesto" then f.(idPuesto := value)
    else if name == "estado" then f.(estado := value)
    else if name == "fecha_ingreso" then f.(fechaIngreso := value)
    else if name == "salario_base" then f.(salarioBase := value)
    else f
  }

  /** `` [`${name}File`]: file ``: the inputs named `foto` and `dpi` keep their file;
      another name adds a key the form never reads. */
  function FileSet(f: EmpleadoForm, name: string, file: Option<string>): (r: EmpleadoForm)
    ensures name == "foto" ==> r.fotoFile == file && r.dpiFile == f.dpiFile
    ensures name == "dpi" ==> r.dpiFile == file && r.fotoFile == f.fotoFile
    ensures name != "foto" && name != "dpi" ==> r == f
    ensures r.(fotoFile := f.fotoFile, dpiFile := f.dpiFile) == f
  {
    if name == "foto" then f.(fotoFile := file)
    else if name == "dpi" then f.(dpiFile := file)
    else f
  }

  /** `String(n)` for an amount of a money column (two decimals at most). */
  function NumberText(x: real): string {
    var k := Trunc(x * 100.0);
    var m: nat := if k < 0 then -k else k;
    var c := m % 100;
    var frac := if c == 0 then "" else "." + [DigitChar(c / 10)] + (if c % 10 == 0 then "" else [DigitChar(c % 10)]);
    (if k < 0 then "-" else "") + NatToString(m / 100) + frac
  }

  /** A whole amount is written without a fraction. */
  lemma NumberTextWhole(x: real)
    requires x >= 0.0 && x == x.Floor as real
    ensures NumberText(x) == NatToString(x.Floor)
  {
    var n := x.Floor;
    assert x * 100.0 == (100 * n) as real;
    assert Trunc(x * 100.0) == 100 * n;
    var m: nat := 100 * n;
    assert m % 100 == 0 && m / 100 == n;
  }

  /** `String(data.id_x || "")`: a key as text, with NULL and 0 as the empty string. */
  function KeyText(k: Option<int>): (r: string)
    ensures k.Some? && k.value != 0 ==> r == IntToString(k.value)
    ensures k.None? || k.value == 0 ==> r == ""
  {
    if k.Some? && k.value != 0 then IntToString(k.value) else ""
  }

  /** The JSON text of a `date` column, as a `Date` at midnight UTC: its day and a zero
      time. */
  function JsonDate(d: Option<string>): (r: Option<string>)
    ensures r.Some? <==> d.Some?
  {
    match d
    case Some(t) => Some(Take(t, 10) + "T00:00:00.000Z")
    case None => None
  }

  /** The JSON text keeps the day, and writing it back and reading it again changes
      nothing more. */
  lemma JsonDateKeepsDay(t: string)
    requires |t| >= 10
    ensures var j := JsonDate(Some(t)).value; |j| >= 10 && Take(j, 10) == Take(t, 10)
    ensures JsonDate(JsonDate(Some(t))) == JsonDate(Some(t))
  {
    var j := JsonDate(Some(t)).value;
    assert j[..10] == t[..10];
  }

  /** `handleEditarEmpleado`: the form filled from `GET /:id`. */
  function FormOf(d: EmpleadoDetalle): (f: EmpleadoForm)
    ensures f.idEmpleado == Some(d.empleado.id) && f.fotoFile.None? && f.dpiFile.None?
    ensures f.estado != ""
  {
    var e := d.empleado;
    EmpleadoForm(
      Some(e.id),
      e.codigo.GetOr(""),
      e.nombres.GetOr(""),
      e.apellidos.GetOr(""),
      e.dpi.GetOr(""),
      JsonDate(e.fechaNacimiento).GetOr(""),
      e.telefono.GetOr(""),
      e.direccion.GetOr(""),
      KeyText(e.idRenglon),
      KeyText(e.idDepartamento),
      KeyText(e.idPuesto),
      EstadoColumn(e.estado),
      JsonDate(e.fechaIngreso).GetOr(""),
      NumberText(e.salarioBase),
      None,
      None,
      NullIfEmpty(e.fotoRuta),
      NullIfEmpty(e.dpiRuta))
  }

  // ---------------------------------------------------------------------------------
  // handleSubmitNuevoEmpleado
  // ---------------------------------------------------------------------------------

  /** The names of the thirteen text fields, in the order the page appends them. */
  const TextNames: seq<string> := ["codigo_empleado", "nombres", "apellidos", "dpi", "fecha_nacimiento",
    "telefono", "direccion", "id_renglon", "id_departamento", "id_puesto", "estado", "fecha_ingreso",
    "salario_base"]

  lemma TextNamesDistinct()
    ensures |TextNames| == 13
    ensures forall i, j :: 0 <= j < i < 13 ==> TextNames[j] != TextNames[i]
  {
  }

  /** The values of the text fields (salary `"0"` when empty). */
  function TextValues(f: EmpleadoForm): (vs: seq<string>)
    ensures |vs| == 13
  {
    [f.codigo, f.nombres, f.apellidos, f.dpi, f.fechaNacimiento, f.telefono, f.direccion, f.idRenglon,
     f.idDepartamento, f.idPuesto, f.estado, f.fechaIngreso, if f.salarioBase == "" then "0" else f.salarioBase]
  }

  /** `formData.append(name, value)` for each text field. */
  function TextParts(f: EmpleadoForm): (ps: seq<Part>)
    ensures |ps| == 13 && forall i :: 0 <= i < |ps| ==> ps[i] == Field(TextNames[i], TextValues(f)[i])
  {
    seq(13, i requires 0 <= i < 13 => Field(TextNames[i], TextValues(f)[i]))
  }

  /** The files that were chosen, photo first. */
  function FileParts(f: EmpleadoForm): (ps: seq<Part>)
    ensures forall i :: 0 <= i < |ps| ==> ps[i].FilePart?
  {
    (match f.fotoFile case Some(n) => [FilePart("foto", n)] case None => [])
    + (match f.dpiFile case Some(n) => [FilePart("dpi", n)] case None => [])
  }

  /** The multipart body: the text fields, then the chosen files. */
  function PartsOf(f: EmpleadoForm): (ps: seq<Part>)
    ensures |ps| == 13 + (if f.fotoFile.Some? then 1 else 0) + (if f.dpiFile.Some? then 1 else 0)
  {
    TextParts(f) + FileParts(f)
  }

  /** A request the page sends. */
  datatype Request = Request(verb: string, path: string, parts: seq<Part>)

  /** `` `${id}` `` of an optional id: a missing one reads `null`. */
  function IdText(id: Option<int>): string {
    match id
    case Some(k) => IntToString(k)
    case None => "null"
  }

  /** PUT to the employee in edit mode, POST otherwise. */
  function SubmitRequest(modo: string, f: EmpleadoForm): (r: Request)
    ensures modo == ModoEditar ==> r.verb == "PUT" && r.path == "/empleados/" + IdText(f.idEmpleado)
    ensures modo != ModoEditar ==> r.verb == "POST" && r.path == "/empleados"
    ensures r.parts == PartsOf(f)
  {
    if modo == ModoEditar then Request("PUT", "/empleados/" + IdText(f.idEmpleado), PartsOf(f))
    else Request("POST", "/empleados", PartsOf(f))
  }

  /** The edit request reaches the route with the employee's id; without an id the route
      answers 400. */
  lemma EditTargetsEmployee(f: EmpleadoForm)
    ensures f.idEmpleado.Some? ==> ParseIntStr(IdText(f.idEmpleado)) == f.idEmpleado
    ensures f.idEmpleado.None? ==> ParseIntStr(IdText(f.idEmpleado)).None?
  {
    if f.idEmpleado.Some? {
      ParseIntOfIntToString(f.idEmpleado.value);
    } else {
      var s := "null";
      assert s[0] == 'n';
      assert TrimStart(s) == s;
      assert SplitSign(s) == (false, s);
      assert DigitPrefix(s) == [];
    }
  }

  /** What multer puts in `req.body`: the value of the first text field of that name. */
  function FieldOf(ps: seq<Part>, name: string): (r: Option<string>)
    ensures r.Some? ==> exists i :: 0 <= i < |ps| && ps[i] == Field(name, r.value)
    ensures r.None? ==> forall i :: 0 <= i < |ps| && ps[i].Field? ==> ps[i].name != name
  {
    if ps == [] then None
    else if ps[0].Field? && ps[0].name == name then Some(ps[0].value)
    else
      var r := FieldOf(ps[1..], name);
      assert forall i :: 1 <= i < |ps| ==> ps[i] == ps[1..][i - 1];
      r
  }

  /** What multer puts in `req.files[name][0]`: the first file part of that name. */
  function FileOf(ps: seq<Part>, name: string): (r: Option<Upload>)
    ensures r.Some? ==> exists i :: 0 <= i < |ps| && ps[i] == FilePart(name, r.value.originalName)
  {
    if ps == [] then None
    else if ps[0].FilePart? && ps[0].name == name then Some(Upload(ps[0].fileName))
    else
      var r := FileOf(ps[1..], name);
      assert forall i :: 1 <= i < |ps| ==> ps[i] == ps[1..][i - 1];
      r
  }

  /** The text fields the routes read from a multipart body. */
  function BodyOf(ps: seq<Part>): EmpleadoBody {
    EmpleadoBody(FieldOf(ps, TextNames[0]), FieldOf(ps, TextNames[1]), FieldOf(ps, TextNames[2]),
      FieldOf(ps, TextNames[3]), FieldOf(ps, TextNames[4]), FieldOf(ps, TextNames[5]), FieldOf(ps, TextNames[6]),
      FieldOf(ps, TextNames[7]), FieldOf(ps, TextNames[8]), FieldOf(ps, TextNames[9]),
      FieldOf(ps, TextNames[10]), FieldOf(ps, TextNames[11]), FieldOf(ps, TextNames[12]))
  }

  function UploadOf(n: Option<string>): Option<Upload> {
    match n
    case Some(x) => Some(Upload(x))
    case None => None
  }

  lemma {:induction false} FieldOfAppend(a: seq<Part>, b: seq<Part>, name: string)
    ensures FieldOf(a + b, name) == if FieldOf(a, name).Some? then FieldOf(a, name) else FieldOf(b, name)
  {
    if a != [] {
      assert (a + b)[0] == a[0];
      assert (a + b)[1..] == a[1..] + b;
      FieldOfAppend(a[1..], b, name);
    } else {
      assert a + b == b;
    }
  }

  lemma {:induction false} FileOfAppend(a: seq<Part>, b: seq<Part>, name: string)
    requires forall i :: 0 <= i < |a| ==> a[i].Field?
    ensures FileOf(a + b, name) == FileOf(b, name)
  {
    if a != [] {
      assert (a + b)[0] == a[0];
      assert (a + b)[1..] == a[1..] + b;
      FileOfAppend(a[1..], b, name);
    } else {
      assert a + b == b;
    }
  }

  /** The first text field of a name is found wherever it stands. */
  lemma {:induction false} FieldOfAt(ps: seq<Part>, i: nat, name: string, v: string)
    requires i < |ps| && ps[i] == Field(name, v)
    requires forall j :: 0 <= j < i ==> ps[j].name != name
    ensures FieldOf(ps, name) == Some(v)
  {
    if i > 0 {
      FieldOfAt(ps[1..], i - 1, name, v);
    }
  }

  /** A value typed into a text input is the one the route reads back under that name.
      The salary, the thirteenth field, is left out: an empty one is sent as "0". */
  lemma TypedValueReachesRoute(f: EmpleadoForm, i: nat, v: string)
    requires i < 12
    ensures FieldOf(PartsOf(FieldSet(f, TextNames[i], v)), TextNames[i]) == Some(v)
  {
    var g := FieldSet(f, TextNames[i], v);
    var t := TextParts(g);
    TextNamesDistinct();
    FieldOfAt(t, i, TextNames[i], v);
    FieldOfAppend(t, FileParts(g), TextNames[i]);
  }

  /** The route reads back every text field the page appended, the salary as `"0"` when
      it was empty. */
  lemma SubmitBody(f: EmpleadoForm)
    ensures BodyOf(PartsOf(f)) == EmpleadoBody(Some(f.codigo), Some(f.nombres), Some(f.apellidos), Some(f.dpi),
      Some(f.fechaNacimiento), Some(f.telefono), Some(f.direccion), Some(f.idRenglon), Some(f.idDepartamento),
      Some(f.idPuesto), Some(f.estado), Some(f.fechaIngreso), Some(if f.salarioBase == "" then "0" else f.salarioBase))
  {
    var t := TextParts(f);
    TextNamesDistinct();
    forall i | 0 <= i < 13
      ensures FieldOf(PartsOf(f), TextNames[i]) == Some(TextValues(f)[i])
    {
      FieldOfAt(t, i, TextNames[i], TextValues(f)[i]);
      FieldOfAppend(t, FileParts(f), TextNames[i]);
    }
  }

  /** The route receives exactly the files that were chosen: the text field `dpi` does not
      hide the file field `dpi`. */
  lemma SubmitFiles(f: EmpleadoForm)
    ensures FileOf(PartsOf(f), "foto") == UploadOf(f.fotoFile) && FileOf(PartsOf(f), "dpi") == UploadOf(f.dpiFile)
  {
    FileOfAppend(TextParts(f), FileParts(f), "foto");
    FileOfAppend(TextParts(f), FileParts(f), "dpi");
  }

  predicate KeyRoundTrips(k: Option<int>) {
    k.None? || k.value != 0
  }

  /** Opening an employee for editing and saving it unchanged rewrites the same row: no
      file is sent so both paths stay, and every column keeps its value, the dates keeping
      their day in the JSON text they came back as. Proved for whole salaries and keys
      other than 0. */
  lemma EditWithoutChangesKeepsRow(e: Empleado)
    requires Normalized(e)
    requires KeyRoundTrips(e.idRenglon) && KeyRoundTrips(e.idDepartamento) && KeyRoundTrips(e.idPuesto)
    requires e.salarioBase >= 0.0 && e.salarioBase == e.salarioBase.Floor as real
    ensures var ps := PartsOf(FormOf(DetalleOf(e)));
      FileOf(ps, "foto").None? && FileOf(ps, "dpi").None? && ColumnsValid(BodyOf(ps)) &&
      RowOf(BodyOf(ps), e.id, e.fotoRuta, e.dpiRuta)
        == Some(e.(fechaNacimiento := JsonDate(e.fechaNacimiento), fechaIngreso := JsonDate(e.fechaIngreso)))
  {
    var f := FormOf(DetalleOf(e));
    SubmitFiles(f);
    var b := SentBodyOfRow(e);
    RowOfColumns(b, e.id, e.fotoRuta, e.dpiRuta);
    var row := RowOf(b, e.id, e.fotoRuta, e.dpiRuta).value;
    TextBack(e.codigo);
    TextBack(e.nombres);
    TextBack(e.apellidos);
    TextBack(e.dpi);
    TextBack(e.telefono);
    TextBack(e.direccion);
    DateBack(e.fechaNacimiento);
    DateBack(e.fechaIngreso);
    assert row.estado == e.estado;
    assert row == e.(fechaNacimiento := JsonDate(e.fechaNacimiento), fechaIngreso := JsonDate(e.fechaIngreso));
  }

  /** The body the route reads when an employee's edit form is saved unchanged. */
  lemma SentBodyOfRow(e: Empleado) returns (b: EmpleadoBody)
    requires KeyRoundTrips(e.idRenglon) && KeyRoundTrips(e.idDepartamento) && KeyRoundTrips(e.idPuesto)
    requires e.salarioBase >= 0.0 && e.salarioBase == e.salarioBase.Floor as real
    ensures b == BodyOf(PartsOf(FormOf(DetalleOf(e))))
    ensures b.codigo == Some(e.codigo.GetOr("")) && b.nombres == Some(e.nombres.GetOr(""))
    ensures b.apellidos == Some(e.apellidos.GetOr("")) && b.dpi == Some(e.dpi.GetOr(""))
    ensures b.telefono == Some(e.telefono.GetOr("")) && b.direccion == Some(e.direccion.GetOr(""))
    ensures b.fechaNacimiento == Some(JsonDate(e.fechaNacimiento).GetOr(""))
    ensures b.fechaIngreso == Some(JsonDate(e.fechaIngreso).GetOr(""))
    ensures b.estado == Some(EstadoColumn(e.estado))
    ensures IdColumn(b.idRenglon) == Some(e.idRenglon) && IdColumn(b.idDepartamento) == Some(e.idDepartamento)
    ensures IdColumn(b.idPuesto) == Some(e.idPuesto)
    ensures SalarioColumn(b.salarioBase) == Some(e.salarioBase)
  {
    var f := FormOf(DetalleOf(e));
    SubmitBody(f);
    b := BodyOf(PartsOf(f));
    KeyBack(e.idRenglon);
    KeyBack(e.idDepartamento);
    KeyBack(e.idPuesto);
    var n := e.salarioBase.Floor;
    NumberTextWhole(e.salarioBase);
    assert f.salarioBase == NatToString(n);
    SalarioColumnOfNatToString(n);
  }

  lemma TextBack(x: Option<string>)
    requires NotBlank(x)
    ensures NullIfEmpty(Some(x.GetOr(""))) == x
  {
  }

  lemma DateBack(d: Option<string>)
    ensures NullIfEmpty(Some(JsonDate(d).GetOr(""))) == JsonDate(d)
  {
    if d.Some? {
      assert JsonDate(d).value[|JsonDate(d).value| - 1] == 'Z';
    }
  }

  lemma KeyBack(k: Option<int>)
    requires KeyRoundTrips(k)
    ensures IdColumn(Some(KeyText(k))) == Some(k)
  {
    if k.Some? {
      IdColumnOfIntToString(k.value);
    }
  }

  // ---------------------------------------------------------------------------------
  // The screen
  // ---------------------------------------------------------------------------------

  class EmployeePageState {
    var modo: string
    var empleados: seq<EmpleadoFila>
    var form: EmpleadoForm
    var search: string
    var filterRenglon: string
    var filterEstado: string

    constructor ()
      ensures modo == ModoLista && empleados == [] && form == InitialForm
      ensures search == "" && filterRenglon == Todos && filterEstado == Todos
    {
      modo := ModoLista;
      empleados := [];
      form := InitialForm;
      search := "";
      filterRenglon := Todos;
      filterEstado := Todos;
    }

    /** The rows the table shows: exactly the employees that pass the three filters. */
    function Visibles(): (r: seq<EmpleadoFila>)
      reads this
      ensures |r| <= |empleados|
      ensures forall w :: w in r <==> w in empleados && Matches(w, search, filterRenglon, filterEstado)
    {
      FiltradosCount(empleados, search, filterRenglon, filterEstado);
      FiltradosIff(empleados, search, filterRenglon, filterEstado);
      Filtrados(empleados, search, filterRenglon, filterEstado)
    }

    /** The initial load of `GET /`. */
    method Load(data: seq<EmpleadoFila>)
      modifies this`empleados
      ensures empleados == data
    {
      empleados := data;
    }

    /** `resetForm`. */
    method ResetForm()
      modifies this`form
      ensures form == InitialForm
    {
      form := InitialForm;
    }

    /** `handleMostrarFormularioNuevo`. */
    method MostrarNuevo()
      modifies this`form, this`modo
      ensures form == InitialForm && modo == ModoCrear
    {
      ResetForm();
      modo := ModoCrear;
    }

    /** `handleEditarEmpleado`: the form is filled from the answer of `GET /:id`; a failed
        request leaves the screen as it was. */
    method Editar(response: Outcome<EmpleadoDetalle>)
      modifies this`form, this`modo
      ensures response.Ok? ==> form == FormOf(response.value) && modo == ModoEditar
      ensures response.Fail? ==> form == old(form) && modo == old(modo)
    {
      if response.Ok? {
        form := FormOf(response.value);
        modo := ModoEditar;
      }
    }

    /** `handleVolverListado`: back to the list, with the form reset. */
    method VolverListado()
      modifies this`form, this`modo
      ensures form == InitialForm && modo == ModoLista
    {
      modo := ModoLista;
      ResetForm();
    }

    /** `handleChangeForm`. */
    method ChangeForm(name: string, value: string)
      modifies this`form
      ensures form == FieldSet(old(form), name, value)
    {
      form := FieldSet(form, name, value);
    }

    /** `handleChangeFile`. */
    method ChangeFile(name: string, file: Option<string>)
      modifies this`form
      ensures form == FileSet(old(form), name, file)
    {
      form := FileSet(form, name, file);
    }

    /** `handleSubmitNuevoEmpleado`: the request always goes out; on success the list is
        reloaded and the form reset, on failure nothing changes. */
    method Submit(accepted: bool, reloaded: seq<EmpleadoFila>) returns (sent: Request)
      modifies this`empleados, this`modo, this`form
      ensures sent == SubmitRequest(old(modo), old(form))
      ensures accepted ==> empleados == reloaded && modo == ModoLista && form == InitialForm
      ensures !accepted ==> empleados == old(empleados) && modo == old(modo) && form == old(form)
    {
      sent := SubmitRequest(modo, form);
      if accepted {
        empleados := reloaded;
        modo := ModoLista;
        ResetForm();
      }
    }
  }
}
