/** The bonus and discount rule routes (`bonificaciones.routes.js`, and line for line the
    same `descuentos.routes.js`): validating a rule, encoding its `destino` into three
    scope flags and decoding them back, and the writes to the rule table and its two
    assignment tables. */
module RuleRoutes {
  import opened Prelude
  import opened Text
  import opened Numbers
  import opened Collections
  import opened Schema

  /** Which of the two route files: they differ only in table names and messages. */
  datatype RuleKind = Bonificacion | Descuento

  function InvalidId(k: RuleKind): string {
    match k
    case Bonificacion => "id_bonificacion inv\U{00E1}lido"
    case Descuento => "id_descuento inv\U{00E1}lido"
  }

  const Obligatorios := "Nombre, tipo, valor y destino son obligatorios"
  const ValorInvalido := "El valor debe ser un n\U{00FA}mero mayor a 0"

  // ---------------------------------------------------------------------------------
  // destino and the scope flags
  // ---------------------------------------------------------------------------------

  datatype Flags = Flags(todos: bool, renglon: bool, individual: bool)

  /** The `if / else if` chain that sets the flags from `destino`. */
  function Encode(destino: string): (f: Flags)
    ensures f.todos <==> destino == "todos"
    ensures f.renglon <==> destino == "renglon"
    ensures f.individual <==> destino == "individual"
  {
    if destino == "todos" then Flags(true, false, false)
    else if destino == "renglon" then Flags(false, true, false)
    else if destino == "individual" then Flags(false, false, true)
    else Flags(false, false, false)
  }

  /** The `CASE` of the listing: the first flag set, in the order todos, renglon,
      individual, names the `destino`; no flag set gives "otros". */
  function Decode(f: Flags): (d: string)
    ensures d == "todos" <==> f.todos
    ensures d == "renglon" <==> !f.todos && f.renglon
    ensures d == "individual" <==> !f.todos && !f.renglon && f.individual
    ensures d == "otros" <==> !f.todos && !f.renglon && !f.individual
  {
    if f.todos then "todos"
    else if f.renglon then "renglon"
    else if f.individual then "individual"
    else "otros"
  }

  predicate ValidDestino(d: string) {
    d == "todos" || d == "renglon" || d == "individual"
  }

  /** Storing a rule and listing it gives back the `destino` it was stored with, for the
      three destinos the flags can express; any other one reads back as "otros". */
  lemma DecodeEncode(d: string)
    ensures ValidDestino(d) ==> Decode(Encode(d)) == d
    ensures !ValidDestino(d) ==> Decode(Encode(d)) == "otros"
  {
  }

  predicate AtMostOne(f: Flags) {
    (f.todos ==> !f.renglon && !f.individual) && (f.renglon ==> !f.individual)
  }

  /** Re-saving a rule with the `destino` it is listed with keeps its flags exactly when at
      most one of them is set; otherwise only the flag of highest precedence survives. */
  lemma EncodeDecode(f: Flags)
    ensures Encode(Decode(f)) == f <==> AtMostOne(f)
  {
  }

  /** What the flags of a stored rule say. */
  function FlagsOf(r: Regla): Flags {
    Flags(r.aplicaATodos, r.aplicaPorRenglon, r.aplicaIndividual)
  }

  /** `typeof activo === "boolean" ? (activo ? 1 : 0) : (activo ? 1 : 0)`: both branches
      come to JavaScript truthiness. */
  function ActivoBit(v: JsVal): (b: bool)
    ensures b <==> Truthy(v)
  {
    if v.JsBool? then v.b else Truthy(v)
  }

  // ---------------------------------------------------------------------------------
  // Validation of the request body
  // ---------------------------------------------------------------------------------

  /** The body of `POST /` and `PUT /:id` (text fields absent or `null` are `None`). */
  datatype RuleBody = RuleBody(
    nombre: Option<string>,
    tipo: Option<string>,
    valor: JsVal,
    descripcion: Option<string>,
    destino: Option<string>,
    activo: JsVal)

  /** The columns a valid body writes. */
  datatype RuleFields = RuleFields(nombre: string, tipo: string, valor: real, descripcion: Option<string>, flags: Flags)

  /** The checks both routes make, in order: the four required fields, then a `valor`
      that `parseFloat` reads as a number above 0. */
  function Validate(b: RuleBody): (r: Outcome<RuleFields>)
    ensures r == Fail(BadRequest, Obligatorios) <==>
      !Present(b.nombre) || !Present(b.tipo) || !Truthy(b.valor) || !Present(b.destino)
    ensures r == Fail(BadRequest, ValorInvalido) <==>
      Present(b.nombre) && Present(b.tipo) && Truthy(b.valor) && Present(b.destino) &&
      (ParseFloat(b.valor).None? || ParseFloat(b.valor).value <= 0.0)
    ensures r.Ok? ==>
      Present(b.nombre) && Present(b.tipo) && Present(b.destino) &&
      r.value.nombre == b.nombre.value && r.value.tipo == b.tipo.value &&
      ParseFloat(b.valor) == Some(r.value.valor) && r.value.valor > 0.0 &&
      r.value.descripcion == NullIfEmpty(b.descripcion) &&
      r.value.flags == Encode(b.destino.value)
  {
    if !Present(b.nombre) || !Present(b.tipo) || !Truthy(b.valor) || !Present(b.destino) then
      Fail(BadRequest, Obligatorios)
    else
      match ParseFloat(b.valor)
      case None => Fail(BadRequest, ValorInvalido)
      case Some(v) =>
        if v <= 0.0 then Fail(BadRequest, ValorInvalido)
        else Ok(RuleFields(b.nombre.value, b.tipo.value, v, NullIfEmpty(b.descripcion), Encode(b.destino.value)))
  }

  /** A positive amount given as a number always passes the `valor` check. */
  lemma ValidNumber(b: RuleBody, v: real)
    requires Present(b.nombre) && Present(b.tipo) && Present(b.destino) && b.valor == JsNum(v) && v > 0.0
    ensures Validate(b).Ok? && Validate(b).value.valor == v
  {
  }

  /** The rule `INSERT ... activo = 1` creates. */
  function NewRegla(id: int, f: RuleFields): Regla {
    Regla(id, f.nombre, f.tipo, f.valor, f.descripcion, f.flags.todos, f.flags.renglon, f.flags.individual, true)
  }

  /** A row of the listing: the rule and its decoded `destino`. */
  datatype ReglaView = ReglaView(regla: Regla, destino: string)

  function ViewOf(r: Regla): (v: ReglaView)
    ensures v.regla == r && v.destino == Decode(FlagsOf(r))
  {
    ReglaView(r, Decode(FlagsOf(r)))
  }

  /** Each rule as the listing shows it. */
  function Views(rs: seq<Regla>): (vs: seq<ReglaView>)
    ensures |vs| == |rs|
    ensures forall i :: 0 <= i < |rs| ==> vs[i] == ViewOf(rs[i])
  {
    seq(|rs|, i requires 0 <= i < |rs| => ViewOf(rs[i]))
  }

  function ViewKey(v: ReglaView): string {
    v.regla.nombre
  }

  /** A created rule is active and is listed with the `destino` it was created with,
      or "otros" when that was none of the three. */
  lemma CreatedView(id: int, b: RuleBody)
    requires Validate(b).Ok?
    ensures NewRegla(id, Validate(b).value).activo
    ensures ValidDestino(b.destino.value) ==> ViewOf(NewRegla(id, Validate(b).value)).destino == b.destino.value
    ensures !ValidDestino(b.destino.value) ==> ViewOf(NewRegla(id, Validate(b).value)).destino == "otros"
  {
    DecodeEncode(b.destino.value);
  }

  // ---------------------------------------------------------------------------------
  // Table operations
  // ---------------------------------------------------------------------------------

  /** `UPDATE ... SET <columns> WHERE id = @id`: the columns of the rules with that id are
      rewritten, and every other rule is left as it was. */
  function UpdateWhere(rs: seq<Regla>, id: int, f: RuleFields, activo: bool): (r: seq<Regla>)
    ensures |r| == |rs|
    ensures forall i :: 0 <= i < |rs| && rs[i].id != id ==> r[i] == rs[i]
    ensures forall i :: 0 <= i < |rs| && rs[i].id == id ==>
      r[i] == Regla(id, f.nombre, f.tipo, f.valor, f.descripcion, f.flags.todos, f.flags.renglon, f.flags.individual, activo)
  {
    seq(|rs|, i requires 0 <= i < |rs| =>
      if rs[i].id == id then Regla(id, f.nombre, f.tipo, f.valor, f.descripcion, f.flags.todos, f.flags.renglon, f.flags.individual, activo)
      else rs[i])
  }

  /** `UPDATE ... SET activo = @activo WHERE id = @id`. */
  function SetActivoWhere(rs: seq<Regla>, id: int, activo: bool): (r: seq<Regla>)
    ensures |r| == |rs|
    ensures forall i :: 0 <= i < |rs| && rs[i].id != id ==> r[i] == rs[i]
    ensures forall i :: 0 <= i < |rs| && rs[i].id == id ==> r[i] == rs[i].(activo := activo)
  {
    seq(|rs|, i requires 0 <= i < |rs| => if rs[i].id == id then rs[i].(activo := activo) else rs[i])
  }

  /** `DELETE FROM <rules> WHERE id = @id`. */
  function DeleteRegla(rs: seq<Regla>, id: int): seq<Regla> {
    if rs == [] then []
    else DeleteRegla(rs[..|rs| - 1], id) + (if rs[|rs| - 1].id == id then [] else [rs[|rs| - 1]])
  }

  /** `DELETE FROM <assignments> WHERE id = @id`. */
  function DeleteAsignaciones(asg: seq<Asignacion>, id: int): seq<Asignacion> {
    if asg == [] then []
    else DeleteAsignaciones(asg[..|asg| - 1], id) + (if asg[|asg| - 1].regla == id then [] else [asg[|asg| - 1]])
  }

  /** Deleting keeps exactly the other rules, in their order. */
  lemma {:induction false} DeleteReglaMembers(rs: seq<Regla>, id: int, x: Regla)
    ensures x in DeleteRegla(rs, id) <==> x in rs && x.id != id
  {
    if rs != [] {
      var p := rs[..|rs| - 1];
      DeleteReglaMembers(p, id, x);
      assert rs == p + [rs[|rs| - 1]];
    }
  }

  lemma {:induction false} DeleteAsignacionesMembers(asg: seq<Asignacion>, id: int, a: Asignacion)
    ensures a in DeleteAsignaciones(asg, id) <==> a in asg && a.regla != id
  {
    if asg != [] {
      var p := asg[..|asg| - 1];
      DeleteAsignacionesMembers(p, id, a);
      assert asg == p + [asg[|asg| - 1]];
    }
  }

  /** Deleting keeps the ids distinct. */
  lemma {:induction false} DeleteReglaUnique(rs: seq<Regla>, id: int)
    requires UniqueReglaIds(rs)
    ensures UniqueReglaIds(DeleteRegla(rs, id))
    ensures forall i :: 0 <= i < |DeleteRegla(rs, id)| ==> DeleteRegla(rs, id)[i] in rs
  {
    if rs != [] {
      var p := rs[..|rs| - 1];
      var last := rs[|rs| - 1];
      assert UniqueReglaIds(p) by {
        forall i, j | 0 <= i < j < |p| ensures p[i].id != p[j].id {
          assert p[i] == rs[i] && p[j] == rs[j];
        }
      }
      DeleteReglaUnique(p, id);
      var d := DeleteRegla(p, id);
      forall i | 0 <= i < |d| ensures d[i].id != last.id {
        var k :| 0 <= k < |p| && p[k] == d[i];
        assert rs[k] == p[k];
      }
    }
  }

  /** `ids.map(n => parseInt(n, 10)).filter(Number.isInteger)`; a body without an array
      gives no ids. */
  function ParseIds(ids: Option<seq<JsVal>>): seq<int> {
    match ids
    case None => []
    case Some(vs) => ParsedInts(vs)
  }

  function ParsedInts(vs: seq<JsVal>): (r: seq<int>)
    ensures |r| <= |vs|
  {
    if vs == [] then []
    else ParsedInts(vs[..|vs| - 1]) + (match ParseInt(vs[|vs| - 1]) case Some(k) => [k] case None => [])
  }

  /** Every id sent as a JSON number that `String` writes without an exponent (every id
      below 10^21 in magnitude) is kept, in order. */
  lemma {:induction false} ParsedIntsOfNumbers(ks: seq<int>)
    requires forall i :: 0 <= i < |ks| ==> FixedNotation(ks[i] as real)
    ensures ParsedInts(seq(|ks|, i requires 0 <= i < |ks| => JsNum(ks[i] as real))) == ks
  {
    if ks != [] {
      var p := ks[..|ks| - 1];
      var vs := seq(|ks|, i requires 0 <= i < |ks| => JsNum(ks[i] as real));
      assert vs[..|vs| - 1] == seq(|p|, i requires 0 <= i < |p| => JsNum(p[i] as real));
      ParsedIntsOfNumbers(p);
      assert Trunc(ks[|ks| - 1] as real) == ks[|ks| - 1];
    }
  }

  /** As written, an id of 10^21 or more in magnitude sent as a JSON number is not the id
      kept: `parseInt` reads the first digit of its exponent notation. */
  lemma HugeIdNotKept(k: int)
    requires !FixedNotation(k as real)
    ensures |ParsedInts([JsNum(k as real)])| == 1 && ParsedInts([JsNum(k as real)])[0] != k
  {
    assert [JsNum(k as real)][..0] == [];
  }

  /** Each kept id is the `parseInt` of one of the values sent, and nothing that is not
      an integer is kept. */
  lemma {:induction false} ParsedIntsFrom(vs: seq<JsVal>, k: int)
    ensures k in ParsedInts(vs) <==> exists j :: 0 <= j < |vs| && ParseInt(vs[j]) == Some(k)
  {
    var os := seq(|vs|, i requires 0 <= i < |vs| => ParseInt(vs[i]));
    ParsedIntsAsSomes(vs);
    SomesFrom(os, k);
    if exists j :: 0 <= j < |os| && os[j] == Some(k) {
      var j :| 0 <= j < |os| && os[j] == Some(k);
      assert ParseInt(vs[j]) == Some(k);
    }
    if exists j :: 0 <= j < |vs| && ParseInt(vs[j]) == Some(k) {
      var j :| 0 <= j < |vs| && ParseInt(vs[j]) == Some(k);
      assert os[j] == Some(k);
    }
  }

  /** The present values of a sequence of options, in order. */
  function Somes(os: seq<Option<int>>): seq<int> {
    if os == [] then []
    else Somes(os[..|os| - 1]) + (match os[|os| - 1] case Some(k) => [k] case None => [])
  }

  lemma {:induction false} SomesFrom(os: seq<Option<int>>, k: int)
    ensures k in Somes(os) <==> exists j :: 0 <= j < |os| && os[j] == Some(k)
  {
    if os != [] {
      var p := os[..|os| - 1];
      SomesFrom(p, k);
      if exists j :: 0 <= j < |p| && p[j] == Some(k) {
        var j :| 0 <= j < |p| && p[j] == Some(k);
        assert os[j] == p[j];
      }
    }
  }

  lemma {:induction false} ParsedIntsAsSomes(vs: seq<JsVal>)
    ensures ParsedInts(vs) == Somes(seq(|vs|, i requires 0 <= i < |vs| => ParseInt(vs[i])))
  {
    var os := seq(|vs|, i requires 0 <= i < |vs| => ParseInt(vs[i]));
    if vs != [] {
      var p := vs[..|vs| - 1];
      ParsedIntsAsSomes(p);
      assert os[..|os| - 1] == seq(|p|, i requires 0 <= i < |p| => ParseInt(p[i]));
    }
  }

  /** The rows `INSERT ... VALUES (id, k), ...` adds for the parsed ids. */
  function AsignacionesDe(id: int, ks: seq<int>): (r: seq<Asignacion>)
    ensures |r| == |ks|
    ensures forall i :: 0 <= i < |ks| ==> r[i] == Asignacion(id, ks[i])
  {
    seq(|ks|, i requires 0 <= i < |ks| => Asignacion(id, ks[i]))
  }

  /** The ids assigned to a rule, in table order (`GET /:id/renglones`). */
  function DestinosDe(asg: seq<Asignacion>, id: int): seq<int> {
    if asg == [] then []
    else DestinosDe(asg[..|asg| - 1], id) + (if asg[|asg| - 1].regla == id then [asg[|asg| - 1].destino] else [])
  }

  lemma {:induction false} DestinosDeAppend(a: seq<Asignacion>, b: seq<Asignacion>, id: int)
    ensures DestinosDe(a + b, id) == DestinosDe(a, id) + DestinosDe(b, id)
  {
    if b != [] {
      var p := b[..|b| - 1];
      assert (a + b)[..|a + b| - 1] == a + p;
      assert (a + b)[|a + b| - 1] == b[|b| - 1];
      DestinosDeAppend(a, p, id);
    } else {
      assert a + b == a;
    }
  }

  lemma {:induction false} DestinosDeDeleted(asg: seq<Asignacion>, id: int, other: int)
    ensures DestinosDe(DeleteAsignaciones(asg, id), other) == if other == id then [] else DestinosDe(asg, other)
  {
    if asg != [] {
      var p := asg[..|asg| - 1];
      DestinosDeDeleted(p, id, other);
      var last := asg[|asg| - 1];
      DestinosDeAppend(DeleteAsignaciones(p, id), if last.regla == id then [] else [last], other);
      assert [last][..0] == [];
    }
  }

  lemma {:induction false} DestinosDeNew(id: int, ks: seq<int>, other: int)
    ensures DestinosDe(AsignacionesDe(id, ks), other) == if other == id then ks else []
  {
    if ks != [] {
      var p := ks[..|ks| - 1];
      assert AsignacionesDe(id, ks)[..|ks| - 1] == AsignacionesDe(id, p);
      DestinosDeNew(id, p, other);
    }
  }

  /** Replacing a rule's assignments: afterwards the rule is assigned exactly the parsed
      ids, in the order sent, and every other rule keeps its assignments. */
  lemma ReplacedDestinos(asg: seq<Asignacion>, id: int, ks: seq<int>, other: int)
    ensures DestinosDe(DeleteAsignaciones(asg, id) + AsignacionesDe(id, ks), other) ==
      if other == id then ks else DestinosDe(asg, other)
  {
    DestinosDeAppend(DeleteAsignaciones(asg, id), AsignacionesDe(id, ks), other);
    DestinosDeDeleted(asg, id, other);
    DestinosDeNew(id, ks, other);
  }

  /** A row of `GET /:id/empleados`: the assigned employee joined with its renglón. */
  datatype AsignadoView = AsignadoView(idEmpleado: int, codigo: Option<string>, nombre: string, dpi: Option<string>, renglon: string)

  /** The assigned employees with their renglón (both `INNER JOIN`s drop rows with no
      match), in assignment order. */
  function EmpleadosAsignados(asg: seq<Asignacion>, id: int, es: seq<Empleado>, rs: seq<Renglon>): (r: seq<AsignadoView>)
    ensures forall i :: 0 <= i < |r| ==> r[i].idEmpleado in DestinosDe(asg, id)
    ensures forall v :: v in r ==> Joins(v.idEmpleado, es, rs) && v == AsignadoOf(v.idEmpleado, es, rs)
  {
    if asg == [] then []
    else
      var a := asg[|asg| - 1];
      var rest := EmpleadosAsignados(asg[..|asg| - 1], id, es, rs);
      var row: seq<AsignadoView> :=
        if a.regla != id then []
        else match FindEmpleado(es, a.destino)
          case None => []
          case Some(e) =>
            match RenglonOf(e, rs)
            case None => []
            case Some(ren) => [AsignadoView(e.id, e.codigo, NombreCompleto(e), e.dpi, ren.codigo)];
      rest + row
  }

  /** An employee id whose employee and renglón both exist: the joins keep its row. */
  predicate Joins(k: int, es: seq<Empleado>, rs: seq<Renglon>) {
    FindEmpleado(es, k).Some? && RenglonOf(FindEmpleado(es, k).value, rs).Some?
  }

  function AsignadoOf(k: int, es: seq<Empleado>, rs: seq<Renglon>): AsignadoView
    requires Joins(k, es, rs)
  {
    var e := FindEmpleado(es, k).value;
    AsignadoView(e.id, e.codigo, NombreCompleto(e), e.dpi, RenglonOf(e, rs).value.codigo)
  }

  /** Every assigned employee whose joins succeed is listed. */
  lemma {:induction false} EmpleadosAsignadosComplete(asg: seq<Asignacion>, id: int, es: seq<Empleado>, rs: seq<Renglon>, k: int)
    requires k in DestinosDe(asg, id) && Joins(k, es, rs)
    ensures AsignadoOf(k, es, rs) in EmpleadosAsignados(asg, id, es, rs)
  {
    var p := asg[..|asg| - 1];
    var a := asg[|asg| - 1];
    if k in DestinosDe(p, id) {
      EmpleadosAsignadosComplete(p, id, es, rs, k);
    } else {
      assert a.regla == id && a.destino == k;
    }
  }

  class RuleStore {
    const kind: RuleKind
    var reglas: seq<Regla>
    var porRenglon: seq<Asignacion>
    var porEmpleado: seq<Asignacion>
    /** The next value of the rule table's IDENTITY column. */
    var nextId: int

    ghost predicate Valid()
      reads this
    {
      UniqueReglaIds(reglas) && forall i :: 0 <= i < |reglas| ==> reglas[i].id < nextId
    }

    /** The three tables as a value, as the payroll reads them. */
    function Tables(): RuleTables
      reads this
    {
      RuleTables(reglas, porRenglon, porEmpleado)
    }

    constructor (k: RuleKind)
      ensures Valid() && kind == k && Tables() == RuleTables([], [], []) && nextId == 1
    {
      kind := k;
      reglas, porRenglon, porEmpleado := [], [], [];
      nextId := 1;
    }

    /** `GET /`: every rule with its decoded `destino`, ordered by name. */
    function Listado(): (r: seq<ReglaView>)
      reads this
      ensures |r| == |reglas| && SortedBy(r, ViewKey)
      ensures multiset(r) == multiset(Views(reglas))
    {
      SortBy(Views(reglas), ViewKey)
    }

    /** `POST /`: an invalid body is refused with the first failing check and nothing is
        written; a valid one is inserted active under the next id and returned with its
        decoded `destino`. */
    method Crear(b: RuleBody) returns (out: Outcome<ReglaView>)
      requires Valid()
      modifies this`reglas, this`nextId
      ensures Valid()
      ensures Validate(b).Fail? ==> out == Fail(Validate(b).status, Validate(b).message) && reglas == old(reglas) && nextId == old(nextId)
      ensures Validate(b).Ok? ==>
        var r := NewRegla(old(nextId), Validate(b).value);
        out == Ok(ViewOf(r)) && reglas == old(reglas) + [r] && nextId == old(nextId) + 1
    {
      var v := Validate(b);
      if v.Fail? {
        return Fail(v.status, v.message);
      }
      var r := NewRegla(nextId, v.value);
      reglas := reglas + [r];
      nextId := nextId + 1;
      out := Ok(ViewOf(r));
    }

    /** `PUT /:id`: the id is checked first, then the body; a valid request rewrites every
        column of that rule, `activo` included, and no other rule. */
    method Editar(idText: string, b: RuleBody) returns (out: Outcome<()>)
      requires Valid()
      modifies this`reglas
      ensures Valid()
      ensures ParseIntStr(idText).None? ==> out == Fail(BadRequest, InvalidId(kind)) && reglas == old(reglas)
      ensures ParseIntStr(idText).Some? && Validate(b).Fail? ==>
        out == Fail(Validate(b).status, Validate(b).message) && reglas == old(reglas)
      ensures ParseIntStr(idText).Some? && Validate(b).Ok? ==>
        out == Ok(()) && reglas == UpdateWhere(old(reglas), ParseIntStr(idText).value, Validate(b).value, Truthy(b.activo))
    {
      var idInt := ParseIntStr(idText);
      if idInt.None? {
        return Fail(BadRequest, InvalidId(kind));
      }
      var v := Validate(b);
      if v.Fail? {
        return Fail(v.status, v.message);
      }
      var activoBit := ActivoBit(b.activo);
      reglas := UpdateWhere(reglas, idInt.value, v.value, activoBit);
      out := Ok(());
    }

    /** `PATCH /:id/activo`: only the `activo` column of that rule changes. */
    method CambiarActivo(idText: string, activo: JsVal) returns (out: Outcome<()>)
      requires Valid()
      modifies this`reglas
      ensures Valid()
      ensures ParseIntStr(idText).None? ==> out == Fail(BadRequest, InvalidId(kind)) && reglas == old(reglas)
      ensures ParseIntStr(idText).Some? ==>
        out == Ok(()) && reglas == SetActivoWhere(old(reglas), ParseIntStr(idText).value, Truthy(activo))
    {
      var idInt := ParseIntStr(idText);
      if idInt.None? {
        return Fail(BadRequest, InvalidId(kind));
      }
      reglas := SetActivoWhere(reglas, idInt.value, ActivoBit(activo));
      out := Ok(());
    }

    /** `DELETE /:id`: the rule's employee assignments, then its renglón assignments, then
        the rule itself are deleted. */
    method Eliminar(idText: string) returns (out: Outcome<()>)
      requires Valid()
      modifies this`reglas, this`porRenglon, this`porEmpleado
      ensures Valid()
      ensures ParseIntStr(idText).None? ==> out == Fail(BadRequest, InvalidId(kind)) && Tables() == old(Tables())
      ensures ParseIntStr(idText).Some? ==>
        var id := ParseIntStr(idText).value;
        out == Ok(()) &&
        Tables() == RuleTables(DeleteRegla(old(reglas), id), DeleteAsignaciones(old(porRenglon), id), DeleteAsignaciones(old(porEmpleado), id))
    {
      var idInt := ParseIntStr(idText);
      if idInt.None? {
        return Fail(BadRequest, InvalidId(kind));
      }
      var id := idInt.value;
      Remove(id);
      out := Ok(());
    }

    /** The three `DELETE`s, employee assignments first. */
    method Remove(id: int)
      requires Valid()
      modifies this`reglas, this`porRenglon, this`porEmpleado
      ensures Valid()
      ensures Tables() == RuleTables(DeleteRegla(old(reglas), id), DeleteAsignaciones(old(porRenglon), id), DeleteAsignaciones(old(porEmpleado), id))
    {
      DeleteReglaUnique(reglas, id);
      var rs, pr, pe := DeleteRegla(reglas, id), DeleteAsignaciones(porRenglon, id), DeleteAsignaciones(porEmpleado, id);
      reglas, porRenglon, porEmpleado := rs, pr, pe;
    }

    /** `GET /:id/renglones` (`renglones` true) and `GET /:id/empleados` without the join:
        the assigned ids. */
    function Asignados(idText: string, renglones: bool): (r: Outcome<seq<int>>)
      reads this
      ensures ParseIntStr(idText).None? <==> r == Fail(BadRequest, InvalidId(kind))
      ensures r.Ok? ==> r.value == DestinosDe(if renglones then porRenglon else porEmpleado, ParseIntStr(idText).value)
    {
      match ParseIntStr(idText)
      case None => Fail(BadRequest, InvalidId(kind))
      case Some(id) => Ok(DestinosDe(if renglones then porRenglon else porEmpleado, id))
    }

    /** `GET /:id/empleados`. */
    function EmpleadosDe(idText: string, es: seq<Empleado>, rs: seq<Renglon>): (r: Outcome<seq<AsignadoView>>)
      reads this
      ensures ParseIntStr(idText).None? <==> r == Fail(BadRequest, InvalidId(kind))
      ensures r.Ok? ==> forall i :: 0 <= i < |r.value| ==> r.value[i].idEmpleado in DestinosDe(porEmpleado, ParseIntStr(idText).value)
      ensures r.Ok? ==> forall k :: k in DestinosDe(porEmpleado, ParseIntStr(idText).value) && Joins(k, es, rs) ==>
        AsignadoOf(k, es, rs) in r.value
      ensures r.Ok? ==> forall v :: v in r.value ==> Joins(v.idEmpleado, es, rs) && v == AsignadoOf(v.idEmpleado, es, rs)
    {
      match ParseIntStr(idText)
      case None => Fail(BadRequest, InvalidId(kind))
      case Some(id) =>
        assert forall k :: k in DestinosDe(porEmpleado, id) && Joins(k, es, rs) ==> AsignadoOf(k, es, rs) in EmpleadosAsignados(porEmpleado, id, es, rs) by {
          forall k | k in DestinosDe(porEmpleado, id) && Joins(k, es, rs) {
            EmpleadosAsignadosComplete(porEmpleado, id, es, rs, k);
          }
        }
        Ok(EmpleadosAsignados(porEmpleado, id, es, rs))
    }

    /** `POST /:id/renglones` (`renglones` true) and `POST /:id/empleados`: the rule's
        assignments are deleted and the parsed ids inserted in their place. */
    method Reemplazar(idText: string, ids: Option<seq<JsVal>>, renglones: bool) returns (out: Outcome<()>)
      requires Valid()
      modifies this`porRenglon, this`porEmpleado
      ensures Valid()
      ensures ParseIntStr(idText).None? ==> out == Fail(BadRequest, InvalidId(kind)) && Tables() == old(Tables())
      ensures ParseIntStr(idText).Some? ==>
        var id := ParseIntStr(idText).value;
        out == Ok(()) &&
        (renglones ==> porRenglon == DeleteAsignaciones(old(porRenglon), id) + AsignacionesDe(id, ParseIds(ids)) && porEmpleado == old(porEmpleado)) &&
        (!renglones ==> porEmpleado == DeleteAsignaciones(old(porEmpleado), id) + AsignacionesDe(id, ParseIds(ids)) && porRenglon == old(porRenglon))
    {
      var idInt := ParseIntStr(idText);
      if idInt.None? {
        return Fail(BadRequest, InvalidId(kind));
      }
      Reasignar(idInt.value, ParseIds(ids), renglones);
      out := Ok(());
    }

    /** The delete and the inserts: delete the rule's rows, then insert the new ones when
        there are any. */
    method Reasignar(id: int, ks: seq<int>, renglones: bool)
      modifies this`porRenglon, this`porEmpleado
      ensures renglones ==> porRenglon == DeleteAsignaciones(old(porRenglon), id) + AsignacionesDe(id, ks) && porEmpleado == old(porEmpleado)
      ensures !renglones ==> porEmpleado == DeleteAsignaciones(old(porEmpleado), id) + AsignacionesDe(id, ks) && porRenglon == old(porRenglon)
    {
      if renglones {
        porRenglon := DeleteAsignaciones(porRenglon, id);
      } else {
        porEmpleado := DeleteAsignaciones(porEmpleado, id);
      }
      if |ks| > 0 {
        InsertarAsignaciones(id, ks, renglones);
      } else {
        assert AsignacionesDe(id, ks) == [];
      }
    }

    /** The multi-row `INSERT ... VALUES (id, k1), (id, k2), ...`. */
    method InsertarAsignaciones(id: int, ks: seq<int>, renglones: bool)
      modifies this`porRenglon, this`porEmpleado
      ensures renglones ==> porRenglon == old(porRenglon) + AsignacionesDe(id, ks) && porEmpleado == old(porEmpleado)
      ensures !renglones ==> porEmpleado == old(porEmpleado) + AsignacionesDe(id, ks) && porRenglon == old(porRenglon)
    {
      var j := 0;
      while j < |ks|
        invariant 0 <= j <= |ks|
        invariant renglones ==> porRenglon == old(porRenglon) + AsignacionesDe(id, ks[..j]) && porEmpleado == old(porEmpleado)
        invariant !renglones ==> porEmpleado == old(porEmpleado) + AsignacionesDe(id, ks[..j]) && porRenglon == old(porRenglon)
      {
        assert AsignacionesDe(id, ks[..j + 1]) == AsignacionesDe(id, ks[..j]) + [Asignacion(id, ks[j])];
        if renglones {
          porRenglon := porRenglon + [Asignacion(id, ks[j])];
        } else {
          porEmpleado := porEmpleado + [Asignacion(id, ks[j])];
        }
        j := j + 1;
      }
      assert ks[..j] == ks;
    }
  }
}
