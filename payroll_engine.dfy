/** The payroll calculation of `planillas.routes.js`: which employees a run covers, which
    bonus and discount rules apply to each of them, and what each rule contributes. */
module PayrollEngine {
  import opened Prelude
  import opened Numbers
  import opened Collections
  import opened Schema

  /* ---------------------------------------------------------------------------------
     The `id_renglon` field of a run request
     --------------------------------------------------------------------------------- */

  /** `idRenglonInt`: `null` (missing, falsy or "todos"), NaN, or a parsed integer. */
  datatype RenglonParam = General | NaNRenglon | Numero(k: int)

  function ParseRenglonParam(v: JsVal): (p: RenglonParam)
    ensures !Truthy(v) || v == JsStr("todos") ==> p == General
    ensures Truthy(v) && v != JsStr("todos") ==> (p.NaNRenglon? <==> ParseInt(v).None?)
    ensures p.Numero? ==> ParseInt(v) == Some(p.k)
  {
    if !Truthy(v) || v == JsStr("todos") then General
    else
      match ParseInt(v)
      case None => NaNRenglon
      case Some(k) => Numero(k)
  }

  /** The employee query filters on the renglón only when the parsed value is truthy:
      `null`, NaN and 0 all select every employee. */
  predicate FiltersRenglon(p: RenglonParam) {
    p.Numero? && p.k != 0
  }

  /* ---------------------------------------------------------------------------------
     obtenerEmpleadosParaPlanilla
     --------------------------------------------------------------------------------- */

  /** A row of the employee query: the employee joined with its renglón. */
  datatype Staff = Staff(
    idEmpleado: int,
    codigo: Option<string>,
    nombre: string,
    dpi: Option<string>,
    idRenglon: int,
    renglon: string,
    salarioBase: real)

  function ToStaff(e: Empleado, r: Renglon): Staff {
    Staff(e.id, e.codigo, NombreCompleto(e), e.dpi, r.id, r.codigo, e.salarioBase)
  }

  /** The sort key of `ORDER BY e.codigo_empleado` (NULL sorts first). */
  function StaffKey(s: Staff): string {
    s.codigo.GetOr("")
  }

  /** `FROM Empleados e INNER JOIN Renglones r ON r.id_renglon = e.id_renglon`. */
  function Joined(es: seq<Empleado>, rs: seq<Renglon>): (r: seq<Staff>)
    ensures |r| <= |es|
  {
    if es == [] then []
    else
      (match RenglonOf(es[0], rs)
       case Some(ren) => [ToStaff(es[0], ren)]
       case None => [])
      + Joined(es[1..], rs)
  }

  lemma {:induction false} JoinedMembership(es: seq<Empleado>, rs: seq<Renglon>, s: Staff)
    ensures s in Joined(es, rs) <==>
      exists e :: e in es && RenglonOf(e, rs).Some? && s == ToStaff(e, RenglonOf(e, rs).value)
  {
    if es != [] {
      JoinedMembership(es[1..], rs, s);
      assert forall e :: e in es <==> e == es[0] || e in es[1..];
    }
  }

  /** `WHERE e.id_renglon = @id_renglon`. */
  function OfRenglon(ss: seq<Staff>, k: int): (r: seq<Staff>)
    ensures forall s :: s in r <==> s in ss && s.idRenglon == k
    ensures |r| <= |ss|
  {
    if ss == [] then []
    else (if ss[0].idRenglon == k then [ss[0]] else []) + OfRenglon(ss[1..], k)
  }

  /** The employees a run covers, in the order of their codes. */
  function Selection(es: seq<Empleado>, rs: seq<Renglon>, p: RenglonParam): (r: seq<Staff>)
    ensures SortedBy(r, StaffKey)
    ensures |r| <= |es|
  {
    var joined := Joined(es, rs);
    SortBy(if FiltersRenglon(p) then OfRenglon(joined, p.k) else joined, StaffKey)
  }

  /** An employee is in the run exactly when it has a renglón that exists and, if the
      request names one, it is that renglón; its estado plays no part. */
  lemma {:induction false} SelectionMembership(es: seq<Empleado>, rs: seq<Renglon>, p: RenglonParam, e: Empleado)
    requires e in es && UniqueEmpleadoIds(es)
    ensures RenglonOf(e, rs).Some? ==>
      (ToStaff(e, RenglonOf(e, rs).value) in Selection(es, rs, p) <==> (FiltersRenglon(p) ==> e.idRenglon == Some(p.k)))
    ensures RenglonOf(e, rs).None? ==> forall s :: s in Selection(es, rs, p) ==> s.idEmpleado != e.id
  {
    if RenglonOf(e, rs).Some? {
      var s := ToStaff(e, RenglonOf(e, rs).value);
      SelectionMembers(es, rs, p, s);
      JoinedMembership(es, rs, s);
    } else {
      forall s | s in Selection(es, rs, p) ensures s.idEmpleado != e.id {
        SelectionMembers(es, rs, p, s);
        JoinedMembership(es, rs, s);
        var e' :| e' in es && RenglonOf(e', rs).Some? && s == ToStaff(e', RenglonOf(e', rs).value);
        DistinctIds(es, e, e');
      }
    }
  }

  /** The run's rows are the joined rows, filtered on the renglón when the request names one. */
  lemma {:induction false} SelectionMembers(es: seq<Empleado>, rs: seq<Renglon>, p: RenglonParam, s: Staff)
    ensures s in Selection(es, rs, p) <==> s in Joined(es, rs) && (FiltersRenglon(p) ==> s.idRenglon == p.k)
  {
    var joined := Joined(es, rs);
    SortByMembers(if FiltersRenglon(p) then OfRenglon(joined, p.k) else joined, StaffKey, s);
  }

  /** Ids are a key of `Empleados`: two different rows have different ids. */
  lemma {:induction false} DistinctIds(es: seq<Empleado>, a: Empleado, b: Empleado)
    requires UniqueEmpleadoIds(es) && a in es && b in es && a != b
    ensures a.id != b.id
  {
    var i :| 0 <= i < |es| && es[i] == a;
    var j :| 0 <= j < |es| && es[j] == b;
    if i < j {
      assert es[i].id != es[j].id;
    } else {
      assert es[j].id != es[i].id;
    }
  }

  /* ---------------------------------------------------------------------------------
     calcularBonificacionesEmpleado / calcularDescuentosEmpleado: the rule query
     --------------------------------------------------------------------------------- */

  /** The specification of eligibility: an active rule that targets everyone, the given
      renglón, or the given employee. The `aplicaPorRenglon` and `aplicaIndividual` flags
      are not looked at. */
  predicate Applies(t: RuleTables, r: Regla, idEmpleado: int, idRenglon: int) {
    r.activo &&
    (r.aplicaATodos || Asignacion(r.id, idRenglon) in t.porRenglon || Asignacion(r.id, idEmpleado) in t.porEmpleado)
  }

  /** The rules of `rs` that apply, in table order. */
  function Eligible(t: RuleTables, rs: seq<Regla>, idEmpleado: int, idRenglon: int): (r: seq<Regla>)
    ensures forall x :: x in r <==> x in rs && Applies(t, x, idEmpleado, idRenglon)
    ensures |r| <= |rs|
  {
    if rs == [] then []
    else
      var last := rs[|rs| - 1];
      assert forall x :: x in rs <==> x in rs[..|rs| - 1] || x == last;
      Eligible(t, rs[..|rs| - 1], idEmpleado, idRenglon) + (if Applies(t, last, idEmpleado, idRenglon) then [last] else [])
  }

  /** The scope flags only decide what the list shows as `destino`: changing them never
      changes which employees a rule reaches. */
  lemma AppliesIgnoresScopeFlags(t: RuleTables, r: Regla, porRenglon: bool, individual: bool, idEmpleado: int, idRenglon: int)
    ensures Applies(t, r.(aplicaPorRenglon := porRenglon, aplicaIndividual := individual), idEmpleado, idRenglon)
        == Applies(t, r, idEmpleado, idRenglon)
  {
  }

  /** A row produced by the two LEFT JOINs, before `WHERE` and `DISTINCT`: the rule, and
      whether the renglón join and the employee join found an assignment row. */
  datatype JoinRow = JoinRow(regla: Regla, renglonHit: bool, empleadoHit: bool)

  /** How many assignment rows join with the rule on the given target. */
  function CountMatches(asg: seq<Asignacion>, regla: int, destino: int): nat {
    if asg == [] then 0
    else (if asg[0] == Asignacion(regla, destino) then 1 else 0) + CountMatches(asg[1..], regla, destino)
  }

  /** Some assignment row matches exactly when the assignment is in the table. */
  lemma {:induction false} CountMatchesPositive(asg: seq<Asignacion>, regla: int, destino: int)
    ensures CountMatches(asg, regla, destino) > 0 <==> Asignacion(regla, destino) in asg
  {
    if asg != [] {
      CountMatchesPositive(asg[1..], regla, destino);
      assert forall a :: a in asg <==> a == asg[0] || a in asg[1..];
    }
  }

  /** A LEFT JOIN keeps a row for every match, or one NULL-extended row when there is none. */
  function Hits(n: nat): seq<bool> {
    if n == 0 then [false] else if n == 1 then [true] else [true] + Hits(n - 1)
  }

  lemma {:induction false} HitsMembers(n: nat)
    ensures Hits(n) != []
    ensures true in Hits(n) <==> n > 0
    ensures false in Hits(n) <==> n == 0
  {
    if n > 1 {
      HitsMembers(n - 1);
      assert Hits(n)[0];
    }
  }

  function RowsFor(r: Regla, hr: bool, he: seq<bool>): seq<JoinRow> {
    if he == [] then [] else [JoinRow(r, hr, he[0])] + RowsFor(r, hr, he[1..])
  }

  lemma {:induction false} RowsForMembers(r: Regla, hr: bool, he: seq<bool>)
    ensures forall row :: row in RowsFor(r, hr, he) <==> row.regla == r && row.renglonHit == hr && row.empleadoHit in he
  {
    if he != [] {
      RowsForMembers(r, hr, he[1..]);
      assert forall b :: b in he <==> b == he[0] || b in he[1..];
    }
  }

  function Cross(r: Regla, hr: seq<bool>, he: seq<bool>): seq<JoinRow> {
    if hr == [] then [] else RowsFor(r, hr[0], he) + Cross(r, hr[1..], he)
  }

  /** The rows of a rule are every combination of a renglón hit and an employee hit. */
  lemma {:induction false} CrossMembers(r: Regla, hr: seq<bool>, he: seq<bool>)
    ensures forall row :: row in Cross(r, hr, he) <==> row.regla == r && row.renglonHit in hr && row.empleadoHit in he
  {
    if hr != [] {
      RowsForMembers(r, hr[0], he);
      CrossMembers(r, hr[1..], he);
      assert forall b :: b in hr <==> b == hr[0] || b in hr[1..];
    }
  }

  /** The joined rows of the rules `rs`, rule after rule. */
  function JoinRows(t: RuleTables, rs: seq<Regla>, idEmpleado: int, idRenglon: int): seq<JoinRow> {
    if rs == [] then []
    else
      var last := rs[|rs| - 1];
      JoinRows(t, rs[..|rs| - 1], idEmpleado, idRenglon)
      + Cross(last, Hits(CountMatches(t.porRenglon, last.id, idRenglon)), Hits(CountMatches(t.porEmpleado, last.id, idEmpleado)))
  }

  /** `WHERE activo = 1 AND (aplica_a_todos = 1 OR br.. IS NOT NULL OR be.. IS NOT NULL)`. */
  predicate Where(row: JoinRow) {
    row.regla.activo && (row.regla.aplicaATodos || row.renglonHit || row.empleadoHit)
  }

  /** The rule columns of the rows that pass `WHERE`. */
  function Project(rows: seq<JoinRow>): seq<Regla> {
    if rows == [] then []
    else (if Where(rows[0]) then [rows[0].regla] else []) + Project(rows[1..])
  }

  /** A rule is projected exactly when one of its joined rows passes `WHERE`. */
  lemma {:induction false} ProjectMembers(rows: seq<JoinRow>)
    ensures forall x :: x in Project(rows) <==> exists row :: row in rows && Where(row) && row.regla == x
  {
    if rows != [] {
      ProjectMembers(rows[1..]);
      assert forall row :: row in rows <==> row == rows[0] || row in rows[1..];
    }
  }

  lemma {:induction false} ProjectAppend(a: seq<JoinRow>, b: seq<JoinRow>)
    ensures Project(a + b) == Project(a) + Project(b)
  {
    if a != [] {
      assert (a + b)[1..] == a[1..] + b;
      ProjectAppend(a[1..], b);
    } else {
      assert a + b == b;
    }
  }

  /** `SELECT DISTINCT`: the first occurrence of every row. */
  function Distinct(s: seq<Regla>): seq<Regla> {
    if s == [] then []
    else
      var d := Distinct(s[..|s| - 1]);
      var last := s[|s| - 1];
      if last in d then d else d + [last]
  }

  /** `DISTINCT` keeps every row and adds none. */
  lemma {:induction false} DistinctMembers(s: seq<Regla>)
    ensures forall x :: x in Distinct(s) <==> x in s
  {
    if s != [] {
      DistinctMembers(s[..|s| - 1]);
      assert forall x :: x in s <==> x in s[..|s| - 1] || x == s[|s| - 1];
    }
  }

  /** `DISTINCT` never yields a row twice. */
  lemma {:induction false} DistinctNoDup(s: seq<Regla>)
    ensures forall i, j :: 0 <= i < j < |Distinct(s)| ==> Distinct(s)[i] != Distinct(s)[j]
  {
    if s != [] {
      DistinctNoDup(s[..|s| - 1]);
    }
  }

  /** Appending a block of copies of one row: DISTINCT keeps one copy, unless the row
      was already there. */
  lemma {:induction false} DistinctAppendBlock(s: seq<Regla>, b: seq<Regla>, x: Regla)
    requires forall y :: y in b ==> y == x
    ensures Distinct(s + b) == if b == [] || x in s then Distinct(s) else Distinct(s) + [x]
    decreases |b|
  {
    if b == [] {
      assert s + b == s;
    } else {
      var b' := b[..|b| - 1];
      assert b == b' + [b[|b| - 1]];
      assert b[|b| - 1] in b;
      assert forall y :: y in b' ==> y in b;
      assert s + b == (s + b') + [x];
      assert (s + b)[..|s + b| - 1] == s + b';
      DistinctAppendBlock(s, b', x);
      DistinctMembers(s + b');
    }
  }

  /** What the rule query returns for one employee. */
  function QueryReglas(t: RuleTables, idEmpleado: int, idRenglon: int): seq<Regla> {
    Distinct(Project(JoinRows(t, t.reglas, idEmpleado, idRenglon)))
  }

  lemma {:induction false} JoinRowsRules(t: RuleTables, rs: seq<Regla>, idEmpleado: int, idRenglon: int)
    ensures forall x :: x in Project(JoinRows(t, rs, idEmpleado, idRenglon)) ==> x in rs
  {
    if rs != [] {
      var p := rs[..|rs| - 1];
      var last := rs[|rs| - 1];
      var block := Cross(last, Hits(CountMatches(t.porRenglon, last.id, idRenglon)), Hits(CountMatches(t.porEmpleado, last.id, idEmpleado)));
      JoinRowsRules(t, p, idEmpleado, idRenglon);
      ProjectAppend(JoinRows(t, p, idEmpleado, idRenglon), block);
      ProjectMembers(block);
      CrossMembers(last, Hits(CountMatches(t.porRenglon, last.id, idRenglon)), Hits(CountMatches(t.porEmpleado, last.id, idEmpleado)));
    }
  }

  /** The rows the joins give for one rule all carry that rule, and some pass `WHERE`
      exactly when the rule applies. */
  lemma {:induction false} BlockOfRule(t: RuleTables, r: Regla, idEmpleado: int, idRenglon: int)
    ensures var block := Project(Cross(r, Hits(CountMatches(t.porRenglon, r.id, idRenglon)), Hits(CountMatches(t.porEmpleado, r.id, idEmpleado))));
      (forall y :: y in block ==> y == r) && (block != [] <==> Applies(t, r, idEmpleado, idRenglon))
  {
    var hr := Hits(CountMatches(t.porRenglon, r.id, idRenglon));
    var he := Hits(CountMatches(t.porEmpleado, r.id, idEmpleado));
    var block := Project(Cross(r, hr, he));
    ProjectMembers(Cross(r, hr, he));
    CrossMembers(r, hr, he);
    CountMatchesPositive(t.porRenglon, r.id, idRenglon);
    CountMatchesPositive(t.porEmpleado, r.id, idEmpleado);
    HitsMembers(CountMatches(t.porRenglon, r.id, idRenglon));
    HitsMembers(CountMatches(t.porEmpleado, r.id, idEmpleado));
    if Applies(t, r, idEmpleado, idRenglon) {
      var row := JoinRow(r, hr[0], he[0]);
      if Asignacion(r.id, idRenglon) in t.porRenglon {
        row := JoinRow(r, true, he[0]);
      } else if Asignacion(r.id, idEmpleado) in t.porEmpleado {
        row := JoinRow(r, hr[0], true);
      }
      assert row in Cross(r, hr, he) && Where(row);
      assert r in block;
    }
    if block != [] {
      assert block[0] in block;
      var row :| row in Cross(r, hr, he) && Where(row) && row.regla == block[0];
      if row.renglonHit {
        assert true in hr;
      }
      if row.empleadoHit {
        assert true in he;
      }
    }
  }

  lemma {:induction false} QueryIsEligibleOn(t: RuleTables, rs: seq<Regla>, idEmpleado: int, idRenglon: int)
    requires UniqueReglaIds(rs)
    ensures Distinct(Project(JoinRows(t, rs, idEmpleado, idRenglon))) == Eligible(t, rs, idEmpleado, idRenglon)
  {
    if rs != [] {
      var p := rs[..|rs| - 1];
      var last := rs[|rs| - 1];
      var block := Cross(last, Hits(CountMatches(t.porRenglon, last.id, idRenglon)), Hits(CountMatches(t.porEmpleado, last.id, idEmpleado)));
      QueryIsEligibleOn(t, p, idEmpleado, idRenglon);
      ProjectAppend(JoinRows(t, p, idEmpleado, idRenglon), block);
      BlockOfRule(t, last, idEmpleado, idRenglon);
      JoinRowsRules(t, p, idEmpleado, idRenglon);
      assert last !in p;
      DistinctAppendBlock(Project(JoinRows(t, p, idEmpleado, idRenglon)), Project(block), last);
    }
  }

  /** `SELECT DISTINCT` over the LEFT JOINs returns each applicable rule once, however
      many assignment rows match it (a rule assigned both to the employee's renglón and to
      the employee, or assigned twice), and nothing else. */
  lemma {:induction false} QueryIsEligible(t: RuleTables, idEmpleado: int, idRenglon: int)
    requires UniqueReglaIds(t.reglas)
    ensures QueryReglas(t, idEmpleado, idRenglon) == Eligible(t, t.reglas, idEmpleado, idRenglon)
    ensures forall r :: r in QueryReglas(t, idEmpleado, idRenglon) <==> r in t.reglas && Applies(t, r, idEmpleado, idRenglon)
    ensures forall i, j :: 0 <= i < j < |QueryReglas(t, idEmpleado, idRenglon)| ==>
      QueryReglas(t, idEmpleado, idRenglon)[i].id != QueryReglas(t, idEmpleado, idRenglon)[j].id
  {
    QueryIsEligibleOn(t, t.reglas, idEmpleado, idRenglon);
    EligibleUnique(t, t.reglas, idEmpleado, idRenglon);
  }

  lemma {:induction false} EligibleUnique(t: RuleTables, rs: seq<Regla>, idEmpleado: int, idRenglon: int)
    requires UniqueReglaIds(rs)
    ensures UniqueReglaIds(Eligible(t, rs, idEmpleado, idRenglon))
  {
    if rs != [] {
      var p := rs[..|rs| - 1];
      var last := rs[|rs| - 1];
      EligibleUnique(t, p, idEmpleado, idRenglon);
      var e := Eligible(t, rs, idEmpleado, idRenglon);
      var ep := Eligible(t, p, idEmpleado, idRenglon);
      forall i, j | 0 <= i < j < |e| ensures e[i].id != e[j].id {
        if j == |ep| {
          assert e[i] in ep && e[i] in p;
          var k :| 0 <= k < |p| && p[k] == e[i];
          assert rs[k].id != rs[|rs| - 1].id;
        } else {
          assert e[i] == ep[i] && e[j] == ep[j];
        }
      }
    }
  }

  /* ---------------------------------------------------------------------------------
     Contributions
     --------------------------------------------------------------------------------- */

  /** One entry of the `bonos`/`descuentos` breakdown of an employee. */
  datatype Linea = Linea(idRegla: int, nombre: string, tipo: string, porcentajeOMonto: real, monto: real)

  /** What one rule adds or takes: its value when `tipo` is "MONTO", any other `tipo` a
      percentage of the base salary; rounded to cents. */
  function Contribution(r: Regla, salarioBase: real): (m: real)
    ensures IsCents(m)
  {
    Round2(if r.tipo == "MONTO" then r.valor else salarioBase * r.valor / 100.0)
  }

  /** A contribution is within half a cent of the flat amount, or of the percentage of the
      base salary. */
  lemma ContributionBounds(r: Regla, salarioBase: real)
    ensures r.tipo == "MONTO" ==> -0.005 <= Contribution(r, salarioBase) - r.valor <= 0.005
    ensures r.tipo != "MONTO" ==> -0.005 <= Contribution(r, salarioBase) - salarioBase * r.valor / 100.0 <= 0.005
  {
  }

  /** A flat amount given in whole cents is paid exactly. */
  lemma ContributionOfMonto(r: Regla, salarioBase: real)
    requires r.tipo == "MONTO" && IsCents(r.valor)
    ensures Contribution(r, salarioBase) == r.valor
  {
    RoundCents(r.valor);
  }

  function LineaOf(r: Regla, salarioBase: real): Linea {
    Linea(r.id, r.nombre, r.tipo, r.valor, Contribution(r, salarioBase))
  }

  /** The breakdown: one entry per rule, in the order the query returns them. */
  function Lineas(rs: seq<Regla>, salarioBase: real): (ls: seq<Linea>)
    ensures |ls| == |rs|
    ensures forall i :: 0 <= i < |rs| ==> ls[i] == LineaOf(rs[i], salarioBase)
  {
    seq(|rs|, i requires 0 <= i < |rs| => LineaOf(rs[i], salarioBase))
  }

  function SumMontos(ls: seq<Linea>): real {
    if ls == [] then 0.0 else SumMontos(ls[..|ls| - 1]) + ls[|ls| - 1].monto
  }

  predicate AllCents(ls: seq<Linea>) {
    forall i :: 0 <= i < |ls| ==> IsCents(ls[i].monto)
  }

  lemma {:induction false} SumMontosCents(ls: seq<Linea>)
    requires AllCents(ls)
    ensures IsCents(SumMontos(ls))
  {
    if ls == [] {
      CentsOfInt(0);
    } else {
      SumMontosCents(ls[..|ls| - 1]);
      CentsSum(SumMontos(ls[..|ls| - 1]), ls[|ls| - 1].monto);
    }
  }

  /** `calcularBonificacionesEmpleado` (and `calcularDescuentosEmpleado`): the rule query,
      then the breakdown of the applicable rules and its total, which is the exact sum of
      the rounded contributions (rounding the sum again changes nothing). */
  method CalcularReglas(t: RuleTables, idEmpleado: int, idRenglon: int, salarioBase: real)
    returns (lineas: seq<Linea>, total: real)
    ensures lineas == Lineas(QueryReglas(t, idEmpleado, idRenglon), salarioBase)
    ensures total == SumMontos(lineas) && IsCents(total)
  {
    var rows := QueryReglas(t, idEmpleado, idRenglon);
    lineas, total := SumarReglas(rows, salarioBase);
  }

  /** The loop over the rows of the rule query: one line per rule, and the running total. */
  method SumarReglas(rows: seq<Regla>, salarioBase: real) returns (lineas: seq<Linea>, total: real)
    ensures lineas == Lineas(rows, salarioBase)
    ensures total == SumMontos(lineas) && IsCents(total)
  {
    lineas := [];
    var acc := 0.0;
    CentsOfInt(0);
    var i := 0;
    while i < |rows|
      invariant 0 <= i <= |rows|
      invariant |lineas| == i
      invariant forall k :: 0 <= k < i ==> lineas[k] == LineaOf(rows[k], salarioBase)
      invariant acc == SumMontos(lineas) && IsCents(acc)
    {
      var r := rows[i];
      var monto := Contribution(r, salarioBase);
      CentsSum(acc, monto);
      acc := acc + monto;
      var l := Linea(r.id, r.nombre, r.tipo, r.valor, monto);
      assert (lineas + [l])[..|lineas|] == lineas;
      lineas := lineas + [l];
      i := i + 1;
    }
    assert lineas == Lineas(rows, salarioBase);
    RoundCents(acc);
    total := Round2(acc);
  }

  /* ---------------------------------------------------------------------------------
     One employee's pay
     --------------------------------------------------------------------------------- */

  /** One employee of a run, as `POST /calcular` answers and stores it. */
  datatype Detalle = Detalle(
    idEmpleado: int,
    codigo: Option<string>,
    nombre: string,
    dpi: Option<string>,
    renglon: string,
    salarioBase: real,
    totalBonos: real,
    totalDescuentos: real,
    salarioBruto: real,
    salarioNeto: real,
    bonos: seq<Linea>,
    descuentos: seq<Linea>)

  /** The renglón the rule queries are asked about: the request's, when it names one
      (`idRenglonInt ?? emp.id_renglon`), else the employee's own. */
  function RulesRenglon(p: RenglonParam, s: Staff): int {
    if p.Numero? then p.k else s.idRenglon
  }

  /** The pay of one employee from its breakdowns: gross is base plus the bonus total,
      net is gross minus the discount total, each rounded to cents. */
  function Pay(s: Staff, bs: seq<Linea>, ds: seq<Linea>): (d: Detalle)
    ensures d.idEmpleado == s.idEmpleado && d.salarioBase == s.salarioBase
    ensures d.codigo == s.codigo && d.nombre == s.nombre && d.dpi == s.dpi && d.renglon == s.renglon
    ensures d.bonos == bs && d.descuentos == ds
    ensures d.totalBonos == SumMontos(bs) && d.totalDescuentos == SumMontos(ds)
    ensures d.salarioBruto == Round2(s.salarioBase + d.totalBonos)
    ensures d.salarioNeto == Round2(d.salarioBruto - d.totalDescuentos)
    ensures IsCents(d.salarioBruto) && IsCents(d.salarioNeto)
  {
    var tb := SumMontos(bs);
    var td := SumMontos(ds);
    var bruto := Round2(s.salarioBase + tb);
    Detalle(s.idEmpleado, s.codigo, s.nombre, s.dpi, s.renglon, s.salarioBase, tb, td,
            bruto, Round2(bruto - td), bs, ds)
  }

  /** The pay of one employee, with the bonuses and discounts that apply to it. */
  function DetalleOf(bonos: RuleTables, descuentos: RuleTables, s: Staff, idRenglon: int): Detalle {
    Pay(s, Lineas(QueryReglas(bonos, s.idEmpleado, idRenglon), s.salarioBase),
        Lineas(QueryReglas(descuentos, s.idEmpleado, idRenglon), s.salarioBase))
  }

  lemma {:induction false} DetalleOfPay(bonos: RuleTables, descuentos: RuleTables, s: Staff, idRenglon: int, bs: seq<Linea>, ds: seq<Linea>)
    requires bs == Lineas(QueryReglas(bonos, s.idEmpleado, idRenglon), s.salarioBase)
    requires ds == Lineas(QueryReglas(descuentos, s.idEmpleado, idRenglon), s.salarioBase)
    ensures DetalleOf(bonos, descuentos, s, idRenglon) == Pay(s, bs, ds)
  {
  }

  lemma {:induction false} LineasCents(rs: seq<Regla>, salarioBase: real)
    ensures AllCents(Lineas(rs, salarioBase))
  {
  }

  lemma {:induction false} ExactRounding(base: real, tb: real, td: real, bruto: real, neto: real)
    requires IsCents(base) && IsCents(tb) && IsCents(td)
    requires bruto == Round2(base + tb) && neto == Round2(bruto - td)
    ensures bruto == base + tb && neto == base + tb - td
  {
    CentsSum(base, tb);
    RoundCents(base + tb);
    CentsSum(base + tb, td);
    RoundCents(base + tb - td);
  }

  /** With a base salary in whole cents nothing is lost to rounding (every computed
      breakdown is in whole cents, `LineasCents`): gross equals base plus the bonus total
      and net equals gross minus the discount total. */
  lemma {:induction false} PayExact(s: Staff, bs: seq<Linea>, ds: seq<Linea>)
    requires IsCents(s.salarioBase) && AllCents(bs) && AllCents(ds)
    ensures var d := Pay(s, bs, ds);
      d.salarioBruto == s.salarioBase + d.totalBonos &&
      d.salarioNeto == s.salarioBase + d.totalBonos - d.totalDescuentos
  {
    var d := Pay(s, bs, ds);
    SumMontosCents(bs);
    SumMontosCents(ds);
    ExactRounding(s.salarioBase, d.totalBonos, d.totalDescuentos, d.salarioBruto, d.salarioNeto);
  }

  /** When no rule of the table applies, the query returns nothing. */
  lemma {:induction false} NoRuleApplies(t: RuleTables, idEmpleado: int, idRenglon: int)
    requires UniqueReglaIds(t.reglas)
    requires forall r :: r in t.reglas ==> !Applies(t, r, idEmpleado, idRenglon)
    ensures QueryReglas(t, idEmpleado, idRenglon) == []
  {
    QueryIsEligibleOn(t, t.reglas, idEmpleado, idRenglon);
    EligibleEmpty(t, t.reglas, idEmpleado, idRenglon);
  }

  lemma {:induction false} EligibleEmpty(t: RuleTables, rs: seq<Regla>, idEmpleado: int, idRenglon: int)
    requires forall r :: r in rs ==> !Applies(t, r, idEmpleado, idRenglon)
    ensures Eligible(t, rs, idEmpleado, idRenglon) == []
  {
    if rs != [] {
      assert rs[|rs| - 1] in rs;
      EligibleEmpty(t, rs[..|rs| - 1], idEmpleado, idRenglon);
    }
  }

  /** An employee no rule applies to is paid the base salary, rounded to cents, both
      gross and net, with empty breakdowns. */
  lemma {:induction false} PayWithoutRules(bonos: RuleTables, descuentos: RuleTables, s: Staff, idRenglon: int)
    requires UniqueReglaIds(bonos.reglas) && UniqueReglaIds(descuentos.reglas)
    requires forall r :: r in bonos.reglas ==> !Applies(bonos, r, s.idEmpleado, idRenglon)
    requires forall r :: r in descuentos.reglas ==> !Applies(descuentos, r, s.idEmpleado, idRenglon)
    ensures DetalleOf(bonos, descuentos, s, idRenglon) == Pay(s, [], [])
    ensures Pay(s, [], []).salarioBruto == Round2(s.salarioBase)
    ensures Pay(s, [], []).salarioNeto == Round2(s.salarioBase)
  {
    NoRuleApplies(bonos, s.idEmpleado, idRenglon);
    NoRuleApplies(descuentos, s.idEmpleado, idRenglon);
    assert Lineas([], s.salarioBase) == [];
    PayEmpty(s);
  }

  lemma {:induction false} PayEmpty(s: Staff)
    ensures Pay(s, [], []).salarioBruto == Round2(s.salarioBase)
    ensures Pay(s, [], []).salarioNeto == Round2(s.salarioBase)
  {
    var d := Pay(s, [], []);
    assert d.totalBonos == 0.0 && d.totalDescuentos == 0.0;
    assert s.salarioBase + d.totalBonos == s.salarioBase;
    Round2Idempotent(s.salarioBase);
    assert d.salarioBruto - d.totalDescuentos == Round2(s.salarioBase);
  }
}
