/** `POST /api/planillas/calcular` and `GET /api/planillas/:id`: a payroll run computed
    for every selected employee and stored in `Planillas`, `PlanillaDetalle`,
    `PlanillaDetalleBonificaciones` and `PlanillaDetalleDescuentos`. */
module PayrollStore {
  import opened Prelude
  import opened Text
  import opened Numbers
  import opened Collections
  import opened Schema
  import opened PayrollEngine

  /** The tables a run reads. */
  datatype Database = Database(empleados: seq<Empleado>, renglones: seq<Renglon>, bonos: RuleTables, descuentos: RuleTables)

  /** A row of `Planillas`. */
  datatype Planilla = Planilla(
    id: int, mes: int, anio: int, idRenglon: Option<int>, descripcion: string,
    totalEmpleados: int, totalMonto: real, estado: string)

  /** A row of `PlanillaDetalle`. */
  datatype DetalleRow = DetalleRow(
    id: int, idPlanilla: int, idEmpleado: int, salarioBase: real, totalBonos: real,
    totalDescuentos: real, salarioBruto: real, salarioNeto: real)

  /** A row of `PlanillaDetalleBonificaciones` or `PlanillaDetalleDescuentos`. */
  datatype LineaRow = LineaRow(idDetalle: int, idRegla: int, nombre: string, monto: real)

  /** The body of a successful `POST /calcular`. */
  datatype Run = Run(
    idPlanilla: int, mes: int, anio: int, idRenglon: Option<int>, totalEmpleados: int,
    totalMonto: real, estado: string, detalle: seq<Detalle>)

  const Generada := "GENERADA"
  const SinEmpleados := "No hay empleados para generar la planilla."
  const ErrorCalculo := "Error al calcular planilla"

  /** The pay of each of the given employees, in their order. */
  function Detalles(db: Database, p: RenglonParam, sel: seq<Staff>): (ds: seq<Detalle>)
    ensures |ds| == |sel|
  {
    if sel == [] then []
    else
      var s := sel[|sel| - 1];
      Detalles(db, p, sel[..|sel| - 1]) + [DetalleOf(db.bonos, db.descuentos, s, RulesRenglon(p, s))]
  }

  /** Every selected employee's pay, in the order of the selection. */
  function RunDetalle(db: Database, p: RenglonParam): (ds: seq<Detalle>)
    ensures |ds| == |Selection(db.empleados, db.renglones, p)|
  {
    Detalles(db, p, Selection(db.empleados, db.renglones, p))
  }

  /** The i-th detail of a run is the pay of the i-th selected employee. */
  lemma {:induction false} DetallesAt(db: Database, p: RenglonParam, sel: seq<Staff>, i: int)
    requires 0 <= i < |sel|
    ensures Detalles(db, p, sel)[i] == DetalleOf(db.bonos, db.descuentos, sel[i], RulesRenglon(p, sel[i]))
  {
    if i < |sel| - 1 {
      DetallesAt(db, p, sel[..|sel| - 1], i);
    }
  }

  function SumNetos(ds: seq<Detalle>): real {
    if ds == [] then 0.0 else SumNetos(ds[..|ds| - 1]) + ds[|ds| - 1].salarioNeto
  }

  /** Net salaries are whole cents, so a run's total is exact: rounding it again (as the
      route does before storing it) changes nothing. */
  lemma {:induction false} DetallesCents(db: Database, p: RenglonParam, sel: seq<Staff>)
    ensures IsCents(SumNetos(Detalles(db, p, sel)))
    ensures Round2(SumNetos(Detalles(db, p, sel))) == SumNetos(Detalles(db, p, sel))
  {
    DetallesNetos(db, p, sel);
    SumNetosCents(Detalles(db, p, sel));
  }

  /** Every net salary of a run is whole cents. */
  lemma {:induction false} DetallesNetos(db: Database, p: RenglonParam, sel: seq<Staff>)
    ensures forall i :: 0 <= i < |sel| ==> IsCents(Detalles(db, p, sel)[i].salarioNeto)
  {
    forall i | 0 <= i < |sel| ensures IsCents(Detalles(db, p, sel)[i].salarioNeto) {
      DetallesAt(db, p, sel, i);
    }
  }

  lemma {:induction false} SumNetosCents(ds: seq<Detalle>)
    requires forall i :: 0 <= i < |ds| ==> IsCents(ds[i].salarioNeto)
    ensures IsCents(SumNetos(ds)) && Round2(SumNetos(ds)) == SumNetos(ds)
  {
    if ds == [] {
      CentsOfInt(0);
    } else {
      var prev := ds[..|ds| - 1];
      SumNetosCents(prev);
      CentsSum(SumNetos(prev), ds[|ds| - 1].salarioNeto);
    }
    RoundCents(SumNetos(ds));
  }

  /** The header's `descripcion`: it names the renglón only when the parsed id is truthy. */
  function Descripcion(p: RenglonParam, mes: int, anio: int): (d: string)
    ensures FiltersRenglon(p) ==> StartsWith(d, "Planilla rengl\U{00F3}n ")
    ensures !FiltersRenglon(p) ==> StartsWith(d, "Planilla general ")
  {
    var periodo := IntToString(mes) + "/" + IntToString(anio);
    if FiltersRenglon(p) then
      var d := "Planilla rengl\U{00F3}n " + IntToString(p.k) + " " + periodo;
      assert d[..|"Planilla rengl\U{00F3}n "|] == "Planilla rengl\U{00F3}n ";
      d
    else
      var d := "Planilla general " + periodo;
      assert d[..|"Planilla general "|] == "Planilla general ";
      d
  }

  /** The description ends in a blank and the period `mes/anio`, and a renglón run names
      the parsed id right after its fixed prefix, followed by a blank. */
  lemma DescripcionNamesPeriod(p: RenglonParam, mes: int, anio: int)
    ensures var d := Descripcion(p, mes, anio); var periodo := IntToString(mes) + "/" + IntToString(anio);
      |d| > |periodo| && d[|d| - |periodo|..] == periodo && d[|d| - |periodo| - 1] == ' '
    ensures FiltersRenglon(p) ==> var d := Descripcion(p, mes, anio); var n := IntToString(p.k);
      |d| > |"Planilla rengl\U{00F3}n "| + |n| &&
      d[|"Planilla rengl\U{00F3}n "|..|"Planilla rengl\U{00F3}n "| + |n|] == n && d[|"Planilla rengl\U{00F3}n "| + |n|] == ' '
  {
    var periodo := IntToString(mes) + "/" + IntToString(anio);
    if FiltersRenglon(p) {
      BlankSeparated("Planilla rengl\U{00F3}n ", IntToString(p.k), periodo);
    } else {
      EndsWithBlankThen("Planilla general ", periodo);
    }
  }

  lemma BlankSeparated(head: string, n: string, tail: string)
    ensures var d := head + n + " " + tail;
      |d| > |tail| && d[|d| - |tail|..] == tail && d[|d| - |tail| - 1] == ' ' &&
      |d| > |head| + |n| && d[|head|..|head| + |n|] == n && d[|head| + |n|] == ' '
  {
    var d := head + n + " " + tail;
    assert d[|head| + |n| + 1..] == tail;
    assert d[|head|..|head| + |n|] == n;
  }

  lemma EndsWithBlankThen(pre: string, tail: string)
    requires |pre| > 0 && pre[|pre| - 1] == ' '
    ensures var d := pre + tail; |d| > |tail| && d[|d| - |tail|..] == tail && d[|d| - |tail| - 1] == ' '
  {
    var d := pre + tail;
    assert d[|pre|..] == tail;
  }

  /** The header's `id_renglon` column: NULL for a general run. */
  function HeaderRenglon(p: RenglonParam): Option<int> {
    if p.Numero? then Some(p.k) else None
  }

  function ToDetalleRow(d: Detalle, id: int, idPlanilla: int): DetalleRow {
    DetalleRow(id, idPlanilla, d.idEmpleado, d.salarioBase, d.totalBonos, d.totalDescuentos, d.salarioBruto, d.salarioNeto)
  }

  /** The detail rows of a run whose first detail gets the id `first`. */
  function DetalleRows(ds: seq<Detalle>, idPlanilla: int, first: int): (rows: seq<DetalleRow>)
    ensures |rows| == |ds|
    ensures forall i :: 0 <= i < |ds| ==> rows[i] == ToDetalleRow(ds[i], first + i, idPlanilla)
  {
    seq(|ds|, i requires 0 <= i < |ds| => ToDetalleRow(ds[i], first + i, idPlanilla))
  }

  function LineaRows(ls: seq<Linea>, idDetalle: int): (rows: seq<LineaRow>)
    ensures |rows| == |ls|
    ensures forall i :: 0 <= i < |ls| ==> rows[i] == LineaRow(idDetalle, ls[i].idRegla, ls[i].nombre, ls[i].monto)
  {
    seq(|ls|, i requires 0 <= i < |ls| => LineaRow(idDetalle, ls[i].idRegla, ls[i].nombre, ls[i].monto))
  }

  /** A detail's bonuses (`bonos`) or its discounts. */
  function Lines(d: Detalle, bonos: bool): seq<Linea> {
    if bonos then d.bonos else d.descuentos
  }

  /** The bonuses (or the discounts) of each detail of a run. */
  function LinesOf(ds: seq<Detalle>, bonos: bool): (lss: seq<seq<Linea>>)
    ensures |lss| == |ds|
    ensures forall i :: 0 <= i < |ds| ==> lss[i] == Lines(ds[i], bonos)
  {
    seq(|ds|, i requires 0 <= i < |ds| => Lines(ds[i], bonos))
  }

  /** The breakdown rows of a run, detail after detail, the i-th detail having the id
      `first + i`; `lss` holds the lines of each detail. */
  function BreakdownRows(lss: seq<seq<Linea>>, first: int): seq<LineaRow> {
    if lss == [] then []
    else BreakdownRows(lss[..|lss| - 1], first) + LineaRows(lss[|lss| - 1], first + |lss| - 1)
  }

  /** A concept of the breakdown `GET /:id` returns: `FOR JSON PATH` keeps name and amount. */
  datatype Concepto = Concepto(nombre: string, monto: real)

  /** The breakdown stored for one detail row. */
  function ConceptosDe(rows: seq<LineaRow>, idDetalle: int): (cs: seq<Concepto>)
    ensures |cs| <= |rows|
  {
    if rows == [] then []
    else
      var last := rows[|rows| - 1];
      ConceptosDe(rows[..|rows| - 1], idDetalle) + (if last.idDetalle == idDetalle then [Concepto(last.nombre, last.monto)] else [])
  }

  function ConceptosOf(ls: seq<Linea>): (cs: seq<Concepto>)
    ensures |cs| == |ls|
    ensures forall i :: 0 <= i < |ls| ==> cs[i] == Concepto(ls[i].nombre, ls[i].monto)
  {
    seq(|ls|, i requires 0 <= i < |ls| => Concepto(ls[i].nombre, ls[i].monto))
  }

  lemma {:induction false} ConceptosDeAppend(a: seq<LineaRow>, b: seq<LineaRow>, idDetalle: int)
    ensures ConceptosDe(a + b, idDetalle) == ConceptosDe(a, idDetalle) + ConceptosDe(b, idDetalle)
    decreases |b|
  {
    if b == [] {
      assert a + b == a;
    } else {
      assert (a + b)[..|a + b| - 1] == a + b[..|b| - 1];
      ConceptosDeAppend(a, b[..|b| - 1], idDetalle);
    }
  }

  lemma {:induction false} ConceptosDeOther(rows: seq<LineaRow>, idDetalle: int)
    requires forall k :: 0 <= k < |rows| ==> rows[k].idDetalle != idDetalle
    ensures ConceptosDe(rows, idDetalle) == []
  {
    if rows != [] {
      ConceptosDeOther(rows[..|rows| - 1], idDetalle);
    }
  }

  lemma {:induction false} ConceptosDeOwn(ls: seq<Linea>, idDetalle: int)
    ensures ConceptosDe(LineaRows(ls, idDetalle), idDetalle) == ConceptosOf(ls)
  {
    if ls != [] {
      var p := ls[..|ls| - 1];
      ConceptosDeOwn(p, idDetalle);
      assert LineaRows(ls, idDetalle)[..|ls| - 1] == LineaRows(p, idDetalle);
      assert ConceptosOf(ls) == ConceptosOf(p) + [Concepto(ls[|ls| - 1].nombre, ls[|ls| - 1].monto)];
    }
  }

  lemma {:induction false} BreakdownRowsIds(lss: seq<seq<Linea>>, first: int)
    ensures forall k :: 0 <= k < |BreakdownRows(lss, first)| ==>
      first <= BreakdownRows(lss, first)[k].idDetalle < first + |lss|
  {
    if lss != [] {
      BreakdownRowsIds(lss[..|lss| - 1], first);
    }
  }

  /** Within a run's breakdown rows, those of its i-th detail are exactly that detail's lines. */
  lemma {:induction false} BreakdownOf(lss: seq<seq<Linea>>, first: int, i: int)
    requires 0 <= i < |lss|
    ensures ConceptosDe(BreakdownRows(lss, first), first + i) == ConceptosOf(lss[i])
    decreases |lss|
  {
    if i == |lss| - 1 {
      BreakdownLast(lss, first);
    } else {
      BreakdownOf(lss[..|lss| - 1], first, i);
      BreakdownEarlier(lss, first, i);
      assert lss[..|lss| - 1][i] == lss[i];
    }
  }

  lemma {:induction false} BreakdownLast(lss: seq<seq<Linea>>, first: int)
    requires 0 < |lss|
    ensures ConceptosDe(BreakdownRows(lss, first), first + |lss| - 1) == ConceptosOf(lss[|lss| - 1])
  {
    var n := |lss|;
    var id := first + n - 1;
    var prev := BreakdownRows(lss[..n - 1], first);
    var own := LineaRows(lss[n - 1], id);
    BreakdownRowsLast(lss, first);
    assert BreakdownRows(lss, first) == prev + own;
    BreakdownRowsIds(lss[..n - 1], first);
    assert forall k :: 0 <= k < |prev| ==> prev[k].idDetalle < id;
    ConceptosDeOther(prev, id);
    ConceptosDeOwn(lss[n - 1], id);
    ConceptosDeAfter(BreakdownRows(lss, first), prev, own, id, ConceptosOf(lss[n - 1]));
  }

  lemma {:induction false} ConceptosDeAfter(rows: seq<LineaRow>, prev: seq<LineaRow>, own: seq<LineaRow>, id: int, cs: seq<Concepto>)
    requires rows == prev + own
    requires ConceptosDe(prev, id) == [] && ConceptosDe(own, id) == cs
    ensures ConceptosDe(rows, id) == cs
  {
    ConceptosDeNoneAppend(prev, own, id);
  }

  /** The rows of the last detail leave the breakdown of an earlier one as it was. */
  lemma {:induction false} BreakdownEarlier(lss: seq<seq<Linea>>, first: int, i: int)
    requires 0 <= i < |lss| - 1
    ensures ConceptosDe(BreakdownRows(lss, first), first + i) == ConceptosDe(BreakdownRows(lss[..|lss| - 1], first), first + i)
  {
    var n := |lss|;
    var own := LineaRows(lss[n - 1], first + n - 1);
    BreakdownRowsLast(lss, first);
    ConceptosDeOther(own, first + i);
    ConceptosDeBefore(BreakdownRows(lss, first), BreakdownRows(lss[..n - 1], first), own, first + i);
  }

  lemma {:induction false} ConceptosDeBefore(rows: seq<LineaRow>, prev: seq<LineaRow>, own: seq<LineaRow>, id: int)
    requires rows == prev + own
    requires ConceptosDe(own, id) == []
    ensures ConceptosDe(rows, id) == ConceptosDe(prev, id)
  {
    ConceptosDeAppendNone(prev, own, id);
  }

  lemma {:induction false} BreakdownRowsLast(lss: seq<seq<Linea>>, first: int)
    requires lss != []
    ensures BreakdownRows(lss, first) == BreakdownRows(lss[..|lss| - 1], first) + LineaRows(lss[|lss| - 1], first + |lss| - 1)
  {
  }

  lemma {:induction false} ConceptosDeAppendNone(a: seq<LineaRow>, b: seq<LineaRow>, id: int)
    requires ConceptosDe(b, id) == []
    ensures ConceptosDe(a + b, id) == ConceptosDe(a, id)
  {
    ConceptosDeAppend(a, b, id);
    var c := ConceptosDe(a, id);
    assert c + [] == c;
  }

  lemma {:induction false} ConceptosDeNoneAppend(a: seq<LineaRow>, b: seq<LineaRow>, id: int)
    requires ConceptosDe(a, id) == []
    ensures ConceptosDe(a + b, id) == ConceptosDe(b, id)
  {
    ConceptosDeAppend(a, b, id);
    var c := ConceptosDe(b, id);
    assert [] + c == c;
  }

  lemma {:induction false} EarlierDetails(rows: seq<LineaRow>, first: int, i: int)
    requires forall k :: 0 <= k < |rows| ==> rows[k].idDetalle < first
    requires 0 <= i
    ensures ConceptosDe(rows, first + i) == []
  {
    if rows != [] {
      EarlierDetails(rows[..|rows| - 1], first, i);
    }
  }

  /** Reading the stored breakdown of the i-th detail of a run gives back exactly the
      names and amounts the run computed for it, whatever was stored before. */
  lemma {:induction false} StoredBreakdown(old_: seq<LineaRow>, lss: seq<seq<Linea>>, first: int, i: int)
    requires forall k :: 0 <= k < |old_| ==> old_[k].idDetalle < first
    requires 0 <= i < |lss|
    ensures ConceptosDe(old_ + BreakdownRows(lss, first), first + i) == ConceptosOf(lss[i])
  {
    EarlierDetails(old_, first, i);
    ConceptosDeNoneAppend(old_, BreakdownRows(lss, first), first + i);
    BreakdownOf(lss, first, i);
  }

  /** The detail rows stored for a planilla. */
  function DetallesDe(rows: seq<DetalleRow>, idPlanilla: int): (r: seq<DetalleRow>)
    ensures forall x :: x in r <==> x in rows && x.idPlanilla == idPlanilla
  {
    if rows == [] then []
    else
      var last := rows[|rows| - 1];
      assert forall x :: x in rows <==> x in rows[..|rows| - 1] || x == last;
      DetallesDe(rows[..|rows| - 1], idPlanilla) + (if last.idPlanilla == idPlanilla then [last] else [])
  }

  /** Reading the stored details of a new planilla gives back exactly the run's rows. */
  lemma {:induction false} StoredDetalles(old_: seq<DetalleRow>, ds: seq<Detalle>, idPlanilla: int, first: int)
    requires forall k :: 0 <= k < |old_| ==> old_[k].idPlanilla < idPlanilla
    ensures DetallesDe(old_ + DetalleRows(ds, idPlanilla, first), idPlanilla) == DetalleRows(ds, idPlanilla, first)
    decreases |ds|
  {
    var rows := old_ + DetalleRows(ds, idPlanilla, first);
    if ds == [] {
      assert rows == old_;
      OldDetallesHidden(old_, idPlanilla);
    } else {
      var p := ds[..|ds| - 1];
      var last := ToDetalleRow(ds[|ds| - 1], first + |ds| - 1, idPlanilla);
      assert DetalleRows(ds, idPlanilla, first) == DetalleRows(p, idPlanilla, first) + [last];
      assert rows == (old_ + DetalleRows(p, idPlanilla, first)) + [last];
      StoredDetalles(old_, p, idPlanilla, first);
    }
  }

  lemma {:induction false} OldDetallesHidden(rows: seq<DetalleRow>, idPlanilla: int)
    requires forall k :: 0 <= k < |rows| ==> rows[k].idPlanilla < idPlanilla
    ensures DetallesDe(rows, idPlanilla) == []
  {
    if rows != [] {
      OldDetallesHidden(rows[..|rows| - 1], idPlanilla);
    }
  }

  /** The header row with the given id. */
  function FindPlanilla(ps: seq<Planilla>, id: int): (r: Option<Planilla>)
    ensures r.Some? ==> r.value in ps && r.value.id == id
    ensures r.None? ==> forall p :: p in ps ==> p.id != id
  {
    if ps == [] then None
    else if ps[0].id == id then Some(ps[0])
    else FindPlanilla(ps[1..], id)
  }

  /** A header appended with a fresh id is the one `GET /:id` finds. */
  lemma {:induction false} StoredHeader(ps: seq<Planilla>, h: Planilla)
    requires forall k :: 0 <= k < |ps| ==> ps[k].id < h.id
    ensures FindPlanilla(ps + [h], h.id) == Some(h)
  {
    if ps != [] {
      assert (ps + [h])[1..] == ps[1..] + [h];
      StoredHeader(ps[1..], h);
    }
  }

  /** The header of `GET /:id`; the renglón code comes from a LEFT JOIN. */
  datatype HeaderView = HeaderView(planilla: Planilla, codigoRenglon: Option<string>)

  /** A detail of `GET /:id`, joined with the employee and its renglón. */
  datatype DetalleView = DetalleView(
    row: DetalleRow, codigo: Option<string>, nombre: string, dpi: Option<string>, renglon: string,
    bonos: seq<Concepto>, descuentos: seq<Concepto>)

  datatype PlanillaView = PlanillaView(header: HeaderView, detalle: seq<DetalleView>)

  function DetalleKey(v: DetalleView): string {
    v.codigo.GetOr("")
  }

  /** The body of the loop of `POST /calcular` for one employee: the bonuses and
      discounts that apply, then gross and net pay. */
  method CalcularEmpleado(db: Database, p: RenglonParam, emp: Staff) returns (d: Detalle)
    ensures d == DetalleOf(db.bonos, db.descuentos, emp, RulesRenglon(p, emp))
  {
    var salarioBase := emp.salarioBase;
    var idRenglonEmpleado := RulesRenglon(p, emp);
    var bonos, totalBonos := CalcularReglas(db.bonos, emp.idEmpleado, idRenglonEmpleado, salarioBase);
    var descuentos, totalDescuentos := CalcularReglas(db.descuentos, emp.idEmpleado, idRenglonEmpleado, salarioBase);
    var salarioBruto := Round2(salarioBase + totalBonos);
    var salarioNeto := Round2(salarioBruto - totalDescuentos);
    d := Detalle(emp.idEmpleado, emp.codigo, emp.nombre, emp.dpi, emp.renglon, salarioBase,
                 totalBonos, totalDescuentos, salarioBruto, salarioNeto, bonos, descuentos);
    EmpleadoPay(db.bonos, db.descuentos, emp, idRenglonEmpleado, bonos, descuentos,
                totalBonos, totalDescuentos, salarioBruto, salarioNeto);
  }

  /** The record the loop body builds is the specified pay of the employee. */
  lemma {:induction false} EmpleadoPay(bonosT: RuleTables, descuentosT: RuleTables, s: Staff, idRenglon: int,
                                       bs: seq<Linea>, ds: seq<Linea>, tb: real, td: real, bruto: real, neto: real)
    requires bs == Lineas(QueryReglas(bonosT, s.idEmpleado, idRenglon), s.salarioBase)
    requires ds == Lineas(QueryReglas(descuentosT, s.idEmpleado, idRenglon), s.salarioBase)
    requires tb == SumMontos(bs) && td == SumMontos(ds)
    requires bruto == Round2(s.salarioBase + tb) && neto == Round2(bruto - td)
    ensures Detalle(s.idEmpleado, s.codigo, s.nombre, s.dpi, s.renglon, s.salarioBase, tb, td, bruto, neto, bs, ds)
      == DetalleOf(bonosT, descuentosT, s, idRenglon)
  {
    PayOfTotals(s, bs, ds, tb, td, bruto, neto);
    DetalleOfPay(bonosT, descuentosT, s, idRenglon, bs, ds);
  }

  /** The record the loop body builds from its totals is the specified pay. */
  lemma {:induction false} PayOfTotals(s: Staff, bs: seq<Linea>, ds: seq<Linea>, tb: real, td: real, bruto: real, neto: real)
    requires tb == SumMontos(bs) && td == SumMontos(ds)
    requires bruto == Round2(s.salarioBase + tb) && neto == Round2(bruto - td)
    ensures Detalle(s.idEmpleado, s.codigo, s.nombre, s.dpi, s.renglon, s.salarioBase, tb, td, bruto, neto, bs, ds) == Pay(s, bs, ds)
  {
  }

  /** The loop of `POST /calcular` over the selected employees, with the run's counters.
      The total is the exact sum of the net salaries. */
  method CalcularDetalle(db: Database, p: RenglonParam) returns (detalle: seq<Detalle>, totalEmpleados: int, totalMonto: real)
    ensures detalle == RunDetalle(db, p)
    ensures totalEmpleados == |detalle| == |Selection(db.empleados, db.renglones, p)|
    ensures totalMonto == Round2(SumNetos(detalle)) == SumNetos(detalle)
  {
    var empleados := Selection(db.empleados, db.renglones, p);
    detalle := [];
    totalEmpleados := 0;
    totalMonto := 0.0;
    var i := 0;
    while i < |empleados|
      invariant 0 <= i <= |empleados|
      invariant totalEmpleados == i
      invariant detalle == Detalles(db, p, empleados[..i])
      invariant totalMonto == SumNetos(detalle)
    {
      var d := CalcularEmpleado(db, p, empleados[i]);
      DetallesSnoc(db, p, empleados, i);
      SumNetosSnoc(detalle, d);
      totalEmpleados := totalEmpleados + 1;
      totalMonto := totalMonto + d.salarioNeto;
      detalle := detalle + [d];
      i := i + 1;
    }
    assert empleados[..i] == empleados;
    DetallesCents(db, p, empleados);
    totalMonto := Round2(totalMonto);
  }

  lemma {:induction false} DetallesSnoc(db: Database, p: RenglonParam, sel: seq<Staff>, i: int)
    requires 0 <= i < |sel|
    ensures Detalles(db, p, sel[..i + 1]) == Detalles(db, p, sel[..i]) + [DetalleOf(db.bonos, db.descuentos, sel[i], RulesRenglon(p, sel[i]))]
  {
    assert sel[..i + 1][..i] == sel[..i];
  }

  lemma {:induction false} SumNetosSnoc(ds: seq<Detalle>, d: Detalle)
    ensures SumNetos(ds + [d]) == SumNetos(ds) + d.salarioNeto
  {
    assert (ds + [d])[..|ds|] == ds;
  }

  /** One more detail stored: its row and its breakdown rows follow the previous ones. */
  lemma {:induction false} RowsSnoc(ds: seq<Detalle>, j: int, idPlanilla: int, first: int)
    requires 0 <= j < |ds|
    ensures DetalleRows(ds[..j + 1], idPlanilla, first) == DetalleRows(ds[..j], idPlanilla, first) + [ToDetalleRow(ds[j], first + j, idPlanilla)]
    ensures BreakdownRows(LinesOf(ds[..j + 1], true), first) == BreakdownRows(LinesOf(ds[..j], true), first) + LineaRows(ds[j].bonos, first + j)
    ensures BreakdownRows(LinesOf(ds[..j + 1], false), first) == BreakdownRows(LinesOf(ds[..j], false), first) + LineaRows(ds[j].descuentos, first + j)
  {
    DetalleRowsSnoc(ds, j, idPlanilla, first);
    BreakdownSnoc(ds, j, first, true);
    BreakdownSnoc(ds, j, first, false);
  }

  lemma DetalleRowsSnoc(ds: seq<Detalle>, j: int, idPlanilla: int, first: int)
    requires 0 <= j < |ds|
    ensures DetalleRows(ds[..j + 1], idPlanilla, first) == DetalleRows(ds[..j], idPlanilla, first) + [ToDetalleRow(ds[j], first + j, idPlanilla)]
  {
    var a := DetalleRows(ds[..j + 1], idPlanilla, first);
    var b := DetalleRows(ds[..j], idPlanilla, first) + [ToDetalleRow(ds[j], first + j, idPlanilla)];
    forall i | 0 <= i < |a|
      ensures a[i] == b[i]
    {
      if i < j {
        assert ds[..j + 1][i] == ds[..j][i];
      }
    }
  }

  lemma {:induction false} BreakdownSnoc(ds: seq<Detalle>, j: int, first: int, bonos: bool)
    requires 0 <= j < |ds|
    ensures BreakdownRows(LinesOf(ds[..j + 1], bonos), first) == BreakdownRows(LinesOf(ds[..j], bonos), first) + LineaRows(Lines(ds[j], bonos), first + j)
  {
    var lss := LinesOf(ds[..j + 1], bonos);
    assert lss[..j] == LinesOf(ds[..j], bonos);
    BreakdownRowsLast(lss, first);
  }

  lemma SnocAssoc<T>(a: seq<T>, b: seq<T>, c: seq<T>)
    ensures (a + b) + c == a + (b + c)
  {
  }

  /** The four tables a run writes, with the next values of the IDENTITY columns of
      `Planillas` and `PlanillaDetalle`. */
  datatype Tables = Tables(
    planillas: seq<Planilla>, detalles: seq<DetalleRow>, detalleBonos: seq<LineaRow>,
    detalleDescuentos: seq<LineaRow>, nextPlanilla: int, nextDetalle: int)

  /** Identity values only grow: every stored id is below the next one, and every
      reference points at a stored or earlier row. */
  predicate ValidTables(t: Tables) {
    (forall k :: 0 <= k < |t.planillas| ==> t.planillas[k].id < t.nextPlanilla) &&
    (forall k :: 0 <= k < |t.detalles| ==> t.detalles[k].idPlanilla < t.nextPlanilla && t.detalles[k].id < t.nextDetalle) &&
    (forall k :: 0 <= k < |t.detalleBonos| ==> t.detalleBonos[k].idDetalle < t.nextDetalle) &&
    (forall k :: 0 <= k < |t.detalleDescuentos| ==> t.detalleDescuentos[k].idDetalle < t.nextDetalle)
  }

  /** The tables after inserting a header, which takes the next identity value. */
  function WithHeader(t: Tables, h: Planilla): Tables {
    t.(planillas := t.planillas + [h], nextPlanilla := t.nextPlanilla + 1)
  }

  /** The tables after inserting one detail row and its breakdown rows. */
  function WithDetalle(t: Tables, d: Detalle, idPlanilla: int): Tables {
    t.(detalles := t.detalles + [ToDetalleRow(d, t.nextDetalle, idPlanilla)],
       detalleBonos := t.detalleBonos + LineaRows(d.bonos, t.nextDetalle),
       detalleDescuentos := t.detalleDescuentos + LineaRows(d.descuentos, t.nextDetalle),
       nextDetalle := t.nextDetalle + 1)
  }

  /** The tables after inserting the details of a run, one after the other. */
  function WithDetalles(t: Tables, ds: seq<Detalle>, idPlanilla: int): Tables {
    t.(detalles := t.detalles + DetalleRows(ds, idPlanilla, t.nextDetalle),
       detalleBonos := t.detalleBonos + BreakdownRows(LinesOf(ds, true), t.nextDetalle),
       detalleDescuentos := t.detalleDescuentos + BreakdownRows(LinesOf(ds, false), t.nextDetalle),
       nextDetalle := t.nextDetalle + |ds|)
  }

  lemma {:induction false} WithDetallesSnoc(t: Tables, ds: seq<Detalle>, j: int, idPlanilla: int)
    requires 0 <= j < |ds|
    ensures WithDetalles(t, ds[..j + 1], idPlanilla) == WithDetalle(WithDetalles(t, ds[..j], idPlanilla), ds[j], idPlanilla)
  {
    var first := t.nextDetalle;
    RowsSnoc(ds, j, idPlanilla, first);
    SnocAssoc(t.detalles, DetalleRows(ds[..j], idPlanilla, first), [ToDetalleRow(ds[j], first + j, idPlanilla)]);
    SnocAssoc(t.detalleBonos, BreakdownRows(LinesOf(ds[..j], true), first), LineaRows(ds[j].bonos, first + j));
    SnocAssoc(t.detalleDescuentos, BreakdownRows(LinesOf(ds[..j], false), first), LineaRows(ds[j].descuentos, first + j));
  }

  class PayrollStore {
    var planillas: seq<Planilla>
    var detalles: seq<DetalleRow>
    var detalleBonos: seq<LineaRow>
    var detalleDescuentos: seq<LineaRow>
    /** The next values of the IDENTITY columns of `Planillas` and `PlanillaDetalle`. */
    var nextPlanilla: int
    var nextDetalle: int

    /** The tables as a value. */
    ghost function State(): Tables
      reads this
    {
      Tables(planillas, detalles, detalleBonos, detalleDescuentos, nextPlanilla, nextDetalle)
    }

    ghost predicate Valid()
      reads this
    {
      ValidTables(State())
    }

    constructor ()
      ensures Valid() && State() == Tables([], [], [], [], 1, 1)
    {
      planillas, detalles, detalleBonos, detalleDescuentos := [], [], [], [];
      nextPlanilla, nextDetalle := 1, 1;
    }

    /** `POST /calcular`. A run with no employee is refused with 400 before anything is
        stored; otherwise the run is computed employee by employee and stored as one
        header, one detail row per employee and one row per breakdown entry. */
    method Calcular(db: Database, mes: JsVal, anio: JsVal, idRenglon: JsVal) returns (out: Outcome<Run>)
      requires Valid()
      modifies this
      ensures Valid()
      ensures var p := ParseRenglonParam(idRenglon);
        (out.Fail? && out.status == BadRequest) <==> Selection(db.empleados, db.renglones, p) == []
      ensures var p := ParseRenglonParam(idRenglon);
        (out.Fail? && out.status == ServerError) <==>
          Selection(db.empleados, db.renglones, p) != [] && (p.NaNRenglon? || ParseInt(mes).None? || ParseInt(anio).None?)
      ensures out.Fail? ==> out.status in {BadRequest, ServerError}
      ensures out.Fail? ==> out.message == (if out.status == BadRequest then SinEmpleados else ErrorCalculo)
      ensures out.Fail? ==> State() == old(State())
      ensures out.Ok? ==>
        var p := ParseRenglonParam(idRenglon);
        var run := out.value;
        ParseInt(mes) == Some(run.mes) && ParseInt(anio) == Some(run.anio) && !p.NaNRenglon? &&
        run.detalle == RunDetalle(db, p) &&
        run.totalEmpleados == |run.detalle| &&
        run.totalMonto == Round2(SumNetos(run.detalle)) &&
        run.estado == Generada &&
        run.idPlanilla == old(nextPlanilla) &&
        run.idRenglon == HeaderRenglon(p) &&
        State() == WithDetalles(WithHeader(old(State()), Planilla(run.idPlanilla, run.mes, run.anio, HeaderRenglon(p),
          Descripcion(p, run.mes, run.anio), run.totalEmpleados, run.totalMonto, Generada)), run.detalle, run.idPlanilla)
    {
      var mesInt := ParseInt(mes);
      var anioInt := ParseInt(anio);
      var p := ParseRenglonParam(idRenglon);

      var empleados := Selection(db.empleados, db.renglones, p);
      if |empleados| == 0 {
        return Fail(BadRequest, SinEmpleados);
      }
      if p.NaNRenglon? {
        // the first rule query is sent a NaN renglón id, which the driver rejects
        return Fail(ServerError, ErrorCalculo);
      }

      var detalle, totalEmpleados, totalMonto := CalcularDetalle(db, p);

      if mesInt.None? || anioInt.None? {
        // the header insert is sent a NaN month or year, which the driver rejects
        return Fail(ServerError, ErrorCalculo);
      }

      var idPlanilla := nextPlanilla;
      GuardarCabecera(Planilla(idPlanilla, mesInt.value, anioInt.value, HeaderRenglon(p),
        Descripcion(p, mesInt.value, anioInt.value), totalEmpleados, totalMonto, Generada));
      GuardarDetalle(detalle, idPlanilla);
      out := Ok(Run(idPlanilla, mesInt.value, anioInt.value, HeaderRenglon(p), totalEmpleados, totalMonto, Generada, detalle));
    }

    /** Step 3 of the route: the header row, which takes the next identity value. */
    method GuardarCabecera(h: Planilla)
      requires Valid() && h.id == nextPlanilla
      modifies this`planillas, this`nextPlanilla
      ensures Valid()
      ensures State() == WithHeader(old(State()), h)
    {
      planillas := planillas + [h];
      nextPlanilla := nextPlanilla + 1;
    }

    /** Step 4 of the route: one detail row per employee, each followed by its bonus and
        discount rows. */
    method GuardarDetalle(ds: seq<Detalle>, idPlanilla: int)
      requires Valid() && idPlanilla < nextPlanilla
      modifies this`detalles, this`nextDetalle, this`detalleBonos, this`detalleDescuentos
      ensures Valid()
      ensures State() == WithDetalles(old(State()), ds, idPlanilla)
    {
      var j := 0;
      assert ds[..0] == [];
      while j < |ds|
        invariant 0 <= j <= |ds|
        invariant State() == WithDetalles(old(State()), ds[..j], idPlanilla)
        invariant Valid() && idPlanilla < nextPlanilla
      {
        GuardarUno(ds[j], idPlanilla);
        WithDetallesSnoc(old(State()), ds, j, idPlanilla);
        j := j + 1;
      }
      assert ds[..j] == ds;
    }

    /** One iteration of step 4: the detail row, then its bonus and discount rows. */
    method GuardarUno(d: Detalle, idPlanilla: int)
      requires Valid() && idPlanilla < nextPlanilla
      modifies this`detalles, this`nextDetalle, this`detalleBonos, this`detalleDescuentos
      ensures Valid()
      ensures State() == WithDetalle(old(State()), d, idPlanilla)
    {
      var idDetalle := nextDetalle;
      detalles := detalles + [ToDetalleRow(d, idDetalle, idPlanilla)];
      nextDetalle := nextDetalle + 1;
      InsertLineas(d.bonos, idDetalle, true);
      InsertLineas(d.descuentos, idDetalle, false);
    }

    /** The inner loops of step 4: one breakdown row per entry, for the given detail. */
    method InsertLineas(ls: seq<Linea>, idDetalle: int, bonos: bool)
      requires Valid() && idDetalle < nextDetalle
      modifies this`detalleBonos, this`detalleDescuentos
      ensures Valid()
      ensures bonos ==> detalleBonos == old(detalleBonos) + LineaRows(ls, idDetalle) && detalleDescuentos == old(detalleDescuentos)
      ensures !bonos ==> detalleDescuentos == old(detalleDescuentos) + LineaRows(ls, idDetalle) && detalleBonos == old(detalleBonos)
    {
      var k := 0;
      while k < |ls|
        invariant 0 <= k <= |ls|
        invariant Valid()
        invariant bonos ==> detalleBonos == old(detalleBonos) + LineaRows(ls[..k], idDetalle) && detalleDescuentos == old(detalleDescuentos)
        invariant !bonos ==> detalleDescuentos == old(detalleDescuentos) + LineaRows(ls[..k], idDetalle) && detalleBonos == old(detalleBonos)
      {
        var row := LineaRow(idDetalle, ls[k].idRegla, ls[k].nombre, ls[k].monto);
        if bonos {
          detalleBonos := detalleBonos + [row];
        } else {
          detalleDescuentos := detalleDescuentos + [row];
        }
        assert LineaRows(ls[..k + 1], idDetalle) == LineaRows(ls[..k], idDetalle) + [row];
        k := k + 1;
      }
      assert ls[..k] == ls;
    }

    /** `GET /:id`: 400 for an id that is not an integer, 404 for an unknown planilla;
        otherwise the header and its details joined with the employee and its renglón,
        ordered by employee code, each with its stored breakdown. */
    function GetById(db: Database, id: string): (r: Outcome<PlanillaView>)
      reads this
      ensures ParseIntStr(id).None? <==> r == Fail(BadRequest, "id_planilla inv\U{00E1}lido")
      ensures ParseIntStr(id).Some? ==>
        (r == Fail(NotFound, "Planilla no encontrada") <==> FindPlanilla(planillas, ParseIntStr(id).value).None?)
      ensures r.Ok? ==> ParseIntStr(id).Some? && Some(r.value.header.planilla) == FindPlanilla(planillas, ParseIntStr(id).value)
      ensures r.Ok? ==> SortedBy(r.value.detalle, DetalleKey)
      ensures r.Ok? ==> forall v :: v in r.value.detalle ==>
        v.row in DetallesDe(detalles, r.value.header.planilla.id) &&
        v.bonos == ConceptosDe(detalleBonos, v.row.id) && v.descuentos == ConceptosDe(detalleDescuentos, v.row.id)
      ensures r.Ok? ==> forall d :: d in DetallesDe(detalles, r.value.header.planilla.id) && Resolves(db, d) ==>
        Joined(db, d) in r.value.detalle
      ensures r.Ok? ==> forall v :: v in r.value.detalle ==> Resolves(db, v.row) && v == Joined(db, v.row)
      ensures r.Ok? ==> var h := r.value.header.planilla;
        (r.value.header.codigoRenglon.None? <==> h.idRenglon.None? || FindRenglon(db.renglones, h.idRenglon.value).None?)
      ensures r.Ok? && r.value.header.codigoRenglon.Some? ==> var h := r.value.header.planilla;
        h.idRenglon.Some? && r.value.header.codigoRenglon.value == FindRenglon(db.renglones, h.idRenglon.value).value.codigo
    {
      match ParseIntStr(id)
      case None => Fail(BadRequest, "id_planilla inv\U{00E1}lido")
      case Some(k) =>
        match FindPlanilla(planillas, k)
        case None => Fail(NotFound, "Planilla no encontrada")
        case Some(h) =>
          var codigo := match h.idRenglon
            case None => None
            case Some(ir) => (match FindRenglon(db.renglones, ir) case Some(ren) => Some(ren.codigo) case None => None);
          var vs := JoinDetalles(db, DetallesDe(detalles, k));
          SortBySame(vs, DetalleKey);
          Ok(PlanillaView(HeaderView(h, codigo), SortBy(vs, DetalleKey)))
    }

    /** A detail's employee exists and has a renglón that exists: both `INNER JOIN`s
        find a row. */
    predicate Resolves(db: Database, d: DetalleRow) {
      FindEmpleado(db.empleados, d.idEmpleado).Some? && RenglonOf(FindEmpleado(db.empleados, d.idEmpleado).value, db.renglones).Some?
    }

    /** The joined row of a detail whose joins succeed. */
    function Joined(db: Database, d: DetalleRow): DetalleView
      requires Resolves(db, d)
      reads this
    {
      var e := FindEmpleado(db.empleados, d.idEmpleado).value;
      DetalleView(d, e.codigo, NombreCompleto(e), e.dpi, RenglonOf(e, db.renglones).value.codigo,
        ConceptosDe(detalleBonos, d.id), ConceptosDe(detalleDescuentos, d.id))
    }

    /** The details joined with `Empleados` and `Renglones` (INNER JOINs): every view
        comes from a detail with its stored breakdown, and every detail whose joins
        succeed has its view. */
    function JoinDetalles(db: Database, rows: seq<DetalleRow>): (vs: seq<DetalleView>)
      reads this
      ensures forall v :: v in vs ==>
        (v.row in rows && v.bonos == ConceptosDe(detalleBonos, v.row.id) && v.descuentos == ConceptosDe(detalleDescuentos, v.row.id))
      ensures forall d :: d in rows && Resolves(db, d) ==> Joined(db, d) in vs
      ensures forall v :: v in vs ==> Resolves(db, v.row) && v == Joined(db, v.row)
    {
      if rows == [] then []
      else
        var r := rows[0];
        var rest := JoinDetalles(db, rows[1..]);
        match FindEmpleado(db.empleados, r.idEmpleado)
        case None => rest
        case Some(e) =>
          match RenglonOf(e, db.renglones)
          case None => rest
          case Some(ren) =>
            [DetalleView(r, e.codigo, NombreCompleto(e), e.dpi, ren.codigo,
                         ConceptosDe(detalleBonos, r.id), ConceptosDe(detalleDescuentos, r.id))] + rest
    }
  }

  /** What `GET /:id` reads back after `POST /calcular` stored a run: its header, its
      detail rows and, for each detail, the bonus and discount breakdowns it computed. */
  lemma {:induction false} StoredRun(t: Tables, h: Planilla, ds: seq<Detalle>, i: int)
    requires ValidTables(t) && h.id == t.nextPlanilla
    requires 0 <= i < |ds|
    ensures var t' := WithDetalles(WithHeader(t, h), ds, h.id);
      FindPlanilla(t'.planillas, h.id) == Some(h) &&
      DetallesDe(t'.detalles, h.id) == DetalleRows(ds, h.id, t.nextDetalle) &&
      DetallesDe(t'.detalles, h.id)[i].id == t.nextDetalle + i &&
      ConceptosDe(t'.detalleBonos, t.nextDetalle + i) == ConceptosOf(ds[i].bonos) &&
      ConceptosDe(t'.detalleDescuentos, t.nextDetalle + i) == ConceptosOf(ds[i].descuentos)
  {
    var t' := WithDetalles(WithHeader(t, h), ds, h.id);
    assert t'.planillas == t.planillas + [h];
    StoredHeader(t.planillas, h);
    assert t'.detalles == t.detalles + DetalleRows(ds, h.id, t.nextDetalle);
    StoredDetalles(t.detalles, ds, h.id, t.nextDetalle);
    StoredRunBonos(t, h, ds, i);
    StoredRunDescuentos(t, h, ds, i);
  }

  lemma {:induction false} StoredRunBonos(t: Tables, h: Planilla, ds: seq<Detalle>, i: int)
    requires ValidTables(t) && 0 <= i < |ds|
    ensures ConceptosDe(WithDetalles(WithHeader(t, h), ds, h.id).detalleBonos, t.nextDetalle + i) == ConceptosOf(ds[i].bonos)
  {
    var rows := WithDetalles(WithHeader(t, h), ds, h.id).detalleBonos;
    assert rows == t.detalleBonos + BreakdownRows(LinesOf(ds, true), t.nextDetalle);
    StoredBreakdown(t.detalleBonos, LinesOf(ds, true), t.nextDetalle, i);
    assert LinesOf(ds, true)[i] == ds[i].bonos;
  }

  lemma {:induction false} StoredRunDescuentos(t: Tables, h: Planilla, ds: seq<Detalle>, i: int)
    requires ValidTables(t) && 0 <= i < |ds|
    ensures ConceptosDe(WithDetalles(WithHeader(t, h), ds, h.id).detalleDescuentos, t.nextDetalle + i) == ConceptosOf(ds[i].descuentos)
  {
    var rows := WithDetalles(WithHeader(t, h), ds, h.id).detalleDescuentos;
    assert rows == t.detalleDescuentos + BreakdownRows(LinesOf(ds, false), t.nextDetalle);
    StoredBreakdown(t.detalleDescuentos, LinesOf(ds, false), t.nextDetalle, i);
    assert LinesOf(ds, false)[i] == ds[i].descuentos;
  }
}
