/** The payroll page's client-side derivations over the detail rows of the run on screen:
    the bonus and discount column names, the totals row and the per-concept column totals,
    the amount a cell shows, and the year selector. Amounts are `Number(...)` values, with
    `None` standing for NaN. */
module PayrollView {
  import opened Prelude
  import opened Numbers

  /** An entry of a row's `bonos` or `descuentos` list, as it arrives in JSON. */
  datatype Item = Item(nombre: Option<string>, monto: JsVal)

  /** A detail row as the page receives it; an absent or non-array list is `None`. */
  datatype ViewRow = ViewRow(
    salarioBase: JsVal,
    totalBonos: JsVal,
    totalDescuentos: JsVal,
    salarioBruto: JsVal,
    salarioNeto: JsVal,
    bonos: Option<seq<Item>>,
    descuentos: Option<seq<Item>>)

  /** The bonus list (`bonos` true) or the discount list of a row: `row.bonos || []`. */
  function Items(r: ViewRow, bonos: bool): seq<Item> {
    (if bonos then r.bonos else r.descuentos).GetOr([])
  }

  // ---------------------------------------------------------------------------------
  // Column names: `conceptosBonos` / `conceptosDescuentos`
  // ---------------------------------------------------------------------------------

  /** The truthy names of a list of entries, in order (`if (b?.nombre) set.add(b.nombre)`). */
  function Names(items: seq<Item>): seq<string> {
    if items == [] then []
    else
      var last := items[|items| - 1];
      Names(items[..|items| - 1]) + (if Present(last.nombre) then [last.nombre.value] else [])
  }

  /** The names met while walking every row's list, row by row. */
  function NamesOf(rows: seq<ViewRow>, bonos: bool): seq<string> {
    if rows == [] then [] else NamesOf(rows[..|rows| - 1], bonos) + Names(Items(rows[|rows| - 1], bonos))
  }

  /** `Set.add` on a set read back in insertion order. */
  function AddName(d: seq<string>, x: string): seq<string> {
    if x in d then d else d + [x]
  }

  /** Adding the names `s`, one after the other, to the insertion-ordered set `d`. */
  function DedupInto(d: seq<string>, s: seq<string>): seq<string> {
    if s == [] then d else AddName(DedupInto(d, s[..|s| - 1]), s[|s| - 1])
  }

  predicate NoDup(s: seq<string>) {
    forall i, j :: 0 <= i < j < |s| ==> s[i] != s[j]
  }

  /** The ordered set holds exactly the names it started with and the names added. */
  lemma {:induction false} DedupMembers(d: seq<string>, s: seq<string>, x: string)
    ensures x in DedupInto(d, s) <==> x in d || x in s
  {
    if s != [] {
      var p := s[..|s| - 1];
      DedupMembers(d, p, x);
      assert s == p + [s[|s| - 1]];
    }
  }

  /** No name is listed twice. */
  lemma {:induction false} DedupNoDup(d: seq<string>, s: seq<string>)
    requires NoDup(d)
    ensures NoDup(DedupInto(d, s))
  {
    if s != [] {
      DedupNoDup(d, s[..|s| - 1]);
    }
  }

  /** Names are listed in the order they are first met: adding more names never moves
      the ones already listed. */
  lemma {:induction false} DedupPrefix(d: seq<string>, s: seq<string>)
    ensures |d| <= |DedupInto(d, s)| && DedupInto(d, s)[..|d|] == d
  {
    if s != [] {
      DedupPrefix(d, s[..|s| - 1]);
    }
  }

  lemma {:induction false} DedupAppend(d: seq<string>, s: seq<string>, t: seq<string>)
    ensures DedupInto(d, s + t) == DedupInto(DedupInto(d, s), t)
  {
    if t != [] {
      var p := t[..|t| - 1];
      assert (s + t)[..|s + t| - 1] == s + p;
      assert (s + t)[|s + t| - 1] == t[|t| - 1];
      DedupAppend(d, s, p);
    } else {
      assert s + t == s;
    }
  }

  /** The column names are the truthy names found in any row's list. */
  lemma {:induction false} NamesOfMembers(rows: seq<ViewRow>, bonos: bool, x: string)
    ensures x in NamesOf(rows, bonos) <==>
      exists i, k :: 0 <= i < |rows| && 0 <= k < |Items(rows[i], bonos)| &&
        Items(rows[i], bonos)[k].nombre == Some(x) && x != ""
  {
    if rows != [] {
      var p := rows[..|rows| - 1];
      var last := Items(rows[|rows| - 1], bonos);
      NamesOfMembers(p, bonos, x);
      NamesMembers(last, x);
      if x in NamesOf(rows, bonos) {
        if x in NamesOf(p, bonos) {
          var i, k :| 0 <= i < |p| && 0 <= k < |Items(p[i], bonos)| && Items(p[i], bonos)[k].nombre == Some(x) && x != "";
          assert rows[i] == p[i];
        }
      } else {
        forall i, k | 0 <= i < |rows| && 0 <= k < |Items(rows[i], bonos)|
          ensures !(Items(rows[i], bonos)[k].nombre == Some(x) && x != "")
        {
          if i < |p| {
            assert rows[i] == p[i];
          }
        }
      }
    }
  }

  lemma {:induction false} NamesMembers(items: seq<Item>, x: string)
    ensures x in Names(items) <==> exists k :: 0 <= k < |items| && items[k].nombre == Some(x) && x != ""
  {
    if items != [] {
      var p := items[..|items| - 1];
      NamesMembers(p, x);
      if x in Names(p) {
        var k :| 0 <= k < |p| && p[k].nombre == Some(x) && x != "";
        assert items[k] == p[k];
      }
      if exists k :: 0 <= k < |items| && items[k].nombre == Some(x) && x != "" {
        var k :| 0 <= k < |items| && items[k].nombre == Some(x) && x != "";
        if k < |p| {
          assert p[k] == items[k];
        }
      }
    }
  }

  /** One row's names added to the ordered set (the inner `forEach`). */
  method AddNames(d: seq<string>, items: seq<Item>) returns (r: seq<string>)
    ensures r == DedupInto(d, Names(items))
  {
    r := d;
    var j := 0;
    while j < |items|
      invariant 0 <= j <= |items|
      invariant r == DedupInto(d, Names(items[..j]))
    {
      assert items[..j + 1][..j] == items[..j];
      var extra := if Present(items[j].nombre) then [items[j].nombre.value] else [];
      assert Names(items[..j + 1]) == Names(items[..j]) + extra;
      DedupAppend(d, Names(items[..j]), extra);
      assert extra != [] ==> extra[..0] == [];
      if Present(items[j].nombre) && !(items[j].nombre.value in r) {
        r := r + [items[j].nombre.value];
      }
      j := j + 1;
    }
    assert items[..|items|] == items;
  }

  /** `conceptosBonos` (`bonos` true) or `conceptosDescuentos`: no rows on screen gives no
      columns; otherwise the names in first-seen order. */
  method Conceptos(detalle: Option<seq<ViewRow>>, bonos: bool) returns (r: seq<string>)
    ensures detalle.None? ==> r == []
    ensures detalle.Some? ==> r == DedupInto([], NamesOf(detalle.value, bonos))
  {
    if detalle.None? {
      return [];
    }
    var rows := detalle.value;
    r := [];
    var i := 0;
    while i < |rows|
      invariant 0 <= i <= |rows|
      invariant r == DedupInto([], NamesOf(rows[..i], bonos))
    {
      r := AddNames(r, Items(rows[i], bonos));
      assert rows[..i + 1][..i] == rows[..i];
      DedupAppend([], NamesOf(rows[..i], bonos), Names(Items(rows[i], bonos)));
      i := i + 1;
    }
    assert rows[..|rows|] == rows;
  }

  // ---------------------------------------------------------------------------------
  // Totals row: `totales`
  // ---------------------------------------------------------------------------------

  /** An amount that may be NaN. */
  type Amount = Option<real>

  /** JavaScript `+` and `-` on numbers: NaN absorbs. */
  function AddN(a: Amount, b: Amount): (r: Amount)
    ensures r.Some? <==> a.Some? && b.Some?
  {
    if a.Some? && b.Some? then Some(a.value + b.value) else None
  }

  function SubN(a: Amount, b: Amount): (r: Amount)
    ensures r.Some? <==> a.Some? && b.Some?
  {
    if a.Some? && b.Some? then Some(a.value - b.value) else None
  }

  /** `Number(x || 0)`. */
  function NumOr0(v: JsVal): (r: Amount)
    ensures !Truthy(v) ==> r == Some(0.0)
    ensures Truthy(v) ==> r == ToNumber(v)
  {
    if Truthy(v) then ToNumber(v) else Some(0.0)
  }

  datatype Column = Sueldo | Bonos | Descuentos | Bruto | Liquido

  /** A row's gross: `salarioBruto`, or base plus bonuses when the row does not carry it. */
  function RowBruto(r: ViewRow): Amount {
    if r.salarioBruto.JsUndefined? then AddN(NumOr0(r.salarioBase), NumOr0(r.totalBonos))
    else ToNumber(r.salarioBruto)
  }

  /** One row's contribution to a column of the totals row; net falls back to gross minus
      discounts when the row does not carry it. */
  function RowAmount(r: ViewRow, c: Column): Amount {
    match c
    case Sueldo => NumOr0(r.salarioBase)
    case Bonos => NumOr0(r.totalBonos)
    case Descuentos => NumOr0(r.totalDescuentos)
    case Bruto => RowBruto(r)
    case Liquido =>
      if r.salarioNeto.JsUndefined? then SubN(RowBruto(r), NumOr0(r.totalDescuentos))
      else ToNumber(r.salarioNeto)
  }

  /** A column of amounts, one per row. */
  function ColumnOf(rows: seq<ViewRow>, c: Column): (xs: seq<Amount>)
    ensures |xs| == |rows|
    ensures forall i :: 0 <= i < |rows| ==> xs[i] == RowAmount(rows[i], c)
  {
    seq(|rows|, i requires 0 <= i < |rows| => RowAmount(rows[i], c))
  }

  /** The sum of amounts, starting from 0. */
  function SumN(xs: seq<Amount>): Amount {
    if xs == [] then Some(0.0) else AddN(SumN(xs[..|xs| - 1]), xs[|xs| - 1])
  }

  function ColumnSum(rows: seq<ViewRow>, c: Column): Amount {
    SumN(ColumnOf(rows, c))
  }

  /** A sum is NaN exactly when one of its amounts is NaN. */
  lemma {:induction false} SumNaN(xs: seq<Amount>)
    ensures SumN(xs).None? <==> exists i :: 0 <= i < |xs| && xs[i].None?
  {
    if xs != [] {
      var p := xs[..|xs| - 1];
      SumNaN(p);
      if exists i :: 0 <= i < |p| && p[i].None? {
        var i :| 0 <= i < |p| && p[i].None?;
        assert xs[i] == p[i];
      }
      if exists i :: 0 <= i < |xs| && xs[i].None? {
        var i :| 0 <= i < |xs| && xs[i].None?;
        if i < |p| {
          assert p[i] == xs[i];
        }
      }
    }
  }

  /** Summing pointwise sums (or differences) is summing each column then adding. */
  lemma {:induction false} SumPointwise(xs: seq<Amount>, ys: seq<Amount>, zs: seq<Amount>, minus: bool)
    requires |xs| == |ys| == |zs|
    requires forall i :: 0 <= i < |zs| ==> zs[i] == (if minus then SubN(xs[i], ys[i]) else AddN(xs[i], ys[i]))
    ensures SumN(zs) == (if minus then SubN(SumN(xs), SumN(ys)) else AddN(SumN(xs), SumN(ys)))
  {
    if zs != [] {
      var n := |zs| - 1;
      SumPointwise(xs[..n], ys[..n], zs[..n], minus);
    }
  }

  /** Adding a row counts it and adds its amounts to the column totals. */
  lemma TotalsSnoc(rows: seq<ViewRow>, i: int)
    requires 0 <= i < |rows|
    ensures TotalsOf(rows[..i + 1]) == Totales(TotalsOf(rows[..i]).empleados + 1,
      AddN(TotalsOf(rows[..i]).sueldos, RowAmount(rows[i], Sueldo)),
      AddN(TotalsOf(rows[..i]).bonificaciones, RowAmount(rows[i], Bonos)),
      AddN(TotalsOf(rows[..i]).descuentos, RowAmount(rows[i], Descuentos)),
      AddN(TotalsOf(rows[..i]).bruto, RowAmount(rows[i], Bruto)),
      AddN(TotalsOf(rows[..i]).liquido, RowAmount(rows[i], Liquido)))
  {
    ColumnSumSnoc(rows, i, Sueldo);
    ColumnSumSnoc(rows, i, Bonos);
    ColumnSumSnoc(rows, i, Descuentos);
    ColumnSumSnoc(rows, i, Bruto);
    ColumnSumSnoc(rows, i, Liquido);
  }

  /** A column total is NaN exactly when some row's amount in it is NaN. */
  lemma ColumnSumNaN(rows: seq<ViewRow>, c: Column)
    ensures ColumnSum(rows, c).None? <==> exists i :: 0 <= i < |rows| && RowAmount(rows[i], c).None?
  {
    SumNaN(ColumnOf(rows, c));
  }

  /** Adding a row adds its amount to every column total. */
  lemma ColumnSumSnoc(rows: seq<ViewRow>, i: int, c: Column)
    requires 0 <= i < |rows|
    ensures ColumnSum(rows[..i + 1], c) == AddN(ColumnSum(rows[..i], c), RowAmount(rows[i], c))
  {
    var xs := ColumnOf(rows[..i + 1], c);
    assert xs[..i] == ColumnOf(rows[..i], c);
  }

  datatype Totales = Totales(
    empleados: int,
    sueldos: Amount,
    bonificaciones: Amount,
    descuentos: Amount,
    bruto: Amount,
    liquido: Amount)

  const ZeroTotales := Totales(0, Some(0.0), Some(0.0), Some(0.0), Some(0.0), Some(0.0))

  /** The totals row: the row count and the sum of each column. */
  function TotalsOf(rows: seq<ViewRow>): Totales {
    Totales(|rows|, ColumnSum(rows, Sueldo), ColumnSum(rows, Bonos), ColumnSum(rows, Descuentos),
      ColumnSum(rows, Bruto), ColumnSum(rows, Liquido))
  }

  predicate Defaulted(rows: seq<ViewRow>) {
    forall i :: 0 <= i < |rows| ==> rows[i].salarioBruto.JsUndefined? && rows[i].salarioNeto.JsUndefined?
  }

  /** When no row carries its gross or net, the totals row is consistent: total gross is
      total base plus total bonuses, and total net is total gross minus total discounts. */
  lemma DefaultedTotals(rows: seq<ViewRow>)
    requires Defaulted(rows)
    ensures ColumnSum(rows, Bruto) == AddN(ColumnSum(rows, Sueldo), ColumnSum(rows, Bonos))
    ensures ColumnSum(rows, Liquido) == SubN(ColumnSum(rows, Bruto), ColumnSum(rows, Descuentos))
  {
    SumPointwise(ColumnOf(rows, Sueldo), ColumnOf(rows, Bonos), ColumnOf(rows, Bruto), false);
    SumPointwise(ColumnOf(rows, Bruto), ColumnOf(rows, Descuentos), ColumnOf(rows, Liquido), true);
  }

  // ---------------------------------------------------------------------------------
  // Per-concept column totals: `totalesConceptos`
  // ---------------------------------------------------------------------------------

  /** The object key `c.bonos[nombre]` uses: the JSON null of a NULL name becomes
      `"null"`. */
  function Key(nombre: Option<string>): string {
    nombre.GetOr("null")
  }

  /** `c[nombre] || 0`: an absent key, a 0 and a NaN all read as 0. */
  function Or0(m: map<string, Amount>, k: string): real {
    if k in m && m[k].Some? then m[k].value else 0.0
  }

  /** `c[nombre] = (c[nombre] || 0) + Number(b.monto || 0)` for one entry. */
  function AddEntry(m: map<string, Amount>, it: Item): map<string, Amount> {
    m[Key(it.nombre) := AddN(Some(Or0(m, Key(it.nombre))), NumOr0(it.monto))]
  }

  /** The per-concept totals after adding the entries in order. */
  function ConceptFold(m: map<string, Amount>, items: seq<Item>): map<string, Amount> {
    if items == [] then m else AddEntry(ConceptFold(m, items[..|items| - 1]), items[|items| - 1])
  }

  /** Every row's list, one after the other. */
  function Entries(rows: seq<ViewRow>, bonos: bool): seq<Item> {
    if rows == [] then [] else Entries(rows[..|rows| - 1], bonos) + Items(rows[|rows| - 1], bonos)
  }

  /** Reference definition: the sum of the amounts of the entries under key `k`. */
  function SumFor(items: seq<Item>, k: string): real
    requires AllNumeric(items)
  {
    if items == [] then 0.0
    else
      var last := items[|items| - 1];
      SumFor(items[..|items| - 1], k) + (if Key(last.nombre) == k then NumOr0(last.monto).value else 0.0)
  }

  predicate AllNumeric(items: seq<Item>) {
    forall k :: 0 <= k < |items| ==> NumOr0(items[k].monto).Some?
  }

  lemma {:induction false} ConceptFoldAppend(m: map<string, Amount>, s: seq<Item>, t: seq<Item>)
    ensures ConceptFold(m, s + t) == ConceptFold(ConceptFold(m, s), t)
  {
    if t != [] {
      var p := t[..|t| - 1];
      assert (s + t)[..|s + t| - 1] == s + p;
      assert (s + t)[|s + t| - 1] == t[|t| - 1];
      ConceptFoldAppend(m, s, p);
    } else {
      assert s + t == s;
    }
  }

  /** A concept has a column total exactly when some entry carries its name. */
  lemma {:induction false} ConceptKeys(items: seq<Item>, k: string)
    ensures k in ConceptFold(map[], items) <==> exists j :: 0 <= j < |items| && Key(items[j].nombre) == k
  {
    if items != [] {
      var p := items[..|items| - 1];
      ConceptKeys(p, k);
      if exists j :: 0 <= j < |p| && Key(p[j].nombre) == k {
        var j :| 0 <= j < |p| && Key(p[j].nombre) == k;
        assert items[j] == p[j];
      }
      if exists j :: 0 <= j < |items| && Key(items[j].nombre) == k {
        var j :| 0 <= j < |items| && Key(items[j].nombre) == k;
        if j < |p| {
          assert p[j] == items[j];
        }
      }
    }
  }

  /** With every amount a number, a concept's column total is the sum of the amounts of
      the entries with that name. */
  lemma {:induction false} ConceptTotal(items: seq<Item>, k: string)
    requires AllNumeric(items)
    ensures Or0(ConceptFold(map[], items), k) == SumFor(items, k)
    ensures k in ConceptFold(map[], items) ==> ConceptFold(map[], items)[k] == Some(SumFor(items, k))
  {
    if items != [] {
      var p := items[..|items| - 1];
      assert AllNumeric(p) by {
        forall j | 0 <= j < |p| ensures NumOr0(p[j].monto).Some? {
          assert p[j] == items[j];
        }
      }
      ConceptTotal(p, k);
      ConceptFoldValues(p);
      assert NumOr0(items[|items| - 1].monto).Some?;
    }
  }

  /** With every amount a number, no concept total is NaN. */
  lemma {:induction false} ConceptFoldValues(items: seq<Item>)
    requires AllNumeric(items)
    ensures forall k :: k in ConceptFold(map[], items) ==> ConceptFold(map[], items)[k].Some?
  {
    if items != [] {
      var p := items[..|items| - 1];
      assert AllNumeric(p) by {
        forall j | 0 <= j < |p| ensures NumOr0(p[j].monto).Some? {
          assert p[j] == items[j];
        }
      }
      ConceptFoldValues(p);
      assert NumOr0(items[|items| - 1].monto).Some?;
    }
  }

  lemma ConceptFoldSnoc(m: map<string, Amount>, items: seq<Item>, j: int)
    requires 0 <= j < |items|
    ensures ConceptFold(m, items[..j + 1]) == AddEntry(ConceptFold(m, items[..j]), items[j])
  {
    assert items[..j + 1][..j] == items[..j];
  }

  /** Adding a row adds its entries, in order, to the per-concept totals. */
  lemma ConceptsSnoc(rows: seq<ViewRow>, i: int, bonos: bool)
    requires 0 <= i < |rows|
    ensures ConceptFold(map[], Entries(rows[..i + 1], bonos)) ==
      ConceptFold(ConceptFold(map[], Entries(rows[..i], bonos)), Items(rows[i], bonos))
  {
    assert rows[..i + 1][..i] == rows[..i];
    ConceptFoldAppend(map[], Entries(rows[..i], bonos), Items(rows[i], bonos));
  }

  /** One row's list added to the per-concept totals (the inner `forEach`). */
  method AddConceptos(m: map<string, Amount>, items: seq<Item>) returns (r: map<string, Amount>)
    ensures r == ConceptFold(m, items)
  {
    r := m;
    var j := 0;
    while j < |items|
      invariant 0 <= j <= |items|
      invariant r == ConceptFold(m, items[..j])
    {
      ConceptFoldSnoc(m, items, j);
      var nombre := Key(items[j].nombre);
      var monto := NumOr0(items[j].monto);
      var next := r[nombre := AddN(Some(Or0(r, nombre)), monto)];
      assert next == AddEntry(r, items[j]);
      r := next;
      j := j + 1;
    }
    assert items[..|items|] == items;
  }

  /** One row added to the totals row (the accumulator updates of the outer `forEach`). */
  method AddRow(t: Totales, row: ViewRow) returns (t': Totales)
    ensures t' == Totales(t.empleados + 1, AddN(t.sueldos, RowAmount(row, Sueldo)),
      AddN(t.bonificaciones, RowAmount(row, Bonos)), AddN(t.descuentos, RowAmount(row, Descuentos)),
      AddN(t.bruto, RowAmount(row, Bruto)), AddN(t.liquido, RowAmount(row, Liquido)))
  {
    var salarioBase := NumOr0(row.salarioBase);
    var totalBonos := NumOr0(row.totalBonos);
    var totalDesc := NumOr0(row.totalDescuentos);
    var salarioBruto := if !row.salarioBruto.JsUndefined? then ToNumber(row.salarioBruto) else AddN(salarioBase, totalBonos);
    var salarioNeto := if !row.salarioNeto.JsUndefined? then ToNumber(row.salarioNeto) else SubN(salarioBruto, totalDesc);
    t' := Totales(t.empleados + 1, AddN(t.sueldos, salarioBase), AddN(t.bonificaciones, totalBonos),
      AddN(t.descuentos, totalDesc), AddN(t.bruto, salarioBruto), AddN(t.liquido, salarioNeto));
  }

  /** `totales` and `totalesConceptos`: with no rows on screen everything is 0 and both
      concept maps are empty; otherwise each row is counted once, each column summed and
      each entry added to its concept's total. */
  method Totals(detalle: Option<seq<ViewRow>>) returns (t: Totales, cb: map<string, Amount>, cd: map<string, Amount>)
    ensures detalle.None? ==> t == ZeroTotales && cb == map[] && cd == map[]
    ensures detalle.Some? ==> t == TotalsOf(detalle.value)
    ensures detalle.Some? ==> cb == ConceptFold(map[], Entries(detalle.value, true))
    ensures detalle.Some? ==> cd == ConceptFold(map[], Entries(detalle.value, false))
  {
    t, cb, cd := ZeroTotales, map[], map[];
    if detalle.None? {
      return;
    }
    var rows := detalle.value;
    var i := 0;
    while i < |rows|
      invariant 0 <= i <= |rows|
      invariant t == TotalsOf(rows[..i])
      invariant cb == ConceptFold(map[], Entries(rows[..i], true))
      invariant cd == ConceptFold(map[], Entries(rows[..i], false))
    {
      var row := rows[i];
      assert rows[..i + 1][..i] == rows[..i];
      TotalsSnoc(rows, i);
      assert rows[..i + 1][i] == row;
      t := AddRow(t, row);
      ConceptsSnoc(rows, i, true);
      ConceptsSnoc(rows, i, false);
      cb := AddConceptos(cb, Items(row, true));
      cd := AddConceptos(cd, Items(row, false));
      i := i + 1;
    }
    assert rows[..|rows|] == rows;
  }

  // ---------------------------------------------------------------------------------
  // Cells and the year selector
  // ---------------------------------------------------------------------------------

  /** The amount in a row's cell for a concept: the first entry with that name, or 0. */
  function Cell(items: seq<Item>, nombre: string): (v: JsVal)
    ensures (exists k :: 0 <= k < |items| && items[k].nombre == Some(nombre)) || v == JsNum(0.0)
  {
    if items == [] then JsNum(0.0)
    else if items[0].nombre == Some(nombre) then items[0].monto
    else Cell(items[1..], nombre)
  }

  /** The cell shows the first matching entry's amount, and 0 when the row lacks the concept. */
  lemma {:induction false} CellIsFirstMatch(items: seq<Item>, nombre: string, k: int)
    requires 0 <= k < |items| && items[k].nombre == Some(nombre)
    requires forall j :: 0 <= j < k ==> items[j].nombre != Some(nombre)
    ensures Cell(items, nombre) == items[k].monto
  {
    if k > 0 {
      CellIsFirstMatch(items[1..], nombre, k - 1);
    }
  }

  lemma {:induction false} CellMissing(items: seq<Item>, nombre: string)
    requires forall j :: 0 <= j < |items| ==> items[j].nombre != Some(nombre)
    ensures Cell(items, nombre) == JsNum(0.0)
  {
    if items != [] {
      CellMissing(items[1..], nombre);
    }
  }

  /** `anios`: the years 2020 to 2035, ascending. */
  method Anios() returns (ys: seq<int>)
    ensures |ys| == 16
    ensures forall i :: 0 <= i < |ys| ==> ys[i] == 2020 + i
  {
    ys := [];
    var y := 2020;
    while y <= 2035
      invariant 2020 <= y <= 2036
      invariant |ys| == y - 2020
      invariant forall i :: 0 <= i < |ys| ==> ys[i] == 2020 + i
    {
      ys := ys + [y];
      y := y + 1;
    }
  }
}
